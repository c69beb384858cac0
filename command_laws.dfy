/** Laws of the command records: each encoder is inverted by its decoder on
    the values it can write, the fixed-size records have the sizes of their
    layouts, the sentinel slots map none and -1 onto each other, and the two
    writers that disagree with their decoders lose exactly what they lose. */
module CommandLaws {
  import opened Wire
  import opened ObjectLists
  import opened Commands

  // ---------------------------------------------------------------------------
  // Shared slots

  /** The i32 target slot reads back through the u32 sentinel reader. */
  lemma TargetI32Write(x: Option<ObjectId>, u: Bytes)
    requires TargetI32Bytes(x).Some?
    ensures TargetFrom(TargetI32Bytes(x).value + u) == Ok(x, u)
    ensures |TargetI32Bytes(x).value| == 4
  {
    match x
    case None => OptU32Write(None, u);
    case Some(id) => OptU32Write(Some(id), u);
  }

  /** A target written as `u32 as i32` reads back unless it is the sentinel itself. */
  lemma TargetBitsWrite(x: Option<ObjectId>, u: Bytes)
    requires x != Some(0xFFFF_FFFF)
    ensures TargetFrom(EOptU32(x) + u) == Ok(x, u)
  {
    OptU32Write(x, u);
  }

  /** An i8 count written for a list of at most 127 objects reads back as that length. */
  lemma I8CountWrite(l: ObjectsList, u: Bytes)
    requires Len(l) < 0x80
    ensures I8Count(l) == Some(EI8(Len(l)))
    ensures I8From(EI8(Len(l)) + u) == Ok(Len(l), u)
  {
    I8Write(Len(l), u);
  }

  /** The i8 sentinels: -1 and only -1 decodes to no player and to no parameter;
      any other negative player fails, and a parameter keeps its bit pattern. */
  lemma MinusOneSentinels(p: I8, u: Bytes)
    ensures OptPlayerOf(Parsed(p, u)) == Ok(None, u) <==> p == -1
    ensures OptPlayerOf(Parsed(p, u)).Fail? <==> p < -1
    ensures 0 <= p ==> OptPlayerOf(Parsed(p, u)) == Ok(Some(p), u)
    ensures OptParamOf(p) == None <==> p == -1
    ensures p != -1 ==> OptParamOf(p) == Some(Unsigned8(p)) && Signed8(OptParamOf(p).value) == p
  {}

  // ---------------------------------------------------------------------------
  // Round trips of the fixed-size records

  lemma CreateRoundTrip(c: CreateCommand, t: Bytes)
    ensures CreateFrom(CreateBytes(c) + t) == Ok(c, t)
  {
    var t6 := E32(c.location.2) + t;
    var t5 := E32(c.location.1) + t6;
    var t4 := E32(c.location.0) + t5;
    var t3 := E8(0) + t4;
    var t2 := E8(c.playerId) + t3;
    var t1 := E16(c.unitTypeId) + t2;
    assert CreateBytes(c) + t == E8(0) + (E16(c.unitTypeId) + (E8(c.playerId) + (E8(0) + (E32(c.location.0) + (E32(c.location.1) + (E32(c.location.2) + t)))))) by {
      var p1 := E8(0);
      var p2 := p1 + E16(c.unitTypeId);
      var p3 := p2 + E8(c.playerId);
      var p4 := p3 + E8(0);
      var p5 := p4 + E32(c.location.0);
      var p6 := p5 + E32(c.location.1);
      var p7 := p6 + E32(c.location.2);
      assert CreateBytes(c) == p7;
      Associate(p6, E32(c.location.2), t);
      Associate(p5, E32(c.location.1), t6);
      Associate(p4, E32(c.location.0), t5);
      Associate(p3, E8(0), t4);
      Associate(p2, E8(c.playerId), t3);
      Associate(p1, E16(c.unitTypeId), t2);
    }
    U8Write(0, t1);
    U16Write(c.unitTypeId, t2);
    U8Write(c.playerId, t3);
    U8Write(0, t4);
    F32Write(c.location.0, t5);
    F32Write(c.location.1, t6);
    F32Write(c.location.2, t);
  }

  lemma AddResourceRoundTrip(c: AddResourceCommand, t: Bytes)
    ensures AddResourceFrom(AddResourceBytes(c) + t) == Ok(c, t)
  {
    var t3 := E32(c.amount) + t;
    var t2 := E8(0) + t3;
    var t1 := E8(c.resource) + t2;
    assert AddResourceBytes(c) + t == E8(c.playerId) + (E8(c.resource) + (E8(0) + (E32(c.amount) + t))) by {
      var p1 := E8(c.playerId);
      var p2 := p1 + E8(c.resource);
      var p3 := p2 + E8(0);
      var p4 := p3 + E32(c.amount);
      assert AddResourceBytes(c) == p4;
      Associate(p3, E32(c.amount), t);
      Associate(p2, E8(0), t3);
      Associate(p1, E8(c.resource), t2);
    }
    U8Write(c.playerId, t1);
    U8Write(c.resource, t2);
    U8Write(0, t3);
    F32Write(c.amount, t);
  }

  lemma ResignRoundTrip(c: ResignCommand, t: Bytes)
    ensures ResignFrom(ResignBytes(c) + t) == Ok(c, t)
  {
    var t2 := EBool(c.dropped) + t;
    var t1 := E8(c.commPlayerId) + t2;
    assert ResignBytes(c) + t == E8(c.playerId) + (E8(c.commPlayerId) + (EBool(c.dropped) + t)) by {
      var p1 := E8(c.playerId);
      var p2 := p1 + E8(c.commPlayerId);
      var p3 := p2 + EBool(c.dropped);
      assert ResignBytes(c) == p3;
      Associate(p2, EBool(c.dropped), t);
      Associate(p1, E8(c.commPlayerId), t2);
    }
    U8Write(c.playerId, t1);
    U8Write(c.commPlayerId, t2);
    BoolWrite(c.dropped, t);
  }

  /** Make and Research round-trip when the target fits the i32 it is written as. */
  lemma MakeRoundTrip(c: MakeCommand, t: Bytes)
    requires TargetI32Bytes(c.targetId).Some?
    ensures MakeBytes(c).Some?
    ensures MakeFrom(MakeBytes(c).value + t) == Ok(c, t)
  {
    var target := TargetI32Bytes(c.targetId).value;
    var t5 := target + t;
    var t4 := E16(c.unitTypeId) + t5;
    var t3 := E8(0) + t4;
    var t2 := E8(c.playerId) + t3;
    var t1 := E32(c.buildingId) + t2;
    assert MakeBytes(c).value + t == Zeros(3) + (E32(c.buildingId) + (E8(c.playerId) + (E8(0) + (E16(c.unitTypeId) + (target + t))))) by {
      var p1 := Zeros(3);
      var p2 := p1 + E32(c.buildingId);
      var p3 := p2 + E8(c.playerId);
      var p4 := p3 + E8(0);
      var p5 := p4 + E16(c.unitTypeId);
      var p6 := p5 + target;
      assert MakeBytes(c).value == p6;
      Associate(p5, target, t);
      Associate(p4, E16(c.unitTypeId), t5);
      Associate(p3, E8(0), t4);
      Associate(p2, E8(c.playerId), t3);
      Associate(p1, E32(c.buildingId), t2);
    }
    SkipWrite(Zeros(3), t1);
    U32Write(c.buildingId, t2);
    U8Write(c.playerId, t3);
    U8Write(0, t4);
    U16Write(c.unitTypeId, t5);
    TargetI32Write(c.targetId, t);
  }

  lemma ResearchRoundTrip(c: ResearchCommand, t: Bytes)
    requires TargetI32Bytes(c.targetId).Some?
    ensures ResearchBytes(c).Some?
    ensures ResearchFrom(ResearchBytes(c).value + t) == Ok(c, t)
  {
    var target := TargetI32Bytes(c.targetId).value;
    var t5 := target + t;
    var t4 := E16(c.techId) + t5;
    var t3 := E8(0) + t4;
    var t2 := E8(c.playerId) + t3;
    var t1 := E32(c.buildingId) + t2;
    assert ResearchBytes(c).value + t == Zeros(3) + (E32(c.buildingId) + (E8(c.playerId) + (E8(0) + (E16(c.techId) + (target + t))))) by {
      var p1 := Zeros(3);
      var p2 := p1 + E32(c.buildingId);
      var p3 := p2 + E8(c.playerId);
      var p4 := p3 + E8(0);
      var p5 := p4 + E16(c.techId);
      var p6 := p5 + target;
      assert ResearchBytes(c).value == p6;
      Associate(p5, target, t);
      Associate(p4, E16(c.techId), t5);
      Associate(p3, E8(0), t4);
      Associate(p2, E8(c.playerId), t3);
      Associate(p1, E32(c.buildingId), t2);
    }
    SkipWrite(Zeros(3), t1);
    U32Write(c.buildingId, t2);
    U8Write(c.playerId, t3);
    U8Write(0, t4);
    U16Write(c.techId, t5);
    TargetI32Write(c.targetId, t);
  }

  lemma CancelBuildRoundTrip(c: CancelBuildCommand, t: Bytes)
    ensures CancelBuildFrom(CancelBuildBytes(c) + t) == Ok(c, t)
  {
    var t2 := E32(c.playerId) + t;
    var t1 := E32(c.buildingId) + t2;
    assert CancelBuildBytes(c) + t == Zeros(3) + (E32(c.buildingId) + (E32(c.playerId) + t)) by {
      var p1 := Zeros(3);
      var p2 := p1 + E32(c.buildingId);
      var p3 := p2 + E32(c.playerId);
      assert CancelBuildBytes(c) == p3;
      Associate(p2, E32(c.playerId), t);
      Associate(p1, E32(c.buildingId), t2);
    }
    SkipWrite(Zeros(3), t1);
    U32Write(c.buildingId, t2);
    U32Write(c.playerId, t);
  }

  lemma QueueRoundTrip(c: QueueCommand, t: Bytes)
    ensures QueueFrom(QueueBytes(c) + t) == Ok(c, t)
  {
    var t3 := E16(c.amount) + t;
    var t2 := E16(c.unitTypeId) + t3;
    var t1 := E32(c.buildingId) + t2;
    assert QueueBytes(c) + t == Zeros(3) + (E32(c.buildingId) + (E16(c.unitTypeId) + (E16(c.amount) + t))) by {
      var p1 := Zeros(3);
      var p2 := p1 + E32(c.buildingId);
      var p3 := p2 + E16(c.unitTypeId);
      var p4 := p3 + E16(c.amount);
      assert QueueBytes(c) == p4;
      Associate(p3, E16(c.amount), t);
      Associate(p2, E16(c.unitTypeId), t3);
      Associate(p1, E32(c.buildingId), t2);
    }
    SkipWrite(Zeros(3), t1);
    U32Write(c.buildingId, t2);
    U16Write(c.unitTypeId, t3);
    U16Write(c.amount, t);
  }

  /** Buy and Sell. */
  lemma MarketRoundTrip(c: MarketCommand, t: Bytes)
    ensures MarketFrom(MarketBytes(c) + t) == Ok(c, t)
  {
    var t3 := E32(c.marketId) + t;
    var t2 := EI8(c.amount) + t3;
    var t1 := E8(c.resource) + t2;
    assert MarketBytes(c) + t == E8(c.playerId) + (E8(c.resource) + (EI8(c.amount) + (E32(c.marketId) + t))) by {
      var p1 := E8(c.playerId);
      var p2 := p1 + E8(c.resource);
      var p3 := p2 + EI8(c.amount);
      var p4 := p3 + E32(c.marketId);
      assert MarketBytes(c) == p4;
      Associate(p3, E32(c.marketId), t);
      Associate(p2, EI8(c.amount), t3);
      Associate(p1, E8(c.resource), t2);
    }
    U8Write(c.playerId, t1);
    U8Write(c.resource, t2);
    I8Write(c.amount, t3);
    U32Write(c.marketId, t);
  }

  /** A frame of `4 + 4n` bytes holds n parameters, and the writer's bytes read
      back whenever fewer than four parameters are written. */
  lemma UserPatchAIRoundTrip(c: UserPatchAICommand, t: Bytes)
    requires |c.params| < 4
    ensures UserPatchAIFrom(UserPatchAIBytes(c) + t, 4 + 4 * |c.params|) == Ok(c, t)
  {
    assert UserPatchParamCount(4 + 4 * |c.params|) == Some(|c.params|) by {
      assert (4 + 4 * |c.params| - 4) / 4 == |c.params|;
    }
    var t3 := Concat(c.params, E32) + t;
    var t2 := E8(0) + t3;
    var t1 := E8(c.playerId) + t2;
    assert UserPatchAIBytes(c) + t == E8(c.aiAction) + (E8(c.playerId) + (E8(0) + (Concat(c.params, E32) + t))) by {
      var p1 := E8(c.aiAction);
      var p2 := p1 + E8(c.playerId);
      var p3 := p2 + E8(0);
      var p4 := p3 + Concat(c.params, E32);
      assert UserPatchAIBytes(c) == p4;
      Associate(p3, Concat(c.params, E32), t);
      Associate(p2, E8(0), t3);
      Associate(p1, E8(c.playerId), t2);
    }
    U8Write(c.aiAction, t1);
    U8Write(c.playerId, t2);
    U8Write(0, t3);
    U32sRoundTrip(c.params, t);
  }

  /** The parameter count: `(size - 4) / 4`, accepted only below four. */
  lemma UserPatchParamCountRule(size: U32)
    ensures UserPatchParamCount(size).Some? <==> 4 <= size < 20
    ensures 4 <= size < 20 ==> UserPatchParamCount(size) == Some((size - 4) / 4)
    ensures UserPatchParamCount(size).None? ==> forall s :: UserPatchAIFrom(s, size) == Fail(BadGuard)
  {}

  // ---------------------------------------------------------------------------
  // Round trips of the list-carrying records

  lemma OrderRoundTrip(c: OrderCommand, t: Bytes)
    requires TargetI32Bytes(c.targetId).Some? && Len(c.objects) < 0xFF && IdsFitI32(c.objects)
    ensures OrderBytes(c).Some?
    ensures OrderFrom(OrderBytes(c).value + t) == Ok(c.(objects := Explicit(c.objects)), t)
  {
    var target := TargetI32Bytes(c.targetId).value;
    var t6 := ObjectsListBytes(c.objects) + t;
    var t5 := E32(c.location.1) + t6;
    var t4 := E32(c.location.0) + t5;
    var t3 := E32(Len(c.objects)) + t4;
    var t2 := target + t3;
    var t1 := Zeros(2) + t2;
    assert OrderBytes(c).value + t == E8(c.playerId) + (Zeros(2) + (target + (E32(Len(c.objects)) + (E32(c.location.0) + (E32(c.location.1) + (ObjectsListBytes(c.objects) + t)))))) by {
      var p1 := E8(c.playerId);
      var p2 := p1 + Zeros(2);
      var p3 := p2 + target;
      var p4 := p3 + E32(Len(c.objects));
      var p5 := p4 + E32(c.location.0);
      var p6 := p5 + E32(c.location.1);
      var p7 := p6 + ObjectsListBytes(c.objects);
      assert OrderBytes(c).value == p7;
      Associate(p6, ObjectsListBytes(c.objects), t);
      Associate(p5, E32(c.location.1), t6);
      Associate(p4, E32(c.location.0), t5);
      Associate(p3, E32(Len(c.objects)), t4);
      Associate(p2, target, t3);
      Associate(p1, Zeros(2), t2);
    }
    U8Write(c.playerId, t1);
    SkipWrite(Zeros(2), t2);
    TargetI32Write(c.targetId, t3);
    I32OfU32Write(Len(c.objects), t4);
    F32Write(c.location.0, t5);
    F32Write(c.location.1, t6);
    ObjectsListRoundTrip(c.objects, t);
  }

  lemma StopRoundTrip(c: StopCommand, t: Bytes)
    requires Len(c.objects) < 0x80 && IdsFitI32(c.objects)
    ensures StopBytes(c).Some?
    ensures StopFrom(StopBytes(c).value + t) == Ok(StopCommand(Explicit(c.objects)), t)
  {
    var t1 := ObjectsListBytes(c.objects) + t;
    assert StopBytes(c).value + t == EI8(Len(c.objects)) + (ObjectsListBytes(c.objects) + t) by {
      var p1 := EI8(Len(c.objects));
      var p2 := p1 + ObjectsListBytes(c.objects);
      assert StopBytes(c).value == p2;
      Associate(p1, ObjectsListBytes(c.objects), t);
    }
    I8CountWrite(c.objects, t1);
    ObjectsListRoundTrip(c.objects, t);
  }

  lemma WorkRoundTrip(c: WorkCommand, t: Bytes)
    requires c.targetId != Some(0xFFFF_FFFF) && Len(c.objects) < 0x80 && IdsFitI32(c.objects)
    ensures WorkBytes(c).Some?
    ensures WorkFrom(WorkBytes(c).value + t) == Ok(c.(objects := Explicit(c.objects)), t)
  {
    var t6 := ObjectsListBytes(c.objects) + t;
    var t5 := E32(c.location.1) + t6;
    var t4 := E32(c.location.0) + t5;
    var t3 := Zeros(3) + t4;
    var t2 := EI8(Len(c.objects)) + t3;
    var t1 := EOptU32(c.targetId) + t2;
    assert WorkBytes(c).value + t == Zeros(3) + (EOptU32(c.targetId) + (EI8(Len(c.objects)) + (Zeros(3) + (E32(c.location.0) + (E32(c.location.1) + (ObjectsListBytes(c.objects) + t)))))) by {
      var p1 := Zeros(3);
      var p2 := p1 + EOptU32(c.targetId);
      var p3 := p2 + EI8(Len(c.objects));
      var p4 := p3 + Zeros(3);
      var p5 := p4 + E32(c.location.0);
      var p6 := p5 + E32(c.location.1);
      var p7 := p6 + ObjectsListBytes(c.objects);
      assert WorkBytes(c).value == p7;
      Associate(p6, ObjectsListBytes(c.objects), t);
      Associate(p5, E32(c.location.1), t6);
      Associate(p4, E32(c.location.0), t5);
      Associate(p3, Zeros(3), t4);
      Associate(p2, EI8(Len(c.objects)), t3);
      Associate(p1, EOptU32(c.targetId), t2);
    }
    SkipWrite(Zeros(3), t1);
    TargetBitsWrite(c.targetId, t2);
    I8CountWrite(c.objects, t3);
    SkipWrite(Zeros(3), t4);
    F32Write(c.location.0, t5);
    F32Write(c.location.1, t6);
    ObjectsListRoundTrip(c.objects, t);
  }

  /** The corrected Move writer round-trips every field. */
  lemma MoveRoundTrip(c: MoveCommand, t: Bytes)
    requires c.targetId != Some(0xFFFF_FFFF) && Len(c.objects) < 0x80 && IdsFitI32(c.objects)
    ensures MoveBytes(c).Some?
    ensures MoveFrom(MoveBytes(c).value + t) == Ok(c.(objects := Explicit(c.objects)), t)
  {
    var u := ObjectsListBytes(c.objects) + t;
    MoveLayout(c, t);
    MoveHeadWrite(c, u);
    ObjectsListRoundTrip(c.objects, t);
  }

  /** The move bytes field by field, ahead of a suffix. */
  function MoveFieldsBytes(c: MoveCommand, u: Bytes): Bytes
    requires Len(c.objects) < 0x80
  {
    E8(c.playerId) + (Zeros(2) + (EOptU32(c.targetId) + (EI8(Len(c.objects))
      + (Zeros(3) + (E32(c.location.0) + (E32(c.location.1) + u))))))
  }

  lemma MoveLayout(c: MoveCommand, t: Bytes)
    requires Len(c.objects) < 0x80
    ensures MoveBytes(c).Some?
    ensures MoveBytes(c).value + t == MoveFieldsBytes(c, ObjectsListBytes(c.objects) + t)
  {
    var t7 := ObjectsListBytes(c.objects) + t;
    var t6 := E32(c.location.1) + t7;
    var t5 := E32(c.location.0) + t6;
    var t4 := Zeros(3) + t5;
    var t3 := EI8(Len(c.objects)) + t4;
    var t2 := EOptU32(c.targetId) + t3;
    var t1 := Zeros(2) + t2;
    I8CountWrite(c.objects, []);
    var p1 := E8(c.playerId);
    var p2 := p1 + Zeros(2);
    var p3 := p2 + EOptU32(c.targetId);
    var p4 := p3 + EI8(Len(c.objects));
    var p5 := p4 + Zeros(3);
    var p6 := p5 + E32(c.location.0);
    var p7 := p6 + E32(c.location.1);
    var p8 := p7 + ObjectsListBytes(c.objects);
    assert MoveBytes(c).value == p8;
    Associate(p7, ObjectsListBytes(c.objects), t);
    Associate(p6, E32(c.location.1), t7);
    Associate(p5, E32(c.location.0), t6);
    Associate(p4, Zeros(3), t5);
    Associate(p3, EI8(Len(c.objects)), t4);
    Associate(p2, EOptU32(c.targetId), t3);
    Associate(p1, Zeros(2), t2);
  }

  /** The fields ahead of the objects read back, whatever follows them. */
  lemma MoveHeadWrite(c: MoveCommand, u: Bytes)
    requires c.targetId != Some(0xFFFF_FFFF) && Len(c.objects) < 0x80
    ensures MoveHeadFrom(MoveFieldsBytes(c, u)) == Ok((c.playerId, c.targetId, Len(c.objects), c.location), u)
  {
    var t6 := E32(c.location.1) + u;
    var t5 := E32(c.location.0) + t6;
    var t4 := Zeros(3) + t5;
    var t3 := EI8(Len(c.objects)) + t4;
    var t2 := EOptU32(c.targetId) + t3;
    var t1 := Zeros(2) + t2;
    U8Write(c.playerId, t1);
    SkipWrite(Zeros(2), t2);
    TargetBitsWrite(c.targetId, t3);
    I8CountWrite(c.objects, t4);
    SkipWrite(Zeros(3), t5);
    F32Write(c.location.0, t6);
    F32Write(c.location.1, u);
  }

  /** The Move writer as the source has it: everything reads back except the
      player id, which always reads back as 0. */
  lemma MoveWriterDropsPlayer(c: MoveCommand, t: Bytes)
    requires c.targetId != Some(0xFFFF_FFFF) && Len(c.objects) < 0x80 && IdsFitI32(c.objects)
    ensures MoveBytesAsWritten(c).Some?
    ensures MoveFrom(MoveBytesAsWritten(c).value + t)
         == Ok(c.(playerId := 0, objects := Explicit(c.objects)), t)
  {
    MoveRoundTrip(c.(playerId := 0), t);
    ZeroThenZeros();
    assert MoveBytesAsWritten(c) == MoveBytes(c.(playerId := 0));
  }

  lemma ZeroThenZeros()
    ensures E8(0) + Zeros(2) == Zeros(3)
  {
    assert Zeros(3) == [0, 0, 0] && Zeros(2) == [0, 0];
  }

  /** A concrete move that shows it: player 1 reads back as player 0. */
  lemma MoveWriterCounterexample()
    ensures var c := MoveCommand(1, None, (0, 0), List([]));
            MoveBytesAsWritten(c).Some? &&
            MoveFrom(MoveBytesAsWritten(c).value) == Ok(c.(playerId := 0), [])
  {
    var c := MoveCommand(1, None, (0, 0), List([]));
    MoveWriterDropsPlayer(c, []);
    assert MoveBytesAsWritten(c).value + [] == MoveBytesAsWritten(c).value;
  }

  /** The id the inline object slot carries: the single id of a one-element
      list, else the -1 sentinel. */
  function InlineId(l: ObjectsList): U32 {
    if l.List? && |l.ids| == 1 then l.ids[0] else 0xFFFF_FFFF
  }

  /** The objects of an AI order read back from the count, the inline slot
      and the trailing ids: one object travels in the inline slot alone. */
  lemma AIOrderObjectsRoundTrip(l: ObjectsList, t: Bytes)
    requires Len(l) < 0x80
    requires Len(l) > 1 ==> IdsFitI32(l)
    ensures |TrailingIdsBytes(l)| == 4 * Len(TrailingObjects(l))
    ensures AIOrderObjectsFrom(TrailingIdsBytes(l) + t, Len(l), InlineId(l)) == Ok(Explicit(l), t)
  {
    if Len(l) > 1 {
      ObjectsListRoundTrip(l, t);
    } else {
      assert TrailingIdsBytes(l) + t == t;
      if Len(l) == 0 {
        ObjectsListByCount(t, 0);
      } else {
        assert l.ids == [l.ids[0]];
      }
    }
  }


  /** The bytes after the AI-order target, taken apart field by field. */
  lemma AIOrderTailLayout(c: AIOrderCommand, t: Bytes)
    ensures AIOrderTailBytes(c) + t
         == Zeros(3) + (E32(c.targetLocation.0) + (E32(c.targetLocation.1) + (E32(c.targetLocation.2) + (E32(c.range) + (EBool(c.immediate) + (EBool(c.addToFront) + (Zeros(2) + (TrailingIdsBytes(c.objects) + t))))))))
  {
    var t8 := TrailingIdsBytes(c.objects) + t;
    var t7 := Zeros(2) + t8;
    var t6 := EBool(c.addToFront) + t7;
    var t5 := EBool(c.immediate) + t6;
    var t4 := E32(c.range) + t5;
    var t3 := E32(c.targetLocation.2) + t4;
    var t2 := E32(c.targetLocation.1) + t3;
    var t1 := E32(c.targetLocation.0) + t2;
    var p1 := Zeros(3);
    var p2 := p1 + E32(c.targetLocation.0);
    var p3 := p2 + E32(c.targetLocation.1);
    var p4 := p3 + E32(c.targetLocation.2);
    var p5 := p4 + E32(c.range);
    var p6 := p5 + EBool(c.immediate);
    var p7 := p6 + EBool(c.addToFront);
    var p8 := p7 + Zeros(2);
    var p9 := p8 + TrailingIdsBytes(c.objects);
    assert AIOrderTailBytes(c) == p9;
    Associate(p8, TrailingIdsBytes(c.objects), t);
    Associate(p7, Zeros(2), t8);
    Associate(p6, EBool(c.addToFront), t7);
    Associate(p5, EBool(c.immediate), t6);
    Associate(p4, E32(c.range), t5);
    Associate(p3, E32(c.targetLocation.2), t4);
    Associate(p2, E32(c.targetLocation.1), t3);
    Associate(p1, E32(c.targetLocation.0), t2);
  }

  /** The fields after the target player read back into any head record, with
      the objects rebuilt from the count and the inline id. */
  lemma AIOrderTailRoundTrip(c: AIOrderCommand, head: AIOrderCommand, t: Bytes)
    requires Len(c.objects) < 0x80
    requires Len(c.objects) > 1 ==> IdsFitI32(c.objects)
    ensures |AIOrderTailBytes(c)| == 23 + 4 * Len(TrailingObjects(c.objects))
    ensures AIOrderTailFrom(AIOrderTailBytes(c) + t, Len(c.objects), InlineId(c.objects), head)
         == Ok(head.(objects := Explicit(c.objects), targetLocation := c.targetLocation,
                     range := c.range, immediate := c.immediate, addToFront := c.addToFront), t)
  {
    var loc := c.targetLocation;
    var t8 := TrailingIdsBytes(c.objects) + t;
    var t7 := Zeros(2) + t8;
    var t6 := EBool(c.addToFront) + t7;
    var t5 := EBool(c.immediate) + t6;
    var t4 := E32(c.range) + t5;
    var t3 := E32(loc.2) + t4;
    var t2 := E32(loc.1) + t3;
    var t1 := E32(loc.0) + t2;
    AIOrderTailLayout(c, t);
    SkipWrite(Zeros(3), t1);
    F32Write(loc.0, t2);
    F32Write(loc.1, t3);
    F32Write(loc.2, t4);
    F32Write(c.range, t5);
    BoolWrite(c.immediate, t6);
    BoolWrite(c.addToFront, t7);
    U16Write(0, t8);
    assert Zeros(2) == E16(0);
    AIOrderObjectsRoundTrip(c.objects, t);
  }


  /** The AI-order bytes, taken apart field by field. */
  lemma AIOrderLayout(c: AIOrderCommand, slot: I8, t: Bytes)
    requires AIOrderBytesWith(c, EI8(slot)).Some?
    ensures AIOrderBytesWith(c, EI8(slot)).value + t
         == AIOrderHeadBytes(c, EI8(slot) + (AIOrderTailBytes(c) + t))
  {
    var t9 := AIOrderTailBytes(c) + t;
    var t8 := EI8(slot) + t9;
    var t7 := TargetI32Bytes(c.targetId).value + t8;
    var t6 := E8(0) + t7;
    var t5 := EI8(c.orderPriority) + t6;
    var t4 := E16(c.orderType) + t5;
    var t3 := InlineObjectBytes(c.objects) + t4;
    var t2 := E8(c.issuer) + t3;
    var t1 := E8(c.playerId) + t2;
    var p1 := EI8(Len(c.objects));
    var p2 := p1 + E8(c.playerId);
    var p3 := p2 + E8(c.issuer);
    var p4 := p3 + InlineObjectBytes(c.objects);
    var p5 := p4 + E16(c.orderType);
    var p6 := p5 + EI8(c.orderPriority);
    var p7 := p6 + E8(0);
    var p8 := p7 + TargetI32Bytes(c.targetId).value;
    var p9 := p8 + EI8(slot);
    var p10 := p9 + AIOrderTailBytes(c);
    assert AIOrderBytesWith(c, EI8(slot)).value == p10;
    Associate(p9, AIOrderTailBytes(c), t);
    Associate(p8, EI8(slot), t9);
    Associate(p7, TargetI32Bytes(c.targetId).value, t8);
    Associate(p6, E8(0), t7);
    Associate(p5, EI8(c.orderPriority), t6);
    Associate(p4, E16(c.orderType), t5);
    Associate(p3, InlineObjectBytes(c.objects), t4);
    Associate(p2, E8(c.issuer), t3);
    Associate(p1, E8(c.playerId), t2);
  }

  /** The AI-order layout round-trips whatever the target-player slot holds,
      as long as the slot is a single byte the decoder accepts. */
  lemma AIOrderRoundTripWith(c: AIOrderCommand, slot: I8, t: Bytes)
    requires Len(c.objects) < 0x80 && TargetI32Bytes(c.targetId).Some?
    requires Len(c.objects) > 1 ==> IdsFitI32(c.objects)
    requires slot >= -1
    ensures AIOrderBytesWith(c, EI8(slot)).Some?
    ensures AIOrderFrom(AIOrderBytesWith(c, EI8(slot)).value + t)
         == Ok(c.(objects := Explicit(c.objects),
                  targetPlayerId := if slot == -1 then None else Some(slot)), t)
  {
    MinusOneIsSentinel();
    var head := AIOrderCommand(c.playerId, c.issuer, List([]), c.orderType, c.orderPriority, c.targetId,
                               if slot == -1 then None else Some(slot), (0, 0, 0), 0, false, false);
    var t9 := AIOrderTailBytes(c) + t;
    AIOrderLayout(c, slot, t);
    AIOrderHeadWrite(c, EI8(slot) + t9);
    I8Write(slot, t9);
    AIOrderTailRoundTrip(c, head, t);
    assert OptPlayerOf(Parsed(slot, t9)) == Ok(head.targetPlayerId, t9);
  }

  /** The AI order's fields before the target-player byte. */
  function AIOrderHeadBytes(c: AIOrderCommand, u: Bytes): Bytes
    requires Len(c.objects) < 0x80 && TargetI32Bytes(c.targetId).Some?
  {
    EI8(Len(c.objects)) + (E8(c.playerId) + (E8(c.issuer) + (InlineObjectBytes(c.objects) + (E16(c.orderType) + (EI8(c.orderPriority) + (E8(0) + (TargetI32Bytes(c.targetId).value + u)))))))
  }

  lemma AIOrderHeadWrite(c: AIOrderCommand, u: Bytes)
    requires Len(c.objects) < 0x80 && TargetI32Bytes(c.targetId).Some?
    ensures AIOrderHeadFrom(AIOrderHeadBytes(c, u))
         == Ok((Len(c.objects), c.playerId, c.issuer, InlineId(c.objects), c.orderType, c.orderPriority,
                c.targetId), u)
  {
    var target := TargetI32Bytes(c.targetId).value;
    assert InlineObjectBytes(c.objects) == E32(InlineId(c.objects));
    var t8 := u;
    var t7 := target + t8;
    var t6 := E8(0) + t7;
    var t5 := EI8(c.orderPriority) + t6;
    var t4 := E16(c.orderType) + t5;
    var t3 := InlineObjectBytes(c.objects) + t4;
    var t2 := E8(c.issuer) + t3;
    var t1 := E8(c.playerId) + t2;
    I8CountWrite(c.objects, t1);
    U8Write(c.playerId, t2);
    U8Write(c.issuer, t3);
    U32Write(InlineId(c.objects), t4);
    U16Write(c.orderType, t5);
    I8Write(c.orderPriority, t6);
    U8Write(0, t7);
    TargetI32Write(c.targetId, t8);
  }

  /** The corrected AI-order writer round-trips every field, with the target
      player in its own slot. */
  lemma AIOrderRoundTrip(c: AIOrderCommand, t: Bytes)
    requires Len(c.objects) < 0x80 && TargetI32Bytes(c.targetId).Some?
    requires Len(c.objects) > 1 ==> IdsFitI32(c.objects)
    requires c.targetPlayerId.Some? ==> c.targetPlayerId.value < 0x80
    ensures AIOrderBytes(c).Some?
    ensures AIOrderFrom(AIOrderBytes(c).value + t) == Ok(c.(objects := Explicit(c.objects)), t)
  {
    var slot: I8 := if c.targetPlayerId.None? then -1 else c.targetPlayerId.value;
    assert TargetPlayerBytes(c.targetPlayerId) == Some(EI8(slot));
    AIOrderRoundTripWith(c, slot, t);
  }

  /** The AI-order writer as the source has it: the target player reads back
      as the issuing player's id, as none for player 255, and player ids from
      128 to 254 make the decoder fail. */
  lemma AIOrderWriterTargetsOwnPlayer(c: AIOrderCommand, t: Bytes)
    requires Len(c.objects) < 0x80 && TargetI32Bytes(c.targetId).Some?
    requires Len(c.objects) > 1 ==> IdsFitI32(c.objects)
    ensures AIOrderBytesAsWritten(c).Some?
    ensures c.playerId < 0x80 ==>
              AIOrderFrom(AIOrderBytesAsWritten(c).value + t)
              == Ok(c.(objects := Explicit(c.objects), targetPlayerId := Some(c.playerId)), t)
    ensures c.playerId == 0xFF ==>
              AIOrderFrom(AIOrderBytesAsWritten(c).value + t)
              == Ok(c.(objects := Explicit(c.objects), targetPlayerId := None), t)
    ensures 0x80 <= c.playerId < 0xFF ==>
              AIOrderFrom(AIOrderBytesAsWritten(c).value + t) == Fail(OutOfRange)
  {
    var slot := Signed8(c.playerId);
    assert EI8(slot) == E8(c.playerId);
    if slot >= -1 {
      AIOrderRoundTripWith(c, slot, t);
    } else {
      AIOrderFailsWith(c, slot, t);
    }
  }

  /** The decoder rejects a target-player byte below -1 once the fields before
      it have been read. */
  lemma AIOrderFailsWith(c: AIOrderCommand, slot: I8, t: Bytes)
    requires Len(c.objects) < 0x80 && TargetI32Bytes(c.targetId).Some?
    requires slot < -1
    ensures AIOrderBytesWith(c, EI8(slot)).Some?
    ensures AIOrderFrom(AIOrderBytesWith(c, EI8(slot)).value + t) == Fail(OutOfRange)
  {
    var t9 := AIOrderTailBytes(c) + t;
    AIOrderLayout(c, slot, t);
    AIOrderHeadWrite(c, EI8(slot) + t9);
    I8Write(slot, t9);
    AIOrderAfterHead(AIOrderHeadBytes(c, EI8(slot) + t9));
  }

  /** The decoder after the fields before the target player. */
  lemma AIOrderAfterHead(s: Bytes)
    ensures var f := AIOrderHeadFrom(s);
            f.Ok? ==> AIOrderFrom(s)
                      == (var (count, player, issuer, objectId, orderType, priority, target) := f.value;
                          var raw := I8From(f.rest);
                          if raw.Fail? then Fail(raw.error)
                          else var p := OptPlayerOf(Parsed(raw.value, raw.rest));
                          if p.Fail? then Fail(p.error)
                          else AIOrderTailFrom(p.rest, count, objectId,
                                 AIOrderCommand(player, issuer, List([]), orderType, priority, target,
                                                p.value, (0, 0, 0), 0, false, false)))
  {
  }

  /** A concrete order that shows it: no target player reads back as player 1. */
  lemma AIOrderWriterCounterexample()
    ensures var c := AIOrderCommand(1, 1, List([]), 0, 0, None, None, (0, 0, 0), 0, false, false);
            AIOrderBytesAsWritten(c).Some? &&
            AIOrderFrom(AIOrderBytesAsWritten(c).value) == Ok(c.(targetPlayerId := Some(1)), [])
  {
    var c := AIOrderCommand(1, 1, List([]), 0, 0, None, None, (0, 0, 0), 0, false, false);
    AIOrderWriterTargetsOwnPlayer(c, []);
    assert AIOrderBytesAsWritten(c).value + [] == AIOrderBytesAsWritten(c).value;
  }

  lemma GroupWaypointRoundTrip(c: GroupWaypointCommand, t: Bytes)
    requires Len(c.objects) < 0xFF && IdsFitI32(c.objects)
    ensures GroupWaypointBytes(c).Some?
    ensures GroupWaypointFrom(GroupWaypointBytes(c).value + t)
         == Ok(c.(objects := Explicit(c.objects)), t)
  {
    var t4 := ObjectsListBytes(c.objects) + t;
    var t3 := E8(c.location.1) + t4;
    var t2 := E8(c.location.0) + t3;
    var t1 := E8(Len(c.objects)) + t2;
    assert GroupWaypointBytes(c).value + t == E8(c.playerId) + (E8(Len(c.objects)) + (E8(c.location.0) + (E8(c.location.1) + (ObjectsListBytes(c.objects) + t)))) by {
      var p1 := E8(c.playerId);
      var p2 := p1 + E8(Len(c.objects));
      var p3 := p2 + E8(c.location.0);
      var p4 := p3 + E8(c.location.1);
      var p5 := p4 + ObjectsListBytes(c.objects);
      assert GroupWaypointBytes(c).value == p5;
      Associate(p4, ObjectsListBytes(c.objects), t);
      Associate(p3, E8(c.location.1), t4);
      Associate(p2, E8(c.location.0), t3);
      Associate(p1, E8(Len(c.objects)), t2);
    }
    U8Write(c.playerId, t1);
    U8Write(Len(c.objects), t2);
    U8Write(c.location.0, t3);
    U8Write(c.location.1, t4);
    ObjectsListRoundTrip(c.objects, t);
  }

  lemma UnitAIStateRoundTrip(c: UnitAIStateCommand, t: Bytes)
    requires Len(c.objects) < 0xFF && IdsFitI32(c.objects)
    ensures UnitAIStateBytes(c).Some?
    ensures UnitAIStateFrom(UnitAIStateBytes(c).value + t)
         == Ok(c.(objects := Explicit(c.objects)), t)
  {
    var t2 := ObjectsListBytes(c.objects) + t;
    var t1 := EI8(c.state) + t2;
    assert UnitAIStateBytes(c).value + t == E8(Len(c.objects)) + (EI8(c.state) + (ObjectsListBytes(c.objects) + t)) by {
      var p1 := E8(Len(c.objects));
      var p2 := p1 + EI8(c.state);
      var p3 := p2 + ObjectsListBytes(c.objects);
      assert UnitAIStateBytes(c).value == p3;
      Associate(p2, ObjectsListBytes(c.objects), t);
      Associate(p1, EI8(c.state), t2);
    }
    U8Write(Len(c.objects), t1);
    I8Write(c.state, t2);
    ObjectsListRoundTrip(c.objects, t);
  }

  /** Guard, Follow and Repair: 7 + 4n bytes that read back when the list is
      shorter than 255 and every id and the target fit an i32. */
  lemma TargetCommandRoundTrip(c: TargetCommand, t: Bytes)
    requires Len(c.objects) < 0xFF && IdsFitI32(c.objects) && TargetI32Bytes(c.targetId).Some?
    ensures TargetCommandBytes(c).Some?
    ensures TargetCommandFrom(TargetCommandBytes(c).value + t)
         == Ok(c.(objects := Explicit(c.objects)), t)
  {
    var target := TargetI32Bytes(c.targetId).value;
    var t3 := ObjectsListBytes(c.objects) + t;
    var t2 := target + t3;
    var t1 := Zeros(2) + t2;
    assert TargetCommandBytes(c).value + t == E8(Len(c.objects)) + (Zeros(2) + (target + (ObjectsListBytes(c.objects) + t))) by {
      var p1 := E8(Len(c.objects));
      var p2 := p1 + Zeros(2);
      var p3 := p2 + target;
      var p4 := p3 + ObjectsListBytes(c.objects);
      assert TargetCommandBytes(c).value == p4;
      Associate(p3, ObjectsListBytes(c.objects), t);
      Associate(p2, target, t3);
      Associate(p1, Zeros(2), t2);
    }
    U8Write(Len(c.objects), t1);
    SkipWrite(Zeros(2), t2);
    TargetI32Write(c.targetId, t3);
    ObjectsListRoundTrip(c.objects, t);
  }

  /** The two padded columns pair up into the waypoints they were cut from. */
  lemma ColumnsPairUp(w: Waypoints)
    ensures Pairs(Column(w, true), Column(w, false), |w|) == w
  {
    var xs := Column(w, true);
    var ys := Column(w, false);
    forall i | 0 <= i < |w|
      ensures Pairs(xs, ys, |w|)[i] == w[i]
    {
      assert xs[i] == w[i].0 && ys[i] == w[i].1;
    }
  }

  /** The two written columns read back as the ten raw slots. */
  lemma WaypointSlotsRoundTrip(w: Waypoints, u: Bytes)
    ensures WaypointSlotsFrom(F32sBytes(Column(w, true)) + (F32sBytes(Column(w, false)) + u))
         == Ok((Column(w, true), Column(w, false)), u)
    ensures |F32sBytes(Column(w, true))| == 40 && |F32sBytes(Column(w, false))| == 40
  {
    F32sRoundTrip(Column(w, true), F32sBytes(Column(w, false)) + u);
    F32sRoundTrip(Column(w, false), u);
  }

  /** Up to ten waypoints round-trip through the padded column-major layout. */
  lemma PatrolRoundTrip(c: PatrolCommand, t: Bytes)
    requires Len(c.objects) < 0x80 && IdsFitI32(c.objects)
    ensures PatrolBytes(c).Some?
    ensures PatrolFrom(PatrolBytes(c).value + t) == Ok(c.(objects := Explicit(c.objects)), t)
  {
    var w := c.waypoints;
    var xs := Column(w, true);
    var ys := Column(w, false);
    var t5 := ObjectsListBytes(c.objects) + t;
    var t4 := F32sBytes(ys) + t5;
    var t3 := F32sBytes(xs) + t4;
    var t2 := E8(0) + t3;
    var t1 := E8(|w|) + t2;
    assert PatrolBytes(c).value + t == EI8(Len(c.objects)) + (E8(|w|) + (E8(0) + (F32sBytes(xs) + (F32sBytes(ys) + (ObjectsListBytes(c.objects) + t))))) by {
      var p1 := EI8(Len(c.objects));
      var p2 := p1 + E8(|w|);
      var p3 := p2 + E8(0);
      var p4 := p3 + F32sBytes(xs);
      var p5 := p4 + F32sBytes(ys);
      var p6 := p5 + ObjectsListBytes(c.objects);
      assert PatrolBytes(c).value == p6;
      Associate(p5, ObjectsListBytes(c.objects), t);
      Associate(p4, F32sBytes(ys), t5);
      Associate(p3, F32sBytes(xs), t4);
      Associate(p2, E8(0), t3);
      Associate(p1, E8(|w|), t2);
    }
    I8CountWrite(c.objects, t1);
    U8Write(|w|, t2);
    U8Write(0, t3);
    WaypointSlotsRoundTrip(w, t5);
    ObjectsListRoundTrip(c.objects, t);
    ColumnsPairUp(w);
  }

  lemma FormFormationRoundTrip(c: FormFormationCommand, t: Bytes)
    requires Len(c.objects) < 0x80 && IdsFitI32(c.objects)
    ensures FormFormationBytes(c).Some?
    ensures FormFormationFrom(FormFormationBytes(c).value + t)
         == Ok(c.(objects := Explicit(c.objects)), t)
  {
    var t4 := ObjectsListBytes(c.objects) + t;
    var t3 := EI32(c.formationType) + t4;
    var t2 := E8(0) + t3;
    var t1 := E8(c.playerId) + t2;
    assert FormFormationBytes(c).value + t == EI8(Len(c.objects)) + (E8(c.playerId) + (E8(0) + (EI32(c.formationType) + (ObjectsListBytes(c.objects) + t)))) by {
      var p1 := EI8(Len(c.objects));
      var p2 := p1 + E8(c.playerId);
      var p3 := p2 + E8(0);
      var p4 := p3 + EI32(c.formationType);
      var p5 := p4 + ObjectsListBytes(c.objects);
      assert FormFormationBytes(c).value == p5;
      Associate(p4, ObjectsListBytes(c.objects), t);
      Associate(p3, EI32(c.formationType), t4);
      Associate(p2, E8(0), t3);
      Associate(p1, E8(c.playerId), t2);
    }
    I8CountWrite(c.objects, t1);
    U8Write(c.playerId, t2);
    U8Write(0, t3);
    I32Write(c.formationType, t4);
    ObjectsListRoundTrip(c.objects, t);
  }

  lemma AttackGroundRoundTrip(c: AttackGroundCommand, t: Bytes)
    requires Len(c.objects) < 0x80 && IdsFitI32(c.objects)
    ensures AttackGroundBytes(c).Some?
    ensures AttackGroundFrom(AttackGroundBytes(c).value + t)
         == Ok(c.(objects := Explicit(c.objects)), t)
  {
    var t4 := ObjectsListBytes(c.objects) + t;
    var t3 := E32(c.location.1) + t4;
    var t2 := E32(c.location.0) + t3;
    var t1 := Zeros(2) + t2;
    assert AttackGroundBytes(c).value + t == EI8(Len(c.objects)) + (Zeros(2) + (E32(c.location.0) + (E32(c.location.1) + (ObjectsListBytes(c.objects) + t)))) by {
      var p1 := EI8(Len(c.objects));
      var p2 := p1 + Zeros(2);
      var p3 := p2 + E32(c.location.0);
      var p4 := p3 + E32(c.location.1);
      var p5 := p4 + ObjectsListBytes(c.objects);
      assert AttackGroundBytes(c).value == p5;
      Associate(p4, ObjectsListBytes(c.objects), t);
      Associate(p3, E32(c.location.1), t4);
      Associate(p2, E32(c.location.0), t3);
      Associate(p1, Zeros(2), t2);
    }
    I8CountWrite(c.objects, t1);
    SkipWrite(Zeros(2), t2);
    F32Write(c.location.0, t3);
    F32Write(c.location.1, t4);
    ObjectsListRoundTrip(c.objects, t);
  }

  /** The gather location reads back as two floats, (0, 0) when absent. */
  lemma GatherLocationWrite(l: Option<Location2>, u: Bytes)
    ensures var p := if l.Some? then l.value else (0, 0);
            GatherLocationBytes(l) + u == E32(p.0) + (E32(p.1) + u) &&
            F32From(E32(p.0) + (E32(p.1) + u)) == Ok(p.0, E32(p.1) + u) &&
            F32From(E32(p.1) + u) == Ok(p.1, u)
  {
    var p := if l.Some? then l.value else (0, 0);
    assert GatherLocationBytes(l) == E32(p.0) + E32(p.1);
    Associate(E32(p.0), E32(p.1), u);
    F32Write(p.0, E32(p.1) + u);
    F32Write(p.1, u);
  }


  /** The gather-point bytes, taken apart field by field. */
  lemma SetGatherPointLayout(c: SetGatherPointCommand, t: Bytes)
    requires SetGatherPointBytes(c).Some?
    ensures SetGatherPointBytes(c).value + t
         == EI8(Len(c.buildings)) + (Zeros(2) + (EOptU32(c.targetId) + (EOptU16(c.targetTypeId) + (Zeros(2) + (GatherLocationBytes(c.location) + (ObjectsListBytes(c.buildings) + t))))))
  {
    var t6 := ObjectsListBytes(c.buildings) + t;
    var t5 := GatherLocationBytes(c.location) + t6;
    var t4 := Zeros(2) + t5;
    var t3 := EOptU16(c.targetTypeId) + t4;
    var t2 := EOptU32(c.targetId) + t3;
    var t1 := Zeros(2) + t2;
    var p1 := EI8(Len(c.buildings));
    var p2 := p1 + Zeros(2);
    var p3 := p2 + EOptU32(c.targetId);
    var p4 := p3 + EOptU16(c.targetTypeId);
    var p5 := p4 + Zeros(2);
    var p6 := p5 + GatherLocationBytes(c.location);
    var p7 := p6 + ObjectsListBytes(c.buildings);
    assert SetGatherPointBytes(c).value == p7;
    Associate(p6, ObjectsListBytes(c.buildings), t);
    Associate(p5, GatherLocationBytes(c.location), t6);
    Associate(p4, Zeros(2), t5);
    Associate(p3, EOptU16(c.targetTypeId), t4);
    Associate(p2, EOptU32(c.targetId), t3);
    Associate(p1, Zeros(2), t2);
  }

  /** The gather-point writer with an i8 count: the sentinels round-trip, and
      a missing location reads back as the (0, 0) it is written as. */
  lemma SetGatherPointRoundTrip(c: SetGatherPointCommand, t: Bytes)
    requires Len(c.buildings) < 0x80 && IdsFitI32(c.buildings)
    requires c.targetId != Some(0xFFFF_FFFF) && c.targetTypeId != Some(0xFFFF)
    ensures SetGatherPointBytes(c).Some?
    ensures SetGatherPointFrom(SetGatherPointBytes(c).value + t)
         == Ok(c.(buildings := Explicit(c.buildings),
                  location := Some(if c.location.Some? then c.location.value else (0, 0))), t)
  {
    var t6 := ObjectsListBytes(c.buildings) + t;
    var t1 := GatherFieldsBytes(c, t6);
    SetGatherPointLayout(c, t);
    I8CountWrite(c.buildings, t1);
    GatherHeadWrite(SetGatherPointBytes(c).value + t, Len(c.buildings), c, t6);
    ObjectsListRoundTrip(c.buildings, t);
  }

  /** The gather point after its count byte, before its buildings. */
  function GatherFieldsBytes(c: SetGatherPointCommand, u: Bytes): Bytes {
    Zeros(2) + (EOptU32(c.targetId) + (EOptU16(c.targetTypeId) + (Zeros(2) + (GatherLocationBytes(c.location) + u))))
  }

  /** Whatever byte the count is written as, the fields after it read back,
      the absent location as (0, 0). */
  lemma GatherHeadWrite(s: Bytes, n: I8, c: SetGatherPointCommand, u: Bytes)
    requires c.targetId != Some(0xFFFF_FFFF) && c.targetTypeId != Some(0xFFFF)
    requires I8From(s) == Ok(n, GatherFieldsBytes(c, u))
    ensures GatherHeadFrom(s)
         == Ok((n, c.targetId, c.targetTypeId, if c.location.Some? then c.location.value else (0, 0)), u)
  {
    var t5 := GatherLocationBytes(c.location) + u;
    var t4 := Zeros(2) + t5;
    var t3 := EOptU16(c.targetTypeId) + t4;
    var t2 := EOptU32(c.targetId) + t3;
    SkipWrite(Zeros(2), t2);
    TargetBitsWrite(c.targetId, t3);
    OptU16Write(c.targetTypeId, t4);
    SkipWrite(Zeros(2), t5);
    GatherLocationWrite(c.location, u);
  }


  /** The gather-point bytes of the writer as the source has it, taken apart field by field. */
  lemma SetGatherPointLayoutAsWritten(c: SetGatherPointCommand, t: Bytes)
    requires SetGatherPointBytesAsWritten(c).Some?
    ensures SetGatherPointBytesAsWritten(c).value + t
         == E8(Len(c.buildings)) + (Zeros(2) + (EOptU32(c.targetId) + (EOptU16(c.targetTypeId) + (Zeros(2) + (GatherLocationBytes(c.location) + (ObjectsListBytes(c.buildings) + t))))))
  {
    var t6 := ObjectsListBytes(c.buildings) + t;
    var t5 := GatherLocationBytes(c.location) + t6;
    var t4 := Zeros(2) + t5;
    var t3 := EOptU16(c.targetTypeId) + t4;
    var t2 := EOptU32(c.targetId) + t3;
    var t1 := Zeros(2) + t2;
    var p1 := E8(Len(c.buildings));
    var p2 := p1 + Zeros(2);
    var p3 := p2 + EOptU32(c.targetId);
    var p4 := p3 + EOptU16(c.targetTypeId);
    var p5 := p4 + Zeros(2);
    var p6 := p5 + GatherLocationBytes(c.location);
    var p7 := p6 + ObjectsListBytes(c.buildings);
    assert SetGatherPointBytesAsWritten(c).value == p7;
    Associate(p6, ObjectsListBytes(c.buildings), t);
    Associate(p5, GatherLocationBytes(c.location), t6);
    Associate(p4, Zeros(2), t5);
    Associate(p3, EOptU16(c.targetTypeId), t4);
    Associate(p2, EOptU32(c.targetId), t3);
    Associate(p1, Zeros(2), t2);
  }

  /** The gather-point writer as the source has it: a list of 128 to 254
      buildings is written with a u8 count the decoder reads as a negative i8,
      so it decodes as an empty list and leaves the ids unread. */
  lemma SetGatherPointWriterCountSign(c: SetGatherPointCommand, t: Bytes)
    requires 0x80 <= Len(c.buildings) < 0x100
    requires c.targetId != Some(0xFFFF_FFFF) && c.targetTypeId != Some(0xFFFF)
    ensures SetGatherPointBytesAsWritten(c).Some?
    ensures SetGatherPointFrom(SetGatherPointBytesAsWritten(c).value + t)
         == Ok(c.(buildings := List([]),
                  location := Some(if c.location.Some? then c.location.value else (0, 0))),
               ObjectsListBytes(c.buildings) + t)
  {
    var t6 := ObjectsListBytes(c.buildings) + t;
    var t1 := GatherFieldsBytes(c, t6);
    SetGatherPointLayoutAsWritten(c, t);
    I8OfU8Write(Len(c.buildings), t1);
    GatherHeadWrite(SetGatherPointBytesAsWritten(c).value + t, Signed8(Len(c.buildings)), c, t6);
    ObjectsListByCount(t6, Signed8(Len(c.buildings)));
  }

  /** Below 128 buildings both gather-point writers emit the same bytes. */
  lemma SetGatherPointWritersAgree(c: SetGatherPointCommand)
    requires Len(c.buildings) < 0x80
    ensures SetGatherPointBytesAsWritten(c) == SetGatherPointBytes(c)
  {}
}
