/** The stream side of the command codec: the readers and writers whose
    source works by loops over a stream, written as methods on a `Cursor` or
    a `Sink`, each proved equal to the decoder or encoder of `Commands` and
    `Frames` that states what it computes. */
module CommandStreams {
  import opened Wire
  import opened Streams
  import opened ObjectLists
  import opened Commands
  import opened GameCommands
  import opened Frames

  /** One pass of `iter_mut` over the ten waypoint slots: ten f32 values
      into the x (or y) half of every slot, the other half kept. */
  method FillColumn(c: Cursor, raw: array<Location2>, xCoordinate: bool)
    returns (r: Result<seq<F32>>)
    modifies c, raw
    ensures r == Many(old(c.rest), raw.Length, F32From)
    ensures r.Ok? ==> c.rest == r.rest
    ensures r.Ok? ==> forall k :: 0 <= k < raw.Length ==>
              raw[k] == Place(old(raw[k]), r.value[k], xCoordinate)
  {
    ghost var s0 := c.rest;
    ghost var before := raw[..];
    ghost var n := raw.Length;
    var col: seq<F32> := [];
    ResumesStart(s0, n, F32From);
    for i := 0 to raw.Length
      invariant |col| == i
      invariant forall k :: 0 <= k < i ==> raw[k] == Place(before[k], col[k], xCoordinate)
      invariant raw[i..] == before[i..]
      invariant Resumes(s0, n, F32From, col, c.rest)
    {
      ResumesNext(s0, n, F32From, col, c.rest);
      var v :- c.ReadF32();
      assert raw[i] == before[i];
      raw[i] := Place(raw[i], v.v, xCoordinate);
      col := col + [v.v];
    }
    ResumesDone(s0, n, F32From, col, c.rest);
    r := Ok(col, c.rest);
  }

  /** One coordinate written into the x (or y) half of a slot. */
  function Place(slot: Location2, v: F32, xCoordinate: bool): (p: Location2)
    ensures xCoordinate ==> p.0 == v && p.1 == slot.1
    ensures !xCoordinate ==> p.0 == slot.0 && p.1 == v
  {
    if xCoordinate then (v, slot.1) else (slot.0, v)
  }

  /** Both passes over the ten waypoint slots. */
  method ReadWaypointSlots(c: Cursor, raw: array<Location2>) returns (r: Result<(seq<F32>, seq<F32>)>)
    requires raw.Length == 10
    modifies c, raw
    ensures r == WaypointSlotsFrom(old(c.rest))
    ensures r.Ok? ==> c.rest == r.rest
    ensures r.Ok? ==> forall k :: 0 <= k < 10 ==> raw[k] == (r.value.0[k], r.value.1[k])
  {
    var xs :- FillColumn(c, raw, true);
    var ys :- FillColumn(c, raw, false);
    assert forall k :: 0 <= k < 10 ==> raw[k] == (xs.v[k], ys.v[k]);
    r := Ok((xs.v, ys.v), c.rest);
  }

  /** The counts and both passes over the ten waypoint slots. */
  method ReadPatrolHead(c: Cursor, raw: array<Location2>)
    returns (r: Result<(I8, Byte, (seq<F32>, seq<F32>))>)
    requires raw.Length == 10
    modifies c, raw
    ensures r == PatrolHeadFrom(old(c.rest))
    ensures r.Ok? ==> c.rest == r.rest
    ensures r.Ok? ==> forall k :: 0 <= k < 10 ==> raw[k] == (r.value.2.0[k], r.value.2.1[k])
  {
    var selected :- c.ReadI8();
    var waypointCount :- c.ReadU8();
    var pad :- c.ReadU8();
    var slots :- ReadWaypointSlots(c, raw);
    r := Ok((selected.v, waypointCount.v, slots.v), c.rest);
  }

  /** `PatrolCommand::read_from`: ten x coordinates are read into the ten
      slots of a buffer, then ten y coordinates into the same slots, and the
      first `waypoint_count` slots are kept. */
  method ReadPatrol(c: Cursor) returns (r: Result<PatrolCommand>)
    modifies c
    ensures r == PatrolFrom(old(c.rest))
    ensures r.Ok? ==> c.rest == r.rest
  {
    var raw := new Location2[10](_ => (0, 0));
    var head :- ReadPatrolHead(c, raw);
    var (selected, waypointCount, slots) := head.v;
    if waypointCount > 10 {
      return Fail(OutOfRange);
    }
    var waypoints := raw[..waypointCount];
    assert waypoints == Pairs(slots.0, slots.1, waypointCount);
    var objects :- ReadObjectsList(c, selected);
    r := Ok(PatrolCommand(waypoints, objects.v), c.rest);
  }

  /** The `iter_mut` pass over the recipient flags, each a u8 read as
      `!= 0`. */
  method FillFlags(c: Cursor, a: array<bool>) returns (r: Result<()>)
    modifies c, a
    ensures Fills(Many(old(c.rest), a.Length, BoolFrom), r, a[..])
    ensures r.Ok? ==> c.rest == r.rest
  {
    ghost var s0 := c.rest;
    PrefixedNone(Many(s0, a.Length, BoolFrom));
    for i := 0 to a.Length
      invariant Many(s0, a.Length, BoolFrom) == Prefixed(a[..i], Many(c.rest, a.Length - i, BoolFrom))
    {
      ManyNext(a[..i], c.rest, a.Length - i, BoolFrom);
      var b :- c.ReadU8();
      a[i] := b.v != 0;
      assert a[..i + 1] == a[..i] + [b.v != 0];
    }
    assert a[..a.Length] == a[..];
    r := Ok((), c.rest);
  }

  /** `FlareCommand::read_from`. */
  method ReadFlare(c: Cursor) returns (r: Result<FlareCommand>)
    modifies c
    ensures r == FlareFrom(old(c.rest))
    ensures r.Ok? ==> c.rest == r.rest
  {
    var pad :- c.Skip(3);
    var unit :- c.ReadI32();
    if unit.v != -1 {
      return Fail(BadGuard);
    }
    var recipients := new bool[9](_ => false);
    var filled :- FillFlags(c, recipients);
    r := ReadFlareTail(c, recipients[..]);
  }

  method ReadFlareTail(c: Cursor, recipients: Recipients) returns (r: Result<FlareCommand>)
    modifies c
    ensures r == FlareTailFrom(recipients, old(c.rest))
    ensures r.Ok? ==> c.rest == r.rest
  {
    var pad :- c.Skip(3);
    var x :- c.ReadF32();
    var y :- c.ReadF32();
    var player :- c.ReadU8();
    var comm :- c.ReadU8();
    var pad2 :- c.Skip(2);
    r := Ok(FlareCommand(player.v, comm.v, recipients, (x.v, y.v)), c.rest);
  }

  /** The parameter loop of `UserPatchAICommand::read_from`: one u32 pushed
      per parameter. */
  method ReadParams(c: Cursor, n: nat) returns (r: Result<seq<U32>>)
    modifies c
    ensures r == Many(old(c.rest), n, U32From)
    ensures r.Ok? ==> c.rest == r.rest
  {
    ghost var s0 := c.rest;
    var params: seq<U32> := [];
    PrefixedNone(Many(s0, n, U32From));
    for i := 0 to n
      invariant |params| == i
      invariant Many(s0, n, U32From) == Prefixed(params, Many(c.rest, n - i, U32From))
    {
      ManyNext(params, c.rest, n - i, U32From);
      var p :- c.ReadU32();
      params := params + [p.v];
    }
    assert params + [] == params;
    r := Ok(params, c.rest);
  }

  /** `UserPatchAICommand::read_from`: the parameter count comes from the
      frame size. */
  method ReadUserPatchAI(c: Cursor, size: U32) returns (r: Result<UserPatchAICommand>)
    modifies c
    ensures r == UserPatchAIFrom(old(c.rest), size)
    ensures r.Ok? ==> c.rest == r.rest
  {
    var count := UserPatchParamCount(size);
    if count.None? {
      return Fail(BadGuard);
    }
    var action :- c.ReadU8();
    var player :- c.ReadU8();
    var pad :- c.ReadU8();
    var params :- ReadParams(c, count.value);
    r := Ok(UserPatchAICommand(player.v, action.v, params.v), c.rest);
  }

  /** The three records read by a loop, as the dispatch wraps them. */
  lemma PatrolPayload(fl: Floats, s: Bytes, len: U32)
    ensures PayloadFrom(fl, 0x15, s, len) ==
              (var p := PatrolFrom(s); if p.Ok? then Ok(Patrol(p.value), p.rest) else Fail(p.error))
  {}

  lemma FlarePayload(fl: Floats, s: Bytes, len: U32)
    ensures PayloadFrom(fl, 0x73, s, len) ==
              (var p := FlareFrom(s); if p.Ok? then Ok(Flare(p.value), p.rest) else Fail(p.error))
  {}

  /** The record of one opcode read from the bounded view. */
  method ReadPayload(fl: Floats, view: Cursor, op: Byte, len: U32) returns (r: Result<Command>)
    modifies view
    ensures r == PayloadFrom(fl, op, old(view.rest), len)
  {
    if op == 0x15 {
      PatrolPayload(fl, view.rest, len);
      var p := ReadPatrol(view);
      r := if p.Ok? then Ok(Patrol(p.value), p.rest) else Fail(p.error);
    } else if op == 0x35 {
      UserPatchAIPayload(fl, view.rest, len);
      var p := ReadUserPatchAI(view, len);
      r := if p.Ok? then Ok(UserPatchAI(p.value), p.rest) else Fail(p.error);
    } else if op == 0x73 {
      FlarePayload(fl, view.rest, len);
      var p := ReadFlare(view);
      r := if p.Ok? then Ok(Flare(p.value), p.rest) else Fail(p.error);
    } else {
      r := PayloadFrom(fl, op, view.rest, len);
    }
  }

  /** `Command::read_from` on a cursor. The bounded view `take(len)` is a
      second cursor over the next `len` bytes (or fewer at the end of the
      stream); after the record, the outer cursor moves past the whole bound,
      which is where draining the view leaves the stream. */
  method ReadCommand(fl: Floats, c: Cursor) returns (r: Result<Command>)
    modifies c
    ensures r == CommandFrom(fl, old(c.rest))
    ensures r.Ok? ==> c.rest == r.rest
  {
    var len :- c.ReadU32();
    var bound := Min(len.v, |c.rest|);
    var view := new Cursor(c.rest[..bound]);
    var op :- view.ReadU8();
    var payload := ReadPayload(fl, view, op.v, len.v);
    if payload.Fail? && payload.error != Truncated {
      return Fail(payload.error);
    }
    var drained := c.Skip(bound);
    var worldTime :- c.ReadU32();
    if payload.Fail? {
      return Fail(payload.error);
    }
    r := Ok(payload.value, c.rest);
  }

  /** One of the two `for i in 0..10` loops of `PatrolCommand::write_to`:
      a coordinate of every slot, 0 past the last waypoint. */
  method WriteColumn(o: Sink, w: Waypoints, xCoordinate: bool)
    modifies o
    ensures o.out == old(o.out) + F32sBytes(Column(w, xCoordinate))
  {
    ghost var col := Column(w, xCoordinate);
    for i := 0 to 10
      invariant o.out == old(o.out) + F32sBytes(col[..i])
    {
      ConcatSnoc(col[..i], col[i], E32);
      assert col[..i + 1] == col[..i] + [col[i]];
      o.WriteF32(if i < |w| then (if xCoordinate then w[i].0 else w[i].1) else 0);
    }
    assert col[..10] == col;
  }

  /** `PatrolCommand::write_to`: the counts, the x column, the y column and
      the objects. A list too long for the i8 count panics before anything
      is written. */
  method WritePatrol(o: Sink, c: PatrolCommand) returns (ok: bool)
    modifies o
    ensures ok == PatrolBytes(c).Some?
    ensures ok ==> o.out == old(o.out) + PatrolBytes(c).value
    ensures !ok ==> o.out == old(o.out)
  {
    if Len(c.objects) >= 0x80 {
      return false;
    }
    ghost var start := o.out;
    ghost var p3 := EI8(Len(c.objects)) + E8(|c.waypoints|) + E8(0);
    ghost var p4 := p3 + F32sBytes(Column(c.waypoints, true));
    ghost var p5 := p4 + F32sBytes(Column(c.waypoints, false));
    assert PatrolBytes(c).value == p5 + ObjectsListBytes(c.objects);
    o.WriteI8(Len(c.objects));
    o.WriteU8(|c.waypoints|);
    o.WriteU8(0);
    assert o.out == start + p3;
    WriteColumn(o, c.waypoints, true);
    Associate(start, p3, F32sBytes(Column(c.waypoints, true)));
    WriteColumn(o, c.waypoints, false);
    Associate(start, p4, F32sBytes(Column(c.waypoints, false)));
    WriteObjectsList(o, c.objects);
    Associate(start, p5, ObjectsListBytes(c.objects));
    ok := true;
  }

  /** `UserPatchAICommand::write_to`: three bytes, then every parameter. */
  method WriteUserPatchAI(o: Sink, c: UserPatchAICommand)
    modifies o
    ensures o.out == old(o.out) + UserPatchAIBytes(c)
  {
    o.WriteU8(c.aiAction);
    o.WriteU8(c.playerId);
    o.WriteU8(0);
    ghost var start := o.out;
    for i := 0 to |c.params|
      invariant o.out == start + Concat(c.params[..i], E32)
    {
      ConcatSnoc(c.params[..i], c.params[i], E32);
      assert c.params[..i + 1] == c.params[..i] + [c.params[i]];
      o.WriteU32(c.params[i]);
    }
    assert c.params[..|c.params|] == c.params;
  }
}
