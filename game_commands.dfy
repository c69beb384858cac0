/** The Game sub-protocol: a command frame with opcode 0x67 carries a fixed
    15-byte raw record whose first byte is a sub-opcode, and the sub-opcode
    decides which of the four variable slots become which fields. */
module GameCommands {
  import opened Wire

  /** The raw record: a sub-opcode, two i16 slots, two padding bytes, an f32
      slot and a u32 slot. */
  datatype RawGameCommand = RawGameCommand(
    gameCommand: Byte, var1: I16, var2: I16, var3: F32, var4: U32)

  datatype GameCommand =
    | SetGameSpeed(playerId: PlayerId, speed: F32)
    | Inventory(playerId: PlayerId, attributeId: I16, amount: F32)
    | UpgradeTown(playerId: PlayerId)
    | QuickBuild(playerId: PlayerId)
    | AlliedVictory(playerId: PlayerId, status: bool)
    | Cheat(playerId: PlayerId, cheatId: I16)
    | SharedLos(playerId: PlayerId)
    | Spies(playerId: PlayerId)
    | SetStrategicNumber(playerId: PlayerId, strategicNumber: I16, value: I32)
    | Unknown0x0c(playerId: PlayerId)
    | AddFarmReseedQueue(playerId: PlayerId, reseedAmount: I16)
    | RemoveFarmReseedQueue(playerId: PlayerId, reseedAmount: I16)
    | FarmReseedAutoQueue(playerId: PlayerId)

  /** The closed table of sub-opcodes. */
  const SubOpcodes: set<Byte> := {0x01, 0x02, 0x03, 0x04, 0x05, 0x06, 0x07,
                                  0x0a, 0x0b, 0x0c, 0x0d, 0x0e, 0x10}

  // ---------------------------------------------------------------------------
  // Decoding

  function RawGameCommandFrom(s: Bytes): (r: Result<RawGameCommand>)
    ensures r.Ok? <==> |s| >= 15
    ensures r.Ok? ==> r.rest == s[15..]
  {
    var op :- U8From(s);
    var v1 :- I16From(op.rest);
    var v2 :- I16From(v1.rest);
    var pad :- U16From(v2.rest);
    var v3 :- F32From(pad.rest);
    var v4 :- U32From(v3.rest);
    Ok(RawGameCommand(op.v, v1.v, v2.v, v3.v, v4.v), v4.rest)
  }

  /** The sub-opcode dispatch. var1 is narrowed to a player id in every arm;
      SetStrategicNumber also narrows var4 into an i32. */
  function GameCommandOf(raw: RawGameCommand): Result<GameCommand> {
    var op := raw.gameCommand;
    if op !in SubOpcodes then Fail(Unsupported)
    else if !(0 <= raw.var1 < 0x100) then Fail(OutOfRange)
    else
      var p: PlayerId := raw.var1;
      if op == 0x01 then Ok(SetGameSpeed(p, raw.var3), [])
      else if op == 0x02 then Ok(Inventory(p, raw.var2, raw.var3), [])
      else if op == 0x03 then Ok(UpgradeTown(p), [])
      else if op == 0x04 then Ok(QuickBuild(p), [])
      else if op == 0x05 then Ok(AlliedVictory(p, raw.var2 != 0), [])
      else if op == 0x06 then Ok(Cheat(p, raw.var2), [])
      else if op == 0x07 then Ok(SharedLos(p), [])
      else if op == 0x0a then Ok(Spies(p), [])
      else if op == 0x0b then
        if raw.var4 < 0x8000_0000 then Ok(SetStrategicNumber(p, raw.var2, raw.var4), [])
        else Fail(OutOfRange)
      else if op == 0x0c then Ok(Unknown0x0c(p), [])
      else if op == 0x0d then Ok(AddFarmReseedQueue(p, raw.var2), [])
      else if op == 0x0e then Ok(RemoveFarmReseedQueue(p, raw.var2), [])
      else Ok(FarmReseedAutoQueue(p), [])
  }

  /** `GameCommand::read_from`: the raw record, then the dispatch. */
  function GameCommandFrom(s: Bytes): (r: Result<GameCommand>)
    ensures r.Ok? ==> |s| >= 15 && r.rest == s[15..]
  {
    var raw :- RawGameCommandFrom(s);
    var g :- GameCommandOf(raw.v);
    Ok(g.v, raw.rest)
  }

  // ---------------------------------------------------------------------------
  // Reference definitions: which sub-opcode and slots each command comes from

  function SubOpcode(g: GameCommand): (op: Byte)
    ensures op in SubOpcodes
  {
    match g
    case SetGameSpeed(_, _) => 0x01
    case Inventory(_, _, _) => 0x02
    case UpgradeTown(_) => 0x03
    case QuickBuild(_) => 0x04
    case AlliedVictory(_, _) => 0x05
    case Cheat(_, _) => 0x06
    case SharedLos(_) => 0x07
    case Spies(_) => 0x0a
    case SetStrategicNumber(_, _, _) => 0x0b
    case Unknown0x0c(_) => 0x0c
    case AddFarmReseedQueue(_, _) => 0x0d
    case RemoveFarmReseedQueue(_, _) => 0x0e
    case FarmReseedAutoQueue(_) => 0x10
  }

  /** The sub-opcodes whose command takes a field from var2, var3 or var4. */
  predicate UsesVar2(op: Byte) { op in {0x02, 0x05, 0x06, 0x0b, 0x0d, 0x0e} }
  predicate UsesVar3(op: Byte) { op in {0x01, 0x02} }
  predicate UsesVar4(op: Byte) { op == 0x0b }

  /** A raw record that decodes to g: unused slots are zero, and a true
      allied-victory status is written as 1. */
  function RawOf(g: GameCommand): (raw: RawGameCommand)
    ensures raw.gameCommand == SubOpcode(g) && raw.var1 == g.playerId
  {
    match g
    case SetGameSpeed(p, speed) => RawGameCommand(0x01, p, 0, speed, 0)
    case Inventory(p, attribute, amount) => RawGameCommand(0x02, p, attribute, amount, 0)
    case UpgradeTown(p) => RawGameCommand(0x03, p, 0, 0, 0)
    case QuickBuild(p) => RawGameCommand(0x04, p, 0, 0, 0)
    case AlliedVictory(p, status) => RawGameCommand(0x05, p, if status then 1 else 0, 0, 0)
    case Cheat(p, cheat) => RawGameCommand(0x06, p, cheat, 0, 0)
    case SharedLos(p) => RawGameCommand(0x07, p, 0, 0, 0)
    case Spies(p) => RawGameCommand(0x0a, p, 0, 0, 0)
    case SetStrategicNumber(p, number, value) =>
      RawGameCommand(0x0b, p, number, 0, Unsigned32(value))
    case Unknown0x0c(p) => RawGameCommand(0x0c, p, 0, 0, 0)
    case AddFarmReseedQueue(p, amount) => RawGameCommand(0x0d, p, amount, 0, 0)
    case RemoveFarmReseedQueue(p, amount) => RawGameCommand(0x0e, p, amount, 0, 0)
    case FarmReseedAutoQueue(p) => RawGameCommand(0x10, p, 0, 0, 0)
  }

  /** The byte image of a raw record in the order the decoder reads it. */
  function RawBytes(raw: RawGameCommand): (b: Bytes)
    ensures |b| == 15
  {
    E8(raw.gameCommand) + EI16(raw.var1) + EI16(raw.var2) + Zeros(2)
      + E32(raw.var3) + E32(raw.var4)
  }

  // ---------------------------------------------------------------------------
  // Laws

  /** The dispatch succeeds exactly for the 13 sub-opcodes of the table, a
      player slot that fits a player id and, for SetStrategicNumber, a value
      slot below 2^31; an unknown sub-opcode fails before any narrowing. */
  lemma GameCommandAccepts(raw: RawGameCommand)
    ensures GameCommandOf(raw).Ok? <==>
              raw.gameCommand in SubOpcodes && 0 <= raw.var1 < 0x100 &&
              (raw.gameCommand == 0x0b ==> raw.var4 < 0x8000_0000)
    ensures raw.gameCommand !in SubOpcodes ==> GameCommandOf(raw) == Fail(Unsupported)
    ensures raw.gameCommand in SubOpcodes && GameCommandOf(raw).Fail? ==>
              GameCommandOf(raw) == Fail(OutOfRange)
  {}

  /** A decoded command comes from its sub-opcode and from the player slot,
      and from no slot its sub-opcode does not use. */
  lemma GameCommandSlots(raw: RawGameCommand)
    requires GameCommandOf(raw).Ok?
    ensures var g := GameCommandOf(raw).value;
            SubOpcode(g) == raw.gameCommand && g.playerId == raw.var1 &&
            (UsesVar2(raw.gameCommand) && raw.gameCommand != 0x05 ==> RawOf(g).var2 == raw.var2) &&
            (raw.gameCommand == 0x05 ==> g.status == (raw.var2 != 0)) &&
            (UsesVar3(raw.gameCommand) ==> RawOf(g).var3 == raw.var3) &&
            (UsesVar4(raw.gameCommand) ==> RawOf(g).var4 == raw.var4)
  {}

  /** Slots a sub-opcode does not use do not affect the result. */
  lemma GameCommandIgnoresUnusedSlots(a: RawGameCommand, b: RawGameCommand)
    requires a.gameCommand == b.gameCommand && a.var1 == b.var1
    requires UsesVar2(a.gameCommand) ==> a.var2 == b.var2
    requires UsesVar3(a.gameCommand) ==> a.var3 == b.var3
    requires UsesVar4(a.gameCommand) ==> a.var4 == b.var4
    ensures GameCommandOf(a) == GameCommandOf(b)
  {}

  /** Every game command is the decoding of its reference raw record, except
      a negative strategic-number value: the value slot is a u32 and its
      narrowing into an i32 rejects every pattern with the top bit set. */
  lemma RawOfDecodes(g: GameCommand)
    ensures g.SetStrategicNumber? && g.value < 0 ==> GameCommandOf(RawOf(g)) == Fail(OutOfRange)
    ensures !(g.SetStrategicNumber? && g.value < 0) ==> GameCommandOf(RawOf(g)) == Ok(g, [])
  {}

  /** The raw record is 15 bytes, read back field by field. */
  lemma RawRoundTrip(raw: RawGameCommand, t: Bytes)
    ensures RawGameCommandFrom(RawBytes(raw) + t) == Ok(raw, t)
  {
    var t5 := E32(raw.var4) + t;
    var t4 := E32(raw.var3) + t5;
    var t3 := Zeros(2) + t4;
    var t2 := EI16(raw.var2) + t3;
    var t1 := EI16(raw.var1) + t2;
    assert RawBytes(raw) + t == E8(raw.gameCommand) + t1 by {
      var p1 := E8(raw.gameCommand);
      var p2 := p1 + EI16(raw.var1);
      var p3 := p2 + EI16(raw.var2);
      var p4 := p3 + Zeros(2);
      var p5 := p4 + E32(raw.var3);
      var p6 := p5 + E32(raw.var4);
      assert RawBytes(raw) == p6;
      Associate(p5, E32(raw.var4), t);
      Associate(p4, E32(raw.var3), t5);
      Associate(p3, Zeros(2), t4);
      Associate(p2, EI16(raw.var2), t3);
      Associate(p1, EI16(raw.var1), t2);
    }
    U8Write(raw.gameCommand, t1);
    I16Write(raw.var1, t2);
    I16Write(raw.var2, t3);
    U16Write(0, t4);
    assert Zeros(2) == E16(0);
    F32Write(raw.var3, t5);
    U32Write(raw.var4, t);
  }

  /** Every game command the decoder can yield has a 15-byte encoding it maps
      back to. */
  lemma GameCommandRoundTrip(g: GameCommand, t: Bytes)
    requires g.SetStrategicNumber? ==> g.value >= 0
    ensures GameCommandFrom(RawBytes(RawOf(g)) + t) == Ok(g, t)
  {
    RawRoundTrip(RawOf(g), t);
    RawOfDecodes(g);
  }
}
