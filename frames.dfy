/** The outer layer of the action stream: the command frame that wraps every
    command record with its length and a world time, the opcode table that
    selects the record, and the other records of the stream (view locks,
    time, sync, meta and chat). */
module Frames {
  import opened Wire
  import opened ObjectLists
  import opened Commands
  import opened GameCommands
  import CommandLaws

  /** A player command: one variant per opcode. Guard, Follow and Repair
      share a layout, as do SellResource and BuyResource. */
  datatype Command =
    | Order(OrderCommand)
    | Stop(StopCommand)
    | Work(WorkCommand)
    | Move(MoveCommand)
    | Create(CreateCommand)
    | AddResource(AddResourceCommand)
    | AIOrder(AIOrderCommand)
    | Resign(ResignCommand)
    | GroupWaypoint(GroupWaypointCommand)
    | UnitAIState(UnitAIStateCommand)
    | Guard(TargetCommand)
    | Follow(TargetCommand)
    | Patrol(PatrolCommand)
    | FormFormation(FormFormationCommand)
    | UserPatchAI(UserPatchAICommand)
    | Make(MakeCommand)
    | Research(ResearchCommand)
    | Build(BuildCommand)
    | Game(GameCommand)
    | BuildWall(BuildWallCommand)
    | CancelBuild(CancelBuildCommand)
    | AttackGround(AttackGroundCommand)
    | Repair(TargetCommand)
    | Ungarrison(UngarrisonCommand)
    | Flare(FlareCommand)
    | UnitOrder(UnitOrderCommand)
    | Queue(QueueCommand)
    | SetGatherPoint(SetGatherPointCommand)
    | SellResource(MarketCommand)
    | BuyResource(MarketCommand)
    | Unknown7F(Unknown7FCommand)
    | BackToWork(BackToWorkCommand)

  /** The closed opcode table of command frames. */
  const CommandOpcodes: set<Byte> := {0x00, 0x01, 0x02, 0x03, 0x04, 0x05, 0x0a, 0x0b, 0x10, 0x12, 0x13, 0x14, 0x15, 0x17, 0x35, 0x64, 0x65, 0x66, 0x67, 0x69, 0x6a, 0x6b, 0x6e, 0x6f, 0x73, 0x75, 0x77, 0x78, 0x7a, 0x7b, 0x7f, 0x80}

  /** The record after the opcode byte, chosen by the opcode. `s` is bounded
      by the frame; UserPatchAI also receives the frame length `len`. An
      opcode outside the table panics. The table is split by opcode range
      into four groups of eight. */
  function PayloadFrom(fl: Floats, op: Byte, s: Bytes, len: U32): Result<Command> {
    if op <= 0x0b then PayloadA(fl, op, s, len)
    else if op <= 0x64 then PayloadB(fl, op, s, len)
    else if op <= 0x6f then PayloadC(fl, op, s, len)
    else PayloadD(fl, op, s, len)
  }

  function PayloadA(fl: Floats, op: Byte, s: Bytes, len: U32): Result<Command> {
    if op == 0x00 then (var c :- OrderFrom(s); Ok(Order(c.v), c.rest))
    else if op == 0x01 then (var c :- StopFrom(s); Ok(Stop(c.v), c.rest))
    else if op == 0x02 then (var c :- WorkFrom(s); Ok(Work(c.v), c.rest))
    else if op == 0x03 then (var c :- MoveFrom(s); Ok(Move(c.v), c.rest))
    else if op == 0x04 then (var c :- CreateFrom(s); Ok(Create(c.v), c.rest))
    else if op == 0x05 then (var c :- AddResourceFrom(s); Ok(AddResource(c.v), c.rest))
    else if op == 0x0a then (var c :- AIOrderFrom(s); Ok(AIOrder(c.v), c.rest))
    else if op == 0x0b then (var c :- ResignFrom(s); Ok(Resign(c.v), c.rest))
    else Fail(Unsupported)
  }

  function PayloadB(fl: Floats, op: Byte, s: Bytes, len: U32): Result<Command> {
    if op == 0x10 then (var c :- GroupWaypointFrom(s); Ok(GroupWaypoint(c.v), c.rest))
    else if op == 0x12 then (var c :- UnitAIStateFrom(s); Ok(UnitAIState(c.v), c.rest))
    else if op == 0x13 then (var c :- TargetCommandFrom(s); Ok(Guard(c.v), c.rest))
    else if op == 0x14 then (var c :- TargetCommandFrom(s); Ok(Follow(c.v), c.rest))
    else if op == 0x15 then (var c :- PatrolFrom(s); Ok(Patrol(c.v), c.rest))
    else if op == 0x17 then (var c :- FormFormationFrom(s); Ok(FormFormation(c.v), c.rest))
    else if op == 0x35 then (var c :- UserPatchAIFrom(s, len); Ok(UserPatchAI(c.v), c.rest))
    else if op == 0x64 then (var c :- MakeFrom(s); Ok(Make(c.v), c.rest))
    else Fail(Unsupported)
  }

  function PayloadC(fl: Floats, op: Byte, s: Bytes, len: U32): Result<Command> {
    if op == 0x65 then (var c :- ResearchFrom(s); Ok(Research(c.v), c.rest))
    else if op == 0x66 then (var c :- BuildFrom(s); Ok(Build(c.v), c.rest))
    else if op == 0x67 then (var c :- GameCommandFrom(s); Ok(Game(c.v), c.rest))
    else if op == 0x69 then (var c :- BuildWallFrom(s); Ok(BuildWall(c.v), c.rest))
    else if op == 0x6a then (var c :- CancelBuildFrom(s); Ok(CancelBuild(c.v), c.rest))
    else if op == 0x6b then (var c :- AttackGroundFrom(s); Ok(AttackGround(c.v), c.rest))
    else if op == 0x6e then (var c :- TargetCommandFrom(s); Ok(Repair(c.v), c.rest))
    else if op == 0x6f then (var c :- UngarrisonFrom(fl, s); Ok(Ungarrison(c.v), c.rest))
    else Fail(Unsupported)
  }

  function PayloadD(fl: Floats, op: Byte, s: Bytes, len: U32): Result<Command> {
    if op == 0x73 then (var c :- FlareFrom(s); Ok(Flare(c.v), c.rest))
    else if op == 0x75 then (var c :- UnitOrderFrom(fl, s); Ok(UnitOrder(c.v), c.rest))
    else if op == 0x77 then (var c :- QueueFrom(s); Ok(Queue(c.v), c.rest))
    else if op == 0x78 then (var c :- SetGatherPointFrom(s); Ok(SetGatherPoint(c.v), c.rest))
    else if op == 0x7a then (var c :- MarketFrom(s); Ok(SellResource(c.v), c.rest))
    else if op == 0x7b then (var c :- MarketFrom(s); Ok(BuyResource(c.v), c.rest))
    else if op == 0x7f then (var c :- Unknown7FFrom(s); Ok(Unknown7F(c.v), c.rest))
    else if op == 0x80 then (var c :- BackToWorkFrom(s); Ok(BackToWork(c.v), c.rest))
    else Fail(Unsupported)
  }

  function Min(a: int, b: int): int { if a < b then a else b }

  /** `Command::read_from`. A u32 length; the opcode and the record are read
      from a view of the stream bounded by that length; the unread rest of
      the bounded view is then drained, and a u32 world time follows outside
      the bound. A failing opcode read returns at once. A record that fails
      with a panic aborts at once too; one that fails with an io error is
      drained and followed by the world-time read, and its error is the
      result. */
  function CommandFrom(fl: Floats, s: Bytes): Result<Command> {
    var len :- U32From(s);
    var bound := Min(len.v, |len.rest|);
    var op :- U8From(len.rest[..bound]);
    var payload := PayloadFrom(fl, op.v, op.rest, len.v);
    if payload.Fail? && payload.error != Truncated then Fail(payload.error)
    else
      var worldTime :- U32From(len.rest[bound..]);
      if payload.Fail? then Fail(payload.error) else Ok(payload.value, worldTime.rest)
  }

  /** The frame body decoded on its own: its first byte is the opcode and the
      rest the record; what the record leaves unread is ignored. */
  function BodyFrom(fl: Floats, body: Bytes): Result<Command>
    requires |body| < 0x1_0000_0000
  {
    if |body| == 0 then Fail(Truncated)
    else PayloadFrom(fl, body[0], body[1..], |body|)
  }

  /** A body decoding placed in front of the bytes after the frame. */
  function Framed(r: Result<Command>, t: Bytes): Result<Command> {
    if r.Ok? then Ok(r.value, t) else Fail(r.error)
  }

  /** The bytes of a frame around a body. */
  function FrameBytes(body: Bytes, worldTime: U32): (b: Bytes)
    requires |body| < 0x1_0000_0000
    ensures |b| == 8 + |body|
  {
    E32(|body|) + body + E32(worldTime)
  }

  // ---------------------------------------------------------------------------
  // Laws of the frame

  /** An opcode outside the table fails as unsupported, whatever follows it. */
  lemma PayloadFollowsTable(fl: Floats, op: Byte, s: Bytes, len: U32)
    ensures op !in CommandOpcodes ==> PayloadFrom(fl, op, s, len) == Fail(Unsupported)
  {}

  /** A frame whose length and world time are all present reads exactly
      4 + len + 4 bytes, and its command is the decoding of the bounded body
      alone: no record can read past the length, and what it leaves unread is
      skipped. */
  lemma FrameReadsBody(fl: Floats, s: Bytes)
    requires U32From(s).Ok? && |s| >= 8 + U32From(s).value
    ensures var len := U32From(s).value;
            CommandFrom(fl, s) == Framed(BodyFrom(fl, s[4..4 + len]), s[8 + len..])
  {
    var len := U32From(s);
    assert len.rest == s[4..];
    assert len.rest[..len.value] == s[4..4 + len.value];
    assert len.rest[len.value..] == s[4 + len.value..];
    var worldTime := U32From(s[4 + len.value..]);
    assert worldTime.rest == s[8 + len.value..];
  }

  /** A frame with fewer bytes than its length and world time need fails. */
  lemma FrameTruncated(fl: Floats, s: Bytes)
    requires |s| < 4 || |s| < 8 + U32From(s).value
    ensures CommandFrom(fl, s).Fail?
  {
    if |s| >= 4 {
      var len := U32From(s);
      var bound := Min(len.value, |len.rest|);
      assert |len.rest[bound..]| < 4;
    }
  }

  /** A successful frame consumed exactly 4 + len + 4 bytes. */
  lemma FrameConsumes(fl: Floats, s: Bytes)
    requires CommandFrom(fl, s).Ok?
    ensures U32From(s).Ok? && |s| >= 8 + U32From(s).value
    ensures CommandFrom(fl, s).rest == s[8 + U32From(s).value..]
  {
    if |s| < 4 || |s| < 8 + U32From(s).value {
      FrameTruncated(fl, s);
    } else {
      FrameReadsBody(fl, s);
    }
  }

  /** A frame built around a body reads back as the body's command, followed
      by whatever comes after the frame. */
  lemma FrameRoundTrip(fl: Floats, body: Bytes, worldTime: U32, t: Bytes)
    requires |body| < 0x1_0000_0000
    ensures CommandFrom(fl, FrameBytes(body, worldTime) + t) == Framed(BodyFrom(fl, body), t)
  {
    var s := FrameBytes(body, worldTime) + t;
    assert s == E32(|body|) + (body + (E32(worldTime) + t));
    U32Write(|body|, body + (E32(worldTime) + t));
    assert s[4..4 + |body|] == body;
    assert s[8 + |body|..] == t;
    FrameReadsBody(fl, s);
  }

  /** A frame with an opcode outside the table fails as unsupported. */
  lemma UnknownOpcodeFails(fl: Floats, s: Bytes)
    requires U32From(s).Ok? && 1 <= U32From(s).value && |s| >= 5
    requires s[4] !in CommandOpcodes
    ensures CommandFrom(fl, s) == Fail(Unsupported)
  {
    var len := U32From(s);
    var bound := Min(len.value, |len.rest|);
    assert len.rest[..bound][0] == s[4];
  }

  /** The UserPatch AI record takes its parameter count from the frame
      length: a frame of 4 + 4n bytes with n below 4 carries n parameters,
      and the record the writer emits reads back through a frame. */
  lemma UserPatchAIFrameRoundTrip(fl: Floats, c: UserPatchAICommand, worldTime: U32, t: Bytes)
    requires |c.params| < 4
    ensures CommandFrom(fl, FrameBytes([0x35] + UserPatchAIBytes(c), worldTime) + t)
         == Ok(UserPatchAI(c), t)
  {
    var body := [0x35] + UserPatchAIBytes(c);
    CommandLaws.UserPatchAIRoundTrip(c, []);
    assert body[1..] == UserPatchAIBytes(c) + [];
    assert body[0] == 0x35 && |body| == 4 + 4 * |c.params|;
    UserPatchAIPayload(fl, body[1..], |body|);
    assert BodyFrom(fl, body) == Ok(UserPatchAI(c), []);
    FrameRoundTrip(fl, body, worldTime, t);
  }

  /** Opcode 0x35 decodes the UserPatch AI record. */
  lemma UserPatchAIPayload(fl: Floats, s: Bytes, len: U32)
    ensures PayloadFrom(fl, 0x35, s, len) ==
              (var p := UserPatchAIFrom(s, len); if p.Ok? then Ok(UserPatchAI(p.value), p.rest) else Fail(p.error))
  {}

  // ---------------------------------------------------------------------------
  // The other records of the action stream

  /** The point of view locked onto a player. */
  datatype ViewLock = ViewLock(x: F32, y: F32, player: PlayerId)

  /** The player is an i32 narrowed into a player id. */
  function ViewLockFrom(s: Bytes): (r: Result<ViewLock>)
    ensures r.Ok? ==> |s| >= 12 && r.rest == s[12..]
  {
    var x :- F32From(s);
    var y :- F32From(x.rest);
    var raw :- I32From(y.rest);
    var player :- NarrowPlayer(raw);
    Ok(ViewLock(x.v, y.v, player.v), player.rest)
  }

  function ViewLockBytes(v: ViewLock): (b: Bytes)
    ensures |b| == 12
  {
    E32(v.x) + E32(v.y) + EI32(v.player)
  }

  /** `ViewLock::write_to` is inverted by `ViewLock::read_from`. */
  lemma ViewLockRoundTrip(v: ViewLock, t: Bytes)
    ensures ViewLockFrom(ViewLockBytes(v) + t) == Ok(v, t)
  {
    Associate(E32(v.x) + E32(v.y), EI32(v.player), t);
    Associate(E32(v.x), E32(v.y), EI32(v.player) + t);
    F32Write(v.x, E32(v.y) + (EI32(v.player) + t));
    F32Write(v.y, EI32(v.player) + t);
    I32Write(v.player, t);
  }

  /** A player outside 0..255 fails its narrowing. */
  lemma ViewLockNarrowsPlayer(x: F32, y: F32, p: I32, t: Bytes)
    ensures ViewLockFrom(E32(x) + E32(y) + EI32(p) + t).Ok? <==> 0 <= p < 0x100
  {
    Associate(E32(x) + E32(y), EI32(p), t);
    Associate(E32(x), E32(y), EI32(p) + t);
    F32Write(x, E32(y) + (EI32(p) + t));
    F32Write(y, EI32(p) + t);
    I32Write(p, t);
  }

  /** A time record. Only recent records are read: the two fields of the
      older layout stay zero. */
  datatype Time = Time(time: U32, oldWorldTime: U32, unknown: U32)

  function TimeFrom(s: Bytes): (r: Result<Time>)
    ensures r.Ok? <==> |s| >= 4
    ensures r.Ok? ==> r.rest == s[4..] && r.value.oldWorldTime == 0 && r.value.unknown == 0
    ensures r.Ok? ==> r.value.time == U32From(s).value
  {
    var time :- U32From(s);
    Ok(Time(time.v, 0, 0), time.rest)
  }

  datatype Sync = Sync(
    checksum: U32, positionChecksum: U32, actionChecksum: U32, nextWorldTime: U32)

  /** The size of a sync record: 332 more bytes follow the checksums when the
      action checksum is non-zero. */
  function SyncSize(actionChecksum: U32): nat {
    if actionChecksum == 0 then 24 else 356
  }

  function SyncFrom(s: Bytes): Result<Sync> {
    var zero :- U32From(s);
    var checksum :- U32From(zero.rest);
    var position :- U32From(checksum.rest);
    var action :- U32From(position.rest);
    var block :- SkipFrom(action.rest, if action.v != 0 then 332 else 0);
    var zero2 :- U32From(block.rest);
    var next :- U32From(zero2.rest);
    Ok(Sync(checksum.v, position.v, action.v, next.v), next.rest)
  }

  /** A sync record consumes 24 bytes when its action checksum is zero and
      356 otherwise, and it decodes exactly when that many bytes remain. The
      checksum and the position checksum are the words at offsets 4 and 8,
      and the next world time is the last word, after the skipped block. */
  lemma SyncConsumes(s: Bytes)
    requires |s| >= 16
    ensures var action := U32From(s[12..]).value;
            (SyncFrom(s).Ok? <==> |s| >= SyncSize(action)) &&
            (SyncFrom(s).Ok? ==> SyncFrom(s).rest == s[SyncSize(action)..] &&
                                 SyncFrom(s).value.actionChecksum == action)
    ensures SyncFrom(s).Ok? ==>
              SyncFrom(s).value.checksum == U32From(s[4..]).value &&
              SyncFrom(s).value.positionChecksum == U32From(s[8..]).value &&
              SyncFrom(s).value.nextWorldTime ==
                U32From(s[SyncSize(U32From(s[12..]).value) - 4..]).value
  {
    assert s[4..][4..] == s[8..];
    assert s[4..][4..][4..] == s[12..];
    var action := U32From(s[12..]);
    var skip := if action.value != 0 then 332 else 0;
    if |s| >= 16 + skip {
      assert action.rest[skip..] == s[16 + skip..];
      if |s| >= 24 + skip {
        assert s[16 + skip..][4..] == s[20 + skip..];
      }
    }
  }

  /** Recorded-game metadata. */
  datatype Meta = Meta(
    logVersion: Option<U32>, checksumInterval: U32, isMultiplayer: bool,
    useSequenceNumbers: bool, localPlayerId: PlayerId, headerPosition: U32,
    numChapters: Option<U32>)

  /** The part common to every version: five u32 fields, the local player
      narrowed into a player id. */
  function MetaInnerFrom(s: Bytes): (r: Result<Meta>)
    ensures r.Ok? <==> |s| >= 20 && U32From(s[8..]).value < 0x100
    ensures r.Ok? ==> |s| >= 20 && r.rest == s[20..]
    ensures r.Ok? ==> r.value.logVersion.None? && r.value.numChapters.None?
    ensures r.Ok? ==> r.value.checksumInterval == U32From(s).value &&
                      r.value.isMultiplayer == (U32From(s[4..]).value != 0) &&
                      r.value.localPlayerId == U32From(s[8..]).value &&
                      r.value.headerPosition == U32From(s[12..]).value &&
                      r.value.useSequenceNumbers == (U32From(s[16..]).value != 0)
  {
    var interval :- U32From(s);
    var multiplayer :- U32From(interval.rest);
    var rawPlayer :- U32From(multiplayer.rest);
    var player :- NarrowPlayer(rawPlayer);
    var headerPosition :- U32From(player.rest);
    var sequence :- U32From(headerPosition.rest);
    Ok(Meta(None, interval.v, multiplayer.v != 0, sequence.v != 0, player.v, headerPosition.v,
            None),
       sequence.rest)
  }

  /** The Age of Kings layout: the common part, a u64 executable size and two
      f32 values, all ignored. */
  function MetaFromMgl(s: Bytes): Result<Meta> {
    var meta :- MetaInnerFrom(s);
    var exeSize :- SkipFrom(meta.rest, 8);
    var unknown1 :- F32From(exeSize.rest);
    var unknown2 :- F32From(unknown1.rest);
    Ok(meta.v, unknown2.rest)
  }

  /** The Conquerors layout: a log version that must be 3, 4 or 5, the common
      part, then either two unknown u32 words (version 5) or the chapter
      count. */
  function MetaFromMgx(s: Bytes): Result<Meta> {
    var logVersion :- U32From(s);
    if logVersion.v !in {3, 4, 5} then Fail(BadGuard)
    else
      var meta :- MetaInnerFrom(logVersion.rest);
      if logVersion.v == 5 then
        var unknown :- SkipFrom(meta.rest, 8);
        Ok(meta.v.(logVersion := Some(5)), unknown.rest)
      else
        var chapters :- U32From(meta.rest);
        Ok(meta.v.(logVersion := Some(logVersion.v), numChapters := Some(chapters.v)),
           chapters.rest)
  }

  /** The mgl layout consumes 36 bytes and carries neither a log version nor
      a chapter count. */
  lemma MglLayout(s: Bytes)
    ensures MetaFromMgl(s).Ok? <==> MetaInnerFrom(s).Ok? && |s| >= 36
    ensures MetaFromMgl(s).Ok? ==>
              |s| >= 36 && MetaFromMgl(s).rest == s[36..] &&
              MetaFromMgl(s).value.logVersion.None? && MetaFromMgl(s).value.numChapters.None?
    ensures MetaFromMgl(s).Ok? ==> MetaFromMgl(s).value == MetaInnerFrom(s).value
  {
    if MetaFromMgl(s).Ok? {
      assert s[20..][8..][4..][4..] == s[36..];
    }
  }

  /** The mgx layout: the log version is one of 3, 4 and 5 (any other value
      fails the assertion), the chapter count is present exactly when it is
      not 5, and the record is 32 bytes long for version 5 and 28 otherwise. */
  lemma MgxLayout(s: Bytes)
    ensures |s| >= 4 && U32From(s).value !in {3, 4, 5} ==> MetaFromMgx(s) == Fail(BadGuard)
    ensures MetaFromMgx(s).Ok? ==>
              var m := MetaFromMgx(s).value;
              var size := if m.logVersion == Some(5) then 32 else 28;
              |s| >= size && MetaFromMgx(s).rest == s[size..] &&
              m.logVersion == Some(U32From(s).value) && m.logVersion.value in {3, 4, 5} &&
              (m.numChapters.Some? <==> m.logVersion != Some(5))
    ensures MetaFromMgx(s).Ok? ==>
              var m := MetaFromMgx(s).value;
              MetaInnerFrom(s[4..]).Ok? &&
              m.(logVersion := None, numChapters := None) == MetaInnerFrom(s[4..]).value &&
              (m.logVersion != Some(5) ==> m.numChapters == Some(U32From(s[24..]).value))
  {
    if MetaFromMgx(s).Ok? {
      assert s[4..][20..] == s[24..];
      if U32From(s).value == 5 {
        assert s[24..][8..] == s[32..];
      } else {
        assert s[24..][4..] == s[28..];
      }
    }
  }

  /** A chat message: its text is kept as the raw bytes of the string. */
  datatype Chat = Chat(message: Bytes)

  /** `Chat::read_from`: an i32 that must be -1, then a u32-length-prefixed
      string; a length of zero is no string, read as the empty message. */
  function ChatFrom(s: Bytes): Result<Chat> {
    var marker :- I32From(s);
    if marker.v != -1 then Fail(BadGuard)
    else
      var len :- U32From(marker.rest);
      var text :- RawFrom(len.rest, len.v);
      Ok(Chat(text.v), text.rest)
  }

  /** The chat record is the -1 marker and the length-prefixed text; any
      other marker fails. */
  lemma ChatLayout(m: Bytes, t: Bytes)
    requires |m| < 0x1_0000_0000
    ensures ChatFrom(EI32(-1) + E32(|m|) + m + t) == Ok(Chat(m), t)
    ensures forall x: I32 :: x != -1 ==> ChatFrom(EI32(x) + t) == Fail(BadGuard)
  {
    assert EI32(-1) + E32(|m|) + m + t == EI32(-1) + (E32(|m|) + (m + t));
    I32Write(-1, E32(|m|) + (m + t));
    U32Write(|m|, m + t);
    assert (m + t)[..|m|] == m && (m + t)[|m|..] == t;
    forall x: I32 | x != -1
      ensures ChatFrom(EI32(x) + t) == Fail(BadGuard)
    {
      I32Write(x, t);
    }
  }

  /** An action of the stream. */
  datatype Action =
    | CommandAction(Command)
    | TimeAction(Time)
    | SyncAction(Sync)
    | ViewLockAction(ViewLock)
    | ChatAction(Chat)
}
