/** The command records carried inside a command frame, each after its opcode
    byte: their fields, their decoders and, where the format has one, their
    encoders. A decoder reads from the bytes that follow the opcode; an encoder
    yields the bytes it would emit, or None where the writer panics on an
    `unwrap()`. */
module Commands {
  import opened Wire
  import opened ObjectLists

  type Location2 = (F32, F32)
  type Location3 = (F32, F32, F32)

  /** The waypoints of a patrol: an `ArrayVec` of capacity 10. */
  type Waypoints = w: seq<Location2> | |w| <= 10

  /** The parameters of a UserPatch AI command: an `ArrayVec` of capacity 4. */
  type AIParams = p: seq<U32> | |p| <= 4

  /** The nine flare recipients, one flag per player slot. */
  type Recipients = r: seq<bool> | |r| == 9
    witness [false, false, false, false, false, false, false, false, false]

  datatype OrderCommand = OrderCommand(
    playerId: PlayerId, targetId: Option<ObjectId>, location: Location2, objects: ObjectsList)

  datatype StopCommand = StopCommand(objects: ObjectsList)

  datatype WorkCommand = WorkCommand(
    targetId: Option<ObjectId>, location: Location2, objects: ObjectsList)

  datatype MoveCommand = MoveCommand(
    playerId: PlayerId, targetId: Option<ObjectId>, location: Location2, objects: ObjectsList)

  datatype CreateCommand = CreateCommand(
    playerId: PlayerId, unitTypeId: UnitTypeId, location: Location3)

  datatype AddResourceCommand = AddResourceCommand(
    playerId: PlayerId, resource: Byte, amount: F32)

  datatype AIOrderCommand = AIOrderCommand(
    playerId: PlayerId, issuer: PlayerId, objects: ObjectsList, orderType: U16,
    orderPriority: I8, targetId: Option<ObjectId>, targetPlayerId: Option<PlayerId>,
    targetLocation: Location3, range: F32, immediate: bool, addToFront: bool)

  datatype ResignCommand = ResignCommand(
    playerId: PlayerId, commPlayerId: PlayerId, dropped: bool)

  datatype GroupWaypointCommand = GroupWaypointCommand(
    playerId: PlayerId, location: (Byte, Byte), objects: ObjectsList)

  datatype UnitAIStateCommand = UnitAIStateCommand(state: I8, objects: ObjectsList)

  /** Guard, Follow and Repair share this layout: a u8 count, two padding
      bytes, an optional target and the objects (Repair calls them repairers). */
  datatype TargetCommand = TargetCommand(targetId: Option<ObjectId>, objects: ObjectsList)

  datatype PatrolCommand = PatrolCommand(waypoints: Waypoints, objects: ObjectsList)

  datatype FormFormationCommand = FormFormationCommand(
    playerId: PlayerId, formationType: I32, objects: ObjectsList)

  datatype UserPatchAICommand = UserPatchAICommand(
    playerId: PlayerId, aiAction: Byte, params: AIParams)

  datatype MakeCommand = MakeCommand(
    playerId: PlayerId, buildingId: ObjectId, unitTypeId: UnitTypeId, targetId: Option<ObjectId>)

  datatype ResearchCommand = ResearchCommand(
    playerId: PlayerId, buildingId: ObjectId, techId: TechId, targetId: Option<ObjectId>)

  datatype BuildCommand = BuildCommand(
    playerId: PlayerId, unitTypeId: UnitTypeId, location: Location2, frame: Byte,
    builders: ObjectsList, uniqueId: Option<U32>)

  datatype BuildWallCommand = BuildWallCommand(
    playerId: PlayerId, start: (Byte, Byte), end: (Byte, Byte), unitTypeId: UnitTypeId,
    builders: ObjectsList)

  datatype CancelBuildCommand = CancelBuildCommand(playerId: PlayerId, buildingId: ObjectId)

  datatype AttackGroundCommand = AttackGroundCommand(location: Location2, objects: ObjectsList)

  datatype UngarrisonCommand = UngarrisonCommand(
    ungarrisonType: I8, unitTypeId: Option<ObjectId>, location: Option<Location2>,
    objects: ObjectsList)

  datatype FlareCommand = FlareCommand(
    playerId: PlayerId, commPlayerId: PlayerId, recipients: Recipients, location: Location2)

  datatype UnitOrderCommand = UnitOrderCommand(
    targetId: Option<ObjectId>, action: I8, param: Option<Byte>, location: Option<Location2>,
    uniqueId: Option<U32>, objects: ObjectsList)

  datatype QueueCommand = QueueCommand(buildingId: ObjectId, unitTypeId: UnitTypeId, amount: U16)

  datatype SetGatherPointCommand = SetGatherPointCommand(
    buildings: ObjectsList, targetId: Option<ObjectId>, targetTypeId: Option<UnitTypeId>,
    location: Option<Location2>)

  /** Buy and Sell share one layout, generated for both by one macro. */
  datatype MarketCommand = MarketCommand(
    playerId: PlayerId, resource: Byte, amount: I8, marketId: ObjectId)

  datatype Unknown7FCommand = Unknown7FCommand(objectId: ObjectId, value: U32)

  datatype BackToWorkCommand = BackToWorkCommand(buildingId: ObjectId)

  // ---------------------------------------------------------------------------
  // Shared field rules

  /** A u32 sentinel-or-id target slot. */
  function TargetFrom(s: Bytes): (r: Result<Option<ObjectId>>)
    ensures r.Ok? <==> |s| >= 4
    ensures r.Ok? ==> r.rest == s[4..]
  {
    OptU32From(s)
  }

  /** An i8 player slot where -1 means none; any other negative value fails
      the narrowing into a player id. */
  function OptPlayerOf(p: Parsed<I8>): Result<Option<PlayerId>> {
    if p.v == -1 then Ok(None, p.rest)
    else if p.v < 0 then Fail(OutOfRange)
    else Ok(Some(p.v), p.rest)
  }

  /** The location rule of Ungarrison and UnitOrder: present unless either
      coordinate equals -1. */
  function OptLocation(fl: Floats, x: F32, y: F32): Option<Location2> {
    if fl.differsFromMinusOne(x) && fl.differsFromMinusOne(y) then Some((x, y)) else None
  }

  /** `target.map(|id| id.try_into().unwrap()).unwrap_or(-1)` written as an i32. */
  predicate TargetFitsI32(t: Option<ObjectId>) {
    t.None? || t.value < 0x8000_0000
  }

  function TargetI32Bytes(t: Option<ObjectId>): (r: Option<Bytes>)
    ensures r.Some? <==> TargetFitsI32(t)
    ensures r.Some? ==> |r.value| == 4
  {
    match t
    case None => Some(EI32(-1))
    case Some(id) => if id < 0x8000_0000 then Some(E32(id)) else None
  }

  /** A list length written as an i8 after `try_into().unwrap()`. */
  function I8Count(l: ObjectsList): (r: Option<Bytes>)
    ensures r.Some? <==> Len(l) < 0x80
    ensures r.Some? ==> |r.value| == 1
  {
    if Len(l) < 0x80 then Some(EI8(Len(l))) else None
  }

  /** A list length written as a u8 after `try_into().unwrap()`. */
  function U8Count(l: ObjectsList): (r: Option<Bytes>)
    ensures r.Some? <==> Len(l) < 0x100
    ensures r.Some? ==> |r.value| == 1
  {
    if Len(l) < 0x100 then Some(E8(Len(l))) else None
  }

  /** A list length written as a u32 after `try_into().unwrap()`. */
  function U32Count(l: ObjectsList): (r: Option<Bytes>)
    ensures r.Some? <==> Len(l) < 0x1_0000_0000
    ensures r.Some? ==> |r.value| == 4
  {
    if Len(l) < 0x1_0000_0000 then Some(E32(Len(l))) else None
  }

  // ---------------------------------------------------------------------------
  // Decoders

  function OrderFrom(s: Bytes): Result<OrderCommand> {
    var player :- U8From(s);
    var pad :- SkipFrom(player.rest, 2);
    var target :- TargetFrom(pad.rest);
    var count :- I32From(target.rest);
    var x :- F32From(count.rest);
    var y :- F32From(x.rest);
    var objects :- ObjectsListFrom(y.rest, count.v);
    Ok(OrderCommand(player.v, target.v, (x.v, y.v), objects.v), objects.rest)
  }

  function StopFrom(s: Bytes): Result<StopCommand> {
    var count :- I8From(s);
    var objects :- ObjectsListFrom(count.rest, count.v);
    Ok(StopCommand(objects.v), objects.rest)
  }

  function WorkFrom(s: Bytes): Result<WorkCommand> {
    var pad :- SkipFrom(s, 3);
    var target :- TargetFrom(pad.rest);
    var count :- I8From(target.rest);
    var pad2 :- SkipFrom(count.rest, 3);
    var x :- F32From(pad2.rest);
    var y :- F32From(x.rest);
    var objects :- ObjectsListFrom(y.rest, count.v);
    Ok(WorkCommand(target.v, (x.v, y.v), objects.v), objects.rest)
  }

  /** The fields of a move ahead of its objects. */
  function MoveHeadFrom(s: Bytes): Result<(PlayerId, Option<ObjectId>, I8, Location2)> {
    var player :- U8From(s);
    var pad :- SkipFrom(player.rest, 2);
    var target :- TargetFrom(pad.rest);
    var count :- I8From(target.rest);
    var pad2 :- SkipFrom(count.rest, 3);
    var x :- F32From(pad2.rest);
    var y :- F32From(x.rest);
    Ok((player.v, target.v, count.v, (x.v, y.v)), y.rest)
  }

  function MoveFrom(s: Bytes): Result<MoveCommand> {
    var head :- MoveHeadFrom(s);
    var (player, target, count, location) := head.v;
    var objects :- ObjectsListFrom(head.rest, count);
    Ok(MoveCommand(player, target, location, objects.v), objects.rest)
  }

  function CreateFrom(s: Bytes): (r: Result<CreateCommand>)
    ensures r.Ok? <==> |s| >= 17
    ensures r.Ok? ==> r.rest == s[17..]
  {
    var pad :- U8From(s);
    var unitType :- U16From(pad.rest);
    var player :- U8From(unitType.rest);
    var pad2 :- U8From(player.rest);
    var x :- F32From(pad2.rest);
    var y :- F32From(x.rest);
    var z :- F32From(y.rest);
    Ok(CreateCommand(player.v, unitType.v, (x.v, y.v, z.v)), z.rest)
  }

  function AddResourceFrom(s: Bytes): (r: Result<AddResourceCommand>)
    ensures r.Ok? <==> |s| >= 7
    ensures r.Ok? ==> r.rest == s[7..]
  {
    var player :- U8From(s);
    var resource :- U8From(player.rest);
    var pad :- U8From(resource.rest);
    var amount :- F32From(pad.rest);
    Ok(AddResourceCommand(player.v, resource.v, amount.v), amount.rest)
  }

  /** The objects of an AI order: a count of 1 means the inline object slot,
      with no ids after the fixed part. */
  function AIOrderObjectsFrom(s: Bytes, count: I8, inline: U32): Result<ObjectsList> {
    if count == 1 then Ok(List([inline]), s) else ObjectsListFrom(s, count)
  }

  /** The AI order up to its target-player byte: the count, the player, the
      issuer, the inline object, the order type, the priority, a pad byte and
      the target. */
  function AIOrderHeadFrom(s: Bytes): Result<(I8, PlayerId, PlayerId, U32, U16, I8, Option<ObjectId>)> {
    var count :- I8From(s);
    var player :- U8From(count.rest);
    var issuer :- U8From(player.rest);
    var objectId :- U32From(issuer.rest);
    var orderType :- U16From(objectId.rest);
    var priority :- I8From(orderType.rest);
    var pad :- U8From(priority.rest);
    var target :- TargetFrom(pad.rest);
    Ok((count.v, player.v, issuer.v, objectId.v, orderType.v, priority.v, target.v), target.rest)
  }

  function AIOrderFrom(s: Bytes): Result<AIOrderCommand> {
    var fields :- AIOrderHeadFrom(s);
    var (count, player, issuer, objectId, orderType, priority, target) := fields.v;
    var rawTargetPlayer :- I8From(fields.rest);
    var targetPlayer :- OptPlayerOf(rawTargetPlayer);
    var head := AIOrderCommand(player, issuer, List([]), orderType, priority, target,
                               targetPlayer.v, (0, 0, 0), 0, false, false);
    AIOrderTailFrom(targetPlayer.rest, count, objectId, head)
  }

  /** The fields of an AI order after the target player, filled into `head`. */
  function AIOrderTailFrom(s: Bytes, count: I8, inline: U32, head: AIOrderCommand)
    : Result<AIOrderCommand>
  {
    var pad :- SkipFrom(s, 3);
    var x :- F32From(pad.rest);
    var y :- F32From(x.rest);
    var z :- F32From(y.rest);
    var range :- F32From(z.rest);
    var immediate :- BoolFrom(range.rest);
    var addToFront :- BoolFrom(immediate.rest);
    var pad2 :- U16From(addToFront.rest);
    var objects :- AIOrderObjectsFrom(pad2.rest, count, inline);
    Ok(head.(objects := objects.v, targetLocation := (x.v, y.v, z.v), range := range.v,
             immediate := immediate.v, addToFront := addToFront.v),
       objects.rest)
  }

  function ResignFrom(s: Bytes): (r: Result<ResignCommand>)
    ensures r.Ok? <==> |s| >= 3
    ensures r.Ok? ==> r.rest == s[3..]
  {
    var player :- U8From(s);
    var comm :- U8From(player.rest);
    var dropped :- BoolFrom(comm.rest);
    Ok(ResignCommand(player.v, comm.v, dropped.v), dropped.rest)
  }

  function GroupWaypointFrom(s: Bytes): Result<GroupWaypointCommand> {
    var player :- U8From(s);
    var count :- U8From(player.rest);
    var x :- U8From(count.rest);
    var y :- U8From(x.rest);
    var objects :- ObjectsListFrom(y.rest, count.v);
    Ok(GroupWaypointCommand(player.v, (x.v, y.v), objects.v), objects.rest)
  }

  function UnitAIStateFrom(s: Bytes): Result<UnitAIStateCommand> {
    var count :- U8From(s);
    var state :- I8From(count.rest);
    var objects :- ObjectsListFrom(state.rest, count.v);
    Ok(UnitAIStateCommand(state.v, objects.v), objects.rest)
  }

  /** Guard, Follow and Repair. */
  function TargetCommandFrom(s: Bytes): Result<TargetCommand> {
    var count :- U8From(s);
    var pad :- SkipFrom(count.rest, 2);
    var target :- TargetFrom(pad.rest);
    var objects :- ObjectsListFrom(target.rest, count.v);
    Ok(TargetCommand(target.v, objects.v), objects.rest)
  }

  /** The kept waypoints: the first `count` (x, y) pairs of the ten slots. */
  function Pairs(xs: seq<F32>, ys: seq<F32>, count: nat): (w: seq<Location2>)
    requires count <= |xs| && count <= |ys|
    ensures |w| == count
  {
    seq(count, i requires 0 <= i < count => (xs[i], ys[i]))
  }

  /** The ten raw waypoint slots: ten x coordinates, then ten y coordinates. */
  function WaypointSlotsFrom(s: Bytes): (r: Result<(seq<F32>, seq<F32>)>)
    ensures r.Ok? ==> |r.value.0| == 10 && |r.value.1| == 10
  {
    var xs :- Many(s, 10, F32From);
    var ys :- Many(xs.rest, 10, F32From);
    Ok((xs.v, ys.v), ys.rest)
  }

  /** The object count, the kept-waypoint count and the ten raw slots that
      come ahead of the objects. */
  function PatrolHeadFrom(s: Bytes): (r: Result<(I8, Byte, (seq<F32>, seq<F32>))>)
    ensures r.Ok? ==> |r.value.2.0| == 10 && |r.value.2.1| == 10
  {
    var count :- I8From(s);
    var waypointCount :- U8From(count.rest);
    var pad :- U8From(waypointCount.rest);
    var slots :- WaypointSlotsFrom(pad.rest);
    Ok((count.v, waypointCount.v, slots.v), slots.rest)
  }

  /** The waypoint counts, the ten slots, then the objects; more than ten
      kept waypoints makes the slice panic. */
  function PatrolFrom(s: Bytes): Result<PatrolCommand> {
    var head :- PatrolHeadFrom(s);
    var (count, waypointCount, slots) := head.v;
    if waypointCount > 10 then Fail(OutOfRange)
    else
      var objects :- ObjectsListFrom(head.rest, count);
      Ok(PatrolCommand(Pairs(slots.0, slots.1, waypointCount), objects.v), objects.rest)
  }

  function FormFormationFrom(s: Bytes): Result<FormFormationCommand> {
    var count :- I8From(s);
    var player :- U8From(count.rest);
    var pad :- U8From(player.rest);
    var formation :- I32From(pad.rest);
    var objects :- ObjectsListFrom(formation.rest, count.v);
    Ok(FormFormationCommand(player.v, formation.v, objects.v), objects.rest)
  }

  /** The number of parameters a frame of `size` bytes holds, or None where
      `(size - 4) / 4` underflows or the assertion `num_params < 4` fails
      (an underflow panics in a debug build and wraps to a count that fails
      the assertion in a release build). */
  function UserPatchParamCount(size: U32): (n: Option<nat>)
    ensures n.Some? ==> n.value < 4
  {
    if size < 4 || (size - 4) / 4 >= 4 then None else Some((size - 4) / 4)
  }

  function UserPatchAIFrom(s: Bytes, size: U32): Result<UserPatchAICommand> {
    match UserPatchParamCount(size)
    case None => Fail(BadGuard)
    case Some(n) =>
      var action :- U8From(s);
      var player :- U8From(action.rest);
      var pad :- U8From(player.rest);
      var params :- Many(pad.rest, n, U32From);
      Ok(UserPatchAICommand(player.v, action.v, params.v), params.rest)
  }

  function MakeFrom(s: Bytes): (r: Result<MakeCommand>)
    ensures r.Ok? <==> |s| >= 15
    ensures r.Ok? ==> r.rest == s[15..]
  {
    var pad :- SkipFrom(s, 3);
    var building :- U32From(pad.rest);
    var player :- U8From(building.rest);
    var pad2 :- U8From(player.rest);
    var unitType :- U16From(pad2.rest);
    var target :- TargetFrom(unitType.rest);
    Ok(MakeCommand(player.v, building.v, unitType.v, target.v), target.rest)
  }

  function ResearchFrom(s: Bytes): (r: Result<ResearchCommand>)
    ensures r.Ok? <==> |s| >= 15
    ensures r.Ok? ==> r.rest == s[15..]
  {
    var pad :- SkipFrom(s, 3);
    var building :- U32From(pad.rest);
    var player :- U8From(building.rest);
    var pad2 :- U8From(player.rest);
    var tech :- U16From(pad2.rest);
    var target :- TargetFrom(tech.rest);
    Ok(ResearchCommand(player.v, building.v, tech.v, target.v), target.rest)
  }

  function BuildFrom(s: Bytes): Result<BuildCommand> {
    var count :- I8From(s);
    var player :- U8From(count.rest);
    var pad :- U8From(player.rest);
    var x :- F32From(pad.rest);
    var y :- F32From(x.rest);
    var unitType :- U16From(y.rest);
    var pad2 :- U16From(unitType.rest);
    var uniqueId :- OptU32From(pad2.rest);
    var frame :- U8From(uniqueId.rest);
    var pad3 :- SkipFrom(frame.rest, 3);
    var builders :- ObjectsListFrom(pad3.rest, count.v);
    Ok(BuildCommand(player.v, unitType.v, (x.v, y.v), frame.v, builders.v, uniqueId.v),
       builders.rest)
  }

  /** Signed ids narrowed one by one into object ids; a negative one fails. */
  function NarrowIds(raw: seq<I32>): (r: Option<seq<ObjectId>>)
    ensures r.Some? <==> forall i :: 0 <= i < |raw| ==> raw[i] >= 0
    ensures r.Some? ==> r.value == raw
  {
    if raw == [] then Some([])
    else if raw[0] < 0 then None
    else
      var more :- NarrowIds(raw[1..]);
      assert raw == [raw[0]] + raw[1..];
      Some([raw[0] as ObjectId] + more)
  }

  /** The builders of a wall: -1 means "same as last", another negative
      count fails its conversion to a length, and a single -1 id stands for
      no builders. */
  function WallBuildersFrom(s: Bytes, count: I8): Result<ObjectsList> {
    if count == -1 then Ok(SameAsLast, s)
    else if count < 0 then Fail(OutOfRange)
    else
      var raw :- Many(s, count, I32From);
      var list := if count == 1 && raw.v[0] == -1 then [] else raw.v;
      match NarrowIds(list)
      case None => Fail(OutOfRange)
      case Some(ids) => Ok(List(ids), raw.rest)
  }

  function BuildWallFrom(s: Bytes): Result<BuildWallCommand> {
    var count :- I8From(s);
    var player :- U8From(count.rest);
    var sx :- U8From(player.rest);
    var sy :- U8From(sx.rest);
    var ex :- U8From(sy.rest);
    var ey :- U8From(ex.rest);
    var pad :- U8From(ey.rest);
    var unitType :- U16From(pad.rest);
    var pad2 :- U16From(unitType.rest);
    var marker :- U32From(pad2.rest);
    if marker.v != 0xFFFF_FFFF then Fail(BadGuard)
    else
      var builders :- WallBuildersFrom(marker.rest, count.v);
      Ok(BuildWallCommand(player.v, (sx.v, sy.v), (ex.v, ey.v), unitType.v, builders.v),
         builders.rest)
  }

  function CancelBuildFrom(s: Bytes): (r: Result<CancelBuildCommand>)
    ensures r.Ok? ==> |s| >= 11 && r.rest == s[11..]
  {
    var pad :- SkipFrom(s, 3);
    var building :- U32From(pad.rest);
    var rawPlayer :- U32From(building.rest);
    var player :- NarrowPlayer(rawPlayer);
    Ok(CancelBuildCommand(player.v, building.v), player.rest)
  }

  function AttackGroundFrom(s: Bytes): Result<AttackGroundCommand> {
    var count :- I8From(s);
    var pad :- SkipFrom(count.rest, 2);
    var x :- F32From(pad.rest);
    var y :- F32From(x.rest);
    var objects :- ObjectsListFrom(y.rest, count.v);
    Ok(AttackGroundCommand((x.v, y.v), objects.v), objects.rest)
  }

  function UngarrisonFrom(fl: Floats, s: Bytes): Result<UngarrisonCommand> {
    var count :- I8From(s);
    var pad :- U16From(count.rest);
    var x :- F32From(pad.rest);
    var y :- F32From(x.rest);
    var kind :- I8From(y.rest);
    var pad2 :- SkipFrom(kind.rest, 3);
    var unitType :- OptU32From(pad2.rest);
    var objects :- ObjectsListFrom(unitType.rest, count.v);
    Ok(UngarrisonCommand(kind.v, unitType.v, OptLocation(fl, x.v, y.v), objects.v),
       objects.rest)
  }

  function FlareFrom(s: Bytes): Result<FlareCommand> {
    var pad :- SkipFrom(s, 3);
    var unit :- I32From(pad.rest);
    if unit.v != -1 then Fail(BadGuard)
    else
      var recipients :- Many(unit.rest, 9, BoolFrom);
      FlareTailFrom(recipients.v, recipients.rest)
  }

  /** The part of a flare after the recipient flags: its location and the
      two players. */
  function FlareTailFrom(recipients: Recipients, s: Bytes): Result<FlareCommand> {
    var pad :- SkipFrom(s, 3);
    var x :- F32From(pad.rest);
    var y :- F32From(x.rest);
    var player :- U8From(y.rest);
    var comm :- U8From(player.rest);
    var pad2 :- SkipFrom(comm.rest, 2);
    Ok(FlareCommand(player.v, comm.v, recipients, (x.v, y.v)), pad2.rest)
  }

  /** An i8 parameter where -1 means none; any other value is reinterpreted
      as a u8 (`as u8`, a wrapping cast). */
  function OptParamOf(p: I8): Option<Byte> {
    if p == -1 then None else Some(Unsigned8(p))
  }

  function UnitOrderFrom(fl: Floats, s: Bytes): Result<UnitOrderCommand> {
    var count :- I8From(s);
    var pad :- U16From(count.rest);
    var target :- TargetFrom(pad.rest);
    var action :- I8From(target.rest);
    var param :- I8From(action.rest);
    var pad2 :- U16From(param.rest);
    var x :- F32From(pad2.rest);
    var y :- F32From(x.rest);
    var uniqueId :- OptU32From(y.rest);
    var objects :- ObjectsListFrom(uniqueId.rest, count.v);
    Ok(UnitOrderCommand(target.v, action.v, OptParamOf(param.v), OptLocation(fl, x.v, y.v),
                        uniqueId.v, objects.v),
       objects.rest)
  }

  function QueueFrom(s: Bytes): (r: Result<QueueCommand>)
    ensures r.Ok? <==> |s| >= 11
    ensures r.Ok? ==> r.rest == s[11..]
  {
    var pad :- SkipFrom(s, 3);
    var building :- U32From(pad.rest);
    var unitType :- U16From(building.rest);
    var amount :- U16From(unitType.rest);
    Ok(QueueCommand(building.v, unitType.v, amount.v), amount.rest)
  }

  /** The gather point before its buildings: the i8 count, the target, its
      type and the location, with two pad bytes after the count and after the
      type. */
  function GatherHeadFrom(s: Bytes): Result<(I8, Option<ObjectId>, Option<U16>, Location2)> {
    var count :- I8From(s);
    var pad :- SkipFrom(count.rest, 2);
    var target :- TargetFrom(pad.rest);
    var targetType :- OptU16From(target.rest);
    var pad2 :- SkipFrom(targetType.rest, 2);
    var x :- F32From(pad2.rest);
    var y :- F32From(x.rest);
    Ok((count.v, target.v, targetType.v, (x.v, y.v)), y.rest)
  }

  function SetGatherPointFrom(s: Bytes): Result<SetGatherPointCommand> {
    var head :- GatherHeadFrom(s);
    var (count, target, targetType, location) := head.v;
    var buildings :- ObjectsListFrom(head.rest, count);
    Ok(SetGatherPointCommand(buildings.v, target, targetType, Some(location)), buildings.rest)
  }

  /** Buy and Sell. */
  function MarketFrom(s: Bytes): (r: Result<MarketCommand>)
    ensures r.Ok? <==> |s| >= 7
    ensures r.Ok? ==> r.rest == s[7..]
  {
    var player :- U8From(s);
    var resource :- U8From(player.rest);
    var amount :- I8From(resource.rest);
    var market :- U32From(amount.rest);
    Ok(MarketCommand(player.v, resource.v, amount.v, market.v), market.rest)
  }

  /** Opcode 0x7f: three pad bytes, then the object id and the value, both
      u32 words. */
  function Unknown7FFrom(s: Bytes): (r: Result<Unknown7FCommand>)
    ensures r.Ok? <==> |s| >= 11
    ensures r.Ok? ==> r.rest == s[11..]
    ensures r.Ok? ==> r.value == Unknown7FCommand(U32From(s[3..]).value, U32From(s[7..]).value)
  {
    var pad :- SkipFrom(s, 3);
    var obj :- U32From(pad.rest);
    var value :- U32From(obj.rest);
    Ok(Unknown7FCommand(obj.v, value.v), value.rest)
  }

  /** Back to work: three pad bytes, then the building's u32 id. */
  function BackToWorkFrom(s: Bytes): (r: Result<BackToWorkCommand>)
    ensures r.Ok? <==> |s| >= 7
    ensures r.Ok? ==> r.rest == s[7..]
    ensures r.Ok? ==> r.value.buildingId == U32From(s[3..]).value
  {
    var pad :- SkipFrom(s, 3);
    var building :- U32From(pad.rest);
    Ok(BackToWorkCommand(building.v), building.rest)
  }

  // ---------------------------------------------------------------------------
  // Encoders

  function OrderBytes(c: OrderCommand): (b: Option<Bytes>)
    ensures b.Some? <==> TargetFitsI32(c.targetId) && Len(c.objects) < 0x1_0000_0000
    ensures b.Some? ==> |b.value| == 19 + 4 * Len(c.objects)
  {
    var target :- TargetI32Bytes(c.targetId);
    var count :- U32Count(c.objects);
    Some(E8(c.playerId) + Zeros(2) + target + count + E32(c.location.0) + E32(c.location.1)
         + ObjectsListBytes(c.objects))
  }

  function StopBytes(c: StopCommand): (b: Option<Bytes>)
    ensures b.Some? <==> Len(c.objects) < 0x80
    ensures b.Some? ==> |b.value| == 1 + 4 * Len(c.objects)
  {
    var count :- I8Count(c.objects);
    Some(count + ObjectsListBytes(c.objects))
  }

  /** The target is written as `u32 as i32`, the same bits as the id. */
  function WorkBytes(c: WorkCommand): (b: Option<Bytes>)
    ensures b.Some? <==> Len(c.objects) < 0x80
    ensures b.Some? ==> |b.value| == 19 + 4 * Len(c.objects)
  {
    var count :- I8Count(c.objects);
    Some(Zeros(3) + EOptU32(c.targetId) + count + Zeros(3) + E32(c.location.0)
         + E32(c.location.1) + ObjectsListBytes(c.objects))
  }

  /** The Move writer as the source has it: three zero bytes where the
      decoder reads the player id. */
  function MoveBytesAsWritten(c: MoveCommand): (b: Option<Bytes>)
    ensures b.Some? <==> Len(c.objects) < 0x80
    ensures b.Some? ==> |b.value| == 19 + 4 * Len(c.objects)
  {
    var count :- I8Count(c.objects);
    Some(Zeros(3) + EOptU32(c.targetId) + count + Zeros(3) + E32(c.location.0)
         + E32(c.location.1) + ObjectsListBytes(c.objects))
  }

  /** The Move writer with the player id in the first byte, as the decoder
      reads it. */
  function MoveBytes(c: MoveCommand): (b: Option<Bytes>)
    ensures b.Some? <==> Len(c.objects) < 0x80
    ensures b.Some? ==> |b.value| == 19 + 4 * Len(c.objects)
  {
    var count :- I8Count(c.objects);
    Some(E8(c.playerId) + Zeros(2) + EOptU32(c.targetId) + count + Zeros(3)
         + E32(c.location.0) + E32(c.location.1) + ObjectsListBytes(c.objects))
  }

  function CreateBytes(c: CreateCommand): (b: Bytes)
    ensures |b| == 17
  {
    E8(0) + E16(c.unitTypeId) + E8(c.playerId) + E8(0)
      + E32(c.location.0) + E32(c.location.1) + E32(c.location.2)
  }

  function AddResourceBytes(c: AddResourceCommand): (b: Bytes)
    ensures |b| == 7
  {
    E8(c.playerId) + E8(c.resource) + E8(0) + E32(c.amount)
  }

  /** The inline object slot: the single id of a one-element list, else -1. */
  function InlineObjectBytes(l: ObjectsList): (b: Bytes)
    ensures |b| == 4
  {
    if l.List? && |l.ids| == 1 then E32(l.ids[0]) else EI32(-1)
  }

  /** The objects that follow the fixed part of an AI order: none for a list
      of at most one. */
  function TrailingObjects(l: ObjectsList): ObjectsList {
    if Len(l) > 1 then l else List([])
  }

  /** The trailing ids, present only for more than one object. */
  function TrailingIdsBytes(l: ObjectsList): (b: Bytes)
    ensures |b| == 4 * Len(TrailingObjects(l))
  {
    if Len(l) > 1 then ObjectsListBytes(l) else []
  }

  /** An AI order with `slot` in the target-player position. */
  function AIOrderBytesWith(c: AIOrderCommand, slot: Bytes): (b: Option<Bytes>)
    ensures b.Some? <==> Len(c.objects) < 0x80 && TargetFitsI32(c.targetId)
    ensures b.Some? ==> |b.value| == 38 + |slot| + 4 * Len(TrailingObjects(c.objects))
  {
    var count :- I8Count(c.objects);
    var target :- TargetI32Bytes(c.targetId);
    Some(count + E8(c.playerId) + E8(c.issuer) + InlineObjectBytes(c.objects)
         + E16(c.orderType) + EI8(c.orderPriority) + E8(0) + target + slot
         + AIOrderTailBytes(c))
  }

  /** The fields of an AI order after the target player. */
  function AIOrderTailBytes(c: AIOrderCommand): Bytes {
    Zeros(3) + E32(c.targetLocation.0) + E32(c.targetLocation.1) + E32(c.targetLocation.2)
      + E32(c.range) + EBool(c.immediate) + EBool(c.addToFront) + Zeros(2)
      + TrailingIdsBytes(c.objects)
  }

  /** The AI-order writer as the source has it: the issuing player's id in the
      target-player slot. */
  function AIOrderBytesAsWritten(c: AIOrderCommand): (b: Option<Bytes>)
    ensures b.Some? <==> Len(c.objects) < 0x80 && TargetFitsI32(c.targetId)
    ensures b.Some? ==> |b.value| == 39 + 4 * Len(TrailingObjects(c.objects))
  {
    AIOrderBytesWith(c, E8(c.playerId))
  }

  /** The target player as the i8 slot the decoder reads: -1 for none, and a
      player id that does not fit an i8 fails its conversion. */
  function TargetPlayerBytes(p: Option<PlayerId>): Option<Bytes> {
    match p
    case None => Some(EI8(-1))
    case Some(id) => if id < 0x80 then Some(EI8(id)) else None
  }

  /** The AI-order writer with the target player in its own slot. */
  function AIOrderBytes(c: AIOrderCommand): (b: Option<Bytes>)
    ensures b.Some? <==> Len(c.objects) < 0x80 && TargetFitsI32(c.targetId)
                         && (c.targetPlayerId.Some? ==> c.targetPlayerId.value < 0x80)
    ensures b.Some? ==> |b.value| == 39 + 4 * Len(TrailingObjects(c.objects))
  {
    var slot :- TargetPlayerBytes(c.targetPlayerId);
    AIOrderBytesWith(c, slot)
  }

  function ResignBytes(c: ResignCommand): (b: Bytes)
    ensures |b| == 3
  {
    E8(c.playerId) + E8(c.commPlayerId) + EBool(c.dropped)
  }

  function GroupWaypointBytes(c: GroupWaypointCommand): (b: Option<Bytes>)
    ensures b.Some? <==> Len(c.objects) < 0x100
    ensures b.Some? ==> |b.value| == 4 + 4 * Len(c.objects)
  {
    var count :- U8Count(c.objects);
    Some(E8(c.playerId) + count + E8(c.location.0) + E8(c.location.1)
         + ObjectsListBytes(c.objects))
  }

  function UnitAIStateBytes(c: UnitAIStateCommand): (b: Option<Bytes>)
    ensures b.Some? <==> Len(c.objects) < 0x100
    ensures b.Some? ==> |b.value| == 2 + 4 * Len(c.objects)
  {
    var count :- U8Count(c.objects);
    Some(count + EI8(c.state) + ObjectsListBytes(c.objects))
  }

  /** Guard, Follow and Repair. */
  function TargetCommandBytes(c: TargetCommand): (b: Option<Bytes>)
    ensures b.Some? <==> Len(c.objects) < 0x100 && TargetFitsI32(c.targetId)
    ensures b.Some? ==> |b.value| == 7 + 4 * Len(c.objects)
  {
    var count :- U8Count(c.objects);
    var target :- TargetI32Bytes(c.targetId);
    Some(count + Zeros(2) + target + ObjectsListBytes(c.objects))
  }

  /** The ten slots of one coordinate, (0, 0) past the last waypoint. */
  function Column(w: Waypoints, xCoordinate: bool): (col: seq<F32>)
    ensures |col| == 10
  {
    seq(10, i requires 0 <= i < 10 =>
      if i < |w| then (if xCoordinate then w[i].0 else w[i].1) else 0)
  }

  function PatrolBytes(c: PatrolCommand): (b: Option<Bytes>)
    ensures b.Some? <==> Len(c.objects) < 0x80
    ensures b.Some? ==> |b.value| == 83 + 4 * Len(c.objects)
  {
    var count :- I8Count(c.objects);
    Some(count + E8(|c.waypoints|) + E8(0) + F32sBytes(Column(c.waypoints, true))
         + F32sBytes(Column(c.waypoints, false)) + ObjectsListBytes(c.objects))
  }

  function FormFormationBytes(c: FormFormationCommand): (b: Option<Bytes>)
    ensures b.Some? <==> Len(c.objects) < 0x80
    ensures b.Some? ==> |b.value| == 7 + 4 * Len(c.objects)
  {
    var count :- I8Count(c.objects);
    Some(count + E8(c.playerId) + E8(0) + EI32(c.formationType) + ObjectsListBytes(c.objects))
  }

  function UserPatchAIBytes(c: UserPatchAICommand): (b: Bytes)
    ensures |b| == 3 + 4 * |c.params|
  {
    ConcatLength(c.params, E32, 4);
    E8(c.aiAction) + E8(c.playerId) + E8(0) + Concat(c.params, E32)
  }

  function MakeBytes(c: MakeCommand): (b: Option<Bytes>)
    ensures b.Some? <==> TargetFitsI32(c.targetId)
    ensures b.Some? ==> |b.value| == 15
  {
    var target :- TargetI32Bytes(c.targetId);
    Some(Zeros(3) + E32(c.buildingId) + E8(c.playerId) + E8(0) + E16(c.unitTypeId) + target)
  }

  function ResearchBytes(c: ResearchCommand): (b: Option<Bytes>)
    ensures b.Some? <==> TargetFitsI32(c.targetId)
    ensures b.Some? ==> |b.value| == 15
  {
    var target :- TargetI32Bytes(c.targetId);
    Some(Zeros(3) + E32(c.buildingId) + E8(c.playerId) + E8(0) + E16(c.techId) + target)
  }

  function CancelBuildBytes(c: CancelBuildCommand): (b: Bytes)
    ensures |b| == 11
  {
    Zeros(3) + E32(c.buildingId) + E32(c.playerId)
  }

  function AttackGroundBytes(c: AttackGroundCommand): (b: Option<Bytes>)
    ensures b.Some? <==> Len(c.objects) < 0x80
    ensures b.Some? ==> |b.value| == 11 + 4 * Len(c.objects)
  {
    var count :- I8Count(c.objects);
    Some(count + Zeros(2) + E32(c.location.0) + E32(c.location.1) + ObjectsListBytes(c.objects))
  }

  function QueueBytes(c: QueueCommand): (b: Bytes)
    ensures |b| == 11
  {
    Zeros(3) + E32(c.buildingId) + E16(c.unitTypeId) + E16(c.amount)
  }

  /** A missing location is written as (0, 0). */
  function GatherLocationBytes(l: Option<Location2>): Bytes {
    match l
    case Some(p) => E32(p.0) + E32(p.1)
    case None => E32(0) + E32(0)
  }

  /** The gather-point writer as the source has it: the count as a u8,
      where the decoder reads an i8. */
  function SetGatherPointBytesAsWritten(c: SetGatherPointCommand): (b: Option<Bytes>)
    ensures b.Some? <==> Len(c.buildings) < 0x100
    ensures b.Some? ==> |b.value| == 19 + 4 * Len(c.buildings)
  {
    var count :- U8Count(c.buildings);
    Some(count + Zeros(2) + EOptU32(c.targetId) + EOptU16(c.targetTypeId) + Zeros(2)
         + GatherLocationBytes(c.location) + ObjectsListBytes(c.buildings))
  }

  /** The gather-point writer with the count in the i8 width its decoder reads. */
  function SetGatherPointBytes(c: SetGatherPointCommand): (b: Option<Bytes>)
    ensures b.Some? <==> Len(c.buildings) < 0x80
    ensures b.Some? ==> |b.value| == 19 + 4 * Len(c.buildings)
  {
    var count :- I8Count(c.buildings);
    Some(count + Zeros(2) + EOptU32(c.targetId) + EOptU16(c.targetTypeId) + Zeros(2)
         + GatherLocationBytes(c.location) + ObjectsListBytes(c.buildings))
  }

  function MarketBytes(c: MarketCommand): (b: Bytes)
    ensures |b| == 7
  {
    E8(c.playerId) + E8(c.resource) + EI8(c.amount) + E32(c.marketId)
  }
}
