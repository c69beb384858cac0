/** The AI state a combat unit carries: its orders, notifications, retargeting
    bookkeeping and order history. */
module UnitAIs {
  import opened Wire
  import opened Streams
  import opened UnitActions
  import opened UnitStatic

  datatype UnitAIOrder = UnitAIOrder(
    issuer: U32, orderType: U32, priority: U32, targetId: ObjectId,
    targetPlayer: PlayerId, targetLocation: Position3, range: F32)

  datatype UnitAINotification = UnitAINotification(
    caller: U32, recipient: U32, notificationType: U32, params: (U32, U32, U32))

  datatype UnitAIOrderHistory = UnitAIOrderHistory(
    order: U32, action: U32, time: U32, position: Position3, targetId: ObjectId,
    targetAttackCategory: Option<U32>, targetPosition: Position3)

  datatype UnitAIRetargetEntry = UnitAIRetargetEntry(targetId: ObjectId, retargetTimeout: U32)

  datatype Waypoint = Waypoint(location: Position3, facetToNextWaypoint: Byte)

  /** A patrol path has no fields; its reader is not written yet. */
  datatype PatrolPath = PatrolPath

  datatype UnitAI = UnitAI(
    mood: Option<U32>, currentOrder: Option<U32>, currentOrderPriority: Option<U32>,
    currentAction: Option<U32>, currentTarget: Option<U32>,
    currentTargetType: Option<U32>, currentTargetLocation: Position3,
    desiredTargetDistance: F32,
    lastAction: Option<U32>, lastOrder: Option<U32>, lastTarget: Option<U32>,
    lastTargetType: Option<U32>, lastUpdateType: Option<U32>,
    idleTimer: U32, idleTimeout: U32, adjustedIdleTimeout: U32,
    secondaryTimer: U32, lookaroundTimer: U32, lookaroundTimeout: U32,
    defendTarget: Option<ObjectId>, defenseBuffer: F32,
    lastWorldPosition: Waypoint,
    orders: seq<UnitAIOrder>, notifications: seq<UnitAINotification>,
    attackingUnits: seq<ObjectId>,
    stopAfterTargetKilled: bool, state: Byte, statePosition: (F32, F32),
    timeSinceEnemySighting: U32, alertMode: Byte, alertModeObjectId: Option<ObjectId>,
    patrolPath: Option<PatrolPath>, patrolCurrentWaypoint: U32,
    orderHistory: seq<UnitAIOrderHistory>, lastRetargetTime: U32,
    randomizedRetargetTimer: U32, retargetEntries: seq<UnitAIRetargetEntry>,
    bestUnitToAttack: Option<U32>, formationType: Byte)

  // ---------------------------------------------------------------------------
  // The fixed-size records

  /** The issuer, order type, priority and target id of an order. */
  function OrderHeadFrom(s: Bytes): (r: Result<(U32, U32, U32, ObjectId)>)
    ensures r.Ok? <==> |s| >= 16
    ensures r.Ok? ==> r.rest == s[16..]
    ensures r.Ok? ==> r.value == (U32From(s).value, U32From(s[4..]).value,
                                  U32From(s[8..]).value, U32From(s[12..]).value)
  {
    var issuer :- U32From(s);
    var kind :- U32From(issuer.rest);
    var priority :- U32From(kind.rest);
    var target :- U32From(priority.rest);
    Ok((issuer.v, kind.v, priority.v, target.v), target.rest)
  }

  /** The target location and range of an order. */
  function OrderTailFrom(s: Bytes): (r: Result<(Position3, F32)>)
    ensures r.Ok? <==> |s| >= 16
    ensures r.Ok? ==> r.rest == s[16..]
  {
    var location :- Position3From(s);
    var range :- F32From(location.rest);
    Ok((location.v, range.v), range.rest)
  }

  /** `UnitAIOrder::read_from`: 36 bytes, failing when the target-player word
      does not fit a player id. */
  function OrderFrom(s: Bytes): (r: Result<UnitAIOrder>)
    ensures r.Ok? <==> |s| >= 36 && U32From(s[16..]).value < 0x100
    ensures r.Ok? ==> r.rest == s[36..] && r.value.targetPlayer == U32From(s[16..]).value
  {
    var head :- OrderHeadFrom(s);
    var word :- U32From(head.rest);
    var player :- NarrowPlayer(Parsed(word.v, word.rest));
    var tail :- OrderTailFrom(player.rest);
    var (issuer, kind, priority, target) := head.v;
    var (location, range) := tail.v;
    Ok(UnitAIOrder(issuer, kind, priority, target, player.v, location, range), tail.rest)
  }

  /** `UnitAINotification::read_from`: six u32 words. */
  function NotificationFrom(s: Bytes): (r: Result<UnitAINotification>)
    ensures r.Ok? <==> |s| >= 24
    ensures r.Ok? ==> r.rest == s[24..]
    ensures r.Ok? ==> r.value == UnitAINotification(
      U32From(s).value, U32From(s[4..]).value, U32From(s[8..]).value,
      (U32From(s[12..]).value, U32From(s[16..]).value, U32From(s[20..]).value))
  {
    var caller :- U32From(s);
    var recipient :- U32From(caller.rest);
    var kind :- U32From(recipient.rest);
    var p0 :- U32From(kind.rest);
    var p1 :- U32From(p0.rest);
    var p2 :- U32From(p1.rest);
    Ok(UnitAINotification(caller.v, recipient.v, kind.v, (p0.v, p1.v, p2.v)), p2.rest)
  }

  /** The bytes of one order-history entry: the attack category only from 10.50. */
  function HistorySize(version: Version): nat {
    if version >= 1050 then 44 else 40
  }

  /** `UnitAIOrderHistory::read_from`. */
  function OrderHistoryFrom(s: Bytes, version: Version): (r: Result<UnitAIOrderHistory>)
    ensures r.Ok? <==> |s| >= HistorySize(version)
    ensures r.Ok? ==> r.rest == s[HistorySize(version)..]
    ensures r.Ok? && version < 1050 ==> r.value.targetAttackCategory.None?
  {
    var order :- U32From(s);
    var action :- U32From(order.rest);
    var time :- U32From(action.rest);
    var position :- Position3From(time.rest);
    var target :- U32From(position.rest);
    var category :- if version >= 1050 then OptU32From(target.rest) else Ok(None, target.rest);
    var targetPosition :- Position3From(category.rest);
    Ok(UnitAIOrderHistory(order.v, action.v, time.v, position.v, target.v, category.v,
                          targetPosition.v),
       targetPosition.rest)
  }

  /** The history reader of one version, as a decoder of the counted list. */
  function OrderHistoryOf(version: Version): Bytes -> Result<UnitAIOrderHistory> {
    t => OrderHistoryFrom(t, version)
  }

  /** `UnitAIRetargetEntry::read_from`: the target id and the timeout, two u32 words. */
  function RetargetEntryFrom(s: Bytes): (r: Result<UnitAIRetargetEntry>)
    ensures r.Ok? <==> |s| >= 8
    ensures r.Ok? ==> r.rest == s[8..]
    ensures r.Ok? ==> r.value == UnitAIRetargetEntry(U32From(s).value, U32From(s[4..]).value)
  {
    var target :- U32From(s);
    var timeout :- U32From(target.rest);
    Ok(UnitAIRetargetEntry(target.v, timeout.v), timeout.rest)
  }

  /** `Waypoint::read_from`: a location, the facet byte and three padding bytes. */
  function WaypointFrom(s: Bytes): (r: Result<Waypoint>)
    ensures r.Ok? <==> |s| >= 16
    ensures r.Ok? ==> r.rest == s[16..] && r.value.facetToNextWaypoint == s[12]
  {
    var location :- Position3From(s);
    var facet :- U8From(location.rest);
    var padding :- SkipFrom(facet.rest, 3);
    Ok(Waypoint(location.v, facet.v), padding.rest)
  }

  // ---------------------------------------------------------------------------
  // The chunks of `UnitAI::read_from`

  /** The current-order words, the target type (0xFFFF is none), two skipped
      bytes, the target location and the desired distance: 40 bytes. */
  function AICurrentFrom(s: Bytes): (r: Result<((Option<U32>, Option<U32>, Option<U32>, Option<U32>, Option<U32>),
                                                 Option<U32>, Position3, F32)>)
    ensures r.Ok? <==> |s| >= 40
    ensures r.Ok? ==> r.rest == s[40..]
    ensures r.Ok? ==> (r.value.1.None? <==> U16From(s[20..]).value == 0xFFFF)
    ensures r.Ok? && r.value.1.Some? ==> r.value.1.value < 0xFFFF
  {
    var mood :- OptU32From(s);
    var order :- OptU32From(mood.rest);
    var priority :- OptU32From(order.rest);
    var action :- OptU32From(priority.rest);
    var target :- OptU32From(action.rest);
    var kind :- U16From(target.rest);
    var skipped :- SkipFrom(kind.rest, 2);
    var location :- Position3From(skipped.rest);
    var distance :- F32From(location.rest);
    Ok(((mood.v, order.v, priority.v, action.v, target.v),
        if kind.v == 0xFFFF then None else Some(kind.v), location.v, distance.v),
       distance.rest)
  }

  /** The five `last_*` words: 20 bytes. */
  function AILastFrom(s: Bytes): (r: Result<(Option<U32>, Option<U32>, Option<U32>, Option<U32>, Option<U32>)>)
    ensures r.Ok? <==> |s| >= 20
    ensures r.Ok? ==> r.rest == s[20..]
    ensures r.Ok? ==> r.value == (OptU32From(s).value, OptU32From(s[4..]).value,
                                  OptU32From(s[8..]).value, OptU32From(s[12..]).value,
                                  OptU32From(s[16..]).value)
  {
    var action :- OptU32From(s);
    var order :- OptU32From(action.rest);
    var target :- OptU32From(order.rest);
    var kind :- OptU32From(target.rest);
    var update :- OptU32From(kind.rest);
    Ok((action.v, order.v, target.v, kind.v, update.v), update.rest)
  }

  /** The six timers, the defend target and the defense buffer: 32 bytes. */
  function AITimersFrom(s: Bytes): (r: Result<((U32, U32, U32, U32, U32, U32), Option<ObjectId>, F32)>)
    ensures r.Ok? <==> |s| >= 32
    ensures r.Ok? ==> r.rest == s[32..]
  {
    var idle :- U32From(s);
    var timeout :- U32From(idle.rest);
    var adjusted :- U32From(timeout.rest);
    var secondary :- U32From(adjusted.rest);
    var lookaround :- U32From(secondary.rest);
    var lookaroundTimeout :- U32From(lookaround.rest);
    var defend :- OptU32From(lookaroundTimeout.rest);
    var buffer :- F32From(defend.rest);
    Ok(((idle.v, timeout.v, adjusted.v, secondary.v, lookaround.v, lookaroundTimeout.v),
        defend.v, buffer.v),
       buffer.rest)
  }

  /** The stop flag, the state and its position, the sighting time and the
      alert mode with its object: 19 bytes. */
  function AIStateFrom(s: Bytes): (r: Result<(bool, Byte, (F32, F32), U32, Byte, Option<ObjectId>)>)
    ensures r.Ok? <==> |s| >= 19
    ensures r.Ok? ==> r.rest == s[19..] && r.value.0 == (s[0] != 0)
  {
    var stop :- U8From(s);
    var state :- U8From(stop.rest);
    var x :- F32From(state.rest);
    var y :- F32From(x.rest);
    var time :- U32From(y.rest);
    var alert :- U8From(time.rest);
    var alertObject :- OptU32From(alert.rest);
    Ok((stop.v != 0, state.v, (x.v, y.v), time.v, alert.v, alertObject.v), alertObject.rest)
  }

  /** The patrol path: a u32 presence word. A present path reaches the
      unwritten patrol-path reader, so only an absent one decodes. */
  function PatrolFrom(s: Bytes): (r: Result<Option<PatrolPath>>)
    ensures r.Ok? <==> |s| >= 4 && U32From(s).value == 0
    ensures |s| >= 4 && U32From(s).value != 0 ==> r == Fail(Unimplemented)
    ensures r.Ok? ==> r.value.None? && r.rest == s[4..]
  {
    var present :- U32From(s);
    if present.v != 0 then Fail(Unimplemented) else Ok(None, present.rest)
  }

  /** The version-gated tail of `UnitAI::read_from`. */
  function AIGatedFrom(s: Bytes, version: Version)
    : (r: Result<(seq<UnitAIOrderHistory>, U32, U32, seq<UnitAIRetargetEntry>, Option<U32>, Byte)>)
    ensures r.Ok? && version < 1048 ==> r.value.0 == []
    ensures r.Ok? ==> forall h :: h in r.value.0 && version < 1050 ==> h.targetAttackCategory.None?
    ensures r.Ok? && version < 1050 ==> r.value.1 == 0
    ensures r.Ok? && version < 1104 ==> r.value.2 == 0
    ensures r.Ok? && version < 1105 ==> r.value.3 == []
    ensures r.Ok? && version < 1114 ==> r.value.4.None?
    ensures r.Ok? && version < 1144 ==> r.value.5 == 0
  {
    var history :- if version >= 1048 then HistoryListFrom(s, version) else Ok([], s);
    var last :- if version >= 1050 then U32From(history.rest) else Ok(0, history.rest);
    var randomized :- if version >= 1104 then U32From(last.rest) else Ok(0, last.rest);
    var entries :- if version >= 1105 then Counted(randomized.rest, RetargetEntryFrom)
                   else Ok([], randomized.rest);
    var best :- if version >= 1114 then OptU32From(entries.rest) else Ok(None, entries.rest);
    var formation :- if version >= 1144 then U8From(best.rest) else Ok(0, best.rest);
    Ok((history.v, last.v, randomized.v, entries.v, best.v, formation.v), formation.rest)
  }

  /** The counted order history; below 10.50 no entry has an attack category. */
  function HistoryListFrom(s: Bytes, version: Version): (r: Result<seq<UnitAIOrderHistory>>)
    ensures r.Ok? ==> U32From(s).Ok? && |r.value| == U32From(s).value
    ensures r.Ok? ==> forall h :: h in r.value && version < 1050 ==> h.targetAttackCategory.None?
  {
    var n :- U32From(s);
    ManyEach(n.rest, n.v, OrderHistoryOf(version),
             (h: UnitAIOrderHistory) => version < 1050 ==> h.targetAttackCategory.None?);
    Many(n.rest, n.v, OrderHistoryOf(version))
  }

  /** `UnitAI::read_from`. A decoded AI never has a patrol path, since a
      present one reaches the unwritten reader. */
  function UnitAIFrom(s: Bytes, version: Version): (r: Result<UnitAI>)
    ensures r.Ok? ==> r.value.patrolPath.None?
    ensures r.Ok? && r.value.currentTargetType.Some? ==> r.value.currentTargetType.value < 0xFFFF
    ensures r.Ok? && version < 1048 ==> r.value.orderHistory == []
    ensures r.Ok? && version < 1105 ==> r.value.retargetEntries == []
    ensures r.Ok? && version < 1114 ==> r.value.bestUnitToAttack.None?
  {
    var current :- AICurrentFrom(s);
    var last :- AILastFrom(current.rest);
    var timers :- AITimersFrom(last.rest);
    var world :- WaypointFrom(timers.rest);
    var orders :- Counted(world.rest, OrderFrom);
    var notifications :- Counted(orders.rest, NotificationFrom);
    var attacking :- Counted(notifications.rest, U32From);
    var state :- AIStateFrom(attacking.rest);
    var patrol :- PatrolFrom(state.rest);
    var waypoint :- U32From(patrol.rest);
    var gated :- AIGatedFrom(waypoint.rest, version);
    var (now, targetType, location, distance) := current.v;
    var (mood, order, priority, action, target) := now;
    var (lastAction, lastOrder, lastTarget, lastTargetType, lastUpdate) := last.v;
    var (clocks, defend, buffer) := timers.v;
    var (idle, timeout, adjusted, secondary, lookaround, lookaroundTimeout) := clocks;
    var (stop, st, statePosition, sighting, alert, alertObject) := state.v;
    var (history, lastRetarget, randomized, entries, best, formation) := gated.v;
    Ok(UnitAI(mood, order, priority, action, target, targetType, location, distance,
              lastAction, lastOrder, lastTarget, lastTargetType, lastUpdate,
              idle, timeout, adjusted, secondary, lookaround, lookaroundTimeout,
              defend, buffer, world.v, orders.v, notifications.v, attacking.v,
              stop, st, statePosition, sighting, alert, alertObject,
              patrol.v, waypoint.v, history, lastRetarget, randomized, entries,
              best, formation),
       gated.rest)
  }

  /** The order list takes its count word and 36 bytes an order. */
  lemma OrdersConsume(s: Bytes)
    ensures Counted(s, OrderFrom).Ok? ==>
              var n := U32From(s).value;
              4 + n * 36 <= |s| && Counted(s, OrderFrom).rest == s[4 + n * 36..]
  {
    CountedConsumes(s, OrderFrom, 36);
  }

  /** The notification list takes its count word and 24 bytes a notification. */
  lemma NotificationsConsume(s: Bytes)
    ensures Counted(s, NotificationFrom).Ok? ==>
              var n := U32From(s).value;
              4 + n * 24 <= |s| && Counted(s, NotificationFrom).rest == s[4 + n * 24..]
  {
    CountedConsumes(s, NotificationFrom, 24);
  }

  /** The order history takes its count word and 40 bytes an entry, 44 from
      10.50 on. */
  lemma HistoryConsumes(s: Bytes, version: Version)
    ensures HistoryListFrom(s, version).Ok? ==>
              var n := U32From(s).value;
              var k := HistorySize(version);
              4 + n * k <= |s| && HistoryListFrom(s, version).rest == s[4 + n * k..]
  {
    CountedConsumes(s, OrderHistoryOf(version), HistorySize(version));
  }

  // ---------------------------------------------------------------------------
  // The readers on a cursor

  /** `UnitAIOrder::read_from`. */
  method ReadOrder(c: Cursor) returns (r: Result<UnitAIOrder>)
    modifies c
    ensures r == OrderFrom(old(c.rest))
    ensures r.Ok? ==> c.rest == r.rest
  {
    var head :- c.ReadRecord(OrderHeadFrom);
    var word :- c.ReadU32();
    if word.v >= 0x100 {
      return Fail(OutOfRange);
    }
    var tail :- c.ReadRecord(OrderTailFrom);
    var (issuer, kind, priority, target) := head.v;
    var (location, range) := tail.v;
    r := Ok(UnitAIOrder(issuer, kind, priority, target, word.v, location, range), c.rest);
  }

  /** `UnitAIOrderHistory::read_from`. */
  method ReadOrderHistory(c: Cursor, version: Version) returns (r: Result<UnitAIOrderHistory>)
    modifies c
    ensures r == OrderHistoryFrom(old(c.rest), version)
    ensures r.Ok? ==> c.rest == r.rest
  {
    var order :- c.ReadU32();
    var action :- c.ReadU32();
    var time :- c.ReadU32();
    var position :- c.ReadRecord(Position3From);
    var target :- c.ReadU32();
    var entry := UnitAIOrderHistory(order.v, action.v, time.v, position.v, target.v,
                                    None, (0, 0, 0));
    if version >= 1050 {
      var category :- c.ReadOptU32();
      entry := entry.(targetAttackCategory := category.v);
    }
    var targetPosition :- c.ReadRecord(Position3From);
    entry := entry.(targetPosition := targetPosition.v);
    r := Ok(entry, c.rest);
  }

  /** `Waypoint::read_from`. */
  method ReadWaypoint(c: Cursor) returns (r: Result<Waypoint>)
    modifies c
    ensures r == WaypointFrom(old(c.rest))
    ensures r.Ok? ==> c.rest == r.rest
  {
    var location :- c.ReadRecord(Position3From);
    var facet :- c.ReadU8();
    var padding :- c.Skip(3);
    r := Ok(Waypoint(location.v, facet.v), c.rest);
  }

  /** The `has_path` step. */
  method ReadPatrol(c: Cursor) returns (r: Result<Option<PatrolPath>>)
    modifies c
    ensures r == PatrolFrom(old(c.rest))
    ensures r.Ok? ==> c.rest == r.rest
  {
    var present :- c.ReadU32();
    if present.v != 0 {
      return Fail(Unimplemented);
    }
    r := Ok(None, c.rest);
  }

  /** The gated tail: each `if version >= …` block of the reader in turn. */
  method ReadAIGated(c: Cursor, version: Version)
    returns (r: Result<(seq<UnitAIOrderHistory>, U32, U32, seq<UnitAIRetargetEntry>, Option<U32>, Byte)>)
    modifies c
    ensures r == AIGatedFrom(old(c.rest), version)
    ensures r.Ok? ==> c.rest == r.rest
  {
    var history: seq<UnitAIOrderHistory> := [];
    if version >= 1048 {
      var n :- c.ReadU32();
      var h :- ReadMany(c, n.v, OrderHistoryOf(version));
      history := h.v;
    }
    var last: U32 := 0;
    if version >= 1050 {
      var x :- c.ReadU32();
      last := x.v;
    }
    var randomized: U32 := 0;
    if version >= 1104 {
      var x :- c.ReadU32();
      randomized := x.v;
    }
    var entries: seq<UnitAIRetargetEntry> := [];
    if version >= 1105 {
      var e :- ReadCounted(c, RetargetEntryFrom);
      entries := e.v;
    }
    var best: Option<U32> := None;
    if version >= 1114 {
      var b :- c.ReadOptU32();
      best := b.v;
    }
    var formation: Byte := 0;
    if version >= 1144 {
      var f :- c.ReadU8();
      formation := f.v;
    }
    r := Ok((history, last, randomized, entries, best, formation), c.rest);
  }

  /** `UnitAI::read_from`. */
  method ReadUnitAI(c: Cursor, version: Version) returns (r: Result<UnitAI>)
    modifies c
    ensures r == UnitAIFrom(old(c.rest), version)
    ensures r.Ok? ==> c.rest == r.rest
  {
    var current :- c.ReadRecord(AICurrentFrom);
    var last :- c.ReadRecord(AILastFrom);
    var timers :- c.ReadRecord(AITimersFrom);
    var world :- ReadWaypoint(c);
    var orders :- ReadCounted(c, OrderFrom);
    var notifications :- ReadCounted(c, NotificationFrom);
    var attacking :- ReadCounted(c, U32From);
    var state :- c.ReadRecord(AIStateFrom);
    var patrol :- ReadPatrol(c);
    var waypoint :- c.ReadU32();
    var gated :- ReadAIGated(c, version);
    var (now, targetType, location, distance) := current.v;
    var (mood, order, priority, action, target) := now;
    var (lastAction, lastOrder, lastTarget, lastTargetType, lastUpdate) := last.v;
    var (clocks, defend, buffer) := timers.v;
    var (idle, timeout, adjusted, secondary, lookaround, lookaroundTimeout) := clocks;
    var (stop, st, statePosition, sighting, alert, alertObject) := state.v;
    var (history, lastRetarget, randomized, entries, best, formation) := gated.v;
    r := Ok(UnitAI(mood, order, priority, action, target, targetType, location, distance,
                   lastAction, lastOrder, lastTarget, lastTargetType, lastUpdate,
                   idle, timeout, adjusted, secondary, lookaround, lookaroundTimeout,
                   defend, buffer, world.v, orders.v, notifications.v, attacking.v,
                   stop, st, statePosition, sighting, alert, alertObject,
                   patrol.v, waypoint.v, history, lastRetarget, randomized, entries,
                   best, formation),
            c.rest);
  }
}
