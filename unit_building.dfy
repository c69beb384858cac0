/** The building block of a unit: construction state, the gather point, the
    annex links, the production queue and the gate and terrain state of later
    versions. */
module UnitBuilding {
  import opened Wire
  import opened Streams
  import opened UnitActions
  import opened UnitStatic
  import opened UnitBlocks

  datatype GatherPoint =
    | Location(x: F32, y: F32, z: F32)
    | Object(id: ObjectId, unitType: UnitTypeId)

  datatype ProductionQueueEntry = ProductionQueueEntry(unitTypeId: UnitTypeId, count: U16)

  datatype BuildingUnitAttributes = BuildingUnitAttributes(
    built: bool, buildPoints: F32, uniqueBuildId: Option<U32>, culture: Byte,
    burning: Byte, lastBurnTime: U32, lastGarrisonTime: U32, relicCount: U32,
    specificRelicCount: U32, gatherPoint: Option<GatherPoint>, desolidFlag: bool,
    pendingOrder: U32, linkedOwner: Option<ObjectId>, linkedChildren: seq<ObjectId>,
    capturedUnitCount: Byte, extraActions: seq<UnitAction>,
    researchActions: seq<UnitAction>, productionQueue: seq<ProductionQueueEntry>,
    productionQueueTotalUnits: U16, productionQueueEnabled: bool,
    productionQueueActions: seq<UnitAction>, endpoint: Position3, gateLocked: U32,
    firstUpdate: U32, closeTimer: U32, terrainType: Option<Byte>, semiAsleep: bool,
    snowFlag: bool)

  /** The number of annex slots `linked_children` reads. */
  const ChildSlots := 4

  // ---------------------------------------------------------------------------
  // The construction state

  /** Built flag, build points, build id, culture, burning, the burn and
      garrison times and the two relic counts: 27 bytes. */
  function BuildingHeadFrom(s: Bytes): (r: Result<(bool, F32, Option<U32>, Byte, Byte, U32, U32, U32, U32)>)
    ensures r.Ok? <==> |s| >= 27
    ensures r.Ok? ==> r.rest == s[27..] && r.value.0 == (s[0] != 0)
  {
    var built :- U8From(s);
    var points :- F32From(built.rest);
    var unique :- OptU32From(points.rest);
    var culture :- U8From(unique.rest);
    var burning :- U8From(culture.rest);
    var burnTime :- U32From(burning.rest);
    var garrisonTime :- U32From(burnTime.rest);
    var relics :- U32From(garrisonTime.rest);
    var specific :- U32From(relics.rest);
    Ok((built.v != 0, points.v, unique.v, culture.v, burning.v, burnTime.v, garrisonTime.v,
        relics.v, specific.v),
       specific.rest)
  }

  // ---------------------------------------------------------------------------
  // The gather point

  /** The gather-point words as read: the exists word, a location, an i32
      object id and an i16 unit type: 22 bytes, all read before any is looked at. */
  function GatherRawFrom(s: Bytes): (r: Result<(U32, Position3, I32, I16)>)
    ensures r.Ok? <==> |s| >= 22
    ensures r.Ok? ==> r.rest == s[22..]
  {
    var exists_ :- U32From(s);
    var location :- Position3From(exists_.rest);
    var id :- I32From(location.rest);
    var kind :- I16From(id.rest);
    Ok((exists_.v, location.v, id.v, kind.v), kind.rest)
  }

  /** The classification of the gather-point words. The outer None is the
      panic of a negative id or type converted to an object reference. */
  function GatherPointOf(exists_: U32, location: Position3, id: I32, unitType: I16)
    : (r: Option<Option<GatherPoint>>)
    ensures r == Some(None) <==> exists_ == 0
    ensures r == Some(Some(Location(location.0, location.1, location.2))) <==>
              exists_ != 0 && id == -1 && unitType == -1
    ensures (r.Some? && r.value.Some? && r.value.value.Object?) <==>
              exists_ != 0 && !(id == -1 && unitType == -1) && id >= 0 && unitType >= 0
    ensures r.Some? && r.value.Some? && r.value.value.Object? ==>
              r.value.value.id == id && r.value.value.unitType == unitType
    ensures r.None? <==>
              exists_ != 0 && !(id == -1 && unitType == -1) && (id < 0 || unitType < 0)
  {
    if exists_ == 0 then Some(None)
    else if id == -1 && unitType == -1 then
      Some(Some(Location(location.0, location.1, location.2)))
    else if id < 0 || unitType < 0 then None
    else Some(Some(Object(id, unitType)))
  }

  function GatherPointFrom(s: Bytes): (r: Result<Option<GatherPoint>>)
    ensures r.Ok? ==> |s| >= 22 && r.rest == s[22..]
  {
    var raw :- GatherRawFrom(s);
    var (exists_, location, id, kind) := raw.v;
    var point := GatherPointOf(exists_, location, id, kind);
    if point.None? then Fail(OutOfRange) else Ok(point.value, raw.rest)
  }

  /** The desolid flag, the pending order from 10.54 and the linked owner. */
  function BuildingLinkFrom(s: Bytes, version: Version): (r: Result<(bool, U32, Option<ObjectId>)>)
    ensures r.Ok? <==> |s| >= (if version >= 1054 then 9 else 5)
    ensures r.Ok? ==> r.rest == s[if version >= 1054 then 9 else 5..]
    ensures r.Ok? && version < 1054 ==> r.value.1 == 0
  {
    var desolid :- U8From(s);
    var pending :- if version >= 1054 then U32From(desolid.rest) else Ok(0, desolid.rest);
    var owner :- OptU32From(pending.rest);
    Ok((desolid.v != 0, pending.v, owner.v), owner.rest)
  }

  // ---------------------------------------------------------------------------
  // The linked children

  /** The loop over the annex slots, slot by slot: -1 is an empty slot, any
      other negative id a failed conversion, and a valid id is kept. */
  function ChildrenFrom(s: Bytes, k: nat): (r: Result<seq<ObjectId>>)
    decreases k
  {
    if k == 0 then Ok([], s)
    else
      var id :- I32From(s);
      if id.v == -1 then ChildrenFrom(id.rest, k - 1)
      else if id.v < 0 then Fail(OutOfRange)
      else
        var more :- ChildrenFrom(id.rest, k - 1);
        Ok([id.v] + more.v, more.rest)
  }

  /** Every slot holds an id or the empty marker. */
  predicate SlotsValid(ids: seq<I32>) {
    forall i :: 0 <= i < |ids| ==> ids[i] >= -1
  }

  lemma SlotsValidCons(x: I32, xs: seq<I32>)
    ensures SlotsValid([x] + xs) <==> x >= -1 && SlotsValid(xs)
  {
    var ys := [x] + xs;
    if x >= -1 && SlotsValid(xs) {
      forall i | 0 <= i < |ys|
        ensures ys[i] >= -1
      {
        if i > 0 {
          assert ys[i] == xs[i - 1];
        }
      }
    }
    if SlotsValid(ys) {
      assert ys[0] == x;
      forall i | 0 <= i < |xs|
        ensures xs[i] >= -1
      {
        assert xs[i] == ys[i + 1];
      }
    }
  }

  /** The ids of the occupied slots, in order. */
  function Kept(ids: seq<I32>): (r: seq<int>)
    ensures |r| <= |ids|
  {
    if |ids| == 0 then []
    else (if ids[0] == -1 then [] else [ids[0] as int]) + Kept(ids[1..])
  }

  /** The annex loop agrees with reading the slots as one block of k i32
      values and keeping those other than -1: it succeeds exactly when the
      block is there and holds no other negative value, and then it takes the
      same bytes. */
  lemma {:induction false} ChildrenAgree(s: Bytes, k: nat)
    ensures ChildrenFrom(s, k).Ok? <==>
              Many(s, k, I32From).Ok? && SlotsValid(Many(s, k, I32From).value)
    ensures ChildrenFrom(s, k).Ok? ==>
              && ChildrenFrom(s, k).value == Kept(Many(s, k, I32From).value)
              && ChildrenFrom(s, k).rest == Many(s, k, I32From).rest
    decreases k
  {
    if k > 0 && I32From(s).Ok? {
      var id := I32From(s);
      ChildrenAgree(id.rest, k - 1);
      var tail := Many(id.rest, k - 1, I32From);
      if tail.Ok? {
        var ids := [id.value] + tail.value;
        assert Many(s, k, I32From) == Ok(ids, tail.rest);
        assert ids[1..] == tail.value;
        SlotsValidCons(id.value, tail.value);
      }
    }
  }

  /** The annex list holds at most the four slots and takes 16 bytes. */
  lemma ChildrenBounded(s: Bytes)
    ensures ChildrenFrom(s, ChildSlots).Ok? ==>
              |ChildrenFrom(s, ChildSlots).value| <= ChildSlots
              && |s| >= 16 && ChildrenFrom(s, ChildSlots).rest == s[16..]
  {
    ChildrenAgree(s, ChildSlots);
    ManyConsumes(s, ChildSlots, I32From, 4);
  }

  // ---------------------------------------------------------------------------
  // The production queue

  function EntryFrom(s: Bytes): (r: Result<ProductionQueueEntry>)
    ensures r.Ok? <==> |s| >= 4
    ensures r.Ok? ==> r.rest == s[4..]
    ensures r.Ok? ==> r.value == ProductionQueueEntry(U16From(s).value, U16From(s[2..]).value)
  {
    var kind :- U16From(s);
    var count :- U16From(kind.rest);
    Ok(ProductionQueueEntry(kind.v, count.v), count.rest)
  }

  /** `capacity` entries and the ignored u16 after them. */
  function QueueBodyFrom(s: Bytes, capacity: U16): (r: Result<seq<ProductionQueueEntry>>)
    ensures r.Ok? ==> |r.value| == capacity
  {
    var entries :- Many(s, capacity, EntryFrom);
    var size :- U16From(entries.rest);
    Ok(entries.v, size.rest)
  }

  /** A u16 capacity, that many entries and an ignored u16. */
  function QueueFrom(s: Bytes): (r: Result<seq<ProductionQueueEntry>>)
    ensures r.Ok? ==> U16From(s).Ok? && |r.value| == U16From(s).value
  {
    var capacity :- U16From(s);
    QueueBodyFrom(capacity.rest, capacity.v)
  }

  lemma DropThrice(s: Bytes, a: nat, b: nat, c: nat)
    requires a + b + c <= |s|
    ensures s[a..][b..][c..] == s[a + b + c..]
  {}

  /** The queue takes its capacity word, four bytes an entry and the trailing
      size word. */
  lemma QueueConsumes(s: Bytes)
    ensures QueueFrom(s).Ok? ==>
              var n := U16From(s).value;
              2 + n * 4 + 2 <= |s| && QueueFrom(s).rest == s[2 + n * 4 + 2..]
  {
    if U16From(s).Ok? {
      var n := U16From(s).value;
      var t := s[2..];
      assert QueueFrom(s) == QueueBodyFrom(t, n);
      ManyConsumes(t, n, EntryFrom, 4);
      var m := Many(t, n, EntryFrom);
      if QueueBodyFrom(t, n).Ok? {
        assert QueueBodyFrom(t, n).rest == m.rest[2..];
        assert m.Ok? && |m.rest| >= 2;
        assert n * 4 <= |t| && m.rest == t[n * 4..];
        assert 0 <= n * 4;
        assert 2 + n * 4 + 2 <= |s|;
        DropThrice(s, 2, n * 4, 2);
      }
    }
  }

  // ---------------------------------------------------------------------------
  // The action lists and the gated tail

  /** The captured count and the extra and research action lists. */
  function BuildingActionsFrom(s: Bytes, version: Version): (r: Result<(Byte, seq<UnitAction>, seq<UnitAction>)>)
    ensures r.Ok? ==> |s| >= 1
  {
    var captured :- U8From(s);
    var extra :- ActionListFrom(captured.rest, version);
    var research :- ActionListFrom(extra.rest, version);
    Ok((captured.v, extra.v, research.v), research.rest)
  }

  /** The queue's unit total, its enabled flag and its action list. */
  function QueueStateFrom(s: Bytes, version: Version): (r: Result<(U16, bool, seq<UnitAction>)>)
    ensures r.Ok? ==> |s| >= 3 && r.value.1 == (s[2] != 0)
  {
    var total :- U16From(s);
    var enabled :- U8From(total.rest);
    var actions :- ActionListFrom(enabled.rest, version);
    Ok((total.v, enabled.v != 0, actions.v), actions.rest)
  }

  /** The bytes of the terrain byte from 10.67 and the two flags from 11.43
      and 11.54. */
  function BuildingFlagsSize(version: Version): nat {
    (if version >= 1067 then 1 else 0) + (if version >= 1143 then 1 else 0)
      + (if version >= 1154 then 1 else 0)
  }

  /** From 10.65: the endpoint, read twice into the same field, and the
      three gate words. */
  function EndpointFrom(s: Bytes, version: Version): (r: Result<(Position3, U32, U32, U32)>)
    ensures r.Ok? <==> |s| >= (if version >= 1065 then 36 else 0)
    ensures r.Ok? ==> r.rest == s[if version >= 1065 then 36 else 0..]
    ensures r.Ok? && version < 1065 ==> r.value == ((0, 0, 0), 0, 0, 0)
  {
    if version < 1065 then Ok(((0, 0, 0), 0, 0, 0), s)
    else
      var first :- Position3From(s);
      var second :- Position3From(first.rest);
      var locked :- U32From(second.rest);
      var update :- U32From(locked.rest);
      var close :- U32From(update.rest);
      Ok((second.v, locked.v, update.v, close.v), close.rest)
  }

  /** Of the two endpoint triples the second is the one kept. */
  lemma EndpointSecondWins(s: Bytes, version: Version)
    requires version >= 1065
    ensures EndpointFrom(s, version).Ok? ==>
              EndpointFrom(s, version).value.0 == Position3From(s[12..]).value
  {}

  /** The terrain from 10.67, the semi-asleep flag from 11.43 and the snow
      flag from 11.54. */
  function BuildingFlagsFrom(s: Bytes, version: Version): (r: Result<(Option<Byte>, bool, bool)>)
    ensures r.Ok? <==> |s| >= BuildingFlagsSize(version)
    ensures r.Ok? ==> r.rest == s[BuildingFlagsSize(version)..]
    ensures r.Ok? ==> (r.value.0.Some? <==> version >= 1067)
    ensures r.Ok? && version < 1143 ==> !r.value.1
    ensures r.Ok? && version < 1154 ==> !r.value.2
  {
    var terrain :- GatedU8From(s, version >= 1067);
    var semi :- GatedU8From(terrain.rest, version >= 1143);
    var snow :- GatedU8From(semi.rest, version >= 1154);
    Ok((if version >= 1067 then Some(terrain.v) else None, semi.v != 0, snow.v != 0),
       snow.rest)
  }

  /** `BuildingUnitAttributes::read_from`. */
  function BuildingFrom(s: Bytes, version: Version): (r: Result<BuildingUnitAttributes>)
    ensures r.Ok? ==> (r.value.terrainType.Some? <==> version >= 1067)
    ensures r.Ok? && version < 1054 ==> r.value.pendingOrder == 0
    ensures r.Ok? && version < 1065 ==>
              r.value.endpoint == (0, 0, 0) && r.value.gateLocked == 0
              && r.value.firstUpdate == 0 && r.value.closeTimer == 0
  {
    var head :- BuildingHeadFrom(s);
    var gather :- GatherPointFrom(head.rest);
    var link :- BuildingLinkFrom(gather.rest, version);
    var children :- ChildrenFrom(link.rest, ChildSlots);
    var actions :- BuildingActionsFrom(children.rest, version);
    var queue :- QueueFrom(actions.rest);
    var state :- QueueStateFrom(queue.rest, version);
    var endpointBlock :- EndpointFrom(state.rest, version);
    var flags :- BuildingFlagsFrom(endpointBlock.rest, version);
    var (built, points, unique, culture, burning, burnTime, garrisonTime, relics, specific) := head.v;
    var (desolid, pending, owner) := link.v;
    var (captured, extra, research) := actions.v;
    var (total, enabled, queueActions) := state.v;
    var (point, locked, update, close) := endpointBlock.v;
    var (terrain, semi, snow) := flags.v;
    Ok(BuildingUnitAttributes(
         built, points, unique, culture, burning, burnTime, garrisonTime, relics, specific,
         gather.v, desolid, pending, owner, children.v, captured, extra, research,
         queue.v, total, enabled, queueActions, point, locked, update, close,
         terrain, semi, snow),
       flags.rest)
  }

  // ---------------------------------------------------------------------------
  // The readers on a cursor

  /** The gather-point block: every word is read, then classified. */
  method ReadGatherPoint(c: Cursor) returns (r: Result<Option<GatherPoint>>)
    modifies c
    ensures r == GatherPointFrom(old(c.rest))
    ensures r.Ok? ==> c.rest == r.rest
  {
    var exists_ :- c.ReadU32();
    var location :- c.ReadRecord(Position3From);
    var id :- c.ReadI32();
    var kind :- c.ReadI16();
    if exists_.v == 0 {
      return Ok(None, c.rest);
    }
    if id.v == -1 && kind.v == -1 {
      var (x, y, z) := location.v;
      return Ok(Some(Location(x, y, z)), c.rest);
    }
    if id.v < 0 || kind.v < 0 {
      return Fail(OutOfRange);
    }
    r := Ok(Some(Object(id.v, kind.v)), c.rest);
  }

  method ReadBuildingLink(c: Cursor, version: Version) returns (r: Result<(bool, U32, Option<ObjectId>)>)
    modifies c
    ensures r == BuildingLinkFrom(old(c.rest), version)
    ensures r.Ok? ==> c.rest == r.rest
  {
    var desolid :- c.ReadU8();
    var pending: U32 := 0;
    if version >= 1054 {
      var p :- c.ReadU32();
      pending := p.v;
    }
    var owner :- c.ReadOptU32();
    r := Ok((desolid.v != 0, pending, owner.v), c.rest);
  }

  method ReadBuildingActions(c: Cursor, version: Version)
    returns (r: Result<(Byte, seq<UnitAction>, seq<UnitAction>)>)
    modifies c
    ensures r == BuildingActionsFrom(old(c.rest), version)
    ensures r.Ok? ==> c.rest == r.rest
  {
    var captured :- c.ReadU8();
    var extra :- ReadActionList(c, version);
    var research :- ReadActionList(c, version);
    r := Ok((captured.v, extra.v, research.v), c.rest);
  }

  method ReadQueueState(c: Cursor, version: Version) returns (r: Result<(U16, bool, seq<UnitAction>)>)
    modifies c
    ensures r == QueueStateFrom(old(c.rest), version)
    ensures r.Ok? ==> c.rest == r.rest
  {
    var total :- c.ReadU16();
    var enabled :- c.ReadU8();
    var actions :- ReadActionList(c, version);
    r := Ok((total.v, enabled.v != 0, actions.v), c.rest);
  }

  /** `for _ in 0..4`: an i32 per slot, pushing every id other than -1. */
  method ReadLinkedChildren(c: Cursor) returns (r: Result<seq<ObjectId>>)
    modifies c
    ensures r == ChildrenFrom(old(c.rest), ChildSlots)
    ensures r.Ok? ==> c.rest == r.rest
  {
    ghost var s0 := c.rest;
    var children: seq<ObjectId> := [];
    PrefixedNone(ChildrenFrom(s0, ChildSlots));
    for i := 0 to ChildSlots
      invariant ChildrenFrom(s0, ChildSlots) == Prefixed(children, ChildrenFrom(c.rest, ChildSlots - i))
    {
      var id := c.ReadI32();
      if id.Fail? {
        return Fail(id.error);
      }
      if id.value != -1 {
        if id.value < 0 {
          return Fail(OutOfRange);
        }
        PrefixedTwice(children, [id.value], ChildrenFrom(c.rest, ChildSlots - i - 1));
        children := children + [id.value];
      }
    }
    assert children + [] == children;
    r := Ok(children, c.rest);
  }

  /** The production queue: a buffer of `capacity` entries filled in place,
      then the ignored size word. */
  method ReadQueue(c: Cursor) returns (r: Result<seq<ProductionQueueEntry>>)
    modifies c
    ensures r == QueueFrom(old(c.rest))
    ensures r.Ok? ==> c.rest == r.rest
  {
    var capacity :- c.ReadU16();
    ghost var entries := c.rest;
    var queue := new ProductionQueueEntry[capacity.v](_ => ProductionQueueEntry(0, 0));
    var filled := ReadInto(c, queue, EntryFrom);
    if filled.Fail? {
      return Fail(filled.error);
    }
    var size :- c.ReadU16();
    r := Ok(queue[..], c.rest);
  }

  /** The `if version >= 10.65` block: the endpoint is assigned twice and the
      second triple stays. */
  method ReadEndpoint(c: Cursor, version: Version) returns (r: Result<(Position3, U32, U32, U32)>)
    modifies c
    ensures r == EndpointFrom(old(c.rest), version)
    ensures r.Ok? ==> c.rest == r.rest
  {
    var endpoint: Position3 := (0, 0, 0);
    var locked: U32, update: U32, close: U32 := 0, 0, 0;
    if version >= 1065 {
      var first :- c.ReadRecord(Position3From);
      endpoint := first.v;
      var second :- c.ReadRecord(Position3From);
      endpoint := second.v;
      var l :- c.ReadU32();
      var u :- c.ReadU32();
      var x :- c.ReadU32();
      locked, update, close := l.v, u.v, x.v;
    }
    r := Ok((endpoint, locked, update, close), c.rest);
  }

  method ReadBuildingFlags(c: Cursor, version: Version) returns (r: Result<(Option<Byte>, bool, bool)>)
    modifies c
    ensures r == BuildingFlagsFrom(old(c.rest), version)
    ensures r.Ok? ==> c.rest == r.rest
  {
    var terrain: Option<Byte> := None;
    if version >= 1067 {
      var t :- c.ReadU8();
      terrain := Some(t.v);
    }
    var semi := false;
    if version >= 1143 {
      var b :- c.ReadU8();
      semi := b.v != 0;
    }
    var snow := false;
    if version >= 1154 {
      var b :- c.ReadU8();
      snow := b.v != 0;
    }
    r := Ok((terrain, semi, snow), c.rest);
  }

  /** `BuildingUnitAttributes::read_from`. */
  method ReadBuilding(c: Cursor, version: Version) returns (r: Result<BuildingUnitAttributes>)
    modifies c
    ensures r == BuildingFrom(old(c.rest), version)
    ensures r.Ok? ==> c.rest == r.rest
  {
    var head :- c.ReadRecord(BuildingHeadFrom);
    var gather :- ReadGatherPoint(c);
    var link :- ReadBuildingLink(c, version);
    var children :- ReadLinkedChildren(c);
    var actions :- ReadBuildingActions(c, version);
    var queue :- ReadQueue(c);
    var state :- ReadQueueState(c, version);
    var endpointBlock :- ReadEndpoint(c, version);
    var flags :- ReadBuildingFlags(c, version);
    var (point, locked, update, close) := endpointBlock.v;
    var (terrain, semi, snow) := flags.v;
    var (built, points, unique, culture, burning, burnTime, garrisonTime, relics, specific) := head.v;
    var (desolid, pending, owner) := link.v;
    var (captured, extra, research) := actions.v;
    var (total, enabled, queueActions) := state.v;
    r := Ok(BuildingUnitAttributes(
              built, points, unique, culture, burning, burnTime, garrisonTime, relics, specific,
              gather.v, desolid, pending, owner, children.v, captured, extra, research,
              queue.v, total, enabled, queueActions, point, locked, update, close,
              terrain, semi, snow),
            c.rest);
  }
}
