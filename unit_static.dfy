/** The attributes every unit object carries (the static block) and the
    animated block, which is a single speed. */
module UnitStatic {
  import opened Wire
  import opened Streams
  import opened UnitActions
  import opened Sprites

  datatype StaticUnitAttributes = StaticUnitAttributes(
    ownerId: PlayerId, unitTypeId: UnitTypeId, spriteId: SpriteId,
    garrisonedInId: Option<ObjectId>, hitPoints: F32, objectState: Byte,
    sleepFlag: bool, doppleFlag: bool, goToSleepFlag: bool,
    id: ObjectId, facet: Byte, position: Position3,
    screenOffset: (U16, U16), shadowOffset: (U16, U16),
    selectedGroup: Option<Byte>,
    attributeTypeHeld: U16, attributeAmountHeld: F32, workerCount: Byte,
    currentDamage: Byte, damagedLatelyTimer: Byte, underAttack: bool,
    pathingGroupMembers: seq<ObjectId>, groupId: Option<U32>,
    rooAlreadyCalled: Byte, spriteList: Option<seq<SpriteNode>>)

  /** `StaticUnitAttributes::default()`: the value of every field the reader
      does not assign. */
  const DefaultStatic := StaticUnitAttributes(
    0, 0, 0, None, 0, 0, false, false, false, 0, 0, (0, 0, 0), (0, 0), (0, 0),
    None, 0, 0, 0, 0, 0, false, [], None, 0, None)

  datatype AnimatedUnitAttributes = AnimatedUnitAttributes(speed: F32)

  // ---------------------------------------------------------------------------
  // Three floats

  function Position3From(s: Bytes): (r: Result<Position3>)
    ensures r.Ok? <==> |s| >= 12
    ensures r.Ok? ==> r.rest == s[12..]
  {
    var x :- F32From(s);
    var y :- F32From(x.rest);
    var z :- F32From(y.rest);
    Ok((x.v, y.v, z.v), z.rest)
  }

  function Position3Bytes(p: Position3): (b: Bytes)
    ensures |b| == 12
  {
    E32(p.0) + E32(p.1) + E32(p.2)
  }

  lemma Position3RoundTrip(p: Position3, t: Bytes)
    ensures Position3From(Position3Bytes(p) + t) == Ok(p, t)
  {
    Associate(E32(p.0) + E32(p.1), E32(p.2), t);
    Associate(E32(p.0), E32(p.1), E32(p.2) + t);
    F32Write(p.0, E32(p.1) + E32(p.2) + t);
    F32Write(p.1, E32(p.2) + t);
    F32Write(p.2, t);
  }

  // ---------------------------------------------------------------------------
  // The static block

  /** The owner, type, sprite, garrison, hit points, state and sleep flags. */
  function StaticHeadFrom(s: Bytes)
    : (r: Result<(PlayerId, UnitTypeId, SpriteId, Option<ObjectId>, F32, Byte, bool, bool, bool)>)
    ensures r.Ok? <==> |s| >= 17
    ensures r.Ok? ==> r.rest == s[17..]
  {
    var owner :- U8From(s);
    var unitType :- U16From(owner.rest);
    var sprite :- U16From(unitType.rest);
    var garrison :- OptU32From(sprite.rest);
    var hitPoints :- F32From(garrison.rest);
    var state :- U8From(hitPoints.rest);
    var sleep :- BoolFrom(state.rest);
    var dopple :- BoolFrom(sleep.rest);
    var goToSleep :- BoolFrom(dopple.rest);
    Ok((owner.v, unitType.v, sprite.v, garrison.v, hitPoints.v, state.v, sleep.v, dopple.v,
        goToSleep.v),
       goToSleep.rest)
  }

  /** The id, facet, position and the screen and shadow offsets. */
  function StaticPlaceFrom(s: Bytes)
    : (r: Result<(ObjectId, Byte, Position3, (U16, U16), (U16, U16))>)
    ensures r.Ok? <==> |s| >= 25
    ensures r.Ok? ==> r.rest == s[25..]
  {
    var id :- U32From(s);
    var facet :- U8From(id.rest);
    var position :- Position3From(facet.rest);
    var screenX :- U16From(position.rest);
    var screenY :- U16From(screenX.rest);
    var shadowX :- U16From(screenY.rest);
    var shadowY :- U16From(shadowX.rest);
    Ok((id.v, facet.v, position.v, (screenX.v, screenY.v), (shadowX.v, shadowY.v)),
       shadowY.rest)
  }

  /** The width of the selected-group field: one byte before 11.58. */
  function GroupSize(version: Version): nat {
    if version < 1158 then 1 else 0
  }

  /** The selected group: an i8 read only before 11.58, where -1 means no
      group and any other negative value fails its conversion to u8. */
  function SelectedGroupFrom(s: Bytes, version: Version): (r: Result<Option<Byte>>)
    ensures r.Ok? ==> |s| >= GroupSize(version) && r.rest == s[GroupSize(version)..]
  {
    if version >= 1158 then Ok(None, s)
    else
      var group :- I8From(s);
      if group.v == -1 then Ok(None, group.rest)
      else if group.v < 0 then Fail(OutOfRange)
      else Ok(Some(group.v), group.rest)
  }

  /** From 11.58 on nothing is read and there is no group; before, the byte
      0xFF (-1) means no group, a byte below 0x80 is the group, and any other
      byte (a negative i8) fails. */
  lemma SelectedGroupGate(s: Bytes, version: Version)
    ensures version >= 1158 ==> SelectedGroupFrom(s, version) == Ok(None, s)
    ensures version < 1158 && |s| >= 1 ==>
              var r := SelectedGroupFrom(s, version);
              (r.Ok? <==> s[0] < 0x80 || s[0] == 0xFF)
              && (r.Ok? ==> r.value == (if s[0] == 0xFF then None else Some(s[0])))
  {}

  /** The held resource, the worker count, damage and attack state. */
  function StaticHeldFrom(s: Bytes): (r: Result<(U16, F32, Byte, Byte, Byte, bool)>)
    ensures r.Ok? <==> |s| >= 10
    ensures r.Ok? ==> r.rest == s[10..]
  {
    var attributeType :- U16From(s);
    var amount :- F32From(attributeType.rest);
    var workers :- U8From(amount.rest);
    var damage :- U8From(workers.rest);
    var timer :- U8From(damage.rest);
    var underAttack :- BoolFrom(timer.rest);
    Ok((attributeType.v, amount.v, workers.v, damage.v, timer.v, underAttack.v),
       underAttack.rest)
  }

  /** The group id, the `roo_already_called` byte and the sprite list, which
      is present exactly when the flag byte after them is nonzero. */
  function StaticTailFrom(s: Bytes): (r: Result<(Option<U32>, Byte, Option<seq<SpriteNode>>)>)
    ensures r.Ok? ==> |s| >= 6 && |r.rest| <= |s| - 6
    ensures r.Ok? ==> (r.value.2.Some? <==> s[5] != 0)
    ensures r.Ok? ==> r.value.0 != Some(0xFFFF_FFFF)
  {
    var group :- OptU32From(s);
    var roo :- U8From(group.rest);
    var flag :- U8From(roo.rest);
    if flag.v != 0 then
      var sprites :- SpriteListFrom(flag.rest);
      Ok((group.v, roo.v, Some(sprites.v)), sprites.rest)
    else Ok((group.v, roo.v, None), flag.rest)
  }

  /** `StaticUnitAttributes::read_from`. The pathing group is a `Counted`
      list, so it has exactly as many members as its u32 prefix says. */
  function StaticFrom(s: Bytes, version: Version): (r: Result<StaticUnitAttributes>)
    ensures r.Ok? && version >= 1158 ==> r.value.selectedGroup.None?
  {
    var head :- StaticHeadFrom(s);
    var place :- StaticPlaceFrom(head.rest);
    var group :- SelectedGroupFrom(place.rest, version);
    var held :- StaticHeldFrom(group.rest);
    var members :- Counted(held.rest, U32From);
    var tail :- StaticTailFrom(members.rest);
    var (owner, unitType, sprite, garrison, hitPoints, state, sleep, dopple, goToSleep) := head.v;
    var (id, facet, position, screen, shadow) := place.v;
    var (attributeType, amount, workers, damage, timer, underAttack) := held.v;
    var (groupId, roo, sprites) := tail.v;
    Ok(StaticUnitAttributes(
         owner, unitType, sprite, garrison, hitPoints, state, sleep, dopple, goToSleep,
         id, facet, position, screen, shadow, group.v,
         attributeType, amount, workers, damage, timer, underAttack,
         members.v, groupId, roo, sprites),
       tail.rest)
  }

  // ---------------------------------------------------------------------------
  // The animated block

  function AnimatedFrom(s: Bytes): (r: Result<AnimatedUnitAttributes>)
    ensures r.Ok? <==> |s| >= 4
    ensures r.Ok? ==> r.rest == s[4..]
  {
    var speed :- F32From(s);
    Ok(AnimatedUnitAttributes(speed.v), speed.rest)
  }

  /** `AnimatedUnitAttributes::write_to`. */
  function AnimatedBytes(a: AnimatedUnitAttributes): (b: Bytes)
    ensures |b| == 4
  {
    E32(a.speed)
  }

  lemma AnimatedRoundTrip(a: AnimatedUnitAttributes, t: Bytes)
    ensures AnimatedFrom(AnimatedBytes(a) + t) == Ok(a, t)
  {
    F32Write(a.speed, t);
  }

  // ---------------------------------------------------------------------------
  // The reader and the writers on a cursor and a sink

  /** The `if version < 11.58` step: the i8 and its conversion. */
  method ReadSelectedGroup(c: Cursor, version: Version) returns (r: Result<Option<Byte>>)
    modifies c
    ensures r == SelectedGroupFrom(old(c.rest), version)
    ensures r.Ok? ==> c.rest == r.rest
  {
    if version >= 1158 {
      return Ok(None, c.rest);
    }
    var group :- c.ReadI8();
    if group.v == -1 {
      r := Ok(None, c.rest);
    } else if group.v < 0 {
      r := Fail(OutOfRange);
    } else {
      r := Ok(Some(group.v), c.rest);
    }
  }

  /** `pathing_group_members`: a buffer of the counted size filled in place. */
  method ReadPathingGroupMembers(c: Cursor) returns (r: Result<seq<ObjectId>>)
    modifies c
    ensures r == Counted(old(c.rest), U32From)
    ensures r.Ok? ==> c.rest == r.rest
  {
    var count :- c.ReadU32();
    var members := new ObjectId[count.v](_ => 0);
    var filled := c.ReadU32Into(members);
    if filled.Fail? {
      return Fail(filled.error);
    }
    r := Ok(members[..], c.rest);
  }

  method ReadStaticTail(c: Cursor) returns (r: Result<(Option<U32>, Byte, Option<seq<SpriteNode>>)>)
    modifies c
    ensures r == StaticTailFrom(old(c.rest))
    ensures r.Ok? ==> c.rest == r.rest
  {
    var group :- c.ReadOptU32();
    var roo :- c.ReadU8();
    var flag :- c.ReadU8();
    var sprites := None;
    if flag.v != 0 {
      var list :- ReadSpriteList(c);
      sprites := Some(list.v);
    }
    r := Ok((group.v, roo.v, sprites), c.rest);
  }

  /** `StaticUnitAttributes::read_from`: the struct literal over the
      defaults, then the field-by-field assignments. */
  method ReadStatic(c: Cursor, version: Version) returns (r: Result<StaticUnitAttributes>)
    modifies c
    ensures r == StaticFrom(old(c.rest), version)
    ensures r.Ok? ==> c.rest == r.rest
  {
    var head :- c.ReadRecord(StaticHeadFrom);
    var place :- c.ReadRecord(StaticPlaceFrom);
    var (owner, unitType, sprite, garrison, hitPoints, state, sleep, dopple, goToSleep) := head.v;
    var (id, facet, position, screen, shadow) := place.v;
    var attrs := DefaultStatic.(
      ownerId := owner, unitTypeId := unitType, spriteId := sprite, garrisonedInId := garrison,
      hitPoints := hitPoints, objectState := state, sleepFlag := sleep, doppleFlag := dopple,
      goToSleepFlag := goToSleep, id := id, facet := facet, position := position,
      screenOffset := screen, shadowOffset := shadow);
    var group :- ReadSelectedGroup(c, version);
    attrs := attrs.(selectedGroup := group.v);
    var held :- c.ReadRecord(StaticHeldFrom);
    var (attributeType, amount, workers, damage, timer, underAttack) := held.v;
    attrs := attrs.(attributeTypeHeld := attributeType, attributeAmountHeld := amount,
                    workerCount := workers, currentDamage := damage,
                    damagedLatelyTimer := timer, underAttack := underAttack);
    var members :- ReadPathingGroupMembers(c);
    attrs := attrs.(pathingGroupMembers := members.v);
    var tail :- ReadStaticTail(c);
    var (groupId, roo, sprites) := tail.v;
    attrs := attrs.(groupId := groupId, rooAlreadyCalled := roo, spriteList := sprites);
    r := Ok(attrs, c.rest);
  }

  /** `StaticUnitAttributes::write_to` writes the owner, type and sprite and
      then reaches `todo!()`: these five bytes are everything it emits. */
  function StaticWrittenBytes(a: StaticUnitAttributes): (b: Bytes)
    ensures |b| == 5 && b[0] == a.ownerId
  {
    E8(a.ownerId) + E16(a.unitTypeId) + E16(a.spriteId)
  }

  method WriteStaticPrefix(o: Sink, a: StaticUnitAttributes)
    modifies o
    ensures o.out == old(o.out) + StaticWrittenBytes(a)
  {
    o.WriteU8(a.ownerId);
    o.WriteU16(a.unitTypeId);
    o.WriteU16(a.spriteId);
  }

  method ReadAnimated(c: Cursor) returns (r: Result<AnimatedUnitAttributes>)
    modifies c
    ensures r == AnimatedFrom(old(c.rest))
    ensures r.Ok? ==> c.rest == r.rest
  {
    var speed :- c.ReadF32();
    r := Ok(AnimatedUnitAttributes(speed.v), c.rest);
  }

  method WriteAnimated(o: Sink, a: AnimatedUnitAttributes)
    modifies o
    ensures o.out == old(o.out) + AnimatedBytes(a)
  {
    o.WriteF32(a.speed);
  }
}
