/** The combat block of a unit: volley state, the six attribute amounts, the
    garrison and raid counters, the optional unit AI and the town-bell state. */
module UnitCombat {
  import opened Wire
  import opened Streams
  import opened UnitActions
  import opened UnitBlocks
  import opened UnitAIs

  datatype CombatUnitAttributes = CombatUnitAttributes(
    nextVolley: Byte, usingSpecialAttackAnimation: Byte, ownBase: Option<Bytes>,
    attributeAmounts: seq<U16>, decayTimer: U16, raiderBuildCountdown: U32,
    lockedDownCount: U32, insideGarrisonCount: Byte, unitAI: Option<UnitAI>,
    townBellFlag: I8, townBellTargetId: Option<ObjectId>,
    townBellTargetLocation: Option<(F32, F32)>, townBellTargetId2: Option<ObjectId>,
    townBellTargetType: U32, townBellAction: U32, berserkerTimer: F32,
    numBuilders: Byte, numHealers: Byte)

  /** The number of entries of the fixed `attribute_amounts` array. */
  const AttributeCount := 6

  // ---------------------------------------------------------------------------
  // The chunks of `CombatUnitAttributes::read_from`

  function CombatHeadFrom(s: Bytes, unitType: Bytes -> Option<nat>): (r: Result<(Byte, Byte, Option<Bytes>)>)
    ensures r.Ok? ==> |s| >= 3 && (r.value.2.None? <==> s[2] == 0)
  {
    var volley :- U8From(s);
    var special :- U8From(volley.rest);
    var base :- OwnBaseFrom(special.rest, unitType);
    Ok((volley.v, special.v, base.v), base.rest)
  }

  /** The six attribute amounts: twelve bytes. */
  function AmountsFrom(s: Bytes): (r: Result<seq<U16>>)
    ensures r.Ok? ==> |r.value| == AttributeCount
  {
    Many(s, AttributeCount, U16From)
  }

  lemma AmountsConsume(s: Bytes)
    ensures AmountsFrom(s).Ok? <==> |s| >= 12
    ensures AmountsFrom(s).Ok? ==> AmountsFrom(s).rest == s[12..]
  {
    ManyConsumes(s, AttributeCount, U16From, 2);
    if |s| >= 12 {
      var t := s;
      assert U16From(t).Ok?;
      t := U16From(t).rest;
      assert U16From(t).Ok?;
      t := U16From(t).rest;
      assert U16From(t).Ok?;
      t := U16From(t).rest;
      assert U16From(t).Ok?;
      t := U16From(t).rest;
      assert U16From(t).Ok?;
      t := U16From(t).rest;
      assert U16From(t).Ok?;
    }
  }

  /** The counter bytes: the decay timer from 9.16, the raider countdown from
      9.61, the lock-down count from 9.65 and the garrison count from 11.56. */
  function CountersSize(version: Version): nat {
    (if version >= 916 then 2 else 0) + (if version >= 961 then 4 else 0)
      + (if version >= 965 then 4 else 0) + (if version >= 1156 then 1 else 0)
  }

  function CountersFrom(s: Bytes, version: Version): (r: Result<(U16, U32, U32, Byte)>)
    ensures r.Ok? <==> |s| >= CountersSize(version)
    ensures r.Ok? ==> r.rest == s[CountersSize(version)..]
    ensures r.Ok? && version < 916 ==> r.value.0 == 0
    ensures r.Ok? && version < 961 ==> r.value.1 == 0
    ensures r.Ok? && version < 965 ==> r.value.2 == 0
    ensures r.Ok? && version < 1156 ==> r.value.3 == 0
  {
    var decay :- if version >= 916 then U16From(s) else Ok(0, s);
    var raider :- if version >= 961 then U32From(decay.rest) else Ok(0, decay.rest);
    var locked :- if version >= 965 then U32From(raider.rest) else Ok(0, raider.rest);
    var garrison :- GatedU8From(locked.rest, version >= 1156);
    Ok((decay.v, raider.v, locked.v, garrison.v), garrison.rest)
  }

  /** `has_ai`: a u32 presence word, then the AI exactly when it is nonzero. */
  function UnitAIOptFrom(s: Bytes, version: Version): (r: Result<Option<UnitAI>>)
    ensures r.Ok? ==> |s| >= 4 && (r.value.Some? <==> U32From(s).value != 0)
    ensures r.Ok? && r.value.None? ==> r.rest == s[4..]
    ensures r.Ok? && r.value.Some? ==> r.value.value.patrolPath.None?
  {
    var present :- U32From(s);
    if present.v == 0 then Ok(None, present.rest)
    else
      var ai :- UnitAIFrom(present.rest, version);
      Ok(Some(ai.v), ai.rest)
  }

  /** The town-bell block of 10.30: the flag, the target and a location that
      is kept only when its first coordinate is not negative. */
  function TownBellFrom(s: Bytes, version: Version, fl: Floats)
    : (r: Result<(I8, Option<ObjectId>, Option<(F32, F32)>)>)
    ensures r.Ok? <==> |s| >= (if version >= 1030 then 13 else 0)
    ensures r.Ok? ==> r.rest == s[if version >= 1030 then 13 else 0..]
    ensures r.Ok? && version < 1030 ==> r.value == (0, None, None)
    ensures r.Ok? && version >= 1030 ==>
              (r.value.2.Some? <==> fl.nonNegative(U32From(s[5..]).value))
  {
    if version < 1030 then Ok((0, None, None), s)
    else
      var flag :- I8From(s);
      var target :- OptU32From(flag.rest);
      var x :- F32From(target.rest);
      var y :- F32From(x.rest);
      Ok((flag.v, target.v, if fl.nonNegative(x.v) then Some((x.v, y.v)) else None), y.rest)
  }

  /** The second town-bell target and its type from 11.71, the action from 11.74. */
  function TownBellLaterFrom(s: Bytes, version: Version): (r: Result<(Option<ObjectId>, U32, U32)>)
    ensures r.Ok? <==> |s| >= (if version >= 1171 then 8 else 0) + (if version >= 1174 then 4 else 0)
    ensures r.Ok? ==> r.rest == s[(if version >= 1171 then 8 else 0) + (if version >= 1174 then 4 else 0)..]
    ensures r.Ok? && version < 1171 ==> r.value.0.None? && r.value.1 == 0
    ensures r.Ok? && version < 1174 ==> r.value.2 == 0
  {
    var target :- if version >= 1171 then OptU32From(s) else Ok(None, s);
    var kind :- if version >= 1171 then U32From(target.rest) else Ok(0, target.rest);
    var action :- if version >= 1174 then U32From(kind.rest) else Ok(0, kind.rest);
    Ok((target.v, kind.v, action.v), action.rest)
  }

  /** The berserker timer from 10.42, the builder count from 10.46 and the
      healer count from 11.69. */
  function CombatTailFrom(s: Bytes, version: Version): (r: Result<(F32, Byte, Byte)>)
    ensures r.Ok? && version < 1042 ==> r.value.0 == 0
    ensures r.Ok? && version < 1046 ==> r.value.1 == 0
    ensures r.Ok? && version < 1169 ==> r.value.2 == 0
  {
    var timer :- if version >= 1042 then F32From(s) else Ok(0, s);
    var builders :- GatedU8From(timer.rest, version >= 1046);
    var healers :- GatedU8From(builders.rest, version >= 1169);
    Ok((timer.v, builders.v, healers.v), healers.rest)
  }

  /** `CombatUnitAttributes::read_from`. */
  function CombatFrom(s: Bytes, version: Version, unitType: Bytes -> Option<nat>, fl: Floats)
    : (r: Result<CombatUnitAttributes>)
    ensures r.Ok? ==> |r.value.attributeAmounts| == AttributeCount
    ensures r.Ok? && version < 1030 ==>
              && r.value.townBellFlag == 0 && r.value.townBellTargetId.None?
              && r.value.townBellTargetLocation.None?
    ensures r.Ok? && r.value.unitAI.Some? ==> r.value.unitAI.value.patrolPath.None?
  {
    var head :- CombatHeadFrom(s, unitType);
    var amounts :- AmountsFrom(head.rest);
    var counters :- CountersFrom(amounts.rest, version);
    var ai :- UnitAIOptFrom(counters.rest, version);
    var bell :- TownBellFrom(ai.rest, version, fl);
    var later :- TownBellLaterFrom(bell.rest, version);
    var tail :- CombatTailFrom(later.rest, version);
    var (volley, special, base) := head.v;
    var (decay, raider, locked, garrison) := counters.v;
    var (flag, target, location) := bell.v;
    var (target2, kind, action) := later.v;
    var (berserker, builders, healers) := tail.v;
    Ok(CombatUnitAttributes(volley, special, base, amounts.v, decay, raider, locked,
                            garrison, ai.v, flag, target, location, target2, kind,
                            action, berserker, builders, healers),
       tail.rest)
  }

  // ---------------------------------------------------------------------------
  // The readers on a cursor

  method ReadCombatHead(c: Cursor, unitType: Bytes -> Option<nat>) returns (r: Result<(Byte, Byte, Option<Bytes>)>)
    modifies c
    ensures r == CombatHeadFrom(old(c.rest), unitType)
    ensures r.Ok? ==> c.rest == r.rest
  {
    var volley :- c.ReadU8();
    var special :- c.ReadU8();
    var base :- ReadOwnBase(c, unitType);
    r := Ok((volley.v, special.v, base.v), c.rest);
  }

  /** `for amount in attrs.attribute_amounts.iter_mut()`: fills the array in place. */
  method ReadAmounts(c: Cursor) returns (r: Result<seq<U16>>)
    modifies c
    ensures r == AmountsFrom(old(c.rest))
    ensures r.Ok? ==> c.rest == r.rest
  {
    var amounts := new U16[AttributeCount](_ => 0);
    var filled := ReadInto(c, amounts, U16From);
    if filled.Fail? {
      return Fail(filled.error);
    }
    r := Ok(amounts[..], c.rest);
  }

  method ReadCounters(c: Cursor, version: Version) returns (r: Result<(U16, U32, U32, Byte)>)
    modifies c
    ensures r == CountersFrom(old(c.rest), version)
    ensures r.Ok? ==> c.rest == r.rest
  {
    var decay: U16 := 0;
    var raider: U32 := 0;
    var locked: U32 := 0;
    var garrison: Byte := 0;
    if version >= 916 {
      var x :- c.ReadU16();
      decay := x.v;
    }
    if version >= 961 {
      var x :- c.ReadU32();
      raider := x.v;
    }
    if version >= 965 {
      var x :- c.ReadU32();
      locked := x.v;
    }
    if version >= 1156 {
      var x :- c.ReadU8();
      garrison := x.v;
    }
    r := Ok((decay, raider, locked, garrison), c.rest);
  }

  method ReadUnitAIOpt(c: Cursor, version: Version) returns (r: Result<Option<UnitAI>>)
    modifies c
    ensures r == UnitAIOptFrom(old(c.rest), version)
    ensures r.Ok? ==> c.rest == r.rest
  {
    var present :- c.ReadU32();
    if present.v == 0 {
      return Ok(None, c.rest);
    }
    var ai :- ReadUnitAI(c, version);
    r := Ok(Some(ai.v), c.rest);
  }

  method ReadTownBell(c: Cursor, version: Version, fl: Floats)
    returns (r: Result<(I8, Option<ObjectId>, Option<(F32, F32)>)>)
    modifies c
    ensures r == TownBellFrom(old(c.rest), version, fl)
    ensures r.Ok? ==> c.rest == r.rest
  {
    if version < 1030 {
      return Ok((0, None, None), c.rest);
    }
    var flag :- c.ReadI8();
    var target :- c.ReadOptU32();
    var x :- c.ReadF32();
    var y :- c.ReadF32();
    var location: Option<(F32, F32)> := None;
    if fl.nonNegative(x.v) {
      location := Some((x.v, y.v));
    }
    r := Ok((flag.v, target.v, location), c.rest);
  }

  method ReadTownBellLater(c: Cursor, version: Version) returns (r: Result<(Option<ObjectId>, U32, U32)>)
    modifies c
    ensures r == TownBellLaterFrom(old(c.rest), version)
    ensures r.Ok? ==> c.rest == r.rest
  {
    var target: Option<ObjectId> := None;
    var kind: U32 := 0;
    var action: U32 := 0;
    if version >= 1171 {
      var t :- c.ReadOptU32();
      var k :- c.ReadU32();
      target, kind := t.v, k.v;
    }
    if version >= 1174 {
      var a :- c.ReadU32();
      action := a.v;
    }
    r := Ok((target, kind, action), c.rest);
  }

  method ReadCombatTail(c: Cursor, version: Version) returns (r: Result<(F32, Byte, Byte)>)
    modifies c
    ensures r == CombatTailFrom(old(c.rest), version)
    ensures r.Ok? ==> c.rest == r.rest
  {
    var timer: F32 := 0;
    var builders: Byte := 0;
    var healers: Byte := 0;
    if version >= 1042 {
      var t :- c.ReadF32();
      timer := t.v;
    }
    if version >= 1046 {
      var b :- c.ReadU8();
      builders := b.v;
    }
    if version >= 1169 {
      var h :- c.ReadU8();
      healers := h.v;
    }
    r := Ok((timer, builders, healers), c.rest);
  }

  /** `CombatUnitAttributes::read_from`. */
  method ReadCombat(c: Cursor, version: Version, unitType: Bytes -> Option<nat>, fl: Floats)
    returns (r: Result<CombatUnitAttributes>)
    modifies c
    ensures r == CombatFrom(old(c.rest), version, unitType, fl)
    ensures r.Ok? ==> c.rest == r.rest
  {
    var head :- ReadCombatHead(c, unitType);
    var amounts :- ReadAmounts(c);
    var counters :- ReadCounters(c, version);
    var ai :- ReadUnitAIOpt(c, version);
    var bell :- ReadTownBell(c, version, fl);
    var later :- ReadTownBellLater(c, version);
    var tail :- ReadCombatTail(c, version);
    var (volley, special, base) := head.v;
    var (decay, raider, locked, garrison) := counters.v;
    var (flag, target, location) := bell.v;
    var (target2, kind, action) := later.v;
    var (berserker, builders, healers) := tail.v;
    r := Ok(CombatUnitAttributes(volley, special, base, amounts.v, decay, raider, locked,
                                 garrison, ai.v, flag, target, location, target2, kind,
                                 action, berserker, builders, healers),
            c.rest);
  }
}
