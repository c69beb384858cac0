/** A unit object of the saved game: its base-class byte, the static block
    every unit has, and the seven further blocks, each present exactly when
    the base class reaches it. */
module Units {
  import opened Wire
  import opened Streams
  import opened UnitActions
  import opened UnitStatic
  import opened UnitMotion
  import opened UnitBlocks
  import opened UnitCombat
  import opened UnitBuilding

  /** How far down the base-class order a class reaches: 0 for a static
      object, 1 animated, 2 moving, 3 action, 4 base combat, 5 missile,
      6 combat and 7 building or beyond. */
  type Depth = x: nat | x <= 7

  /** The conversion of the class byte into the base-class enumeration and
      its position in the enumeration's order, supplied by the caller (None
      when the byte names no class). */
  type ClassTable = Byte -> Option<Depth>

  datatype Unit = Unit(
    unitBaseClass: Byte,
    static_: StaticUnitAttributes,
    animated: Option<AnimatedUnitAttributes>,
    moving: Option<MovingUnitAttributes>,
    action: Option<ActionUnitAttributes>,
    baseCombat: Option<BaseCombatUnitAttributes>,
    missile: Option<MissileUnitAttributes>,
    combat: Option<CombatUnitAttributes>,
    building: Option<BuildingUnitAttributes>)

  function MovingOf(version: Version): Bytes -> Result<MovingUnitAttributes> {
    t => MovingFrom(t, version)
  }

  function ActionOf(version: Version): Bytes -> Result<ActionUnitAttributes> {
    t => ActionAttrsFrom(t, version)
  }

  function BaseCombatOf(version: Version): Bytes -> Result<BaseCombatUnitAttributes> {
    t => BaseCombatFrom(t, version)
  }

  function MissileOf(unitType: Bytes -> Option<nat>): Bytes -> Result<MissileUnitAttributes> {
    t => MissileFrom(t, unitType)
  }

  function CombatOf(version: Version, unitType: Bytes -> Option<nat>, fl: Floats)
    : Bytes -> Result<CombatUnitAttributes>
  {
    t => CombatFrom(t, version, unitType, fl)
  }

  function BuildingOf(version: Version): Bytes -> Result<BuildingUnitAttributes> {
    t => BuildingFrom(t, version)
  }

  /** The animated, moving and action blocks. */
  function MotionBlocksFrom(s: Bytes, version: Version, d: Depth)
    : (r: Result<(Option<AnimatedUnitAttributes>, Option<MovingUnitAttributes>,
                  Option<ActionUnitAttributes>)>)
    ensures r.Ok? ==> (r.value.0.Some? <==> d >= 1) && (r.value.1.Some? <==> d >= 2)
                      && (r.value.2.Some? <==> d >= 3)
  {
    var animated :- GatedFrom(s, d >= 1, AnimatedFrom);
    var moving :- GatedFrom(animated.rest, d >= 2, MovingOf(version));
    var action :- GatedFrom(moving.rest, d >= 3, ActionOf(version));
    Ok((animated.v, moving.v, action.v), action.rest)
  }

  /** The base-combat, missile, combat and building blocks. */
  function CombatBlocksFrom(s: Bytes, version: Version, d: Depth,
                            unitType: Bytes -> Option<nat>, fl: Floats)
    : (r: Result<(Option<BaseCombatUnitAttributes>, Option<MissileUnitAttributes>,
                  Option<CombatUnitAttributes>, Option<BuildingUnitAttributes>)>)
    ensures r.Ok? ==> (r.value.0.Some? <==> d >= 4) && (r.value.1.Some? <==> d >= 5)
                      && (r.value.2.Some? <==> d >= 6) && (r.value.3.Some? <==> d >= 7)
  {
    var baseCombat :- GatedFrom(s, d >= 4, BaseCombatOf(version));
    var missile :- GatedFrom(baseCombat.rest, d >= 5, MissileOf(unitType));
    var combat :- GatedFrom(missile.rest, d >= 6, CombatOf(version, unitType, fl));
    var building :- GatedFrom(combat.rest, d >= 7, BuildingOf(version));
    Ok((baseCombat.v, missile.v, combat.v, building.v), building.rest)
  }

  /** `Unit::read_from`. A zero class byte is the empty slot: no unit, and
      nothing read past that byte. A class byte the table does not know is a
      failed conversion. Otherwise the static block follows and then each
      block whose class the unit's class reaches, in class order. */
  function UnitFrom(s: Bytes, version: Version, classes: ClassTable,
                    unitType: Bytes -> Option<nat>, fl: Floats)
    : (r: Result<Option<Unit>>)
    ensures r.Ok? ==> |s| >= 1
    ensures r.Ok? && r.value.None? <==> |s| >= 1 && s[0] == 0
    ensures r.Ok? && r.value.None? ==> r.rest == s[1..]
    ensures |s| >= 1 && s[0] != 0 && classes(s[0]).None? ==> r == Fail(OutOfRange)
    ensures r.Ok? && r.value.Some? ==>
              var u := r.value.value;
              var d := classes(s[0]).value;
              && classes(s[0]).Some? && u.unitBaseClass == s[0]
              && (u.animated.Some? <==> d >= 1) && (u.moving.Some? <==> d >= 2)
              && (u.action.Some? <==> d >= 3) && (u.baseCombat.Some? <==> d >= 4)
              && (u.missile.Some? <==> d >= 5) && (u.combat.Some? <==> d >= 6)
              && (u.building.Some? <==> d >= 7)
  {
    var raw :- U8From(s);
    if raw.v == 0 then Ok(None, raw.rest)
    else if classes(raw.v).None? then Fail(OutOfRange)
    else
      var d := classes(raw.v).value;
      var static_ :- StaticFrom(raw.rest, version);
      var motion :- MotionBlocksFrom(static_.rest, version, d);
      var fighting :- CombatBlocksFrom(motion.rest, version, d, unitType, fl);
      var (animated, moving, action) := motion.v;
      var (baseCombat, missile, combat, building) := fighting.v;
      Ok(Some(Unit(raw.v, static_.v, animated, moving, action, baseCombat, missile,
                   combat, building)),
         fighting.rest)
  }

  /** What `Unit::write_to` emits before it stops: the class byte and the
      static block's prefix, at which point the static writer reaches its
      unwritten remainder. */
  function UnitWrittenBytes(u: Unit): (b: Bytes)
    ensures |b| == 6 && b[0] == u.unitBaseClass && b[1] == u.static_.ownerId
  {
    E8(u.unitBaseClass) + StaticWrittenBytes(u.static_)
  }

  /** The emitted prefix starts with the bytes the reader dispatches on: the
      class byte and the owner of the static block. */
  lemma WrittenPrefixReadsBack(u: Unit, t: Bytes)
    ensures U8From(UnitWrittenBytes(u) + t) == Ok(u.unitBaseClass, StaticWrittenBytes(u.static_) + t)
    ensures U8From(StaticWrittenBytes(u.static_) + t).value == u.static_.ownerId
  {
    var b := UnitWrittenBytes(u);
    assert (b + t)[1..] == StaticWrittenBytes(u.static_) + t;
  }

  // ---------------------------------------------------------------------------
  // The reader and the writer on a cursor and a sink

  method ReadMotionBlocks(c: Cursor, version: Version, d: Depth)
    returns (r: Result<(Option<AnimatedUnitAttributes>, Option<MovingUnitAttributes>,
                        Option<ActionUnitAttributes>)>)
    modifies c
    ensures r == MotionBlocksFrom(old(c.rest), version, d)
    ensures r.Ok? ==> c.rest == r.rest
  {
    var animated: Option<AnimatedUnitAttributes> := None;
    var moving: Option<MovingUnitAttributes> := None;
    var action: Option<ActionUnitAttributes> := None;
    if d >= 1 {
      var a :- ReadAnimated(c);
      animated := Some(a.v);
    }
    if d >= 2 {
      var m :- ReadMoving(c, version);
      moving := Some(m.v);
    }
    if d >= 3 {
      var a :- ReadActionAttrs(c, version);
      action := Some(a.v);
    }
    r := Ok((animated, moving, action), c.rest);
  }

  method ReadCombatBlocks(c: Cursor, version: Version, d: Depth,
                          unitType: Bytes -> Option<nat>, fl: Floats)
    returns (r: Result<(Option<BaseCombatUnitAttributes>, Option<MissileUnitAttributes>,
                        Option<CombatUnitAttributes>, Option<BuildingUnitAttributes>)>)
    modifies c
    ensures r == CombatBlocksFrom(old(c.rest), version, d, unitType, fl)
    ensures r.Ok? ==> c.rest == r.rest
  {
    var baseCombat: Option<BaseCombatUnitAttributes> := None;
    var missile: Option<MissileUnitAttributes> := None;
    var combat: Option<CombatUnitAttributes> := None;
    var building: Option<BuildingUnitAttributes> := None;
    if d >= 4 {
      var b :- ReadBaseCombat(c, version);
      baseCombat := Some(b.v);
    }
    if d >= 5 {
      var m :- ReadMissile(c, unitType);
      missile := Some(m.v);
    }
    if d >= 6 {
      var x :- ReadCombat(c, version, unitType, fl);
      combat := Some(x.v);
    }
    if d >= 7 {
      var b :- ReadBuilding(c, version);
      building := Some(b.v);
    }
    r := Ok((baseCombat, missile, combat, building), c.rest);
  }

  /** `Unit::read_from`. */
  method ReadUnit(c: Cursor, version: Version, classes: ClassTable,
                  unitType: Bytes -> Option<nat>, fl: Floats)
    returns (r: Result<Option<Unit>>)
    modifies c
    ensures r == UnitFrom(old(c.rest), version, classes, unitType, fl)
    ensures r.Ok? ==> c.rest == r.rest
  {
    var raw :- c.ReadU8();
    if raw.v == 0 {
      return Ok(None, c.rest);
    }
    if classes(raw.v).None? {
      return Fail(OutOfRange);
    }
    var d := classes(raw.v).value;
    var static_ :- ReadStatic(c, version);
    var motion :- ReadMotionBlocks(c, version, d);
    var fighting :- ReadCombatBlocks(c, version, d, unitType, fl);
    var (animated, moving, action) := motion.v;
    var (baseCombat, missile, combat, building) := fighting.v;
    r := Ok(Some(Unit(raw.v, static_.v, animated, moving, action, baseCombat, missile,
                      combat, building)),
            c.rest);
  }

  /** `Unit::write_to`: the class byte, then the static writer, which stops
      after its prefix. The result is None: the write never completes. */
  method WriteUnit(o: Sink, u: Unit) returns (done: Option<()>)
    modifies o
    ensures o.out == old(o.out) + UnitWrittenBytes(u)
    ensures done.None?
  {
    o.WriteU8(u.unitBaseClass);
    WriteStaticPrefix(o, u.static_);
    done := None;
  }
}
