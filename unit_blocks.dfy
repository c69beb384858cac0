/** The action block, the base-combat block and the missile block of a unit.
    Each is read field by field into a defaulted record, and a field whose
    version gate is closed keeps its default. */
module UnitBlocks {
  import opened Wire
  import opened Streams
  import opened UnitActions

  datatype ActionUnitAttributes = ActionUnitAttributes(
    waiting: bool, commandFlag: Byte, selectedGroupInfo: U16,
    actions: seq<UnitAction>)

  datatype BaseCombatUnitAttributes = BaseCombatUnitAttributes(
    formationId: Byte, formationRow: Byte, formationColumn: Byte,
    attackTimer: F32, captureFlag: Byte, multiUnifiedPoints: Byte,
    largeObjectRadius: Byte, attackCount: U32)

  /** `own_base` holds a unit-type record, read by the game-data reader
      outside this model and kept as its raw bytes. */
  datatype MissileUnitAttributes = MissileUnitAttributes(
    maxRange: F32, firedFromId: ObjectId, ownBase: Option<Bytes>)

  /** A gated u8: read when the gate is open, the default 0 otherwise. */
  function GatedU8From(s: Bytes, open: bool): (r: Result<Byte>)
    ensures r.Ok? <==> |s| >= (if open then 1 else 0)
    ensures r.Ok? ==> r.rest == s[if open then 1 else 0..]
    ensures r.Ok? ==> r.value == if open then s[0] else 0
  {
    if open then U8From(s) else Ok(0, s)
  }

  // ---------------------------------------------------------------------------
  // The action block

  /** The bytes before the action list: `waiting`, then `command_flag` from
      6.50 and `selected_group_info` from 11.58. */
  function ActionHeadSize(version: Version): nat {
    1 + (if version >= 650 then 1 else 0) + (if version >= 1158 then 2 else 0)
  }

  function ActionAttrsFrom(s: Bytes, version: Version): (r: Result<ActionUnitAttributes>)
  {
    var waiting :- U8From(s);
    var flag :- GatedU8From(waiting.rest, version >= 650);
    var info :- if version >= 1158 then U16From(flag.rest) else Ok(0, flag.rest);
    var actions :- ActionListFrom(info.rest, version);
    Ok(ActionUnitAttributes(waiting.v != 0, flag.v, info.v, actions.v), actions.rest)
  }

  /** The action block read at byte level: the head fields sit at fixed
      offsets, a closed gate leaves its field at the default, and the action
      list is the list starting right after the head. */
  lemma ActionAttrsLayout(s: Bytes, version: Version)
    ensures var k := ActionHeadSize(version);
            ActionAttrsFrom(s, version).Ok? <==>
              |s| >= k && ActionListFrom(s[k..], version).Ok?
    ensures var k := ActionHeadSize(version);
            var r := ActionAttrsFrom(s, version);
            r.Ok? ==>
              && r.value.waiting == (s[0] != 0)
              && r.value.commandFlag == (if version >= 650 then s[1] else 0)
              && (version < 1158 ==> r.value.selectedGroupInfo == 0)
              && r.value.actions == ActionListFrom(s[k..], version).value
              && r.rest == ActionListFrom(s[k..], version).rest
  {
    var k := ActionHeadSize(version);
    var j := if version >= 650 then 2 else 1;
    if |s| >= k {
      assert s[1..][j - 1..] == s[j..];
      assert s[j..][k - j..] == s[k..];
    }
  }

  // ---------------------------------------------------------------------------
  // The base-combat block

  /** The bytes the base-combat block takes: the formation triple from 9.05,
      the attack timer always, the capture flag from 2.01, the two radius
      bytes from 9.09 and the attack count from 10.02. */
  function BaseCombatSize(version: Version): nat {
    (if version >= 905 then 3 else 0) + 4 + (if version >= 201 then 1 else 0)
      + (if version >= 909 then 2 else 0) + (if version >= 1002 then 4 else 0)
  }

  function FormationFrom(s: Bytes, version: Version): (r: Result<(Byte, Byte, Byte)>)
    ensures r.Ok? <==> |s| >= (if version >= 905 then 3 else 0)
    ensures r.Ok? ==> r.rest == s[if version >= 905 then 3 else 0..]
    ensures r.Ok? && version < 905 ==> r.value == (0, 0, 0)
  {
    if version >= 905 then
      var id :- U8From(s);
      var row :- U8From(id.rest);
      var column :- U8From(row.rest);
      Ok((id.v, row.v, column.v), column.rest)
    else
      Ok((0, 0, 0), s)
  }

  function RadiusFrom(s: Bytes, version: Version): (r: Result<(Byte, Byte)>)
    ensures r.Ok? <==> |s| >= (if version >= 909 then 2 else 0)
    ensures r.Ok? ==> r.rest == s[if version >= 909 then 2 else 0..]
    ensures r.Ok? && version < 909 ==> r.value == (0, 0)
  {
    if version >= 909 then
      var points :- U8From(s);
      var radius :- U8From(points.rest);
      Ok((points.v, radius.v), radius.rest)
    else
      Ok((0, 0), s)
  }

  function AttackCountFrom(s: Bytes, version: Version): (r: Result<U32>)
    ensures r.Ok? <==> |s| >= (if version >= 1002 then 4 else 0)
    ensures r.Ok? ==> r.rest == s[if version >= 1002 then 4 else 0..]
    ensures r.Ok? && version < 1002 ==> r.value == 0
  {
    if version >= 1002 then U32From(s) else Ok(0, s)
  }

  /** `BaseCombatUnitAttributes::read_from`: a fixed-size block whose size
      depends only on the version, with every gated field at its default
      below its gate and the attack timer always present. */
  function BaseCombatFrom(s: Bytes, version: Version): (r: Result<BaseCombatUnitAttributes>)
    ensures r.Ok? <==> |s| >= BaseCombatSize(version)
    ensures r.Ok? ==> r.rest == s[BaseCombatSize(version)..]
    ensures r.Ok? && version < 905 ==>
              r.value.formationId == r.value.formationRow == r.value.formationColumn == 0
    ensures r.Ok? && version < 201 ==> r.value.captureFlag == 0
    ensures r.Ok? && version < 909 ==>
              r.value.multiUnifiedPoints == r.value.largeObjectRadius == 0
    ensures r.Ok? && version < 1002 ==> r.value.attackCount == 0
  {
    var formation :- FormationFrom(s, version);
    var timer :- F32From(formation.rest);
    var capture :- GatedU8From(timer.rest, version >= 201);
    var radius :- RadiusFrom(capture.rest, version);
    var count :- AttackCountFrom(radius.rest, version);
    var (id, row, column) := formation.v;
    var (points, large) := radius.v;
    Ok(BaseCombatUnitAttributes(id, row, column, timer.v, capture.v, points,
                                large, count.v),
       count.rest)
  }

  // ---------------------------------------------------------------------------
  // The missile block

  /** An `own_base` field: a u8 presence flag, then, when it is nonzero, a
      unit-type record. `unitType` is the size the unit-type reader of this
      version takes from the bytes it is given (None when it fails). */
  function OwnBaseFrom(s: Bytes, unitType: Bytes -> Option<nat>): (r: Result<Option<Bytes>>)
    ensures r.Ok? ==> |s| >= 1 && (r.value.None? <==> s[0] == 0)
    ensures r.Ok? && s[0] == 0 ==> r.rest == s[1..]
    ensures r.Ok? && r.value.Some? ==>
              && unitType(s[1..]).Some? && 1 + unitType(s[1..]).value <= |s|
              && r.value.value == s[1..1 + unitType(s[1..]).value]
              && r.rest == s[1 + unitType(s[1..]).value..]
  {
    var flag :- U8From(s);
    if flag.v == 0 then Ok(None, flag.rest)
    else
      var base :- ForeignFrom(flag.rest, unitType(flag.rest));
      Ok(Some(base.v), base.rest)
  }

  /** `MissileUnitAttributes::read_from`: the range and the firing object,
      then the own base. */
  function MissileFrom(s: Bytes, unitType: Bytes -> Option<nat>): (r: Result<MissileUnitAttributes>)
    ensures r.Ok? ==> |s| >= 9 && (r.value.ownBase.None? <==> s[8] == 0)
    ensures r.Ok? && s[8] == 0 ==> r.rest == s[9..]
  {
    var range :- F32From(s);
    var firedFrom :- U32From(range.rest);
    var base :- OwnBaseFrom(firedFrom.rest, unitType);
    Ok(MissileUnitAttributes(range.v, firedFrom.v, base.v), base.rest)
  }

  // ---------------------------------------------------------------------------
  // The readers on a cursor

  /** `ActionUnitAttributes::read_from`. */
  method ReadActionAttrs(c: Cursor, version: Version) returns (r: Result<ActionUnitAttributes>)
    modifies c
    ensures r == ActionAttrsFrom(old(c.rest), version)
    ensures r.Ok? ==> c.rest == r.rest
  {
    var waiting :- c.ReadU8();
    var attrs := ActionUnitAttributes(waiting.v != 0, 0, 0, []);
    if version >= 650 {
      var flag :- c.ReadU8();
      attrs := attrs.(commandFlag := flag.v);
    }
    if version >= 1158 {
      var info :- c.ReadU16();
      attrs := attrs.(selectedGroupInfo := info.v);
    }
    var actions :- ReadActionList(c, version);
    attrs := attrs.(actions := actions.v);
    r := Ok(attrs, c.rest);
  }

  /** `BaseCombatUnitAttributes::read_from`. */
  method ReadBaseCombat(c: Cursor, version: Version) returns (r: Result<BaseCombatUnitAttributes>)
    modifies c
    ensures r == BaseCombatFrom(old(c.rest), version)
    ensures r.Ok? ==> c.rest == r.rest
  {
    var attrs := BaseCombatUnitAttributes(0, 0, 0, 0, 0, 0, 0, 0);
    if version >= 905 {
      var id :- c.ReadU8();
      var row :- c.ReadU8();
      var column :- c.ReadU8();
      attrs := attrs.(formationId := id.v, formationRow := row.v, formationColumn := column.v);
    }
    var timer :- c.ReadF32();
    attrs := attrs.(attackTimer := timer.v);
    if version >= 201 {
      var capture :- c.ReadU8();
      attrs := attrs.(captureFlag := capture.v);
    }
    if version >= 909 {
      var points :- c.ReadU8();
      var large :- c.ReadU8();
      attrs := attrs.(multiUnifiedPoints := points.v, largeObjectRadius := large.v);
    }
    if version >= 1002 {
      var count :- c.ReadU32();
      attrs := attrs.(attackCount := count.v);
    }
    r := Ok(attrs, c.rest);
  }

  /** The `own_base` block. */
  method ReadOwnBase(c: Cursor, unitType: Bytes -> Option<nat>) returns (r: Result<Option<Bytes>>)
    modifies c
    ensures r == OwnBaseFrom(old(c.rest), unitType)
    ensures r.Ok? ==> c.rest == r.rest
  {
    var flag :- c.ReadU8();
    if flag.v == 0 {
      return Ok(None, c.rest);
    }
    var base :- c.ReadForeign(unitType(c.rest));
    r := Ok(Some(base.v), c.rest);
  }

  /** `MissileUnitAttributes::read_from`. */
  method ReadMissile(c: Cursor, unitType: Bytes -> Option<nat>) returns (r: Result<MissileUnitAttributes>)
    modifies c
    ensures r == MissileFrom(old(c.rest), unitType)
    ensures r.Ok? ==> c.rest == r.rest
  {
    var range :- c.ReadF32();
    var firedFrom :- c.ReadU32();
    var base :- ReadOwnBase(c, unitType);
    r := Ok(MissileUnitAttributes(range.v, firedFrom.v, base.v), c.rest);
  }
}
