/** Persisted unit actions. A unit carries zero-terminated lists of actions;
    each action starts with a u16 type tag, then a state whose width depends
    on the game version, 36 fixed bytes, its own zero-terminated list of
    sub-actions, an optional sprite id and a payload chosen by the tag. */
module UnitActions {
  import opened Wire
  import opened Streams

  /** A game version in hundredths: 11.76 is 1176. */
  type Version = int

  type Position3 = (F32, F32, F32)

  datatype ActionMoveTo = ActionMoveTo(range: F32)
  datatype ActionEnter = ActionEnter(firstTime: U32)
  datatype ActionAttack = ActionAttack(
    range: F32, minRange: F32, missileId: UnitTypeId, frameDelay: U16,
    needToAttack: U16, wasSameOwner: U16, indirectFireFlag: Byte,
    moveSpriteId: Option<SpriteId>, fightSpriteId: Option<SpriteId>,
    waitSpriteId: Option<SpriteId>, lastTargetPosition: Position3)
  datatype ActionMake = ActionMake(workTimer: F32)

  datatype ActionType =
    | MoveTo(moveTo: ActionMoveTo)
    | Enter(enter: ActionEnter)
    | Explore
    | Attack(attack: ActionAttack)
    | Bird
    | Transport
    | Guard
    | Make(make: ActionMake)
    | Artifact

  /** The 36 bytes between the state and the sub-action list (the two raw
      target object addresses are read and dropped). */
  datatype ActionHead = ActionHead(
    targetObjectId: Option<ObjectId>, targetObjectId2: Option<ObjectId>,
    targetPosition: Position3, timer: F32, targetMovedState: Byte,
    taskId: Option<U16>, subActionValue: Byte)

  datatype UnitAction = UnitAction(
    state: U32, head: ActionHead, subActions: seq<UnitAction>,
    spriteId: Option<SpriteId>, params: ActionType)

  /** The closed table of action tags. */
  predicate IsActionTag(tag: U16) {
    tag == 1 || tag == 3 || tag == 4 || tag == 9 || tag == 10 || tag == 12 || tag == 13
    || tag == 21 || tag == 107
  }

  // ---------------------------------------------------------------------------
  // Decoding

  /** The first 17 bytes of `ActionAttack::read_from`. */
  function AttackWeaponFrom(s: Bytes): (r: Result<(F32, F32, UnitTypeId, U16, U16, U16, Byte)>)
    ensures r.Ok? <==> |s| >= 17
    ensures r.Ok? ==> r.rest == s[17..]
  {
    var range :- F32From(s);
    var minRange :- F32From(range.rest);
    var missile :- U16From(minRange.rest);
    var delay :- U16From(missile.rest);
    var need :- U16From(delay.rest);
    var same :- U16From(need.rest);
    var indirect :- U8From(same.rest);
    Ok((range.v, minRange.v, missile.v, delay.v, need.v, same.v, indirect.v), indirect.rest)
  }

  /** The last 18 bytes: three optional sprites and the last target position. */
  function AttackSpritesFrom(s: Bytes): (r: Result<(Option<SpriteId>, Option<SpriteId>, Option<SpriteId>, Position3)>)
    ensures r.Ok? <==> |s| >= 18
    ensures r.Ok? ==> r.rest == s[18..]
    ensures r.Ok? ==> r.value.0 != Some(0xFFFF) && r.value.1 != Some(0xFFFF) && r.value.2 != Some(0xFFFF)
  {
    var moveSprite :- OptU16From(s);
    var fightSprite :- OptU16From(moveSprite.rest);
    var waitSprite :- OptU16From(fightSprite.rest);
    var x :- F32From(waitSprite.rest);
    var y :- F32From(x.rest);
    var z :- F32From(y.rest);
    Ok((moveSprite.v, fightSprite.v, waitSprite.v, (x.v, y.v, z.v)), z.rest)
  }

  function ActionAttackFrom(s: Bytes): (r: Result<ActionAttack>)
    ensures r.Ok? <==> |s| >= 35
    ensures r.Ok? ==> r.rest == s[35..] && ParamsFit(Attack(r.value))
  {
    var w :- AttackWeaponFrom(s);
    var p :- AttackSpritesFrom(w.rest);
    var (range, minRange, missile, delay, need, same, indirect) := w.v;
    var (moveSprite, fightSprite, waitSprite, last) := p.v;
    Ok(ActionAttack(range, minRange, missile, delay, need, same, indirect,
                    moveSprite, fightSprite, waitSprite, last), p.rest)
  }

  /** `ActionType::read_from`: the payload chosen by the tag; a tag outside
      the table reaches `unimplemented!()`. */
  function ActionTypeFrom(s: Bytes, tag: U16): (r: Result<ActionType>)
    ensures r.Ok? ==> IsActionTag(tag) && |s| >= ParamSize(tag) && r.rest == s[ParamSize(tag)..]
    ensures r.Ok? ==> TagOf(r.value) == tag && ParamsFit(r.value)
  {
    if tag == 1 then
      var m := F32From(s);
      if m.Ok? then Ok(MoveTo(ActionMoveTo(m.value)), m.rest) else Fail(m.error)
    else if tag == 3 then
      var e := U32From(s);
      if e.Ok? then Ok(Enter(ActionEnter(e.value)), e.rest) else Fail(e.error)
    else if tag == 4 then Ok(Explore, s)
    else if tag == 9 then
      var a := ActionAttackFrom(s);
      if a.Ok? then Ok(Attack(a.value), a.rest) else Fail(a.error)
    else if tag == 10 then Ok(Bird, s)
    else if tag == 12 then Ok(Transport, s)
    else if tag == 13 then Ok(Guard, s)
    else if tag == 21 then
      var m := F32From(s);
      if m.Ok? then Ok(Make(ActionMake(m.value)), m.rest) else Fail(m.error)
    else if tag == 107 then Ok(Artifact, s)
    else Fail(Unsupported)
  }

  /** The state: one byte widened to u32 up to version 11.76, a u32 after. */
  function StateFrom(s: Bytes, version: Version): (r: Result<U32>)
    ensures r.Ok? ==> |r.rest| < |s| && (version <= 1176 ==> r.value < 0x100)
  {
    if version <= 1176 then (var b :- U8From(s); Ok(b.v, b.rest))
    else U32From(s)
  }

  function ActionHeadFrom(s: Bytes): (r: Result<ActionHead>)
    ensures r.Ok? <==> |s| >= 36
    ensures r.Ok? ==> r.rest == s[36..] && HeadFits(r.value)
  {
    var address :- U32From(s);
    var address2 :- U32From(address.rest);
    var target :- OptU32From(address2.rest);
    var target2 :- OptU32From(target.rest);
    var x :- F32From(target2.rest);
    var y :- F32From(x.rest);
    var z :- F32From(y.rest);
    var timer :- F32From(z.rest);
    var moved :- U8From(timer.rest);
    var task :- OptU16From(moved.rest);
    var subValue :- U8From(task.rest);
    Ok(ActionHead(target.v, target2.v, (x.v, y.v, z.v), timer.v, moved.v, task.v, subValue.v),
       subValue.rest)
  }

  /** The sprite id and the tag's payload, which close an action. */
  function ActionTailFrom(s: Bytes, tag: U16): (r: Result<(Option<SpriteId>, ActionType)>)
    ensures r.Ok? ==> |r.rest| <= |s| - 2
    ensures r.Ok? ==> r.value.0 != Some(0xFFFF) && ParamsFit(r.value.1) && TagOf(r.value.1) == tag
  {
    var sprite :- OptU16From(s);
    var params :- ActionTypeFrom(sprite.rest, tag);
    Ok((sprite.v, params.v), params.rest)
  }

  /** `UnitAction::read_from_inner`: an action whose tag was already read. */
  function ActionInnerFrom(s: Bytes, tag: U16, version: Version): (r: Result<UnitAction>)
    ensures r.Ok? ==> |r.rest| < |s| && TagOf(r.value.params) == tag
    decreases |s|
  {
    var state := StateFrom(s, version);
    if state.Fail? then Fail(state.error) else
    var head := ActionHeadFrom(state.rest);
    if head.Fail? then Fail(head.error) else
    var subs := ActionListFrom(head.rest, version);
    if subs.Fail? then Fail(subs.error) else
    var tail := ActionTailFrom(subs.rest, tag);
    if tail.Fail? then Fail(tail.error) else
    Ok(UnitAction(state.value, head.value, subs.value, tail.value.0, tail.value.1), tail.rest)
  }

  /** `UnitAction::read_list_from`: actions until a 0 tag, which is consumed. */
  function ActionListFrom(s: Bytes, version: Version): (r: Result<seq<UnitAction>>)
    ensures r.Ok? ==> |r.rest| <= |s| - 2
    decreases |s|
  {
    var tag := U16From(s);
    if tag.Fail? then Fail(tag.error)
    else if tag.value == 0 then Ok([], tag.rest)
    else
      var a := ActionInnerFrom(tag.rest, tag.value, version);
      if a.Fail? then Fail(a.error) else
      var more := ActionListFrom(a.rest, version);
      if more.Fail? then Fail(more.error) else
      Ok([a.value] + more.value, more.rest)
  }

  /** `UnitAction::read_from`: a tag, then the action it introduces. */
  function ActionFrom(s: Bytes, version: Version): Result<UnitAction> {
    var tag :- U16From(s);
    ActionInnerFrom(tag.rest, tag.v, version)
  }

  // ---------------------------------------------------------------------------
  // The payload writers

  function ActionMoveToBytes(m: ActionMoveTo): (b: Bytes)
    ensures |b| == 4
  {
    E32(m.range)
  }

  function ActionEnterBytes(e: ActionEnter): (b: Bytes)
    ensures |b| == 4
  {
    E32(e.firstTime)
  }

  function ActionMakeBytes(m: ActionMake): (b: Bytes)
    ensures |b| == 4
  {
    E32(m.workTimer)
  }

  // ---------------------------------------------------------------------------
  // Reference definitions: the tag of a payload, the bytes of an action as
  // the decoder reads them, and the actions that byte image can represent

  function TagOf(t: ActionType): (tag: U16)
    ensures IsActionTag(tag)
  {
    match t
    case MoveTo(_) => 1
    case Enter(_) => 3
    case Explore => 4
    case Attack(_) => 9
    case Bird => 10
    case Transport => 12
    case Guard => 13
    case Make(_) => 21
    case Artifact => 107
  }

  /** The payload size of each tag of the table. */
  function ParamSize(tag: U16): nat {
    if tag == 1 || tag == 3 || tag == 21 then 4 else if tag == 9 then 35 else 0
  }

  function AttackWeaponBytes(a: ActionAttack): (b: Bytes)
    ensures |b| == 17
  {
    E32(a.range) + E32(a.minRange) + E16(a.missileId) + E16(a.frameDelay)
      + E16(a.needToAttack) + E16(a.wasSameOwner) + E8(a.indirectFireFlag)
  }

  function AttackSpritesBytes(a: ActionAttack): (b: Bytes)
    ensures |b| == 18
  {
    EOptU16(a.moveSpriteId) + EOptU16(a.fightSpriteId) + EOptU16(a.waitSpriteId)
      + E32(a.lastTargetPosition.0) + E32(a.lastTargetPosition.1) + E32(a.lastTargetPosition.2)
  }

  function ActionAttackBytes(a: ActionAttack): (b: Bytes)
    ensures |b| == 35
  {
    AttackWeaponBytes(a) + AttackSpritesBytes(a)
  }

  function ActionTypeBytes(t: ActionType): (b: Bytes)
    ensures |b| == ParamSize(TagOf(t))
  {
    match t
    case MoveTo(m) => ActionMoveToBytes(m)
    case Enter(e) => ActionEnterBytes(e)
    case Attack(a) => ActionAttackBytes(a)
    case Make(m) => ActionMakeBytes(m)
    case _ => []
  }

  function StateBytes(state: U32, version: Version): Bytes {
    if version <= 1176 then E8(state % 0x100) else E32(state)
  }

  /** The two dropped addresses are written as zero. */
  function ActionHeadBytes(h: ActionHead): (b: Bytes)
    ensures |b| == 36
  {
    E32(0) + E32(0) + EOptU32(h.targetObjectId) + EOptU32(h.targetObjectId2)
      + E32(h.targetPosition.0) + E32(h.targetPosition.1) + E32(h.targetPosition.2)
      + E32(h.timer) + E8(h.targetMovedState) + EOptU16(h.taskId) + E8(h.subActionValue)
  }

  /** The sprite id and the payload. */
  function ActionTailBytes(a: UnitAction): Bytes {
    EOptU16(a.spriteId) + ActionTypeBytes(a.params)
  }

  /** An action after its tag. */
  function ActionBodyBytes(a: UnitAction, version: Version): Bytes
    decreases a, 1
  {
    StateBytes(a.state, version) + ActionHeadBytes(a.head)
      + ActionListBytes(a.subActions, version) + ActionTailBytes(a)
  }

  /** Tagged actions, then the 0 tag. */
  function ActionListBytes(actions: seq<UnitAction>, version: Version): Bytes
    decreases actions, 0
  {
    if actions == [] then E16(0)
    else E16(TagOf(actions[0].params)) + ActionBodyBytes(actions[0], version)
           + ActionListBytes(actions[1..], version)
  }

  /** No optional field holds its own sentinel value, and the state fits the
      width the version gives it. */
  predicate HeadFits(h: ActionHead) {
    h.targetObjectId != Some(0xFFFF_FFFF) && h.targetObjectId2 != Some(0xFFFF_FFFF)
    && h.taskId != Some(0xFFFF)
  }

  predicate ParamsFit(t: ActionType) {
    t.Attack? ==>
      var a := t.attack;
      a.moveSpriteId != Some(0xFFFF) && a.fightSpriteId != Some(0xFFFF)
      && a.waitSpriteId != Some(0xFFFF)
  }

  predicate Representable(a: UnitAction, version: Version)
    decreases a
  {
    (version <= 1176 ==> a.state < 0x100) && HeadFits(a.head) && a.spriteId != Some(0xFFFF)
    && ParamsFit(a.params)
    && forall i :: 0 <= i < |a.subActions| ==> Representable(a.subActions[i], version)
  }

  // ---------------------------------------------------------------------------
  // Laws

  /** The tag table: a tag outside it fails, and a tag of it succeeds exactly
      when its payload is there. */
  lemma ActionTypeAccepts(s: Bytes, tag: U16)
    ensures !IsActionTag(tag) ==> ActionTypeFrom(s, tag) == Fail(Unsupported)
    ensures IsActionTag(tag) ==> (ActionTypeFrom(s, tag).Ok? <==> |s| >= ParamSize(tag))
  {}

  lemma AttackWeaponWrite(a: ActionAttack, t: Bytes)
    ensures AttackWeaponFrom(AttackWeaponBytes(a) + t)
         == Ok((a.range, a.minRange, a.missileId, a.frameDelay, a.needToAttack,
                a.wasSameOwner, a.indirectFireFlag), t)
  {
    var t6 := E8(a.indirectFireFlag) + t;
    var t5 := E16(a.wasSameOwner) + t6;
    var t4 := E16(a.needToAttack) + t5;
    var t3 := E16(a.frameDelay) + t4;
    var t2 := E16(a.missileId) + t3;
    var t1 := E32(a.minRange) + t2;
    assert AttackWeaponBytes(a) + t == E32(a.range) + t1 by {
      var p1 := E32(a.range);
      var p2 := p1 + E32(a.minRange);
      var p3 := p2 + E16(a.missileId);
      var p4 := p3 + E16(a.frameDelay);
      var p5 := p4 + E16(a.needToAttack);
      var p6 := p5 + E16(a.wasSameOwner);
      assert AttackWeaponBytes(a) == p6 + E8(a.indirectFireFlag);
      Associate(p6, E8(a.indirectFireFlag), t);
      Associate(p5, E16(a.wasSameOwner), t6);
      Associate(p4, E16(a.needToAttack), t5);
      Associate(p3, E16(a.frameDelay), t4);
      Associate(p2, E16(a.missileId), t3);
      Associate(p1, E32(a.minRange), t2);
    }
    F32Write(a.range, t1);
    F32Write(a.minRange, t2);
    U16Write(a.missileId, t3);
    U16Write(a.frameDelay, t4);
    U16Write(a.needToAttack, t5);
    U16Write(a.wasSameOwner, t6);
    U8Write(a.indirectFireFlag, t);
  }

  lemma AttackSpritesWrite(a: ActionAttack, t: Bytes)
    requires ParamsFit(Attack(a))
    ensures AttackSpritesFrom(AttackSpritesBytes(a) + t)
         == Ok((a.moveSpriteId, a.fightSpriteId, a.waitSpriteId, a.lastTargetPosition), t)
  {
    var (x, y, z) := a.lastTargetPosition;
    var t5 := E32(z) + t;
    var t4 := E32(y) + t5;
    var t3 := E32(x) + t4;
    var t2 := EOptU16(a.waitSpriteId) + t3;
    var t1 := EOptU16(a.fightSpriteId) + t2;
    assert AttackSpritesBytes(a) + t == EOptU16(a.moveSpriteId) + t1 by {
      var p1 := EOptU16(a.moveSpriteId);
      var p2 := p1 + EOptU16(a.fightSpriteId);
      var p3 := p2 + EOptU16(a.waitSpriteId);
      var p4 := p3 + E32(x);
      var p5 := p4 + E32(y);
      assert AttackSpritesBytes(a) == p5 + E32(z);
      Associate(p5, E32(z), t);
      Associate(p4, E32(y), t5);
      Associate(p3, E32(x), t4);
      Associate(p2, EOptU16(a.waitSpriteId), t3);
      Associate(p1, EOptU16(a.fightSpriteId), t2);
    }
    OptU16Write(a.moveSpriteId, t1);
    OptU16Write(a.fightSpriteId, t2);
    OptU16Write(a.waitSpriteId, t3);
    F32Write(x, t4);
    F32Write(y, t5);
    F32Write(z, t);
  }

  /** An attack payload whose sprites are not the sentinel reads back. */
  lemma AttackRoundTrip(a: ActionAttack, t: Bytes)
    requires ParamsFit(Attack(a))
    ensures ActionAttackFrom(ActionAttackBytes(a) + t) == Ok(a, t)
  {
    Associate(AttackWeaponBytes(a), AttackSpritesBytes(a), t);
    AttackWeaponWrite(a, AttackSpritesBytes(a) + t);
    AttackSpritesWrite(a, t);
  }

  lemma MoveToRoundTrip(m: ActionMoveTo, t: Bytes)
    ensures ActionTypeFrom(ActionMoveToBytes(m) + t, 1) == Ok(MoveTo(m), t)
  {
    F32Write(m.range, t);
  }

  lemma EnterRoundTrip(e: ActionEnter, t: Bytes)
    ensures ActionTypeFrom(ActionEnterBytes(e) + t, 3) == Ok(Enter(e), t)
  {
    U32Write(e.firstTime, t);
  }

  lemma AttackParamsRoundTrip(a: ActionAttack, t: Bytes)
    requires ParamsFit(Attack(a))
    ensures ActionTypeFrom(ActionAttackBytes(a) + t, 9) == Ok(Attack(a), t)
  {
    AttackRoundTrip(a, t);
    AttackTag(ActionAttackBytes(a) + t, a, t);
  }

  lemma AttackTag(s: Bytes, a: ActionAttack, t: Bytes)
    requires ActionAttackFrom(s) == Ok(a, t)
    ensures ActionTypeFrom(s, 9) == Ok(Attack(a), t)
  {
    AttackDispatch(s);
  }

  /** Tag 9 is the attack payload. */
  lemma AttackDispatch(s: Bytes)
    ensures var x := ActionAttackFrom(s);
            ActionTypeFrom(s, 9) == if x.Ok? then Ok(Attack(x.value), x.rest) else Fail(x.error)
  {
  }

  lemma MakeRoundTrip(m: ActionMake, t: Bytes)
    ensures ActionTypeFrom(ActionMakeBytes(m) + t, 21) == Ok(Make(m), t)
  {
    F32Write(m.workTimer, t);
  }

  /** Every payload is read back under its own tag; the three payload writers
      of the source are the MoveTo, Enter and Make cases. */
  lemma ParamsRoundTrip(p: ActionType, t: Bytes)
    requires ParamsFit(p)
    ensures ActionTypeFrom(ActionTypeBytes(p) + t, TagOf(p)) == Ok(p, t)
  {
    match p
    case MoveTo(m) => MoveToRoundTrip(m, t);
    case Enter(e) => EnterRoundTrip(e, t);
    case Attack(a) => AttackParamsRoundTrip(a, t);
    case Make(m) => MakeRoundTrip(m, t);
    case Explore => assert ActionTypeBytes(p) + t == t;
    case Bird => assert ActionTypeBytes(p) + t == t;
    case Transport => assert ActionTypeBytes(p) + t == t;
    case Guard => assert ActionTypeBytes(p) + t == t;
    case Artifact => assert ActionTypeBytes(p) + t == t;
  }

  /** The state's width: the first byte alone up to version 11.76, the first
      four bytes after. */
  lemma StateWidth(s: Bytes, version: Version)
    ensures version <= 1176 ==> StateFrom(s, version) == U8From(s)
    ensures version > 1176 ==> StateFrom(s, version) == U32From(s)
  {
    if version <= 1176 && |s| >= 1 {
      assert StateFrom(s, version) == Ok(s[0], s[1..]);
    }
  }

  lemma StateRoundTrip(state: U32, version: Version, t: Bytes)
    requires version <= 1176 ==> state < 0x100
    ensures StateFrom(StateBytes(state, version) + t, version) == Ok(state, t)
  {
    if version <= 1176 {
      U8Write(state, t);
    } else {
      U32Write(state, t);
    }
  }

  lemma HeadRoundTrip(h: ActionHead, t: Bytes)
    requires HeadFits(h)
    ensures ActionHeadFrom(ActionHeadBytes(h) + t) == Ok(h, t)
  {
    var (x, y, z) := h.targetPosition;
    var t10 := E8(h.subActionValue) + t;
    var t9 := EOptU16(h.taskId) + t10;
    var t8 := E8(h.targetMovedState) + t9;
    var t7 := E32(h.timer) + t8;
    var t6 := E32(z) + t7;
    var t5 := E32(y) + t6;
    var t4 := E32(x) + t5;
    var t3 := EOptU32(h.targetObjectId2) + t4;
    var t2 := EOptU32(h.targetObjectId) + t3;
    var t1 := E32(0) + t2;
    assert ActionHeadBytes(h) + t == E32(0) + t1 by {
      var p1 := E32(0);
      var p2 := p1 + E32(0);
      var p3 := p2 + EOptU32(h.targetObjectId);
      var p4 := p3 + EOptU32(h.targetObjectId2);
      var p5 := p4 + E32(x);
      var p6 := p5 + E32(y);
      var p7 := p6 + E32(z);
      var p8 := p7 + E32(h.timer);
      var p9 := p8 + E8(h.targetMovedState);
      var p10 := p9 + EOptU16(h.taskId);
      assert ActionHeadBytes(h) == p10 + E8(h.subActionValue);
      Associate(p10, E8(h.subActionValue), t);
      Associate(p9, EOptU16(h.taskId), t10);
      Associate(p8, E8(h.targetMovedState), t9);
      Associate(p7, E32(h.timer), t8);
      Associate(p6, E32(z), t7);
      Associate(p5, E32(y), t6);
      Associate(p4, E32(x), t5);
      Associate(p3, EOptU32(h.targetObjectId2), t4);
      Associate(p2, EOptU32(h.targetObjectId), t3);
      Associate(p1, E32(0), t2);
    }
    U32Write(0, t1);
    U32Write(0, t2);
    OptU32Write(h.targetObjectId, t3);
    OptU32Write(h.targetObjectId2, t4);
    F32Write(x, t5);
    F32Write(y, t6);
    F32Write(z, t7);
    F32Write(h.timer, t8);
    U8Write(h.targetMovedState, t9);
    OptU16Write(h.taskId, t10);
    U8Write(h.subActionValue, t);
  }

  lemma TailRoundTrip(a: UnitAction, t: Bytes)
    requires a.spriteId != Some(0xFFFF) && ParamsFit(a.params)
    ensures ActionTailFrom(ActionTailBytes(a) + t, TagOf(a.params)) == Ok((a.spriteId, a.params), t)
  {
    Associate(EOptU16(a.spriteId), ActionTypeBytes(a.params), t);
    OptU16Write(a.spriteId, ActionTypeBytes(a.params) + t);
    ParamsRoundTrip(a.params, t);
  }

  /** The byte image of an action, sub-actions included, reads back as that
      action under its own tag. */
  lemma {:induction false} ActionBodyRoundTrip(a: UnitAction, version: Version, t: Bytes)
    requires Representable(a, version)
    ensures ActionInnerFrom(ActionBodyBytes(a, version) + t, TagOf(a.params), version) == Ok(a, t)
    decreases a, 1
  {
    var state := StateBytes(a.state, version);
    var head := ActionHeadBytes(a.head);
    var subs := ActionListBytes(a.subActions, version);
    var t3 := ActionTailBytes(a) + t;
    var t2 := subs + t3;
    var t1 := head + t2;
    assert ActionBodyBytes(a, version) + t == state + t1 by {
      Associate(state + head + subs, ActionTailBytes(a), t);
      Associate(state + head, subs, t3);
      Associate(state, head, t2);
    }
    StateRoundTrip(a.state, version, t1);
    HeadRoundTrip(a.head, t2);
    ActionListRoundTrip(a.subActions, version, t3);
    TailRoundTrip(a, t);
  }

  /** A list of representable actions reads back, up to and including its
      0 tag. */
  lemma {:induction false} ActionListRoundTrip(actions: seq<UnitAction>, version: Version, t: Bytes)
    requires forall i :: 0 <= i < |actions| ==> Representable(actions[i], version)
    ensures ActionListFrom(ActionListBytes(actions, version) + t, version) == Ok(actions, t)
    decreases actions, 0
  {
    if actions == [] {
      U16Write(0, t);
    } else {
      ActionBodyRoundTrip(actions[0], version, ActionListBytes(actions[1..], version) + t);
      ActionListRoundTrip(actions[1..], version, t);
      ListConsRoundTrip(actions, version, t);
    }
  }

  /** The step of the list round trip: the first action's tag, its body and
      the rest of the list, each read back. */
  lemma ListConsRoundTrip(actions: seq<UnitAction>, version: Version, t: Bytes)
    requires actions != []
    requires var more := ActionListBytes(actions[1..], version) + t;
             ActionInnerFrom(ActionBodyBytes(actions[0], version) + more,
                             TagOf(actions[0].params), version) == Ok(actions[0], more)
    requires ActionListFrom(ActionListBytes(actions[1..], version) + t, version) == Ok(actions[1..], t)
    ensures ActionListFrom(ActionListBytes(actions, version) + t, version) == Ok(actions, t)
  {
    var a := actions[0];
    var more := ActionListBytes(actions[1..], version) + t;
    var body := ActionBodyBytes(a, version) + more;
    assert ActionListBytes(actions, version) + t == E16(TagOf(a.params)) + body by {
      Associate(E16(TagOf(a.params)) + ActionBodyBytes(a, version),
                ActionListBytes(actions[1..], version), t);
      Associate(E16(TagOf(a.params)), ActionBodyBytes(a, version), more);
    }
    var s := E16(TagOf(a.params)) + body;
    U16Write(TagOf(a.params), body);
    ListStep(s, version);
    HeadTail(actions);
  }

  /** Whatever the decoder yields is representable, and its payload variant
      is the one its tag names; with the round trip above, decoding is onto
      the representable actions. */
  lemma {:induction false} InnerRepresentable(s: Bytes, tag: U16, version: Version)
    requires ActionInnerFrom(s, tag, version).Ok?
    ensures Representable(ActionInnerFrom(s, tag, version).value, version)
    decreases |s|, 1
  {
    var state := StateFrom(s, version);
    var head := ActionHeadFrom(state.rest);
    InnerParts(s, tag, version);
    ListRepresentable(head.rest, version);
  }

  /** A decoded action is assembled from its parts, each of which decoded. */
  lemma InnerParts(s: Bytes, tag: U16, version: Version)
    requires ActionInnerFrom(s, tag, version).Ok?
    ensures var state := StateFrom(s, version);
            var head := ActionHeadFrom(state.rest);
            var subs := ActionListFrom(head.rest, version);
            var tail := ActionTailFrom(subs.rest, tag);
            && state.Ok? && head.Ok? && subs.Ok? && tail.Ok?
            && ActionInnerFrom(s, tag, version).value
               == UnitAction(state.value, head.value, subs.value, tail.value.0, tail.value.1)
  {}

  lemma {:induction false} ListRepresentable(s: Bytes, version: Version)
    requires ActionListFrom(s, version).Ok?
    ensures forall i :: 0 <= i < |ActionListFrom(s, version).value| ==>
              Representable(ActionListFrom(s, version).value[i], version)
    decreases |s|, 0
  {
    var tag := U16From(s);
    if tag.value != 0 {
      var a := ActionInnerFrom(tag.rest, tag.value, version);
      InnerRepresentable(tag.rest, tag.value, version);
      ListRepresentable(a.rest, version);
    }
  }

  /** A list stops at the first 0 tag, taking the two tag bytes and nothing more. */
  lemma ListStopsAtZeroTag(s: Bytes, version: Version)
    requires U16From(s).Ok? && U16From(s).value == 0
    ensures ActionListFrom(s, version) == Ok([], s[2..])
  {}

  /** A single action read with `read_from` is never the end of a list: a
      0 tag reaches the tag table and fails there. */
  lemma ZeroTagIsNoTerminator(s: Bytes, version: Version)
    ensures U16From(s).Ok? && U16From(s).value == 0 ==> ActionFrom(s, version).Fail?
  {
  }

  /** One step of the list: a nonzero tag introduces an action, and the list
      goes on after it. */
  lemma ListStep(s: Bytes, version: Version)
    requires U16From(s).Ok? && U16From(s).value != 0
    requires ActionInnerFrom(U16From(s).rest, U16From(s).value, version).Ok?
    ensures var a := ActionInnerFrom(U16From(s).rest, U16From(s).value, version);
            ActionListFrom(s, version) == Prefixed([a.value], ActionListFrom(a.rest, version))
  {}

  // ---------------------------------------------------------------------------
  // The readers on a cursor

  method ReadState(c: Cursor, version: Version) returns (r: Result<U32>)
    modifies c
    ensures r == StateFrom(old(c.rest), version)
    ensures r.Ok? ==> c.rest == r.rest
  {
    if version <= 1176 {
      var b :- c.ReadU8();
      r := Ok(b.v, c.rest);
    } else {
      r := c.ReadU32();
    }
  }

  /** `UnitAction::read_from_inner`. */
  method ReadActionInner(c: Cursor, tag: U16, version: Version) returns (r: Result<UnitAction>)
    modifies c
    ensures r == ActionInnerFrom(old(c.rest), tag, version)
    ensures r.Ok? ==> c.rest == r.rest
    decreases |c.rest|, 1
  {
    var state :- ReadState(c, version);
    var head :- c.ReadRecord(ActionHeadFrom);
    var subs :- ReadActionList(c, version);
    var tail :- c.ReadRecord(s => ActionTailFrom(s, tag));
    r := Ok(UnitAction(state.v, head.v, subs.v, tail.v.0, tail.v.1), c.rest);
  }

  /** `UnitAction::read_list_from`: the loop that pushes actions until a 0 tag. */
  method ReadActionList(c: Cursor, version: Version) returns (r: Result<seq<UnitAction>>)
    modifies c
    ensures r == ActionListFrom(old(c.rest), version)
    ensures r.Ok? ==> c.rest == r.rest
    decreases |c.rest|, 0
  {
    var list := [];
    ghost var s0 := c.rest;
    PrefixedNone(ActionListFrom(s0, version));
    while true
      invariant |c.rest| <= |s0|
      invariant ActionListFrom(s0, version) == Prefixed(list, ActionListFrom(c.rest, version))
      decreases |c.rest|
    {
      ghost var here := c.rest;
      var tag := c.ReadU16();
      if tag.Fail? {
        return Fail(tag.error);
      }
      if tag.value == 0 {
        ListStopsAtZeroTag(here, version);
        assert list + [] == list;
        return Ok(list, c.rest);
      }
      var a := ReadActionInner(c, tag.value, version);
      if a.Fail? {
        return Fail(a.error);
      }
      ListStep(here, version);
      PrefixedTwice(list, [a.value], ActionListFrom(c.rest, version));
      list := list + [a.value];
    }
  }

  /** `UnitAction::read_from`. */
  method ReadAction(c: Cursor, version: Version) returns (r: Result<UnitAction>)
    modifies c
    ensures r == ActionFrom(old(c.rest), version)
    ensures r.Ok? ==> c.rest == r.rest
  {
    var tag :- c.ReadU16();
    r := ReadActionInner(c, tag.v, version);
  }

  // ---------------------------------------------------------------------------
  // The payload writers on a sink

  method WriteMoveTo(o: Sink, m: ActionMoveTo)
    modifies o
    ensures o.out == old(o.out) + ActionMoveToBytes(m)
  {
    o.WriteF32(m.range);
  }

  method WriteEnter(o: Sink, e: ActionEnter)
    modifies o
    ensures o.out == old(o.out) + ActionEnterBytes(e)
  {
    o.WriteU32(e.firstTime);
  }

  method WriteMake(o: Sink, m: ActionMake)
    modifies o
    ensures o.out == old(o.out) + ActionMakeBytes(m)
  {
    o.WriteF32(m.workTimer);
  }
}
