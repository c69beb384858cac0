/** The AI scripts stored in a saved-game header: each AI list is a set of
    rules, each rule holds sixteen command slots split into facts and
    actions, and a fixed-size fact state closes the block. */
module HeaderAI {
  import opened Wire
  import opened Streams

  // ---------------------------------------------------------------------------
  // Commands

  /** A fact or an action of a rule. */
  datatype AICommand = AICommand(commandType: I32, id: U16, parameters: seq<I32>)

  const CommandSize: nat := 24
  const ParameterCount: nat := 4

  /** The four i32 parameters of a command, read into their buffer at once. */
  function ParametersFrom(s: Bytes): (r: Result<seq<I32>>)
    ensures r.Ok? <==> |s| >= 16
    ensures r.Ok? ==> r.rest == s[16..] && |r.value| == ParameterCount
    ensures r.Ok? ==> r.value == SignedWordsLE(s[..16])
  {
    I32sFrom(s, ParameterCount)
  }

  /** `AICommand::read_from`: the type, the id, two skipped bytes and the
      parameters, always 24 bytes. */
  function AICommandFrom(s: Bytes): (r: Result<AICommand>)
    ensures r.Ok? <==> |s| >= CommandSize
    ensures r.Ok? ==> r.rest == s[CommandSize..] && |r.value.parameters| == ParameterCount
    ensures r.Ok? ==> r.value.commandType == I32From(s).value
                      && r.value.id == U16From(s[4..]).value
                      && r.value.parameters == ParametersFrom(s[8..24]).value
  {
    var commandType :- I32From(s);
    var id :- U16From(commandType.rest);
    var padding :- SkipFrom(id.rest, 2);
    assert padding.rest == s[8..];
    var parameters :- ParametersFrom(padding.rest);
    assert s[8..][..16] == s[8..24] == s[8..24][..16];
    Ok(AICommand(commandType.v, id.v, parameters.v), parameters.rest)
  }

  /** A command depends only on its own 24 bytes. */
  lemma CommandPrefix(s: Bytes, m: nat)
    requires CommandSize <= m <= |s|
    ensures AICommandFrom(s[..m]).value == AICommandFrom(s).value
  {
    assert s[..m][4..] == s[4..][..m - 4];
    assert s[..m][8..24] == s[8..24];
  }

  /** n command slots, 24 bytes each. */
  function SlotsFrom(s: Bytes, n: nat): (r: Result<seq<AICommand>>)
    ensures r.Ok? <==> |s| >= n * CommandSize
    ensures r.Ok? ==> r.rest == s[n * CommandSize..] && |r.value| == n
  {
    var r := FixedFrom(s, n, AICommandFrom, CommandSize);
    if r.Ok? then
      ChunksLength(s[..n * CommandSize], n, AICommandFrom, CommandSize);
      r
    else r
  }

  /** Reading the slots one command at a time reads the same commands and
      fails where the slot run is cut short. */
  lemma ManyCommands(s: Bytes, n: nat)
    ensures Many(s, n, AICommandFrom) == SlotsFrom(s, n)
  {
    forall t: Bytes, m: nat | CommandSize <= m <= |t|
      ensures AICommandFrom(t[..m]).value == AICommandFrom(t).value
    {
      CommandPrefix(t, m);
    }
    ManyFixed(s, n, AICommandFrom, CommandSize);
  }

  // ---------------------------------------------------------------------------
  // Rules

  datatype AIListRule = AIListRule(
    inUse: bool, enable: bool, ruleId: U16, nextInGroup: U16,
    facts: seq<AICommand>, actions: seq<AICommand>)

  /** The number of command slots every rule stores. */
  const RuleSlots: nat := 16
  const RuleHeadSize: nat := 16
  const RuleSize: nat := 400

  /** The rule's flags, ids and the two slot counts, followed by an ignored
      u16. */
  function RuleHeadFrom(s: Bytes): (r: Result<(bool, bool, U16, U16, Byte, Byte)>)
    ensures r.Ok? <==> |s| >= RuleHeadSize
    ensures r.Ok? ==> r.rest == s[RuleHeadSize..]
    ensures r.Ok? ==> r.value.4 == s[12] && r.value.5 == s[13]
  {
    var inUse :- U32From(s);
    var enable :- U32From(inUse.rest);
    var ruleId :- U16From(enable.rest);
    var next :- U16From(ruleId.rest);
    assert enable.rest == s[8..];
    assert next.rest == s[12..];
    var numFacts :- U8From(next.rest);
    var numFactsActions :- U8From(numFacts.rest);
    assert numFacts.v == s[12] && numFactsActions.v == s[13];
    var ignored :- U16From(numFactsActions.rest);
    Ok((inUse.v != 0, enable.v != 0, ruleId.v, next.v, numFacts.v, numFactsActions.v),
       ignored.rest)
  }

  /** The slots seen so far, sorted as the reading loop sorts them: slot i is
      a fact when i < numFacts, an action when numFacts <= i < numFactsActions,
      and dropped otherwise. */
  function Distribute(slots: seq<AICommand>, numFacts: nat, numFactsActions: nat)
    : (seq<AICommand>, seq<AICommand>)
    decreases |slots|
  {
    if slots == [] then ([], [])
    else
      var i := |slots| - 1;
      var (facts, actions) := Distribute(slots[..i], numFacts, numFactsActions);
      if i < numFacts then (facts + [slots[i]], actions)
      else if i < numFactsActions then (facts, actions + [slots[i]])
      else (facts, actions)
  }

  /** One more slot joins the facts, the actions or neither, by its index. */
  lemma DistributeNext(seen: seq<AICommand>, cmd: AICommand, numFacts: nat, numFactsActions: nat)
    ensures var (facts, actions) := Distribute(seen, numFacts, numFactsActions);
            var i := |seen|;
            Distribute(seen + [cmd], numFacts, numFactsActions)
            == if i < numFacts then (facts + [cmd], actions)
               else if i < numFactsActions then (facts, actions + [cmd])
               else (facts, actions)
  {
    assert (seen + [cmd])[..|seen|] == seen;
  }

  function Min(a: nat, b: nat): nat { if a <= b then a else b }
  function Max(a: nat, b: nat): nat { if a <= b then b else a }

  /** The facts are the first numFacts slots and the actions the slots from
      numFacts up to numFactsActions, in slot order; every other slot is
      discarded. */
  lemma {:induction false} DistributeSlices(slots: seq<AICommand>, numFacts: nat, numFactsActions: nat)
    ensures var f := Min(numFacts, |slots|);
            var a := Max(f, Min(numFactsActions, |slots|));
            Distribute(slots, numFacts, numFactsActions) == (slots[..f], slots[f..a])
    decreases |slots|
  {
    if slots != [] {
      var i := |slots| - 1;
      var init := slots[..i];
      DistributeSlices(init, numFacts, numFactsActions);
      var (facts, actions) := Distribute(init, numFacts, numFactsActions);
      var f0 := Min(numFacts, i);
      var a0 := Max(f0, Min(numFactsActions, i));
      assert facts == slots[..f0] by { assert init[..f0] == slots[..f0]; }
      assert actions == slots[f0..a0] by { assert init[f0..a0] == slots[f0..a0]; }
      var f := Min(numFacts, i + 1);
      var a := Max(f, Min(numFactsActions, i + 1));
      if i < numFacts {
        assert f0 == a0 == i && f == a == i + 1;
        assert Distribute(slots, numFacts, numFactsActions) == (facts + [slots[i]], actions);
        assert slots[..f0] + [slots[i]] == slots[..f];
        assert slots[f0..a0] == [] == slots[f..a];
      } else if i < numFactsActions {
        assert f == f0 && a0 == i && a == i + 1;
        assert Distribute(slots, numFacts, numFactsActions) == (facts, actions + [slots[i]]);
        assert slots[f0..a0] + [slots[i]] == slots[f..a];
      } else {
        assert f == f0 && a == a0;
        assert Distribute(slots, numFacts, numFactsActions) == (facts, actions);
      }
    }
  }

  /** `AIListRule::read_from`: the head, then all sixteen commands, kept or
      dropped by their slot index. */
  function RuleFrom(s: Bytes): (r: Result<AIListRule>)
    ensures r.Ok? <==> |s| >= RuleSize
    ensures r.Ok? ==> r.rest == s[RuleSize..]
  {
    var head :- RuleHeadFrom(s);
    var (inUse, enable, ruleId, next, numFacts, numFactsActions) := head.v;
    var kept :- KeptSlotsFrom(head.rest, numFacts, numFactsActions);
    assert kept.rest == s[RuleSize..];
    var (facts, actions) := kept.v;
    Ok(AIListRule(inUse, enable, ruleId, next, facts, actions), kept.rest)
  }

  /** The sixteen slots after a rule's head, sorted into facts and actions. */
  function KeptSlotsFrom(s: Bytes, numFacts: nat, numFactsActions: nat)
    : (r: Result<(seq<AICommand>, seq<AICommand>)>)
    ensures r.Ok? <==> |s| >= 384
    ensures r.Ok? ==> r.rest == s[384..]
  {
    var slots :- SlotsFrom(s, RuleSlots);
    Ok(Distribute(slots.v, numFacts, numFactsActions), slots.rest)
  }

  /** The slots of a rule, as they appear after its head. */
  function SlotsOf(s: Bytes): Result<seq<AICommand>> {
    if |s| < RuleHeadSize then Fail(Truncated)
    else SlotsFrom(s[RuleHeadSize..], RuleSlots)
  }

  /** A rule keeps the slots below its fact count as facts and the slots
      from the fact count up to its fact-and-action count as actions, in
      order; at most sixteen commands survive. */
  lemma RuleKeepsSlots(s: Bytes)
    requires |s| >= RuleSize
    ensures var r := RuleFrom(s);
            var slots := SlotsOf(s).value;
            var f := Min(s[12], RuleSlots);
            var a := Max(f, Min(s[13], RuleSlots));
            && r.Ok? && |slots| == RuleSlots
            && r.value.facts == slots[..f] && r.value.actions == slots[f..a]
            && |r.value.facts| + |r.value.actions| <= RuleSlots
  {
    var slots := SlotsFrom(s[RuleHeadSize..], RuleSlots).value;
    DistributeSlices(slots, s[12], s[13]);
  }

  // ---------------------------------------------------------------------------
  // Lists and group tables

  datatype AIList = AIList(inUse: bool, id: I32, maxRules: U16, rules: seq<AIListRule>)

  const ListHeadSize: nat := 16

  /** The list's flag, id, stored maximum and rule count, and an ignored
      u32. */
  function ListHeadFrom(s: Bytes): (r: Result<(bool, I32, U16, U16)>)
    ensures r.Ok? <==> |s| >= ListHeadSize
    ensures r.Ok? ==> r.rest == s[ListHeadSize..]
    ensures r.Ok? ==> r.value.2 == U16From(s[8..]).value && r.value.3 == U16From(s[10..]).value
  {
    var inUse :- U32From(s);
    var id :- I32From(inUse.rest);
    var maxRules :- U16From(id.rest);
    var numRules :- U16From(maxRules.rest);
    var ignored :- U32From(numRules.rest);
    Ok((inUse.v != 0, id.v, maxRules.v, numRules.v), ignored.rest)
  }

  /** `AIList::read_from`: exactly the rule count's rules, whatever the
      stored maximum says. */
  function ListFrom(s: Bytes): (r: Result<AIList>)
    ensures r.Ok? ==> |s| >= ListHeadSize
    ensures r.Ok? ==> |r.value.rules| == U16From(s[10..]).value
                      && r.value.maxRules == U16From(s[8..]).value
  {
    var head :- ListHeadFrom(s);
    var (inUse, id, maxRules, numRules) := head.v;
    var rules :- Many(head.rest, numRules, RuleFrom);
    Ok(AIList(inUse, id, maxRules, rules.v), rules.rest)
  }

  /** A list of n rules takes its head and n full rules. */
  lemma ListConsumes(s: Bytes)
    requires |s| >= ListHeadSize
    ensures var n := U16From(s[10..]).value;
            && (ListFrom(s).Ok? <==> |s| >= ListHeadSize + n * RuleSize)
            && (ListFrom(s).Ok? ==> ListFrom(s).rest == s[ListHeadSize + n * RuleSize..])
  {
    var n := U16From(s[10..]).value;
    var t := s[ListHeadSize..];
    ManyExact(t, n, RuleFrom, RuleSize);
    var head := ListHeadFrom(s);
    assert head.Ok? && head.rest == t && head.value.3 == n;
    var rules := Many(t, n, RuleFrom);
    assert ListFrom(s).Ok? <==> rules.Ok?;
    assert ListFrom(s).Ok? ==> ListFrom(s).rest == rules.rest;
    var m := n * RuleSize;
    if |s| >= ListHeadSize + m {
      assert t[m..] == s[ListHeadSize + m..];
    }
  }

  datatype AIGroupTable = AIGroupTable(maxGroups: U16, groups: seq<U16>)

  /** `AIGroupTable::read_from`: the stored maximum, the group count, an
      ignored u32, then exactly that many u16 groups. */
  function GroupTableFrom(s: Bytes): (r: Result<AIGroupTable>)
    ensures r.Ok? <==> |s| >= 8 && |s| >= 8 + 2 * U16From(s[2..]).value
    ensures r.Ok? ==> var n := U16From(s[2..]).value;
                      |r.value.groups| == n && r.rest == s[8 + 2 * n..]
                      && r.value.maxGroups == U16From(s).value
  {
    var maxGroups :- U16From(s);
    var numGroups :- U16From(maxGroups.rest);
    var ignored :- U32From(numGroups.rest);
    assert ignored.rest == s[8..];
    ManyExact(ignored.rest, numGroups.v, U16From, 2);
    var groups :- Many(ignored.rest, numGroups.v, U16From);
    assert s[8..][2 * numGroups.v..] == s[8 + 2 * numGroups.v..];
    Ok(AIGroupTable(maxGroups.v, groups.v), groups.rest)
  }

  // ---------------------------------------------------------------------------
  // The fact state

  datatype AIFactState = AIFactState(
    saveVersion: F32, version: F32, deathMatch: bool, regicide: bool,
    mapSize: Byte, mapType: Byte, startingResources: Byte, startingAge: Byte,
    cheatsEnabled: bool, difficulty: Byte,
    timers: seq<seq<I32>>, sharedGoals: seq<U32>, signals: seq<U32>,
    triggers: seq<U32>, taunts: seq<seq<I8>>)

  const TimerPlayers: nat := 8
  const TimersPerPlayer: nat := 10
  const WordTableSize: nat := 256
  const TauntPlayers: nat := 8
  const TauntsPerPlayer: nat := 256
  // The byte sizes: ten i32 timers per player, 256 four-byte words per
  // table, 256 one-byte taunts per player.
  const TimerRowSize: nat := 40
  const TimersSize: nat := 320
  const WordTableBytes: nat := 1024
  const TauntsSize: nat := 2048
  const FactHeadSize: nat := 40
  const FactTablesSize: nat := 5440
  const FactStateSize: nat := 5480

  /** A u32 field stored into a u8: `try_into().unwrap()` panics when the
      value does not fit. */
  function NarrowU8From(s: Bytes): (r: Result<Byte>)
    ensures r.Ok? <==> |s| >= 4 && U32From(s).value < 0x100
    ensures r.Ok? ==> r.rest == s[4..] && r.value == U32From(s).value
  {
    var w :- U32From(s);
    if w.v < 0x100 then Ok(w.v, w.rest) else Fail(OutOfRange)
  }

  /** The map size, map type, starting resources and starting age words,
      the cheats word, and the difficulty word: all but the cheats word must
      fit in a u8. */
  predicate SettingsFit(t: Bytes)
    requires |t| >= 24
  {
    && U32From(t).value < 0x100 && U32From(t[4..]).value < 0x100
    && U32From(t[8..]).value < 0x100 && U32From(t[12..]).value < 0x100
    && U32From(t[20..]).value < 0x100
  }

  /** The fact state's narrowed words, at byte offsets 16, 20, 24, 28 and 36,
      all fit in a u8. */
  predicate NarrowFieldsFit(s: Bytes)
    requires |s| >= FactHeadSize
  {
    SettingsFit(s[16..])
  }

  /** The two versions and the death-match and regicide flags. */
  function FactFlagsFrom(s: Bytes): (r: Result<(F32, F32, bool, bool)>)
    ensures r.Ok? <==> |s| >= 16
    ensures r.Ok? ==> r.rest == s[16..]
  {
    var saveVersion :- F32From(s);
    var version :- F32From(saveVersion.rest);
    var deathMatch :- U32From(version.rest);
    var regicide :- U32From(deathMatch.rest);
    Ok((saveVersion.v, version.v, deathMatch.v != 0, regicide.v != 0), regicide.rest)
  }

  /** The game settings, each narrowed to a u8 but for the cheats flag. */
  function FactSettingsFrom(t: Bytes): (r: Result<(Byte, Byte, Byte, Byte, bool, Byte)>)
    ensures r.Ok? <==> |t| >= 24 && SettingsFit(t)
    ensures r.Ok? ==> r.rest == t[24..]
  {
    var mapSize :- NarrowU8From(t);
    var mapType :- NarrowU8From(mapSize.rest);
    var resources :- NarrowU8From(mapType.rest);
    var age :- NarrowU8From(resources.rest);
    var cheats :- U32From(age.rest);
    var difficulty :- NarrowU8From(cheats.rest);
    Ok((mapSize.v, mapType.v, resources.v, age.v, cheats.v != 0, difficulty.v), difficulty.rest)
  }

  /** The ten leading u32 or f32 fields of the fact state. */
  function FactHeadFrom(s: Bytes)
    : (r: Result<(F32, F32, bool, bool, Byte, Byte, Byte, Byte, bool, Byte)>)
    ensures r.Ok? <==> |s| >= FactHeadSize && NarrowFieldsFit(s)
    ensures r.Ok? ==> r.rest == s[FactHeadSize..]
  {
    var flags :- FactFlagsFrom(s);
    var settings :- FactSettingsFrom(flags.rest);
    assert settings.rest == s[FactHeadSize..];
    var (saveVersion, version, deathMatch, regicide) := flags.v;
    var (mapSize, mapType, resources, age, cheats, difficulty) := settings.v;
    Ok((saveVersion, version, deathMatch, regicide, mapSize, mapType, resources, age, cheats,
        difficulty),
       settings.rest)
  }

  /** A table of 256 u32 words, read into its buffer at once. */
  function WordTableFrom(s: Bytes): (r: Result<seq<U32>>)
    ensures r.Ok? <==> |s| >= WordTableBytes
    ensures r.Ok? ==> r.rest == s[WordTableBytes..] && |r.value| == WordTableSize
  {
    U32sFrom(s, WordTableSize)
  }

  /** A row of w i32 values, read into its buffer at once. */
  function I32RowOf(w: nat): Bytes -> Result<seq<I32>> {
    t => I32sFrom(t, w)
  }

  /** A row of w i8 values, read into its buffer at once. */
  function I8RowOf(w: nat): Bytes -> Result<seq<I8>> {
    t => I8sFrom(t, w)
  }

  /** The timers: a row of ten i32 values for each of eight players. */
  function TimersFrom(s: Bytes): (r: Result<seq<seq<I32>>>)
    ensures r.Ok? <==> |s| >= TimersSize
    ensures r.Ok? ==> r.rest == s[TimersSize..]
    ensures r.Ok? ==> |r.value| == TimerPlayers
                      && forall row :: row in r.value ==> |row| == TimersPerPlayer
  {
    TimersExact(s, TimerPlayers, TimersPerPlayer);
    Many(s, TimerPlayers, I32RowOf(TimersPerPlayer))
  }

  lemma TimersExact(s: Bytes, n: nat, w: nat)
    requires n == TimerPlayers && w == TimersPerPlayer
    ensures var r := Many(s, n, I32RowOf(w));
            && (r.Ok? <==> |s| >= TimersSize)
            && (r.Ok? ==> r.rest == s[TimersSize..] && forall row :: row in r.value ==> |row| == w)
  {
    ManyExact(s, n, I32RowOf(w), TimerRowSize);
    ManyEach(s, n, I32RowOf(w), (row: seq<I32>) => |row| == w);
  }

  /** The taunts: a row of 256 i8 values for each of eight players. */
  function TauntsFrom(s: Bytes): (r: Result<seq<seq<I8>>>)
    ensures r.Ok? <==> |s| >= TauntsSize
    ensures r.Ok? ==> r.rest == s[TauntsSize..]
    ensures r.Ok? ==> |r.value| == TauntPlayers
                      && forall row :: row in r.value ==> |row| == TauntsPerPlayer
  {
    TauntsExact(s, TauntPlayers, TauntsPerPlayer);
    Many(s, TauntPlayers, I8RowOf(TauntsPerPlayer))
  }

  lemma TauntsExact(s: Bytes, n: nat, w: nat)
    requires n == TauntPlayers && w == TauntsPerPlayer
    ensures var r := Many(s, n, I8RowOf(w));
            && (r.Ok? <==> |s| >= TauntsSize)
            && (r.Ok? ==> r.rest == s[TauntsSize..] && forall row :: row in r.value ==> |row| == w)
  {
    ManyExact(s, n, I8RowOf(w), TauntsPerPlayer);
    ManyEach(s, n, I8RowOf(w), (row: seq<I8>) => |row| == w);
  }

  /** The shared goals, the signals and the triggers. */
  function WordTablesFrom(s: Bytes): (r: Result<(seq<U32>, seq<U32>, seq<U32>)>)
    ensures r.Ok? <==> |s| >= 3072
    ensures r.Ok? ==> r.rest == s[3072..]
    ensures r.Ok? ==> |r.value.0| == |r.value.1| == |r.value.2| == WordTableSize
  {
    var goals :- WordTableFrom(s);
    var signals :- WordTableFrom(goals.rest);
    assert signals.rest == s[2048..];
    var triggers :- WordTableFrom(signals.rest);
    assert triggers.rest == s[3072..];
    Ok((goals.v, signals.v, triggers.v), triggers.rest)
  }

  /** The timers, the three word tables and the taunts. */
  function FactTablesFrom(s: Bytes)
    : (r: Result<(seq<seq<I32>>, (seq<U32>, seq<U32>, seq<U32>), seq<seq<I8>>)>)
    ensures r.Ok? <==> |s| >= FactTablesSize
    ensures r.Ok? ==> r.rest == s[FactTablesSize..]
    ensures r.Ok? ==> |r.value.0| == TimerPlayers && |r.value.2| == TauntPlayers
                      && |r.value.1.0| == |r.value.1.1| == |r.value.1.2| == WordTableSize
  {
    var timers :- TimersFrom(s);
    var words :- WordTablesFrom(timers.rest);
    assert words.rest == s[3392..];
    var taunts :- TauntsFrom(words.rest);
    assert taunts.rest == s[5440..];
    Ok((timers.v, words.v, taunts.v), taunts.rest)
  }

  /** `AIFactState::read_from`: always 5480 bytes, failing when one of the
      five narrowed fields does not fit in a u8. */
  function FactStateFrom(s: Bytes): (r: Result<AIFactState>)
    ensures r.Ok? <==> |s| >= FactStateSize && NarrowFieldsFit(s)
    ensures r.Ok? ==> r.rest == s[FactStateSize..]
    ensures r.Ok? ==> |r.value.timers| == TimerPlayers && |r.value.sharedGoals| == WordTableSize
                      && |r.value.signals| == WordTableSize && |r.value.triggers| == WordTableSize
                      && |r.value.taunts| == TauntPlayers
  {
    var head :- FactHeadFrom(s);
    var tables :- FactTablesFrom(head.rest);
    assert s[FactHeadSize..][FactTablesSize..] == s[FactStateSize..];
    var (saveVersion, version, deathMatch, regicide, mapSize, mapType, resources, age,
         cheats, difficulty) := head.v;
    var (timers, (goals, signals, triggers), taunts) := tables.v;
    Ok(AIFactState(saveVersion, version, deathMatch, regicide, mapSize, mapType, resources,
                   age, cheats, difficulty, timers, goals, signals, triggers, taunts),
       tables.rest)
  }

  // ---------------------------------------------------------------------------
  // The scripts block

  /** `string_table` is read by a reader outside this model and kept as its
      raw bytes. */
  datatype AIScripts = AIScripts(
    stringTable: Bytes, lists: seq<AIList>, groups: seq<AIGroupTable>,
    factState: AIFactState)

  /** The string table, then the three u16 maxima, of which only the list
      count is kept. */
  function ScriptsHeadFrom(s: Bytes, stringTable: Bytes -> Option<nat>): (r: Result<(Bytes, U16)>)
    ensures r.Ok? ==> stringTable(s).Some? && stringTable(s).value + 6 <= |s|
    ensures r.Ok? ==> var n := stringTable(s).value;
                      r.value.0 == s[..n] && r.value.1 == U16From(s[n + 4..]).value
                      && r.rest == s[n + 6..]
  {
    var table :- ForeignFrom(s, stringTable(s));
    var maxFacts :- U16From(table.rest);
    var maxActions :- U16From(maxFacts.rest);
    var maxLists :- U16From(maxActions.rest);
    Ok((table.v, maxLists.v), maxLists.rest)
  }

  /** `AIScripts::read_from`: as many group tables as lists, both counted by
      the header's list maximum, then the fact state. */
  function ScriptsFrom(s: Bytes, stringTable: Bytes -> Option<nat>): (r: Result<AIScripts>)
    ensures r.Ok? ==> stringTable(s).Some? && stringTable(s).value + 6 <= |s|
    ensures r.Ok? ==> var n := stringTable(s).value;
                      && r.value.stringTable == s[..n]
                      && |r.value.lists| == |r.value.groups| == U16From(s[n + 4..]).value
  {
    var head :- ScriptsHeadFrom(s, stringTable);
    var (table, maxLists) := head.v;
    var lists :- Many(head.rest, maxLists, ListFrom);
    var groups :- Many(lists.rest, maxLists, GroupTableFrom);
    var factState :- FactStateFrom(groups.rest);
    Ok(AIScripts(table, lists.v, groups.v, factState.v), factState.rest)
  }

  // ---------------------------------------------------------------------------
  // The readers on a cursor

  /** `AICommand::read_from`. */
  method ReadAICommand(c: Cursor) returns (r: Result<AICommand>)
    modifies c
    ensures r == AICommandFrom(old(c.rest))
    ensures r.Ok? ==> c.rest == r.rest
  {
    var commandType :- c.ReadI32();
    var id :- c.ReadU16();
    var padding :- c.Skip(2);
    var parameters := new I32[ParameterCount](_ => 0);
    ManyI32s(c.rest, parameters.Length);
    var filled := c.ReadI32Into(parameters);
    if filled.Fail? {
      return Fail(filled.error);
    }
    r := Ok(AICommand(commandType.v, id.v, parameters[..]), c.rest);
  }

  /** `AIListRule::read_from`: a loop over the sixteen slots that reads each
      command and pushes it onto the facts, the actions or neither. */
  method ReadRule(c: Cursor) returns (r: Result<AIListRule>)
    modifies c
    ensures r == RuleFrom(old(c.rest))
    ensures r.Ok? ==> c.rest == r.rest
  {
    var head :- c.ReadRecord(RuleHeadFrom);
    var (inUse, enable, ruleId, next, numFacts, numFactsActions) := head.v;
    var kept :- ReadKeptSlots(c, numFacts, numFactsActions);
    var (facts, actions) := kept.v;
    r := Ok(AIListRule(inUse, enable, ruleId, next, facts, actions), c.rest);
  }

  /** The loop over the sixteen slots: each command read is pushed onto the
      facts when its index is below the fact count, onto the actions when it
      is below the fact-and-action count, and dropped otherwise. */
  method ReadKeptSlots(c: Cursor, numFacts: Byte, numFactsActions: Byte)
    returns (r: Result<(seq<AICommand>, seq<AICommand>)>)
    modifies c
    ensures r == KeptSlotsFrom(old(c.rest), numFacts, numFactsActions)
    ensures r.Ok? ==> c.rest == r.rest
  {
    ghost var s0 := c.rest;
    ghost var n := RuleSlots;
    ghost var seen: seq<AICommand> := [];
    var facts: seq<AICommand> := [];
    var actions: seq<AICommand> := [];
    ManyCommands(s0, n);
    ResumesStart(s0, n, AICommandFrom);
    for i := 0 to RuleSlots
      invariant |seen| == i
      invariant Resumes(s0, n, AICommandFrom, seen, c.rest)
      invariant (facts, actions) == Distribute(seen, numFacts, numFactsActions)
    {
      ResumesNext(s0, n, AICommandFrom, seen, c.rest);
      var cmd :- ReadAICommand(c);
      DistributeNext(seen, cmd.v, numFacts, numFactsActions);
      if i < numFacts {
        facts := facts + [cmd.v];
      } else if i < numFactsActions {
        actions := actions + [cmd.v];
      }
      seen := seen + [cmd.v];
    }
    ResumesDone(s0, n, AICommandFrom, seen, c.rest);
    r := Ok((facts, actions), c.rest);
  }

  /** `AIList::read_from`. */
  method ReadList(c: Cursor) returns (r: Result<AIList>)
    modifies c
    ensures r == ListFrom(old(c.rest))
    ensures r.Ok? ==> c.rest == r.rest
  {
    var head :- c.ReadRecord(ListHeadFrom);
    var (inUse, id, maxRules, numRules) := head.v;
    var rules :- ReadMany(c, numRules, RuleFrom);
    r := Ok(AIList(inUse, id, maxRules, rules.v), c.rest);
  }

  /** `AIGroupTable::read_from`. */
  method ReadGroupTable(c: Cursor) returns (r: Result<AIGroupTable>)
    modifies c
    ensures r == GroupTableFrom(old(c.rest))
    ensures r.Ok? ==> c.rest == r.rest
  {
    var maxGroups :- c.ReadU16();
    var numGroups :- c.ReadU16();
    var ignored :- c.ReadU32();
    var groups :- ReadMany(c, numGroups.v, U16From);
    r := Ok(AIGroupTable(maxGroups.v, groups.v), c.rest);
  }

  /** `read_u32()?.try_into().unwrap()` into a u8. */
  method ReadNarrowU8(c: Cursor) returns (r: Result<Byte>)
    modifies c
    ensures r == NarrowU8From(old(c.rest))
    ensures r.Ok? ==> c.rest == r.rest
  {
    var w :- c.ReadU32();
    if w.v >= 0x100 {
      return Fail(OutOfRange);
    }
    r := Ok(w.v, c.rest);
  }

  method ReadFactHead(c: Cursor)
    returns (r: Result<(F32, F32, bool, bool, Byte, Byte, Byte, Byte, bool, Byte)>)
    modifies c
    ensures r == FactHeadFrom(old(c.rest))
    ensures r.Ok? ==> c.rest == r.rest
  {
    var flags :- ReadFactFlags(c);
    var settings :- ReadFactSettings(c);
    var (saveVersion, version, deathMatch, regicide) := flags.v;
    var (mapSize, mapType, resources, age, cheats, difficulty) := settings.v;
    r := Ok((saveVersion, version, deathMatch, regicide, mapSize, mapType, resources, age,
             cheats, difficulty),
            c.rest);
  }

  method ReadFactFlags(c: Cursor) returns (r: Result<(F32, F32, bool, bool)>)
    modifies c
    ensures r == FactFlagsFrom(old(c.rest))
    ensures r.Ok? ==> c.rest == r.rest
  {
    var saveVersion :- c.ReadF32();
    var version :- c.ReadF32();
    var deathMatch :- c.ReadU32();
    var regicide :- c.ReadU32();
    r := Ok((saveVersion.v, version.v, deathMatch.v != 0, regicide.v != 0), c.rest);
  }

  method ReadFactSettings(c: Cursor) returns (r: Result<(Byte, Byte, Byte, Byte, bool, Byte)>)
    modifies c
    ensures r == FactSettingsFrom(old(c.rest))
    ensures r.Ok? ==> c.rest == r.rest
  {
    var mapSize :- ReadNarrowU8(c);
    var mapType :- ReadNarrowU8(c);
    var resources :- ReadNarrowU8(c);
    var age :- ReadNarrowU8(c);
    var cheats :- c.ReadU32();
    var difficulty :- ReadNarrowU8(c);
    r := Ok((mapSize.v, mapType.v, resources.v, age.v, cheats.v != 0, difficulty.v), c.rest);
  }

  /** `read_i32_into` on one row of w values. */
  method ReadI32Row(c: Cursor, w: nat) returns (r: Result<seq<I32>>)
    modifies c
    ensures r == I32sFrom(old(c.rest), w)
    ensures r.Ok? ==> c.rest == r.rest
  {
    var row := new I32[w](_ => 0);
    ManyI32s(c.rest, row.Length);
    var filled := c.ReadI32Into(row);
    if filled.Fail? {
      return Fail(filled.error);
    }
    r := Ok(row[..], c.rest);
  }

  /** `for row in rows.iter_mut() { read_i32_into(row) }` over n rows of
      w values each. */
  method ReadI32Rows(c: Cursor, n: nat, w: nat) returns (r: Result<seq<seq<I32>>>)
    modifies c
    ensures r == Many(old(c.rest), n, I32RowOf(w))
    ensures r.Ok? ==> c.rest == r.rest
  {
    ghost var s0 := c.rest;
    var rows := new seq<I32>[n](_ => []);
    var i := 0;
    ResumesStart(s0, n, I32RowOf(w));
    while i < n
      invariant 0 <= i <= n
      invariant Resumes(s0, n, I32RowOf(w), rows[..i], c.rest)
    {
      ghost var done := rows[..i];
      ResumesNext(s0, n, I32RowOf(w), done, c.rest);
      var row :- ReadI32Row(c, w);
      rows[i] := row.v;
      assert rows[..i + 1] == done + [row.v];
      i := i + 1;
    }
    assert rows[..i] == rows[..];
    ResumesDone(s0, n, I32RowOf(w), rows[..], c.rest);
    r := Ok(rows[..], c.rest);
  }

  /** `read_i8_into` on one row of w values. */
  method ReadI8Row(c: Cursor, w: nat) returns (r: Result<seq<I8>>)
    modifies c
    ensures r == I8sFrom(old(c.rest), w)
    ensures r.Ok? ==> c.rest == r.rest
  {
    var row := new I8[w](_ => 0);
    ManyI8s(c.rest, row.Length);
    var filled := c.ReadI8Into(row);
    if filled.Fail? {
      return Fail(filled.error);
    }
    r := Ok(row[..], c.rest);
  }

  /** `for row in rows.iter_mut() { read_i8_into(row) }` over n rows of
      w values each. */
  method ReadI8Rows(c: Cursor, n: nat, w: nat) returns (r: Result<seq<seq<I8>>>)
    modifies c
    ensures r == Many(old(c.rest), n, I8RowOf(w))
    ensures r.Ok? ==> c.rest == r.rest
  {
    ghost var s0 := c.rest;
    var rows := new seq<I8>[n](_ => []);
    var i := 0;
    ResumesStart(s0, n, I8RowOf(w));
    while i < n
      invariant 0 <= i <= n
      invariant Resumes(s0, n, I8RowOf(w), rows[..i], c.rest)
    {
      ghost var done := rows[..i];
      ResumesNext(s0, n, I8RowOf(w), done, c.rest);
      var row :- ReadI8Row(c, w);
      rows[i] := row.v;
      assert rows[..i + 1] == done + [row.v];
      i := i + 1;
    }
    assert rows[..i] == rows[..];
    ResumesDone(s0, n, I8RowOf(w), rows[..], c.rest);
    r := Ok(rows[..], c.rest);
  }

  /** `read_u32_into` on a 256-word table. */
  method ReadWordTable(c: Cursor) returns (r: Result<seq<U32>>)
    modifies c
    ensures r == WordTableFrom(old(c.rest))
    ensures r.Ok? ==> c.rest == r.rest
  {
    r := ReadU32s(c, WordTableSize);
  }

  /** Three consecutive `read_u32_into` calls. */
  method ReadWordTables(c: Cursor) returns (r: Result<(seq<U32>, seq<U32>, seq<U32>)>)
    modifies c
    ensures r == WordTablesFrom(old(c.rest))
    ensures r.Ok? ==> c.rest == r.rest
  {
    var goals :- ReadWordTable(c);
    var signals :- ReadWordTable(c);
    var triggers :- ReadWordTable(c);
    r := Ok((goals.v, signals.v, triggers.v), c.rest);
  }

  method ReadFactTables(c: Cursor)
    returns (r: Result<(seq<seq<I32>>, (seq<U32>, seq<U32>, seq<U32>), seq<seq<I8>>)>)
    modifies c
    ensures r == FactTablesFrom(old(c.rest))
    ensures r.Ok? ==> c.rest == r.rest
  {
    var timers :- ReadI32Rows(c, TimerPlayers, TimersPerPlayer);
    var words :- ReadWordTables(c);
    var taunts :- ReadI8Rows(c, TauntPlayers, TauntsPerPlayer);
    r := Ok((timers.v, words.v, taunts.v), c.rest);
  }

  /** `AIFactState::read_from`. */
  method ReadFactState(c: Cursor) returns (r: Result<AIFactState>)
    modifies c
    ensures r == FactStateFrom(old(c.rest))
    ensures r.Ok? ==> c.rest == r.rest
  {
    var head :- ReadFactHead(c);
    var tables :- ReadFactTables(c);
    var (saveVersion, version, deathMatch, regicide, mapSize, mapType, resources, age,
         cheats, difficulty) := head.v;
    var (timers, (goals, signals, triggers), taunts) := tables.v;
    r := Ok(AIFactState(saveVersion, version, deathMatch, regicide, mapSize, mapType,
                        resources, age, cheats, difficulty, timers, goals, signals,
                        triggers, taunts),
            c.rest);
  }

  /** `AIScripts::read_from`. */
  method ReadScripts(c: Cursor, stringTable: Bytes -> Option<nat>) returns (r: Result<AIScripts>)
    modifies c
    ensures r == ScriptsFrom(old(c.rest), stringTable)
    ensures r.Ok? ==> c.rest == r.rest
  {
    var table :- c.ReadForeign(stringTable(c.rest));
    var maxFacts :- c.ReadU16();
    var maxActions :- c.ReadU16();
    var maxLists :- c.ReadU16();
    var lists :- ReadMany(c, maxLists.v, ListFrom);
    var groups :- ReadMany(c, maxLists.v, GroupTableFrom);
    var factState :- ReadFactState(c);
    r := Ok(AIScripts(table.v, lists.v, groups.v, factState.v), c.rest);
  }
}
