/** The header of a recorded game: the game and save versions, the AI
    scripts when the game has them, the world clock, the campaign settings,
    the map, the particle system, the players, the scenario and the blocks
    later save versions append. Every gate is on the save version, kept here
    in hundredths (see `Wire.Floats`). */
module SaveHeader {
  import opened Wire
  import opened Streams
  import opened UnitActions
  import opened UnitStatic
  import opened HeaderAI

  // ---------------------------------------------------------------------------
  // Particles

  datatype Particle = Particle(
    start: U32, facet: U32, update: U32, spriteId: SpriteId, location: Position3,
    flags: Byte)

  const ParticleSize: nat := 27

  /** `Particle::read_from`: three u32 times, the sprite, the location and a
      flag byte. */
  function ParticleFrom(s: Bytes): (r: Result<Particle>)
    ensures r.Ok? <==> |s| >= ParticleSize
    ensures r.Ok? ==> r.rest == s[ParticleSize..]
    ensures r.Ok? ==> r.value.start == U32From(s).value && r.value.facet == U32From(s[4..]).value
                      && r.value.update == U32From(s[8..]).value
                      && r.value.spriteId == U16From(s[12..]).value && r.value.flags == s[26]
  {
    var start :- U32From(s);
    var facet :- U32From(start.rest);
    var update :- U32From(facet.rest);
    assert facet.rest == s[8..] && update.rest == s[12..];
    var spriteId :- U16From(update.rest);
    var location :- Position3From(spriteId.rest);
    assert location.rest == s[26..];
    var flags :- U8From(location.rest);
    Ok(Particle(start.v, facet.v, update.v, spriteId.v, location.v, flags.v), flags.rest)
  }

  datatype ParticleSystem = ParticleSystem(worldTime: U32, particles: seq<Particle>)

  /** `ParticleSystem::read_from`: the world time, then a u32 count and
      exactly that many particles. */
  function ParticleSystemFrom(s: Bytes): (r: Result<ParticleSystem>)
    ensures r.Ok? ==> |s| >= 8 && r.value.worldTime == U32From(s).value
                      && |r.value.particles| == U32From(s[4..]).value
  {
    var worldTime :- U32From(s);
    var particles :- Counted(worldTime.rest, ParticleFrom);
    Ok(ParticleSystem(worldTime.v, particles.v), particles.rest)
  }

  /** A system of n particles takes 8 + 27 n bytes: it reads exactly when
      that many remain, and leaves the bytes after them. */
  lemma ParticleSystemConsumes(s: Bytes)
    requires |s| >= 8
    ensures var n := U32From(s[4..]).value;
            && (ParticleSystemFrom(s).Ok? <==> |s| >= 8 + n * ParticleSize)
            && (ParticleSystemFrom(s).Ok? ==>
                  ParticleSystemFrom(s).rest == s[8 + n * ParticleSize..])
  {
    var n := U32From(s[4..]).value;
    var t := s[8..];
    assert U32From(s[4..]).rest == t;
    ManyExact(t, n, ParticleFrom, ParticleSize);
    assert Counted(s[4..], ParticleFrom) == Many(t, n, ParticleFrom);
    if |s| >= 8 + n * ParticleSize {
      assert t[n * ParticleSize..] == s[8 + n * ParticleSize..];
    }
  }

  method ReadParticleSystem(c: Cursor) returns (r: Result<ParticleSystem>)
    modifies c
    ensures r == ParticleSystemFrom(old(c.rest))
    ensures r.Ok? ==> c.rest == r.rest
  {
    var worldTime :- c.ReadU32();
    var particles :- ReadCounted(c, ParticleFrom);
    r := Ok(ParticleSystem(worldTime.v, particles.v), c.rest);
  }

  // ---------------------------------------------------------------------------
  // The records read by code outside this model

  /** A player's record and the information block read for it in a second
      pass, both kept as raw bytes. */
  datatype Player = Player(data: Bytes, info: Bytes)

  /** The readers of the game version, the string table, the map, a player,
      a player's information block and the scenario, each known by the
      number of bytes it takes (None when it fails); the player reader also
      receives the save version and the player count as a byte. `fl` holds
      the float comparisons. */
  datatype Readers = Readers(
    gameVersion: Bytes -> Option<nat>,
    stringTable: Bytes -> Option<nat>,
    mapReader: Bytes -> Option<nat>,
    player: (Bytes, F32, Byte) -> Option<nat>,
    playerInfo: (Bytes, F32) -> Option<nat>,
    scenario: Bytes -> Option<nat>,
    fl: Floats)

  function PlayerOf(rd: Readers, saveVersion: F32, count: Byte): Bytes -> Result<Bytes> {
    t => ForeignFrom(t, rd.player(t, saveVersion, count))
  }

  function PlayerInfoOf(rd: Readers, saveVersion: F32): Bytes -> Result<Bytes> {
    t => ForeignFrom(t, rd.playerInfo(t, saveVersion))
  }

  /** Pairs each player record with its information block. */
  function Zip(datas: seq<Bytes>, infos: seq<Bytes>): (ps: seq<Player>)
    requires |datas| == |infos|
    ensures |ps| == |datas|
    ensures forall i :: 0 <= i < |ps| ==> ps[i] == Player(datas[i], infos[i])
  {
    seq(|datas|, i requires 0 <= i < |datas| => Player(datas[i], infos[i]))
  }

  /** `num_players` player records, each given the count truncated to a
      byte, then the information blocks in a second pass in the same order. */
  function PlayersFrom(s: Bytes, rd: Readers, saveVersion: F32, n: U16): (r: Result<seq<Player>>)
    ensures r.Ok? ==> |r.value| == n
    ensures r.Ok? ==>
              var datas := Many(s, n, PlayerOf(rd, saveVersion, n % 0x100));
              && datas.Ok?
              && var infos := Many(datas.rest, n, PlayerInfoOf(rd, saveVersion));
              && infos.Ok? && r.rest == infos.rest
              && forall i :: 0 <= i < n ==>
                   r.value[i].data == datas.value[i] && r.value[i].info == infos.value[i]
  {
    var datas :- Many(s, n, PlayerOf(rd, saveVersion, n % 0x100));
    var infos :- Many(datas.rest, n, PlayerInfoOf(rd, saveVersion));
    Ok(Zip(datas.v, infos.v), infos.rest)
  }

  /** The two player passes: push each record, then update each pushed
      record in place with its information block. */
  method ReadPlayers(c: Cursor, rd: Readers, saveVersion: F32, n: U16) returns (r: Result<seq<Player>>)
    modifies c
    ensures r == PlayersFrom(old(c.rest), rd, saveVersion, n)
    ensures r.Ok? ==> c.rest == r.rest
  {
    var datas :- ReadMany(c, n, PlayerOf(rd, saveVersion, n % 0x100));
    var players := new Player[n]((i: int) requires 0 <= i < n => Player(datas.v[i], []));
    ghost var s1 := c.rest;
    ghost var infos: seq<Bytes> := [];
    ResumesStart(s1, n, PlayerInfoOf(rd, saveVersion));
    for i := 0 to n
      invariant |infos| == i
      invariant Resumes(s1, n, PlayerInfoOf(rd, saveVersion), infos, c.rest)
      invariant forall j :: 0 <= j < n ==> players[j].data == datas.v[j]
      invariant forall j :: 0 <= j < i ==> players[j].info == infos[j]
    {
      ResumesNext(s1, n, PlayerInfoOf(rd, saveVersion), infos, c.rest);
      var info :- c.ReadRecord(PlayerInfoOf(rd, saveVersion));
      players[i] := players[i].(info := info.v);
      infos := infos + [info.v];
    }
    ResumesDone(s1, n, PlayerInfoOf(rd, saveVersion), infos, c.rest);
    assert players[..] == Zip(datas.v, infos);
    r := Ok(players[..], c.rest);
  }

  // ---------------------------------------------------------------------------
  // The front of the header

  /** The game version, the save version and, when the u32 after them is
      nonzero, the AI scripts. */
  function StartFrom(s: Bytes, rd: Readers): (r: Result<(Bytes, F32, Option<AIScripts>)>)
    ensures r.Ok? ==> rd.gameVersion(s).Some? && rd.gameVersion(s).value + 8 <= |s|
    ensures r.Ok? ==>
              var n := rd.gameVersion(s).value;
              && r.value.0 == s[..n] && r.value.1 == U32From(s[n..]).value
              && (r.value.2.Some? <==> U32From(s[n + 4..]).value != 0)
              && (r.value.2.None? ==> r.rest == s[n + 8..])
    ensures (rd.gameVersion(s).Some? && rd.gameVersion(s).value + 8 <= |s|
             && U32From(s[rd.gameVersion(s).value + 4..]).value == 0) ==> r.Ok?
  {
    var gameVersion :- ForeignFrom(s, rd.gameVersion(s));
    var saveVersion :- F32From(gameVersion.rest);
    var includesAI :- U32From(saveVersion.rest);
    assert saveVersion.rest == s[|gameVersion.v| + 4..];
    if includesAI.v != 0 then
      var scripts :- ScriptsFrom(includesAI.rest, rd.stringTable);
      Ok((gameVersion.v, saveVersion.v, Some(scripts.v)), scripts.rest)
    else
      Ok((gameVersion.v, saveVersion.v, None), includesAI.rest)
  }

  /** The world clock, the object ids, the random seeds and the current
      player, 47 bytes that are read and discarded, then the u16 player
      count. */
  function ClockFrom(s: Bytes): (r: Result<U16>)
    ensures r.Ok? <==> |s| >= 49
    ensures r.Ok? ==> r.rest == s[49..] && r.value == U16From(s[47..]).value
  {
    var discarded :- SkipFrom(s, 47);
    var numPlayers :- U16From(discarded.rest);
    Ok(numPlayers.v, numPlayers.rest)
  }

  /** The campaign settings, all discarded by the header: the aegis and
      cheat flags, the game mode, the campaign, its player and scenario, and
      the king-campaign fields. */
  datatype Campaign = Campaign(
    aegisCheats: Option<(bool, bool)>, gameMode: Byte, campaign: U32,
    campaignPlayer: U32, campaignScenario: U32, kingCampaign: Option<(U32, Byte, Byte)>)

  function FlagPairFrom(s: Bytes): (r: Result<(bool, bool)>)
    ensures r.Ok? <==> |s| >= 2
    ensures r.Ok? ==> r.rest == s[2..] && r.value == (s[0] != 0, s[1] != 0)
  {
    var aegis :- BoolFrom(s);
    var cheats :- BoolFrom(aegis.rest);
    Ok((aegis.v, cheats.v), cheats.rest)
  }

  function KingFrom(s: Bytes): (r: Result<(U32, Byte, Byte)>)
    ensures r.Ok? <==> |s| >= 6
    ensures r.Ok? ==> r.rest == s[6..] && r.value.1 == s[4] && r.value.2 == s[5]
    ensures r.Ok? ==> r.value.0 == U32From(s).value
  {
    var campaign :- U32From(s);
    var player :- U8From(campaign.rest);
    var scenario :- U8From(player.rest);
    Ok((campaign.v, player.v, scenario.v), scenario.rest)
  }

  function CampaignIdsFrom(s: Bytes): (r: Result<(Byte, U32, U32, U32)>)
    ensures r.Ok? <==> |s| >= 13
    ensures r.Ok? ==> r.rest == s[13..] && r.value.0 == s[0]
  {
    var mode :- U8From(s);
    var campaign :- U32From(mode.rest);
    var player :- U32From(campaign.rest);
    var scenario :- U32From(player.rest);
    Ok((mode.v, campaign.v, player.v, scenario.v), scenario.rest)
  }

  /** The bytes the campaign settings take at save version v. */
  function CampaignSize(v: Version): nat {
    (if v >= 1176 then 2 else 0) + 13 + (if v >= 1013 then 6 else 0)
  }

  /** The aegis and cheat flags only from 11.76, the king-campaign fields
      only from 10.13. */
  function CampaignFrom(s: Bytes, v: Version): (r: Result<Campaign>)
    ensures r.Ok? <==> |s| >= CampaignSize(v)
    ensures r.Ok? ==> r.rest == s[CampaignSize(v)..]
    ensures r.Ok? ==> (r.value.aegisCheats.Some? <==> v >= 1176)
                      && (r.value.kingCampaign.Some? <==> v >= 1013)
                      && r.value.gameMode == s[if v >= 1176 then 2 else 0]
  {
    var flags :- GatedFrom(s, v >= 1176, FlagPairFrom);
    assert flags.rest == s[if v >= 1176 then 2 else 0..];
    var ids :- CampaignIdsFrom(flags.rest);
    var king :- GatedFrom(ids.rest, v >= 1013, KingFrom);
    var (mode, campaign, player, scenario) := ids.v;
    Ok(Campaign(flags.v, mode, campaign, player, scenario, king.v), king.rest)
  }

  /** The player turn, discarded, then the nine per-player time deltas. */
  function TurnFrom(s: Bytes): (r: Result<seq<U32>>)
    ensures r.Ok? <==> |s| >= 40
    ensures r.Ok? ==> r.rest == s[40..] && |r.value| == 9
    ensures r.Ok? ==> forall k :: 0 <= k < 9 ==> r.value[k] == U32From(s[4 + 4 * k..]).value
  {
    var turn :- SkipFrom(s, 4);
    U32sFrom(turn.rest, 9)
  }

  /** The clock, the campaign and the turn; only the player count is kept. */
  function CountsFrom(s: Bytes, v: Version): (r: Result<U16>)
    ensures r.Ok? <==> |s| >= 49 + CampaignSize(v) + 40
    ensures r.Ok? ==> r.rest == s[49 + CampaignSize(v) + 40..] && r.value == U16From(s[47..]).value
  {
    var numPlayers :- ClockFrom(s);
    var campaign :- CampaignFrom(numPlayers.rest, v);
    var turn :- TurnFrom(campaign.rest);
    Ok(numPlayers.v, turn.rest)
  }

  /** The front of `Header::read_from`: the start, then the clock, the
      campaign and the turn; it yields the versions, the scripts and the
      player count. */
  function FrontFrom(s: Bytes, rd: Readers): (r: Result<(Bytes, F32, Option<AIScripts>, U16)>)
    ensures r.Ok? ==> StartFrom(s, rd).Ok? && (r.value.0, r.value.1, r.value.2) == StartFrom(s, rd).value
    ensures r.Ok? ==> var t := StartFrom(s, rd).rest;
                      && |t| >= 49 && r.value.3 == U16From(t[47..]).value
  {
    var start :- StartFrom(s, rd);
    var (gameVersion, saveVersion, aiScripts) := start.v;
    var counts :- CountsFrom(start.rest, rd.fl.hundredths(saveVersion));
    Ok((gameVersion, saveVersion, aiScripts, counts.v), counts.rest)
  }

  // ---------------------------------------------------------------------------
  // The trailing blocks

  datatype PlayerName = PlayerName(playerId: U32, humanity: U32, name: Bytes)

  /** A player's id and humanity, then a u32 length and that many bytes of
      name. */
  function PlayerNameFrom(s: Bytes): (r: Result<PlayerName>)
    ensures r.Ok? <==> |s| >= 12 && |s| >= 12 + U32From(s[8..]).value
    ensures r.Ok? ==> var k := 12 + U32From(s[8..]).value;
                      r.rest == s[k..] && r.value.name == s[12..k]
  {
    var id :- U32From(s);
    var humanity :- U32From(id.rest);
    assert humanity.rest == s[8..];
    var length :- U32From(humanity.rest);
    var name :- RawFrom(length.rest, length.v);
    Ok(PlayerName(id.v, humanity.v, name.v), name.rest)
  }

  datatype Selection = Selection(numSelected: Byte, units: seq<U32>)

  const SelectionSize: nat := 161

  /** A selection: a u8 count, then a buffer of forty unit ids. */
  function SelectionFrom(s: Bytes): (r: Result<Selection>)
    ensures r.Ok? <==> |s| >= SelectionSize
    ensures r.Ok? ==> r.rest == s[SelectionSize..] && r.value.numSelected == s[0]
                      && |r.value.units| == 40
  {
    var count :- U8From(s);
    var units :- U32sFrom(count.rest, 40);
    Ok(Selection(count.v, units.v), units.rest)
  }

  /** Nine selections, 9 times 161 bytes. */
  function SelectionsFrom(s: Bytes): (r: Result<seq<Selection>>)
    ensures r.Ok? <==> |s| >= 1449
    ensures r.Ok? ==> r.rest == s[1449..] && |r.value| == 9
                      && forall x :: x in r.value ==> |x.units| == 40
  {
    SelectionsExact(s, 9);
    Many(s, 9, SelectionFrom)
  }

  lemma SelectionsExact(s: Bytes, n: nat)
    requires n == 9
    ensures var r := Many(s, n, SelectionFrom);
            && (r.Ok? <==> |s| >= 1449)
            && (r.Ok? ==> r.rest == s[1449..] && |r.value| == n
                          && forall x :: x in r.value ==> |x.units| == 40)
  {
    ManyExact(s, n, SelectionFrom, SelectionSize);
    ManyEach(s, n, SelectionFrom, (x: Selection) => |x.units| == 40);
  }

  datatype SentCommands = SentCommands(
    count: U32, valid: Option<U32>, units: seq<U32>, selections: seq<Selection>)

  function SentCommandsSize(v: Version): nat {
    4 + (if v >= 1139 then 4 else 0) + 160 + 1449
  }

  /** The commanded-units block: the count, from 11.39 a validity word,
      forty unit ids and nine selections. */
  function SentCommandsFrom(s: Bytes, v: Version): (r: Result<SentCommands>)
    ensures r.Ok? <==> |s| >= SentCommandsSize(v)
    ensures r.Ok? ==> r.rest == s[SentCommandsSize(v)..]
    ensures r.Ok? ==> (r.value.valid.Some? <==> v >= 1139) && |r.value.units| == 40
                      && |r.value.selections| == 9
                      && forall x :: x in r.value.selections ==> |x.units| == 40
  {
    var count :- U32From(s);
    var valid :- GatedFrom(count.rest, v >= 1139, U32From);
    var units :- U32sFrom(valid.rest, 40);
    assert units.rest == s[SentCommandsSize(v) - 1449..];
    var selections :- SelectionsFrom(units.rest);
    Ok(SentCommands(count.v, valid.v, units.v, selections.v), selections.rest)
  }

  /** The difficulty from 7.16 and the team lock word from 10.23 (false
      before). */
  function SettingsFrom(s: Bytes, v: Version): (r: Result<(Option<U32>, bool)>)
    ensures r.Ok? <==> |s| >= (if v >= 716 then 4 else 0) + (if v >= 1023 then 4 else 0)
    ensures r.Ok? ==> (r.value.0.Some? <==> v >= 716) && (v < 1023 ==> !r.value.1)
  {
    var difficulty :- GatedFrom(s, v >= 716, U32From);
    var lockTeams :- GatedFrom(difficulty.rest, v >= 1023, U32From);
    Ok((difficulty.v, lockTeams.v.Some? && lockTeams.v.value != 0), lockTeams.rest)
  }

  /** The nine player names from 11.32, the nine resignation words from
      11.35 and a player-count word from 11.36. */
  function RosterFrom(s: Bytes, v: Version): (r: Result<(seq<PlayerName>, seq<U32>, Option<U32>)>)
    ensures r.Ok? ==> |r.value.0| == (if v >= 1132 then 9 else 0)
                      && |r.value.1| == (if v >= 1135 then 9 else 0)
                      && (r.value.2.Some? <==> v >= 1136)
    ensures v < 1132 ==> (r.Ok? <==> |s| >= (if v >= 1135 then 36 else 0) + (if v >= 1136 then 4 else 0))
  {
    var names :- if v >= 1132 then Many(s, 9, PlayerNameFrom) else Ok([], s);
    var resigned :- if v >= 1135 then U32sFrom(names.rest, 9) else Ok([], names.rest);
    var count :- GatedFrom(resigned.rest, v >= 1136, U32From);
    Ok((names.v, resigned.v, count.v), count.rest)
  }

  datatype Trailer = Trailer(
    difficulty: Option<U32>, lockTeams: bool, names: seq<PlayerName>, resigned: seq<U32>,
    playerCount: Option<U32>, sent: Option<SentCommands>, numPaths: U32)

  /** Everything after the scenario: the settings, the roster, the
      commanded-units block from 11.38, and the path count. */
  function TrailerFrom(s: Bytes, v: Version): (r: Result<Trailer>)
    ensures r.Ok? ==> (r.value.difficulty.Some? <==> v >= 716)
                      && (v < 1023 ==> !r.value.lockTeams)
                      && |r.value.names| == (if v >= 1132 then 9 else 0)
                      && |r.value.resigned| == (if v >= 1135 then 9 else 0)
                      && (r.value.playerCount.Some? <==> v >= 1136)
                      && (r.value.sent.Some? <==> v >= 1138)
                      && (r.value.sent.Some? ==> (r.value.sent.value.valid.Some? <==> v >= 1139))
    ensures v < 716 ==> (r.Ok? <==> |s| >= 4)
    ensures v < 716 && r.Ok? ==>
              r == Ok(Trailer(None, false, [], [], None, None, U32From(s).value), s[4..])
  {
    var settings :- SettingsFrom(s, v);
    var roster :- RosterFrom(settings.rest, v);
    var sent :- GatedFrom(roster.rest, v >= 1138, (t: Bytes) => SentCommandsFrom(t, v));
    var numPaths :- U32From(sent.rest);
    var (difficulty, lockTeams) := settings.v;
    var (names, resigned, count) := roster.v;
    Ok(Trailer(difficulty, lockTeams, names, resigned, count, sent.v, numPaths.v), numPaths.rest)
  }

  // ---------------------------------------------------------------------------
  // The whole header

  datatype Header = Header(
    gameVersion: Bytes, saveVersion: F32, aiScripts: Option<AIScripts>, gameMap: Bytes,
    particleSystem: ParticleSystem, players: seq<Player>, scenario: Bytes)

  /** The map, the particle system and, from 11.07, the identifier word. */
  function WorldFrom(s: Bytes, rd: Readers, v: Version): (r: Result<(Bytes, ParticleSystem)>)
    ensures r.Ok? ==> rd.mapReader(s).Some? && rd.mapReader(s).value <= |s|
                      && r.value.0 == s[..rd.mapReader(s).value]
                      && ParticleSystemFrom(s[rd.mapReader(s).value..]).Ok?
                      && r.value.1 == ParticleSystemFrom(s[rd.mapReader(s).value..]).value
  {
    var gameMap :- ForeignFrom(s, rd.mapReader(s));
    var particles :- ParticleSystemFrom(gameMap.rest);
    var identifier :- GatedFrom(particles.rest, v >= 1107, U32From);
    Ok((gameMap.v, particles.v), identifier.rest)
  }

  /** `Header::read_from`. The unit paths and unit groups after the path
      count are not read. */
  function HeaderFrom(s: Bytes, rd: Readers): (r: Result<Header>)
    ensures r.Ok? ==> FrontFrom(s, rd).Ok?
    ensures r.Ok? ==>
              var front := FrontFrom(s, rd).value;
              && r.value.gameVersion == front.0 && r.value.saveVersion == front.1
              && r.value.aiScripts == front.2 && |r.value.players| == front.3
    ensures r.Ok? ==> (r.value.aiScripts.Some? <==> U32From(s[rd.gameVersion(s).value + 4..]).value != 0)
  {
    var front :- FrontFrom(s, rd);
    var (gameVersion, saveVersion, aiScripts, numPlayers) := front.v;
    var v := rd.fl.hundredths(saveVersion);
    var world :- WorldFrom(front.rest, rd, v);
    var players :- PlayersFrom(world.rest, rd, saveVersion, numPlayers);
    var scenario :- ForeignFrom(players.rest, rd.scenario(players.rest));
    var trailer :- TrailerFrom(scenario.rest, v);
    Ok(Header(gameVersion, saveVersion, aiScripts, world.v.0, world.v.1, players.v, scenario.v),
       trailer.rest)
  }

  // ---------------------------------------------------------------------------
  // The reader on a cursor

  method ReadClock(c: Cursor) returns (r: Result<U16>)
    modifies c
    ensures r == ClockFrom(old(c.rest))
    ensures r.Ok? ==> c.rest == r.rest
  {
    var discarded :- c.Skip(47);
    var numPlayers :- c.ReadU16();
    r := Ok(numPlayers.v, c.rest);
  }

  method ReadCampaign(c: Cursor, v: Version) returns (r: Result<Campaign>)
    modifies c
    ensures r == CampaignFrom(old(c.rest), v)
    ensures r.Ok? ==> c.rest == r.rest
  {
    var aegisCheats: Option<(bool, bool)> := None;
    if v >= 1176 {
      var flags :- c.ReadRecord(FlagPairFrom);
      aegisCheats := Some(flags.v);
    }
    var ids :- c.ReadRecord(CampaignIdsFrom);
    var kingCampaign: Option<(U32, Byte, Byte)> := None;
    if v >= 1013 {
      var king :- c.ReadRecord(KingFrom);
      kingCampaign := Some(king.v);
    }
    var (mode, campaign, player, scenario) := ids.v;
    r := Ok(Campaign(aegisCheats, mode, campaign, player, scenario, kingCampaign), c.rest);
  }

  /** The player turn, then `read_u32_into` on the nine time deltas. */
  method ReadTurn(c: Cursor) returns (r: Result<seq<U32>>)
    modifies c
    ensures r == TurnFrom(old(c.rest))
    ensures r.Ok? ==> c.rest == r.rest
  {
    var turn :- c.Skip(4);
    r := ReadU32s(c, 9);
  }

  /** The name's buffer of the read length, filled by `read_exact`. */
  method ReadPlayerName(c: Cursor) returns (r: Result<PlayerName>)
    modifies c
    ensures r == PlayerNameFrom(old(c.rest))
    ensures r.Ok? ==> c.rest == r.rest
  {
    var id :- c.ReadU32();
    var humanity :- c.ReadU32();
    var length :- c.ReadU32();
    var name :- c.ReadRaw(length.v);
    r := Ok(PlayerName(id.v, humanity.v, name.v), c.rest);
  }

  method ReadSelection(c: Cursor) returns (r: Result<Selection>)
    modifies c
    ensures r == SelectionFrom(old(c.rest))
    ensures r.Ok? ==> c.rest == r.rest
  {
    var count :- c.ReadU8();
    var units :- ReadU32s(c, 40);
    r := Ok(Selection(count.v, units.v), c.rest);
  }

  method ReadSentCommands(c: Cursor, v: Version) returns (r: Result<SentCommands>)
    modifies c
    ensures r == SentCommandsFrom(old(c.rest), v)
    ensures r.Ok? ==> c.rest == r.rest
  {
    var count :- c.ReadU32();
    var valid: Option<U32> := None;
    if v >= 1139 {
      var w :- c.ReadU32();
      valid := Some(w.v);
    }
    var units :- ReadU32s(c, 40);
    ghost var s0 := c.rest;
    ghost var n := 9;
    var selections: seq<Selection> := [];
    ResumesStart(s0, n, SelectionFrom);
    for i := 0 to 9
      invariant |selections| == i
      invariant Resumes(s0, n, SelectionFrom, selections, c.rest)
    {
      ResumesNext(s0, n, SelectionFrom, selections, c.rest);
      var selection :- ReadSelection(c);
      selections := selections + [selection.v];
    }
    ResumesDone(s0, n, SelectionFrom, selections, c.rest);
    r := Ok(SentCommands(count.v, valid, units.v, selections), c.rest);
  }

  method ReadSettings(c: Cursor, v: Version) returns (r: Result<(Option<U32>, bool)>)
    modifies c
    ensures r == SettingsFrom(old(c.rest), v)
    ensures r.Ok? ==> c.rest == r.rest
  {
    var difficulty: Option<U32> := None;
    if v >= 716 {
      var w :- c.ReadU32();
      difficulty := Some(w.v);
    }
    var lockTeams := false;
    if v >= 1023 {
      var w :- c.ReadU32();
      lockTeams := w.v != 0;
    }
    r := Ok((difficulty, lockTeams), c.rest);
  }

  method ReadRoster(c: Cursor, v: Version) returns (r: Result<(seq<PlayerName>, seq<U32>, Option<U32>)>)
    modifies c
    ensures r == RosterFrom(old(c.rest), v)
    ensures r.Ok? ==> c.rest == r.rest
  {
    var names: seq<PlayerName> := [];
    if v >= 1132 {
      ghost var s0 := c.rest;
      ghost var n := 9;
      ResumesStart(s0, n, PlayerNameFrom);
      for i := 0 to 9
        invariant |names| == i
        invariant Resumes(s0, n, PlayerNameFrom, names, c.rest)
      {
        ResumesNext(s0, n, PlayerNameFrom, names, c.rest);
        var name :- ReadPlayerName(c);
        names := names + [name.v];
      }
      ResumesDone(s0, n, PlayerNameFrom, names, c.rest);
    }
    var resigned: seq<U32> := [];
    if v >= 1135 {
      var words :- ReadU32s(c, 9);
      resigned := words.v;
    }
    var count: Option<U32> := None;
    if v >= 1136 {
      var w :- c.ReadU32();
      count := Some(w.v);
    }
    r := Ok((names, resigned, count), c.rest);
  }

  method ReadTrailer(c: Cursor, v: Version) returns (r: Result<Trailer>)
    modifies c
    ensures r == TrailerFrom(old(c.rest), v)
    ensures r.Ok? ==> c.rest == r.rest
  {
    var settings :- ReadSettings(c, v);
    var roster :- ReadRoster(c, v);
    var sent: Option<SentCommands> := None;
    if v >= 1138 {
      var block :- ReadSentCommands(c, v);
      sent := Some(block.v);
    }
    var numPaths :- c.ReadU32();
    var (difficulty, lockTeams) := settings.v;
    var (names, resigned, count) := roster.v;
    r := Ok(Trailer(difficulty, lockTeams, names, resigned, count, sent, numPaths.v), c.rest);
  }

  /** The game version, the save version and the scripts; the header starts
      as the default with the two versions and gains the scripts when the
      flag word is nonzero. */
  method ReadStart(c: Cursor, rd: Readers) returns (r: Result<Header>)
    modifies c
    ensures StartFrom(old(c.rest), rd).Ok? <==> r.Ok?
    ensures r.Ok? ==> r.rest == StartFrom(old(c.rest), rd).rest && c.rest == r.rest
                      && var (gameVersion, saveVersion, aiScripts) := StartFrom(old(c.rest), rd).value;
                         r.value == Header(gameVersion, saveVersion, aiScripts, [], ParticleSystem(0, []), [], [])
    ensures r.Fail? ==> r.error == StartFrom(old(c.rest), rd).error
  {
    var gameVersion :- c.ReadForeign(rd.gameVersion(c.rest));
    var saveVersion :- c.ReadF32();
    var header := Header(gameVersion.v, saveVersion.v, None, [], ParticleSystem(0, []), [], []);
    var includesAI :- c.ReadU32();
    if includesAI.v != 0 {
      var scripts :- ReadScripts(c, rd.stringTable);
      header := header.(aiScripts := Some(scripts.v));
    }
    r := Ok(header, c.rest);
  }

  method ReadCounts(c: Cursor, v: Version) returns (r: Result<U16>)
    modifies c
    ensures r == CountsFrom(old(c.rest), v)
    ensures r.Ok? ==> c.rest == r.rest
  {
    var numPlayers :- ReadClock(c);
    var campaign :- ReadCampaign(c, v);
    var turn :- ReadTurn(c);
    r := Ok(numPlayers.v, c.rest);
  }

  method ReadWorld(c: Cursor, rd: Readers, v: Version) returns (r: Result<(Bytes, ParticleSystem)>)
    modifies c
    ensures r == WorldFrom(old(c.rest), rd, v)
    ensures r.Ok? ==> c.rest == r.rest
  {
    var gameMap :- c.ReadForeign(rd.mapReader(c.rest));
    var particles :- ReadParticleSystem(c);
    if v >= 1107 {
      var identifier :- c.ReadU32();
    }
    r := Ok((gameMap.v, particles.v), c.rest);
  }

  /** `Header::read_from`: `header` is updated field by field as its parts
      are read, and everything else read is discarded. */
  method ReadHeader(c: Cursor, rd: Readers) returns (r: Result<Header>)
    modifies c
    ensures r == HeaderFrom(old(c.rest), rd)
    ensures r.Ok? ==> c.rest == r.rest
  {
    var start :- ReadStart(c, rd);
    var header := start.v;
    var v := rd.fl.hundredths(header.saveVersion);
    var numPlayers :- ReadCounts(c, v);
    var world :- ReadWorld(c, rd, v);
    header := header.(gameMap := world.v.0, particleSystem := world.v.1);
    var players :- ReadPlayers(c, rd, header.saveVersion, numPlayers.v);
    header := header.(players := players.v);
    var scenario :- c.ReadForeign(rd.scenario(c.rest));
    header := header.(scenario := scenario.v);
    var trailer :- ReadTrailer(c, v);
    r := Ok(header, c.rest);
  }
}
