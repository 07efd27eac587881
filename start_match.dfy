/** Building a match configuration from the GUI's bot list and settings, and
    starting the match: the custom-map branch, the fixed setup sequence and
    the bounded wait for bot metadata. The setup manager is not part of this
    model; its behaviour is a parameter. */
module StartMatch {
  import opened Wrappers
  import opened Strings
  import opened CustomMap

  // ---------------------------------------------------------------------------
  // Player configurations
  // ---------------------------------------------------------------------------

  /** `bot` on a player configuration. */
  predicate IsBot(runnableType: string)
  {
    runnableType == "rlbot" || runnableType == "psyonix"
  }

  /** `rlbot_controlled` on a player configuration. */
  predicate IsRlbotControlled(runnableType: string)
  {
    runnableType == "rlbot" || runnableType == "party_member_bot"
  }

  /** The two flags split the runnable types four ways: an RLBot bot is both,
      a Psyonix bot only a bot, a party-member bot only RLBot-controlled, and
      every other type (a human) neither. */
  lemma RunnableTypeClasses(runnableType: string)
    ensures IsBot(runnableType) && IsRlbotControlled(runnableType) <==> runnableType == "rlbot"
    ensures IsBot(runnableType) && !IsRlbotControlled(runnableType) <==> runnableType == "psyonix"
    ensures !IsBot(runnableType) && IsRlbotControlled(runnableType) <==> runnableType == "party_member_bot"
    ensures !IsBot(runnableType) && !IsRlbotControlled(runnableType) <==>
              runnableType != "rlbot" && runnableType != "psyonix" && runnableType != "party_member_bot"
  {
  }

  /** One entry of the bot list; `team` is the value `int()` made of the
      entry's team field, and `path` is absent when the entry has none or a
      null one. */
  datatype BotEntry = BotEntry(runnableType: string, skill: real, name: string, team: int, path: Option<string>)

  /** A colour id of a loadout: as the loadout was loaded, or assigned
      afterwards (possibly to null). */
  datatype ColorChoice = AsLoaded | Assigned(id: Option<int>)

  /** Where a loadout came from: the bot's bundle, loaded for its team, or a
      random Psyonix preset. */
  datatype LoadoutSource = FromBundle(configPath: string, team: int) | RandomPsyonixPreset

  datatype Loadout = Loadout(source: LoadoutSource, teamColorId: ColorChoice, customColorId: ColorChoice)

  datatype PlayerConfig = PlayerConfig(
    bot: bool,
    rlbotControlled: bool,
    botSkill: real,
    humanIndex: nat,
    name: string,
    team: int,
    configPath: Option<string>,
    loadout: Option<Loadout>)

  /** The configuration `create_player_config` builds for `b` when the human
      index counter stands at `humanIndex`. */
  function PlayerConfigOf(b: BotEntry, humanIndex: nat): (pc: PlayerConfig)
    ensures pc.bot == IsBot(b.runnableType) && pc.rlbotControlled == IsRlbotControlled(b.runnableType)
    ensures pc.humanIndex == if pc.bot then 0 else humanIndex
    ensures pc.botSkill == b.skill && pc.name == b.name && pc.team == b.team
    ensures pc.configPath.Some? <==> b.path.Some? && b.path.value != ""
    ensures pc.configPath.Some? ==>
              pc.configPath == b.path && pc.loadout == Some(Loadout(FromBundle(b.path.value, b.team), AsLoaded, AsLoaded))
    ensures pc.configPath.None? ==>
              (pc.loadout.Some? <==> pc.bot && !pc.rlbotControlled)
    ensures pc.configPath.None? && pc.loadout.Some? ==>
              pc.loadout.value == Loadout(RandomPsyonixPreset, AsLoaded, AsLoaded)
  {
    var bot := IsBot(b.runnableType);
    var rlbotControlled := IsRlbotControlled(b.runnableType);
    var base := PlayerConfig(bot, rlbotControlled, b.skill, if bot then 0 else humanIndex, b.name, b.team, None, None);
    if b.path.Some? && b.path.value != "" then
      base.(configPath := b.path, loadout := Some(Loadout(FromBundle(b.path.value, b.team), AsLoaded, AsLoaded)))
    else if bot && !rlbotControlled then
      base.(loadout := Some(Loadout(RandomPsyonixPreset, AsLoaded, AsLoaded)))
    else
      base
  }

  /** Only a Psyonix bot without a bundle path gets a random preset, and a
      player without a path that is not a Psyonix bot gets no loadout. */
  lemma RandomPresetOnlyForPsyonix(b: BotEntry, humanIndex: nat)
    ensures var pc := PlayerConfigOf(b, humanIndex);
            pc.loadout.Some? && pc.loadout.value.source == RandomPsyonixPreset <==>
              b.runnableType == "psyonix" && (b.path.None? || b.path.value == "")
    ensures var pc := PlayerConfigOf(b, humanIndex);
            pc.loadout.None? <==> b.runnableType != "psyonix" && (b.path.None? || b.path.value == "")
  {
    RunnableTypeClasses(b.runnableType);
  }

  /** `IncrementingInteger`: returns its value, then bumps it. */
  class HumanIndexTracker {
    var next: nat

    constructor (start: nat)
      ensures next == start
    {
      next := start;
    }

    method Increment() returns (v: nat)
      modifies this
      ensures v == old(next) && next == old(next) + 1
    {
      v := next;
      next := next + 1;
    }
  }

  /** `create_player_config`: only a non-bot draws a human index from the
      shared counter. */
  method CreatePlayerConfig(b: BotEntry, tracker: HumanIndexTracker) returns (pc: PlayerConfig)
    modifies tracker
    ensures pc == PlayerConfigOf(b, old(tracker.next))
    ensures tracker.next == old(tracker.next) + (if IsBot(b.runnableType) then 0 else 1)
  {
    var bot := IsBot(b.runnableType);
    var humanIndex := 0;
    if !bot {
      humanIndex := tracker.Increment();
    }
    pc := PlayerConfig(bot, IsRlbotControlled(b.runnableType), b.skill, humanIndex, b.name, b.team, None, None);
    if b.path.Some? && b.path.value != "" {
      pc := pc.(configPath := b.path, loadout := Some(Loadout(FromBundle(b.path.value, b.team), AsLoaded, AsLoaded)));
    } else if pc.bot && !pc.rlbotControlled {
      pc := pc.(loadout := Some(Loadout(RandomPsyonixPreset, AsLoaded, AsLoaded)));
    }
  }

  /** The number of non-bot entries in `bots`. */
  function CountHumans(bots: seq<BotEntry>): (n: nat)
    ensures n <= |bots|
  {
    if bots == [] then 0
    else CountHumans(bots[..|bots| - 1]) + (if IsBot(bots[|bots| - 1].runnableType) then 0 else 1)
  }

  /** No entry is a human iff every entry is a bot, and every entry is a
      human iff none is a bot. */
  lemma {:induction false} CountHumansExtremes(bots: seq<BotEntry>)
    ensures CountHumans(bots) == 0 <==> forall i :: 0 <= i < |bots| ==> IsBot(bots[i].runnableType)
    ensures CountHumans(bots) == |bots| <==> forall i :: 0 <= i < |bots| ==> !IsBot(bots[i].runnableType)
  {
    if bots != [] {
      var front := bots[..|bots| - 1];
      CountHumansExtremes(front);
      assert forall i :: 0 <= i < |front| ==> front[i] == bots[i];
    }
  }

  /** The human index the `i`-th entry draws if it is not a bot: the number of
      non-bots before it. */
  function HumanIndexAt(bots: seq<BotEntry>, i: nat): nat
    requires i <= |bots|
  {
    CountHumans(bots[..i])
  }

  lemma HumanIndexStep(bots: seq<BotEntry>, i: nat)
    requires i < |bots|
    ensures HumanIndexAt(bots, i + 1) == HumanIndexAt(bots, i) + (if IsBot(bots[i].runnableType) then 0 else 1)
  {
    assert bots[..i + 1][..i] == bots[..i];
  }

  lemma {:induction false} HumanIndexMonotone(bots: seq<BotEntry>, i: nat, j: nat)
    requires i <= j <= |bots|
    ensures HumanIndexAt(bots, i) <= HumanIndexAt(bots, j)
    decreases j - i
  {
    if i < j {
      HumanIndexStep(bots, i);
      HumanIndexMonotone(bots, i + 1, j);
    }
  }

  /** The human indices drawn by the non-bots among the first `n` entries. */
  function DrawnIndices(bots: seq<BotEntry>, n: nat): set<nat>
    requires n <= |bots|
  {
    set i | 0 <= i < n && !IsBot(bots[i].runnableType) :: HumanIndexAt(bots, i)
  }

  /** Non-bot players receive consecutive human indices in list order: each
      later non-bot has a larger index, and the indices drawn are exactly
      0 up to the number of non-bots. */
  lemma {:induction false} HumanIndicesConsecutive(bots: seq<BotEntry>)
    ensures forall i, j :: 0 <= i < j < |bots| && !IsBot(bots[i].runnableType) ==>
              HumanIndexAt(bots, i) < HumanIndexAt(bots, j)
    ensures forall k: nat :: k in DrawnIndices(bots, |bots|) <==> k < CountHumans(bots)
  {
    forall i, j | 0 <= i < j < |bots| && !IsBot(bots[i].runnableType)
      ensures HumanIndexAt(bots, i) < HumanIndexAt(bots, j)
    {
      HumanIndexStep(bots, i);
      HumanIndexMonotone(bots, i + 1, j);
    }
    DrawnIndicesAreRange(bots, |bots|);
    assert bots[..|bots|] == bots;
  }

  lemma {:induction false} DrawnIndicesAreRange(bots: seq<BotEntry>, n: nat)
    requires n <= |bots|
    ensures forall k: nat :: k in DrawnIndices(bots, n) <==> k < HumanIndexAt(bots, n)
  {
    if n > 0 {
      DrawnIndicesAreRange(bots, n - 1);
      HumanIndexStep(bots, n - 1);
      if IsBot(bots[n - 1].runnableType) {
        assert DrawnIndices(bots, n) == DrawnIndices(bots, n - 1);
      } else {
        assert DrawnIndices(bots, n) == DrawnIndices(bots, n - 1) + {HumanIndexAt(bots, n - 1)};
      }
    } else {
      assert DrawnIndices(bots, n) == {};
    }
  }

  // ---------------------------------------------------------------------------
  // Match configurations
  // ---------------------------------------------------------------------------

  /** The sixteen mutator settings, each carried as the GUI's string value. */
  datatype Mutators = Mutators(
    matchLength: string, maxScore: string, overtime: string, seriesLength: string,
    gameSpeed: string, ballMaxSpeed: string, ballType: string, ballWeight: string,
    ballSize: string, ballBounciness: string, boostAmount: string, rumble: string,
    boostStrength: string, gravity: string, demolish: string, respawnTime: string)

  datatype ScriptEntry = ScriptEntry(path: string)

  datatype MatchSettings = MatchSettings(
    gameMode: string, mapName: string, skipReplays: bool, instantStart: bool,
    enableLockstep: bool, enableRendering: bool, enableStateSetting: bool,
    autoSaveReplay: bool, matchBehavior: string, mutators: Mutators,
    scripts: seq<ScriptEntry>)

  /** `ScriptConfig(path)`, as `create_script_config` builds it. */
  datatype ScriptConfig = ScriptConfig(path: string)

  datatype MatchConfig = MatchConfig(
    gameMode: string, gameMap: string, skipReplays: bool, instantStart: bool,
    enableLockstep: bool, enableRendering: bool, enableStateSetting: bool,
    autoSaveReplay: bool, existingMatchBehavior: string, mutators: Mutators,
    playerConfigs: seq<PlayerConfig>, scriptConfigs: seq<ScriptConfig>)

  /** `create_match_config`: every setting copied, one player configuration
      per entry in order with human indices drawn from a counter starting at
      0, and one script configuration per script in order. */
  method CreateMatchConfig(bots: seq<BotEntry>, settings: MatchSettings) returns (mc: MatchConfig)
    ensures mc.gameMode == settings.gameMode && mc.gameMap == settings.mapName
    ensures mc.skipReplays == settings.skipReplays && mc.instantStart == settings.instantStart
    ensures mc.enableLockstep == settings.enableLockstep && mc.enableRendering == settings.enableRendering
    ensures mc.enableStateSetting == settings.enableStateSetting && mc.autoSaveReplay == settings.autoSaveReplay
    ensures mc.existingMatchBehavior == settings.matchBehavior && mc.mutators == settings.mutators
    ensures |mc.playerConfigs| == |bots|
    ensures forall i :: 0 <= i < |bots| ==> mc.playerConfigs[i] == PlayerConfigOf(bots[i], HumanIndexAt(bots, i))
    ensures |mc.scriptConfigs| == |settings.scripts|
    ensures forall i :: 0 <= i < |settings.scripts| ==> mc.scriptConfigs[i].path == settings.scripts[i].path
  {
    var tracker := new HumanIndexTracker(0);
    var players: seq<PlayerConfig> := [];
    for i := 0 to |bots|
      invariant |players| == i
      invariant tracker.next == HumanIndexAt(bots, i)
      invariant forall j :: 0 <= j < i ==> players[j] == PlayerConfigOf(bots[j], HumanIndexAt(bots, j))
    {
      HumanIndexStep(bots, i);
      var pc := CreatePlayerConfig(bots[i], tracker);
      players := players + [pc];
    }
    var scripts: seq<ScriptConfig> := [];
    for i := 0 to |settings.scripts|
      invariant |scripts| == i
      invariant forall j :: 0 <= j < i ==> scripts[j].path == settings.scripts[j].path
    {
      scripts := scripts + [ScriptConfig(settings.scripts[i].path)];
    }
    mc := MatchConfig(
      settings.gameMode, settings.mapName, settings.skipReplays, settings.instantStart,
      settings.enableLockstep, settings.enableRendering, settings.enableStateSetting,
      settings.autoSaveReplay, settings.matchBehavior, settings.mutators,
      players, scripts);
  }

  // ---------------------------------------------------------------------------
  // The setup sequence and the metadata wait
  // ---------------------------------------------------------------------------

  /** What the setup records, in order: the six setup-manager calls (the
      match configuration load with the configuration it is given), the
      `"done"` put on the output queue, each metadata poll (with whether a
      sleep preceded it) and the missing-metadata warning. */
  datatype SetupEvent =
    | ConnectToGame | LoadGameInterface | LoadMatchConfig(config: MatchConfig)
    | LaunchEarlyStartBots | StartGameMatch | LaunchBotProcesses
    | PutDone
    | Poll(sleptBefore: bool)
    | MetadataWarning

  const SetupCallCount: nat := 6

  /** The six calls of `do_setup`, in order, for the configuration `config`. */
  function SetupCalls(config: MatchConfig): seq<SetupEvent>
  {
    [ConnectToGame, LoadGameInterface, LoadMatchConfig(config), LaunchEarlyStartBots, StartGameMatch, LaunchBotProcesses]
  }

  /** The setup manager's behaviour: the position (0 to 5) of the call that
      raises, if any, and after how many metadata polls every bot has
      reported (never, when absent). */
  datatype SetupManagerBehaviour = SetupManagerBehaviour(failingCall: Option<nat>, metadataAfterPolls: Option<nat>)

  /** One of the six calls raises. */
  predicate SetupRaises(sm: SetupManagerBehaviour)
  {
    sm.failingCall.Some? && sm.failingCall.value < SetupCallCount
  }

  const MaxMetadataPolls: nat := 40

  predicate MetadataReceived(sm: SetupManagerBehaviour, polls: nat)
  {
    sm.metadataAfterPolls.Some? && sm.metadataAfterPolls.value <= polls
  }

  /** The calls made before and including the one that raises. */
  function CallsMade(sm: SetupManagerBehaviour, config: MatchConfig): (r: seq<SetupEvent>)
    ensures r <= SetupCalls(config)
    ensures !SetupRaises(sm) ==> |r| == SetupCallCount
    ensures SetupRaises(sm) ==> |r| == sm.failingCall.value + 1
  {
    if SetupRaises(sm) then SetupCalls(config)[..sm.failingCall.value + 1] else SetupCalls(config)
  }

  /** How many polls the wait loop makes. */
  function PollsMade(sm: SetupManagerBehaviour): (n: nat)
    ensures n <= MaxMetadataPolls
  {
    match sm.metadataAfterPolls
    case None => MaxMetadataPolls
    case Some(k) => if k < MaxMetadataPolls then k else MaxMetadataPolls
  }

  /** `n` polls, of which only the first is not preceded by a sleep. */
  function Polls(n: nat): (r: seq<SetupEvent>)
    ensures |r| == n
    ensures forall i :: 0 <= i < n ==> r[i] == Poll(i != 0)
  {
    seq(n, i => Poll(i != 0))
  }

  datatype SetupRun = SetupRun(events: seq<SetupEvent>, raised: bool)

  /** What `do_setup` does for `config`, stated at once: the calls until one
      raises; if none does, the `"done"` when an output queue is given, the
      polls and, when metadata is still missing, the warning. */
  function ExpectedRun(sm: SetupManagerBehaviour, config: MatchConfig, outGiven: bool): SetupRun
  {
    if SetupRaises(sm) then SetupRun(CallsMade(sm, config), true)
    else
      var polls := PollsMade(sm);
      SetupRun(
        SetupCalls(config) + (if outGiven then [PutDone] else []) + Polls(polls)
          + (if MetadataReceived(sm, polls) then [] else [MetadataWarning]),
        false)
  }

  /** `do_setup`: the six calls, the `"done"`, then the wait for metadata,
      which gives up after 40 polls and sleeps before every poll but the
      first. */
  method DoSetup(sm: SetupManagerBehaviour, config: MatchConfig, outGiven: bool) returns (run: SetupRun)
    ensures run == ExpectedRun(sm, config, outGiven)
  {
    var events := CallsMade(sm, config);
    if SetupRaises(sm) {
      return SetupRun(events, true);
    }
    if outGiven {
      events := events + [PutDone];
    }
    ghost var beforePolls := events;

    var timesWaited: nat := 0;
    while !MetadataReceived(sm, timesWaited) && timesWaited < MaxMetadataPolls
      invariant timesWaited <= PollsMade(sm)
      invariant events == beforePolls + Polls(timesWaited)
      decreases MaxMetadataPolls - timesWaited
    {
      var sleptBefore := timesWaited != 0;
      timesWaited := timesWaited + 1;
      events := events + [Poll(sleptBefore)];
      assert Polls(timesWaited) == Polls(timesWaited - 1) + [Poll(sleptBefore)];
    }
    assert timesWaited == PollsMade(sm);

    if !MetadataReceived(sm, timesWaited) {
      events := events + [MetadataWarning];
    }
    run := SetupRun(events, false);
  }

  /** The run raises exactly when one of the calls raises; a missing reply
      only adds the warning. The wait makes at most 40 polls, sleeps before
      each but the first, and warns exactly when metadata never arrives or
      arrives after more than 40 polls. */
  lemma WaitIsBounded(sm: SetupManagerBehaviour, config: MatchConfig, outGiven: bool)
    ensures ExpectedRun(sm, config, outGiven).raised <==> SetupRaises(sm)
    ensures var run := ExpectedRun(sm, config, outGiven);
            !SetupRaises(sm) ==>
            && (forall i :: 0 <= i < |run.events| && run.events[i].Poll? ==>
                  (run.events[i].sleptBefore <==> i > 0 && run.events[i - 1].Poll?))
            && |run.events| <= SetupCallCount + 1 + MaxMetadataPolls + 1
            && (MetadataWarning in run.events <==>
                  sm.metadataAfterPolls.None? || sm.metadataAfterPolls.value > MaxMetadataPolls)
  {
    if !SetupRaises(sm) {
      var run := ExpectedRun(sm, config, outGiven);
      var prefix := SetupCalls(config) + (if outGiven then [PutDone] else []);
      var polls := Polls(PollsMade(sm));
      forall i | 0 <= i < |run.events| && run.events[i].Poll?
        ensures run.events[i].sleptBefore <==> i > 0 && run.events[i - 1].Poll?
      {
        assert |prefix| <= i < |prefix| + |polls|;
        assert run.events[i] == polls[i - |prefix|];
        if i > |prefix| {
          assert run.events[i - 1] == polls[i - 1 - |prefix|];
        } else {
          assert run.events[i - 1] == prefix[|prefix| - 1];
        }
      }
      if MetadataWarning in run.events {
        var i :| 0 <= i < |run.events| && run.events[i] == MetadataWarning;
        assert i == |run.events| - 1;
      }
    }
  }

  /** The `"done"` appears only with an output queue, only when no call
      raised, and only after the bot processes were launched. */
  lemma DoneFollowsLaunch(sm: SetupManagerBehaviour, config: MatchConfig, outGiven: bool)
    ensures var run := ExpectedRun(sm, config, outGiven);
            PutDone in run.events <==> outGiven && !run.raised
    ensures var run := ExpectedRun(sm, config, outGiven);
            forall i :: 0 <= i < |run.events| && run.events[i] == PutDone ==>
              exists j :: 0 <= j < i && run.events[j] == LaunchBotProcesses
  {
    var run := ExpectedRun(sm, config, outGiven);
    if run.raised {
      assert PutDone !in SetupCalls(config);
      assert PutDone !in run.events;
    } else {
      var prefix := SetupCalls(config) + (if outGiven then [PutDone] else []);
      forall i | 0 <= i < |run.events| && run.events[i] == PutDone
        ensures exists j :: 0 <= j < i && run.events[j] == LaunchBotProcesses
      {
        assert i == 6;
        assert run.events[5] == LaunchBotProcesses;
      }
      if outGiven {
        assert run.events[6] == PutDone;
      } else {
        assert PutDone !in run.events by {
          forall i | 0 <= i < |run.events|
            ensures run.events[i] != PutDone
          {
            if i >= 6 {
              assert run.events[i] == (Polls(PollsMade(sm)) + (if MetadataReceived(sm, PollsMade(sm)) then [] else [MetadataWarning]))[i - 6];
            }
          }
        }
      }
    }
  }

  /** The setup manager is handed exactly the configuration `do_setup` was
      given, and is handed it unless one of the first two calls raised. */
  lemma {:induction false} LoadsGivenConfig(sm: SetupManagerBehaviour, config: MatchConfig, outGiven: bool)
    ensures var run := ExpectedRun(sm, config, outGiven);
            forall i :: 0 <= i < |run.events| && run.events[i].LoadMatchConfig? ==> run.events[i].config == config
    ensures var run := ExpectedRun(sm, config, outGiven);
            (exists i :: 0 <= i < |run.events| && run.events[i].LoadMatchConfig?) <==>
              !(SetupRaises(sm) && sm.failingCall.value < 2)
  {
    var run := ExpectedRun(sm, config, outGiven);
    var calls := CallsMade(sm, config);
    assert run.events[..|calls|] == calls;
    forall i | |calls| <= i < |run.events|
      ensures !run.events[i].LoadMatchConfig?
    {
      if !SetupRaises(sm) {
        var tail := (if outGiven then [PutDone] else []) + Polls(PollsMade(sm))
                      + (if MetadataReceived(sm, PollsMade(sm)) then [] else [MetadataWarning]);
        assert run.events == calls + tail;
        assert run.events[i] == tail[i - |calls|];
      }
    }
    forall i | 0 <= i < |calls|
      ensures run.events[i].LoadMatchConfig? <==> i == 2
      ensures run.events[i].LoadMatchConfig? ==> run.events[i].config == config
    {
      assert run.events[i] == calls[i] == SetupCalls(config)[i];
    }
    if !(SetupRaises(sm) && sm.failingCall.value < 2) {
      assert run.events[2].LoadMatchConfig?;
    }
  }

  // ---------------------------------------------------------------------------
  // setup_match and start_match_wrapper
  // ---------------------------------------------------------------------------

  /** A map name is a custom map file when it ends in `.upk` or `.udk`. */
  predicate IsCustomMap(mapName: string)
  {
    EndsWith(mapName, ".upk") || EndsWith(mapName, ".udk")
  }

  /** The script the companion configuration adds, if the swap found one. */
  function CompanionScripts(metadata: MapMetadata): (r: seq<ScriptConfig>)
    ensures |r| <= 1
    ensures metadata.configPath.None? ==> r == []
    ensures metadata.configPath.Some? ==> r == [ScriptConfig(metadata.configPath.value)]
  {
    match metadata.configPath
    case None => []
    case Some(p) => [ScriptConfig(p)]
  }

  /** The files once `setup_match` has returned or raised: unchanged for a
      plain map or a missing maps directory; after a failed swap, whatever the
      backup copy left; after a swap, the files before it less the backup. */
  function FilesAfterSetup(
    files: Files, mapFile: string, launcher: LauncherPreference, executable: Option<string>,
    existingDirectories: set<string>, timestamp: string): Files
  {
    if !IsCustomMap(mapFile) then files
    else match IdentifyMapDirectory(launcher, executable, existingDirectories)
      case None => files
      case Some(rlDirectory) =>
        var slot := SlotPath(rlDirectory);
        var backup := BackupPath(rlDirectory, timestamp);
        if SwappedIn(files, mapFile, slot, backup).Some? then files - {backup}
        else match CopyFile(files, slot, backup)
          case None => files
          case Some(withBackup) => withBackup
  }

  datatype SetupOutcome = SetupOutcome(config: MatchConfig, events: seq<SetupEvent>, raised: bool)

  /** `setup_match`. A custom map needs a maps directory (otherwise it raises
      before any call) and runs the setup inside the swap, with the map name
      replaced and the companion script appended before the configuration is
      loaded; the swap is undone on every exit of the setup, raised or not. */
  method SetupMatch(
    fs: FileSystem, mc: MatchConfig, launcher: LauncherPreference, executable: Option<string>,
    existingDirectories: set<string>, timestamp: string, sm: SetupManagerBehaviour, outGiven: bool)
    returns (outcome: SetupOutcome)
    modifies fs
    ensures fs.files == FilesAfterSetup(old(fs.files), mc.gameMap, launcher, executable, existingDirectories, timestamp)
    ensures !IsCustomMap(mc.gameMap) ==>
              outcome == SetupOutcome(mc, ExpectedRun(sm, mc, outGiven).events, ExpectedRun(sm, mc, outGiven).raised)
    ensures IsCustomMap(mc.gameMap) && IdentifyMapDirectory(launcher, executable, existingDirectories).None? ==>
              outcome == SetupOutcome(mc, [], true)
    ensures IsCustomMap(mc.gameMap) && IdentifyMapDirectory(launcher, executable, existingDirectories).Some? ==>
              var rlDirectory := IdentifyMapDirectory(launcher, executable, existingDirectories).value;
              var slot := SlotPath(rlDirectory);
              var backup := BackupPath(rlDirectory, timestamp);
              if SwappedIn(old(fs.files), mc.gameMap, slot, backup).None? then
                && outcome == SetupOutcome(mc, [], true)
                && fs.files == match CopyFile(old(fs.files), slot, backup)
                               case None => old(fs.files)
                               case Some(withBackup) => withBackup
              else
                && outcome.config == mc.(gameMap := SwappedMapName,
                                         scriptConfigs := mc.scriptConfigs + CompanionScripts(Metadata(old(fs.files), mc.gameMap)))
                && outcome.events == ExpectedRun(sm, outcome.config, outGiven).events
                && outcome.raised == ExpectedRun(sm, outcome.config, outGiven).raised
                && fs.files == old(fs.files) - {backup}
  {
    var mapFile := mc.gameMap;
    if !IsCustomMap(mapFile) {
      var run := DoSetup(sm, mc, outGiven);
      return SetupOutcome(mc, run.events, run.raised);
    }
    var rlDirectory := IdentifyMapDirectory(launcher, executable, existingDirectories);
    if rlDirectory.None? {
      return SetupOutcome(mc, [], true);
    }
    ghost var before := fs.files;
    var swap := EnterCustomMap(fs, mapFile, rlDirectory.value, timestamp);
    if swap.None? {
      return SetupOutcome(mc, [], true);
    }
    SwappedInContents(before, mapFile, swap.value.slot, swap.value.backup);
    ExitRestores(before, mapFile, swap.value.slot, swap.value.backup);

    assert swap.value.gameMap == SwappedMapName;
    assert swap.value.metadata == Metadata(before, mapFile);
    var config := mc.(gameMap := swap.value.gameMap);
    if swap.value.metadata.configPath.Some? {
      config := config.(scriptConfigs := config.scriptConfigs + [ScriptConfig(swap.value.metadata.configPath.value)]);
    }
    assert config.scriptConfigs == mc.scriptConfigs + CompanionScripts(Metadata(before, mapFile));
    var run := DoSetup(sm, config, outGiven);
    ExitCustomMap(fs, swap.value);
    outcome := SetupOutcome(config, run.events, run.raised);
  }

  /** The custom-map part of `setup_match` raises before any setup call: no
      maps directory is found, or one of the two copies into the slot fails. */
  predicate SwapFails(
    files: Files, mapFile: string, launcher: LauncherPreference, executable: Option<string>,
    existingDirectories: set<string>, timestamp: string)
  {
    && IsCustomMap(mapFile)
    && match IdentifyMapDirectory(launcher, executable, existingDirectories)
       case None => true
       case Some(rlDirectory) =>
         SwappedIn(files, mapFile, SlotPath(rlDirectory), BackupPath(rlDirectory, timestamp)).None?
  }

  const MatchStartedMarker: string := "-|-*|MATCH STARTED|*-|-"
  const MatchStartFailedMarker: string := "-|-*|MATCH START FAILED|*-|-"

  /** The one marker printed for a start attempt. */
  function StartMarker(raised: bool): (marker: string)
    ensures marker == MatchStartedMarker <==> !raised
    ensures marker == MatchStartFailedMarker <==> raised
  {
    if raised then MatchStartFailedMarker else MatchStartedMarker
  }

  /** `start_match_wrapper`: runs the setup and reports its outcome by one
      marker; a raised setup is caught. */
  method StartMatchWrapper(
    fs: FileSystem, mc: MatchConfig, launcher: LauncherPreference, executable: Option<string>,
    existingDirectories: set<string>, timestamp: string, sm: SetupManagerBehaviour, outGiven: bool)
    returns (marker: string, outcome: SetupOutcome)
    modifies fs
    ensures marker == StartMarker(outcome.raised)
    ensures marker == StartMarker(
              SwapFails(old(fs.files), mc.gameMap, launcher, executable, existingDirectories, timestamp)
              || SetupRaises(sm))
    ensures outcome.config.playerConfigs == mc.playerConfigs
    ensures !IsCustomMap(mc.gameMap) ==> marker == StartMarker(SetupRaises(sm))
    ensures IsCustomMap(mc.gameMap) && IdentifyMapDirectory(launcher, executable, existingDirectories).None? ==>
              marker == MatchStartFailedMarker
    ensures fs.files == FilesAfterSetup(old(fs.files), mc.gameMap, launcher, executable, existingDirectories, timestamp)
  {
    outcome := SetupMatch(fs, mc, launcher, executable, existingDirectories, timestamp, sm, outGiven);
    WaitIsBounded(sm, mc, outGiven);
    WaitIsBounded(sm, outcome.config, outGiven);
    marker := StartMarker(outcome.raised);
  }

  /** `start_match_helper`: builds the configuration, then starts it. */
  method StartMatchHelper(
    fs: FileSystem, bots: seq<BotEntry>, settings: MatchSettings, launcher: LauncherPreference,
    executable: Option<string>, existingDirectories: set<string>, timestamp: string,
    sm: SetupManagerBehaviour, outGiven: bool)
    returns (marker: string, outcome: SetupOutcome)
    modifies fs
    ensures marker == StartMarker(outcome.raised)
    ensures |outcome.config.playerConfigs| == |bots|
    ensures forall i :: 0 <= i < |bots| ==> outcome.config.playerConfigs[i] == PlayerConfigOf(bots[i], HumanIndexAt(bots, i))
    ensures marker == StartMarker(
              SwapFails(old(fs.files), settings.mapName, launcher, executable, existingDirectories, timestamp)
              || SetupRaises(sm))
    ensures !IsCustomMap(settings.mapName) ==> marker == StartMarker(SetupRaises(sm))
    ensures IsCustomMap(settings.mapName) && IdentifyMapDirectory(launcher, executable, existingDirectories).None? ==>
              marker == MatchStartFailedMarker
    ensures fs.files == FilesAfterSetup(old(fs.files), settings.mapName, launcher, executable, existingDirectories, timestamp)
  {
    var mc := CreateMatchConfig(bots, settings);
    marker, outcome := StartMatchWrapper(fs, mc, launcher, executable, existingDirectories, timestamp, sm, outGiven);
  }
}
