/** The command loop of the match handler: each line is split on `" | "`, its
    first field names the command, and the handler acknowledges some commands
    at once, starts the others in the background and stops on `shut_down`.
    Also the decoding of each command's fields and the team-colour override
    of a story-mode challenge. JSON fields stay as their text: their parsing
    is not part of this model. */
module MatchHandler {
  import opened Wrappers
  import opened Strings
  import opened CustomMap
  import opened StoryMode
  import opened SaveState
  import opened StartMatch

  const CommandSeparator: string := " | "

  // ---------------------------------------------------------------------------
  // Splitting a command line
  // ---------------------------------------------------------------------------

  /** The fields of a command line; there is always at least one. */
  function CommandFields(line: string): (params: seq<string>)
    ensures |params| >= 1
    ensures JoinWith(params, CommandSeparator) == line
  {
    Split(line, CommandSeparator)
  }

  /** Fields without a `|` are cut exactly where they were joined: splitting
      a line the GUI built from such fields gives them back. */
  lemma {:induction false} SplitJoinedFields(fields: seq<string>)
    requires |fields| >= 1
    requires forall i :: 0 <= i < |fields| ==> '|' !in fields[i]
    ensures CommandFields(JoinWith(fields, CommandSeparator)) == fields
  {
    var line := JoinWith(fields, CommandSeparator);
    if |fields| == 1 {
      forall j: nat
        ensures !OccursAt(line, CommandSeparator, j)
      {
        if j + 3 <= |line| {
          assert line[j..j + 3][1] == line[j + 1];
          assert line[j + 1] in fields[0];
        }
      }
      assert Find(line, CommandSeparator).None?;
    } else {
      var head := fields[0];
      var rest := JoinWith(fields[1..], CommandSeparator);
      assert line == head + CommandSeparator + rest;
      assert line[|head|..|head| + 3] == CommandSeparator;
      forall j: nat | j < |head|
        ensures !OccursAt(line, CommandSeparator, j)
      {
        assert line[j..j + 3][1] == line[j + 1];
        if j + 1 < |head| {
          assert line[j + 1] == head[j + 1];
        } else {
          assert line[j + 1] == CommandSeparator[0];
        }
      }
      assert OccursAt(line, CommandSeparator, |head|);
      var found := Find(line, CommandSeparator);
      assert found.Some?;
      assert !(found.value < |head|);
      assert !(found.value > |head|);
      assert line[|head| + 3..] == rest;
      SplitJoinedFields(fields[1..]);
      assert fields == [head] + fields[1..];
    }
  }

  // ---------------------------------------------------------------------------
  // Decoding command fields
  // ---------------------------------------------------------------------------

  /** The executable-path field: the empty string means none. */
  function DecodeExePath(field: string): (r: Option<string>)
    ensures r.None? <==> field == ""
    ensures r.Some? ==> r.value == field
  {
    if field != "" then Some(field) else None
  }

  /** The login-tricks field is read with `bool()` on the string, so any
      non-empty text, `"False"` included, means true. */
  function DecodeLoginTricks(field: string): (r: bool)
    ensures r <==> |field| > 0
  {
    field != ""
  }

  /** The three launcher fields starting at `params[at]`. */
  function DecodeLauncher(params: seq<string>, at: nat): (r: LauncherPreference)
    requires at + 3 <= |params|
    ensures r.preferredLauncher == params[at]
    ensures r.useLoginTricks <==> params[at + 1] != ""
    ensures r.exePath.None? <==> params[at + 2] == ""
    ensures r.exePath.Some? ==> r.exePath.value == params[at + 2]
  {
    LauncherPreference(params[at], DecodeLoginTricks(params[at + 1]), DecodeExePath(params[at + 2]))
  }

  /** `start_match | bot list | match settings | launcher | login tricks | exe path` */
  datatype StartMatchRequest = StartMatchRequest(botList: string, matchSettings: string, launcher: LauncherPreference)

  /** `spawn_car_for_viewing | config | team | showcase type | map | launcher | login tricks | exe path` */
  datatype SpawnViewCarRequest = SpawnViewCarRequest(
    config: string, team: string, showcaseType: string, mapName: string, launcher: LauncherPreference)

  /** `launch_challenge | id | city colour | team colour | upgrades | bot list | match settings | challenge | save state | launcher | login tricks | exe path` */
  datatype LaunchChallengeRequest = LaunchChallengeRequest(
    challengeId: string, cityColor: string, teamColor: string, upgrades: string,
    botList: string, matchSettings: string, challenge: string, saveState: string,
    launcher: LauncherPreference)

  /** Decoding in `start_match`; too few fields raise (none). */
  function DecodeStartMatch(params: seq<string>): (r: Option<StartMatchRequest>)
    ensures r.Some? <==> |params| >= 6
    ensures r.Some? ==> r.value == StartMatchRequest(params[1], params[2], DecodeLauncher(params, 3))
  {
    if |params| < 6 then None
    else Some(StartMatchRequest(params[1], params[2], DecodeLauncher(params, 3)))
  }

  /** Decoding in `spawn_view_car`; too few fields raise (none). */
  function DecodeSpawnViewCar(params: seq<string>): (r: Option<SpawnViewCarRequest>)
    ensures r.Some? <==> |params| >= 8
    ensures r.Some? ==> r.value == SpawnViewCarRequest(params[1], params[2], params[3], params[4], DecodeLauncher(params, 5))
  {
    if |params| < 8 then None
    else Some(SpawnViewCarRequest(params[1], params[2], params[3], params[4], DecodeLauncher(params, 5)))
  }

  /** Decoding in `launch_challenge`; too few fields raise (none). */
  function DecodeLaunchChallenge(params: seq<string>): (r: Option<LaunchChallengeRequest>)
    ensures r.Some? <==> |params| >= 12
    ensures r.Some? ==> r.value == LaunchChallengeRequest(
              params[1], params[2], params[3], params[4], params[5], params[6], params[7], params[8],
              DecodeLauncher(params, 9))
  {
    if |params| < 12 then None
    else Some(LaunchChallengeRequest(
      params[1], params[2], params[3], params[4], params[5], params[6], params[7], params[8],
      DecodeLauncher(params, 9)))
  }

  /** A `start_match` line built from fields without `|` decodes to those
      fields, whatever the login-tricks text says. */
  lemma StartMatchLineRoundTrip(
    botList: string, settings: string, launcher: string, loginTricks: string, exePath: string)
    requires '|' !in botList && '|' !in settings && '|' !in launcher && '|' !in loginTricks && '|' !in exePath
    ensures var line := JoinWith(["start_match", botList, settings, launcher, loginTricks, exePath], CommandSeparator);
            DecodeStartMatch(CommandFields(line)) ==
              Some(StartMatchRequest(botList, settings,
                LauncherPreference(launcher, loginTricks != "", if exePath == "" then None else Some(exePath))))
  {
    var fields := ["start_match", botList, settings, launcher, loginTricks, exePath];
    assert '|' !in fields[0];
    SplitJoinedFields(fields);
  }

  /** A `spawn_car_for_viewing` line built from fields without `|` decodes
      to those fields. */
  lemma SpawnViewCarLineRoundTrip(
    config: string, team: string, showcaseType: string, mapName: string,
    launcher: string, loginTricks: string, exePath: string)
    requires '|' !in config && '|' !in team && '|' !in showcaseType && '|' !in mapName
    requires '|' !in launcher && '|' !in loginTricks && '|' !in exePath
    ensures var line := JoinWith(["spawn_car_for_viewing", config, team, showcaseType, mapName, launcher, loginTricks, exePath], CommandSeparator);
            DecodeSpawnViewCar(CommandFields(line)) ==
              Some(SpawnViewCarRequest(config, team, showcaseType, mapName,
                LauncherPreference(launcher, loginTricks != "", if exePath == "" then None else Some(exePath))))
  {
    var fields := ["spawn_car_for_viewing", config, team, showcaseType, mapName, launcher, loginTricks, exePath];
    assert '|' !in fields[0];
    SplitJoinedFields(fields);
  }

  /** A `launch_challenge` line built from fields without `|` decodes to
      those fields. */
  lemma LaunchChallengeLineRoundTrip(
    challengeId: string, cityColor: string, teamColor: string, upgrades: string,
    botList: string, matchSettings: string, challenge: string, saveState: string,
    launcher: string, loginTricks: string, exePath: string)
    requires '|' !in challengeId && '|' !in cityColor && '|' !in teamColor && '|' !in upgrades
    requires '|' !in botList && '|' !in matchSettings && '|' !in challenge && '|' !in saveState
    requires '|' !in launcher && '|' !in loginTricks && '|' !in exePath
    ensures var line := JoinWith(["launch_challenge", challengeId, cityColor, teamColor, upgrades, botList,
                                  matchSettings, challenge, saveState, launcher, loginTricks, exePath], CommandSeparator);
            DecodeLaunchChallenge(CommandFields(line)) ==
              Some(LaunchChallengeRequest(challengeId, cityColor, teamColor, upgrades, botList,
                matchSettings, challenge, saveState,
                LauncherPreference(launcher, loginTricks != "", if exePath == "" then None else Some(exePath))))
  {
    var fields := ["launch_challenge", challengeId, cityColor, teamColor, upgrades, botList,
                   matchSettings, challenge, saveState, launcher, loginTricks, exePath];
    assert '|' !in fields[0];
    SplitJoinedFields(fields);
  }

  // ---------------------------------------------------------------------------
  // Dispatch
  // ---------------------------------------------------------------------------

  /** The work a command starts in the background, with the fields it reads. */
  datatype Task =
    | StartMatchTask(params: seq<string>)
    | FetchGtpTask
    | SetStateTask(params: seq<string>)
    | SpawnViewCarTask(params: seq<string>)
    | LaunchChallengeTask(params: seq<string>)

  /** What the handler puts on the output queue at once for a command. */
  function Acknowledgement(name: string): (r: seq<string>)
    ensures r == ["done"] <==> name == "kill_bots" || name == "set_state" || name == "spawn_car_for_viewing"
    ensures r == ["shut_down"] <==> name == "shut_down"
    ensures r == [] <==> !(name in {"kill_bots", "set_state", "spawn_car_for_viewing", "shut_down"})
  {
    if name == "kill_bots" || name == "set_state" || name == "spawn_car_for_viewing" then ["done"]
    else if name == "shut_down" then ["shut_down"]
    else []
  }

  /** The background task a command starts, if any. */
  function Started(params: seq<string>): (r: Option<Task>)
    requires |params| >= 1
    ensures r.Some? <==> params[0] in {"start_match", "fetch_gtp", "set_state", "spawn_car_for_viewing", "launch_challenge"}
    ensures params[0] == "start_match" ==> r == Some(StartMatchTask(params))
    ensures params[0] == "fetch_gtp" ==> r == Some(FetchGtpTask)
    ensures params[0] == "set_state" ==> r == Some(SetStateTask(params))
    ensures params[0] == "spawn_car_for_viewing" ==> r == Some(SpawnViewCarTask(params))
    ensures params[0] == "launch_challenge" ==> r == Some(LaunchChallengeTask(params))
  {
    match params[0]
    case "start_match" => Some(StartMatchTask(params))
    case "fetch_gtp" => Some(FetchGtpTask)
    case "set_state" => Some(SetStateTask(params))
    case "spawn_car_for_viewing" => Some(SpawnViewCarTask(params))
    case "launch_challenge" => Some(LaunchChallengeTask(params))
    case _ => None
  }

  function CommandName(line: string): string
  {
    CommandFields(line)[0]
  }

  /** How many lines the handler reads: up to and including the first
      `shut_down`, or all of them. */
  function LinesRead(lines: seq<string>): (n: nat)
    ensures n <= |lines| && (|lines| > 0 ==> n > 0)
    ensures forall i :: 0 <= i < n - 1 ==> CommandName(lines[i]) != "shut_down"
    ensures n < |lines| ==> n > 0 && CommandName(lines[n - 1]) == "shut_down"
    ensures n == |lines| && n > 0 && CommandName(lines[n - 1]) != "shut_down" ==>
              forall i :: 0 <= i < n ==> CommandName(lines[i]) != "shut_down"
  {
    if lines == [] then 0
    else if CommandName(lines[0]) == "shut_down" then 1
    else
      var tail := lines[1..];
      var rest := LinesRead(tail);
      forall i | 1 <= i < |lines|
        ensures CommandName(lines[i]) == CommandName(tail[i - 1])
      {
        assert lines[i] == tail[i - 1];
      }
      1 + rest
  }

  /** Everything acknowledged, in order, for the lines read. */
  function AllAcknowledgements(lines: seq<string>): seq<string>
  {
    if lines == [] then []
    else AllAcknowledgements(lines[..|lines| - 1]) + Acknowledgement(CommandName(lines[|lines| - 1]))
  }

  /** Every task started, in order, for the lines read. */
  function AllTasks(lines: seq<string>): seq<Task>
  {
    if lines == [] then []
    else
      var last := Started(CommandFields(lines[|lines| - 1]));
      AllTasks(lines[..|lines| - 1]) + (if last.Some? then [last.value] else [])
  }

  /** How many of the lines are `kill_bots`. */
  function KillCount(lines: seq<string>): nat
  {
    if lines == [] then 0
    else KillCount(lines[..|lines| - 1]) + (if CommandName(lines[|lines| - 1]) == "kill_bots" then 1 else 0)
  }

  /** The setup manager's session: whether a match has started, and how many
      shutdowns were requested of it. The shutdown itself is not part of this
      model. */
  class Session {
    var hasStarted: bool
    var shutDowns: nat

    constructor (hasStarted: bool)
      ensures this.hasStarted == hasStarted && shutDowns == 0
    {
      this.hasStarted := hasStarted;
      shutDowns := 0;
    }
  }

  /** `stop_match`: shuts down only a started session. */
  method StopMatch(session: Session)
    modifies session
    ensures session.hasStarted == old(session.hasStarted)
    ensures session.shutDowns == old(session.shutDowns) + (if old(session.hasStarted) then 1 else 0)
  {
    if session.hasStarted {
      session.shutDowns := session.shutDowns + 1;
    }
  }

  /** One pass of the loop in `match_handler`: the dispatch on the command
      name. Only `kill_bots` stops the match, and only `shut_down` ends the
      loop. */
  method HandleCommand(params: seq<string>, session: Session) returns (acknowledged: seq<string>, task: Option<Task>, online: bool)
    requires |params| >= 1
    modifies session
    ensures acknowledged == Acknowledgement(params[0])
    ensures task == Started(params)
    ensures online <==> params[0] != "shut_down"
    ensures session.hasStarted == old(session.hasStarted)
    ensures session.shutDowns ==
              old(session.shutDowns) + (if old(session.hasStarted) && params[0] == "kill_bots" then 1 else 0)
  {
    acknowledged, task, online := [], None, true;
    var name := params[0];
    if name == "start_match" {
      task := Some(StartMatchTask(params));
    } else if name == "kill_bots" {
      StopMatch(session);
      acknowledged := ["done"];
    } else if name == "shut_down" {
      online := false;
      acknowledged := ["shut_down"];
    } else if name == "fetch_gtp" {
      task := Some(FetchGtpTask);
    } else if name == "set_state" {
      task := Some(SetStateTask(params));
      acknowledged := ["done"];
    } else if name == "spawn_car_for_viewing" {
      task := Some(SpawnViewCarTask(params));
      acknowledged := ["done"];
    } else if name == "launch_challenge" {
      task := Some(LaunchChallengeTask(params));
    }
  }

  /** The per-line summaries grow by one line at a time. */
  lemma LineStep(lines: seq<string>, read: nat)
    requires read < |lines|
    ensures AllAcknowledgements(lines[..read + 1]) == AllAcknowledgements(lines[..read]) + Acknowledgement(CommandName(lines[read]))
    ensures var t := Started(CommandFields(lines[read]));
            AllTasks(lines[..read + 1]) == AllTasks(lines[..read]) + (if t.Some? then [t.value] else [])
    ensures KillCount(lines[..read + 1]) == KillCount(lines[..read]) + (if CommandName(lines[read]) == "kill_bots" then 1 else 0)
  {
    assert lines[..read + 1][..read] == lines[..read];
  }

  /** The lines read end with `shut_down`, so the loop has ended. */
  predicate ShutDownReceived(lines: seq<string>)
  {
    var n := LinesRead(lines);
    n > 0 && CommandName(lines[n - 1]) == "shut_down"
  }

  /** `match_handler` over the lines received so far: reads them until
      `shut_down`, acknowledging and starting work per line, and stops the
      match once the loop ends. When the lines run out first, the loop is
      still waiting for the next one and has not stopped the match. */
  method HandleCommands(lines: seq<string>, session: Session) returns (out: seq<string>, tasks: seq<Task>, read: nat)
    modifies session
    ensures read == LinesRead(lines)
    ensures out == AllAcknowledgements(lines[..read])
    ensures tasks == AllTasks(lines[..read])
    ensures session.hasStarted == old(session.hasStarted)
    ensures session.shutDowns ==
              old(session.shutDowns)
              + (if old(session.hasStarted)
                 then KillCount(lines[..read]) + (if ShutDownReceived(lines) then 1 else 0)
                 else 0)
  {
    out, tasks, read := [], [], 0;
    var online := true;
    ghost var started := session.hasStarted;
    ghost var shutDowns0 := session.shutDowns;
    while online && read < |lines|
      invariant read <= |lines|
      invariant read <= LinesRead(lines)
      invariant !online ==> read == LinesRead(lines)
      invariant online && read > 0 ==> CommandName(lines[read - 1]) != "shut_down"
      invariant !online ==> read > 0 && CommandName(lines[read - 1]) == "shut_down"
      invariant out == AllAcknowledgements(lines[..read])
      invariant tasks == AllTasks(lines[..read])
      invariant session.hasStarted == started
      invariant session.shutDowns == shutDowns0 + (if started then KillCount(lines[..read]) else 0)
    {
      var command := lines[read];
      LineStep(lines, read);
      ReadStep(lines, read);
      ghost var before := read;
      read := read + 1;
      var params := Split(command, CommandSeparator);
      if |params| == 0 {
        assert false;
      }
      assert params == CommandFields(lines[before]);
      var acknowledged, task;
      acknowledged, task, online := HandleCommand(params, session);
      out := out + acknowledged;
      if task.Some? {
        tasks := tasks + [task.value];
      }
    }
    if !online {
      StopMatch(session);
    }
  }

  /** Reading goes on past every line before the first `shut_down`. */
  lemma {:induction false} ReadStep(lines: seq<string>, read: nat)
    requires read < LinesRead(lines)
    ensures CommandName(lines[read]) == "shut_down" ==> LinesRead(lines) == read + 1
  {
    if read > 0 {
      assert lines[1..][read - 1] == lines[read];
      ReadStep(lines[1..], read - 1);
    }
  }

  // ---------------------------------------------------------------------------
  // launch_challenge
  // ---------------------------------------------------------------------------

  /** `Team.BLUE` */
  const Blue: int := 0

  /** The colour override of one player configuration: a bot on blue gets the
      team colour as its custom colour, any other bot gets the city colour as
      its team colour when there is one. A bot that must be recoloured but has
      no loadout raises (none). */
  function Recolored(pc: PlayerConfig, cityColor: Option<int>, teamColor: Option<int>): (r: Option<PlayerConfig>)
    ensures !pc.bot ==> r == Some(pc)
    ensures pc.bot && pc.team != Blue && cityColor.None? ==> r == Some(pc)
    ensures r.None? <==> pc.bot && pc.loadout.None? && (pc.team == Blue || cityColor.Some?)
    ensures r.Some? ==> r.value.(loadout := pc.loadout) == pc
    ensures r.Some? && pc.bot && pc.team == Blue ==>
              r.value.loadout == Some(pc.loadout.value.(customColorId := Assigned(teamColor)))
    ensures r.Some? && pc.bot && pc.team != Blue && cityColor.Some? ==>
              r.value.loadout == Some(pc.loadout.value.(teamColorId := Assigned(cityColor)))
  {
    if !pc.bot then Some(pc)
    else if pc.team == Blue then
      if pc.loadout.None? then None
      else Some(pc.(loadout := Some(pc.loadout.value.(customColorId := Assigned(teamColor)))))
    else if cityColor.Some? then
      if pc.loadout.None? then None
      else Some(pc.(loadout := Some(pc.loadout.value.(teamColorId := Assigned(cityColor)))))
    else Some(pc)
  }

  /** Recolouring twice gives what recolouring once gives. */
  lemma RecoloringIsIdempotent(pc: PlayerConfig, cityColor: Option<int>, teamColor: Option<int>)
    requires Recolored(pc, cityColor, teamColor).Some?
    ensures Recolored(Recolored(pc, cityColor, teamColor).value, cityColor, teamColor) == Recolored(pc, cityColor, teamColor)
  {
  }

  /** The override loop of `launch_challenge`, in place over the player
      configurations; it stops at the first configuration that raises. */
  method ApplyTeamColors(configs: array<PlayerConfig>, cityColor: Option<int>, teamColor: Option<int>)
    returns (ok: bool)
    modifies configs
    ensures ok <==> forall i :: 0 <= i < configs.Length ==> Recolored(old(configs[i]), cityColor, teamColor).Some?
    ensures ok ==> forall i :: 0 <= i < configs.Length ==> configs[i] == Recolored(old(configs[i]), cityColor, teamColor).value
    ensures !ok ==> exists f ::
              && 0 <= f < configs.Length
              && Recolored(old(configs[f]), cityColor, teamColor).None?
              && (forall i :: 0 <= i < f ==>
                    Recolored(old(configs[i]), cityColor, teamColor).Some?
                    && configs[i] == Recolored(old(configs[i]), cityColor, teamColor).value)
              && (forall i :: f <= i < configs.Length ==> configs[i] == old(configs[i]))
  {
    for k := 0 to configs.Length
      invariant forall i :: 0 <= i < k ==> Recolored(old(configs[i]), cityColor, teamColor).Some?
      invariant forall i :: 0 <= i < k ==> configs[i] == Recolored(old(configs[i]), cityColor, teamColor).value
      invariant forall i :: k <= i < configs.Length ==> configs[i] == old(configs[i])
    {
      var config := configs[k];
      if config.bot {
        if config.team == Blue {
          if config.loadout.None? {
            return false;
          }
          configs[k] := config.(loadout := Some(config.loadout.value.(customColorId := Assigned(teamColor))));
        } else if cityColor.Some? {
          if config.loadout.None? {
            return false;
          }
          configs[k] := config.(loadout := Some(config.loadout.value.(teamColorId := Assigned(cityColor))));
        }
      }
    }
    ok := true;
  }

  /** `launch_challenge` once its fields are parsed: the match configuration,
      the colour override, then the challenge's outcome (`completed` and
      `results`, which come from running it) recorded in the save state.
      A raised override records nothing. */
  method LaunchChallenge(
    challengeId: string, cityColor: Option<int>, teamColor: Option<int>,
    bots: seq<BotEntry>, settings: MatchSettings, save: SaveState,
    completed: bool, results: Option<GameResults>)
    returns (configs: array<PlayerConfig>, recorded: bool)
    modifies save
    ensures fresh(configs) && configs.Length == |bots|
    ensures recorded <==> forall i :: 0 <= i < |bots| ==>
              Recolored(PlayerConfigOf(bots[i], HumanIndexAt(bots, i)), cityColor, teamColor).Some?
    ensures recorded ==> forall i :: 0 <= i < |bots| ==>
              configs[i] == Recolored(PlayerConfigOf(bots[i], HumanIndexAt(bots, i)), cityColor, teamColor).value
    ensures recorded ==>
              && save.challengesAttempts ==
                   old(save.challengesAttempts)[challengeId :=
                     AttemptsOf(old(save.challengesAttempts), challengeId) + [Attempt(results, completed)]]
              && save.currency == old(save.currency) + (if completed then CompletionReward else 0)
              && save.challengesCompleted ==
                   if completed
                   then old(save.challengesCompleted)[challengeId := |AttemptsOf(old(save.challengesAttempts), challengeId)|]
                   else old(save.challengesCompleted)
    ensures CompletionsPointAtSuccesses(old(save.challengesAttempts), old(save.challengesCompleted)) ==>
              CompletionsPointAtSuccesses(save.challengesAttempts, save.challengesCompleted)
    ensures !recorded ==>
              && save.challengesAttempts == old(save.challengesAttempts)
              && save.challengesCompleted == old(save.challengesCompleted)
              && save.currency == old(save.currency)
  {
    var mc := CreateMatchConfig(bots, settings);
    configs := new PlayerConfig[|mc.playerConfigs|](i requires 0 <= i < |mc.playerConfigs| => mc.playerConfigs[i]);
    assert forall i :: 0 <= i < configs.Length ==> configs[i] == PlayerConfigOf(bots[i], HumanIndexAt(bots, i));
    recorded := ApplyTeamColors(configs, cityColor, teamColor);
    if recorded {
      save.AddMatchResult(challengeId, completed, results);
    }
  }
}
