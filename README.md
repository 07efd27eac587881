# rlbot_smh in Dafny

A Dafny model of the deterministic core of the RLBot story-mode and match
handler (`rlbot_smh`), the Python process that the GUI drives over a
line-based command channel. The model covers:

- **Challenge verdicts** (`story_mode.dfy`, module `StoryMode`):
  - the final-results record built from the last telemetry tick, with its
    stable descending sort of team scores, on both builds of the telemetry
    structure (on non-Windows builds the score and team-index fields arrive
    swapped);
  - the perma-fail, completion and mercy rules over a challenge's
    completion conditions;
  - the per-tick boost decision taken while a challenge runs.
- **The manual stats tracker** (`stats_tracker.dfy`, module `StatsTracker`):
  - a class with array fields, like the Python object;
  - edge-triggered demolition counting through a latched flag per player
    slot;
  - goal attribution through the last touch and last score stored per team,
    with Python's negative list indexing written out;
  - lemmas about runs of many ticks.
- **The save state** (`save_state.dfy`, module `SaveState`): how
  `add_match_result` updates the attempt lists, the completed-index map and
  the currency in place.
- **The custom-map swap** (`custom_map.dfy`, module `CustomMap`):
  - path derivation for the companion configuration, the slot and the
    backup;
  - a filesystem modelled as a map from path to contents, with `shutil.copy2`
    and `os.replace`;
  - entering and leaving `prepare_custom_map`;
  - how `identify_map_directory` resolves the maps directory.
- **Match configuration and start** (`start_match.dfy`, module `StartMatch`):
  - player configurations and the shared human-index counter;
  - `create_match_config`;
  - the six-call setup sequence with its bounded metadata wait;
  - the custom-map branch of `setup_match`;
  - the marker printed by `start_match_wrapper`.
- **The command handler** (`match_handler.dfy`, module `MatchHandler`):
  - splitting a command line on `" | "`;
  - decoding the fields of `start_match`, `spawn_car_for_viewing` and
    `launch_challenge`;
  - the dispatch loop with its acknowledgements;
  - the guard of `stop_match`;
  - the in-place team-colour override of `launch_challenge`.

`strings.dfy` (module `Strings`) holds the Python string operations the
source relies on: `endswith`, the clamping slice `s[:-n]` and `split`. Its
`Find` (the leftmost occurrence of a separator) is a helper that defines
`Split`; the source itself does not call `find`. `wrappers.dfy` holds `Option`.

Inputs the source reads from its environment are parameters of the model:
- `platform.system()` becomes a `Platform` value;
- `datetime.now()` becomes a timestamp string;
- `time.monotonic()` becomes an integer millisecond clock;
- `path.exists` becomes membership in the filesystem map or in a set of
  existing paths;
- the launcher executable located by rlbot becomes an `Option<string>`;
- the setup manager is a `SetupManagerBehaviour`: which of its calls
  raises, and after how many polls all bot metadata has arrived.

The model follows the code as written, including three behaviours a reader
may not expect:
- `add_match_result` records the index of the latest completing attempt,
  and adds 2 currency on every completion.
- `end_by_mercy` goes through `calculate_completion`, which checks
  perma-fail itself, so mercy never ends a perma-failed challenge.
- A challenge whose conditions omit `win` still requires a win, because the
  flag defaults to required. So a goals-only challenge is completed only
  when the human's team won.

Behaviour of the code, not errors in it, that the model makes explicit:
- The two copies of `prepare_custom_map` run before its `try`. If the
  second copy fails, the backup copy stays behind
  (`CustomMap.FailedSwapLeavesBackup`).
- An RLBot-controlled bot without a bundle path gets no loadout. The colour
  override of `launch_challenge` raises on such a bot when it is on blue, or
  when a city colour is given (`MatchHandler.Recolored`).
- The login-tricks field is read with `bool()` on the string, so `"False"`
  means true (`MatchHandler.DecodeLoginTricks`).
- On non-Windows builds a team's index is read from its raw score field,
  less one. When both raw score fields read 0, both readings carry index −1,
  and Python's negative indexing sends both to the second team's slot
  (`StatsTracker.ZeroScoreFieldsShareSlot`).

## Model

| member | source | states |
|---|---|---|
| Strings.DropLast | src/rlbot_smh/custom_map_util.py:27 | `s[:-n]` drops the last `n` characters, and gives the empty string when `s` is shorter: the result is always a prefix of `s` |
| Strings.Split | src/rlbot_smh/match_handler.py:103 | `str.split` gives at least one field, and joining the fields with the separator gives back the line |
| Strings.SplitFieldsLackSeparator | src/rlbot_smh/match_handler.py:103 | no field of a split contains the separator |
| StoryMode.Readings | src/rlbot_smh/story_mode_util.py:75-87 | one entry per team slot, in packet order, read as named on Windows and with score and team index swapped (index off by one) elsewhere |
| StoryMode.SortDescending | src/rlbot_smh/story_mode_util.py:89 | the sort by score in reverse is descending, a permutation of its input, and stable: the entries with any given score keep their relative order |
| StoryMode.SortedHeadIsMaximum | src/rlbot_smh/story_mode_util.py:89-90 | the first sorted entry has the highest score, and among the entries tied for that score it is the earliest one in the packet |
| StoryMode.FirstHuman | src/rlbot_smh/story_mode_util.py:53-54 | the index of the first non-bot car; none exactly when every car is a bot, where `next` raises |
| StoryMode.CountNamed | src/rlbot_smh/story_mode_util.py:56-72 | the number of named car slots never exceeds the number of slots |
| StoryMode.CountNamedExtremes | src/rlbot_smh/story_mode_util.py:56-72 | no slot is counted iff no car is named, and every slot is counted iff every car is named |
| StoryMode.NamedStats | src/rlbot_smh/story_mode_util.py:56-72 | one name/team record per car slot with a non-empty name, in slot order: the record of slot `i` sits after those of the named slots before it, and every record has a non-empty name |
| StoryMode.NamedStatsMembers | src/rlbot_smh/story_mode_util.py:56-72 | every named car has its record, and every record belongs to a named car |
| StoryMode.PacketToGameResults | src/rlbot_smh/story_mode_util.py:49-98 | there is a result iff some car is not a bot and there is a team entry. The result holds the first human's team, the sorted scores as a stable descending permutation of the readings, `human_won` iff the first entry's team is the human's, the named-car stats and the timestamp |
| StoryMode.HumanWonOnTwoTeams | src/rlbot_smh/story_mode_util.py:89-90 | with two team slots, the human wins iff the human's team reads the higher score; on a tie the verdict follows the first team slot |
| StoryMode.HasUserPermaFailed | src/rlbot_smh/story_mode_util.py:101-116 | perma-fail holds iff there are conditions with a `selfDemoCount` and the human was demolished more often than that |
| StoryMode.CalculateCompletion | src/rlbot_smh/story_mode_util.py:130-166 | without conditions, exactly `human_won`. Otherwise completion iff no perma-fail, a win unless `win` is explicitly false, and every present score-difference, demolition and goal condition met. Never true after a perma-fail |
| StoryMode.EndByMercy | src/rlbot_smh/story_mode_util.py:118-127 | mercy iff the first score leads the second by at least 5 and the challenge is completed; never at a lead of 4 or less, never after a perma-fail |
| StoryMode.GoalsOnlyChallenge | src/rlbot_smh/story_mode_util.py:145-164 | a challenge that only asks for 2 goals is completed by 2 human goals iff the human's team won |
| StoryMode.SelfDemoLimitExceeded | src/rlbot_smh/story_mode_util.py:101-127 | two demolitions against a self-demolition limit of 1 perma-fail the challenge, which is then neither completed nor ended by mercy |
| StoryMode.MaxBoost | src/rlbot_smh/story_mode_util.py:262-266 | the boost cap is 100 iff `boost-100` is owned, else 33 with `boost-33`, else 0 |
| StoryMode.BoostAdjust | src/rlbot_smh/story_mode_util.py:302-318 | a state-set is issued iff the clamp (boost above the cap, not half-field) or the recharge (upgrade owned, boost below the cap, more than 100 ms since the last bump) fires. The clamp sets the cap and the recharge sets boost + 1. A set boost never passes the cap and always moves toward it. The bump time advances exactly when the recharge fires |
| StoryMode.HalfFieldNeverClamps | src/rlbot_smh/story_mode_util.py:268-307 | in a challenge whose limitations include `half-field`, the boost is never clamped: a state-set is issued iff the recharge fires, and a boost at or above the cap is left alone |
| StoryMode.BoostClampAt33 | src/rlbot_smh/story_mode_util.py:302-307 | with `boost-33`, a boost of 50 is set to 33, and a boost of at most 33 is left alone without the recharge upgrade |
| StatsTracker.PyIndex | src/rlbot_smh/story_mode_util.py:206 | Python's `xs[k]`: a non-negative `k` is itself, and a negative `k` counts from the end |
| StatsTracker.Latched | src/rlbot_smh/story_mode_util.py:191-197 | after a tick each slot's flag is that car's demolished state, whichever branch set it |
| StatsTracker.SlotsReached | src/rlbot_smh/story_mode_util.py:191-192 | the demolition loop reaches every tracked slot iff there are at most 64 of them, and otherwise the first 64 |
| StatsTracker.ScoreUpdates | src/rlbot_smh/story_mode_util.py:208-223 | reading the team entries in order keeps two stored scores and credits at most one goal per entry |
| StatsTracker.ManualStatsTracker.constructor | src/rlbot_smh/story_mode_util.py:170-184 | counters start at 0; one cleared flag per player of the challenge; no touches; stored scores 0 and 0 |
| StatsTracker.ManualStatsTracker.UpdateStats | src/rlbot_smh/story_mode_util.py:186-223 | one tick: the flags of the slots reached latch the demolished states and each counter grows by the rising edges it accepts. It raises iff more than 64 players are tracked, and then nothing else changes. Otherwise the touch is stored in its team's slot (negative index included), and the scores and goals follow `ScoreUpdates`, where a negative touch index counts from the end of the car array. No counter decreases |
| StatsTracker.ManualStatsTracker.CountDemos | src/rlbot_smh/story_mode_util.py:190-202 | the demolition loop over the slots reached: flags latch, later flags are untouched, and each counter grows by the rising edges it accepts. It raises at slot 64 iff more than 64 players are tracked |
| StatsTracker.ManualStatsTracker.LatchSlot | src/rlbot_smh/story_mode_util.py:193-202 | one slot: its flag becomes the car's demolished state and no other flag changes; a rising edge of a non-bot counts as a received demolition, one of a bot at index ≥ the human team size as an opponent demolition |
| StatsTracker.ManualStatsTracker.CreditGoals | src/rlbot_smh/story_mode_util.py:208-223 | the score loop: each team entry whose read score differs from the stored one replaces it, and is credited when that team's last touch is by a named non-bot |
| StatsTracker.DemosOverIsSumOfSlots | src/rlbot_smh/story_mode_util.py:191-202 | over a run of ticks the tracker's count equals the sum over slots of each slot's accepted rising edges: every demolition counts once, in the tick it begins |
| StatsTracker.HeldDemolitionCountsOnce | src/rlbot_smh/story_mode_util.py:191-202 | a car held demolished for any number of ticks adds exactly 1 to the counter it feeds, and 0 when its flag was already latched |
| StatsTracker.StillDemolishedAddsNothing | src/rlbot_smh/story_mode_util.py:193-194 | a latched slot that stays demolished adds nothing |
| StatsTracker.TeammateBotNeverCounts | src/rlbot_smh/story_mode_util.py:198-202 | a bot at an index below the human team size feeds neither counter |
| StatsTracker.UnchangedScoresCreditNothing | src/rlbot_smh/story_mode_util.py:216-223 | when every read score equals the stored one, nothing is stored and no goal is credited |
| StatsTracker.TwoTeamsUpdateTheirOwnSlots | src/rlbot_smh/story_mode_util.py:208-223 | with team indices 0 and 1, each stored score becomes its team's reading, and one goal is credited per changed team whose last touch is by a named non-bot |
| StatsTracker.ZeroScoreFieldsShareSlot | src/rlbot_smh/story_mode_util.py:208-217 | on non-Windows builds, when both raw score fields read 0, both readings index slot −1: the second slot ends with the second team's reading and the first slot is untouched |
| SaveState.AttemptsOf | src/rlbot_smh/story_mode_util.py:359-361 | a challenge's attempt list, the empty list when it has none yet |
| SaveState.SaveState.AddMatchResult | src/rlbot_smh/story_mode_util.py:354-372 | exactly one attempt record is appended to the challenge's list, which is created if absent. A completion records the new last index and adds 2 currency; otherwise both are unchanged. Every recorded completion index keeps pointing at a completing attempt |
| CustomMap.Basename | src/rlbot_smh/custom_map_util.py:27 | the basename contains no separator |
| CustomMap.Join | src/rlbot_smh/custom_map_util.py:28 | joining a plain name gives a path whose basename is that name and whose dirname is the directory |
| CustomMap.CompanionConfigPath | src/rlbot_smh/custom_map_util.py:27-28 | the companion configuration sits in the custom map's directory, named `_` + the map's basename without its last four characters + `.cfg` |
| CustomMap.BackupPath | src/rlbot_smh/custom_map_util.py:36-38 | the backup path extends the slot path, so it is never the slot itself |
| CustomMap.CopyFile | src/rlbot_smh/custom_map_util.py:40-42 | `copy2` succeeds iff the source exists and is not the destination. Then the destination holds the source's contents and no other path changes |
| CustomMap.ReplaceFile | src/rlbot_smh/custom_map_util.py:48 | `os.replace` succeeds iff the source exists. Then the source is gone, the destination holds its contents and no other path changes |
| CustomMap.FileSystem.Copy | src/rlbot_smh/custom_map_util.py:40-42 | the filesystem after a copy is `CopyFile`'s result, and unchanged when the copy raises |
| CustomMap.FileSystem.Replace | src/rlbot_smh/custom_map_util.py:48 | the filesystem after a replace is `ReplaceFile`'s result, and unchanged when it raises |
| CustomMap.Metadata | src/rlbot_smh/custom_map_util.py:29-33 | the metadata always carries the custom file as its original path, and carries the companion path iff that file exists |
| CustomMap.SwappedInContents | src/rlbot_smh/custom_map_util.py:40-46 | inside the scope the backup holds the slot's prior contents, the slot holds the custom file's, the backup is the only new path, and nothing else changes |
| CustomMap.SwappedInSucceeds | src/rlbot_smh/custom_map_util.py:40-42 | both copies succeed iff the slot exists and the custom file exists and is not the slot |
| CustomMap.ExitRestores | src/rlbot_smh/custom_map_util.py:45-48 | the exit's rename gives back exactly the files before entry, less the backup path: the slot's contents are restored, the backup is gone, nothing else changed |
| CustomMap.FailedSwapLeavesBackup | src/rlbot_smh/custom_map_util.py:40-45 | when only the second copy fails, the scope is never entered and the backup copy remains |
| CustomMap.EnterCustomMap | src/rlbot_smh/custom_map_util.py:26-46 | entering succeeds iff both copies do. It then yields `UtopiaRetro`, the metadata, the slot and the backup, and the files are the swapped-in state. A failing copy leaves the effect of the copies that succeeded |
| CustomMap.ExitCustomMap | src/rlbot_smh/custom_map_util.py:47-48 | leaving the scope renames the backup over the slot |
| CustomMap.MapDirectoryFrom | src/rlbot_smh/custom_map_util.py:55-73 | the Steam directory extends the executable's directory and ends in the Steam suffix; the Epic one extends the directory two levels up and ends in the Epic suffix |
| CustomMap.MapDirectoryBasename | src/rlbot_smh/custom_map_util.py:55-73 | the derived directory's last component is exactly the launcher's suffix |
| CustomMap.IdentifyMapDirectory | src/rlbot_smh/custom_map_util.py:52-78 | none iff no executable was found or the derived directory does not exist; otherwise the launcher-specific derived directory, which exists |
| StartMatch.RunnableTypeClasses | src/rlbot_smh/start_match_util.py:22-23 | `rlbot` is both a bot and RLBot-controlled, `psyonix` only a bot, `party_member_bot` only RLBot-controlled, and every other type neither |
| StartMatch.PlayerConfigOf | src/rlbot_smh/start_match_util.py:20-38 | the flags follow the runnable type, a bot has human index 0, skill, name and team are copied. A non-empty path sets the configuration path and a bundle loadout for the team; else a non-RLBot bot gets a random preset; else there is no loadout |
| StartMatch.RandomPresetOnlyForPsyonix | src/rlbot_smh/start_match_util.py:29-36 | a random preset is chosen iff the player is a Psyonix bot without a path; there is no loadout iff the player is neither a Psyonix bot nor has a path |
| StartMatch.HumanIndexTracker.Increment | src/rlbot_smh/start_match_util.py:25 | the counter returns its value, then moves on by one |
| StartMatch.CreatePlayerConfig | src/rlbot_smh/start_match_util.py:20-38 | builds `PlayerConfigOf` of the entry at the counter's value, and only a non-bot advances the counter |
| StartMatch.CountHumansExtremes | src/rlbot_smh/start_match_util.py:132-133 | the count of non-bot entries is 0 iff every entry is a bot, and the list's length iff none is |
| StartMatch.HumanIndicesConsecutive | src/rlbot_smh/start_match_util.py:132-133 | each later non-bot gets a larger human index, and the indices drawn are exactly 0 up to the number of non-bots |
| StartMatch.DrawnIndicesAreRange | src/rlbot_smh/start_match_util.py:132-133 | the indices drawn by the first n entries are exactly those below the counter's value after them |
| StartMatch.CreateMatchConfig | src/rlbot_smh/start_match_util.py:101-136 | every setting and the mutators are copied; one player configuration per entry in order, each drawn from a counter starting at 0; one script configuration per script with its path |
| StartMatch.CallsMade | src/rlbot_smh/start_match_util.py:51-60 | the calls made are a prefix of the six setup calls in their fixed order: all six when none raises, otherwise up to and including the one that raises |
| StartMatch.PollsMade | src/rlbot_smh/start_match_util.py:67-76 | the wait loop makes at most 40 polls |
| StartMatch.Polls | src/rlbot_smh/start_match_util.py:69-76 | a sleep precedes every poll but the first |
| StartMatch.DoSetup | src/rlbot_smh/start_match_util.py:50-80 | the events of `do_setup` are the calls until one raises. If none raises, they are followed by `"done"` when there is an output queue, the polls of the bounded wait, and the warning when metadata is still missing |
| StartMatch.WaitIsBounded | src/rlbot_smh/start_match_util.py:67-80 | with no failing call the setup never raises, sleeps exactly before the polls that follow a poll, has at most 48 events, and warns iff metadata never arrives or arrives after more than 40 polls |
| StartMatch.LoadsGivenConfig | src/rlbot_smh/start_match_util.py:56-57 | the configuration loaded is the one the setup was given, and it is loaded iff neither of the first two calls raises |
| StartMatch.DoneFollowsLaunch | src/rlbot_smh/start_match_util.py:58-63 | `"done"` is put iff there is an output queue and no call raised, and only after the bot processes were launched |
| StartMatch.CompanionScripts | src/rlbot_smh/start_match_util.py:91-94 | one script with the companion path iff the metadata carries one |
| StartMatch.SetupMatch | src/rlbot_smh/start_match_util.py:45-98 | a map not ending in `.upk`/`.udk` runs the setup unchanged. A custom map without a directory raises before any call. A failed swap raises. Otherwise the configuration that the setup loads is the given one with the map renamed and the companion script appended, and afterwards the files are those before, less the backup. In every case the files end as `FilesAfterSetup` gives |
| StartMatch.StartMarker | src/rlbot_smh/start_match_util.py:145-150 | exactly one marker: started iff the setup did not raise |
| StartMatch.StartMatchWrapper | src/rlbot_smh/start_match_util.py:139-150 | the marker reports whether the setup raised, with the player configurations untouched: `MATCH START FAILED` exactly when the map is custom and no maps directory is found or a copy into the slot fails, or when a setup call raises, and `MATCH STARTED` otherwise; the files end as `setup_match` leaves them |
| StartMatch.StartMatchHelper | src/rlbot_smh/start_match_util.py:153-154 | starts the configuration built from the bot list, with one configuration per entry in order; the marker is `MATCH START FAILED` exactly when the custom-map swap fails (no maps directory, or a failed copy) or a setup call raises, and the files are as for `start_match_wrapper` |
| MatchHandler.CommandFields | src/rlbot_smh/match_handler.py:103-105 | a command line always has at least one field, so the empty-split branch is unreachable, and its fields join back to the line |
| MatchHandler.SplitJoinedFields | src/rlbot_smh/match_handler.py:103 | a line built from fields without `\|` splits back into those fields |
| MatchHandler.DecodeExePath | src/rlbot_smh/match_handler.py:24-27 | the executable path is absent iff its field is empty, and otherwise is the field |
| MatchHandler.DecodeLoginTricks | src/rlbot_smh/match_handler.py:23 | the flag is true iff its field is non-empty |
| MatchHandler.DecodeLauncher | src/rlbot_smh/match_handler.py:22-29 | the launcher preference takes the launcher name, the login-tricks flag and the optional executable path from three consecutive fields |
| MatchHandler.DecodeStartMatch | src/rlbot_smh/match_handler.py:18-29 | decodes iff the line has at least 6 fields, taking bot list, settings and launcher fields 3 to 5 |
| MatchHandler.DecodeSpawnViewCar | src/rlbot_smh/match_handler.py:46-59 | decodes iff the line has at least 8 fields, taking config, team, showcase type, map and launcher fields 5 to 7 |
| MatchHandler.DecodeLaunchChallenge | src/rlbot_smh/match_handler.py:62-77 | decodes iff the line has at least 12 fields, taking the eight challenge fields and launcher fields 9 to 11 |
| MatchHandler.StartMatchLineRoundTrip | src/rlbot_smh/match_handler.py:18-29 | a `start_match` line joined from `\|`-free fields decodes to those fields, whatever the login-tricks text |
| MatchHandler.SpawnViewCarLineRoundTrip | src/rlbot_smh/match_handler.py:46-59 | a `spawn_car_for_viewing` line joined from `\|`-free fields decodes to those fields |
| MatchHandler.LaunchChallengeLineRoundTrip | src/rlbot_smh/match_handler.py:62-77 | a `launch_challenge` line joined from `\|`-free fields decodes to those fields |
| MatchHandler.Acknowledgement | src/rlbot_smh/match_handler.py:108-126 | `kill_bots`, `set_state` and `spawn_car_for_viewing` put one `"done"`, `shut_down` puts `"shut_down"`, every other name puts nothing |
| MatchHandler.Started | src/rlbot_smh/match_handler.py:108-126 | a background task starts iff the name is `start_match`, `fetch_gtp`, `set_state`, `spawn_car_for_viewing` or `launch_challenge`; each name starts its own task, and every task but `fetch_gtp`'s receives the line's fields |
| MatchHandler.LinesRead | src/rlbot_smh/match_handler.py:100-115 | the loop reads up to and including the first `shut_down`, or every line when there is none |
| MatchHandler.StopMatch | src/rlbot_smh/match_handler.py:32-34 | a shutdown is requested iff the session has started; otherwise the session is untouched |
| MatchHandler.HandleCommand | src/rlbot_smh/match_handler.py:107-126 | one dispatch: the acknowledgement and task of the name, the loop continues iff it is not `shut_down`, and only `kill_bots` stops the match |
| MatchHandler.HandleCommands | src/rlbot_smh/match_handler.py:96-129 | the loop reads exactly `LinesRead` lines, emits their acknowledgements and starts their tasks in order; a started session is shut down once per `kill_bots` and once more after `shut_down`, which ends the loop |
| MatchHandler.Recolored | src/rlbot_smh/match_handler.py:81-87 | a non-bot is unchanged. A bot on blue gets the team colour as its custom colour. Any other bot gets the city colour as its team colour when there is one. Only the loadout changes, and the override raises iff a bot to recolour has no loadout |
| MatchHandler.RecoloringIsIdempotent | src/rlbot_smh/match_handler.py:81-87 | applying the override twice gives the same configuration as applying it once |
| MatchHandler.ApplyTeamColors | src/rlbot_smh/match_handler.py:81-87 | the loop succeeds iff every configuration can be recoloured, and then each is recoloured in place. Otherwise it stops at the first that raises, with those before it recoloured and the rest untouched |
| MatchHandler.LaunchChallenge | src/rlbot_smh/match_handler.py:62-93 | the override runs over the configurations built from the bot list; it succeeds iff every one can be recoloured, and then each configuration is the recoloured one of its entry. The attempt is then recorded as `add_match_result` does: appended attempt, completion index and reward on completion. Otherwise the save state is unchanged. Every recorded completion index keeps pointing at a completing attempt |

## Left out

- Threads, the multiprocessing queues, `listen()` and the stdin loop are not modelled. The command loop takes the lines received so far as a sequence, and each started thread as a `Task` value.
- `fetch_gtp`, `set_state`, `spawn_car_for_viewing` and the other `showroom_util` functions are not part of this model. Only the decoding of their fields and their dispatch are.
- `run_challenge`, `manage_game_state`'s telemetry loop, `wait_till_cars_spawned`, `setup_failure_freeplay` and the renderer: real-time polling and engine side effects. The per-tick decisions they use (tracker update, results record, perma-fail, mercy, boost) are modelled.
- The setup manager, the bot bundle and appearance loading, `set_random_psyonix_bot_preset`, and the launcher-locating helpers are foreign rlbot code. Their effects are parameters or abstract values (a loadout is recorded by where it comes from).
- `IncrementingInteger` is foreign rlbot code too. It is modelled as `HumanIndexTracker`, on the assumption that `increment()` returns the current value and then adds one.
- JSON parsing and printing, and `int()` on the team field, are not modelled. Fields stay as their text, and the `STORY_RESULT` print is not modelled.
- Logging, `print` and the sleeps are not modelled: the model records only whether a sleep precedes each poll.
- Path semantics are simplified: one separator and no normalisation of `..`. The Windows backslash suffixes are plain text.
- StatsTracker.ManualStatsTracker.UpdateStats: requires the touch's team and the read team indices in Python's index range for two slots. Outside that range the source raises an uncaught `IndexError`, which the model does not capture.
- StatsTracker.ManualStatsTracker.UpdateStats: requires the latest touch's player index in the range a 64-slot ctypes array accepts (-64 to 63). Outside it, the source raises `IndexError` only on a tick where that team's score changes; the model instead excludes such a touch on every tick.
- StatsTracker.ScoreUpdates: the same range requirements on the read team indices and on the stored touches' player indices.
- CustomMap.ExitCustomMap: requires the backup to exist. Inside `SetupMatch` it always does, and the model leaves out the exception `os.replace` would raise otherwise.
- StartMatch.SetupMatch: the source appends to the caller's `match_config` in place and renames its map; the model returns the changed configuration as a value, so the caller's object seeing the change (aliasing) is not captured.
- StartMatch.StartMatchWrapper: a setup manager that raises for reasons other than the modelled calls (for example an interrupted connection) is covered only through `SetupManagerBehaviour.failingCall`.
- MatchHandler.LaunchChallenge: `completed` and `results` are parameters standing for what `run_challenge` returns. The upgrades, the challenge record and the printing of the save state are not modelled.
- MatchHandler.HandleCommands: the exception handler around the dispatch is not modelled, because nothing the model dispatches raises synchronously. A command line is taken as received, with no newline stripping.
- MatchHandler.Session: `hasStarted` never changes in the model: the match start that sets it happens in the foreign setup manager.
