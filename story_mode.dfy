/** Challenge verdicts of story mode: the final-results record built from the
    last tick, the perma-fail, completion and mercy rules, and the per-tick
    boost decision taken while the challenge runs. */
module StoryMode {
  import opened Wrappers

  // ---------------------------------------------------------------------------
  // Telemetry as seen by story mode
  // ---------------------------------------------------------------------------

  /** The telemetry structure differs per build: on Windows a team entry's
      fields are read as they are named; on the other builds the team index
      arrives in the score field (off by one) and the score in the team-index
      field. Both readings are kept. */
  datatype Platform = Windows | OtherPlatform

  /** The tick packet holds fixed-size arrays: 64 car slots (unused slots have
      an empty name and are not bots) and 2 team slots. */
  const MaxCars: nat := 64
  const MaxTeams: nat := 2

  datatype Car = Car(name: string, team: int, isBot: bool, isDemolished: bool, boost: int)
  datatype TeamInfo = TeamInfo(teamIndex: int, score: int)
  datatype Touch = Touch(playerName: string, playerIndex: int, team: int)
  datatype Packet = Packet(cars: seq<Car>, teams: seq<TeamInfo>, latestTouch: Touch, isMatchEnded: bool)

  predicate WellFormed(p: Packet)
  {
    |p.cars| == MaxCars && |p.teams| == MaxTeams
  }

  /** One `{team_index, score}` entry of the results. */
  datatype TeamScore = TeamScore(teamIndex: int, score: int)

  /** How a team slot of the packet is read on the given platform. */
  function Reading(t: TeamInfo, platform: Platform): TeamScore
  {
    match platform
    case Windows => TeamScore(t.teamIndex, t.score)
    case OtherPlatform => TeamScore(t.score - 1, t.teamIndex)
  }

  function Readings(teams: seq<TeamInfo>, platform: Platform): (r: seq<TeamScore>)
    ensures |r| == |teams|
    ensures forall i :: 0 <= i < |teams| ==> r[i] == Reading(teams[i], platform)
  {
    seq(|teams|, i requires 0 <= i < |teams| => Reading(teams[i], platform))
  }

  // ---------------------------------------------------------------------------
  // Stable descending sort of the team scores (Python's `sort(reverse=True)`)
  // ---------------------------------------------------------------------------

  predicate Descending(s: seq<TeamScore>)
  {
    forall i, j :: 0 <= i < j < |s| ==> s[i].score >= s[j].score
  }

  /** The entries of `s` whose score is `v`, in their order in `s`. */
  function WithScore(s: seq<TeamScore>, v: int): (r: seq<TeamScore>)
    ensures |r| <= |s|
  {
    if s == [] then []
    else if s[0].score == v then [s[0]] + WithScore(s[1..], v)
    else WithScore(s[1..], v)
  }

  lemma {:induction false} WithScoreAppend(a: seq<TeamScore>, b: seq<TeamScore>, v: int)
    ensures WithScore(a + b, v) == WithScore(a, v) + WithScore(b, v)
  {
    if a == [] {
      assert a + b == b;
    } else {
      assert (a + b)[0] == a[0];
      assert (a + b)[1..] == a[1..] + b;
      WithScoreAppend(a[1..], b, v);
    }
  }

  /** Inserts `x`, which came before every entry of `s`, in front of the first
      entry that does not score more than it. */
  function InsertDescending(x: TeamScore, s: seq<TeamScore>): (r: seq<TeamScore>)
    ensures |r| == |s| + 1
    ensures multiset(r) == multiset(s) + multiset{x}
  {
    if s == [] || s[0].score <= x.score then [x] + s
    else
      assert s == [s[0]] + s[1..];
      [s[0]] + InsertDescending(x, s[1..])
  }

  lemma {:induction false} InsertKeepsDescending(x: TeamScore, s: seq<TeamScore>)
    requires Descending(s)
    ensures Descending(InsertDescending(x, s))
  {
    if s != [] && s[0].score > x.score {
      var t := InsertDescending(x, s[1..]);
      InsertKeepsDescending(x, s[1..]);
      forall k | 0 <= k < |t| ensures s[0].score >= t[k].score {
        assert t[k] in multiset(t);
        if t[k] != x {
          assert t[k] in multiset(s[1..]);
          var m :| 0 <= m < |s[1..]| && s[1..][m] == t[k];
          assert s[m + 1] == t[k];
        }
      }
    }
  }

  /** Inserting `x` adds it in front of the entries tied with it and leaves
      every other score's entries as they were. */
  lemma {:induction false} InsertWithScore(x: TeamScore, s: seq<TeamScore>, v: int)
    ensures WithScore(InsertDescending(x, s), v) ==
            if x.score == v then [x] + WithScore(s, v) else WithScore(s, v)
  {
    var r := InsertDescending(x, s);
    if s == [] || s[0].score <= x.score {
      assert r[0] == x && r[1..] == s;
    } else {
      var t := InsertDescending(x, s[1..]);
      assert r[0] == s[0] && r[1..] == t;
      InsertWithScore(x, s[1..], v);
    }
  }

  /** Python's `list.sort(key=score, reverse=True)`: descending by score and
      stable, so entries with equal scores keep their packet order. */
  function SortDescending(s: seq<TeamScore>): (r: seq<TeamScore>)
    ensures Descending(r)
    ensures multiset(r) == multiset(s)
    ensures |r| == |s|
    ensures forall v {:trigger WithScore(r, v)} {:trigger WithScore(s, v)} :: WithScore(r, v) == WithScore(s, v)
  {
    if s == [] then []
    else
      var t := SortDescending(s[1..]);
      var r := InsertDescending(s[0], t);
      assert s == [s[0]] + s[1..];
      InsertKeepsDescending(s[0], t);
      assert forall v {:trigger WithScore(r, v)} :: WithScore(r, v) == WithScore(s, v) by {
        forall v ensures WithScore(r, v) == WithScore(s, v) {
          InsertWithScore(s[0], t, v);
        }
      }
      r
  }

  /** Descending order and per-score stability pin the sort down: the first
      entry is a maximum, and among entries tied for a score the one earliest
      in the packet comes first. */
  lemma {:induction false} SortedHeadIsMaximum(s: seq<TeamScore>)
    requires s != []
    ensures SortDescending(s) != []
    ensures forall k :: 0 <= k < |s| ==> SortDescending(s)[0].score >= s[k].score
    ensures forall k :: 0 <= k < |s| && s[k].score == SortDescending(s)[0].score ==>
              SortDescending(s)[0] == s[FirstWithScore(s, s[k].score)]
  {
    var r := SortDescending(s);
    forall k | 0 <= k < |s| ensures r[0].score >= s[k].score {
      assert s[k] in multiset(r);
      var m :| 0 <= m < |r| && r[m] == s[k];
    }
    forall k | 0 <= k < |s| && s[k].score == r[0].score
      ensures r[0] == s[FirstWithScore(s, s[k].score)]
    {
      var v := s[k].score;
      assert r == [r[0]] + r[1..];
      WithScoreAppend([r[0]], r[1..], v);
      FirstWithScoreLeads(s, v, k);
    }
  }

  /** Index of the first entry scoring `v`, given that one exists. */
  function FirstWithScore(s: seq<TeamScore>, v: int): (i: nat)
    requires exists k :: 0 <= k < |s| && s[k].score == v
    ensures i < |s| && s[i].score == v
    ensures forall j :: 0 <= j < i ==> s[j].score != v
  {
    if s[0].score == v then 0
    else
      assert exists k :: 0 <= k < |s[1..]| && s[1..][k].score == v by {
        var k :| 0 <= k < |s| && s[k].score == v;
        assert s[1..][k - 1] == s[k];
      }
      1 + FirstWithScore(s[1..], v)
  }

  lemma {:induction false} FirstWithScoreLeads(s: seq<TeamScore>, v: int, k: nat)
    requires k < |s| && s[k].score == v
    ensures WithScore(s, v) != [] && WithScore(s, v)[0] == s[FirstWithScore(s, v)]
  {
    if s[0].score != v {
      assert s[1..][k - 1] == s[k];
      FirstWithScoreLeads(s[1..], v, k - 1);
    }
  }

  // ---------------------------------------------------------------------------
  // packet_to_game_results
  // ---------------------------------------------------------------------------

  datatype CarStat = CarStat(name: string, team: int)

  datatype GameResults = GameResults(
    humanTeam: int,
    score: seq<TeamScore>,
    stats: seq<CarStat>,
    humanWon: bool,
    timestamp: string)

  /** `next(p for p in players if not p.is_bot)`; `None` where Python raises. */
  function FirstHuman(cars: seq<Car>): (r: Option<nat>)
    ensures r.None? <==> forall k :: 0 <= k < |cars| ==> cars[k].isBot
    ensures r.Some? ==> r.value < |cars| && !cars[r.value].isBot &&
                        forall k :: 0 <= k < r.value ==> cars[k].isBot
  {
    if cars == [] then None
    else if !cars[0].isBot then Some(0)
    else match FirstHuman(cars[1..])
      case None => None
      case Some(k) => Some(k + 1)
  }

  /** The number of car slots with a non-empty name. */
  function CountNamed(cars: seq<Car>): (n: nat)
    ensures n <= |cars|
  {
    if cars == [] then 0
    else (if cars[0].name != "" then 1 else 0) + CountNamed(cars[1..])
  }

  /** No slot is counted iff no car is named, and every slot is counted iff
      every car is named. */
  lemma {:induction false} CountNamedExtremes(cars: seq<Car>)
    ensures CountNamed(cars) == 0 <==> forall i :: 0 <= i < |cars| ==> cars[i].name == ""
    ensures CountNamed(cars) == |cars| <==> forall i :: 0 <= i < |cars| ==> cars[i].name != ""
  {
    if cars != [] {
      CountNamedExtremes(cars[1..]);
      assert forall i :: 1 <= i < |cars| ==> cars[i] == cars[1..][i - 1];
    }
  }

  /** The name/team record of every car slot with a non-empty name, one per
      such slot and in slot order: the named slot `i` gives the record at the
      position counting the named slots before it. */
  function NamedStats(cars: seq<Car>): (r: seq<CarStat>)
    ensures |r| == CountNamed(cars)
    ensures forall i :: 0 <= i < |cars| && cars[i].name != "" ==>
              CountNamed(cars[..i]) < |r| && r[CountNamed(cars[..i])] == CarStat(cars[i].name, cars[i].team)
    ensures forall i :: 0 <= i < |r| ==> r[i].name != ""
  {
    if cars == [] then []
    else
      var rest := NamedStats(cars[1..]);
      var head: seq<CarStat> := if cars[0].name != "" then [CarStat(cars[0].name, cars[0].team)] else [];
      var r := head + rest;
      forall i | 0 < i < |cars| && cars[i].name != ""
        ensures CountNamed(cars[..i]) < |r| && r[CountNamed(cars[..i])] == CarStat(cars[i].name, cars[i].team)
      {
        var before := cars[..i];
        assert before[0] == cars[0] && before[1..] == cars[1..][..i - 1];
        assert CountNamed(before) == |head| + CountNamed(cars[1..][..i - 1]);
        assert cars[1..][i - 1] == cars[i];
        assert r[|head| + CountNamed(cars[1..][..i - 1])] == rest[CountNamed(cars[1..][..i - 1])];
      }
      assert CountNamed(cars[..0]) == 0;
      r
  }

  /** The records are exactly those of the named cars: every named car has
      its record, and every record belongs to a named car. */
  lemma {:induction false} NamedStatsMembers(cars: seq<Car>)
    ensures forall c :: c in cars && c.name != "" ==> CarStat(c.name, c.team) in NamedStats(cars)
    ensures forall st :: st in NamedStats(cars) ==> exists c :: c in cars && c.name != "" && st == CarStat(c.name, c.team)
  {
    if cars != [] {
      NamedStatsMembers(cars[1..]);
      assert forall c :: c in cars ==> c == cars[0] || c in cars[1..];
      assert forall c :: c in cars[1..] ==> c in cars;
    }
  }

  /** The final-results record built from a tick. `None` stands for the two
      ways the source raises: no non-bot car, or no team entry to index. */
  function PacketToGameResults(p: Packet, platform: Platform, timestamp: string): (r: Option<GameResults>)
    ensures r.Some? <==> (exists k :: 0 <= k < |p.cars| && !p.cars[k].isBot) && p.teams != []
    ensures r.Some? ==>
      var res := r.value;
      var h := FirstHuman(p.cars).value;
      && res.humanTeam == p.cars[h].team
      && Descending(res.score)
      && multiset(res.score) == multiset(Readings(p.teams, platform))
      && (forall v {:trigger WithScore(res.score, v)} ::
            WithScore(res.score, v) == WithScore(Readings(p.teams, platform), v))
      && (res.humanWon <==> res.score[0].teamIndex == res.humanTeam)
      && res.stats == NamedStats(p.cars)
      && res.timestamp == timestamp
  {
    match FirstHuman(p.cars)
    case None => None
    case Some(h) =>
      var human := p.cars[h];
      var sorted := SortDescending(Readings(p.teams, platform));
      if sorted == [] then None
      else Some(GameResults(human.team, sorted, NamedStats(p.cars), sorted[0].teamIndex == human.team, timestamp))
  }

  /** With the two team slots of a well-formed packet, the human wins when the
      human's team reads the strictly higher score, and on a tie the verdict
      goes to whichever team slot comes first in the packet. */
  lemma HumanWonOnTwoTeams(p: Packet, platform: Platform, timestamp: string)
    requires WellFormed(p)
    requires exists k :: 0 <= k < |p.cars| && !p.cars[k].isBot
    ensures var res := PacketToGameResults(p, platform, timestamp).value;
            var a := Reading(p.teams[0], platform);
            var b := Reading(p.teams[1], platform);
            && (a.score > b.score ==> (res.humanWon <==> a.teamIndex == res.humanTeam))
            && (b.score > a.score ==> (res.humanWon <==> b.teamIndex == res.humanTeam))
            && (a.score == b.score ==> (res.humanWon <==> a.teamIndex == res.humanTeam))
  {
    var rs := Readings(p.teams, platform);
    var r := SortDescending(rs);
    SortedHeadIsMaximum(rs);
    assert rs[0] == Reading(p.teams[0], platform) && rs[1] == Reading(p.teams[1], platform);
    var a, b := rs[0], rs[1];
    if a.score > b.score {
      assert FirstWithScore(rs, a.score) == 0;
      assert r[0].score >= a.score;
      assert r[0] in multiset(rs);
    } else if b.score > a.score {
      assert FirstWithScore(rs, b.score) == 1;
      assert r[0] in multiset(rs);
    } else {
      assert FirstWithScore(rs, a.score) == 0;
      assert r[0] in multiset(rs);
    }
  }

  // ---------------------------------------------------------------------------
  // Challenges and their verdicts
  // ---------------------------------------------------------------------------

  /** The `completionConditions` object; every key is optional. */
  datatype Conditions = Conditions(
    win: Option<bool>,
    scoreDifference: Option<int>,
    demoAchievedCount: Option<int>,
    goalsScored: Option<int>,
    selfDemoCount: Option<int>)

  datatype Challenge = Challenge(
    humanTeamSize: nat,
    opponentBots: seq<string>,
    completionConditions: Option<Conditions>,
    limitations: seq<string>)

  /** The manually tracked counters (the source's spelling kept). */
  datatype Stats = Stats(recievedDemos: nat, opponentRecievedDemos: nat, humanGoalsScored: nat)

  /** The lead of the first score entry over the second. */
  function Differential(results: GameResults): int
    requires |results.score| >= 2
  {
    results.score[0].score - results.score[1].score
  }

  function HasUserPermaFailed(challenge: Challenge, stats: Stats): (r: bool)
    ensures r <==> challenge.completionConditions.Some?
                   && challenge.completionConditions.value.selfDemoCount.Some?
                   && stats.recievedDemos > challenge.completionConditions.value.selfDemoCount.value
  {
    match challenge.completionConditions
    case None => false
    case Some(conditions) =>
      var failed := false;
      match conditions.selfDemoCount
      case None => failed
      case Some(limit) =>
        var survived := stats.recievedDemos <= limit;
        failed || !survived
  }

  /** Whether completion evaluation reads the score differential. */
  predicate ReadsDifferential(challenge: Challenge, stats: Stats)
  {
    && challenge.completionConditions.Some?
    && challenge.completionConditions.value.scoreDifference.Some?
    && !HasUserPermaFailed(challenge, stats)
  }

  /** Every present condition, apart from `win` and the perma-fail limit, is met. */
  predicate ConditionsMet(c: Conditions, stats: Stats, results: GameResults)
    requires c.scoreDifference.Some? ==> |results.score| >= 2
  {
    && (c.scoreDifference.Some? ==> Differential(results) >= c.scoreDifference.value)
    && (c.demoAchievedCount.Some? ==> stats.opponentRecievedDemos >= c.demoAchievedCount.value)
    && (c.goalsScored.Some? ==> stats.humanGoalsScored >= c.goalsScored.value)
  }

  /** The completion rule stated declaratively: without conditions the human
      must have won; with conditions, no perma-fail, a win unless `win` is
      explicitly false, and every other present condition met. */
  predicate CompletionHolds(challenge: Challenge, stats: Stats, results: GameResults)
    requires ReadsDifferential(challenge, stats) ==> |results.score| >= 2
  {
    match challenge.completionConditions
    case None => results.humanWon
    case Some(c) =>
      && !HasUserPermaFailed(challenge, stats)
      && (results.humanWon || c.win == Some(false))
      && ConditionsMet(c, stats, results)
  }

  /** `calculate_completion`: starts from the win flag and ANDs in each present
      condition in turn. */
  function CalculateCompletion(challenge: Challenge, stats: Stats, results: GameResults): (r: bool)
    requires ReadsDifferential(challenge, stats) ==> |results.score| >= 2
    ensures r <==> CompletionHolds(challenge, stats, results)
    ensures challenge.completionConditions.None? ==> (r <==> results.humanWon)
    ensures HasUserPermaFailed(challenge, stats) ==> !r
  {
    var completed := results.humanWon;
    match challenge.completionConditions
    case None => completed
    case Some(c) =>
      if HasUserPermaFailed(challenge, stats) then false
      else
        var afterWin := if c.win == Some(false) then true else completed;
        var afterDiff := if c.scoreDifference.Some?
                         then afterWin && Differential(results) >= c.scoreDifference.value
                         else afterWin;
        var afterDemos := if c.demoAchievedCount.Some?
                          then afterDiff && stats.opponentRecievedDemos >= c.demoAchievedCount.value
                          else afterDiff;
        var afterGoals := if c.goalsScored.Some?
                          then afterDemos && stats.humanGoalsScored >= c.goalsScored.value
                          else afterDemos;
        afterGoals
  }

  const MercyDifference: int := 5

  /** `end_by_mercy`: a lead of at least five and a completed challenge. */
  function EndByMercy(challenge: Challenge, stats: Stats, results: GameResults): (r: bool)
    requires |results.score| >= 2
    ensures r <==> Differential(results) >= MercyDifference && CompletionHolds(challenge, stats, results)
    ensures Differential(results) <= 4 ==> !r
    ensures HasUserPermaFailed(challenge, stats) ==> !r
  {
    var completed := CalculateCompletion(challenge, stats, results);
    var differential := results.score[0].score - results.score[1].score;
    differential >= MercyDifference && completed
  }

  /** A goals-only challenge is completed by two human goals only when the
      human's team also won, because `win` is required unless it is
      explicitly turned off. */
  lemma GoalsOnlyChallenge(challenge: Challenge, stats: Stats, results: GameResults)
    requires challenge.completionConditions == Some(Conditions(None, None, None, Some(2), None))
    requires stats.humanGoalsScored == 2
    ensures CalculateCompletion(challenge, stats, results) <==> results.humanWon
  {
  }

  /** A self-demolition limit of one, exceeded by two demolitions, fails the
      challenge whatever else holds. */
  lemma SelfDemoLimitExceeded(challenge: Challenge, stats: Stats, results: GameResults)
    requires challenge.completionConditions.Some?
    requires challenge.completionConditions.value.selfDemoCount == Some(1)
    requires stats.recievedDemos == 2
    ensures HasUserPermaFailed(challenge, stats)
    ensures !CalculateCompletion(challenge, stats, results)
    ensures |results.score| >= 2 ==> !EndByMercy(challenge, stats, results)
  {
  }

  // ---------------------------------------------------------------------------
  // Per-tick boost adjustment of manage_game_state
  // ---------------------------------------------------------------------------

  /** The boost cap granted by the upgrades. */
  function MaxBoost(upgrades: set<string>): (m: int)
    ensures m == 0 || m == 33 || m == 100
    ensures m == 100 <==> "boost-100" in upgrades
    ensures m == 0 <==> "boost-100" !in upgrades && "boost-33" !in upgrades
  {
    if "boost-100" in upgrades then 100
    else if "boost-33" in upgrades then 33
    else 0
  }

  /** `challenge.get("limitations", []).count("half-field") > 0` */
  predicate HalfField(challenge: Challenge)
  {
    "half-field" in challenge.limitations
  }

  /** The recharge interval of 0.1 s, on a millisecond clock. */
  const RechargeIntervalMs: int := 100

  /** What one tick decides: the boost amount to state-set, if any, and the
      time of the last recharge bump afterwards. */
  datatype BoostDecision = BoostDecision(setBoost: Option<int>, lastBumpMs: int)

  /** The clamp fires: boost above the cap outside a half-field challenge. */
  predicate ClampFires(upgrades: set<string>, halfField: bool, boost: int)
  {
    boost > MaxBoost(upgrades) && !halfField
  }

  /** The recharge fires: the upgrade is owned, boost is below the cap and
      more than the interval has passed since the last bump. */
  predicate RechargeFires(upgrades: set<string>, boost: int, nowMs: int, lastBumpMs: int)
  {
    "boost-recharge" in upgrades && boost < MaxBoost(upgrades) && nowMs - lastBumpMs > RechargeIntervalMs
  }

  /** One tick of the boost block: a state-set is issued only when the clamp or
      the recharge fires, and it always moves the human's boost toward the cap
      without passing it. */
  function BoostAdjust(upgrades: set<string>, halfField: bool, boost: int, nowMs: int, lastBumpMs: int): (d: BoostDecision)
    ensures d.setBoost.Some? <==> ClampFires(upgrades, halfField, boost) || RechargeFires(upgrades, boost, nowMs, lastBumpMs)
    ensures ClampFires(upgrades, halfField, boost) ==> d.setBoost == Some(MaxBoost(upgrades))
    ensures RechargeFires(upgrades, boost, nowMs, lastBumpMs) ==> d.setBoost == Some(boost + 1)
    ensures d.setBoost.Some? ==> d.setBoost.value <= MaxBoost(upgrades)
    ensures d.setBoost.Some? && boost < MaxBoost(upgrades) ==> boost < d.setBoost.value
    ensures d.setBoost.Some? && boost > MaxBoost(upgrades) ==> d.setBoost.value < boost
    ensures d.lastBumpMs == if RechargeFires(upgrades, boost, nowMs, lastBumpMs) then nowMs else lastBumpMs
  {
    var maxBoost := MaxBoost(upgrades);
    var clamped := if boost > maxBoost && !halfField then Some(maxBoost) else None;
    if "boost-recharge" in upgrades && boost < maxBoost && nowMs - lastBumpMs > RechargeIntervalMs then
      BoostDecision(Some(if boost + 1 < maxBoost then boost + 1 else maxBoost), nowMs)
    else
      BoostDecision(clamped, lastBumpMs)
  }

  /** In a half-field challenge the clamp never fires: a boost above the cap
      is left alone, and a state-set is issued only by the recharge. */
  lemma HalfFieldNeverClamps(challenge: Challenge, upgrades: set<string>, boost: int, nowMs: int, lastBumpMs: int)
    requires HalfField(challenge)
    ensures var d := BoostAdjust(upgrades, HalfField(challenge), boost, nowMs, lastBumpMs);
            && (d.setBoost.Some? <==> RechargeFires(upgrades, boost, nowMs, lastBumpMs))
            && (boost >= MaxBoost(upgrades) ==> d.setBoost.None?)
  {
  }

  /** A boost of 50 under a cap of 33 is set to exactly 33; a boost already at
      or below 33 is left alone when there is no recharge upgrade. */
  lemma BoostClampAt33(upgrades: set<string>, boost: int, nowMs: int, lastBumpMs: int)
    requires "boost-33" in upgrades && "boost-100" !in upgrades
    ensures BoostAdjust(upgrades, false, 50, nowMs, lastBumpMs).setBoost == Some(33)
    ensures boost <= 33 && "boost-recharge" !in upgrades ==>
              BoostAdjust(upgrades, false, boost, nowMs, lastBumpMs).setBoost == None
  {
  }
}
