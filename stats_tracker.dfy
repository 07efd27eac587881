/** ManualStatsTracker: the per-tick state machine of story mode that counts
    demolitions (edge-triggered through a latched flag per player slot) and
    credits goals to the human through the last touch recorded per team. */
module StatsTracker {
  import opened Wrappers
  import opened StoryMode

  /** Python's `xs[k]` on a list of length `n`: a negative `k` counts from the
      end; outside `-n <= k < n` Python raises. */
  function PyIndex(k: int, n: nat): (i: nat)
    requires -(n as int) <= k < n
    ensures i < n
    ensures k >= 0 ==> i == k
    ensures k < 0 ==> i + (-k) == n
  {
    if k < 0 then n + k else k
  }

  // ---------------------------------------------------------------------------
  // Demolitions
  // ---------------------------------------------------------------------------

  datatype Counter = SelfDemos | OpponentDemos

  /** Which counter a demolition in slot `slot` feeds: a non-bot is the human
      being demolished; a bot beyond the human's team is a demolished opponent;
      a bot on the human's team feeds neither. */
  predicate CountsFor(counter: Counter, slot: nat, humanTeamSize: nat, car: Car)
  {
    match counter
    case SelfDemos => !car.isBot
    case OpponentDemos => car.isBot && slot >= humanTeamSize
  }

  /** A demolition event: the slot was not latched as demolished and now is. */
  predicate DemoEdge(wasInDemo: bool, car: Car)
  {
    !wasInDemo && car.isDemolished
  }

  function EdgeCount(counter: Counter, slot: nat, humanTeamSize: nat, wasInDemo: bool, car: Car): nat
  {
    if DemoEdge(wasInDemo, car) && CountsFor(counter, slot, humanTeamSize, car) then 1 else 0
  }

  /** Demolitions one tick adds to `counter` over the first `n` slots. */
  function TickDemos(counter: Counter, flags: seq<bool>, cars: seq<Car>, humanTeamSize: nat, n: nat): nat
    requires n <= |flags| && n <= |cars|
  {
    if n == 0 then 0
    else TickDemos(counter, flags, cars, humanTeamSize, n - 1) + EdgeCount(counter, n - 1, humanTeamSize, flags[n - 1], cars[n - 1])
  }

  /** The tracked slots one tick reaches: all of them, unless there are more
      than the packet's car slots, where reading slot `MaxCars` raises
      `IndexError` and ends the tick. */
  function SlotsReached(playerCount: nat): (n: nat)
    ensures n <= playerCount && n <= MaxCars
    ensures n == playerCount <==> playerCount <= MaxCars
  {
    if playerCount <= MaxCars then playerCount else MaxCars
  }

  /** The latched flags after a tick: each slot's flag is that car's
      demolished state. */
  function Latched(cars: seq<Car>, n: nat): (r: seq<bool>)
    requires n <= |cars|
    ensures |r| == n
    ensures forall i :: 0 <= i < n ==> r[i] == cars[i].isDemolished
  {
    seq(n, i requires 0 <= i < n => cars[i].isDemolished)
  }

  // ---------------------------------------------------------------------------
  // Goals
  // ---------------------------------------------------------------------------

  /** A recorded touch names a car slot of the packet, counted from the end
      when negative, as a ctypes array index does. */
  predicate TouchInRange(touch: Option<Touch>)
  {
    touch.Some? ==> -(MaxCars as int) <= touch.value.playerIndex < MaxCars
  }

  /** A goal is credited to the human when the team's last touch exists and
      was made by a non-bot car with a non-empty name. */
  predicate Credits(touch: Option<Touch>, cars: seq<Car>)
    requires TouchInRange(touch) && |cars| == MaxCars
  {
    touch.Some? && !cars[PyIndex(touch.value.playerIndex, MaxCars)].isBot && touch.value.playerName != ""
  }

  predicate ReadingsInRange(readings: seq<TeamScore>)
  {
    forall k :: 0 <= k < |readings| ==> -2 <= readings[k].teamIndex < 2
  }

  /** The stored scores after reading `readings` in order, and how many goals
      were credited to the human: a team whose read score differs from its
      stored one has the stored score replaced, and the change is credited
      when that team's last touch credits the human. */
  function ScoreUpdates(lastScore: seq<int>, lastTouch: seq<Option<Touch>>, cars: seq<Car>, readings: seq<TeamScore>): (r: (seq<int>, nat))
    requires |lastScore| == 2 && |lastTouch| == 2 && |cars| == MaxCars
    requires forall k :: 0 <= k < 2 ==> TouchInRange(lastTouch[k])
    requires ReadingsInRange(readings)
    ensures |r.0| == 2
    ensures r.1 <= |readings|
    decreases |readings|
  {
    if readings == [] then (lastScore, 0)
    else
      var (stored, goals) := ScoreUpdates(lastScore, lastTouch, cars, readings[..|readings| - 1]);
      var reading := readings[|readings| - 1];
      var slot := PyIndex(reading.teamIndex, 2);
      if reading.score != stored[slot] then
        (stored[slot := reading.score], goals + if Credits(lastTouch[slot], cars) then 1 else 0)
      else (stored, goals)
  }

  // ---------------------------------------------------------------------------
  // The tracker
  // ---------------------------------------------------------------------------

  class ManualStatsTracker {
    var stats: Stats
    const humanTeamSize: nat
    const playerCount: nat
    /** `_in_demo_state`: one latched flag per tracked player slot. */
    const inDemoState: array<bool>
    /** `_last_touch_by_team`: the latest touch seen for each team. */
    const lastTouchByTeam: array<Option<Touch>>
    /** `_last_score_by_team`: the last score seen for each team. */
    const lastScoreByTeam: array<int>

    ghost predicate Valid()
      reads this, lastTouchByTeam
    {
      && inDemoState.Length == playerCount
      && lastTouchByTeam.Length == 2
      && lastScoreByTeam.Length == 2
      && forall k :: 0 <= k < 2 ==> TouchInRange(lastTouchByTeam[k])
    }

    constructor (challenge: Challenge)
      ensures Valid()
      ensures fresh(inDemoState) && fresh(lastTouchByTeam) && fresh(lastScoreByTeam)
      ensures stats == Stats(0, 0, 0)
      ensures humanTeamSize == challenge.humanTeamSize
      ensures playerCount == challenge.humanTeamSize + |challenge.opponentBots|
      ensures inDemoState[..] == seq(playerCount, _ => false)
      ensures lastTouchByTeam[..] == [None, None]
      ensures lastScoreByTeam[..] == [0, 0]
    {
      stats := Stats(0, 0, 0);
      humanTeamSize := challenge.humanTeamSize;
      playerCount := challenge.humanTeamSize + |challenge.opponentBots|;
      inDemoState := new bool[challenge.humanTeamSize + |challenge.opponentBots|](_ => false);
      lastTouchByTeam := new Option<Touch>[2](_ => None);
      lastScoreByTeam := new int[2](_ => 0);
      new;
      assert lastTouchByTeam[..] == [None, None];
      assert lastScoreByTeam[..] == [0, 0];
    }

    /** `updateStats`: one tick. Demolitions are counted on the edge into the
        demolished state, the latest touch is recorded for its team, and each
        team's score is compared with the stored one to credit goals. With more
        tracked players than car slots the demolition loop raises (`raised`)
        once it passes the last slot, and the rest of the tick does not run. */
    method UpdateStats(packet: Packet, platform: Platform) returns (raised: bool)
      requires Valid()
      requires WellFormed(packet)
      requires -(MaxCars as int) <= packet.latestTouch.playerIndex < MaxCars
      requires -2 <= packet.latestTouch.team < 2
      requires ReadingsInRange(Readings(packet.teams, platform))
      modifies this, inDemoState, lastTouchByTeam, lastScoreByTeam
      ensures Valid()
      ensures raised <==> playerCount > MaxCars
      ensures var n := SlotsReached(playerCount);
              && inDemoState[..n] == Latched(packet.cars, n)
              && inDemoState[n..] == old(inDemoState[n..])
              && stats.recievedDemos ==
                   old(stats.recievedDemos) + TickDemos(SelfDemos, old(inDemoState[..]), packet.cars, humanTeamSize, n)
              && stats.opponentRecievedDemos ==
                   old(stats.opponentRecievedDemos) + TickDemos(OpponentDemos, old(inDemoState[..]), packet.cars, humanTeamSize, n)
      ensures !raised ==> inDemoState[..] == Latched(packet.cars, playerCount)
      ensures !raised ==>
                lastTouchByTeam[..] == old(lastTouchByTeam[..])[PyIndex(packet.latestTouch.team, 2) := Some(packet.latestTouch)]
      ensures !raised ==>
                (lastScoreByTeam[..], stats.humanGoalsScored - old(stats.humanGoalsScored)) ==
                  ScoreUpdates(old(lastScoreByTeam[..]), lastTouchByTeam[..], packet.cars, Readings(packet.teams, platform))
      ensures raised ==>
                && lastTouchByTeam[..] == old(lastTouchByTeam[..])
                && lastScoreByTeam[..] == old(lastScoreByTeam[..])
                && stats.humanGoalsScored == old(stats.humanGoalsScored)
      ensures old(stats.recievedDemos) <= stats.recievedDemos
      ensures old(stats.opponentRecievedDemos) <= stats.opponentRecievedDemos
      ensures old(stats.humanGoalsScored) <= stats.humanGoalsScored
    {
      raised := CountDemos(packet);
      if raised {
        return;
      }

      var touch := packet.latestTouch;
      lastTouchByTeam[PyIndex(touch.team, 2)] := Some(touch);

      CreditGoals(packet, platform);
    }

    /** The demolition half of a tick: every tracked slot's flag latches the
        car's demolished state, and a rising edge feeds its counter. Reading a
        slot past the packet's last car raises (`raised`) and ends the loop. */
    method CountDemos(packet: Packet) returns (raised: bool)
      requires Valid()
      requires WellFormed(packet)
      modifies this`stats, inDemoState
      ensures Valid()
      ensures raised <==> playerCount > MaxCars
      ensures var n := SlotsReached(playerCount);
              && inDemoState[..n] == Latched(packet.cars, n)
              && inDemoState[n..] == old(inDemoState[n..])
              && stats.recievedDemos ==
                   old(stats.recievedDemos) + TickDemos(SelfDemos, old(inDemoState[..]), packet.cars, humanTeamSize, n)
              && stats.opponentRecievedDemos ==
                   old(stats.opponentRecievedDemos) + TickDemos(OpponentDemos, old(inDemoState[..]), packet.cars, humanTeamSize, n)
      ensures stats.humanGoalsScored == old(stats.humanGoalsScored)
    {
      ghost var flags0 := inDemoState[..];
      ghost var stats0 := stats;
      raised := false;
      for i := 0 to inDemoState.Length
        invariant i <= |packet.cars|
        invariant inDemoState[..i] == Latched(packet.cars, i)
        invariant forall k :: i <= k < inDemoState.Length ==> inDemoState[k] == flags0[k]
        invariant stats.recievedDemos == stats0.recievedDemos + TickDemos(SelfDemos, flags0, packet.cars, humanTeamSize, i)
        invariant stats.opponentRecievedDemos == stats0.opponentRecievedDemos + TickDemos(OpponentDemos, flags0, packet.cars, humanTeamSize, i)
        invariant stats.humanGoalsScored == stats0.humanGoalsScored
      {
        if i == |packet.cars| {
          // `game_cars[i]` past the last slot raises IndexError
          raised := true;
          assert inDemoState[i..] == flags0[i..];
          break;
        }
        var car := packet.cars[i];
        assert inDemoState[i] == flags0[i];
        assert TickDemos(SelfDemos, flags0, packet.cars, humanTeamSize, i + 1) ==
                 TickDemos(SelfDemos, flags0, packet.cars, humanTeamSize, i) + EdgeCount(SelfDemos, i, humanTeamSize, flags0[i], car);
        assert TickDemos(OpponentDemos, flags0, packet.cars, humanTeamSize, i + 1) ==
                 TickDemos(OpponentDemos, flags0, packet.cars, humanTeamSize, i) + EdgeCount(OpponentDemos, i, humanTeamSize, flags0[i], car);
        LatchSlot(i, car);
        assert inDemoState[..i + 1] == inDemoState[..i] + [inDemoState[i]];
      }
      if !raised {
        assert inDemoState[..] == inDemoState[..inDemoState.Length];
      }
    }

    /** One pass of the demolition loop: slot `i`'s flag latches the car's
        demolished state, and a rising edge feeds the counter it counts for. */
    method LatchSlot(i: nat, car: Car)
      requires i < inDemoState.Length
      modifies this`stats, inDemoState
      ensures inDemoState[..] == old(inDemoState[..])[i := car.isDemolished]
      ensures stats.recievedDemos == old(stats.recievedDemos) + EdgeCount(SelfDemos, i, humanTeamSize, old(inDemoState[i]), car)
      ensures stats.opponentRecievedDemos ==
                old(stats.opponentRecievedDemos) + EdgeCount(OpponentDemos, i, humanTeamSize, old(inDemoState[i]), car)
      ensures stats.humanGoalsScored == old(stats.humanGoalsScored)
    {
      if inDemoState[i] {
        // latched: the flag clears once the car has respawned
        inDemoState[i] := car.isDemolished;
      } else if car.isDemolished {
        inDemoState[i] := true;
        if !car.isBot {
          stats := stats.(recievedDemos := stats.recievedDemos + 1);
        } else if i >= humanTeamSize {
          // an opponent bot
          stats := stats.(opponentRecievedDemos := stats.opponentRecievedDemos + 1);
        }
      }
    }

    /** The goal half of a tick: each team entry, read per platform, replaces
        a differing stored score and credits the human through that team's
        last touch. */
    method CreditGoals(packet: Packet, platform: Platform)
      requires Valid()
      requires WellFormed(packet)
      requires ReadingsInRange(Readings(packet.teams, platform))
      modifies this`stats, lastScoreByTeam
      ensures Valid()
      ensures (lastScoreByTeam[..], stats.humanGoalsScored - old(stats.humanGoalsScored)) ==
                ScoreUpdates(old(lastScoreByTeam[..]), lastTouchByTeam[..], packet.cars, Readings(packet.teams, platform))
      ensures stats.recievedDemos == old(stats.recievedDemos)
      ensures stats.opponentRecievedDemos == old(stats.opponentRecievedDemos)
      ensures old(stats.humanGoalsScored) <= stats.humanGoalsScored
    {
      ghost var score0 := lastScoreByTeam[..];
      ghost var goals0 := stats.humanGoalsScored;
      ghost var readings := Readings(packet.teams, platform);
      for i := 0 to 2
        invariant (lastScoreByTeam[..], stats.humanGoalsScored - goals0) ==
                    ScoreUpdates(score0, lastTouchByTeam[..], packet.cars, readings[..i])
        invariant stats.humanGoalsScored >= goals0
        invariant stats.recievedDemos == old(stats.recievedDemos)
        invariant stats.opponentRecievedDemos == old(stats.opponentRecievedDemos)
      {
        var teamIndex, newScore;
        if platform == Windows {
          teamIndex := packet.teams[i].teamIndex;
          newScore := packet.teams[i].score;
        } else {
          // the other build reports the team index in the score field
          teamIndex := packet.teams[i].score - 1;
          newScore := packet.teams[i].teamIndex;
        }
        assert TeamScore(teamIndex, newScore) == readings[i];
        assert readings[..i + 1][..i] == readings[..i];
        var slot := PyIndex(teamIndex, 2);
        if newScore != lastScoreByTeam[slot] {
          lastScoreByTeam[slot] := newScore;
          match lastTouchByTeam[slot]
          case Some(lastTouch) =>
            // a negative player index counts from the end of the ctypes array
            if !packet.cars[PyIndex(lastTouch.playerIndex, MaxCars)].isBot && lastTouch.playerName != "" {
              stats := stats.(humanGoalsScored := stats.humanGoalsScored + 1);
            }
          case None =>
        }
      }
      assert readings[..2] == readings;
    }
  }

  // ---------------------------------------------------------------------------
  // Demolitions over a run of ticks
  // ---------------------------------------------------------------------------

  predicate TicksCover(ticks: seq<seq<Car>>, n: nat)
  {
    forall k :: 0 <= k < |ticks| ==> n <= |ticks[k]|
  }

  /** What `counter` gains over a run of ticks, starting from the latched
      flags `flags`, tick by tick as the tracker computes it. */
  function DemosOver(counter: Counter, flags: seq<bool>, ticks: seq<seq<Car>>, humanTeamSize: nat): nat
    requires TicksCover(ticks, |flags|)
    decreases |ticks|
  {
    if ticks == [] then 0
    else TickDemos(counter, flags, ticks[0], humanTeamSize, |flags|)
         + DemosOver(counter, Latched(ticks[0], |flags|), ticks[1..], humanTeamSize)
  }

  /** One slot's cars across a run of ticks. */
  function Column(ticks: seq<seq<Car>>, slot: nat): (c: seq<Car>)
    requires TicksCover(ticks, slot + 1)
    ensures |c| == |ticks|
    ensures forall k :: 0 <= k < |ticks| ==> c[k] == ticks[k][slot]
  {
    seq(|ticks|, k requires 0 <= k < |ticks| => ticks[k][slot])
  }

  /** What one slot contributes to `counter` over a run: one for every rising
      edge of its demolished state that the counter accepts. */
  function SlotDemos(counter: Counter, slot: nat, humanTeamSize: nat, wasInDemo: bool, column: seq<Car>): nat
    decreases |column|
  {
    if column == [] then 0
    else EdgeCount(counter, slot, humanTeamSize, wasInDemo, column[0])
         + SlotDemos(counter, slot, humanTeamSize, column[0].isDemolished, column[1..])
  }

  /** The per-slot contributions of the first `n` slots, summed. */
  function SlotSum(counter: Counter, flags: seq<bool>, ticks: seq<seq<Car>>, humanTeamSize: nat, n: nat): nat
    requires n <= |flags| && TicksCover(ticks, |flags|)
  {
    if n == 0 then 0
    else SlotSum(counter, flags, ticks, humanTeamSize, n - 1)
         + SlotDemos(counter, n - 1, humanTeamSize, flags[n - 1], Column(ticks, n - 1))
  }

  lemma {:induction false} SlotSumStep(counter: Counter, flags: seq<bool>, ticks: seq<seq<Car>>, humanTeamSize: nat, n: nat)
    requires ticks != [] && n <= |flags| && TicksCover(ticks, |flags|)
    ensures SlotSum(counter, flags, ticks, humanTeamSize, n) ==
              TickDemos(counter, flags, ticks[0], humanTeamSize, n)
              + SlotSum(counter, Latched(ticks[0], |flags|), ticks[1..], humanTeamSize, n)
  {
    if n > 0 {
      SlotSumStep(counter, flags, ticks, humanTeamSize, n - 1);
      var col := Column(ticks, n - 1);
      assert col[0] == ticks[0][n - 1];
      assert col[1..] == Column(ticks[1..], n - 1);
    }
  }

  /** The tracker's tick-by-tick count over a run equals the sum, over slots,
      of each slot's rising edges: every demolition is counted once, in the
      tick it begins. */
  lemma {:induction false} DemosOverIsSumOfSlots(counter: Counter, flags: seq<bool>, ticks: seq<seq<Car>>, humanTeamSize: nat)
    requires TicksCover(ticks, |flags|)
    ensures DemosOver(counter, flags, ticks, humanTeamSize) == SlotSum(counter, flags, ticks, humanTeamSize, |flags|)
    decreases |ticks|
  {
    if ticks == [] {
      SlotSumEmpty(counter, flags, humanTeamSize, |flags|);
    } else {
      DemosOverIsSumOfSlots(counter, Latched(ticks[0], |flags|), ticks[1..], humanTeamSize);
      SlotSumStep(counter, flags, ticks, humanTeamSize, |flags|);
    }
  }

  lemma {:induction false} SlotSumEmpty(counter: Counter, flags: seq<bool>, humanTeamSize: nat, n: nat)
    requires n <= |flags|
    ensures SlotSum(counter, flags, [], humanTeamSize, n) == 0
  {
    if n > 0 {
      SlotSumEmpty(counter, flags, humanTeamSize, n - 1);
    }
  }

  predicate AllDemolished(column: seq<Car>)
  {
    forall k :: 0 <= k < |column| ==> column[k].isDemolished
  }

  /** A car held demolished for N consecutive ticks adds exactly one to the
      counter it feeds when it was not already latched, and nothing when it
      was. */
  lemma {:induction false} HeldDemolitionCountsOnce(counter: Counter, slot: nat, humanTeamSize: nat, column: seq<Car>)
    requires column != [] && AllDemolished(column)
    requires forall k :: 0 <= k < |column| ==> CountsFor(counter, slot, humanTeamSize, column[k])
    ensures SlotDemos(counter, slot, humanTeamSize, false, column) == 1
    ensures SlotDemos(counter, slot, humanTeamSize, true, column) == 0
  {
    StillDemolishedAddsNothing(counter, slot, humanTeamSize, column[1..]);
  }

  lemma {:induction false} StillDemolishedAddsNothing(counter: Counter, slot: nat, humanTeamSize: nat, column: seq<Car>)
    requires AllDemolished(column)
    ensures SlotDemos(counter, slot, humanTeamSize, true, column) == 0
  {
    if column != [] {
      StillDemolishedAddsNothing(counter, slot, humanTeamSize, column[1..]);
    }
  }

  /** A bot on the human's team never feeds either counter. */
  lemma {:induction false} TeammateBotNeverCounts(counter: Counter, slot: nat, humanTeamSize: nat, wasInDemo: bool, column: seq<Car>)
    requires slot < humanTeamSize
    requires forall k :: 0 <= k < |column| ==> column[k].isBot
    ensures SlotDemos(counter, slot, humanTeamSize, wasInDemo, column) == 0
    decreases |column|
  {
    if column != [] {
      TeammateBotNeverCounts(counter, slot, humanTeamSize, column[0].isDemolished, column[1..]);
    }
  }

  // ---------------------------------------------------------------------------
  // Goal attribution
  // ---------------------------------------------------------------------------

  /** When no team's score changed, nothing is stored and no goal credited. */
  lemma {:induction false} UnchangedScoresCreditNothing(lastScore: seq<int>, lastTouch: seq<Option<Touch>>, cars: seq<Car>, readings: seq<TeamScore>)
    requires |lastScore| == 2 && |lastTouch| == 2 && |cars| == MaxCars
    requires forall k :: 0 <= k < 2 ==> TouchInRange(lastTouch[k])
    requires ReadingsInRange(readings)
    requires forall k :: 0 <= k < |readings| ==> readings[k].score == lastScore[PyIndex(readings[k].teamIndex, 2)]
    ensures ScoreUpdates(lastScore, lastTouch, cars, readings) == (lastScore, 0)
  {
    if readings != [] {
      var init := readings[..|readings| - 1];
      assert forall k :: 0 <= k < |init| ==> init[k] == readings[k];
      UnchangedScoresCreditNothing(lastScore, lastTouch, cars, init);
    }
  }

  /** With the two teams read as indices 0 and 1 (as on Windows), each team's
      stored score becomes its read score, and a goal is credited for each
      team whose score changed and whose last touch credits the human. */
  lemma TwoTeamsUpdateTheirOwnSlots(lastScore: seq<int>, lastTouch: seq<Option<Touch>>, cars: seq<Car>, a: TeamScore, b: TeamScore)
    requires |lastScore| == 2 && |lastTouch| == 2 && |cars| == MaxCars
    requires forall k :: 0 <= k < 2 ==> TouchInRange(lastTouch[k])
    requires a.teamIndex == 0 && b.teamIndex == 1
    ensures ScoreUpdates(lastScore, lastTouch, cars, [a, b]).0 == [a.score, b.score]
    ensures ScoreUpdates(lastScore, lastTouch, cars, [a, b]).1 ==
              (if a.score != lastScore[0] && Credits(lastTouch[0], cars) then 1 else 0)
              + (if b.score != lastScore[1] && Credits(lastTouch[1], cars) then 1 else 0)
  {
    assert [a, b][..1] == [a];
    assert [a][..0] == [];
    assert ScoreUpdates(lastScore, lastTouch, cars, []) == (lastScore, 0);
    assert PyIndex(a.teamIndex, 2) == 0 && PyIndex(b.teamIndex, 2) == 1;
    var first := ScoreUpdates(lastScore, lastTouch, cars, [a]);
    assert first == if a.score != lastScore[0]
                    then (lastScore[0 := a.score], if Credits(lastTouch[0], cars) then 1 else 0)
                    else (lastScore, 0);
  }

  /** On the other build a team's index is read from its raw score field,
      less one. When both raw score fields hold 0, both readings carry Python
      index -1, the second team's slot: that slot ends with the second
      reading and the first slot is left as it was. */
  lemma {:induction false} ZeroScoreFieldsShareSlot(
    lastScore: seq<int>, lastTouch: seq<Option<Touch>>, cars: seq<Car>, t0: TeamInfo, t1: TeamInfo)
    requires |lastScore| == 2 && |lastTouch| == 2 && |cars| == MaxCars
    requires forall k :: 0 <= k < 2 ==> TouchInRange(lastTouch[k])
    requires t0.score == 0 && t1.score == 0
    ensures var readings := Readings([t0, t1], OtherPlatform);
            ScoreUpdates(lastScore, lastTouch, cars, readings).0 == [lastScore[0], t1.teamIndex]
  {
    var readings := Readings([t0, t1], OtherPlatform);
    assert readings == [TeamScore(-1, t0.teamIndex), TeamScore(-1, t1.teamIndex)];
    assert readings[..1] == [TeamScore(-1, t0.teamIndex)];
    assert readings[..1][..0] == [];
    assert PyIndex(-1, 2) == 1;
    assert ScoreUpdates(lastScore, lastTouch, cars, []) == (lastScore, 0);
    var first := ScoreUpdates(lastScore, lastTouch, cars, readings[..1]);
    assert first.0 == if t0.teamIndex != lastScore[1] then lastScore[1 := t0.teamIndex] else lastScore;
    assert first.0 == [lastScore[0], t0.teamIndex];
  }
}
