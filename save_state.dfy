/** The story-mode save state and `add_match_result`, which records one
    attempt of a challenge in place. */
module SaveState {
  import opened Wrappers
  import opened StoryMode

  /** One `{game_results, challenge_completed}` record; the results are absent
      when the challenge ended early without a results record. */
  datatype Attempt = Attempt(gameResults: Option<GameResults>, challengeCompleted: bool)

  /** Currency granted for each completing attempt. */
  const CompletionReward: int := 2

  /** The attempts recorded for `id`, the empty list when there are none. */
  function AttemptsOf(attempts: map<string, seq<Attempt>>, id: string): (r: seq<Attempt>)
    ensures id !in attempts ==> r == []
    ensures id in attempts ==> r == attempts[id]
  {
    if id in attempts then attempts[id] else []
  }

  /** Every recorded completion index points at a completing attempt of the
      same challenge. */
  ghost predicate CompletionsPointAtSuccesses(attempts: map<string, seq<Attempt>>, completed: map<string, int>)
  {
    forall id :: id in completed ==>
      && id in attempts
      && 0 <= completed[id] < |attempts[id]|
      && attempts[id][completed[id]].challengeCompleted
  }

  class SaveState {
    /** `challenges_attempts`: challenge id to its attempts, oldest first. */
    var challengesAttempts: map<string, seq<Attempt>>
    /** `challenges_completed`: challenge id to the index of a completing attempt. */
    var challengesCompleted: map<string, int>
    /** `upgrades["currency"]`. */
    var currency: int

    constructor (attempts: map<string, seq<Attempt>>, completed: map<string, int>, currency: int)
      ensures challengesAttempts == attempts
      ensures challengesCompleted == completed
      ensures this.currency == currency
    {
      challengesAttempts := attempts;
      challengesCompleted := completed;
      this.currency := currency;
    }

    /** `add_match_result`: appends one attempt to the challenge's list
        (creating the list if needed); a completing attempt becomes the
        challenge's recorded completion and earns the reward, every time. */
    method AddMatchResult(challengeId: string, challengeCompleted: bool, gameResults: Option<GameResults>)
      modifies this
      ensures challengesAttempts ==
                old(challengesAttempts)[challengeId :=
                  AttemptsOf(old(challengesAttempts), challengeId) + [Attempt(gameResults, challengeCompleted)]]
      ensures challengeCompleted ==>
                && challengesCompleted == old(challengesCompleted)[challengeId := |AttemptsOf(old(challengesAttempts), challengeId)|]
                && currency == old(currency) + CompletionReward
      ensures !challengeCompleted ==>
                challengesCompleted == old(challengesCompleted) && currency == old(currency)
      ensures CompletionsPointAtSuccesses(old(challengesAttempts), old(challengesCompleted)) ==>
                CompletionsPointAtSuccesses(challengesAttempts, challengesCompleted)
    {
      if challengeId !in challengesAttempts {
        // no default dictionary, because the save state is serialised
        challengesAttempts := challengesAttempts[challengeId := []];
      }
      challengesAttempts := challengesAttempts[challengeId :=
        challengesAttempts[challengeId] + [Attempt(gameResults, challengeCompleted)]];

      if challengeCompleted {
        var index := |challengesAttempts[challengeId]| - 1;
        challengesCompleted := challengesCompleted[challengeId := index];
        currency := currency + CompletionReward;
      }
    }
  }
}
