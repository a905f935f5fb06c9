/** The post-deployment test: consecutive passes before a timeout. */
module HttpTest {
  /** One turn of the loop: the request was answered, the check passed, the timeout had expired after it. */
  datatype Round = Round(answered: bool, passed: bool, expired: bool)

  datatype Result = Running | RequestFailed | TimedOut | Passed

  /** The first n rounds end in `required` passes in a row. */
  predicate Streak(required: int, rounds: seq<Round>, n: int)
    requires 0 <= n <= |rounds|
  {
    required <= n && forall k :: n - required <= k < n ==> 0 <= k && rounds[k].passed
  }

  /** Nothing in the first n rounds ends the test. */
  predicate Open(required: int, rounds: seq<Round>, n: int)
    requires 0 <= n <= |rounds|
  {
    && (forall k :: 0 <= k < n ==> rounds[k].answered && !rounds[k].expired)
    && (forall m :: 0 <= m <= n ==> !Streak(required, rounds, m))
  }

  /** Round n is the first that ends the test. */
  predicate EndsAt(required: int, rounds: seq<Round>, n: int) {
    1 <= n <= |rounds| && Open(required, rounds, n - 1) && !Open(required, rounds, n)
  }

  /** How the round that ends the test ends it: an expired timeout wins over a completed streak. */
  function Outcome(r: Round): Result {
    if !r.answered then RequestFailed else if r.expired then TimedOut else Passed
  }

  lemma EndsOnce(required: int, rounds: seq<Round>, n: int, m: int)
    requires EndsAt(required, rounds, n)
    ensures EndsAt(required, rounds, m) ==> m == n
    ensures !Open(required, rounds, |rounds|)
  {
  }

  /** The test passes exactly when a streak is completed before any request fails and before the timeout. */
  lemma PassMeansStreak(required: int, rounds: seq<Round>, n: int)
    requires EndsAt(required, rounds, n)
    ensures Outcome(rounds[n - 1]).Passed? ==>
              && Streak(required, rounds, n) && (forall m :: 0 <= m < n ==> !Streak(required, rounds, m))
              && (forall k :: 0 <= k < n ==> rounds[k].answered && !rounds[k].expired)
    ensures !Outcome(rounds[n - 1]).Passed? ==> !rounds[n - 1].answered || rounds[n - 1].expired
  {
  }

  /** Passes at the end of the first n rounds, c of them and no more. */
  predicate TrailingPasses(rounds: seq<Round>, n: int, c: int)
    requires 0 <= n <= |rounds|
  {
    && 0 <= c <= n
    && (forall k :: n - c <= k < n ==> rounds[k].passed)
    && (c == n || !rounds[n - c - 1].passed)
  }

  lemma StreakLength(required: int, rounds: seq<Round>, n: int, c: int)
    requires required >= 1 && 0 <= n <= |rounds| && TrailingPasses(rounds, n, c)
    ensures Streak(required, rounds, n) <==> required <= c
  {
    if required <= n && c < required {
      assert n - required <= n - c - 1 < n;
    }
  }

  /**
   The loop of Execute over the rounds that happened so far; `Running` when none of
   them ends it. `used` is the number of rounds it took.
   */
  method Execute(required: int, rounds: seq<Round>) returns (result: Result, used: nat)
    requires required >= 1
    ensures result.Running? <==> Open(required, rounds, |rounds|)
    ensures !result.Running? ==> EndsAt(required, rounds, used) && result == Outcome(rounds[used - 1])
    ensures result.RequestFailed? <==> used > 0 && !result.Running? && !rounds[used - 1].answered
    ensures result.TimedOut? <==> used > 0 && !result.Running? && rounds[used - 1].answered && rounds[used - 1].expired
    ensures result.Passed? ==>
              && required <= used && (forall k :: used - required <= k < used ==> rounds[k].passed)
              && (forall k :: 0 <= k < used ==> rounds[k].answered && !rounds[k].expired)
  {
    var successCount := 0;
    used := 0;
    while used < |rounds|
      invariant 0 <= used <= |rounds| && Open(required, rounds, used)
      invariant TrailingPasses(rounds, used, successCount)
    {
      var round := rounds[used];
      used := used + 1;
      if !round.answered {
        assert EndsAt(required, rounds, used);
        EndsOnce(required, rounds, used, used);
        return RequestFailed, used;
      }
      if round.passed { successCount := successCount + 1; } else { successCount := 0; }
      assert TrailingPasses(rounds, used, successCount);
      StreakLength(required, rounds, used, successCount);
      if round.expired {
        assert EndsAt(required, rounds, used);
        EndsOnce(required, rounds, used, used);
        return TimedOut, used;
      }
      if successCount >= required {
        assert EndsAt(required, rounds, used);
        EndsOnce(required, rounds, used, used);
        return Passed, used;
      }
    }
    return Running, used;
  }
}
