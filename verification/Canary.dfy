/**
 The canary strategy on values: one Execute call over a stream of metric checks
 (`true` for a check that returned no error), the repeated calls of the
 Monitor/Scale cycle, and the single pass they amount to.
 */
module Canary {
  datatype Config = Config(initial: int, step: int, max: int, threshold: int, hasTest: bool) {
    /** What the struct tags of PluginConfig demand. */
    predicate Valid() {
      0 <= initial <= 100 && 1 <= step <= 100 && 1 <= max <= 100 && 1 <= threshold
    }
  }

  /** Exactly the values the struct tags accept: percentages, a step and a maximum of at least 1, and a threshold. */
  lemma ValidIs(cfg: Config)
    ensures cfg.Valid() <==>
              && cfg.initial >= 0 && cfg.initial <= 100
              && cfg.step >= 1 && cfg.step <= 100
              && cfg.max >= 1 && cfg.max <= 100
              && cfg.threshold >= 0 && cfg.threshold != 0
  {
  }

  /** Traffic of the first step. */
  function First(cfg: Config): int {
    if cfg.initial == 0 then cfg.step else cfg.initial
  }

  /** Number of successful checks a rollout needs. */
  function Rounds(cfg: Config): (k: int)
    requires cfg.Valid()
    ensures k >= 1
  {
    if First(cfg) >= cfg.max then 1 else (cfg.max - First(cfg) + cfg.step - 1) / cfg.step
  }

  /** Traffic of the j-th step, counting from 1. */
  function Level(cfg: Config, j: int): int {
    First(cfg) + (j - 1) * cfg.step
  }

  /** The traffic of the first `n` steps, in order. */
  function Ramp(cfg: Config, n: nat): (r: seq<int>)
    ensures |r| == n
  {
    if n == 0 then [] else Ramp(cfg, n - 1) + [Level(cfg, n)]
  }

  lemma TimesRises(a: int, b: int, step: int)
    requires a <= b && step >= 1
    ensures a * step <= b * step
  {
    assert (b - a) * step >= 0;
  }

  lemma CeilingBound(d: int, step: int, j: int)
    requires step >= 1 && d >= 1
    ensures j * step < d <==> j < (d + step - 1) / step
  {
    var q, r := (d + step - 1) / step, (d + step - 1) % step;
    assert d + step - 1 == q * step + r;
    if j < q {
      TimesRises(j, q - 1, step);
      assert (q - 1) * step == q * step - step;
    } else {
      TimesRises(q, j, step);
    }
  }

  /** The step after level j still stays below MaxTraffic exactly when j is not the last round. */
  lemma LevelBelowMax(cfg: Config, j: int)
    requires cfg.Valid() && j >= 1
    ensures Level(cfg, j) + cfg.step == Level(cfg, j + 1)
    ensures Level(cfg, j) + cfg.step < cfg.max <==> j < Rounds(cfg)
  {
    assert j * cfg.step == (j - 1) * cfg.step + cfg.step;
    if First(cfg) >= cfg.max {
      assert j * cfg.step >= 0;
    } else {
      CeilingBound(cfg.max - First(cfg), cfg.step, j);
    }
  }

  lemma LevelPositive(cfg: Config, j: int)
    requires cfg.Valid() && j >= 1
    ensures Level(cfg, j) >= 1
  {
    assert (j - 1) * cfg.step >= 0;
  }

  lemma {:induction false} LevelsRise(cfg: Config, i: int, k: int)
    requires cfg.Valid() && 1 <= i <= k
    ensures 1 <= Level(cfg, i) <= Level(cfg, k)
    decreases k - i
  {
    LevelPositive(cfg, i);
    if i < k {
      LevelBelowMax(cfg, k - 1);
      LevelsRise(cfg, i, k - 1);
    }
  }

  /**
   K is the least number of successes after which the first traffic, raised by a step
   for each, has reached MaxTraffic.
   */
  lemma RoundsIsLeast(cfg: Config, m: int)
    requires cfg.Valid()
    ensures var i := if cfg.initial == 0 then cfg.step else cfg.initial;
            && i + Rounds(cfg) * cfg.step >= cfg.max
            && (1 <= m < Rounds(cfg) ==> i + m * cfg.step < cfg.max)
  {
    LevelBelowMax(cfg, Rounds(cfg));
    if 1 <= m < Rounds(cfg) { LevelBelowMax(cfg, m); }
  }

  /** Every step of the ramp is a percentage, each larger than the one before. */
  lemma {:induction false} RampIncreases(cfg: Config, n: nat)
    requires cfg.Valid() && n <= Rounds(cfg)
    ensures forall k :: 0 <= k < n ==> Ramp(cfg, n)[k] == Level(cfg, k + 1) && 1 <= Ramp(cfg, n)[k] <= 100
    ensures forall k :: 0 < k < n ==> Ramp(cfg, n)[k - 1] < Ramp(cfg, n)[k]
  {
    if n > 0 {
      RampIncreases(cfg, n - 1);
      if n > 1 { LevelBelowMax(cfg, n - 1); }
    }
  }

  datatype Status = Success | Failed | Complete

  /** What one Execute call did, or `Pending` when the stream ended inside its loop. */
  datatype Execution = Pending | Stopped(status: Status, traffic: int, next: int, used: nat)

  function Execute(cfg: Config, traffic: int, checks: seq<bool>): (x: Execution)
    ensures x.Stopped? ==> x.next == if x.status.Success? then x.traffic else -1
  {
    if traffic == -1 then Stopped(Success, First(cfg), First(cfg), 0) else Loop(cfg, traffic, 0, checks)
  }

  function Loop(cfg: Config, traffic: int, fails: nat, checks: seq<bool>): (x: Execution)
    ensures x.Stopped? ==> 1 <= x.used <= |checks|
    ensures x.Stopped? ==> x.next == if x.status.Success? then x.traffic else -1
    decreases |checks|
  {
    if checks == [] then Pending
    else if checks[0] then
      if traffic + cfg.step >= cfg.max then Stopped(Complete, 100, -1, 1)
      else Stopped(Success, traffic + cfg.step, traffic + cfg.step, 1)
    else if fails + 1 >= cfg.threshold then Stopped(Failed, 0, -1, 1)
    else
      match Loop(cfg, traffic, fails + 1, checks[1..])
      case Pending => Pending
      case Stopped(s, t, n, used) => Stopped(s, t, n, used + 1)
  }

  /** How a rollout ended and after how many checks. */
  datatype Verdict = Waiting | Completed(at: nat) | RolledBack(at: nat) {
    function After(n: nat): Verdict {
      match this
      case Waiting => Waiting
      case Completed(m) => Completed(n + m)
      case RolledBack(m) => RolledBack(n + m)
    }
  }

  /** Execute called again and again, each call with the traffic the one before left. */
  function Cycle(cfg: Config, traffic: int, checks: seq<bool>): Verdict
    requires cfg.Valid()
    decreases |checks|, if traffic == -1 then 1 else 0
  {
    match Execute(cfg, traffic, checks)
    case Pending => Waiting
    case Stopped(Failed, _, _, used) => RolledBack(used)
    case Stopped(Complete, _, _, used) => Completed(used)
    case Stopped(Success, _, next, used) => Cycle(cfg, next, checks[used..]).After(used)
  }

  // ---- The single pass ----

  function Successes(checks: seq<bool>): nat {
    if checks == [] then 0
    else Successes(checks[..|checks| - 1]) + if checks[|checks| - 1] then 1 else 0
  }

  /** The first n checks end in `threshold` failures in a row. */
  predicate FailureRun(threshold: int, checks: seq<bool>, n: int)
    requires 0 <= n <= |checks|
  {
    threshold <= n && forall k :: n - threshold <= k < n ==> 0 <= k && !checks[k]
  }

  predicate NoFailureRun(threshold: int, checks: seq<bool>, n: nat)
    requires n <= |checks|
  {
    forall m :: 0 <= m <= n ==> !FailureRun(threshold, checks, m)
  }

  /** Check n is the k-th success and no failure run came before it. */
  predicate CompletesAt(k: nat, threshold: int, checks: seq<bool>, n: nat)
  {
    && 1 <= n <= |checks| && checks[n - 1]
    && Successes(checks[..n]) == k
    && NoFailureRun(threshold, checks, n)
  }

  /** The first failure run ends at check n, with fewer than k successes before it. */
  predicate FailsAt(k: nat, threshold: int, checks: seq<bool>, n: nat)
  {
    && 1 <= n <= |checks|
    && FailureRun(threshold, checks, n)
    && NoFailureRun(threshold, checks, n - 1)
    && Successes(checks[..n]) < k
  }

  /** One pass with two counters: successes still needed and failures in a row. */
  function Flat(threshold: int, need: nat, fails: nat, checks: seq<bool>): Verdict
    requires need >= 1
    decreases |checks|
  {
    if checks == [] then Waiting
    else if checks[0] then
      if need == 1 then Completed(1) else Flat(threshold, need - 1, 0, checks[1..]).After(1)
    else if fails + 1 >= threshold then RolledBack(1)
    else Flat(threshold, need, fails + 1, checks[1..]).After(1)
  }

  lemma {:induction false} LoopIsFlat(cfg: Config, j: int, fails: nat, checks: seq<bool>)
    requires cfg.Valid() && 1 <= j <= Rounds(cfg)
    ensures match Loop(cfg, Level(cfg, j), fails, checks)
            case Pending => Flat(cfg.threshold, Rounds(cfg) - j + 1, fails, checks) == Waiting
            case Stopped(Failed, _, _, used) =>
              Flat(cfg.threshold, Rounds(cfg) - j + 1, fails, checks) == RolledBack(used)
            case Stopped(Complete, _, _, used) =>
              j == Rounds(cfg) && Flat(cfg.threshold, Rounds(cfg) - j + 1, fails, checks) == Completed(used)
            case Stopped(Success, _, next, used) =>
              && j < Rounds(cfg) && next == Level(cfg, j + 1)
              && Flat(cfg.threshold, Rounds(cfg) - j + 1, fails, checks)
                 == Flat(cfg.threshold, Rounds(cfg) - j, 0, checks[used..]).After(used)
    decreases |checks|
  {
    LevelBelowMax(cfg, j);
    if checks != [] && !checks[0] && fails + 1 < cfg.threshold {
      LoopIsFlat(cfg, j, fails + 1, checks[1..]);
      var x := Loop(cfg, Level(cfg, j), fails + 1, checks[1..]);
      if x.Stopped? { assert checks[1..][x.used..] == checks[x.used + 1..]; }
    }
  }

  lemma {:induction false} CycleIsFlat(cfg: Config, j: int, checks: seq<bool>)
    requires cfg.Valid() && 1 <= j <= Rounds(cfg)
    ensures Cycle(cfg, Level(cfg, j), checks) == Flat(cfg.threshold, Rounds(cfg) - j + 1, 0, checks)
    decreases |checks|
  {
    LevelPositive(cfg, j);
    LoopIsFlat(cfg, j, 0, checks);
    var x := Loop(cfg, Level(cfg, j), 0, checks);
    if x.Stopped? && x.status.Success? {
      CycleIsFlat(cfg, j + 1, checks[x.used..]);
    }
  }

  /** Failures at the end of the first n checks, f of them and no more. */
  predicate TrailingFailures(checks: seq<bool>, n: nat, f: nat)
    requires n <= |checks|
  {
    && f <= n
    && (forall k :: n - f <= k < n ==> !checks[k])
    && (f == n || checks[n - f - 1])
  }

  lemma RunLength(threshold: int, checks: seq<bool>, n: nat, f: nat)
    requires threshold >= 1 && n <= |checks| && TrailingFailures(checks, n, f)
    ensures FailureRun(threshold, checks, n) <==> threshold <= f
  {
    if threshold <= n && f < threshold {
      assert n - threshold <= n - f - 1 < n;
    }
  }

  /** Where the single pass stands after n checks, none of which ended it. */
  predicate Underway(k: nat, threshold: int, checks: seq<bool>, n: nat, fails: nat)
  {
    && n <= |checks|
    && Successes(checks[..n]) < k
    && fails < threshold && TrailingFailures(checks, n, fails)
    && NoFailureRun(threshold, checks, n)
  }

  lemma OneMoreCheck(k: nat, threshold: int, checks: seq<bool>, n: nat, fails: nat)
    requires threshold >= 1 && Underway(k, threshold, checks, n, fails) && n < |checks|
    ensures Successes(checks[..n + 1]) == Successes(checks[..n]) + if checks[n] then 1 else 0
    ensures checks[n] ==> if Successes(checks[..n]) + 1 == k then CompletesAt(k, threshold, checks, n + 1)
                          else Underway(k, threshold, checks, n + 1, 0)
    ensures !checks[n] ==> if fails + 1 >= threshold then FailsAt(k, threshold, checks, n + 1)
                           else Underway(k, threshold, checks, n + 1, fails + 1)
  {
    assert checks[..n + 1][..n] == checks[..n];
    var f := if checks[n] then 0 else fails + 1;
    assert TrailingFailures(checks, n + 1, f);
    RunLength(threshold, checks, n + 1, f);
  }

  /** How the single pass, resumed after n checks, ends. */
  predicate Ends(k: nat, threshold: int, checks: seq<bool>, v: Verdict)
  {
    && (v.Completed? ==> CompletesAt(k, threshold, checks, v.at))
    && (v.RolledBack? ==> FailsAt(k, threshold, checks, v.at))
  }

  lemma FlatUnfolds(threshold: int, need: nat, fails: nat, checks: seq<bool>, n: nat)
    requires need >= 1 && n < |checks|
    ensures Flat(threshold, need, fails, checks[n..]).After(n)
            == if checks[n] then
                 if need == 1 then Completed(n + 1) else Flat(threshold, need - 1, 0, checks[n + 1..]).After(n + 1)
               else if fails + 1 >= threshold then RolledBack(n + 1)
               else Flat(threshold, need, fails + 1, checks[n + 1..]).After(n + 1)
  {
    assert checks[n..][1..] == checks[n + 1..];
  }

  /** The checks the single pass makes from check n on until it ends, and the failures open at that point. */
  lemma {:induction false} FlatReaches(k: nat, threshold: int, checks: seq<bool>, n: nat, won: nat, fails: nat)
    returns (m: nat, need: nat, open: nat)
    requires threshold >= 1 && Underway(k, threshold, checks, n, fails) && won == Successes(checks[..n])
    ensures m <= |checks| && Underway(k, threshold, checks, m, open) && need == k - Successes(checks[..m]) >= 1
    ensures Flat(threshold, k - won, fails, checks[n..]).After(n) == Flat(threshold, need, open, checks[m..]).After(m)
    ensures m == |checks| || (if checks[m] then need == 1 else open + 1 >= threshold)
    decreases |checks| - n
  {
    m, need, open := n, k - won, fails;
    if n < |checks| {
      OneMoreCheck(k, threshold, checks, n, fails);
      FlatUnfolds(threshold, need, fails, checks, n);
      if checks[n] && need > 1 {
        m, need, open := FlatReaches(k, threshold, checks, n + 1, won + 1, 0);
      } else if !checks[n] && fails + 1 < threshold {
        m, need, open := FlatReaches(k, threshold, checks, n + 1, won, fails + 1);
      }
    }
  }

  lemma FlatMeaning(k: nat, threshold: int, checks: seq<bool>) returns (open: nat)
    requires threshold >= 1 && k >= 1
    ensures var v := Flat(threshold, k, 0, checks);
            Ends(k, threshold, checks, v) && (v.Waiting? ==> Underway(k, threshold, checks, |checks|, open))
  {
    assert checks[..0] == [] && checks[0..] == checks;
    var m, need;
    m, need, open := FlatReaches(k, threshold, checks, 0, 0, 0);
    if m < |checks| {
      OneMoreCheck(k, threshold, checks, m, open);
      FlatUnfolds(threshold, need, open, checks, m);
    } else {
      assert checks[m..] == [];
    }
  }

  lemma {:induction false} SuccessesMonotone(checks: seq<bool>, m: nat, n: nat)
    requires m <= n <= |checks|
    ensures Successes(checks[..m]) <= Successes(checks[..n])
    ensures m < n && checks[n - 1] ==> Successes(checks[..m]) < Successes(checks[..n])
  {
    if m < n {
      assert checks[..n][..n - 1] == checks[..n - 1];
      SuccessesMonotone(checks, m, n - 1);
    }
  }

  /** At most one of the ways to end is true of a stream, and of one position only. */
  lemma EndsOnce(k: nat, threshold: int, checks: seq<bool>, n: nat, m: nat)
    requires threshold >= 1 && CompletesAt(k, threshold, checks, n)
    ensures !FailsAt(k, threshold, checks, m)
    ensures CompletesAt(k, threshold, checks, m) ==> m == n
    ensures forall f :: !Underway(k, threshold, checks, |checks|, f)
  {
    SuccessesMonotone(checks, n, |checks|);
    assert checks[..|checks|] == checks;
    if m <= |checks| {
      if m <= n { SuccessesMonotone(checks, m, n); } else { SuccessesMonotone(checks, n, m); }
    }
  }

  lemma FailsOnce(k: nat, threshold: int, checks: seq<bool>, n: nat, m: nat)
    requires threshold >= 1 && FailsAt(k, threshold, checks, n)
    ensures FailsAt(k, threshold, checks, m) ==> m == n
    ensures forall f :: !Underway(k, threshold, checks, |checks|, f)
  {
  }

  /**
   Repeated Execute calls from the reset state equal one pass over the checks:
   complete at the K-th success unless `threshold` consecutive failures come
   first, rolled back at the end of the first such run unless K successes come first.
   */
  lemma FlatStream(cfg: Config, checks: seq<bool>, n: nat)
    requires cfg.Valid()
    ensures Cycle(cfg, -1, checks) == Completed(n) <==> CompletesAt(Rounds(cfg), cfg.threshold, checks, n)
    ensures Cycle(cfg, -1, checks) == RolledBack(n) <==> FailsAt(Rounds(cfg), cfg.threshold, checks, n)
  {
    var v, k, threshold := Cycle(cfg, -1, checks), Rounds(cfg), cfg.threshold;
    assert v == Flat(threshold, k, 0, checks) by {
      assert checks[0..] == checks;
      assert Level(cfg, 1) == First(cfg);
      CycleIsFlat(cfg, 1, checks);
    }
    var open := FlatMeaning(k, threshold, checks);
    if CompletesAt(k, threshold, checks, n) { EndsOnce(k, threshold, checks, n, if v.Waiting? then 0 else v.at); }
    if FailsAt(k, threshold, checks, n) {
      FailsOnce(k, threshold, checks, n, if v.Waiting? then 0 else v.at);
      if v.Completed? { EndsOnce(k, threshold, checks, v.at, n); }
    }
  }

  lemma {:induction false} FlatBound(threshold: int, need: nat, fails: nat, checks: seq<bool>)
    requires need >= 1 && threshold >= 1 && fails < threshold
    ensures var v := Flat(threshold, need, fails, checks);
            && (v.Waiting? ==> |checks| < need * threshold - fails)
            && (!v.Waiting? ==> v.at <= need * threshold - fails)
    decreases |checks|
  {
    assert need * threshold == (need - 1) * threshold + threshold;
    if need > 1 { assert (need - 1) * threshold >= threshold; }
    if checks != [] {
      if checks[0] && need > 1 {
        FlatBound(threshold, need - 1, 0, checks[1..]);
      } else if !checks[0] && fails + 1 < threshold {
        FlatBound(threshold, need, fails + 1, checks[1..]);
      }
    }
  }

  /** A rollout is decided after at most K * ErrorThreshold checks. */
  lemma ChecksBounded(cfg: Config, checks: seq<bool>)
    requires cfg.Valid()
    ensures var v := Cycle(cfg, -1, checks);
            && (v.Waiting? ==> |checks| < Rounds(cfg) * cfg.threshold)
            && (!v.Waiting? ==> v.at <= Rounds(cfg) * cfg.threshold)
  {
    assert checks[0..] == checks;
    assert Level(cfg, 1) == First(cfg);
    CycleIsFlat(cfg, 1, checks);
    FlatBound(cfg.threshold, Rounds(cfg), 0, checks);
  }

  // ---- Reported percentages ----

  function PrimaryTraffic(traffic: int): int {
    if traffic < 0 then 100 else if traffic > 100 then 0 else 100 - traffic
  }

  function CandidateTraffic(traffic: int): int {
    if traffic < 1 then 0 else if traffic > 100 then 100 else traffic
  }
}
