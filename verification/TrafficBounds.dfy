/** Which bound the strategy's traffic keeps, for every configuration, and that it is reached. */
module TrafficBounds {
  import opened Cluster
  import opened Fsm
  import opened Canary
  import opened Workers
  import opened Rollouts
  import opened RolloutTrace
  import opened Availability
  import opened Climbs
  import opened Traffic

  /** The traffic that the check after the last level of the ramp leaves until the verdict resets it. */
  function Peak(cfg: Config): int
    requires cfg.Valid()
  {
    Level(cfg, Rounds(cfg) + 1)
  }

  lemma OnRampBelow(cfg: Config, v: int, k: nat)
    requires cfg.Valid() && OnRamp(cfg, v, k)
    ensures v == -1 || 1 <= v <= Level(cfg, k)
  {
    if v != -1 {
      var i :| 1 <= i <= k && v == Level(cfg, i);
      LevelsRise(cfg, i, k);
    }
  }

  /**
   The peak lies at or past MaxTraffic and never past 200; it is a percentage exactly
   when the ramp's end plus one step is, and passes 199 only for a single step of 100
   from 100.
   */
  lemma PeakOf(cfg: Config)
    requires cfg.Valid()
    ensures Peak(cfg) == First(cfg) + Rounds(cfg) * cfg.step
    ensures cfg.max <= Peak(cfg) <= 200
    ensures Peak(cfg) > 199 <==> First(cfg) == 100 && cfg.step == 100
  {
    var k := Rounds(cfg);
    LevelBelowMax(cfg, k);
    if k > 1 {
      LevelBelowMax(cfg, k - 1);
      LevelPositive(cfg, k - 1);
    }
  }

  /** Memory and store hold -1 or a value in 1..bound. */
  predicate Keeps(n: Sys, bound: int) {
    && (n.traffic == -1 || 1 <= n.traffic <= bound)
    && (n.saved == -1 || 1 <= n.saved <= bound)
  }

  lemma FreshIsLevelled(s: Sys, k: nat)
    requires Fresh(s) && k >= Rounds(s.cfg)
    ensures Splitting(s) && Levelled(s, k)
  {
  }

  /** Where a rollout of K passed checks stands before its verdict: exactly at the peak. */
  lemma ClimbsToPeak(s: Sys, ls: seq<Label>)
    requires JustDeployed(s) && InnerRun(ls)
    requires Run(s, ls).state.StateMonitor? && Run(s, ls).workers == [Worker(StateMonitor, MonDecide)]
    requires Run(s, ls).traffic >= s.cfg.max
    ensures Run(s, ls).traffic == Peak(s.cfg)
  {
    JustDeployedIsAt(s);
    ConfigKept(s, ls);
    var j := RolloutRun(s, Origin(s.scales, |s.trace|), 0, ls);
    LevelBelowMax(s.cfg, j);
  }

  /** The last check has passed at the peak; Overshot says the same of a state known to be Splitting. */
  predicate AtPeak(n: Sys) {
    && n.cfg.Valid() && n.state.StateMonitor? && Synced(n)
    && n.traffic == n.saved == Peak(n.cfg) && n.workers == [Worker(StateMonitor, MonDecide)]
  }

  lemma PeakFromDeploy(s: Sys, c: Deployment) returns (ls: seq<Label>)
    requires JustDeployed(s) && Climbing(s, c)
    ensures Clean(s, ls) && AtPeak(Run(s, ls)) && Run(s, ls).cfg == s.cfg
  {
    ls := Climb(s, c, AtLast);
    var n := Run(s, ls);
    assert n.workers == [Worker(StateMonitor, MonDecide)];
    ClimbsToPeak(s, ls);
  }

  lemma PeakFromRest(s: Sys) returns (ls: seq<Label>)
    requires Resting(s) && s.traffic == -1
    ensures Clean(s, ls) && AtPeak(Run(s, ls)) && Run(s, ls).cfg == s.cfg
  {
    var c := s.world.candidate.value;
    DeployClimbs(s, c);
    var d := Run(s, [Deploy(true)]);
    assert JustDeployed(d);
    var b := PeakFromDeploy(d, c);
    CleanAppend(s, [Deploy(true)], b);
    ls := [Deploy(true)] + b;
  }

  /** Every fresh release has a run without Destroy and reload to its peak, in memory and in the store. */
  lemma PeakReached(s: Sys) returns (ls: seq<Label>)
    requires Fresh(s)
    ensures Clean(s, ls) && Run(s, ls).cfg == s.cfg && Overshot(Run(s, ls), Peak(s.cfg))
  {
    var a := FreshRests(s);
    var b := PeakFromRest(Run(s, a));
    CleanAppend(s, a, b);
    ls := a + b;
    FreshIsLevelled(s, Rounds(s.cfg));
    PlainIsCalm(s, ls);
    ReportedIsSplit(s, ls);
    PeakOf(s.cfg);
  }

  lemma {:induction false} PlainKeepsTo(s: Sys, ls: seq<Label>, limit: int)
    requires Plain(ls)
    ensures KeepsTo(s, ls, limit)
    decreases |ls|
  {
    if ls != [] { PlainKeepsTo(Exec(s, ls[0]), ls[1..], limit); }
  }

  // ---- Any limit on the values a new machine loads ----

  /** The first level from the j-th on that lies above the limit. */
  function IndexAbove(cfg: Config, j: int, limit: int): (k: int)
    requires cfg.Valid() && j >= 1
    ensures k >= j && Level(cfg, k) > limit
    ensures k > j ==> Level(cfg, k - 1) <= limit
    decreases limit - Level(cfg, j)
  {
    if Level(cfg, j) > limit then j
    else
      LevelBelowMax(cfg, j);
      IndexAbove(cfg, j + 1, limit)
  }

  /** The largest traffic the strategy holds when no new machine loads a value above the limit. */
  function Top(cfg: Config, limit: int): int
    requires cfg.Valid()
  {
    Level(cfg, IndexAbove(cfg, Rounds(cfg) + 1, limit))
  }

  lemma TopIsKept(s: Sys, ls: seq<Label>, limit: int, bound: int)
    requires Fresh(s) && CalmRun(s, ls) && KeepsTo(s, ls, limit) && Top(s.cfg, limit) <= bound
    ensures Keeps(Run(s, ls), bound)
  {
    var k := IndexAbove(s.cfg, Rounds(s.cfg) + 1, limit) - 1;
    FreshIsLevelled(s, k);
    TrafficIsLevel(s, ls, k, limit);
    OnRampBelow(s.cfg, Run(s, ls).traffic, k + 1);
    OnRampBelow(s.cfg, Run(s, ls).saved, k + 1);
  }

  /** Reloads of values within the limit climb from level j to the first level above the limit. */
  lemma {:induction false} ClimbsToTop(s: Sys, j: int, limit: int) returns (ls: seq<Label>)
    requires s.cfg.Valid() && j >= 1 && Overshot(s, Level(s.cfg, j))
    ensures CalmRun(s, ls) && KeepsTo(s, ls, limit)
    ensures Overshot(Run(s, ls), Level(s.cfg, IndexAbove(s.cfg, j, limit)))
    decreases limit - Level(s.cfg, j)
  {
    if Level(s.cfg, j) > limit {
      ls := [];
    } else {
      LevelBelowMax(s.cfg, j);
      OvershootStep(s, Level(s.cfg, j));
      var one := OneMore(s.cfg.hasTest);
      OneMoreKeepsTo(s, limit);
      var rest := ClimbsToTop(Run(s, one), j + 1, limit);
      ls := one + rest;
      RunAppend(s, one, rest);
      CalmAppend(s, one, rest);
      KeepsToAppend(s, one, rest, limit);
    }
  }

  lemma {:induction false} KeepsToAppend(s: Sys, a: seq<Label>, b: seq<Label>, limit: int)
    requires KeepsTo(s, a, limit) && KeepsTo(Run(s, a), b, limit)
    ensures KeepsTo(s, a + b, limit)
    decreases |a|
  {
    if a == [] {
      assert a + b == b;
    } else {
      assert (a + b)[1..] == a[1..] + b;
      KeepsToAppend(Exec(s, a[0]), a[1..], b, limit);
    }
  }

  lemma OneMoreKeepsTo(s: Sys, limit: int)
    requires s.saved <= limit
    ensures KeepsTo(s, OneMore(s.cfg.hasTest), limit)
  {
    var ls := OneMore(s.cfg.hasTest);
    assert Plain(ls[1..]);
    PlainKeepsTo(Exec(s, ls[0]), ls[1..], limit);
  }

  /** Every fresh release has a calm run, loading nothing above the limit, to the top for that limit. */
  lemma TopReached(s: Sys, limit: int) returns (ls: seq<Label>)
    requires Fresh(s)
    ensures CalmRun(s, ls) && KeepsTo(s, ls, limit) && Overshot(Run(s, ls), Top(s.cfg, limit))
  {
    var a := PeakReached(s);
    PlainIsCalm(s, a);
    PlainKeepsTo(s, a, limit);
    var b := ClimbsToTop(Run(s, a), Rounds(s.cfg) + 1, limit);
    RunAppend(s, a, b);
    CalmAppend(s, a, b);
    KeepsToAppend(s, a, b, limit);
    ls := a + b;
  }

  /**
   From a fresh release, memory and store keep to -1 and 1..bound, over all calm runs
   in which no new machine loads a value above the limit, exactly when the first level
   above that limit, but at least the peak, does.
   */
  lemma BoundIffTop(s: Sys, limit: int, bound: int)
    requires Fresh(s)
    ensures (forall ls :: CalmRun(s, ls) && KeepsTo(s, ls, limit) ==> Keeps(Run(s, ls), bound))
            <==> Top(s.cfg, limit) <= bound
  {
    if Top(s.cfg, limit) <= bound {
      forall ls | CalmRun(s, ls) && KeepsTo(s, ls, limit) ensures Keeps(Run(s, ls), bound) {
        TopIsKept(s, ls, limit, bound);
      }
    } else {
      var ls := TopReached(s, limit);
      LevelPositive(s.cfg, IndexAbove(s.cfg, Rounds(s.cfg) + 1, limit));
      assert !Keeps(Run(s, ls), bound);
    }
  }

  /** Loads up to the end of the ramp leave the top at the peak, loads up to 100 raise it to at most 200. */
  lemma TopOf(cfg: Config)
    requires cfg.Valid()
    ensures Top(cfg, Level(cfg, Rounds(cfg))) == Peak(cfg)
    ensures 100 < Top(cfg, 100) <= 200 && Peak(cfg) <= Top(cfg, 100)
  {
    LevelBelowMax(cfg, Rounds(cfg));
    PeakOf(cfg);
    var k := IndexAbove(cfg, Rounds(cfg) + 1, 100);
    LevelsRise(cfg, Rounds(cfg) + 1, k);
    LevelBelowMax(cfg, k - 1);
  }

  /**
   From a fresh release, the values keep to a bound over all runs without Destroy and
   reload exactly when the peak of the configuration does, and over all calm runs that
   load nothing past the end of the ramp under the same condition.
   */
  lemma BoundIffPeak(s: Sys, bound: int)
    requires Fresh(s)
    ensures (forall ls :: CalmRun(s, ls) && KeepsTo(s, ls, Level(s.cfg, Rounds(s.cfg))) ==> Keeps(Run(s, ls), bound))
            <==> Peak(s.cfg) <= bound
    ensures (forall ls :: Plain(ls) ==> Keeps(Run(s, ls), bound)) <==> Peak(s.cfg) <= bound
  {
    var limit := Level(s.cfg, Rounds(s.cfg));
    TopOf(s.cfg);
    BoundIffTop(s, limit, bound);
    if Peak(s.cfg) <= bound {
      forall ls | Plain(ls) ensures Keeps(Run(s, ls), bound) {
        PlainIsCalm(s, ls);
        PlainKeepsTo(s, ls, limit);
        TopIsKept(s, ls, limit, bound);
      }
    } else {
      var ls := PeakReached(s);
      PeakOf(s.cfg);
      assert !Keeps(Run(s, ls), bound);
    }
  }

  /** From every fresh release, calm runs that do reload past the ramp exceed every bound. */
  lemma UnboundedFromFresh(s: Sys, bound: int) returns (ls: seq<Label>)
    requires Fresh(s)
    ensures CalmRun(s, ls) && Run(s, ls).saved > bound
  {
    var a := PeakReached(s);
    PlainIsCalm(s, a);
    var b := OvershootUnbounded(Run(s, a), Peak(s.cfg), bound);
    CalmAppend(s, a, b);
    RunAppend(s, a, b);
    ls := a + b;
  }
}
