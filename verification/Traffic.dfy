/** The strategy's traffic value over all runs, and the percentages reported from it. */
module Traffic {
  import opened Prelude
  import opened Cluster
  import opened Fsm
  import opened Canary
  import opened Workers
  import opened Rollouts

  /** What the worker at `pc` knows of the traffic value and the splitter. */
  predicate PcSplit(cfg: Config, pc: Pc, traffic: int, w: World) {
    match pc
    case MonCheck(_) => traffic >= 1
    case MonDecide => traffic >= 1
    case ScaleTo(t) => t == traffic && 1 <= t <= 100
    case End(e, arg) =>
      && (arg.Some? ==> arg.value == traffic && 1 <= traffic <= 100)
      && (e.EventScaled? ==>
            1 <= traffic <= 100 && w.split == Some(Split(PrimaryTraffic(traffic), CandidateTraffic(traffic))))
    case _ => true
  }

  predicate Splitting(s: Sys) {
    && Single(s) && s.cfg.Valid()
    && (s.traffic == -1 || s.traffic >= 1) && (s.saved == -1 || s.saved >= 1)
    && (s.workers != [] ==> PcSplit(s.cfg, s.workers[0].pc, s.traffic, s.world))
  }

  lemma CallSplits(cfg: Config, traffic: int, home: State, pc: Pc, w: World, r: Reply)
    requires cfg.Valid() && Fits(home, pc) && Legal(RequestOf(pc), w, r) && !pc.End? && !pc.EndError?
    requires (traffic == -1 || traffic >= 1) && PcSplit(cfg, pc, traffic, w)
    ensures var t := NextTraffic(cfg, traffic, pc, r);
            (t == -1 || t >= 1) && PcSplit(cfg, Next(cfg, traffic, pc, r), t, Apply(RequestOf(pc), w, r))
  {
  }

  lemma WorkSplits(s: Sys, l: Label)
    requires Splitting(s) && s.workers != [] && l.Work? && l.worker == 0
    requires Legal(RequestOf(s.workers[0].pc), s.world, l.reply)
    ensures Splitting(Exec(s, l))
  {
    WorkKeepsSingle(s, l);
    SoleStep(s, l);
    var pc := s.workers[0].pc;
    if !pc.End? && !pc.EndError? { CallSplits(s.cfg, s.traffic, s.state, pc, s.world, l.reply); }
  }

  lemma StepSplits(s: Sys, l: Label)
    requires Splitting(s) && Calm(s, l)
    ensures Splitting(Exec(s, l))
  {
    StepKeepsSingle(s, l);
    if !l.Work? { OutsideStep(s, l); } else if Moves(s, l) { WorkSplits(s, l); } else { assert Exec(s, l) == s; }
  }

  /**
   Over every calm run the two reported percentages add up to 100, and when a
   worker is about to report EventScaled they are the weights in the splitter.
   */
  lemma {:induction false} ReportedIsSplit(s: Sys, ls: seq<Label>)
    requires Splitting(s) && CalmRun(s, ls)
    ensures Splitting(Run(s, ls))
    ensures var n := Run(s, ls);
            && 0 <= PrimaryTraffic(n.traffic) == 100 - CandidateTraffic(n.traffic) <= 100
            && (n.workers != [] && n.workers[0].pc.End? && n.workers[0].pc.event.EventScaled?
                ==> n.world.split == Some(Split(PrimaryTraffic(n.traffic), CandidateTraffic(n.traffic))))
    decreases |ls|
  {
    if ls != [] {
      StepSplits(s, ls[0]);
      ReportedIsSplit(Exec(s, ls[0]), ls[1..]);
    }
  }

  // ---- The exact values ----

  /** The value is -1 or one of the first k levels of the ramp. */
  predicate OnRamp(cfg: Config, v: int, k: int) {
    v == -1 || exists i | 1 <= i <= k :: v == Level(cfg, i)
  }

  /** Only between a successful check and the verdict on it may the value be at level k + 1. */
  predicate PcOnRamp(cfg: Config, pc: Pc, traffic: int, k: nat) {
    match pc
    case MonCheck(_) => traffic != -1 && OnRamp(cfg, traffic, k)
    case MonDecide => traffic != -1 && OnRamp(cfg, traffic, k + 1)
    case _ => OnRamp(cfg, traffic, k)
  }

  predicate Levelled(s: Sys, k: nat) {
    && Single(s) && s.cfg.Valid() && k >= Rounds(s.cfg) && OnRamp(s.cfg, s.saved, k + 1)
    && if s.workers == [] then OnRamp(s.cfg, s.traffic, k) else PcOnRamp(s.cfg, s.workers[0].pc, s.traffic, k)
  }

  /** A new machine loads a value above the limit. */
  predicate Loads(s: Sys, l: Label, limit: int) {
    l.Reload? && l.loaded && s.saved > limit
  }

  predicate KeepsTo(s: Sys, ls: seq<Label>, limit: int)
    decreases |ls|
  {
    ls == [] || (!Loads(s, ls[0], limit) && KeepsTo(Exec(s, ls[0]), ls[1..], limit))
  }

  /** A value below MaxTraffic is a level of the ramp itself. */
  lemma BelowMaxOnRamp(cfg: Config, i: int, k: nat)
    requires cfg.Valid() && k >= Rounds(cfg) && 1 <= i <= k + 1 && Level(cfg, i) < cfg.max
    ensures i <= k
  {
    LevelBelowMax(cfg, Rounds(cfg));
    if i == k + 1 { LevelsRise(cfg, Rounds(cfg) + 1, i); }
  }

  lemma CallLevels(cfg: Config, traffic: int, pc: Pc, r: Reply, k: nat)
    requires cfg.Valid() && k >= Rounds(cfg) && PcOnRamp(cfg, pc, traffic, k) && !pc.End? && !pc.EndError?
    ensures PcOnRamp(cfg, Next(cfg, traffic, pc, r), NextTraffic(cfg, traffic, pc, r), k)
    ensures OnRamp(cfg, NextTraffic(cfg, traffic, pc, r), k + 1)
  {
    assert First(cfg) == Level(cfg, 1);
    if pc.MonDecide? {
      var i :| 1 <= i <= k + 1 && traffic == Level(cfg, i);
      if traffic < cfg.max { BelowMaxOnRamp(cfg, i, k); }
    } else if pc.MonCheck? {
      var j :| 1 <= j <= k && traffic == Level(cfg, j);
      LevelBelowMax(cfg, j);
      LevelPositive(cfg, j);
      assert traffic + cfg.step == Level(cfg, j + 1);
    }
  }

  lemma WorkLevels(s: Sys, l: Label, k: nat)
    requires Levelled(s, k) && Moves(s, l)
    ensures Levelled(Exec(s, l), k)
  {
    WorkKeepsSingle(s, l);
    var pc := s.workers[0].pc;
    if pc.End? || pc.EndError? {
      EndIs(s, l);
    } else {
      CallIs(s, l);
      CallLevels(s.cfg, s.traffic, pc, l.reply, k);
    }
  }

  lemma ReloadLevels(s: Sys, l: Label, k: nat, limit: int)
    requires Levelled(s, k) && l.Reload? && !Loads(s, l, limit) && limit < Level(s.cfg, k + 1)
    ensures Levelled(Exec(s, l), k)
  {
    OutsideStep(s, l);
    OutsideKeepsSingle(s, l);
    if l.loaded && s.saved != -1 {
      var i :| 1 <= i <= k + 1 && s.saved == Level(s.cfg, i);
      assert i <= k;
    }
  }

  lemma StepLevels(s: Sys, l: Label, k: nat, limit: int)
    requires Levelled(s, k) && Calm(s, l) && !Loads(s, l, limit) && limit < Level(s.cfg, k + 1)
    ensures Levelled(Exec(s, l), k)
  {
    if l.Reload? {
      ReloadLevels(s, l, k, limit);
    } else if !l.Work? {
      OutsideStep(s, l);
      OutsideKeepsSingle(s, l);
    } else if Moves(s, l) {
      WorkLevels(s, l, k);
    } else {
      assert Exec(s, l) == s;
    }
  }

  /**
   Over every calm run in which no new machine loads a value that has come to level
   k + 1, for any k from the end of the ramp on, the traffic in memory and in the store is
   -1 or one of the levels up to k + 1.
   */
  lemma {:induction false} TrafficIsLevel(s: Sys, ls: seq<Label>, k: nat, limit: int)
    requires Levelled(s, k) && CalmRun(s, ls) && KeepsTo(s, ls, limit) && limit < Level(s.cfg, k + 1)
    ensures Levelled(Run(s, ls), k)
    ensures OnRamp(s.cfg, Run(s, ls).traffic, k + 1) && OnRamp(s.cfg, Run(s, ls).saved, k + 1)
    decreases |ls|
  {
    if ls != [] {
      StepLevels(s, ls[0], k, limit);
      RunOne(s, ls[0]);
      ConfigKept(s, [ls[0]]);
      TrafficIsLevel(Exec(s, ls[0]), ls[1..], k, limit);
    }
  }

  // ---- Past the ramp ----

  /** The last check has passed and its value is saved; the verdict and the reset are still to come. */
  predicate Overshot(s: Sys, v: int) {
    && Splitting(s) && s.state == StateMonitor && Synced(s)
    && s.traffic == s.saved == v >= s.cfg.max
    && s.workers == [Worker(StateMonitor, MonDecide)]
  }

  /** The machine is reloaded there and passes one more check. */
  function OneMore(hasTest: bool): seq<Label> {
    [Reload(true, true, true)] + (if hasTest then [Work(0, Done, true, true)] else [])
    + [Work(0, Done, true, true), Work(0, Done, true, true)]
  }

  /** From the start of Monitor to the verdict on a passed check. */
  lemma PassesOneCheck(s: Sys, v: int)
    requires Splitting(s) && s.state == StateMonitor && s.workers == [Worker(StateMonitor, MonExecute)]
    requires s.traffic == v >= s.cfg.max && Synced(s)
    ensures var ls := [Work(0, Done, true, true), Work(0, Done, true, true)];
            CalmRun(s, ls) && Overshot(Run(s, ls), v + s.cfg.step) && Run(s, ls).cfg == s.cfg
  {
    var b := Work(0, Done, true, true);
    CallIs(s, b);
    StepSplits(s, b);
    var s2 := Exec(s, b);
    CallIs(s2, b);
    StepSplits(s2, b);
    assert [b, b][1..] == [b] && [b][1..] == [];
    RunOne(s2, b);
    PlainIsCalm(s, [b, b]);
  }

  /** Resumed there, the machine comes back to the strategy with the saved traffic. */
  lemma ResumesPast(s: Sys, v: int)
    requires Overshot(s, v)
    ensures var ls := [Reload(true, true, true)] + if s.cfg.hasTest then [Work(0, Done, true, true)] else [];
            && CalmRun(s, ls)
            && var n := Run(s, ls);
               && Splitting(n) && n.state == StateMonitor && n.workers == [Worker(StateMonitor, MonExecute)]
               && n.traffic == v && n.cfg == s.cfg && Synced(n)
  {
    var a, b := Reload(true, true, true), Work(0, Done, true, true);
    assert Exec(s, a) == Enter(Restart(s, true).(state := StateDeploy), StateMonitor, None, true);
    var s1 := Exec(s, a);
    StepSplits(s, a);
    RunOne(s, a);
    assert CalmRun(s, [a]) by { assert [a][1..] == []; assert CalmRun(s1, []); }
    if s.cfg.hasTest {
      CallIs(s1, b);
      StepSplits(s1, b);
      RunOne(s1, b);
      PlainIsCalm(s1, [b]);
      CalmAppend(s, [a], [b]);
      RunAppend(s, [a], [b]);
    } else {
      assert [a] + [] == [a];
    }
  }

  lemma OvershootStep(s: Sys, v: int)
    requires Overshot(s, v)
    ensures CalmRun(s, OneMore(s.cfg.hasTest))
    ensures Overshot(Run(s, OneMore(s.cfg.hasTest)), v + s.cfg.step) && Run(s, OneMore(s.cfg.hasTest)).cfg == s.cfg
  {
    var b := Work(0, Done, true, true);
    var a := [Reload(true, true, true)] + if s.cfg.hasTest then [b] else [];
    ResumesPast(s, v);
    PassesOneCheck(Run(s, a), v);
    CalmAppend(s, a, [b, b]);
    RunAppend(s, a, [b, b]);
    assert OneMore(s.cfg.hasTest) == a + [b, b];
  }

  /** Reloads past the ramp drive the persisted value beyond every bound. */
  lemma {:induction false} OvershootUnbounded(s: Sys, v: int, bound: int) returns (ls: seq<Label>)
    requires Overshot(s, v)
    ensures CalmRun(s, ls) && Run(s, ls).saved > bound
    decreases bound - v
  {
    if v > bound {
      ls := [];
    } else {
      OvershootStep(s, v);
      var one := OneMore(s.cfg.hasTest);
      var rest := OvershootUnbounded(Run(s, one), v + s.cfg.step, bound);
      ls := one + rest;
      RunAppend(s, one, rest);
      CalmAppend(s, one, rest);
    }
  }
}
