/** When a new machine can bring the strategy's traffic beyond its peak. */
module PastRamps {
  import opened Prelude
  import opened Cluster
  import opened Fsm
  import opened Canary
  import opened Workers
  import opened Rollouts
  import opened Availability
  import opened Climbs
  import opened StaleWorkers
  import opened Traffic
  import opened TrafficBounds

  /** A calm run on one machine. */
  predicate OneMachine(s: Sys, ls: seq<Label>) {
    CalmRun(s, ls) && forall k :: 0 <= k < |ls| ==> !ls[k].Reload?
  }

  lemma CleanIsOneMachine(s: Sys, ls: seq<Label>)
    requires Clean(s, ls)
    ensures OneMachine(s, ls)
  {
    PlainIsCalm(s, ls);
  }

  lemma OneMachineAppend(s: Sys, a: seq<Label>, b: seq<Label>)
    requires OneMachine(s, a) && OneMachine(Run(s, a), b)
    ensures OneMachine(s, a + b) && Run(s, a + b) == Run(Run(s, a), b)
  {
    CalmAppend(s, a, b);
    RunAppend(s, a, b);
  }

  lemma {:induction false} OneMachineKeepsTo(s: Sys, ls: seq<Label>, limit: int)
    requires OneMachine(s, ls)
    ensures KeepsTo(s, ls, limit)
    decreases |ls|
  {
    if ls != [] { OneMachineKeepsTo(Exec(s, ls[0]), ls[1..], limit); }
  }

  /** Some calm run on this machine takes memory or store beyond the peak. */
  ghost predicate Exceeds(s: Sys)
    requires s.cfg.Valid()
  {
    exists ls :: OneMachine(s, ls) && !Keeps(Run(s, ls), Peak(s.cfg))
  }

  lemma ExceedsAfter(s: Sys, ls: seq<Label>)
    requires s.cfg.Valid() && OneMachine(s, ls) && Run(s, ls).cfg == s.cfg && Exceeds(Run(s, ls))
    ensures Exceeds(s)
  {
    var rest :| OneMachine(Run(s, ls), rest) && !Keeps(Run(Run(s, ls), rest), Peak(s.cfg));
    OneMachineAppend(s, ls, rest);
  }

  // ---- A machine that loaded the peak ----

  /** One more check passed at the peak. */
  lemma PassesAtPeak(s: Sys)
    requires AtPc(s, StateMonitor, MonExecute) && s.cfg.Valid() && s.traffic == Peak(s.cfg)
    ensures Exceeds(s)
  {
    PeakOf(s.cfg);
    var a, b := [Work(0, Done, true, true)], [Work(0, Done, true, true)];
    var n1 := OneCall(s, StateMonitor, MonExecute, Done);
    var n2 := OneCall(n1, StateMonitor, MonCheck(0), Done);
    CleanAppend(s, a, b);
    CleanIsOneMachine(s, a + b);
    assert n2.traffic == Peak(s.cfg) + s.cfg.step;
  }

  lemma MonitorExceeds(s: Sys)
    requires Single(s) && s.state.StateMonitor? && s.workers == Spawn(s.cfg, StateMonitor, None)
    requires s.cfg.Valid() && s.traffic == Peak(s.cfg)
    ensures Exceeds(s)
  {
    if s.cfg.hasTest {
      var n := OneCall(s, StateMonitor, MonTest, Done);
      PassesAtPeak(n);
      CleanIsOneMachine(s, [Work(0, Done, true, true)]);
      ExceedsAfter(s, [Work(0, Done, true, true)]);
    } else {
      PassesAtPeak(s);
    }
  }

  lemma RestExceeds(s: Sys)
    requires Resting(s) && s.traffic == Peak(s.cfg)
    ensures Exceeds(s)
  {
    var ls := Rises(s, AtMonitor);
    MonitorExceeds(Run(s, ls));
    CleanIsOneMachine(s, ls);
    ExceedsAfter(s, ls);
  }

  lemma FailExceeds(s: Sys)
    requires s.cfg.Valid() && s.workers == [] && s.state.StateFail? && s.world.Runs(Candidate)
    requires s.traffic == Peak(s.cfg)
    ensures Exceeds(s)
  {
    var ls := ClonesPrimary(s, Deploy(true));
    RestExceeds(Run(s, ls));
    CleanIsOneMachine(s, ls);
    ExceedsAfter(s, ls);
  }

  lemma WorkerExceeds(s: Sys, x: Worker)
    requires s.cfg.Valid() && s.workers == [x] && s.trace != [] && s.world.Runs(Candidate)
    requires CanFail(x.pc) && (x.pc.End? ==> x.pc == FAILING) && s.traffic == Peak(s.cfg)
    ensures Exceeds(s)
  {
    PeakOf(s.cfg);
    var ls := SoleFails(s, x);
    FailExceeds(Run(s, ls));
    CleanIsOneMachine(s, ls);
    ExceedsAfter(s, ls);
  }

  /** The event that gives a machine without a worker one. */
  function Wakes(state: State): Label {
    if state.StateStart? then Configure(true)
    else if state.StateIdle? || state.StateFail? then Deploy(true)
    else Destroy(true)
  }

  /** Any machine at the peak over a running candidate, unless it has no worker in Destroy. */
  lemma LoadedExceeds(s: Sys)
    requires s.cfg.Valid() && s.traffic == Peak(s.cfg) && s.world.Runs(Candidate)
    requires if s.workers == [] then !s.state.StateDestroy?
             else s.workers == Spawn(s.cfg, StateMonitor, None) && s.trace != []
    ensures Exceeds(s)
  {
    if s.workers == [] {
      var l := Wakes(s.state);
      var e := if l.Configure? then EventConfigure else if l.Deploy? then EventDeploy else EventDestroy;
      var t := Target(s.state, e).value;
      var n := Exec(s, l);
      assert n == Enter(s, t, None, true);
      EnterStaffs(s, t, None, true);
      WorkerExceeds(n, n.workers[0]);
      RunOne(s, l);
      assert [l][1..] == [] && CalmRun(n, []);
      ExceedsAfter(s, [l]);
    } else {
      WorkerExceeds(s, s.workers[0]);
    }
  }

  /** Without a worker in Destroy, a machine accepts no event any more. */
  lemma {:induction false} StuckInDestroy(s: Sys, ls: seq<Label>)
    requires s.state.StateDestroy? && s.workers == [] && OneMachine(s, ls)
    ensures Run(s, ls).traffic == s.traffic && Run(s, ls).saved == s.saved
    decreases |ls|
  {
    if ls != [] { StuckInDestroy(Exec(s, ls[0]), ls[1..]); }
  }

  /**
   From any state a calm run keeps, a new machine can exceed the peak without a further
   reload exactly when it loads a value past the end of the ramp, unless it starts in
   Destroy, where no event is accepted.
   */
  lemma ReloadExceedsIff(s: Sys, l: Label)
    requires s.cfg.Valid() && Levelled(s, Rounds(s.cfg)) && l.Reload?
    ensures Exec(s, l).cfg == s.cfg
    ensures Exceeds(Exec(s, l))
            <==> Loads(s, l, Level(s.cfg, Rounds(s.cfg))) && !Current(s.stored).StateDestroy?
  {
    ReloadEvent(s, l);
    if !Loads(s, l, Level(s.cfg, Rounds(s.cfg))) {
      WithinStays(s, l);
    } else if Exec(s, l).state.StateDestroy? {
      DestroyStays(s, l);
    } else {
      PastExceeds(s, l);
    }
  }

  lemma WithinStays(s: Sys, l: Label)
    requires s.cfg.Valid() && Levelled(s, Rounds(s.cfg)) && l.Reload? && Exec(s, l).cfg == s.cfg
    requires !Loads(s, l, Level(s.cfg, Rounds(s.cfg)))
    ensures !Exceeds(Exec(s, l))
  {
    var n, k := Exec(s, l), Rounds(s.cfg);
    LevelBelowMax(s.cfg, k);
    ReloadLevels(s, l, k, Level(s.cfg, k));
    forall ls | OneMachine(n, ls) ensures Keeps(Run(n, ls), Peak(s.cfg)) {
      OneMachineKeepsTo(n, ls, Level(s.cfg, k));
      TrafficIsLevel(n, ls, k, Level(s.cfg, k));
      OnRampBelow(s.cfg, Run(n, ls).traffic, k + 1);
      OnRampBelow(s.cfg, Run(n, ls).saved, k + 1);
    }
  }

  lemma DestroyStays(s: Sys, l: Label)
    requires s.cfg.Valid() && Levelled(s, Rounds(s.cfg)) && l.Reload? && Exec(s, l).cfg == s.cfg
    requires Exec(s, l).state.StateDestroy?
    ensures !Exceeds(Exec(s, l))
  {
    var n := Exec(s, l);
    ReloadEvent(s, l);
    OnRampBelow(s.cfg, s.saved, Rounds(s.cfg) + 1);
    forall ls | OneMachine(n, ls) ensures Keeps(Run(n, ls), Peak(s.cfg)) { StuckInDestroy(n, ls); }
  }

  lemma PastExceeds(s: Sys, l: Label)
    requires s.cfg.Valid() && Levelled(s, Rounds(s.cfg)) && Loads(s, l, Level(s.cfg, Rounds(s.cfg)))
    requires Exec(s, l).cfg == s.cfg && !Exec(s, l).state.StateDestroy?
    ensures Exceeds(Exec(s, l))
  {
    var n := Exec(s, l);
    ReloadEvent(s, l);
    OnPeak(s, l);
    var live := UserDeploy(Deployment("", 1, "", map[]));
    CleanOne(n, live);
    LoadedExceeds(Exec(n, live));
    CleanIsOneMachine(n, [live]);
    ExceedsAfter(n, [live]);
  }

  /** A value past the end of the ramp is the peak. */
  lemma OnPeak(s: Sys, l: Label)
    requires s.cfg.Valid() && Levelled(s, Rounds(s.cfg)) && Loads(s, l, Level(s.cfg, Rounds(s.cfg)))
    ensures s.saved == Peak(s.cfg) && Exec(s, l).traffic == s.saved
    ensures Exec(s, l).workers != [] ==> Exec(s, l).trace != []
  {
    ReloadEvent(s, l);
    var k := Rounds(s.cfg);
    LevelPositive(s.cfg, k);
    var i :| 1 <= i <= k + 1 && s.saved == Level(s.cfg, i);
    if i <= k { LevelsRise(s.cfg, i, k); }
  }
}
