/**
 Availability: a run of the controller never takes the service from at least one
 live deployment to none, unless it takes one of the steps called hazards here.
 */
module Availability {
  import opened Prelude
  import opened Cluster
  import opened Fsm
  import opened Canary
  import opened Workers
  import opened Rollouts

  /** A primary that exists is live, and a candidate is only ever idle beside a live primary. */
  predicate WorldSafe(w: World) {
    && (w.primary.Some? ==> w.Runs(Primary))
    && (w.candidate.Some? && !w.Runs(Candidate) ==> w.Runs(Primary))
  }

  /** States in which traffic may go to a primary nobody checks again. */
  predicate StateSafe(s: State, w: World) {
    s.StateMonitor? || s.StateScale? || s.StateRollback? ==> w.Runs(Primary)
  }

  /** What a worker has established about the deployments by the time it is at `pc`. */
  predicate PcSafe(pc: Pc, w: World) {
    match pc
    case Init(_, InitSelect) => w.candidate.Some? ==> w.Runs(Candidate)
    case Init(_, InitClone(src)) => src.instances > 0
    case CfgScale => w.Runs(Primary)
    case DepScale(_) => w.Runs(Primary)
    case Remove(_, _) => w.Runs(Primary)
    case Promote(PromoteDelete(src)) => src.instances > 0 && w.Runs(Candidate)
    case Promote(PromoteClone(src)) => src.instances > 0
    case ProDrain => w.Runs(Primary)
    case Restore(RestoreDelete(src)) => src.instances > 0 && w.Runs(Primary)
    case Restore(RestoreClone(src)) => src.instances > 0 && w.Runs(Primary)
    case DstScale => w.Runs(Candidate)
    case DstRemove => w.Runs(Candidate)
    case End(e, _) => e.EventDeployed? ==> w.Runs(Primary)
    case _ => true
  }

  predicate Safe(s: Sys) {
    && Single(s) && WorldSafe(s.world)
    && (s.workers != [] ==> StateSafe(s.state, s.world) && PcSafe(s.workers[0].pc, s.world))
  }

  /** InitPrimary's lookup of an existing primary fails while the matching deployment is scaled to zero. */
  predicate LookupHazard(s: Sys, l: Label) {
    && l.Work? && l.worker < |s.workers| && s.workers[l.worker].pc.Init?
    && s.workers[l.worker].pc.initAt.InitLookup? && l.reply.Err?
    && s.world.primary.Some?
    && s.world.candidate.Some? && s.world.candidate.value.instances == 0
  }

  /** A new machine on a stored Monitor resumes although no primary runs. */
  predicate ResumeHazard(s: Sys, l: Label) {
    l.Reload? && l.resume && Current(s.stored).StateMonitor? && !s.world.Runs(Primary)
  }

  /** Destroy is accepted while a worker is live. */
  predicate DestroyHazard(s: Sys, l: Label) {
    l.Destroy? && s.workers != [] && Target(s.state, EventDestroy).Some?
  }

  /** The worker's next calls count on a running candidate. */
  predicate Relies(pc: Pc) {
    match pc
    case Init(_, InitSelect) => true
    case Promote(PromoteDelete(_)) => true
    case DstScale => true
    case DstRemove => true
    case _ => false
  }

  /** The user deploys a candidate of 0 instances. */
  predicate DeploysIdle(l: Label) {
    l.UserDeploy? && l.deployment.instances == 0
  }

  /** The user does so while no primary runs or a worker counts on the candidate. */
  predicate IdleHazard(s: Sys, l: Label) {
    DeploysIdle(l)
    && (!s.world.Runs(Primary) || exists k :: 0 <= k < |s.workers| && Relies(s.workers[k].pc))
  }

  predicate Hazard(s: Sys, l: Label) {
    LookupHazard(s, l) || ResumeHazard(s, l) || DestroyHazard(s, l) || IdleHazard(s, l)
  }

  predicate HazardFree(s: Sys, ls: seq<Label>)
    decreases |ls|
  {
    ls == [] || (!Hazard(s, ls[0]) && HazardFree(Exec(s, ls[0]), ls[1..]))
  }

  /** What one call of a worker spawned by `home` must keep. */
  predicate StaysSafe(cfg: Config, traffic: int, home: State, pc: Pc, w: World, r: Reply) {
    var v := Apply(RequestOf(pc), w, r);
    && WorldSafe(v) && StateSafe(home, v) && PcSafe(Next(cfg, traffic, pc, r), v)
    && (w.Live() ==> v.Live())
  }

  predicate CallsSafely(home: State, pc: Pc, w: World, r: Reply) {
    && Fits(home, pc) && Legal(RequestOf(pc), w, r) && !pc.End? && !pc.EndError?
    && WorldSafe(w) && StateSafe(home, w) && PcSafe(pc, w)
  }

  lemma InitIsSafe(cfg: Config, traffic: int, home: State, pc: Pc, w: World, r: Reply)
    requires CallsSafely(home, pc, w, r) && pc.Init?
    requires !(pc.initAt.InitLookup? && r.Err? && w.primary.Some?
               && w.candidate.Some? && w.candidate.value.instances == 0)
    ensures StaysSafe(cfg, traffic, home, pc, w, r)
  {
  }

  lemma PromoteIsSafe(cfg: Config, traffic: int, home: State, pc: Pc, w: World, r: Reply)
    requires CallsSafely(home, pc, w, r) && pc.Promote?
    ensures StaysSafe(cfg, traffic, home, pc, w, r)
  {
  }

  lemma RestoreIsSafe(cfg: Config, traffic: int, home: State, pc: Pc, w: World, r: Reply)
    requires CallsSafely(home, pc, w, r) && (pc.Restore? || pc.Remove?)
    ensures StaysSafe(cfg, traffic, home, pc, w, r)
  {
  }

  /** The calls outside the runtime plugin that a worker's safety depends on. */
  predicate Guards(pc: Pc) {
    pc.CfgWait? || pc.CfgScale? || pc.DepWait? || pc.DepScale? || pc.ProWait? || pc.ProDrain? || pc.RbkScale?
  }

  lemma GuardIsSafe(cfg: Config, traffic: int, home: State, pc: Pc, w: World, r: Reply)
    requires CallsSafely(home, pc, w, r) && Guards(pc)
    ensures StaysSafe(cfg, traffic, home, pc, w, r)
  {
  }

  lemma OtherIsSafe(cfg: Config, traffic: int, home: State, pc: Pc, w: World, r: Reply)
    requires CallsSafely(home, pc, w, r) && !pc.Init? && !pc.Promote? && !pc.Restore? && !pc.Remove? && !Guards(pc)
    ensures StaysSafe(cfg, traffic, home, pc, w, r)
  {
  }

  lemma StepIsSafe(s: Sys, l: Label)
    requires Safe(s) && !Hazard(s, l)
    ensures Safe(Exec(s, l))
    ensures s.world.Live() ==> Exec(s, l).world.Live()
  {
    if l.Work? && Moves(s, l) {
      WorkIsSafe(s, l);
    } else if l.Work? || (l.Destroy? && s.workers != []) {
      assert Exec(s, l) == s;
    } else {
      OutsideStep(s, l);
      OutsideKeepsSingle(s, l);
    }
  }

  lemma WorkIsSafe(s: Sys, l: Label)
    requires Safe(s) && s.workers != [] && l.Work? && l.worker == 0 && !LookupHazard(s, l)
    requires Legal(RequestOf(s.workers[0].pc), s.world, l.reply)
    ensures Safe(Exec(s, l))
    ensures s.world.Live() ==> Exec(s, l).world.Live()
  {
    WorkKeepsSingle(s, l);
    SoleStep(s, l);
    var pc := s.workers[0].pc;
    if pc.Init? {
      InitIsSafe(s.cfg, s.traffic, s.state, pc, s.world, l.reply);
    } else if pc.Promote? {
      PromoteIsSafe(s.cfg, s.traffic, s.state, pc, s.world, l.reply);
    } else if pc.Restore? || pc.Remove? {
      RestoreIsSafe(s.cfg, s.traffic, s.state, pc, s.world, l.reply);
    } else if Guards(pc) {
      GuardIsSafe(s.cfg, s.traffic, s.state, pc, s.world, l.reply);
    } else if !pc.End? && !pc.EndError? {
      OtherIsSafe(s.cfg, s.traffic, s.state, pc, s.world, l.reply);
    }
  }

  /**
   No run without a hazard, whatever else fails, is lost or crashes, takes the
   service from a live deployment to none.
   */
  lemma {:induction false} NeverAllDown(s: Sys, ls: seq<Label>)
    requires Safe(s) && HazardFree(s, ls)
    ensures Safe(Run(s, ls))
    ensures s.world.Live() ==> Run(s, ls).world.Live()
    decreases |ls|
  {
    if ls != [] {
      StepIsSafe(s, ls[0]);
      NeverAllDown(Exec(s, ls[0]), ls[1..]);
    }
  }

  /** From a fresh release: once a live deployment was there, after any hazard-free prefix, one is there for good. */
  lemma FreshStaysUp(s: Sys, before: seq<Label>, after: seq<Label>)
    requires Fresh(s) && HazardFree(s, before) && HazardFree(Run(s, before), after)
    ensures Run(s, before).world.Live() ==> Run(s, before + after).world.Live()
    ensures s.world.candidate.Some? ==> Run(s, before).world.Live()
  {
    NeverAllDown(s, before);
    NeverAllDown(Run(s, before), after);
    RunAppend(s, before, after);
  }

  // ---- Runs that lose the service ----

  /** A plain run that takes no hazard, in which the user deploys only candidates that run. */
  predicate Clean(s: Sys, ls: seq<Label>) {
    Plain(ls) && HazardFree(s, ls) && forall k :: 0 <= k < |ls| ==> !DeploysIdle(ls[k])
  }

  /** Some clean run from here ends without a live deployment. */
  ghost predicate Loses(s: Sys) {
    exists ls :: Clean(s, ls) && !Run(s, ls).world.Live()
  }

  lemma {:induction false} HazardFreeAppend(s: Sys, a: seq<Label>, b: seq<Label>)
    requires HazardFree(s, a) && HazardFree(Run(s, a), b)
    ensures HazardFree(s, a + b)
    decreases |a|
  {
    if a == [] {
      assert a + b == b;
    } else {
      assert (a + b)[1..] == a[1..] + b;
      HazardFreeAppend(Exec(s, a[0]), a[1..], b);
    }
  }

  lemma CleanAppend(s: Sys, a: seq<Label>, b: seq<Label>)
    requires Clean(s, a) && Clean(Run(s, a), b)
    ensures Clean(s, a + b) && Run(s, a + b) == Run(Run(s, a), b)
  {
    RunAppend(s, a, b);
    HazardFreeAppend(s, a, b);
  }

  /** One step of a clean run. */
  predicate CleanStep(s: Sys, l: Label) {
    !l.Destroy? && !l.Reload? && !DeploysIdle(l) && !LookupHazard(s, l)
  }

  lemma CleanOne(s: Sys, l: Label)
    requires CleanStep(s, l)
    ensures Clean(s, [l]) && Run(s, [l]) == Exec(s, l)
  {
    RunOne(s, l);
    assert [l][1..] == [];
    assert HazardFree(Exec(s, l), []);
  }

  lemma LosesAfter(s: Sys, ls: seq<Label>)
    requires Clean(s, ls) && Loses(Run(s, ls))
    ensures Loses(s)
  {
    var rest :| Clean(Run(s, ls), rest) && !Run(Run(s, ls), rest).world.Live();
    CleanAppend(s, ls, rest);
  }

  lemma LosesStep(s: Sys, l: Label)
    requires CleanStep(s, l) && Loses(Exec(s, l))
    ensures Loses(s)
  {
    CleanOne(s, l);
    LosesAfter(s, [l]);
  }

  lemma LosesNow(s: Sys)
    requires !s.world.Live()
    ensures Loses(s)
  {
    assert Clean(s, []) && Run(s, []) == s;
  }

  // ---- Two ways to lose it, step by step ----

  /** A failed lookup can be followed to an outage: the idle deployment is cloned over the live primary. */
  lemma HazardLosesService(s: Sys, l: Label)
    requires Safe(s) && LookupHazard(s, l)
    ensures s.world.Live()
    ensures !Run(s, [l, Work(0, Found(s.world.candidate.value), true, true), Work(0, Done, true, true)]).world.Live()
  {
    var d := s.world.candidate.value;
    var a := Work(0, Found(d), true, true);
    var b := Work(0, Done, true, true);
    SoleStep(s, l);
    var s1 := Exec(s, l);
    StepKeepsSingle(s, l);
    SoleStep(s1, a);
    var s2 := Exec(s1, a);
    StepKeepsSingle(s1, a);
    SoleStep(s2, b);
    RunThree(s, l, a, b);
  }

  /** The two steps after the failed lookup that take the service down. */
  function Overwrite(idle: Deployment): seq<Label> {
    [Work(0, Found(idle), true, true), Work(0, Done, true, true)]
  }

  /** A Destroy accepted while a promotion is about to delete the old primary can remove both deployments. */
  lemma DestroyDuringPromotionLosesService(s: Sys, src: Deployment)
    requires Safe(s) && s.world.primary.Some?
    requires s.workers == [Worker(StatePromote, Promote(PromoteDelete(src)))]
    ensures s.world.Live()
    ensures !Run(s, [Destroy(true), Work(1, Found(s.world.primary.value), true, true),
                     Work(1, Done, true, true), Work(0, Done, true, true)]).world.Live()
  {
    var p := s.world.primary.value;
    var w0 := Worker(StatePromote, Promote(PromoteDelete(src)));
    var s1 := Exec(s, Destroy(true));
    assert s1.workers == [w0, Worker(StateDestroy, Restore(RestoreGet))];
    var s2 := Exec(s1, Work(1, Found(p), true, true));
    assert s2.workers == [w0, Worker(StateDestroy, Restore(RestoreDelete(p)))] && s2.world == s.world;
    var s3 := Exec(s2, Work(1, Done, true, true));
    assert s3.workers[0] == w0 && s3.world == s.world.(candidate := None);
    var s4 := Exec(s3, Work(0, Done, true, true));
    assert s4.world == s3.world.(primary := None);
    RunThree(s1, Work(1, Found(p), true, true), Work(1, Done, true, true), Work(0, Done, true, true));
    var ls := [Destroy(true), Work(1, Found(p), true, true), Work(1, Done, true, true), Work(0, Done, true, true)];
    assert ls[1..] == [Work(1, Found(p), true, true), Work(1, Done, true, true), Work(0, Done, true, true)];
  }
}
