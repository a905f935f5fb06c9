/** How a worker that deploys or monitors can be brought to scale the candidate to zero. */
module Descents {
  import opened Prelude
  import opened Cluster
  import opened Fsm
  import opened Canary
  import opened Workers
  import opened Rollouts
  import opened Availability

  /** The candidate is scaled to zero. */
  predicate Idled(w: World) {
    w.candidate.Some? && w.candidate.value.instances == 0
  }

  /** Positions on the way down: deploy beside a primary, monitor, fail, roll back. */
  predicate DescendPc(cfg: Config, traffic: int, pc: Pc, w: World) {
    match pc
    case Init(ByDeploy, InitLookup) => w.Runs(Primary)
    case DepWait(false) => w.Runs(Primary)
    case DepScale(false) => w.Runs(Primary)
    case MonTest => true
    case MonExecute => true
    case MonCheck(f) => f < cfg.threshold
    case ScaleTo(_) => traffic != -1
    case RbkScale => true
    case Remove(_, _) => true
    case End(e, _) =>
      e.EventDeployed? || e.EventUnhealthy? || ((e.EventHealthy? || e.EventScaled?) && traffic != -1)
    case _ => false
  }

  predicate Descending(s: Sys) {
    && Single(s) && s.workers != [] && s.cfg.Valid() && s.world.candidate.Some?
    && DescendPc(s.cfg, s.traffic, s.workers[0].pc, s.world)
  }

  /** The reply that leads down: tests and checks fail, every other call succeeds. */
  function Adverse(pc: Pc, w: World): Reply
    requires w.candidate.Some?
  {
    match pc
    case Init(_, _) => if w.primary.Some? then Found(w.primary.value) else NotFound
    case MonTest => Err
    case MonCheck(_) => Err
    case Remove(_, RemoveGet) => Found(w.candidate.value)
    case _ => Done
  }

  /** Steps left, at most. */
  function Height(cfg: Config, traffic: int, pc: Pc): int {
    var t := cfg.threshold;
    match pc
    case Init(_, _) => t + 44
    case DepWait(_) => t + 43
    case DepScale(_) => t + 42
    case MonTest => if traffic == -1 then t + 38 else t + 18
    case MonExecute => if traffic == -1 then t + 37 else t + 17
    case MonCheck(f) => t - f + 10
    case ScaleTo(_) => t + 23
    case RbkScale => 8
    case Remove(_, RemoveGet) => 7
    case Remove(_, RemoveUpdate(_)) => 6
    case End(e, _) =>
      if e.EventDeployed? then t + 41 else if e.EventHealthy? then t + 24
      else if e.EventScaled? then t + 22 else 9
    case _ => 0
  }

  predicate Lower(s: Sys, n: Sys)
    requires s.workers != []
  {
    && n.cfg == s.cfg && n.world.primary == s.world.primary
    && (Idled(n.world)
        || (Descending(n)
            && 0 <= Height(n.cfg, n.traffic, n.workers[0].pc) < Height(s.cfg, s.traffic, s.workers[0].pc)))
  }

  lemma CallDescends(s: Sys, n: Sys, l: Label)
    requires Descending(s) && Called(s, n, l) && Single(n) && l.reply == Adverse(s.workers[0].pc, s.world)
    ensures Lower(s, n)
  {
  }

  lemma EndDescends(s: Sys, n: Sys, kept: bool)
    requires Descending(s) && s.workers[0].pc.End?
    requires Entered(s, n, Target(s.state, s.workers[0].pc.event).value, s.workers[0].pc.arg, kept)
    ensures Lower(s, n)
  {
  }

  lemma DescendStep(s: Sys, l: Label)
    requires Descending(s) && l == Work(0, Adverse(s.workers[0].pc, s.world), true, true)
    ensures CleanStep(s, l) && Lower(s, Exec(s, l))
  {
    assert Moves(s, l);
    if s.workers[0].pc.End? {
      EndIs(s, l);
      EndDescends(s, Exec(s, l), true);
    } else {
      CallIs(s, l);
      CallDescends(s, Exec(s, l), l);
    }
  }

  /** Clean steps that scale the candidate to zero and leave the primary alone. */
  lemma {:induction false} Descend(s: Sys) returns (ls: seq<Label>)
    requires Descending(s)
    ensures Clean(s, ls) && Idled(Run(s, ls).world) && Run(s, ls).world.primary == s.world.primary
    decreases Height(s.cfg, s.traffic, s.workers[0].pc)
  {
    var l := Work(0, Adverse(s.workers[0].pc, s.world), true, true);
    DescendStep(s, l);
    CleanOne(s, l);
    var n := Exec(s, l);
    if Idled(n.world) {
      ls := [l];
    } else {
      var rest := Descend(n);
      ls := [l] + rest;
      CleanAppend(s, [l], rest);
    }
  }

  /** Resuming a monitored release without a primary can scale the last deployment to zero. */
  lemma ResumeLoses(s: Sys, l: Label)
    requires s.cfg.Valid() && s.world.Live() && s.world.primary.None? && ResumeHazard(s, l)
    ensures Loses(Exec(s, l))
  {
    var n := Exec(s, l);
    ReloadEvent(s, l);
    StartFits(s.cfg, StateMonitor, None);
    assert Descending(n);
    var ls := Descend(n);
    assert !Run(n, ls).world.Live();
  }
}
