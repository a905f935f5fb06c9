/** A rollout in which no call fails: where it must end, and that it gets there. */
module RolloutSuccess {
  import opened Prelude
  import opened Cluster
  import opened Fsm
  import opened Canary
  import opened Workers
  import opened Rollouts
  import opened RolloutTrace

  /** The old primary serves beside candidate `c`. */
  predicate Before(w: World, c: Deployment) {
    w.Runs(Primary) && w.candidate == Some(c) && c.instances > 0
  }

  /** Candidate `c` was cloned into the primary and still runs. */
  predicate Cloned(w: World, c: Deployment) {
    w.primary == Some(AsPrimary(c)) && w.candidate == Some(c) && c.instances > 0
  }

  predicate Finished(w: World, c: Deployment) {
    w.primary == Some(AsPrimary(c)) && w.candidate == Some(Retired(c))
  }

  /** The rollout of `c` so far, no call having failed. */
  predicate SmoothPc(pc: Pc, w: World, c: Deployment) {
    match pc
    case Init(ByDeploy, InitLookup) => Before(w, c)
    case DepWait(false) => Before(w, c)
    case DepScale(false) => Before(w, c)
    case MonTest => Before(w, c)
    case MonExecute => Before(w, c)
    case MonCheck(_) => Before(w, c)
    case MonDecide => Before(w, c)
    case ScaleTo(_) => Before(w, c)
    case ProScale => Before(w, c)
    case Promote(PromoteHealth) => Before(w, c)
    case Promote(PromoteDelete(src)) => Before(w, c) && src == c
    case Promote(PromoteClone(src)) => w.candidate == Some(c) && c.instances > 0 && src == c
    case Promote(PromoteReady) => Cloned(w, c)
    case ProWait => Cloned(w, c)
    case ProDrain => Cloned(w, c)
    case Remove(EventPromoted, RemoveGet) => Cloned(w, c)
    case Remove(EventPromoted, RemoveUpdate(d)) => Cloned(w, c) && d == c
    case End(e, _) =>
      if e.EventPromoted? then Finished(w, c)
      else Before(w, c) && (e.EventDeployed? || e.EventHealthy? || e.EventScaled? || e.EventComplete?)
    case _ => false
  }

  predicate Smooth(s: Sys, c: Deployment) {
    && Staffed(s) && |s.trace| >= 2
    && if s.workers == [] then
         s.state.StateIdle? && s.trace[|s.trace| - 2].StatePromote? && Finished(s.world, c)
       else
         SmoothPc(s.workers[0].pc, s.world, c) && !s.state.StateDestroy? && !s.state.StateRollback?
         && s.trace[|s.trace| - 1] == s.state
         && (s.state.StateDeploy? && s.workers[0].pc.End? ==> s.workers[0].pc.event.EventDeployed?)
  }

  /** The reply of a call that does not fail. */
  function GoodReply(pc: Pc, w: World, c: Deployment): Reply {
    match RequestOf(pc)
    case Get(Primary) => if w.primary.Some? then Found(w.primary.value) else NotFound
    case Get(Candidate) => Found(c)
    case Healthy(Primary) => if w.primary.Some? then Found(w.primary.value) else NotFound
    case Healthy(Candidate) => Found(c)
    case _ => Done
  }

  lemma SmoothCall(cfg: Config, traffic: int, pc: Pc, w: World, c: Deployment, r: Reply)
    requires SmoothPc(pc, w, c) && !pc.End? && Legal(RequestOf(pc), w, r) && (r.Done? || r.Found?)
    ensures SmoothPc(Next(cfg, traffic, pc, r), Apply(RequestOf(pc), w, r), c)
    ensures Next(cfg, traffic, pc, r).End? && pc.DepScale? ==> Next(cfg, traffic, pc, r).event.EventDeployed?
  {
  }

  lemma SmoothStep(s: Sys, c: Deployment, l: Label)
    requires Smooth(s, c) && Moves(s, l) && (l.reply.Done? || l.reply.Found?)
    ensures Smooth(Exec(s, l), c)
  {
    SoleStep(s, l);
    WorkKeepsSingle(s, l);
    var pc := s.workers[0].pc;
    if !pc.End? {
      SmoothCall(s.cfg, s.traffic, pc, s.world, c, l.reply);
    }
  }

  lemma GoodReplyIsLegal(s: Sys, c: Deployment)
    requires Smooth(s, c) && s.workers != []
    ensures var r := GoodReply(s.workers[0].pc, s.world, c);
            Moves(s, Work(0, r, true, true)) && (r.Done? || r.Found?)
  {
  }

  /** Only calls that do not fail. */
  predicate NoFailure(ls: seq<Label>) {
    forall k :: 0 <= k < |ls| ==> ls[k].Work? && (ls[k].reply.Done? || ls[k].reply.Found?)
  }

  lemma {:induction false} SmoothRun(s: Sys, c: Deployment, ls: seq<Label>)
    requires Smooth(s, c) && NoFailure(ls)
    ensures Smooth(Run(s, ls), c)
    decreases |ls|
  {
    if ls != [] {
      if Moves(s, ls[0]) { SmoothStep(s, c, ls[0]); } else { assert Exec(s, ls[0]) == s; }
      SmoothRun(Exec(s, ls[0]), c, ls[1..]);
    }
  }

  lemma {:induction false} Finish(s: Sys, o: Origin, j: nat, c: Deployment) returns (ls: seq<Label>)
    requires At(s, o, j) && Smooth(s, c) && 0 <= Left(s, j)
    ensures NoFailure(ls) && Run(s, ls).workers == []
    decreases Left(s, j)
  {
    if s.workers == [] {
      ls := [];
    } else {
      var l := Work(0, GoodReply(s.workers[0].pc, s.world, c), true, true);
      GoodReplyIsLegal(s, c);
      SmoothStep(s, c, l);
      var i := EffectiveStep(s, o, j, l);
      var rest := Finish(Exec(s, l), o, i, c);
      ls := [l] + rest;
      assert ls[1..] == rest;
    }
  }

  /** Both deployments run when Deploy is accepted. */
  predicate ReadyFor(s: Sys, c: Deployment) {
    JustDeployed(s) && Before(s.world, c)
  }

  /**
   From an accepted Deploy beside a live primary, a run of calls that do not fail
   can only finish in Idle after Promote: the primary is the candidate, the
   candidate is scaled to zero, and Scale got 0, the whole ramp, 100 and 0.
   */
  lemma SuccessEndsPromoted(s: Sys, c: Deployment, ls: seq<Label>)
    requires ReadyFor(s, c) && NoFailure(ls)
    ensures var n := Run(s, ls);
            && n.state != StateFail && n.state != StateRollback
            && (n.workers == [] ==>
                  && n.state == StateIdle && Finished(n.world, c) && n.traffic == -1
                  && n.scales == s.scales + [0] + Ramp(s.cfg, Rounds(s.cfg)) + [100, 0]
                  && |n.trace| == |s.trace| + 2 * Rounds(s.cfg) + 3)
  {
    SmoothRun(s, c, ls);
    var n := Run(s, ls);
    if n.workers == [] { PromotedScalesExactly(s, ls); }
  }

  /** And such a run exists from every such state. */
  lemma SuccessIsReachable(s: Sys, c: Deployment) returns (ls: seq<Label>)
    requires ReadyFor(s, c)
    ensures NoFailure(ls) && Run(s, ls).workers == [] && Run(s, ls).state == StateIdle && Finished(Run(s, ls).world, c)
  {
    JustDeployedIsAt(s);
    ls := Finish(s, Origin(s.scales, |s.trace|), 0, c);
    SmoothRun(s, c, ls);
  }
}
