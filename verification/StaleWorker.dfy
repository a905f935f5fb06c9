/**
 A worker that outlives its state. Destroy is accepted while a worker is live, and
 from then on that worker stands beside whatever the machine starts next.
 */
module StaleWorkers {
  import opened Prelude
  import opened Cluster
  import opened Fsm
  import opened Workers
  import opened Rollouts
  import opened Availability
  import opened Descents
  import opened Climbs

  /** The system `u` with one older worker beside it. */
  function Beside(w: Worker, u: Sys): Sys {
    u.(workers := [w] + u.workers)
  }

  /** The label for the same step when an older worker stands first. */
  function Shift(l: Label): Label {
    if l.Work? then Work(l.worker + 1, l.reply, l.kept, l.savedOk) else l
  }

  function ShiftAll(ls: seq<Label>): (r: seq<Label>)
    ensures |r| == |ls|
    ensures forall k :: 0 <= k < |ls| ==> r[k] == Shift(ls[k])
  {
    if ls == [] then [] else [Shift(ls[0])] + ShiftAll(ls[1..])
  }

  lemma EnterBeside(w: Worker, u: Sys, t: State, arg: Option<int>, kept: bool)
    ensures Enter(Beside(w, u), t, arg, kept) == Beside(w, Enter(u, t, arg, kept))
  {
    assert [w] + u.workers + Spawn(u.cfg, t, arg) == [w] + (u.workers + Spawn(u.cfg, t, arg));
  }

  lemma FireBeside(w: Worker, u: Sys, e: Event, arg: Option<int>, kept: bool)
    ensures Fire(Beside(w, u), e, arg, kept) == Beside(w, Fire(u, e, arg, kept))
  {
    if Target(u.state, e).Some? { EnterBeside(w, u, Target(u.state, e).value, arg, kept); }
  }

  lemma StepBeside(w: Worker, u: Sys, i: nat, r: Reply, kept: bool, savedOk: bool)
    requires i < |u.workers|
    ensures StepWorker(Beside(w, u), i + 1, r, kept, savedOk) == Beside(w, StepWorker(u, i, r, kept, savedOk))
  {
    var pc := u.workers[i].pc;
    assert Without([w] + u.workers, i + 1) == [w] + Without(u.workers, i);
    var v := u.(workers := Without(u.workers, i));
    if pc.End? {
      FireBeside(w, v, pc.event, pc.arg, kept);
    } else if pc.EndError? {
      FireBeside(w, v, EventFail, None, kept);
      FireBeside(w, Fire(v, EventFail, None, kept), EventUnhealthy, None, kept);
    } else {
      var x := u.workers[i].(pc := Next(u.cfg, u.traffic, pc, r));
      assert ([w] + u.workers)[i + 1 := x] == [w] + u.workers[i := x];
    }
  }

  /** An older worker that does not move changes no step of the others. */
  lemma ExecBeside(w: Worker, u: Sys, l: Label)
    requires !l.Reload?
    ensures Exec(Beside(w, u), Shift(l)) == Beside(w, Exec(u, l))
    ensures CleanStep(u, l) ==> CleanStep(Beside(w, u), Shift(l))
  {
    match l
    case Configure(kept) => FireBeside(w, u, EventConfigure, None, kept);
    case Deploy(kept) => FireBeside(w, u, EventDeploy, None, kept);
    case Destroy(kept) => FireBeside(w, u, EventDestroy, None, kept);
    case UserDeploy(_) =>
    case Work(i, r, kept, savedOk) => if i < |u.workers| { StepBeside(w, u, i, r, kept, savedOk); }
  }

  lemma {:induction false} RunBeside(w: Worker, u: Sys, ls: seq<Label>)
    requires Clean(u, ls)
    ensures Clean(Beside(w, u), ShiftAll(ls))
    ensures Run(Beside(w, u), ShiftAll(ls)) == Beside(w, Run(u, ls))
    decreases |ls|
  {
    if ls != [] {
      ExecBeside(w, u, ls[0]);
      RunBeside(w, Exec(u, ls[0]), ls[1..]);
      assert ShiftAll(ls)[1..] == ShiftAll(ls[1..]);
    }
  }

  /** A clean run of the others brings the pair to where it loses the service. */
  lemma LosesBeside(w: Worker, u: Sys, ls: seq<Label>)
    requires Clean(u, ls) && Loses(Beside(w, Run(u, ls)))
    ensures Loses(Beside(w, u))
  {
    RunBeside(w, u, ls);
    LosesAfter(Beside(w, u), ShiftAll(ls));
  }

  // ---- A step of the older worker ----

  lemma OlderCalls(w: Worker, u: Sys, r: Reply)
    requires Legal(RequestOf(w.pc), u.world, r) && !w.pc.End? && !w.pc.EndError?
    ensures var t := NextTraffic(u.cfg, u.traffic, w.pc, r);
            Exec(Beside(w, u), Work(0, r, true, true))
            == Beside(w.(pc := Next(u.cfg, u.traffic, w.pc, r)),
                      u.(world := Apply(RequestOf(w.pc), u.world, r), traffic := t,
                         saved := if Saves(u.traffic, w.pc, r) then t else u.saved,
                         scales := if RequestOf(w.pc).Scale? then u.scales + [RequestOf(w.pc).traffic] else u.scales))
  {
    var x := w.(pc := Next(u.cfg, u.traffic, w.pc, r));
    assert ([w] + u.workers)[0 := x] == [x] + u.workers;
  }

  lemma OlderEnds(w: Worker, u: Sys)
    requires w.pc.End? || w.pc.EndError?
    ensures Exec(Beside(w, u), Work(0, Done, true, true))
            == if w.pc.End? then Fire(u, w.pc.event, w.pc.arg, true)
               else Fire(Fire(u, EventFail, None, true), EventUnhealthy, None, true)
  {
    assert Without([w] + u.workers, 0) == u.workers;
    assert u.(workers := u.workers) == u;
  }

  // ---- Workers that can fail ----

  /** Some call of the worker can fail in a way that makes it fire EventFail. */
  predicate CanFail(pc: Pc) {
    && !pc.MonCheck? && !pc.MonDecide? && (pc.End? ==> pc.event.EventFail?)
  }

  /** The machine is in Fail with the workers it had beside the older one, over the same deployments. */
  predicate FailedOut(u: Sys, v: Sys) {
    && v.state.StateFail? && v.workers == u.workers && v.world == u.world && v.cfg == u.cfg && v.trace != []
  }

  lemma FiresFail(w: Worker, u: Sys)
    requires w.pc == FAILING || w.pc.EndError?
    requires u.state.StateFail? ==> u.trace != []
    ensures CleanStep(Beside(w, u), Work(0, Done, true, true))
    ensures FailedOut(u, Exec(Beside(w, u), Work(0, Done, true, true)))
    ensures Exec(Beside(w, u), Work(0, Done, true, true)).traffic == u.traffic
  {
    OlderEnds(w, u);
    assert u.workers + [] == u.workers;
  }

  /** The reply that leads the worker towards failure. */
  function Failing(pc: Pc, w: World): Reply
    requires w.candidate.Some?
  {
    match pc
    case Init(_, InitSelect) => Found(w.candidate.value)
    case MonTest => Done
    case _ => Err
  }

  function FailRank(pc: Pc): nat {
    match pc
    case Init(_, InitLookup) => 3
    case Init(_, InitSelect) => 2
    case MonTest => 2
    case End(_, _) => 0
    case EndError => 0
    case _ => 1
  }

  lemma FailStep(w: Worker, u: Sys)
    requires CanFail(w.pc) && !w.pc.End? && !w.pc.EndError? && u.world.Runs(Candidate)
    ensures Legal(RequestOf(w.pc), u.world, Failing(w.pc, u.world))
    ensures Apply(RequestOf(w.pc), u.world, Failing(w.pc, u.world)) == u.world
    ensures CleanStep(Beside(w, u), Work(0, Failing(w.pc, u.world), true, true))
    ensures var pc := Next(u.cfg, u.traffic, w.pc, Failing(w.pc, u.world));
            CanFail(pc) && FailRank(pc) < FailRank(w.pc) && (pc.End? ==> pc == FAILING)
  {
  }

  /** Such a worker brings the machine to Fail and leaves everything else to the others. */
  lemma {:induction false} FailsOut(w: Worker, u: Sys) returns (ls: seq<Label>)
    requires CanFail(w.pc) && (w.pc.End? ==> w.pc == FAILING) && u.world.Runs(Candidate)
    requires u.state.StateFail? ==> u.trace != []
    ensures Clean(Beside(w, u), ls) && FailedOut(u, Run(Beside(w, u), ls))
    ensures w.pc.ProScale? || w.pc.End? || u.traffic != -1 ==> Run(Beside(w, u), ls).traffic == u.traffic
    decreases FailRank(w.pc)
  {
    if w.pc.End? || w.pc.EndError? {
      FiresFail(w, u);
      CleanOne(Beside(w, u), Work(0, Done, true, true));
      ls := [Work(0, Done, true, true)];
    } else {
      var r := Failing(w.pc, u.world);
      var l := Work(0, r, true, true);
      FailStep(w, u);
      OlderCalls(w, u, r);
      CleanOne(Beside(w, u), l);
      var n := Exec(Beside(w, u), l);
      var x := w.(pc := Next(u.cfg, u.traffic, w.pc, r));
      var v := n.(workers := u.workers);
      assert n == Beside(x, v);
      var rest := FailsOut(x, v);
      CleanAppend(Beside(w, u), [l], rest);
      ls := [l] + rest;
    }
  }

  /** The only worker can fail, which leaves the machine resting. */
  lemma SoleFails(s: Sys, x: Worker) returns (ls: seq<Label>)
    requires s.cfg.Valid() && s.workers == [x] && s.trace != [] && s.world.Runs(Candidate)
    requires CanFail(x.pc) && (x.pc.End? ==> x.pc == FAILING)
    ensures Clean(s, ls)
    ensures var n := Run(s, ls);
            && n.cfg == s.cfg && n.workers == [] && n.state.StateFail? && n.trace != [] && n.world == s.world
            && (x.pc.ProScale? || s.traffic != -1 ==> n.traffic == s.traffic)
  {
    var u := s.(workers := []);
    assert s == Beside(x, u);
    ls := FailsOut(x, u);
  }

  /** A promotion about to delete the primary, left behind, deletes it after a later rollback. */
  lemma DeleteLoses(p: Worker, u: Sys)
    requires p.pc.Promote? && p.pc.promoteAt.PromoteDelete? && Resting(u)
    ensures Loses(Beside(p, u))
  {
    var c := u.world.candidate.value;
    DeployClimbs(u, c);
    var u1 := Run(u, [Deploy(true)]);
    assert Descending(u1);
    var ls := Descend(u1);
    var u2 := Run(u1, ls);
    OlderCalls(p, u2, Done);
    LosesNow(Exec(Beside(p, u2), Work(0, Done, true, true)));
    LosesStep(Beside(p, u2), Work(0, Done, true, true));
    LosesBeside(p, u1, ls);
    LosesBeside(p, u, [Deploy(true)]);
  }

  /** An older worker that can still fail stops a promotion where it is about to delete the primary. */
  lemma StaleLoses(w: Worker, u: Sys)
    requires Resting(u) && CanFail(w.pc) && (w.pc.End? ==> w.pc == FAILING)
    ensures Loses(Beside(w, u))
  {
    var c := u.world.candidate.value;
    DeployClimbs(u, c);
    var u1 := Run(u, [Deploy(true)]);
    var ls := ToEdge(u1, c, true);
    var u2 := Run(u1, ls);
    var p := u2.workers[0];
    var fs := FailsOut(w, u2);
    var v := Run(Beside(w, u2), fs);
    var rest := v.(workers := []);
    assert v == Beside(p, rest);
    DeleteLoses(p, rest);
    LosesAfter(Beside(w, u2), fs);
    LosesBeside(w, u1, ls);
    LosesBeside(w, u, [Deploy(true)]);
  }

  // ---- Workers that only have an event left ----

  /** The older worker's event is accepted and makes the current worker the older one. */
  lemma TakesOver(w: Worker, u: Sys, x: Worker)
    requires u.cfg.Valid() && u.trace != [] && BothRun(u.world) && u.workers == [x]
    requires CanFail(x.pc) && (x.pc.End? ==> x.pc == FAILING)
    requires w.pc.End? && Target(u.state, w.pc.event).Some? && !w.pc.event.EventFail?
    requires !w.pc.event.EventDeploy? && !w.pc.event.EventConfigure? && !w.pc.event.EventDestroy?
    ensures Loses(Beside(w, u))
  {
    OlderEnds(w, u);
    var t := Target(u.state, w.pc.event).value;
    var y := Enter(u.(workers := []), t, w.pc.arg, true);
    EnterBeside(x, u.(workers := []), t, w.pc.arg, true);
    assert u == Beside(x, u.(workers := []));
    if y.workers == [] {
      StaleLoses(x, y);
    } else {
      var ls := SoleFails(y, y.workers[0]);
      StaleLoses(x, Run(y, ls));
      LosesBeside(x, y, ls);
    }
    LosesStep(Beside(w, u), Work(0, Done, true, true));
  }

  /** A rollout from rest, brought to its first Scale, whatever the strategy's traffic was. */
  lemma RisesToScale(u: Sys) returns (ls: seq<Label>)
    requires Resting(u)
    ensures Clean(u, ls)
    ensures var n := Run(u, ls);
            Climbing(n, u.world.candidate.value) && Reached(n, AtScale) && n.cfg == u.cfg && BothRun(n.world)
  {
    if u.traffic == -1 {
      ls := Rises(u, AtScale);
    } else {
      var a := RisesToPromote(u);
      var n := Run(u, a);
      var b := SoleFails(n, n.workers[0]);
      var m := Run(n, b);
      var d := Rises(m, AtScale);
      CleanAppend(n, b, d);
      CleanAppend(u, a, b + d);
      ls := a + (b + d);
    }
  }

  /** An older worker with an event left fires it where the table accepts it. */
  lemma EndLoses(w: Worker, u: Sys)
    requires Resting(u) && w.pc.End? && !w.pc.event.EventFail?
    requires !w.pc.event.EventDeploy? && !w.pc.event.EventConfigure? && !w.pc.event.EventDestroy?
    ensures Loses(Beside(w, u))
  {
    var c := u.world.candidate.value;
    var ls;
    match w.pc.event {
      case EventConfigured =>
        ls := [Configure(true)];
        CleanOne(u, Configure(true));
      case EventDeployed =>
        ls := [Deploy(true)];
        DeployClimbs(u, c);
      case EventScaled => ls := RisesToScale(u);
      case EventPromoted => ls := RisesToPromote(u);
      case _ => ls := Rises(u, AtMonitor);
    }
    var n := Run(u, ls);
    TraceGrows(u, ls);
    assert BothRun(n.world);
    TakesOver(w, n, n.workers[0]);
    LosesBeside(w, u, ls);
  }

  /** An older worker, wherever it stands, can bring a resting machine to lose the service. */
  lemma {:induction false} BesideLoses(w: Worker, u: Sys)
    requires Resting(u) && Fits(w.home, w.pc)
    ensures Loses(Beside(w, u))
    decreases if w.pc.MonCheck? then 2 else if w.pc.MonDecide? then 1 else 0
  {
    if w.pc.MonCheck? || w.pc.MonDecide? {
      OlderCalls(w, u, Done);
      var x := w.(pc := Next(u.cfg, u.traffic, w.pc, Done));
      var n := Exec(Beside(w, u), Work(0, Done, true, true));
      var v := n.(workers := []);
      assert n == Beside(x, v);
      BesideLoses(x, v);
      LosesStep(Beside(w, u), Work(0, Done, true, true));
    } else if w.pc.End? && !w.pc.event.EventFail? {
      EndLoses(w, u);
    } else {
      StaleLoses(w, u);
    }
  }

  // ---- Destroy beside a live worker ----

  /** Once a machine without workers has failed over a live deployment, it can be brought to rest with both. */
  lemma ComesToRest(u: Sys) returns (ls: seq<Label>)
    requires u.cfg.Valid() && u.workers == [] && u.state.StateFail? && u.trace != []
    requires WorldSafe(u.world) && u.world.Runs(Candidate)
    ensures Clean(u, ls) && Resting(Run(u, ls))
  {
    if u.world.Runs(Primary) {
      ls := [];
      assert Run(u, ls) == u;
    } else {
      ls := ClonesPrimary(u, Deploy(true));
    }
  }

  /** Beside a machine that has just started Destroy over a running candidate. */
  lemma DestroyingLoses(w: Worker, y: Sys, d: Worker)
    requires Fits(w.home, w.pc) && y.cfg.Valid() && y.workers == [d] && d.pc == Restore(RestoreGet) && y.trace != []
    requires WorldSafe(y.world) && y.world.Runs(Candidate)
    ensures Loses(Beside(w, y))
  {
    var a := SoleFails(y, d);
    var v := Run(y, a);
    var b := ComesToRest(v);
    BesideLoses(w, Run(v, b));
    LosesBeside(w, v, b);
    LosesBeside(w, y, a);
  }

  lemma DestroyBeside(s: Sys, w: Worker, kept: bool) returns (y: Sys, d: Worker)
    requires s.workers == [w] && Target(s.state, EventDestroy).Some?
    ensures Exec(s, Destroy(kept)) == Beside(w, y) && y.world == s.world && y.cfg == s.cfg && y.trace != []
    ensures y.workers == [d] && d.pc == Restore(RestoreGet)
  {
    EnterBeside(w, s.(workers := []), StateDestroy, None, kept);
    assert s == Beside(w, s.(workers := []));
    y := Enter(s.(workers := []), StateDestroy, None, kept);
    d := Worker(StateDestroy, Restore(RestoreGet));
  }

  /** Whatever the live worker is doing, a Destroy accepted beside it can start an outage. */
  lemma DestroyLoses(s: Sys, kept: bool)
    requires Safe(s) && s.cfg.Valid() && s.world.Live() && s.workers != [] && Target(s.state, EventDestroy).Some?
    ensures Loses(Exec(s, Destroy(kept)))
  {
    var w := s.workers[0];
    assert s.workers == [w];
    var live := if s.world.Runs(Primary) then s.world.primary.value else s.world.candidate.value;
    var y, d := DestroyBeside(s, w, kept);
    CleanOne(y, UserDeploy(live));
    DestroyingLoses(w, Exec(y, UserDeploy(live)), d);
    LosesBeside(w, y, [UserDeploy(live)]);
  }
}
