/**
 The calls of each worker, written out: which it makes, in which order and with which
 arguments when none fails, and which failing replies end it in Fail.
 */
module Plans {
  import opened Prelude
  import opened Cluster
  import opened Fsm
  import opened Canary
  import opened Workers
  import opened Rollouts
  import opened Completions

  // ---- The calls along a run ----

  function CallOf(s: Sys, l: Label): seq<Request> {
    if Moves(s, l) && !RequestOf(s.workers[l.worker].pc).Internal? then [RequestOf(s.workers[l.worker].pc)] else []
  }

  /** Every call the workers made, in order. */
  function Calls(s: Sys, ls: seq<Label>): seq<Request>
    decreases |ls|
  {
    if ls == [] then [] else CallOf(s, ls[0]) + Calls(Exec(s, ls[0]), ls[1..])
  }

  /** The next calls of a worker at `pc`, at most n, when each gets the answer of the world. */
  function Ahead(cfg: Config, traffic: int, pc: Pc, w: World, n: nat): seq<Request>
    decreases n
  {
    var req := RequestOf(pc);
    if n == 0 || req.Internal? then []
    else
      var r := Truth(req, w);
      [req] + Ahead(cfg, NextTraffic(cfg, traffic, pc, r), Next(cfg, traffic, pc, r), Apply(req, w, r), n - 1)
  }

  lemma AheadStep(cfg: Config, traffic: int, pc: Pc, w: World, n: nat)
    requires n > 0
    ensures var r := Truth(RequestOf(pc), w);
            Ahead(cfg, traffic, pc, w, n)
            == if RequestOf(pc).Internal? then []
               else [RequestOf(pc)] + Ahead(cfg, NextTraffic(cfg, traffic, pc, r), Next(cfg, traffic, pc, r),
                                            Apply(RequestOf(pc), w, r), n - 1)
  {
  }

  /** Without a failure the reply is that of the world. */
  lemma ReplyIsTruth(req: Request, w: World, r: Reply)
    requires Legal(req, w, r) && !Fails(r)
    ensures r == Truth(req, w)
  {
  }

  /** The worker has fired its event, or still stands in the same state. */
  predicate InState(s: Sys, ls: seq<Label>) {
    |Run(s, ls).trace| == |s.trace|
  }

  lemma {:induction false} TraceOnlyGrows(s: Sys, ls: seq<Label>)
    requires forall k :: 0 <= k < |ls| ==> ls[k].Work?
    ensures |Run(s, ls).trace| >= |s.trace|
    decreases |ls|
  {
    if ls != [] { TraceOnlyGrows(Exec(s, ls[0]), ls[1..]); }
  }

  /** The calls ahead of the only worker. */
  function AheadOf(s: Sys, n: nat): seq<Request>
    requires s.workers != []
  {
    Ahead(s.cfg, s.traffic, s.workers[0].pc, s.world, n)
  }

  lemma AheadAfterCall(s: Sys, l: Label, n: nat)
    requires Single(s) && Moves(s, l) && !Fails(l.reply) && n > 0 && !RequestOf(s.workers[0].pc).Internal?
    ensures Single(Exec(s, l)) && Exec(s, l).workers != []
    ensures AheadOf(s, n) == CallOf(s, l) + AheadOf(Exec(s, l), n - 1)
    ensures Exec(s, l).state == s.state && |Exec(s, l).trace| == |s.trace|
  {
    CallIs(s, l);
    WorkKeepsSingle(s, l);
    ReplyIsTruth(RequestOf(s.workers[0].pc), s.world, l.reply);
    AheadStep(s.cfg, s.traffic, s.workers[0].pc, s.world, n);
  }

  lemma EndMoves(s: Sys, l: Label)
    requires Single(s) && Moves(s, l) && (s.workers[0].pc.End? || s.workers[0].pc.EndError?)
    ensures |Exec(s, l).trace| > |s.trace|
  {
    EndIs(s, l);
  }

  /** The rest of a run that stays in a state and comes to its worker's last event. */
  predicate ComesToEnd(s: Sys, ls: seq<Label>) {
    && Single(s) && s.workers != [] && !s.state.StateMonitor? && NoneFails(ls) && InState(s, ls)
    && Run(s, ls).workers != [] && Run(s, ls).workers[0].pc.End?
  }

  /** Its first label is no step, or a call. */
  lemma FirstOfRun(s: Sys, ls: seq<Label>)
    requires ComesToEnd(s, ls) && ls != []
    ensures Moves(s, ls[0]) ==> !s.workers[0].pc.End? && !s.workers[0].pc.EndError?
    ensures !Moves(s, ls[0]) ==> Exec(s, ls[0]) == s && ComesToEnd(s, ls[1..])
  {
    TraceOnlyGrows(Exec(s, ls[0]), ls[1..]);
    if Moves(s, ls[0]) {
      if s.workers[0].pc.End? || s.workers[0].pc.EndError? { EndMoves(s, ls[0]); }
    }
  }

  lemma RestAfterCall(s: Sys, ls: seq<Label>, n: nat)
    requires ComesToEnd(s, ls) && ls != [] && Moves(s, ls[0]) && n > 0
    ensures ComesToEnd(Exec(s, ls[0]), ls[1..])
    ensures AheadOf(s, n) == CallOf(s, ls[0]) + AheadOf(Exec(s, ls[0]), n - 1)
  {
    FirstOfRun(s, ls);
    NotInternal(s);
    AheadAfterCall(s, ls[0], n);
  }

  lemma CallsUnfold(s: Sys, ls: seq<Label>)
    requires ls != []
    ensures Moves(s, ls[0]) ==> Calls(s, ls) == CallOf(s, ls[0]) + Calls(Exec(s, ls[0]), ls[1..])
    ensures !Moves(s, ls[0]) ==> Calls(s, ls) == Calls(Exec(s, ls[0]), ls[1..])
  {
    if !Moves(s, ls[0]) { assert CallOf(s, ls[0]) == []; }
  }

  lemma NothingLeft(s: Sys, n: nat)
    requires ComesToEnd(s, [])
    ensures Calls(s, []) == AheadOf(s, n)
  {
    EndAhead(s.cfg, s.traffic, s.workers[0].pc.event, s.workers[0].pc.arg, s.world, n);
  }

  /** A run without a failing call up to the worker's last event has made exactly the calls ahead of it. */
  lemma {:induction false} CallsAreAhead(s: Sys, ls: seq<Label>, n: nat)
    requires ComesToEnd(s, ls) && n >= |ls|
    ensures Calls(s, ls) == AheadOf(s, n)
    decreases |ls|
  {
    if ls == [] {
      NothingLeft(s, n);
    } else {
      FirstOfRun(s, ls);
      CallsUnfold(s, ls);
      if Moves(s, ls[0]) {
        RestAfterCall(s, ls, n);
        CallsAreAhead(Exec(s, ls[0]), ls[1..], n - 1);
      } else {
        CallsAreAhead(s, ls[1..], n);
      }
    }
  }

  /** Outside Monitor only the last step of a worker is no call. */
  lemma NotInternal(s: Sys)
    requires Single(s) && s.workers != [] && !s.state.StateMonitor?
    requires !s.workers[0].pc.End? && !s.workers[0].pc.EndError?
    ensures !RequestOf(s.workers[0].pc).Internal?
  {
  }

  // ---- The plans ----

  /** Clone the candidate into the primary, and wait for it. */
  function MakePrimary(c: Deployment): seq<Request> {
    [Clone(Candidate, Primary, c.instances, c.meta[OWNER := "1"]), Healthy(Primary)]
  }

  /** Take candidate `c` out of service, if there is one. */
  function Retire(c: Option<Deployment>): seq<Request> {
    if c.None? then [Get(Candidate)]
    else [Get(Candidate), Update(Candidate, 0, c.value.meta[OWNER := c.value.version])]
  }

  /** Put a running candidate in the place of the primary, send all traffic there, and retire the candidate. */
  function Replace(w: World): seq<Request> {
    if w.Runs(Candidate) then
      [Healthy(Candidate), Delete(Primary)] + MakePrimary(w.candidate.value)
      + [WaitHealthy(Primary), Scale(0)] + Retire(w.candidate)
    else
      [Healthy(Candidate), WaitHealthy(Primary), Scale(0)] + Retire(w.candidate)
  }

  /** Make the candidate anew from the primary, if there is one. */
  function Recreate(p: Option<Deployment>): seq<Request> {
    if p.None? then []
    else
      [Delete(Candidate), Clone(Primary, Candidate, p.value.instances, Disowned(p.value.meta)), Healthy(Candidate)]
  }

  /** The candidate takes over, and the primary and the config entries go. */
  const LEAVING: seq<Request> := [WaitHealthy(Candidate), Scale(100), Delete(Primary), Teardown]

  /** The calls of the worker that entry to `state` starts in world `w`. */
  function Plan(state: State, w: World, arg: int): seq<Request> {
    match state
    case StateConfigure =>
      if w.primary.Some? then [Setup, Get(Primary)]
      else if w.candidate.None? then [Setup, Get(Primary), Select]
      else
        [Setup, Get(Primary), Select] + MakePrimary(w.candidate.value)
        + [WaitHealthy(Primary), Scale(0)] + Retire(w.candidate)
    case StateDeploy =>
      if w.primary.Some? then [Get(Primary), WaitHealthy(Primary), Scale(0)]
      else if w.candidate.None? then [Get(Primary), Select, WaitHealthy(Primary), Scale(0)]
      else
        [Get(Primary), Select] + MakePrimary(w.candidate.value) + [WaitHealthy(Primary), Scale(0)] + Retire(w.candidate)
    case StateScale => [Scale(arg)]
    case StatePromote =>
      [Scale(100)] + Replace(w)
    case StateRollback => [Scale(0)] + Retire(w.candidate)
    case StateDestroy =>
      [Get(Primary)] + (Recreate(w.primary) + LEAVING)
    case _ => []
  }

  /** The deployments are such that no wait of the plan is in vain. */
  predicate Sound(state: State, w: World) {
    && (w.primary.Some? ==> w.Runs(Primary))
    && (w.primary.None? && w.candidate.Some? ==> w.Runs(Candidate))
    && (state.StateDeploy? || state.StateRollback? ==> w.primary.Some? || w.candidate.Some?)
    && (state.StatePromote? ==> w.primary.Some?)
    && (state.StateDestroy? ==> w.primary.Some? || w.candidate.Some?)
  }

  const LONG: nat := 12

  lemma EndAhead(cfg: Config, traffic: int, e: Event, arg: Option<int>, w: World, n: nat)
    ensures Ahead(cfg, traffic, End(e, arg), w, n) == []
  {
    if n > 0 { AheadStep(cfg, traffic, End(e, arg), w, n); }
  }

  lemma RetireAhead(cfg: Config, traffic: int, e: Event, w: World, n: nat)
    requires n >= 3
    ensures Ahead(cfg, traffic, Remove(e, RemoveGet), w, n) == Retire(w.candidate)
  {
    AheadStep(cfg, traffic, Remove(e, RemoveGet), w, n);
    if w.candidate.Some? {
      var pc := Remove(e, RemoveUpdate(w.candidate.value));
      AheadStep(cfg, traffic, pc, w, n - 1);
      EndAhead(cfg, traffic, e, None, Apply(RequestOf(pc), w, Done), n - 2);
    } else {
      EndAhead(cfg, traffic, e, None, w, n - 1);
    }
  }

  /** From the Scale that sends all traffic to the primary. */
  lemma DrainAhead(cfg: Config, traffic: int, pc: Pc, w: World, n: nat)
    requires n >= 5 && (pc.CfgScale? || pc.ProDrain? || pc.DepScale?)
    ensures Ahead(cfg, traffic, pc, w, n) == [Scale(0)] + if pc == DepScale(false) then [] else Retire(w.candidate)
  {
    AheadStep(cfg, traffic, pc, w, n);
    var w1 := Apply(Scale(0), w, Done);
    if pc == DepScale(false) {
      EndAhead(cfg, traffic, EventDeployed, None, w1, n - 1);
    } else {
      RetireAhead(cfg, traffic, Next(cfg, traffic, pc, Done).success, w1, n - 1);
    }
  }

  /** From the wait for the primary: all traffic to it, and then what the caller has left. */
  lemma SettleAhead(cfg: Config, traffic: int, pc: Pc, w: World, n: nat)
    requires n >= 6 && (pc.CfgWait? || pc.ProWait? || pc.DepWait?)
    ensures Ahead(cfg, traffic, pc, w, n)
            == [WaitHealthy(Primary), Scale(0)] + if pc == DepWait(false) then [] else Retire(w.candidate)
  {
    AheadStep(cfg, traffic, pc, w, n);
    var rest := if pc == DepWait(false) then [] else Retire(w.candidate);
    DrainAhead(cfg, traffic, Next(cfg, traffic, pc, Done), w, n - 1);
    assert [WaitHealthy(Primary)] + ([Scale(0)] + rest) == [WaitHealthy(Primary), Scale(0)] + rest;
  }

  /** From the selection of candidate `c` in InitPrimary. */
  lemma CloneAhead(cfg: Config, traffic: int, caller: Caller, c: Deployment, w: World, n: nat)
    requires n >= 8 && w.candidate == Some(c) && c.instances > 0
    ensures Ahead(cfg, traffic, Init(caller, InitClone(c)), w, n)
            == MakePrimary(c) + [WaitHealthy(Primary), Scale(0)] + Retire(w.candidate)
  {
    AheadStep(cfg, traffic, Init(caller, InitClone(c)), w, n);
    var w1 := Apply(RequestOf(Init(caller, InitClone(c))), w, Done);
    AheadStep(cfg, traffic, Init(caller, InitHealth), w1, n - 1);
    SettleAhead(cfg, traffic, AfterInit(caller, true), w1, n - 2);
  }

  /** What InitPrimary's caller does when nothing was made. */
  lemma NothingMadeAhead(cfg: Config, traffic: int, caller: Caller, w: World, n: nat)
    requires n >= 6
    ensures Ahead(cfg, traffic, AfterInit(caller, false), w, n)
            == if caller.ByDeploy? then [WaitHealthy(Primary), Scale(0)] else []
  {
    if caller.ByDeploy? {
      SettleAhead(cfg, traffic, DepWait(false), w, n);
    } else {
      EndAhead(cfg, traffic, EventConfigured, None, w, n);
    }
  }

  /** InitPrimary and what its caller does after it. */
  lemma InitAhead(cfg: Config, traffic: int, caller: Caller, w: World, n: nat)
    requires n >= 10 && (w.primary.Some? ==> w.Runs(Primary))
    requires w.primary.None? && w.candidate.Some? ==> w.Runs(Candidate)
    ensures Ahead(cfg, traffic, Init(caller, InitLookup), w, n)
            == if w.primary.None? && w.candidate.Some? then
                 [Get(Primary), Select] + MakePrimary(w.candidate.value)
                 + [WaitHealthy(Primary), Scale(0)] + Retire(w.candidate)
               else
                 (if w.primary.Some? then [Get(Primary)] else [Get(Primary), Select])
                 + (if caller.ByDeploy? then [WaitHealthy(Primary), Scale(0)] else [])
  {
    AheadStep(cfg, traffic, Init(caller, InitLookup), w, n);
    if w.primary.Some? {
      NothingMadeAhead(cfg, traffic, caller, w, n - 1);
    } else {
      AheadStep(cfg, traffic, Init(caller, InitSelect), w, n - 1);
      if w.candidate.Some? {
        CloneAhead(cfg, traffic, caller, w.candidate.value, w, n - 2);
      } else {
        NothingMadeAhead(cfg, traffic, caller, w, n - 2);
      }
    }
  }

  /** From the clone of candidate `c` over the deleted primary. */
  lemma ReplaceAhead(cfg: Config, traffic: int, c: Deployment, w: World, n: nat)
    requires n >= 8 && w.candidate == Some(c) && c.instances > 0
    ensures Ahead(cfg, traffic, Promote(PromoteClone(c)), w, n)
            == MakePrimary(c) + [WaitHealthy(Primary), Scale(0)] + Retire(w.candidate)
  {
    AheadStep(cfg, traffic, Promote(PromoteClone(c)), w, n);
    var w1 := Apply(RequestOf(Promote(PromoteClone(c))), w, Done);
    AheadStep(cfg, traffic, Promote(PromoteReady), w1, n - 1);
    SettleAhead(cfg, traffic, ProWait, w1, n - 2);
  }

  lemma CandidateAhead(cfg: Config, traffic: int, w: World, n: nat)
    requires n >= 10 && w.primary.Some?
    ensures Ahead(cfg, traffic, Promote(PromoteHealth), w, n) == Replace(w)
  {
    AheadStep(cfg, traffic, Promote(PromoteHealth), w, n);
    if w.Runs(Candidate) {
      var c := w.candidate.value;
      AheadStep(cfg, traffic, Promote(PromoteDelete(c)), w, n - 1);
      ReplaceAhead(cfg, traffic, c, Apply(Delete(Primary), w, Done), n - 2);
    } else {
      SettleAhead(cfg, traffic, ProWait, w, n - 1);
    }
  }

  lemma PromoteAhead(cfg: Config, traffic: int, w: World)
    requires w.primary.Some?
    ensures Ahead(cfg, traffic, ProScale, w, LONG) == Plan(StatePromote, w, 0)
  {
    AheadStep(cfg, traffic, ProScale, w, LONG);
    CandidateAhead(cfg, traffic, Apply(Scale(100), w, Done), 11);
  }

  lemma LeaveAhead(cfg: Config, traffic: int, w: World, n: nat)
    requires n >= 5
    ensures Ahead(cfg, traffic, DstWait, w, n) == LEAVING
  {
    AheadStep(cfg, traffic, DstWait, w, n);
    AheadStep(cfg, traffic, DstScale, w, n - 1);
    var w1 := Apply(Scale(100), w, Done);
    AheadStep(cfg, traffic, DstRemove, w1, n - 2);
    var w2 := Apply(Delete(Primary), w1, Truth(Delete(Primary), w1));
    AheadStep(cfg, traffic, DstConfig, w2, n - 3);
    EndAhead(cfg, traffic, EventComplete, None, Apply(Teardown, w2, Done), n - 4);
  }

  /** From the clone of primary `p` over the deleted candidate. */
  lemma RestoreAhead(cfg: Config, traffic: int, p: Deployment, w: World, n: nat)
    requires n >= 7 && w.primary == Some(p) && p.instances > 0
    ensures Ahead(cfg, traffic, Restore(RestoreClone(p)), w, n)
            == [Clone(Primary, Candidate, p.instances, Disowned(p.meta)), Healthy(Candidate)] + LEAVING
  {
    MadeDeployments(p);
    AheadStep(cfg, traffic, Restore(RestoreClone(p)), w, n);
    var w1 := Apply(RequestOf(Restore(RestoreClone(p))), w, Done);
    AheadStep(cfg, traffic, Restore(RestoreReady), w1, n - 1);
    LeaveAhead(cfg, traffic, w1, n - 2);
  }

  lemma MakeRoomAhead(cfg: Config, traffic: int, p: Deployment, w: World, n: nat)
    requires n >= 8 && w.primary == Some(p) && p.instances > 0
    ensures Ahead(cfg, traffic, Restore(RestoreDelete(p)), w, n)
            == Recreate(Some(p)) + LEAVING
  {
    AheadStep(cfg, traffic, Restore(RestoreDelete(p)), w, n);
    RestoreAhead(cfg, traffic, p, Apply(Delete(Candidate), w, Truth(Delete(Candidate), w)), n - 1);
  }

  lemma DestroyAhead(cfg: Config, traffic: int, w: World)
    requires w.primary.Some? ==> w.Runs(Primary)
    ensures Ahead(cfg, traffic, Restore(RestoreGet), w, LONG) == Plan(StateDestroy, w, 0)
  {
    AheadStep(cfg, traffic, Restore(RestoreGet), w, LONG);
    if w.primary.Some? {
      var p := w.primary.value;
      MakeRoomAhead(cfg, traffic, p, w, 11);
    } else {
      LeaveAhead(cfg, traffic, w, 11);
    }
  }

  lemma ConfigureAhead(cfg: Config, traffic: int, w: World)
    requires Sound(StateConfigure, w)
    ensures Ahead(cfg, traffic, CfgSetup, w, LONG) == Plan(StateConfigure, w, 0)
  {
    AheadStep(cfg, traffic, CfgSetup, w, LONG);
    InitAhead(cfg, traffic, ByConfigure, w.(configured := true), 11);
  }

  lemma ScaleAhead(cfg: Config, traffic: int, w: World, t: int)
    ensures Ahead(cfg, traffic, ScaleTo(t), w, LONG) == Plan(StateScale, w, t)
  {
    AheadStep(cfg, traffic, ScaleTo(t), w, LONG);
    EndAhead(cfg, traffic, EventScaled, None, Apply(Scale(t), w, Done), 11);
  }

  lemma RollbackAhead(cfg: Config, traffic: int, w: World)
    ensures Ahead(cfg, traffic, RbkScale, w, LONG) == Plan(StateRollback, w, 0)
  {
    AheadStep(cfg, traffic, RbkScale, w, LONG);
    RetireAhead(cfg, traffic, EventComplete, Apply(Scale(0), w, Done), 11);
  }

  lemma PlanIsAhead(cfg: Config, traffic: int, state: State, w: World, arg: Option<int>)
    requires Sound(state, w) && !state.StateMonitor? && (state.StateScale? <==> arg.Some?)
    requires StartOf(cfg, state, arg).Some?
    ensures Ahead(cfg, traffic, StartOf(cfg, state, arg).value, w, LONG)
            == Plan(state, w, if arg.Some? then arg.value else 0)
  {
    match state
    case StateConfigure => ConfigureAhead(cfg, traffic, w);
    case StateDeploy => InitAhead(cfg, traffic, ByDeploy, w, LONG);
    case StateScale => ScaleAhead(cfg, traffic, w, arg.value);
    case StatePromote => PromoteAhead(cfg, traffic, w);
    case StateRollback => RollbackAhead(cfg, traffic, w);
    case StateDestroy => DestroyAhead(cfg, traffic, w);
  }

  lemma {:induction false} AheadStops(cfg: Config, traffic: int, pc: Pc, w: World, n: nat, m: nat)
    requires n <= m && |Ahead(cfg, traffic, pc, w, n)| < n
    ensures Ahead(cfg, traffic, pc, w, m) == Ahead(cfg, traffic, pc, w, n)
    decreases n
  {
    if n > 0 && !RequestOf(pc).Internal? {
      var req := RequestOf(pc);
      var r := Truth(req, w);
      AheadStep(cfg, traffic, pc, w, n);
      AheadStep(cfg, traffic, pc, w, m);
      AheadStops(cfg, NextTraffic(cfg, traffic, pc, r), Next(cfg, traffic, pc, r), Apply(req, w, r), n - 1, m - 1);
    }
  }

  /**
   A worker that entry to a state started, and that has come to its last event without
   a failing call, has made exactly the calls of the state's plan, in this order.
   */
  lemma WorkerFollowsPlan(s: Sys, arg: Option<int>, ls: seq<Label>)
    requires Single(s) && s.workers == Spawn(s.cfg, s.state, arg) && s.workers != []
    requires !s.state.StateMonitor? && (s.state.StateScale? <==> arg.Some?) && Sound(s.state, s.world)
    requires NoneFails(ls) && InState(s, ls) && Run(s, ls).workers != [] && Run(s, ls).workers[0].pc.End?
    ensures Calls(s, ls) == Plan(s.state, s.world, if arg.Some? then arg.value else 0)
  {
    var pc := s.workers[0].pc;
    var n := if |ls| > LONG then |ls| else LONG;
    CallsAreAhead(s, ls, n);
    PlanIsAhead(s.cfg, s.traffic, s.state, s.world, arg);
    assert |Plan(s.state, s.world, if arg.Some? then arg.value else 0)| < LONG;
    AheadStops(s.cfg, s.traffic, pc, s.world, LONG, n);
  }

  // ---- Failing replies ----

  /**
   Where a failing call does not end the worker in Fail: the two lookups of InitPrimary,
   the post-deployment test, the strategy's delay and the metric checks.
   */
  predicate Survives(pc: Pc) {
    || (pc.Init? && (pc.initAt.InitLookup? || pc.initAt.InitSelect?))
    || pc.MonTest? || pc.MonExecute? || pc.MonCheck?
  }

  /** Where a deployment that is not there is no failure. */
  predicate Tolerates(pc: Pc) {
    match pc
    case Init(_, InitLookup) => true           // make one
    case Init(_, InitSelect) => true           // nothing to make it from
    case Remove(_, RemoveGet) => true          // nothing to take out of service
    case Promote(PromoteHealth) => true        // nothing to promote
    case Restore(RestoreGet) => true           // nothing to restore
    case Restore(RestoreDelete(_)) => true     // nothing to make room for
    case DstRemove => true                     // nothing to remove
    case _ => false
  }

  /**
   A reply ends the worker in Fail exactly when it is a failure it does not survive, or a
   missing deployment it does not tolerate.
   */
  lemma FailsIff(cfg: Config, traffic: int, home: State, pc: Pc, w: World, r: Reply)
    requires Fits(home, pc) && Legal(RequestOf(pc), w, r) && !RequestOf(pc).Internal?
    ensures Next(cfg, traffic, pc, r) == FAILING <==>
              (Fails(r) && !Survives(pc)) || (r.NotFound? && !Tolerates(pc))
  {
  }

  /** A surviving worker goes on as if nothing were there, rolls back, errs, or counts one more failed check. */
  lemma SurvivesBy(cfg: Config, traffic: int, pc: Pc, w: World, r: Reply)
    requires Legal(RequestOf(pc), w, r) && Fails(r) && Survives(pc)
    ensures match pc
            case MonTest => Next(cfg, traffic, pc, r) == End(EventUnhealthy, None)
            case MonExecute => Next(cfg, traffic, pc, r) == EndError
            case MonCheck(f) =>
              Next(cfg, traffic, pc, r) == if f + 1 >= cfg.threshold then End(EventUnhealthy, None) else MonCheck(f + 1)
            case _ => Next(cfg, traffic, pc, r) == Next(cfg, traffic, pc, NotFound)
  {
  }
}
