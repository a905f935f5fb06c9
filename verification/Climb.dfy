/** How a rollout is brought, without a failing call, to its last check and to the edge of promotion. */
module Climbs {
  import opened Prelude
  import opened Cluster
  import opened Fsm
  import opened Workers
  import opened Rollouts
  import opened RolloutSuccess
  import opened Availability

  /** A rollout of `c` between Deploy and the decision to promote, every history write kept. */
  predicate Climbing(s: Sys, c: Deployment) {
    && Smooth(s, c) && s.cfg.Valid() && Synced(s)
    && (s.state.StateDeploy? || s.state.StateMonitor? || s.state.StateScale?) && s.workers != []
    && (s.workers[0].pc.End? ==> !s.workers[0].pc.event.EventComplete?)
    && (s.workers[0].pc.MonDecide? ==> s.saved == s.traffic)
  }

  /** Where to stop: entering Monitor, about to scale, or after the last successful check. */
  datatype Stop = AtMonitor | AtScale | AtLast

  predicate Reached(s: Sys, stop: Stop)
    requires s.workers != []
  {
    var pc := s.workers[0].pc;
    match stop
    case AtMonitor => s.workers == Spawn(s.cfg, StateMonitor, None)
    case AtScale => pc.ScaleTo?
    case AtLast => pc.MonDecide? && s.traffic >= s.cfg.max
  }

  /** The stop still lies ahead. */
  predicate Ahead(s: Sys, stop: Stop)
    requires s.workers != []
  {
    var pc := s.workers[0].pc;
    Reached(s, stop)
    || match stop
       case AtMonitor => s.state.StateDeploy?
       case AtScale =>
         || (s.state.StateDeploy? && s.traffic == -1)
         || ((pc.MonTest? || pc.MonExecute?) && s.traffic == -1)
         || (s.state.StateMonitor? && pc.End? && pc.event.EventHealthy?)
       case AtLast => true
  }

  function Distance(s: Sys): int {
    if s.traffic >= s.cfg.max then 0 else s.cfg.max - s.traffic
  }

  function Stage(pc: Pc): int {
    match pc
    case Init(_, _) => 14
    case DepWait(_) => 13
    case DepScale(_) => 12
    case MonDecide => 10
    case ScaleTo(_) => 8
    case MonTest => 6
    case MonExecute => 5
    case MonCheck(_) => 4
    case End(e, _) => if e.EventDeployed? then 11 else if e.EventHealthy? then 9 else 7
    case _ => 0
  }

  predicate Higher(s: Sys, n: Sys, c: Deployment, stop: Stop)
    requires s.workers != []
  {
    && Climbing(n, c) && n.cfg == s.cfg && n.world.primary == s.world.primary && Ahead(n, stop)
    && (stop.AtMonitor? ==> n.traffic == s.traffic)
    && Distance(n) >= 0 && Stage(n.workers[0].pc) >= 0
    && (Reached(n, stop)
        || Distance(n) < Distance(s)
        || (Distance(n) == Distance(s) && Stage(n.workers[0].pc) < Stage(s.workers[0].pc)))
  }

  /** Everything but the meaning of Smooth that a climbing step must keep. */
  lemma CallClimbs(s: Sys, n: Sys, l: Label, c: Deployment, stop: Stop)
    requires Climbing(s, c) && Ahead(s, stop) && !Reached(s, stop) && !Reached(s, AtLast)
    requires Called(s, n, l) && Smooth(n, c) && l.savedOk && (l.reply.Done? || l.reply.Found?)
    requires Legal(RequestOf(s.workers[0].pc), s.world, l.reply)
    ensures Higher(s, n, c, stop)
  {
  }

  lemma EndClimbs(s: Sys, n: Sys, c: Deployment, stop: Stop)
    requires Climbing(s, c) && Ahead(s, stop) && !Reached(s, stop) && s.workers[0].pc.End? && Smooth(n, c)
    requires Entered(s, n, Target(s.state, s.workers[0].pc.event).value, s.workers[0].pc.arg, true)
    ensures Higher(s, n, c, stop)
  {
    var e := s.workers[0].pc.event;
    assert e.EventDeployed? || e.EventHealthy? || e.EventScaled?;
  }

  lemma ClimbStep(s: Sys, c: Deployment, stop: Stop, l: Label)
    requires Climbing(s, c) && Ahead(s, stop) && !Reached(s, stop)
    requires l == Work(0, GoodReply(s.workers[0].pc, s.world, c), true, true)
    ensures CleanStep(s, l) && l.Work? && Higher(s, Exec(s, l), c, stop)
  {
    GoodReplyIsLegal(s, c);
    SmoothStep(s, c, l);
    if s.workers[0].pc.End? {
      EndIs(s, l);
      EndClimbs(s, Exec(s, l), c, stop);
    } else {
      CallIs(s, l);
      CallClimbs(s, Exec(s, l), l, c, stop);
    }
  }

  predicate OnlyWork(ls: seq<Label>) {
    forall k :: 0 <= k < |ls| ==> ls[k].Work?
  }

  /** Clean steps of the worker to the stop; the primary stays as it is. */
  lemma {:induction false} Climb(s: Sys, c: Deployment, stop: Stop) returns (ls: seq<Label>)
    requires Climbing(s, c) && Ahead(s, stop)
    ensures Clean(s, ls) && OnlyWork(ls)
    ensures var n := Run(s, ls);
            && Climbing(n, c) && Reached(n, stop) && n.cfg == s.cfg && n.world.primary == s.world.primary
            && (stop.AtMonitor? ==> n.traffic == s.traffic)
    decreases Distance(s), Stage(s.workers[0].pc)
  {
    if Reached(s, stop) {
      ls := [];
    } else {
      var l := Work(0, GoodReply(s.workers[0].pc, s.world, c), true, true);
      ClimbStep(s, c, stop, l);
      CleanOne(s, l);
      if Reached(Exec(s, l), stop) {
        ls := [l];
      } else {
        var rest := Climb(Exec(s, l), c, stop);
        ls := [l] + rest;
        CleanAppend(s, [l], rest);
      }
    }
  }

  // ---- From the last check to the edge of promotion ----

  /** The only worker stands at `pc` in the state it was started for. */
  predicate AtPc(s: Sys, state: State, pc: Pc) {
    Single(s) && s.state == state && s.workers == [Worker(state, pc)]
  }

  /** One call of the only worker. */
  lemma OneCall(s: Sys, state: State, pc: Pc, r: Reply) returns (n: Sys)
    requires AtPc(s, state, pc) && Legal(RequestOf(pc), s.world, r) && !pc.End? && !pc.EndError?
    requires !LookupHazard(s, Work(0, r, true, true))
    ensures Clean(s, [Work(0, r, true, true)]) && n == Run(s, [Work(0, r, true, true)])
    ensures Called(s, n, Work(0, r, true, true)) && AtPc(n, state, Next(s.cfg, s.traffic, pc, r))
  {
    var l := Work(0, r, true, true);
    CallIs(s, l);
    CleanOne(s, l);
    WorkKeepsSingle(s, l);
    n := Exec(s, l);
  }

  /** The last event of the only worker. */
  lemma OneEnd(s: Sys, state: State, e: Event, arg: Option<int>, kept: bool) returns (n: Sys)
    requires AtPc(s, state, End(e, arg))
    ensures Clean(s, [Work(0, Done, kept, true)]) && n == Run(s, [Work(0, Done, kept, true)])
    ensures Target(state, e).Some? && Entered(s, n, Target(state, e).value, arg, kept)
  {
    var l := Work(0, Done, kept, true);
    EndIs(s, l);
    CleanOne(s, l);
    n := Exec(s, l);
  }

  /** A call that brings the worker to its last event, and that event. */
  lemma CallThenEnd(s: Sys, state: State, pc: Pc, r: Reply, e: Event, kept: bool) returns (ls: seq<Label>)
    requires AtPc(s, state, pc) && Legal(RequestOf(pc), s.world, r) && !pc.End? && !pc.EndError?
    requires !(pc.Init? && r.Err?)
    requires Next(s.cfg, s.traffic, pc, r) == End(e, None) && !pc.MonCheck?
    ensures Clean(s, ls) && Target(state, e).Some?
    ensures var n, t := Run(s, ls), Target(state, e).value;
            && Staffed(n) && n.state == t && n.workers == Spawn(s.cfg, t, None) && n.cfg == s.cfg && n.trace != []
            && n.world == Apply(RequestOf(pc), s.world, r) && n.traffic == NextTraffic(s.cfg, s.traffic, pc, r)
            && (!Saves(s.traffic, pc, r) ==> n.saved == s.saved)
            && (if kept then Current(n.stored) == t else n.stored == s.stored)
  {
    var n1 := OneCall(s, state, pc, r);
    var n2 := OneEnd(n1, state, e, None, kept);
    var a, b := [Work(0, r, true, true)], [Work(0, Done, kept, true)];
    CleanAppend(s, a, b);
    ls := a + b;
  }

  lemma ToPromote(s: Sys, c: Deployment, kept: bool) returns (ls: seq<Label>)
    requires Climbing(s, c) && Reached(s, AtLast)
    ensures Clean(s, ls)
    ensures var n := Run(s, ls);
            && AtPc(n, StatePromote, ProScale) && n.world == s.world && n.cfg == s.cfg && n.traffic == -1
            && Current(n.stored) == if kept then StatePromote else StateMonitor
  {
    assert s.workers == [Worker(StateMonitor, MonDecide)];
    ls := CallThenEnd(s, StateMonitor, MonDecide, Done, EventComplete, kept);
  }

  lemma ToDelete(s: Sys, c: Deployment) returns (ls: seq<Label>)
    requires AtPc(s, StatePromote, ProScale) && s.world.candidate == Some(c) && c.instances > 0
    ensures Clean(s, ls)
    ensures var n := Run(s, ls);
            && AtPc(n, StatePromote, Promote(PromoteDelete(c))) && n.cfg == s.cfg && n.stored == s.stored
            && n.world == s.world.(split := Some(Split(0, 100))) && n.traffic == s.traffic
  {
    var n1 := OneCall(s, StatePromote, ProScale, Done);
    var n2 := OneCall(n1, StatePromote, Promote(PromoteHealth), Found(c));
    ls := [Work(0, Done, true, true)] + [Work(0, Found(c), true, true)];
    CleanAppend(s, [Work(0, Done, true, true)], [Work(0, Found(c), true, true)]);
  }

  /** A rollout of `c` beside a live primary, brought to where promotion is about to delete that primary. */
  lemma ToEdge(s: Sys, c: Deployment, kept: bool) returns (ls: seq<Label>)
    requires Climbing(s, c)
    ensures Clean(s, ls)
    ensures var n := Run(s, ls);
            && AtPc(n, StatePromote, Promote(PromoteDelete(c))) && n.cfg == s.cfg
            && n.world.primary == s.world.primary && n.world.candidate == Some(c)
            && Current(n.stored) == if kept then StatePromote else StateMonitor
  {
    var a := Climb(s, c, AtLast);
    var n := Run(s, a);
    assert Before(n.world, c);
    var b := ToPromote(n, c, kept);
    var d := ToDelete(Run(n, b), c);
    CleanAppend(n, b, d);
    CleanAppend(s, a, b + d);
    ls := a + (b + d);
  }

  /** A Deploy accepted beside a live primary starts a climb. */
  lemma DeployClimbs(s: Sys, c: Deployment)
    requires s.cfg.Valid() && s.workers == [] && (s.state.StateIdle? || s.state.StateFail?) && s.trace != []
    requires Before(s.world, c)
    ensures Clean(s, [Deploy(true)])
    ensures var n := Run(s, [Deploy(true)]);
            && Climbing(n, c) && n.state.StateDeploy? && n.cfg == s.cfg && n.world == s.world && n.traffic == s.traffic
            && n == Enter(s, StateDeploy, None, true)
  {
    CleanOne(s, Deploy(true));
    EnterStaffs(s, StateDeploy, None, true);
  }

  // ---- From rest ----

  /** Both deployments run. */
  predicate BothRun(w: World) {
    w.Runs(Primary) && w.Runs(Candidate)
  }

  /** No worker is live, both deployments run, and Deploy is accepted. */
  predicate Resting(u: Sys) {
    && u.cfg.Valid() && u.workers == [] && (u.state.StateIdle? || u.state.StateFail?) && u.trace != []
    && BothRun(u.world)
  }

  /** A rollout from rest, brought to a stop. */
  lemma Rises(u: Sys, stop: Stop) returns (ls: seq<Label>)
    requires Resting(u) && (stop.AtScale? ==> u.traffic == -1)
    ensures Clean(u, ls)
    ensures var n := Run(u, ls);
            && Climbing(n, u.world.candidate.value) && Reached(n, stop)
            && n.cfg == u.cfg && n.world.primary == u.world.primary
            && (stop.AtMonitor? ==> n.traffic == u.traffic)
  {
    var c := u.world.candidate.value;
    DeployClimbs(u, c);
    var u1 := Run(u, [Deploy(true)]);
    var rest := Climb(u1, c, stop);
    CleanAppend(u, [Deploy(true)], rest);
    ls := [Deploy(true)] + rest;
  }

  /** A rollout from rest, brought to promotion, which resets the strategy. */
  lemma RisesToPromote(u: Sys) returns (ls: seq<Label>)
    requires Resting(u)
    ensures Clean(u, ls)
    ensures var n := Run(u, ls);
            && AtPc(n, StatePromote, ProScale) && n.cfg == u.cfg && n.traffic == -1 && n.trace != []
            && BothRun(n.world) && n.world.candidate == u.world.candidate
  {
    var c := u.world.candidate.value;
    var a := Rises(u, AtLast);
    var n := Run(u, a);
    assert Before(n.world, c);
    var b := ToPromote(n, c, true);
    CleanAppend(u, a, b);
    ls := a + b;
    TraceGrows(n, b);
  }

  lemma {:induction false} TraceGrows(s: Sys, ls: seq<Label>)
    ensures |Run(s, ls).trace| >= |s.trace|
    decreases |ls|
  {
    if ls != [] { TraceGrows(Exec(s, ls[0]), ls[1..]); }
  }

  /** The label starts a worker that initialises the primary. */
  predicate StartsInit(u: Sys, l: Label) {
    || (l == Deploy(true) && u.state.StateFail?)
    || (l == Configure(true) && u.state.StateStart?)
  }

  function Home(l: Label): State {
    if l.Configure? then StateConfigure else StateDeploy
  }

  function CallerOf(l: Label): Caller {
    if l.Configure? then ByConfigure else ByDeploy
  }

  /** The first call of that worker up to its lookup of the primary. */
  function Preamble(l: Label): seq<Label> {
    if l.Configure? then [Work(0, Done, true, true)] else []
  }

  lemma ToLookup(u: Sys, l: Label) returns (n: Sys)
    requires u.workers == [] && StartsInit(u, l)
    ensures Clean(u, [l] + Preamble(l)) && n == Run(u, [l] + Preamble(l))
    ensures AtPc(n, Home(l), Init(CallerOf(l), InitLookup))
    ensures n.cfg == u.cfg && n.traffic == u.traffic && n.saved == u.saved && n.scales == u.scales
    ensures n.world == if l.Configure? then u.world.(configured := true) else u.world
  {
    CleanOne(u, l);
    var u1 := Exec(u, l);
    EnterStaffs(u, Home(l), None, true);
    if l.Configure? {
      n := OneCall(u1, StateConfigure, CfgSetup, Done);
      CleanAppend(u, [l], Preamble(l));
    } else {
      n := u1;
      assert [l] + [] == [l];
    }
  }

  lemma ToClone(u: Sys, state: State, caller: Caller, c: Deployment) returns (ls: seq<Label>)
    requires AtPc(u, state, Init(caller, InitLookup)) && u.world.candidate == Some(c) && c.instances > 0
    ensures Clean(u, ls)
    ensures var n := Run(u, ls);
            && AtPc(n, state, Init(caller, InitClone(c))) && n.cfg == u.cfg && n.world == u.world
            && n.traffic == u.traffic && n.saved == u.saved
  {
    var none := if u.world.primary.None? then NotFound else Err;
    var n1 := OneCall(u, state, Init(caller, InitLookup), none);
    var n2 := OneCall(n1, state, Init(caller, InitSelect), Found(c));
    var a, b := [Work(0, none, true, true)], [Work(0, Found(c), true, true)];
    CleanAppend(u, a, b);
    ls := a + b;
  }

  lemma CloneIsLost(u: Sys, state: State, caller: Caller, c: Deployment) returns (ls: seq<Label>)
    requires AtPc(u, state, Init(caller, InitClone(c))) && u.world.candidate == Some(c)
    ensures Clean(u, ls)
    ensures var n := Run(u, ls);
            && n.workers == [] && n.state.StateFail? && n.trace != [] && n.cfg == u.cfg
            && n.world == u.world.(primary := Some(AsPrimary(c))) && n.traffic == u.traffic && n.saved == u.saved
  {
    ls := CallThenEnd(u, state, Init(caller, InitClone(c)), Lost, EventFail, true);
  }

  /** A primary is cloned from the running candidate, found missing or not, although the worker that does it fails. */
  lemma ClonesPrimary(u: Sys, l: Label) returns (ls: seq<Label>)
    requires u.cfg.Valid() && u.workers == [] && StartsInit(u, l)
    requires u.world.Runs(Candidate)
    ensures Clean(u, ls) && Resting(Run(u, ls))
    ensures var n := Run(u, ls);
            n.cfg == u.cfg && n.state.StateFail? && n.traffic == u.traffic && n.saved == u.saved
  {
    var c := u.world.candidate.value;
    var n := ToLookup(u, l);
    var a := ToClone(n, Home(l), CallerOf(l), c);
    var b := CloneIsLost(Run(n, a), Home(l), CallerOf(l), c);
    CleanAppend(n, a, b);
    CleanAppend(u, [l] + Preamble(l), a + b);
    ls := ([l] + Preamble(l)) + (a + b);
  }

  /** Every fresh release can be brought to rest with the strategy reset, in memory and in the store. */
  lemma FreshRests(s: Sys) returns (ls: seq<Label>)
    requires Fresh(s)
    ensures Clean(s, ls) && Resting(Run(s, ls))
    ensures Run(s, ls).cfg == s.cfg && Run(s, ls).traffic == -1 && Run(s, ls).saved == -1
  {
    if s.world.candidate.Some? {
      ls := ClonesPrimary(s, Configure(true));
    } else {
      var user := UserDeploy(Deployment("", 1, "", map[]));
      CleanOne(s, user);
      var rest := ClonesPrimary(Exec(s, user), Configure(true));
      ls := [user] + rest;
      CleanAppend(s, [user], rest);
    }
  }
}
