/**
 The whole system as a transition system: the state machine, its live workers,
 the strategy, the persisted release and the deployments. `Exec` is total: an
 event the table rejects, or a reply no contract allows, changes nothing, so a
 run is any sequence of labels and every claim about runs quantifies over them.
 */
module Rollouts {
  import opened Prelude
  import opened Cluster
  import opened Fsm
  import opened Canary
  import opened Workers

  /** A worker and the state whose entry spawned it. */
  datatype Worker = Worker(home: State, pc: Pc)

  datatype Sys = Sys(
    cfg: Config,
    state: State,          // the FSM's current state
    workers: seq<Worker>,  // live workers, oldest first
    world: World,
    traffic: int,          // the strategy's CandidateTraffic in memory
    saved: int,            // and in the plugin state store, -1 when absent
    history: seq<State>,   // the release's state history in memory
    stored: seq<State>,    // and in the release store
    trace: seq<State>,     // every state entered so far
    scales: seq<int>)      // every argument Scale was called with so far

  datatype Label =
    | Configure(kept: bool)    // `kept`: the history write of an accepted event succeeds
    | Deploy(kept: bool)
    | Destroy(kept: bool)
    | UserDeploy(deployment: Deployment)
    | Work(worker: nat, reply: Reply, kept: bool, savedOk: bool)
    // a new machine on the stored release, with Resume if asked; `loaded` when the strategy's state can be read
    | Reload(resume: bool, kept: bool, loaded: bool)

  function Spawn(cfg: Config, s: State, arg: Option<int>): seq<Worker> {
    var start := StartOf(cfg, s, arg);
    if start.Some? then [Worker(s, start.value)] else []
  }

  /** Enter a state: enter_<STATE> spawns the worker, then enter_state records it. */
  function Enter(s: Sys, t: State, arg: Option<int>, kept: bool): Sys {
    var h := Remember(s.history, t);
    s.(state := t, workers := s.workers + Spawn(s.cfg, t, arg), history := h,
       stored := if kept then h else s.stored, trace := s.trace + [t])
  }

  function Fire(s: Sys, e: Event, arg: Option<int>, kept: bool): Sys {
    var t := Target(s.state, e);
    if t.Some? then Enter(s, t.value, arg, kept) else s
  }

  function Without(ws: seq<Worker>, i: nat): seq<Worker>
    requires i < |ws|
  {
    ws[..i] + ws[i + 1..]
  }

  function StepWorker(s: Sys, i: nat, r: Reply, kept: bool, savedOk: bool): Sys
    requires i < |s.workers|
  {
    var pc := s.workers[i].pc;
    var req := RequestOf(pc);
    if !Legal(req, s.world, r) then s
    else if pc.End? then Fire(s.(workers := Without(s.workers, i)), pc.event, pc.arg, kept)
    else if pc.EndError? then
      Fire(Fire(s.(workers := Without(s.workers, i)), EventFail, None, kept), EventUnhealthy, None, kept)
    else
      var t := NextTraffic(s.cfg, s.traffic, pc, r);
      s.(workers := s.workers[i := s.workers[i].(pc := Next(s.cfg, s.traffic, pc, r))],
         world := Apply(req, s.world, r),
         traffic := t,
         saved := if Saves(s.traffic, pc, r) && savedOk then t else s.saved,
         scales := if req.Scale? then s.scales + [req.traffic] else s.scales)
  }

  function Restart(s: Sys, loaded: bool): Sys {
    s.(state := Current(s.stored), workers := [], history := s.stored, traffic := if loaded then s.saved else -1)
  }

  function Exec(s: Sys, l: Label): Sys {
    match l
    case Configure(kept) => Fire(s, EventConfigure, None, kept)
    case Deploy(kept) => Fire(s, EventDeploy, None, kept)
    case Destroy(kept) => Fire(s, EventDestroy, None, kept)
    case UserDeploy(d) => s.(world := s.world.(candidate := Some(d)))
    case Work(i, r, kept, savedOk) =>
      if i < |s.workers| then StepWorker(s, i, r, kept, savedOk) else s
    case Reload(resume, kept, loaded) =>
      var n := Restart(s, loaded);
      if resume && n.state.StateMonitor? then Fire(n.(state := StateDeploy), EventDeployed, None, kept) else n
  }

  function Run(s: Sys, ls: seq<Label>): Sys
    decreases |ls|
  {
    if ls == [] then s else Run(Exec(s, ls[0]), ls[1..])
  }

  lemma {:induction false} RunAppend(s: Sys, a: seq<Label>, b: seq<Label>)
    ensures Run(s, a + b) == Run(Run(s, a), b)
    decreases |a|
  {
    if a == [] {
      assert a + b == b;
    } else {
      assert (a + b)[1..] == a[1..] + b;
      RunAppend(Exec(s, a[0]), a[1..], b);
    }
  }

  lemma {:induction false} ConfigKept(s: Sys, ls: seq<Label>)
    ensures Run(s, ls).cfg == s.cfg
    decreases |ls|
  {
    if ls != [] { ConfigKept(Exec(s, ls[0]), ls[1..]); }
  }

  lemma RunOne(s: Sys, a: Label)
    ensures Run(s, [a]) == Exec(s, a)
  {
    assert [a][1..] == [];
  }

  lemma RunThree(s: Sys, a: Label, b: Label, c: Label)
    ensures Run(s, [a, b, c]) == Exec(Exec(Exec(s, a), b), c)
  {
    assert [a, b, c][1..] == [b, c] && [b, c][1..] == [c];
    RunOne(Exec(Exec(s, a), b), c);
  }

  /** Nothing is deployed by the controller yet; the user may have a live deployment or none. */
  predicate Fresh(s: Sys) {
    && s.cfg.Valid()
    && s.state.StateStart? && s.workers == [] && s.history == [] && s.stored == [] && s.trace == []
    && s.traffic == -1 && s.saved == -1 && s.scales == []
    && s.world.primary.None? && s.world.split.None? && !s.world.configured
    && (s.world.candidate.Some? ==> s.world.Runs(Candidate))
  }

  /** The last state the release store was told about is the one the machine is in. */
  predicate Synced(s: Sys) {
    Current(s.stored) == s.state
  }

  /** A step of a single-worker run: Destroy is fired only while no worker is live. */
  predicate Calm(s: Sys, l: Label) {
    l.Destroy? ==> s.workers == []
  }

  predicate CalmRun(s: Sys, ls: seq<Label>)
    decreases |ls|
  {
    ls == [] || (Calm(s, ls[0]) && CalmRun(Exec(s, ls[0]), ls[1..]))
  }

  /** No Destroy and no reload. */
  predicate Plain(ls: seq<Label>) {
    forall k :: 0 <= k < |ls| ==> !ls[k].Destroy? && !ls[k].Reload?
  }

  lemma {:induction false} PlainIsCalm(s: Sys, ls: seq<Label>)
    requires Plain(ls)
    ensures CalmRun(s, ls)
    decreases |ls|
  {
    if ls != [] { PlainIsCalm(Exec(s, ls[0]), ls[1..]); }
  }

  lemma {:induction false} CalmAppend(s: Sys, a: seq<Label>, b: seq<Label>)
    requires CalmRun(s, a) && CalmRun(Run(s, a), b)
    ensures CalmRun(s, a + b)
    decreases |a|
  {
    if a == [] {
      assert a + b == b;
    } else {
      assert (a + b)[1..] == a[1..] + b;
      CalmAppend(Exec(s, a[0]), a[1..], b);
    }
  }

  // ---- One worker ----

  /** At most one worker, spawned by entry to the current state; none in a passive state. */
  predicate Single(s: Sys) {
    && |s.workers| <= 1
    && (s.workers != [] ==> s.workers[0].home == s.state && Fits(s.state, s.workers[0].pc))
    && (Passive(s.state) ==> s.workers == [])
  }

  /** An active state has its worker. */
  predicate Staffed(s: Sys) {
    Single(s) && (!Passive(s.state) ==> |s.workers| == 1)
  }

  /** Entering a state from a machine without workers leaves exactly the worker of that state. */
  lemma EnterStaffs(s: Sys, t: State, arg: Option<int>, kept: bool)
    requires s.workers == [] && (t.StateScale? ==> arg.Some?)
    ensures Staffed(Enter(s, t, arg, kept))
    ensures Enter(s, t, arg, kept).workers == Spawn(s.cfg, t, arg)
  {
    StartFits(s.cfg, t, arg);
  }

  /** What one step of the only worker does, without the sequence operations. */
  lemma SoleStep(s: Sys, l: Label)
    requires Single(s) && s.workers != [] && l.Work? && l.worker == 0
    requires Legal(RequestOf(s.workers[0].pc), s.world, l.reply)
    ensures var pc := s.workers[0].pc; var n := Exec(s, l);
            if pc.End? then
              && n == Enter(s.(workers := []), Target(s.state, pc.event).value, pc.arg, l.kept)
              && n.workers == Spawn(s.cfg, Target(s.state, pc.event).value, pc.arg)
            else if pc.EndError? then
              n == Enter(s.(workers := []), StateFail, None, l.kept) && n.workers == []
            else
              n == s.(workers := [Worker(s.state, Next(s.cfg, s.traffic, pc, l.reply))],
                      world := Apply(RequestOf(pc), s.world, l.reply),
                      traffic := NextTraffic(s.cfg, s.traffic, pc, l.reply),
                      saved := if Saves(s.traffic, pc, l.reply) && l.savedOk
                               then NextTraffic(s.cfg, s.traffic, pc, l.reply) else s.saved,
                      scales := if RequestOf(pc).Scale? then s.scales + [RequestOf(pc).traffic] else s.scales)
  {
    assert s.workers == [s.workers[0]];
    assert Without(s.workers, 0) == [];
    var pc := s.workers[0].pc;
    if pc.End? {
      assert Target(s.state, pc.event).Some?;
    } else if !pc.EndError? {
      var w := Worker(s.state, Next(s.cfg, s.traffic, pc, l.reply));
      assert s.workers[0 := w] == [w];
    }
  }

  // ---- One step of the only worker, as a relation between the states before and after ----

  /** A call of the only worker was answered as label `l` says. */
  predicate Called(s: Sys, n: Sys, l: Label) {
    && |s.workers| == 1 && l.Work?
    && n.cfg == s.cfg && n.state == s.state && n.trace == s.trace && n.history == s.history && n.stored == s.stored
    && var pc := s.workers[0].pc;
       && !pc.End? && !pc.EndError? && Fits(s.state, pc)
       && n.workers == [Worker(s.state, Next(s.cfg, s.traffic, pc, l.reply))]
       && Fits(s.state, n.workers[0].pc)
       && n.world == Apply(RequestOf(pc), s.world, l.reply)
       && n.traffic == NextTraffic(s.cfg, s.traffic, pc, l.reply)
       && n.saved == (if Saves(s.traffic, pc, l.reply) && l.savedOk then n.traffic else s.saved)
       && n.scales == if RequestOf(pc).Scale? then s.scales + [RequestOf(pc).traffic] else s.scales
  }

  /** The only worker fired its last event and the machine entered state `t`. */
  predicate Entered(s: Sys, n: Sys, t: State, arg: Option<int>, kept: bool) {
    && Staffed(n)
    && n.cfg == s.cfg && n.state == t && n.trace == s.trace + [t]
    && n.workers == Spawn(s.cfg, t, arg) && n.world == s.world
    && n.traffic == s.traffic && n.saved == s.saved && n.scales == s.scales
    && n.stored == (if kept then n.history else s.stored)
    && Current(n.history) == t
  }

  lemma CallIs(s: Sys, l: Label)
    requires Single(s) && Moves(s, l) && !s.workers[0].pc.End? && !s.workers[0].pc.EndError?
    ensures Called(s, Exec(s, l), l)
  {
    SoleStep(s, l);
    NextFits(s.cfg, s.traffic, s.state, s.workers[0].pc, l.reply);
  }

  lemma EndIs(s: Sys, l: Label)
    requires Single(s) && Moves(s, l) && (s.workers[0].pc.End? || s.workers[0].pc.EndError?)
    ensures s.workers[0].pc.End? ==>
              && Target(s.state, s.workers[0].pc.event).Some?
              && Entered(s, Exec(s, l), Target(s.state, s.workers[0].pc.event).value, s.workers[0].pc.arg, l.kept)
    ensures s.workers[0].pc.EndError? ==> Entered(s, Exec(s, l), StateFail, None, l.kept)
  {
    SoleStep(s, l);
    WorkKeepsSingle(s, l);
  }

  lemma WorkKeepsSingle(s: Sys, l: Label)
    requires Single(s) && s.workers != [] && l.Work? && l.worker == 0
    requires Legal(RequestOf(s.workers[0].pc), s.world, l.reply)
    ensures Staffed(Exec(s, l))
  {
    SoleStep(s, l);
    var pc := s.workers[0].pc;
    if pc.End? {
      EnterStaffs(s.(workers := []), Target(s.state, pc.event).value, pc.arg, l.kept);
    } else if !pc.EndError? {
      NextFits(s.cfg, s.traffic, s.state, pc, l.reply);
    }
  }

  /** What an event from outside may do to a machine: start the worker of a new state, or nothing. */
  predicate Started(s: Sys, n: Sys) {
    && s.workers == [] && (n.state.StateConfigure? || n.state.StateDeploy? || n.state.StateDestroy?)
    && n.workers == Spawn(s.cfg, n.state, None)
    && n.cfg == s.cfg && n.world == s.world && n.traffic == s.traffic && n.saved == s.saved
  }

  /** What a new machine is like: in the state stored last, monitoring again if asked to, else without a worker. */
  predicate Reloaded(s: Sys, n: Sys, l: Label)
    requires l.Reload?
  {
    && n.state == Current(s.stored)
    && n.workers == (if l.resume && n.state.StateMonitor? then Spawn(s.cfg, StateMonitor, None) else [])
    && n.cfg == s.cfg && n.world == s.world && n.saved == s.saved
    && n.traffic == if l.loaded then s.saved else -1
  }

  lemma OutsideEvent(s: Sys, l: Label)
    requires Single(s) && Calm(s, l) && (l.Configure? || l.Deploy? || l.Destroy?)
    ensures Exec(s, l) == s || Started(s, Exec(s, l))
  {
    match l
    case Configure(kept) => if s.workers == [] { EnterStaffs(s, StateConfigure, None, kept); }
    case Deploy(kept) => if s.workers == [] { EnterStaffs(s, StateDeploy, None, kept); }
    case Destroy(kept) => EnterStaffs(s, StateDestroy, None, kept);
  }

  lemma ReloadEvent(s: Sys, l: Label)
    requires l.Reload?
    ensures Reloaded(s, Exec(s, l), l)
  {
    EnterStaffs(Restart(s, l.loaded).(state := StateDeploy), StateMonitor, None, l.kept);
  }

  /** Every label that is not a worker's step. */
  lemma OutsideStep(s: Sys, l: Label)
    requires Single(s) && Calm(s, l) && !l.Work?
    ensures l.UserDeploy? ==> Exec(s, l) == s.(world := s.world.(candidate := Some(l.deployment)))
    ensures l.Reload? ==> Reloaded(s, Exec(s, l), l)
    ensures l.Configure? || l.Deploy? || l.Destroy? ==> Exec(s, l) == s || Started(s, Exec(s, l))
  {
    if l.Reload? { ReloadEvent(s, l); } else if !l.UserDeploy? { OutsideEvent(s, l); }
  }

  lemma OutsideKeepsSingle(s: Sys, l: Label)
    requires Single(s) && Calm(s, l) && !l.Work?
    ensures Single(Exec(s, l))
    ensures Staffed(s) && !l.Reload? ==> Staffed(Exec(s, l))
  {
    OutsideStep(s, l);
    if !Exec(s, l).state.StateScale? { StartFits(s.cfg, Exec(s, l).state, None); }
  }

  /** A worker's step that does something. */
  predicate Moves(s: Sys, l: Label) {
    l.Work? && l.worker < |s.workers| && Legal(RequestOf(s.workers[l.worker].pc), s.world, l.reply)
  }

  lemma StepKeepsSingle(s: Sys, l: Label)
    requires Single(s) && Calm(s, l)
    ensures Single(Exec(s, l))
    ensures Staffed(s) && !l.Reload? ==> Staffed(Exec(s, l))
  {
    if !l.Work? {
      OutsideKeepsSingle(s, l);
    } else if Moves(s, l) {
      WorkKeepsSingle(s, l);
    } else {
      assert Exec(s, l) == s;
    }
  }

  /**
   Over every calm run there is never more than one worker, it belongs to the
   current state, and a Configure or Deploy arriving while it lives changes nothing.
   */
  lemma {:induction false} SingleWorker(s: Sys, ls: seq<Label>)
    requires Single(s) && CalmRun(s, ls)
    ensures Single(Run(s, ls))
    ensures Run(s, ls).workers != [] ==>
              forall kept :: && Exec(Run(s, ls), Configure(kept)) == Run(s, ls)
                             && Exec(Run(s, ls), Deploy(kept)) == Run(s, ls)
    ensures Staffed(s) && (forall k :: 0 <= k < |ls| ==> !ls[k].Reload?) ==> Staffed(Run(s, ls))
    decreases |ls|
  {
    if ls != [] {
      StepKeepsSingle(s, ls[0]);
      SingleWorker(Exec(s, ls[0]), ls[1..]);
    }
  }
}
