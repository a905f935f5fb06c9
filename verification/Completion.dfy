/**
 What Configure, Destroy and a rollout come to when no call fails, or none but the
 tests and checks: where they must end, and that they get there. The ends are written
 out, not in terms of the workers' own functions.
 */
module Completions {
  import opened Prelude
  import opened Cluster
  import opened Fsm
  import opened Canary
  import opened Workers
  import opened Rollouts
  import opened RolloutTrace
  import opened RolloutSuccess

  const OWNER := "consul-release-controller-version"

  /** The primary made of candidate `c`: its spec and instances, and the ownership label beside its meta. */
  function PrimaryOf(c: Deployment): Deployment {
    Deployment(c.spec, c.instances, "", c.meta[OWNER := "1"])
  }

  /** Candidate `c` out of service: no instances, and its own version as ownership label. */
  function OutOfService(c: Deployment): Deployment {
    Deployment(c.spec, 0, c.version, c.meta[OWNER := c.version])
  }

  function Disowned(meta: map<string, string>): map<string, string> {
    map k | k in meta && k != OWNER :: meta[k]
  }

  /** The candidate made of primary `p`: its spec and instances, and its meta but for the ownership label. */
  function OriginalOf(p: Deployment): Deployment {
    Deployment(p.spec, p.instances, "", Disowned(p.meta))
  }

  lemma MadeDeployments(d: Deployment)
    ensures AsPrimary(d) == PrimaryOf(d)
    ensures Retired(d) == OutOfService(d)
    ensures AsOriginal(d) == OriginalOf(d) && Unlabelled(d.meta) == Disowned(d.meta)
  {
    assert Unlabelled(d.meta) == Disowned(d.meta);
  }

  // ---- Which events a machine accepts ----

  /** The event puts the machine in `t` with one more worker at `pc`. */
  predicate Starts(s: Sys, n: Sys, t: State, pc: Pc) {
    && n.state == t && n.workers == s.workers + [Worker(t, pc)] && n.trace == s.trace + [t]
    && n.world == s.world && n.traffic == s.traffic && n.saved == s.saved && n.scales == s.scales
  }

  /** Configure is accepted at the start and at rest, Deploy at rest, Destroy but at the start and in Destroy. */
  lemma OutsideEvents(s: Sys, kept: bool)
    ensures if s.state in {StateStart, StateIdle, StateFail}
            then Starts(s, Exec(s, Configure(kept)), StateConfigure, CfgSetup)
            else Exec(s, Configure(kept)) == s
    ensures if s.state in {StateIdle, StateFail}
            then Starts(s, Exec(s, Deploy(kept)), StateDeploy, Init(ByDeploy, InitLookup))
            else Exec(s, Deploy(kept)) == s
    ensures if s.state !in {StateStart, StateDestroy}
            then Starts(s, Exec(s, Destroy(kept)), StateDestroy, Restore(RestoreGet))
            else Exec(s, Destroy(kept)) == s
  {
  }

  // ---- Runs without a failing call ----

  predicate Fails(r: Reply) {
    r.Err? || r.Lost?
  }

  predicate NoneFails(ls: seq<Label>) {
    forall k :: 0 <= k < |ls| ==> ls[k].Work? && !Fails(ls[k].reply)
  }

  /** The reply of a call that does not fail. */
  function Truth(req: Request, w: World): Reply {
    match req
    case Get(role) => if w.At(role).Some? then Found(w.At(role).value) else NotFound
    case Select => if w.candidate.Some? then Found(w.candidate.value) else NotFound
    case Healthy(role) => if w.Runs(role) then Found(w.At(role).value) else NotFound
    case Delete(role) => if w.At(role).Some? then Done else NotFound
    case Update(role, _, _) => if w.At(role).Some? then Done else NotFound
    case _ => Done
  }

  // ---- Destroy ----

  predicate Original(w: World, p: Deployment) {
    w.candidate == Some(AsOriginal(p)) && p.instances > 0
  }

  predicate DestroyPc(pc: Pc, w: World, p: Deployment) {
    match pc
    case Restore(RestoreGet) => w.primary == Some(p) && p.instances > 0
    case Restore(RestoreDelete(src)) => w.primary == Some(p) && src == p && p.instances > 0
    case Restore(RestoreClone(src)) => w.primary == Some(p) && src == p && p.instances > 0
    case Restore(RestoreReady) => w.primary == Some(p) && Original(w, p)
    case DstWait => w.primary == Some(p) && Original(w, p)
    case DstScale => w.primary == Some(p) && Original(w, p)
    case DstRemove => w.primary == Some(p) && Original(w, p)
    case DstConfig => w.primary.None? && Original(w, p)
    case End(e, _) => e.EventComplete? && Destroyed(w, p)
    case _ => false
  }

  predicate Destroyed(w: World, p: Deployment) {
    w.primary.None? && Original(w, p) && w.split.None? && !w.configured
  }

  predicate Destroying(s: Sys, p: Deployment) {
    && Single(s)
    && if s.workers == [] then s.state.StateIdle? && Destroyed(s.world, p)
       else s.state.StateDestroy? && DestroyPc(s.workers[0].pc, s.world, p)
  }

  function DestroyLeft(pc: Pc): nat {
    match pc
    case Restore(RestoreGet) => 8
    case Restore(RestoreDelete(_)) => 7
    case Restore(RestoreClone(_)) => 6
    case Restore(RestoreReady) => 5
    case DstWait => 4
    case DstScale => 3
    case DstRemove => 2
    case DstConfig => 1
    case _ => 0
  }

  lemma DestroyCall(s: Sys, n: Sys, l: Label, p: Deployment)
    requires Destroying(s, p) && Called(s, n, l) && Single(n)
    requires Legal(RequestOf(s.workers[0].pc), s.world, l.reply) && !Fails(l.reply)
    ensures Destroying(n, p) && DestroyLeft(n.workers[0].pc) < DestroyLeft(s.workers[0].pc)
  {
  }

  lemma DestroyStep(s: Sys, l: Label, p: Deployment)
    requires Destroying(s, p) && Moves(s, l) && !Fails(l.reply)
    ensures Destroying(Exec(s, l), p)
    ensures Exec(s, l).workers != [] ==> DestroyLeft(Exec(s, l).workers[0].pc) < DestroyLeft(s.workers[0].pc)
  {
    WorkKeepsSingle(s, l);
    if s.workers[0].pc.End? {
      EndIs(s, l);
    } else {
      CallIs(s, l);
      DestroyCall(s, Exec(s, l), l, p);
    }
  }

  lemma {:induction false} DestroyRun(s: Sys, ls: seq<Label>, p: Deployment)
    requires Destroying(s, p) && NoneFails(ls)
    ensures Destroying(Run(s, ls), p)
    decreases |ls|
  {
    if ls != [] {
      if Moves(s, ls[0]) { DestroyStep(s, ls[0], p); } else { assert Exec(s, ls[0]) == s; }
      DestroyRun(Exec(s, ls[0]), ls[1..], p);
    }
  }

  lemma {:induction false} DestroyFinishes(s: Sys, p: Deployment) returns (ls: seq<Label>)
    requires Destroying(s, p)
    ensures NoneFails(ls) && Run(s, ls).workers == []
    decreases |s.workers|, if s.workers == [] then 0 else DestroyLeft(s.workers[0].pc)
  {
    if s.workers == [] {
      ls := [];
    } else {
      var l := Work(0, Truth(RequestOf(s.workers[0].pc), s.world), true, true);
      assert Moves(s, l);
      DestroyStep(s, l, p);
      var rest := DestroyFinishes(Exec(s, l), p);
      ls := [l] + rest;
      assert ls[1..] == rest;
    }
  }

  /**
   Destroy accepted at rest beside a live primary `p`: runs in which no call fails
   finish only in Idle, with `p` back as the candidate and neither primary, splitter
   nor config entries; and there is one that finishes.
   */
  lemma DestroyCompletes(s: Sys, p: Deployment, kept: bool, ls: seq<Label>) returns (all: seq<Label>)
    requires Single(s) && s.state in {StateIdle, StateFail} && s.world.primary == Some(p) && p.instances > 0
    requires NoneFails(ls)
    ensures var n := Run(Exec(s, Destroy(kept)), ls);
            && n.state in {StateDestroy, StateIdle}
            && (n.workers == [] ==>
                  && n.state == StateIdle && n.world.candidate == Some(OriginalOf(p))
                  && n.world.primary == None && n.world.split == None && !n.world.configured)
    ensures NoneFails(all) && Run(Exec(s, Destroy(kept)), all).workers == []
  {
    var d := Exec(s, Destroy(kept));
    OutsideEvents(s, kept);
    EnterStaffs(s, StateDestroy, None, kept);
    MadeDeployments(p);
    DestroyRun(d, ls, p);
    all := DestroyFinishes(d, p);
  }

  // ---- Configure ----

  /** The world a Configure leaves: a primary is made of the candidate unless there is one. */
  function ConfiguredWorld(w: World): World {
    if w.primary.Some? || w.candidate.None? then w.(configured := true)
    else
      World(Some(AsPrimary(w.candidate.value)), Some(Retired(w.candidate.value)), Some(Split(100, 0)), true)
  }

  /** The candidate `c` has become the primary and still runs. */
  predicate Made(w: World, w0: World) {
    && w0.primary.None? && w0.candidate.Some?
    && w.primary == Some(AsPrimary(w0.candidate.value)) && w.candidate == w0.candidate && w.configured
  }

  predicate ConfigurePc(pc: Pc, w: World, w0: World) {
    match pc
    case CfgSetup => w == w0
    case Init(ByConfigure, InitLookup) => w == w0.(configured := true)
    case Init(ByConfigure, InitSelect) => w == w0.(configured := true) && w0.primary.None?
    case Init(ByConfigure, InitClone(src)) =>
      w == w0.(configured := true) && w0.primary.None? && w0.candidate == Some(src)
    case Init(ByConfigure, InitHealth) => Made(w, w0)
    case CfgWait => Made(w, w0)
    case CfgScale => Made(w, w0)
    case Remove(EventConfigured, RemoveGet) => Made(w, w0) && w.split == Some(Split(100, 0))
    case Remove(EventConfigured, RemoveUpdate(d)) =>
      Made(w, w0) && w.split == Some(Split(100, 0)) && w0.candidate == Some(d)
    case End(e, _) => e.EventConfigured? && w == ConfiguredWorld(w0)
    case _ => false
  }

  predicate Configuring(s: Sys, w0: World) {
    && Single(s) && (w0.primary.None? && w0.candidate.Some? ==> w0.candidate.value.instances > 0)
    && if s.workers == [] then s.state.StateIdle? && s.world == ConfiguredWorld(w0)
       else s.state.StateConfigure? && ConfigurePc(s.workers[0].pc, s.world, w0)
  }

  function ConfigureLeft(pc: Pc): nat {
    match pc
    case CfgSetup => 9
    case Init(_, InitLookup) => 8
    case Init(_, InitSelect) => 7
    case Init(_, InitClone(_)) => 6
    case Init(_, InitHealth) => 5
    case CfgWait => 4
    case CfgScale => 3
    case Remove(_, RemoveGet) => 2
    case Remove(_, RemoveUpdate(_)) => 1
    case _ => 0
  }

  lemma ConfigureCall(s: Sys, n: Sys, l: Label, w0: World)
    requires Configuring(s, w0) && Called(s, n, l) && Single(n)
    requires Legal(RequestOf(s.workers[0].pc), s.world, l.reply) && !Fails(l.reply)
    ensures Configuring(n, w0) && ConfigureLeft(n.workers[0].pc) < ConfigureLeft(s.workers[0].pc)
  {
  }

  lemma ConfigureStep(s: Sys, l: Label, w0: World)
    requires Configuring(s, w0) && Moves(s, l) && !Fails(l.reply)
    ensures Configuring(Exec(s, l), w0)
    ensures Exec(s, l).workers != [] ==> ConfigureLeft(Exec(s, l).workers[0].pc) < ConfigureLeft(s.workers[0].pc)
  {
    WorkKeepsSingle(s, l);
    if s.workers[0].pc.End? {
      EndIs(s, l);
    } else {
      CallIs(s, l);
      ConfigureCall(s, Exec(s, l), l, w0);
    }
  }

  lemma {:induction false} ConfigureRun(s: Sys, ls: seq<Label>, w0: World)
    requires Configuring(s, w0) && NoneFails(ls)
    ensures Configuring(Run(s, ls), w0)
    decreases |ls|
  {
    if ls != [] {
      if Moves(s, ls[0]) { ConfigureStep(s, ls[0], w0); } else { assert Exec(s, ls[0]) == s; }
      ConfigureRun(Exec(s, ls[0]), ls[1..], w0);
    }
  }

  lemma {:induction false} ConfigureFinishes(s: Sys, w0: World) returns (ls: seq<Label>)
    requires Configuring(s, w0)
    ensures NoneFails(ls) && Run(s, ls).workers == []
    decreases |s.workers|, if s.workers == [] then 0 else ConfigureLeft(s.workers[0].pc)
  {
    if s.workers == [] {
      ls := [];
    } else {
      var l := Work(0, Truth(RequestOf(s.workers[0].pc), s.world), true, true);
      assert Moves(s, l);
      ConfigureStep(s, l, w0);
      var rest := ConfigureFinishes(Exec(s, l), w0);
      ls := [l] + rest;
      assert ls[1..] == rest;
    }
  }

  /**
   Configure accepted without a live worker: runs in which no call fails finish only in
   Idle with the config entries set up. Without a primary a running candidate `c` becomes
   the primary, takes all traffic and is out of service; else the deployments are as they
   were. And there is a run that finishes.
   */
  lemma ConfigureCompletes(s: Sys, kept: bool, ls: seq<Label>) returns (all: seq<Label>)
    requires Single(s) && s.state in {StateStart, StateIdle, StateFail}
    requires s.world.primary.None? && s.world.candidate.Some? ==> s.world.candidate.value.instances > 0
    requires NoneFails(ls)
    ensures var n := Run(Exec(s, Configure(kept)), ls);
            && n.state in {StateConfigure, StateIdle}
            && (n.workers == [] ==>
                  && n.state == StateIdle && n.world.configured
                  && if s.world.primary.None? && s.world.candidate.Some? then
                       && n.world.primary == Some(PrimaryOf(s.world.candidate.value))
                       && n.world.candidate == Some(OutOfService(s.world.candidate.value))
                       && n.world.split == Some(Split(100, 0))
                     else
                       n.world == s.world.(configured := true))
    ensures NoneFails(all) && Run(Exec(s, Configure(kept)), all).workers == []
  {
    var d := Exec(s, Configure(kept));
    OutsideEvents(s, kept);
    EnterStaffs(s, StateConfigure, None, kept);
    if s.world.candidate.Some? { MadeDeployments(s.world.candidate.value); }
    ConfigureRun(d, ls, s.world);
    all := ConfigureFinishes(d, s.world);
  }

  // ---- A rollout in which only tests and checks fail ----

  /** Old primary `p` serves beside candidate `c`. */
  predicate Beside(w: World, c: Deployment, p: Deployment) {
    w.primary == Some(p) && p.instances > 0 && w.candidate == Some(c) && c.instances > 0
  }

  predicate AtPrimary(w: World) {
    w.split == Some(Split(100, 0))
  }

  predicate PromotedWorld(w: World, c: Deployment) {
    Finished(w, c) && AtPrimary(w)
  }

  predicate RolledBackWorld(w: World, c: Deployment, p: Deployment) {
    w.primary == Some(p) && w.candidate == Some(Retired(c)) && AtPrimary(w)
  }

  predicate SteadyPc(home: State, pc: Pc, w: World, c: Deployment, p: Deployment) {
    match pc
    case Promote(PromoteClone(src)) => w.candidate == Some(c) && c.instances > 0 && src == c
    case Promote(PromoteReady) => Cloned(w, c)
    case Promote(PromoteDelete(src)) => Beside(w, c, p) && src == c
    case ProWait => Cloned(w, c)
    case ProDrain => Cloned(w, c)
    case Remove(e, at) =>
      && AtPrimary(w) && (at.RemoveUpdate? ==> at.found == c)
      && if home.StatePromote? then Cloned(w, c) else home.StateRollback? && Beside(w, c, p)
    case End(e, _) =>
      if home.StatePromote? then e.EventPromoted? && PromotedWorld(w, c)
      else if home.StateRollback? then e.EventComplete? && RolledBackWorld(w, c, p)
      else Beside(w, c, p) && !e.EventFail? && (home.StateDeploy? ==> e.EventDeployed?)
    case Init(_, at) => at.InitLookup? && Beside(w, c, p)
    case DepWait(created) => !created && Beside(w, c, p)
    case DepScale(created) => !created && Beside(w, c, p)
    case EndError => false
    case _ => Beside(w, c, p)
  }

  predicate Steady(s: Sys, c: Deployment, p: Deployment) {
    && Staffed(s) && |s.trace| >= 2
    && if s.workers == [] then
         && s.state.StateIdle?
         && match s.trace[|s.trace| - 2]
            case StatePromote => PromotedWorld(s.world, c)
            case StateRollback => RolledBackWorld(s.world, c, p)
            case _ => false
       else
         && s.state in {StateDeploy, StateMonitor, StateScale, StatePromote, StateRollback}
         && s.trace[|s.trace| - 1] == s.state && SteadyPc(s.state, s.workers[0].pc, s.world, c, p)
  }

  /** Only the post-deployment test and the metric checks may fail. */
  predicate OnlyChecksFail(s: Sys, ls: seq<Label>)
    decreases |ls|
  {
    ls == []
    || (&& ls[0].Work? && FailsAsCheck(s, ls[0]) && OnlyChecksFail(Exec(s, ls[0]), ls[1..]))
  }

  predicate FailsAsCheck(s: Sys, l: Label)
    requires l.Work?
  {
    Fails(l.reply) ==> l.worker < |s.workers| && l.reply.Err?
                       && (s.workers[l.worker].pc.MonTest? || s.workers[l.worker].pc.MonCheck?)
  }

  lemma SteadyCall(s: Sys, n: Sys, l: Label, c: Deployment, p: Deployment)
    requires Steady(s, c, p) && Called(s, n, l) && Staffed(n) && FailsAsCheck(s, l) && l.worker == 0
    requires Legal(RequestOf(s.workers[0].pc), s.world, l.reply)
    ensures Steady(n, c, p)
  {
  }

  lemma SteadyEnd(s: Sys, n: Sys, kept: bool, c: Deployment, p: Deployment)
    requires Steady(s, c, p) && s.workers != [] && s.workers[0].pc.End?
    requires Target(s.state, s.workers[0].pc.event).Some?
    requires Entered(s, n, Target(s.state, s.workers[0].pc.event).value, s.workers[0].pc.arg, kept)
    ensures Steady(n, c, p)
  {
  }

  lemma SteadyStep(s: Sys, l: Label, c: Deployment, p: Deployment)
    requires Steady(s, c, p) && Moves(s, l) && FailsAsCheck(s, l)
    ensures Steady(Exec(s, l), c, p)
  {
    WorkKeepsSingle(s, l);
    if s.workers[0].pc.End? {
      EndIs(s, l);
      SteadyEnd(s, Exec(s, l), l.kept, c, p);
    } else {
      CallIs(s, l);
      SteadyCall(s, Exec(s, l), l, c, p);
    }
  }

  lemma {:induction false} SteadyRun(s: Sys, ls: seq<Label>, c: Deployment, p: Deployment)
    requires Steady(s, c, p) && OnlyChecksFail(s, ls)
    ensures Steady(Run(s, ls), c, p)
    decreases |ls|
  {
    if ls != [] {
      if Moves(s, ls[0]) { SteadyStep(s, ls[0], c, p); } else { assert Exec(s, ls[0]) == s; }
      SteadyRun(Exec(s, ls[0]), ls[1..], c, p);
    }
  }

  /** The two ends of a rollout. */
  predicate EndsPromoted(n: Sys, c: Deployment) {
    && n.state == StateIdle && |n.trace| >= 2 && n.trace[|n.trace| - 2] == StatePromote
    && n.world.primary == Some(PrimaryOf(c)) && n.world.candidate == Some(OutOfService(c))
    && n.world.split == Some(Split(100, 0))
  }

  predicate EndsRolledBack(n: Sys, c: Deployment, p: Deployment) {
    && n.state == StateIdle && |n.trace| >= 2 && n.trace[|n.trace| - 2] == StateRollback
    && n.world.primary == Some(p) && n.world.candidate == Some(OutOfService(c))
    && n.world.split == Some(Split(100, 0))
  }

  /**
   A rollout of `c` beside a live primary `p` in which only tests and checks fail never
   fails, and finishes only promoted or rolled back: with `c` as primary or with `p` as it
   was, all traffic at the primary, and `c` out of service.
   */
  lemma RolloutCompletes(s: Sys, c: Deployment, p: Deployment, ls: seq<Label>)
    requires JustDeployed(s) && Beside(s.world, c, p) && OnlyChecksFail(s, ls)
    ensures Run(s, ls).state != StateFail
    ensures Run(s, ls).workers == [] ==> EndsPromoted(Run(s, ls), c) || EndsRolledBack(Run(s, ls), c, p)
  {
    MadeDeployments(c);
    assert Staffed(s);
    SteadyRun(s, ls, c, p);
  }

  /** The rollout has passed no check so far. */
  predicate Failing(s: Sys) {
    if s.workers == [] then |s.trace| >= 2 && s.trace[|s.trace| - 2] == StateRollback
    else
      var pc := s.workers[0].pc;
      !s.state.StatePromote? && !pc.MonDecide? && !(s.state.StateMonitor? && pc.End? && pc.event.EventComplete?)
  }

  function FailingReply(pc: Pc, w: World): Reply {
    if pc.MonTest? || pc.MonCheck? then Err else Truth(RequestOf(pc), w)
  }

  lemma FailingStep(s: Sys, l: Label, c: Deployment, p: Deployment)
    requires Steady(s, c, p) && Failing(s) && s.workers != []
    requires l == Work(0, FailingReply(s.workers[0].pc, s.world), true, true)
    ensures Moves(s, l) && FailsAsCheck(s, l) && Failing(Exec(s, l))
  {
    assert Moves(s, l);
    SteadyStep(s, l, c, p);
    if s.workers[0].pc.End? { EndIs(s, l); } else { CallIs(s, l); }
  }

  lemma {:induction false} FailingFinishes(s: Sys, o: Origin, j: nat, c: Deployment, p: Deployment)
    returns (ls: seq<Label>)
    requires At(s, o, j) && Steady(s, c, p) && Failing(s) && 0 <= Left(s, j)
    ensures OnlyChecksFail(s, ls) && Run(s, ls).workers == [] && Failing(Run(s, ls))
    decreases Left(s, j)
  {
    if s.workers == [] {
      ls := [];
    } else {
      var l := Work(0, FailingReply(s.workers[0].pc, s.world), true, true);
      FailingStep(s, l, c, p);
      SteadyStep(s, l, c, p);
      var i := EffectiveStep(s, o, j, l);
      var rest := FailingFinishes(Exec(s, l), o, i, c, p);
      ls := [l] + rest;
      assert ls[1..] == rest;
    }
  }

  /** From every accepted Deploy beside a live primary such a run ends rolled back. */
  lemma RollbackIsReachable(s: Sys, c: Deployment, p: Deployment) returns (ls: seq<Label>)
    requires JustDeployed(s) && Beside(s.world, c, p)
    ensures OnlyChecksFail(s, ls) && EndsRolledBack(Run(s, ls), c, p)
  {
    JustDeployedIsAt(s);
    assert Staffed(s);
    ls := FailingFinishes(s, Origin(s.scales, |s.trace|), 0, c, p);
    RolloutCompletes(s, c, p, ls);
  }
}
