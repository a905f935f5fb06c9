/**
 The seven workers as programs over plugin calls. A program counter names the
 next call (`RequestOf`); the reply decides where the worker goes (`Next`) and
 what happens to the strategy's traffic (`NextTraffic`).
 */
module Workers {
  import opened Prelude
  import opened Cluster
  import opened Fsm
  import opened Canary

  datatype Caller = ByConfigure | ByDeploy

  /** Position inside InitPrimary. */
  datatype InitAt = InitLookup | InitSelect | InitClone(src: Deployment) | InitHealth

  /** Position inside RemoveCandidate. */
  datatype RemoveAt = RemoveGet | RemoveUpdate(found: Deployment)

  /** Position inside PromoteCandidate. */
  datatype PromoteAt = PromoteHealth | PromoteDelete(src: Deployment) | PromoteClone(src: Deployment) | PromoteReady

  /** Position inside RestoreOriginal. */
  datatype RestoreAt = RestoreGet | RestoreDelete(src: Deployment) | RestoreClone(src: Deployment) | RestoreReady

  datatype Pc =
    | CfgSetup
    | Init(caller: Caller, initAt: InitAt)
    | CfgWait
    | CfgScale
    | DepWait(created: bool)
    | DepScale(created: bool)
    | Remove(success: Event, removeAt: RemoveAt)  // fires `success` when the candidate is gone
    | MonTest
    | MonExecute
    | MonCheck(fails: nat)
    | MonDecide
    | ScaleTo(traffic: int)
    | ProScale
    | Promote(promoteAt: PromoteAt)
    | ProWait
    | ProDrain
    | RbkScale
    | Restore(restoreAt: RestoreAt)
    | DstWait
    | DstScale
    | DstRemove
    | DstConfig
    | End(event: Event, arg: Option<int>)         // about to fire its last event
    | EndError                                    // about to fire EventFail, then EventUnhealthy

  const FAILING := End(EventFail, None)

  function RequestOf(pc: Pc): Request {
    match pc
    case CfgSetup => Setup
    case Init(_, InitLookup) => Get(Primary)
    case Init(_, InitSelect) => Select
    case Init(_, InitClone(src)) => Clone(Candidate, Primary, src.instances, Labelled(src.meta))
    case Init(_, InitHealth) => Healthy(Primary)
    case CfgWait => WaitHealthy(Primary)
    case CfgScale => Scale(0)
    case DepWait(_) => WaitHealthy(Primary)
    case DepScale(_) => Scale(0)
    case Remove(_, RemoveGet) => Get(Candidate)
    case Remove(_, RemoveUpdate(d)) => Update(Candidate, 0, d.meta[VERSION_LABEL := d.version])
    case MonTest => RunTest
    case MonExecute => ParseDelay
    case MonCheck(_) => Check
    case MonDecide => Internal
    case ScaleTo(t) => Scale(t)
    case ProScale => Scale(100)
    case Promote(PromoteHealth) => Healthy(Candidate)
    case Promote(PromoteDelete(_)) => Delete(Primary)
    case Promote(PromoteClone(src)) => Clone(Candidate, Primary, src.instances, Labelled(src.meta))
    case Promote(PromoteReady) => Healthy(Primary)
    case ProWait => WaitHealthy(Primary)
    case ProDrain => Scale(0)
    case RbkScale => Scale(0)
    case Restore(RestoreGet) => Get(Primary)
    case Restore(RestoreDelete(_)) => Delete(Candidate)
    case Restore(RestoreClone(src)) => Clone(Primary, Candidate, src.instances, Unlabelled(src.meta))
    case Restore(RestoreReady) => Healthy(Candidate)
    case DstWait => WaitHealthy(Candidate)
    case DstScale => Scale(100)
    case DstRemove => Delete(Primary)
    case DstConfig => Teardown
    case End(_, _) => Internal
    case EndError => Internal
  }

  /** Where a caller of InitPrimary goes; `created` when the status is RuntimeDeploymentUpdate. */
  function AfterInit(caller: Caller, created: bool): Pc {
    match caller
    case ByConfigure => if created then CfgWait else End(EventConfigured, None)
    case ByDeploy => DepWait(created)
  }

  function Next(cfg: Config, traffic: int, pc: Pc, r: Reply): Pc {
    match pc
    case CfgSetup => if r.Done? then Init(ByConfigure, InitLookup) else FAILING
    case Init(c, InitLookup) => if r.Found? then AfterInit(c, false) else Init(c, InitSelect)
    case Init(c, InitSelect) => if r.Found? then Init(c, InitClone(r.deployment)) else AfterInit(c, false)
    case Init(c, InitClone(_)) => if r.Done? then Init(c, InitHealth) else FAILING
    case Init(c, InitHealth) => if r.Found? then AfterInit(c, true) else FAILING
    case CfgWait => if r.Done? then CfgScale else FAILING
    case CfgScale => if r.Done? then Remove(EventConfigured, RemoveGet) else FAILING
    case DepWait(c) => if r.Done? then DepScale(c) else FAILING
    case DepScale(c) =>
      if !r.Done? then FAILING
      else if c then Remove(EventComplete, RemoveGet) else End(EventDeployed, None)
    case Remove(e, RemoveGet) =>
      if r.Found? then Remove(e, RemoveUpdate(r.deployment))
      else if r.NotFound? then End(e, None) else FAILING
    case Remove(e, RemoveUpdate(_)) => if r.Done? then End(e, None) else FAILING
    case MonTest => if r.Done? then MonExecute else End(EventUnhealthy, None)
    case MonExecute =>
      if !r.Done? then EndError
      else if traffic == -1 then End(EventHealthy, Some(First(cfg))) else MonCheck(0)
    case MonCheck(f) =>
      if r.Done? then MonDecide
      else if f + 1 >= cfg.threshold then End(EventUnhealthy, None) else MonCheck(f + 1)
    case MonDecide =>
      if traffic >= cfg.max then End(EventComplete, None) else End(EventHealthy, Some(traffic))
    case ScaleTo(_) => if r.Done? then End(EventScaled, None) else FAILING
    case ProScale => if r.Done? then Promote(PromoteHealth) else FAILING
    case Promote(PromoteHealth) =>
      if r.Found? then Promote(PromoteDelete(r.deployment))
      else if r.NotFound? then ProWait else FAILING
    case Promote(PromoteDelete(d)) => if r.Done? then Promote(PromoteClone(d)) else FAILING
    case Promote(PromoteClone(_)) => if r.Done? then Promote(PromoteReady) else FAILING
    case Promote(PromoteReady) => if r.Found? then ProWait else FAILING
    case ProWait => if r.Done? then ProDrain else FAILING
    case ProDrain => if r.Done? then Remove(EventPromoted, RemoveGet) else FAILING
    case RbkScale => if r.Done? then Remove(EventComplete, RemoveGet) else FAILING
    case Restore(RestoreGet) =>
      if r.Found? then Restore(RestoreDelete(r.deployment))
      else if r.NotFound? then DstWait else FAILING
    case Restore(RestoreDelete(d)) => if r.Done? || r.NotFound? then Restore(RestoreClone(d)) else FAILING
    case Restore(RestoreClone(_)) => if r.Done? then Restore(RestoreReady) else FAILING
    case Restore(RestoreReady) => if r.Found? then DstWait else FAILING
    case DstWait => if r.Done? then DstScale else FAILING
    case DstScale => if r.Done? then DstRemove else FAILING
    case DstRemove => if r.Done? || r.NotFound? then DstConfig else FAILING
    case DstConfig => if r.Done? then End(EventComplete, None) else FAILING
    case End(_, _) => pc
    case EndError => pc
  }

  /** The event doMonitor fires for a verdict of the strategy. */
  function VerdictEvent(status: Status, traffic: int): Pc {
    match status
    case Success => End(EventHealthy, Some(traffic))
    case Complete => End(EventComplete, None)
    case Failed => End(EventUnhealthy, None)
  }

  /** The strategy's CandidateTraffic after the same step. */
  function NextTraffic(cfg: Config, traffic: int, pc: Pc, r: Reply): int {
    match pc
    case MonExecute => if traffic == -1 then First(cfg) else traffic
    case MonCheck(f) =>
      if r.Done? then traffic + cfg.step
      else if f + 1 >= cfg.threshold then -1 else traffic
    case MonDecide => if traffic >= cfg.max then -1 else traffic
    case _ => traffic
  }

  /** The step ends in a saveState of the strategy. */
  predicate Saves(traffic: int, pc: Pc, r: Reply) {
    || pc.MonCheck? || pc.MonDecide?
    || (pc.MonExecute? && (traffic == -1 || !r.Done?))
  }

  /** The program counter a state's worker starts at, None for a state without a worker. */
  function StartOf(cfg: Config, s: State, arg: Option<int>): Option<Pc> {
    match s
    case StateConfigure => Some(CfgSetup)
    case StateDeploy => Some(Init(ByDeploy, InitLookup))
    case StateMonitor => Some(if cfg.hasTest then MonTest else MonExecute)
    case StateScale => Some(if arg.Some? then ScaleTo(arg.value) else FAILING)
    case StatePromote => Some(ProScale)
    case StateRollback => Some(RbkScale)
    case StateDestroy => Some(Restore(RestoreGet))
    case StateStart => None
    case StateIdle => None
    case StateFail => None
  }

  /** The counters a worker spawned on entry to a state can be at. */
  predicate Fits(home: State, pc: Pc) {
    match pc
    case CfgSetup => home.StateConfigure?
    case Init(ByConfigure, _) => home.StateConfigure?
    case Init(ByDeploy, _) => home.StateDeploy?
    case CfgWait => home.StateConfigure?
    case CfgScale => home.StateConfigure?
    case DepWait(_) => home.StateDeploy?
    case DepScale(_) => home.StateDeploy?
    case Remove(e, _) =>
      || (home.StateConfigure? && e.EventConfigured?) || (home.StateDeploy? && e.EventComplete?)
      || (home.StatePromote? && e.EventPromoted?) || (home.StateRollback? && e.EventComplete?)
    case MonTest => home.StateMonitor?
    case MonExecute => home.StateMonitor?
    case MonCheck(_) => home.StateMonitor?
    case MonDecide => home.StateMonitor?
    case ScaleTo(_) => home.StateScale?
    case ProScale => home.StatePromote?
    case Promote(_) => home.StatePromote?
    case ProWait => home.StatePromote?
    case ProDrain => home.StatePromote?
    case RbkScale => home.StateRollback?
    case Restore(_) => home.StateDestroy?
    case DstWait => home.StateDestroy?
    case DstScale => home.StateDestroy?
    case DstRemove => home.StateDestroy?
    case DstConfig => home.StateDestroy?
    case End(e, arg) =>
      && !Passive(home) && Target(home, e).Some?
      && !e.EventDestroy? && !e.EventConfigure? && !e.EventDeploy?
      && (e.EventHealthy? <==> arg.Some?)
      && (home.StateMonitor? ==> !e.EventFail?)
    case EndError => home.StateMonitor?
  }

  lemma NextFits(cfg: Config, traffic: int, home: State, pc: Pc, r: Reply)
    requires Fits(home, pc)
    ensures Fits(home, Next(cfg, traffic, pc, r))
  {
  }

  lemma StartFits(cfg: Config, s: State, arg: Option<int>)
    requires s.StateScale? ==> arg.Some?
    ensures StartOf(cfg, s, arg).Some? <==> !Passive(s)
    ensures StartOf(cfg, s, arg).Some? ==> Fits(s, StartOf(cfg, s, arg).value)
  {
  }
}
