/**
 The clients a worker calls, as one object: each call acts on the deployments and
 may fail in every way its contract allows. A ghost program counter demands that
 the calls are exactly those of the worker's program.
 */
module Sessions {
  import opened Prelude
  import opened Cluster
  import opened Fsm
  import opened Canary
  import opened Workers

  /** One legal reply: a failure, a lost reply, or the answer of the world. */
  function Answer(req: Request, w: World, fails: bool, lost: bool): (r: Reply)
    ensures Legal(req, w, r)
  {
    if req.Internal? then Done
    else if fails then Err
    else
      match req
      case Get(role) => if w.At(role).Some? then Found(w.At(role).value) else NotFound
      case Select => if w.candidate.Some? then Found(w.candidate.value) else NotFound
      case Healthy(role) => if w.Runs(role) then Found(w.At(role).value) else NotFound
      case Delete(role) => if w.At(role).None? then NotFound else if lost then Lost else Done
      case Clone(source, _, _, _) => if w.At(source).None? then Err else if lost then Lost else Done
      case Update(role, _, _) => if w.At(role).None? then NotFound else if lost then Lost else Done
      case WaitHealthy(role) => if w.Runs(role) then Done else Err
      case Setup => if lost then Lost else Done
      case Scale(_) => if lost then Lost else Done
      case Teardown => if lost then Lost else Done
      case _ => Done
  }

  // ---- The calls of the releaser in the workers' programs ----

  predicate Scales(pc: Pc, v: int) {
    match pc
    case CfgScale => v == 0
    case DepScale(_) => v == 0
    case ScaleTo(t) => v == t
    case ProScale => v == 100
    case ProDrain => v == 0
    case RbkScale => v == 0
    case DstScale => v == 100
    case _ => false
  }

  /** Where a worker goes from a Scale that succeeded. */
  function AfterScale(pc: Pc): Pc {
    match pc
    case CfgScale => Remove(EventConfigured, RemoveGet)
    case DepScale(created) => if created then Remove(EventComplete, RemoveGet) else End(EventDeployed, None)
    case ScaleTo(_) => End(EventScaled, None)
    case ProScale => Promote(PromoteHealth)
    case ProDrain => Remove(EventPromoted, RemoveGet)
    case RbkScale => Remove(EventComplete, RemoveGet)
    case _ => DstRemove
  }

  predicate Waits(pc: Pc, role: Role) {
    match pc
    case CfgWait => role.Primary?
    case DepWait(_) => role.Primary?
    case ProWait => role.Primary?
    case DstWait => role.Candidate?
    case _ => false
  }

  /** Where a worker goes once the service is healthy. */
  function AfterWait(pc: Pc): Pc {
    match pc
    case CfgWait => CfgScale
    case DepWait(created) => DepScale(created)
    case ProWait => ProDrain
    case _ => DstScale
  }

  /** Where a worker goes once a deployment was cloned, and once the clone is healthy. */
  function AfterClone(pc: Pc): Pc {
    match pc
    case Init(c, _) => Init(c, InitHealth)
    case Promote(_) => Promote(PromoteReady)
    case _ => Restore(RestoreReady)
  }

  predicate Readies(pc: Pc, role: Role) {
    match pc
    case Init(_, InitHealth) => role.Primary?
    case Promote(PromoteReady) => role.Primary?
    case Restore(RestoreReady) => role.Candidate?
    case _ => false
  }

  function AfterReady(pc: Pc): Pc {
    match pc
    case Init(c, _) => AfterInit(c, true)
    case Promote(_) => ProWait
    case _ => DstWait
  }

  /** The world after a clone that took effect. */
  function CloneOf(w: World, source: Role, target: Role, instances: nat, meta: map<string, string>): World
    requires w.At(source).Some?
  {
    w.With(target, Some(Deployment(w.At(source).value.spec, instances, "", meta)))
  }

  class Session {
    const cfg: Config
    const candidateName: string  // the name of the deployment the selector matches
    var world: World
    ghost var pc: Pc             // where the worker's program stands
    ghost var traffic: int       // the strategy's traffic in that program

    constructor (cfg: Config, candidateName: string, world: World, ghost pc: Pc, ghost traffic: int)
      ensures this.cfg == cfg && this.candidateName == candidateName
      ensures this.world == world && this.pc == pc && this.traffic == traffic
    {
      this.cfg, this.candidateName, this.world := cfg, candidateName, world;
      this.pc, this.traffic := pc, traffic;
    }

    /** A call; the program of the worker must be at this call. */
    method Call(req: Request) returns (r: Reply)
      requires req == RequestOf(pc) && !req.Internal?
      modifies this
      ensures Legal(req, old(world), r) && world == Apply(req, old(world), r)
      ensures pc == Next(cfg, old(traffic), old(pc), r)
      ensures traffic == NextTraffic(cfg, old(traffic), old(pc), r)
    {
      var fails: bool := *;
      var lost: bool := *;
      r := Answer(req, world, fails, lost);
      world := Apply(req, world, r);
      pc, traffic := Next(cfg, traffic, pc, r), NextTraffic(cfg, traffic, pc, r);
    }

    /** Releaser.Scale. */
    method CallScale(v: int) returns (ok: bool)
      requires Scales(pc, v)
      modifies this
      ensures world == old(world) || world == old(world).(split := Some(Split(100 - v, v)))
      ensures ok ==> world == old(world).(split := Some(Split(100 - v, v)))
      ensures pc == (if ok then AfterScale(old(pc)) else FAILING) && traffic == old(traffic)
    {
      var r := Call(Scale(v));
      ok := r.Done?;
    }

    /** Releaser.Setup, which leaves the splitter alone. */
    method CallSetup() returns (ok: bool)
      requires pc.CfgSetup?
      modifies this
      ensures world == old(world) || world == old(world).(configured := true)
      ensures ok ==> world == old(world).(configured := true)
      ensures pc == (if ok then Init(ByConfigure, InitLookup) else FAILING) && traffic == old(traffic)
    {
      var r := Call(Setup);
      ok := r.Done?;
    }

    /** Releaser.Destroy, which removes the splitter. */
    method CallTeardown() returns (ok: bool)
      requires pc.DstConfig?
      modifies this
      ensures world == old(world) || world == old(world).(split := None, configured := false)
      ensures ok ==> world == old(world).(split := None, configured := false)
      ensures pc == (if ok then End(EventComplete, None) else FAILING) && traffic == old(traffic)
    {
      var r := Call(Teardown);
      ok := r.Done?;
    }

    /** PostDeploymentTest.Execute. */
    method CallTest() returns (ok: bool)
      requires pc.MonTest?
      modifies this
      ensures world == old(world)
      ensures pc == (if ok then MonExecute else End(EventUnhealthy, None)) && traffic == old(traffic)
    {
      var r := Call(RunTest);
      ok := r.Done?;
    }

    /** Releaser.WaitUntilServiceHealthy: success means that the deployment is live. */
    method CallWait(role: Role) returns (ok: bool)
      requires Waits(pc, role)
      modifies this
      ensures world == old(world) && (ok ==> world.Runs(role))
      ensures pc == (if ok then AfterWait(old(pc)) else FAILING) && traffic == old(traffic)
    {
      var r := Call(WaitHealthy(role));
      ok := r.Done?;
    }

    /** time.ParseDuration of the strategy's delay. */
    method CallDelay() returns (ok: bool)
      requires pc.MonExecute?
      modifies this
      ensures world == old(world) && traffic == if old(traffic) == -1 then First(cfg) else old(traffic)
      ensures pc == if !ok then EndError
                    else if old(traffic) == -1 then End(EventHealthy, Some(First(cfg))) else MonCheck(0)
    {
      var r := Call(ParseDelay);
      ok := r.Done?;
    }

    /** Monitor.Check. */
    method CallCheck() returns (ok: bool)
      requires pc.MonCheck?
      modifies this
      ensures world == old(world)
      ensures ok ==> pc == MonDecide && traffic == old(traffic) + cfg.step
      ensures !ok && old(pc.fails) + 1 < cfg.threshold ==> pc == MonCheck(old(pc.fails) + 1) && traffic == old(traffic)
      ensures !ok && old(pc.fails) + 1 >= cfg.threshold ==> pc == End(EventUnhealthy, None) && traffic == -1
    {
      var r := Call(Check);
      ok := r.Done?;
    }

    /** RuntimeClient.CloneDeployment. */
    method CallClone(source: Role, target: Role, instances: nat, meta: map<string, string>) returns (ok: bool)
      requires RequestOf(pc) == Clone(source, target, instances, meta)
      modifies this
      ensures ok ==> old(world).At(source).Some? && world == CloneOf(old(world), source, target, instances, meta)
      ensures !ok ==>
                || world == old(world)
                || (old(world).At(source).Some? && world == CloneOf(old(world), source, target, instances, meta))
      ensures pc == (if ok then AfterClone(old(pc)) else FAILING) && traffic == old(traffic)
    {
      var r := Call(Clone(source, target, instances, meta));
      ok := r.Done?;
    }

    /** RuntimeClient.GetHealthyDeployment, to wait for a clone. */
    method CallReady(role: Role) returns (ok: bool)
      requires Readies(pc, role)
      modifies this
      ensures world == old(world) && (ok ==> world.Runs(role))
      ensures pc == (if ok then AfterReady(old(pc)) else FAILING) && traffic == old(traffic)
    {
      var r := Call(Healthy(role));
      ok := r.Found?;
    }

    /** The program decides without a call. */
    ghost method Decide()
      requires RequestOf(pc).Internal? && !pc.End? && !pc.EndError?
      modifies `pc, `traffic
      ensures pc == Next(cfg, old(traffic), old(pc), Done)
      ensures traffic == NextTraffic(cfg, old(traffic), old(pc), Done)
    {
      pc, traffic := Next(cfg, traffic, pc, Done), NextTraffic(cfg, traffic, pc, Done);
    }
  }
}
