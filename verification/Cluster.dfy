/**
 The world outside the controller: the two deployments of one release, the
 service splitter, and what every plugin call may do to them. Each call answers
 with a `Reply`; `Err` is a failed call that changed nothing and `Lost` a call
 that reported an error although its write took effect.
 */
module Cluster {
  import opened Prelude

  /** The ownership label, RuntimeDeploymentVersionLabel in the source. */
  const VERSION_LABEL := "consul-release-controller-version"

  datatype Deployment = Deployment(spec: string, instances: nat, version: string, meta: map<string, string>)

  datatype Role = Primary | Candidate

  /** Percentages of the service splitter, primary subset first. */
  datatype Split = Split(primary: int, candidate: int)

  datatype World = World(
    primary: Option<Deployment>,
    candidate: Option<Deployment>,
    split: Option<Split>,  // weights of the service splitter
    configured: bool)      // the releaser's config entries are set up
  {

    function At(role: Role): Option<Deployment> {
      if role.Primary? then primary else candidate
    }

    function With(role: Role, d: Option<Deployment>): World {
      if role.Primary? then this.(primary := d) else this.(candidate := d)
    }

    /** The deployment exists and runs at least one instance. */
    predicate Runs(role: Role) {
      At(role).Some? && At(role).value.instances > 0
    }

    predicate Live() {
      Runs(Primary) || Runs(Candidate)
    }

    /** The splitter is written and sends no traffic to the role. */
    predicate Drained(role: Role) {
      split.Some? && (if role.Primary? then split.value.primary else split.value.candidate) == 0
    }
  }

  datatype Request =
    | Get(role: Role)                // RuntimeClient.GetDeployment
    | Select                         // RuntimeClient.GetDeploymentWithSelector
    | Healthy(role: Role)            // RuntimeClient.GetHealthyDeployment
    | Delete(role: Role)             // RuntimeClient.DeleteDeployment
    | Clone(source: Role, target: Role, instances: nat, meta: map<string, string>)
    | Update(role: Role, instances: nat, meta: map<string, string>)
    | Setup                          // Releaser.Setup
    | Scale(traffic: int)            // Releaser.Scale
    | WaitHealthy(role: Role)        // Releaser.WaitUntilServiceHealthy
    | Teardown                       // Releaser.Destroy
    | RunTest                        // PostDeploymentTest.Execute
    | ParseDelay                     // time.ParseDuration in the strategy
    | Check                          // Monitor.Check
    | Internal                       // no call: the worker decides on its own

  datatype Reply = Done | Found(deployment: Deployment) | NotFound | Err | Lost

  /** The replies the RuntimeClient and Releaser contracts allow in a world. */
  predicate Legal(req: Request, w: World, r: Reply) {
    match req
    case Get(role) =>
      r.Err? || (if w.At(role).Some? then r == Found(w.At(role).value) else r.NotFound?)
    case Select =>
      r.Err? || (if w.candidate.Some? then r == Found(w.candidate.value) else r.NotFound?)
    case Healthy(role) =>
      r.Err? || (if w.Runs(role) then r == Found(w.At(role).value) else r.NotFound?)
    case Delete(role) =>
      r.Err? || (if w.At(role).Some? then r.Done? || r.Lost? else r.NotFound?)
    case Clone(source, _, _, _) =>
      r.Err? || (w.At(source).Some? && (r.Done? || r.Lost?))
    case Update(role, _, _) =>
      r.Err? || (if w.At(role).Some? then r.Done? || r.Lost? else r.NotFound?)
    case WaitHealthy(role) => r.Err? || (w.Runs(role) && r.Done?)
    case Setup => r.Err? || r.Done? || r.Lost?
    case Scale(_) => r.Err? || r.Done? || r.Lost?
    case Teardown => r.Err? || r.Done? || r.Lost?
    case RunTest => r.Err? || r.Done?
    case ParseDelay => r.Err? || r.Done?
    case Check => r.Err? || r.Done?
    case Internal => r.Done?
  }

  /** The world after a call. A clone takes the source's spec and the instances and meta it is given. */
  function Apply(req: Request, w: World, r: Reply): World {
    if !(r.Done? || r.Lost?) then w else
    match req
    case Delete(role) => w.With(role, None)
    case Clone(source, target, instances, meta) =>
      if w.At(source).None? then w
      else w.With(target, Some(Deployment(w.At(source).value.spec, instances, "", meta)))
    case Update(role, instances, meta) =>
      if w.At(role).None? then w
      else w.With(role, Some(w.At(role).value.(instances := instances, meta := meta)))
    case Scale(v) => w.(split := Some(Split(100 - v, v)))
    case Setup => w.(configured := true)
    case Teardown => w.(split := None, configured := false)
    case _ => w
  }

  /** The primary the controller makes of deployment `c`: a clone that carries the ownership label. */
  function AsPrimary(c: Deployment): Deployment {
    Deployment(c.spec, c.instances, "", Labelled(c.meta))
  }

  function Labelled(meta: map<string, string>): map<string, string> {
    meta[VERSION_LABEL := "1"]
  }

  /** Deployment `c` scaled to zero and marked, by its own version, as changed by the controller. */
  function Retired(c: Deployment): Deployment {
    c.(instances := 0, meta := c.meta[VERSION_LABEL := c.version])
  }

  /** The deployment RestoreOriginal makes of primary `p`: no ownership label, so users can update it. */
  function AsOriginal(p: Deployment): Deployment {
    Deployment(p.spec, p.instances, "", Unlabelled(p.meta))
  }

  function Unlabelled(meta: map<string, string>): map<string, string> {
    meta - {VERSION_LABEL}
  }
}
