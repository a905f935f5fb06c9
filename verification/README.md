# Verified model of the canary release controller

The controller owns two deployments of a service, the *primary* that users reach and the
*candidate* that a developer deploys, and moves traffic between them through Consul's
config entries. This project models that behaviour in Dafny 4.11 and proves properties of
it for every input, every run and every failure of a call. `dafny verify dfyconfig.toml`
checks the whole project.

## How the model is built

**The rollout as a transition system.** `Cluster` is the world: two deployments, the
splitter, and what every plugin call may answer and do. A call can fail without effect
(`Err`) or report a failure although its write took effect (`Lost`). `Fsm` is the
transition table and the bounded history, `Workers` the seven workers as programs over
calls, and `Rollouts` the whole system: machine, live workers, strategy, persisted state
and deployments. Its step function is total, an event the table rejects changes nothing,
so a run is any sequence of labels, and each main theorem quantifies over all of them:
any interleaving of Configure, Deploy and Destroy, user deployments of any size, also of 0
instances, worker steps with any reply, lost state writes, and a crash followed by a new
machine, with or without Resume and with a strategy state that can be read or not.

**The code as objects.** `Sessions`, `Runtimes`, `CanaryPlugins` and `StateMachines` are
the imperative counterpart: classes whose methods update their fields in the order the Go
methods do. The session that carries the calls has a ghost program counter, and each
method must issue exactly the calls of its worker's program, so the theorems about the
transition system are about these methods too. `Consul`, `Storage`, `Nomad`, `HttpTest`,
`Prometheus` and `Admission` follow the same rule: methods with loops, each proved against
a specification whose own properties are lemmas.

**Bounds of a rollout.** With i the initial traffic (the step when it is 0), K is
max(1, ceil((MaxTraffic - i) / TrafficStep)) and T is ErrorThreshold. The *ramp* is i,
i + step, up to i + (K-1) * step.

**Calm runs and hazards.** A run is *calm* when Destroy is fired only while no worker is
live; lost state writes and new machines at any point are part of it. Four kinds of step
are called *hazards* (below); availability is proved for every run without one. Theorems
say which they need.

## What turned out not to hold

The code is modelled as it is. Where a promise fails, the project has a lemma with the
failing runs and the condition under which the promise holds.

- *The service always has a live deployment.* False after a hazard, and only then:
  (a) `InitPrimary` takes any failed lookup for "no primary"
  (`pkg/plugins/runtime/plugin.go:98-117`), so when the deployment that matches the selector
  is scaled to zero, as it is after every promotion, it is cloned over the live primary;
  (b) a Destroy is accepted while a worker is live, which leaves that worker beside whatever
  the machine starts next; (c) a machine is rebuilt and resumed on a stored Monitor while no
  primary runs, because the write of a later state was lost; (d) the user deploys a
  candidate of 0 instances, which neither admission nor `InitPrimary` looks at, while no
  primary runs or while a worker counts on the candidate. `Outages.OutageIffHazard`
  says that from any safe state with a live deployment each such step can start an outage
  and no other step can; `Outages.EveryHazardIsReached` and `Outages.IdleHazardsAreReached`
  lead every fresh release to each.
- *Traffic is always -1 or a percentage.* The strategy passes one level beyond its ramp
  before the verdict resets it, and saves that value. `TrafficBounds.BoundIffPeak` says that
  memory and store keep to a bound exactly when this peak, i + K * step, does;
  `TrafficBounds.PeakOf` that it is at most 200 and passes 199 exactly for a step of 100 from
  100. A machine rebuilt between the last check and the reset goes on from the peak, beyond
  every bound, in every configuration (`TrafficBounds.UnboundedFromFresh`); which bound holds
  when only values up to some limit are loaded is in `TrafficBounds.BoundIffTop`, and which
  reloads lead beyond the peak in `PastRamps.ReloadExceedsIff`.
- *Candidates are drained before they are removed.* False in two places. `RestoreOriginal`
  deletes the candidate whatever its weight (`Drain.RestoreDrainedIff`,
  `Undrained.DestroyDeletesUndrained`). `InitPrimary`, misled by a failed lookup, clones a
  deployment of 0 instances over a primary with traffic (`Drain.InitUndrainedIff`,
  `Undrained.CloneTakesDownUndrained`).
- *Destroy gives the user's config entries back.* Exactly for the entries of
  `ConfigRoundTrip.Restorable`: a service with protocol `tcp`, or with subsets, routes or a
  source of the controller's names, does not come back. A user's resolver without a
  Subsets map makes `CreateServiceResolver` write into a nil map; the model counts that as
  a refused call. Destroy after Destroy fails, since the deletes of absent entries are errors;
  a Destroy that stopped after deleting its routes can be completed only while some other service has a route
  (`Interleavings.HaltedDestroyIsStuck`).
- *DeleteRelease deletes one release.* Exactly when no other stored name begins with its name.

Other behaviour a reader may not expect: `PromoteCandidate` cannot succeed when the primary
is absent, since deleting it is then an error; a strategy error makes `doMonitor` fire
EventFail and then an EventUnhealthy that Fail rejects; and admission replaces a plugin
state it cannot read by an empty one, which forgets the primary's name.

## Model

| member | source | states |
|---|---|---|
| Fsm.TargetIsTable | pkg/plugins/statemachine/statemachine.go:129-165 | The destination of an event is that of the row of the transition table for it and the state, and there is none without a row |
| Completions.OutsideEvents | pkg/plugins/statemachine/statemachine.go:131-178 | Configure is accepted exactly in Start, Idle and Fail, Deploy in Idle and Fail, Destroy everywhere but in Start and Destroy; each starts one worker at its first call, and a rejected one changes nothing |
| Completions.ConfigureCompletes | pkg/plugins/statemachine/statemachine.go:255-333 | Configure, accepted without a live worker: runs in which no call fails finish only in Idle with the config entries set up; without a primary a running candidate becomes the labelled primary with all traffic and is retired under its own version, else the deployments are untouched; such a run exists |
| Completions.DestroyCompletes | pkg/plugins/statemachine/statemachine.go:671-734 | Destroy, accepted at rest beside a live primary: runs in which no call fails finish only in Idle, with the primary's spec, instances and meta but the label back as the candidate, and neither primary, splitter nor config entries; such a run exists |
| Completions.RolloutCompletes | pkg/plugins/statemachine/statemachine.go:335-669 | A rollout beside a live primary in which only tests and checks fail never fails and finishes only promoted or rolled back, with the worlds of both ends written out |
| Completions.RollbackIsReachable | pkg/plugins/statemachine/statemachine.go:622-669 | From every accepted Deploy beside a live primary such a run ends rolled back with the old primary untouched |
| Plans.WorkerFollowsPlan | pkg/plugins/statemachine/statemachine.go:255-734 | A worker that comes to its last event without a failing call has made exactly the calls of its state's plan, in order and with their arguments, waits for health included |
| Plans.FailsIff | pkg/plugins/runtime/plugin.go:91-355 | A reply ends a worker in Fail exactly when it is a failure outside the two lookups of InitPrimary, the test, the delay and the checks, or a missing deployment where one is needed |
| Plans.SurvivesBy | pkg/plugins/runtime/plugin.go:98-117 | A failed lookup counts as nothing found, a failed test rolls back, a bad delay is an error, a failed check counts towards ErrorThreshold |
| TestedChecks.NoCheckBeforeTest | pkg/plugins/statemachine/statemachine.go:420-441 | With a post-deployment test, a worker that makes a metric check or reports that the rollout goes on or is complete follows a test passed since Monitor was entered |
| Rollouts.SingleWorker | pkg/plugins/statemachine/statemachine.go:129-178 | Over every run in which Destroy is fired only while no worker is live, also with lost writes and new machines, at most one worker is live, it was spawned by entry to the current state and passive states have none; without a reload an active state always has its worker; a Configure or Deploy arriving meanwhile changes nothing |
| Rollouts.StepKeepsSingle | pkg/plugins/statemachine/statemachine.go:197-209 | Every calm step, also a reload on any stored history, keeps the single-worker invariant, whatever the calls reply |
| Availability.NeverAllDown | pkg/plugins/statemachine/statemachine.go:255-734 | No run without a hazard, with any call failing or losing its reply, any state write lost, any crash and resume and user deployments of any size, takes the service from a live deployment to none |
| Outages.OutageIffHazard | pkg/plugins/statemachine/statemachine.go:155-194 | From any safe state with a live deployment, a step keeps one live over every hazard-free continuation exactly when it is no hazard: a failed primary lookup beside an idle matching deployment, a resumed stored Monitor without a primary, a Destroy accepted while any worker is live, or a user deployment of 0 instances without a running primary or under a worker that counts on the candidate |
| Outages.EveryHazardIsReached | pkg/plugins/statemachine/statemachine.go:129-194 | Every fresh release has hazard-free runs to the failed lookup, the resumed Monitor and the Destroy beside a worker, with a live deployment still there |
| Outages.IdleHazardsAreReached | pkg/plugins/runtime/plugin.go:119-146 | Every fresh release has hazard-free runs to a harmful deployment of 0 instances, without a primary and beside a running one |
| Outages.IdleLoses | pkg/plugins/runtime/plugin.go:119-146 | After a user deployment of 0 instances without a primary, or under a worker that has selected, is about to replace the primary, or is about to delete it, no deployment may be left live |
| Availability.FreshStaysUp | pkg/plugins/runtime/plugin.go:91-355 | From a fresh release, once some deployment is live it stays so over every hazard-free continuation |
| Availability.HazardLosesService | pkg/plugins/runtime/plugin.go:98-156 | Two successful calls after the failed lookup, no deployment is live |
| Outages.FailedLookupLosesService | pkg/plugins/runtime/plugin.go:98-156 | From every accepted Deploy beside a live primary: a rollout without failures, another Deploy and one failed lookup end without a live deployment |
| Availability.DestroyDuringPromotionLosesService | pkg/plugins/statemachine/statemachine.go:155-164 | A Destroy accepted while a promotion is about to delete the primary can remove both deployments |
| Descents.ResumeLoses | pkg/plugins/statemachine/statemachine.go:186-194 | A machine resumed on a stored Monitor while no primary runs can roll back the only deployment, with or without a post-deployment test, whatever worker was live before |
| Descents.Descend | pkg/plugins/statemachine/statemachine.go:413-669 | A worker that deploys beside a primary, monitors or rolls back can always be brought to scale the candidate to zero, with the primary untouched |
| StaleWorkers.DestroyLoses | pkg/plugins/statemachine/statemachine.go:155-164 | A Destroy accepted beside a live worker can start an outage wherever that worker stands |
| StaleWorkers.BesideLoses | pkg/plugins/statemachine/statemachine.go:205-209 | Beside a machine at rest with both deployments live, a worker left behind at any position can make later rollouts lose the service |
| StaleWorkers.ExecBeside | pkg/plugins/statemachine/statemachine.go:166-178 | A worker left behind that does not move changes no step of the others |
| Climbs.Climb | pkg/plugins/statemachine/statemachine.go:335-552 | A rollout beside a live primary can always be brought to Monitor, to its first Scale from a reset strategy, and past its last check, with the primary untouched |
| Drain.RemovalsAreDrained | pkg/plugins/statemachine/statemachine.go:304-317 | At every point of a calm run a worker about to delete a deployment, scale it to zero, or clone 0 instances over it while it runs finds splitter weight 0 for it, except inside RestoreOriginal and in InitPrimary's clone; without a hazard the clone is no exception |
| Drain.InitUndrainedIff | pkg/plugins/runtime/plugin.go:98-146 | InitPrimary is about to take an undrained primary down with its clone exactly when a primary with traffic ran when it was called and the deployment it selected has 0 instances; its lookup has then failed |
| Undrained.CloneTakesDownUndrained | pkg/plugins/runtime/plugin.go:98-146 | Every fresh release has a hazard-free run to a lookup which, when it fails, leads InitPrimary to clone 0 instances over the primary that has all traffic |
| Drain.RestoreDrainedIff | pkg/plugins/runtime/plugin.go:267-331 | What RestoreOriginal removes, by its delete or by a clone over a newer candidate, is drained exactly when Destroy was accepted with candidate weight 0 |
| Undrained.DestroyDeletesUndrained | pkg/plugins/statemachine/statemachine.go:554-583 | Every fresh release has a run to a Destroy accepted with candidate weight 100, whose worker is then about to delete the undrained candidate |
| Versions.PrimaryRunsLastCloned | pkg/plugins/runtime/plugin.go:126-223 | Over any run, also with several live workers, the primary's spec is the version last cloned into it |
| Versions.PrimaryIsOwned | pkg/plugins/runtime/plugin.go:126-223 | Over every run, with any number of workers, a primary that exists carries the ownership label with value 1 |
| Versions.FreshPrimaryIsOwned | pkg/plugins/runtime/plugin.go:137-201 | So does every primary of a release that started without one |
| Versions.RollbackKeepsPrimary | pkg/plugins/statemachine/statemachine.go:413-669 | Monitoring, scaling, failing and rolling back leave the whole primary unchanged |
| Versions.RestoreGivesBackPrimary | pkg/plugins/runtime/plugin.go:291-319 | After any calm run from a fresh release, RestoreOriginal's clone is the last cloned version with the primary's instance count and its meta without the ownership label |
| History.StoredIsRecentPast | pkg/plugins/statemachine/statemachine.go:222-237 | While history writes succeed, the stored history is the whole trace of states entered, or its last 50 when longer, its last entry is the machine's state, and a new machine on it starts there |
| Traffic.ReportedIsSplit | pkg/plugins/statemachine/statemachine.go:517-549 | Over every calm run the reported percentages lie in 0..100 and add up to 100, and when EventScaled is reported they are the splitter's weights |
| Traffic.TrafficIsLevel | pkg/plugins/canary/plugin.go:131-204 | Over every calm run in which no new machine loads a value that has come to level k + 1, for any k from K on, every value in memory and in the store is -1 or one of the first k + 1 levels |
| TrafficBounds.BoundIffPeak | pkg/plugins/canary/plugin.go:131-204 | From a fresh release, values keep to -1 and 1..bound over all calm runs that load nothing past the ramp, and over all runs without Destroy and reload, exactly when i + K * step is at most the bound |
| TrafficBounds.BoundIffTop | pkg/plugins/canary/plugin.go:100-204 | The same for any limit on the values a new machine loads: the bound holds exactly when the first level above the limit, but at least the peak, is within it |
| TrafficBounds.TopOf | pkg/plugins/canary/plugin.go:100-204 | For loads up to the end of the ramp that level is the peak, for loads up to 100 it lies in 101..200 |
| PastRamps.ReloadExceedsIff | pkg/plugins/canary/plugin.go:100-117 | From any state a calm run keeps, a new machine can pass the peak without another reload exactly when it loads a value past the ramp, unless it starts in Destroy |
| TrafficBounds.PeakOf | pkg/plugins/canary/plugin.go:180-197 | That peak reaches MaxTraffic, is at most 200, and passes 199 exactly for a step of 100 from 100 |
| TrafficBounds.PeakReached | pkg/plugins/canary/plugin.go:180-197 | Every fresh release has a run without Destroy and reload that saves the peak |
| Traffic.OvershootStep | pkg/plugins/canary/plugin.go:180-197 | Rebuilding between the last passed check and the reset and passing one more check saves the value plus one step |
| Traffic.OvershootUnbounded | pkg/plugins/canary/plugin.go:100-117 | Repeating this drives the saved value beyond every bound |
| TrafficBounds.UnboundedFromFresh | pkg/plugins/canary/plugin.go:100-117 | Every fresh release has calm runs whose saved value exceeds any given bound |
| Canary.FlatStream | pkg/plugins/canary/plugin.go:125-206 | Repeated Execute calls from -1 complete at check n exactly when it is the K-th success with no failure run before it, and fail at check n exactly when the first run of ErrorThreshold failures ends there with fewer than K successes |
| Canary.ChecksBounded | pkg/plugins/canary/plugin.go:158-205 | A rollout is decided after at most K * ErrorThreshold checks |
| Canary.RampIncreases | pkg/plugins/canary/plugin.go:131-204 | Every step of the ramp is in 1..100 and larger than the one before |
| Canary.LevelBelowMax | pkg/plugins/canary/plugin.go:180-197 | The step after level j stays below MaxTraffic exactly when j is not the K-th round |
| Canary.RoundsIsLeast | pkg/plugins/canary/plugin.go:131-204 | K is the least number of successes, at least one, after which InitialTraffic (TrafficStep if 0) plus a step for each has reached MaxTraffic |
| MonitorExecute.FirstExecute | pkg/plugins/canary/plugin.go:131-150 | On a reset strategy Execute makes no check; memory and store get InitialTraffic, or TrafficStep if that is 0, also when the delay cannot be parsed |
| MonitorExecute.NextExecute | pkg/plugins/canary/plugin.go:152-158 | On a strategy under way Execute starts its checks with no failure counted |
| MonitorExecute.MonitorRunsExecute | pkg/plugins/statemachine/statemachine.go:446-495 | The Monitor worker answered by a stream of checks reaches the event of Execute's verdict with Execute's traffic in memory and store |
| RolloutChecks.RolloutDecidedByChecks | pkg/plugins/statemachine/statemachine.go:413-552 | Over every run of a rollout the machine promotes only when the single pass over all checks it made completes at the last one, rolls back only when it fails there or a post-deployment test failed before it was decided, and makes at most K * ErrorThreshold checks |
| RolloutChecks.VerdictOfStream | pkg/plugins/canary/plugin.go:158-205 | The verdict of the repeated Execute calls on a stream that is open or just decided is exactly that of the single pass |
| RolloutTrace.RolloutFollowsPlan | pkg/plugins/statemachine/statemachine.go:335-669 | From an accepted Deploy at -1, whatever the replies, Scale got nothing or 0, the first i steps of the ramp, and then nothing, 0, 100, or 100 and 0, the last two only after all K steps; at most 2K+3 transitions |
| RolloutTrace.PromotedScalesExactly | pkg/plugins/statemachine/statemachine.go:554-620 | A rollout that reached Idle through Promote called Scale with exactly 0, the whole ramp of K values, 100 and 0, took 2K+3 transitions and reset the strategy |
| RolloutTrace.PromotedLog | pkg/plugins/statemachine/statemachine.go:335-620 | The Scale log of a promoted rollout written out: 0, then k values from InitialTraffic (TrafficStep if 0) up by TrafficStep, then 100 and 0, with k the least number of steps that bring the traffic to MaxTraffic |
| RolloutTrace.RolloutEnds | pkg/plugins/statemachine/statemachine.go:335-669 | A rollout takes at most (K+1)(T+6)+17 worker steps, and one that cannot step any more is in Idle or Fail |
| RolloutSuccess.SuccessEndsPromoted | pkg/plugins/statemachine/statemachine.go:335-620 | Without a failing call a rollout beside a live primary never fails or rolls back, and finishes only in Idle with the candidate as primary, the candidate retired and every Scale call as planned |
| RolloutSuccess.SuccessIsReachable | pkg/plugins/statemachine/statemachine.go:335-620 | Such a run exists from every accepted Deploy beside a live primary |
| Sessions.Session.Call | pkg/plugins/interfaces/runtime.go:110-145 | A call answers as its contract allows, changes the world accordingly, and moves the worker's program |
| Runtimes.RuntimePlugin.SaveState | pkg/plugins/runtime/plugin.go:357-368 | The stored state is the current one unless the write fails |
| Runtimes.RuntimePlugin.InitPrimary | pkg/plugins/runtime/plugin.go:91-157 | Status Update means a live primary with the spec, instances and meta of the matching deployment and the ownership label 1, NoAction an unchanged world; a failure leaves the world as it was or with the clone; names recorded and saved on every path |
| Runtimes.RuntimePlugin.PromoteCandidate | pkg/plugins/runtime/plugin.go:159-224 | Update means the live candidate's spec, instances and meta, with the ownership label 1, replaced an existing primary, NotFound an unchanged world without live candidate; a failure leaves the old primary, none, or the new one |
| Runtimes.RuntimePlugin.RemoveCandidate | pkg/plugins/runtime/plugin.go:226-262 | Success leaves an existing candidate at zero instances, labelled with its own version, and touches nothing else |
| Runtimes.RuntimePlugin.RestoreOriginal | pkg/plugins/runtime/plugin.go:267-331 | Success with a primary leaves a live candidate made of it, without one the world is unchanged; primary and splitter are never touched |
| Runtimes.RuntimePlugin.RemovePrimary | pkg/plugins/runtime/plugin.go:333-355 | Success leaves no primary, also when there was none; a failure may have deleted it |
| CanaryPlugins.CanaryPlugin.constructor | pkg/plugins/canary/plugin.go:100-117 | A strategy starts at the stored traffic, or at -1 without one |
| CanaryPlugins.CanaryPlugin.SaveState | pkg/plugins/canary/plugin.go:232-243 | The stored traffic is the current one unless the write fails |
| CanaryPlugins.CanaryPlugin.Execute | pkg/plugins/canary/plugin.go:125-206 | From -1 the returned and saved traffic is InitialTraffic, or TrafficStep if that is 0; otherwise verdict, returned traffic, new traffic and number of checks are those of the stream function on the checks made; an error returns Failed and 0; the last value is saved, and the worker's program stands at the event of the verdict |
| CanaryPlugins.CanaryPlugin.GetPrimaryTraffic | pkg/plugins/canary/plugin.go:208-218 | A percentage that adds up to 100 with the candidate's: 100 before a rollout, 0 past 100 |
| CanaryPlugins.CanaryPlugin.GetCandidateTraffic | pkg/plugins/canary/plugin.go:220-230 | The strategy's own value when that is a percentage above 0, 0 below and 100 above |
| StateMachines.Release.UpdateState | pkg/models/release.go:64-75 | The history is the old entries and the new one, cut to the last 50 |
| StateMachines.StateMachine.constructor | pkg/plugins/statemachine/statemachine.go:124-127 | A machine starts in the last state of the stored history, Start without one |
| StateMachines.StateMachine.Event | pkg/plugins/statemachine/statemachine.go:129-237 | One event of the machine with its callbacks is one event of the transition system; Configure, Deploy and Destroy are accepted in exactly the states of the table; a rejected event changes nothing |
| StateMachines.StateMachine.Resume | pkg/plugins/statemachine/statemachine.go:186-194 | A machine that was monitoring enters Monitor again with a worker; any other is unchanged |
| StateMachines.StateMachine.DoConfigure | pkg/plugins/statemachine/statemachine.go:255-333 | Idle means the config entries are set up and the deployments untouched, or a primary cloned from the candidate with all traffic and the candidate retired; Fail leaves deployments and splitter as they were, or only the clone made, or all of that |
| StateMachines.StateMachine.DoDeploy | pkg/plugins/statemachine/statemachine.go:335-411 | Monitor beside an unchanged live primary, Idle after creating one and retiring the candidate, Fail otherwise |
| StateMachines.StateMachine.DoMonitor | pkg/plugins/statemachine/statemachine.go:413-498 | Deployments untouched; a failed test rolls back with the strategy unchanged, a strategy error fails, and otherwise the state and the new traffic are those of Execute's verdict on the checks made, Scale with the strategy's traffic |
| StateMachines.StateMachine.DoScale | pkg/plugins/statemachine/statemachine.go:500-552 | Monitor again exactly with the event's traffic in the splitter and nothing else changed, or Fail |
| StateMachines.StateMachine.DoPromote | pkg/plugins/statemachine/statemachine.go:554-620 | Idle means a live primary with all traffic: the old candidate if that was live, and the candidate retired; otherwise the unchanged primary |
| StateMachines.StateMachine.DoRollback | pkg/plugins/statemachine/statemachine.go:622-669 | The primary is never changed, a candidate only after the primary has all traffic, and Idle means it is retired |
| StateMachines.StateMachine.DoDestroy | pkg/plugins/statemachine/statemachine.go:671-734 | Idle means a live candidate made of the old primary if there was one, and neither primary nor splitter |
| UpstreamRouters.RoutesAreSurvivors | pkg/clients/consul.go:344-413 | From an absent entry over any creates and deletes for any services: the routes are the creates no later delete undoes, in order, each service has as many as creates since its last delete, and the entry exists iff one remains |
| SetUps.SetupsAreWritten | pkg/plugins/consul/releaser.go:81-149 | After any accepted Setups and Scales: the primary subset has the primary's filter and the candidate subset the candidate's, other subsets are as before, a new resolver defaults to the candidate, all three services speak HTTP, the last route leads from the candidate's host to its subset, and the controller is an allowed source |
| SetUps.ScaleReachesFilters | pkg/plugins/consul/releaser.go:151-166 | After a Scale of a service that is set up, the instances behind the candidate's filter get the value and those behind the primary's the rest of 100 |
| SetUps.SetupAcceptedIff | pkg/clients/consul.go:108-227 | A Setup is refused exactly for gRPC or HTTP/2 defaults of one of the three services, or a resolver without a Subsets map |
| SetUps.DestroyAcceptedIff | pkg/clients/consul.go:482-700 | A Destroy is refused exactly when the service's defaults, resolver or intention or the shared router is not there |
| SetUps.SetupOrder | pkg/plugins/consul/releaser.go:81-149 | Up to any edit of a Setup the resolver, router and intention are untouched until all three services speak HTTP |
| SetUps.DestroyOrder | pkg/plugins/consul/releaser.go:168-222 | Up to any edit of a Destroy the subsets are there until the splitter and the route that name them are gone |
| ConfigRoundTrip.SetupDestroyRoundTrip | pkg/plugins/consul/releaser.go:81-222 | After any Scales and n >= 1 accepted Setups, Destroy succeeds and restores the whole config store except the two shared defaults exactly when every entry was absent or the user's own and free of the controller's additions |
| Interleavings.NoInterference | pkg/plugins/consul/releaser.go:81-222 | Over any interleaving of Setups, Scales and Destroys of any services on one store, complete, refused or stopped after any of their edits, what the store holds of a service, its routes on the shared router included, is what its own steps make of it |
| Interleavings.InterleavedRoundTrip | pkg/plugins/consul/releaser.go:81-222 | Among any such steps, also half-done ones of its own, a Destroy that completes after a complete Setup gives the service back what the store held of it exactly when that was absent or the user's own and free of the controller's additions, and changes nothing of any other service; it is not refused unless an earlier Destroy had begun |
| Interleavings.HaltedDestroyIsStuck | pkg/plugins/consul/releaser.go:168-222 | A Destroy that stopped after deleting its routes gets past them again exactly when some other service has a route |
| SetUps.DefaultsCreated | pkg/clients/consul.go:108-171 | The service speaks HTTP; a user's HTTP or TCP defaults keep everything else, others become the controller's |
| SetUps.ResolverCreated | pkg/clients/consul.go:173-227 | The primary subset has the primary's filter, the candidate subset the candidate's, the user's own subsets are unchanged, and a new resolver defaults to the candidate |
| SetUps.RouteWritten | pkg/clients/consul.go:344-413 | The last route leads from the service's host to the candidate subset; earlier routes are kept |
| SetUps.IntentionWritten | pkg/clients/consul.go:415-480 | The controller is among the sources; unless it was, it is added at the end and allowed |
| Consul.ConsulImpl.CreateServiceDefaults | pkg/clients/consul.go:108-171 | The defaults become those of the specification, gRPC and HTTP/2 are refused; a failed call changed nothing or lost its reply |
| Consul.ConsulImpl.CreateServiceResolver | pkg/clients/consul.go:173-227 | The resolver becomes that of the specification, a nil Subsets map is refused; a failed call changed nothing or lost its reply |
| Consul.ConsulImpl.CreateServiceSplitter | pkg/clients/consul.go:229-260 | The two subsets, by their names, get the two weights, and the entry is marked as the controller's |
| Consul.ConsulImpl.CreateUpstreamRouter | pkg/clients/consul.go:344-413 | One more route at the end of the shared router; a failed call changed nothing or lost its reply |
| Consul.ConsulImpl.CreateServiceIntention | pkg/clients/consul.go:415-480 | The controller's source is searched for and appended once; a failed call changed nothing or lost its reply |
| Consul.ConsulImpl.DeleteServiceDefaults | pkg/clients/consul.go:482-513 | Defaults the controller created are gone, the user's are kept, absent ones are an error |
| Consul.ConsulImpl.DeleteServiceResolver | pkg/clients/consul.go:515-552 | A resolver the controller created is gone, a user's one loses the two subsets only |
| Consul.ConsulImpl.DeleteServiceSplitter | pkg/clients/consul.go:554-567 | The service's splitter is gone and nothing else |
| Consul.ConsulImpl.DeleteUpstreamRouter | pkg/clients/consul.go:612-656 | The routes to other services remain in order; an empty router is deleted |
| Consul.ConsulImpl.DeleteServiceIntention | pkg/clients/consul.go:658-700 | An intention the controller created is gone, a user's one loses the controller's source only |
| Consul.ConsulImpl.CheckHealth | pkg/clients/consul.go:703-747 | Healthy iff both lookups answered with at least one entry and every status is passing |
| SetUps.SetupIsWritten | pkg/plugins/consul/releaser.go:81-149 | The store of the specification of one Setup is set up in this sense |
| Consul.Releaser.Setup | pkg/plugins/consul/releaser.go:81-149 | Success gives the store of the specification, which is set up as written out, and, when no request fails, happens exactly when the code refuses nothing; a failed Setup has made a prefix of its edits and leaves every other service's entries and routes as they were |
| Consul.Releaser.Scale | pkg/plugins/consul/releaser.go:151-166 | The subset named for the candidate gets the value and the one named for the primary the rest of 100 |
| Consul.Releaser.Destroy | pkg/plugins/consul/releaser.go:168-222 | Success gives the store of the specification; a failed Destroy has made a prefix of its edits and leaves every other service's entries and routes as they were |
| Storage.FlatSimulatesStructured | pkg/plugins/consul/storage.go:45-167 | Over any sequence of writes for prefix-free slash-free names and the machine's plugins, the flat keys represent the map from release and part to value |
| Storage.PathLayout | pkg/plugins/consul/storage.go:156-167 | The paths of a release, its configuration and its plugin state, written out |
| Storage.PathInjective | pkg/plugins/consul/storage.go:156-167 | Different parts of slash-free releases have different paths |
| Storage.UnderPath | pkg/plugins/consul/storage.go:165-167 | A key lies under a release's path exactly when that name is a prefix of its release's name |
| Storage.DeleteExactIff | pkg/plugins/consul/storage.go:116-121 | DeleteRelease removes exactly one release with its plugin state iff no other stored name begins with its name |
| Storage.ReadsAgree | pkg/plugins/consul/storage.go:96-153 | A read finds the last non-empty value written under its key and nothing else |
| Storage.ReleaseKeyIff | pkg/plugins/consul/storage.go:65-72 | Of all keys in a represented store exactly the release configurations are listed |
| Storage.ListIsExact | pkg/plugins/consul/storage.go:58-86 | What ListReleases returns without options is each stored release exactly once |
| Storage.ConsulKV.SetKV | pkg/clients/consul.go:750-769 | The key holds the value, or the call failed and may have changed nothing |
| Storage.ConsulKV.GetKV | pkg/clients/consul.go:774-796 | The value under the key, if any, when the call succeeds |
| Storage.ConsulKV.DeleteKV | pkg/clients/consul.go:799-816 | Every key that begins with the path is gone and no other |
| Storage.ConsulKV.ListKV | pkg/clients/consul.go:819-836 | Every key that begins with the path, each once |
| Storage.StorageClient.UpsertRelease | pkg/plugins/consul/storage.go:45-54 | The release is stored under its configuration key and nothing else changes |
| Storage.StorageClient.GetReleaseAt | pkg/plugins/consul/storage.go:96-113 | The release at a path, not found when absent or empty, an error when it is no release |
| Storage.StorageClient.DeleteRelease | pkg/plugins/consul/storage.go:116-121 | Everything under the release's path is gone, or the call failed |
| Storage.StorageClient.UpsertPluginState | pkg/plugins/consul/storage.go:123-132 | The plugin's state is stored under its key; an error without effect when a name is empty |
| Storage.StorageClient.GetPluginState | pkg/plugins/consul/storage.go:134-153 | The bytes stored for the plugin, or not found when absent or empty |
| Storage.StorageClient.ListReleases | pkg/plugins/consul/storage.go:58-86 | The releases of exactly the matching configuration keys, one for each; succeeds when no request fails and all of them decode |
| Nomad.RetagPartitions | pkg/clients/nomad.go:275-322 | With a version label every service is in the primary subset, with an empty or absent one in the candidate subset; other tags keep their order and at most one is added |
| Nomad.RetagIdempotent | pkg/clients/nomad.go:275-322 | A second clone with the same label changes no tag and no meta |
| Nomad.LabelThenUnlabel | pkg/clients/nomad.go:275-322 | Labelling then unlabelling gives the tags back exactly when they did not hold the label |
| Nomad.CloneFollowsMeta | pkg/clients/nomad.go:273-322 | A clone puts a service in the primary subset and gives it the meta key exactly when the new job's meta has a label that is not empty; other tags keep their order, other keys their values |
| Nomad.WithoutLabelConcat | pkg/clients/nomad.go:289-297 | Dropping the label works tag by tag |
| Nomad.MetaKeyIs | pkg/clients/nomad.go:309-319 | The service's meta key is the label with every - replaced by _ |
| Nomad.JobService.AddTag | pkg/clients/nomad.go:275-322 | The label is added at the end unless it is there |
| Nomad.JobService.RemoveTag | pkg/clients/nomad.go:275-322 | Every label is gone and the other tags keep their order |
| Nomad.Job.Rewrite | pkg/clients/nomad.go:255-324 | Name, count and meta are the new deployment's; every service of every group has the tag and the meta key exactly when the new meta has a label that is not empty, with the label's value, its other tags in order and its other keys unchanged |
| Nomad.Job.RetagAll | pkg/clients/nomad.go:275-322 | Every service of the job has its tags rewritten once, whatever groups share it |
| Nomad.Job.RemarkAll | pkg/clients/nomad.go:275-322 | Every service of the job has its meta rewritten once |
| HttpTest.Execute | pkg/plugins/httptest/plugin.go:107-168 | The test ends at the first round that completes a streak of passes, fails to get an answer or finds the timeout expired, and is still running otherwise |
| HttpTest.PassMeansStreak | pkg/plugins/httptest/plugin.go:107-168 | A pass means a completed streak, none before it, and no expiry up to and at that round, so expiry wins over a simultaneous pass |
| Prometheus.Check | pkg/plugins/prometheus/monitor.go:79-178 | Success iff every preset is known and every query succeeds; otherwise the first query that does not succeed gives the result and no later one is sent; none is sent when a preset is unknown; each text sent is the query's own or its preset's |
| Prometheus.RunQueries | pkg/plugins/prometheus/monitor.go:108-175 | The queries run in order up to the first that does not succeed |
| Prometheus.VerdictIs | pkg/plugins/prometheus/monitor.go:111-174 | An empty query, a bad template or a failed request is an error, no vector or no sample is no metrics, and else the first sample inside or outside the window decides |
| Prometheus.SuccessIs | pkg/plugins/prometheus/monitor.go:79-178 | All queries succeed iff each has a known preset or a text and a first sample inside its window |
| Prometheus.WindowOfSamples | pkg/plugins/prometheus/monitor.go:149-174 | Truncation makes the accepted samples [Min, Max+1) when they are not negative, and widens bounds of zero or less downwards |
| Admission.AdmissionImpl.Check | pkg/controllers/admission.go:55-173 | A marked deployment is granted; otherwise the first release whose selector compiles and matches in the same namespace decides: rejected iff its machine is in none of Idle, Fail and Destroy; no release grants |
| Admission.AdmissionImpl.StartRollout | pkg/controllers/admission.go:110-163 | A grant means the name was persisted, the machine replaced, and Deploy fired once on the fresh machine in Idle or Fail, in this order; without failures it is granted iff the stored state is one of these; other releases are untouched |
| Admission.AnchoredAtEnd | pkg/controllers/admission.go:80-83 | The selector is matched to the end of the name: it ends in $, added only if missing |
| Admission.Provider.GetStateMachine | pkg/controllers/admission.go:96-110 | The cached machine's state, or the last stored state for a new machine |
| Admission.Provider.Deploy | pkg/controllers/admission.go:150-163 | Accepted iff the transition table allows Deploy in the machine's state, and fired exactly once |

## Left out

- Network requests, sleeps, retries, context deadlines, logging, metrics, webhooks, templates, JSON, TLS, HTTP handlers and custom-resource conversion: calls answer or fail in any way their contract allows.
- Regular expressions: an arbitrary "compiles" and "matches" pair.
- The release name, deployment names and namespaces inside the transition system: there is one primary, one candidate per selector, and the runtime plugin's names are followed in `Runtimes` only.
- What a user does to deployments other than deploying a version of the candidate, of any number of instances: scaling or deleting them by hand.
- Interference while one of the class methods runs: interleavings are those of `Rollouts`, a class method runs one worker alone.
- Rollouts.SingleWorker: assumes that Destroy is fired only while no worker is live, because a Destroy accepted beside a live worker makes that worker stale; what such a worker can do is in `StaleWorkers`.
- Availability.NeverAllDown: assumes runs without a hazard, because the code can lose the service after each of them; `Outages.OutageIffHazard` is the exact statement.
- Drain.RemovalsAreDrained: excepts RestoreOriginal and InitPrimary's clone, whose exact conditions are `Drain.RestoreDrainedIff` and `Drain.InitUndrainedIff`.
- Traffic.TrafficIsLevel: allows the level past the ramp and limits the values new machines load, because the code reaches that level and goes on from it.
- Interleavings.InterleavedRoundTrip: speaks of a service's own entries and routes; what other services' steps do to the fields of the shared router entry itself is left to `ConfigRoundTrip.SetupDestroyRoundTrip`.
- A releaser's Setup or Destroy that stops half way is one failed call in the transition system, with all or nothing done; its edits one by one are in `Interleavings` and `SetUps`.
- A crash between the two halves of one state entry, worker started but history not yet written: the write is one step that succeeds or is lost.
- Restarting through rehydrateReleases, whose options match no named runtime: a reload is New, with or without Resume.
- Strategy configurations that fail validation, and a strategy whose saved value was changed by hand.
- RolloutTrace.RolloutFollowsPlan: starts, like all of `RolloutTrace` and `RolloutChecks`, from a strategy at -1; a rollout after a failed post-deployment test or a failed Scale starts from the value left behind.
- The strategy's Status text and the times in the state history.
- CreateServiceRouter and DeleteServiceRouter, which the releaser does not call, and namespaces and partitions other than in a route's host.
- Versions the server assigns after an update, and sharing of a fetched deployment's meta map with its clone, which the clients read again by name.
- The readiness rules inside the Kubernetes and Nomad clients: a healthy answer means that the deployment is live.
- The key of the provider's machine cache, "name-namespace", which two releases can share: machines are kept by release.
- Prometheus.WindowOfSamples: does not model samples that are not finite numbers, whose conversion to an integer Go leaves to the platform.
