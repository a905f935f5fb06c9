/** The release and its state machine as objects, and the workers as the code that runs them. */
module StateMachines {
  import opened Prelude
  import opened Cluster
  import opened Fsm
  import opened Workers
  import opened Rollouts
  import opened Sessions
  import opened Runtimes
  import opened CanaryPlugins

  class Release {
    var statehistory: seq<State>

    constructor (statehistory: seq<State>)
      ensures this.statehistory == statehistory
    {
      this.statehistory := statehistory;
    }

    /** Append a state; the oldest of more than 50 is dropped. */
    method UpdateState(state: State)
      modifies this
      ensures statehistory == Remember(old(statehistory), state)
      ensures var all := old(statehistory) + [state];
              statehistory == if |all| > 50 then all[|all| - 50..] else all
      ensures |statehistory| > 0 && statehistory[|statehistory| - 1] == state
      ensures |old(statehistory)| <= 50 ==> |statehistory| <= 50
    {
      statehistory := statehistory + [state];
      if |statehistory| > 50 {
        statehistory := statehistory[|statehistory| - 50..];
      }
    }
  }

  /** The primary was made of the candidate, has all traffic, and the candidate is retired. */
  predicate ConfiguredFrom(before: World, after: World) {
    && before.candidate.Some?
    && var c := before.candidate.value;
       after == World(Some(AsPrimary(c)), Some(Retired(c)), Some(Split(100, 0)), true)
  }

  /** What made the Monitor worker end: the test, an error of the strategy, or its verdict on the checks. */
  datatype Cause = TestFailed | StrategyError | Judged(checks: seq<bool>)

  function AfterVerdict(status: Canary.Status): State {
    match status
    case Success => StateScale
    case Complete => StatePromote
    case Failed => StateRollback
  }

  class StateMachine {
    const release: Release
    const session: Session          // the releaser, runtime client, monitor and test clients
    const runtimePlugin: RuntimePlugin
    const strategyPlugin: CanaryPlugin
    var current: State
    var workers: seq<Worker>        // workers started so far
    var stored: seq<State>          // the history in the release store
    ghost var trace: seq<State>

    /** The machine's part of the transition system's state. */
    ghost function Machine(): Sys
      reads this, release
    {
      Sys(session.cfg, current, workers, World(None, None, None, false), -1, -1,
          release.statehistory, stored, trace, [])
    }

    ghost predicate Ready()
      reads this, session, strategyPlugin
    {
      && session.cfg.Valid() && strategyPlugin.config == session.cfg
      && session.traffic == strategyPlugin.candidateTraffic
    }

    /** New: a machine on a stored release starts in the last state of its history. */
    constructor (release: Release, session: Session, runtimePlugin: RuntimePlugin, strategyPlugin: CanaryPlugin)
      ensures this.release == release && this.session == session
      ensures this.runtimePlugin == runtimePlugin && this.strategyPlugin == strategyPlugin
      ensures current == Current(release.statehistory)
      ensures workers == [] && stored == release.statehistory && trace == []
    {
      this.release, this.session := release, session;
      this.runtimePlugin, this.strategyPlugin := runtimePlugin, strategyPlugin;
      current := if |release.statehistory| == 0 then StateStart
                 else release.statehistory[|release.statehistory| - 1];
      workers, stored, trace := [], release.statehistory, [];
    }

    /** FSM.Event with the callbacks enter_<STATE> and enter_state; `kept` when the release was stored. */
    method Event(e: Event, arg: Option<int>) returns (accepted: bool, kept: bool)
      modifies this, release
      ensures Machine() == Fire(old(Machine()), e, arg, kept)
      ensures accepted <==> Target(old(current), e).Some?
      ensures e.EventConfigure? ==> (accepted <==> old(current) in {StateStart, StateIdle, StateFail})
      ensures e.EventDeploy? ==> (accepted <==> old(current) in {StateIdle, StateFail})
      ensures e.EventDestroy? ==> (accepted <==> old(current) !in {StateStart, StateDestroy})
      ensures !accepted ==> current == old(current)
      ensures accepted ==> current == Target(old(current), e).value
    {
      kept := *;
      var target := Target(current, e);
      if target.None? { return false, kept; }
      current := target.value;
      var start := StartOf(session.cfg, current, arg);
      if start.Some? { workers := workers + [Worker(current, start.value)]; }
      release.UpdateState(current);
      if kept { stored := release.statehistory; }
      trace := trace + [current];
      return true, kept;
    }

    /** Resume: a machine that was monitoring enters Monitor again. */
    method Resume() returns (kept: bool)
      modifies this, release
      ensures Machine() == if old(current).StateMonitor?
                           then Fire(old(Machine()).(state := StateDeploy), EventDeployed, None, kept)
                           else old(Machine())
    {
      kept := *;
      if current.StateMonitor? {
        current := StateDeploy;
        var accepted;
        accepted, kept := Event(EventDeployed, None);
      }
    }

    /** A worker's last act: fire the event its program has come to. */
    method Signal(e: Event, arg: Option<int>)
      requires session.pc == End(e, arg)
      modifies this, release
      ensures current == if Target(old(current), e).Some? then Target(old(current), e).value else old(current)
      ensures Target(old(current), e).Some? ==> workers == old(workers) + Spawn(session.cfg, current, arg)
    {
      var accepted, kept := Event(e, arg);
    }

    /** The Monitor worker's last act after an error: the second event is rejected in Fail. */
    method SignalError()
      requires session.pc.EndError? && !current.StateFail?
      modifies this, release
      ensures current == StateFail
    {
      var accepted, kept := Event(EventFail, None);
      accepted, kept := Event(EventUnhealthy, None);
    }

    /** A worker's last act after a call that failed. */
    method SignalFail()
      requires session.pc == FAILING && !current.StateFail?
      modifies this, release
      ensures current == StateFail
    {
      var accepted, kept := Event(EventFail, None);
    }

    /** doConfigure: ends in Idle, or in Fail at the first call that fails. */
    method DoConfigure(releaseName: string)
      requires current.StateConfigure? && session.pc.CfgSetup?
      modifies this, release, session, runtimePlugin
      ensures current.StateIdle? || current.StateFail?
      ensures current.StateIdle? ==>
                || session.world == old(session.world).(configured := true)
                || ConfiguredFrom(old(session.world), session.world)
      ensures current.StateFail? ==>
                || (session.world.primary == old(session.world).primary
                    && session.world.candidate == old(session.world).candidate
                    && session.world.split == old(session.world).split)
                || (old(session.world).candidate.Some?
                    && session.world.primary == Some(AsPrimary(old(session.world).candidate.value))
                    && session.world.candidate == old(session.world).candidate)
                || ConfiguredFrom(old(session.world), session.world)
    {
      var ok := session.CallSetup();
      if !ok { SignalFail(); return; }
      var status, failed := runtimePlugin.InitPrimary(session, releaseName, ByConfigure);
      if failed { SignalFail(); return; }
      if status.RuntimeDeploymentUpdate? {
        ok := session.CallWait(Primary);
        if !ok { SignalFail(); return; }
        ok := session.CallScale(0);
        if !ok { SignalFail(); return; }
        failed := runtimePlugin.RemoveCandidate(session, EventConfigured);
        if failed { SignalFail(); return; }
      }
      Signal(EventConfigured, None);
    }

    /** doDeploy: Monitor beside an existing primary, Idle after creating one, Fail otherwise. */
    method DoDeploy(releaseName: string)
      requires current.StateDeploy? && session.pc == Init(ByDeploy, InitLookup)
      modifies this, release, session, runtimePlugin
      ensures current.StateMonitor? || current.StateIdle? || current.StateFail?
      ensures !current.StateFail? ==> session.world.Runs(Primary) && session.world.split == Some(Split(100, 0))
      ensures current.StateMonitor? ==>
                && session.world.primary == old(session.world).primary
                && session.world.candidate == old(session.world).candidate
      ensures current.StateIdle? ==>
                && old(session.world).candidate.Some?
                && session.world.primary == Some(AsPrimary(old(session.world).candidate.value))
                && session.world.candidate == Some(Retired(old(session.world).candidate.value))
    {
      var status, failed := runtimePlugin.InitPrimary(session, releaseName, ByDeploy);
      if failed { SignalFail(); return; }
      var ok := session.CallWait(Primary);
      if !ok { SignalFail(); return; }
      ok := session.CallScale(0);
      if !ok { SignalFail(); return; }
      if status.RuntimeDeploymentUpdate? {
        failed := runtimePlugin.RemoveCandidate(session, EventComplete);
        if failed { SignalFail(); return; }
        Signal(EventComplete, None);
        return;
      }
      Signal(EventDeployed, None);
    }

    /** doMonitor: after a strategy error EventFail is followed by an EventUnhealthy that Fail rejects. */
    method DoMonitor() returns (ghost cause: Cause)
      requires Ready() && current.StateMonitor?
      requires session.pc == if session.cfg.hasTest then MonTest else MonExecute
      modifies this, release, session, strategyPlugin
      ensures Ready() && session.world == old(session.world)
      ensures match cause
              case TestFailed =>
                session.cfg.hasTest && current.StateRollback?
                && strategyPlugin.candidateTraffic == old(strategyPlugin.candidateTraffic)
              case StrategyError => current.StateFail?
              case Judged(checks) =>
                var x := Canary.Execute(session.cfg, old(strategyPlugin.candidateTraffic), checks);
                x.Stopped? && x.used == |checks| && current == AfterVerdict(x.status)
                && strategyPlugin.candidateTraffic == x.next
      ensures current.StateScale? ==>
                && 0 < |workers|
                && workers[|workers| - 1] == Worker(StateScale, ScaleTo(strategyPlugin.candidateTraffic))
    {
      if session.cfg.hasTest {
        var ok := session.CallTest();
        if !ok { Signal(EventUnhealthy, None); return TestFailed; }
      }
      var status, traffic, failed, checks := strategyPlugin.Execute(session);
      if failed {
        SignalError();
        return StrategyError;
      }
      cause := Judged(checks);
      match status
      case Success => Signal(EventHealthy, Some(traffic));
      case Complete => Signal(EventComplete, None);
      case Failed => Signal(EventUnhealthy, None);
    }

    /** doScale: Monitor with the traffic of the event in the splitter, or Fail. */
    method DoScale(traffic: int)
      requires current.StateScale? && session.pc == ScaleTo(traffic)
      modifies this, release, session
      ensures current.StateMonitor? || current.StateFail?
      ensures current.StateMonitor? ==>
                session.world == old(session.world).(split := Some(Split(100 - traffic, traffic)))
    {
      var ok := session.CallScale(traffic);
      if !ok { SignalFail(); return; }
      Signal(EventScaled, None);
    }

    /** doPromote: the running candidate becomes the primary, takes all traffic, and is scaled to zero. */
    method DoPromote()
      requires current.StatePromote? && session.pc.ProScale?
      modifies this, release, session, runtimePlugin
      ensures current.StateIdle? || current.StateFail?
      ensures current.StateIdle? ==> session.world.Runs(Primary) && session.world.split == Some(Split(100, 0))
      ensures current.StateIdle? && old(session.world).Runs(Candidate) ==>
                && session.world.primary == Some(AsPrimary(old(session.world).candidate.value))
                && session.world.candidate == Some(Retired(old(session.world).candidate.value))
      ensures current.StateIdle? && !old(session.world).Runs(Candidate) ==>
                session.world.primary == old(session.world).primary
    {
      var ok := session.CallScale(100);
      if !ok { SignalFail(); return; }
      var status, failed := runtimePlugin.PromoteCandidate(session);
      if failed { SignalFail(); return; }
      FinishPromotion();
    }

    /**
     The end of doPromote, once the primary is the one to keep: all traffic goes
     there and the candidate is retired.
     */
    method FinishPromotion()
      requires current.StatePromote? && session.pc.ProWait?
      modifies this, release, session, runtimePlugin
      ensures current.StateIdle? || current.StateFail?
      ensures session.world.primary == old(session.world).primary
      ensures current.StateIdle? ==>
                && session.world.Runs(Primary) && session.world.split == Some(Split(100, 0))
                && (old(session.world).candidate.Some? ==>
                      session.world.candidate == Some(Retired(old(session.world).candidate.value)))
    {
      var ok := session.CallWait(Primary);
      if !ok { SignalFail(); return; }
      ok := session.CallScale(0);
      if !ok { SignalFail(); return; }
      var failed := runtimePlugin.RemoveCandidate(session, EventPromoted);
      if failed { SignalFail(); return; }
      Signal(EventPromoted, None);
    }

    /** doRollback: all traffic to the unchanged primary, then the candidate is scaled to zero. */
    method DoRollback()
      requires current.StateRollback? && session.pc.RbkScale?
      modifies this, release, session, runtimePlugin
      ensures current.StateIdle? || current.StateFail?
      ensures session.world.primary == old(session.world).primary
      ensures session.world.candidate != old(session.world).candidate ==> session.world.split == Some(Split(100, 0))
      ensures current.StateIdle? ==>
                && session.world.split == Some(Split(100, 0))
                && (old(session.world).candidate.Some? ==>
                      session.world.candidate == Some(Retired(old(session.world).candidate.value)))
    {
      var ok := session.CallScale(0);
      if !ok { SignalFail(); return; }
      var failed := runtimePlugin.RemoveCandidate(session, EventComplete);
      if failed { SignalFail(); return; }
      Signal(EventComplete, None);
    }

    /** doDestroy: the primary's version is back under the candidate, and primary and splitter are gone. */
    method DoDestroy()
      requires current.StateDestroy? && session.pc == Restore(RestoreGet)
      modifies this, release, session, runtimePlugin
      ensures current.StateIdle? || current.StateFail?
      ensures current.StateIdle? ==>
                && session.world.Runs(Candidate) && session.world.primary.None?
                && session.world.split.None? && !session.world.configured
                && session.world.candidate ==
                   if old(session.world).primary.Some? then Some(AsOriginal(old(session.world).primary.value))
                   else old(session.world).candidate
    {
      var failed := runtimePlugin.RestoreOriginal(session);
      if failed { SignalFail(); return; }
      var ok := session.CallWait(Candidate);
      if !ok { SignalFail(); return; }
      ok := session.CallScale(100);
      if !ok { SignalFail(); return; }
      failed := runtimePlugin.RemovePrimary(session);
      if failed { SignalFail(); return; }
      ok := session.CallTeardown();
      if !ok { SignalFail(); return; }
      Signal(EventComplete, None);
    }
  }
}
