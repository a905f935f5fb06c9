/** The runtime plugin: the five operations on the two deployments of a release. */
module Runtimes {
  import opened Prelude
  import opened Cluster
  import opened Fsm
  import opened Workers
  import opened Sessions

  datatype Status =
    | RuntimeDeploymentUpdate | RuntimeDeploymentNoAction | RuntimeDeploymentNotFound | RuntimeDeploymentInternalError

  datatype Names = Names(candidate: string, primary: string)

  /** A deployment with the spec, instances and meta of `c`, and the ownership label. */
  predicate OwnedCopy(c: Deployment, p: Option<Deployment>) {
    && p.Some? && p.value.spec == c.spec && p.value.instances == c.instances
    && p.value.meta == c.meta["consul-release-controller-version" := "1"]
  }

  /** Deployment `d` with no instances and its own version as ownership label. */
  predicate RetiredCopy(d: Deployment, c: Option<Deployment>) {
    && c.Some? && c.value.spec == d.spec && c.value.version == d.version && c.value.instances == 0
    && c.value.meta == d.meta["consul-release-controller-version" := d.version]
  }

  class RuntimePlugin {
    var state: Names         // PluginState
    var stored: Names        // and what the plugin state store holds
    const storeWorks: bool   // no write to that store fails

    constructor (stored: Names, storeWorks: bool)
      ensures state == this.stored == stored && this.storeWorks == storeWorks
    {
      this.state, this.stored, this.storeWorks := stored, stored, storeWorks;
    }

    /** saveState: a failed write is only logged. */
    method SaveState()
      modifies `stored
      ensures stored == state || (!storeWorks && stored == old(stored))
    {
      var ok: bool := *;
      if ok || storeWorks { stored := state; }
    }

    /**
     Create the primary from the deployment the selector finds, unless the lookup
     finds a primary. Any failed lookup counts as no primary.
     */
    method InitPrimary(s: Session, releaseName: string, ghost caller: Caller) returns (status: Status, failed: bool)
      requires s.pc == Init(caller, InitLookup)
      modifies this, s
      ensures s.pc == if failed then FAILING else AfterInit(caller, status.RuntimeDeploymentUpdate?)
      ensures failed <==> status.RuntimeDeploymentInternalError?
      ensures !status.RuntimeDeploymentNotFound?
      ensures status.RuntimeDeploymentNoAction? ==> s.world == old(s.world)
      ensures status.RuntimeDeploymentUpdate? ==>
                && old(s.world).candidate.Some? && s.world.Runs(Primary)
                && s.world == old(s.world).(primary := Some(AsPrimary(old(s.world).candidate.value)))
                && state.candidate == s.candidateName
                && OwnedCopy(old(s.world).candidate.value, s.world.primary)
      ensures failed ==>
                && old(s.world).candidate.Some?
                && (s.world == old(s.world)
                    || s.world == old(s.world).(primary := Some(AsPrimary(old(s.world).candidate.value))))
      ensures state.primary == releaseName + "-primary" && s.traffic == old(s.traffic)
      ensures state.candidate == old(state.candidate) || state.candidate == s.candidateName
      ensures storeWorks ==> stored == state
    {
      state := state.(primary := releaseName + "-primary");
      var found := s.Call(Get(Primary));
      if found.Found? {
        SaveState();
        return RuntimeDeploymentNoAction, false;
      }
      var selected := s.Call(Select);
      if !selected.Found? {
        SaveState();
        return RuntimeDeploymentNoAction, false;
      }
      var candidate := selected.deployment;
      state := state.(candidate := s.candidateName);
      var meta := candidate.meta;
      meta := meta[VERSION_LABEL := "1"];
      var ok := s.CallClone(Candidate, Primary, candidate.instances, meta);
      if !ok {
        SaveState();
        return RuntimeDeploymentInternalError, true;
      }
      ok := s.CallReady(Primary);
      SaveState();
      if !ok { return RuntimeDeploymentInternalError, true; }
      return RuntimeDeploymentUpdate, false;
    }

    /** Replace the primary by a clone of the healthy candidate. */
    method PromoteCandidate(s: Session) returns (status: Status, failed: bool)
      requires s.pc == Promote(PromoteHealth)
      modifies this, s
      ensures s.pc == if failed then FAILING else ProWait
      ensures failed <==> status.RuntimeDeploymentInternalError?
      ensures !status.RuntimeDeploymentNoAction?
      ensures status.RuntimeDeploymentNotFound? ==> s.world == old(s.world) && !s.world.Runs(Candidate)
      ensures status.RuntimeDeploymentUpdate? ==>
                && old(s.world).Runs(Candidate) && old(s.world).primary.Some?
                && s.world == old(s.world).(primary := Some(AsPrimary(old(s.world).candidate.value)))
                && OwnedCopy(old(s.world).candidate.value, s.world.primary)
      ensures failed ==>
                || s.world == old(s.world)
                || (old(s.world).Runs(Candidate) && s.world == old(s.world).(primary := None))
                || (old(s.world).Runs(Candidate)
                    && s.world == old(s.world).(primary := Some(AsPrimary(old(s.world).candidate.value))))
      ensures state == old(state) && s.traffic == old(s.traffic)
      ensures storeWorks ==> stored == state
    {
      var r := s.Call(Healthy(Candidate));
      if !r.Found? {
        SaveState();
        if r.NotFound? { return RuntimeDeploymentNotFound, false; }
        return RuntimeDeploymentInternalError, true;
      }
      var candidate := r.deployment;
      r := s.Call(Delete(Primary));
      if !r.Done? {
        SaveState();
        return RuntimeDeploymentInternalError, true;
      }
      var meta := candidate.meta;
      meta := meta[VERSION_LABEL := "1"];
      var ok := s.CallClone(Candidate, Primary, candidate.instances, meta);
      if !ok {
        SaveState();
        return RuntimeDeploymentInternalError, true;
      }
      ok := s.CallReady(Primary);
      SaveState();
      if !ok { return RuntimeDeploymentInternalError, true; }
      return RuntimeDeploymentUpdate, false;
    }

    /** Scale the candidate to zero and label it with its own version. */
    method RemoveCandidate(s: Session, ghost success: Event) returns (failed: bool)
      requires s.pc == Remove(success, RemoveGet)
      modifies this, s
      ensures s.pc == if failed then FAILING else End(success, None)
      ensures s.world == old(s.world)
              || (old(s.world).candidate.Some?
                  && s.world == old(s.world).(candidate := Some(Retired(old(s.world).candidate.value))))
      ensures !failed && old(s.world).candidate.Some? ==>
                && s.world.candidate == Some(Retired(old(s.world).candidate.value))
                && RetiredCopy(old(s.world).candidate.value, s.world.candidate)
      ensures state == old(state) && s.traffic == old(s.traffic)
      ensures storeWorks ==> stored == state
    {
      var r := s.Call(Get(Candidate));
      if !r.Found? {
        SaveState();
        return !r.NotFound?;
      }
      var d := r.deployment;
      d := d.(instances := 0);
      d := d.(meta := d.meta[VERSION_LABEL := d.version]);
      r := s.Call(Update(Candidate, d.instances, d.meta));
      SaveState();
      return !r.Done?;
    }

    /** Recreate the candidate from the primary, if there is one. */
    method RestoreOriginal(s: Session) returns (failed: bool)
      requires s.pc == Restore(RestoreGet)
      modifies this, s
      ensures s.pc == if failed then FAILING else DstWait
      ensures s.world.primary == old(s.world).primary && s.world.split == old(s.world).split
      ensures !failed ==>
                if old(s.world).primary.None? then s.world == old(s.world)
                else s.world.candidate == Some(AsOriginal(old(s.world).primary.value)) && s.world.Runs(Candidate)
      ensures failed ==>
                || s.world.candidate == old(s.world).candidate
                || (old(s.world).primary.Some?
                    && (s.world.candidate.None? || s.world.candidate == Some(AsOriginal(old(s.world).primary.value))))
      ensures state == old(state) && s.traffic == old(s.traffic)
      ensures storeWorks ==> stored == state
    {
      var r := s.Call(Get(Primary));
      if !r.Found? {
        SaveState();
        return !r.NotFound?;
      }
      var primary := r.deployment;
      r := s.Call(Delete(Candidate));
      if !r.Done? && !r.NotFound? {
        SaveState();
        return true;
      }
      var meta := primary.meta;
      meta := meta - {VERSION_LABEL};
      var ok := s.CallClone(Primary, Candidate, primary.instances, meta);
      if !ok {
        SaveState();
        return true;
      }
      ok := s.CallReady(Candidate);
      SaveState();
      return !ok;
    }

    /** Delete the primary; one that is not there is fine. */
    method RemovePrimary(s: Session) returns (failed: bool)
      requires s.pc == DstRemove
      modifies this, s
      ensures s.pc == if failed then FAILING else DstConfig
      ensures s.world == old(s.world) || s.world == old(s.world).(primary := None)
      ensures !failed ==> s.world == old(s.world).(primary := None)
      ensures state == old(state) && s.traffic == old(s.traffic)
      ensures storeWorks ==> stored == state
    {
      var r := s.Call(Delete(Primary));
      SaveState();
      return !r.Done? && !r.NotFound?;
    }
  }
}
