/** Admission of a deployment: which release decides it, and what is done to that release. */
module Admission {
  import opened Prelude
  import opened Fsm
  import Cluster

  const LABEL := Cluster.VERSION_LABEL

  datatype Release = Release(name: string, selector: string, namespace: string, history: seq<State>)

  datatype Response = AdmissionError | AdmissionGranted | AdmissionRejected

  datatype PluginState = PluginState(candidate: string, primary: string)

  /** Effects on a release, in the order they happened. */
  datatype Action =
    | Persisted(release: string, candidate: string)  // the runtime plugin's state was written
    | Replaced(release: string)                      // the cached machine was dropped and rebuilt
    | Fired(release: string, from: State)            // Deploy was accepted by that machine

  /** The deployment carries its own version as the controller's label. */
  predicate Marked(labels: map<string, string>, version: string) {
    LABEL in labels && labels[LABEL] != "" && labels[LABEL] == version
  }

  /** The selector is matched to the end of the name. */
  function Anchored(selector: string): string {
    if |selector| > 0 && selector[|selector| - 1] == '$' then selector else selector + "$"
  }

  lemma AnchoredAtEnd(selector: string)
    ensures var a := Anchored(selector);
            && a != [] && a[|a| - 1] == '$'
            && (a == selector || (a == selector + "$" && (selector == [] || selector[|selector| - 1] != '$')))
  {
  }

  /** Regular expressions: which compile, and what they match. */
  datatype Regex = Regex(compiles: string -> bool, matches: (string, string) -> bool)

  predicate Applies(re: Regex, r: Release, name: string, namespace: string) {
    re.compiles(Anchored(r.selector)) && re.matches(Anchored(r.selector), name) && r.namespace == namespace
  }

  /** A release applies by its selector, with a "$" at the end, and its namespace. */
  lemma AppliesIs(re: Regex, r: Release, name: string, namespace: string)
    ensures var a := if |r.selector| > 0 && r.selector[|r.selector| - 1] == '$' then r.selector else r.selector + "$";
            Applies(re, r, name, namespace) <==> r.namespace == namespace && re.compiles(a) && re.matches(a, name)
  {
  }

  /** The release that decides: the first that applies. */
  predicate Decides(re: Regex, rels: seq<Release>, i: int, name: string, namespace: string) {
    && 0 <= i < |rels| && Applies(re, rels[i], name, namespace)
    && forall k :: 0 <= k < i ==> !Applies(re, rels[k], name, namespace)
  }

  lemma DecidesOnce(re: Regex, rels: seq<Release>, i: int, j: int, name: string, namespace: string)
    requires Decides(re, rels, i, name, namespace) && Decides(re, rels, j, name, namespace)
    ensures i == j
  {
    assert !(i < j) && !(j < i);
  }

  class Provider {
    const reliable: bool                        // no call to the provider or the store fails
    var machines: map<string, State>            // cached state machines, by release
    var pluginStates: map<string, PluginState>  // the runtime plugins' stored state
    var log: seq<Action>

    constructor (reliable: bool, machines: map<string, State>, pluginStates: map<string, PluginState>)
      ensures this.reliable == reliable && this.machines == machines && this.pluginStates == pluginStates && log == []
    {
      this.reliable, this.machines, this.pluginStates, log := reliable, machines, pluginStates, [];
    }

    /** The state a machine for this release is or starts in. */
    function StateOf(r: Release): State
      reads this
    {
      if r.name in machines then machines[r.name] else Current(r.history)
    }

    method GetStateMachine(r: Release) returns (ok: bool, state: State)
      modifies `machines
      ensures state == old(StateOf(r)) && (reliable ==> ok)
      ensures machines == if ok then old(machines)[r.name := state] else old(machines)
    {
      state := StateOf(r);
      ok := Reachable(reliable);
      if ok { machines := machines[r.name := state]; }
    }

    /** Deploy on the cached machine: an error unless the transition table accepts it. */
    method Deploy(r: Release) returns (ok: bool)
      requires r.name in machines
      modifies `machines, `log
      ensures ok <==> Target(old(machines)[r.name], EventDeploy).Some?
      ensures ok ==>
                && machines == old(machines)[r.name := StateDeploy]
                && log == old(log) + [Fired(r.name, old(machines)[r.name])]
      ensures !ok ==> machines == old(machines) && log == old(log)
    {
      var target := Target(machines[r.name], EventDeploy);
      if target.None? { return false; }
      log := log + [Fired(r.name, machines[r.name])];
      machines := machines[r.name := target.value];
      return true;
    }
  }

  /** A machine Deploy can start from. */
  predicate Ready(s: State) {
    s.StateIdle? || s.StateFail?
  }

  class AdmissionImpl {
    const provider: Provider

    constructor (provider: Provider)
      ensures this.provider == provider
    {
      this.provider := provider;
    }

    /** Hand the deployment to an idle release: persist its name, rebuild the machine, fire Deploy. */
    method StartRollout(r: Release, name: string) returns (response: Response)
      modifies provider
      ensures response.AdmissionGranted? || response.AdmissionError?
      ensures response.AdmissionGranted? ==>
                && Ready(Current(r.history))
                && provider.log == old(provider.log)
                   + [Persisted(r.name, name), Replaced(r.name), Fired(r.name, Current(r.history))]
                && r.name in provider.pluginStates && provider.pluginStates[r.name].candidate == name
                && r.name in provider.machines && provider.machines[r.name] == StateDeploy
      ensures response.AdmissionError? ==>
                || provider.log == old(provider.log)
                || provider.log == old(provider.log) + [Persisted(r.name, name)]
                || provider.log == old(provider.log) + [Persisted(r.name, name), Replaced(r.name)]
      ensures provider.reliable ==> (response.AdmissionGranted? <==> Ready(Current(r.history)))
      ensures provider.reliable && r.name in old(provider.pluginStates) && response.AdmissionGranted? ==>
                provider.pluginStates[r.name] == old(provider.pluginStates)[r.name].(candidate := name)
      ensures provider.machines - {r.name} == old(provider.machines) - {r.name}
      ensures provider.pluginStates - {r.name} == old(provider.pluginStates) - {r.name}
    {
      ghost var log0 := provider.log;
      // an unreadable plugin state counts as empty, which forgets the primary's name
      var ps := PluginState("", "");
      var ok := Reachable(provider.reliable);
      if ok && r.name in provider.pluginStates { ps := provider.pluginStates[r.name]; }
      ps := ps.(candidate := name);
      ok := Reachable(provider.reliable);
      if !ok { return AdmissionError; }
      provider.pluginStates := provider.pluginStates[r.name := ps];
      provider.log := provider.log + [Persisted(r.name, name)];

      provider.machines := provider.machines - {r.name};
      var state: State;
      ok, state := provider.GetStateMachine(r);
      if !ok { return AdmissionError; }
      provider.log := provider.log + [Replaced(r.name)];
      assert provider.log == log0 + [Persisted(r.name, name), Replaced(r.name)];

      ok := provider.Deploy(r);
      if !ok { return AdmissionError; }
      return AdmissionGranted;
    }

    /**
     Check. A deployment the controller marked is granted; otherwise the first
     release that applies decides by its machine's state, and none grants it.
     */
    method Check(re: Regex, name: string, namespace: string, labels: map<string, string>, version: string,
                 listed: Option<seq<Release>>) returns (response: Response)
      modifies provider
      ensures Marked(labels, version) ==> response.AdmissionGranted? && provider.log == old(provider.log)
      ensures "consul-release-controller-version" in labels && version != ""
              && labels["consul-release-controller-version"] == version ==>
                response.AdmissionGranted? && provider.log == old(provider.log)
      ensures Marked(labels, version)
              <==> "consul-release-controller-version" in labels && version != ""
                   && labels["consul-release-controller-version"] == version
      ensures provider.log != old(provider.log) ==>
                && listed.Some?
                && exists k :: && 0 <= k < |listed.value| && listed.value[k].namespace == namespace
                               && Applies(re, listed.value[k], name, namespace)
      ensures !Marked(labels, version) && listed.None? ==> response.AdmissionError? && provider.log == old(provider.log)
      ensures !Marked(labels, version) && listed.Some?
              && (forall k :: 0 <= k < |listed.value| ==> !Applies(re, listed.value[k], name, namespace)) ==>
                response.AdmissionGranted? && provider.log == old(provider.log)
      ensures forall i :: !Marked(labels, version) && listed.Some? && Decides(re, listed.value, i, name, namespace) ==>
                var r := listed.value[i];
                var state := old(provider.StateOf(r));
                && (response.AdmissionRejected? ==> state !in {StateIdle, StateFail, StateDestroy})
                && (provider.reliable ==>
                      (response.AdmissionRejected? <==> state !in {StateIdle, StateFail, StateDestroy}))
                && (provider.reliable && state.StateDestroy? ==> response.AdmissionGranted?)
                && (!Ready(state) ==> provider.log == old(provider.log))
                && (response.AdmissionGranted? && Ready(state) ==>
                      && Ready(Current(r.history))
                      && provider.log == old(provider.log)
                         + [Persisted(r.name, name), Replaced(r.name), Fired(r.name, Current(r.history))])
                && (provider.reliable && Ready(state) ==> (response.AdmissionGranted? <==> Ready(Current(r.history))))
    {
      if LABEL in labels && labels[LABEL] != "" && labels[LABEL] == version {
        return AdmissionGranted;
      }
      if listed.None? { return AdmissionError; }
      var rels := listed.value;
      var i := 0;
      while i < |rels|
        invariant 0 <= i <= |rels|
        invariant forall k :: 0 <= k < i ==> !Applies(re, rels[k], name, namespace)
        invariant provider.machines == old(provider.machines) && provider.log == old(provider.log)
      {
        var r := rels[i];
        var selector := Anchored(r.selector);
        if re.compiles(selector) {
          if re.matches(selector, name) && r.namespace == namespace {
            assert Decides(re, rels, i, name, namespace);
            forall j | Decides(re, rels, j, name, namespace) ensures j == i {
              DecidesOnce(re, rels, i, j, name, namespace);
            }
            var ok, state := provider.GetStateMachine(r);
            if !ok { return AdmissionError; }
            if state.StateDestroy? { return AdmissionGranted; }
            if state.StateIdle? || state.StateFail? {
              response := StartRollout(r, name);
              return response;
            }
            return AdmissionRejected;
          }
        }
        i := i + 1;
      }
      return AdmissionGranted;
    }
  }
}
