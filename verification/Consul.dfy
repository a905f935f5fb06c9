/** The Consul client's config-entry editor and the releaser that drives it, as objects. */
module Consul {
  import opened Prelude
  import opened ConfigEntries
  import opened ConfigRoundTrip

  /** A call succeeded as specified, or failed and either changed nothing or lost its reply. */
  predicate Outcome(before: Store, after: Store, ok: bool, expected: Option<Store>) {
    if ok then expected == Some(after) else after == before || expected == Some(after)
  }

  /** When no request fails, exactly the calls that the code refuses fail. */
  predicate Exact(reliable: bool, ok: bool, expected: Option<Store>) {
    reliable ==> (ok <==> expected.Some?)
  }

  // ---- What one edit leaves alone ----

  lemma KeptDefaults(a: Store, b: Store, name: string, x: string)
    requires x == name || x == CONTROLLER || x == UPSTREAMS
    requires b == a.(defaults := b.defaults)
    requires CreateDefaults(a.defaults, x) == Some(b.defaults) || DeleteDefaults(a.defaults, x) == Some(b.defaults)
    ensures OthersKept(a, b, name)
  {
  }

  lemma KeptResolver(a: Store, b: Store, svc: Service)
    requires b == a.(resolvers := b.resolvers)
    requires CreateResolver(a.resolvers, svc) == Some(b.resolvers)
          || DeleteResolver(a.resolvers, svc.name) == Some(b.resolvers)
    ensures OthersKept(a, b, svc.name)
  {
  }

  lemma KeptIntention(a: Store, b: Store, name: string)
    requires b == a.(intentions := b.intentions)
    requires CreateIntention(a.intentions, name) == b.intentions
          || DeleteIntention(a.intentions, name) == Some(b.intentions)
    ensures OthersKept(a, b, name)
  {
  }

  lemma UpstreamKeepsRoutes(a: map<string, Router>, b: map<string, Router>, svc: Service)
    requires CreateUpstream(a, svc) == b || DeleteUpstream(a, svc.name) == Some(b)
    ensures RoutesOf(b) == RoutesOf(a) + [svc.Upstream()] || RoutesOf(b) == RoutesWithout(RoutesOf(a), svc.name)
    ensures a - {UPSTREAMS} == b - {UPSTREAMS}
  {
  }

  lemma OwnRoutesDropped(routes: seq<Route>, svc: Service)
    ensures RoutesWithout(routes + [svc.Upstream()], svc.name) == RoutesWithout(routes, svc.name)
    ensures RoutesWithout(RoutesWithout(routes, svc.name), svc.name) == RoutesWithout(routes, svc.name)
  {
    assert (routes + [svc.Upstream()])[..|routes|] == routes;
    RoutesKept(routes, svc.name);
    RoutesKept(RoutesWithout(routes, svc.name), svc.name);
  }

  lemma KeptUpstream(a: Store, b: Store, svc: Service)
    requires b == a.(routers := b.routers)
    requires CreateUpstream(a.routers, svc) == b.routers || DeleteUpstream(a.routers, svc.name) == Some(b.routers)
    ensures OthersKept(a, b, svc.name)
  {
    OwnRoutesDropped(RoutesOf(a.routers), svc);
    UpstreamKeepsRoutes(a.routers, b.routers, svc);
  }

  // The same for a call whose request may fail or whose reply may be lost, after a prefix from s0 to a.

  lemma DefaultsCall(s0: Store, a: Store, b: Store, ok: bool, name: string, x: string)
    requires OthersKept(s0, a, name)
    requires x == name || x == CONTROLLER || x == UPSTREAMS
    requires Outcome(a, b, ok, WithDefaults(a, CreateDefaults(a.defaults, x)))
          || Outcome(a, b, ok, WithDefaults(a, DeleteDefaults(a.defaults, x)))
    ensures OthersKept(s0, b, name)
  {
    if a != b { KeptDefaults(a, b, name, x); }
  }

  lemma ResolverCall(s0: Store, a: Store, b: Store, ok: bool, svc: Service)
    requires OthersKept(s0, a, svc.name)
    requires Outcome(a, b, ok, WithResolvers(a, CreateResolver(a.resolvers, svc)))
          || Outcome(a, b, ok, WithResolvers(a, DeleteResolver(a.resolvers, svc.name)))
    ensures OthersKept(s0, b, svc.name)
  {
    if a != b { KeptResolver(a, b, svc); }
  }

  lemma UpstreamCall(s0: Store, a: Store, b: Store, ok: bool, svc: Service)
    requires OthersKept(s0, a, svc.name)
    requires Outcome(a, b, ok, Some(a.(routers := CreateUpstream(a.routers, svc))))
          || Outcome(a, b, ok, WithRouters(a, DeleteUpstream(a.routers, svc.name)))
    ensures OthersKept(s0, b, svc.name)
  {
    if a != b { KeptUpstream(a, b, svc); }
  }

  lemma IntentionCall(s0: Store, a: Store, b: Store, ok: bool, name: string)
    requires OthersKept(s0, a, name)
    requires Outcome(a, b, ok, Some(a.(intentions := CreateIntention(a.intentions, name))))
          || Outcome(a, b, ok, WithIntentions(a, DeleteIntention(a.intentions, name)))
    ensures OthersKept(s0, b, name)
  {
    if a != b { KeptIntention(a, b, name); }
  }

  class ConsulImpl {
    const reliable: bool  // no request fails
    var store: Store

    constructor (reliable: bool, store: Store)
      ensures this.reliable == reliable && this.store == store
    {
      this.reliable, this.store := reliable, store;
    }

    /** ConfigEntries().Set or Delete: a failed write may still have taken effect. */
    method Write(next: Store) returns (ok: bool)
      modifies this
      ensures Outcome(old(store), store, ok, Some(next)) && (reliable ==> ok)
    {
      ok := Reachable(reliable);
      var lost: bool := *;
      if ok || lost { store := next; }
    }

    method CreateServiceDefaults(name: string) returns (ok: bool)
      modifies this
      ensures Outcome(old(store), store, ok, WithDefaults(old(store), CreateDefaults(old(store).defaults, name)))
      ensures Exact(reliable, ok, WithDefaults(old(store), CreateDefaults(old(store).defaults, name)))
    {
      ok := Reachable(reliable);
      if !ok { return false; }
      if name in store.defaults {
        var entry := store.defaults[name];
        if entry.protocol == "grpc" || entry.protocol == "http2" { return false; }
        if entry.protocol == "http" { return true; }
        if entry.protocol == "tcp" {
          entry := entry.(protocol := "http");
          ok := Write(store.(defaults := store.defaults[name := entry]));
          return ok;
        }
      }
      ok := Write(store.(defaults := store.defaults[name := HTTP_DEFAULTS]));
    }

    /** Panics, modelled as a failure without effect, when the existing resolver has no Subsets map. */
    method CreateServiceResolver(svc: Service) returns (ok: bool)
      modifies this
      ensures Outcome(old(store), store, ok, WithResolvers(old(store), CreateResolver(old(store).resolvers, svc)))
      ensures Exact(reliable, ok, WithResolvers(old(store), CreateResolver(old(store).resolvers, svc)))
    {
      ok := Reachable(reliable);
      if !ok { return false; }
      var entry := Resolver(CandidateSubset(svc.name), Some(map[]), CREATED, "");
      if svc.name in store.resolvers { entry := store.resolvers[svc.name]; }
      if entry.subsets.None? { return false; }
      var subsets := entry.subsets.value;
      subsets := subsets[PrimarySubset(svc.name) := Subset(svc.primary, true)];
      subsets := subsets[CandidateSubset(svc.name) := Subset(svc.candidate, true)];
      assert subsets == entry.subsets.value + svc.Subsets();
      assert map[] + svc.Subsets() == svc.Subsets();
      entry := entry.(subsets := Some(subsets));
      ok := Write(store.(resolvers := store.resolvers[svc.name := entry]));
    }

    method CreateServiceSplitter(name: string, primaryTraffic: int, canaryTraffic: int) returns (ok: bool)
      modifies this
      ensures Outcome(old(store), store, ok,
                Some(old(store).(splitters :=
                                   CreateSplitter(old(store).splitters, name, primaryTraffic, canaryTraffic))))
      ensures ok ==> name in store.splitters && store.splitters[name].splits
                     == [Weight("crc-" + name + "-primary", primaryTraffic),
                         Weight("crc-" + name + "-candidate", canaryTraffic)]
      ensures ok ==> store.splitters[name].meta == map["external-source" := "consul-release-controller"]
      ensures reliable ==> ok
    {
      var splits := [Weight(PrimarySubset(name), primaryTraffic), Weight(CandidateSubset(name), canaryTraffic)];
      ok := Write(store.(splitters := store.splitters[name := Splitter(splits, CREATED)]));
    }

    method CreateUpstreamRouter(svc: Service) returns (ok: bool)
      modifies this
      ensures Outcome(old(store), store, ok, Some(old(store).(routers := CreateUpstream(old(store).routers, svc))))
      ensures reliable ==> ok
    {
      ok := Reachable(reliable);
      if !ok { return false; }
      var entry := Router([], CREATED, "");
      if UPSTREAMS in store.routers { entry := store.routers[UPSTREAMS]; }
      entry := entry.(routes := entry.routes + [svc.Upstream()]);
      ok := Write(store.(routers := store.routers[UPSTREAMS := entry]));
    }

    method CreateServiceIntention(name: string) returns (ok: bool)
      modifies this
      ensures Outcome(old(store), store, ok,
                Some(old(store).(intentions := CreateIntention(old(store).intentions, name))))
      ensures reliable ==> ok
    {
      ok := Reachable(reliable);
      if !ok { return false; }
      var entry := Intention([], CREATED, "");
      if name in store.intentions {
        entry := store.intentions[name];
        var i := 0;
        while i < |entry.sources|
          invariant 0 <= i <= |entry.sources|
          invariant forall k :: 0 <= k < i ==> entry.sources[k].name != CONTROLLER
          invariant store == old(store)
        {
          if entry.sources[i].name == CONTROLLER { return true; }
          i := i + 1;
        }
      }
      entry := entry.(sources := entry.sources + [ALLOW]);
      ok := Write(store.(intentions := store.intentions[name := entry]));
    }

    method DeleteServiceDefaults(name: string) returns (ok: bool)
      modifies this
      ensures Outcome(old(store), store, ok, WithDefaults(old(store), DeleteDefaults(old(store).defaults, name)))
      ensures name !in old(store).defaults ==> !ok && store == old(store)
      ensures Exact(reliable, ok, WithDefaults(old(store), DeleteDefaults(old(store).defaults, name)))
    {
      ok := Reachable(reliable);
      if !ok || name !in store.defaults { return false; }
      if !Ours(store.defaults[name].meta) { return true; }
      ok := Write(store.(defaults := store.defaults - {name}));
    }

    method DeleteServiceResolver(name: string) returns (ok: bool)
      modifies this
      ensures Outcome(old(store), store, ok, WithResolvers(old(store), DeleteResolver(old(store).resolvers, name)))
      ensures name !in old(store).resolvers ==> !ok && store == old(store)
      ensures Exact(reliable, ok, WithResolvers(old(store), DeleteResolver(old(store).resolvers, name)))
    {
      ok := Reachable(reliable);
      if !ok || name !in store.resolvers { return false; }
      var entry := store.resolvers[name];
      if !Ours(entry.meta) {
        if entry.subsets.Some? {
          var subsets := entry.subsets.value;
          subsets := subsets - {PrimarySubset(name)};
          subsets := subsets - {CandidateSubset(name)};
          assert subsets == entry.subsets.value - {PrimarySubset(name), CandidateSubset(name)};
          entry := entry.(subsets := Some(subsets));
        }
        assert entry.subsets.None? ==> store.resolvers[name := entry] == store.resolvers;
        ok := Write(store.(resolvers := store.resolvers[name := entry]));
        return ok;
      }
      ok := Write(store.(resolvers := store.resolvers - {name}));
    }

    method DeleteServiceSplitter(name: string) returns (ok: bool)
      modifies this
      ensures Outcome(old(store), store, ok, Some(old(store).(splitters := old(store).splitters - {name})))
      ensures reliable ==> ok
    {
      ok := Write(store.(splitters := store.splitters - {name}));
    }

    method DeleteUpstreamRouter(name: string) returns (ok: bool)
      modifies this
      ensures Outcome(old(store), store, ok, WithRouters(old(store), DeleteUpstream(old(store).routers, name)))
      ensures UPSTREAMS !in old(store).routers ==> !ok && store == old(store)
      ensures Exact(reliable, ok, WithRouters(old(store), DeleteUpstream(old(store).routers, name)))
    {
      ok := Reachable(reliable);
      if !ok || UPSTREAMS !in store.routers { return false; }
      var entry := store.routers[UPSTREAMS];
      var routes := [];
      var i := 0;
      while i < |entry.routes|
        invariant 0 <= i <= |entry.routes|
        invariant routes == RoutesWithout(entry.routes[..i], name)
        invariant store == old(store)
      {
        assert entry.routes[..i + 1][..i] == entry.routes[..i];
        if entry.routes[i].service != name { routes := routes + [entry.routes[i]]; }
        i := i + 1;
      }
      assert entry.routes[..i] == entry.routes;
      if |routes| == 0 {
        ok := Write(store.(routers := store.routers - {UPSTREAMS}));
        return ok;
      }
      entry := entry.(routes := routes);
      ok := Write(store.(routers := store.routers[UPSTREAMS := entry]));
    }

    method DeleteServiceIntention(name: string) returns (ok: bool)
      modifies this
      ensures Outcome(old(store), store, ok, WithIntentions(old(store), DeleteIntention(old(store).intentions, name)))
      ensures name !in old(store).intentions ==> !ok && store == old(store)
      ensures Exact(reliable, ok, WithIntentions(old(store), DeleteIntention(old(store).intentions, name)))
    {
      ok := Reachable(reliable);
      if !ok || name !in store.intentions { return false; }
      var entry := store.intentions[name];
      if !Ours(entry.meta) {
        var sources := [];
        var i := 0;
        while i < |entry.sources|
          invariant 0 <= i <= |entry.sources|
          invariant sources == SourcesWithout(entry.sources[..i])
          invariant store == old(store)
        {
          assert entry.sources[..i + 1][..i] == entry.sources[..i];
          if entry.sources[i].name != CONTROLLER { sources := sources + [entry.sources[i]]; }
          i := i + 1;
        }
        assert entry.sources[..i] == entry.sources;
        entry := entry.(sources := sources);
        ok := Write(store.(intentions := store.intentions[name := entry]));
        return ok;
      }
      ok := Write(store.(intentions := store.intentions - {name}));
    }

    /** Healthy iff both answers came, neither is empty, and every aggregated status is passing. */
    method CheckHealth(service: Option<seq<string>>, connect: Option<seq<string>>) returns (ok: bool)
      ensures ok <==>
                && service.Some? && service.value != []
                && (forall k :: 0 <= k < |service.value| ==> service.value[k] == "passing")
                && connect.Some? && connect.value != []
                && (forall k :: 0 <= k < |connect.value| ==> connect.value[k] == "passing")
    {
      if service.None? || |service.value| == 0 { return false; }
      for i := 0 to |service.value|
        invariant forall k :: 0 <= k < i ==> service.value[k] == "passing"
      {
        if service.value[i] != "passing" { return false; }
      }
      if connect.None? || |connect.value| == 0 { return false; }
      for i := 0 to |connect.value|
        invariant forall k :: 0 <= k < i ==> connect.value[k] == "passing"
      {
        if connect.value[i] != "passing" { return false; }
      }
      return true;
    }
  }

  class Releaser {
    const svc: Service
    const consul: ConsulImpl

    constructor (svc: Service, consul: ConsulImpl)
      ensures this.svc == svc && this.consul == consul
    {
      this.svc, this.consul := svc, consul;
    }

    /**
     The first part of Setup: the service and the controller's two shared services
     speak HTTP. `done` is the number of edits that took effect.
     */
    method SetupDefaults() returns (ok: bool, ghost done: nat)
      modifies consul
      ensures done <= 3 && SetupUpTo(old(consul.store), svc, done) == Some(consul.store)
      ensures ok ==> done == 3
      ensures Exact(consul.reliable, ok, SetupUpTo(old(consul.store), svc, 3))
      ensures OthersKept(old(consul.store), consul.store, svc.name)
    {
      ghost var s0 := consul.store;
      done := 0;
      SetupNext(s0, svc, 1);
      ok := consul.CreateServiceDefaults(svc.name);
      ghost var s1 := consul.store;
      DefaultsCall(s0, s0, s1, ok, svc.name, svc.name);
      if s1 != s0 || ok { done := 1; }
      if !ok { return; }
      SetupNext(s0, svc, 2);
      ok := consul.CreateServiceDefaults(CONTROLLER);
      ghost var s2 := consul.store;
      DefaultsCall(s0, s1, s2, ok, svc.name, CONTROLLER);
      if s2 != s1 || ok { done := 2; }
      if !ok { return; }
      SetupNext(s0, svc, 3);
      ok := consul.CreateServiceDefaults(UPSTREAMS);
      DefaultsCall(s0, s2, consul.store, ok, svc.name, UPSTREAMS);
      if consul.store != s2 || ok { done := 3; }
    }

    /**
     A Setup that succeeds leaves what SetUps.SetupIsWritten says of its store. One that
     fails has made a prefix of its edits, and leaves every other service's entries as
     they were.
     */
    method Setup() returns (ok: bool, ghost done: nat)
      modifies consul
      ensures done <= SETUP_EDITS && SetupUpTo(old(consul.store), svc, done) == Some(consul.store)
      ensures ok ==> ConfigEntries.Setup(old(consul.store), svc) == Some(consul.store)
      ensures Exact(consul.reliable, ok, ConfigEntries.Setup(old(consul.store), svc))
      ensures OthersKept(old(consul.store), consul.store, svc.name)
    {
      ghost var s0 := consul.store;
      SetupIsItsEdits(s0, svc);
      SetupDefaultsIsItsEdits(s0, svc);
      ok, done := SetupDefaults();
      ghost var s3 := consul.store;
      if !ok { return; }
      SetupNext(s0, svc, 4);
      ok := consul.CreateServiceResolver(svc);
      ghost var s4 := consul.store;
      ResolverCall(s0, s3, s4, ok, svc);
      if s4 != s3 || ok { done := 4; }
      if !ok { return; }
      SetupNext(s0, svc, 5);
      ok := consul.CreateUpstreamRouter(svc);
      ghost var s5 := consul.store;
      UpstreamCall(s0, s4, s5, ok, svc);
      if s5 != s4 || ok { done := 5; }
      if !ok { return; }
      SetupNext(s0, svc, 6);
      ok := consul.CreateServiceIntention(svc.name);
      IntentionCall(s0, s5, consul.store, ok, svc.name);
      if consul.store != s5 || ok { done := 6; }
    }

    method Scale(value: int) returns (ok: bool)
      modifies consul
      ensures Outcome(old(consul.store), consul.store, ok, Some(ConfigEntries.Scale(old(consul.store), svc, value)))
      ensures ok ==> svc.name in consul.store.splitters && consul.store.splitters[svc.name].splits
                     == [Weight("crc-" + svc.name + "-primary", 100 - value),
                         Weight("crc-" + svc.name + "-candidate", value)]
      ensures consul.reliable ==> ok
    {
      var primaryTraffic := 100 - value;
      var canaryTraffic := value;
      ok := consul.CreateServiceSplitter(svc.name, primaryTraffic, canaryTraffic);
    }

    /** A Destroy that fails has made a prefix of its edits, and leaves every other service's entries as they were. */
    method Destroy() returns (ok: bool, ghost done: nat)
      modifies consul
      ensures done <= DESTROY_EDITS && DestroyUpTo(old(consul.store), svc, done) == Some(consul.store)
      ensures ok ==> ConfigEntries.Destroy(old(consul.store), svc) == Some(consul.store)
      ensures Exact(consul.reliable, ok, ConfigEntries.Destroy(old(consul.store), svc))
      ensures OthersKept(old(consul.store), consul.store, svc.name)
    {
      ghost var s0 := consul.store;
      DestroyIsItsEdits(s0, svc);
      done := 0;
      DestroyNext(s0, svc, 1);
      ok := consul.DeleteServiceSplitter(svc.name);
      ghost var s1 := consul.store;
      if s1 != s0 || ok { done := 1; }
      if !ok { return; }
      DestroyNext(s0, svc, 2);
      ok := consul.DeleteUpstreamRouter(svc.name);
      ghost var s2 := consul.store;
      UpstreamCall(s0, s1, s2, ok, svc);
      if s2 != s1 || ok { done := 2; }
      if !ok { return; }
      DestroyNext(s0, svc, 3);
      ok := consul.DeleteServiceResolver(svc.name);
      ghost var s3 := consul.store;
      ResolverCall(s0, s2, s3, ok, svc);
      if s3 != s2 || ok { done := 3; }
      if !ok { return; }
      DestroyNext(s0, svc, 4);
      ok := consul.DeleteServiceIntention(svc.name);
      ghost var s4 := consul.store;
      IntentionCall(s0, s3, s4, ok, svc.name);
      if s4 != s3 || ok { done := 4; }
      if !ok { return; }
      DestroyNext(s0, svc, 5);
      ok := consul.DeleteServiceDefaults(svc.name);
      DefaultsCall(s0, s4, consul.store, ok, svc.name, svc.name);
      if consul.store != s4 || ok { done := 5; }
    }
  }
}
