/** What successful Setups and Scales leave in the config store, written out entry by entry. */
module SetUps {
  import opened Prelude
  import opened ConfigEntries
  import opened ConfigRoundTrip

  function PrimaryName(svc: Service): string { "crc-" + svc.name + "-primary" }

  function CandidateName(svc: Service): string { "crc-" + svc.name + "-candidate" }

  // ---- Resolver ----

  /** The user's own subsets of the service before. */
  function UserSubsets(st: Store, svc: Service): map<string, Subset> {
    if svc.name in st.resolvers && st.resolvers[svc.name].subsets.Some? then st.resolvers[svc.name].subsets.value
    else map[]
  }

  /** The two subsets have their own filters, and only passing instances. */
  predicate SubsetsSet(m: map<string, Subset>, svc: Service) {
    && PrimaryName(svc) in m && m[PrimaryName(svc)] == Subset(svc.primary, true)
    && CandidateName(svc) in m && m[CandidateName(svc)] == Subset(svc.candidate, true)
  }

  /** No other subset came, went or changed. */
  ghost predicate OthersAsBefore(m: map<string, Subset>, before: map<string, Subset>, svc: Service) {
    forall k :: k != PrimaryName(svc) && k != CandidateName(svc) ==>
      (k in m <==> k in before) && (k in m ==> m[k] == before[k])
  }

  ghost predicate ResolverSetUp(st: Store, r: Resolver, svc: Service) {
    && r.subsets.Some? && SubsetsSet(r.subsets.value, svc)
    && OthersAsBefore(r.subsets.value, UserSubsets(st, svc), svc)
    && if svc.name in st.resolvers then r == st.resolvers[svc.name].(subsets := r.subsets)
       else r.defaultSubset == CandidateName(svc) && r.meta == map["external-source" := "consul-release-controller"]
  }

  lemma ResolverCreated(st: Store, svc: Service)
    requires CreateResolver(st.resolvers, svc).Some?
    ensures var rs := CreateResolver(st.resolvers, svc).value;
            svc.name in rs && ResolverSetUp(st, rs[svc.name], svc)
  {
    SubsetsDiffer(svc.name);
    assert PrimaryName(svc) == PrimarySubset(svc.name) && CandidateName(svc) == CandidateSubset(svc.name);
    var r := CreateResolver(st.resolvers, svc).value[svc.name];
    assert r.subsets.value == UserSubsets(st, svc) + svc.Subsets();
  }

  // ---- Defaults ----

  /** The service speaks HTTP; a user's HTTP or TCP defaults keep everything else. */
  predicate DefaultsSetUp(st: Store, cur: Store, x: string) {
    && x in cur.defaults && cur.defaults[x].protocol == "http"
    && if x in st.defaults && st.defaults[x].protocol in {"http", "tcp"} then
         cur.defaults[x] == st.defaults[x].(protocol := "http")
       else
         cur.defaults[x].meta == map["external-source" := "consul-release-controller"]
  }

  lemma DefaultsCreated(ds: map<string, Defaults>, x: string)
    ensures HttpAt(ds, x).protocol == "http"
    ensures if x in ds && ds[x].protocol in {"http", "tcp"} then HttpAt(ds, x) == ds[x].(protocol := "http")
            else HttpAt(ds, x).meta == map["external-source" := "consul-release-controller"]
  {
  }

  // ---- Router and intention ----

  const BY_CONTROLLER: Meta := map["external-source" := "consul-release-controller"]

  /** The last route leads from the candidate's host to the candidate subset. */
  predicate EndsWithRoute(routes: seq<Route>, svc: Service) {
    && routes != []
    && routes[|routes| - 1]
       == Route(svc.name + "." + (if svc.namespace == "" then "default" else svc.namespace),
                svc.name, CandidateName(svc))
  }

  /** The last route leads from the candidate's host to the candidate subset; earlier routes and the rest are kept. */
  predicate RouteSetUp(st: Store, cur: Store, svc: Service) {
    && UPSTREAMS in cur.routers
    && var before := if UPSTREAMS in st.routers then st.routers[UPSTREAMS] else Router([], BY_CONTROLLER, "");
       var routes := cur.routers[UPSTREAMS].routes;
       && cur.routers[UPSTREAMS] == before.(routes := routes)
       && |routes| > |before.routes| && routes[..|before.routes|] == before.routes
       && EndsWithRoute(routes, svc)
  }

  lemma RouteCreated(rs: map<string, Router>, svc: Service, n: nat)
    requires n >= 1
    ensures var routes := RouterAfter(rs, svc, n)[UPSTREAMS].routes;
            var before := if UPSTREAMS in rs then rs[UPSTREAMS].routes else [];
            && |routes| > |before| && routes[..|before|] == before && routes[|routes| - 1] == svc.Upstream()
  {
    assert Copies(svc.Upstream(), n) == Copies(svc.Upstream(), n - 1) + [svc.Upstream()];
  }

  /** The controller is among the sources; unless it was there, it comes last and is allowed. The rest is kept. */
  predicate IntentionSetUp(st: Store, cur: Store, name: string) {
    && name in cur.intentions
    && var before := if name in st.intentions then st.intentions[name] else Intention([], BY_CONTROLLER, "");
       cur.intentions[name]
       == if exists k :: 0 <= k < |before.sources| && before.sources[k].name == "consul-release-controller" then before
          else before.(sources := before.sources + [Source("consul-release-controller", "allow")])
  }

  // ---- All of it ----

  ghost predicate SetUp(st: Store, cur: Store, svc: Service) {
    && svc.name in cur.resolvers && ResolverSetUp(st, cur.resolvers[svc.name], svc)
    && DefaultsSetUp(st, cur, svc.name)
    && DefaultsSetUp(st, cur, "consul-release-controller")
    && DefaultsSetUp(st, cur, "consul-release-controller-upstreams")
    && RouteSetUp(st, cur, svc) && IntentionSetUp(st, cur, svc.name)
  }

  lemma DefaultsWritten(st: Store, cur: Store, svc: Service)
    requires svc.Valid() && cur.defaults == DefaultsAfter(st.defaults, svc.name)
    ensures DefaultsSetUp(st, cur, svc.name)
    ensures DefaultsSetUp(st, cur, "consul-release-controller")
    ensures DefaultsSetUp(st, cur, "consul-release-controller-upstreams")
  {
    DefaultsCreated(st.defaults, svc.name);
    DefaultsCreated(st.defaults, CONTROLLER);
    DefaultsCreated(st.defaults, UPSTREAMS);
    assert CONTROLLER != UPSTREAMS;
  }

  lemma RouteWritten(st: Store, cur: Store, svc: Service, n: nat)
    requires n >= 1 && cur.routers == RouterAfter(st.routers, svc, n)
    ensures RouteSetUp(st, cur, svc)
  {
    RouteCreated(st.routers, svc, n);
  }

  lemma IntentionWritten(st: Store, cur: Store, svc: Service)
    requires cur.intentions == CreateIntention(st.intentions, svc.name)
    ensures IntentionSetUp(st, cur, svc.name)
  {
  }

  lemma ResolverWritten(st: Store, cur: Store, svc: Service)
    requires CreateResolver(st.resolvers, svc) == Some(cur.resolvers)
    ensures svc.name in cur.resolvers && ResolverSetUp(st, cur.resolvers[svc.name], svc)
  {
    ResolverCreated(st, svc);
  }

  /**
   Any Setups, at least one, and Scales that were not refused leave every entry set
   up: the primary subset with the primary's filter, the candidate subset with the
   candidate's, HTTP defaults, the route to the candidate, and the controller as an
   allowed source.
   */
  lemma SetupsAreWritten(st: Store, svc: Service, ops: seq<Op>)
    requires svc.Valid() && Setups(ops) >= 1 && After(st, svc, ops).Some?
    ensures SetUp(st, After(st, svc, ops).value, svc)
  {
    AfterTouches(st, svc, ops);
    var cur := After(st, svc, ops).value;
    DefaultsWritten(st, cur, svc);
    RouteWritten(st, cur, svc, Setups(ops));
    IntentionWritten(st, cur, svc);
    ResolverWritten(st, cur, svc);
  }

  lemma SetupIsWritten(st: Store, svc: Service)
    requires svc.Valid() && Setup(st, svc).Some?
    ensures SetUp(st, Setup(st, svc).value, svc)
  {
    var ops := [OpSetup];
    assert ops[..0] == [];
    assert After(st, svc, []) == Some(st) && Setups([]) == 0;
    assert After(st, svc, ops) == Setup(st, svc) && Setups(ops) == 1;
    SetupsAreWritten(st, svc, ops);
  }

  /** The weight of the subsets with a filter. */
  function WeightOf(cur: Store, svc: Service, filter: string): int
    requires svc.name in cur.splitters && svc.name in cur.resolvers && cur.resolvers[svc.name].subsets.Some?
  {
    WeightIn(cur.splitters[svc.name].splits, cur.resolvers[svc.name].subsets.value, filter)
  }

  function WeightIn(splits: seq<Weight>, m: map<string, Subset>, filter: string): int {
    if splits == [] then 0
    else
      (if splits[0].subset in m && m[splits[0].subset].filter == filter then splits[0].weight else 0)
      + WeightIn(splits[1..], m, filter)
  }

  lemma WeightOfTwo(a: Weight, b: Weight, m: map<string, Subset>, filter: string)
    ensures WeightIn([a, b], m, filter)
            == (if a.subset in m && m[a.subset].filter == filter then a.weight else 0)
               + (if b.subset in m && m[b.subset].filter == filter then b.weight else 0)
  {
    var all, last := [a, b], [b];
    assert all[1..] == last && last[1..] == [];
    assert WeightIn(last, m, filter)
        == (if b.subset in m && m[b.subset].filter == filter then b.weight else 0) + WeightIn([], m, filter);
    assert WeightIn(all, m, filter)
        == (if a.subset in m && m[a.subset].filter == filter then a.weight else 0) + WeightIn(last, m, filter);
  }

  /** After a Scale of a service that is set up, the instances behind each filter get its share of the traffic. */
  lemma ScaleReachesFilters(st: Store, svc: Service, ops: seq<Op>, v: int)
    requires svc.Valid() && Setups(ops) >= 1 && After(st, svc, ops).Some? && svc.primary != svc.candidate
    ensures var cur := Scale(After(st, svc, ops).value, svc, v);
            && svc.name in cur.splitters && svc.name in cur.resolvers && cur.resolvers[svc.name].subsets.Some?
            && cur.splitters[svc.name].splits == [Weight(PrimaryName(svc), 100 - v), Weight(CandidateName(svc), v)]
            && WeightOf(cur, svc, svc.candidate) == v && WeightOf(cur, svc, svc.primary) == 100 - v
  {
    SetupsAreWritten(st, svc, ops);
    SubsetsDiffer(svc.name);
    var cur := Scale(After(st, svc, ops).value, svc, v);
    assert PrimaryName(svc) == PrimarySubset(svc.name) && CandidateName(svc) == CandidateSubset(svc.name);
    var m := cur.resolvers[svc.name].subsets.value;
    var a, b := Weight(PrimaryName(svc), 100 - v), Weight(CandidateName(svc), v);
    assert cur.splitters[svc.name].splits == [a, b];
    WeightOfTwo(a, b, m, svc.candidate);
    WeightOfTwo(a, b, m, svc.primary);
  }

  // ---- What is refused ----

  predicate Refused(ds: map<string, Defaults>, x: string) {
    x in ds && (ds[x].protocol == "grpc" || ds[x].protocol == "http2")
  }

  /** A Setup is refused exactly for gRPC or HTTP/2 defaults of a service, or a resolver without a Subsets map. */
  lemma SetupAcceptedIff(st: Store, svc: Service)
    requires svc.Valid()
    ensures Setup(st, svc).Some?
            <==> && !Refused(st.defaults, svc.name)
                 && !Refused(st.defaults, "consul-release-controller")
                 && !Refused(st.defaults, "consul-release-controller-upstreams")
                 && (svc.name in st.resolvers ==> st.resolvers[svc.name].subsets.Some?)
  {
    assert CONTROLLER != UPSTREAMS;
    if !Refused(st.defaults, svc.name) {
      OneDefaults(st.defaults, svc.name);
      var a := CreateDefaults(st.defaults, svc.name).value;
      if !Refused(a, CONTROLLER) { OneDefaults(a, CONTROLLER); }
    }
  }

  /** A Destroy is refused exactly when one of the entries it deletes or changes is not there. */
  lemma DestroyAcceptedIff(st: Store, svc: Service)
    ensures Destroy(st, svc).Some?
            <==> && svc.name in st.defaults && svc.name in st.resolvers && svc.name in st.intentions
                 && "consul-release-controller-upstreams" in st.routers
  {
  }

  // ---- The order of the edits ----

  /** The parts of the store a Setup has not come to. */
  predicate Untouched(st: Store, cur: Store, k: nat) {
    && cur.splitters == st.splitters
    && (k < 4 ==> cur.resolvers == st.resolvers)
    && (k < 5 ==> cur.routers == st.routers)
    && (k < 6 ==> cur.intentions == st.intentions)
  }

  lemma {:induction false} SetupLeaves(st: Store, svc: Service, k: nat)
    requires SetupUpTo(st, svc, k).Some?
    ensures Untouched(st, SetupUpTo(st, svc, k).value, k)
    ensures k >= 3 ==>
              && SetupUpTo(st, svc, 3).Some?
              && SetupUpTo(st, svc, k).value.defaults == SetupUpTo(st, svc, 3).value.defaults
  {
    if k > 0 {
      SetupNext(st, svc, k);
      SetupLeaves(st, svc, k - 1);
    }
  }

  lemma AllHttp(st: Store, svc: Service)
    requires SetupUpTo(st, svc, 3).Some? && svc.Valid()
    ensures var cur := SetupUpTo(st, svc, 3).value;
            && DefaultsSetUp(st, cur, svc.name) && DefaultsSetUp(st, cur, "consul-release-controller")
            && DefaultsSetUp(st, cur, "consul-release-controller-upstreams")
  {
    SetupDefaultsIsItsEdits(st, svc);
    DefaultsClosed(st.defaults, svc.name);
    DefaultsCreated(st.defaults, svc.name);
    DefaultsCreated(st.defaults, CONTROLLER);
    DefaultsCreated(st.defaults, UPSTREAMS);
    assert CONTROLLER != UPSTREAMS;
  }

  /** Up to any edit of a Setup, the resolver, route and intention are untouched until all three defaults are HTTP. */
  lemma SetupOrder(st: Store, svc: Service, k: nat)
    requires SetupUpTo(st, svc, k).Some? && svc.Valid()
    ensures var cur := SetupUpTo(st, svc, k).value;
            && Untouched(st, cur, k)
            && (k >= 3 ==> DefaultsSetUp(st, cur, svc.name) && DefaultsSetUp(st, cur, "consul-release-controller")
                           && DefaultsSetUp(st, cur, "consul-release-controller-upstreams"))
  {
    SetupLeaves(st, svc, k);
    if k >= 3 { AllHttp(st, svc); }
  }

  /** Up to any edit of a Destroy, the subsets are there until the splitter and the route that name them are gone. */
  lemma DestroyOrder(st: Store, svc: Service, k: nat)
    requires k <= DESTROY_EDITS && DestroyUpTo(st, svc, k).Some?
    ensures var cur := DestroyUpTo(st, svc, k).value;
            && (k >= 1 ==> svc.name !in cur.splitters)
            && (k < 2 ==> cur.routers == st.routers)
            && (k < 3 ==> cur.resolvers == st.resolvers)
            && (k < 4 ==> cur.intentions == st.intentions)
            && (k < 5 ==> cur.defaults == st.defaults)
  {
    DestroyNext(st, svc, 1);
    if k > 1 { DestroyNext(st, svc, 2); }
    if k > 2 { DestroyNext(st, svc, 3); }
    if k > 3 { DestroyNext(st, svc, 4); }
    if k > 4 { DestroyNext(st, svc, 5); }
  }
}
