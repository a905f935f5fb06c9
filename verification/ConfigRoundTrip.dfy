/** What Setups, Scales and a final Destroy of one release leave of the config store. */
module ConfigRoundTrip {
  import opened Prelude
  import opened ConfigEntries
  import opened UpstreamRouters

  datatype Op = OpSetup | OpScale(value: int)

  /** The store after the operations, None when the code refuses one of them. */
  function After(st: Store, svc: Service, ops: seq<Op>): Option<Store> {
    if ops == [] then Some(st)
    else
      var before := After(st, svc, ops[..|ops| - 1]);
      if before.None? then None else One(before.value, svc, ops[|ops| - 1])
  }

  function One(st: Store, svc: Service, op: Op): Option<Store> {
    match op
    case OpSetup => Setup(st, svc)
    case OpScale(v) => Some(Scale(st, svc, v))
  }

  function Setups(ops: seq<Op>): nat {
    if ops == [] then 0 else Setups(ops[..|ops| - 1]) + if ops[|ops| - 1].OpSetup? then 1 else 0
  }

  // ---- Each kind of entry after n >= 1 Setups ----

  /** The defaults of a service once they are HTTP. */
  function HttpAt(ds: map<string, Defaults>, name: string): Defaults {
    if name !in ds then HTTP_DEFAULTS
    else if ds[name].protocol == "http" then ds[name]
    else if ds[name].protocol == "tcp" then ds[name].(protocol := "http")
    else HTTP_DEFAULTS
  }

  function DefaultsAfter(ds: map<string, Defaults>, name: string): map<string, Defaults> {
    ds[name := HttpAt(ds, name)][CONTROLLER := HttpAt(ds, CONTROLLER)][UPSTREAMS := HttpAt(ds, UPSTREAMS)]
  }

  function Copies(r: Route, n: nat): (rs: seq<Route>)
    ensures |rs| == n
  {
    if n == 0 then [] else Copies(r, n - 1) + [r]
  }

  function RouterAfter(rs: map<string, Router>, svc: Service, n: nat): map<string, Router> {
    var r := if UPSTREAMS in rs then rs[UPSTREAMS] else Router([], CREATED, "");
    rs[UPSTREAMS := r.(routes := r.routes + Copies(svc.Upstream(), n))]
  }

  /** `cur` is `st` after n Setups and any Scales in between. */
  predicate Touched(st: Store, cur: Store, svc: Service, n: nat) {
    && cur.splitters - {svc.name} == st.splitters - {svc.name}
    && if n == 0 then
         cur == st.(splitters := cur.splitters)
       else
         && SetupDefaults(st.defaults, svc.name).Some? && cur.defaults == DefaultsAfter(st.defaults, svc.name)
         && CreateResolver(st.resolvers, svc) == Some(cur.resolvers)
         && cur.routers == RouterAfter(st.routers, svc, n)
         && cur.intentions == CreateIntention(st.intentions, svc.name)
  }

  lemma OneDefaults(ds: map<string, Defaults>, name: string)
    requires CreateDefaults(ds, name).Some?
    ensures CreateDefaults(ds, name).value == ds[name := HttpAt(ds, name)]
  {
    if name in ds { assert ds[name := ds[name]] == ds; }
  }

  lemma DefaultsClosed(ds: map<string, Defaults>, name: string)
    requires name != CONTROLLER && name != UPSTREAMS && SetupDefaults(ds, name).Some?
    ensures SetupDefaults(ds, name).value == DefaultsAfter(ds, name)
    ensures name in ds ==> ds[name].protocol != "grpc" && ds[name].protocol != "http2"
  {
    assert CONTROLLER != UPSTREAMS;
    OneDefaults(ds, name);
    var a := CreateDefaults(ds, name).value;
    OneDefaults(a, CONTROLLER);
    OneDefaults(CreateDefaults(a, CONTROLLER).value, UPSTREAMS);
  }

  // A second Setup finds its own defaults, subsets and source, and only adds a route.

  lemma AgainDefaults(ds: map<string, Defaults>, name: string)
    requires name != CONTROLLER && name != UPSTREAMS
    ensures DefaultsAfter(DefaultsAfter(ds, name), name) == DefaultsAfter(ds, name)
  {
    var d := DefaultsAfter(ds, name);
    assert CONTROLLER != UPSTREAMS;
    assert HttpAt(d, name) == d[name] && HttpAt(d, CONTROLLER) == d[CONTROLLER] && HttpAt(d, UPSTREAMS) == d[UPSTREAMS];
  }

  lemma AgainResolver(rs: map<string, Resolver>, svc: Service)
    requires CreateResolver(rs, svc).Some?
    ensures CreateResolver(CreateResolver(rs, svc).value, svc) == CreateResolver(rs, svc)
  {
    var both := svc.Subsets();
    assert both + both == both;
    if svc.name in rs { assert rs[svc.name].subsets.value + both + both == rs[svc.name].subsets.value + both; }
    var n := CreateResolver(rs, svc).value;
    assert n[svc.name := n[svc.name]] == n;
  }

  lemma AgainIntention(ins: map<string, Intention>, name: string)
    ensures CreateIntention(CreateIntention(ins, name), name) == CreateIntention(ins, name)
    ensures name in CreateIntention(ins, name)
  {
    var i := if name in ins then ins[name] else Intention([], CREATED, "");
    if !HasController(i.sources) {
      var s := CreateIntention(ins, name)[name].sources;
      assert s[|s| - 1].name == CONTROLLER;
    }
  }

  lemma AgainRouter(rs: map<string, Router>, svc: Service, n: nat)
    ensures CreateUpstream(RouterAfter(rs, svc, n), svc) == RouterAfter(rs, svc, n + 1)
    ensures CreateUpstream(rs, svc) == RouterAfter(rs, svc, 1)
  {
    var route := svc.Upstream();
    var r := if UPSTREAMS in rs then rs[UPSTREAMS] else Router([], CREATED, "");
    assert Copies(route, 1) == Copies(route, 0) + [route];
    assert r.routes + Copies(route, 1) == r.routes + [route];
    assert r.routes + Copies(route, n) + [route] == r.routes + Copies(route, n + 1);
  }

  lemma SetupTouches(st: Store, cur: Store, svc: Service, n: nat)
    requires svc.Valid() && Touched(st, cur, svc, n) && Setup(cur, svc).Some?
    ensures Touched(st, Setup(cur, svc).value, svc, n + 1)
  {
    DefaultsClosed(cur.defaults, svc.name);
    AgainRouter(st.routers, svc, n);
    if n > 0 {
      AgainDefaults(st.defaults, svc.name);
      AgainResolver(st.resolvers, svc);
      AgainIntention(st.intentions, svc.name);
    }
  }

  lemma OneTouches(st: Store, cur: Store, svc: Service, n: nat, op: Op)
    requires svc.Valid() && Touched(st, cur, svc, n) && One(cur, svc, op).Some?
    ensures Touched(st, One(cur, svc, op).value, svc, n + if op.OpSetup? then 1 else 0)
  {
    match op
    case OpSetup => SetupTouches(st, cur, svc, n);
    case OpScale(v) => assert Scale(cur, svc, v).splitters - {svc.name} == cur.splitters - {svc.name};
  }

  lemma {:induction false} AfterTouches(st: Store, svc: Service, ops: seq<Op>)
    requires svc.Valid() && After(st, svc, ops).Some?
    ensures Touched(st, After(st, svc, ops).value, svc, Setups(ops))
    decreases |ops|
  {
    if ops != [] {
      var init := ops[..|ops| - 1];
      AfterTouches(st, svc, init);
      OneTouches(st, After(st, svc, init).value, svc, Setups(init), ops[|ops| - 1]);
    }
  }

  // ---- Restored or not ----

  predicate DefaultsRestorable(ds: map<string, Defaults>, name: string) {
    name in ds ==> ds[name].protocol == "http" && !Ours(ds[name].meta)
  }

  predicate ResolverRestorable(rs: map<string, Resolver>, name: string) {
    name in rs ==>
      && !Ours(rs[name].meta) && rs[name].subsets.Some?
      && PrimarySubset(name) !in rs[name].subsets.value && CandidateSubset(name) !in rs[name].subsets.value
  }

  predicate RouterRestorable(rs: map<string, Router>, name: string) {
    UPSTREAMS in rs ==> rs[UPSTREAMS].routes != [] && RoutesTo(rs[UPSTREAMS].routes, name) == 0
  }

  predicate IntentionRestorable(ins: map<string, Intention>, name: string) {
    name in ins ==> !Ours(ins[name].meta) && !HasController(ins[name].sources)
  }

  /** The entries the user had before: absent, or the user's own and free of what the controller adds. */
  predicate Restorable(st: Store, name: string) {
    && DefaultsRestorable(st.defaults, name)
    && ResolverRestorable(st.resolvers, name)
    && name !in st.splitters
    && RouterRestorable(st.routers, name)
    && IntentionRestorable(st.intentions, name)
  }

  /** Equal but for the two shared defaults. */
  predicate SameButShared(a: Store, b: Store) {
    && a.defaults - {CONTROLLER, UPSTREAMS} == b.defaults - {CONTROLLER, UPSTREAMS}
    && a.resolvers == b.resolvers && a.splitters == b.splitters
    && a.routers == b.routers && a.intentions == b.intentions
  }

  lemma DefaultsBack(ds: map<string, Defaults>, name: string)
    requires name != CONTROLLER && name != UPSTREAMS
    requires name in ds ==> ds[name].protocol != "grpc" && ds[name].protocol != "http2"
    ensures DeleteDefaults(DefaultsAfter(ds, name), name).Some?
    ensures var end := DeleteDefaults(DefaultsAfter(ds, name), name).value;
            end - {CONTROLLER, UPSTREAMS} == ds - {CONTROLLER, UPSTREAMS} <==> DefaultsRestorable(ds, name)
  {
    var cur := DefaultsAfter(ds, name);
    var end := DeleteDefaults(cur, name).value;
    var shared := {CONTROLLER, UPSTREAMS};
    assert CONTROLLER != UPSTREAMS;
    assert cur[name] == HttpAt(ds, name);
    if !DefaultsRestorable(ds, name) {
      assert name in ds - shared && (ds - shared)[name] == ds[name];
      assert name in end - shared ==> (end - shared)[name] == cur[name] && cur[name] != ds[name];
    } else {
      assert (end - shared).Keys == (ds - shared).Keys;
    }
  }

  lemma ResolverBack(rs: map<string, Resolver>, svc: Service)
    requires CreateResolver(rs, svc).Some?
    ensures DeleteResolver(CreateResolver(rs, svc).value, svc.name).Some?
    ensures DeleteResolver(CreateResolver(rs, svc).value, svc.name).value == rs <==> ResolverRestorable(rs, svc.name)
  {
    var name := svc.name;
    SubsetsDiffer(name);
    var both := svc.Subsets();
    var keys := {PrimarySubset(name), CandidateSubset(name)};
    assert both.Keys == keys;
    var cur := CreateResolver(rs, svc).value;
    if name in rs {
      var m := rs[name].subsets.value;
      assert m + both - keys == m - keys;
      if ResolverRestorable(rs, name) {
        assert m - keys == m;
        assert cur[name := rs[name]] == rs;
      } else if !Ours(rs[name].meta) {
        assert (m - keys).Keys == m.Keys - keys;
        assert m - keys != m;
      }
    } else {
      assert cur - {name} == rs;
    }
  }

  lemma {:induction false} SourcesKept(sources: seq<Source>)
    ensures SourcesWithout(sources) == sources <==> !HasController(sources)
    ensures |SourcesWithout(sources)| <= |sources|
    ensures !HasController(SourcesWithout(sources))
    decreases |sources|
  {
    if sources != [] {
      var init, last := sources[..|sources| - 1], sources[|sources| - 1];
      SourcesKept(init);
      assert sources == init + [last];
      if HasController(init) {
        var k :| 0 <= k < |init| && init[k].name == CONTROLLER;
        assert sources[k].name == CONTROLLER;
      }
      if last.name == CONTROLLER { assert HasController(sources); }
      assert |SourcesWithout(init)| == |init| ==> SourcesWithout(init) == init || HasController(init);
      if HasController(init) && last.name != CONTROLLER {
        assert SourcesWithout(sources)[..|SourcesWithout(init)|] == SourcesWithout(init);
        assert SourcesWithout(sources) == sources ==> SourcesWithout(init) == init;
      }
    }
  }

  /** Dropping the controller's source keeps or drops each source on its own. */
  lemma SourcesWithoutOne(x: Source)
    ensures SourcesWithout([x]) == if x.name == "consul-release-controller" then [] else [x]
  {
    assert [x][..0] == [];
  }

  lemma {:induction false} SourcesWithoutConcat(a: seq<Source>, b: seq<Source>)
    ensures SourcesWithout(a + b) == SourcesWithout(a) + SourcesWithout(b)
    decreases |b|
  {
    if b == [] {
      assert a + b == a;
    } else {
      assert (a + b)[..|a + b| - 1] == a + b[..|b| - 1];
      SourcesWithoutConcat(a, b[..|b| - 1]);
    }
  }

  /** The source the controller adds is the one it takes away. */
  lemma SourcesBack(ins: map<string, Intention>, name: string)
    requires name in ins
    ensures name in CreateIntention(ins, name)
    ensures var i := CreateIntention(ins, name)[name];
            i == ins[name].(sources := i.sources) && SourcesWithout(i.sources) == SourcesWithout(ins[name].sources)
  {
    var own := ins[name].sources;
    assert (own + [ALLOW])[..|own|] == own;
  }

  lemma IntentionBack(ins: map<string, Intention>, name: string)
    ensures DeleteIntention(CreateIntention(ins, name), name).Some?
    ensures DeleteIntention(CreateIntention(ins, name), name).value == ins <==> IntentionRestorable(ins, name)
  {
    AgainIntention(ins, name);
    var cur := CreateIntention(ins, name);
    if name in ins {
      SourcesBack(ins, name);
      SourcesKept(ins[name].sources);
      assert cur[name := ins[name]] == ins;
      if !Ours(ins[name].meta) {
        var end := DeleteIntention(cur, name).value;
        assert end[name].sources == SourcesWithout(ins[name].sources);
      }
    } else {
      assert cur - {name} == ins;
    }
  }

  lemma {:induction false} RoutesKept(routes: seq<Route>, name: string)
    ensures RoutesTo(RoutesWithout(routes, name), name) == 0
    ensures RoutesTo(routes, name) == 0 ==> RoutesWithout(routes, name) == routes
    decreases |routes|
  {
    CountWithout(routes, name, name);
    if routes != [] {
      RoutesKept(routes[..|routes| - 1], name);
      assert routes == routes[..|routes| - 1] + [routes[|routes| - 1]];
    }
  }

  lemma {:induction false} CopiesGone(svc: Service, n: nat)
    ensures RoutesWithout(Copies(svc.Upstream(), n), svc.name) == []
  {
    if n > 0 {
      CopiesGone(svc, n - 1);
      assert Copies(svc.Upstream(), n)[..n - 1] == Copies(svc.Upstream(), n - 1);
    }
  }

  lemma RoutesLeft(before: seq<Route>, svc: Service, n: nat)
    ensures RoutesWithout(before + Copies(svc.Upstream(), n), svc.name) == RoutesWithout(before, svc.name)
  {
    WithoutConcat(before, Copies(svc.Upstream(), n), svc.name);
    CopiesGone(svc, n);
  }

  lemma RouterBack(rs: map<string, Router>, svc: Service, n: nat)
    ensures DeleteUpstream(RouterAfter(rs, svc, n), svc.name).Some?
    ensures DeleteUpstream(RouterAfter(rs, svc, n), svc.name).value == rs <==> RouterRestorable(rs, svc.name)
  {
    var name := svc.name;
    var before := RoutesOf(rs);
    RoutesLeft(before, svc, n);
    RoutesKept(before, name);
    var cur := RouterAfter(rs, svc, n);
    var routes := RoutesWithout(before, name);
    if UPSTREAMS in rs {
      assert cur[UPSTREAMS := cur[UPSTREAMS].(routes := before)] == rs;
    } else {
      assert cur - {UPSTREAMS} == rs;
    }
  }

  lemma SplittersBack(st: Store, cur: Store, name: string)
    requires cur.splitters - {name} == st.splitters - {name}
    ensures cur.splitters - {name} == st.splitters <==> name !in st.splitters
  {
  }

  /** What Destroy makes of each kind of entry decides whether the store is as it was. */
  lemma SameIff(end: Store, st: Store, name: string)
    requires end.defaults - {CONTROLLER, UPSTREAMS} == st.defaults - {CONTROLLER, UPSTREAMS}
             <==> DefaultsRestorable(st.defaults, name)
    requires end.resolvers == st.resolvers <==> ResolverRestorable(st.resolvers, name)
    requires end.splitters == st.splitters <==> name !in st.splitters
    requires end.routers == st.routers <==> RouterRestorable(st.routers, name)
    requires end.intentions == st.intentions <==> IntentionRestorable(st.intentions, name)
    ensures SameButShared(end, st) <==> Restorable(st, name)
  {
  }

  /** The maps a Destroy leaves, from those after the Setups. */
  lemma DestroyBack(st: Store, cur: Store, svc: Service, n: nat)
    requires svc.Valid() && n >= 1 && Touched(st, cur, svc, n)
    ensures Destroy(cur, svc).Some?
    ensures SameButShared(Destroy(cur, svc).value, st) <==> Restorable(st, svc.name)
  {
    var name := svc.name;
    DefaultsClosed(st.defaults, name);
    DefaultsBack(st.defaults, name);
    ResolverBack(st.resolvers, svc);
    RouterBack(st.routers, svc, n);
    IntentionBack(st.intentions, name);
    SplittersBack(st, cur, name);
    var end := Store(DeleteDefaults(cur.defaults, name).value, DeleteResolver(cur.resolvers, name).value,
                     cur.splitters - {name}, DeleteUpstream(cur.routers, name).value,
                     DeleteIntention(cur.intentions, name).value);
    assert Destroy(cur, svc) == Some(end);
    SameIff(end, st, name);
  }

  /**
   After any number of Scales and n >= 1 Setups that were not refused, a Destroy
   puts the store back, except for the two shared defaults, exactly when every entry
   was absent or the user's own and free of what the controller adds.
   */
  lemma SetupDestroyRoundTrip(st: Store, svc: Service, ops: seq<Op>)
    requires svc.Valid() && Setups(ops) >= 1 && After(st, svc, ops).Some?
    ensures Destroy(After(st, svc, ops).value, svc).Some?
    ensures SameButShared(Destroy(After(st, svc, ops).value, svc).value, st) <==> Restorable(st, svc.name)
  {
    AfterTouches(st, svc, ops);
    DestroyBack(st, After(st, svc, ops).value, svc, Setups(ops));
  }
}
