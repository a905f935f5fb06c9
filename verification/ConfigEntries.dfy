/**
 Consul's config entries and what each create and delete of the controller does to
 them. `None` is a call the code refuses: a gRPC or HTTP/2 service, a write into the
 nil Subsets map of a resolver, or a delete of an entry that is not there.
 `rest` stands for the fields of a user's entry the controller never looks at.
 */
module ConfigEntries {
  import opened Prelude

  const META_TAG := "external-source"
  const META_VALUE := "consul-release-controller"
  const CONTROLLER := "consul-release-controller"
  const UPSTREAMS := "consul-release-controller-upstreams"

  type Meta = map<string, string>

  const CREATED: Meta := map[META_TAG := META_VALUE]

  /** The controller created this entry. */
  predicate Ours(meta: Meta) {
    META_TAG in meta && meta[META_TAG] == META_VALUE
  }

  datatype Defaults = Defaults(protocol: string, meta: Meta, rest: string)
  datatype Subset = Subset(filter: string, onlyPassing: bool)
  datatype Resolver = Resolver(defaultSubset: string, subsets: Option<map<string, Subset>>, meta: Meta, rest: string)
  datatype Weight = Weight(subset: string, weight: int)
  datatype Splitter = Splitter(splits: seq<Weight>, meta: Meta)
  datatype Route = Route(host: string, service: string, subset: string)
  datatype Router = Router(routes: seq<Route>, meta: Meta, rest: string)
  datatype Source = Source(name: string, action: string)
  datatype Intention = Intention(sources: seq<Source>, meta: Meta, rest: string)

  datatype Store = Store(
    defaults: map<string, Defaults>,
    resolvers: map<string, Resolver>,
    splitters: map<string, Splitter>,
    routers: map<string, Router>,
    intentions: map<string, Intention>)

  function PrimarySubset(name: string): string { "crc-" + name + "-primary" }

  function CandidateSubset(name: string): string { "crc-" + name + "-candidate" }

  lemma SubsetsDiffer(name: string)
    ensures PrimarySubset(name) != CandidateSubset(name)
  {
    var k := 4 + |name| + 1;
    assert PrimarySubset(name)[k] == 'p' && CandidateSubset(name)[k] == 'c';
  }

  // ---- Create ----

  const HTTP_DEFAULTS := Defaults("http", CREATED, "")

  function CreateDefaults(ds: map<string, Defaults>, name: string): Option<map<string, Defaults>> {
    if name !in ds then Some(ds[name := HTTP_DEFAULTS])
    else
      var d := ds[name];
      if d.protocol == "grpc" || d.protocol == "http2" then None
      else if d.protocol == "http" then Some(ds)
      else if d.protocol == "tcp" then Some(ds[name := d.(protocol := "http")])
      else Some(ds[name := HTTP_DEFAULTS])
  }

  /** The release: its service, namespace and the filters of its two subsets. */
  datatype Service = Service(name: string, namespace: string, primary: string, candidate: string) {
    predicate Valid() {
      name != CONTROLLER && name != UPSTREAMS
    }

    /** The two subsets the controller adds to the service's resolver. */
    function Subsets(): map<string, Subset> {
      map[PrimarySubset(name) := Subset(primary, true)][CandidateSubset(name) := Subset(candidate, true)]
    }

    /** The route that lets the controller reach the candidate by its HOST header. */
    function Upstream(): Route {
      Route(name + "." + (if namespace == "" then "default" else namespace), name, CandidateSubset(name))
    }
  }

  function CreateResolver(rs: map<string, Resolver>, svc: Service): Option<map<string, Resolver>> {
    if svc.name !in rs then
      Some(rs[svc.name := Resolver(CandidateSubset(svc.name), Some(svc.Subsets()), CREATED, "")])
    else if rs[svc.name].subsets.None? then None
    else Some(rs[svc.name := rs[svc.name].(subsets := Some(rs[svc.name].subsets.value + svc.Subsets()))])
  }

  function CreateSplitter(ss: map<string, Splitter>, name: string, primary: int, candidate: int): map<string, Splitter>
  {
    ss[name := Splitter([Weight(PrimarySubset(name), primary), Weight(CandidateSubset(name), candidate)], CREATED)]
  }

  function CreateUpstream(rs: map<string, Router>, svc: Service): map<string, Router> {
    var r := if UPSTREAMS in rs then rs[UPSTREAMS] else Router([], CREATED, "");
    rs[UPSTREAMS := r.(routes := r.routes + [svc.Upstream()])]
  }

  const ALLOW := Source(CONTROLLER, "allow")

  predicate HasController(sources: seq<Source>) {
    exists k :: 0 <= k < |sources| && sources[k].name == CONTROLLER
  }

  function CreateIntention(ins: map<string, Intention>, name: string): map<string, Intention> {
    var i := if name in ins then ins[name] else Intention([], CREATED, "");
    if HasController(i.sources) then ins else ins[name := i.(sources := i.sources + [ALLOW])]
  }

  // ---- Delete ----

  function DeleteDefaults(ds: map<string, Defaults>, name: string): Option<map<string, Defaults>> {
    if name !in ds then None else if Ours(ds[name].meta) then Some(ds - {name}) else Some(ds)
  }

  function DeleteResolver(rs: map<string, Resolver>, name: string): Option<map<string, Resolver>> {
    if name !in rs then None
    else if Ours(rs[name].meta) then Some(rs - {name})
    else if rs[name].subsets.None? then Some(rs)
    else
      var keys := {PrimarySubset(name), CandidateSubset(name)};
      Some(rs[name := rs[name].(subsets := Some(rs[name].subsets.value - keys))])
  }

  /** The routes to every other service, in order. */
  function RoutesWithout(routes: seq<Route>, name: string): seq<Route> {
    if routes == [] then []
    else
      RoutesWithout(routes[..|routes| - 1], name)
      + if routes[|routes| - 1].service != name then [routes[|routes| - 1]] else []
  }

  function DeleteUpstream(rs: map<string, Router>, name: string): Option<map<string, Router>> {
    if UPSTREAMS !in rs then None
    else
      var routes := RoutesWithout(rs[UPSTREAMS].routes, name);
      if routes == [] then Some(rs - {UPSTREAMS}) else Some(rs[UPSTREAMS := rs[UPSTREAMS].(routes := routes)])
  }

  function SourcesWithout(sources: seq<Source>): seq<Source> {
    if sources == [] then []
    else
      SourcesWithout(sources[..|sources| - 1])
      + if sources[|sources| - 1].name != CONTROLLER then [sources[|sources| - 1]] else []
  }

  function DeleteIntention(ins: map<string, Intention>, name: string): Option<map<string, Intention>> {
    if name !in ins then None
    else if Ours(ins[name].meta) then Some(ins - {name})
    else Some(ins[name := ins[name].(sources := SourcesWithout(ins[name].sources))])
  }

  // ---- The releaser's sequences, when no call fails ----

  function SetupDefaults(ds: map<string, Defaults>, name: string): Option<map<string, Defaults>> {
    var a := CreateDefaults(ds, name);
    if a.None? then None else
    var b := CreateDefaults(a.value, CONTROLLER);
    if b.None? then None else CreateDefaults(b.value, UPSTREAMS)
  }

  function Setup(st: Store, svc: Service): Option<Store> {
    var ds := SetupDefaults(st.defaults, svc.name);
    var rs := CreateResolver(st.resolvers, svc);
    if ds.None? || rs.None? then None
    else
      Some(Store(ds.value, rs.value, st.splitters,
                 CreateUpstream(st.routers, svc), CreateIntention(st.intentions, svc.name)))
  }

  function Scale(st: Store, svc: Service, value: int): Store {
    st.(splitters := CreateSplitter(st.splitters, svc.name, 100 - value, value))
  }

  function Destroy(st: Store, svc: Service): Option<Store> {
    var routers := DeleteUpstream(st.routers, svc.name);
    var resolvers := DeleteResolver(st.resolvers, svc.name);
    var intentions := DeleteIntention(st.intentions, svc.name);
    var defaults := DeleteDefaults(st.defaults, svc.name);
    if routers.None? || resolvers.None? || intentions.None? || defaults.None? then None
    else Some(Store(defaults.value, resolvers.value, st.splitters - {svc.name}, routers.value, intentions.value))
  }

  // ---- The same sequences, edit by edit ----

  const SETUP_EDITS: nat := 6
  const DESTROY_EDITS: nat := 5

  function WithDefaults(st: Store, ds: Option<map<string, Defaults>>): Option<Store> {
    if ds.Some? then Some(st.(defaults := ds.value)) else None
  }

  function WithResolvers(st: Store, rs: Option<map<string, Resolver>>): Option<Store> {
    if rs.Some? then Some(st.(resolvers := rs.value)) else None
  }

  function WithRouters(st: Store, rs: Option<map<string, Router>>): Option<Store> {
    if rs.Some? then Some(st.(routers := rs.value)) else None
  }

  function WithIntentions(st: Store, ins: Option<map<string, Intention>>): Option<Store> {
    if ins.Some? then Some(st.(intentions := ins.value)) else None
  }

  /** The i-th edit of a Setup, None when it is refused. */
  function SetupEdit(st: Store, svc: Service, i: nat): Option<Store> {
    if i == 1 then WithDefaults(st, CreateDefaults(st.defaults, svc.name))
    else if i == 2 then WithDefaults(st, CreateDefaults(st.defaults, CONTROLLER))
    else if i == 3 then WithDefaults(st, CreateDefaults(st.defaults, UPSTREAMS))
    else if i == 4 then WithResolvers(st, CreateResolver(st.resolvers, svc))
    else if i == 5 then Some(st.(routers := CreateUpstream(st.routers, svc)))
    else Some(st.(intentions := CreateIntention(st.intentions, svc.name)))
  }

  /** The first k edits of a Setup. */
  function SetupUpTo(st: Store, svc: Service, k: nat): Option<Store> {
    if k == 0 then Some(st)
    else
      var before := SetupUpTo(st, svc, k - 1);
      if before.None? then None else SetupEdit(before.value, svc, k)
  }

  function DestroyEdit(st: Store, svc: Service, i: nat): Option<Store> {
    if i == 1 then Some(st.(splitters := st.splitters - {svc.name}))
    else if i == 2 then WithRouters(st, DeleteUpstream(st.routers, svc.name))
    else if i == 3 then WithResolvers(st, DeleteResolver(st.resolvers, svc.name))
    else if i == 4 then WithIntentions(st, DeleteIntention(st.intentions, svc.name))
    else WithDefaults(st, DeleteDefaults(st.defaults, svc.name))
  }

  function DestroyUpTo(st: Store, svc: Service, k: nat): Option<Store> {
    if k == 0 then Some(st)
    else
      var before := DestroyUpTo(st, svc, k - 1);
      if before.None? then None else DestroyEdit(before.value, svc, k)
  }

  lemma SetupNext(st: Store, svc: Service, k: nat)
    requires k > 0
    ensures SetupUpTo(st, svc, k)
            == if SetupUpTo(st, svc, k - 1).None? then None else SetupEdit(SetupUpTo(st, svc, k - 1).value, svc, k)
    ensures k == 1 ==> SetupUpTo(st, svc, 0) == Some(st)
  {
  }

  lemma DestroyNext(st: Store, svc: Service, k: nat)
    requires k > 0
    ensures DestroyUpTo(st, svc, k)
            == if DestroyUpTo(st, svc, k - 1).None? then None
               else DestroyEdit(DestroyUpTo(st, svc, k - 1).value, svc, k)
    ensures k == 1 ==> DestroyUpTo(st, svc, 0) == Some(st)
  {
  }

  lemma SetupDefaultsIsItsEdits(st: Store, svc: Service)
    ensures SetupUpTo(st, svc, 3) == WithDefaults(st, SetupDefaults(st.defaults, svc.name))
  {
    SetupNext(st, svc, 1);
    SetupNext(st, svc, 2);
    SetupNext(st, svc, 3);
  }

  /** All edits of a Setup or a Destroy make the whole of it. */
  lemma SetupIsItsEdits(st: Store, svc: Service)
    ensures SetupUpTo(st, svc, SETUP_EDITS) == Setup(st, svc)
  {
    SetupDefaultsIsItsEdits(st, svc);
    SetupNext(st, svc, 4);
    SetupNext(st, svc, 5);
    SetupNext(st, svc, 6);
  }

  lemma DestroyIsItsEdits(st: Store, svc: Service)
    ensures DestroyUpTo(st, svc, DESTROY_EDITS) == Destroy(st, svc)
  {
    DestroyNext(st, svc, 1);
    DestroyNext(st, svc, 2);
    DestroyNext(st, svc, 3);
    DestroyNext(st, svc, 4);
    DestroyNext(st, svc, 5);
  }

  function RoutesOf(rs: map<string, Router>): seq<Route> {
    if UPSTREAMS in rs then rs[UPSTREAMS].routes else []
  }

  /** Nothing but this service's entries, its upstream routes and the two shared defaults differs. */
  predicate OthersKept(a: Store, b: Store, name: string) {
    && a.defaults - {name, CONTROLLER, UPSTREAMS} == b.defaults - {name, CONTROLLER, UPSTREAMS}
    && a.resolvers - {name} == b.resolvers - {name}
    && a.splitters - {name} == b.splitters - {name}
    && a.intentions - {name} == b.intentions - {name}
    && a.routers - {UPSTREAMS} == b.routers - {UPSTREAMS}
    && RoutesWithout(RoutesOf(a.routers), name) == RoutesWithout(RoutesOf(b.routers), name)
  }
}
