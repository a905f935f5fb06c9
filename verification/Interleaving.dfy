/**
 Releases of different services on one config store, with Setups and Destroys that may
 be refused or stop half way: none sees the steps of another.
 */
module Interleavings {
  import opened Prelude
  import opened ConfigEntries
  import opened UpstreamRouters
  import opened ConfigRoundTrip

  /** A step of a release: `done` edits of its Setup or Destroy took effect, all of them when it succeeded. */
  datatype Step =
    | SetupOf(svc: Service, done: nat)
    | ScaleOf(svc: Service, value: int)
    | DestroyOf(svc: Service, done: nat)

  function OneStep(st: Store, step: Step): Option<Store> {
    match step
    case SetupOf(svc, done) => SetupUpTo(st, svc, done)
    case ScaleOf(svc, v) => Some(Scale(st, svc, v))
    case DestroyOf(svc, done) => DestroyUpTo(st, svc, done)
  }

  /** The store after the steps, None when the code refuses an edit that is said to have taken effect. */
  function AfterAll(st: Store, steps: seq<Step>): Option<Store> {
    if steps == [] then Some(st)
    else
      var before := AfterAll(st, steps[..|steps| - 1]);
      if before.None? then None else OneStep(before.value, steps[|steps| - 1])
  }

  // ---- What the store holds of one service ----

  datatype Own = Own(
    defaults: Option<Defaults>,
    resolver: Option<Resolver>,
    splitter: Option<Splitter>,
    routes: nat,
    intention: Option<Intention>)

  function Get<V>(m: map<string, V>, name: string): Option<V> {
    if name in m then Some(m[name]) else None
  }

  function OwnOf(st: Store, name: string): Own {
    Own(Get(st.defaults, name), Get(st.resolvers, name), Get(st.splitters, name),
        RoutesTo(RoutesOf(st.routers), name), Get(st.intentions, name))
  }

  function HttpOf(d: Option<Defaults>): Defaults {
    if d.None? then HTTP_DEFAULTS
    else if d.value.protocol == "http" then d.value
    else if d.value.protocol == "tcp" then d.value.(protocol := "http")
    else HTTP_DEFAULTS
  }

  function SubsetsOf(r: Option<Resolver>): map<string, Subset> {
    if r.Some? && r.value.subsets.Some? then r.value.subsets.value else map[]
  }

  function ResolverOf(r: Option<Resolver>, svc: Service): Resolver {
    if r.None? then Resolver(CandidateSubset(svc.name), Some(svc.Subsets()), CREATED, "")
    else r.value.(subsets := Some(SubsetsOf(r) + svc.Subsets()))
  }

  function IntentionOf(i: Option<Intention>): Intention {
    var own := if i.Some? then i.value else Intention([], CREATED, "");
    if HasController(own.sources) then own else own.(sources := own.sources + [ALLOW])
  }

  function Keys(name: string): set<string> {
    {PrimarySubset(name), CandidateSubset(name)}
  }

  // ---- What one edit makes of it ----

  function OwnSetupEdit(o: Own, svc: Service, i: nat): Own {
    if i == 1 then o.(defaults := Some(HttpOf(o.defaults)))
    else if i == 2 || i == 3 then o
    else if i == 4 then o.(resolver := Some(ResolverOf(o.resolver, svc)))
    else if i == 5 then o.(routes := o.routes + 1)
    else o.(intention := Some(IntentionOf(o.intention)))
  }

  function OwnSetup(o: Own, svc: Service, done: nat): Own {
    if done == 0 then o else OwnSetupEdit(OwnSetup(o, svc, done - 1), svc, done)
  }

  function OwnDestroyEdit(o: Own, svc: Service, i: nat): Own {
    if i == 1 then o.(splitter := None)
    else if i == 2 then o.(routes := 0)
    else if i == 3 then
      o.(resolver :=
           if o.resolver.None? || Ours(o.resolver.value.meta) then None
           else if o.resolver.value.subsets.None? then o.resolver
           else Some(o.resolver.value.(subsets := Some(o.resolver.value.subsets.value - Keys(svc.name)))))
    else if i == 4 then
      o.(intention :=
           if o.intention.None? || Ours(o.intention.value.meta) then None
           else Some(o.intention.value.(sources := SourcesWithout(o.intention.value.sources))))
    else
      o.(defaults := if o.defaults.None? || Ours(o.defaults.value.meta) then None else o.defaults)
  }

  function OwnDestroy(o: Own, svc: Service, done: nat): Own {
    if done == 0 then o else OwnDestroyEdit(OwnDestroy(o, svc, done - 1), svc, done)
  }

  function OwnScale(o: Own, svc: Service, v: int): Own {
    var weights := [Weight(PrimarySubset(svc.name), 100 - v), Weight(CandidateSubset(svc.name), v)];
    o.(splitter := Some(Splitter(weights, CREATED)))
  }

  function OwnStep(o: Own, step: Step): Own {
    match step
    case SetupOf(svc, done) => OwnSetup(o, svc, done)
    case ScaleOf(svc, v) => OwnScale(o, svc, v)
    case DestroyOf(svc, done) => OwnDestroy(o, svc, done)
  }

  /** Only the steps of the service itself. */
  function OwnRun(o: Own, name: string, steps: seq<Step>): Own {
    if steps == [] then o
    else
      var before := OwnRun(o, name, steps[..|steps| - 1]);
      if steps[|steps| - 1].svc.name == name then OwnStep(before, steps[|steps| - 1]) else before
  }

  // ---- One edit, one step ----

  lemma RoutesAfterCreate(rs: map<string, Router>, svc: Service, x: string)
    ensures RoutesTo(RoutesOf(CreateUpstream(rs, svc)), x)
            == RoutesTo(RoutesOf(rs), x) + if x == svc.name then 1 else 0
  {
    var routes := RoutesOf(rs);
    assert (routes + [svc.Upstream()])[..|routes|] == routes;
  }

  lemma DefaultsEdit(ds: map<string, Defaults>, name: string, x: string)
    requires CreateDefaults(ds, name).Some?
    ensures Get(CreateDefaults(ds, name).value, x) == if x == name then Some(HttpOf(Get(ds, x))) else Get(ds, x)
  {
  }

  lemma ResolverEdit(rs: map<string, Resolver>, svc: Service, x: string)
    requires CreateResolver(rs, svc).Some?
    ensures Get(CreateResolver(rs, svc).value, x)
            == if x == svc.name then Some(ResolverOf(Get(rs, x), svc)) else Get(rs, x)
  {
    assert map[] + svc.Subsets() == svc.Subsets();
  }

  lemma IntentionEdit(ins: map<string, Intention>, name: string, x: string)
    ensures Get(CreateIntention(ins, name), x) == if x == name then Some(IntentionOf(Get(ins, x))) else Get(ins, x)
  {
  }

  // An edit of one kind of entry changes that part only.

  lemma DefaultsPart(st: Store, x: string, ds: map<string, Defaults>)
    ensures OwnOf(st.(defaults := ds), x) == OwnOf(st, x).(defaults := Get(ds, x))
  {
  }

  lemma ResolverPart(st: Store, x: string, rs: map<string, Resolver>)
    ensures OwnOf(st.(resolvers := rs), x) == OwnOf(st, x).(resolver := Get(rs, x))
  {
  }

  lemma SplitterPart(st: Store, x: string, ss: map<string, Splitter>)
    ensures OwnOf(st.(splitters := ss), x) == OwnOf(st, x).(splitter := Get(ss, x))
  {
  }

  lemma RoutesPart(st: Store, x: string, us: map<string, Router>)
    ensures OwnOf(st.(routers := us), x) == OwnOf(st, x).(routes := RoutesTo(RoutesOf(us), x))
  {
  }

  lemma IntentionPart(st: Store, x: string, ins: map<string, Intention>)
    ensures OwnOf(st.(intentions := ins), x) == OwnOf(st, x).(intention := Get(ins, x))
  {
  }

  lemma DefaultsSet(st: Store, svc: Service, i: nat, x: string)
    requires 1 <= i <= 3 && SetupEdit(st, svc, i).Some? && svc.Valid() && x != CONTROLLER && x != UPSTREAMS
    ensures OwnOf(SetupEdit(st, svc, i).value, x)
            == if x == svc.name then OwnSetupEdit(OwnOf(st, x), svc, i) else OwnOf(st, x)
  {
    var name := if i == 1 then svc.name else if i == 2 then CONTROLLER else UPSTREAMS;
    var ds := CreateDefaults(st.defaults, name).value;
    DefaultsEdit(st.defaults, name, x);
    assert SetupEdit(st, svc, i) == Some(st.(defaults := ds));
    DefaultsPart(st, x, ds);
  }

  lemma ResolverIsSet(st: Store, svc: Service, x: string)
    requires SetupEdit(st, svc, 4).Some?
    ensures OwnOf(SetupEdit(st, svc, 4).value, x)
            == if x == svc.name then OwnSetupEdit(OwnOf(st, x), svc, 4) else OwnOf(st, x)
  {
    var rs := CreateResolver(st.resolvers, svc).value;
    ResolverEdit(st.resolvers, svc, x);
    ResolverPart(st, x, rs);
  }

  lemma RoutesSet(st: Store, svc: Service, x: string)
    ensures OwnOf(SetupEdit(st, svc, 5).value, x)
            == if x == svc.name then OwnSetupEdit(OwnOf(st, x), svc, 5) else OwnOf(st, x)
  {
    var us := CreateUpstream(st.routers, svc);
    RoutesAfterCreate(st.routers, svc, x);
    assert SetupEdit(st, svc, 5) == Some(st.(routers := us));
    RoutesPart(st, x, us);
  }

  lemma IntentionIsSet(st: Store, svc: Service, i: nat, x: string)
    requires i > 5
    ensures OwnOf(SetupEdit(st, svc, i).value, x)
            == if x == svc.name then OwnSetupEdit(OwnOf(st, x), svc, i) else OwnOf(st, x)
  {
    var ins := CreateIntention(st.intentions, svc.name);
    IntentionEdit(st.intentions, svc.name, x);
    IntentionPart(st, x, ins);
  }

  lemma SetupEditOwn(st: Store, svc: Service, i: nat, x: string)
    requires SetupEdit(st, svc, i).Some? && svc.Valid() && x != CONTROLLER && x != UPSTREAMS && i > 0
    ensures OwnOf(SetupEdit(st, svc, i).value, x)
            == if x == svc.name then OwnSetupEdit(OwnOf(st, x), svc, i) else OwnOf(st, x)
  {
    if i <= 3 {
      DefaultsSet(st, svc, i, x);
    } else if i == 4 {
      ResolverIsSet(st, svc, x);
    } else if i == 5 {
      RoutesSet(st, svc, x);
    } else {
      IntentionIsSet(st, svc, i, x);
    }
  }

  lemma SplitterGone(st: Store, svc: Service, x: string)
    ensures OwnOf(DestroyEdit(st, svc, 1).value, x)
            == if x == svc.name then OwnDestroyEdit(OwnOf(st, x), svc, 1) else OwnOf(st, x)
  {
    SplitterPart(st, x, st.splitters - {svc.name});
  }

  lemma RoutesGone(st: Store, svc: Service, x: string)
    requires DestroyEdit(st, svc, 2).Some?
    ensures OwnOf(DestroyEdit(st, svc, 2).value, x)
            == if x == svc.name then OwnDestroyEdit(OwnOf(st, x), svc, 2) else OwnOf(st, x)
  {
    CountWithout(RoutesOf(st.routers), svc.name, x);
    var us := DeleteUpstream(st.routers, svc.name).value;
    assert RoutesOf(us) == RoutesWithout(RoutesOf(st.routers), svc.name);
    RoutesPart(st, x, us);
  }

  lemma ResolverGone(st: Store, svc: Service, x: string)
    requires DestroyEdit(st, svc, 3).Some?
    ensures OwnOf(DestroyEdit(st, svc, 3).value, x)
            == if x == svc.name then OwnDestroyEdit(OwnOf(st, x), svc, 3) else OwnOf(st, x)
  {
    ResolverPart(st, x, DeleteResolver(st.resolvers, svc.name).value);
  }

  lemma IntentionGone(st: Store, svc: Service, x: string)
    requires DestroyEdit(st, svc, 4).Some?
    ensures OwnOf(DestroyEdit(st, svc, 4).value, x)
            == if x == svc.name then OwnDestroyEdit(OwnOf(st, x), svc, 4) else OwnOf(st, x)
  {
    IntentionPart(st, x, DeleteIntention(st.intentions, svc.name).value);
  }

  lemma DefaultsGone(st: Store, svc: Service, i: nat, x: string)
    requires i > 4 && DestroyEdit(st, svc, i).Some?
    ensures OwnOf(DestroyEdit(st, svc, i).value, x)
            == if x == svc.name then OwnDestroyEdit(OwnOf(st, x), svc, i) else OwnOf(st, x)
  {
    DefaultsPart(st, x, DeleteDefaults(st.defaults, svc.name).value);
  }

  lemma DestroyEditOwn(st: Store, svc: Service, i: nat, x: string)
    requires DestroyEdit(st, svc, i).Some? && i > 0
    ensures OwnOf(DestroyEdit(st, svc, i).value, x)
            == if x == svc.name then OwnDestroyEdit(OwnOf(st, x), svc, i) else OwnOf(st, x)
  {
    if i == 1 {
      SplitterGone(st, svc, x);
    } else if i == 2 {
      RoutesGone(st, svc, x);
    } else if i == 3 {
      ResolverGone(st, svc, x);
    } else if i == 4 {
      IntentionGone(st, svc, x);
    } else {
      DefaultsGone(st, svc, i, x);
    }
  }

  lemma {:induction false} SetupOwn(st: Store, svc: Service, k: nat, x: string)
    requires SetupUpTo(st, svc, k).Some? && svc.Valid() && x != CONTROLLER && x != UPSTREAMS
    ensures OwnOf(SetupUpTo(st, svc, k).value, x)
            == if x == svc.name then OwnSetup(OwnOf(st, x), svc, k) else OwnOf(st, x)
  {
    if k > 0 {
      SetupOwn(st, svc, k - 1, x);
      SetupEditOwn(SetupUpTo(st, svc, k - 1).value, svc, k, x);
    }
  }

  lemma {:induction false} DestroyOwn(st: Store, svc: Service, k: nat, x: string)
    requires DestroyUpTo(st, svc, k).Some?
    ensures OwnOf(DestroyUpTo(st, svc, k).value, x)
            == if x == svc.name then OwnDestroy(OwnOf(st, x), svc, k) else OwnOf(st, x)
  {
    if k > 0 {
      DestroyOwn(st, svc, k - 1, x);
      DestroyEditOwn(DestroyUpTo(st, svc, k - 1).value, svc, k, x);
    }
  }

  lemma StepOwn(st: Store, step: Step, x: string)
    requires step.svc.Valid() && OneStep(st, step).Some? && x != CONTROLLER && x != UPSTREAMS
    ensures OwnOf(OneStep(st, step).value, x)
            == if x == step.svc.name then OwnStep(OwnOf(st, x), step) else OwnOf(st, x)
  {
    match step
    case SetupOf(svc, done) => SetupOwn(st, svc, done, x);
    case ScaleOf(svc, v) =>
    case DestroyOf(svc, done) => DestroyOwn(st, svc, done, x);
  }

  predicate Services(steps: seq<Step>) {
    forall k :: 0 <= k < |steps| ==> steps[k].svc.Valid()
  }

  /**
   Over any interleaving of Setups, Scales and Destroys of any services on one store,
   complete, refused or stopped half way, what the store holds of a service is what its
   own steps make of it.
   */
  lemma {:induction false} NoInterference(st: Store, steps: seq<Step>, x: string)
    requires Services(steps) && AfterAll(st, steps).Some? && x != CONTROLLER && x != UPSTREAMS
    ensures OwnOf(AfterAll(st, steps).value, x) == OwnRun(OwnOf(st, x), x, steps)
    decreases |steps|
  {
    if steps != [] {
      var init := steps[..|steps| - 1];
      NoInterference(st, init, x);
      StepOwn(AfterAll(st, init).value, steps[|steps| - 1], x);
    }
  }

  // ---- The round trip among other services ----

  /** Gone, or made by the controller. */
  predicate Removable(meta: Option<Meta>) {
    meta.Some? ==> Ours(meta.value)
  }

  function MetaOf(d: Option<Defaults>): Option<Meta> {
    if d.Some? then Some(d.value.meta) else None
  }

  function ResolverMeta(r: Option<Resolver>): Option<Meta> {
    if r.Some? then Some(r.value.meta) else None
  }

  function IntentionMeta(i: Option<Intention>): Option<Meta> {
    if i.Some? then Some(i.value.meta) else None
  }

  /** `p` is what edits of the service have made of its defaults `o`; `full` after a complete Setup. */
  predicate DefaultsFrom(o: Option<Defaults>, p: Option<Defaults>, full: bool) {
    if Removable(MetaOf(o)) then Removable(MetaOf(p))
    else if o.value.protocol == "http" then p == o
    else if o.value.protocol == "tcp" then p == Some(o.value.(protocol := "http")) || (!full && p == o)
    else Removable(MetaOf(p)) || (!full && p == o)
  }

  predicate ResolverFrom(o: Option<Resolver>, p: Option<Resolver>, name: string, full: bool) {
    if Removable(ResolverMeta(o)) then Removable(ResolverMeta(p))
    else
      && p.Some? && p.value == o.value.(subsets := p.value.subsets)
      && SubsetsOf(p) - Keys(name) == SubsetsOf(o) - Keys(name)
      && (full ==> p.value.subsets.Some?) && (p.value.subsets.None? ==> o.value.subsets.None?)
  }

  predicate IntentionFrom(o: Option<Intention>, p: Option<Intention>) {
    if Removable(IntentionMeta(o)) then Removable(IntentionMeta(p))
    else
      && p.Some? && p.value == o.value.(sources := p.value.sources)
      && SourcesWithout(p.value.sources) == SourcesWithout(o.value.sources)
  }

  predicate OwnFrom(o: Own, p: Own, name: string, full: bool) {
    && DefaultsFrom(o.defaults, p.defaults, full)
    && ResolverFrom(o.resolver, p.resolver, name, full)
    && IntentionFrom(o.intention, p.intention)
  }

  lemma SourcesRoundTrip(own: seq<Source>)
    ensures SourcesWithout(own + [ALLOW]) == SourcesWithout(own)
    ensures SourcesWithout(SourcesWithout(own)) == SourcesWithout(own)
    ensures SourcesWithout(own) == own <==> !HasController(own)
  {
    SourcesKept(own);
    SourcesKept(SourcesWithout(own));
    assert (own + [ALLOW])[..|own|] == own;
  }

  lemma ResolverSet(o: Option<Resolver>, p: Option<Resolver>, svc: Service, full: bool)
    requires ResolverFrom(o, p, svc.name, full)
    ensures ResolverFrom(o, Some(ResolverOf(p, svc)), svc.name, true)
  {
    assert svc.Subsets().Keys == Keys(svc.name);
    assert SubsetsOf(p) + svc.Subsets() - Keys(svc.name) == SubsetsOf(p) - Keys(svc.name);
  }

  lemma IntentionSet(o: Option<Intention>, p: Option<Intention>)
    requires IntentionFrom(o, p)
    ensures IntentionFrom(o, Some(IntentionOf(p)))
  {
    if p.Some? { SourcesRoundTrip(p.value.sources); }
  }

  lemma SetupEditKeeps(o: Own, p: Own, svc: Service, i: nat, full: bool)
    requires OwnFrom(o, p, svc.name, full) && i > 0
    ensures OwnFrom(o, OwnSetupEdit(p, svc, i), svc.name, full)
    ensures i == 1 ==> DefaultsFrom(o.defaults, OwnSetupEdit(p, svc, i).defaults, true)
    ensures i == 4 ==> ResolverFrom(o.resolver, OwnSetupEdit(p, svc, i).resolver, svc.name, true)
  {
    if i == 4 { ResolverSet(o.resolver, p.resolver, svc, full); }
    if i > 5 { IntentionSet(o.intention, p.intention); }
  }

  lemma DestroyEditKeeps(o: Own, p: Own, svc: Service, i: nat, full: bool)
    requires OwnFrom(o, p, svc.name, full) && i > 0
    ensures OwnFrom(o, OwnDestroyEdit(p, svc, i), svc.name, full)
  {
    if i == 3 && p.resolver.Some? && p.resolver.value.subsets.Some? {
      assert SubsetsOf(p.resolver) - Keys(svc.name) - Keys(svc.name) == SubsetsOf(p.resolver) - Keys(svc.name);
    }
    if i == 4 && p.intention.Some? { SourcesRoundTrip(p.intention.value.sources); }
  }

  lemma {:induction false} SetupKeeps(o: Own, p: Own, svc: Service, k: nat, full: bool)
    requires OwnFrom(o, p, svc.name, full)
    ensures OwnFrom(o, OwnSetup(p, svc, k), svc.name, full)
    ensures k >= 1 ==> DefaultsFrom(o.defaults, OwnSetup(p, svc, k).defaults, true)
    ensures k >= 4 ==> ResolverFrom(o.resolver, OwnSetup(p, svc, k).resolver, svc.name, true)
  {
    if k > 0 {
      SetupKeeps(o, p, svc, k - 1, full);
      SetupEditKeeps(o, OwnSetup(p, svc, k - 1), svc, k, full);
    }
  }

  lemma {:induction false} DestroyKeeps(o: Own, p: Own, svc: Service, k: nat, full: bool)
    requires OwnFrom(o, p, svc.name, full)
    ensures OwnFrom(o, OwnDestroy(p, svc, k), svc.name, full)
  {
    if k > 0 {
      DestroyKeeps(o, p, svc, k - 1, full);
      DestroyEditKeeps(o, OwnDestroy(p, svc, k - 1), svc, k, full);
    }
  }

  /** Some step is a complete Setup of this service. */
  predicate FullSetup(svc: Service, steps: seq<Step>) {
    exists k :: 0 <= k < |steps| && steps[k] == SetupOf(svc, SETUP_EDITS)
  }

  /** The steps of this service are of this release. */
  predicate OfRelease(svc: Service, steps: seq<Step>) {
    forall k :: 0 <= k < |steps| && steps[k].svc.name == svc.name ==> steps[k].svc == svc
  }

  lemma {:induction false} OwnRunFrom(o: Own, svc: Service, steps: seq<Step>)
    requires OfRelease(svc, steps)
    ensures OwnFrom(o, OwnRun(o, svc.name, steps), svc.name, FullSetup(svc, steps))
    decreases |steps|
  {
    if steps != [] {
      var init, last := steps[..|steps| - 1], steps[|steps| - 1];
      OwnRunFrom(o, svc, init);
      var p, full := OwnRun(o, svc.name, init), FullSetup(svc, init);
      if full {
        var k :| 0 <= k < |init| && init[k] == SetupOf(svc, SETUP_EDITS);
        assert steps[k] == SetupOf(svc, SETUP_EDITS);
      }
      if last.svc.name == svc.name {
        match last {
          case SetupOf(_, done) => SetupKeeps(o, p, svc, done, full);
          case ScaleOf(_, _) =>
          case DestroyOf(_, done) => DestroyKeeps(o, p, svc, done, full);
        }
      }
      if FullSetup(svc, steps) && !full { assert last == SetupOf(svc, SETUP_EDITS); }
    }
  }

  /** Absent, or the user's own and free of what the controller adds. */
  predicate OwnRestorable(o: Own, name: string) {
    && (o.defaults.Some? ==> o.defaults.value.protocol == "http" && !Ours(o.defaults.value.meta))
    && (o.resolver.Some? ==>
          && !Ours(o.resolver.value.meta) && o.resolver.value.subsets.Some?
          && PrimarySubset(name) !in o.resolver.value.subsets.value
          && CandidateSubset(name) !in o.resolver.value.subsets.value)
    && o.splitter.None? && o.routes == 0
    && (o.intention.Some? ==> !Ours(o.intention.value.meta) && !HasController(o.intention.value.sources))
  }

  lemma KeysFree(m: map<string, Subset>, name: string)
    ensures m - Keys(name) == m <==> PrimarySubset(name) !in m && CandidateSubset(name) !in m
  {
    assert (m - Keys(name)).Keys == m.Keys - Keys(name);
  }

  /** What a complete Destroy makes of the parts. */
  lemma OwnDestroyIs(p: Own, svc: Service)
    ensures var end := OwnDestroy(p, svc, DESTROY_EDITS);
            && end.defaults == OwnDestroyEdit(p, svc, 5).defaults
            && end.resolver == OwnDestroyEdit(p, svc, 3).resolver
            && end.intention == OwnDestroyEdit(p, svc, 4).intention
            && end.splitter == None && end.routes == 0
  {
    var p1 := OwnDestroyEdit(p, svc, 1);
    var p2 := OwnDestroyEdit(p1, svc, 2);
    var p3 := OwnDestroyEdit(p2, svc, 3);
    assert OwnDestroy(p, svc, 1) == p1 && OwnDestroy(p, svc, 2) == p2 && OwnDestroy(p, svc, 3) == p3;
    assert OwnDestroy(p, svc, 4) == OwnDestroyEdit(p3, svc, 4);
  }

  lemma ResolverBack(o: Own, p: Own, svc: Service)
    requires ResolverFrom(o.resolver, p.resolver, svc.name, true)
    ensures OwnDestroyEdit(p, svc, 3).resolver == o.resolver
            <==> (o.resolver.Some? ==>
                    && !Ours(o.resolver.value.meta) && o.resolver.value.subsets.Some?
                    && PrimarySubset(svc.name) !in o.resolver.value.subsets.value
                    && CandidateSubset(svc.name) !in o.resolver.value.subsets.value)
  {
    KeysFree(SubsetsOf(o.resolver), svc.name);
  }

  lemma IntentionBack(o: Own, p: Own, svc: Service)
    requires IntentionFrom(o.intention, p.intention)
    ensures OwnDestroyEdit(p, svc, 4).intention == o.intention
            <==> (o.intention.Some? ==> !Ours(o.intention.value.meta) && !HasController(o.intention.value.sources))
  {
    if o.intention.Some? { SourcesRoundTrip(o.intention.value.sources); }
  }

  lemma OwnRoundTrip(o: Own, p: Own, svc: Service)
    requires OwnFrom(o, p, svc.name, true)
    ensures OwnDestroy(p, svc, DESTROY_EDITS) == o <==> OwnRestorable(o, svc.name)
  {
    OwnDestroyIs(p, svc);
    ResolverBack(o, p, svc);
    IntentionBack(o, p, svc);
  }

  /** Every kind of entry is there, as a complete Setup leaves it. */
  predicate Present(p: Own) {
    p.defaults.Some? && p.resolver.Some? && p.routes > 0 && p.intention.Some?
  }

  predicate NoDestroy(svc: Service, steps: seq<Step>) {
    forall k :: 0 <= k < |steps| && steps[k].svc.name == svc.name ==> !steps[k].DestroyOf?
  }

  lemma {:induction false} SetupIsPresent(p: Own, svc: Service, k: nat)
    ensures Present(p) ==> Present(OwnSetup(p, svc, k))
    ensures k >= 1 ==> OwnSetup(p, svc, k).defaults.Some?
    ensures k >= 4 ==> OwnSetup(p, svc, k).resolver.Some?
    ensures k >= 5 ==> OwnSetup(p, svc, k).routes > 0
    ensures k >= 6 ==> Present(OwnSetup(p, svc, k))
  {
    if k > 0 { SetupIsPresent(p, svc, k - 1); }
  }

  lemma {:induction false} OwnRunPresent(o: Own, svc: Service, steps: seq<Step>)
    requires OfRelease(svc, steps) && FullSetup(svc, steps) && NoDestroy(svc, steps)
    ensures Present(OwnRun(o, svc.name, steps))
    decreases |steps|
  {
    var init, last := steps[..|steps| - 1], steps[|steps| - 1];
    if last == SetupOf(svc, SETUP_EDITS) {
      SetupIsPresent(OwnRun(o, svc.name, init), svc, SETUP_EDITS);
    } else {
      var k :| 0 <= k < |steps| && steps[k] == SetupOf(svc, SETUP_EDITS);
      assert init[k] == SetupOf(svc, SETUP_EDITS);
      OwnRunPresent(o, svc, init);
      if last.svc.name == svc.name && last.SetupOf? { SetupIsPresent(OwnRun(o, svc.name, init), svc, last.done); }
    }
  }

  lemma DestroyAccepted(st: Store, svc: Service)
    requires Present(OwnOf(st, svc.name))
    ensures Destroy(st, svc).Some?
  {
  }

  /**
   Among any steps of any services, complete, refused or stopped half way: a Destroy that
   completes after a complete Setup gives the service back what the store held of it
   exactly when that was absent or the user's own and free of what the controller adds,
   and changes nothing of any other service. It is not refused unless an earlier Destroy
   of the service has begun.
   */
  lemma InterleavedRoundTrip(st: Store, svc: Service, steps: seq<Step>, other: string)
    requires svc.Valid() && Services(steps) && AfterAll(st, steps).Some?
    requires OfRelease(svc, steps) && FullSetup(svc, steps)
    requires other != svc.name && other != CONTROLLER && other != UPSTREAMS
    ensures var cur := AfterAll(st, steps).value;
            && (NoDestroy(svc, steps) ==> Destroy(cur, svc).Some?)
            && (Destroy(cur, svc).Some? ==>
                  && (OwnOf(Destroy(cur, svc).value, svc.name) == OwnOf(st, svc.name)
                      <==> OwnRestorable(OwnOf(st, svc.name), svc.name))
                  && OwnOf(Destroy(cur, svc).value, other) == OwnOf(cur, other)
                     == OwnRun(OwnOf(st, other), other, steps))
  {
    var cur, o := AfterAll(st, steps).value, OwnOf(st, svc.name);
    NoInterference(st, steps, svc.name);
    NoInterference(st, steps, other);
    OwnRunFrom(o, svc, steps);
    if NoDestroy(svc, steps) {
      OwnRunPresent(o, svc, steps);
      DestroyAccepted(cur, svc);
    }
    DestroyIsItsEdits(cur, svc);
    if Destroy(cur, svc).Some? {
      DestroyOwn(cur, svc, DESTROY_EDITS, svc.name);
      DestroyOwn(cur, svc, DESTROY_EDITS, other);
      OwnRoundTrip(o, OwnOf(cur, svc.name), svc);
    }
  }

  /**
   A Destroy that stopped after it had deleted its routes gets past them again exactly
   when some other service has a route: else the router entry is gone, and its delete is
   refused.
   */
  lemma HaltedDestroyIsStuck(st: Store, svc: Service, k: nat, after: Store)
    requires 2 <= k < DESTROY_EDITS && DestroyUpTo(st, svc, k) == Some(after)
    ensures DestroyUpTo(after, svc, 2).Some? <==> RoutesOf(after.routers) != []
    ensures Destroy(after, svc).Some? ==> RoutesOf(after.routers) != []
  {
    HaltedRouters(st, svc, k);
    DestroyNext(after, svc, 1);
    DestroyNext(after, svc, 2);
  }

  /** From the second edit on the router entry holds no route to the service and is not empty. */
  lemma {:induction false} HaltedRouters(st: Store, svc: Service, k: nat)
    requires 2 <= k && DestroyUpTo(st, svc, k).Some?
    ensures var rs := DestroyUpTo(st, svc, k).value.routers; UPSTREAMS in rs ==> rs[UPSTREAMS].routes != []
  {
    DestroyNext(st, svc, k);
    if k > 2 { HaltedRouters(st, svc, k - 1); }
  }
}
