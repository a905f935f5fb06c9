/** The shared upstream router over any history of creates and deletes for any services. */
module UpstreamRouters {
  import opened ConfigEntries

  type Routers = map<string, Router>

  datatype RouterOp = Create(service: string) | Delete(service: string)

  function UpstreamRoute(namespace: string, name: string): Route {
    Service(name, namespace, "", "").Upstream()
  }

  /** One call; deleting from an absent entry is an error that changes nothing. */
  function Call(rs: Routers, namespace: string, op: RouterOp): Routers {
    match op
    case Create(n) => CreateUpstream(rs, Service(n, namespace, "", ""))
    case Delete(n) => if DeleteUpstream(rs, n).Some? then DeleteUpstream(rs, n).value else rs
  }

  function Replay(rs: Routers, namespace: string, log: seq<RouterOp>): Routers {
    if log == [] then rs else Call(Replay(rs, namespace, log[..|log| - 1]), namespace, log[|log| - 1])
  }

  /** The creates that no later delete of their service undoes, in order. */
  function Surviving(namespace: string, log: seq<RouterOp>): seq<Route> {
    if log == [] then []
    else Survivor(namespace, log[0], log[1..]) + Surviving(namespace, log[1..])
  }

  /** The route of an operation that `later` operations leave, if any. */
  function Survivor(namespace: string, op: RouterOp, later: seq<RouterOp>): seq<Route> {
    if op.Create? && Delete(op.service) !in later then [UpstreamRoute(namespace, op.service)] else []
  }

  /** Creates of a service since its last delete. */
  function CreatesSinceDelete(log: seq<RouterOp>, name: string): nat {
    if log == [] then 0
    else if log[|log| - 1] == Delete(name) then 0
    else CreatesSinceDelete(log[..|log| - 1], name) + if log[|log| - 1] == Create(name) then 1 else 0
  }

  function RoutesTo(routes: seq<Route>, name: string): nat {
    if routes == [] then 0
    else RoutesTo(routes[..|routes| - 1], name) + if routes[|routes| - 1].service == name then 1 else 0
  }

  lemma {:induction false} WithoutConcat(a: seq<Route>, b: seq<Route>, name: string)
    ensures RoutesWithout(a + b, name) == RoutesWithout(a, name) + RoutesWithout(b, name)
    decreases |b|
  {
    if b == [] {
      assert a + b == a;
    } else {
      assert (a + b)[..|a + b| - 1] == a + b[..|b| - 1];
      WithoutConcat(a, b[..|b| - 1], name);
    }
  }

  /** Dropping a service's routes keeps or drops each route on its own. */
  lemma WithoutOne(r: Route, name: string)
    ensures RoutesWithout([r], name) == if r.service == name then [] else [r]
  {
    assert [r][..0] == [];
  }

  /** What one more operation makes of the routes. */
  function OneMore(namespace: string, routes: seq<Route>, op: RouterOp): seq<Route> {
    match op
    case Create(n) => routes + [UpstreamRoute(namespace, n)]
    case Delete(n) => RoutesWithout(routes, n)
  }

  lemma SurvivorLater(namespace: string, op: RouterOp, later: seq<RouterOp>, last: RouterOp)
    ensures Survivor(namespace, op, later + [last])
            == if last.Create? then Survivor(namespace, op, later)
               else RoutesWithout(Survivor(namespace, op, later), last.service)
  {
    if op.Create? {
      assert Delete(op.service) in later + [last] <==> Delete(op.service) in later || last == Delete(op.service);
      assert [UpstreamRoute(namespace, op.service)][..0] == [];
    }
  }

  lemma {:induction false} SurvivingSnoc(namespace: string, log: seq<RouterOp>, op: RouterOp)
    ensures Surviving(namespace, log + [op]) == OneMore(namespace, Surviving(namespace, log), op)
    decreases |log|
  {
    if log == [] {
      assert log + [op] == [op] && [op][1..] == [];
    } else {
      var head, tail := Survivor(namespace, log[0], log[1..]), Surviving(namespace, log[1..]);
      assert (log + [op])[1..] == log[1..] + [op];
      SurvivingSnoc(namespace, log[1..], op);
      SurvivorLater(namespace, log[0], log[1..], op);
      WithoutConcat(head, tail, op.service);
      assert op.Create? ==> head + (tail + [UpstreamRoute(namespace, op.service)])
                            == (head + tail) + [UpstreamRoute(namespace, op.service)];
    }
  }

  lemma CountOneMore(namespace: string, routes: seq<Route>, op: RouterOp, name: string)
    ensures RoutesTo(OneMore(namespace, routes, op), name)
            == if op == Delete(name) then 0 else RoutesTo(routes, name) + if op == Create(name) then 1 else 0
  {
    match op
    case Create(n) => assert (routes + [UpstreamRoute(namespace, n)])[..|routes|] == routes;
    case Delete(n) => CountWithout(routes, n, name);
  }

  lemma {:induction false} CountsSurviving(namespace: string, log: seq<RouterOp>, name: string)
    ensures RoutesTo(Surviving(namespace, log), name) == CreatesSinceDelete(log, name)
    decreases |log|
  {
    if log != [] {
      var init, op := log[..|log| - 1], log[|log| - 1];
      assert log == init + [op];
      CountsSurviving(namespace, init, name);
      SurvivingSnoc(namespace, init, op);
      CountOneMore(namespace, Surviving(namespace, init), op, name);
    }
  }

  lemma {:induction false} CountWithout(routes: seq<Route>, gone: string, name: string)
    ensures RoutesTo(RoutesWithout(routes, gone), name) == if gone == name then 0 else RoutesTo(routes, name)
    decreases |routes|
  {
    if routes != [] {
      CountWithout(routes[..|routes| - 1], gone, name);
      var w := RoutesWithout(routes[..|routes| - 1], gone);
      assert (w + [routes[|routes| - 1]])[..|w|] == w;
      assert w + [] == w;
    }
  }

  /** The entry holds exactly these routes and exists iff there is one; other routers are those of `rs`. */
  predicate Holds(n: Routers, rs: Routers, routes: seq<Route>) {
    && n - {UPSTREAMS} == rs - {UPSTREAMS}
    && RoutesOf(n) == routes && (UPSTREAMS in n <==> routes != [])
  }

  lemma CallHolds(n: Routers, rs: Routers, routes: seq<Route>, namespace: string, op: RouterOp)
    requires Holds(n, rs, routes)
    ensures Holds(Call(n, namespace, op), rs, OneMore(namespace, routes, op))
  {
    assert Call(n, namespace, op) - {UPSTREAMS} == n - {UPSTREAMS};
  }

  lemma {:induction false} ReplayHolds(rs: Routers, namespace: string, log: seq<RouterOp>)
    requires UPSTREAMS !in rs
    ensures Holds(Replay(rs, namespace, log), rs, Surviving(namespace, log))
    decreases |log|
  {
    if log != [] {
      var init, op := log[..|log| - 1], log[|log| - 1];
      assert log == init + [op];
      ReplayHolds(rs, namespace, init);
      SurvivingSnoc(namespace, init, op);
      CallHolds(Replay(rs, namespace, init), rs, Surviving(namespace, init), namespace, op);
    }
  }

  /**
   From an absent entry, over any history: the routes are exactly the surviving
   creates in order, the entry exists iff there is one, and each service has as
   many routes as creates since its last delete.
   */
  lemma RoutesAreSurvivors(rs: Routers, namespace: string, log: seq<RouterOp>, name: string)
    requires UPSTREAMS !in rs
    ensures Holds(Replay(rs, namespace, log), rs, Surviving(namespace, log))
    ensures RoutesTo(RoutesOf(Replay(rs, namespace, log)), name) == CreatesSinceDelete(log, name)
  {
    ReplayHolds(rs, namespace, log);
    CountsSurviving(namespace, log, name);
  }
}
