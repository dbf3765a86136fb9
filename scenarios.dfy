/** The three scenarios of router_test.go, on the model: a router is built,
    applied once, and its single registration is observed through the
    accumulator. The global pipeline the tests also configure has no code in
    the router; `GlobalScopeExtrapolated` states what an outermost global
    pipeline would add, and is not behaviour of the modelled code. */
module Scenarios {
  import opened Handlers
  import opened Compose
  import opened Observation
  import opened Routes
  import opened Groups
  import opened Registry
  import opened Routers

  const TestHandler := Base(0)
  const RouteMiddleware := Middleware("route")
  const RouteMiddleware2 := Middleware("route2")
  const GroupMiddleware := Middleware("group")
  const GroupMiddleware2 := Middleware("group2")
  const GlobalMiddleware := Middleware("global")
  const GlobalMiddleware2 := Middleware("global2")

  /** The route of the tests, with two route middleware. */
  const TestRoute := Route("/route", TestHandler, "GET", [RouteMiddleware, RouteMiddleware2])

  /** The group of the grouped-route test, with two group middleware. */
  const TestGroup := Group([TestRoute], [GroupMiddleware, GroupMiddleware2])

  /** A standalone route with two route middleware is observed in order. */
  method StandaloneRoute() returns (table: seq<Registration>, body: string)
    ensures |table| == 1 && table[0].verb == "GET" && table[0].path == "/route"
    ensures body == Observe(table[0].handler) && body == "route route2"
  {
    var router := new Router([TestRoute], []);
    router.Apply();
    table := router.engine.table;
    ObserveRoute(TestRoute);
    body := Observe(table[0].handler);
  }

  /** A grouped route: group middleware is observed before route middleware. */
  method GroupedRoute() returns (table: seq<Registration>, body: string)
    ensures |table| == 1 && table[0].verb == "GET" && table[0].path == "/route"
    ensures body == Observe(table[0].handler) && body == "group group2 route route2"
  {
    var router := new Router([], [TestGroup]);
    router.Apply();
    table := router.engine.table;
    assert [TestGroup][..0] == [];
    assert GroupsRegistrations([TestGroup]) == TestGroup.Registrations();
    assert table == StandaloneRegistrations([]) + GroupsRegistrations([TestGroup]);
    ObserveGroupedRoute(TestGroup, 0);
    assert Names(TestGroup.pipeline) == ["group", "group2"];
    assert Names(TestRoute.pipeline) == ["route", "route2"];
    JoinConcat(["group", "group2"], ["route", "route2"]);
    body := Observe(table[0].handler);
  }

  /** A route without middleware is observed as "null". */
  method NoPipeline() returns (table: seq<Registration>, body: string)
    ensures |table| == 1 && table[0].verb == "GET" && table[0].path == "/route"
    ensures body == Observe(table[0].handler) && body == "null"
  {
    var route := Route("/route", TestHandler, "GET", []);
    var router := new Router([route], []);
    router.Apply();
    table := router.engine.table;
    ObserveRoute(route);
    body := Observe(table[0].handler);
  }

  /** Extrapolated from the tests, not from the router's code: if a global
      pipeline wrapped a grouped route's registered handler from outside, a
      request would observe global, then group, then route middleware. */
  lemma GlobalScopeExtrapolated(global: Pipeline, g: Group, i: nat)
    requires i < |g.routes| && g.routes[i].handler.Base?
    requires global != []
    ensures Observe(Nest(g.Registrations()[i].handler, global)) ==
              Join(Names(global) + Names(g.pipeline) + Names(g.routes[i].pipeline))
  {
    var route := g.routes[i];
    assert g.Registrations()[i].handler == Nest(route.handler, g.pipeline + route.pipeline);
    assert route.handler == Base(route.handler.id);
    NestSplit(route.handler, global, g.pipeline + route.pipeline);
    ObserveNest(route.handler.id, global + (g.pipeline + route.pipeline));
    NamesConcat(global, g.pipeline + route.pipeline);
    NamesConcat(g.pipeline, route.pipeline);
    assert Names(global) + (Names(g.pipeline) + Names(route.pipeline))
        == Names(global) + Names(g.pipeline) + Names(route.pipeline);
  }

  /** The grouped-route test with its global pipeline, under that extrapolation. */
  lemma GroupedRouteWithGlobal()
    ensures Observe(Nest(TestGroup.Registrations()[0].handler, [GlobalMiddleware, GlobalMiddleware2]))
            == "global global2 group group2 route route2"
  {
    GlobalScopeExtrapolated([GlobalMiddleware, GlobalMiddleware2], TestGroup, 0);
    var global, group, route := ["global", "global2"], ["group", "group2"], ["route", "route2"];
    assert Names([GlobalMiddleware, GlobalMiddleware2]) == global;
    assert Names(TestGroup.pipeline) == group;
    assert Names(TestRoute.pipeline) == route;
    JoinConcat(global + group, route);
    JoinConcat(global, group);
  }
}
