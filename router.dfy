/** The router: standalone routes and groups registered on the embedded
    engine (router.go). */
module Routers {
  import opened Handlers
  import opened Routes
  import opened Groups
  import opened Registry

  /** What `applyRoutes` registers: each standalone route under its own
      method and path, wrapped by its own pipeline only. */
  function StandaloneRegistrations(routes: seq<Route>): (rs: seq<Registration>)
    ensures |rs| == |routes|
    ensures forall i :: 0 <= i < |routes| ==>
              rs[i].verb == routes[i].verb && rs[i].path == routes[i].path &&
              Layers(rs[i].handler) == routes[i].pipeline + Layers(routes[i].handler) &&
              Core(rs[i].handler) == Core(routes[i].handler)
  {
    seq(|routes|, i requires 0 <= i < |routes| => Registration(routes[i].verb, routes[i].path, routes[i].Wrap()))
  }

  /** What `applyGroups` registers: each group's registrations, groups in
      declaration order. */
  function GroupsRegistrations(groups: seq<Group>): seq<Registration>
    decreases |groups|
  {
    if groups == [] then []
    else GroupsRegistrations(groups[..|groups| - 1]) + groups[|groups| - 1].Registrations()
  }

  /** The number of routes over all groups. */
  function RouteCount(groups: seq<Group>): nat
    decreases |groups|
  {
    if groups == [] then 0 else RouteCount(groups[..|groups| - 1]) + |groups[|groups| - 1].routes|
  }

  /** Every grouped route is registered once. */
  lemma {:induction false} GroupsRegistrationsCount(groups: seq<Group>)
    ensures |GroupsRegistrations(groups)| == RouteCount(groups)
    decreases |groups|
  {
    if groups != [] {
      GroupsRegistrationsCount(groups[..|groups| - 1]);
    }
  }

  /** A group's routes with the group pipeline moved in front of each route's
      own pipeline. */
  function Lifted(g: Group): (rs: seq<Route>)
    ensures |rs| == |g.routes|
  {
    seq(|g.routes|, i requires 0 <= i < |g.routes| =>
      Route(g.routes[i].path, g.routes[i].handler, g.routes[i].verb, g.pipeline + g.routes[i].pipeline))
  }

  /** All grouped routes, lifted, groups in declaration order. */
  function Flatten(groups: seq<Group>): seq<Route>
    decreases |groups|
  {
    if groups == [] then [] else Flatten(groups[..|groups| - 1]) + Lifted(groups[|groups| - 1])
  }

  lemma StandaloneConcat(a: seq<Route>, b: seq<Route>)
    ensures StandaloneRegistrations(a + b) == StandaloneRegistrations(a) + StandaloneRegistrations(b)
  {
  }

  /** Registering a group is registering its lifted routes standalone. */
  lemma GroupAsStandalone(g: Group)
    ensures g.Registrations() == StandaloneRegistrations(Lifted(g))
  {
  }

  /** Grouped routes are registered exactly as standalone routes whose
      pipeline is the group's followed by their own. */
  lemma {:induction false} GroupsAsStandalone(groups: seq<Group>)
    ensures GroupsRegistrations(groups) == StandaloneRegistrations(Flatten(groups))
    decreases |groups|
  {
    if groups != [] {
      var init, last := groups[..|groups| - 1], groups[|groups| - 1];
      GroupsAsStandalone(init);
      GroupAsStandalone(last);
      StandaloneConcat(Flatten(init), Lifted(last));
    }
  }

  /** What `apply` registers: standalone routes first, then grouped ones,
      one registration per route. */
  function ApplyRegistrations(routes: seq<Route>, groups: seq<Group>): (rs: seq<Registration>)
    ensures |rs| == |routes| + RouteCount(groups)
    ensures forall i :: 0 <= i < |routes| ==>
              rs[i].verb == routes[i].verb && rs[i].path == routes[i].path &&
              Layers(rs[i].handler) == routes[i].pipeline + Layers(routes[i].handler) &&
              Core(rs[i].handler) == Core(routes[i].handler)
    ensures rs[|routes|..] == StandaloneRegistrations(Flatten(groups))
  {
    GroupsRegistrationsCount(groups);
    GroupsAsStandalone(groups);
    StandaloneRegistrations(routes) + GroupsRegistrations(groups)
  }

  /** router.go:15-21, with the embedded engine held as a field. */
  class Router {
    var groups: seq<Group>
    var routes: seq<Route>
    const engine: Engine

    constructor (routes: seq<Route>, groups: seq<Group>)
      ensures this.routes == routes && this.groups == groups
      ensures fresh(engine) && engine.table == []
    {
      this.routes := routes;
      this.groups := groups;
      engine := new Engine();
    }

    /** `apply` (router.go:28-31). */
    method Apply()
      modifies engine
      ensures unchanged(this)
      ensures engine.table == old(engine.table) + ApplyRegistrations(routes, groups)
    {
      ghost var before := engine.table;
      ApplyRoutes();
      ApplyGroups();
      assert engine.table == before + (StandaloneRegistrations(routes) + GroupsRegistrations(groups));
    }

    /** `applyRoutes` (router.go:33-38). */
    method ApplyRoutes()
      modifies engine
      ensures unchanged(this)
      ensures engine.table == old(engine.table) + StandaloneRegistrations(routes)
    {
      ghost var regs := StandaloneRegistrations(routes);
      var i := 0;
      while i < |routes|
        invariant 0 <= i <= |routes|
        invariant engine.table == old(engine.table) + regs[..i]
      {
        var route := routes[i];
        var h := route.Wrap();
        engine.Handle(route.verb, route.path, h);
        assert regs[..i + 1] == regs[..i] + [regs[i]];
        i := i + 1;
      }
      assert regs[..i] == regs;
    }

    /** `applyGroups` (router.go:40-44). */
    method ApplyGroups()
      modifies engine
      ensures unchanged(this)
      ensures engine.table == old(engine.table) + GroupsRegistrations(groups)
    {
      var i := 0;
      while i < |groups|
        invariant 0 <= i <= |groups|
        invariant engine.table == old(engine.table) + GroupsRegistrations(groups[..i])
      {
        groups[i].Apply(engine);
        assert groups[..i + 1][..i] == groups[..i];
        i := i + 1;
      }
      assert groups[..i] == groups;
    }
  }
}
