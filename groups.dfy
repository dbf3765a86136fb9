/** A group of routes sharing a pipeline (group.go). */
module Groups {
  import opened Handlers
  import opened Compose
  import opened Observation
  import opened Routes
  import opened Registry

  /** group.go:4-9. The group's pipeline wraps each route's own pipeline. */
  datatype Group = Group(routes: seq<Route>, pipeline: Pipeline)
  {
    /** The registrations `apply` makes, one per route in declaration order:
        the route's own method and path, and its handler under the group
        pipeline followed by the route pipeline, so group middleware is
        outer to route middleware. */
    function Registrations(): (rs: seq<Registration>)
      ensures |rs| == |routes|
      ensures forall i :: 0 <= i < |routes| ==>
                rs[i].verb == routes[i].verb && rs[i].path == routes[i].path &&
                rs[i].handler == Nest(routes[i].handler, pipeline + routes[i].pipeline)
      ensures pipeline == [] ==> forall i :: 0 <= i < |routes| ==> rs[i].handler == routes[i].Wrap()
    {
      var rs := seq(|routes|, i requires 0 <= i < |routes| =>
                  Registration(routes[i].verb, routes[i].path, Nest(routes[i].Wrap(), pipeline)));
      assert forall i :: 0 <= i < |routes| ==>
               rs[i].handler == Nest(routes[i].handler, pipeline + routes[i].pipeline) by {
        forall i | 0 <= i < |routes|
          ensures rs[i].handler == Nest(routes[i].handler, pipeline + routes[i].pipeline)
        {
          NestSplit(routes[i].handler, pipeline, routes[i].pipeline);
        }
      }
      rs
    }

    /** `Group.apply` (group.go:11-16): registers every route, in order. */
    method Apply(engine: Engine)
      modifies engine
      ensures engine.table == old(engine.table) + Registrations()
    {
      ghost var regs := Registrations();
      var i := 0;
      while i < |routes|
        invariant 0 <= i <= |routes|
        invariant engine.table == old(engine.table) + regs[..i]
      {
        var route := routes[i];
        var h := Wrap(route.Wrap(), pipeline);
        engine.Handle(route.verb, route.path, h);
        assert regs[..i + 1] == regs[..i] + [regs[i]];
        i := i + 1;
      }
      assert regs[..i] == regs;
    }
  }

  /** A grouped route over a business handler is observed as the group's
      middleware names followed by the route's, in declaration order. */
  lemma ObserveGroupedRoute(g: Group, i: nat)
    requires i < |g.routes| && g.routes[i].handler.Base?
    ensures Observe(g.Registrations()[i].handler) ==
              if g.pipeline + g.routes[i].pipeline == [] then "null"
              else Join(Names(g.pipeline) + Names(g.routes[i].pipeline))
  {
    ObserveNest(g.routes[i].handler.id, g.pipeline + g.routes[i].pipeline);
    NamesConcat(g.pipeline, g.routes[i].pipeline);
  }
}
