/** A single route and the composition of its own pipeline (route.go). */
module Routes {
  import opened Handlers
  import opened Compose
  import opened Observation

  /** route.go:6-15; `verb` is the route's HTTP method. */
  datatype Route = Route(path: string, handler: Handler, verb: string, pipeline: Pipeline)
  {
    /** `Route.wrap` (route.go:17-19): the route's handler under its own
        pipeline, first middleware outermost. Path and method play no part. */
    function Wrap(): (h: Handler)
      ensures Layers(h) == pipeline + Layers(handler)
      ensures Core(h) == Core(handler)
      ensures pipeline == [] ==> h == handler
    {
      NestLayers(handler, pipeline);
      Nest(handler, pipeline)
    }
  }

  /** Two routes with the same handler and pipeline wrap to the same
      handler, whatever their paths and methods. */
  lemma WrapIgnoresPathAndVerb(r1: Route, r2: Route)
    requires r1.handler == r2.handler && r1.pipeline == r2.pipeline
    ensures r1.Wrap() == r2.Wrap()
  {
  }

  /** A route over a business handler is observed as its middleware names in
      declaration order, or "null" when it has no pipeline. */
  lemma ObserveRoute(r: Route)
    requires r.handler.Base?
    ensures Observe(r.Wrap()) == if r.pipeline == [] then "null" else Join(Names(r.pipeline))
  {
    ObserveNest(r.handler.id, r.pipeline);
  }
}
