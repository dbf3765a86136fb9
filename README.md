# Middleware composition for an httprouter wrapper

This project models the core of `httprouter_middleware`, a small Go layer over
the `julienschmidt/httprouter` path-matching engine. Callers declare routes
and route groups. Each route and each group carries an ordered pipeline of
middleware. The layer folds each pipeline around its handler and registers
the result with the engine.

The model has these parts:

- `Handlers` (`handlers.dfy`): the `Middleware` and `Pipeline` types. A
  middleware is known only by its name. A handler is a term: a business
  handler `Base(id)`, or `Applied(mw, next)` for a middleware applied to the
  next handler. `Layers` lists a handler's middleware from the outermost in,
  and `Core` gives its business handler.
- `Compose` (`compose.dfy`): `wrap`, written as a method with the source's
  early return and its count-down loop. It is proved against `Nest`, where
  `pipeline[0]` is outermost. `FoldFromLast` is the loop alone as a function.
- `Observation` (`observation.dfy`): the accumulator the tests use. Each
  middleware appends its name to a context value, separated by a space. The
  business handler writes that value, or `"null"` if nothing was appended.
- `Routes` (`routes.dfy`): `Route` and `Route.wrap`.
- `Registry` (`registry.dfy`): the embedded engine, reduced to its route
  table. `Handle` appends one `(method, path, handler)` entry.
- `Groups` (`groups.dfy`): `Group` and `Group.apply`.
- `Routers` (`router.dfy`): `Router` with `apply`, `applyRoutes` and
  `applyGroups`, plus the functions that say what each one registers.
- `Scenarios` (`scenarios.dfy`): the three test scenarios of
  `router_test.go`, stated on the model.

Where the tests and the code disagree, the model follows the code:

- The tests build a `Config` with a global pipeline through
  `NewDefaultRouter` (`router_test.go:24`, `36-39`, `96`). The router
  (`router.go:15-21`) and the group (`group.go:4-9`) have no global
  pipeline, base path or group prefix. So routes are registered under their
  own path, and only route and group pipelines are applied. `Config` and
  `NewDefaultRouter` are not
  part of this model. `Scenarios.GlobalScopeExtrapolated` and
  `Scenarios.GroupedRouteWithGlobal` show what an outermost global pipeline
  would add. They are labelled as extrapolated from the tests and describe
  no modelled code.
- `Group.apply` takes the `*Router` and calls `r.Handle`. That method belongs
  to the embedded `*httprouter.Router`. So `Group.Apply` takes the engine
  directly. The router keeps the engine as a `const` field instead of
  embedding it.
- The Go field `Method` is called `verb` here, because `method` is a Dafny
  keyword.

## Model

| member | source | states |
|---|---|---|
| `Compose.Wrap` | common.go:5-17 | The count-down loop computes the last-index-first fold `FoldFromLast(handler, pipeline)`; its invariant is that folding the prefix still to do onto the current handler gives that fold. The result of the early return plus the loop is `pipeline[0](pipeline[1](...pipeline[n-1](handler)))`, for every pipeline including the empty one. Its layers are the pipeline in order on top of the handler's own layers, and the business handler is kept. The loop invariant says that after the step at index i the handler is the nesting of `pipeline[i..]`. A ghost counter shows the loop runs exactly `len(pipeline)` steps. |
| `Compose.NestLayers` | common.go:12-14 | Wrapping puts the pipeline's middleware, in declaration order and first outermost, on top of the handler's layers. The business handler stays innermost and unchanged. |
| `Compose.NestAppliesEachOnce` | common.go:12-13 | Each middleware of the pipeline is applied exactly once: the layers grow by the pipeline as a multiset, and the depth grows by `len(pipeline)`. |
| `Compose.NestSplit` | common.go:12-14 | Splitting law: wrapping with `p ++ q` equals wrapping with `q` first and then with `p`. |
| `Compose.FoldFromLastIsNest` | common.go:6-16 | The loop alone, with no early return, wraps from the last index down and gives the outer-first nesting for every pipeline. On the empty pipeline it returns the handler, so the early return gives the same result as the loop. |
| `Handlers.LayersCoreDetermine` | router.go:8-12 | A handler is fully determined by its middleware layers and its business handler. The layer and core facts about `wrap` and `Route.wrap` therefore pin down their results. |
| `Observation.Push` | router_test.go:166-175 | The context update of each test middleware. An empty context becomes the middleware's name. A present value is kept as a prefix and followed by one space and the name. |
| `Observation.Body` | router_test.go:118-128 | The test handler's response body: the context value when present, otherwise `"null"`. |
| `Observation.RunTrace` | router_test.go:130-175 | A request through a handler pushes the names of the handler's layers onto the context value, outermost first. The business handler then writes the result. |
| `Observation.JoinConcat` | router_test.go:166-175 | Appending two non-empty runs of names with the accumulator puts a single space between them. |
| `Observation.ObserveNest` | router_test.go:118-128 | A business handler wrapped by a pipeline is observed as the pipeline's names, in declaration order and space-separated. With an empty pipeline it is observed as `"null"`. |
| `Routes.Route.Wrap` | route.go:17-19 | The route's handler under its own pipeline, with the first middleware outermost. Its layers are the pipeline on top of the handler's layers, and its business handler is the route's. A route with no pipeline gives its raw handler. |
| `Routes.WrapIgnoresPathAndVerb` | route.go:17-19 | The wrapped handler depends only on the route's handler and pipeline, not on its path or method. |
| `Routes.ObserveRoute` | route.go:18 | A route over a business handler is observed as its middleware names in declaration order, or as `"null"` when it has no pipeline. |
| `Registry.Engine.Handle` | group.go:14 | Registration appends exactly one `(method, path, handler)` entry after all earlier entries. |
| `Groups.Group.Registrations` | group.go:11-16 | There is one registration per route, in declaration order, under the route's own method and path with no prefix. The handler is the route's handler nested by the group pipeline followed by the route pipeline, so group middleware is outer. With an empty group pipeline, the handler is the route's `Wrap()`. |
| `Groups.Group.Apply` | group.go:11-16 | The loop appends exactly the group's registrations to the engine's table, in order. |
| `Groups.ObserveGroupedRoute` | group.go:13 | A grouped route is observed as the group's middleware names followed by the route's names. |
| `Routers.StandaloneRegistrations` | router.go:33-38 | There is one registration per standalone route, in order, under its own method and path. The handler's layers are exactly the route's own pipeline, so no group pipeline is applied. |
| `Routers.GroupsRegistrationsCount` | router.go:40-44 | The groups register exactly as many handlers as they have routes in total. |
| `Routers.GroupsAsStandalone` | router.go:40-44 | Registering the groups, in declaration order, gives the same table as registering each grouped route standalone with the group pipeline in front of its own. |
| `Routers.ApplyRegistrations` | router.go:28-31 | `apply` registers `len(Routes)` plus the total group route count. Every standalone route comes first, under its own method and path, wrapped only by its own pipeline around its own business handler. The grouped routes follow, in group order. |
| `Routers.Router.Apply` | router.go:28-31 | The engine's table grows by exactly the registrations of `ApplyRegistrations`, and `Routes` and `Groups` are unchanged. |
| `Routers.Router.ApplyRoutes` | router.go:33-38 | The loop appends the standalone registrations in order and changes nothing else. |
| `Routers.Router.ApplyGroups` | router.go:40-44 | The loop hands each group, in order, to `Group.Apply`. The table grows by the groups' registrations, one group after another. |
| `Scenarios.StandaloneRoute` | router_test.go:22-44 | The standalone-route test without its global pipeline: one `GET /route` registration whose handler is observed as `"route route2"`. |
| `Scenarios.GroupedRoute` | router_test.go:46-76 | The grouped-route test without its global pipeline: one `GET /route` registration whose handler is observed as `"group group2 route route2"`. |
| `Scenarios.NoPipeline` | router_test.go:78-92 | A route with no middleware is registered once, and its registered handler is observed as `"null"`. |
| `Scenarios.GlobalScopeExtrapolated` | router_test.go:68-75 | Extrapolated, not modelled code: a global pipeline wrapped outside a grouped route's handler would be observed before the group names and the route names. |
| `Scenarios.GroupedRouteWithGlobal` | router_test.go:75 | Extrapolated, not modelled code: with the tests' global pipeline, the grouped route would be observed as `"global global2 group group2 route route2"`. |

## Left out

- `Router.ServeHTTP` (router.go:23-26) is left out because it is HTTP transport. It calls `apply()` on every request, which registers every route again; the underlying engine rejects duplicate registrations. The model treats `Apply` as a one-shot operation on a router.
- The httprouter engine itself is a foreign library and is not modelled: path matching, parameter extraction, 404/405 handling and the duplicate-registration panic. `Handle` is modelled only as an append to the route table.
- Middleware and handlers are not modelled as functions. A middleware is a name. Applying it builds a term, so a composed handler is the record of its nesting. What a request observes is modelled only for the test accumulator, where each middleware appends its name and calls the next handler. Middleware that skips the next handler or has other effects is not modelled.
- Nil middleware and nil handlers are not representable: a middleware is always a name and a handler always a term. So the panic when `pipeline[i]` is a nil `Middleware` (common.go:13), and a nil `Route.Handler` with an empty pipeline being handed to the engine (and rejected by it), are not modelled.
- `Config`, the global pipeline, base-path and group-prefix prefixing, and `NewDefaultRouter` are not part of this model, because the router's code has none of them. The two extrapolated scenario members above are the only place a global pipeline appears.
- The test harness's server, HTTP client and body reading (router_test.go:94-116) are network I/O and are left out. So are `t.Parallel()` and request-time concurrency.
- Go's value copy of each route in `range` loops, and pointer receivers, are left out. Routes and groups are immutable values here, so `Route.Wrap` cannot change a route's fields.
