/** What a request observes when it runs through a composed handler, as the
    accumulator of router_test.go measures it: every middleware appends its
    name to a context value, separated by a space, and the business handler
    writes that value, or "null" when nothing was appended. */
module Observation {
  import opened Handlers
  import opened Compose

  datatype Option<T> = None | Some(value: T)

  /** The context update a middleware performs (router_test.go:166-175). */
  function Push(ctx: Option<string>, val: string): (r: Option<string>)
    ensures r.Some?
    ensures ctx.None? ==> r.value == val
    ensures ctx.Some? ==> |r.value| == |ctx.value| + 1 + |val|
    ensures ctx.Some? ==> r.value[..|ctx.value|] == ctx.value && r.value[|ctx.value|..] == " " + val
  {
    match ctx
    case None => Some(val)
    case Some(s) => Some(s + " " + val)
  }

  /** The response body the business handler writes (router_test.go:118-128). */
  function Body(ctx: Option<string>): (body: string)
    ensures ctx.Some? ==> body == ctx.value
    ensures ctx.None? ==> body == "null"
  {
    match ctx
    case None => "null"
    case Some(s) => s
  }

  /** Runs `h` on a request whose context value is `ctx`. */
  function Run(h: Handler, ctx: Option<string>): string
  {
    match h
    case Base(_) => Body(ctx)
    case Applied(m, next) => Run(next, Push(ctx, m.name))
  }

  /** The body a fresh request (no context value) gets from `h`. */
  function Observe(h: Handler): string
  {
    Run(h, None)
  }

  /** The names of a pipeline's middleware, in order. */
  function Names(p: Pipeline): (ns: seq<string>)
    ensures |ns| == |p|
    ensures forall i :: 0 <= i < |p| ==> ns[i] == p[i].name
  {
    seq(|p|, i requires 0 <= i < |p| => p[i].name)
  }

  /** The names of two pipelines joined are the names of each, in order. */
  lemma NamesConcat(p: Pipeline, q: Pipeline)
    ensures Names(p + q) == Names(p) + Names(q)
  {
  }

  /** Names joined with single spaces. */
  function Join(ns: seq<string>): string
    requires ns != []
    decreases |ns|
  {
    if |ns| == 1 then ns[0] else ns[0] + " " + Join(ns[1..])
  }

  /** Joining two non-empty runs of names puts one space between them. */
  lemma {:induction false} JoinConcat(a: seq<string>, b: seq<string>)
    requires a != [] && b != []
    ensures Join(a + b) == Join(a) + " " + Join(b)
    decreases |a|
  {
    if |a| > 1 {
      assert (a + b)[1..] == a[1..] + b;
      JoinConcat(a[1..], b);
    } else {
      assert (a + b)[1..] == b;
    }
  }

  /** The context value after each name in turn has been pushed. */
  function PushAll(ctx: Option<string>, ns: seq<string>): Option<string>
    decreases |ns|
  {
    if ns == [] then ctx else PushAll(Push(ctx, ns[0]), ns[1..])
  }

  /** Pushing names onto an existing value appends them, space-separated. */
  lemma {:induction false} PushAllOnto(s: string, ns: seq<string>)
    requires ns != []
    ensures PushAll(Some(s), ns) == Some(s + " " + Join(ns))
    decreases |ns|
  {
    if |ns| > 1 {
      PushAllOnto(s + " " + ns[0], ns[1..]);
      assert (s + " " + ns[0]) + " " + Join(ns[1..]) == s + " " + (ns[0] + " " + Join(ns[1..]));
    }
  }

  /** Pushing names onto an empty context yields them joined. */
  lemma PushAllFresh(ns: seq<string>)
    requires ns != []
    ensures PushAll(None, ns) == Some(Join(ns))
  {
    if |ns| > 1 {
      PushAllOnto(ns[0], ns[1..]);
    }
  }

  /** Running a handler pushes the names of its layers, outermost first, and
      the business handler writes the result. */
  lemma {:induction false} RunTrace(h: Handler, ctx: Option<string>)
    ensures Run(h, ctx) == Body(PushAll(ctx, Names(Layers(h))))
  {
    match h
    case Base(_) =>
    case Applied(m, next) =>
      RunTrace(next, Push(ctx, m.name));
      assert Names(Layers(h)) == [m.name] + Names(Layers(next)) by {
        NamesConcat([m], Layers(next));
      }
  }

  /** Observing a composed business handler gives the pipeline's names in
      declaration order, space-separated, or "null" for an empty pipeline. */
  lemma ObserveNest(id: nat, pipeline: Pipeline)
    ensures Observe(Nest(Base(id), pipeline)) == if pipeline == [] then "null" else Join(Names(pipeline))
  {
    RunTrace(Nest(Base(id), pipeline), None);
    NestLayers(Base(id), pipeline);
    assert Layers(Nest(Base(id), pipeline)) == pipeline;
    if pipeline != [] {
      PushAllFresh(Names(pipeline));
    }
  }
}
