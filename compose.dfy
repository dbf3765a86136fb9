/** The composer: folding a pipeline around a handler (common.go). */
module Compose {
  import opened Handlers

  /** `pipeline[0](pipeline[1](...pipeline[n-1](handler)))`: the first
      middleware is outermost and the handler innermost. */
  function Nest(handler: Handler, pipeline: Pipeline): Handler
    decreases |pipeline|
  {
    if pipeline == [] then handler
    else Applied(pipeline[0], Nest(handler, pipeline[1..]))
  }

  /** Nesting puts the pipeline, in order, on top of the handler's own
      layers and keeps its business handler. */
  lemma {:induction false} NestLayers(handler: Handler, pipeline: Pipeline)
    ensures Layers(Nest(handler, pipeline)) == pipeline + Layers(handler)
    ensures Core(Nest(handler, pipeline)) == Core(handler)
    decreases |pipeline|
  {
    if pipeline != [] {
      NestLayers(handler, pipeline[1..]);
      assert [pipeline[0]] + (pipeline[1..] + Layers(handler)) == pipeline + Layers(handler);
    }
  }

  /** Each middleware of the pipeline is applied exactly once, so the
      nesting depth grows by the pipeline's length. */
  lemma NestAppliesEachOnce(handler: Handler, pipeline: Pipeline)
    ensures |Layers(Nest(handler, pipeline))| == |pipeline| + |Layers(handler)|
    ensures multiset(Layers(Nest(handler, pipeline))) == multiset(pipeline) + multiset(Layers(handler))
  {
    NestLayers(handler, pipeline);
  }

  /** Splitting law: wrapping with `p + q` is wrapping with `q`, then with `p`. */
  lemma {:induction false} NestSplit(handler: Handler, p: Pipeline, q: Pipeline)
    ensures Nest(handler, p + q) == Nest(Nest(handler, q), p)
    decreases |p|
  {
    if p == [] {
      assert p + q == q;
    } else {
      assert (p + q)[1..] == p[1..] + q;
      NestSplit(handler, p[1..], q);
    }
  }

  /** The loop of common.go:12-14 on its own, without the early return:
      wrap with the last middleware first, then with the one before it. */
  function FoldFromLast(acc: Handler, pipeline: Pipeline): Handler
    decreases |pipeline|
  {
    if pipeline == [] then acc
    else FoldFromLast(Applied(pipeline[|pipeline| - 1], acc), pipeline[..|pipeline| - 1])
  }

  /** Folding from the last index down yields the outer-first nesting, for
      every pipeline; on the empty one both are the handler itself, so the
      early return of common.go:6-8 does not change the result. */
  lemma {:induction false} FoldFromLastIsNest(handler: Handler, pipeline: Pipeline)
    ensures FoldFromLast(handler, pipeline) == Nest(handler, pipeline)
    decreases |pipeline|
  {
    if pipeline != [] {
      var n := |pipeline| - 1;
      FoldFromLastIsNest(Applied(pipeline[n], handler), pipeline[..n]);
      NestSplit(handler, pipeline[..n], [pipeline[n]]);
      assert pipeline[..n] + [pipeline[n]] == pipeline;
      assert Nest(handler, [pipeline[n]]) == Applied(pipeline[n], handler) by {
        assert [pipeline[n]][1..] == [];
      }
    }
  }

  /** `wrap` (common.go:5-17): returns the handler for an empty pipeline,
      otherwise re-wraps from the last index down to 0. */
  method Wrap(handler: Handler, pipeline: Pipeline) returns (wrapped: Handler)
    ensures wrapped == FoldFromLast(handler, pipeline)
    ensures wrapped == Nest(handler, pipeline)
    ensures Layers(wrapped) == pipeline + Layers(handler)
    ensures Core(wrapped) == Core(handler)
  {
    NestLayers(handler, pipeline);
    FoldFromLastIsNest(handler, pipeline);
    if |pipeline| == 0 {
      return handler;
    }
    wrapped := handler;
    ghost var steps := 0;
    var i := |pipeline| - 1;
    assert pipeline[..i + 1] == pipeline;
    while i >= 0
      invariant -1 <= i < |pipeline|
      invariant steps == |pipeline| - 1 - i
      invariant wrapped == Nest(handler, pipeline[i + 1..])
      invariant FoldFromLast(wrapped, pipeline[..i + 1]) == FoldFromLast(handler, pipeline)
      decreases i
    {
      assert pipeline[..i + 1][..i] == pipeline[..i];
      assert pipeline[i..][1..] == pipeline[i + 1..];
      wrapped := Applied(pipeline[i], wrapped);
      i := i - 1;
      steps := steps + 1;
    }
    assert steps == |pipeline|;
    assert pipeline[0..] == pipeline;
    assert pipeline[..0] == [];
  }
}
