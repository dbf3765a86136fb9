/** Handlers and middleware as terms.
    A middleware is known by its name; applying it to a next handler is
    recorded as an `Applied` node, so a composed handler is the nesting of
    the middleware that were applied to a business handler. */
module Handlers {

  /** One request-processing wrapper. */
  datatype Middleware = Middleware(name: string)

  /** An ordered list of middleware; the order is the declaration order. */
  type Pipeline = seq<Middleware>

  /** A business handler, or a middleware applied to the next handler. */
  datatype Handler = Base(id: nat) | Applied(mw: Middleware, next: Handler)

  /** The middleware wrapped around `h`, outermost first. */
  function Layers(h: Handler): (ls: seq<Middleware>)
    ensures h.Base? <==> ls == []
  {
    match h
    case Base(_) => []
    case Applied(m, next) => [m] + Layers(next)
  }

  /** The business handler at the bottom of `h`. */
  function Core(h: Handler): nat
  {
    match h
    case Base(id) => id
    case Applied(_, next) => Core(next)
  }

  /** A handler is determined by its layers and its business handler. */
  lemma {:induction false} LayersCoreDetermine(h1: Handler, h2: Handler)
    requires Layers(h1) == Layers(h2) && Core(h1) == Core(h2)
    ensures h1 == h2
  {
    match h1
    case Base(_) =>
    case Applied(m, next) =>
      assert Layers(h1)[0] == m && Layers(h1)[1..] == Layers(next);
      assert Layers(h2)[0] == h2.mw && Layers(h2)[1..] == Layers(h2.next);
      LayersCoreDetermine(next, h2.next);
  }
}
