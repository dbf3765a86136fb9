/** The path-matching engine the router embeds, reduced to its route table:
    registering a handler appends one entry. */
module Registry {
  import opened Handlers

  /** One `Handle(method, path, handler)` call. */
  datatype Registration = Registration(verb: string, path: string, handler: Handler)

  class Engine {
    var table: seq<Registration>

    constructor ()
      ensures table == []
    {
      table := [];
    }

    /** `Handle`: records the registration after all earlier ones. */
    method Handle(verb: string, path: string, handler: Handler)
      modifies this
      ensures table == old(table) + [Registration(verb, path, handler)]
    {
      table := table + [Registration(verb, path, handler)];
    }
  }
}
