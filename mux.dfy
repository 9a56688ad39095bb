/**
 * The HTTP multiplexer as the servers see it: an ordered table of
 * (method, pattern, handler) routes plus a not-found handler. How the multiplexer
 * matches a path against a pattern is not part of this model.
 */
module Routing {
  import opened Elemental

  const MethodHead := "HEAD"
  const MethodGet := "GET"
  const MethodPost := "POST"
  const MethodPut := "PUT"
  const MethodDelete := "DELETE"
  const MethodPatch := "PATCH"
  const MethodOptions := "OPTIONS"
  /** The method of a route registered for every method at once. */
  const AnyMethod := "*"

  /** Which handler a route leads to. */
  datatype Handler =
    | CorsHandler
    | NotFoundHandler
    | CustomRootHandler
    | OperationHandler(op: Operation)
    | EventsHandler
    | WsapiHandler
    | ConfiguredHandler(name: string)
    | HealthHandler

  datatype Route = Route(verb: string, pattern: string, handler: Handler)

  class Mux {
    var routes: seq<Route>
    var notFound: Option<Handler>

    constructor ()
      ensures routes == [] && notFound == None
    {
      routes := [];
      notFound := None;
    }

    /** Registers `handler` for `verb` on `pattern`, after every route already there. */
    method Add(verb: string, pattern: string, handler: Handler)
      modifies this
      ensures routes == old(routes) + [Route(verb, pattern, handler)]
      ensures notFound == old(notFound)
    {
      routes := routes + [Route(verb, pattern, handler)];
    }

    method SetNotFound(handler: Handler)
      modifies this
      ensures notFound == Some(handler)
      ensures routes == old(routes)
    {
      notFound := Some(handler);
    }
  }
}
