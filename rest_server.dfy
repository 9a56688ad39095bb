/**
 * The ReST server: the rate-limit gate in front of the multiplexer, the request
 * pipeline every operation handler runs (parse, default the parent, check the
 * relationship registry of the requested version, dispatch, write), the route table
 * and the choice of the server's main handler. Request parsing, the rate limiter and
 * the operation dispatchers are collaborators given as inputs.
 */
module RestServer {
  import opened Elemental
  import opened Config
  import opened Routing
  import TestModel

  // The rate-limit gate.

  /** What the gate does with a request: answer it with an error, or pass it on. */
  datatype GateDecision = Reject(e: Error) | Forward

  /**
   * The gate, given the rate limiter's answer: a limiter error is answered with 500,
   * then a limited request with 429; only the rest reach the multiplexer.
   */
  function ServeHTTP(limited: bool, err: Option<string>): (d: GateDecision)
    ensures d.Forward? <==> err.None? && !limited
    ensures err.Some? ==> d == Reject(NewError("Internal Server Error", err.value, "bahamut", StatusInternalServerError))
    ensures err.None? && limited ==>
      d == Reject(NewError("Rate Limit", "You have exceeded your rate limit", "bahamut", StatusTooManyRequests))
  {
    if err.Some? then Reject(NewError("Internal Server Error", err.value, "bahamut", StatusInternalServerError))
    else if limited then Reject(NewError("Rate Limit", "You have exceeded your rate limit", "bahamut", StatusTooManyRequests))
    else Forward
  }

  /** The limiter error is looked at first: whatever the limit says, an error gives 500. */
  lemma ErrorBeforeLimit(limited: bool, err: string)
    ensures ServeHTTP(limited, Some(err)) == ServeHTTP(!limited, Some(err))
    ensures ServeHTTP(limited, Some(err)).e.code == StatusInternalServerError
  {
  }

  // The operation handlers.

  /** The fields of a parsed request that the pipeline reads. */
  datatype Request = Request(version: int, identity: Identity, parentIdentity: Identity, objectID: string)

  /** What a handler hands to the dispatcher: the operation, the request, and whether events can be pushed. */
  datatype Dispatch = Dispatch(op: Operation, request: Request, withPusher: bool)

  /** What a handler answers: an error, or the context the dispatcher produced. */
  datatype Response<C> = HTTPError(e: Error) | ContextWritten(ctx: C)

  /** The answer of a handler together with how far the pipeline went. */
  datatype Handled<C> = Handled(response: Response<C>, checked: bool, dispatched: Option<Dispatch>)

  /** The request as the relationship check sees it: parent-scoped operations default an empty parent to root. */
  function EffectiveRequest(op: Operation, r: Request): (e: Request)
    ensures e.version == r.version && e.identity == r.identity && e.objectID == r.objectID
    ensures op.IsParentScoped() && r.parentIdentity.IsEmpty() ==> e.parentIdentity == RootIdentity
    ensures !(op.IsParentScoped() && r.parentIdentity.IsEmpty()) ==> e.parentIdentity == r.parentIdentity
  {
    if op.IsParentScoped() && r.parentIdentity.IsEmpty() then r.(parentIdentity := RootIdentity) else r
  }

  /** The description of a refused operation; the retrieve-many and info messages name the category. */
  function NotAllowedMessage(op: Operation, identity: Identity): (m: string)
  {
    match op
    case Retrieve => "Retrieve operation not allowed on " + identity.name
    case Update => "Update opration not allowed on " + identity.name
    case Delete => "Delete operation not allowed on " + identity.name
    case RetrieveMany => "RetrieveMany operation not allowed on " + identity.category
    case Create => "Create operation not allowed on " + identity.name
    case Info => "Info operation not allowed on " + identity.category
    case Patch => "Patch operation not allowed on " + identity.name
  }

  /** A refusal names the identity by its category for retrieve-many and info, by its name otherwise. */
  lemma NotAllowedNamesIdentity(op: Operation, identity: Identity)
    ensures var m := NotAllowedMessage(op, identity);
      var subject := if op == RetrieveMany || op == Info then identity.category else identity.name;
      |m| >= |subject| && m[|m| - |subject|..] == subject
  {
  }

  /** Whether the registry of the request's version allows the operation on the effective request. */
  predicate Permitted(op: Operation, r: Request, model: ModelConfig) {
    var e := EffectiveRequest(op, r);
    IsAllowed(RegistryFor(model, e.version), op, e.identity, e.parentIdentity)
  }

  /**
   * The pipeline of the handler of `op`: a request that cannot be parsed gets 400; the
   * registry of the request's version must allow the operation (405 otherwise);
   * then the dispatcher runs, with an event pusher for every operation but info, and
   * its error or its context is the answer.
   */
  function Handle<C>(op: Operation, parsed: Result<Request, string>, model: ModelConfig,
                     dispatcher: Dispatch -> Result<C, Error>): (h: Handled<C>)
    ensures parsed.Failure? ==>
      h == Handled(HTTPError(NewError("Bad Request", parsed.error, "bahamut", StatusBadRequest)), false, None)
    ensures parsed.Success? ==> h.checked
    ensures parsed.Success? ==> (h.dispatched.Some? <==> Permitted(op, parsed.value, model))
    ensures parsed.Success? && !Permitted(op, parsed.value, model) ==>
      h.response == HTTPError(NewError("Not allowed", NotAllowedMessage(op, parsed.value.identity), "bahamut", StatusMethodNotAllowed))
    ensures h.dispatched.Some? ==>
      (parsed.Success?
        && h.dispatched.value == Dispatch(op, EffectiveRequest(op, parsed.value), op != Info)
        && h.response == (match dispatcher(h.dispatched.value)
                          case Failure(e) => HTTPError(e)
                          case Success(c) => ContextWritten(c)))
  {
    if parsed.Failure? then
      Handled(HTTPError(NewError("Bad Request", parsed.error, "bahamut", StatusBadRequest)), false, None)
    else
      var request := EffectiveRequest(op, parsed.value);
      if !IsAllowed(RegistryFor(model, request.version), op, request.identity, request.parentIdentity) then
        Handled(HTTPError(NewError("Not allowed", NotAllowedMessage(op, request.identity), "bahamut", StatusMethodNotAllowed)), true, None)
      else
        var d := Dispatch(op, request, op != Info);
        match dispatcher(d)
        case Failure(e) => Handled(HTTPError(e), true, Some(d))
        case Success(c) => Handled(ContextWritten(c), true, Some(d))
  }

  /** Retrieve, update and delete never look at the parent identity. */
  lemma MainOperationsIgnoreParent(op: Operation, r: Request, parent: Identity, model: ModelConfig)
    requires !op.IsParentScoped()
    ensures Permitted(op, r, model) == Permitted(op, r.(parentIdentity := parent), model)
  {
  }

  /** For the parent-scoped operations, an empty parent is checked as the root. */
  lemma EmptyParentIsRoot(op: Operation, r: Request, model: ModelConfig)
    requires op.IsParentScoped() && r.parentIdentity.IsEmpty()
    ensures Permitted(op, r, model) == Permitted(op, r.(parentIdentity := RootIdentity), model)
  {
  }

  /** Only the registry of the request's own version matters. */
  lemma OnlyOwnVersionMatters(op: Operation, r: Request, m1: ModelConfig, m2: ModelConfig)
    requires r.version in m1.registries && r.version in m2.registries
    requires m1.registries[r.version] == m2.registries[r.version]
    ensures Permitted(op, r, m1) == Permitted(op, r, m2)
  {
  }

  /** A version without a registry refuses every operation. */
  lemma UnknownVersionRefused(op: Operation, r: Request, model: ModelConfig)
    requires r.version !in model.registries
    ensures !Permitted(op, r, model)
  {
  }

  /**
   * With the relationships of the test model as version 1: listing lists at the root
   * is allowed, creating a user under a list is refused, patching a user under a list
   * is allowed, and version 2 refuses everything.
   */
  method RegistryScenario() returns (listAtRoot: bool, userCreateUnderList: bool, userPatchUnderList: bool, otherVersion: bool)
    ensures listAtRoot && !userCreateUnderList && userPatchUnderList && !otherVersion
  {
    var registry := TestModel.BuildRelationships();
    var model := ModelConfig(map[1 := registry], false, []);
    var empty := Identity("", "");
    listAtRoot := Permitted(RetrieveMany, Request(1, TestModel.ListIdentity, empty, ""), model);
    userCreateUnderList := Permitted(Create, Request(1, TestModel.UserIdentity, TestModel.ListIdentity, ""), model);
    userPatchUnderList := Permitted(Patch, Request(1, TestModel.UserIdentity, TestModel.ListIdentity, ""), model);
    otherVersion := Permitted(Retrieve, Request(2, TestModel.ListIdentity, empty, "x"), model);
  }

  // Routes.

  /** The HTTP method each operation is routed under. */
  function VerbOf(op: Operation): string {
    match op
    case Retrieve => MethodGet
    case Update => MethodPut
    case Delete => MethodDelete
    case RetrieveMany => MethodGet
    case Create => MethodPost
    case Info => MethodHead
    case Patch => MethodPatch
  }

  const ObjectPattern := "/:category/:id"
  const CategoryPattern := "/:category"
  const ChildPattern := "/:parentcategory/:id/:category"
  const VersionPrefix := "/v/:version"

  /** The unversioned operation routes, in installation order. */
  const OperationRoutes: seq<Route> := [
    Route(MethodGet, ObjectPattern, OperationHandler(Retrieve)),
    Route(MethodPut, ObjectPattern, OperationHandler(Update)),
    Route(MethodDelete, ObjectPattern, OperationHandler(Delete)),
    Route(MethodGet, CategoryPattern, OperationHandler(RetrieveMany)),
    Route(MethodGet, ChildPattern, OperationHandler(RetrieveMany)),
    Route(MethodPost, CategoryPattern, OperationHandler(Create)),
    Route(MethodPost, ChildPattern, OperationHandler(Create)),
    Route(MethodHead, CategoryPattern, OperationHandler(Info)),
    Route(MethodHead, ChildPattern, OperationHandler(Info)),
    Route(MethodPatch, CategoryPattern, OperationHandler(Patch)),
    Route(MethodPatch, ChildPattern, OperationHandler(Patch))
  ]

  function Versioned(r: Route): Route {
    r.(pattern := VersionPrefix + r.pattern)
  }

  /** The same routes under the version prefix. */
  function VersionedRoutes(rs: seq<Route>): (v: seq<Route>)
    ensures |v| == |rs|
    ensures forall i :: 0 <= i < |rs| ==> v[i] == Versioned(rs[i])
  {
    seq(|rs|, i requires 0 <= i < |rs| => Versioned(rs[i]))
  }

  /** The root route: the custom root handler for every method when there is one, the CORS handler on GET otherwise. */
  function RootRoute(customRoot: bool): Route {
    if customRoot then Route(AnyMethod, "/", CustomRootHandler) else Route(MethodGet, "/", CorsHandler)
  }

  /** The whole route table of the ReST server. */
  function RestRoutes(customRoot: bool): seq<Route> {
    [Route(MethodOptions, "*", CorsHandler), RootRoute(customRoot)]
      + OperationRoutes + VersionedRoutes(OperationRoutes)
  }

  /** Every operation route goes to its operation's handler, under the operation's method. */
  lemma OperationRoutesHandlers()
    ensures |OperationRoutes| == 11
    ensures forall i :: 0 <= i < 11 ==>
      OperationRoutes[i].handler.OperationHandler? && OperationRoutes[i].verb == VerbOf(OperationRoutes[i].handler.op)
  {
  }

  /**
   * Retrieve, update and delete are routed on the object pattern; the parent-scoped
   * operations on the category pattern and on the child pattern.
   */
  lemma OperationRoutesPatterns()
    ensures forall i :: 0 <= i < 11 ==> var op := OperationRoutes[i].handler.op;
      (!op.IsParentScoped() ==> OperationRoutes[i].pattern == ObjectPattern)
      && (op.IsParentScoped() ==> OperationRoutes[i].pattern in {CategoryPattern, ChildPattern})
  {
  }

  /** Every operation has a route; the parent-scoped ones have one at the root and one under a parent. */
  lemma EveryOperationRouted(op: Operation)
    ensures !op.IsParentScoped() ==> Route(VerbOf(op), ObjectPattern, OperationHandler(op)) in OperationRoutes
    ensures op.IsParentScoped() ==>
      Route(VerbOf(op), CategoryPattern, OperationHandler(op)) in OperationRoutes
      && Route(VerbOf(op), ChildPattern, OperationHandler(op)) in OperationRoutes
  {
    var t := OperationRoutes;
    match op
    case Retrieve => assert t[0] == Route(VerbOf(op), ObjectPattern, OperationHandler(op));
    case Update => assert t[1] == Route(VerbOf(op), ObjectPattern, OperationHandler(op));
    case Delete => assert t[2] == Route(VerbOf(op), ObjectPattern, OperationHandler(op));
    case RetrieveMany =>
      assert t[3] == Route(VerbOf(op), CategoryPattern, OperationHandler(op));
      assert t[4] == Route(VerbOf(op), ChildPattern, OperationHandler(op));
    case Create =>
      assert t[5] == Route(VerbOf(op), CategoryPattern, OperationHandler(op));
      assert t[6] == Route(VerbOf(op), ChildPattern, OperationHandler(op));
    case Info =>
      assert t[7] == Route(VerbOf(op), CategoryPattern, OperationHandler(op));
      assert t[8] == Route(VerbOf(op), ChildPattern, OperationHandler(op));
    case Patch =>
      assert t[9] == Route(VerbOf(op), CategoryPattern, OperationHandler(op));
      assert t[10] == Route(VerbOf(op), ChildPattern, OperationHandler(op));
  }

  /**
   * The table holds the OPTIONS and root routes, then each operation route bare, then
   * each again under /v/:version with the same method and handler.
   */
  lemma RestRoutesShape(customRoot: bool)
    ensures var t := RestRoutes(customRoot);
      |t| == 24
      && t[0] == Route(MethodOptions, "*", CorsHandler)
      && (customRoot ==> t[1] == Route(AnyMethod, "/", CustomRootHandler))
      && (!customRoot ==> t[1] == Route(MethodGet, "/", CorsHandler))
      && forall i :: 0 <= i < 11 ==>
        t[2 + i] == OperationRoutes[i]
        && t[13 + i].verb == t[2 + i].verb && t[13 + i].handler == t[2 + i].handler
        && t[13 + i].pattern == VersionPrefix + t[2 + i].pattern
  {
  }

  /** Which of its two handlers the server's main handler is. */
  datatype MainHandler = GateHandler | MuxHandler

  /** The HTTP server the ReST server starts: whether it serves TLS and with which main handler. */
  datatype HttpServer = HttpServer(secure: bool, handler: MainHandler)

  /** The part of the configuration the ReST server reads to install routes and start. */
  datatype RestConfig = RestConfig(customRootHandler: bool, serverCertificates: bool, rateLimiter: bool)

  class RestServerState {
    const config: RestConfig
    const multiplexer: Mux
    var server: Option<HttpServer>

    constructor (config: RestConfig, multiplexer: Mux)
      ensures this.config == config && this.multiplexer == multiplexer && server.None?
    {
      this.config := config;
      this.multiplexer := multiplexer;
      server := None;
    }

    /** Installs the CORS, not-found and root handlers and the 22 operation routes. */
    method InstallRoutes()
      modifies multiplexer
      ensures multiplexer.routes == old(multiplexer.routes) + RestRoutes(config.customRootHandler)
      ensures multiplexer.notFound == Some(NotFoundHandler)
    {
      multiplexer.Add(MethodOptions, "*", CorsHandler);
      multiplexer.SetNotFound(NotFoundHandler);
      if config.customRootHandler {
        multiplexer.Add(AnyMethod, "/", CustomRootHandler);
      } else {
        multiplexer.Add(MethodGet, "/", CorsHandler);
      }
      ghost var head := multiplexer.routes;
      AddOperationRoutes();
      AddVersionedOperationRoutes();
      assert multiplexer.routes == head + OperationRoutes + VersionedRoutes(OperationRoutes);
    }

    /** The eleven operation routes, bare. */
    method AddOperationRoutes()
      modifies multiplexer
      ensures multiplexer.routes == old(multiplexer.routes) + OperationRoutes
      ensures multiplexer.notFound == old(multiplexer.notFound)
    {
      multiplexer.Add(MethodGet, ObjectPattern, OperationHandler(Retrieve));
      multiplexer.Add(MethodPut, ObjectPattern, OperationHandler(Update));
      multiplexer.Add(MethodDelete, ObjectPattern, OperationHandler(Delete));
      multiplexer.Add(MethodGet, CategoryPattern, OperationHandler(RetrieveMany));
      multiplexer.Add(MethodGet, ChildPattern, OperationHandler(RetrieveMany));
      multiplexer.Add(MethodPost, CategoryPattern, OperationHandler(Create));
      multiplexer.Add(MethodPost, ChildPattern, OperationHandler(Create));
      multiplexer.Add(MethodHead, CategoryPattern, OperationHandler(Info));
      multiplexer.Add(MethodHead, ChildPattern, OperationHandler(Info));
      multiplexer.Add(MethodPatch, CategoryPattern, OperationHandler(Patch));
      multiplexer.Add(MethodPatch, ChildPattern, OperationHandler(Patch));
    }

    /** The same eleven routes under the version prefix. */
    method AddVersionedOperationRoutes()
      modifies multiplexer
      ensures multiplexer.routes == old(multiplexer.routes) + VersionedRoutes(OperationRoutes)
      ensures multiplexer.notFound == old(multiplexer.notFound)
    {
      multiplexer.Add(MethodGet, VersionPrefix + ObjectPattern, OperationHandler(Retrieve));
      multiplexer.Add(MethodPut, VersionPrefix + ObjectPattern, OperationHandler(Update));
      multiplexer.Add(MethodDelete, VersionPrefix + ObjectPattern, OperationHandler(Delete));
      multiplexer.Add(MethodGet, VersionPrefix + CategoryPattern, OperationHandler(RetrieveMany));
      multiplexer.Add(MethodGet, VersionPrefix + ChildPattern, OperationHandler(RetrieveMany));
      multiplexer.Add(MethodPost, VersionPrefix + CategoryPattern, OperationHandler(Create));
      multiplexer.Add(MethodPost, VersionPrefix + ChildPattern, OperationHandler(Create));
      multiplexer.Add(MethodHead, VersionPrefix + CategoryPattern, OperationHandler(Info));
      multiplexer.Add(MethodHead, VersionPrefix + ChildPattern, OperationHandler(Info));
      multiplexer.Add(MethodPatch, VersionPrefix + CategoryPattern, OperationHandler(Patch));
      multiplexer.Add(MethodPatch, VersionPrefix + ChildPattern, OperationHandler(Patch));
      ghost var added := multiplexer.routes[|old(multiplexer.routes)|..];
      assert multiplexer.routes == old(multiplexer.routes) + added;
      assert forall i :: 0 <= i < 11 ==> added[i] == Versioned(OperationRoutes[i]);
    }

    /**
     * Installs the routes and creates the server: TLS when server certificates are
     * configured, and the rate-limit gate as main handler exactly when a rate limiter is.
     */
    method Start()
      modifies this, multiplexer
      ensures multiplexer.routes == old(multiplexer.routes) + RestRoutes(config.customRootHandler)
      ensures multiplexer.notFound == Some(NotFoundHandler)
      ensures server == Some(HttpServer(config.serverCertificates, if config.rateLimiter then GateHandler else MuxHandler))
    {
      InstallRoutes();
      var secure := config.serverCertificates;
      server := Some(HttpServer(secure, MuxHandler));
      if config.rateLimiter {
        server := Some(server.value.(handler := GateHandler));
      }
    }
  }
}
