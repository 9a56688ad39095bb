/**
 * The API server: whether TLS is enabled, the installation of the configured routes
 * on the multiplexer, the decisions taken at start (profiling server, health server or
 * health route, secure or plain server) and the answer to unmatched paths.
 */
module ApiServer {
  import opened Elemental
  import opened Routing
  import Contexts

  /** A route of the configuration: method, pattern and the name of its handler. */
  datatype ConfiguredRoute = ConfiguredRoute(verb: string, pattern: string, handlerName: string)

  /** The part of the API server configuration the model reads. */
  datatype ApiConfig = ApiConfig(
    routes: seq<ConfiguredRoute>,
    tlsCAPath: string,
    tlsCertificatePath: string,
    tlsKeyPath: string,
    enableProfiling: bool,
    healthHandler: bool,
    healthEndpoint: string)

  /** TLS is enabled when the CA, certificate and key paths are all given. */
  predicate IsTLSEnabled(c: ApiConfig) {
    c.tlsCAPath != "" && c.tlsCertificatePath != "" && c.tlsKeyPath != ""
  }

  /** The methods a configured route can be installed under. */
  predicate IsSupportedMethod(verb: string) {
    verb in {MethodHead, MethodGet, MethodPost, MethodPut, MethodDelete, MethodPatch}
  }

  /** The multiplexer route a configured route becomes. */
  function Installed(r: ConfiguredRoute): Route {
    Route(r.verb, r.pattern, ConfiguredHandler(r.handlerName))
  }

  /** The routes installed for the configured ones, in order; those under any other method are skipped. */
  function InstalledRoutes(rs: seq<ConfiguredRoute>): (routes: seq<Route>)
  {
    if rs == [] then []
    else
      var last := rs[|rs| - 1];
      InstalledRoutes(rs[..|rs| - 1]) + (if IsSupportedMethod(last.verb) then [Installed(last)] else [])
  }

  /** A route is installed exactly when it comes from a configured route under a supported method. */
  lemma {:induction false} InstalledRoutesMembers(rs: seq<ConfiguredRoute>, route: Route)
    ensures route in InstalledRoutes(rs) <==>
      exists i :: 0 <= i < |rs| && IsSupportedMethod(rs[i].verb) && route == Installed(rs[i])
  {
    if rs != [] {
      var init := rs[..|rs| - 1];
      InstalledRoutesMembers(init, route);
      if route in InstalledRoutes(rs) && route !in InstalledRoutes(init) {
        assert IsSupportedMethod(rs[|rs| - 1].verb) && route == Installed(rs[|rs| - 1]);
      }
      if exists i :: 0 <= i < |rs| && IsSupportedMethod(rs[i].verb) && route == Installed(rs[i]) {
        var i :| 0 <= i < |rs| && IsSupportedMethod(rs[i].verb) && route == Installed(rs[i]);
        if i < |rs| - 1 {
          assert init[i] == rs[i];
        }
      }
    }
  }

  /** No route is added twice, and none that was not configured: there are at most as many as configured. */
  lemma {:induction false} InstalledRoutesLength(rs: seq<ConfiguredRoute>)
    ensures |InstalledRoutes(rs)| <= |rs|
    ensures (forall i :: 0 <= i < |rs| ==> IsSupportedMethod(rs[i].verb)) ==> |InstalledRoutes(rs)| == |rs|
  {
    if rs != [] {
      InstalledRoutesLength(rs[..|rs| - 1]);
    }
  }

  /** Unmatched paths are answered with 404. */
  function NotFoundResponse(): (w: Contexts.Written)
    ensures w.status == StatusNotFound && w.links.None?
    ensures w.body.ErrorList? && |w.body.errors| == 1
    ensures w.body.errors[0].code == StatusNotFound && w.body.errors[0].title == "Not Found"
  {
    Contexts.WriteHTTPError(StatusNotFound,
      NewError("Not Found", "Unable to find the requested resource", "http", StatusNotFound))
  }

  /** The servers the API server starts besides its own multiplexer. */
  datatype Started = Started(profiling: bool, healthServer: bool, secure: bool)

  class ApiServerState {
    const config: ApiConfig
    const multiplexer: Mux
    var started: Option<Started>

    constructor (config: ApiConfig, multiplexer: Mux)
      ensures this.config == config && this.multiplexer == multiplexer && started.None?
    {
      this.config := config;
      this.multiplexer := multiplexer;
      started := None;
    }

    /**
     * Installs every configured route under its own method when that method is HEAD,
     * GET, POST, PUT, DELETE or PATCH, then OPTIONS *, GET / and the not-found handler.
     */
    method InstallRoutes()
      modifies multiplexer
      ensures multiplexer.routes == old(multiplexer.routes) + InstalledRoutes(config.routes)
        + [Route(MethodOptions, "*", CorsHandler), Route(MethodGet, "/", CorsHandler)]
      ensures multiplexer.notFound == Some(NotFoundHandler)
    {
      var routes := config.routes;
      var i := 0;
      while i < |routes|
        invariant 0 <= i <= |routes|
        invariant multiplexer.routes == old(multiplexer.routes) + InstalledRoutes(routes[..i])
      {
        var r := routes[i];
        assert routes[..i + 1][..i] == routes[..i];
        if r.verb == MethodHead {
          multiplexer.Add(MethodHead, r.pattern, ConfiguredHandler(r.handlerName));
        } else if r.verb == MethodGet {
          multiplexer.Add(MethodGet, r.pattern, ConfiguredHandler(r.handlerName));
        } else if r.verb == MethodPost {
          multiplexer.Add(MethodPost, r.pattern, ConfiguredHandler(r.handlerName));
        } else if r.verb == MethodPut {
          multiplexer.Add(MethodPut, r.pattern, ConfiguredHandler(r.handlerName));
        } else if r.verb == MethodDelete {
          multiplexer.Add(MethodDelete, r.pattern, ConfiguredHandler(r.handlerName));
        } else if r.verb == MethodPatch {
          multiplexer.Add(MethodPatch, r.pattern, ConfiguredHandler(r.handlerName));
        }
        i := i + 1;
      }
      assert routes[..i] == routes;
      multiplexer.Add(MethodOptions, "*", CorsHandler);
      multiplexer.Add(MethodGet, "/", CorsHandler);
      multiplexer.SetNotFound(NotFoundHandler);
    }

    /**
     * Starts the profiling server when profiling is enabled, installs the routes, and
     * then: with TLS, starts a separate health server when there is a health handler;
     * without TLS, adds the health handler as GET on the health endpoint of the main
     * multiplexer.
     */
    method Start()
      modifies this, multiplexer
      ensures started == Some(Started(config.enableProfiling, IsTLSEnabled(config) && config.healthHandler, IsTLSEnabled(config)))
      ensures multiplexer.routes == old(multiplexer.routes) + InstalledRoutes(config.routes)
        + [Route(MethodOptions, "*", CorsHandler), Route(MethodGet, "/", CorsHandler)]
        + (if !IsTLSEnabled(config) && config.healthHandler then [Route(MethodGet, config.healthEndpoint, HealthHandler)] else [])
      ensures multiplexer.notFound == Some(NotFoundHandler)
    {
      var profiling := config.enableProfiling;
      InstallRoutes();
      if IsTLSEnabled(config) {
        started := Some(Started(profiling, config.healthHandler, true));
      } else {
        if config.healthHandler {
          multiplexer.Add(MethodGet, config.healthEndpoint, HealthHandler);
        }
        started := Some(Started(profiling, false, false));
      }
    }
  }

  /** Routes under an unsupported method are skipped, the others kept in order. */
  method InstallScenario() returns (installed: seq<Route>)
    ensures installed == [
      Route(MethodGet, "/a", ConfiguredHandler("a")),
      Route(MethodOptions, "*", CorsHandler),
      Route(MethodGet, "/", CorsHandler)]
  {
    var mux := new Mux();
    var cfg := ApiConfig([ConfiguredRoute(MethodGet, "/a", "a"), ConfiguredRoute("TRACE", "/b", "b")], "", "", "", false, false, "");
    var server := new ApiServerState(cfg, mux);
    server.InstallRoutes();
    assert !IsSupportedMethod("TRACE") by {
      assert "TRACE"[0] == 'T';
      assert MethodPatch[0] == 'P' && MethodHead[0] == 'H' && MethodPost[0] == 'P' && MethodDelete[0] == 'D' && MethodGet[0] == 'G';
    }
    assert cfg.routes[..1] == [ConfiguredRoute(MethodGet, "/a", "a")];
    assert cfg.routes[..1][..0] == [];
    assert IsSupportedMethod(MethodGet);
    assert InstalledRoutes(cfg.routes[..1]) == [Installed(ConfiguredRoute(MethodGet, "/a", "a"))];
    assert InstalledRoutes(cfg.routes) == InstalledRoutes(cfg.routes[..1]);
    installed := mux.routes;
  }

  /**
   * Missing any one of the three TLS paths is enough to serve without TLS: the server
   * is plain, no health server starts, and the health handler is routed on the main
   * multiplexer instead.
   */
  method PlainStartScenario(ca: string, cert: string, key: string) returns (started: Started, routes: seq<Route>)
    requires ca == "" || cert == "" || key == ""
    ensures !started.secure && !started.healthServer
    ensures |routes| == 3 && routes[2] == Route(MethodGet, "/health", HealthHandler)
  {
    var mux := new Mux();
    var server := new ApiServerState(ApiConfig([], ca, cert, key, false, true, "/health"), mux);
    server.Start();
    started := server.started.value;
    routes := mux.routes;
  }
}
