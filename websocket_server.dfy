/**
 * The websocket server: the registry of open sessions, the session handler hooks
 * (push session init/start/stop, publication filter), session authentication, the
 * publication of events to the pub/sub service and the routes the server installs.
 * The session handler and the pub/sub service are modelled after the test doubles
 * that drive them: a handler counts its calls and gives fixed answers, a service
 * records what it is asked to publish.
 */
module WebsocketServer {
  import opened Elemental
  import opened Config
  import opened Routing

  /** A websocket session: its identifier and whether it is a push session. */
  datatype Session = Session(id: string, push: bool)

  /** What a handler answers to a yes/no question: the answer and an optional error. */
  datatype HandlerAnswer = HandlerAnswer(ok: bool, err: Option<string>)

  /** The session handler hooks. */
  class SessionHandler {
    var initCalled: nat
    var startCalled: nat
    var stopCalled: nat
    var shouldPublishCalled: nat
    /** The answer to push session initialization. */
    const initAnswer: HandlerAnswer
    /** The answer to "should this event be published". */
    const publishAnswer: Event -> HandlerAnswer

    constructor (initAnswer: HandlerAnswer, publishAnswer: Event -> HandlerAnswer)
      ensures this.initAnswer == initAnswer && this.publishAnswer == publishAnswer
      ensures initCalled == 0 && startCalled == 0 && stopCalled == 0 && shouldPublishCalled == 0
    {
      this.initAnswer := initAnswer;
      this.publishAnswer := publishAnswer;
      initCalled, startCalled, stopCalled, shouldPublishCalled := 0, 0, 0, 0;
    }

    method OnPushSessionInit(s: Session) returns (a: HandlerAnswer)
      modifies this`initCalled
      ensures a == initAnswer && initCalled == old(initCalled) + 1
    {
      initCalled := initCalled + 1;
      a := initAnswer;
    }

    method OnPushSessionStart(s: Session)
      modifies this`startCalled
      ensures startCalled == old(startCalled) + 1
    {
      startCalled := startCalled + 1;
    }

    method OnPushSessionStop(s: Session)
      modifies this`stopCalled
      ensures stopCalled == old(stopCalled) + 1
    {
      stopCalled := stopCalled + 1;
    }

    method ShouldPublish(e: Event) returns (a: HandlerAnswer)
      modifies this`shouldPublishCalled
      ensures a == publishAnswer(e) && shouldPublishCalled == old(shouldPublishCalled) + 1
    {
      shouldPublishCalled := shouldPublishCalled + 1;
      a := publishAnswer(e);
    }
  }

  /** The pub/sub service: every publication it is handed is recorded. */
  class PubSub {
    var publications: seq<Event>
    const publishErr: Option<string>

    constructor (publishErr: Option<string>)
      ensures publications == [] && this.publishErr == publishErr
    {
      publications := [];
      this.publishErr := publishErr;
    }

    method Publish(e: Event) returns (err: Option<string>)
      modifies this`publications
      ensures publications == old(publications) + [e] && err == publishErr
    {
      publications := publications + [e];
      err := publishErr;
    }
  }

  /** The part of the configuration the websocket server reads. */
  datatype WsConfig = WsConfig(pushDisabled: bool, apiDisabled: bool, sessionAuthenticators: seq<AuthAnswer>)

  /** The routes the server installs: GET /events unless push is disabled, then GET /wsapi unless the API is. */
  function WsRoutes(c: WsConfig): (r: seq<Route>)
    ensures forall i :: 0 <= i < |r| ==> r[i].verb == MethodGet
  {
    (if c.pushDisabled then [] else [Route(MethodGet, "/events", EventsHandler)])
    + (if c.apiDisabled then [] else [Route(MethodGet, "/wsapi", WsapiHandler)])
  }

  /** Each route is present exactly when its feature is enabled, and /events comes first. */
  lemma WsRoutesPresence(c: WsConfig)
    ensures |WsRoutes(c)| == (if c.pushDisabled then 0 else 1) + (if c.apiDisabled then 0 else 1)
    ensures (exists i :: 0 <= i < |WsRoutes(c)| && WsRoutes(c)[i].pattern == "/events") <==> !c.pushDisabled
    ensures (exists i :: 0 <= i < |WsRoutes(c)| && WsRoutes(c)[i].pattern == "/wsapi") <==> !c.apiDisabled
    ensures !c.pushDisabled ==> WsRoutes(c)[0] == Route(MethodGet, "/events", EventsHandler)
  {
    var r := WsRoutes(c);
    if !c.pushDisabled {
      assert r[0].pattern == "/events";
    }
    if !c.apiDisabled {
      assert r[|r| - 1].pattern == "/wsapi";
    }
    assert forall i :: 0 <= i < |r| ==> r[i].pattern in {"/events", "/wsapi"};
    assert "/events" != "/wsapi" by { assert "/events"[1] != "/wsapi"[1]; }
  }

  /** The error session authentication answers with, given the verdict of the chain. */
  function SessionAuthError(v: Verdict): (err: Option<Error>)
    ensures err.None? <==> v.Granted?
    ensures err.Some? ==> err.value.code == StatusUnauthorized && err.value.title == "Unauthorized"
    ensures v.Failed? ==> err.value.description == v.reason
  {
    match v
    case Granted => None
    case Denied => Some(NewError("Unauthorized", "You are not authorized to start a session", "bahamut", StatusUnauthorized))
    case Failed(reason) => Some(NewError("Unauthorized", reason, "bahamut", StatusUnauthorized))
  }

  /**
   * Whether a push session may start, given the handler's answer: an error refuses
   * whatever the answer beside it, then a negative answer refuses.
   */
  function InitError(a: HandlerAnswer): (err: Option<Error>)
    ensures err.None? <==> a.err.None? && a.ok
    ensures err.Some? ==> err.value.code == StatusForbidden && err.value.title == "Forbidden"
    ensures a.err.Some? ==> err.value.description == a.err.value
  {
    if a.err.Some? then Some(NewError("Forbidden", a.err.value, "bahamut", StatusForbidden))
    else if !a.ok then Some(NewError("Forbidden", "You are not authorized to initiate a push session", "bahamut", StatusForbidden))
    else None
  }

  /** Whether an event passes the publication filter: no error and a positive answer. */
  predicate Approves(a: HandlerAnswer) {
    a.err.None? && a.ok
  }

  /**
   * The events that reach the service, in order: all of them without a handler,
   * otherwise those the handler approves.
   */
  function Published(events: seq<Event>, filter: Option<Event -> HandlerAnswer>): (published: seq<Event>)
  {
    if events == [] then []
    else
      var rest := Published(events[1..], filter);
      if filter.None? || Approves(filter.value(events[0])) then [events[0]] + rest else rest
  }

  /** An event is published exactly when it is among the events and the filter approves it. */
  lemma {:induction false} PublishedMembers(events: seq<Event>, filter: Option<Event -> HandlerAnswer>, e: Event)
    ensures e in Published(events, filter) <==> e in events && (filter.None? || Approves(filter.value(e)))
  {
    if events != [] {
      PublishedMembers(events[1..], filter, e);
      assert events == [events[0]] + events[1..];
    }
  }

  /** Nothing is published more than once, or out of thin air. */
  lemma {:induction false} PublishedLength(events: seq<Event>, filter: Option<Event -> HandlerAnswer>)
    ensures |Published(events, filter)| <= |events|
    ensures filter.None? ==> Published(events, filter) == events
  {
    if events != [] {
      PublishedLength(events[1..], filter);
      assert events == [events[0]] + events[1..];
    }
  }

  lemma PublishedSnoc(events: seq<Event>, e: Event, filter: Option<Event -> HandlerAnswer>)
    ensures Published(events + [e], filter)
      == Published(events, filter) + (if filter.None? || Approves(filter.value(e)) then [e] else [])
  {
    if events == [] {
      assert events + [e] == [e];
    } else {
      assert (events + [e])[1..] == events[1..] + [e];
      PublishedSnoc(events[1..], e, filter);
    }
  }

  class WebsocketServer {
    var sessions: map<string, Session>
    const config: WsConfig
    const handler: SessionHandler?
    const service: PubSub?

    /** Every session is filed under its own, non-empty identifier. */
    ghost predicate Valid()
      reads this
    {
      forall k :: k in sessions ==> k != "" && sessions[k].id == k
    }

    /** A new server has no session and installs its routes on the multiplexer. */
    constructor (config: WsConfig, mux: Mux, handler: SessionHandler?, service: PubSub?)
      modifies mux
      ensures this.config == config && this.handler == handler && this.service == service
      ensures sessions == map[] && Valid()
      ensures mux.routes == old(mux.routes) + WsRoutes(config) && mux.notFound == old(mux.notFound)
    {
      this.config := config;
      this.handler := handler;
      this.service := service;
      sessions := map[];
      new;
      if !config.pushDisabled {
        mux.Add(MethodGet, "/events", EventsHandler);
      }
      if !config.apiDisabled {
        mux.Add(MethodGet, "/wsapi", WsapiHandler);
      }
    }

    /**
     * Files the session under its identifier (an empty identifier is a programming
     * error); the start hook runs for push sessions only, when there is a handler.
     */
    method RegisterSession(s: Session)
      requires Valid() && s.id != ""
      modifies this`sessions
      modifies if handler != null then {handler} else {}
      ensures Valid()
      ensures sessions == old(sessions)[s.id := s]
      ensures handler != null ==>
        handler.startCalled == old(handler.startCalled) + (if s.push then 1 else 0)
        && handler.stopCalled == old(handler.stopCalled)
        && handler.initCalled == old(handler.initCalled)
        && handler.shouldPublishCalled == old(handler.shouldPublishCalled)
    {
      sessions := sessions[s.id := s];
      if s.push && handler != null {
        handler.OnPushSessionStart(s);
      }
    }

    /** Removes the session; the stop hook runs for push sessions only, when there is a handler. */
    method UnregisterSession(s: Session)
      requires Valid() && s.id != ""
      modifies this`sessions
      modifies if handler != null then {handler} else {}
      ensures Valid()
      ensures sessions == old(sessions) - {s.id}
      ensures handler != null ==>
        handler.stopCalled == old(handler.stopCalled) + (if s.push then 1 else 0)
        && handler.startCalled == old(handler.startCalled)
        && handler.initCalled == old(handler.initCalled)
        && handler.shouldPublishCalled == old(handler.shouldPublishCalled)
    {
      sessions := sessions - {s.id};
      if s.push && handler != null {
        handler.OnPushSessionStop(s);
      }
    }

    /**
     * Runs the session authenticators in order; the first that grants, denies or errs
     * decides, and a chain that only continues (or is empty) lets the session in.
     */
    method AuthSession(s: Session) returns (err: Option<Error>)
      ensures err == SessionAuthError(RunChain(config.sessionAuthenticators))
    {
      var chain := config.sessionAuthenticators;
      var i := 0;
      while i < |chain|
        invariant 0 <= i <= |chain|
        invariant RunChain(chain[i..]) == RunChain(chain)
      {
        assert chain[i..][1..] == chain[i + 1..];
        var a := chain[i];
        if a.err.Some? {
          return Some(NewError("Unauthorized", a.err.value, "bahamut", StatusUnauthorized));
        }
        if a.action == AuthActionOK {
          return None;
        }
        if a.action == AuthActionKO {
          return Some(NewError("Unauthorized", "You are not authorized to start a session", "bahamut", StatusUnauthorized));
        }
        i := i + 1;
      }
      return None;
    }

    /** Asks the handler, when there is one, whether a push session may start. */
    method InitPushSession(s: Session) returns (err: Option<Error>)
      modifies if handler != null then {handler} else {}
      ensures handler == null ==> err.None?
      ensures handler != null ==> err == InitError(handler.initAnswer)
      ensures handler != null ==> handler.initCalled == old(handler.initCalled) + 1
      ensures handler != null ==>
        handler.startCalled == old(handler.startCalled) && handler.stopCalled == old(handler.stopCalled)
        && handler.shouldPublishCalled == old(handler.shouldPublishCalled)
    {
      if handler == null {
        return None;
      }
      var a := handler.OnPushSessionInit(s);
      err := InitError(a);
    }

    /**
     * Hands every event the handler approves to the pub/sub service, in order;
     * without a service nothing happens. Filter errors and publication errors are
     * only logged.
     */
    method PushEvents(events: seq<Event>)
      modifies if service != null then {service} else {}
      modifies if service != null && handler != null then {handler} else {}
      ensures service != null ==>
        (service.publications == old(service.publications)
          + Published(events, if handler == null then None else Some(handler.publishAnswer)))
      ensures service != null && handler != null ==>
        handler.shouldPublishCalled == old(handler.shouldPublishCalled) + |events|
      ensures handler != null ==>
        handler.initCalled == old(handler.initCalled) && handler.startCalled == old(handler.startCalled)
        && handler.stopCalled == old(handler.stopCalled)
    {
      if service == null {
        return;
      }
      var filter := if handler == null then None else Some(handler.publishAnswer);
      var i := 0;
      while i < |events|
        invariant 0 <= i <= |events|
        invariant service.publications == old(service.publications) + Published(events[..i], filter)
        invariant handler != null ==> handler.shouldPublishCalled == old(handler.shouldPublishCalled) + i
        invariant handler != null ==>
          handler.initCalled == old(handler.initCalled) && handler.startCalled == old(handler.startCalled)
          && handler.stopCalled == old(handler.stopCalled)
      {
        var e := events[i];
        PublishedSnoc(events[..i], e, filter);
        assert events[..i + 1] == events[..i] + [e];
        var approved := true;
        if handler != null {
          var a := handler.ShouldPublish(e);
          approved := Approves(a);
        }
        if approved {
          var _ := service.Publish(e);
        }
        i := i + 1;
      }
      assert events[..|events|] == events;
    }
  }

  // The test scenarios, replayed on the model.

  lemma StatusText()
    ensures NatToString(401) == "401" && NatToString(403) == "403"
  {
    assert NatToString(40) == NatToString(4) + [DigitChar(0)];
    assert NatToString(401) == NatToString(40) + [DigitChar(1)];
    assert NatToString(403) == NatToString(40) + [DigitChar(3)];
  }

  /** The text of a denied session, as a client reads it. */
  lemma DeniedSessionText()
    ensures ErrorString(SessionAuthError(Denied).value)
      == "error 401 (bahamut): Unauthorized: " + "You are not authorized to start a session"
  {
    FailedSessionText("You are not authorized to start a session");
  }

  /** The text of a session whose authenticator failed carries the failure. */
  lemma FailedSessionText(reason: string)
    ensures ErrorString(SessionAuthError(Failed(reason)).value) == "error 401 (bahamut): Unauthorized: " + reason
  {
    StatusText();
  }

  /** The text of a refused push session, as a client reads it. */
  lemma RefusedPushText()
    ensures ErrorString(InitError(HandlerAnswer(false, None)).value)
      == "error 403 (bahamut): Forbidden: " + "You are not authorized to initiate a push session"
  {
    FailedPushText(false, "You are not authorized to initiate a push session");
  }

  /** The text of a push session whose handler failed carries the failure, whatever the answer. */
  lemma FailedPushText(ok: bool, reason: string)
    ensures ErrorString(InitError(HandlerAnswer(ok, Some(reason))).value) == "error 403 (bahamut): Forbidden: " + reason
  {
    StatusText();
  }

  /** Registering then unregistering a push session, then a plain one, hooks counted. */
  method RegistrationScenario()
    returns (pushSize: nat, starts: nat, emptied: bool, stops: nat, plainSize: nat, plainStarts: nat, plainStops: nat)
    ensures pushSize == 1 && starts == 1 && emptied && stops == 1
    ensures plainSize == 1 && plainStarts == 0 && plainStops == 0
  {
    var mux := new Mux();
    var h := new SessionHandler(HandlerAnswer(false, None), e => HandlerAnswer(false, None));
    var wss := new WebsocketServer(WsConfig(false, false, []), mux, h, null);
    var push := Session("a", true);
    wss.RegisterSession(push);
    pushSize := |wss.sessions|;
    starts := h.startCalled;
    wss.UnregisterSession(push);
    emptied := wss.sessions == map[];
    stops := h.stopCalled;

    var h2 := new SessionHandler(HandlerAnswer(false, None), e => HandlerAnswer(false, None));
    var plainServer := new WebsocketServer(WsConfig(false, false, []), mux, h2, null);
    var plain := Session("b", false);
    plainServer.RegisterSession(plain);
    plainSize := |plainServer.sessions|;
    plainServer.UnregisterSession(plain);
    plainStarts := h2.startCalled;
    plainStops := h2.stopCalled;
  }

  /** Session authentication with no authenticator, one that grants, one that denies, one that errs. */
  method AuthScenario() returns (none: Option<Error>, ok: Option<Error>, ko: Option<Error>, failing: Option<Error>)
    ensures none.None? && ok.None? && ko.Some? && failing.Some?
    ensures ErrorString(ko.value) == "error 401 (bahamut): Unauthorized: " + "You are not authorized to start a session"
    ensures ErrorString(failing.value) == "error 401 (bahamut): Unauthorized: " + "nope"
  {
    var mux := new Mux();
    var s := Session("s", false);
    var w1 := new WebsocketServer(WsConfig(false, false, []), mux, null, null);
    none := w1.AuthSession(s);
    var w2 := new WebsocketServer(WsConfig(false, false, [AuthAnswer(AuthActionOK, None)]), mux, null, null);
    ok := w2.AuthSession(s);
    var w3 := new WebsocketServer(WsConfig(false, false, [AuthAnswer(AuthActionKO, None)]), mux, null, null);
    ko := w3.AuthSession(s);
    var w4 := new WebsocketServer(WsConfig(false, false, [AuthAnswer(AuthActionOK, Some("nope"))]), mux, null, null);
    failing := w4.AuthSession(s);
    DeniedSessionText();
    FailedSessionText("nope");
  }

  /** Push session initialization with no handler, an approving, a refusing and an erring handler. */
  method InitScenario() returns (none: Option<Error>, ok: Option<Error>, refused: Option<Error>, failing: Option<Error>)
    ensures none.None? && ok.None? && refused.Some? && failing.Some?
    ensures ErrorString(refused.value) == "error 403 (bahamut): Forbidden: " + "You are not authorized to initiate a push session"
    ensures ErrorString(failing.value) == "error 403 (bahamut): Forbidden: " + "nope"
  {
    var mux := new Mux();
    var cfg := WsConfig(false, false, []);
    var s := Session("s", true);
    var w1 := new WebsocketServer(cfg, mux, null, null);
    none := w1.InitPushSession(s);
    var h2 := new SessionHandler(HandlerAnswer(true, None), e => HandlerAnswer(false, None));
    var w2 := new WebsocketServer(cfg, mux, h2, null);
    ok := w2.InitPushSession(s);
    var h3 := new SessionHandler(HandlerAnswer(false, None), e => HandlerAnswer(false, None));
    var w3 := new WebsocketServer(cfg, mux, h3, null);
    refused := w3.InitPushSession(s);
    var h4 := new SessionHandler(HandlerAnswer(true, Some("nope")), e => HandlerAnswer(false, None));
    var w4 := new WebsocketServer(cfg, mux, h4, null);
    failing := w4.InitPushSession(s);
    RefusedPushText();
    FailedPushText(true, "nope");
  }

  /**
   * Pushing one event through a fresh service, with a handler giving `answer` when
   * there is one: it is published once when approved or unfiltered, and never otherwise.
   */
  method PublicationsOfOne(e: Event, answer: Option<HandlerAnswer>) returns (count: nat)
    ensures count == (if answer.None? || Approves(answer.value) then 1 else 0)
  {
    var mux := new Mux();
    var srv := new PubSub(None);
    var h: SessionHandler? := null;
    if answer.Some? {
      h := new SessionHandler(HandlerAnswer(false, None), ev => answer.value);
    }
    var w := new WebsocketServer(WsConfig(false, false, []), mux, h, srv);
    w.PushEvents([e]);
    assert [e][1..] == [];
    count := |srv.publications|;
  }

  /** Publishing one event with no handler, an approving, a refusing and an erring handler. */
  method PushScenario(e: Event) returns (noHandler: nat, approving: nat, refusing: nat, erring: nat)
    ensures noHandler == 1 && approving == 1 && refusing == 0 && erring == 0
  {
    noHandler := PublicationsOfOne(e, None);
    approving := PublicationsOfOne(e, Some(HandlerAnswer(true, None)));
    refusing := PublicationsOfOne(e, Some(HandlerAnswer(false, None)));
    erring := PublicationsOfOne(e, Some(HandlerAnswer(true, Some("nop"))));
  }
}
