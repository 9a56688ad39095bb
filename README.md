# bahamut request-processing core, modelled in Dafny

bahamut is a Go server framework. It routes ReST and websocket requests for an
`elemental` data model to processors. This project models the framework's decision
logic:

- which answer a request gets and which steps run on the way;
- how the state of a server, a session registry and an operation context changes.

The modules follow the Go files:

- `Elemental` (elemental.dfy). The part of the `elemental` library the core relies on:
  - identities and the seven operations;
  - relationship registries and the rule that queries them;
  - structured errors and their text, `error <code> (<subject>): <title>: <description>`;
  - events, and decimal numbers as text.
- `Config` (config.dfy).
  - The security chains, reduced to one verdict by an ordered fold with early exit: an
    error fails the chain whatever its action; OK grants; KO denies; continue goes on;
    a chain that only continues, or is empty, grants.
  - One relationship registry per API version.
  - The read-only rule documented for the configuration (423 for writes), stated on
    its own; the handlers shown never consult it.
- `Routing` (mux.dfy). The multiplexer, as an ordered table of (method, pattern,
  handler) routes plus a not-found handler.
- `RestServer` (rest_server.dfy).
  - The rate-limit gate: a limiter error gives 500, then a limit gives 429, otherwise
    the request is forwarded.
  - The pipeline each of the seven operation handlers runs. A parse failure gives 400.
    Parent-scoped operations default an empty parent to root. The registry of the
    request's version is checked, and a refusal gives 405. Otherwise the dispatcher
    runs; info is the only dispatch without an event pusher.
  - The 24-route table, and the choice of the main handler at start.
- `WebsocketServer` (websocket_server.dfy).
  - The session registry, keyed by non-empty identifiers.
  - Push session start/stop hooks, which fire for push sessions only.
  - Session authentication (401) and push session initialization (403, where the
    handler's error wins).
  - The publication of events through the handler's filter.
  - The routes `/events` and `/wsapi`.
- `Contexts` (context.dfy). The operation context:
  - pagination parsing, with defaults of page 1 and size 100;
  - the first/prev/next/last links;
  - error accumulation and the FIFO event queue;
  - the response written from a context: errors over output, status 200 by default,
    and failure when the chosen body cannot be encoded.
- `TestModel` (model_data.dfy). The model the tests run with:
  - list, task, user and root objects and their validators;
  - the identity-name factory and identifier access;
  - the relationship registry built at package initialization.
- `ApiServer` (api_server.dfy):
  - the TLS predicate;
  - installation of configured routes under their methods, skipping other methods;
  - the start decisions: profiling server, health server or health route;
  - the 404 answer.

Collaborators whose code is not part of this model are inputs of the functions and
methods that use them:

- the request parser, as a `Result<Request, string>`;
- the rate limiter's answer;
- the operation dispatchers, as a function from the dispatch to a context or an error;
- each authenticator, as its answer for the session at hand;
- the session handler and the pub/sub service, modelled after the test doubles in
  websocket_server_test.go.

The implementation files of the websocket server and of the context are not part of
this model. Their behaviour is taken from websocket_server_test.go and
context_test.go. Where those tests are silent, the model decides as follows:

- A malformed `page` or `per_page` parameter, or one equal to 0, is answered with 400.
- The last page is the number of pages needed for the total, and at least 1.
- prev steps back one page and is held at 1.
- next steps forward one page and is held at the last page, also when the current page is past the last one.
- The start/stop hooks fire for push sessions whenever a handler is configured.
- Unregistering a push session that is not registered still fires the stop hook; the tests do not cover this case.

A note on package initialization: data_test.go has two `init` functions. The first
builds the registry from identities that the second registers. The model takes the
registry content as written.

## Model

| member | source | states |
|---|---|---|
| Elemental.Relationship.AddChild | data_test.go:713-731 | adding a child entry sets that child's operations, keeps the other children and the identity's own operations |
| Elemental.NewError | rest_server.go:134 | an error carries the title, description, subject and code it is built with |
| Elemental.NatToString | context_test.go:94-97 | the decimal text of a number is non-empty and all digits |
| Elemental.ParseNat | context_test.go:21-37 | a string reads as a number exactly when it is non-empty and all digits |
| Elemental.ParseNatToString | context_test.go:21-37 | reading back the text of a number gives the number |
| Elemental.DigitsValueOfNatToString | context_test.go:21-37 | the digits of the text of n have value n |
| Elemental.ErrorString | websocket_server_test.go:300 | the text of an error starts with "error " and ends with its description |
| Config.LinkVerdict | config.go:187-191 | a deciding link fails the chain iff it returned an error, grants iff OK without error, denies iff KO without error |
| Config.RunChainYields | config.go:187-191 | the fold's verdict is the one the positional rule gives: the first deciding link in index order decides, and a chain with none grants |
| Config.ChainYieldsUnique | config.go:187-204 | the positional rule admits one verdict only, so it is the fold's |
| Config.EarlyExit | config.go:188-190 | once a link decides, the links after it are not evaluated and do not change the verdict |
| Config.AllContinueGrants | websocket_server_test.go:254-266 | a chain of continuing links, the empty chain included, grants after evaluating every link |
| Config.RegistryFor | config.go:225-226 | the registry of a version is the one configured for it; a version without one allows nothing |
| Config.ReadOnlyStatus | config.go:228-233 | 423 is answered exactly for a write operation in read-only mode on an identity that is not excluded |
| Routing.Mux.Add | rest_server.go:405 | a route is appended after every route already there, with the not-found handler unchanged |
| Routing.Mux.SetNotFound | rest_server.go:406 | the not-found handler is set, the routes unchanged |
| RestServer.ServeHTTP | rest_server.go:129-144 | a request is forwarded iff the limiter gives no error and no limit; an error gives 500 "Internal Server Error" with the error text, otherwise a limit gives 429 "Rate Limit" |
| RestServer.ErrorBeforeLimit | rest_server.go:131-136 | when the limiter errs, the limit does not matter and the answer is 500 |
| RestServer.EffectiveRequest | rest_server.go:265-267 | an empty parent becomes root for parent-scoped operations only; every other field is kept |
| RestServer.NotAllowedNamesIdentity | rest_server.go:167 | the refusal message ends with the identity's category for retrieve-many and info and with its name for the other operations |
| RestServer.Handle | rest_server.go:156-400 | a parse failure gives 400 with the parse error and nothing else runs; a parsed request is dispatched iff the version's registry allows it, and otherwise gets 405 "Not allowed"; a dispatch carries the effective request and a pusher unless the operation is info, and the dispatcher's error or context is the answer |
| RestServer.MainOperationsIgnoreParent | rest_server.go:166 | retrieve, update and delete are allowed or refused whatever the parent |
| RestServer.EmptyParentIsRoot | rest_server.go:302-304 | for parent-scoped operations, an empty parent is checked as the root |
| RestServer.OnlyOwnVersionMatters | rest_server.go:166 | two configurations with the same registry for the request's version decide alike |
| RestServer.UnknownVersionRefused | rest_server.go:166-169 | a version without a registry refuses every operation |
| RestServer.RegistryScenario | rest_server.go:269-272 | with the test registry as version 1: lists at the root are listed, users are not created under a list but are patched there, and version 2 refuses |
| RestServer.OperationRoutesHandlers | rest_server.go:415-425 | the 11 operation routes go to their operation's handler under that operation's method |
| RestServer.OperationRoutesPatterns | rest_server.go:415-425 | retrieve, update and delete are routed on /:category/:id, the parent-scoped operations on /:category and /:parentcategory/:id/:category |
| RestServer.EveryOperationRouted | rest_server.go:415-425 | every operation has a route; every parent-scoped one has one at the root and one under a parent |
| RestServer.RestRoutesShape | rest_server.go:403-438 | the table is OPTIONS *, then the root route (custom root for every method when set, CORS on GET otherwise), the 11 bare routes, and the same 11 under /v/:version with the same methods and handlers |
| RestServer.RestServerState.InstallRoutes | rest_server.go:403-439 | the routes added are exactly the route table, and the not-found handler is set |
| RestServer.RestServerState.AddOperationRoutes | rest_server.go:415-425 | the 11 bare operation routes are appended in order |
| RestServer.RestServerState.AddVersionedOperationRoutes | rest_server.go:428-438 | the 11 versioned operation routes are appended in order |
| RestServer.RestServerState.Start | rest_server.go:442-461 | the routes are installed; the server is secure iff certificates are configured, and its main handler is the gate iff a rate limiter is configured |
| WebsocketServer.SessionHandler.OnPushSessionInit | websocket_server_test.go:56-59 | the init hook counts its call and gives its fixed answer |
| WebsocketServer.SessionHandler.OnPushSessionStart | websocket_server_test.go:61-63 | the start hook counts its call |
| WebsocketServer.SessionHandler.OnPushSessionStop | websocket_server_test.go:65-67 | the stop hook counts its call |
| WebsocketServer.SessionHandler.ShouldPublish | websocket_server_test.go:69-72 | the publication filter counts its call and answers for the event |
| WebsocketServer.PubSub.Publish | websocket_server_test.go:24-27 | every publication handed over is recorded in order, and the configured error is returned |
| WebsocketServer.WsRoutes | websocket_server_test.go:87-147 | the websocket routes are all GET routes |
| WebsocketServer.WsRoutesPresence | websocket_server_test.go:87-147 | /events is present iff push is enabled, /wsapi iff the API is; /events comes first; the count is 0, 1 or 2 accordingly |
| WebsocketServer.WebsocketServer.constructor | websocket_server_test.go:87-105 | a new server has no session and installs its routes on the multiplexer |
| WebsocketServer.SessionAuthError | websocket_server_test.go:286-321 | a session is let in iff the chain grants; otherwise 401 "Unauthorized", carrying the authenticator's error text when there is one |
| WebsocketServer.InitError | websocket_server_test.go:368-403 | a push session starts iff the handler approves without error; otherwise 403 "Forbidden", with the handler's error text winning over its answer |
| WebsocketServer.PublishedMembers | websocket_server_test.go:428-498 | an event is published iff it was pushed and, when there is a handler, the handler approves it without error |
| WebsocketServer.PublishedLength | websocket_server_test.go:428-442 | no more publications than events; without a handler, every event is published in order |
| WebsocketServer.PublishedSnoc | websocket_server_test.go:417-498 | pushing one more event publishes it after the others iff it is approved |
| WebsocketServer.WebsocketServer.RegisterSession | websocket_server_test.go:167-230 | the session is filed under its non-empty identifier; the start hook fires once for a push session and never for a plain one, and no other hook fires |
| WebsocketServer.WebsocketServer.UnregisterSession | websocket_server_test.go:181-239 | the session's identifier is removed; the stop hook fires once for a push session and never for a plain one, and no other hook fires |
| WebsocketServer.WebsocketServer.AuthSession | websocket_server_test.go:254-321 | running the session authenticators in order gives the chain's verdict turned into the session error |
| WebsocketServer.WebsocketServer.InitPushSession | websocket_server_test.go:336-403 | without a handler the session starts; with one, the init hook is asked once, no other hook fires, and its answer decides |
| WebsocketServer.WebsocketServer.PushEvents | websocket_server_test.go:417-498 | without a service nothing happens; with one, exactly the approved events are published, in order, and the filter is asked once per event while no other hook fires |
| WebsocketServer.DeniedSessionText | websocket_server_test.go:300 | a denied session reads "error 401 (bahamut): Unauthorized: You are not authorized to start a session" |
| WebsocketServer.FailedSessionText | websocket_server_test.go:319 | a failing authenticator reads "error 401 (bahamut): Unauthorized: " followed by its error |
| WebsocketServer.RefusedPushText | websocket_server_test.go:382 | a refused push session reads "error 403 (bahamut): Forbidden: You are not authorized to initiate a push session" |
| WebsocketServer.FailedPushText | websocket_server_test.go:401 | a failing handler reads "error 403 (bahamut): Forbidden: " followed by its error, whatever its answer |
| WebsocketServer.RegistrationScenario | websocket_server_test.go:167-221 | a push session: registry size 1, one start, emptied and one stop on unregistering; a plain session: size 1, no start, no stop |
| WebsocketServer.AuthScenario | websocket_server_test.go:254-321 | no authenticator and OK let the session in; KO and an error beside OK give the two 401 texts |
| WebsocketServer.InitScenario | websocket_server_test.go:336-403 | no handler and approval start the session; refusal and an error beside approval give the two 403 texts |
| WebsocketServer.PublicationsOfOne | websocket_server_test.go:428-498 | one pushed event is published once without a handler or with an approving one, and never with a refusing or an erring one |
| WebsocketServer.PushScenario | websocket_server_test.go:417-498 | one event gives one publication without a handler or with an approving one, and none with a refusing or an erring one |
| Contexts.BadPagination | context_test.go:21-57 | a malformed pagination parameter is a 400 "Bad Request" |
| Contexts.ReadParameter | context_test.go:21-57 | a missing parameter gives the default; a present one must read as a positive number, and is that number |
| Contexts.ReadPage | context_test.go:21-57 | pagination reads when both parameters do; missing ones default to page 1 and size 100; given ones become the page's current page and size; failures are 400 |
| Contexts.PageQueryRoundTrip | context_test.go:21-37 | the query of a page, read back, gives that page |
| Contexts.LastPage | context_test.go:81-97 | the last page is the least number of pages that holds the total, and at least 1 |
| Contexts.Numbers | context_test.go:93-98 | first is 1 and last is the last page; prev is the page before the current one, or 1 on page 1; next is the page after, or the last page from the last page on; next never passes the last page, and for a page within range first ≤ prev ≤ current ≤ next ≤ last |
| Contexts.PageURL | context_test.go:94-97 | a link starts with the request's base URL |
| Contexts.PaginationExample | context_test.go:71-98 | page 2 of size 10 with 40 items links to pages 1, 1, 3 and 4 |
| Contexts.PaginationLinksExample | context_test.go:93-98 | those four links are base?page=1, 1, 3 and 4, each with per_page=10 |
| Contexts.Render | context_test.go:84-143 | writing succeeds iff the chosen body encodes; the body is the errors when there are any, else the output; the status is the one set, else 200; the links are set |
| Contexts.WriteHTTPError | context_test.go:185-202 | a lone error is written with the status given |
| Contexts.Context.constructor | context_test.go:147-155 | a new context has no error, no output, no event, no status, and the default page |
| Contexts.Context.ReadRequest | context_test.go:17-57 | the request's query parameters are kept as given; the context's page becomes the request's pagination, and a malformed one is reported and leaves the page as it was |
| Contexts.Context.AddErrors | context_test.go:157-164 | errors are appended in order |
| Contexts.Context.EnqueueEvents | context_test.go:168-182 | events are appended to the queue in order |
| Contexts.Context.WriteResponse | context_test.go:84-143 | the response written is the one `Render` determines from the context's status, errors, output, page and total |
| Contexts.ErrorsScenario | context_test.go:147-166 | a fresh context has no error; after one is added, it has |
| Contexts.EnqueueScenario | context_test.go:168-182 | two enqueued events leave two in the queue |
| Contexts.ReadRequestScenario | context_test.go:19-57 | page=1&per_page=10 reads as page 1 of size 10 and is kept as the context's parameters; no parameters read as page 1 of size 100 |
| Contexts.WriteOutputScenario | context_test.go:84-102 | without errors the answer is 200 with the output in order |
| Contexts.WriteErrorsScenario | context_test.go:105-119 | with an error and status 404 the answer is 404 with the error list |
| Contexts.WriteUnencodableScenario | context_test.go:121-143 | an unencodable error or output makes writing fail |
| TestModel.SetIdentifier | data_test.go:57-61 | reading back the identifier gives the value set; the identity and every other field are unchanged |
| TestModel.IdentifiableForIdentity | data_test.go:796-810 | an object is made iff the name is root, task, list or user; it is the new, empty object of the kind named (a task starts as TODO) |
| TestModel.MissingRequiredReportsEmptyFields | data_test.go:89-110 | nothing is reported iff no required field is empty; every empty field is reported, and every report names an empty field |
| TestModel.ValidateList | data_test.go:89-110 | a list is valid iff creationOnly, name and readOnly are non-empty; otherwise one error per empty field, in that order |
| TestModel.ValidateTask | data_test.go:294-311 | a task is valid iff its name is non-empty and its status is DONE, PROGRESS or TODO; the name error comes before the status error |
| TestModel.ValidateUser | data_test.go:583-604 | a user is valid iff firstName, lastName and userName are non-empty; otherwise one error per empty field, in that order |
| TestModel.ValidateRoot | data_test.go:446-455 | a root is always valid |
| TestModel.NewTaskValidation | data_test.go:262-268 | a new task passes the status check and is reported only for its missing name |
| TestModel.BuildRelationships | data_test.go:702-785 | the registry has entries for root, task, list and user, and allows exactly what the permission table says |
| ApiServer.PlainStartScenario | api_server.go:49-52 | with any one of the CA, certificate and key paths missing, the server starts without TLS, starts no health server, and routes the health handler as GET on the main multiplexer |
| ApiServer.InstalledRoutesMembers | api_server.go:104-118 | a route is installed iff it comes from a configured route under HEAD, GET, POST, PUT, DELETE or PATCH |
| ApiServer.InstalledRoutesLength | api_server.go:104-118 | no more routes are installed than configured, and all of them when every method is supported |
| ApiServer.NotFoundResponse | api_server.go:25-27 | unmatched paths are answered 404 with one "Not Found" error |
| ApiServer.ApiServerState.InstallRoutes | api_server.go:102-130 | the supported configured routes are installed in order, then OPTIONS * and GET /, and the not-found handler is set |
| ApiServer.ApiServerState.Start | api_server.go:192-260 | profiling starts iff enabled; with TLS a health server starts iff there is a health handler; without TLS the health handler is added as GET on the health endpoint |
| ApiServer.InstallScenario | api_server.go:104-129 | a route under an unsupported method is skipped, and the others are kept in order before OPTIONS * and GET / |
| Config.RunChain | config.go:187-191 | the chain fold; its property is stated by RunChainYields, ChainYieldsUnique and EarlyExit: the first link in index order that grants, denies or errs decides, and a chain without one grants |
| Config.Consulted | config.go:187-191 | how many links the chain runs; EarlyExit and AllContinueGrants state it: up to and including the first deciding link, or every link when none decides |
| Elemental.IsAllowed | rest_server.go:166 | the registry lookup the handlers use; RestServer.Handle, MainOperationsIgnoreParent and RegistryScenario state how it decides |
| RestServer.Permitted | rest_server.go:164-168 | the relationship check of a handler on the effective request; RestServer.Handle states that dispatch happens iff it holds, and EmptyParentIsRoot, OnlyOwnVersionMatters and UnknownVersionRefused state its properties |
| RestServer.NotAllowedMessage | rest_server.go:167-380 | the seven 405 texts, with the Update text's "opration" kept; NotAllowedNamesIdentity states that each names the category for retrieve-many and info and the name otherwise |
| RestServer.RestRoutes | rest_server.go:403-438 | the ReST route table; RestRoutesShape, OperationRoutesHandlers, OperationRoutesPatterns and EveryOperationRouted state its shape |
| WebsocketServer.Published | websocket_server_test.go:417-498 | the events that reach the service; PublishedMembers, PublishedLength and PublishedSnoc state that they are exactly the approved events, in order |
| Contexts.Links | context_test.go:93-98 | the four pagination links; Numbers states their pages, PageURL their prefix and PaginationLinksExample the test's texts |
| Contexts.Context.HasErrors | context_test.go:147-166 | whether errors were added; ErrorsScenario states false on a new context and true after AddErrors |
| TestModel.NewList | data_test.go:40-43 | the empty list; IdentifiableForIdentity and ValidateList state what it holds and how it validates |
| TestModel.NewTask | data_test.go:263-268 | the empty task with status TODO; NewTaskValidation states that it fails only on its missing name |
| TestModel.NewRoot | data_test.go:417-420 | the empty root; ValidateRoot states that it is valid |
| TestModel.NewUser | data_test.go:554-557 | the empty user; IdentifiableForIdentity states it is the object made for "user" |
| TestModel.MissingRequired | data_test.go:89-107 | the required-string checks in field order; MissingRequiredReportsEmptyFields states that exactly the empty fields are reported, in order |
| TestModel.TablePermits | data_test.go:702-785 | the permission table as written in the package initialization; BuildRelationships states that the registry allows exactly what it permits |
| ApiServer.IsTLSEnabled | api_server.go:49-52 | TLS needs all three paths; ApiServerState.Start states that the server is secure iff it holds, and PlainStartScenario that one missing path serves without TLS |
| ApiServer.InstalledRoutes | api_server.go:104-118 | the configured routes installed under supported methods; InstalledRoutesMembers and InstalledRoutesLength state which ones and how many |
| TestModel.IdentityOf | data_test.go:46-49 | the identity of each kind of object (the getters at data_test.go:46, 271, 423 and 560); SetIdentifier states that setting the identifier keeps it, and IdentifiableForIdentity that the object made for a name has that name |
| TestModel.Identifier | data_test.go:52-55 | the identifier of each kind of object (the getters at data_test.go:52, 277, 429 and 566); SetIdentifier states that it reads back as set, and IdentifiableForIdentity that a new object has none |

## Left out

- TLS construction is not modelled, because it is cryptographic and library plumbing. This covers cipher suites, certificate loading, the LetsEncrypt certificate retriever and address splitting.
- HTTP server creation, listening, logging and timeouts are not modelled, because they are I/O. The model records only the decisions: secure or not, which main handler, which extra servers.
- Panic recovery in the handlers is not modelled, because it depends on Go's `recover`.
- The matching of paths against patterns by the multiplexer library is not modelled. The multiplexer is its route table.
- The `elemental` library is not part of this model. That covers its request parsing, its `Is*Allowed` functions, its validators and its JSON encoding. `Elemental.IsAllowed` states the lookup rule the core relies on: the identity's own entry for retrieve, update and delete, and the parent's child entry for the others. Encoding is reduced to "encodable or not".
- Exact JSON bytes of bodies and events are not modelled, and neither are the CORS and common headers. Headers are output formatting.
- The Origin header is not modelled. rest_server.go:182 reads it from the response rather than the request; the model does not capture this.
- Concurrency is not modelled: the session registry's lock, the goroutines that audit and serve, and the pub/sub connection are left out. The registry is modelled sequentially.
- Dispatch internals are not modelled: processor lookup, the authenticators, authorizers and auditer the handlers pass on (rest_server.go:171-179) are used inside the dispatchers, which are a function given to `RestServer.Handle`.
- RestServer.Handle never answers 423: the handlers shown pass no model configuration to dispatch and never read the read-only flag. `Config.ReadOnlyStatus` models only the rule documented at config.go:228-233.
- Contexts.BadPagination: the wording of the pagination error description is not shown in the source. Only its title and code are stated.
- WebsocketServer.PushEvents: errors returned by the service's Publish are ignored, as only logging follows them. The encoding of an event into a publication is not modelled.
- WebsocketServer.WebsocketServer.RegisterSession: the panic on an empty identifier is modelled as a precondition, a non-empty identifier. The same holds for `UnregisterSession`.
- The session handler's `ShouldPush` hook is not modelled, and so per-session push filtering is not either. It decides delivery to one session after publication, and that delivery is not part of this model.
- Each authenticator is modelled as its answer for the session at hand, not as a function of the session.
- The request authenticators and the authorizers are not evaluated by any code in this model. They follow `Config.RunChain`, which the session authentication runs.
- The profiling and health servers' own routes are not modelled, because those servers are started in the background and only their start is a decision of the core.
