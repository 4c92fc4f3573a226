# js-auto-test-agent, modelled in Dafny

A model of the decision rules at the core of Drill4J's JavaScript auto-test agent. The agent links a test runner to two services. The admin backend gets a login, then START/STOP session actions over HTTP. The dispatcher gets CONNECT, START_TEST and FINISH_TEST frames over a WebSocket. Transports, timers and generated ids are inputs to the model, not things it does.

Modules, one per source file plus four helpers:

- `Wrappers` (wrappers.dfy): `Option` and `Result`.
- `Json` (json.dfy): parsed JSON values, property reads and JavaScript truthiness.
- `Text` (text.dfy): `indexOf`, and how a number prints in a template literal.
- `AdminConnect` (admin.dfy, `src/admin-connect/index.ts`). It covers URL normalisation, the base URL, the route, the login token check and the request log of a client object. Every request after login carries `Bearer <token>`. It also covers the response acceptance test and how failures become errors.
- `Settings` (settings.dfy, `src/settings.ts`): where the options come from, validation and its order.
- `Sockets` (sockets.dfy): the WebSocket as its listeners see it. Each awaiting helper registers a listener and a timer (a *wait*), and the wait's promise settles once. Inbound traffic is a list of abstract events: a parsed frame, a named socket event, or one wait's timer firing. The socket keeps every wait ever registered and a log of the client's operations.
- `SocketUtils` (socket_utils.dfy, `src/dispatcher-connect/socket-utils.ts`): `socketEvent`, `socketMessage`, `createMessageAwaiter`.
- `Dispatcher` (dispatcher.dfy, `src/dispatcher-connect/index.ts`). It covers the outbound frame and the sender (listener, write, timer, await), plus `connect`, `ready`, `startTest`, `finishTest` and `destroy`.
- `Stub` (stub.dfy, `src/dispatcher-connect/stub.ts`): the disabled dispatcher.
- `Coordinator` (coordinator.dfy, `src/index.ts`): the default export as a trace of calls, the `Agent` bound to its session id, and `createDispatcher`.

Notes on the code as written, which the model follows:

- CONNECT is awaited like any other send; the send is not fire-and-forget.
- `ready` uses the awaiter's default timeout of 10000 ms.
- `ready`'s listener is registered only after CONNECT is answered. A READY frame that arrives before then is never seen (`Dispatcher.Connect` states that the ready wait is still pending when `connect` returns).
- The admin login finishes before the dispatcher is created; the two do not run at the same time.
- When both ids are given, the groupId wins silently.
- A failed dispatcher teardown skips `stopSession`.
- Correlation is by type only, and listeners are never removed. So one echoed frame resolves every pending send of that type (`Sockets.OneFrameResolvesAllOfItsType`).
- `ensureProtocol` is a substring test: `myhttphost:8090` gets no scheme (`AdminConnect.EnsureProtocolSubstringTest`).
- In an array response, `some` reads `code` of each element in turn. A null element met before any element with code 200 throws a TypeError (`TypeFault`); it is not reported as "unexpected error".

## Model

| member | source | states |
|---|---|---|
| `Text.IndexOf` | src/admin-connect/index.ts:56 | `indexOf` is above -1 iff the pattern occurs, and then it is the first occurrence |
| `Text.NatTextValue` | src/dispatcher-connect/socket-utils.ts:30 | the decimal text printed for a timeout reads back as that timeout |
| `Json.Field` | src/dispatcher-connect/socket-utils.ts:23 | a property read gives a value only on an object that has the key, and gives that key's value |
| `AdminConnect.EnsureProtocol` | src/admin-connect/index.ts:55-61 | the URL is unchanged if "http" occurs anywhere in it, otherwise "http://" is put in front |
| `AdminConnect.HttpsHasHttp` | src/admin-connect/index.ts:56 | any string containing "https" contains "http", so the second test never decides |
| `AdminConnect.EnsureProtocolHasHttp` | src/admin-connect/index.ts:55-61 | the result always contains "http" |
| `AdminConnect.EnsureProtocolIdempotent` | src/admin-connect/index.ts:55-61 | normalising twice is normalising once |
| `AdminConnect.EnsureProtocolSubstringTest` | src/admin-connect/index.ts:56 | a scheme-less host whose name contains "http" is left without a scheme |
| `AdminConnect.BaseUrl` | src/admin-connect/index.ts:64 | the base URL contains "http" and ends in "/api/". Before that comes the backend URL itself if "http" occurs in it, otherwise "http://" followed by the backend URL |
| `AdminConnect.Test2CodeRoute` | src/admin-connect/index.ts:23-29 | the route is `/service-groups/{groupId}/plugins/test2code/dispatch-action` when groupId is non-empty, else `/agents/{agentId}/…` |
| `AdminConnect.GroupIdWins` | src/admin-connect/index.ts:25-28 | with a non-empty groupId the agentId has no effect on the route |
| `AdminConnect.RouteOfInjective` | src/admin-connect/index.ts:29 | two different targets (kind or id) never produce the same route |
| `AdminConnect.AuthHeaderKey` | src/admin-connect/index.ts:79 | the token is read under the lower-case header name "authorization" |
| `AdminConnect.LoginToken` | src/admin-connect/index.ts:77-82 | login succeeds iff the "authorization" header is present and non-empty, returning it; otherwise it fails with "Drill backend authentication failed" |
| `AdminConnect.BearerHeader` | src/admin-connect/index.ts:68-72 | the header is "Bearer " followed by exactly the token |
| `AdminConnect.SomeCode200` | src/admin-connect/index.ts:102 | the scan only ever fails with a TypeError |
| `AdminConnect.SomeCode200Spec` | src/admin-connect/index.ts:101-102 | the scan is true iff some element has code 200 and only non-null elements come before it; it is false iff every element is non-null without code 200 |
| `AdminConnect.SingleAcceptance` | src/admin-connect/index.ts:106-109 | a non-array body is accepted iff its code is 200; a non-null one without code 200 fails with "unexpected error" |
| `AdminConnect.BatchAcceptance` | src/admin-connect/index.ts:101-105 | an array of non-null elements is accepted iff some element has code 200, and otherwise fails with "unexpected error" |
| `AdminConnect.ErrorMessage` | src/admin-connect/index.ts:113-132 | a thrown string is the message. Otherwise a truthy response message wins. A non-axios object, or an axios error without a response, gives "unexpected error". The message is empty only for a thrown empty string |
| `AdminConnect.StatusFallback` | src/admin-connect/index.ts:118-127 | without a response message: 400 gives "bad request", 500 "internal server error", anything else "unexpected error" |
| `AdminConnect.PostFailureKinds` | src/admin-connect/index.ts:90-99 | a failed request gives SessionActionError(data.message, posted session id) iff the data code is 404, whatever the status; otherwise an error with `getErrorMessage`'s message |
| `AdminConnect.AdminClient.constructor` | src/admin-connect/index.ts:63-75 | a client holds its base URL, route and token; only the login request has been made |
| `AdminConnect.AdminClient.Post` | src/admin-connect/index.ts:84-111 | one request is appended carrying the route, `Bearer <token>` and the action; its result is the acceptance and error mapping of its outcome |
| `AdminConnect.AdminClient.StartSession` | src/admin-connect/index.ts:33-44 | posts `{START, {sessionId, AUTO, isRealtime: true}}` and on success returns exactly that sessionId |
| `AdminConnect.AdminClient.StopSession` | src/admin-connect/index.ts:46-51 | posts `{STOP, {sessionId}}` with the given id |
| `AdminConnect.Connect` | src/admin-connect/index.ts:18-30 | a thrown login passes through unchanged; a login without a token fails with the authentication error; otherwise a fresh client with the base URL, route and token, whose only request is the unauthenticated login |
| `Settings.ValidateSettings` | src/settings.ts:16-27 | validation passes iff (agentId or groupId non-empty) and adminUrl non-empty; with no id the agent/group error is raised first, otherwise the admin-URL error |
| `Settings.GetSettings` | src/settings.ts:4-14 | validates the environment under Node and the options elsewhere. It succeeds iff that validation passes, and fails with the validation error. On success it returns exactly the settings validated, which have an admin URL and an id |
| `Settings.NodeIgnoresOptions` | src/settings.ts:6-10 | under Node the options argument does not affect the result |
| `Settings.AllMissingReportsTarget` | src/settings.ts:16-22 | with everything missing, the agent/group message is the error |
| `Sockets.MatchRulesAgree` | src/dispatcher-connect/index.ts:58-60 | the sender's frame test and `socketMessage`'s test accept the same frames |
| `Sockets.Step` | src/dispatcher-connect/socket-utils.ts:18-31 | a settled promise ignores every event; a pending one is rejected only by its own timer, with its timeout message |
| `Sockets.Deliver` | src/dispatcher-connect/socket-utils.ts:19 | every registered listener sees an inbound event |
| `Sockets.DeliverAllPointwise` | src/dispatcher-connect/socket-utils.ts:19 | delivering events to the socket is delivering them to each wait separately |
| `Sockets.DeliverAllKeepsShape` | src/dispatcher-connect/socket-utils.ts:19 | inbound traffic never adds, removes or re-times a listener |
| `Sockets.RunAppend` | src/dispatcher-connect/socket-utils.ts:18-31 | events are seen one after another |
| `Sockets.RunKeepsShape` | src/dispatcher-connect/socket-utils.ts:18-31 | a wait keeps its listener, timeout and timer through any events |
| `Sockets.SettledIsFinal` | src/dispatcher-connect/socket-utils.ts:18-31 | single settlement: once settled, later frames, events or timers change nothing |
| `Sockets.IgnoredPrefix` | src/dispatcher-connect/socket-utils.ts:22-28 | events that leave a pending wait unchanged can be dropped |
| `Sockets.FirstDecisiveWins` | src/dispatcher-connect/socket-utils.ts:9-13 | the first event that settles a pending wait decides its outcome |
| `Sockets.TimerSettles` | src/dispatcher-connect/socket-utils.ts:30 | once its timer has fired, a wait is settled |
| `Sockets.FramesNeverReject` | src/dispatcher-connect/socket-utils.ts:26-28 | no frame, malformed or not, ever rejects a wait |
| `Sockets.OneFrameResolvesAllOfItsType` | src/dispatcher-connect/index.ts:56-66 | one matching frame resolves every pending send of its type, with the same payload |
| `Sockets.Await` | src/dispatcher-connect/index.ts:24 | awaiting a wait delivers the events, then its timer; the wait is settled and its outcome is the per-wait run |
| `SocketUtils.TimeoutOrDefault` | src/dispatcher-connect/socket-utils.ts:17 | an undefined timeout becomes 10000; a given one is kept |
| `SocketUtils.SocketEvent` | src/dispatcher-connect/socket-utils.ts:8-14 | registers an event listener, then sets its timer, with a pending promise |
| `SocketUtils.SocketMessage` | src/dispatcher-connect/socket-utils.ts:17-32 | registers a frame listener, then sets its timer, with a pending promise |
| `SocketUtils.AwaitMessage` | src/dispatcher-connect/socket-utils.ts:4-6 | calling the awaiter registers exactly what `socketMessage` does on its socket |
| `SocketUtils.FirstMatchingFrameResolves` | src/dispatcher-connect/socket-utils.ts:19-25 | the first frame whose decoded type is the awaited type resolves the wait with its payload; frames before it are ignored |
| `SocketUtils.NoMatchTimesOut` | src/dispatcher-connect/socket-utils.ts:30 | with no matching frame, it rejects with `"<type>" message timed out: <timeout>ms` |
| `SocketUtils.FirstEventResolves` | src/dispatcher-connect/socket-utils.ts:10-12 | the first occurrence of the event resolves the wait with its arguments |
| `SocketUtils.NoEventTimesOut` | src/dispatcher-connect/socket-utils.ts:13 | without the event, it rejects with `"<event>" event timed out: <timeout>ms` |
| `Dispatcher.OutboundIsIncoming` | src/dispatcher-connect/index.ts:7-18 | every outbound message type is also a recognised incoming type |
| `Dispatcher.OutboundFrameReadBack` | src/dispatcher-connect/index.ts:69-78 | the frame carries the type, `from: {id: clientId, type: "autotest-agent"}` and the payload (`{}` by default); echoed back, it answers its own send with that payload |
| `Dispatcher.CorrelationByTypeOnly` | src/dispatcher-connect/index.ts:58-62 | any two frames with the same `type` field are matched alike, whatever their sender or payload |
| `Dispatcher.EffectiveTimeout` | src/dispatcher-connect/index.ts:53 | the timeout is never 0; it is the parsed value iff that is a nonzero number, else 10000 |
| `Dispatcher.FirstResponseResolves` | src/dispatcher-connect/index.ts:56-66 | a send resolves with the payload of the first frame of its type; frames before it are ignored |
| `Dispatcher.NoResponseTimesOut` | src/dispatcher-connect/index.ts:79 | an unanswered send rejects with `"<type>" response timed out: <timeout>ms` |
| `Dispatcher.Send` | src/dispatcher-connect/index.ts:49-82 | the listener is registered, then the frame written, then the timer set; the result is the wait's settled outcome |
| `Dispatcher.Connect` | src/dispatcher-connect/index.ts:20-47 | "open" is awaited before CONNECT is written. CONNECT is awaited before the ready listener is registered. A failure at either step is returned and stops the steps after it. The ready wait is pending on return |
| `Dispatcher.Ready` | src/dispatcher-connect/index.ts:38 | awaiting `ready` delivers the events and then the ready timer to every wait. `ready` settles with its own run, and that outcome is the wait's new state; the log is unchanged |
| `Dispatcher.ReadyUntouched` | src/dispatcher-connect/index.ts:38-40 | traffic without a READY frame or the ready timer (say, during a test action) leaves the ready wait as it was |
| `Dispatcher.StartTest` | src/dispatcher-connect/index.ts:39 | sends START_TEST with `{testName, sessionId}` and awaits its response. The socket's new waits are the old ones plus the response wait, after the events and its timer |
| `Dispatcher.FinishTest` | src/dispatcher-connect/index.ts:40 | sends FINISH_TEST with `{testName, sessionId}` and awaits its response. The socket's new waits are the old ones plus the response wait, after the events and its timer |
| `Dispatcher.Destroy` | src/dispatcher-connect/index.ts:41-45 | the close listener is registered before `close(1000)`. The result is the close wait's outcome, and the new waits are the old ones plus the close wait, after the events and its timer |
| `Stub.StubReady` | src/dispatcher-connect/stub.ts:2 | `ready` is resolved |
| `Stub.ErrorStub` | src/dispatcher-connect/stub.ts:8-10 | fails with exactly the stub's message |
| `Stub.StubStartTest` | src/dispatcher-connect/stub.ts:3 | fails with exactly the stub's message |
| `Stub.StubFinishTest` | src/dispatcher-connect/stub.ts:4 | fails with exactly the stub's message |
| `Stub.StubDestroy` | src/dispatcher-connect/stub.ts:5 | resolves |
| `Stub.StubIgnoresArguments` | src/dispatcher-connect/stub.ts:8-10 | the outcome does not depend on the arguments |
| `Coordinator.CreateDispatcher` | src/index.ts:47-55 | the real dispatcher iff the URL is non-empty (a failed connect is thrown); otherwise the stub with the message naming the missing setting |
| `Coordinator.Launch` | src/index.ts:20-45 | settings fail before any call. The calls are a prefix of admin connect, create dispatcher, await ready and start session, each made only after the previous one succeeded. A failed step's own error is returned. The agent holds the dispatcher `createDispatcher` chose, a client with the login's base URL, route and token, and the started session id |
| `Coordinator.Agent.constructor` | src/index.ts:35-43 | the agent holds the session id and both clients |
| `Coordinator.Agent.StartTest` | src/index.ts:37 | forwards `(sessionId, testName)` unchanged; the stub fails with its message |
| `Coordinator.Agent.FinishTest` | src/index.ts:38 | forwards `(sessionId, testName)` unchanged; the stub fails with its message |
| `Coordinator.Agent.Destroy` | src/index.ts:39-42 | the dispatcher is destroyed first; `stopSession(sessionId)` is called only if that succeeded, and a failed stop returns `stopSession`'s own error |

## Left out

- HTTP transport: the HTTP library's calls and its global defaults are not modelled. Each request's outcome is an input: a body, or what was thrown. The token interceptor, installed globally in the source, becomes a per-client field, so interceptors piling up across several logins are not modelled.
- WebSocket transport: `new WebSocket`, `on`, `send` and `close` act on a socket object that keeps waits and an operation log. Byte-level framing and JSON text are not modelled.
- Timers: time is not modelled. A timer firing is an event. Awaiting a wait delivers the events that arrive meanwhile, then fires that wait's timer.
- Generated UUIDs (session id, client id) are inputs.
- `JSON.parse` results are inputs (`None` when parsing throws). `parseInt` results are inputs (`None` for NaN).
- Numbers are integers, and a response's `message` is a string or absent. A non-string truthy `message` is not modelled, because turning it into an Error message needs JavaScript's string conversion.
- Logging is left out. `console.log`, reading `process.env` and detecting Node become inputs (`isNode`, `Env`).
- `webpack.config.js` is build configuration and has no behaviour.
- `src/admin-connect/session-action-error` is not part of this model; `SessionActionError(message, sessionId)` is a plain datatype case.
- `src/index.ts:3` imports `StubDispatcher` and `DispatcherConnectOptions`, which `src/dispatcher-connect/index.ts` does not export. `src/index.ts:49` passes an options object where `connect` takes a timeout. So the coordinator does not call `Dispatcher.Connect`. Instead, the real dispatcher's connect, ready, test-action and destroy outcomes are settled inputs.
- The default export's promise of a promise is modelled as one startup sequence.
- `Coordinator.Agent.StartTest`, `Coordinator.Agent.FinishTest`, `Coordinator.Agent.Destroy`: a live dispatcher's outcome is an input rather than a call into `Dispatcher`, because of the interface mismatch above.
