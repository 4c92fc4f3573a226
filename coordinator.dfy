/**
 * The coordinator (the package's default export): read and validate the
 * settings, connect to the admin backend, create the dispatcher (the real
 * one or the stub), wait for it to be ready, start a session, and hand out
 * an agent bound to that session.
 *
 * The real dispatcher's awaited results (connect, ready, test actions,
 * destroy) are inputs here, as settled promises; the admin client is the
 * model of AdminConnect. `trace` records the calls in the order they are made.
 */
module Coordinator {
  import opened Wrappers
  import opened Json
  import opened Settings
  import opened AdminConnect
  import opened Sockets
  import opened Stub

  /** The dispatcher the agent talks to. */
  datatype DispatcherKind = LiveDispatcher(url: string) | StubbedDispatcher(stub: StubDispatcher)

  /** A call the coordinator or the agent makes. */
  datatype Step =
    | CallAdminConnect(adminUrl: string, agentId: Option<string>, groupId: Option<string>)
    | CallCreateDispatcher(dispatcherUrl: Option<string>)
    | CallAwaitReady
    | CallStartSession(sessionId: string)
    | CallDispatcherStartTest(sessionId: string, testName: Json)
    | CallDispatcherFinishTest(sessionId: string, testName: Json)
    | CallDispatcherDestroy
    | CallStopSession(sessionId: string)

  /** What startup or an agent call throws. */
  datatype AgentError =
    | SettingsError(message: string)
    | AdminFailure(error: AdminError)
    | DispatcherFailure(reason: string)

  /** The stub's message: names the missing setting the way the settings errors do. */
  function StubMessage(isNode: bool): string {
    "@drill4j/js-auto-test-agent: dispatcher is not initiated: " +
    (if isNode then "DRILL_DISPATCHER_URL is not specified in env variables" else "dispatcherUrl is not specified in options")
  }

  /**
   * `createDispatcher`: the real dispatcher iff the URL is non-empty (its
   * connect outcome decides), otherwise the stub.
   */
  function CreateDispatcher(dispatcherUrl: Option<string>, isNode: bool, connect: Settlement): (r: Result<DispatcherKind, string>)
    requires !connect.Pending?
    ensures r.Ok? && r.value.LiveDispatcher? <==> Present(dispatcherUrl) && connect.Resolved?
    ensures Present(dispatcherUrl) && connect.Rejected? ==> r == Err(connect.reason)
    ensures r.Ok? && r.value.LiveDispatcher? ==> r.value.url == dispatcherUrl.value
    ensures !Present(dispatcherUrl) ==> r == Ok(StubbedDispatcher(StubDispatcher(StubMessage(isNode))))
  {
    if Present(dispatcherUrl) then
      (match connect
       case Resolved(_) => Ok(LiveDispatcher(dispatcherUrl.value))
       case Rejected(reason) => Err(reason))
    else Ok(StubbedDispatcher(StubDispatcher(StubMessage(isNode))))
  }

  /** `dispatcher.ready`: the stub's is resolved; the real one's is given. */
  function ReadyOf(d: DispatcherKind, live: Settlement): Settlement {
    match d
    case LiveDispatcher(_) => live
    case StubbedDispatcher(s) => StubReady(s)
  }

  /** `dispatcher.destroy()`: the stub's resolves; the real one's is given. */
  function DestroyOf(d: DispatcherKind, live: Settlement): Settlement {
    match d
    case LiveDispatcher(_) => live
    case StubbedDispatcher(s) => StubDestroy(s)
  }

  /** The login of `adminConnect` succeeds. */
  predicate LoginSucceeds(login: LoginOutcome) {
    login.LoginResponse? && LoginToken(login.headers).Ok?
  }

  /** The calls a complete startup makes, in order. */
  function LaunchSteps(s: AgentOptions, sessionId: string): seq<Step>
    requires s.adminUrl.Some?
  {
    [CallAdminConnect(s.adminUrl.value, s.agentId, s.groupId),
     CallCreateDispatcher(s.dispatcherUrl),
     CallAwaitReady,
     CallStartSession(sessionId)]
  }

  /** An agent: the session id and the two clients it is bound to. */
  class Agent {
    const admin: AdminClient
    const dispatcher: DispatcherKind
    const sessionId: string
    var trace: seq<Step>

    constructor (admin: AdminClient, dispatcher: DispatcherKind, sessionId: string, trace: seq<Step>)
      ensures this.admin == admin && this.dispatcher == dispatcher && this.sessionId == sessionId
      ensures this.trace == trace
    {
      this.admin := admin;
      this.dispatcher := dispatcher;
      this.sessionId := sessionId;
      this.trace := trace;
    }

    /** `startTest(testName)`: the dispatcher's startTest with the bound session id. */
    method StartTest(testName: Json, live: Settlement) returns (r: Settlement)
      modifies this
      ensures trace == old(trace) + [CallDispatcherStartTest(sessionId, testName)]
      ensures dispatcher.LiveDispatcher? ==> r == live
      ensures dispatcher.StubbedDispatcher? ==> r == Rejected(dispatcher.stub.msg)
    {
      trace := trace + [CallDispatcherStartTest(sessionId, testName)];
      match dispatcher
      case LiveDispatcher(_) => r := live;
      case StubbedDispatcher(s) => r := StubStartTest(s, sessionId, testName);
    }

    /** `finishTest(testName)`: the dispatcher's finishTest with the bound session id. */
    method FinishTest(testName: Json, live: Settlement) returns (r: Settlement)
      modifies this
      ensures trace == old(trace) + [CallDispatcherFinishTest(sessionId, testName)]
      ensures dispatcher.LiveDispatcher? ==> r == live
      ensures dispatcher.StubbedDispatcher? ==> r == Rejected(dispatcher.stub.msg)
    {
      trace := trace + [CallDispatcherFinishTest(sessionId, testName)];
      match dispatcher
      case LiveDispatcher(_) => r := live;
      case StubbedDispatcher(s) => r := StubFinishTest(s, sessionId, testName);
    }

    /**
     * `destroy`: the dispatcher is destroyed first; only if that succeeds is
     * the session stopped, with the bound session id.
     */
    method Destroy(live: Settlement, stopResponse: PostOutcome) returns (r: Result<(), AgentError>)
      requires admin.Valid()
      requires !live.Pending?
      modifies this, admin
      ensures admin.Valid()
      ensures DestroyOf(dispatcher, live).Rejected? ==>
                && trace == old(trace) + [CallDispatcherDestroy]
                && admin.requests == old(admin.requests)
                && r == Err(DispatcherFailure(DestroyOf(dispatcher, live).reason))
      ensures DestroyOf(dispatcher, live).Resolved? ==>
                && trace == old(trace) + [CallDispatcherDestroy, CallStopSession(sessionId)]
                && admin.requests == old(admin.requests) +
                     [Request(admin.route, Some(BearerHeader(admin.token)), Some(Action(STOP, StopPayload(sessionId))))]
                && (r.Ok? <==> AxiosPost(StopAction(sessionId), stopResponse).Ok?)
                && (r.Err? ==> r == Err(AdminFailure(AxiosPost(StopAction(sessionId), stopResponse).error)))
    {
      trace := trace + [CallDispatcherDestroy];
      var destroyed := DestroyOf(dispatcher, live);
      if destroyed.Rejected? {
        return Err(DispatcherFailure(destroyed.reason));
      }
      trace := trace + [CallStopSession(sessionId)];
      var stopped := admin.StopSession(sessionId, stopResponse);
      r := if stopped.Ok? then Ok(()) else Err(AdminFailure(stopped.error));
    }
  }

  /** What a failed `adminConnect` throws: the login's own error, or the authentication failure. */
  function LoginError(login: LoginOutcome): AdminError {
    if login.LoginThrown? then Rethrown(login.thrown) else Failure(AUTH_FAILED)
  }

  /**
   * The default export. Each awaited step starts only after the previous one
   * succeeded, and the first failure ends startup with that step's error:
   * settings are validated before the admin connection, the admin connection
   * completes before the dispatcher is created, and the session is started
   * only once `ready` has resolved. The agent is bound to the client the
   * login produced, the dispatcher `createDispatcher` chose and the id the
   * session was started with.
   */
  method Launch(options: AgentOptions, isNode: bool, env: Env, login: LoginOutcome,
                connect: Settlement, ready: Settlement, sessionId: string, startResponse: PostOutcome)
    returns (r: Result<Agent, AgentError>, trace: seq<Step>)
    requires !connect.Pending? && !ready.Pending?
    ensures GetSettings(options, isNode, env).Err? ==>
              trace == [] && r == Err(SettingsError(GetSettings(options, isNode, env).error))
    ensures GetSettings(options, isNode, env).Ok? ==>
              1 <= |trace| <= 4 && trace == LaunchSteps(GetSettings(options, isNode, env).value, sessionId)[..|trace|]
    ensures |trace| >= 2 <==> GetSettings(options, isNode, env).Ok? && LoginSucceeds(login)
    ensures |trace| >= 3 <==>
              |trace| >= 2 && CreateDispatcher(GetSettings(options, isNode, env).value.dispatcherUrl, isNode, connect).Ok?
    ensures |trace| == 4 <==>
              |trace| >= 3 &&
              ReadyOf(CreateDispatcher(GetSettings(options, isNode, env).value.dispatcherUrl, isNode, connect).value, ready).Resolved?
    ensures r.Ok? <==> |trace| == 4 && AxiosPost(StartAction(sessionId), startResponse).Ok?
    ensures |trace| == 1 ==> r == Err(AdminFailure(LoginError(login)))
    ensures |trace| == 2 ==>
              r == Err(DispatcherFailure(CreateDispatcher(GetSettings(options, isNode, env).value.dispatcherUrl, isNode, connect).error))
    ensures |trace| == 3 ==>
              r == Err(DispatcherFailure(
                     ReadyOf(CreateDispatcher(GetSettings(options, isNode, env).value.dispatcherUrl, isNode, connect).value, ready).reason))
    ensures |trace| == 4 && r.Err? ==> r == Err(AdminFailure(AxiosPost(StartAction(sessionId), startResponse).error))
    ensures r.Ok? ==>
              && fresh(r.value) && fresh(r.value.admin)
              && r.value.admin.Valid()
              && r.value.sessionId == sessionId
              && r.value.trace == trace
              && r.value.dispatcher == CreateDispatcher(GetSettings(options, isNode, env).value.dispatcherUrl, isNode, connect).value
              && r.value.admin.baseUrl == BaseUrl(GetSettings(options, isNode, env).value.adminUrl.value)
              && r.value.admin.route == Test2CodeRoute(GetSettings(options, isNode, env).value.agentId, GetSettings(options, isNode, env).value.groupId)
              && r.value.admin.token == login.headers["authorization"]
              && r.value.admin.requests ==
                   [LOGIN_REQUEST, Request(r.value.admin.route, Some(BearerHeader(r.value.admin.token)), Some(StartAction(sessionId)))]
  {
    trace := [];
    var settings := GetSettings(options, isNode, env);
    if settings.Err? {
      return Err(SettingsError(settings.error)), trace;
    }
    var s := settings.value;
    ghost var steps := LaunchSteps(s, sessionId);

    trace := trace + [CallAdminConnect(s.adminUrl.value, s.agentId, s.groupId)];
    var admin := AdminConnect.Connect(s.adminUrl.value, s.agentId, s.groupId, login);
    if admin.Err? {
      assert !LoginSucceeds(login) && admin.error == LoginError(login);
      return Err(AdminFailure(admin.error)), trace;
    }
    assert LoginSucceeds(login);

    trace := trace + [CallCreateDispatcher(s.dispatcherUrl)];
    assert trace == steps[..2];
    var dispatcher := CreateDispatcher(s.dispatcherUrl, isNode, connect);
    if dispatcher.Err? {
      return Err(DispatcherFailure(dispatcher.error)), trace;
    }

    trace := trace + [CallAwaitReady];
    assert trace == steps[..3];
    var readyState := ReadyOf(dispatcher.value, ready);
    if readyState.Rejected? {
      return Err(DispatcherFailure(readyState.reason)), trace;
    }

    trace := trace + [CallStartSession(sessionId)];
    assert trace == steps[..4];
    var started := admin.value.StartSession(sessionId, startResponse);
    if started.Err? {
      return Err(AdminFailure(started.error)), trace;
    }
    var agent := new Agent(admin.value, dispatcher.value, started.value, trace);
    r := Ok(agent);
  }
}
