/**
 * The admin-backend client: URL normalisation, route derivation, login and
 * the bearer token it installs, START/STOP session actions, response
 * acceptance and the mapping of request failures to errors.
 *
 * HTTP is abstracted: each request's outcome (a response body, or what the
 * HTTP library threw) is an input. The token the source installs as a global
 * request interceptor is a field of the client object here.
 */
module AdminConnect {
  import opened Wrappers
  import opened Json
  import opened Text

  datatype AdminMessage = START | STOP
  datatype TestType = AUTO

  const AUTH_TOKEN_HEADER_NAME := "Authorization"
  const AUTH_FAILED := "Drill backend authentication failed"
  const UNEXPECTED := "unexpected error"
  const BAD_REQUEST := "bad request"
  const INTERNAL_ERROR := "internal server error"
  const DISPATCH_SUFFIX := "/plugins/test2code/dispatch-action"

  /** What an admin operation throws. */
  datatype AdminError =
    | Failure(message: string)                                // new Error(message)
    | SessionActionError(detail: Option<string>, sessionId: string)
    | TypeFault                                               // a property read on null/undefined
    | Rethrown(thrown: Thrown)                                // an HTTP failure passed through as is

  /** The `data` of an HTTP error response, by the two fields the client reads. */
  datatype ErrorData = ErrorData(code: Option<int>, message: Option<string>)

  /** An HTTP error response; `data` is None when the body is null or absent. */
  datatype HttpResponse = HttpResponse(status: int, data: Option<ErrorData>)

  /** What a failed request throws: a string, an HTTP-library error, or anything else. */
  datatype Thrown =
    | ThrownString(s: string)
    | AxiosError(response: Option<HttpResponse>)
    | ThrownOther

  /**
   * One element of a successful response body: `Missing` is null/undefined,
   * `Record` any other value, with its `code` when that is a number.
   */
  datatype Record = Missing | Record(code: Option<int>)

  /** A successful response body: a single value or an array. */
  datatype Body = Single(record: Record) | Batch(records: seq<Record>)

  /** The outcome of one HTTP request. */
  datatype PostOutcome = Responded(body: Body) | Threw(thrown: Thrown)

  /** The outcome of the login request: its response headers, or what it threw. */
  datatype LoginOutcome = LoginResponse(headers: map<string, string>) | LoginThrown(thrown: Thrown)

  datatype ActionPayload =
    | StartPayload(sessionId: string, testType: TestType, isRealtime: bool)
    | StopPayload(sessionId: string)

  /** The JSON body of a session action. */
  datatype Action = Action(kind: AdminMessage, payload: ActionPayload)

  /** A request as it leaves the client: path, Authorization header, body. */
  datatype Request = Request(path: string, authorization: Option<string>, body: Option<Action>)

  /** The login request: sent before the token exists, so without Authorization. */
  const LOGIN_REQUEST := Request("/login", None, None)

  // ---------------------------------------------------------------- URLs

  /** "https" contains "http", so the source's second indexOf test never decides. */
  lemma HttpsHasHttp(s: string)
    ensures Occurs(s, "https") ==> Occurs(s, "http")
  {
    if Occurs(s, "https") {
      assert "https" == "http" + "s";
      OccursPrefix(s, "http", "s");
    }
  }

  /** `ensureProtocol`: prefix "http://" unless "http" occurs anywhere in the URL. */
  function EnsureProtocol(url: string): (r: string)
    ensures Occurs(url, "http") ==> r == url
    ensures !Occurs(url, "http") ==> r == "http://" + url
  {
    HttpsHasHttp(url);
    var hasProtocol := IndexOf(url, "http") > -1 || IndexOf(url, "https") > -1;
    if !hasProtocol then "http://" + url else url
  }

  lemma EnsureProtocolHasHttp(url: string)
    ensures Occurs(EnsureProtocol(url), "http")
  {
    if !Occurs(url, "http") {
      assert "http://" + url == "http" + ("://" + url);
      OccursAtStart("http", "://" + url);
    }
  }

  lemma EnsureProtocolIdempotent(url: string)
    ensures EnsureProtocol(EnsureProtocol(url)) == EnsureProtocol(url)
  {
    EnsureProtocolHasHttp(url);
  }

  /** The test is a substring test: a host name containing "http" gets no scheme. */
  lemma EnsureProtocolSubstringTest()
    ensures EnsureProtocol("myhttphost:8090") == "myhttphost:8090"
  {
    assert OccursAt("myhttphost:8090", "http", 2);
  }

  /** The base URL every request is resolved against. */
  function BaseUrl(backendUrl: string): (r: string)
    ensures Occurs(r, "http")
    ensures |r| >= 5 && r[|r| - 5..] == "/api/"
    ensures r[..|r| - 5] == if Occurs(backendUrl, "http") then backendUrl else "http://" + backendUrl
  {
    EnsureProtocolHasHttp(backendUrl);
    OccursExtend(EnsureProtocol(backendUrl), "/api/", "http");
    EnsureProtocol(backendUrl) + "/api/"
  }

  // ---------------------------------------------------------------- route

  /** The admin resource a session action is addressed to. */
  datatype Target = Agent(id: string) | ServiceGroup(id: string)

  /** A possibly undefined id as a template literal prints it. */
  function IdText(id: Option<string>): string {
    match id
    case Some(s) => s
    case None => "undefined"
  }

  /** The target chosen from the two ids: a non-empty groupId wins. */
  function TargetOf(agentId: Option<string>, groupId: Option<string>): Target {
    if Present(groupId) then ServiceGroup(groupId.value) else Agent(IdText(agentId))
  }

  /** The dispatch-action path of a target. */
  function RouteOf(t: Target): string {
    match t
    case Agent(id) => "/agents/" + id + DISPATCH_SUFFIX
    case ServiceGroup(id) => "/service-groups/" + id + DISPATCH_SUFFIX
  }

  /** The route computed by the default export from agentId and groupId. */
  function Test2CodeRoute(agentId: Option<string>, groupId: Option<string>): (route: string)
    ensures route == RouteOf(TargetOf(agentId, groupId))
    ensures Present(groupId) ==> route == "/service-groups/" + groupId.value + DISPATCH_SUFFIX
    ensures !Present(groupId) && agentId.Some? ==> route == "/agents/" + agentId.value + DISPATCH_SUFFIX
  {
    var (kind, id) := if Present(groupId) then ("service-groups", groupId.value) else ("agents", IdText(agentId));
    "/" + kind + "/" + id + DISPATCH_SUFFIX
  }

  /** When both ids are given the groupId silently wins: the agentId has no effect. */
  lemma GroupIdWins(agentId1: Option<string>, agentId2: Option<string>, groupId: Option<string>)
    requires Present(groupId)
    ensures Test2CodeRoute(agentId1, groupId) == Test2CodeRoute(agentId2, groupId)
    ensures TargetOf(agentId1, groupId).ServiceGroup?
  {
  }

  /** A route names exactly one target: distinct targets never share a route. */
  lemma {:induction false} RouteOfInjective(t1: Target, t2: Target)
    requires RouteOf(t1) == RouteOf(t2)
    ensures t1 == t2
  {
    var r := RouteOf(t1);
    // the second character tells the two kinds apart
    assert RouteOf(t1)[1] == if t1.Agent? then 'a' else 's';
    assert RouteOf(t2)[1] == if t2.Agent? then 'a' else 's';
    var p := if t1.Agent? then "/agents/" else "/service-groups/";
    assert r == p + t1.id + DISPATCH_SUFFIX;
    assert r == p + t2.id + DISPATCH_SUFFIX;
    assert t1.id == r[|p|..|r| - |DISPATCH_SUFFIX|];
    assert t2.id == r[|p|..|r| - |DISPATCH_SUFFIX|];
  }

  // ---------------------------------------------------------------- login

  function LowerChar(c: char): char {
    if 'A' <= c <= 'Z' then (c as int + 32) as char else c
  }

  /** `String.prototype.toLowerCase` on ASCII text. */
  function LowerAscii(s: string): (r: string)
    ensures |r| == |s| && forall i :: 0 <= i < |s| ==> r[i] == LowerChar(s[i])
  {
    seq(|s|, i requires 0 <= i < |s| => LowerChar(s[i]))
  }

  /** Response headers arrive with lower-case names; the token is read under this key. */
  lemma AuthHeaderKey()
    ensures LowerAscii(AUTH_TOKEN_HEADER_NAME) == "authorization"
  {
  }

  /** `login`: the token from the lower-case authorization header, which must be non-empty. */
  function LoginToken(headers: map<string, string>): (r: Result<string, AdminError>)
    ensures r.Ok? <==> "authorization" in headers && headers["authorization"] != ""
    ensures r.Ok? ==> r.value == headers["authorization"]
    ensures r.Err? ==> r.error == Failure(AUTH_FAILED)
  {
    AuthHeaderKey();
    var key := LowerAscii(AUTH_TOKEN_HEADER_NAME);
    if key !in headers || headers[key] == "" then Err(Failure(AUTH_FAILED)) else Ok(headers[key])
  }

  /** The Authorization header value the interceptor sets. */
  function BearerHeader(token: string): (h: string)
    ensures |h| == 7 + |token| && h[..7] == "Bearer " && h[7..] == token
  {
    "Bearer " + token
  }

  // ---------------------------------------------------------------- responses

  /** `data.some(x => x.code === 200)`: stops at the first code 200; reading `code` of null throws. */
  function SomeCode200(records: seq<Record>): (r: Result<bool, AdminError>)
    ensures r.Err? ==> r.error == TypeFault
    decreases |records|
  {
    if records == [] then Ok(false)
    else match records[0]
      case Missing => Err(TypeFault)
      case Record(code) => if code == Some(200) then Ok(true) else SomeCode200(records[1..])
  }

  /** Element `i` has code 200 and every element before it is a non-null value. */
  ghost predicate AcceptedAt(records: seq<Record>, i: int) {
    0 <= i < |records| && records[i] == Record(Some(200)) &&
    forall j :: 0 <= j < i ==> records[j].Record?
  }

  /** What the scan returns, stated without the scan. */
  lemma {:induction false} SomeCode200Spec(records: seq<Record>)
    ensures SomeCode200(records) == Ok(true) <==> exists i :: AcceptedAt(records, i)
    ensures SomeCode200(records) == Ok(false) <==>
              forall i :: 0 <= i < |records| ==> records[i].Record? && records[i].code != Some(200)
    decreases |records|
  {
    if records != [] {
      var rest := records[1..];
      SomeCode200Spec(rest);
      if records[0].Record? && records[0].code != Some(200) {
        if exists i :: AcceptedAt(rest, i) {
          var i :| AcceptedAt(rest, i);
          assert AcceptedAt(records, i + 1);
        }
        if exists i :: AcceptedAt(records, i) {
          var i :| AcceptedAt(records, i);
          assert AcceptedAt(rest, i - 1);
        }
        assert forall i :: 0 < i < |records| ==> records[i] == rest[i - 1];
      } else {
        assert records[0] == Missing ==> !AcceptedAt(records, 0) && forall i :: !AcceptedAt(records, i);
        if records[0] == Record(Some(200)) {
          assert AcceptedAt(records, 0);
        }
      }
    }
  }

  /** The acceptance test applied to a successful response body. */
  function CheckBody(body: Body): Result<(), AdminError> {
    match body
    case Batch(records) =>
      (match SomeCode200(records)
       case Err(e) => Err(e)
       case Ok(found) => if !found then Err(Failure(UNEXPECTED)) else Ok(()))
    case Single(Missing) => Err(TypeFault)
    case Single(Record(code)) => if code != Some(200) then Err(Failure(UNEXPECTED)) else Ok(())
  }

  /** A single body is accepted iff its code is 200. */
  lemma SingleAcceptance(record: Record)
    ensures CheckBody(Single(record)).Ok? <==> record == Record(Some(200))
    ensures record.Record? && record.code != Some(200) ==> CheckBody(Single(record)) == Err(Failure(UNEXPECTED))
  {
  }

  /**
   * An array of non-null values is accepted iff some element has code 200 and
   * otherwise fails with "unexpected error"; a null element met before any
   * code-200 element makes the scan throw.
   */
  lemma BatchAcceptance(records: seq<Record>)
    ensures (forall i :: 0 <= i < |records| ==> records[i].Record?) ==>
              (CheckBody(Batch(records)).Ok? <==> exists i :: 0 <= i < |records| && records[i].code == Some(200))
    ensures (forall i :: 0 <= i < |records| ==> records[i].Record?) && CheckBody(Batch(records)).Err? ==>
              CheckBody(Batch(records)) == Err(Failure(UNEXPECTED))
    ensures CheckBody(Batch(records)).Ok? <==> exists i :: AcceptedAt(records, i)
  {
    SomeCode200Spec(records);
    if forall i :: 0 <= i < |records| ==> records[i].Record? {
      if exists i :: 0 <= i < |records| && records[i].code == Some(200) {
        var i :| 0 <= i < |records| && records[i].code == Some(200);
        assert AcceptedAt(records, i);
      }
    }
  }

  // ---------------------------------------------------------------- errors

  /** `e.response?.data` of a thrown value. */
  function DataOf(e: Thrown): Option<ErrorData> {
    if e.AxiosError? && e.response.Some? then e.response.value.data else None
  }

  /** `e.response?.data?.message`. */
  function MessageOf(e: Thrown): Option<string> {
    if DataOf(e).Some? then DataOf(e).value.message else None
  }

  /** `e.response?.data?.code`. */
  function DataCodeOf(e: Thrown): Option<int> {
    if DataOf(e).Some? then DataOf(e).value.code else None
  }

  /** `getErrorMessage`. */
  function ErrorMessage(e: Thrown): (msg: string)
    ensures e.ThrownString? ==> msg == e.s
    ensures !e.ThrownString? && Present(MessageOf(e)) ==> msg == MessageOf(e).value
    ensures msg == "" ==> e == ThrownString("")
    ensures e.ThrownOther? || (e.AxiosError? && e.response.None?) ==> msg == UNEXPECTED
    ensures (e.ThrownString? && msg == e.s) || msg == MessageOf(e).GetOr("") || msg in {BAD_REQUEST, INTERNAL_ERROR, UNEXPECTED}
  {
    match e
    case ThrownString(s) => s
    case ThrownOther => UNEXPECTED
    case AxiosError(response) =>
      if Present(MessageOf(e)) then MessageOf(e).value
      else if response.Some? && response.value.status == 400 then BAD_REQUEST
      else if response.Some? && response.value.status == 500 then INTERNAL_ERROR
      else UNEXPECTED
  }

  /** Without a response message, the status decides; the message always wins over the status. */
  lemma StatusFallback(status: int, data: Option<ErrorData>)
    requires !(data.Some? && Present(data.value.message))
    ensures ErrorMessage(AxiosError(Some(HttpResponse(status, data)))) ==
              if status == 400 then BAD_REQUEST else if status == 500 then INTERNAL_ERROR else UNEXPECTED
  {
  }

  /** The catch block of `axiosPost`. */
  function PostFailure(e: Thrown, sessionId: string): AdminError {
    if e.AxiosError? && DataCodeOf(e) == Some(404) then SessionActionError(MessageOf(e), sessionId)
    else Failure(ErrorMessage(e))
  }

  /** `axiosPost` once the request's outcome is known. */
  function AxiosPost(action: Action, outcome: PostOutcome): Result<Body, AdminError> {
    match outcome
    case Threw(e) => Err(PostFailure(e, action.payload.sessionId))
    case Responded(body) =>
      (match CheckBody(body)
       case Ok(_) => Ok(body)
       case Err(err) => Err(err))
  }

  /**
   * A failed request raises SessionActionError exactly when the error's
   * response data has code 404, whatever the HTTP status, carrying the session
   * id of the posted action; every other failure is a plain error whose
   * message is never empty unless an empty string was thrown.
   */
  lemma PostFailureKinds(action: Action, e: Thrown)
    ensures AxiosPost(action, Threw(e)).Err?
    ensures AxiosPost(action, Threw(e)).error.SessionActionError? <==> DataCodeOf(e) == Some(404)
    ensures DataCodeOf(e) == Some(404) ==>
              AxiosPost(action, Threw(e)).error == SessionActionError(MessageOf(e), action.payload.sessionId)
    ensures DataCodeOf(e) != Some(404) ==>
              AxiosPost(action, Threw(e)).error == Failure(ErrorMessage(e)) &&
              (ErrorMessage(e) != "" || e == ThrownString(""))
  {
  }

  function StartAction(sessionId: string): Action {
    Action(START, StartPayload(sessionId, AUTO, true))
  }

  function StopAction(sessionId: string): Action {
    Action(STOP, StopPayload(sessionId))
  }

  // ---------------------------------------------------------------- client

  /** A logged-in client: the base URL, the route and the token are fixed at login. */
  class AdminClient {
    const baseUrl: string
    const route: string
    const token: string
    var requests: seq<Request>

    /** The login request went first, without a token; every later request carries the bearer token. */
    ghost predicate Valid()
      reads this
    {
      && token != ""
      && |requests| >= 1
      && requests[0] == LOGIN_REQUEST
      && forall i :: 1 <= i < |requests| ==>
           requests[i].authorization == Some(BearerHeader(token)) && requests[i].path == route
    }

    constructor (baseUrl: string, route: string, token: string)
      requires token != ""
      ensures Valid()
      ensures this.baseUrl == baseUrl && this.route == route && this.token == token
      ensures requests == [LOGIN_REQUEST]
    {
      this.baseUrl := baseUrl;
      this.route := route;
      this.token := token;
      requests := [LOGIN_REQUEST];
    }

    /** `axiosPost(test2CodeRoute, action)`: one request through the token interceptor. */
    method Post(action: Action, outcome: PostOutcome) returns (r: Result<Body, AdminError>)
      requires Valid()
      modifies this
      ensures Valid()
      ensures requests == old(requests) + [Request(route, Some(BearerHeader(token)), Some(action))]
      ensures r == AxiosPost(action, outcome)
    {
      requests := requests + [Request(route, Some(BearerHeader(token)), Some(action))];
      r := AxiosPost(action, outcome);
    }

    /** `startSession`: posts START for the supplied session id and returns that id. */
    method StartSession(sessionId: string, outcome: PostOutcome) returns (r: Result<string, AdminError>)
      requires Valid()
      modifies this
      ensures Valid()
      ensures requests == old(requests) + [Request(route, Some(BearerHeader(token)), Some(Action(START, StartPayload(sessionId, AUTO, true))))]
      ensures r.Ok? <==> AxiosPost(StartAction(sessionId), outcome).Ok?
      ensures r.Ok? ==> r.value == sessionId
      ensures r.Err? ==> r.error == AxiosPost(StartAction(sessionId), outcome).error
    {
      var posted := Post(StartAction(sessionId), outcome);
      if posted.Err? {
        return Err(posted.error);
      }
      r := Ok(sessionId);
    }

    /** `stopSession`: posts STOP for the given session id. */
    method StopSession(sessionId: string, outcome: PostOutcome) returns (r: Result<(), AdminError>)
      requires Valid()
      modifies this
      ensures Valid()
      ensures requests == old(requests) + [Request(route, Some(BearerHeader(token)), Some(Action(STOP, StopPayload(sessionId))))]
      ensures r.Ok? <==> AxiosPost(StopAction(sessionId), outcome).Ok?
      ensures r.Err? ==> r.error == AxiosPost(StopAction(sessionId), outcome).error
    {
      var posted := Post(StopAction(sessionId), outcome);
      if posted.Err? {
        return Err(posted.error);
      }
      r := Ok(());
    }
  }

  /**
   * The default export: log in against the normalised base URL, then fix the
   * route. A thrown login request propagates unchanged; a missing or empty
   * token fails with "Drill backend authentication failed".
   */
  method Connect(backendUrl: string, agentId: Option<string>, groupId: Option<string>, login: LoginOutcome)
    returns (r: Result<AdminClient, AdminError>)
    ensures login.LoginThrown? ==> r == Err(Rethrown(login.thrown))
    ensures login.LoginResponse? ==> (r.Ok? <==> LoginToken(login.headers).Ok?)
    ensures login.LoginResponse? && r.Err? ==> r.error == Failure(AUTH_FAILED)
    ensures r.Ok? ==>
              && fresh(r.value) && r.value.Valid()
              && r.value.baseUrl == BaseUrl(backendUrl)
              && r.value.route == Test2CodeRoute(agentId, groupId)
              && r.value.token == login.headers["authorization"]
              && r.value.requests == [LOGIN_REQUEST]
  {
    var baseUrl := BaseUrl(backendUrl);
    match login
    case LoginThrown(thrown) =>
      return Err(Rethrown(thrown));
    case LoginResponse(headers) =>
      var token := LoginToken(headers);
      if token.Err? {
        return Err(token.error);
      }
      var route := Test2CodeRoute(agentId, groupId);
      var client := new AdminClient(baseUrl, route, token.value);
      r := Ok(client);
  }
}
