/**
 * The dispatcher client: the frames it writes, the sender that pairs each
 * frame with a response listener and a timer, the connect sequence, the
 * test actions and the graceful close.
 */
module Dispatcher {
  import opened Wrappers
  import opened Json
  import opened Text
  import opened Sockets
  import opened SocketUtils

  /** The message types the client sends. */
  datatype DispatcherMessage = CONNECT | START_TEST | FINISH_TEST

  /** The message types the client recognises on the way in. */
  datatype IncomingMessage = READY | CONNECT | START_TEST | FINISH_TEST

  function OutboundName(m: DispatcherMessage): string {
    match m
    case CONNECT => "CONNECT"
    case START_TEST => "START_TEST"
    case FINISH_TEST => "FINISH_TEST"
  }

  function IncomingName(m: IncomingMessage): string {
    match m
    case READY => "READY"
    case CONNECT => "CONNECT"
    case START_TEST => "START_TEST"
    case FINISH_TEST => "FINISH_TEST"
  }

  /** Every outbound message type is also a recognised incoming type, under the same name. */
  lemma OutboundIsIncoming(m: DispatcherMessage)
    ensures exists i: IncomingMessage :: IncomingName(i) == OutboundName(m)
  {
    var i: IncomingMessage := match m
      case CONNECT => IncomingMessage.CONNECT
      case START_TEST => IncomingMessage.START_TEST
      case FINISH_TEST => IncomingMessage.FINISH_TEST;
    assert IncomingName(i) == OutboundName(m);
  }

  const CLIENT_TYPE := "autotest-agent"
  const CLOSE_NORMAL := 1000
  const EMPTY_PAYLOAD := JObj(map[])

  /** `{ type, from: { id: clientId, type: "autotest-agent" }, payload }`, the payload defaulting to `{}`. */
  function OutboundFrame(messageType: DispatcherMessage, clientId: string, payload: Option<Json>): Json {
    JObj(map[
      "type" := JStr(OutboundName(messageType)),
      "from" := JObj(map["id" := JStr(clientId), "type" := JStr(CLIENT_TYPE)]),
      "payload" := payload.GetOr(EMPTY_PAYLOAD)])
  }

  /**
   * A frame read back: it carries the sent type, the client's id under
   * `from`, and the payload (`{}` when none was given). Echoed back by the
   * dispatcher it answers its own send, and the reply is that payload.
   */
  lemma OutboundFrameReadBack(messageType: DispatcherMessage, clientId: string, payload: Option<Json>)
    ensures var f := OutboundFrame(messageType, clientId, payload);
      && Field(f, "type") == Some(JStr(OutboundName(messageType)))
      && Field(f, "from") == Some(JObj(map["id" := JStr(clientId), "type" := JStr(CLIENT_TYPE)]))
      && Field(f, "payload") == Some(if payload.Some? then payload.value else EMPTY_PAYLOAD)
      && ResponseMatches(Some(f), OutboundName(messageType))
      && Reaction(OnResponse(OutboundName(messageType)), Message(Some(f)))
           == Some(Payload(Some(payload.GetOr(EMPTY_PAYLOAD))))
  {
  }

  /**
   * Correlation is by type only: two frames with the same `type` field are
   * accepted or ignored alike by a response listener, whatever their sender
   * or payload.
   */
  lemma CorrelationByTypeOnly(f1: Json, f2: Json, messageType: string)
    requires Field(f1, "type") == Field(f2, "type")
    ensures ResponseMatches(Some(f1), messageType) <==> ResponseMatches(Some(f2), messageType)
  {
  }

  /** `parseInt(process.env.DRILL_MESSAGE_TIMEOUT) || 10000`; None stands for NaN. */
  function EffectiveTimeout(parsed: Option<int>): (t: int)
    ensures t != 0
    ensures t == DEFAULT_TIMEOUT || parsed == Some(t)
    ensures parsed.Some? && parsed.value != 0 <==> parsed == Some(t)
  {
    if parsed.Some? && parsed.value != 0 then parsed.value else DEFAULT_TIMEOUT
  }

  /** The payload of START_TEST and FINISH_TEST. */
  function TestPayload(testName: Json, sessionId: string): Json {
    JObj(map["testName" := testName, "sessionId" := JStr(sessionId)])
  }

  /** A response wait as the sender registers it (its timer set just after the write). */
  function ResponseWait(messageType: DispatcherMessage, envTimeout: Option<int>): Wait {
    Wait(OnResponse(OutboundName(messageType)), EffectiveTimeout(envTimeout), true, Pending)
  }

  /**
   * A send resolves with the payload of the first inbound frame whose type
   * equals the sent type, provided its timer has not fired first; frames that
   * failed to parse, null frames and frames of other types before it change
   * nothing.
   */
  lemma FirstResponseResolves(messageType: DispatcherMessage, envTimeout: Option<int>, id: nat, evs: seq<Inbound>, k: nat)
    requires k < |evs| && evs[k].Message? && ResponseMatches(evs[k].frame, OutboundName(messageType))
    requires forall j :: 0 <= j < k ==>
               !(evs[j].Message? && ResponseMatches(evs[j].frame, OutboundName(messageType))) && evs[j] != TimerFired(id)
    ensures Run(ResponseWait(messageType, envTimeout), id, evs).state ==
              Resolved(Payload(Field(evs[k].frame.value, "payload")))
  {
    var w := ResponseWait(messageType, envTimeout);
    forall j | 0 <= j < k ensures Step(w, id, evs[j]) == w {
    }
    FirstDecisiveWins(w, id, evs, k);
  }

  /** An unanswered send rejects with `"<type>" response timed out: <timeout>ms`. */
  lemma NoResponseTimesOut(messageType: DispatcherMessage, envTimeout: Option<int>, id: nat, evs: seq<Inbound>)
    requires forall j :: 0 <= j < |evs| ==>
               !(evs[j].Message? && ResponseMatches(evs[j].frame, OutboundName(messageType))) && evs[j] != TimerFired(id)
    ensures Run(ResponseWait(messageType, envTimeout), id, evs + [TimerFired(id)]).state ==
              Rejected("\"" + OutboundName(messageType) + "\" response timed out: " + IntText(EffectiveTimeout(envTimeout)) + "ms")
  {
    var w := ResponseWait(messageType, envTimeout);
    var all := evs + [TimerFired(id)];
    forall j | 0 <= j < |evs| ensures Step(w, id, all[j]) == w {
      assert all[j] == evs[j];
    }
    FirstDecisiveWins(w, id, all, |evs|);
  }

  /**
   * The function `createSender` returns, awaited: register the response
   * listener, write the frame, set the timer; the events that arrive then
   * settle it.
   */
  method Send(socket: Socket, clientId: string, messageType: DispatcherMessage, payload: Option<Json>,
              envTimeout: Option<int>, evs: seq<Inbound>)
    returns (id: nat, r: Settlement)
    modifies socket
    ensures id == |old(socket.waits)|
    ensures socket.log == old(socket.log) +
              [Listened(id, OnResponse(OutboundName(messageType))),
               Wrote(OutboundFrame(messageType, clientId, payload)),
               Armed(id)]
    ensures socket.waits == DeliverAll(old(socket.waits) + [ResponseWait(messageType, envTimeout)], evs + [TimerFired(id)])
    ensures r == Run(ResponseWait(messageType, envTimeout), id, evs + [TimerFired(id)]).state
    ensures !r.Pending?
  {
    id := socket.Listen(OnResponse(OutboundName(messageType)), EffectiveTimeout(envTimeout));
    socket.Send(OutboundFrame(messageType, clientId, payload));
    socket.Arm(id);
    assert socket.waits == old(socket.waits) + [ResponseWait(messageType, envTimeout)];
    r := Await(socket, id, evs);
  }

  /** A connected dispatcher: its socket, client id, and the wait behind `ready`. */
  datatype Handle = Handle(socket: Socket, clientId: string, ready: nat)

  /** The handle's ready wait exists, listens for READY and has its timer set. */
  ghost predicate Live(h: Handle)
    reads h.socket
  {
    h.ready < |h.socket.waits| && h.socket.waits[h.ready].armed &&
    h.socket.waits[h.ready].listener == OnMessage(IncomingName(READY))
  }

  /**
   * Traffic that carries no READY frame and not the ready timer leaves the
   * ready wait as it was: a test action that sees only other frames and
   * events keeps `ready` pending.
   */
  lemma {:induction false} ReadyUntouched(ws: seq<Wait>, ready: nat, evs: seq<Inbound>)
    requires ready < |ws| && ws[ready].listener == OnMessage(IncomingName(READY))
    requires forall j :: 0 <= j < |evs| ==>
               !(evs[j].Message? && MessageMatches(evs[j].frame, IncomingName(READY))) && evs[j] != TimerFired(ready)
    ensures |DeliverAll(ws, evs)| == |ws| && DeliverAll(ws, evs)[ready] == ws[ready]
  {
    DeliverAllPointwise(ws, evs);
    forall j | 0 <= j < |evs| ensures Step(ws[ready], ready, evs[j]) == ws[ready] {
    }
    IgnoredPrefix(ws[ready], ready, evs, |evs|);
    assert evs[|evs|..] == [];
  }

  /** Outcome of the open wait of `connect`. */
  function OpenOutcome(connectTimeout: Option<int>, evs: seq<Inbound>): Settlement {
    Run(EventWait(Open, TimeoutOrDefault(connectTimeout)), 0, evs + [TimerFired(0)]).state
  }

  /** Outcome of the awaited CONNECT send of `connect`. */
  function ConnectOutcome(envTimeout: Option<int>, evs: seq<Inbound>): Settlement {
    Run(ResponseWait(DispatcherMessage.CONNECT, envTimeout), 1, evs + [TimerFired(1)]).state
  }

  /**
   * `connect`: open the socket and wait for "open"; then send CONNECT and
   * wait for its response; only then build the handle, whose `ready`
   * listener is registered last. A failure at either wait is thrown.
   */
  method Connect(url: string, connectTimeout: Option<int>, openEvents: seq<Inbound>,
                 clientId: string, envTimeout: Option<int>, connectEvents: seq<Inbound>)
    returns (socket: Socket, r: Result<Handle, string>)
    ensures fresh(socket) && socket.url == url
    ensures OpenOutcome(connectTimeout, openEvents).Rejected? ==>
              && r == Err(OpenOutcome(connectTimeout, openEvents).reason)
              && socket.log == [Listened(0, OnEvent(Open)), Armed(0)]
    ensures OpenOutcome(connectTimeout, openEvents).Resolved? ==>
              |socket.log| >= 5 && socket.log[..5] == [Listened(0, OnEvent(Open)), Armed(0),
                                  Listened(1, OnResponse("CONNECT")),
                                  Wrote(OutboundFrame(DispatcherMessage.CONNECT, clientId, None)),
                                  Armed(1)]
    ensures OpenOutcome(connectTimeout, openEvents).Resolved? && ConnectOutcome(envTimeout, connectEvents).Rejected? ==>
              r == Err(ConnectOutcome(envTimeout, connectEvents).reason) && |socket.log| == 5
    ensures r.Ok? <==> OpenOutcome(connectTimeout, openEvents).Resolved? && ConnectOutcome(envTimeout, connectEvents).Resolved?
    ensures r.Ok? ==>
              && r.value == Handle(socket, clientId, 2)
              && |socket.log| == 7 && socket.log[5..] == [Listened(2, OnMessage("READY")), Armed(2)]
              && |socket.waits| == 3
              && socket.waits[2] == Wait(OnMessage("READY"), DEFAULT_TIMEOUT, true, Pending)
              && Live(r.value)
  {
    socket := new Socket(url);
    var openId := SocketEvent(socket, Open, connectTimeout);
    assert socket.waits == [EventWait(Open, TimeoutOrDefault(connectTimeout))];
    var openState := Await(socket, openId, openEvents);
    if openState.Rejected? {
      return socket, Err(openState.reason);
    }
    DeliverAllKeepsShape([EventWait(Open, TimeoutOrDefault(connectTimeout))], openEvents + [TimerFired(0)]);
    assert |socket.waits| == 1;
    ghost var afterOpen := socket.waits;
    var connectId, connected := Send(socket, clientId, DispatcherMessage.CONNECT, None, envTimeout, connectEvents);
    assert connectId == 1;
    DeliverAllKeepsShape(afterOpen + [ResponseWait(DispatcherMessage.CONNECT, envTimeout)], connectEvents + [TimerFired(1)]);
    assert |socket.log| == 5;
    if connected.Rejected? {
      return socket, Err(connected.reason);
    }
    var readyId := AwaitMessage(CreateMessageAwaiter(socket), IncomingName(READY), None);
    r := Ok(Handle(socket, clientId, readyId));
  }

  /** `await dispatcher.ready`. */
  method Ready(h: Handle, evs: seq<Inbound>) returns (r: Settlement)
    requires Live(h)
    modifies h.socket
    ensures Live(h)
    ensures h.socket.log == old(h.socket.log)
    ensures h.socket.waits == DeliverAll(old(h.socket.waits), evs + [TimerFired(h.ready)])
    ensures r == Run(old(h.socket.waits)[h.ready], h.ready, evs + [TimerFired(h.ready)]).state
    ensures h.socket.waits[h.ready].state == r
    ensures !r.Pending?
  {
    ghost var before := h.socket.waits;
    r := Await(h.socket, h.ready, evs);
    DeliverAllKeepsShape(before, evs + [TimerFired(h.ready)]);
    DeliverAllPointwise(before, evs + [TimerFired(h.ready)]);
  }

  /** `startTest(sessionId, testName)`: START_TEST with `{ testName, sessionId }`, awaited. */
  method StartTest(h: Handle, sessionId: string, testName: Json, envTimeout: Option<int>, evs: seq<Inbound>)
    returns (r: Settlement)
    requires Live(h)
    modifies h.socket
    ensures Live(h)
    ensures h.socket.log == old(h.socket.log) +
              [Listened(|old(h.socket.waits)|, OnResponse("START_TEST")),
               Wrote(OutboundFrame(DispatcherMessage.START_TEST, h.clientId, Some(TestPayload(testName, sessionId)))),
               Armed(|old(h.socket.waits)|)]
    ensures h.socket.waits == DeliverAll(old(h.socket.waits) + [ResponseWait(DispatcherMessage.START_TEST, envTimeout)],
                                         evs + [TimerFired(|old(h.socket.waits)|)])
    ensures r == Run(ResponseWait(DispatcherMessage.START_TEST, envTimeout), |old(h.socket.waits)|,
                     evs + [TimerFired(|old(h.socket.waits)|)]).state
  {
    ghost var before := h.socket.waits;
    var id;
    id, r := Send(h.socket, h.clientId, DispatcherMessage.START_TEST, Some(TestPayload(testName, sessionId)), envTimeout, evs);
    DeliverAllKeepsShape(before + [ResponseWait(DispatcherMessage.START_TEST, envTimeout)], evs + [TimerFired(id)]);
  }

  /** `finishTest(sessionId, testName)`: FINISH_TEST with `{ testName, sessionId }`, awaited. */
  method FinishTest(h: Handle, sessionId: string, testName: Json, envTimeout: Option<int>, evs: seq<Inbound>)
    returns (r: Settlement)
    requires Live(h)
    modifies h.socket
    ensures Live(h)
    ensures h.socket.log == old(h.socket.log) +
              [Listened(|old(h.socket.waits)|, OnResponse("FINISH_TEST")),
               Wrote(OutboundFrame(DispatcherMessage.FINISH_TEST, h.clientId, Some(TestPayload(testName, sessionId)))),
               Armed(|old(h.socket.waits)|)]
    ensures h.socket.waits == DeliverAll(old(h.socket.waits) + [ResponseWait(DispatcherMessage.FINISH_TEST, envTimeout)],
                                         evs + [TimerFired(|old(h.socket.waits)|)])
    ensures r == Run(ResponseWait(DispatcherMessage.FINISH_TEST, envTimeout), |old(h.socket.waits)|,
                     evs + [TimerFired(|old(h.socket.waits)|)]).state
  {
    ghost var before := h.socket.waits;
    var id;
    id, r := Send(h.socket, h.clientId, DispatcherMessage.FINISH_TEST, Some(TestPayload(testName, sessionId)), envTimeout, evs);
    DeliverAllKeepsShape(before + [ResponseWait(DispatcherMessage.FINISH_TEST, envTimeout)], evs + [TimerFired(id)]);
  }

  /**
   * `destroy`: listen for "close" (default timeout) before closing with code
   * 1000, then wait for the close event.
   */
  method Destroy(h: Handle, evs: seq<Inbound>) returns (r: Settlement)
    requires Live(h)
    modifies h.socket
    ensures Live(h)
    ensures h.socket.log == old(h.socket.log) +
              [Listened(|old(h.socket.waits)|, OnEvent(Close)), Armed(|old(h.socket.waits)|), Closed(CLOSE_NORMAL)]
    ensures h.socket.waits == DeliverAll(old(h.socket.waits) + [EventWait(Close, DEFAULT_TIMEOUT)],
                                         evs + [TimerFired(|old(h.socket.waits)|)])
    ensures r == Run(EventWait(Close, DEFAULT_TIMEOUT), |old(h.socket.waits)|,
                     evs + [TimerFired(|old(h.socket.waits)|)]).state
    ensures !r.Pending?
  {
    ghost var before := h.socket.waits;
    var closeId := SocketEvent(h.socket, Close, None);
    h.socket.Close(CLOSE_NORMAL);
    r := Await(h.socket, closeId, evs);
    DeliverAllKeepsShape(before + [EventWait(Close, DEFAULT_TIMEOUT)], evs + [TimerFired(closeId)]);
  }
}
