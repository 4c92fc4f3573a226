/**
 * The WebSocket as the core sees it. Each awaiting helper registers a
 * listener on the socket and sets a timer beside it; together they settle
 * one promise once. A `Wait` is that listener/timer pair with the state of
 * its promise. The socket keeps every wait ever registered (listeners are
 * never removed) and a log of what the client did to it, in order.
 *
 * Inbound traffic is a sequence of abstract events: a text frame already
 * run through JSON.parse (None when parsing threw), a named socket event, or
 * the firing of one wait's timer.
 */
module Sockets {
  import opened Wrappers
  import opened Json
  import opened Text

  /** The timeout the awaiting helpers use when none is given. */
  const DEFAULT_TIMEOUT := 10000

  /** The socket events the core waits for by name. */
  datatype EventName = Open | Close

  function EventText(e: EventName): string {
    match e
    case Open => "open"
    case Close => "close"
  }

  /** The listener callbacks the core registers. */
  datatype Listener =
    | OnEvent(event: EventName)        // socketEvent: resolves with the event's arguments
    | OnMessage(messageType: string)   // socketMessage: resolves with the payload of a matching frame
    | OnResponse(messageType: string)  // the sender's response listener, same contract

  /** What a promise resolved with. */
  datatype Reply = Args(args: seq<Json>) | Payload(payload: Option<Json>)

  /** The state of a promise settled by a listener or its timer. */
  datatype Settlement = Pending | Resolved(reply: Reply) | Rejected(reason: string)

  /** A listener, the timeout of its timer, whether the timer is set, and the promise's state. */
  datatype Wait = Wait(listener: Listener, timeout: int, armed: bool, state: Settlement)

  datatype Inbound =
    | Message(frame: Option<Json>)
    | Event(name: EventName, args: seq<Json>)
    | TimerFired(wait: nat)

  /** What the client does to the socket. */
  datatype Op =
    | Listened(wait: nat, listener: Listener)
    | Armed(wait: nat)
    | Wrote(frame: Json)
    | Closed(code: int)

  /** socketMessage's test on a parsed frame: `data && data.type === type`. */
  predicate MessageMatches(frame: Option<Json>, messageType: string) {
    frame.Some? && Truthy(frame.value) && Field(frame.value, "type") == Some(JStr(messageType))
  }

  /**
   * The sender's test: destructuring `{ type, payload }` throws on null (the
   * catch swallows it); otherwise the frame's type must equal the sent type.
   */
  predicate ResponseMatches(frame: Option<Json>, messageType: string) {
    frame.Some? && frame.value != JNull && Field(frame.value, "type") == Some(JStr(messageType))
  }

  /** The two listeners accept the same frames: falsy values never carry a `type`. */
  lemma MatchRulesAgree(frame: Option<Json>, messageType: string)
    ensures MessageMatches(frame, messageType) <==> ResponseMatches(frame, messageType)
  {
  }

  /** The rejection message of a wait's timer. */
  function Expiry(w: Wait): string {
    match w.listener
    case OnEvent(e) => "\"" + EventText(e) + "\" event timed out: " + IntText(w.timeout) + "ms"
    case OnMessage(t) => "\"" + t + "\" message timed out: " + IntText(w.timeout) + "ms"
    case OnResponse(t) => "\"" + t + "\" response timed out: " + IntText(w.timeout) + "ms"
  }

  /** What a listener callback resolves with on an inbound event, if it resolves. */
  function Reaction(l: Listener, ev: Inbound): Option<Reply> {
    match ev
    case Message(frame) =>
      (match l
       case OnMessage(t) => if MessageMatches(frame, t) then Some(Payload(Field(frame.value, "payload"))) else None
       case OnResponse(t) => if ResponseMatches(frame, t) then Some(Payload(Field(frame.value, "payload"))) else None
       case OnEvent(_) => None)
    case Event(name, args) => if l == OnEvent(name) then Some(Args(args)) else None
    case TimerFired(_) => None
  }

  /**
   * One inbound event seen by wait `id`. A settled promise ignores
   * everything; a pending one resolves on its listener's match or rejects
   * when its own (set) timer fires.
   */
  function Step(w: Wait, id: nat, ev: Inbound): (w': Wait)
    ensures w'.listener == w.listener && w'.timeout == w.timeout && w'.armed == w.armed
    ensures !w.state.Pending? ==> w' == w
    ensures w'.state.Rejected? && w.state.Pending? ==> ev == TimerFired(id) && w'.state.reason == Expiry(w)
  {
    if !w.state.Pending? then w
    else if ev.TimerFired? then
      (if ev.wait == id && w.armed then w.(state := Rejected(Expiry(w))) else w)
    else
      match Reaction(w.listener, ev)
      case Some(reply) => w.(state := Resolved(reply))
      case None => w
  }

  /** A sequence of inbound events seen by wait `id`. */
  function Run(w: Wait, id: nat, evs: seq<Inbound>): Wait
    decreases |evs|
  {
    if evs == [] then w else Run(Step(w, id, evs[0]), id, evs[1..])
  }

  /** Every registered listener sees an inbound event, in registration order. */
  function Deliver(ws: seq<Wait>, ev: Inbound): (ws': seq<Wait>)
    ensures |ws'| == |ws|
    ensures forall i :: 0 <= i < |ws| ==> ws'[i] == Step(ws[i], i, ev)
  {
    seq(|ws|, i requires 0 <= i < |ws| => Step(ws[i], i, ev))
  }

  function DeliverAll(ws: seq<Wait>, evs: seq<Inbound>): seq<Wait>
    decreases |evs|
  {
    if evs == [] then ws else DeliverAll(Deliver(ws, evs[0]), evs[1..])
  }

  /** Delivering to the whole socket is delivering to each wait on its own. */
  lemma {:induction false} DeliverAllPointwise(ws: seq<Wait>, evs: seq<Inbound>)
    ensures |DeliverAll(ws, evs)| == |ws|
    ensures forall i :: 0 <= i < |ws| ==> DeliverAll(ws, evs)[i] == Run(ws[i], i, evs)
    decreases |evs|
  {
    if evs != [] {
      DeliverAllPointwise(Deliver(ws, evs[0]), evs[1..]);
    }
  }

  lemma {:induction false} RunAppend(w: Wait, id: nat, evs: seq<Inbound>, ev: Inbound)
    ensures Run(w, id, evs + [ev]) == Step(Run(w, id, evs), id, ev)
    decreases |evs|
  {
    if evs != [] {
      assert (evs + [ev])[1..] == evs[1..] + [ev];
      RunAppend(Step(w, id, evs[0]), id, evs[1..], ev);
    }
  }

  lemma {:induction false} RunKeepsShape(w: Wait, id: nat, evs: seq<Inbound>)
    ensures Run(w, id, evs).listener == w.listener
    ensures Run(w, id, evs).timeout == w.timeout
    ensures Run(w, id, evs).armed == w.armed
    decreases |evs|
  {
    if evs != [] {
      RunKeepsShape(Step(w, id, evs[0]), id, evs[1..]);
    }
  }

  /** Inbound traffic changes only the states of the promises, never which listeners exist. */
  lemma DeliverAllKeepsShape(ws: seq<Wait>, evs: seq<Inbound>)
    ensures |DeliverAll(ws, evs)| == |ws|
    ensures forall i :: 0 <= i < |ws| ==>
              DeliverAll(ws, evs)[i].listener == ws[i].listener &&
              DeliverAll(ws, evs)[i].timeout == ws[i].timeout &&
              DeliverAll(ws, evs)[i].armed == ws[i].armed
  {
    DeliverAllPointwise(ws, evs);
    forall i | 0 <= i < |ws|
      ensures DeliverAll(ws, evs)[i].listener == ws[i].listener
      ensures DeliverAll(ws, evs)[i].timeout == ws[i].timeout
      ensures DeliverAll(ws, evs)[i].armed == ws[i].armed
    {
      RunKeepsShape(ws[i], i, evs);
    }
  }

  /** Single settlement: once settled, no later event changes a promise. */
  lemma {:induction false} SettledIsFinal(w: Wait, id: nat, evs: seq<Inbound>)
    requires !w.state.Pending?
    ensures Run(w, id, evs) == w
    decreases |evs|
  {
    if evs != [] {
      SettledIsFinal(Step(w, id, evs[0]), id, evs[1..]);
    }
  }

  /** Events that leave a pending wait unchanged can be dropped from the front. */
  lemma {:induction false} IgnoredPrefix(w: Wait, id: nat, evs: seq<Inbound>, k: nat)
    requires k <= |evs|
    requires forall j :: 0 <= j < k ==> Step(w, id, evs[j]) == w
    ensures Run(w, id, evs) == Run(w, id, evs[k..])
    decreases k
  {
    if k > 0 {
      assert Step(w, id, evs[0]) == w;
      IgnoredPrefix(w, id, evs[1..], k - 1);
      assert evs[1..][k - 1..] == evs[k..];
    }
  }

  /** The first event that settles a pending wait decides its outcome. */
  lemma FirstDecisiveWins(w: Wait, id: nat, evs: seq<Inbound>, k: nat)
    requires k < |evs|
    requires forall j :: 0 <= j < k ==> Step(w, id, evs[j]) == w
    requires !Step(w, id, evs[k]).state.Pending?
    ensures Run(w, id, evs) == Step(w, id, evs[k])
  {
    IgnoredPrefix(w, id, evs, k);
    assert evs[k..][1..] == evs[k + 1..];
    SettledIsFinal(Step(w, id, evs[k]), id, evs[k + 1..]);
  }

  /** A wait whose timer is set is settled once its timer has fired, whatever came before. */
  lemma TimerSettles(w: Wait, id: nat, evs: seq<Inbound>)
    requires w.armed
    ensures !Run(w, id, evs + [TimerFired(id)]).state.Pending?
  {
    RunAppend(w, id, evs, TimerFired(id));
    RunKeepsShape(w, id, evs);
  }

  /** Frames never reject a wait: only its own timer does. */
  lemma FramesNeverReject(w: Wait, id: nat, frame: Option<Json>)
    ensures Step(w, id, Message(frame)).state.Rejected? ==> w.state.Rejected?
  {
  }

  /**
   * Correlation is by type alone: one frame resolves every pending response
   * wait of its type at once, with the same payload.
   */
  lemma OneFrameResolvesAllOfItsType(ws: seq<Wait>, frame: Option<Json>, messageType: string)
    requires ResponseMatches(frame, messageType)
    ensures forall i :: 0 <= i < |ws| && ws[i].listener == OnResponse(messageType) && ws[i].state.Pending? ==>
              Deliver(ws, Message(frame))[i].state == Resolved(Payload(Field(frame.value, "payload")))
  {
  }

  /** The socket: every wait registered on it and the log of the client's operations. */
  class Socket {
    const url: string
    var waits: seq<Wait>
    var log: seq<Op>

    /** `new WebSocket(url)`. */
    constructor (url: string)
      ensures this.url == url && waits == [] && log == []
    {
      this.url := url;
      waits := [];
      log := [];
    }

    /** `socket.on(...)`: registers a listener; its promise starts pending. */
    method Listen(l: Listener, timeout: int) returns (id: nat)
      modifies this
      ensures id == |old(waits)|
      ensures waits == old(waits) + [Wait(l, timeout, false, Pending)]
      ensures log == old(log) + [Listened(id, l)]
    {
      id := |waits|;
      waits := waits + [Wait(l, timeout, false, Pending)];
      log := log + [Listened(id, l)];
    }

    /** `setTimeout(...)` beside listener `id`. */
    method Arm(id: nat)
      requires id < |waits|
      modifies this
      ensures waits == old(waits)[id := old(waits)[id].(armed := true)]
      ensures log == old(log) + [Armed(id)]
    {
      waits := waits[id := waits[id].(armed := true)];
      log := log + [Armed(id)];
    }

    /** `socket.send(JSON.stringify(frame))`. */
    method Send(frame: Json)
      modifies this
      ensures waits == old(waits)
      ensures log == old(log) + [Wrote(frame)]
    {
      log := log + [Wrote(frame)];
    }

    /** `socket.close(code)`. */
    method Close(code: int)
      modifies this
      ensures waits == old(waits)
      ensures log == old(log) + [Closed(code)]
    {
      log := log + [Closed(code)];
    }

    /** Inbound traffic reaching every registered listener. */
    method Receive(evs: seq<Inbound>)
      modifies this
      ensures waits == DeliverAll(old(waits), evs)
      ensures log == old(log)
    {
      waits := DeliverAll(waits, evs);
    }
  }

  /**
   * `await` on wait `id`: the events that arrive meanwhile reach every
   * listener; if none of them settles the wait, its timer fires.
   */
  method Await(socket: Socket, id: nat, evs: seq<Inbound>) returns (s: Settlement)
    requires id < |socket.waits| && socket.waits[id].armed
    modifies socket
    ensures socket.waits == DeliverAll(old(socket.waits), evs + [TimerFired(id)])
    ensures s == Run(old(socket.waits)[id], id, evs + [TimerFired(id)]).state
    ensures !s.Pending?
    ensures socket.log == old(socket.log)
  {
    ghost var before := socket.waits;
    socket.Receive(evs + [TimerFired(id)]);
    DeliverAllPointwise(before, evs + [TimerFired(id)]);
    TimerSettles(before[id], id, evs);
    s := socket.waits[id].state;
  }
}
