/**
 * The awaiting helpers: `socketEvent` and `socketMessage` each register a
 * listener and set a timer whose promise settles once; `createMessageAwaiter`
 * fixes the socket of `socketMessage`.
 */
module SocketUtils {
  import opened Wrappers
  import opened Json
  import opened Text
  import opened Sockets

  /** A default parameter: the given timeout, or 10000 when it is undefined. */
  function TimeoutOrDefault(timeout: Option<int>): (t: int)
    ensures timeout.None? ==> t == DEFAULT_TIMEOUT
    ensures timeout.Some? ==> t == timeout.value
  {
    timeout.GetOr(DEFAULT_TIMEOUT)
  }

  /** `socketEvent(socket, event, timeout)`: listen for the event, then set the timer. */
  method SocketEvent(socket: Socket, event: EventName, timeout: Option<int>) returns (id: nat)
    modifies socket
    ensures id == |old(socket.waits)|
    ensures socket.waits == old(socket.waits) + [Wait(OnEvent(event), TimeoutOrDefault(timeout), true, Pending)]
    ensures socket.log == old(socket.log) + [Listened(id, OnEvent(event)), Armed(id)]
  {
    id := socket.Listen(OnEvent(event), TimeoutOrDefault(timeout));
    socket.Arm(id);
  }

  /** `socketMessage(socket, logger, type, timeout)`: listen for frames, then set the timer. */
  method SocketMessage(socket: Socket, messageType: string, timeout: Option<int>) returns (id: nat)
    modifies socket
    ensures id == |old(socket.waits)|
    ensures socket.waits == old(socket.waits) + [Wait(OnMessage(messageType), TimeoutOrDefault(timeout), true, Pending)]
    ensures socket.log == old(socket.log) + [Listened(id, OnMessage(messageType)), Armed(id)]
  {
    id := socket.Listen(OnMessage(messageType), TimeoutOrDefault(timeout));
    socket.Arm(id);
  }

  /** An awaiter bound to one socket, as `createMessageAwaiter(socket, logger)` returns. */
  datatype MessageAwaiter = MessageAwaiter(socket: Socket)

  function CreateMessageAwaiter(socket: Socket): MessageAwaiter {
    MessageAwaiter(socket)
  }

  /** Calling the awaiter is calling socketMessage on its socket with the same arguments. */
  method AwaitMessage(awaiter: MessageAwaiter, messageType: string, timeout: Option<int>) returns (id: nat)
    modifies awaiter.socket
    ensures id == |old(awaiter.socket.waits)|
    ensures awaiter.socket.waits == old(awaiter.socket.waits) + [Wait(OnMessage(messageType), TimeoutOrDefault(timeout), true, Pending)]
    ensures awaiter.socket.log == old(awaiter.socket.log) + [Listened(id, OnMessage(messageType)), Armed(id)]
  {
    id := SocketMessage(awaiter.socket, messageType, timeout);
  }

  /** A fresh wait as socketMessage registers it. */
  function MessageWait(messageType: string, timeout: int): Wait {
    Wait(OnMessage(messageType), timeout, true, Pending)
  }

  /** A fresh wait as socketEvent registers it. */
  function EventWait(event: EventName, timeout: int): Wait {
    Wait(OnEvent(event), timeout, true, Pending)
  }

  /** `ev` would settle the message wait `id`: a matching frame or its own timer. */
  predicate DecidesMessage(messageType: string, id: nat, ev: Inbound) {
    (ev.Message? && MessageMatches(ev.frame, messageType)) || ev == TimerFired(id)
  }

  /**
   * socketMessage resolves with the payload of the first frame whose decoded
   * type equals the awaited type, provided its timer has not fired first;
   * unparseable, null and other-typed frames before it change nothing.
   */
  lemma FirstMatchingFrameResolves(messageType: string, timeout: int, id: nat, evs: seq<Inbound>, k: nat)
    requires k < |evs| && evs[k].Message? && MessageMatches(evs[k].frame, messageType)
    requires forall j :: 0 <= j < k ==> !DecidesMessage(messageType, id, evs[j])
    ensures Run(MessageWait(messageType, timeout), id, evs).state ==
              Resolved(Payload(Field(evs[k].frame.value, "payload")))
  {
    var w := MessageWait(messageType, timeout);
    forall j | 0 <= j < k ensures Step(w, id, evs[j]) == w {
      assert !DecidesMessage(messageType, id, evs[j]);
    }
    FirstDecisiveWins(w, id, evs, k);
  }

  /** With no matching frame, socketMessage rejects with `"<type>" message timed out: <timeout>ms`. */
  lemma NoMatchTimesOut(messageType: string, timeout: int, id: nat, evs: seq<Inbound>)
    requires forall j :: 0 <= j < |evs| ==> !DecidesMessage(messageType, id, evs[j])
    ensures Run(MessageWait(messageType, timeout), id, evs + [TimerFired(id)]).state ==
              Rejected("\"" + messageType + "\" message timed out: " + IntText(timeout) + "ms")
  {
    var w := MessageWait(messageType, timeout);
    var all := evs + [TimerFired(id)];
    forall j | 0 <= j < |evs| ensures Step(w, id, all[j]) == w {
      assert all[j] == evs[j];
      assert !DecidesMessage(messageType, id, evs[j]);
    }
    FirstDecisiveWins(w, id, all, |evs|);
  }

  /** socketEvent resolves with the arguments of the first occurrence of its event. */
  lemma FirstEventResolves(event: EventName, timeout: int, id: nat, evs: seq<Inbound>, k: nat)
    requires k < |evs| && evs[k].Event? && evs[k].name == event
    requires forall j :: 0 <= j < k ==> !(evs[j].Event? && evs[j].name == event) && evs[j] != TimerFired(id)
    ensures Run(EventWait(event, timeout), id, evs).state == Resolved(Args(evs[k].args))
  {
    var w := EventWait(event, timeout);
    forall j | 0 <= j < k ensures Step(w, id, evs[j]) == w {
    }
    FirstDecisiveWins(w, id, evs, k);
  }

  /** Without its event, socketEvent rejects with `"<event>" event timed out: <timeout>ms`. */
  lemma NoEventTimesOut(event: EventName, timeout: int, id: nat, evs: seq<Inbound>)
    requires forall j :: 0 <= j < |evs| ==> !(evs[j].Event? && evs[j].name == event) && evs[j] != TimerFired(id)
    ensures Run(EventWait(event, timeout), id, evs + [TimerFired(id)]).state ==
              Rejected("\"" + EventText(event) + "\" event timed out: " + IntText(timeout) + "ms")
  {
    var w := EventWait(event, timeout);
    var all := evs + [TimerFired(id)];
    forall j | 0 <= j < |evs| ensures Step(w, id, all[j]) == w {
      assert all[j] == evs[j];
    }
    FirstDecisiveWins(w, id, all, |evs|);
  }
}
