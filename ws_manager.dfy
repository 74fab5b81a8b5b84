/**
 * The newer `WebSocketManager` (src/service/websocketBase/websocketManager.ts):
 * request/response correlation over one socket, with a FIFO queue of frames
 * written while the socket is down and a single reconnect in flight at a time.
 *
 * The socket is its generation number (`_ws` is replaced on every successful
 * URL fetch) and its `readyState`; the frames written to it form the log
 * `sent`.  Asynchronous steps are split at their suspension points: a method
 * runs the synchronous part of a call, and the settling of what it waits for
 * (`fetchNewUrl`, the socket's `open` or `error`) is a separate event.
 */
module SocketManager {
  import opened Wrappers
  import CacheMaps
  import opened Wire
  import opened Routing

  /** Which suspension point the reconnect in flight, if any, has reached. */
  datatype Phase = Idle | FetchingUrl | AwaitingOpen

  /** Starts and ends alternate, beginning with a start. */
  ghost predicate Alternating(events: seq<ManagerEvent>) {
    forall i :: 0 <= i < |events| ==> (events[i].ReconnectStart? <==> i % 2 == 0)
  }

  /**
   * The connection side of the manager: `_ws`, the frames written so far, the
   * sends suspended until `_ws` opens, `messageQueue`, `isReconnecting`, the
   * reconnect's phase, and the events dispatched on `e`.
   */
  datatype Link = Link(
    socket: nat, readyState: ReadyState, sent: seq<Frame>, waitingOpen: seq<Message>,
    queue: seq<Message>, reconnecting: bool, phase: Phase, events: seq<ManagerEvent>)
  {
    /**
     * `isReconnecting` is set exactly while a reconnect is in flight, every
     * `reconnect-start` is followed by exactly one `reconnect-end` before the
     * next start, and only a connecting socket has sends waiting for it.
     */
    ghost predicate Wf() {
      && (reconnecting <==> !phase.Idle?)
      && (phase.FetchingUrl? ==> readyState.Closing? || readyState.Closed?)
      && (phase.AwaitingOpen? ==> readyState.Connecting?)
      && (waitingOpen != [] ==> readyState.Connecting?)
      && Alternating(events)
      && (reconnecting <==> |events| % 2 == 1)
    }

    /**
     * `sendWithReconnect` up to its first suspension: an open socket takes the
     * frame, a connecting one suspends the send until it opens, and otherwise
     * the frame is queued and, unless one is already running, a reconnect
     * starts (closing the dead socket is a no-op).
     */
    function SendWithReconnect(m: Message): (l: Link)
      ensures l.socket == socket && l.readyState == readyState
    {
      match readyState
      case Open => this.(sent := sent + [Frame(socket, m)])
      case Connecting => this.(waitingOpen := waitingOpen + [m])
      case _ =>
        if reconnecting then this.(queue := queue + [m])
        else this.(queue := queue + [m], reconnecting := true, phase := FetchingUrl, events := events + [ReconnectStart])
    }

    /** `_ws.send`: `None` when it throws (the socket is still connecting); a closing or closed socket discards the frame. */
    function Send(m: Message): (r: Option<Link>)
      ensures r.None? <==> readyState.Connecting?
      ensures r.Some? ==> r.value.sent == sent + (if readyState.Open? then [Frame(socket, m)] else [])
      ensures r.Some? ==> r.value == this.(sent := r.value.sent)
    {
      match readyState
      case Connecting => None
      case Open => Some(this.(sent := sent + [Frame(socket, m)]))
      case _ => Some(this)
    }

    /** `fetchNewUrl` settles: a new connecting socket replaces `_ws`, or the reconnect ends unsuccessfully. */
    function UrlFetched(ok: bool): Link
      requires phase.FetchingUrl?
    {
      if ok then this.(socket := socket + 1, readyState := Connecting, phase := AwaitingOpen)
      else this.(reconnecting := false, phase := Idle, events := events + [ReconnectEnd(false)])
    }

    /**
     * `_ws` fires `open`.  The reconnect registered its `open` listener as
     * soon as the socket became `_ws`, before any send could suspend on it,
     * and the microtasks that listener releases run before the next listener:
     * so the reconnect reports success and its caller drains the queue in
     * FIFO order first, and only then do the suspended sends write their
     * frames, in the order they were suspended.
     */
    function Opened(): Link
      requires readyState.Connecting?
    {
      if phase.AwaitingOpen? then
        this.(readyState := Open, events := events + [ReconnectEnd(true)],
              sent := sent + Frames(socket, queue) + Frames(socket, waitingOpen),
              waitingOpen := [], queue := [], reconnecting := false, phase := Idle)
      else
        this.(readyState := Open, sent := sent + Frames(socket, waitingOpen), waitingOpen := [])
    }

    /** `_ws` fails to connect: the suspended sends are dropped and a reconnect waiting for it fails, leaving the queue as it is. */
    function Errored(): Link
      requires readyState.Connecting?
    {
      if phase.AwaitingOpen? then
        this.(readyState := ReadyState.Closed, waitingOpen := [], reconnecting := false, phase := Idle, events := events + [ReconnectEnd(false)])
      else
        this.(readyState := ReadyState.Closed, waitingOpen := [])
    }

    /** An established `_ws` starts its closing handshake. */
    function BeginClosing(): Link
      requires readyState.Open?
    {
      this.(readyState := ReadyState.Closing)
    }

    /** An established or closing `_ws` has closed. */
    function Close(): Link
      requires !readyState.Connecting?
    {
      this.(readyState := ReadyState.Closed)
    }
  }

  function Initial(): (l: Link)
    ensures l.Wf() && l.readyState.Connecting? && !l.reconnecting
  {
    Link(0, Connecting, [], [], [], false, Idle, [])
  }

  // ---------------------------------------------------------------------
  // Traces of connection events.

  datatype LinkOp = SendOp(m: Message) | RawSendOp(m: Message) | UrlOp(ok: bool) | OpenOp | ErrorOp | ClosingOp | CloseOp

  /** The events that can happen in this state. */
  predicate Enabled(l: Link, op: LinkOp) {
    match op
    case SendOp(_) => true
    case RawSendOp(_) => true
    case UrlOp(_) => l.phase.FetchingUrl?
    case OpenOp => l.readyState.Connecting?
    case ErrorOp => l.readyState.Connecting?
    case ClosingOp => l.readyState.Open?
    case CloseOp => !l.readyState.Connecting?
  }

  function Step(l: Link, op: LinkOp): Link
    requires Enabled(l, op)
  {
    match op
    case SendOp(m) => l.SendWithReconnect(m)
    case RawSendOp(m) => (match l.Send(m) case Some(l') => l' case None => l)
    case UrlOp(ok) => l.UrlFetched(ok)
    case OpenOp => l.Opened()
    case ErrorOp => l.Errored()
    case ClosingOp => l.BeginClosing()
    case CloseOp => l.Close()
  }

  lemma AlternatingAppend(events: seq<ManagerEvent>, e: ManagerEvent)
    requires Alternating(events)
    requires e.ReconnectStart? <==> |events| % 2 == 0
    ensures Alternating(events + [e])
  {
  }

  /** Every connection event keeps the link well formed. */
  lemma StepKeepsWf(l: Link, op: LinkOp)
    requires l.Wf() && Enabled(l, op)
    ensures Step(l, op).Wf()
  {
    match op
    case SendOp(m) =>
      if !l.readyState.Open? && !l.readyState.Connecting? && !l.reconnecting {
        AlternatingAppend(l.events, ReconnectStart);
      }
    case UrlOp(ok) =>
      if !ok {
        AlternatingAppend(l.events, ReconnectEnd(false));
      }
    case OpenOp =>
      if l.phase.AwaitingOpen? {
        AlternatingAppend(l.events, ReconnectEnd(true));
      }
    case ErrorOp =>
      if l.phase.AwaitingOpen? {
        AlternatingAppend(l.events, ReconnectEnd(false));
      }
    case _ =>
  }

  /** Replays the events, stopping at the first one that cannot happen. */
  function Run(l: Link, ops: seq<LinkOp>): Link
    decreases |ops|
  {
    if ops == [] || !Enabled(l, ops[0]) then l else Run(Step(l, ops[0]), ops[1..])
  }

  /**
   * At most one reconnect runs at a time, over every sequence of events:
   * starts and ends alternate, and a reconnect is in flight exactly when the
   * last event was a start.
   */
  lemma {:induction false} RunKeepsWf(l: Link, ops: seq<LinkOp>)
    requires l.Wf()
    ensures Run(l, ops).Wf()
    ensures Alternating(Run(l, ops).events)
    ensures Run(l, ops).reconnecting <==> |Run(l, ops).events| % 2 == 1
    decreases |ops|
  {
    if ops != [] && Enabled(l, ops[0]) {
      StepKeepsWf(l, ops[0]);
      RunKeepsWf(Step(l, ops[0]), ops[1..]);
    }
  }

  /** While a reconnect is in flight, a send on a dead socket only queues its frame. */
  lemma SingleFlight(l: Link, m: Message)
    requires l.Wf() && l.reconnecting && !l.readyState.Open? && !l.readyState.Connecting?
    ensures l.SendWithReconnect(m) == l.(queue := l.queue + [m])
  {
  }

  /**
   * A reconnect whose new socket opens writes onto that socket every queued
   * frame in the order it was queued, before the sends that were waiting for
   * the socket, and leaves the queue empty.
   */
  lemma QueueDrainedInOrder(l: Link)
    requires l.Wf() && l.phase.AwaitingOpen?
    ensures var l' := l.Opened();
      && l'.queue == [] && l'.waitingOpen == [] && !l'.reconnecting && l'.readyState.Open? && l'.socket == l.socket
      && l'.sent[..|l.sent| + |l.queue|] == l.sent + Frames(l.socket, l.queue)
      && l'.sent[|l.sent| + |l.queue|..] == Frames(l.socket, l.waitingOpen)
      && l'.events == l.events + [ReconnectEnd(true)]
  {
    var l' := l.Opened();
    assert l'.sent == (l.sent + Frames(l.socket, l.queue)) + Frames(l.socket, l.waitingOpen);
  }

  /** A failed reconnect ends the flight and keeps every queued frame. */
  lemma FailedReconnectKeepsQueue(l: Link, ok: bool)
    requires l.Wf() && ((l.phase.FetchingUrl? && !ok) || l.phase.AwaitingOpen?)
    ensures var l' := if l.phase.FetchingUrl? then l.UrlFetched(ok) else l.Errored();
      && l'.queue == l.queue && !l'.reconnecting && l'.sent == l.sent
      && l'.events == l.events + [ReconnectEnd(false)]
  {
  }

  // ---------------------------------------------------------------------
  // The manager.

  class WebSocketManager {
    const router: Router
    var socket: nat
    var readyState: ReadyState
    var sent: seq<Frame>
    var waitingOpen: seq<Message>
    var messageQueue: seq<Message>
    var isReconnecting: bool
    var phase: Phase
    var events: seq<ManagerEvent>
    /** The services whose `register(this)` has been called, in order. */
    var registerCalls: seq<string>

    function LinkState(): Link
      reads this
    {
      Link(socket, readyState, sent, waitingOpen, messageQueue, isReconnecting, phase, events)
    }

    ghost predicate Valid()
      reads this, router, router.table
    {
      router.Valid() && LinkState().Wf()
    }

    /** Opens the first socket, with no services and nothing pending. */
    constructor ()
      ensures Valid() && LinkState() == Initial() && fresh(router) && fresh(router.table)
      ensures router.waiters == [] && router.services == {} && router.table.State() == CacheMaps.Empty(CacheMaps.DefaultTtl)
      ensures registerCalls == []
    {
      router := new Router();
      socket, readyState, sent, waitingOpen := 0, Connecting, [], [];
      messageQueue, isReconnecting, phase, events := [], false, Idle, [];
      registerCalls := [];
    }

    /** `registerService`: a duplicate name throws and changes nothing; otherwise `register` is called and the service added. */
    method RegisterService(name: string) returns (threw: bool)
      requires Valid()
      modifies this, router
      ensures Valid() && LinkState() == old(LinkState())
      ensures router.waiters == old(router.waiters) && router.delivered == old(router.delivered)
      ensures threw <==> name in old(router.services)
      ensures threw ==> router.services == old(router.services) && registerCalls == old(registerCalls)
      ensures !threw ==> router.services == old(router.services) + {name} && registerCalls == old(registerCalls) + [name]
    {
      if name in router.services {
        return true;
      }
      registerCalls := registerCalls + [name];
      router.services := router.services + {name};
      return false;
    }

    /** `unregisterService`. */
    method UnregisterService(name: string) returns (removed: bool)
      requires Valid()
      modifies router, router.table
      ensures Valid() && router.delivered == old(router.delivered)
      ensures var gone := Matching(old(router.table.State()), name + ":");
        && router.table.State() == old(router.table.State()).Without(gone)
        && SettledAll(old(router.waiters), router.waiters, WaitersOf(old(router.table.entries), gone), Rejected("Service unregistered"))
      ensures removed == (name in old(router.services)) && router.services == old(router.services) - {name}
    {
      removed := router.UnregisterService(name);
    }

    /** The `close` listener of the socket of generation `gen`; closing `_ws` itself also changes its state. */
    method OnClose(gen: nat)
      requires Valid() && gen <= socket
      requires gen == socket ==> !readyState.Connecting?
      modifies this, router
      ensures Valid() && router.services == old(router.services) && router.delivered == old(router.delivered)
      ensures SettledAll(old(router.waiters), router.waiters, router.table.entries.Values, Rejected("WebSocket closed"))
      ensures LinkState() == if gen == old(socket) then old(LinkState()).Close() else old(LinkState())
    {
      router.OnClose();
      if gen == socket {
        readyState := ReadyState.Closed;
      }
    }

    /** `_ws` starts its closing handshake. */
    method OnClosing()
      requires Valid() && readyState.Open?
      modifies this
      ensures Valid() && LinkState() == old(LinkState()).BeginClosing()
    {
      readyState := ReadyState.Closing;
    }

    /** `out0` followed by the frames of the sends suspended on `open`, in the order they were suspended. */
    method ResumeWaiting(out0: seq<Frame>) returns (out: seq<Frame>)
      ensures out == out0 + Frames(socket, waitingOpen)
    {
      out := out0;
      var i := 0;
      while i < |waitingOpen|
        invariant 0 <= i <= |waitingOpen|
        invariant out == out0 + Frames(socket, waitingOpen[..i])
      {
        out := out + [Frame(socket, waitingOpen[i])];
        i := i + 1;
      }
      assert waitingOpen[..i] == waitingOpen;
    }

    /** `out` followed by the queued frames, oldest first: the drain of `messageQueue` after a reconnect. */
    method DrainQueue(out0: seq<Frame>) returns (out: seq<Frame>)
      ensures out == out0 + Frames(socket, messageQueue)
    {
      out := out0;
      var queue := messageQueue;
      while queue != []
        invariant |queue| <= |messageQueue|
        invariant queue == messageQueue[|messageQueue| - |queue|..]
        invariant out == out0 + Frames(socket, messageQueue[..|messageQueue| - |queue|])
        decreases |queue|
      {
        var msg := queue[0];
        queue := queue[1..];
        out := out + [Frame(socket, msg)];
      }
      assert messageQueue[..|messageQueue|] == messageQueue;
    }

    /** `_ws` fires `open`. */
    method OnOpen()
      requires Valid() && readyState.Connecting?
      modifies this
      ensures Valid() && LinkState() == old(LinkState()).Opened()
    {
      StepKeepsWf(LinkState(), OpenOp);
      var out := sent;
      if phase.AwaitingOpen? {
        // the reconnect's listener comes first: it reports success and its caller drains the queue, oldest frame first
        events := events + [ReconnectEnd(true)];
        out := DrainQueue(out);
        messageQueue := [];
        isReconnecting := false;
        phase := Idle;
      }
      // then the suspended sends resume in the order they were suspended
      out := ResumeWaiting(out);
      readyState := Open;
      sent := out;
      waitingOpen := [];
    }

    /** `_ws` fails to connect. */
    method OnError()
      requires Valid() && readyState.Connecting?
      modifies this
      ensures Valid() && LinkState() == old(LinkState()).Errored()
    {
      StepKeepsWf(LinkState(), ErrorOp);
      readyState := ReadyState.Closed;
      waitingOpen := [];
      if phase.AwaitingOpen? {
        isReconnecting := false;
        phase := Idle;
        events := events + [ReconnectEnd(false)];
      }
    }

    /** The reconnect's `fetchNewUrl` settles. */
    method OnUrlFetched(ok: bool)
      requires Valid() && phase.FetchingUrl?
      modifies this
      ensures Valid() && LinkState() == old(LinkState()).UrlFetched(ok)
    {
      StepKeepsWf(LinkState(), UrlOp(ok));
      if ok {
        socket := socket + 1;
        readyState := Connecting;
        phase := AwaitingOpen;
      } else {
        isReconnecting := false;
        phase := Idle;
        events := events + [ReconnectEnd(false)];
      }
    }

    /** `sendWithReconnect`, up to its first suspension. */
    method SendWithReconnect(m: Message)
      requires Valid()
      modifies this
      ensures Valid() && LinkState() == old(LinkState()).SendWithReconnect(m)
    {
      StepKeepsWf(LinkState(), SendOp(m));
      if readyState.Open? {
        sent := sent + [Frame(socket, m)];
        return;
      }
      if readyState.Connecting? {
        waitingOpen := waitingOpen + [m];
        return;
      }
      messageQueue := messageQueue + [m];
      if !isReconnecting {
        isReconnecting := true;
        events := events + [ReconnectStart];
        phase := FetchingUrl;
      }
    }

    /** `_ws.send`; `threw` when the socket is still connecting. */
    method Send(m: Message) returns (threw: bool)
      requires Valid()
      modifies this
      ensures Valid()
      ensures threw <==> old(LinkState()).Send(m).None?
      ensures LinkState() == if threw then old(LinkState()) else old(LinkState()).Send(m).value
    {
      StepKeepsWf(LinkState(), RawSendOp(m));
      if readyState.Connecting? {
        return true;
      }
      if readyState.Open? {
        sent := sent + [Frame(socket, m)];
      }
      return false;
    }

    /**
     * `request`.  An unregistered service throws before anything happens.
     * Without a response, the frame is sent and the promise is already
     * resolved.  With one, the promise is stored under the message's key
     * before the frame is sent; a raw send that throws then rejects it.
     */
    method Request(m: Message, response: bool, reconnect: bool) returns (r: Call)
      requires Valid()
      modifies this, router, router.table
      ensures Valid() && router.services == old(router.services) && router.delivered == old(router.delivered)
      ensures m.service !in old(router.services) ==>
        && r == Threw("Service " + m.service + " not registered")
        && LinkState() == old(LinkState()) && router.waiters == old(router.waiters)
        && router.table.State() == old(router.table.State())
      ensures m.service in old(router.services) && !response ==>
        && router.table.State() == old(router.table.State())
        && if !reconnect && old(LinkState()).Send(m).None? then
             r == Threw("InvalidStateError") && LinkState() == old(LinkState()) && router.waiters == old(router.waiters)
           else
             && r == Returned(|old(router.waiters)|)
             && router.waiters == old(router.waiters) + [Resolved(None)]
             && LinkState() == if reconnect then old(LinkState()).SendWithReconnect(m) else old(LinkState()).Send(m).value
      ensures m.service in old(router.services) && response ==>
        && r == Returned(|old(router.waiters)|)
        && router.table.State() == old(router.table.State()).Set(MessageKey(m), |old(router.waiters)|)
        && if !reconnect && old(LinkState()).Send(m).None? then
             LinkState() == old(LinkState()) && router.waiters == old(router.waiters) + [Rejected("InvalidStateError")]
           else
             && router.waiters == old(router.waiters) + [Pending]
             && LinkState() == if reconnect then old(LinkState()).SendWithReconnect(m) else old(LinkState()).Send(m).value
    {
      if m.service !in router.services {
        return Threw("Service " + m.service + " not registered");
      }
      if !response {
        if reconnect {
          SendWithReconnect(m);
        } else {
          var threw := Send(m);
          if threw {
            return Threw("InvalidStateError");
          }
        }
        var id := router.NewPromise(Resolved(None));
        return Returned(id);
      }
      var id := router.NewPromise(Pending);
      router.Expect(MessageKey(m), id);
      if reconnect {
        SendWithReconnect(m);
      } else {
        var threw := Send(m);
        if threw {
          router.SettlePromise(id, Rejected("InvalidStateError"));
        }
      }
      return Returned(id);
    }
  }
}
