/**
 * What the two connection managers exchange with the server and with their
 * callers: decoded messages, the correlation key `service:action:id`, the
 * settlement of a caller's promise, and the observable effects of a socket.
 */
module Wire {
  import opened Wrappers
  import opened JsStrings

  /** A decoded frame.  `data` stands for the JSON payload; `error` is absent or a string. */
  datatype Message = Message(service: string, action: string, id: string, data: string, error: Option<string>)

  /** The correlation key under which a request waits for its response. */
  function KeyOf(service: string, action: string, id: string): string {
    service + ":" + action + ":" + id
  }

  function MessageKey(m: Message): string {
    KeyOf(m.service, m.action, m.id)
  }

  /** The state of a caller's promise.  `Resolved(None)` is a promise resolved with `undefined`. */
  datatype Settlement = Pending | Resolved(value: Option<string>) | Rejected(reason: string)

  /** Calling `resolve` or `reject`: only the first settlement of a promise takes effect. */
  function Settle(s: Settlement, outcome: Settlement): (r: Settlement)
    ensures !s.Pending? ==> r == s
    ensures s.Pending? ==> r == outcome
  {
    if s.Pending? then outcome else s
  }

  /** How a response settles its waiter: rejected when `error` is a non-empty string, resolved with `data` otherwise. */
  function Reply(m: Message): (r: Settlement)
    ensures r.Rejected? <==> m.error.Some? && m.error.value != ""
    ensures r.Rejected? ==> r.reason == m.error.value
    ensures r.Resolved? ==> r.value == Some(m.data)
  {
    if m.error.Some? && m.error.value != "" then Rejected(m.error.value) else Resolved(Some(m.data))
  }

  /** What a call to `request` does: it throws synchronously, or it returns the promise with the given id. */
  datatype Call = Threw(reason: string) | Returned(promise: nat)

  /** `WebSocket.readyState`. */
  datatype ReadyState = Connecting | Open | Closing | Closed

  /** A frame written to the socket of the given generation (0 is the socket made by the constructor). */
  datatype Frame = Frame(socket: nat, msg: Message)

  /** The frames of `ms`, in order, written to socket `g`. */
  function Frames(g: nat, ms: seq<Message>): (fs: seq<Frame>)
    ensures |fs| == |ms| && forall i :: 0 <= i < |ms| ==> fs[i] == Frame(g, ms[i])
  {
    seq(|ms|, i requires 0 <= i < |ms| => Frame(g, ms[i]))
  }

  /** The events a manager dispatches to its listeners. */
  datatype ManagerEvent = ReconnectStart | ReconnectEnd(success: bool)

  /** A server-initiated message handed to a registered service's `handleAction`. */
  datatype Delivery = Delivery(service: string, action: string, id: string, data: string)

  /** Settling an already settled promise again changes nothing. */
  lemma SettleFirstWins(s: Settlement, a: Settlement, b: Settlement)
    requires !a.Pending?
    ensures Settle(Settle(s, a), b) == Settle(s, a)
    ensures Settle(Settle(s, a), b) != Pending
  {
  }

  /** Splitting `a + ":" + b` at its first colon gives back `a` and `b` when `a` has no colon. */
  lemma SplitJoined(a: string, b: string)
    requires ':' !in a
    ensures BeforeFirst(a + ":" + b, ':') == a
    ensures (a + ":" + b)[|a| + 1..] == b
  {
    var s := a + ":" + b;
    assert s[|a|] == ':';
    assert forall j :: 0 <= j < |a| ==> s[j] == a[j];
    assert s[..|a|] == a;
  }

  /** With no colon in `n`, a string starts with `n:` exactly when `n` is the text before its first colon and a colon follows. */
  lemma PrefixBeforeColon(k: string, n: string)
    requires ':' !in n
    ensures StartsWith(k, n + ":") <==> BeforeFirst(k, ':') == n && |n| < |k|
  {
    if StartsWith(k, n + ":") {
      assert k == n + ":" + k[|n| + 1..];
      SplitJoined(n, k[|n| + 1..]);
    }
    if BeforeFirst(k, ':') == n && |n| < |k| {
      assert k[..|n| + 1] == k[..|n|] + [k[|n|]];
    }
  }

  /** With colon-free service and action, the key determines all three parts. */
  lemma KeyInjective(s1: string, a1: string, i1: string, s2: string, a2: string, i2: string)
    requires ':' !in s1 && ':' !in a1 && ':' !in s2 && ':' !in a2
    ensures KeyOf(s1, a1, i1) == KeyOf(s2, a2, i2) <==> s1 == s2 && a1 == a2 && i1 == i2
  {
    if KeyOf(s1, a1, i1) == KeyOf(s2, a2, i2) {
      assert KeyOf(s1, a1, i1) == s1 + ":" + (a1 + ":" + i1);
      assert KeyOf(s2, a2, i2) == s2 + ":" + (a2 + ":" + i2);
      SplitJoined(s1, a1 + ":" + i1);
      SplitJoined(s2, a2 + ":" + i2);
      SplitJoined(a1, i1);
      SplitJoined(a2, i2);
    }
  }

  /** The key of a colon-free service starts with `name:` exactly when the service is `name`. */
  lemma KeyPrefix(service: string, action: string, id: string, name: string)
    requires ':' !in service && ':' !in name
    ensures StartsWith(KeyOf(service, action, id), name + ":") <==> service == name
  {
    var k := KeyOf(service, action, id);
    assert k == service + ":" + (action + ":" + id);
    SplitJoined(service, action + ":" + id);
    PrefixBeforeColon(k, name);
  }
}
