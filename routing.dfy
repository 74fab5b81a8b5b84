/**
 * The part of `WebSocketManager` that both generations share line for line:
 * the table of pending requests (a `CacheMap` from correlation key to the
 * caller's promise), the service registry, the socket's `message` and `close`
 * listeners, and `unregisterService`.
 *
 * A promise is identified by its index in `waiters`, which records how each
 * promise handed out so far has settled.
 */
module Routing {
  import opened Wrappers
  import opened JsStrings
  import opened CacheMaps
  import opened Wire

  /** The keys of `c` that start with `prefix`. */
  function Matching(c: Cache<string, nat>, prefix: string): (ks: set<string>)
    ensures ks <= c.entries.Keys
    ensures forall k :: k in c.entries ==> (k in ks <==> StartsWith(k, prefix))
  {
    set k | k in c.entries && StartsWith(k, prefix)
  }

  /** The promises stored under the keys `ks`. */
  function WaitersOf(m: map<string, nat>, ks: set<string>): set<nat> {
    set k | k in ks && k in m :: m[k]
  }

  /** `after` is `before` with every promise in `ids` settled by `outcome`, unless it was settled already. */
  ghost predicate SettledAll(before: seq<Settlement>, after: seq<Settlement>, ids: set<nat>, outcome: Settlement) {
    && |after| == |before|
    && forall i :: 0 <= i < |before| ==> after[i] == if i in ids then Settle(before[i], outcome) else before[i]
  }

  /** Settling one more promise extends a `SettledAll` step. */
  lemma SettledAllStep(before: seq<Settlement>, after: seq<Settlement>, ids: set<nat>, id: nat, outcome: Settlement)
    requires SettledAll(before, after, ids, outcome) && id < |after|
    ensures SettledAll(before, after[id := Settle(after[id], outcome)], ids + {id}, outcome)
  {
  }

  /** Removing the keys `gone` and then `key` removes `gone + {key}`. */
  lemma WithoutStep(c: Cache<string, nat>, gone: set<string>, key: string)
    ensures c.Without(gone).Delete(key).0 == c.Without(gone + {key})
  {
  }

  class Router {
    const table: CacheMap<string, nat>
    var waiters: seq<Settlement>
    var services: set<string>
    var delivered: seq<Delivery>

    /** The table is a valid cache map and refers only to promises that exist. */
    ghost predicate Valid()
      reads this, table
    {
      && table.Valid()
      && forall k :: k in table.entries ==> table.entries[k] < |waiters|
    }

    constructor ()
      ensures Valid() && fresh(table)
      ensures table.State() == Empty(DefaultTtl)
      ensures waiters == [] && services == {} && delivered == []
    {
      table := new CacheMap(DefaultTtl);
      waiters, services, delivered := [], {}, [];
    }

    /** Hands out a new promise, in the given state. */
    method NewPromise(s: Settlement) returns (id: nat)
      requires Valid()
      modifies this
      ensures Valid() && id == old(|waiters|) && waiters == old(waiters) + [s]
      ensures services == old(services) && delivered == old(delivered)
    {
      id := |waiters|;
      waiters := waiters + [s];
    }

    /** Calls the promise's `resolve` or `reject`. */
    method SettlePromise(id: nat, outcome: Settlement)
      requires Valid() && id < |waiters|
      modifies this
      ensures Valid() && waiters == old(waiters)[id := Settle(old(waiters)[id], outcome)]
      ensures services == old(services) && delivered == old(delivered)
    {
      waiters := waiters[id := Settle(waiters[id], outcome)];
    }

    /** Stores the promise under the key, restarting the key's expiry timer. */
    method Expect(key: string, id: nat)
      requires Valid() && id < |waiters|
      modifies table
      ensures Valid() && table.State() == old(table.State()).Set(key, id)
    {
      table.Set(key, id);
    }

    /**
     * The `message` listener.  A message whose key is pending removes that
     * entry and settles its promise; any other message goes to its service's
     * `handleAction`, or is dropped when no such service is registered.
     */
    method OnMessage(m: Message)
      requires Valid()
      modifies this, table
      ensures Valid() && services == old(services)
      ensures var key := MessageKey(m);
        if key in old(table.entries) then
          var id := old(table.entries)[key];
          && table.State() == old(table.State()).Delete(key).0
          && waiters == old(waiters)[id := Settle(old(waiters)[id], Reply(m))]
          && delivered == old(delivered)
        else
          && table.State() == old(table.State())
          && waiters == old(waiters)
          && delivered == old(delivered) + (if m.service in services then [Delivery(m.service, m.action, m.id, m.data)] else [])
    {
      var key := MessageKey(m);
      var promise := table.Get(key);
      if promise.Some? {
        var _ := table.Delete(key);
        SettlePromise(promise.value, Reply(m));
      } else if m.service in services {
        delivered := delivered + [Delivery(m.service, m.action, m.id, m.data)];
      }
    }

    /** The `close` listener: every promise in the table is rejected, but the entries stay. */
    method OnClose()
      requires Valid()
      modifies this
      ensures Valid() && services == old(services) && delivered == old(delivered)
      ensures SettledAll(old(waiters), waiters, table.entries.Values, Rejected("WebSocket closed"))
    {
      var ids := table.entries.Values;
      while ids != {}
        invariant Valid() && services == old(services) && delivered == old(delivered)
        invariant ids <= table.entries.Values
        invariant SettledAll(old(waiters), waiters, table.entries.Values - ids, Rejected("WebSocket closed"))
        decreases |ids|
      {
        var id :| id in ids;
        SettledAllStep(old(waiters), waiters, table.entries.Values - ids, id, Rejected("WebSocket closed"));
        SettlePromise(id, Rejected("WebSocket closed"));
        ids := ids - {id};
      }
    }

    /**
     * `unregisterService`: rejects and removes exactly the entries whose key
     * starts with `name:`, and says whether the service was registered.
     */
    method UnregisterService(name: string) returns (removed: bool)
      requires Valid()
      modifies this, table
      ensures Valid() && delivered == old(delivered)
      ensures var gone := Matching(old(table.State()), name + ":");
        && table.State() == old(table.State()).Without(gone)
        && SettledAll(old(waiters), waiters, WaitersOf(old(table.entries), gone), Rejected("Service unregistered"))
      ensures removed == (name in old(services)) && services == old(services) - {name}
    {
      DropPrefix(name + ":");
      removed := name in services;
      services := services - {name};
    }

    /** The loop of `unregisterService` over the table's entries. */
    method DropPrefix(prefix: string)
      requires Valid()
      modifies this, table
      ensures Valid() && delivered == old(delivered) && services == old(services)
      ensures var gone := Matching(old(table.State()), prefix);
        && table.State() == old(table.State()).Without(gone)
        && SettledAll(old(waiters), waiters, WaitersOf(old(table.entries), gone), Rejected("Service unregistered"))
    {
      ghost var c0 := table.State();
      ghost var gone := Matching(c0, prefix);
      var keys := table.entries.Keys;
      while keys != {}
        invariant Valid() && delivered == old(delivered) && services == old(services)
        invariant keys <= c0.entries.Keys
        invariant table.State() == c0.Without(gone - keys)
        invariant SettledAll(old(waiters), waiters, WaitersOf(c0.entries, gone - keys), Rejected("Service unregistered"))
        decreases |keys|
      {
        var key :| key in keys;
        DropIfMatching(key, prefix, c0, keys, old(waiters));
        keys := keys - {key};
      }
      assert gone - keys == gone;
    }

    /** One iteration of `DropPrefix`: the entry under `key` is rejected and removed when the key matches. */
    method DropIfMatching(key: string, prefix: string, ghost c0: Cache<string, nat>, ghost keys: set<string>, ghost w0: seq<Settlement>)
      requires Valid() && key in keys && keys <= c0.entries.Keys
      requires table.State() == c0.Without(Matching(c0, prefix) - keys)
      requires SettledAll(w0, waiters, WaitersOf(c0.entries, Matching(c0, prefix) - keys), Rejected("Service unregistered"))
      modifies this, table
      ensures Valid() && delivered == old(delivered) && services == old(services)
      ensures table.State() == c0.Without(Matching(c0, prefix) - (keys - {key}))
      ensures SettledAll(w0, waiters, WaitersOf(c0.entries, Matching(c0, prefix) - (keys - {key})), Rejected("Service unregistered"))
    {
      ghost var gone := Matching(c0, prefix);
      if StartsWith(key, prefix) {
        var id := table.entries[key];
        assert id == c0.entries[key];
        SettledAllStep(w0, waiters, WaitersOf(c0.entries, gone - keys), id, Rejected("Service unregistered"));
        SettlePromise(id, Rejected("Service unregistered"));
        WithoutStep(c0, gone - keys, key);
        var _ := table.Delete(key);
        assert gone - (keys - {key}) == (gone - keys) + {key};
        assert WaitersOf(c0.entries, gone - (keys - {key})) == WaitersOf(c0.entries, gone - keys) + {id};
      } else {
        assert gone - (keys - {key}) == gone - keys;
      }
    }

    /** The clock moves on; expired entries leave the table without settling their promises. */
    method Elapse(dt: nat)
      requires Valid()
      modifies table
      ensures Valid() && table.State() == old(table.State()).Advance(dt)
    {
      table.Elapse(dt);
    }
  }
}
