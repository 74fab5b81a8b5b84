/**
 * `CacheMap` (src/utils/cacheMap.ts): a map in which every key carries one
 * expiry timer.  `set` (re)starts the key's timer, `delete` and `clear` cancel
 * timers, and a timer that fires removes its key.
 *
 * Time is a logical clock in milliseconds and each timer is represented by its
 * deadline.  A timer fires once the clock reaches its deadline, so a key is
 * live exactly while `now < deadline`.
 */
module CacheMaps {
  import opened Wrappers

  /** The default time-to-live of a new map, in milliseconds. */
  const DefaultTtl: nat := 10000

  /** The abstract state of a cache map. */
  datatype Cache<K(==), V> = Cache(ttl: nat, entries: map<K, V>, timers: map<K, int>, now: int)
  {
    /** Every key has exactly one pending timer, due no later than one ttl from now. */
    ghost predicate Wf() {
      && timers.Keys == entries.Keys
      && forall k :: k in timers ==> now <= timers[k] <= now + ttl
    }

    function Get(k: K): Option<V> {
      if k in entries then Some(entries[k]) else None
    }

    function Size(): nat {
      |entries|
    }

    /** `set`: store the value and restart the key's timer. */
    function Set(k: K, v: V): (c: Cache<K, V>)
      ensures c.ttl == ttl && c.now == now
    {
      this.(entries := entries[k := v], timers := timers[k := now + ttl])
    }

    /** `delete`: cancel the key's timer and remove it; the flag says whether it was there. */
    function Delete(k: K): (r: (Cache<K, V>, bool))
    {
      (this.(entries := entries - {k}, timers := timers - {k}), k in entries)
    }

    /** Removes the keys `ks` together with their timers. */
    function Without(ks: set<K>): (c: Cache<K, V>)
      ensures c.ttl == ttl && c.now == now
      ensures Wf() ==> c.Wf()
      ensures c.entries.Keys == entries.Keys - ks
    {
      this.(entries := entries - ks, timers := timers - ks)
    }

    /** `clear`: cancel every timer and remove every key. */
    function Clear(): Cache<K, V> {
      this.(entries := map[], timers := map[])
    }

    /** The keys whose timers fire when the clock moves `dt` forward. */
    function Due(dt: nat): set<K> {
      set k | k in timers && timers[k] <= now + dt
    }

    /** The clock moves `dt` forward and every timer due by then fires. */
    function Advance(dt: nat): (c: Cache<K, V>)
      ensures c.ttl == ttl && c.now == now + dt
    {
      this.(entries := entries - Due(dt), timers := timers - Due(dt), now := now + dt)
    }
  }

  function Empty<K(==), V>(ttl: nat): (c: Cache<K, V>)
    ensures c.Wf() && c.Size() == 0
  {
    Cache(ttl, map[], map[], 0)
  }


  // ---------------------------------------------------------------------
  // The unit-test scenarios, for every cache, key and value.

  /** A stored value is returned until its ttl has elapsed, and is gone from then on. */
  lemma {:induction false} StoredUntilTtl<K, V>(c: Cache<K, V>, k: K, v: V, dt: nat)
    ensures dt < c.ttl ==> c.Set(k, v).Advance(dt).Get(k) == Some(v)
    ensures dt >= c.ttl ==> c.Set(k, v).Advance(dt).Get(k) == None
  {
    var s := c.Set(k, v);
    assert k in s.timers && s.timers[k] == c.now + c.ttl;
    if dt < c.ttl {
      assert k !in s.Due(dt);
    } else {
      assert k in s.Due(dt);
    }
  }

  /** Setting a key again restarts its full ttl: the earlier timer no longer counts. */
  lemma {:induction false} ResetRestartsTtl<K, V>(c: Cache<K, V>, k: K, v1: V, v2: V, d1: nat, d2: nat)
    requires d1 < c.ttl && d2 < c.ttl
    ensures c.Set(k, v1).Advance(d1).Set(k, v2).Advance(d2).Get(k) == Some(v2)
  {
    StoredUntilTtl(c.Set(k, v1).Advance(d1), k, v2, d2);
  }

  /** `delete` reports presence, and a second `delete` reports false. */
  lemma DeleteTwice<K, V>(c: Cache<K, V>, k: K)
    ensures c.Delete(k).1 <==> c.Get(k).Some?
    ensures c.Delete(k).0.Get(k) == None && !c.Delete(k).0.Delete(k).1
  {
  }

  /** Keys expire independently: advancing the clock keeps or drops a key by its own timer alone. */
  lemma KeysExpireIndependently<K, V>(c: Cache<K, V>, k: K, dt: nat)
    requires c.Wf()
    ensures c.Advance(dt).Get(k) == if k in c.timers && c.timers[k] > c.now + dt then c.Get(k) else None
  {
  }

  // ---------------------------------------------------------------------
  // Whole traces of operations, from an empty map.

  datatype Op<K(==), V> = SetOp(key: K, value: V) | DeleteOp(key: K) | ClearOp | Tick(dt: nat)

  function Step<K(==), V>(c: Cache<K, V>, op: Op<K, V>): Cache<K, V> {
    match op
    case SetOp(k, v) => c.Set(k, v)
    case DeleteOp(k) => c.Delete(k).0
    case ClearOp => c.Clear()
    case Tick(dt) => c.Advance(dt)
  }

  lemma StepKeepsWf<K, V>(c: Cache<K, V>, op: Op<K, V>)
    requires c.Wf()
    ensures Step(c, op).Wf()
  {
    if op.Tick? {
      var a := c.Advance(op.dt);
      forall j | j in a.timers ensures a.now <= a.timers[j] <= a.now + a.ttl {
        assert j !in c.Due(op.dt);
      }
    }
  }

  function Run<K(==), V>(c: Cache<K, V>, ops: seq<Op<K, V>>): Cache<K, V>
    decreases |ops|
  {
    if ops == [] then c else Step(Run(c, ops[..|ops| - 1]), ops[|ops| - 1])
  }

  function TickOf<K(==), V>(op: Op<K, V>): nat {
    if op.Tick? then op.dt else 0
  }

  /** Time that passes over a sequence of operations. */
  function Elapsed<K(==), V>(ops: seq<Op<K, V>>): nat {
    if ops == [] then 0 else TickOf(ops[0]) + Elapsed(ops[1..])
  }

  /** Does `op` cancel or restart `k`'s timer? */
  predicate Touches<K(==), V>(op: Op<K, V>, k: K) {
    op.ClearOp? || (op.DeleteOp? && op.key == k) || (op.SetOp? && op.key == k)
  }

  /** Did the clock move (possibly by zero) anywhere in `ops`? A due timer fires only when it does. */
  predicate Ticked<K(==), V>(ops: seq<Op<K, V>>) {
    exists j :: 0 <= j < |ops| && ops[j].Tick?
  }

  /** `ops[i]` stored `v` under `k`, nothing afterwards touched `k`, and the timer it started
      has not fired: less than ttl has passed since, or the clock has not moved at all. */
  ghost predicate LiveSince<K, V>(ttl: nat, ops: seq<Op<K, V>>, k: K, i: int, v: V) {
    && 0 <= i < |ops|
    && ops[i] == SetOp(k, v)
    && (forall j :: i < j < |ops| ==> !Touches(ops[j], k))
    && (Elapsed(ops[i + 1..]) < ttl || !Ticked(ops[i + 1..]))
  }

  lemma {:induction false} ElapsedConcat<K, V>(a: seq<Op<K, V>>, b: seq<Op<K, V>>)
    ensures Elapsed(a + b) == Elapsed(a) + Elapsed(b)
  {
    if a == [] {
      assert a + b == b;
    } else {
      assert (a + b)[1..] == a[1..] + b;
      ElapsedConcat(a[1..], b);
    }
  }

  lemma ElapsedSplit<K, V>(ops: seq<Op<K, V>>, i: nat)
    requires i < |ops|
    ensures Elapsed(ops) == Elapsed(ops[..i]) + TickOf(ops[i]) + Elapsed(ops[i + 1..])
  {
    assert ops == ops[..i] + ([ops[i]] + ops[i + 1..]);
    ElapsedConcat(ops[..i], [ops[i]] + ops[i + 1..]);
    ElapsedConcat([ops[i]], ops[i + 1..]);
  }

  /** `ops[i]` is the operation that last touched `k`: it set `k` to its present value,
      and `k`'s timer is due one ttl after the time of that operation. */
  ghost predicate SetAt<K, V>(ttl: nat, ops: seq<Op<K, V>>, c: Cache<K, V>, k: K, i: int) {
    && k in c.entries && k in c.timers
    && 0 <= i < |ops| && ops[i] == SetOp(k, c.entries[k])
    && (forall j :: i < j < |ops| ==> !Touches(ops[j], k))
    && c.timers[k] == Elapsed(ops[..i]) + ttl
    && (c.now < c.timers[k] || !Ticked(ops[i + 1..]))
  }

  /** The state after a trace: the clock shows the elapsed time, and each present key
      was last set by some operation of the trace. */
  ghost predicate RunInvariant<K, V>(ttl: nat, ops: seq<Op<K, V>>, c: Cache<K, V>) {
    && c.Wf() && c.ttl == ttl && c.now == Elapsed(ops)
    && PresentKeysWereSet(ttl, ops, c)
    && LiveKeysArePresent(ttl, ops, c)
  }

  ghost predicate PresentKeysWereSet<K, V>(ttl: nat, ops: seq<Op<K, V>>, c: Cache<K, V>) {
    forall k :: k in c.entries ==> exists i :: SetAt(ttl, ops, c, k, i)
  }

  ghost predicate LiveKeysArePresent<K, V>(ttl: nat, ops: seq<Op<K, V>>, c: Cache<K, V>) {
    forall i :: 0 <= i < |ops| && ops[i].SetOp? && LiveSince(ttl, ops, ops[i].key, i, ops[i].value) ==>
      ops[i].key in c.entries && c.entries[ops[i].key] == ops[i].value
  }

  /** Two operations that both set `k` and are each followed by nothing touching `k` are the same one. */
  lemma LastSetUnique<K, V>(ops: seq<Op<K, V>>, k: K, i: int, i': int)
    requires 0 <= i < |ops| && 0 <= i' < |ops|
    requires ops[i].SetOp? && ops[i].key == k && ops[i'].SetOp? && ops[i'].key == k
    requires forall j :: i < j < |ops| ==> !Touches(ops[j], k)
    requires forall j :: i' < j < |ops| ==> !Touches(ops[j], k)
    ensures i == i'
  {
    if i < i' {
      assert Touches(ops[i'], k);
    } else if i' < i {
      assert Touches(ops[i], k);
    }
  }

  /** After one more operation, every present key was still last set by some operation. */
  lemma StepKeepsPresentKeys<K, V>(ttl: nat, p: seq<Op<K, V>>, op: Op<K, V>, c0: Cache<K, V>, k: K)
    requires c0.Wf() && c0.ttl == ttl && c0.now == Elapsed(p) && PresentKeysWereSet(ttl, p, c0)
    requires k in Step(c0, op).entries
    ensures exists i :: SetAt(ttl, p + [op], Step(c0, op), k, i)
  {
    var ops, c := p + [op], Step(c0, op);
    if op.SetOp? && op.key == k {
      assert ops[..|p|] == p;
      assert ops[|p| + 1..] == [];
      assert c.timers[k] == c0.now + ttl;
      assert SetAt(ttl, ops, c, k, |p|);
    } else {
      assert !Touches(op, k);
      var i :| SetAt(ttl, p, c0, k, i);
      UntouchedKeyKeepsLastSet(ttl, p, op, c0, k, i);
    }
  }

  lemma UntouchedKeyKeepsLastSet<K, V>(ttl: nat, p: seq<Op<K, V>>, op: Op<K, V>, c0: Cache<K, V>, k: K, i: int)
    requires c0.Wf() && c0.ttl == ttl && c0.now == Elapsed(p)
    requires SetAt(ttl, p, c0, k, i) && !Touches(op, k) && k in Step(c0, op).entries
    ensures SetAt(ttl, p + [op], Step(c0, op), k, i)
  {
    var ops, c := p + [op], Step(c0, op);
    assert c.entries[k] == c0.entries[k] && c.timers[k] == c0.timers[k];
    assert ops[..i] == p[..i];
    assert ops[i + 1..] == p[i + 1..] + [op];
    if op.Tick? {
      assert k !in c0.Due(op.dt);
    } else if Ticked(ops[i + 1..]) {
      var j :| 0 <= j < |ops[i + 1..]| && ops[i + 1..][j].Tick?;
      assert j < |p[i + 1..]| && p[i + 1..][j].Tick?;
    }
    forall j | i < j < |ops| ensures !Touches(ops[j], k) {
      if j < |p| { assert ops[j] == p[j]; } else { assert ops[j] == op; }
    }
  }

  /** A set that is still live after one more operation was live before it, and that operation left its key alone. */
  lemma LiveSincePrefix<K, V>(ttl: nat, p: seq<Op<K, V>>, op: Op<K, V>, k: K, i: int, v: V)
    requires 0 <= i < |p| && LiveSince(ttl, p + [op], k, i, v)
    ensures LiveSince(ttl, p, k, i, v) && !Touches(op, k)
    ensures op.Tick? ==> Elapsed(p[i + 1..]) + op.dt < ttl
  {
    var ops := p + [op];
    assert ops[i + 1..] == p[i + 1..] + [op];
    assert Touches(op, k) ==> false by { assert ops[|p|] == op; }
    ElapsedConcat(p[i + 1..], [op]);
    assert Elapsed([op]) == TickOf(op) + Elapsed<K, V>([]);
    if Ticked(p[i + 1..]) {
      var j :| 0 <= j < |p[i + 1..]| && p[i + 1..][j].Tick?;
      assert ops[i + 1..][j] == p[i + 1..][j];
    }
    if op.Tick? {
      assert ops[i + 1..][|p[i + 1..]|].Tick?;
    }
    forall j | i < j < |p|
      ensures !Touches(p[j], k)
    {
      assert ops[j] == p[j];
    }
  }

  /** After one more operation, a key whose last set is still live is present with that value. */
  lemma StepKeepsLiveKeys<K, V>(ttl: nat, p: seq<Op<K, V>>, op: Op<K, V>, c0: Cache<K, V>, i: int)
    requires c0.Wf() && c0.ttl == ttl && c0.now == Elapsed(p) && PresentKeysWereSet(ttl, p, c0) && LiveKeysArePresent(ttl, p, c0)
    requires 0 <= i < |p| + 1 && (p + [op])[i].SetOp?
    requires LiveSince(ttl, p + [op], (p + [op])[i].key, i, (p + [op])[i].value)
    ensures (p + [op])[i].key in Step(c0, op).entries
    ensures Step(c0, op).entries[(p + [op])[i].key] == (p + [op])[i].value
  {
    var ops := p + [op];
    var k, v := ops[i].key, ops[i].value;
    if i < |p| {
      assert ops[i] == p[i];
      LiveSincePrefix(ttl, p, op, k, i, v);
      assert p[i].SetOp? && LiveSince(ttl, p, p[i].key, i, p[i].value);
      if op.Tick? {
        var i' :| SetAt(ttl, p, c0, k, i');
        LastSetUnique(p, k, i, i');
        ElapsedSplit(p, i);
        assert k !in c0.Due(op.dt);
      }
    }
  }

  lemma StepKeepsRunInvariant<K, V>(ttl: nat, p: seq<Op<K, V>>, op: Op<K, V>, c0: Cache<K, V>)
    requires RunInvariant(ttl, p, c0)
    ensures RunInvariant(ttl, p + [op], Step(c0, op))
  {
    var ops, c := p + [op], Step(c0, op);
    StepKeepsWf(c0, op);
    ElapsedConcat(p, [op]);
    assert Elapsed([op]) == TickOf(op) + Elapsed<K, V>([]);
    forall k | k in c.entries ensures exists i :: SetAt(ttl, ops, c, k, i) {
      StepKeepsPresentKeys(ttl, p, op, c0, k);
    }
    assert PresentKeysWereSet(ttl, ops, c);
    forall i | 0 <= i < |ops| && ops[i].SetOp? && LiveSince(ttl, ops, ops[i].key, i, ops[i].value)
      ensures ops[i].key in c.entries && c.entries[ops[i].key] == ops[i].value
    {
      StepKeepsLiveKeys(ttl, p, op, c0, i);
    }
    assert LiveKeysArePresent(ttl, ops, c);
  }

  lemma {:induction false} RunKeepsInvariant<K, V>(ttl: nat, ops: seq<Op<K, V>>)
    ensures RunInvariant(ttl, ops, Run(Empty(ttl), ops))
    decreases |ops|
  {
    if ops != [] {
      var p := ops[..|ops| - 1];
      assert ops == p + [ops[|ops| - 1]];
      RunKeepsInvariant(ttl, p);
      StepKeepsRunInvariant(ttl, p, ops[|ops| - 1], Run(Empty(ttl), p));
    }
  }

  /** The state after any trace, from an empty map: `k` holds `v` exactly when some
      operation set `k` to `v`, nothing touched `k` afterwards, and its timer has not fired. */
  lemma GetAfterRun<K, V>(ttl: nat, ops: seq<Op<K, V>>, k: K, v: V)
    ensures Run(Empty(ttl), ops).Get(k) == Some(v) <==> exists i :: LiveSince(ttl, ops, k, i, v)
  {
    var c := Run(Empty<K, V>(ttl), ops);
    RunKeepsInvariant(ttl, ops);
    if i :| LiveSince(ttl, ops, k, i, v) {
      assert ops[i].SetOp? && LiveSince(ttl, ops, ops[i].key, i, ops[i].value);
    }
    if c.Get(k) == Some(v) {
      var i :| SetAt(ttl, ops, c, k, i);
      ElapsedSplit(ops, i);
      assert LiveSince(ttl, ops, k, i, v);
    }
  }

  // ---------------------------------------------------------------------
  // The class itself.

  /** A `Map` whose keys each carry one pending timer, kept as its deadline. */
  class CacheMap<K(==), V> {
    const ttl: nat
    var entries: map<K, V>
    var timers: map<K, int>
    var now: int

    function State(): Cache<K, V>
      reads this
    {
      Cache(ttl, entries, timers, now)
    }

    ghost predicate Valid()
      reads this
    {
      State().Wf()
    }

    constructor (ttl: nat)
      ensures Valid() && State() == Empty(ttl)
    {
      this.ttl := ttl;
      entries, timers, now := map[], map[], 0;
    }

    function Get(key: K): Option<V>
      reads this
    {
      State().Get(key)
    }

    function Size(): nat
      reads this
    {
      |entries|
    }

    /** Stores the value, cancels the key's previous timer and starts a new one. */
    method Set(key: K, value: V)
      requires Valid()
      modifies this
      ensures Valid() && State() == old(State()).Set(key, value)
    {
      entries := entries[key := value];
      timers := timers[key := now + ttl];
    }

    /** Cancels the key's timer, removes the key and says whether it was present. */
    method Delete(key: K) returns (present: bool)
      requires Valid()
      modifies this
      ensures Valid() && (State(), present) == old(State()).Delete(key)
    {
      timers := timers - {key};
      present := key in entries;
      entries := entries - {key};
    }

    /** Cancels every timer and removes every key. */
    method Clear()
      requires Valid()
      modifies this
      ensures Valid() && State() == old(State()).Clear() && Size() == 0
    {
      timers := map[];
      entries := map[];
    }

    /** The clock moves `dt` forward; each timer due by then fires and removes its own key. */
    method Elapse(dt: nat)
      requires Valid()
      modifies this
      ensures Valid() && State() == old(State()).Advance(dt)
    {
      ghost var fired := old(State()).Due(dt);
      now := now + dt;
      var due := set k | k in timers && timers[k] <= now;
      assert due == fired;
      while due != {}
        invariant due <= fired
        invariant entries == old(entries) - (fired - due)
        invariant timers == old(timers) - (fired - due)
        invariant now == old(now) + dt
        decreases |due|
      {
        var k :| k in due;
        entries := entries - {k};
        timers := timers - {k};
        due := due - {k};
      }
      StepKeepsWf(old(State()), Tick(dt));
    }
  }
}
