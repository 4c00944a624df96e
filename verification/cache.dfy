/** The cache-through accessor `get_or_set_cache` of api/utils.py, as a pure
    function from a store state to a returned value and a new store state.

    The accessor only relies on three things the Python runtime does with a
    value, so those are a parameter (`Runtime`) rather than an implementation:
    `json.dumps`, `json.loads` and truthiness. The claim that JSON round-trips
    is a hypothesis (`RoundTrips`) of the lemmas that need it. */
module Cache {
  import opened Wrappers

  /** How the runtime treats values of type `V`.
      `dumps(v)` is `None` when `json.dumps(v)` raises `TypeError`;
      `loads(v)` is `None` when `json.loads(v)` raises `TypeError` or
      `JSONDecodeError`; `truthy(v)` is Python's `bool(v)`. */
  datatype Runtime<!V> = Runtime(dumps: V -> Option<V>, loads: V -> Option<V>, truthy: V -> bool)

  /** JSON round-trip: whatever `dumps` produces is a non-empty text that
      `loads` turns back into the original value. */
  ghost predicate RoundTrips<V(!new)>(rt: Runtime<V>) {
    forall v :: rt.dumps(v).Some? ==> rt.loads(rt.dumps(v).value) == Some(v) && rt.truthy(rt.dumps(v).value)
  }

  /** The key-value store (TTL is not observable by a single call). */
  type Store<V> = map<string, V>

  /** What one call of the accessor does: what it returns or raises, the store
      afterwards, and how many times it invoked the producer. */
  datatype Call<V, E> = Call(outcome: Result<V, E>, store: Store<V>, producerCalls: nat)

  /** A hit is a cached entry that is present and truthy; an empty string (or
      any other falsy entry) counts as a miss. */
  predicate IsHit<V>(rt: Runtime<V>, store: Store<V>, key: string) {
    key in store && rt.truthy(store[key])
  }

  /** What a hit returns: the decoded entry, or the raw entry when decoding fails. */
  function HitValue<V>(rt: Runtime<V>, entry: V): V {
    match rt.loads(entry)
    case Some(decoded) => decoded
    case None => entry
  }

  /** What a miss writes under its key: the JSON text when `dumps` succeeds,
      else the value itself. */
  function StoredForm<V>(rt: Runtime<V>, produced: V): V {
    match rt.dumps(produced)
    case Some(text) => text
    case None => produced
  }

  /** `get_or_set_cache(key, fetch_func, timeout)`; `produce` is `fetch_func`
      with its arguments already bound. An exception raised by the producer
      propagates and nothing is written. */
  function GetOrSet<V, E>(rt: Runtime<V>, store: Store<V>, key: string, produce: () -> Result<V, E>): (c: Call<V, E>)
    // a hit: the producer is not invoked and the store is untouched
    ensures IsHit(rt, store, key) ==> c.producerCalls == 0 && c.store == store
    ensures IsHit(rt, store, key) && rt.loads(store[key]).Some? ==> c.outcome == Ok(rt.loads(store[key]).value)
    ensures IsHit(rt, store, key) && rt.loads(store[key]).None? ==> c.outcome == Ok(store[key])
    // a miss: the producer is invoked exactly once and its outcome is returned
    ensures !IsHit(rt, store, key) ==> c.producerCalls == 1 && c.outcome == produce()
    // only `key` may change, and only when the producer returned
    ensures c.store.Keys == store.Keys + (if c.outcome.Ok? && !IsHit(rt, store, key) then {key} else {})
    ensures forall k :: k in store && k != key ==> c.store[k] == store[k]
    ensures !IsHit(rt, store, key) && produce().Ok? && rt.dumps(produce().value).Some? ==>
              c.store[key] == rt.dumps(produce().value).value
    ensures !IsHit(rt, store, key) && produce().Ok? && rt.dumps(produce().value).None? ==>
              c.store[key] == produce().value
    ensures !IsHit(rt, store, key) && produce().Err? ==> c.store == store
  {
    if IsHit(rt, store, key) then
      Call(Ok(HitValue(rt, store[key])), store, 0)
    else
      match produce()
      case Ok(produced) => Call(Ok(produced), store[key := StoredForm(rt, produced)], 1)
      case Err(e) => Call(Err(e), store, 1)
  }

  /** Expiry of a key's TTL: the entry disappears and nothing else changes. */
  function Expire<V>(store: Store<V>, key: string): (s: Store<V>)
    ensures key !in s
    ensures forall k :: k in store && k != key <==> k in s
    ensures forall k :: k in s ==> s[k] == store[k]
  {
    store - {key}
  }

  /** A miss whose value JSON-encodes, followed by a second call with the same
      key, is a hit: the second producer is never invoked and the second call
      returns what the first returned. */
  lemma MissThenHit<V(!new), E>(rt: Runtime<V>, store: Store<V>, key: string,
                                produce: () -> Result<V, E>, produceAgain: () -> Result<V, E>)
    requires RoundTrips(rt)
    requires !IsHit(rt, store, key)
    requires produce().Ok? && rt.dumps(produce().value).Some?
    ensures var first := GetOrSet(rt, store, key, produce);
            var second := GetOrSet(rt, first.store, key, produceAgain);
            second.producerCalls == 0 && second.outcome == first.outcome && second.store == first.store
  {
  }

  /** A miss whose value does not JSON-encode is stored raw; the next call
      hits and returns it unchanged when the raw value is truthy and
      `json.loads` rejects it. A falsy raw value makes the next call a miss. */
  lemma MissThenHitRaw<V, E>(rt: Runtime<V>, store: Store<V>, key: string,
                             produce: () -> Result<V, E>, produceAgain: () -> Result<V, E>)
    requires !IsHit(rt, store, key)
    requires produce().Ok? && rt.dumps(produce().value).None?
    ensures var first := GetOrSet(rt, store, key, produce);
            var second := GetOrSet(rt, first.store, key, produceAgain);
            && (rt.truthy(produce().value) <==> second.producerCalls == 0)
            && (rt.truthy(produce().value) && rt.loads(produce().value).None? ==> second.outcome == first.outcome)
  {
  }

  /** After a key expires, the next call with it is a miss. */
  lemma ExpiredKeyMisses<V, E>(rt: Runtime<V>, store: Store<V>, key: string, produce: () -> Result<V, E>)
    ensures GetOrSet(rt, Expire(store, key), key, produce).producerCalls == 1
  {
  }

  /** Calls with two different keys do not interfere: a call for `other`
      leaves the entry for `key`, and so the answer for `key`, unchanged. */
  lemma KeysAreIsolated<V, E>(rt: Runtime<V>, store: Store<V>, key: string, other: string,
                              produce: () -> Result<V, E>, produceOther: () -> Result<V, E>)
    requires key != other
    ensures var s := GetOrSet(rt, store, other, produceOther).store;
            GetOrSet(rt, s, key, produce).outcome == GetOrSet(rt, store, key, produce).outcome
  {
  }
}
