/**
  The abstract behaviour of the cache engine (cache/cache.go) as pure
  functions on a state value: the store, the policy's abstract state, the
  three counters and the log of `onEvicted` calls. Each operation of the
  `Cache` class is proved to move its state exactly as these functions say;
  the properties of the engine are lemmas about them.

  Time is an explicit integer `now`; `time.Now().Add(ttl)` becomes `now + ttl`
  and `time.Now().After(t)` becomes `now > t`.
 */
module CacheSpec {
  import opened Wrappers
  import opened KeySeq
  import opened Policy

  /** One stored entry: its value, the instant it expires and the TTL it was stored with. */
  datatype CacheItem<V> = CacheItem(value: V, expiresAt: int, ttl: int)

  /** The hit, miss and expiration counters of the instrumentation sink. */
  datatype Counters = Counters(hits: nat, misses: nat, expired: nat)

  /** What NewCache fixes: the default TTL, the capacity, and whether `onEvicted` is non-nil. */
  datatype Config = Config(ttl: int, maxSize: int, hasOnEvicted: bool)

  /** The observable state of one cache; `evictions` records the `onEvicted(key, value)` calls in order. */
  datatype CacheState<V> = CacheState(
    items: map<string, CacheItem<V>>,
    policy: PolicyState,
    counters: Counters,
    evictions: seq<(string, V)>)

  /** The state of a cache just built around a policy in state `p`. */
  function Initial<V>(p: PolicyState): CacheState<V>
  {
    CacheState(map[], p, Counters(0, 0, 0), [])
  }

  /** No counter is smaller in `c'` than in `c`. */
  predicate CountersGrow(c: Counters, c': Counters)
  {
    c.hits <= c'.hits && c.misses <= c'.misses && c.expired <= c'.expired
  }

  /** The callback log after `onEvicted(key, value)`, which only fires when a callback is configured. */
  function Notify<V>(cfg: Config, log: seq<(string, V)>, key: string, value: V): seq<(string, V)>
  {
    if cfg.hasOnEvicted then log + [(key, value)] else log
  }

  /** The optional TTL argument: the first one given, else the cache's default. */
  function ResolveTTL(cfg: Config, ttls: seq<int>): int
  {
    if |ttls| > 0 then ttls[0] else cfg.ttl
  }

  /**
    The capacity step at the head of every insertion: when the store holds
    `maxSize` entries or more, ask the policy for one victim; a victim that is
    stored is deleted, counted as an expiration and reported to `onEvicted`.
   */
  function MakeRoom<V>(cfg: Config, s: CacheState<V>): CacheState<V>
  {
    if |s.items| < cfg.maxSize then s
    else
      var (victim, p) := s.policy.Evict();
      if victim in s.items then
        CacheState(
          s.items - {victim}, p,
          s.counters.(expired := s.counters.expired + 1),
          Notify(cfg, s.evictions, victim, s.items[victim].value))
      else
        s.(policy := p)
  }

  /** One insertion: the capacity step, then the entry is written and the policy told of the key. */
  function Store<V>(cfg: Config, s: CacheState<V>, key: string, value: V, itemTTL: int, now: int): CacheState<V>
  {
    var t := MakeRoom(cfg, s);
    t.(items := t.items[key := CacheItem(value, now + itemTTL, itemTTL)], policy := t.policy.Add(key))
  }

  /** Set(key, value, ttl...). */
  function Set<V>(cfg: Config, s: CacheState<V>, key: string, value: V, ttls: seq<int>, now: int): CacheState<V>
  {
    Store(cfg, s, key, value, ResolveTTL(cfg, ttls), now)
  }

  /** An entry is expired once `now` is strictly after its expiry instant. */
  predicate Expired<V>(item: CacheItem<V>, now: int)
  {
    now > item.expiresAt
  }

  /** Get(key): a miss, a lazy expiry, or a hit. */
  function Get<V>(cfg: Config, s: CacheState<V>, key: string, now: int): (Option<V>, CacheState<V>)
  {
    if key !in s.items then
      (None, s.(counters := s.counters.(misses := s.counters.misses + 1)))
    else if Expired(s.items[key], now) then
      (None, CacheState(
        s.items - {key}, s.policy.Remove(key),
        s.counters.(expired := s.counters.expired + 1),
        Notify(cfg, s.evictions, key, s.items[key].value)))
    else
      (Some(s.items[key].value), s.(counters := s.counters.(hits := s.counters.hits + 1)))
  }

  /** Delete(key): removes a stored key, tells the policy and reports it; an absent key is a no-op. */
  function Delete<V>(cfg: Config, s: CacheState<V>, key: string): CacheState<V>
  {
    if key in s.items then
      s.(items := s.items - {key}, policy := s.policy.Remove(key),
         evictions := Notify(cfg, s.evictions, key, s.items[key].value))
    else
      s
  }

  /**
    The insertions of BatchSet, one per key of `batch`, in the order `order`
    in which the map happens to be iterated; one TTL for all of them.
   */
  function StoreAll<V>(cfg: Config, s: CacheState<V>, batch: map<string, V>, order: seq<string>, itemTTL: int, now: int): CacheState<V>
    requires forall k :: k in order ==> k in batch
    decreases |order|
  {
    if order == [] then s
    else
      var last := order[|order| - 1];
      Store(cfg, StoreAll(cfg, s, batch, order[..|order| - 1], itemTTL, now), last, batch[last], itemTTL, now)
  }

  /** One more key in the iteration order is one more insertion at the end. */
  lemma StoreAllSnoc<V>(cfg: Config, s: CacheState<V>, batch: map<string, V>, order: seq<string>, key: string, itemTTL: int, now: int)
    requires forall k :: k in order ==> k in batch
    requires key in batch
    ensures StoreAll(cfg, s, batch, order + [key], itemTTL, now)
         == Store(cfg, StoreAll(cfg, s, batch, order, itemTTL, now), key, batch[key], itemTTL, now)
  {
    assert (order + [key])[..|order|] == order;
  }

  /** BatchSet(batch, ttl...): the TTL is resolved once, before the loop. */
  function BatchSet<V>(cfg: Config, s: CacheState<V>, batch: map<string, V>, order: seq<string>, ttls: seq<int>, now: int): CacheState<V>
    requires forall k :: k in order ==> k in batch
  {
    StoreAll(cfg, s, batch, order, ResolveTTL(cfg, ttls), now)
  }

  /** BatchGet's own liveness test: present and `now` strictly before the expiry instant. */
  predicate LiveForBatch<V>(items: map<string, CacheItem<V>>, key: string, now: int)
  {
    key in items && now < items[key].expiresAt
  }

  /** The map BatchGet returns: every requested key that passes its liveness test, with its value. */
  function BatchGetResult<V>(items: map<string, CacheItem<V>>, keys: seq<string>, now: int): map<string, V>
  {
    map k | k in keys && LiveForBatch(items, k, now) :: items[k].value
  }

  /** The counters after BatchGet looked up `keys` in turn: one hit or one miss per key. */
  function BatchGetCounters<V>(items: map<string, CacheItem<V>>, keys: seq<string>, now: int, c: Counters): Counters
    decreases |keys|
  {
    if keys == [] then c
    else
      var c' := BatchGetCounters(items, keys[..|keys| - 1], now, c);
      if LiveForBatch(items, keys[|keys| - 1], now) then c'.(hits := c'.hits + 1)
      else c'.(misses := c'.misses + 1)
  }

  /** SetItems(given): each key in iteration order `order` is written verbatim and added to the policy. */
  function SetItems<V>(s: CacheState<V>, given: map<string, CacheItem<V>>, order: seq<string>): CacheState<V>
    requires forall k :: k in order ==> k in given
    decreases |order|
  {
    if order == [] then s
    else
      var last := order[|order| - 1];
      var t := SetItems(s, given, order[..|order| - 1]);
      t.(items := t.items[last := given[last]], policy := t.policy.Add(last))
  }

  /** One more key in the iteration order is one more verbatim write at the end. */
  lemma SetItemsSnoc<V>(s: CacheState<V>, given: map<string, CacheItem<V>>, order: seq<string>, key: string)
    requires forall k :: k in order ==> k in given
    requires key in given
    ensures var t := SetItems(s, given, order);
      SetItems(s, given, order + [key]) == t.(items := t.items[key := given[key]], policy := t.policy.Add(key))
  {
    assert (order + [key])[..|order|] == order;
  }

  /** `order` lists every key of `keys` exactly once, as a Go range over a map does. */
  ghost predicate IsIterationOrder(order: seq<string>, keys: set<string>)
  {
    NoDups(order) && Elems(order) == keys
  }

  /** Midway through a range over a map: `order` is what was visited, `remaining` what is left. */
  ghost predicate PartialOrder(order: seq<string>, remaining: set<string>, keys: set<string>)
  {
    NoDups(order) && Elems(order) <= keys && remaining == keys - Elems(order)
  }

  /** Visiting one more remaining key keeps the range's bookkeeping. */
  lemma PartialOrderStep(order: seq<string>, remaining: set<string>, keys: set<string>, key: string)
    requires PartialOrder(order, remaining, keys) && key in remaining
    ensures PartialOrder(order + [key], remaining - {key}, keys)
  {
    AppendFresh(order, key);
  }

  /** A range with nothing left has visited every key exactly once. */
  lemma PartialOrderDone(order: seq<string>, keys: set<string>)
    requires PartialOrder(order, {}, keys)
    ensures IsIterationOrder(order, keys)
  {
    forall k | k in keys ensures k in Elems(order) {
      assert k !in keys - Elems(order);
    }
  }
}
