/**
  Properties of the cache engine, stated on `CacheSpec`: what each operation
  does to the store, the policy, the counters and the callback log, and the
  invariant that holds under the LRU policy only.
 */
module CacheProperties {
  import opened Wrappers
  import opened KeySeq
  import opened Policy
  import opened PolicyProperties
  import opened CacheSpec

  /* ---------- The LRU invariant ---------- */

  /** Under LRU the policy tracks exactly the stored keys, each once. */
  ghost predicate LruTracksStore<V>(s: CacheState<V>)
  {
    LruWellFormed(s.policy) && Tracked(s.policy) == s.items.Keys
  }

  /** The LRU invariant: the policy tracks the store, and the store is within capacity when `maxSize >= 1`. */
  ghost predicate LruInvariant<V>(cfg: Config, s: CacheState<V>)
  {
    LruTracksStore(s) && (cfg.maxSize >= 1 ==> |s.items| <= cfg.maxSize)
  }

  /** A cache built around a fresh LRU starts in the invariant. */
  lemma InitialLru<V>(cfg: Config)
    ensures LruInvariant(cfg, Initial<V>(LruState([])))
  {
    assert Tracked(LruState([])) == {};
  }

  /**
    Under LRU the capacity step always finds its victim in the store when it
    runs with `maxSize >= 1`, so it frees exactly one slot.
   */
  lemma MakeRoomLru<V>(cfg: Config, s: CacheState<V>)
    requires LruTracksStore(s)
    ensures LruTracksStore(MakeRoom(cfg, s))
    ensures MakeRoom(cfg, s).items.Keys <= s.items.Keys
    ensures cfg.maxSize >= 1 && |s.items| >= cfg.maxSize ==> |MakeRoom(cfg, s).items| == |s.items| - 1
  {
    if |s.items| >= cfg.maxSize {
      var (victim, p) := s.policy.Evict();
      LruEvict(s.policy);
      LruTrackedCount(s.policy);
      if s.policy.queue != [] {
        assert victim in Tracked(s.policy);
        RemoveKeys(s.items, victim);
      } else {
        assert s.items.Keys == {};
      }
    }
  }

  /** Writing one key adds exactly that key to a store's key set. */
  lemma UpdateKeys<V>(m: map<string, CacheItem<V>>, key: string, e: CacheItem<V>)
    ensures m[key := e].Keys == m.Keys + {key}
  {
  }

  /** Deleting one key removes exactly that key from a store's key set. */
  lemma RemoveKeys<V>(m: map<string, CacheItem<V>>, key: string)
    ensures (m - {key}).Keys == m.Keys - {key}
  {
  }

  /** Writing one key grows a store by at most one entry. */
  lemma UpdateCard<V>(m: map<string, CacheItem<V>>, key: string, e: CacheItem<V>)
    ensures |m[key := e]| <= |m| + 1
  {
    if key in m {
      assert m[key := e].Keys == m.Keys;
    } else {
      UpdateKeys(m, key, e);
    }
  }

  /** Under LRU one insertion keeps the policy tracking exactly the stored keys. */
  lemma StoreTracksStore<V>(cfg: Config, s: CacheState<V>, key: string, value: V, itemTTL: int, now: int)
    requires LruTracksStore(s)
    ensures LruTracksStore(Store(cfg, s, key, value, itemTTL, now))
  {
    var t := MakeRoom(cfg, s);
    MakeRoomLru(cfg, s);
    LruAdd(t.policy, key);
    UpdateKeys(t.items, key, CacheItem(value, now + itemTTL, itemTTL));
  }

  /** Under LRU one insertion leaves the store within capacity if it was. */
  lemma StoreWithinCapacity<V>(cfg: Config, s: CacheState<V>, key: string, value: V, itemTTL: int, now: int)
    requires LruTracksStore(s) && cfg.maxSize >= 1 && |s.items| <= cfg.maxSize
    ensures |Store(cfg, s, key, value, itemTTL, now).items| <= cfg.maxSize
  {
    var t := MakeRoom(cfg, s);
    MakeRoomLru(cfg, s);
    UpdateCard(t.items, key, CacheItem(value, now + itemTTL, itemTTL));
  }

  /** One insertion keeps the LRU invariant. */
  lemma StoreKeepsLru<V>(cfg: Config, s: CacheState<V>, key: string, value: V, itemTTL: int, now: int)
    requires LruInvariant(cfg, s)
    ensures LruInvariant(cfg, Store(cfg, s, key, value, itemTTL, now))
  {
    StoreTracksStore(cfg, s, key, value, itemTTL, now);
    if cfg.maxSize >= 1 {
      StoreWithinCapacity(cfg, s, key, value, itemTTL, now);
    }
  }

  /** Set keeps the LRU invariant. */
  lemma SetKeepsLru<V>(cfg: Config, s: CacheState<V>, key: string, value: V, ttls: seq<int>, now: int)
    requires LruInvariant(cfg, s)
    ensures LruInvariant(cfg, Set(cfg, s, key, value, ttls, now))
  {
    StoreKeepsLru(cfg, s, key, value, ResolveTTL(cfg, ttls), now);
  }

  /** BatchSet keeps the LRU invariant, whatever order the batch is iterated in. */
  lemma {:induction false} StoreAllKeepsLru<V>(cfg: Config, s: CacheState<V>, batch: map<string, V>, order: seq<string>, itemTTL: int, now: int)
    requires forall k :: k in order ==> k in batch
    requires LruInvariant(cfg, s)
    ensures LruInvariant(cfg, StoreAll(cfg, s, batch, order, itemTTL, now))
    decreases |order|
  {
    if order != [] {
      var last := order[|order| - 1];
      StoreAllKeepsLru(cfg, s, batch, order[..|order| - 1], itemTTL, now);
      StoreKeepsLru(cfg, StoreAll(cfg, s, batch, order[..|order| - 1], itemTTL, now), last, batch[last], itemTTL, now);
    }
  }

  lemma BatchSetKeepsLru<V>(cfg: Config, s: CacheState<V>, batch: map<string, V>, order: seq<string>, ttls: seq<int>, now: int)
    requires IsIterationOrder(order, batch.Keys)
    requires LruInvariant(cfg, s)
    ensures LruInvariant(cfg, BatchSet(cfg, s, batch, order, ttls, now))
  {
    StoreAllKeepsLru(cfg, s, batch, order, ResolveTTL(cfg, ttls), now);
  }

  /** Delete keeps the LRU invariant. */
  lemma DeleteKeepsLru<V>(cfg: Config, s: CacheState<V>, key: string)
    requires LruInvariant(cfg, s)
    ensures LruInvariant(cfg, Delete(cfg, s, key))
  {
    if key in s.items {
      LruRemove(s.policy, key);
      RemoveKeys(s.items, key);
    }
  }

  /** Get keeps the LRU invariant, its expiry path included. */
  lemma GetKeepsLru<V>(cfg: Config, s: CacheState<V>, key: string, now: int)
    requires LruInvariant(cfg, s)
    ensures LruInvariant(cfg, Get(cfg, s, key, now).1)
  {
    if key in s.items && Expired(s.items[key], now) {
      LruRemove(s.policy, key);
      RemoveKeys(s.items, key);
    }
  }

  /** SetItems keeps the policy tracking exactly the stored keys (it does not check capacity). */
  lemma {:induction false} SetItemsKeepsLruTracking<V>(s: CacheState<V>, given: map<string, CacheItem<V>>, order: seq<string>)
    requires forall k :: k in order ==> k in given
    requires LruTracksStore(s)
    ensures LruTracksStore(SetItems(s, given, order))
    decreases |order|
  {
    if order != [] {
      var last := order[|order| - 1];
      SetItemsKeepsLruTracking(s, given, order[..|order| - 1]);
      var t := SetItems(s, given, order[..|order| - 1]);
      LruAdd(t.policy, last);
      UpdateKeys(t.items, last, given[last]);
    }
  }

  /* ---------- Set and BatchSet ---------- */

  /**
    One insertion writes `key` with `ExpiresAt = now + TTL`, touches no other
    stored entry, adds no other key, and grows the store by at most one.
   */
  lemma StoreWritesEntry<V>(cfg: Config, s: CacheState<V>, key: string, value: V, itemTTL: int, now: int)
    ensures var t := Store(cfg, s, key, value, itemTTL, now);
      && key in t.items && t.items[key] == CacheItem(value, now + itemTTL, itemTTL)
      && t.items.Keys <= s.items.Keys + {key}
      && |t.items| <= |s.items| + 1
      && (forall k :: k in t.items && k != key ==> k in s.items && t.items[k] == s.items[k])
      && CountersGrow(s.counters, t.counters)
  {
    var m := MakeRoom(cfg, s).items;
    assert m.Keys <= s.items.Keys;
    assert |m| <= |s.items| by {
      assert |m.Keys| <= |s.items.Keys| by {
        SubsetCard(m.Keys, s.items.Keys);
      }
    }
    UpdateCard(m, key, CacheItem(value, now + itemTTL, itemTTL));
  }

  /** A subset is no larger than its superset. */
  lemma {:induction false} SubsetCard(a: set<string>, b: set<string>)
    requires a <= b
    ensures |a| <= |b|
    decreases |b|
  {
    if a != {} {
      var x :| x in a;
      SubsetCard(a - {x}, b - {x});
    }
  }

  /** Set stores the value under the TTL given first, else under the default TTL. */
  lemma SetWritesEntry<V>(cfg: Config, s: CacheState<V>, key: string, value: V, ttls: seq<int>, now: int)
    ensures var ttl := if |ttls| > 0 then ttls[0] else cfg.ttl;
      Set(cfg, s, key, value, ttls, now).items[key] == CacheItem(value, now + ttl, ttl)
    ensures |Set(cfg, s, key, value, ttls, now).items| <= |s.items| + 1
  {
    StoreWritesEntry(cfg, s, key, value, ResolveTTL(cfg, ttls), now);
  }

  /** Below capacity, Set only writes the entry and adds the key to the policy. */
  lemma SetBelowCapacity<V>(cfg: Config, s: CacheState<V>, key: string, value: V, ttls: seq<int>, now: int)
    requires |s.items| < cfg.maxSize
    ensures var ttl := ResolveTTL(cfg, ttls);
      Set(cfg, s, key, value, ttls, now)
        == s.(items := s.items[key := CacheItem(value, now + ttl, ttl)], policy := s.policy.Add(key))
  {
  }

  /**
    At or over capacity, Set asks the policy for exactly one victim, even when
    `key` is already stored. A stored victim is deleted, counted as an
    expiration and reported once; any other victim leaves the store alone.
   */
  lemma SetAtCapacity<V>(cfg: Config, s: CacheState<V>, key: string, value: V, ttls: seq<int>, now: int)
    requires |s.items| >= cfg.maxSize
    ensures var (victim, p) := s.policy.Evict();
      var ttl := ResolveTTL(cfg, ttls);
      var entry := CacheItem(value, now + ttl, ttl);
      var t := Set(cfg, s, key, value, ttls, now);
      && t.policy == p.Add(key)
      && (victim in s.items ==>
            && t.items == (s.items - {victim})[key := entry]
            && t.counters == s.counters.(expired := s.counters.expired + 1)
            && t.evictions == Notify(cfg, s.evictions, victim, s.items[victim].value))
      && (victim !in s.items ==>
            && t.items == s.items[key := entry]
            && t.counters == s.counters
            && t.evictions == s.evictions)
  {
  }

  /**
    After BatchSet every batch key still stored holds its batch value under
    the one TTL; every other stored key kept its entry; the last key
    inserted is stored; the store grew by at most one entry per pair.
   */
  lemma {:induction false} StoreAllEntries<V>(cfg: Config, s: CacheState<V>, batch: map<string, V>, order: seq<string>, itemTTL: int, now: int)
    requires forall k :: k in order ==> k in batch
    ensures var t := StoreAll(cfg, s, batch, order, itemTTL, now);
      && (forall k :: k in t.items && k in order ==> t.items[k] == CacheItem(batch[k], now + itemTTL, itemTTL))
      && (forall k :: k in t.items && k !in order ==> k in s.items && t.items[k] == s.items[k])
      && (order != [] ==> order[|order| - 1] in t.items)
      && |t.items| <= |s.items| + |order|
      && CountersGrow(s.counters, t.counters)
    decreases |order|
  {
    if order != [] {
      var init := order[..|order| - 1];
      var last := order[|order| - 1];
      StoreAllEntries(cfg, s, batch, init, itemTTL, now);
      var t' := StoreAll(cfg, s, batch, init, itemTTL, now);
      StoreWritesEntry(cfg, t', last, batch[last], itemTTL, now);
      forall k | k in order && k != last ensures k in init {
        var i :| 0 <= i < |order| && order[i] == k;
        assert i < |order| - 1;
        assert init[i] == k;
      }
      forall k | k in init ensures k in order {
        var i :| 0 <= i < |init| && init[i] == k;
        assert order[i] == k;
      }
    }
  }

  lemma BatchSetEntries<V>(cfg: Config, s: CacheState<V>, batch: map<string, V>, order: seq<string>, ttls: seq<int>, now: int)
    requires IsIterationOrder(order, batch.Keys)
    ensures var ttl := ResolveTTL(cfg, ttls);
      var t := BatchSet(cfg, s, batch, order, ttls, now);
      && (forall k :: k in t.items && k in batch ==> t.items[k] == CacheItem(batch[k], now + ttl, ttl))
      && (forall k :: k in t.items && k !in batch ==> k in s.items && t.items[k] == s.items[k])
      && |t.items| <= |s.items| + |batch|
  {
    StoreAllEntries(cfg, s, batch, order, ResolveTTL(cfg, ttls), now);
    NoDupsCard(order);
    assert forall k :: k in order <==> k in batch by {
      assert Elems(order) == batch.Keys;
    }
  }

  /* ---------- Get ---------- */

  /** Get of an absent key: not found, one more miss, nothing else changes. */
  lemma GetAbsent<V>(cfg: Config, s: CacheState<V>, key: string, now: int)
    requires key !in s.items
    ensures Get(cfg, s, key, now) == (None, s.(counters := s.counters.(misses := s.counters.misses + 1)))
  {
  }

  /**
    Get of a live entry: its value, one more hit, nothing else changes; in
    particular the policy is untouched, so a read does not refresh LRU recency.
   */
  lemma GetLive<V>(cfg: Config, s: CacheState<V>, key: string, now: int)
    requires key in s.items && now <= s.items[key].expiresAt
    ensures Get(cfg, s, key, now).0 == Some(s.items[key].value)
    ensures Get(cfg, s, key, now).1 == s.(counters := s.counters.(hits := s.counters.hits + 1))
  {
  }

  /**
    Get of an expired entry: not found; the entry is removed, the policy told,
    `expired` (not `misses`) goes up by one, and `onEvicted` fires once.
   */
  lemma GetExpired<V>(cfg: Config, s: CacheState<V>, key: string, now: int)
    requires key in s.items && now > s.items[key].expiresAt
    ensures var (r, t) := Get(cfg, s, key, now);
      && r == None
      && t.items == s.items - {key}
      && t.policy == s.policy.Remove(key)
      && t.counters == s.counters.(expired := s.counters.expired + 1)
      && t.evictions == Notify(cfg, s.evictions, key, s.items[key].value)
  {
  }

  /** Get finds a key exactly when it is stored and `now` is not after its expiry instant. */
  lemma GetFoundIffLive<V>(cfg: Config, s: CacheState<V>, key: string, now: int)
    ensures Get(cfg, s, key, now).0.Some? <==> key in s.items && now <= s.items[key].expiresAt
    ensures Get(cfg, s, key, now).0.Some? ==> Get(cfg, s, key, now).0.value == s.items[key].value
  {
  }

  /* ---------- Delete ---------- */

  /** Delete of a stored key removes it, tells the policy and reports it once; counters are untouched. */
  lemma DeletePresent<V>(cfg: Config, s: CacheState<V>, key: string)
    requires key in s.items
    ensures var t := Delete(cfg, s, key);
      && t.items == s.items - {key}
      && t.policy == s.policy.Remove(key)
      && t.counters == s.counters
      && t.evictions == Notify(cfg, s.evictions, key, s.items[key].value)
  {
  }

  /** Delete of an absent key changes nothing. */
  lemma DeleteAbsent<V>(cfg: Config, s: CacheState<V>, key: string)
    requires key !in s.items
    ensures Delete(cfg, s, key) == s
  {
  }

  /** A second Delete of the same key is a no-op: no second callback. */
  lemma DeleteIdempotent<V>(cfg: Config, s: CacheState<V>, key: string)
    ensures Delete(cfg, Delete(cfg, s, key), key) == Delete(cfg, s, key)
    ensures |Delete(cfg, s, key).evictions| <= |s.evictions| + 1
  {
  }

  /* ---------- BatchGet ---------- */

  /** The result holds exactly the requested keys that are stored with `now` strictly before their expiry. */
  lemma BatchGetResultExact<V>(items: map<string, CacheItem<V>>, keys: seq<string>, now: int, key: string)
    ensures key in BatchGetResult(items, keys, now) <==> key in keys && key in items && now < items[key].expiresAt
    ensures key in BatchGetResult(items, keys, now) ==> BatchGetResult(items, keys, now)[key] == items[key].value
  {
  }

  /** Every requested key adds one to `hits` or to `misses`; `expired` never moves. */
  lemma {:induction false} BatchGetCountsEveryKey<V>(items: map<string, CacheItem<V>>, keys: seq<string>, now: int, c: Counters)
    ensures var c' := BatchGetCounters(items, keys, now, c);
      && c'.hits + c'.misses == c.hits + c.misses + |keys|
      && c'.expired == c.expired
      && CountersGrow(c, c')
    decreases |keys|
  {
    if keys != [] {
      BatchGetCountsEveryKey(items, keys[..|keys| - 1], now, c);
    }
  }

  /**
    At the expiry instant itself Get still reports a hit, while BatchGet
    already reports a miss: the two liveness tests differ by one tick.
   */
  lemma ExpiryBoundary<V>(cfg: Config, s: CacheState<V>, key: string, now: int)
    requires key in s.items && s.items[key].expiresAt == now
    ensures Get(cfg, s, key, now).0 == Some(s.items[key].value)
    ensures key !in BatchGetResult(s.items, [key], now)
    ensures BatchGetCounters(s.items, [key], now, s.counters).misses == s.counters.misses + 1
  {
    assert [key][..0] == [];
  }

  /* ---------- SetItems ---------- */

  /** The verbatim writes of SetItems over a prefix of the iteration order. */
  lemma {:induction false} SetItemsPrefix<V>(s: CacheState<V>, given: map<string, CacheItem<V>>, order: seq<string>)
    requires forall k :: k in order ==> k in given
    ensures var t := SetItems(s, given, order);
      && (forall k :: k in t.items <==> k in s.items || k in order)
      && (forall k :: k in order ==> t.items[k] == given[k])
      && (forall k :: k in t.items && k !in order ==> t.items[k] == s.items[k])
      && t.counters == s.counters && t.evictions == s.evictions
    decreases |order|
  {
    if order != [] {
      var init := order[..|order| - 1];
      var last := order[|order| - 1];
      SetItemsPrefix(s, given, init);
      forall k | k in order && k != last ensures k in init {
        var i :| 0 <= i < |order| && order[i] == k;
        assert init[i] == k;
      }
      forall k | k in init ensures k in order {
        var i :| 0 <= i < |init| && init[i] == k;
        assert order[i] == k;
      }
    }
  }

  /**
    SetItems overwrites every given key with its entry verbatim (no expiry
    recomputation, no capacity check), keeps every other entry, and changes
    neither the counters nor the callback log.
   */
  lemma SetItemsOverwrites<V>(s: CacheState<V>, given: map<string, CacheItem<V>>, order: seq<string>)
    requires IsIterationOrder(order, given.Keys)
    ensures SetItems(s, given, order).items == s.items + given
    ensures SetItems(s, given, order).counters == s.counters
    ensures SetItems(s, given, order).evictions == s.evictions
  {
    SetItemsPrefix(s, given, order);
    assert forall k :: k in order <==> k in given by {
      assert Elems(order) == given.Keys;
    }
  }

  /* ---------- Counters ---------- */

  /** No operation decreases a counter. */
  lemma CountersNeverDecrease<V>(cfg: Config, s: CacheState<V>, key: string, value: V, ttls: seq<int>, now: int,
                                 batch: map<string, V>, order: seq<string>, keys: seq<string>)
    requires forall k :: k in order ==> k in batch
    ensures CountersGrow(s.counters, Set(cfg, s, key, value, ttls, now).counters)
    ensures CountersGrow(s.counters, Get(cfg, s, key, now).1.counters)
    ensures CountersGrow(s.counters, Delete(cfg, s, key).counters)
    ensures CountersGrow(s.counters, BatchSet(cfg, s, batch, order, ttls, now).counters)
    ensures CountersGrow(s.counters, BatchGetCounters(s.items, keys, now, s.counters))
  {
    StoreWritesEntry(cfg, s, key, value, ResolveTTL(cfg, ttls), now);
    StoreAllEntries(cfg, s, batch, order, ResolveTTL(cfg, ttls), now);
    BatchGetCountsEveryKey(s.items, keys, now, s.counters);
  }

  /* ---------- The stub policy ---------- */

  /**
    With the stub policy a Set at capacity removes nothing unless "" itself
    is a stored key: the victim is always "".
   */
  lemma CustomSetNeverEvicts<V>(cfg: Config, s: CacheState<V>, key: string, value: V, ttls: seq<int>, now: int)
    requires s.policy == CustomState && "" !in s.items
    ensures var ttl := ResolveTTL(cfg, ttls);
      var t := Set(cfg, s, key, value, ttls, now);
      && t.items == s.items[key := CacheItem(value, now + ttl, ttl)]
      && t.counters == s.counters
      && t.evictions == s.evictions
      && t.policy == CustomState
  {
  }
}
