/**
  cache/cache.go: the cache engine. A store of `CacheItem`s with lazy expiry
  on `Get`, insert-time eviction on `Set` and `BatchSet` delegated to the
  policy, `Delete`, a read-only `BatchGet`, and `Items`/`SetItems` snapshot
  and restore.

  Locking is not modelled: every method is one atomic step, so the re-check
  after the lock upgrade in `Get` collapses into the single expiry test.
  `onEvicted` is modelled by whether it is set and a ghost log of its calls.
 */
module Cache {
  import opened Wrappers
  import opened KeySeq
  import opened Policy
  import opened Benchmark
  import opened CacheSpec

  class Cache<V> {
    var items: map<string, CacheItem<V>>
    const ttl: int
    const maxSize: int
    const policy: Policy
    const hasOnEvicted: bool
    const benchmark: Benchmark
    /** The `onEvicted(key, value)` calls made so far, oldest first. */
    ghost var evictions: seq<(string, V)>

    ghost predicate Valid()
      reads policy.Objects()
    {
      policy.Valid()
    }

    /** The configuration NewCache fixed: default TTL, capacity and whether a callback is set. */
    function Cfg(): Config
    {
      Config(ttl, maxSize, hasOnEvicted)
    }

    ghost function State(): CacheState<V>
      reads this, benchmark, policy.Objects()
    {
      CacheState(items, policy.State(), Counters(benchmark.hits, benchmark.misses, benchmark.expired), evictions)
    }

    /** NewCache: an empty store and fresh counters around the given policy, which is not inspected. */
    constructor (ttl: int, maxSize: int, policy: Policy, hasOnEvicted: bool)
      requires policy.Valid()
      ensures Valid() && fresh(benchmark)
      ensures this.ttl == ttl && this.maxSize == maxSize && this.policy == policy && this.hasOnEvicted == hasOnEvicted
      ensures State() == Initial(policy.State())
    {
      this.items := map[];
      this.ttl := ttl;
      this.maxSize := maxSize;
      this.policy := policy;
      this.hasOnEvicted := hasOnEvicted;
      this.benchmark := new Benchmark();
      this.evictions := [];
    }

    /** The capacity step at the head of every insertion: when full, evict the policy's victim if it is stored. */
    method MakeRoom()
      requires Valid()
      modifies this, benchmark, policy.Objects()
      ensures Valid()
      ensures State() == CacheSpec.MakeRoom(Cfg(), old(State()))
    {
      if |items| >= maxSize {
        var evictedKey := policy.Evict();
        if evictedKey in items {
          var item := items[evictedKey];
          items := items - {evictedKey};
          benchmark.RecordExpiration();
          if hasOnEvicted {
            evictions := evictions + [(evictedKey, item.value)];
          }
        }
      }
    }

    /** The body Set and BatchSet share: make room if full, then write the entry and tell the policy. */
    method Store(key: string, value: V, itemTTL: int, now: int)
      requires Valid()
      modifies this, benchmark, policy.Objects()
      ensures Valid()
      ensures State() == CacheSpec.Store(Cfg(), old(State()), key, value, itemTTL, now)
    {
      MakeRoom();
      items := items[key := CacheItem(value, now + itemTTL, itemTTL)];
      policy.Add(key);
    }

    method Set(key: string, value: V, ttls: seq<int>, now: int)
      requires Valid()
      modifies this, benchmark, policy.Objects()
      ensures Valid()
      ensures State() == CacheSpec.Set(Cfg(), old(State()), key, value, ttls, now)
    {
      var itemTTL := ttl;
      if |ttls| > 0 {
        itemTTL := ttls[0];
      }
      Store(key, value, itemTTL, now);
    }

    method Get(key: string, now: int) returns (value: Option<V>)
      requires Valid()
      modifies this, benchmark, policy.Objects()
      ensures Valid()
      ensures value == CacheSpec.Get(Cfg(), old(State()), key, now).0
      ensures State() == CacheSpec.Get(Cfg(), old(State()), key, now).1
    {
      if key !in items {
        benchmark.RecordMiss();
        return None;
      }
      var item := items[key];
      if now > item.expiresAt {
        items := items - {key};
        policy.Remove(key);
        benchmark.RecordExpiration();
        if hasOnEvicted {
          evictions := evictions + [(key, item.value)];
        }
        return None;
      }
      benchmark.RecordHit();
      return Some(item.value);
    }

    method Delete(key: string)
      requires Valid()
      modifies this, policy.Objects()
      ensures Valid()
      ensures State() == CacheSpec.Delete(Cfg(), old(State()), key)
    {
      if key in items {
        var item := items[key];
        items := items - {key};
        policy.Remove(key);
        if hasOnEvicted {
          evictions := evictions + [(key, item.value)];
        }
      }
    }

    method Hits() returns (n: nat)
      ensures n == State().counters.hits
    {
      n := benchmark.Hits();
    }

    method Misses() returns (n: nat)
      ensures n == State().counters.misses
    {
      n := benchmark.Misses();
    }

    method Expired() returns (n: nat)
      ensures n == State().counters.expired
    {
      n := benchmark.Expired();
    }

    /**
      BatchSet: one TTL for the whole batch, then one insertion per pair in
      the map's iteration order, which Go leaves unspecified; `order` reports
      the order this run chose.
     */
    method BatchSet(batch: map<string, V>, ttls: seq<int>, now: int) returns (ghost order: seq<string>)
      requires Valid()
      modifies this, benchmark, policy.Objects()
      ensures Valid()
      ensures IsIterationOrder(order, batch.Keys)
      ensures State() == CacheSpec.BatchSet(Cfg(), old(State()), batch, order, ttls, now)
    {
      var itemTTL := ttl;
      if |ttls| > 0 {
        itemTTL := ttls[0];
      }
      var remaining := batch.Keys;
      order := [];
      while remaining != {}
        invariant Valid()
        invariant PartialOrder(order, remaining, batch.Keys)
        invariant State() == StoreAll(Cfg(), old(State()), batch, order, itemTTL, now)
        decreases remaining
      {
        var key :| key in remaining;
        Store(key, batch[key], itemTTL, now);
        StoreAllSnoc(Cfg(), old(State()), batch, order, key, itemTTL, now);
        PartialOrderStep(order, remaining, batch.Keys, key);
        order := order + [key];
        remaining := remaining - {key};
      }
      PartialOrderDone(order, batch.Keys);
    }

    /** BatchGet: reads only; each requested key is one hit or one miss, and nothing expires here. */
    method BatchGet(keys: seq<string>, now: int) returns (results: map<string, V>)
      requires Valid()
      modifies benchmark
      ensures Valid()
      ensures items == old(items) && evictions == old(evictions)
      ensures results == BatchGetResult(items, keys, now)
      ensures State().counters == BatchGetCounters(items, keys, now, old(State()).counters)
    {
      results := map[];
      var i := 0;
      while i < |keys|
        invariant 0 <= i <= |keys|
        invariant results == BatchGetResult(items, keys[..i], now)
        invariant State().counters == BatchGetCounters(items, keys[..i], now, old(State()).counters)
      {
        var key := keys[i];
        assert keys[..i + 1][..i] == keys[..i];
        if key in items && now < items[key].expiresAt {
          results := results[key := items[key].value];
          benchmark.RecordHit();
        } else {
          benchmark.RecordMiss();
        }
        i := i + 1;
      }
      assert keys[..i] == keys;
    }

    /** Items: a copy of the store, built entry by entry; the store is not changed. */
    method Items() returns (itemsCopy: map<string, CacheItem<V>>)
      ensures itemsCopy == items
    {
      itemsCopy := map[];
      var remaining := items.Keys;
      while remaining != {}
        invariant remaining <= items.Keys
        invariant itemsCopy.Keys == items.Keys - remaining
        invariant forall k :: k in itemsCopy ==> itemsCopy[k] == items[k]
        decreases remaining
      {
        var key :| key in remaining;
        itemsCopy := itemsCopy[key := items[key]];
        remaining := remaining - {key};
      }
    }

    /**
      SetItems: each given entry is written verbatim (no TTL recomputation, no
      capacity check) and added to the policy, in the map's iteration order.
     */
    method SetItems(given: map<string, CacheItem<V>>) returns (ghost order: seq<string>)
      requires Valid()
      modifies this, policy.Objects()
      ensures Valid()
      ensures IsIterationOrder(order, given.Keys)
      ensures State() == CacheSpec.SetItems(old(State()), given, order)
    {
      var remaining := given.Keys;
      order := [];
      while remaining != {}
        invariant Valid()
        invariant PartialOrder(order, remaining, given.Keys)
        invariant State() == CacheSpec.SetItems(old(State()), given, order)
        decreases remaining
      {
        var key :| key in remaining;
        items := items[key := given[key]];
        policy.Add(key);
        SetItemsSnoc(old(State()), given, order, key);
        PartialOrderStep(order, remaining, given.Keys, key);
        order := order + [key];
        remaining := remaining - {key};
      }
      PartialOrderDone(order, given.Keys);
    }
  }
}
