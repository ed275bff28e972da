/**
  Concrete runs of the cache engine with explicit instants, among them the
  sequence of cache/cache_test.go (its `time.Sleep(3 * time.Second)` becomes
  a jump of `now` from 0 to 3).
 */
module Scenarios {
  import opened Wrappers
  import opened KeySeq
  import opened Policy
  import opened CacheSpec

  /**
    cache/cache_test.go: TTL 2, capacity 2, LRU. A read right after the
    write hits; after three seconds the entry has expired (one expiration, no
    miss); the later Set finds room without evicting, and key2, written at
    the same instant as key1, has expired too.
   */
  lemma CacheTestRun()
    ensures
      var cfg := Config(2, 2, false);
      var s1 := Set(cfg, Initial<string>(LruState([])), "key1", "value1", [], 0);
      var s2 := Set(cfg, s1, "key2", "value2", [], 0);
      var (r1, s3) := Get(cfg, s2, "key1", 0);
      var (r2, s4) := Get(cfg, s3, "key1", 3);
      var s5 := Set(cfg, s4, "key3", "value3", [], 3);
      var (r3, s6) := Get(cfg, s5, "key2", 3);
      && r1 == Some("value1")
      && r2 == None && s4.counters == Counters(1, 0, 1)
      && r3 == None && s6.counters == Counters(1, 0, 2)
      && s6.items.Keys == {"key3"}
  {
    TestRunBeforeSleep();
    TestRunAfterSleep();
  }

  /** The test's two writes at instant 0 and the read that hits. */
  lemma TestRunBeforeSleep()
    ensures
      var cfg := Config(2, 2, false);
      var s1 := Set(cfg, Initial<string>(LruState([])), "key1", "value1", [], 0);
      var s2 := Set(cfg, s1, "key2", "value2", [], 0);
      Get(cfg, s2, "key1", 0) == (Some("value1"), TestRunAtSleep())
  {
    var cfg := Config(2, 2, false);
    var s1 := Set(cfg, Initial<string>(LruState([])), "key1", "value1", [], 0);
    assert RemoveFirst([], "key1") == [];
    assert s1.policy == LruState(["key1"]);
    assert s1.items == map["key1" := CacheItem("value1", 2, 2)];
    var s2 := Set(cfg, s1, "key2", "value2", [], 0);
    assert RemoveFirst(["key1"], "key2") == ["key1"];
    assert s2.policy == LruState(["key2", "key1"]);
    assert s2.items == map["key1" := CacheItem("value1", 2, 2), "key2" := CacheItem("value2", 2, 2)];
  }

  /** The test's cache just before it sleeps. */
  function TestRunAtSleep(): (s: CacheState<string>)
    ensures s.items.Keys == {"key1", "key2"}
  {
    CacheState(
      map["key1" := CacheItem("value1", 2, 2), "key2" := CacheItem("value2", 2, 2)],
      LruState(["key2", "key1"]), Counters(1, 0, 0), [])
  }

  /** After the sleep, at instant 3: key1 expires on read, key3 is written without eviction, key2 expires on read. */
  lemma TestRunAfterSleep()
    ensures
      var cfg := Config(2, 2, false);
      var (r2, s4) := Get(cfg, TestRunAtSleep(), "key1", 3);
      var s5 := Set(cfg, s4, "key3", "value3", [], 3);
      var (r3, s6) := Get(cfg, s5, "key2", 3);
      && r2 == None && s4.counters == Counters(1, 0, 1)
      && r3 == None && s6.counters == Counters(1, 0, 2)
      && s6.items.Keys == {"key3"}
  {
    var cfg := Config(2, 2, false);
    var (r2, s4) := Get(cfg, TestRunAtSleep(), "key1", 3);
    assert s4.items == map["key2" := CacheItem("value2", 2, 2)];
    assert s4.counters == Counters(1, 0, 1);
    var s5 := Set(cfg, s4, "key3", "value3", [], 3);
    assert s5.items == map["key2" := CacheItem("value2", 2, 2), "key3" := CacheItem("value3", 5, 2)];
    assert s5.counters == Counters(1, 0, 1);
  }

  /**
    LRU at capacity 2: write A, write B, read A, write C. The read does not
    refresh A's recency, so A (the least recently written) is the victim.
   */
  lemma LruReadDoesNotRefresh()
    ensures
      var cfg := Config(10, 2, true);
      var s1 := Set(cfg, Initial<int>(LruState([])), "A", 1, [], 0);
      var s2 := Set(cfg, s1, "B", 2, [], 0);
      var (r, s3) := Get(cfg, s2, "A", 0);
      var s4 := Set(cfg, s3, "C", 3, [], 0);
      && r == Some(1)
      && s4.items.Keys == {"B", "C"}
      && s4.evictions == [("A", 1)]
  {
    var cfg := Config(10, 2, true);
    var s1 := Set(cfg, Initial<int>(LruState([])), "A", 1, [], 0);
    assert RemoveFirst([], "A") == [];
    assert s1.policy == LruState(["A"]);
    assert s1.items == map["A" := CacheItem(1, 10, 10)];
    assert s1.counters == Counters(0, 0, 0) && s1.evictions == [];
    var s2 := Set(cfg, s1, "B", 2, [], 0);
    assert RemoveFirst(["A"], "B") == ["A"];
    assert s2.policy == LruState(["B", "A"]);
    assert s2.items == map["A" := CacheItem(1, 10, 10), "B" := CacheItem(2, 10, 10)];
    var (r, s3) := Get(cfg, s2, "A", 0);
    assert s3.policy == s2.policy && s3.items == s2.items && s3.evictions == [];
    assert s3.policy.Evict() == ("A", LruState(["B"]));
    var s4 := Set(cfg, s3, "C", 3, [], 0);
    assert s4.items == map["B" := CacheItem(2, 10, 10), "C" := CacheItem(3, 10, 10)];
  }

  /** FIFO at capacity 2: writing A, B, C evicts A, the oldest. */
  lemma FifoEvictsOldest()
    ensures
      var cfg := Config(10, 2, true);
      var s1 := Set(cfg, Initial<int>(FifoState([])), "A", 1, [], 0);
      var s2 := Set(cfg, s1, "B", 2, [], 0);
      var s3 := Set(cfg, s2, "C", 3, [], 0);
      && s3.items.Keys == {"B", "C"}
      && s3.evictions == [("A", 1)]
      && s3.counters.expired == 1
  {
  }

  /** LIFO at capacity 2: writing A, B, C evicts B, the most recent. */
  lemma LifoEvictsNewest()
    ensures
      var cfg := Config(10, 2, true);
      var s1 := Set(cfg, Initial<int>(LifoState([])), "A", 1, [], 0);
      var s2 := Set(cfg, s1, "B", 2, [], 0);
      var s3 := Set(cfg, s2, "C", 3, [], 0);
      && s3.items.Keys == {"A", "C"}
      && s3.evictions == [("B", 2)]
  {
  }

  /** The FIFO cache of the overflow run after writing "a" twice: one entry, two queued copies. */
  lemma FifoOverwriteQueuesTwice()
    ensures
      var cfg := Config(10, 2, false);
      var s1 := Set(cfg, Initial<int>(FifoState([])), "a", 1, [], 0);
      Set(cfg, s1, "a", 2, [], 0)
        == CacheState(map["a" := CacheItem(2, 10, 10)], FifoState(["a", "a"]), Counters(0, 0, 0), [])
  {
    var cfg := Config(10, 2, false);
    var s1 := Set(cfg, Initial<int>(FifoState([])), "a", 1, [], 0);
    assert [] + ["a"] == ["a"];
    assert s1 == CacheState(map["a" := CacheItem(1, 10, 10)], FifoState(["a"]), Counters(0, 0, 0), []);
    assert ["a"] + ["a"] == ["a", "a"];
  }

  /** Deleting "a" from that cache empties the store but leaves one stale "a" queued. */
  lemma FifoStaleKeyAfterDelete()
    ensures
      var cfg := Config(10, 2, false);
      var s1 := Set(cfg, Initial<int>(FifoState([])), "a", 1, [], 0);
      var s2 := Set(cfg, s1, "a", 2, [], 0);
      Delete(cfg, s2, "a") == CacheState(map[], FifoState(["a"]), Counters(0, 0, 0), [])
  {
    FifoOverwriteQueuesTwice();
    var cfg := Config(10, 2, false);
    var t2 := CacheState(map["a" := CacheItem(2, 10, 10)], FifoState(["a", "a"]), Counters(0, 0, 0), []);
    assert FirstIndex(["a", "a"], "a") == 0;
    assert RemoveFirst(["a", "a"], "a") == ["a"];
    assert t2.policy.Remove("a") == FifoState(["a"]);
    assert t2.items - {"a"} == map[];
    assert Delete(cfg, t2, "a") == CacheState(map[], FifoState(["a"]), Counters(0, 0, 0), []);
  }

  /** From that state, writing "b", "c" and "d" under capacity 2: the stale "a" is the victim and nothing is removed. */
  lemma FifoStaleVictimKeepsAll()
    ensures
      var cfg := Config(10, 2, false);
      var s3 := CacheState(map[], FifoState(["a"]), Counters(0, 0, 0), []);
      var s4 := Set(cfg, s3, "b", 3, [], 0);
      var s5 := Set(cfg, s4, "c", 4, [], 0);
      var s6 := Set(cfg, s5, "d", 5, [], 0);
      s6.items.Keys == {"b", "c", "d"}
  {
    var cfg := Config(10, 2, false);
    var s3 := CacheState(map[], FifoState(["a"]), Counters(0, 0, 0), []);
    var s4 := Set(cfg, s3, "b", 3, [], 0);
    assert ["a"] + ["b"] == ["a", "b"];
    assert s4.policy == FifoState(["a", "b"]) && s4.items.Keys == {"b"};
    var s5 := Set(cfg, s4, "c", 4, [], 0);
    assert ["a", "b"] + ["c"] == ["a", "b", "c"];
    assert s5.policy == FifoState(["a", "b", "c"]) && s5.items.Keys == {"b", "c"};
    assert s5.policy.Evict() == ("a", FifoState(["b", "c"]));
  }

  /**
    Under FIFO the LRU invariant does not hold. Overwriting "a" queues it
    twice; Delete removes one copy and leaves a stale one; at capacity that
    stale key is the victim, it is not stored, nothing is removed, and the
    store ends with three entries under a capacity of two.
   */
  lemma FifoOutgrowsCapacity()
    ensures
      var cfg := Config(10, 2, false);
      var s1 := Set(cfg, Initial<int>(FifoState([])), "a", 1, [], 0);
      var s2 := Set(cfg, s1, "a", 2, [], 0);
      var s3 := Delete(cfg, s2, "a");
      var s4 := Set(cfg, s3, "b", 3, [], 0);
      var s5 := Set(cfg, s4, "c", 4, [], 0);
      var s6 := Set(cfg, s5, "d", 5, [], 0);
      && s3.items == map[] && s3.policy == FifoState(["a"])
      && s6.items.Keys == {"b", "c", "d"}
      && |s6.items| == 3 > cfg.maxSize
  {
    FifoStaleKeyAfterDelete();
    FifoStaleVictimKeepsAll();
    var cfg := Config(10, 2, false);
    var s6 := Set(cfg, Set(cfg, Set(cfg, CacheState(map[], FifoState(["a"]), Counters(0, 0, 0), []), "b", 3, [], 0), "c", 4, [], 0), "d", 5, [], 0);
    assert |s6.items| == |s6.items.Keys| == |{"b", "c", "d"}| == 3;
  }
}
