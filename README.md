# memCache cache engine and eviction policies, in Dafny

This project models the core of memCache, an in-process key/value cache
written in Go. The cache keeps a TTL per entry and lets the caller plug in an
eviction policy. The model covers:

- the cache engine (`cache/cache.go`): a store of `CacheItem`s with lazy
  expiry on `Get`, insert-time eviction on `Set` and `BatchSet` delegated to
  the policy, `Delete`, a read-only `BatchGet`, and the `Items`/`SetItems`
  snapshot and restore;
- the eviction policies (`eviction/*.go`): FIFO, LIFO and LRU as classes over
  key sequences (index 0 is the front of the Go list), the no-op custom
  policy, the `EvictionPolicy` capability set and its selector;
- the instrumentation counters (`benchmark/benchmark.go`).

Each operation is one atomic step with an explicit integer instant `now`.
`time.Now().Add(ttl)` becomes `now + ttl` and `time.Now().After(t)` becomes
`now > t`. Values are a type parameter `V`. The `onEvicted` callback is a flag
(set or nil) plus a ghost log of the `(key, value)` pairs it was called with.

Layout:

- `key_seq.dfy` (`KeySeq`): frontmost and backmost search and single-element
  removal on key sequences.
- `fifo.dfy`, `lifo.dfy`, `lru.dfy`, `custom.dfy`: the four policies.
  FIFO, LIFO and LRU are classes whose methods update their list in place.
- `policy.dfy` (`Policy`): `PolicyState` is the abstract value of any policy.
  `Policy` is a tagged union of the concrete policy objects, and its methods
  dispatch like the Go interface. `NewEvictionPolicy` is the selector.
- `benchmark.dfy` (`Benchmark`): the counters class.
- `cache_spec.dfy` (`CacheSpec`): the engine's behaviour as pure functions on a
  `CacheState` (store, policy state, counters, callback log).
- `cache.dfy` (`Cache`): the `Cache` class. Each method is proved to move its
  `State()` exactly as the matching `CacheSpec` function says.
- `policy_props.dfy`, `cache_props.dfy`: the properties, as lemmas on the
  abstract functions.
- `scenarios.dfy`: concrete runs, including the sequence of
  `cache/cache_test.go`.

Behaviour of the code that a reader might expect otherwise, as the model
states it:

- **Expiry boundary.** `Get` tests `time.Now().After(item.ExpiresAt)`
  (cache/cache.go:81), so an entry expires only once `now > expiresAt`, not
  at `now == expiresAt`. `BatchGet` tests `Before` (cache/cache.go:178) and
  already misses at `now == expiresAt` (`CacheProperties.ExpiryBoundary`).
- **LRU recency.** Only insertions move a key to the front of the LRU list.
  `Get` (cache/cache.go:66-106) never calls `policy.Add`, so a read does not
  refresh recency: writing A, B, reading A and writing C evicts A
  (`Scenarios.LruReadDoesNotRefresh`).
- **Expiry counters.** An expired read calls only `RecordExpiration`
  (cache/cache.go:90-93), never `RecordMiss`. It raises `expired` but not
  `misses` (`CacheProperties.GetExpired`, `Scenarios.CacheTestRun`).
- **Policy/store agreement.** The policy's key set equals the store's only
  under LRU (`CacheProperties.StoreKeepsLru` and its siblings). FIFO and LIFO
  `PushBack` the key on every write, overwrites included
  (eviction/fifo.go:16, eviction/lifo.go:16). The stale copy can make the
  store outgrow `maxSize` (`Scenarios.FifoOutgrowsCapacity`).
- **Capacity argument.** `NewCache` (cache/cache.go:27-36) does not check
  `maxSize`, so the model accepts any value. The capacity bound is proved for
  `maxSize >= 1`.
- **Unsupported selector.** `NewEvictionPolicy` panics on any other type
  (eviction/policy.go:23-24), with no fallback policy. The panic is modelled
  as `None`.

## Model

| member | source | states |
|---|---|---|
| KeySeq.RemoveFirst | eviction/fifo.go:19-26 | removing the frontmost match leaves an absent key's list unchanged and shortens a list holding the key by exactly one |
| KeySeq.RemoveLast | eviction/lifo.go:19-26 | removing the backmost match leaves an absent key's list unchanged and shortens a list holding the key by exactly one |
| KeySeq.RemoveFirstContents | eviction/fifo.go:19-26 | removing the frontmost match takes exactly one copy of the key out of the list's contents and keeps every other element |
| KeySeq.RemoveLastContents | eviction/lifo.go:19-26 | removing the backmost match takes exactly one copy of the key out of the list's contents and keeps every other element |
| Benchmark.Benchmark.constructor | benchmark/benchmark.go:12-14 | a new Benchmark starts with hits, misses and expired all zero |
| Benchmark.Benchmark.RecordHit | benchmark/benchmark.go:16-20 | hits rises by exactly one; misses and expired are unchanged |
| Benchmark.Benchmark.RecordMiss | benchmark/benchmark.go:22-26 | misses rises by exactly one; hits and expired are unchanged |
| Benchmark.Benchmark.RecordExpiration | benchmark/benchmark.go:28-32 | expired rises by exactly one; hits and misses are unchanged |
| Benchmark.Benchmark.Hits | benchmark/benchmark.go:34-38 | returns the current hits count and modifies nothing |
| Benchmark.Benchmark.Misses | benchmark/benchmark.go:40-44 | returns the current misses count and modifies nothing |
| Benchmark.Benchmark.Expired | benchmark/benchmark.go:46-50 | returns the current expired count and modifies nothing |
| Fifo.FIFO.constructor | eviction/fifo.go:9-13 | NewFIFO yields an empty queue |
| Fifo.FIFO.Add | eviction/fifo.go:15-17 | the key is appended at the back even if already queued, so the queue grows by exactly one |
| Fifo.FIFO.Remove | eviction/fifo.go:19-26 | the front-to-back scan removes only the frontmost occurrence, and an absent key leaves the queue unchanged |
| Fifo.FIFO.Evict | eviction/fifo.go:28-36 | a non-empty queue loses its front element, which is returned; an empty queue returns "" and is unchanged |
| Lifo.LIFO.constructor | eviction/lifo.go:9-13 | NewLIFO yields an empty stack |
| Lifo.LIFO.Add | eviction/lifo.go:15-17 | the key is pushed at the back even if already present, so the stack grows by exactly one |
| Lifo.LIFO.Remove | eviction/lifo.go:19-26 | the back-to-front scan removes only the backmost occurrence, and an absent key leaves the stack unchanged |
| Lifo.LIFO.Evict | eviction/lifo.go:28-36 | a non-empty stack loses its back (most recently added) element, which is returned; an empty stack returns "" and is unchanged |
| Lru.LRU.constructor | eviction/lru.go:10-15 | NewLRU yields an empty list and index that satisfy the index invariant |
| Lru.LRU.Add | eviction/lru.go:17-24 | an untracked key is pushed onto the front and indexed; a tracked key moves to the front without duplication and the length is unchanged; the index invariant is kept |
| Lru.LRU.Remove | eviction/lru.go:26-31 | a tracked key leaves both list and index, the others keep their order; an untracked key changes nothing |
| Lru.LRU.Evict | eviction/lru.go:33-42 | a non-empty list loses its back element, which is returned and dropped from the index; an empty list returns "" and is unchanged |
| Custom.CustomEviction.Add | eviction/custom.go:13-15 | Add has no observable effect |
| Custom.CustomEviction.Remove | eviction/custom.go:17-19 | Remove has no observable effect |
| Custom.CustomEviction.Evict | eviction/custom.go:21-24 | Evict always returns "" |
| Custom.NewCustom | eviction/custom.go:7-11 | NewCustom yields the stub, whose Evict returns "" |
| Policy.Policy.Add | eviction/policy.go:7-11 | dispatches Add to the selected policy, which moves its abstract state by PolicyState.Add |
| Policy.Policy.Remove | eviction/policy.go:7-11 | dispatches Remove to the selected policy, which moves its abstract state by PolicyState.Remove |
| Policy.Policy.Evict | eviction/policy.go:7-11 | dispatches Evict to the selected policy; the victim and the new state are those of PolicyState.Evict |
| Policy.NewEvictionPolicy | eviction/policy.go:13-26 | the FIFO, LRU and LIFO selectors yield a fresh empty policy of that kind whatever the sample holds; the CustomEviction selector yields the stub; exactly the other selectors fail (the panic) |
| PolicyProperties.LruAdd | eviction/lru.go:17-24 | LRU Add keeps the list duplicate-free, puts the key at the front, adds it to the tracked set, keeps the length for a tracked key and pushes onto the unchanged list otherwise |
| PolicyProperties.LruRemove | eviction/lru.go:26-31 | LRU Remove keeps the list duplicate-free, drops the key from the tracked set, removes only its position, and changes nothing for an untracked key |
| PolicyProperties.LruEvict | eviction/lru.go:33-42 | LRU Evict on a non-empty list names the back (least recently added or moved) key and drops it from the tracked set; on an empty list it names "" and changes nothing |
| PolicyProperties.LruTrackedCount | eviction/lru.go:5-8 | in a well-formed LRU, the number of indexed keys equals the list length |
| PolicyProperties.EvictEmpty | eviction/policy.go:10 | every variant's Evict with nothing tracked names "" and changes nothing |
| PolicyProperties.EvictTakesOneTrackedKey | eviction/policy.go:10 | every variant's Evict with something tracked names a tracked key and drops exactly one copy of it |
| PolicyProperties.RemoveTakesOneCopy | eviction/fifo.go:19-26 | FIFO and LIFO Remove take exactly one copy of the key out, and an untracked key changes nothing |
| PolicyProperties.AddAllAppends | eviction/fifo.go:15-17 | a run of FIFO or LIFO Adds appends the whole run, duplicates included |
| PolicyProperties.FifoDrains | eviction/fifo.go:28-36 | evicting a whole FIFO queue returns its keys front to back and empties it |
| PolicyProperties.FifoEvictsInAddOrder | eviction/fifo.go:15-36 | starting from an empty queue, successive FIFO evictions return the keys in the order they were added |
| PolicyProperties.LifoAddThenEvict | eviction/lifo.go:15-36 | LIFO Add(k) followed at once by Evict returns k and restores the previous stack |
| PolicyProperties.CustomIsInert | eviction/custom.go:13-24 | the stub ignores Add and Remove and its Evict names "" |
| Cache.Cache.constructor | cache/cache.go:27-36 | NewCache yields an empty store, zero counters, an empty callback log and the given TTL, capacity, policy and callback |
| Cache.Cache.MakeRoom | cache/cache.go:42-51 | the capacity step at the head of an insertion moves the state exactly as CacheSpec.MakeRoom: when full, evict the policy's victim if it is stored, count it as expired and report it |
| Cache.Cache.Store | cache/cache.go:42-63 | the shared insertion step moves the state exactly as CacheSpec.Store: capacity step, write, policy Add |
| Cache.Cache.Set | cache/cache.go:38-64 | Set moves the state exactly as CacheSpec.Set, with the TTL argument resolved first |
| Cache.Cache.Get | cache/cache.go:66-106 | Get returns and moves the state exactly as CacheSpec.Get: a miss, a lazy expiry or a hit |
| Cache.Cache.Delete | cache/cache.go:108-119 | Delete moves the state exactly as CacheSpec.Delete and never touches the counters |
| Cache.Cache.Hits | cache/cache.go:121-125 | returns the current hits counter |
| Cache.Cache.Misses | cache/cache.go:127-131 | returns the current misses counter |
| Cache.Cache.Expired | cache/cache.go:133-137 | returns the current expired counter |
| Cache.Cache.BatchSet | cache/cache.go:140-168 | the batch is inserted in an iteration order that lists every key once, with one TTL for all pairs, as CacheSpec.BatchSet |
| Cache.Cache.BatchGet | cache/cache.go:171-186 | the store, policy and callback log are unchanged; the result is exactly the requested keys stored with now before expiry; one hit or miss is counted per key |
| Cache.Cache.Items | cache/cache.go:189-198 | the copy built entry by entry equals the store, and the store is not modified |
| Cache.Cache.SetItems | cache/cache.go:201-209 | every given entry is written verbatim and added to the policy, in an iteration order that lists every key once |
| CacheProperties.InitialLru | cache/cache.go:27-36 | a cache built around a fresh LRU starts with the policy tracking the (empty) store, within capacity |
| CacheProperties.MakeRoomLru | cache/cache.go:42-51 | under LRU the capacity step keeps policy and store in agreement, only removes keys, and frees exactly one slot when it runs with maxSize >= 1 |
| CacheProperties.StoreTracksStore | cache/cache.go:42-63 | under LRU one insertion keeps the tracked key set equal to the store's key set |
| CacheProperties.StoreWithinCapacity | cache/cache.go:42-63 | under LRU one insertion keeps the store within maxSize when maxSize >= 1 |
| CacheProperties.StoreKeepsLru | cache/cache.go:42-63 | one insertion preserves the LRU invariant (tracked keys equal stored keys, size at most maxSize) |
| CacheProperties.SetKeepsLru | cache/cache.go:38-64 | Set preserves the LRU invariant |
| CacheProperties.StoreAllKeepsLru | cache/cache.go:149-167 | the insertion loop of BatchSet preserves the LRU invariant for every iteration order |
| CacheProperties.BatchSetKeepsLru | cache/cache.go:140-168 | BatchSet preserves the LRU invariant for every iteration order |
| CacheProperties.DeleteKeepsLru | cache/cache.go:108-119 | Delete preserves the LRU invariant |
| CacheProperties.GetKeepsLru | cache/cache.go:81-100 | Get, its expiry path included, preserves the LRU invariant |
| CacheProperties.SetItemsKeepsLruTracking | cache/cache.go:201-209 | under LRU SetItems keeps the tracked key set equal to the store's key set |
| CacheProperties.StoreWritesEntry | cache/cache.go:42-63 | one insertion stores the key with ExpiresAt = now + TTL, touches no other entry, adds no other key, grows the store by at most one and lowers no counter |
| CacheProperties.SetWritesEntry | cache/cache.go:53-63 | Set stores the value under the first TTL argument if given, else the default, with ExpiresAt = now + TTL, and grows the store by at most one |
| CacheProperties.SetBelowCapacity | cache/cache.go:42-63 | below capacity, Set only writes the entry and calls policy Add; counters and callback log are unchanged |
| CacheProperties.SetAtCapacity | cache/cache.go:42-51 | at or over capacity, Set takes exactly one Evict even for a stored key; a stored victim is deleted, counted once as expired and reported once; any other victim leaves store, counters and log alone |
| CacheProperties.StoreAllEntries | cache/cache.go:149-167 | after the BatchSet loop every stored batch key holds its value under the one TTL, other entries are untouched, the last key is stored, growth is at most one per pair, and no counter falls |
| CacheProperties.BatchSetEntries | cache/cache.go:140-168 | after BatchSet each stored batch key holds its value with the TTL resolved once before the loop; other entries are untouched; the store grows by at most the batch size |
| CacheProperties.GetAbsent | cache/cache.go:73-78 | Get of an absent key returns not-found and adds one to misses only |
| CacheProperties.GetLive | cache/cache.go:103-105 | Get of a live entry returns its value and adds one to hits only; store and policy (LRU recency included) are unchanged |
| CacheProperties.GetExpired | cache/cache.go:81-100 | Get of an entry with now after ExpiresAt returns not-found, removes the entry, calls policy Remove, adds one to expired (not misses) and fires onEvicted once |
| CacheProperties.GetFoundIffLive | cache/cache.go:73-105 | Get finds a key exactly when it is stored and now is not after its expiry, and then returns its value |
| CacheProperties.DeletePresent | cache/cache.go:112-118 | Delete of a stored key removes it, calls policy Remove and fires onEvicted once, without touching the counters |
| CacheProperties.DeleteAbsent | cache/cache.go:112 | Delete of an absent key changes nothing |
| CacheProperties.DeleteIdempotent | cache/cache.go:108-119 | a second Delete of the same key is a no-op, so onEvicted fires at most once |
| CacheProperties.BatchGetResultExact | cache/cache.go:175-185 | a key is in BatchGet's result exactly when it was requested, is stored and now is strictly before its expiry, and it maps to its value |
| CacheProperties.BatchGetCountsEveryKey | cache/cache.go:176-184 | each requested key adds one to hits or misses, expired never moves, and no counter falls |
| CacheProperties.ExpiryBoundary | cache/cache.go:81 | at now == ExpiresAt Get reports a hit while BatchGet reports a miss |
| CacheProperties.SetItemsOverwrites | cache/cache.go:201-209 | SetItems yields the old store overwritten by the given entries verbatim (no expiry recomputation, no capacity check) and leaves counters and callback log unchanged |
| CacheProperties.CountersNeverDecrease | benchmark/benchmark.go:5-50 | Set, Get, Delete, BatchSet and BatchGet never lower any counter |
| CacheProperties.CustomSetNeverEvicts | cache/cache.go:42-44 | with the stub policy, when "" is not stored, Set only writes its entry: nothing is evicted and counters and log are unchanged |
| Scenarios.CacheTestRun | cache/cache_test.go:11-29 | the test's run with explicit instants: hit at 0; at 3 key1 has expired with one expiration and no miss; Set key3 evicts nothing; key2 has expired too |
| Scenarios.LruReadDoesNotRefresh | cache/cache.go:103-105 | under LRU with capacity 2, writing A, B, reading A and writing C evicts A, because a read does not refresh recency |
| Scenarios.FifoEvictsOldest | eviction/fifo.go:28-36 | under FIFO with capacity 2, writing A, B, C evicts A |
| Scenarios.LifoEvictsNewest | eviction/lifo.go:28-36 | under LIFO with capacity 2, writing A, B, C evicts B |
| Scenarios.FifoOutgrowsCapacity | cache/cache.go:42-58 | under FIFO, overwrite then Delete leaves a stale queued key; Evict later returns it, nothing is removed and the store grows to 3 entries under maxSize 2 |

## Left out

- Locking: the `sync.RWMutex` of `Cache`, the read-to-write lock upgrade and
  re-check in `Get`, and the mutex of `Benchmark` are not modelled. Every
  operation is one atomic step, so the re-check in `Get` becomes a single
  expiry test.
- The wall clock: `now` is an argument, one instant per operation. In Go,
  `BatchSet` reads the clock once per pair (cache/cache.go:163), `BatchGet`
  once per key (cache/cache.go:178), and `Get` twice, before and after the
  lock upgrade (cache/cache.go:81 and :87). The model uses the same `now` for
  all of them.
- Integer widths: `now + ttl` (Go `time.Time` plus `time.Duration`) and the
  `int` counters are unbounded here, so their 64-bit overflow is not modelled.
- `onEvicted` as arbitrary code: only whether it is set and the sequence of
  its calls are modelled. A callback that re-enters the cache is not.
- Map iteration order: `BatchSet`, `Items` and `SetItems` range over Go maps
  in an unspecified order. `BatchSet` and `SetItems` report the order they
  chose as a ghost result, and the properties hold for every order.
- `interface{}` values and the `back.Value.(string)` assertions: values are a
  type parameter, and the lists hold only keys, so the assertions cannot fail.
- One policy object shared by two caches (as `sample/main.go` does): the model
  does not reason about two caches updating one policy.
- Custom.CustomEviction.Add and Custom.CustomEviction.Remove: the stub has a
  single value, so "unchanged" is all their contracts can say.
- persistence/file_persistence.go, persistence/persistable.go: file I/O and
  JSON encoding. Resetting `ExpiresAt` to `now + TTL` on load is not part of
  this model; `SetItems` takes the reloaded entries as given.
- sample/main.go: demonstration wiring with printing and file I/O.
