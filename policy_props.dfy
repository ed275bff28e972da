/**
  Properties of the eviction policies, stated on their abstract state
  `PolicyState`: the LRU index invariant, FIFO order, the LIFO round trip,
  the inert stub, and what every `Evict` returns.
 */
module PolicyProperties {
  import opened KeySeq
  import opened Policy

  /** The LRU invariant: the list has no duplicates (its key set is the index). */
  ghost predicate LruWellFormed(p: PolicyState)
  {
    p.LruState? && NoDups(p.queue)
  }

  /** The set of keys a policy tracks. */
  function Tracked(p: PolicyState): set<string>
  {
    Elems(p.Keys())
  }

  /**
    LRU `Add`: the key ends up at the front exactly once. A tracked key is
    moved (the length is unchanged); an untracked key is pushed onto the
    front of the unchanged list.
   */
  lemma LruAdd(p: PolicyState, key: string)
    requires LruWellFormed(p)
    ensures LruWellFormed(p.Add(key))
    ensures Tracked(p.Add(key)) == Tracked(p) + {key}
    ensures p.Add(key).queue[0] == key
    ensures key in p.queue ==> |p.Add(key).queue| == |p.queue|
    ensures key !in p.queue ==> p.Add(key).queue == [key] + p.queue
  {
    var r := RemoveFirst(p.queue, key);
    RemoveFirstNoDups(p.queue, key);
    assert key !in r by {
      assert key !in Elems(r);
    }
    AppendFresh([], key);
    forall i, j | 0 <= i < j < |[key] + r| ensures ([key] + r)[i] != ([key] + r)[j] {
      if i > 0 {
        assert ([key] + r)[i] == r[i - 1] && ([key] + r)[j] == r[j - 1];
      } else {
        assert ([key] + r)[j] == r[j - 1] && r[j - 1] in r;
      }
    }
    assert Elems([key] + r) == Elems(r) + {key};
  }

  /** LRU `Remove`: the key leaves the list and the index; the others keep their relative order. */
  lemma LruRemove(p: PolicyState, key: string)
    requires LruWellFormed(p)
    ensures LruWellFormed(p.Remove(key))
    ensures Tracked(p.Remove(key)) == Tracked(p) - {key}
    ensures key !in p.queue ==> p.Remove(key) == p
    ensures key in p.queue ==> p.Remove(key).queue == RemoveAt(p.queue, FirstIndex(p.queue, key))
  {
    RemoveFirstNoDups(p.queue, key);
  }

  /**
    LRU `Evict`: on a non-empty list the victim is the back element (the
    least recently added or moved key), and it leaves the list and the index;
    on an empty list the victim is "" and nothing changes.
   */
  lemma LruEvict(p: PolicyState)
    requires LruWellFormed(p)
    ensures LruWellFormed(p.Evict().1)
    ensures p.queue == [] ==> p.Evict() == ("", p)
    ensures p.queue != [] ==>
      && p.Evict().0 == p.queue[|p.queue| - 1]
      && Tracked(p.Evict().1) == Tracked(p) - {p.Evict().0}
  {
    if p.queue != [] {
      RemoveAtNoDups(p.queue, |p.queue| - 1);
      assert RemoveAt(p.queue, |p.queue| - 1) == p.queue[..|p.queue| - 1];
    }
  }

  /** Under LRU the number of tracked keys is the length of the list. */
  lemma LruTrackedCount(p: PolicyState)
    requires LruWellFormed(p)
    ensures |Tracked(p)| == |p.queue|
  {
    NoDupsCard(p.queue);
  }

  /** Every variant's `Evict` on nothing tracked names "" and changes nothing. */
  lemma EvictEmpty(p: PolicyState)
    requires p.Keys() == []
    ensures p.Evict() == ("", p)
  {
  }

  /**
    Every variant's `Evict` with something tracked names a tracked key and
    drops exactly one copy of it, except the stub, which tracks nothing.
   */
  lemma EvictTakesOneTrackedKey(p: PolicyState)
    requires p.Keys() != []
    ensures p.Evict().0 in p.Keys()
    ensures multiset(p.Evict().1.Keys()) == multiset(p.Keys()) - multiset{p.Evict().0}
  {
    var q := p.Keys();
    if p.FifoState? {
      assert q == [q[0]] + q[1..];
    } else {
      assert q == q[..|q| - 1] + [q[|q| - 1]];
    }
  }

  /** FIFO and LIFO `Remove` take one copy of the key out and keep every other element. */
  lemma RemoveTakesOneCopy(p: PolicyState, key: string)
    requires p.FifoState? || p.LifoState?
    ensures multiset(p.Remove(key).Keys()) == multiset(p.Keys()) - multiset{key}
    ensures key !in p.Keys() ==> p.Remove(key) == p
  {
    if p.FifoState? {
      RemoveFirstContents(p.queue, key);
    } else {
      RemoveLastContents(p.stack, key);
    }
  }

  /** The policy after `Add` of each key of `keys` in turn. */
  function AddAll(p: PolicyState, keys: seq<string>): PolicyState
    decreases |keys|
  {
    if keys == [] then p else AddAll(p.Add(keys[0]), keys[1..])
  }

  /** The victims of `n` successive `Evict` calls, and the policy afterwards. */
  function EvictN(p: PolicyState, n: nat): (seq<string>, PolicyState)
    decreases n
  {
    if n == 0 then ([], p)
    else
      var (v, p') := p.Evict();
      var (vs, p'') := EvictN(p', n - 1);
      ([v] + vs, p'')
  }

  /** FIFO and LIFO `Add` append without deduplicating, so a run of adds appends the whole run. */
  lemma {:induction false} AddAllAppends(p: PolicyState, keys: seq<string>)
    requires p.FifoState? || p.LifoState?
    ensures AddAll(p, keys).Keys() == p.Keys() + keys
    ensures AddAll(p, keys).FifoState? == p.FifoState? && AddAll(p, keys).LifoState? == p.LifoState?
    decreases |keys|
  {
    if keys != [] {
      AddAllAppends(p.Add(keys[0]), keys[1..]);
      assert p.Keys() + [keys[0]] + keys[1..] == p.Keys() + keys;
    }
  }

  /** Evicting a whole FIFO queue yields its keys front to back and leaves it empty. */
  lemma {:induction false} FifoDrains(q: seq<string>)
    ensures EvictN(FifoState(q), |q|) == (q, FifoState([]))
  {
    if q != [] {
      FifoDrains(q[1..]);
      assert [q[0]] + q[1..] == q;
    }
  }

  /** Starting from an empty queue, successive FIFO evictions return the keys in the order they were added. */
  lemma FifoEvictsInAddOrder(keys: seq<string>)
    ensures EvictN(AddAll(FifoState([]), keys), |keys|) == (keys, FifoState([]))
  {
    AddAllAppends(FifoState([]), keys);
    assert AddAll(FifoState([]), keys) == FifoState(keys);
    FifoDrains(keys);
  }

  /** LIFO: `Add(k)` followed at once by `Evict` returns `k` and restores the previous stack. */
  lemma LifoAddThenEvict(p: PolicyState, key: string)
    requires p.LifoState?
    ensures p.Add(key).Evict() == (key, p)
  {
    assert (p.stack + [key])[..|p.stack|] == p.stack;
  }

  /** The stub ignores `Add` and `Remove`, and its `Evict` always names "". */
  lemma CustomIsInert(key: string)
    ensures CustomState.Add(key) == CustomState
    ensures CustomState.Remove(key) == CustomState
    ensures CustomState.Evict() == ("", CustomState)
  {
  }
}
