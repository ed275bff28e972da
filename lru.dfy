/**
  eviction/lru.go: a list of keys, most recently added at the front, plus an
  index of the keys it holds. `Add` moves or pushes the key to the front,
  `Remove` takes it out of both, `Evict` pops the back.
 */
module Lru {
  import opened KeySeq

  class LRU {
    /** The `container/list` queue, most recently added or moved key at index 0. */
    var queue: seq<string>
    /** The `cacheKeys` index; the element pointers it maps to are positions in `queue`. */
    var cacheKeys: set<string>

    /** The index holds exactly the listed keys, and no key is listed twice. */
    ghost predicate Valid()
      reads this
    {
      cacheKeys == Elems(queue) && NoDups(queue)
    }

    /** NewLRU: an empty list and an empty index. */
    constructor ()
      ensures Valid() && queue == []
    {
      queue := [];
      cacheKeys := {};
    }

    /**
      Moves a tracked key to the front (the length is unchanged) or pushes an
      untracked one onto the front and indexes it.
     */
    method Add(key: string)
      requires Valid()
      modifies this
      ensures Valid()
      ensures queue == [key] + RemoveFirst(old(queue), key)
      ensures key !in old(cacheKeys) ==> queue == [key] + old(queue)
      ensures key in old(cacheKeys) ==> |queue| == |old(queue)|
      ensures cacheKeys == old(cacheKeys) + {key}
    {
      RemoveFirstNoDups(queue, key);
      if key in cacheKeys {
        // MoveToFront
        queue := [key] + RemoveFirst(queue, key);
        return;
      }
      queue := [key] + queue;
      cacheKeys := cacheKeys + {key};
    }

    /** Takes a tracked key out of the list and the index; an untracked key changes nothing. */
    method Remove(key: string)
      requires Valid()
      modifies this
      ensures Valid()
      ensures queue == RemoveFirst(old(queue), key)
      ensures cacheKeys == old(cacheKeys) - {key}
      ensures key !in old(cacheKeys) ==> queue == old(queue)
    {
      RemoveFirstNoDups(queue, key);
      if key in cacheKeys {
        queue := RemoveFirst(queue, key);
        cacheKeys := cacheKeys - {key};
      }
    }

    /**
      Pops the back element (the least recently added or moved key) and drops
      it from the index; on an empty list returns "" and changes nothing.
     */
    method Evict() returns (victim: string)
      requires Valid()
      modifies this
      ensures Valid()
      ensures old(queue) == [] ==> victim == "" && queue == [] && cacheKeys == {}
      ensures old(queue) != [] ==>
        && victim == old(queue)[|old(queue)| - 1]
        && queue == old(queue)[..|old(queue)| - 1]
        && cacheKeys == old(cacheKeys) - {victim}
    {
      if queue != [] {
        victim := queue[|queue| - 1];
        RemoveAtNoDups(queue, |queue| - 1);
        queue := queue[..|queue| - 1];
        cacheKeys := cacheKeys - {victim};
        return;
      }
      victim := "";
    }
  }
}
