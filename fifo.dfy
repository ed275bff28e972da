/**
  eviction/fifo.go: a queue of keys. `Add` appends at the back without
  deduplicating, `Remove` takes out the frontmost match, `Evict` pops the front.
 */
module Fifo {
  import opened KeySeq

  class FIFO {
    /** The `container/list` queue, front at index 0. */
    var queue: seq<string>

    /** NewFIFO: an empty queue. */
    constructor ()
      ensures queue == []
    {
      queue := [];
    }

    /** PushBack, even when `key` is already queued: the length grows by exactly one. */
    method Add(key: string)
      modifies this
      ensures queue == old(queue) + [key]
    {
      queue := queue + [key];
    }

    /** Scans from the front and removes the first element equal to `key`, if any. */
    method Remove(key: string)
      modifies this
      ensures queue == RemoveFirst(old(queue), key)
      ensures key !in old(queue) ==> queue == old(queue)
    {
      var i := 0;
      while i < |queue|
        invariant 0 <= i <= |queue|
        invariant queue == old(queue)
        invariant forall j :: 0 <= j < i ==> queue[j] != key
      {
        if queue[i] == key {
          FirstIndexUnique(queue, key, i);
          queue := RemoveAt(queue, i);
          break;
        }
        i := i + 1;
      }
    }

    /** Pops the front element; on an empty queue returns "" and changes nothing. */
    method Evict() returns (victim: string)
      modifies this
      ensures old(queue) == [] ==> victim == "" && queue == []
      ensures old(queue) != [] ==> victim == old(queue)[0] && queue == old(queue)[1..]
    {
      if queue != [] {
        victim := queue[0];
        queue := queue[1..];
        return;
      }
      victim := "";
    }
  }
}
