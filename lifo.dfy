/**
  eviction/lifo.go: a stack of keys. `Add` pushes at the back without
  deduplicating, `Remove` takes out the backmost match, `Evict` pops the back.
 */
module Lifo {
  import opened KeySeq

  class LIFO {
    /** The `container/list` stack, front at index 0, top of stack at the back. */
    var stack: seq<string>

    /** NewLIFO: an empty stack. */
    constructor ()
      ensures stack == []
    {
      stack := [];
    }

    /** PushBack, duplicates allowed: the length grows by exactly one. */
    method Add(key: string)
      modifies this
      ensures stack == old(stack) + [key]
    {
      stack := stack + [key];
    }

    /** Scans from the back and removes the first element equal to `key` met, if any. */
    method Remove(key: string)
      modifies this
      ensures stack == RemoveLast(old(stack), key)
      ensures key !in old(stack) ==> stack == old(stack)
    {
      var i := |stack|;
      while i > 0
        invariant 0 <= i <= |stack|
        invariant stack == old(stack)
        invariant forall j :: i <= j < |stack| ==> stack[j] != key
      {
        if stack[i - 1] == key {
          LastIndexUnique(stack, key, i - 1);
          stack := RemoveAt(stack, i - 1);
          break;
        }
        i := i - 1;
      }
    }

    /** Pops the back element; on an empty stack returns "" and changes nothing. */
    method Evict() returns (victim: string)
      modifies this
      ensures old(stack) == [] ==> victim == "" && stack == []
      ensures old(stack) != [] ==> victim == old(stack)[|old(stack)| - 1] && stack == old(stack)[..|old(stack)| - 1]
    {
      if stack != [] {
        victim := stack[|stack| - 1];
        stack := stack[..|stack| - 1];
        return;
      }
      victim := "";
    }
  }
}
