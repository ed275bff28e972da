/**
  Key sequences: the doubly linked lists (`container/list`) that the eviction
  policies keep, seen as sequences of keys with index 0 at the front.
  This module holds the two searches the policies perform (frontmost and
  backmost occurrence) and the removal of one element.
 */
module KeySeq {

  /** No key occurs twice. */
  ghost predicate NoDups(s: seq<string>)
  {
    forall i, j :: 0 <= i < j < |s| ==> s[i] != s[j]
  }

  /** The set of keys that occur in `s`. */
  function Elems(s: seq<string>): set<string>
  {
    set k | k in s
  }

  /** Position of the frontmost occurrence of `k`: the first match of a scan from the front. */
  function FirstIndex(s: seq<string>, k: string): (i: nat)
    requires k in s
    ensures i < |s| && s[i] == k
    ensures forall j :: 0 <= j < i ==> s[j] != k
  {
    if s[0] == k then 0 else 1 + FirstIndex(s[1..], k)
  }

  /** Position of the backmost occurrence of `k`: the first match of a scan from the back. */
  function LastIndex(s: seq<string>, k: string): (i: nat)
    requires k in s
    ensures i < |s| && s[i] == k
    ensures forall j :: i < j < |s| ==> s[j] != k
  {
    if s[|s| - 1] == k then |s| - 1 else LastIndex(s[..|s| - 1], k)
  }

  /** `s` without its element at position `i`; the other elements keep their order. */
  function RemoveAt(s: seq<string>, i: nat): (r: seq<string>)
    requires i < |s|
    ensures |r| == |s| - 1
    ensures forall j :: 0 <= j < i ==> r[j] == s[j]
    ensures forall j :: i <= j < |r| ==> r[j] == s[j + 1]
  {
    s[..i] + s[i + 1..]
  }

  /** `s` without the frontmost occurrence of `k` (unchanged when `k` does not occur). */
  function RemoveFirst(s: seq<string>, k: string): (r: seq<string>)
    ensures k !in s ==> r == s
    ensures k in s ==> |r| == |s| - 1
  {
    if k in s then
      RemoveAt(s, FirstIndex(s, k))
    else
      s
  }

  /** `s` without the backmost occurrence of `k` (unchanged when `k` does not occur). */
  function RemoveLast(s: seq<string>, k: string): (r: seq<string>)
    ensures k !in s ==> r == s
    ensures k in s ==> |r| == |s| - 1
  {
    if k in s then
      RemoveAt(s, LastIndex(s, k))
    else
      s
  }

  /** Removing the element at `i` takes one copy of it out of the contents and keeps every other element. */
  lemma RemoveAtContents(s: seq<string>, i: nat)
    requires i < |s|
    ensures multiset(RemoveAt(s, i)) == multiset(s) - multiset{s[i]}
  {
    assert s == s[..i] + [s[i]] + s[i + 1..];
  }

  /** Removing the frontmost occurrence takes exactly one copy of `k` out of the contents. */
  lemma RemoveFirstContents(s: seq<string>, k: string)
    ensures multiset(RemoveFirst(s, k)) == multiset(s) - multiset{k}
  {
    if k in s {
      RemoveAtContents(s, FirstIndex(s, k));
    }
  }

  /** Removing the backmost occurrence takes exactly one copy of `k` out of the contents. */
  lemma RemoveLastContents(s: seq<string>, k: string)
    ensures multiset(RemoveLast(s, k)) == multiset(s) - multiset{k}
  {
    if k in s {
      RemoveAtContents(s, LastIndex(s, k));
    }
  }

  /** A scan that finds `k` at `i` after passing no earlier `k` has found the frontmost occurrence. */
  lemma FirstIndexUnique(s: seq<string>, k: string, i: nat)
    requires i < |s| && s[i] == k
    requires forall j :: 0 <= j < i ==> s[j] != k
    ensures FirstIndex(s, k) == i
  {
  }

  /** A scan from the back that finds `k` at `i` has found the backmost occurrence. */
  lemma LastIndexUnique(s: seq<string>, k: string, i: nat)
    requires i < |s| && s[i] == k
    requires forall j :: i < j < |s| ==> s[j] != k
    ensures LastIndex(s, k) == i
  {
  }

  /** Without duplicates there are exactly as many distinct keys as elements. */
  lemma {:induction false} NoDupsCard(s: seq<string>)
    requires NoDups(s)
    ensures |Elems(s)| == |s|
  {
    if s != [] {
      var t := s[1..];
      assert NoDups(t);
      NoDupsCard(t);
      assert Elems(s) == Elems(t) + {s[0]};
      forall j | 0 <= j < |t| ensures t[j] != s[0] {
        assert t[j] == s[j + 1];
      }
    }
  }

  /**
    Removing an element of a duplicate-free sequence keeps it duplicate-free and
    takes exactly that key out of its key set.
   */
  lemma RemoveAtNoDups(s: seq<string>, i: nat)
    requires NoDups(s) && i < |s|
    ensures NoDups(RemoveAt(s, i))
    ensures Elems(RemoveAt(s, i)) == Elems(s) - {s[i]}
  {
    var r := RemoveAt(s, i);
    forall a, b | 0 <= a < b < |r| ensures r[a] != r[b] {
      var a' := if a < i then a else a + 1;
      var b' := if b < i then b else b + 1;
      assert r[a] == s[a'] && r[b] == s[b'] && a' < b';
    }
    forall k | k in Elems(s) - {s[i]} ensures k in Elems(r) {
      var j :| 0 <= j < |s| && s[j] == k;
      assert j != i;
      assert r[if j < i then j else j - 1] == k;
    }
    forall k | k in Elems(r) ensures k in Elems(s) - {s[i]} {
      var j :| 0 <= j < |r| && r[j] == k;
      var j' := if j < i then j else j + 1;
      assert s[j'] == k && j' != i;
    }
  }

  /** In a duplicate-free sequence, removing the one occurrence of `k` removes `k` from its key set. */
  lemma RemoveFirstNoDups(s: seq<string>, k: string)
    requires NoDups(s)
    ensures NoDups(RemoveFirst(s, k))
    ensures Elems(RemoveFirst(s, k)) == Elems(s) - {k}
  {
    if k in s {
      RemoveAtNoDups(s, FirstIndex(s, k));
    }
  }

  /** Appending a key not yet present keeps a sequence duplicate-free and adds that key. */
  lemma AppendFresh(s: seq<string>, k: string)
    requires NoDups(s) && k !in s
    ensures NoDups(s + [k])
    ensures Elems(s + [k]) == Elems(s) + {k}
  {
  }
}
