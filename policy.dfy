/**
  eviction/policy.go: the `EvictionPolicy` capability set (`Add`, `Remove`,
  `Evict`) and the selector that builds a fresh policy.

  Go dispatches through an interface; here a policy is a tagged union of the
  four concrete policies, and its methods dispatch on the tag. `PolicyState`
  is the abstract value of a policy: which variant it is and the list of keys
  it tracks, front at index 0. Its functions say what each variant's
  operations do to that list.
 */
module Policy {
  import opened Wrappers
  import opened KeySeq
  import opened Fifo
  import opened Lifo
  import opened Lru
  import opened Custom

  datatype PolicyState =
    | FifoState(queue: seq<string>)
    | LifoState(stack: seq<string>)
    | LruState(queue: seq<string>)
    | CustomState
  {
    /** The keys the policy tracks, in list order (the stub tracks none). */
    function Keys(): seq<string>
    {
      match this
      case FifoState(q) => q
      case LifoState(s) => s
      case LruState(q) => q
      case CustomState => []
    }

    /** FIFO and LIFO push at the back; LRU moves or pushes to the front; the stub ignores it. */
    function Add(key: string): PolicyState
    {
      match this
      case FifoState(q) => FifoState(q + [key])
      case LifoState(s) => LifoState(s + [key])
      case LruState(q) => LruState([key] + RemoveFirst(q, key))
      case CustomState => CustomState
    }

    /** FIFO and LRU drop the frontmost match, LIFO the backmost; the stub ignores it. */
    function Remove(key: string): PolicyState
    {
      match this
      case FifoState(q) => FifoState(RemoveFirst(q, key))
      case LifoState(s) => LifoState(RemoveLast(s, key))
      case LruState(q) => LruState(RemoveFirst(q, key))
      case CustomState => CustomState
    }

    /** The victim and the policy after it is dropped: FIFO pops the front, LIFO and LRU the back. */
    function Evict(): (string, PolicyState)
    {
      match this
      case FifoState(q) => if q == [] then ("", this) else (q[0], FifoState(q[1..]))
      case LifoState(s) => if s == [] then ("", this) else (s[|s| - 1], LifoState(s[..|s| - 1]))
      case LruState(q) => if q == [] then ("", this) else (q[|q| - 1], LruState(q[..|q| - 1]))
      case CustomState => ("", CustomState)
    }
  }

  /** One concrete policy object, chosen once when the cache is built. */
  datatype Policy =
    | FifoPolicy(fifo: FIFO)
    | LifoPolicy(lifo: LIFO)
    | LruPolicy(lru: LRU)
    | CustomPolicy(custom: CustomEviction)
  {
    /** The objects whose fields the policy's methods update. */
    function Objects(): set<object>
    {
      match this
      case FifoPolicy(f) => {f}
      case LifoPolicy(l) => {l}
      case LruPolicy(r) => {r}
      case CustomPolicy(_) => {}
    }

    ghost predicate Valid()
      reads Objects()
    {
      LruPolicy? ==> lru.Valid()
    }

    ghost function State(): PolicyState
      reads Objects()
    {
      match this
      case FifoPolicy(f) => FifoState(f.queue)
      case LifoPolicy(l) => LifoState(l.stack)
      case LruPolicy(r) => LruState(r.queue)
      case CustomPolicy(_) => CustomState
    }

    method Add(key: string)
      requires Valid()
      modifies Objects()
      ensures Valid()
      ensures State() == old(State()).Add(key)
    {
      match this
      case FifoPolicy(f) => f.Add(key);
      case LifoPolicy(l) => l.Add(key);
      case LruPolicy(r) => r.Add(key);
      case CustomPolicy(_) =>
    }

    method Remove(key: string)
      requires Valid()
      modifies Objects()
      ensures Valid()
      ensures State() == old(State()).Remove(key)
    {
      match this
      case FifoPolicy(f) => f.Remove(key);
      case LifoPolicy(l) => l.Remove(key);
      case LruPolicy(r) => r.Remove(key);
      case CustomPolicy(_) =>
    }

    method Evict() returns (victim: string)
      requires Valid()
      modifies Objects()
      ensures Valid()
      ensures (victim, State()) == old(State()).Evict()
    {
      match this
      case FifoPolicy(f) => victim := f.Evict();
      case LifoPolicy(l) => victim := l.Evict();
      case LruPolicy(r) => victim := r.Evict();
      case CustomPolicy(c) => victim := c.Evict();
    }
  }

  /**
    The dynamic type of the sample value handed to NewEvictionPolicy. The
    type switch looks only at the type (the struct values FIFO, LRU, LIFO,
    CustomEviction), never at the sample's contents; any other type,
    pointers to those structs included, falls to the default branch.
   */
  datatype PolicyType =
    | FifoType(queue: seq<string>)
    | LruType(queue: seq<string>, cacheKeys: set<string>)
    | LifoType(stack: seq<string>)
    | CustomType
    | OtherType(description: string)

  /** NewEvictionPolicy: a fresh, empty policy of the selected kind; None stands for the panic. */
  method NewEvictionPolicy(policyType: PolicyType) returns (p: Option<Policy>)
    ensures policyType.OtherType? <==> p.None?
    ensures p.Some? ==> p.value.Valid() && fresh(p.value.Objects())
    ensures policyType.FifoType? ==> p.Some? && p.value.FifoPolicy? && p.value.State() == FifoState([])
    ensures policyType.LruType? ==> p.Some? && p.value.LruPolicy? && p.value.State() == LruState([])
    ensures policyType.LifoType? ==> p.Some? && p.value.LifoPolicy? && p.value.State() == LifoState([])
    ensures policyType.CustomType? ==> p.Some? && p.value.CustomPolicy? && p.value.State() == CustomState
  {
    match policyType
    case FifoType(_) =>
      var f := new FIFO();
      p := Some(FifoPolicy(f));
    case LruType(_, _) =>
      var r := new LRU();
      p := Some(LruPolicy(r));
    case LifoType(_) =>
      var l := new LIFO();
      p := Some(LifoPolicy(l));
    case CustomType =>
      p := Some(CustomPolicy(NewCustom()));
    case OtherType(_) =>
      p := None;
  }
}
