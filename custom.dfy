/**
  eviction/custom.go: a stub policy with no state. `Add` and `Remove` do
  nothing and `Evict` always names the empty key.
 */
module Custom {

  datatype CustomEviction = CustomEviction {

    /** No observable effect: the policy value is unchanged. */
    function Add(key: string): (c: CustomEviction)
      ensures c == this
    {
      this
    }

    /** No observable effect: the policy value is unchanged. */
    function Remove(key: string): (c: CustomEviction)
      ensures c == this
    {
      this
    }

    /** Always the empty key, whatever was added before. */
    function Evict(): (victim: string)
      ensures victim == ""
    {
      ""
    }
  }

  /** NewCustom: the one stub value. */
  function NewCustom(): (c: CustomEviction)
    ensures c.Evict() == ""
  {
    CustomEviction
  }
}
