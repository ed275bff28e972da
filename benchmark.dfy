/**
  The instrumentation sink of benchmark/benchmark.go: three counters that the
  cache engine bumps. The mutex that guards them is not modelled; every
  method is one atomic step.
 */
module Benchmark {

  class Benchmark {
    var hits: nat
    var misses: nat
    var expired: nat

    /** NewBenchmark: all three counters start at zero. */
    constructor ()
      ensures hits == 0 && misses == 0 && expired == 0
    {
      hits, misses, expired := 0, 0, 0;
    }

    method RecordHit()
      modifies this
      ensures hits == old(hits) + 1
      ensures misses == old(misses) && expired == old(expired)
    {
      hits := hits + 1;
    }

    method RecordMiss()
      modifies this
      ensures misses == old(misses) + 1
      ensures hits == old(hits) && expired == old(expired)
    {
      misses := misses + 1;
    }

    method RecordExpiration()
      modifies this
      ensures expired == old(expired) + 1
      ensures hits == old(hits) && misses == old(misses)
    {
      expired := expired + 1;
    }

    /** The getters read a counter; they have no modifies clause, so they change nothing. */
    method Hits() returns (n: nat)
      ensures n == hits
    {
      n := hits;
    }

    method Misses() returns (n: nat)
      ensures n == misses
    {
      n := misses;
    }

    method Expired() returns (n: nat)
      ensures n == expired
    {
      n := expired;
    }
  }
}
