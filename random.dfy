/** The random source the core draws from. Every draw of the source is a
    uniform sample that is immediately compared with a threshold (0.5 for the
    initial strand, the map distance for a gap); the model keeps only the
    outcome of that comparison, as an injected stream, and counts the draws. */
module Randomness {

  class Rng {
    /** outcomes(n): whether the n-th sample fell below its threshold */
    const outcomes: nat -> bool
    /** how many samples have been drawn so far */
    var drawn: nat

    constructor (outcomes: nat -> bool)
      ensures this.outcomes == outcomes && drawn == 0
    {
      this.outcomes := outcomes;
      drawn := 0;
    }

    /** Draws one sample and reports whether it fell below its threshold. */
    method Next() returns (below: bool)
      modifies this
      ensures below == outcomes(old(drawn))
      ensures drawn == old(drawn) + 1
    {
      below := outcomes(drawn);
      drawn := drawn + 1;
    }
  }

  /** The outcomes of the n draws that start at draw number `from`. */
  function Draws(outcomes: nat -> bool, from: nat, n: nat): (d: seq<bool>)
    ensures |d| == n
    ensures forall j :: 0 <= j < n ==> d[j] == outcomes(from + j)
  {
    seq(n, j requires 0 <= j < n => outcomes(from + j))
  }
}
