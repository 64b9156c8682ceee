/**
  The part of the `rand` crate the generator relies on. The random number
  generator itself is not modelled: what `rng.sample_iter(&uniform)` yields is
  given as a sequence of draws, each of which lies in the distribution's range.
*/
module Rand {

  /** `rand::distributions::Uniform` over integers: the half-open interval [low, high). */
  datatype Uniform = Uniform(low: int, high: int)
  {
    predicate Contains(k: int) {
      low <= k < high
    }
  }

  /** `Uniform::from(low..high)`; `rand` panics on an empty range. */
  function UniformFrom(low: int, high: int): (u: Uniform)
    requires low < high
    ensures forall k :: u.Contains(k) <==> low <= k < high
  {
    Uniform(low, high)
  }

  /** `Uniform::from(low..=high)`: both ends are drawn. */
  function UniformFromInclusive(low: int, high: int): (u: Uniform)
    requires low <= high
    ensures forall k :: u.Contains(k) <==> low <= k <= high
    ensures u.Contains(low) && u.Contains(high)
  {
    Uniform(low, high + 1)
  }

  /**
    `draws` holds (at least) the first `n` values that `rng.sample_iter(&u)`
    produces: the iterator is endless, and every value lies in `u`.
  */
  predicate IsSampleStream(u: Uniform, draws: seq<int>, n: nat) {
    n <= |draws| && forall i :: 0 <= i < n ==> u.Contains(draws[i])
  }
}
