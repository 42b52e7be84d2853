/**
 * The random source the lottery draws from (the `IRandomGenerator` wrapper).
 * Only the two-bound `Next(minValue, maxValue)` is modelled. A generator's
 * answer is given by a draw rule `pick(requests, minValue, maxValue)` over the
 * requests it has served so far, oldest first. A deterministic generator whose
 * answers depend on its seed and on the order and ranges of earlier requests
 * (the platform PRNG) is one such rule, and so is a fixed test double.
 */
module Wrapper {

  /** The half-open contract of `Next(minValue, maxValue)`: lower bound
      included, upper bound excluded, whatever was requested before. */
  ghost predicate HonoursBounds(pick: (seq<(int, int)>, int, int) -> int)
  {
    forall h: seq<(int, int)>, lo: int, hi: int :: lo < hi ==> lo <= pick(h, lo, hi) < hi
  }

  class RandomGenerator {
    /** How the generator answers a request for a value in [lo, hi), given
        the requests it has already served. */
    const pick: (seq<(int, int)>, int, int) -> int
    /** Every request served so far, as its (minValue, maxValue) pair, oldest first. */
    var Requests: seq<(int, int)>

    ghost predicate Valid()
      reads this
    {
      HonoursBounds(pick)
    }

    /** A generator with the given draw rule that has served no request yet. */
    constructor (pick: (seq<(int, int)>, int, int) -> int)
      requires HonoursBounds(pick)
      ensures Valid()
      ensures this.pick == pick && Requests == []
    {
      this.pick := pick;
      Requests := [];
    }

    /** A test double that always answers `value` when `value` lies in the
        requested range, and falls back to the lower bound otherwise. */
    constructor Fixed(value: int)
      ensures Valid()
      ensures forall h: seq<(int, int)>, lo: int, hi: int :: lo <= value < hi ==> pick(h, lo, hi) == value
      ensures Requests == []
    {
      pick := (h: seq<(int, int)>, lo: int, hi: int) => if lo <= value < hi then value else lo;
      Requests := [];
    }

    /** The value the next call `Next(lo, hi)` will return. */
    function Upcoming(lo: int, hi: int): int
      reads this
    {
      pick(Requests, lo, hi)
    }

    /** `Next(minValue, maxValue)`: one value in [minValue, maxValue); the
        request joins the history that later answers depend on. */
    method Next(minValue: int, maxValue: int) returns (r: int)
      requires Valid()
      requires minValue < maxValue
      modifies this
      ensures Valid()
      ensures minValue <= r < maxValue
      ensures r == old(Upcoming(minValue, maxValue))
      ensures Requests == old(Requests) + [(minValue, maxValue)]
    {
      r := pick(Requests, minValue, maxValue);
      Requests := Requests + [(minValue, maxValue)];
    }
  }
}
