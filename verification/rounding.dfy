/** Upward rounding of a converted price, modelled on exact reals.
    `Math.ceil` becomes `Ceil`; IEEE-754 rounding of the product and the quotient is
    abstracted away. */
module Rounding {

  /** `Math.ceil`: the least integer not below `x`. Applied directly to a converted amount it
      is the whole-unit rounding. */
  function Ceil(x: real): (c: int)
    ensures c as real >= x
    ensures (c - 1) as real < x
  {
    var f := x.Floor;
    if f as real == x then f else f + 1
  }

  /** Rounding up to a multiple of 100 (`Math.ceil(amount / 100) * 100`). */
  function RoundUpToHundred(x: real): (r: int)
    ensures r % 100 == 0
    ensures r as real >= x
    ensures (r - 100) as real < x
  {
    var c := Ceil(x / 100.0);
    assert (100 * c) as real == 100.0 * (c as real);
    assert (100 * c - 100) as real == 100.0 * ((c - 1) as real);
    100 * c
  }

  /** Any integer at least `x` and within one unit of it is `Ceil(x)`: the ensures of
      `Ceil` pin its result down completely. */
  lemma CeilUnique(x: real, k: int)
    requires k as real >= x && (k - 1) as real < x
    ensures k == Ceil(x)
  {
  }

  /** `RoundUpToHundred(x)` is the least multiple of 100 that is at least `x`. */
  lemma RoundUpToHundredIsLeast(x: real, m: int)
    requires m % 100 == 0
    requires m as real >= x
    ensures RoundUpToHundred(x) <= m
  {
  }

  /** Rounding a whole amount to a unit leaves it unchanged. */
  lemma CeilOfWhole(n: int)
    ensures Ceil(n as real) == n
  {
  }

  /** Rounding a multiple of 100 to a hundred leaves it unchanged. */
  lemma RoundUpToHundredOfMultiple(m: int)
    requires m % 100 == 0
    ensures RoundUpToHundred(m as real) == m
  {
  }

  /** Both roundings are idempotent: quoting an already rounded amount again changes nothing. */
  lemma RoundingIdempotent(x: real)
    ensures Ceil(Ceil(x) as real) == Ceil(x)
    ensures RoundUpToHundred(RoundUpToHundred(x) as real) == RoundUpToHundred(x)
  {
    CeilOfWhole(Ceil(x));
    RoundUpToHundredOfMultiple(RoundUpToHundred(x));
  }

  /** The worked example next to the rounding code: 6123.45 becomes 6200. */
  lemma RoundUpToHundredExample()
    ensures RoundUpToHundred(6123.45) == 6200
  {
  }
}
