/** Python's `int(x)` on a number: truncation toward zero. Reals stand for
    the source's floats exactly (no rounding). */
module Numeric {

  function TruncToInt(x: real): (r: int)
    ensures x >= 0.0 ==> r as real <= x < r as real + 1.0
    ensures x < 0.0 ==> r as real - 1.0 < x <= r as real
  {
    if x >= 0.0 then x.Floor else -((-x).Floor)
  }

  /** On an integral value truncation is the identity. */
  lemma TruncOfInt(n: int)
    ensures TruncToInt(n as real) == n
  {
  }

  /** Truncation keeps a value inside any integer range it was in. */
  lemma TruncWithin(x: real, lo: int, hi: int)
    requires lo as real <= x <= hi as real
    ensures lo <= TruncToInt(x) <= hi
  {
  }

  /** `int(ms / 1000)` for a non-negative count is integer division. */
  lemma TruncDivThousand(ms: int)
    requires ms >= 0
    ensures TruncToInt(ms as real / 1000.0) == ms / 1000
  {
    var q := ms / 1000;
    var rem := ms % 1000;
    assert ms == 1000 * q + rem;
    assert ms as real / 1000.0 == q as real + rem as real / 1000.0;
  }
}
