/** Integer facts the index arithmetic of the carousel and the description panel rest on. */
module Arith {

  lemma MulNonNegative(a: int, b: int)
    requires a >= 0 && b >= 0
    ensures a * b >= 0
  {
  }

  /** A non-zero multiple of a positive `n` is at least `n` away from 0. */
  lemma MultipleAwayFromZero(d: int, n: int)
    requires n > 0
    ensures d >= 1 ==> d * n >= n
    ensures d <= -1 ==> d * n <= -n
  {
    if d >= 1 {
      assert d * n == (d - 1) * n + n;
      MulNonNegative(d - 1, n);
    }
    if d <= -1 {
      assert d * n == (d + 1) * n - n;
      MulNonNegative(-(d + 1), n);
      assert (d + 1) * n == -((-(d + 1)) * n);
    }
  }

  /** The remainder is the unique `r` in [0, n) with `i == q * n + r`. */
  lemma ModUnique(i: int, n: int, q: int, r: int)
    requires n > 0 && 0 <= r < n && i == q * n + r
    ensures i % n == r
  {
    var q', r' := i / n, i % n;
    assert i == q' * n + r';
    assert (q - q') * n == r' - r;
    MultipleAwayFromZero(q - q', n);
  }
}
