/** Minimum and maximum, products, quotients and remainders. */
module Arithmetic {

  function Max(a: int, b: int): int { if a < b then b else a }

  function Min(a: int, b: int): int { if b < a then b else a }

  lemma MulAtLeast(d: int, n: nat)
    ensures d >= 1 ==> d * n >= n
    ensures d <= -1 ==> d * n <= 0 - n
  {
    if d >= 1 {
      assert d * n == (d - 1) * n + n && (d - 1) * n >= 0;
    } else if d <= -1 {
      assert d * n == (d + 1) * n - n && (-1 - d) * n >= 0;
    }
  }

  lemma PositiveProduct(a: nat, b: nat)
    ensures a * b >= 0 && (a >= 1 && b >= 1 ==> a * b >= 1)
  {
    MulAtLeast(a, b);
  }

  /** Division with remainder is unique. */
  lemma DivMod(x: int, q: int, r: nat, n: nat)
    requires r < n && x == q * n + r
    ensures x / n == q && x % n == r
  {
    var q', r' := x / n, x % n;
    assert x == q' * n + r';
    assert (q - q') * n == q * n - q' * n;
    MulAtLeast(q - q', n);
  }
}
