/** Facts about integer division used by the cursor and address arithmetic. */
module Arithmetic {

  /** Division by a positive `n` is determined by quotient and remainder. */
  lemma DivModUnique(x: int, n: int, q: int, b: int)
    requires n > 0 && 0 <= b < n && x == q * n + b
    ensures x / n == q && x % n == b
  {
    var q', b' := x / n, x % n;
    assert x == q' * n + b';
    assert (q - q') * n == b' - b;
    if q > q' {
      MulAtLeast(q - q', n);
    } else if q < q' {
      MulAtLeast(q' - q, n);
    }
  }

  lemma MulAtLeast(a: int, n: int)
    requires a >= 1 && n > 0
    ensures a * n >= n
  {
    assert a * n == (a - 1) * n + n;
  }

}
