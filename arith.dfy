/** Facts about integer division that the solver does not find on its own when the divisor
    is not a literal. Dafny's `/` and `%` round toward negative infinity for a positive divisor,
    as `Math.floor(a / k)` and ECMA-262's `modulo` do. */
module Arith {

  /** A positive multiple of a positive number is at least that number. */
  lemma MulAtLeast(x: int, k: int)
    requires 1 <= x && 0 < k
    ensures k <= x * k
  {
    assert x * k == (x - 1) * k + k;
    assert 0 <= (x - 1) * k;
  }

  /** Quotient and remainder are the only pair that fits. */
  lemma DivModUnique(a: int, k: int, q: int, r: int)
    requires 0 < k && 0 <= r < k && a == q * k + r
    ensures a / k == q && a % k == r
  {
    var q', r' := a / k, a % k;
    assert a == q' * k + r';
    assert (q - q') * k == r' - r;
    if q' < q {
      MulAtLeast(q - q', k);
    } else if q < q' {
      MulAtLeast(q' - q, k);
    }
  }
}
