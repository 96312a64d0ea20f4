/** Division facts the solver does not find by itself. */
module Arith {

  lemma MulAtLeast(a: int, k: int)
    requires a >= 1 && k >= 0
    ensures a * k >= k
  {
    assert a * k == (a - 1) * k + k;
    assert (a - 1) * k >= 0;
  }

  /** A number written as q * k + r with 0 <= r < k has quotient q and remainder r. */
  lemma DivModUnique(x: int, k: int, q: int, r: int)
    requires 0 <= r < k && x == q * k + r
    ensures x / k == q && x % k == r
  {
    var p, s := x / k, x % k;
    assert x == p * k + s;
    assert (p - q) * k == r - s;
    if p > q {
      MulAtLeast(p - q, k);
    } else if p < q {
      MulAtLeast(q - p, k);
    }
  }
}
