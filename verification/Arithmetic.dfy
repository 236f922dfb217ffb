/** Shared facts about integers. */
module Arithmetic {

  function Min(a: int, b: int): int { if b < a then b else a }

  function Max(a: int, b: int): int { if b > a then b else a }

  lemma Monotone(a: int, b: int, c: int)
    ensures c >= 0 && a <= b ==> a * c <= b * c
  {
  }

  /** The quotient is the last multiple that fits. */
  lemma QuotientFits(d: int, n: int, q: int)
    requires n > 0
    ensures q <= d / n <==> q * n <= d
  {
    var r := d / n;
    assert d == r * n + d % n;
    Monotone(q, r, n);
    Monotone(r + 1, q, n);
    assert (r + 1) * n == r * n + n;
  }
}
