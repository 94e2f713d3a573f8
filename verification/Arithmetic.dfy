/** The few facts about products and quotients the solver has to be told. */
module Arithmetic {

  lemma MulLe(a: int, b: int, c: int)
    requires a <= b && 0 <= c
    ensures a * c <= b * c
  {}

  /** The quotient is the only integer within one divisor of the dividend. */
  lemma DivUnique(a: int, d: int, q: int)
    requires 0 < d && q * d <= a < q * d + d
    ensures a / d == q
  {
    var p := a / d;
    assert p * d <= a < p * d + d;
    if p < q {
      MulLe(p + 1, q, d);
    } else if q < p {
      MulLe(q + 1, p, d);
    }
  }

  lemma DivAdd(a: int, d: int, k: int)
    requires 0 < d
    ensures (a + k * d) / d == a / d + k
  {
    var q := a / d;
    assert q * d <= a < q * d + d;
    assert (q + k) * d == q * d + k * d;
    DivUnique(a + k * d, d, q + k);
  }

  lemma DivLe(a: int, b: int, d: int)
    requires 0 < d && a <= b
    ensures a / d <= b / d
  {
    var p, q := a / d, b / d;
    assert p * d <= a && b < q * d + d;
    if q < p {
      MulLe(q + 1, p, d);
    }
  }
}
