/** Facts about natural-number multiplication and division shared by the parser and the resamplers. */
module Arithmetic {
  lemma MulLeq(a: nat, b: nat, c: nat)
    requires a <= b
    ensures a * c <= b * c
  {
  }

  lemma DivMulLeq(a: nat, d: nat)
    requires d > 0
    ensures a / d * d <= a
  {
  }

  lemma MulDivCancel(a: nat, d: nat)
    requires d > 0
    ensures a * d / d == a
  {
    var q := a * d / d;
    DivMulLeq(a * d, d);
    if q < a {
      MulLeq(q + 1, a, d);
    } else if q > a {
      MulLeq(a + 1, q, d);
    }
  }
}
