/** Products and quotients, where the verifier needs them spelt out. */
module Arithmetic {

  lemma MulAtLeast(a: nat, b: nat, m: nat)
    requires a < b
    ensures a * m + m <= b * m
  {
    assert b * m == (a + 1) * m + (b - a - 1) * m;
  }

  lemma MulMono(a: nat, b: nat, c: nat, d: nat)
    requires a <= b && c <= d
    ensures a * c <= b * d
  {
    assert b * d == a * c + (b - a) * c + b * (d - c);
  }

  lemma MulBelow(a: nat, b: nat, c: nat, d: nat)
    requires a < b && c <= d && 0 < d
    ensures a * c < b * d
  {
    MulMono(a, b - 1, c, d);
    assert b * d == (b - 1) * d + d;
  }

  /** A number has one quotient and remainder. */
  lemma MixedRadix(a: nat, b: nat, a': nat, b': nat, m: nat)
    requires b < m && b' < m && a * m + b == a' * m + b'
    ensures a == a' && b == b'
  {
    if a < a' {
      MulAtLeast(a, a', m);
    } else if a' < a {
      MulAtLeast(a', a, m);
    }
  }

  lemma QuotientIs(x: nat, d: nat, q: nat, r: nat)
    requires r < d && x == q * d + r
    ensures x / d == q && x % d == r
  {
    var q', r' := x / d, x % d;
    assert x == q' * d + r';
    MixedRadix(q, r, q', r', d);
  }

  lemma DivisionStep(x: nat, d: nat)
    requires d > 0
    ensures (x + d) / d == x / d + 1
  {
    var q, r := x / d, x % d;
    assert x + d == (q + 1) * d + r;
    QuotientIs(x + d, d, q + 1, r);
  }

  lemma {:induction false} DivisionKeepsOrder(x: nat, y: nat, d: nat)
    requires d > 0 && x <= y
    ensures x / d <= y / d
    decreases y
  {
    if y < d {
      QuotientIs(x, d, 0, x);
      QuotientIs(y, d, 0, y);
    } else if x < d {
      QuotientIs(x, d, 0, x);
    } else {
      DivisionStep(x - d, d);
      DivisionStep(y - d, d);
      DivisionKeepsOrder(x - d, y - d, d);
    }
  }
}
