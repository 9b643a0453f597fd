/** Powers, and facts about products and quotients that the solver does not find among others. */
module Arith {

  lemma MulLe(a: nat, b: nat, c: nat)
    requires a <= b
    ensures a * c <= b * c
  {}

  lemma MulSplit(a: int, b: int, c: int)
    ensures (a + b) * c == a * c + b * c
    ensures c * (a + b) == c * a + c * b
  {}

  lemma MulAssoc(a: int, b: int, c: int)
    ensures (a * b) * c == a * (b * c)
  {}

  /** Quotient and remainder are the only pair that fits. */
  lemma DivUnique(a: nat, b: nat, q: nat, r: nat)
    requires a == b * q + r && r < b
    ensures a / b == q && a % b == r
  {
    var q', r' := a / b, a % b;
    assert a == b * q' + r';
    if q' < q {
      MulLe(q' + 1, q, b);
      MulSplit(q', 1, b);
    } else if q' > q {
      MulLe(q + 1, q', b);
      MulSplit(q, 1, b);
    }
  }

  lemma Expand(b: int, q: int, k: int)
    ensures b * (2 * q + k) == 2 * (b * q) + b * k
  {
    MulSplit(2 * q, k, b);
  }

  lemma Horner(v: nat, d: nat, p: nat)
    requires d <= 9
    ensures (10 * v + d) * p == v * (10 * p) + d * p && d * p <= 9 * p
  {
    MulSplit(10 * v, d, p);
    MulLe(d, 9, p);
  }

  lemma LtScale(a: nat, b: nat, k: nat)
    requires k > 0
    ensures a < b <==> a * k < b * k
  {
    if a < b { MulLe(a + 1, b, k); MulSplit(a, 1, k); } else { MulLe(b, a, k); }
  }

  lemma MulSwap(a: int, b: int, c: int)
    ensures a * (b * c) == b * (a * c)
  {
    MulAssoc(a, b, c);
    MulAssoc(b, a, c);
  }

  lemma DivMod256(u: nat, v: nat, k: nat)
    requires u == v + 256 * k
    ensures u / 256 == v / 256 + k && u % 256 == v % 256
  {}

  lemma TwiceMul(r: int, k: int)
    ensures (2 * r) * k == 2 * (r * k)
  {}

  function Power(x: nat, n: nat): (r: nat)
    ensures x > 0 ==> r > 0
  {
    if n == 0 then 1 else x * Power(x, n - 1)
  }

  lemma {:induction false} PowerSquare(m: nat, n: nat)
    ensures Power(m * m, n) == Power(m, 2 * n)
  {
    if n > 0 {
      PowerSquare(m, n - 1);
      assert 2 * n == 2 * (n - 1) + 2;
      assert Power(m, 2 * n) == m * (m * Power(m, 2 * (n - 1)));
    }
  }
}
