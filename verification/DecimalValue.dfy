/** What `Parse` returns, as a number: the literal's value scaled and rounded half to even. */
module DecimalValue {
  import opened Arith
  import opened Numerals
  import opened DecimalText

  // ---- the value of a digit string ----

  lemma {:induction false} NumShift(v: nat, ds: string)
    requires AllDigits(ds)
    ensures Num(v, ds) == v * Pow10(|ds|) + Num(0, ds) && Num(0, ds) < Pow10(|ds|)
    decreases |ds|
  {
    if ds != "" {
      var d, t := DigitOf(ds[0]), ds[1..];
      NumShift(10 * v + d, t);
      NumShift(d, t);
      Horner(v, d, Pow10(|t|));
    }
  }

  // ---- rounding half to even ----

  /** The integer nearest to a/b, the even one of two nearest. */
  function HalfEven(a: nat, b: nat): nat
    requires b > 0
  {
    var q, r := a / b, a % b;
    if 2 * r < b then q else if 2 * r > b then q + 1 else q + q % 2
  }

  /** HalfEven is the only integer that is nearest, and even when two are. */
  lemma HalfEvenIs(a: nat, b: nat, n: nat)
    requires b > 0
    ensures n == HalfEven(a, b) <==>
      && b * (2 * n - 1) <= 2 * a <= b * (2 * n + 1)
      && (2 * a == b * (2 * n - 1) || 2 * a == b * (2 * n + 1) ==> n % 2 == 0)
  {
    var q, r := a / b, a % b;
    assert a == b * q + r;
    Expand(b, n, -1);
    Expand(b, n, 1);
    if n < q {
      MulLe(n + 1, q, b);
      MulSplit(n, 1, b);
    } else if n > q + 1 {
      MulLe(q + 2, n, b);
      MulSplit(q, 2, b);
    } else if n == q + 1 {
      MulSplit(q, 1, b);
    }
  }

  lemma {:induction false} TailIsNonZero(t: string)
    requires AllDigits(t)
    ensures NonZeroTail(t) == if Num(0, t) > 0 then Up else Down
  {
    if t != "" {
      NumShift(DigitOf(t[0]), t[1..]);
      if t[0] == '0' {
        TailIsNonZero(t[1..]);
      } else {
        assert DigitOf(t[0]) * Pow10(|t[1..]|) > 0;
      }
    }
  }

  lemma LeadingDigitDecides(c: nat, b: nat, n: nat)
    requires c <= 9 && n < b
    ensures c >= 6 ==> 2 * (c * b + n) > 10 * b
    ensures c <= 4 ==> 2 * (c * b + n) < 10 * b
    ensures c == 5 ==> 2 * (c * b + n) == 10 * b + 2 * n
  {
    if c >= 6 { MulLe(6, c, b); } else if c <= 4 { MulLe(c, 4, b); }
  }

  lemma HalfEvenOf(q: nat, b: nat, r: nat)
    requires r < b
    ensures HalfEven(b * q + r, b) == (if 2 * r < b then q else if 2 * r > b then q + 1 else q + q % 2)
  {
    DivUnique(b * q + r, b, q, r);
  }

  lemma RoundingByRest(q: nat, rest: string)
    requires AllDigits(rest) && rest != ""
    ensures var r, b := Num(0, rest), Pow10(|rest|);
      RoundingOf(q, rest) == if 2 * r < b || (2 * r == b && q % 2 == 0) then Down else Up
  {
    var c, t := DigitOf(rest[0]), rest[1..];
    TailIsNonZero(t);
    NumShift(c, t);
    LeadingDigitDecides(c, Pow10(|t|), Num(0, t));
  }

  /** The digits that do not fit decide the rounding as HalfEven does. */
  lemma RoundingIsHalfEven(q: nat, rest: string)
    requires AllDigits(rest) && rest != ""
    ensures RoundingOf(q, rest) != BadTail
    ensures HalfEven(Num(q, rest), Pow10(|rest|)) == q + if RoundingOf(q, rest) == Up then 1 else 0
  {
    var a, b, r := Num(q, rest), Pow10(|rest|), Num(0, rest);
    NumShift(q, rest);
    assert a == b * q + r;
    RoundingByRest(q, rest);
    HalfEvenOf(q, b, r);
  }
}
