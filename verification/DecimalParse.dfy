/** The meaning of `Parse` on every signed decimal literal. */
module DecimalParse {
  import opened Arith
  import opened Numerals
  import opened DecimalText
  import opened DecimalValue

  // ---- the integer digits ----

  /** Some digit of `i` makes the value positive when the counter is at zero. */
  predicate Trapped(v: nat, i: string, integral: nat)
    requires AllDigits(i)
    decreases |i|
  {
    i != "" &&
    var v' := 10 * v + DigitOf(i[0]);
    (v' > 0 && integral == 0) || Trapped(v', i[1..], Dec32(integral))
  }

  function LeadingZeros(i: string): (n: nat)
    ensures n <= |i|
  {
    if i != "" && i[0] == '0' then 1 + LeadingZeros(i[1..]) else 0
  }

  predicate TrapAt(v: nat, i: string, integral: nat, k: nat) {
    k < |i| && (v > 0 || k >= LeadingZeros(i)) && k % UINT32 == integral
  }

  ghost predicate TrapsSomewhere(v: nat, i: string, integral: nat) { exists k :: TrapAt(v, i, integral, k) }

  /** The counter traps the literal iff the digit it reaches zero at is not a leading zero. */
  lemma {:induction false} TrapIs(v: nat, i: string, integral: nat)
    requires AllDigits(i) && integral < UINT32
    ensures Trapped(v, i, integral) <==> TrapsSomewhere(v, i, integral)
    decreases |i|
  {
    if i != "" {
      var v', t := 10 * v + DigitOf(i[0]), i[1..];
      TrapIs(v', t, Dec32(integral));
      assert TrapAt(v, i, integral, 0) <==> v' > 0 && integral == 0;
      forall k: nat | k > 0 ensures TrapAt(v, i, integral, k) <==> TrapAt(v', t, Dec32(integral), k - 1) {}
      if k: nat :| TrapAt(v', t, Dec32(integral), k) { assert TrapAt(v, i, integral, k + 1); }
    }
  }

  function Dec32Times(n: nat, k: nat): nat
    decreases k
  {
    if k == 0 then n else Dec32Times(Dec32(n), k - 1)
  }

  lemma {:induction false} ScanInteger(i: string, rest: string, v: nat, scale: nat, integral: nat)
    requires AllDigits(i)
    ensures ScanFrom(i + rest, v, false, scale, integral)
         == if Trapped(v, i, integral) then Over
            else ScanFrom(rest, Num(v, i), false, scale, Dec32Times(integral, |i|))
    decreases |i|
  {
    if i == "" {
      assert i + rest == rest;
    } else {
      assert (i + rest)[1..] == i[1..] + rest;
      ScanInteger(i[1..], rest, 10 * v + DigitOf(i[0]), scale, Dec32(integral));
    }
  }

  lemma {:induction false} ScanFraction(f: string, v: nat, scale: nat, integral: nat)
    requires AllDigits(f)
    ensures ScanFrom(f, v, true, scale, integral)
         == if |f| <= scale then Stop(Num(v, f), scale - |f|, "") else Stop(Num(v, f[..scale]), 0, f[scale..])
    decreases |f|
  {
    if f != "" && scale > 0 {
      ScanFraction(f[1..], 10 * v + DigitOf(f[0]), scale - 1, Dec32(integral));
      if |f| > scale {
        assert f[..scale][1..] == f[1..][..scale - 1];
        assert f[scale..] == f[1..][scale - 1..];
      }
    }
  }

  // ---- literals ----

  datatype Sign = NoSign | Plus | Minus

  function SignText(sign: Sign): string {
    match sign case NoSign => "" case Plus => "+" case Minus => "-"
  }

  /** A literal: a sign, integer digits and, after a dot, fraction digits. */
  datatype Literal = Literal(sign: Sign, i: string, dot: bool, f: string)

  predicate WellFormed(x: Literal) { AllDigits(x.i) && AllDigits(x.f) && (!x.dot ==> x.f == "") }

  function Body(x: Literal): string { x.i + if x.dot then "." + x.f else "" }

  function Text(x: Literal): string { SignText(x.sign) + Body(x) }

  /** The literal's value times 10^scale, rounded half to even. */
  function Scaled(x: Literal, scale: nat): nat
    requires WellFormed(x)
  {
    NumConcat(0, x.i, x.f);
    HalfEven(Num(0, x.i + x.f) * Pow10(scale), Pow10(|x.f|))
  }

  /** The digits that do not fit round the rest up. */
  predicate RoundsUp(x: Literal, scale: nat)
    requires WellFormed(x)
  {
    |x.f| > scale && RoundingOf(Num(Num(0, x.i), x.f[..scale]), x.f[scale..]) == Up
  }

  lemma BodyScan(x: Literal, precision: nat, scale: nat)
    requires WellFormed(x) && scale <= precision
    ensures ScanFrom(Body(x), 0, false, scale, precision - scale)
         == if Trapped(0, x.i, precision - scale) then Over
            else if |x.f| <= scale then Stop(Num(Num(0, x.i), x.f), scale - |x.f|, "")
            else Stop(Num(Num(0, x.i), x.f[..scale]), 0, x.f[scale..])
  {
    var rest := if x.dot then "." + x.f else "";
    ScanInteger(x.i, rest, 0, scale, precision - scale);
    if x.dot {
      assert rest[1..] == x.f;
      ScanFraction(x.f, Num(0, x.i), scale, Dec32Times(precision - scale, |x.i|));
    }
  }

  /** The part that fits is exact, the part that does not rounds half to even. */
  lemma ScaledExact(x: Literal, scale: nat)
    requires WellFormed(x) && |x.f| <= scale
    ensures Scaled(x, scale) == Num(Num(0, x.i), x.f) * Pow10(scale - |x.f|)
  {
    NumConcat(0, x.i, x.f);
    var n, d, b := Num(0, x.i + x.f), Pow10(scale - |x.f|), Pow10(|x.f|);
    assert n * Pow10(scale) == b * (n * d) + 0 by {
      Pow10Add(scale - |x.f|, |x.f|);
      MulAssoc(n, d, b);
    }
    HalfEvenOf(n * d, b, 0);
  }

  lemma ScaledRounded(x: Literal, scale: nat)
    requires WellFormed(x) && |x.f| > scale
    ensures Scaled(x, scale) == Num(Num(0, x.i), x.f[..scale]) + if RoundsUp(x, scale) then 1 else 0
  {
    NumConcat(0, x.i, x.f);
    var q := Num(Num(0, x.i), x.f[..scale]);
    assert x.f == x.f[..scale] + x.f[scale..];
    NumConcat(Num(0, x.i), x.f[..scale], x.f[scale..]);
    RoundingIsHalfEven(q, x.f[scale..]);
    Pow10Add(scale, |x.f| - scale);
    HalfEvenScale(Num(0, x.i + x.f), Pow10(|x.f| - scale), Pow10(scale));
  }

  lemma HalfEvenScale(a: nat, b: nat, k: nat)
    requires b > 0 && k > 0
    ensures k * b > 0 && HalfEven(a * k, k * b) == HalfEven(a, b)
  {
    var q, r := a / b, a % b;
    assert a == b * q + r;
    assert a * k == (k * b) * q + r * k by {
      MulSplit(b * q, r, k);
      MulAssoc(k, b, q);
    }
    assert r * k < b * k && (2 * r < b <==> 2 * (r * k) < k * b) && (2 * r > b <==> 2 * (r * k) > k * b) by {
      Scaling(r, b, k);
    }
    HalfEvenOf(q, k * b, r * k);
  }

  lemma Scaling(r: nat, b: nat, k: nat)
    requires k > 0 && r < b
    ensures r * k < b * k && k * b > 0
    ensures 2 * r < b <==> 2 * (r * k) < k * b
    ensures 2 * r > b <==> 2 * (r * k) > k * b
  {
    LtScale(r, b, k);
    LtScale(2 * r, b, k);
    LtScale(b, 2 * r, k);
    TwiceMul(r, k);
  }

  // ---- what Parse returns ----

  lemma BodyIsPlain(x: Literal)
    requires WellFormed(x)
    ensures Unsigned(Text(x)) == Body(x) && !IsInf(Body(x)) && !IsNaN(Body(x))
    ensures Text(x) != "" ==> (Text(x)[0] == '-' <==> x.sign == Minus)
  {
    assert forall k :: 0 <= k < |Body(x)| ==> IsDigit(Body(x)[k]) || Body(x)[k] == '.';
    if x.sign != NoSign {
      assert Text(x)[1..] == Body(x);
    } else {
      assert Text(x) == Body(x);
    }
  }

  /** Parse of any literal: infinity when the digit counter traps it or rounding reaches
      10^precision, its scaled and rounded value otherwise. */
  lemma ParseLiteral(x: Literal, precision: nat, scale: nat)
    requires WellFormed(x) && scale <= precision
    ensures Parse(Text(x), precision, scale) == Ok(Signed(x.sign == Minus,
      if Trapped(0, x.i, precision - scale) || (RoundsUp(x, scale) && Scaled(x, scale) >= Pow10(precision))
      then INF else Scaled(x, scale)))
  {
    if |x.f| <= scale { ParseExact(x, precision, scale); } else { ParseRounded(x, precision, scale); }
  }

  lemma ParseFinishes(x: Literal, precision: nat, scale: nat)
    requires WellFormed(x) && scale <= precision
    ensures Parse(Text(x), precision, scale) ==
      Finish(x.sign == Minus, ScanFrom(Body(x), 0, false, scale, precision - scale), precision)
  {
    BodyIsPlain(x);
  }

  lemma FinishExact(neg: bool, trapped: bool, scan: Scan, v: nat, left: nat, precision: nat, r: int)
    requires scan == (if trapped then Over else Stop(v, left, "")) && r == v * Pow10(left)
    ensures Finish(neg, scan, precision) == Ok(Signed(neg, if trapped then INF else r))
  {}

  lemma FinishRounded(neg: bool, trapped: bool, scan: Scan, v: nat, rest: string, precision: nat, up: bool, r: int)
    requires scan == (if trapped then Over else Stop(v, 0, rest)) && rest != ""
    requires RoundingOf(v, rest) == (if up then Up else Down) && r == v + if up then 1 else 0
    ensures Finish(neg, scan, precision) == Ok(Signed(neg, if trapped || (up && r >= Pow10(precision)) then INF else r))
  {
    assert Pow10(0) == 1;
  }

  lemma ParseExact(x: Literal, precision: nat, scale: nat)
    requires WellFormed(x) && scale <= precision && |x.f| <= scale
    ensures Parse(Text(x), precision, scale) ==
      Ok(Signed(x.sign == Minus, if Trapped(0, x.i, precision - scale) then INF else Scaled(x, scale)))
  {
    ParseFinishes(x, precision, scale);
    ExactFinish(x, precision, scale, ScanFrom(Body(x), 0, false, scale, precision - scale));
  }

  lemma ExactFinish(x: Literal, precision: nat, scale: nat, scan: Scan)
    requires WellFormed(x) && scale <= precision && |x.f| <= scale
    requires scan == ScanFrom(Body(x), 0, false, scale, precision - scale)
    ensures Finish(x.sign == Minus, scan, precision) ==
      Ok(Signed(x.sign == Minus, if Trapped(0, x.i, precision - scale) then INF else Scaled(x, scale)))
  {
    var v, left := Num(Num(0, x.i), x.f), scale - |x.f|;
    ExactScan(x, precision, scale, v, left);
    ScaledExact(x, scale);
    FinishExact(x.sign == Minus, Trapped(0, x.i, precision - scale), scan, v, left, precision, Scaled(x, scale));
  }

  lemma ExactScan(x: Literal, precision: nat, scale: nat, v: nat, left: nat)
    requires WellFormed(x) && scale <= precision && |x.f| <= scale
    requires v == Num(Num(0, x.i), x.f) && left == scale - |x.f|
    ensures ScanFrom(Body(x), 0, false, scale, precision - scale) ==
      if Trapped(0, x.i, precision - scale) then Over else Stop(v, left, "")
  {
    BodyScan(x, precision, scale);
  }

  lemma ParseRounded(x: Literal, precision: nat, scale: nat)
    requires WellFormed(x) && scale <= precision && scale < |x.f|
    ensures Parse(Text(x), precision, scale) == Ok(Signed(x.sign == Minus,
      if Trapped(0, x.i, precision - scale) || (RoundsUp(x, scale) && Scaled(x, scale) >= Pow10(precision))
      then INF else Scaled(x, scale)))
  {
    var scan := ScanFrom(Body(x), 0, false, scale, precision - scale);
    var v, rest := Num(Num(0, x.i), x.f[..scale]), x.f[scale..];
    ParseFinishes(x, precision, scale);
    BodyScan(x, precision, scale);
    ScaledRounded(x, scale);
    RoundingIsHalfEven(v, rest);
    FinishRounded(x.sign == Minus, Trapped(0, x.i, precision - scale), scan, v, rest, precision,
      RoundsUp(x, scale), Scaled(x, scale));
  }

  /** The integer part alone decides whether the part that fits exceeds the precision. */
  lemma PrefixBound(n: nat, m: nat, k: nat, g: nat)
    requires m < Pow10(g)
    ensures n * Pow10(g) + m >= Pow10(k + g) <==> n >= Pow10(k)
  {
    Pow10Add(k, g);
    if n >= Pow10(k) {
      MulLe(Pow10(k), n, Pow10(g));
    } else {
      MulLe(n + 1, Pow10(k), Pow10(g));
      MulSplit(n, 1, Pow10(g));
    }
  }

  lemma ScaledBound(x: Literal, precision: nat, scale: nat)
    requires WellFormed(x) && scale <= precision
    ensures Num(0, x.i) >= Pow10(precision - scale) ==> Scaled(x, scale) >= Pow10(precision)
    ensures Num(0, x.i) < Pow10(precision - scale) && !RoundsUp(x, scale) ==> Scaled(x, scale) < Pow10(precision)
  {
    var k := precision - scale;
    if |x.f| <= scale {
      ScaledExact(x, scale);
      NumShift(Num(0, x.i), x.f);
      PrefixBound(Num(0, x.i), Num(0, x.f), k, |x.f|);
      PrefixBound(Num(Num(0, x.i), x.f), 0, k + |x.f|, scale - |x.f|);
    } else {
      ScaledRounded(x, scale);
      NumShift(Num(0, x.i), x.f[..scale]);
      PrefixBound(Num(0, x.i), Num(0, x.f[..scale]), k, scale);
    }
  }

  /** No zero before another integer digit. */
  predicate NoRedundantZeros(i: string) { |i| <= 1 || i[0] != '0' }

  lemma TrapIsOverflow(i: string, k: nat)
    requires AllDigits(i) && NoRedundantZeros(i) && k < UINT32
    ensures Trapped(0, i, k) <==> Num(0, i) >= Pow10(k)
  {
    TrapIs(0, i, k);
    if i == "" || i == "0" {
    } else {
      var d, t := DigitOf(i[0]), i[1..];
      assert LeadingZeros(i) == 0;
      NumShift(d, t);
      NumShift(0, i);
      MulLe(1, d, Pow10(|t|));
      if k < |i| {
        assert TrapAt(0, i, k, k);
        Pow10Mono(k, |t|);
      } else {
        Pow10Mono(|i|, k);
      }
    }
  }

  /** The intended result: the rounded value, or infinity when it needs more digits than
      the precision has. */
  function Ideal(x: Literal, precision: nat, scale: nat): int
    requires WellFormed(x)
  {
    Signed(x.sign == Minus, if Scaled(x, scale) >= Pow10(precision) then INF else Scaled(x, scale))
  }

  /** Parse gives the intended result on every literal without redundant leading zeros. */
  lemma ParseIsIdeal(x: Literal, precision: nat, scale: nat)
    requires WellFormed(x) && scale <= precision < UINT32 && NoRedundantZeros(x.i)
    ensures Parse(Text(x), precision, scale) == Ok(Ideal(x, precision, scale))
  {
    ParseLiteral(x, precision, scale);
    TrapIsOverflow(x.i, precision - scale);
    ScaledBound(x, precision, scale);
  }

  // ---- redundant zeros ----

  /** The integer digits after the leading zeros. */
  function Significant(i: string): nat { |i| - LeadingZeros(i) }

  lemma {:induction false} ZerosDoNotCount(i: string)
    requires AllDigits(i)
    ensures Num(0, i) == Num(0, i[LeadingZeros(i)..])
  {
    if i != "" && i[0] == '0' {
      ZerosDoNotCount(i[1..]);
      assert i[1..][LeadingZeros(i[1..])..] == i[LeadingZeros(i)..];
    } else {
      assert i[0..] == i;
    }
  }

  lemma {:induction false} FirstIsNotZero(i: string)
    ensures var n := LeadingZeros(i); n < |i| ==> i[n] != '0'
  {
    if i != "" && i[0] == '0' { FirstIsNotZero(i[1..]); }
  }

  /** A number has more than `k` digits iff it is at least 10^k. */
  lemma SignificantIs(i: string, k: nat)
    requires AllDigits(i)
    ensures Num(0, i) >= Pow10(k) <==> Significant(i) > k
  {
    var t := i[LeadingZeros(i)..];
    ZerosDoNotCount(i);
    FirstIsNotZero(i);
    NumShift(0, t);
    if t != "" {
      NumShift(DigitOf(t[0]), t[1..]);
      MulLe(1, DigitOf(t[0]), Pow10(|t| - 1));
    }
    if |t| > k { Pow10Mono(k, |t| - 1); } else { Pow10Mono(|t|, k); }
  }

  predicate AllNines(s: string) { forall k :: 0 <= k < |s| ==> s[k] == '9' }

  lemma {:induction false} NinesAre(v: nat, s: string)
    requires AllDigits(s)
    ensures Num(v, s) + 1 == (v + 1) * Pow10(|s|) <==> AllNines(s)
    decreases |s|
  {
    if s != "" {
      var d, t := DigitOf(s[0]), s[1..];
      var p := Pow10(|t|);
      NinesAre(10 * v + d, t);
      NumShift(10 * v + d, t);
      assert (v + 1) * (10 * p) == (10 * v + 10) * p;
      if d < 9 {
        MulLe(10 * v + d + 1, 10 * v + 9, p);
        MulSplit(10 * v + d, 1, p);
        MulSplit(10 * v + 9, 1, p);
      } else {
        assert AllNines(s) <==> AllNines(t) by { if AllNines(t) { assert forall k :: 1 <= k < |s| ==> s[k] == t[k - 1]; } }
      }
    }
  }

  /** Rounding up carries past the precision: the digits that fit are nines, as many as fit. */
  predicate Carries(x: Literal, precision: nat, scale: nat)
    requires WellFormed(x) && scale <= precision
  {
    && RoundsUp(x, scale)
    && Significant(x.i) == precision - scale && AllNines(x.i[LeadingZeros(x.i)..]) && AllNines(x.f[..scale])
  }

  /** The part of the digits that fits, as one number. */
  lemma KeptDigits(x: Literal, scale: nat)
    requires WellFormed(x) && |x.f| >= scale
    ensures var u := x.i[LeadingZeros(x.i)..] + x.f[..scale];
      && AllDigits(u) && Num(Num(0, x.i), x.f[..scale]) == Num(0, u)
      && (AllNines(u) <==> AllNines(x.i[LeadingZeros(x.i)..]) && AllNines(x.f[..scale]))
  {
    var t, g := x.i[LeadingZeros(x.i)..], x.f[..scale];
    ZerosDoNotCount(x.i);
    NumConcat(0, t, g);
    if AllNines(t + g) {
      assert forall k :: 0 <= k < |t| ==> t[k] == (t + g)[k];
      assert forall k :: 0 <= k < |g| ==> g[k] == (t + g)[|t| + k];
    }
  }

  lemma CarryIs(x: Literal, precision: nat, scale: nat)
    requires WellFormed(x) && scale <= precision && RoundsUp(x, scale) && Significant(x.i) <= precision - scale
    ensures Scaled(x, scale) >= Pow10(precision) <==> Carries(x, precision, scale)
  {
    var u := x.i[LeadingZeros(x.i)..] + x.f[..scale];
    KeptDigits(x, scale);
    ScaledRounded(x, scale);
    NinesAre(0, u);
    NumShift(0, u);
    if |u| < precision { Pow10Mono(|u| + 1, precision); }
  }

  /** With redundant zeros it does exactly when the digit counter reaches zero past them just
      in case too many digits follow them or rounding carries, or rounding up catches the
      overflow that the counter missed. */
  lemma ParseIsIdealIff(x: Literal, precision: nat, scale: nat)
    requires WellFormed(x) && scale <= precision < UINT32
    ensures Parse(Text(x), precision, scale) == Ok(Ideal(x, precision, scale)) <==>
      || Scaled(x, scale) == INF
      || if TrapsSomewhere(0, x.i, precision - scale)
         then Significant(x.i) > precision - scale || Carries(x, precision, scale)
         else Significant(x.i) <= precision - scale || RoundsUp(x, scale)
  {
    ParseLiteral(x, precision, scale);
    TrapIs(0, x.i, precision - scale);
    SignificantIs(x.i, precision - scale);
    ScaledBound(x, precision, scale);
    if RoundsUp(x, scale) && Significant(x.i) <= precision - scale { CarryIs(x, precision, scale); }
  }

  /** Leading zeros use up integer digits: 05 does not fit one digit. */
  lemma LeadingZeroTraps()
    ensures Parse("05", 1, 0) == Ok(INF)
    ensures Ideal(Literal(NoSign, "05", false, ""), 1, 0) == 5
  {
    assert "05"[1..] == "5";
    assert "5"[1..] == "";
    assert ScanFrom("5", 0, false, 0, 0) == Over;
    var x := Literal(NoSign, "05", false, "");
    ScaledExact(x, 0);
    assert Num(0, "05") == Num(0, "5") == Num(5, "");
  }

  /** Leading zeros wrap the counter around: 05 with no integer digits is not caught. */
  lemma LeadingZeroWraps()
    ensures Parse("05", 1, 1) == Ok(50)
    ensures Ideal(Literal(NoSign, "05", false, ""), 1, 1) == INF
  {
    assert "05"[1..] == "5";
    assert "5"[1..] == "";
    assert ScanFrom("5", 0, false, 1, UINT32 - 1) == ScanFrom("", 5, false, 1, UINT32 - 2);
    assert Pow10(1) == 10 * Pow10(0);
    var x := Literal(NoSign, "05", false, "");
    ScaledExact(x, 1);
    assert Num(0, "05") == Num(0, "5") == Num(5, "");
  }
}
