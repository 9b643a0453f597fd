/** Which texts `Parse` refuses. */
module DecimalSyntax {
  import opened Numerals
  import opened DecimalText
  import opened DecimalParse

  /** How many digits a text begins with. */
  function DigitsLen(t: string): (n: nat)
    ensures n <= |t| && AllDigits(t[..n]) && (n < |t| ==> !IsDigit(t[n]))
  {
    if t != "" && IsDigit(t[0]) then
      var n := DigitsLen(t[1..]);
      assert t[..n + 1] == [t[0]] + t[1..][..n];
      n + 1
    else 0
  }

  /** After zeros stands something that is no digit. */
  predicate BadRest(w: string) {
    var z := LeadingZeros(w);
    z < |w| && !IsDigit(w[z])
  }

  /** A fraction after the integer `v`: something that is no digit stands among the digits that the
      scale holds, or directly after them, or is met in looking past a five that follows an
      even digit. */
  predicate BadFraction(v: nat, u: string, scale: nat) {
    var m := DigitsLen(u);
    if m < scale then m < |u|
    else |u| > scale && (!IsDigit(u[scale]) || (AllDigits(u[..scale]) && u[scale] == '5' && Num(v, u[..scale]) % 2 == 0 && BadRest(u[scale + 1..])))
  }

  ghost predicate Refused(t: string, precision: nat, scale: nat)
    requires scale <= precision
  {
    var n := DigitsLen(t);
    && n < |t| && !TrapsSomewhere(0, t[..n], precision - scale)
    && (t[n] != '.' || BadFraction(Num(0, t[..n]), t[n + 1..], scale))
  }

  lemma {:induction false} TailIs(w: string)
    ensures NonZeroTail(w) == BadTail <==> BadRest(w)
  {
    if w != "" && w[0] == '0' {
      TailIs(w[1..]);
      assert LeadingZeros(w) < |w| ==> w[LeadingZeros(w)] == w[1..][LeadingZeros(w[1..])];
    }
  }

  lemma {:induction false} ScanMore(f: string, t: string, v: nat, scale: nat, integral: nat)
    requires AllDigits(f) && |f| <= scale
    ensures ScanFrom(f + t, v, true, scale, integral) == ScanFrom(t, Num(v, f), true, scale - |f|, Dec32Times(integral, |f|))
    decreases |f|
  {
    if f == "" {
      assert f + t == t;
    } else {
      assert (f + t)[1..] == f[1..] + t;
      ScanMore(f[1..], t, 10 * v + DigitOf(f[0]), scale - 1, Dec32(integral));
    }
  }

  lemma {:induction false} DigitsBefore(u: string, k: nat)
    requires k <= DigitsLen(u)
    ensures AllDigits(u[..k])
  {
    assert u[..k] == u[..DigitsLen(u)][..k];
  }

  lemma ScanTail(u: string, v: nat, scale: nat, integral: nat)
    ensures var m, r := DigitsLen(u), ScanFrom(u, v, true, scale, integral);
      && (m < scale && m < |u| ==> r == Bad)
      && (m == |u| <= scale ==> r == Stop(Num(v, u[..m]), scale - |u|, ""))
      && (m >= scale && |u| > scale ==> AllDigits(u[..scale]))
      && (m >= scale && |u| > scale ==> r == if u[scale] == '.' then Bad else Stop(Num(v, u[..scale]), 0, u[scale..]))
  {
    var m := DigitsLen(u);
    var k := if m < scale then m else if |u| <= scale then |u| else scale;
    DigitsBefore(u, k);
    assert u == u[..k] + u[k..];
    ScanMore(u[..k], u[k..], v, scale, integral);
  }

  lemma FractionIs(u: string, v: nat, scale: nat, integral: nat, neg: bool, precision: nat)
    ensures Finish(neg, ScanFrom(u, v, true, scale, integral), precision) == Err(SyntaxError) <==> BadFraction(v, u, scale)
  {
    ScanTail(u, v, scale, integral);
    if DigitsLen(u) >= scale && |u| > scale && u[scale] != '.' {
      var rest := u[scale..];
      assert rest[0] == u[scale] && rest[1..] == u[scale + 1..];
      TailIs(u[scale + 1..]);
    }
  }

  /** The exact texts that are refused as syntax errors. */
  lemma RefusedIff(s: string, precision: nat, scale: nat)
    requires precision < UINT32
    ensures scale > precision <==> Parse(s, precision, scale) == Err(PrecisionError)
    ensures scale <= precision ==>
      var t := Unsigned(s);
      (Parse(s, precision, scale) == Err(SyntaxError) <==> s != "" && !IsInf(t) && !IsNaN(t) && Refused(t, precision, scale))
  {
    if scale <= precision && s != "" {
      var t := Unsigned(s);
      if !IsInf(t) && !IsNaN(t) { BodyRefused(s[0] == '-', t, precision, scale); }
    }
  }

  lemma BodyRefused(neg: bool, t: string, precision: nat, scale: nat)
    requires scale <= precision < UINT32
    ensures Finish(neg, ScanFrom(t, 0, false, scale, precision - scale), precision) == Err(SyntaxError) <==> Refused(t, precision, scale)
  {
    var n := DigitsLen(t);
    var i, rest := t[..n], t[n..];
    assert t == i + rest;
    TrapIs(0, i, precision - scale);
    ScanInteger(i, rest, 0, scale, precision - scale);
    if !Trapped(0, i, precision - scale) && rest != "" && rest[0] == '.' {
      assert rest[1..] == t[n + 1..];
      FractionIs(t[n + 1..], Num(0, i), scale, Dec32Times(precision - scale, n), neg, precision);
    }
  }

  /** A sign is `+` or `-`, and infinities and NaNs are spelled in either case, whatever follows. */
  lemma SpecialsRead(a: char, b: char, c: char, more: string, precision: nat, scale: nat)
    requires scale <= precision
    ensures a in "iI" && b in "nN" && c in "fF" ==>
      && Parse([a, b, c] + more, precision, scale) == Parse("+" + ([a, b, c] + more), precision, scale) == Ok(INF)
      && Parse("-" + ([a, b, c] + more), precision, scale) == Ok(0 - INF)
    ensures a in "nN" && b in "aA" && c in "nN" ==>
      && Parse([a, b, c] + more, precision, scale) == Parse("+" + ([a, b, c] + more), precision, scale) == Ok(NAN)
      && Parse("-" + ([a, b, c] + more), precision, scale) == Ok(0 - NAN)
  {
    var t := [a, b, c] + more;
    assert ("+" + t)[1..] == t && ("-" + t)[1..] == t;
  }

  lemma SmallPowers()
    ensures Pow10(3) == 1_000 && Pow10(5) == 100_000
  {
    assert Pow10(1) == 10 * Pow10(0);
    assert Pow10(2) == 10 * Pow10(1);
    assert Pow10(3) == 10 * Pow10(2);
    assert Pow10(4) == 10 * Pow10(3);
    assert Pow10(5) == 10 * Pow10(4);
  }

  /** The special values are 10^35, and the next two numbers. */
  lemma SpecialsAre()
    ensures INF == Pow10(35) && NAN == Pow10(35) + 1 && ERR == Pow10(35) + 2
  {
    SmallPowers();
    Pow10Add(3, 3);
    Pow10Add(6, 6);
    Pow10Add(12, 6);
    Pow10Add(12, 5);
    Pow10Add(17, 18);
  }

  /** What is no literal may be accepted: once the first digit past the scale has decided the
      rounding, nothing after it is looked at. */
  lemma RestIsIgnored(i: string, f: string, d: char, rest: string, precision: nat)
    requires AllDigits(i) && AllDigits(f) && |f| <= precision < UINT32 && IsDigit(d) && d != '5'
    ensures Parse(i + ("." + (f + ([d] + rest))), precision, |f|) == Parse(i + ("." + (f + [d])), precision, |f|)
  {
    var scale := |f|;
    var a, b := f + ([d] + rest), f + [d];
    NotSpecial(i, "." + a);
    NotSpecial(i, "." + b);
    ScanInteger(i, "." + a, 0, scale, precision - scale);
    ScanInteger(i, "." + b, 0, scale, precision - scale);
    if !Trapped(0, i, precision - scale) {
      var v, n := Num(0, i), Dec32Times(precision - scale, |i|);
      assert ("." + a)[1..] == a && ("." + b)[1..] == b;
      StopsAt(f, d, rest, v, n);
      StopsAt(f, d, "", v, n);
      assert [d] + "" == [d];
    }
  }

  lemma NotSpecial(i: string, t: string)
    requires AllDigits(i) && t != "" && t[0] == '.'
    ensures var s := i + t; Unsigned(s) == s && !IsInf(s) && !IsNaN(s) && s[0] != '-'
  {
    assert i != "" ==> (i + t)[0] == i[0];
  }

  lemma StopsAt(f: string, d: char, rest: string, v: nat, integral: nat)
    requires AllDigits(f) && IsDigit(d) && d != '5'
    ensures ScanFrom(f + ([d] + rest), v, true, |f|, integral) == Stop(Num(v, f), 0, [d] + rest)
    ensures forall w: nat :: RoundingOf(w, [d] + rest) == if d > '5' then Up else Down
  {
    var u := f + ([d] + rest);
    ScanTail(u, v, |f|, integral);
    LongDigits(f, [d] + rest);
    assert u[..|f|] == f && u[|f|..] == [d] + rest;
  }

  lemma {:induction false} LongDigits(f: string, t: string)
    requires AllDigits(f)
    ensures DigitsLen(f + t) >= |f|
  {
    if f != "" {
      LongDigits(f[1..], t);
      assert (f + t)[1..] == f[1..] + t;
    }
  }
}
