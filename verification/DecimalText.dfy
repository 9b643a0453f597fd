/** Decimal literals: `Parse` and `Format`, with the 32-bit counters and the 40-byte
    buffer of the source. */
module DecimalText {
  import opened Arith
  import opened Numerals

  // ---- powers ----

  function Pow10(n: nat): (r: nat)
    ensures r > 0
  {
    Power(10, n)
  }

  /** pow: square and multiply. */
  method Pow(x: nat, n: nat) returns (v: nat)
    ensures v == Power(x, n)
  {
    v := 1;
    var m, k := x, n;
    while k > 0
      invariant v * Power(m, k) == Power(x, n)
    {
      ghost var v0, m0, k0 := v, m, k;
      PowerSquare(m, k / 2);
      if k % 2 != 0 {
        v := v * m;
        assert k0 == 2 * (k0 / 2) + 1;
        assert Power(m0, k0) == m0 * Power(m0, 2 * (k0 / 2));
        assert v * Power(m0, 2 * (k0 / 2)) == v0 * Power(m0, k0);
      }
      k := k / 2;
      m := m * m;
    }
  }

  lemma {:induction false} Pow10Add(a: nat, b: nat)
    ensures Pow10(a + b) == Pow10(a) * Pow10(b)
  {
    if a > 0 {
      Pow10Add(a - 1, b);
      assert a - 1 + b == a + b - 1;
    }
  }

  lemma {:induction false} Pow10Mono(a: nat, b: nat)
    requires a <= b
    ensures Pow10(a) <= Pow10(b)
  {
    if a < b { Pow10Mono(a, b - 1); }
  }

  // ---- the special values ----

  const INF: nat := 100_000_000_000_000_000 * 1_000_000_000_000_000_000
  const NAN: nat := INF + 1
  const ERR: nat := NAN + 1

  function Abs(x: int): nat { if x < 0 then -x else x }

  function Signed(neg: bool, v: int): int { if neg then -v else v }

  // ---- Parse ----

  const UINT32: nat := 0x1_0000_0000

  /** Decrement of a 32-bit unsigned counter. */
  function Dec32(n: nat): nat { if n == 0 then UINT32 - 1 else n - 1 }

  predicate IsInf(s: string) {
    |s| >= 3 && (s[0] == 'i' || s[0] == 'I') && (s[1] == 'n' || s[1] == 'N') && (s[2] == 'f' || s[2] == 'F')
  }

  predicate IsNaN(s: string) {
    |s| >= 3 && (s[0] == 'n' || s[0] == 'N') && (s[1] == 'a' || s[1] == 'A') && (s[2] == 'n' || s[2] == 'N')
  }

  datatype Error = PrecisionError | SyntaxError

  datatype Result<+T> = Ok(value: T) | Err(error: Error)

  /** How reading the digits ends: in a syntax error, with too many integer digits, or at
      the first digit that the scale does not hold. */
  datatype Scan = Bad | Over | Stop(v: nat, scale: nat, rest: string)

  function ScanFrom(s: string, v: nat, dot: bool, scale: nat, integral: nat): Scan {
    if s == "" then Stop(v, scale, "")
    else if s[0] == '.' then
      if dot then Bad else ScanFrom(s[1..], v, true, scale, integral)
    else if dot && scale == 0 then Stop(v, scale, s)
    else if !IsDigit(s[0]) then Bad
    else
      var v' := 10 * v + DigitOf(s[0]);
      if !dot && v' > 0 && integral == 0 then Over
      else ScanFrom(s[1..], v', dot, if dot then scale - 1 else scale, Dec32(integral))
  }

  datatype Rounding = BadTail | Up | Down

  /** After a five that follows an even digit: is anything but zeros left? */
  function NonZeroTail(t: string): Rounding {
    if t == "" then Down
    else if !IsDigit(t[0]) then BadTail
    else if t[0] != '0' then Up
    else NonZeroTail(t[1..])
  }

  function RoundingOf(v: nat, rest: string): Rounding
    requires rest != ""
  {
    if !IsDigit(rest[0]) then BadTail
    else if rest[0] > '5' then Up
    else if rest[0] < '5' then Down
    else if v % 2 == 1 then Up
    else NonZeroTail(rest[1..])
  }

  function Unsigned(s: string): string { if s != "" && (s[0] == '-' || s[0] == '+') then s[1..] else s }

  /** The number that the digits read make, rounded by those that the scale does not hold. */
  function Finish(neg: bool, scan: Scan, precision: nat): Result<int> {
    match scan
    case Bad => Err(SyntaxError)
    case Over => Ok(Signed(neg, INF))
    case Stop(v, left, rest) =>
      if rest == "" then Ok(Signed(neg, v * Pow10(left)))
      else
        match RoundingOf(v, rest)
        case BadTail => Err(SyntaxError)
        case Down => Ok(Signed(neg, v * Pow10(left)))
        case Up => Ok(Signed(neg, (if v + 1 >= Pow10(precision) then INF else v + 1) * Pow10(left)))
  }

  function Parse(s: string, precision: nat, scale: nat): Result<int> {
    if scale > precision then Err(PrecisionError)
    else if s == "" then Ok(0)
    else
      var neg := s[0] == '-';
      var t := Unsigned(s);
      if IsInf(t) then Ok(Signed(neg, INF))
      else if IsNaN(t) then Ok(Signed(neg, NAN))
      else Finish(neg, ScanFrom(t, 0, false, scale, precision - scale), precision)
  }

  /** The digit loop of Parse. */
  method ReadDigits(text: string, scale0: nat, integral0: nat) returns (r: Scan)
    ensures r == ScanFrom(text, 0, false, scale0, integral0)
  {
    var s: string, v: nat, dot, scale: nat, integral: nat := text, 0, false, scale0, integral0;
    while |s| > 0
      invariant ScanFrom(s, v, dot, scale, integral) == ScanFrom(text, 0, false, scale0, integral0)
      decreases |s|
    {
      var c := s[0];
      if c == '.' {
        if dot { return Bad; }
        dot := true;
        s := s[1..];
        continue;
      }
      if dot && scale == 0 { break; }
      if !IsDigit(c) { return Bad; }
      if dot { scale := scale - 1; }
      v := 10 * v + DigitOf(c);
      if !dot && v > 0 && integral == 0 { return Over; }
      integral := Dec32(integral);
      s := s[1..];
    }
    return Stop(v, scale, s);
  }

  /** The rounding of Parse: looks past a five only when the digits before it are even. */
  method ReadRounding(v: nat, rest: string) returns (r: Rounding)
    requires rest != ""
    ensures r == RoundingOf(v, rest)
  {
    var s := rest;
    if !IsDigit(s[0]) { return BadTail; }
    var plus := s[0] > '5';
    if s[0] == '5' {
      plus := v % 2 == 1;
      while !plus && |s| > 1
        invariant |s| > 0 && RoundingOf(v, rest) == if plus then Up else NonZeroTail(s[1..])
        decreases |s|
      {
        s := s[1..];
        if !IsDigit(s[0]) { return BadTail; }
        plus := s[0] != '0';
      }
    }
    return if plus then Up else Down;
  }

  /** Parse as the source computes it. */
  method ParseText(text: string, precision: nat, scale: nat) returns (r: Result<int>)
    requires precision < UINT32 && scale < UINT32
    ensures r == Parse(text, precision, scale)
  {
    if scale > precision { return Err(PrecisionError); }
    if text == "" { return Ok(0); }
    var s, neg := text, text[0] == '-';
    if neg || s[0] == '+' { s := s[1..]; }
    if IsInf(s) { return Ok(Signed(neg, INF)); }
    if IsNaN(s) { return Ok(Signed(neg, NAN)); }
    var scan := ReadDigits(s, scale, precision - scale);
    if scan == Bad { return Err(SyntaxError); }
    if scan == Over { return Ok(Signed(neg, INF)); }
    var v := scan.v;
    if scan.rest != "" {
      var rounding := ReadRounding(v, scan.rest);
      if rounding == BadTail { return Err(SyntaxError); }
      if rounding == Up {
        v := v + 1;
        var bound := Pow(10, precision);
        if v >= bound { v := INF; }
      }
    }
    var unit := Pow(10, scan.scale);
    return Ok(Signed(neg, v * unit));
  }
}
