/** `Format`: the digits it writes into its buffer, and the round trip with `Parse`. */
module DecimalFormat {
  import opened Arith
  import opened Numerals
  import opened DecimalText
  import opened DecimalParse

  function NumDigits(v: nat): nat { if v == 0 then 0 else 1 + NumDigits(v / 10) }

  function Max(a: nat, b: nat): nat { if a < b then b else a }

  function Pred(n: nat): nat { if n == 0 then 0 else n - 1 }

  /** The last `m` digits of `v`, with a dot before the last `scale`. */
  function Emit(v: nat, scale: nat, m: nat): string
    decreases m, v
  {
    if m == 0 then ""
    else Emit(v / 10, Pred(scale), m - 1) + (if scale == 1 then "." else "") + [DigitChar(v % 10)]
  }

  datatype Formatted = Printed(text: string) | OutOfBuffer

  const ERROR_TAG := "<error>"

  /** The text of a number with `m` digits. */
  function NumberText(x: int, scale: nat, m: nat): string {
    var digits := Emit(Abs(x), scale, m);
    (if x < 0 then "-" else "") + (if digits != "" && digits[0] == '.' then "0" else "") + digits
  }

  function Plain(v: nat, m: nat): string { Emit(v, 0, m) }

  const SIZE: nat := 40

  /** `v` without its last `s` digits. */
  function Shift(v: nat, s: nat): nat
    decreases s, v
  {
    if s == 0 then v else Shift(v / 10, s - 1)
  }

  /** The last `n` digits of `v` are zeros. */
  predicate LowZeros(v: nat, n: nat)
    decreases n, v
  {
    n == 0 || (v % 10 == 0 && LowZeros(v / 10, n - 1))
  }

  /** The digits that precede the error fit `room` characters, or those that do not are zeros
      of the fraction, which are not written. */
  predicate ErrorFits(v: nat, precision: nat, scale: nat, room: nat) {
    if scale == 0 then precision <= room
    else if scale < room then precision < room
    else precision <= room || (NumDigits(v) > precision && precision <= scale && LowZeros(Shift(v, room), precision - room))
  }

  /** Format with its buffer of 40 characters. A number that needs more runs out of it, except
      that one of 40 digits loses the dot before them. */
  function Format(x: int, precision: nat, scale: nat): Formatted {
    var v := Abs(x);
    if v == INF then Printed(if x < 0 then "-inf" else "inf")
    else if v == NAN then Printed(if x < 0 then "-nan" else "nan")
    else
      var m := Max(NumDigits(v), scale);
      if m > precision then
        if ErrorFits(v, precision, scale, SIZE) then Printed(ERROR_TAG) else OutOfBuffer
      else if m == 0 then OutOfBuffer
      else if |NumberText(x, scale, m)| <= SIZE then Printed(NumberText(x, scale, m))
      else if x > 0 && NumDigits(v) == SIZE == scale then Printed(Plain(v, SIZE))
      else OutOfBuffer
  }

  // ---- the loops over the buffer ----

  /** How a loop leaves the buffer: what is left of precision and scale and the text written,
      the error text for a number too long, or a write outside it. */
  datatype Buffer = Buffered(prec: nat, scale: nat, text: string) | TooLong | Overrun

  function AddDigit(d: nat, acc: string): string
    requires d <= 9
  {
    if |acc| == SIZE then acc else [DigitChar(d)] + acc
  }

  function AddDot(scale: nat, acc: string): string { if scale == 1 && |acc| < SIZE then "." + acc else acc }

  /** The digits of `v`, written before `acc`. */
  function FillDigits(v: nat, prec: nat, scale: nat, acc: string): Buffer {
    if v == 0 then Buffered(prec, scale, acc)
    else if prec == 0 then TooLong
    else if |acc| == SIZE && (v % 10 != 0 || scale == 0) then Overrun
    else FillDigits(v / 10, prec - 1, Pred(scale), AddDot(scale, AddDigit(v % 10, acc)))
  }

  /** The zeros of a short fraction and the dot before them. */
  function FillZeros(prec: nat, scale: nat, acc: string): Buffer
    decreases scale
  {
    if scale == 0 then (if |acc| == SIZE then Overrun else Buffered(prec, 0, "." + acc))
    else if prec == 0 then TooLong
    else if |acc| == SIZE then Overrun
    else FillZeros(prec - 1, scale - 1, "0" + acc)
  }

  /** The zero before a leading dot, and the sign. */
  function Close(neg: bool, acc: string): Formatted {
    var zero := if acc != "" && acc[0] == '.' then "0" + acc else acc;
    var all := if neg then "-" + zero else zero;
    if acc == "" || |all| > SIZE then OutOfBuffer else Printed(all)
  }

  function FormatLoops(x: int, precision: nat, scale: nat): Formatted {
    match FillDigits(Abs(x), precision, scale, "")
    case TooLong => Printed(ERROR_TAG)
    case Overrun => OutOfBuffer
    case Buffered(prec, left, text) =>
      if left == 0 then Close(x < 0, text)
      else
        match FillZeros(prec, left, text)
        case TooLong => Printed(ERROR_TAG)
        case Overrun => OutOfBuffer
        case Buffered(_, _, all) => Close(x < 0, all)
  }

  lemma FillEnds(prec: nat, scale: nat, acc: string)
    ensures FillDigits(0, prec, scale, acc) == Buffered(prec, scale, acc)
  {}

  lemma FillTooLong(v: nat, scale: nat, acc: string)
    requires v > 0
    ensures FillDigits(v, 0, scale, acc) == TooLong
  {}

  lemma FillOverruns(v: nat, prec: nat, scale: nat, acc: string)
    requires v > 0 && prec > 0 && |acc| == SIZE && (v % 10 != 0 || scale == 0)
    ensures FillDigits(v, prec, scale, acc) == Overrun
  {}

  lemma FillNext(v: nat, prec: nat, scale: nat, acc: string)
    requires v > 0 && prec > 0 && !(|acc| == SIZE && (v % 10 != 0 || scale == 0))
    ensures FillDigits(v, prec, scale, acc) == FillDigits(v / 10, prec - 1, Pred(scale), AddDot(scale, AddDigit(v % 10, acc)))
  {}

  /** Writes one digit, unless it is a zero of the fraction that finds no room. */
  method WriteDigit(d: nat, pos0: nat, bts: array<char>) returns (pos: nat)
    requires bts.Length == SIZE && pos0 <= SIZE && d <= 9
    modifies bts
    ensures pos <= SIZE && bts[pos..] == AddDigit(d, old(bts[pos0..]))
  {
    pos := pos0;
    if pos > 0 {
      pos := pos - 1;
      bts[pos] := DigitChar(d);
      assert bts[pos..] == [DigitChar(d)] + old(bts[pos0..]);
    }
  }

  /** Writes the dot where the fraction ends, if there is room. */
  method WriteDot(scale: nat, pos0: nat, bts: array<char>) returns (pos: nat, sc: nat)
    requires bts.Length == SIZE && pos0 <= SIZE
    modifies bts
    ensures pos <= SIZE && sc == Pred(scale) && bts[pos..] == AddDot(scale, old(bts[pos0..]))
  {
    pos, sc := pos0, scale;
    if sc > 0 {
      sc := sc - 1;
      if sc == 0 && pos > 0 {
        pos := pos - 1;
        bts[pos] := '.';
        assert bts[pos..] == "." + old(bts[pos0..]);
      }
    }
  }

  /** Writes the last digit of a number, with the dot where the fraction ends before it. */
  method WriteNext(v: nat, prec: nat, scale: nat, pos0: nat, bts: array<char>, ghost acc0: string)
    returns (v': nat, sc: nat, pos: nat, ghost acc: string)
    requires bts.Length == SIZE && pos0 <= SIZE && v > 0 && prec > 0 && !(pos0 == 0 && (v % 10 != 0 || scale == 0))
    requires acc0 == bts[pos0..]
    modifies bts
    ensures v' < v && pos <= SIZE && acc == bts[pos..]
    ensures FillDigits(v', prec - 1, sc, acc) == FillDigits(v, prec, scale, acc0)
  {
    v' := v / 10;
    FillNext(v, prec, scale, acc0);
    pos := WriteDigit(v % 10, pos0, bts);
    pos, sc := WriteDot(scale, pos, bts);
    acc := bts[pos..];
  }

  /** Writes the digits of a number from its last one, as far as its value reaches. */
  method WriteDigits(x: nat, precision: nat, scale: nat, bts: array<char>) returns (r: Buffer, pos: nat)
    requires bts.Length == SIZE
    modifies bts
    ensures r == FillDigits(x, precision, scale, "")
    ensures r.Buffered? ==> pos <= SIZE && r.text == bts[pos..]
  {
    var v: nat, prec: nat, sc: nat := x, precision, scale;
    pos := bts.Length;
    ghost var acc: string := "";
    while v > 0
      invariant pos <= SIZE && acc == bts[pos..]
      invariant FillDigits(v, prec, sc, acc) == FillDigits(x, precision, scale, "")
      decreases v
    {
      if prec == 0 {
        FillTooLong(v, sc, acc);
        return TooLong, pos;
      }
      if pos == 0 && (v % 10 != 0 || sc == 0) {
        FillOverruns(v, prec, sc, acc);
        return Overrun, pos;
      }
      v, sc, pos, acc := WriteNext(v, prec, sc, pos, bts, acc);
      prec := prec - 1;
    }
    FillEnds(prec, sc, acc);
    return Buffered(prec, sc, bts[pos..]), pos;
  }

  /** Pads the fraction with zeros and writes the dot before it. */
  method WriteZeros(prec0: nat, scale: nat, pos0: nat, bts: array<char>) returns (r: Buffer, pos: nat)
    requires bts.Length == SIZE && pos0 <= SIZE
    modifies bts
    ensures r == FillZeros(prec0, scale, old(bts[pos0..]))
    ensures r.Buffered? ==> pos <= SIZE && r.text == bts[pos..]
  {
    pos := pos0;
    var sc: nat, prec: nat := scale, prec0;
    while sc > 0
      invariant pos <= SIZE && FillZeros(prec, sc, bts[pos..]) == FillZeros(prec0, scale, old(bts[pos0..]))
    {
      if prec == 0 { return TooLong, pos; }
      prec := prec - 1;
      if pos == 0 { return Overrun, pos; }
      ghost var acc := bts[pos..];
      pos := pos - 1;
      bts[pos] := '0';
      assert bts[pos..] == "0" + acc;
      sc := sc - 1;
    }
    if pos == 0 { return Overrun, pos; }
    ghost var acc := bts[pos..];
    pos := pos - 1;
    bts[pos] := '.';
    assert bts[pos..] == "." + acc;
    return Buffered(prec, 0, bts[pos..]), pos;
  }

  /** Writes the zero before a leading dot, and the sign. */
  method WriteSign(neg: bool, pos0: nat, bts: array<char>) returns (r: Formatted)
    requires bts.Length == SIZE && pos0 <= SIZE
    modifies bts
    ensures r == Close(neg, old(bts[pos0..]))
  {
    var pos := pos0;
    ghost var acc := bts[pos..];
    if pos == SIZE { return OutOfBuffer; }
    if bts[pos] == '.' {
      if pos == 0 { return OutOfBuffer; }
      pos := pos - 1;
      bts[pos] := '0';
      assert bts[pos..] == "0" + acc;
    }
    ghost var zero := bts[pos..];
    if neg {
      if pos == 0 { return OutOfBuffer; }
      pos := pos - 1;
      bts[pos] := '-';
      assert bts[pos..] == "-" + zero;
    }
    return Printed(bts[pos..]);
  }

  /** Format as the source computes it, from the last digit into a buffer of 40 characters. */
  method FormatText(x: int, precision: nat, scale: nat) returns (r: Formatted)
    ensures r == Format(x, precision, scale)
  {
    if Abs(x) == INF { return Printed(if x < 0 then "-inf" else "inf"); }
    if Abs(x) == NAN { return Printed(if x < 0 then "-nan" else "nan"); }
    LoopsAreFormat(x, precision, scale);
    var bts := new char[SIZE];
    var b, pos := WriteDigits(Abs(x), precision, scale, bts);
    if b.TooLong? { return Printed(ERROR_TAG); }
    if b.Overrun? { return OutOfBuffer; }
    if b.scale > 0 {
      b, pos := WriteZeros(b.prec, b.scale, pos, bts);
      if b.TooLong? { return Printed(ERROR_TAG); }
      if b.Overrun? { return OutOfBuffer; }
    }
    r := WriteSign(x < 0, pos, bts);
  }

  // ---- the digits ----

  lemma {:induction false} DigitsBound(v: nat, m: nat)
    ensures v < Pow10(m) <==> NumDigits(v) <= m
  {
    if m > 0 && v > 0 { DigitsBound(v / 10, m - 1); }
  }

  lemma {:induction false} PlainIs(v: nat, m: nat)
    ensures AllDigits(Plain(v, m)) && |Plain(v, m)| == m
    ensures NumDigits(v) <= m ==> Num(0, Plain(v, m)) == v
    decreases m
  {
    if m > 0 {
      PlainIs(v / 10, m - 1);
      var hi, d := Plain(v / 10, m - 1), [DigitChar(v % 10)];
      assert Plain(v, m) == hi + d;
      NumConcat(0, hi, d);
      assert d[1..] == "";
    }
  }

  lemma {:induction false} PlainSplits(v: nat, s: nat, m: nat)
    requires s <= m
    ensures Plain(v, m) == Plain(Shift(v, s), m - s) + Plain(v, s)
    decreases s
  {
    if s > 0 {
      PlainSplits(v / 10, s - 1, m - 1);
      var d := [DigitChar(v % 10)];
      var hi, lo := Plain(Shift(v, s), m - s), Plain(v / 10, s - 1);
      assert Plain(v, s) == lo + d;
      assert Plain(v, m) == (hi + lo) + d == hi + (lo + d);
    }
  }

  /** The dot splits the digits of a number, and nothing else. */
  lemma {:induction false} EmitSplits(v: nat, s: nat, m: nat)
    requires 0 < s <= m
    ensures Emit(v, s, m) == Plain(Shift(v, s), m - s) + "." + Plain(v, s)
    decreases s
  {
    var d := [DigitChar(v % 10)];
    var hi, lo := Plain(Shift(v, s), m - s), Plain(v / 10, s - 1);
    assert Plain(v, s) == lo + d;
    if s > 1 {
      EmitSplits(v / 10, s - 1, m - 1);
      assert Emit(v, s, m) == Emit(v / 10, s - 1, m - 1) + d;
      assert (hi + "." + lo) + d == hi + "." + (lo + d);
    } else {
      assert Shift(v, 1) == Shift(v / 10, 0) == v / 10;
      assert Emit(v, 1, m) == Plain(v / 10, m - 1) + "." + d;
      assert lo + d == d;
    }
  }

  lemma {:induction false} ShiftDigits(v: nat, s: nat)
    ensures NumDigits(Shift(v, s)) == Max(NumDigits(v), s) - s
    decreases s
  {
    if s > 0 { ShiftDigits(v / 10, s - 1); }
  }

  /** The first of exactly as many digits as a number has is not a zero. */
  lemma {:induction false} NoLeadingZero(v: nat, m: nat)
    requires m == NumDigits(v) > 0
    ensures |Plain(v, m)| == m && Plain(v, m)[0] != '0'
    decreases m
  {
    PlainIs(v, m);
    var d := [DigitChar(v % 10)];
    assert Plain(v, m) == Plain(v / 10, m - 1) + d;
    if m > 1 {
      NoLeadingZero(v / 10, m - 1);
    } else {
      assert v % 10 == v && DigitOf(d[0]) == v;
    }
  }

  // ---- what the loops write ----

  /** `n` digits do not fit `room` characters, with the dot that the scale puts among them. */
  predicate Overruns(n: nat, room: nat, scale: nat) { n > room || (n == room && 0 < scale < room) }

  /** The text of the digits, without the dot when they fill the room and are all of the fraction. */
  function DigitText(v: nat, n: nat, room: nat, scale: nat): string {
    if n == room == scale then Plain(v, n) else Emit(v, scale, n)
  }

  /** What the digit loop makes of a number within the precision. */
  function Digested(v: nat, prec: nat, scale: nat, acc: string): Buffer
    requires NumDigits(v) <= prec && |acc| <= SIZE
  {
    var n, room := NumDigits(v), SIZE - |acc|;
    if Overruns(n, room, scale) then Overrun
    else Buffered(prec - n, Max(scale, n) - n, DigitText(v, n, room, scale) + acc)
  }

  function Low(v: nat, scale: nat, room: nat): string { (if scale == 1 && room > 1 then "." else "") + [DigitChar(v % 10)] }

  lemma OverrunsNext(n: nat, room: nat, scale: nat, l: nat)
    requires n > 0 && room > 0 && l == (if scale == 1 && room > 1 then 2 else 1)
    ensures l <= room && (Overruns(n, room, scale) <==> Overruns(n - 1, room - l, Pred(scale)))
    ensures Max(scale, n) - n == Max(Pred(scale), n - 1) - (n - 1)
  {}

  lemma TextNext(v: nat, n: nat, room: nat, scale: nat, l: nat)
    requires n > 0 && room > 0 && l == |Low(v, scale, room)| && !Overruns(n, room, scale)
    ensures l <= room && DigitText(v, n, room, scale) == DigitText(v / 10, n - 1, room - l, Pred(scale)) + Low(v, scale, room)
  {
    PlainLast(v, n);
    EmitLast(v, scale, n);
    if n == room == scale { ShortText(v / 10, n - 1, room - l, Pred(scale)); }
  }

  lemma ShortText(v: nat, n: nat, room: nat, scale: nat)
    requires n == scale && (n == room || n == 0)
    ensures DigitText(v, n, room, scale) == Plain(v, n)
  {}

  /** One digit more, in a buffer with room for it. */
  lemma DigestDigit(v: nat, prec: nat, scale: nat, acc: string, low: string)
    requires v > 0 && NumDigits(v) <= prec && |acc| < SIZE && low == Low(v, scale, SIZE - |acc|)
    ensures |low + acc| <= SIZE
    ensures Digested(v, prec, scale, acc) == Digested(v / 10, prec - 1, Pred(scale), low + acc)
  {
    var n, room := NumDigits(v), SIZE - |acc|;
    OverrunsNext(n, room, scale, |low|);
    if !Overruns(n, room, scale) {
      TextNext(v, n, room, scale, |low|);
      Placed(DigitText(v / 10, n - 1, room - |low|, Pred(scale)), low, acc);
    }
  }

  lemma Placed(a: string, b: string, c: string)
    ensures (a + b) + c == a + (b + c)
  {}

  lemma PlainLast(v: nat, n: nat)
    requires n > 0
    ensures Plain(v, n) == Plain(v / 10, n - 1) + [DigitChar(v % 10)]
  {}

  lemma EmitLast(v: nat, scale: nat, n: nat)
    requires n > 0
    ensures Emit(v, scale, n) == Emit(v / 10, Pred(scale), n - 1) + ((if scale == 1 then "." else "") + [DigitChar(v % 10)])
  {
    Placed(Emit(v / 10, Pred(scale), n - 1), if scale == 1 then "." else "", [DigitChar(v % 10)]);
  }

  lemma {:induction false} DigitsAre(v: nat, prec: nat, scale: nat, acc: string)
    requires NumDigits(v) <= prec && |acc| <= SIZE
    ensures FillDigits(v, prec, scale, acc) == Digested(v, prec, scale, acc)
    decreases v
  {
    if v == 0 {
      assert "" + acc == acc;
    } else if |acc| == SIZE {
      if v % 10 == 0 && scale > 0 { DigitsAre(v / 10, prec - 1, scale - 1, acc); }
    } else {
      var low := Low(v, scale, SIZE - |acc|);
      assert AddDot(scale, AddDigit(v % 10, acc)) == low + acc;
      DigestDigit(v, prec, scale, acc, low);
      DigitsAre(v / 10, prec - 1, Pred(scale), low + acc);
    }
  }

  function ZeroText(n: nat): string { seq(n, _ => '0') }

  lemma {:induction false} ZerosAre(prec: nat, scale: nat, acc: string)
    requires |acc| <= SIZE
    ensures var room := SIZE - |acc|;
      FillZeros(prec, scale, acc) ==
        if prec < scale then (if prec <= room then TooLong else Overrun)
        else if scale + 1 > room then Overrun
        else Buffered(prec - scale, 0, "." + (ZeroText(scale) + acc))
    decreases scale
  {
    if scale > 0 && prec > 0 && |acc| < SIZE {
      ZerosAre(prec - 1, scale - 1, "0" + acc);
      assert ZeroText(scale - 1) + ("0" + acc) == ZeroText(scale) + acc;
    } else if scale == 0 {
      assert ZeroText(0) + acc == acc;
    }
  }

  lemma {:induction false} TooLongIs(v: nat, prec: nat, scale: nat, acc: string)
    requires NumDigits(v) > prec && |acc| <= SIZE
    ensures FillDigits(v, prec, scale, acc) == if ErrorFits(v, prec, scale, SIZE - |acc|) then TooLong else Overrun
    decreases v
  {
    if prec == 0 {
    } else if |acc| == SIZE {
      if v % 10 == 0 && scale > 0 {
        TooLongIs(v / 10, prec - 1, scale - 1, acc);
        assert LowZeros(v, prec) <==> LowZeros(v / 10, prec - 1);
      }
    } else {
      var acc' := AddDot(scale, AddDigit(v % 10, acc));
      TooLongIs(v / 10, prec - 1, Pred(scale), acc');
      FitsShift(v, prec, scale, SIZE - |acc|);
    }
  }

  /** One digit more leaves the error's room as it is. */
  lemma FitsShift(v: nat, prec: nat, scale: nat, room: nat)
    requires prec > 0 && room > 0 && NumDigits(v) > prec
    ensures scale != 1 || room == 1 ==> ErrorFits(v, prec, scale, room) == ErrorFits(v / 10, prec - 1, Pred(scale), room - 1)
    ensures scale == 1 && room > 1 ==> ErrorFits(v, prec, scale, room) == ErrorFits(v / 10, prec - 1, 0, room - 2)
  {
    assert Shift(v, room) == Shift(v / 10, room - 1);
  }

  /** A dot is written only where the scale puts it. */
  lemma {:induction false} NoDot(v: nat, scale: nat, m: nat)
    requires scale == 0 || scale > m
    ensures Emit(v, scale, m) == Plain(v, m)
    decreases m
  {
    if m > 0 { NoDot(v / 10, Pred(scale), m - 1); }
  }

  lemma {:induction false} PlainPads(v: nat, n: nat)
    requires n >= NumDigits(v)
    ensures Plain(v, n) == ZeroText(n - NumDigits(v)) + Plain(v, NumDigits(v))
    decreases n
  {
    if n > 0 {
      PlainPads(v / 10, n - 1);
      var d := [DigitChar(v % 10)];
      assert Plain(v, n) == Plain(v / 10, n - 1) + d;
      if v == 0 {
        assert DigitChar(0) == '0';
      } else {
        assert Plain(v, NumDigits(v)) == Plain(v / 10, NumDigits(v) - 1) + d;
      }
    }
  }

  /** A fraction that is longer than the number starts with zeros. */
  lemma ShortFraction(v: nat, scale: nat)
    requires scale > NumDigits(v)
    ensures Emit(v, scale, scale) == "." + (ZeroText(scale - NumDigits(v)) + Plain(v, NumDigits(v)))
  {
    EmitSplits(v, scale, scale);
    PlainPads(v, scale);
  }

  /** How many characters the text of a number has. */
  function TextLength(x: int, scale: nat): nat {
    var n := NumDigits(Abs(x));
    Max(n, scale) + (if scale > 0 then 1 else 0) + (if scale > 0 && n <= scale then 1 else 0) + (if x < 0 then 1 else 0)
  }

  lemma TextLengthIs(x: int, scale: nat)
    ensures |NumberText(x, scale, Max(NumDigits(Abs(x)), scale))| == TextLength(x, scale)
  {
    var v := Abs(x);
    var m := Max(NumDigits(v), scale);
    PlainIs(v, m);
    if scale > 0 {
      EmitSplits(v, scale, m);
      PlainIs(v, scale);
      PlainIs(Shift(v, scale), m - scale);
    }
  }

  lemma CloseIs(x: int, scale: nat)
    requires Max(NumDigits(Abs(x)), scale) > 0
    ensures var m := Max(NumDigits(Abs(x)), scale);
      Close(x < 0, Emit(Abs(x), scale, m)) ==
        if |NumberText(x, scale, m)| <= SIZE then Printed(NumberText(x, scale, m)) else OutOfBuffer
  {
    var m := Max(NumDigits(Abs(x)), scale);
    var text := Emit(Abs(x), scale, m);
    SignedText(x, text);
    assert text != "";
  }

  lemma ClosePlain(x: int)
    requires NumDigits(Abs(x)) == SIZE
    ensures Close(x < 0, Plain(Abs(x), SIZE)) == if x > 0 then Printed(Plain(Abs(x), SIZE)) else OutOfBuffer
  {
    PlainIs(Abs(x), SIZE);
    NoLeadingZero(Abs(x), SIZE);
  }

  /** The number's digits are all written. */
  lemma LoopsAreLong(x: int, precision: nat, scale: nat)
    requires Abs(x) != INF && Abs(x) != NAN && NumDigits(Abs(x)) <= precision
    requires scale <= NumDigits(Abs(x))
    ensures FormatLoops(x, precision, scale) == Format(x, precision, scale)
  {
    var v, n := Abs(x), NumDigits(Abs(x));
    DigitsAre(v, precision, scale, "");
    TextLengthIs(x, scale);
    assert Plain(v, n) + "" == Plain(v, n) && Emit(v, scale, n) + "" == Emit(v, scale, n);
    if n == SIZE == scale {
      ClosePlain(x);
    } else if n > 0 {
      CloseIs(x, scale);
    }
  }

  lemma ShortDigits(v: nat, precision: nat, scale: nat)
    requires NumDigits(v) <= precision && NumDigits(v) < scale
    ensures FillDigits(v, precision, scale, "") ==
      if NumDigits(v) > SIZE then Overrun
      else Buffered(precision - NumDigits(v), scale - NumDigits(v), Plain(v, NumDigits(v)))
  {
    var n := NumDigits(v);
    DigitsAre(v, precision, scale, "");
    NoDot(v, scale, n);
    assert Plain(v, n) + "" == Plain(v, n);
  }

  lemma ShortZeros(v: nat, precision: nat, scale: nat)
    requires NumDigits(v) <= precision && NumDigits(v) < scale && NumDigits(v) <= SIZE
    ensures FillZeros(precision - NumDigits(v), scale - NumDigits(v), Plain(v, NumDigits(v))) ==
      if precision < scale then (if precision <= SIZE then TooLong else Overrun)
      else if scale + 1 > SIZE then Overrun
      else Buffered(precision - scale, 0, Emit(v, scale, scale))
  {
    var n := NumDigits(v);
    PlainIs(v, n);
    ZerosAre(precision - n, scale - n, Plain(v, n));
    ShortFraction(v, scale);
  }

  /** The fraction is longer than the number. */
  lemma LoopsAreShort(x: int, precision: nat, scale: nat)
    requires Abs(x) != INF && Abs(x) != NAN && NumDigits(Abs(x)) <= precision
    requires scale > NumDigits(Abs(x))
    ensures FormatLoops(x, precision, scale) == Format(x, precision, scale)
  {
    ShortDigits(Abs(x), precision, scale);
    TextLengthIs(x, scale);
    if NumDigits(Abs(x)) <= SIZE {
      ShortZeros(Abs(x), precision, scale);
      CloseIs(x, scale);
    }
  }

  /** The loops of Format compute its result, whatever precision and scale. */
  lemma LoopsAreFormat(x: int, precision: nat, scale: nat)
    requires Abs(x) != INF && Abs(x) != NAN
    ensures FormatLoops(x, precision, scale) == Format(x, precision, scale)
  {
    if NumDigits(Abs(x)) > precision {
      TooLongIs(Abs(x), precision, scale, "");
    } else if scale <= NumDigits(Abs(x)) {
      LoopsAreLong(x, precision, scale);
    } else {
      LoopsAreShort(x, precision, scale);
    }
  }

  // ---- the round trip ----

  /** The literal that Format writes. */
  function Written(x: int, scale: nat): Literal {
    var v := Abs(x);
    var m := Max(NumDigits(v), scale);
    var whole := Plain(Shift(v, scale), m - scale);
    Literal(if x < 0 then Minus else NoSign, if scale > 0 && whole == "" then "0" else whole, scale > 0,
            if scale > 0 then Plain(v, scale) else "")
  }

  function WithZero(digits: string): string { (if digits != "" && digits[0] == '.' then "0" else "") + digits }

  /** A zero stands before the dot when no integer digit does. */
  lemma FractionText(sign: Sign, whole: string, f: string)
    requires AllDigits(whole)
    ensures Text(Literal(sign, if whole == "" then "0" else whole, true, f)) == SignText(sign) + WithZero(whole + "." + f)
  {
    var i := if whole == "" then "0" else whole;
    assert i + ("." + f) == WithZero(whole + "." + f);
  }

  lemma IntegerText(sign: Sign, whole: string)
    requires AllDigits(whole)
    ensures Text(Literal(sign, whole, false, "")) == SignText(sign) + WithZero(whole)
  {
    assert whole + "" == whole;
  }

  lemma WrittenIs(x: int, scale: nat)
    requires Max(NumDigits(Abs(x)), scale) > 0
    ensures WellFormed(Written(x, scale)) && NoRedundantZeros(Written(x, scale).i)
  {
    var v := Abs(x);
    var m := Max(NumDigits(v), scale);
    PlainIs(Shift(v, scale), m - scale);
    PlainIs(v, scale);
    ShiftDigits(v, scale);
    if m > scale { NoLeadingZero(Shift(v, scale), m - scale); }
  }

  lemma WrittenText(x: int, scale: nat)
    requires Max(NumDigits(Abs(x)), scale) > 0
    ensures Text(Written(x, scale)) == NumberText(x, scale, Max(NumDigits(Abs(x)), scale))
  {
    var v := Abs(x);
    var m := Max(NumDigits(v), scale);
    var whole := Plain(Shift(v, scale), m - scale);
    var sign := if x < 0 then Minus else NoSign;
    PlainIs(Shift(v, scale), m - scale);
    if scale > 0 {
      EmitSplits(v, scale, m);
      FractionText(sign, whole, Plain(v, scale));
      SignedText(x, whole + "." + Plain(v, scale));
    } else {
      IntegerText(sign, whole);
      SignedText(x, whole);
    }
  }

  lemma SignedText(x: int, digits: string)
    ensures SignText(if x < 0 then Minus else NoSign) + WithZero(digits)
         == (if x < 0 then "-" else "") + (if digits != "" && digits[0] == '.' then "0" else "") + digits
  {
    var zero := if digits != "" && digits[0] == '.' then "0" else "";
    assert (if x < 0 then "-" else "") + (zero + digits) == (if x < 0 then "-" else "") + zero + digits;
  }

  lemma WrittenValue(x: int, scale: nat)
    requires WellFormed(Written(x, scale))
    ensures Scaled(Written(x, scale), scale) == Abs(x)
  {
    var v := Abs(x);
    var m := Max(NumDigits(v), scale);
    var whole, f := Plain(Shift(v, scale), m - scale), Plain(v, scale);
    PlainIs(v, m);
    PlainIs(v, scale);
    PlainIs(Shift(v, scale), m - scale);
    ScaledExact(Written(x, scale), scale);
    if scale > 0 {
      PlainSplits(v, scale, m);
      JoinedValue(whole, f);
    }
  }

  lemma JoinedValue(whole: string, f: string)
    requires AllDigits(whole) && AllDigits(f)
    ensures AllDigits(whole + f) && Num(Num(0, if whole == "" then "0" else whole), f) == Num(0, whole + f)
  {
    NumConcat(0, whole, f);
    assert "0"[1..] == "";
  }

  /** What Format writes, Parse reads back: exactly the special values and the numbers within
      the precision whose text fits the buffer, except zero without a fraction, which Format
      cannot write. */
  lemma RoundTrip(x: int, precision: nat, scale: nat)
    requires scale <= precision < UINT32
    ensures var t := Format(x, precision, scale);
      (t.Printed? && Parse(t.text, precision, scale) == Ok(x)) <==>
        || Abs(x) == INF || Abs(x) == NAN
        || (Abs(x) < Pow10(precision) && !(x == 0 && scale == 0) && TextLength(x, scale) <= SIZE)
  {
    DigitsBound(Abs(x), precision);
    if Abs(x) == INF || Abs(x) == NAN {
      SpecialRoundTrip(x, precision, scale);
    } else if Max(NumDigits(Abs(x)), scale) > precision {
      assert ScanFrom(ERROR_TAG, 0, false, scale, precision - scale) == Bad;
    } else if Max(NumDigits(Abs(x)), scale) > 0 {
      TextLengthIs(x, scale);
      if TextLength(x, scale) <= SIZE {
        NumberReads(x, precision, scale);
      } else if x > 0 && NumDigits(x) == SIZE == scale {
        DotlessReads(x, precision, scale);
      }
    }
  }

  lemma NumberReads(x: int, precision: nat, scale: nat)
    requires var m := Max(NumDigits(Abs(x)), scale); 0 < m <= precision < UINT32
    ensures Parse(NumberText(x, scale, Max(NumDigits(Abs(x)), scale)), precision, scale) == Ok(x)
  {
    WrittenIs(x, scale);
    WrittenText(x, scale);
    WrittenValue(x, scale);
    DigitsBound(Abs(x), precision);
    ParseIsIdeal(Written(x, scale), precision, scale);
  }

  /** A number within the precision is printed exactly when its text fits the buffer, and up to
      a precision of 37 it always does. */
  lemma PrintsIff(x: int, precision: nat, scale: nat)
    requires Abs(x) != INF && Abs(x) != NAN && 0 < Max(NumDigits(Abs(x)), scale) <= precision
    ensures Format(x, precision, scale) == Printed(NumberText(x, scale, Max(NumDigits(Abs(x)), scale))) <==>
      TextLength(x, scale) <= SIZE
    ensures precision <= 37 ==> TextLength(x, scale) <= SIZE
  {
    TextLengthIs(x, scale);
    if x > 0 && NumDigits(x) == SIZE == scale { PlainIs(x, scale); }
  }

  /** 40 digits without their dot are another number. */
  lemma DotlessReads(x: nat, precision: nat, n: nat)
    requires n == SIZE <= precision < UINT32 && NumDigits(x) == n
    ensures Parse(Plain(x, n), precision, n) != Ok(x)
  {
    var l := Literal(NoSign, Plain(x, n), false, "");
    PlainIs(x, n);
    NoLeadingZero(x, n);
    assert Text(l) == Plain(x, n);
    ParseIsIdeal(l, precision, n);
    ScaledExact(l, n);
    LongerThanInfinity(x, n);
    Grows(x, n);
  }

  lemma Grows(x: nat, n: nat)
    requires x > 0 && n > 0
    ensures x * Pow10(n) > x
  {
    Pow10Mono(1, n);
    assert Pow10(1) == 10 * Pow10(0);
    MulLe(10, Pow10(n), x);
  }

  /** More than 36 digits are more than the special values have. */
  lemma LongerThanInfinity(x: nat, n: nat)
    requires NumDigits(x) == n > 36
    ensures x > NAN
  {
    DigitsBound(x, n - 1);
    Pow10Mono(36, n - 1);
    assert Pow10(9) == 1_000_000_000;
    Pow10Add(9, 9);
    Pow10Add(18, 18);
  }

  /** A negative number of 38 fraction digits has no room for its sign. */
  lemma SignHasNoRoom(x: int)
    requires x < 0 && NumDigits(Abs(x)) == 38
    ensures Format(x, 38, 38) == OutOfBuffer
  {
    TextLengthIs(x, 38);
    LongerThanInfinity(Abs(x), 38);
  }

  /** 40 fraction digits are printed without their dot. */
  lemma DotIsLost(x: nat, n: nat)
    requires n == SIZE && NumDigits(x) == n
    ensures Format(x, n, n) == Printed(Plain(x, n)) && '.' !in Plain(x, n)
  {
    TextLengthIs(x, n);
    PlainIs(x, n);
    LongerThanInfinity(x, n);
  }

  lemma SpecialRoundTrip(x: int, precision: nat, scale: nat)
    requires scale <= precision && (Abs(x) == INF || Abs(x) == NAN)
    ensures var t := Format(x, precision, scale); t.Printed? && Parse(t.text, precision, scale) == Ok(x)
  {
    assert "-inf"[1..] == "inf" && "-nan"[1..] == "nan";
  }

  /** Infinities and NaNs are spelled out, and a number of too many digits is an error text. */
  lemma SpecialTexts(x: int, precision: nat, scale: nat)
    ensures x == INF ==> Format(x, precision, scale) == Printed("inf")
    ensures x == 0 - INF ==> Format(x, precision, scale) == Printed("-inf")
    ensures x == NAN ==> Format(x, precision, scale) == Printed("nan")
    ensures x == 0 - NAN ==> Format(x, precision, scale) == Printed("-nan")
    ensures Abs(x) != INF && Abs(x) != NAN && (NumDigits(Abs(x)) > precision || scale > precision) && precision < 40 ==>
      Format(x, precision, scale) == Printed("<error>")
  {}
}
