/** Delays that grow with the number of failures. */
module Backoff {
  import opened Arith
  import opened Floats

  const MILLISECOND: nat := 1_000_000
  const SECOND: nat := 1_000 * MILLISECOND
  const INT64: nat := 0x8000_0000_0000_0000

  /** A 64-bit signed integer after overflow. */
  function Wrap64(x: int): (r: int)
    ensures 0 - INT64 <= r < INT64
  {
    (x + INT64) % (2 * INT64) - INT64
  }

  /** The jitter limit is a float64, given by its value. */
  datatype LogBackoff = LogBackoff(slot: int, ceiling: nat, jitter: real)

  function Slot(b: LogBackoff): int { if b.slot <= 0 then SECOND else b.slot }

  function Exponent(b: LogBackoff, i: nat): nat {
    var top := if b.ceiling > 1 then b.ceiling else 1;
    if i < top then i else top
  }

  /** The delay before jitter, as a 64-bit product. */
  function Base(b: LogBackoff, i: nat): int {
    Wrap64(Slot(b) * Wrap64(if Exponent(b, i) >= 64 then 0 else Power(2, Exponent(b, i))))
  }

  function Limit(b: LogBackoff): (m: real)
    ensures m >= 0.0
  {
    if b.jitter < 0.0 then -b.jitter else b.jitter
  }

  /** How much of the delay the jitter limit fixes, at most all of it. */
  function Share(b: LogBackoff): (m: real)
    ensures 0.0 <= m <= 1.0
  {
    if Limit(b) < 1.0 then Limit(b) else 1.0
  }

  /** A float as a 64-bit integer, cut toward zero. What a float too large for one becomes is
      up to the platform. */
  function Truncated(neg: bool, x: real, far: int): int {
    if neg then -x.Floor else if x >= INT64 as real then Wrap64(far) else x.Floor
  }

  function Magnitude(d: int): nat { if d < 0 then -d else d }

  /** The fixed part of the delay, computed in floats. */
  function Fixed(b: LogBackoff, d: int, far: int): int {
    Truncated(d < 0, Times(Share(b), Float64(Magnitude(d) as real)), far)
  }

  datatype Delayed = Lasts(d: int) | Panic

  /** Delay for a random draw. The bound of the draw is a 64-bit sum, and a draw from an empty
      range panics. */
  function Delay(b: LogBackoff, i: nat, draw: nat, far: int): Delayed {
    Drawn(Base(b, i), Fixed(b, Base(b, i), far), draw)
  }

  function Drawn(d: int, f: int, draw: nat): Delayed {
    var n := Wrap64(Wrap64(d - f) + 1);
    if f == d then Lasts(f) else if n <= 0 then Panic else Lasts(Wrap64(f + draw % n))
  }

  // ---- the delay before jitter ----

  lemma {:induction false} Power2Mono(a: nat, b: nat)
    requires a <= b
    ensures Power(2, a) <= Power(2, b)
  {
    if a < b { Power2Mono(a, b - 1); }
  }

  lemma Power63()
    ensures Power(2, 63) == INT64
  {
    PowerSquare(2, 31);
    PowerSquare(4, 15);
    PowerSquare(16, 7);
    assert Power(256, 7) == 0x100_0000_0000_0000;
    assert Power(16, 15) == 16 * Power(16, 14);
    assert Power(4, 31) == 4 * Power(4, 30);
    assert Power(2, 63) == 2 * Power(2, 62);
  }

  /** Whole turns of 64 bits do not show. */
  lemma WrapTurns(x: int, k: int)
    ensures Wrap64(x + 2 * INT64 * k) == Wrap64(x)
  {
    ModTurns(x + INT64, k, 2 * INT64);
  }

  lemma ModTurns(x: int, k: int, m: nat)
    requires m > 0
    ensures (x + m * k) % m == x % m
  {
    var q, r := x / m, x % m;
    var q', r' := (x + m * k) / m, (x + m * k) % m;
    assert m * q' + r' == m * (q + k) + r by { MulSplit(q, k, m); }
    assert m * (q' - (q + k)) == r - r' by { MulSplit(q', -(q + k), m); }
    SmallMultiple(m, q' - (q + k), r - r');
  }

  lemma SmallMultiple(m: nat, k: int, r: int)
    requires m > 0 && m * k == r && 0 - m < r < m
    ensures r == 0
  {
    if k > 0 { MulLe(1, k, m); } else if k < 0 { MulLe(1, -k, m); }
  }

  lemma {:induction false} TurnsIn(e: nat)
    requires e >= 64
    ensures Power(2, e) % (2 * INT64) == 0
  {
    Power63();
    if e > 64 {
      TurnsIn(e - 1);
      var p := Power(2, e - 1);
      assert 2 * p == 0 + 2 * INT64 * (2 * (p / (2 * INT64)));
      ModTurns(0, 2 * (p / (2 * INT64)), 2 * INT64);
    } else {
      assert Power(2, 64) == 2 * Power(2, 63);
    }
  }

  /** The delay before jitter is the slot doubled `Exponent` times, as 64 bits hold it. */
  lemma BaseIs(b: LogBackoff, i: nat)
    ensures Base(b, i) == Wrap64(Slot(b) * Power(2, Exponent(b, i)))
  {
    var e := Exponent(b, i);
    if e >= 64 { TurnsIn(e); }
    WrapProduct(Slot(b), Power(2, e), Wrap64(if e >= 64 then 0 else Power(2, e)));
  }

  lemma WrapProduct(s: int, p: nat, w: int)
    requires (p - w) % (2 * INT64) == 0
    ensures Wrap64(s * w) == Wrap64(s * p)
  {
    var k := (p - w) / (2 * INT64);
    assert p == w + 2 * INT64 * k;
    Turned(s, w, k, 2 * INT64);
    WrapTurns(s * w, s * k);
  }

  lemma Turned(s: int, w: int, k: int, m: int)
    ensures s * (w + m * k) == s * w + m * (s * k)
  {
    MulSplit(w, m * k, s);
    MulAssoc(s, m, k);
    MulAssoc(m, s, k);
  }

  /** It is that number itself exactly when 64 bits hold it. */
  lemma BaseIff(b: LogBackoff, i: nat)
    ensures var full := Slot(b) * Power(2, Exponent(b, i)); Base(b, i) == full <==> full < INT64
  {
    BaseIs(b, i);
    MulLe(0, Slot(b), Power(2, Exponent(b, i)));
  }

  // ---- the fixed part ----

  /** The float64 of an integer, which is an integer. */
  function Rounded(n: nat): nat { Float64(n as real).Floor }

  lemma RoundedIs(n: nat)
    ensures Float64(n as real) == Rounded(n) as real && IsFloat(Float64(n as real))
    ensures n as real <= TOP ==> Rounded(n) == n
    ensures n as real >= TOP ==> Rounded(n) as real >= TOP
    ensures n <= INT64 ==> Rounded(n) <= INT64
  {
    if n as real < HALF {
      FloatExact(n);
    } else {
      FloatAbove(n as real);
      FloatWhole(n as real);
      FloatIsFloat(n as real);
      if n as real <= TOP { FloatExact(n); }
      Power10();
      if n <= INT64 { FloatBelow(n as real, 10); }
    }
  }

  lemma FullTimes(y: real)
    requires y >= 0.0 && IsFloat(y)
    ensures Times(1.0, y) == y
  {
    assert Product(1.0, y) == y;
  }

  /** A full jitter limit fixes the delay as a float64 holds it. */
  lemma FixedFull(b: LogBackoff, d: int, far: int)
    requires Share(b) == 1.0
    ensures var n := Rounded(Magnitude(d));
      Fixed(b, d, far) == if d < 0 then 0 - n else if n >= INT64 then Wrap64(far) else n
  {
    RoundedIs(Magnitude(d));
    FullTimes(Float64(Magnitude(d) as real));
  }

  /** A smaller one fixes less than all. */
  lemma FixedLess(b: LogBackoff, d: int, far: int)
    requires Share(b) < 1.0 && IsFloat(Limit(b)) && d <= INT64
    ensures d > 0 ==> 0 <= Fixed(b, d, far) < d
    ensures d < 0 ==> d < Fixed(b, d, far) <= 0
    ensures d == 0 ==> Fixed(b, d, far) == 0
  {
    if d != 0 {
      ShareIsLess(Share(b), Magnitude(d));
    } else {
      FloatExact(0);
      assert Product(Share(b), 0.0) == 0.0;
    }
  }

  // ---- the draw ----

  /** For all 64-bit numbers: a delay comes out exactly when the fixed part is not above the
      whole and leaves less than 2^63 - 1 to draw, or is so far above that the difference
      turns around. */
  lemma DrawnIff(d: int, f: int, draw: nat)
    requires 0 - INT64 <= d < INT64 && 0 - INT64 <= f < INT64
    ensures Drawn(d, f, draw).Lasts? <==> f <= d <= f + INT64 - 2 || f >= d + INT64 + 2
  {}

  lemma WrapSmall(x: int)
    ensures 0 - INT64 <= x < INT64 ==> Wrap64(x) == x
  {}

  lemma DrawBelow(draw: nat, n: nat)
    requires n > 0
    ensures 0 <= draw % n < n && (draw < n ==> draw % n == draw)
  {}

  lemma DrawnWithin(d: int, f: int, draw: nat)
    requires 0 - INT64 <= f <= d < INT64 && d - f <= INT64 - 2
    ensures Drawn(d, f, draw).Lasts? && f <= Drawn(d, f, draw).d <= d
    ensures draw <= d - f ==> Drawn(d, f, draw).d == f + draw
  {
    var n := d - f + 1;
    WrapSmall(d - f);
    WrapSmall(n);
    DrawBelow(draw, n);
    WrapSmall(f + draw % n);
  }

  /** Under a full jitter limit a delay comes out exactly when the float64 of the whole is not
      above it, or what the platform makes of a float too large for a duration is not. */
  predicate FullLasts(d: int, far: int) {
    if d < 0 then Rounded(-d) >= -d
    else if Rounded(d) < INT64 then Rounded(d) <= d
    else d - (INT64 - 2) <= Wrap64(far) <= d
  }

  lemma FullIff(b: LogBackoff, d: int, draw: nat, far: int)
    requires Share(b) == 1.0 && 0 - INT64 <= d < INT64
    ensures Drawn(d, Fixed(b, d, far), draw).Lasts? <==> FullLasts(d, far)
    ensures Drawn(d, Fixed(b, d, far), draw).Lasts? ==> Fixed(b, d, far) <= d <= Fixed(b, d, far) + INT64 - 2
  {
    var n := Rounded(Magnitude(d));
    RoundedIs(Magnitude(d));
    FixedFull(b, d, far);
    DrawnIff(d, Fixed(b, d, far), draw);
  }

  /** The bound of the draw overflows: the delay is the largest number and less than one is
      fixed. */
  predicate Overdraws(b: LogBackoff, i: nat) {
    Slot(b) == INT64 - 1 && Exponent(b, i) == 0 && Product(Share(b), INT64 as real) < 1.0
  }

  /** Only an undoubled slot can be the largest number. */
  lemma LargestIs(b: LogBackoff, i: nat)
    requires b.slot < INT64
    ensures Base(b, i) == INT64 - 1 <==> Slot(b) == INT64 - 1 && Exponent(b, i) == 0
  {
    var e := Exponent(b, i);
    BaseIs(b, i);
    if e > 0 {
      SwapTwo(Slot(b), Power(2, e - 1));
      EvenIsNotLargest(Slot(b) * Power(2, e - 1));
    } else {
      assert Slot(b) * Power(2, e) == Slot(b);
      WrapSmall(Slot(b));
    }
  }

  lemma SwapTwo(s: int, p: int)
    ensures s * (2 * p) == 2 * (s * p)
  {}

  lemma EvenIsNotLargest(x: int)
    ensures Wrap64(2 * x) != INT64 - 1
  {}

  lemma LargestRounds()
    ensures Float64((INT64 - 1) as real) == INT64 as real
  {
    Power10();
    FloatBelow((INT64 - 1) as real, 10);
    RoundsUpTo((INT64 - 1) as real, 10);
  }

  /** A float below 2^-63 fixes nothing of the largest number. */
  lemma LeastShare(s: real, y: real)
    requires 0.0 <= s < 1.0 && IsFloat(s) && y == INT64 as real
    ensures Times(s, y) < 1.0 <==> Product(s, y) < 1.0
  {
    FloatExact(1);
    if Product(s, y) < 1.0 {
      Power63();
      BelowPower(s, 63, TINY);
      ShrinksInt(1);
      FloatMono(Product(s, y), 1.0 - 1.0 / TOP);
    } else {
      FloatMono(1.0, Product(s, y));
    }
  }

  lemma NothingFixed(b: LogBackoff, far: int)
    requires Share(b) < 1.0 && IsFloat(Limit(b))
    ensures Fixed(b, INT64 - 1, far) == 0 <==> Product(Share(b), INT64 as real) < 1.0
  {
    LargestRounds();
    ShareIsLess(Share(b), INT64 - 1);
    LeastShare(Share(b), INT64 as real);
  }

  lemma LessIff(b: LogBackoff, d: int, draw: nat, far: int)
    requires Share(b) < 1.0 && IsFloat(Limit(b)) && 0 - INT64 <= d < INT64
    ensures Drawn(d, Fixed(b, d, far), draw).Lasts? <==> d >= 0 && !(d == INT64 - 1 && Fixed(b, d, far) == 0)
    ensures d >= 0 ==> 0 <= Fixed(b, d, far) <= d
  {
    FixedLess(b, d, far);
    DrawnIff(d, Fixed(b, d, far), draw);
  }

  /** The doubled slot as 64 bits hold it. */
  function Doubled(b: LogBackoff, i: nat): int { Wrap64(Slot(b) * Power(2, Exponent(b, i))) }

  /** A delay comes out exactly when, under a full jitter limit, the float64 of the doubled slot
      is not above it, and otherwise the doubled slot is not negative and the bound of the
      draw does not overflow. */
  lemma LastsIff(b: LogBackoff, i: nat, draw: nat, far: int)
    requires b.slot < INT64 && IsFloat(Limit(b))
    ensures Delay(b, i, draw, far).Lasts? <==>
      if Share(b) == 1.0 then FullLasts(Doubled(b, i), far) else Doubled(b, i) >= 0 && !Overdraws(b, i)
  {
    BaseIs(b, i);
    if Share(b) == 1.0 {
      FullIff(b, Base(b, i), draw, far);
    } else {
      LargestIs(b, i);
      NothingFixed(b, far);
      LessIff(b, Base(b, i), draw, far);
    }
  }

  /** A slot of the largest duration without jitter limit panics at its first delay. */
  lemma LargestSlotPanics(ceiling: nat, draw: nat, far: int)
    ensures Delay(LogBackoff(INT64 - 1, ceiling, 0.0), 0, draw, far) == Panic
  {
    var b := LogBackoff(INT64 - 1, ceiling, 0.0);
    FloatExact(0);
    assert Product(0.0, INT64 as real) == 0.0;
    LastsIff(b, 0, draw, far);
  }

  lemma FirstIsSlot(b: LogBackoff)
    requires 0 < b.slot < INT64
    ensures Doubled(b, 0) == b.slot
  {
    assert Slot(b) * Power(2, 0) == b.slot;
    WrapSmall(b.slot);
  }

  /** With a full one it lasts only where the platform turns 2^63 into a positive number. */
  lemma LargestSlotConverts(ceiling: nat, draw: nat, far: int)
    ensures Delay(LogBackoff(INT64 - 1, ceiling, 1.0), 0, draw, far).Lasts? <==> Wrap64(far) > 0
  {
    var b := LogBackoff(INT64 - 1, ceiling, 1.0);
    FloatExact(1);
    FirstIsSlot(b);
    LargestRounds();
    RoundedIs(INT64 - 1);
    LastsIff(b, 0, draw, far);
  }

  /** A slot of 2^53 + 3 is rounded up to 2^53 + 4, so a full jitter limit panics. */
  lemma RoundedUpPanics(ceiling: nat, draw: nat, far: int)
    ensures Delay(LogBackoff(9_007_199_254_740_995, ceiling, 1.0), 0, draw, far) == Panic
  {
    var n := 9_007_199_254_740_995;
    var b := LogBackoff(n, ceiling, 1.0);
    FloatExact(1);
    FirstIsSlot(b);
    RoundedIs(n);
    assert n as real / 2.0 == 4_503_599_627_370_497.5;
    assert RoundEven(4_503_599_627_370_497.5) == 4_503_599_627_370_498;
    LastsIff(b, 0, draw, far);
  }

  /** When 64 bits hold the doubled slot, the condition is on it. A delay lies between its fixed
      part and the doubled slot, and every value between is drawn. Up to 2^53 every delay comes
      out, and a full jitter limit fixes it. */
  lemma DelayWithin(b: LogBackoff, i: nat, draw: nat, far: int)
    requires b.slot < INT64 && IsFloat(Limit(b)) && Slot(b) * Power(2, Exponent(b, i)) < INT64
    ensures var full := Slot(b) * Power(2, Exponent(b, i));
      var f := Fixed(b, full, far);
      && (Delay(b, i, draw, far).Lasts? <==> if Share(b) == 1.0 then FullLasts(full, far) else !Overdraws(b, i))
      && (Delay(b, i, draw, far).Lasts? ==> f <= Delay(b, i, draw, far).d <= full)
      && (Delay(b, i, draw, far).Lasts? && draw <= full - f ==> Delay(b, i, draw, far).d == f + draw)
      && (full as real <= TOP ==> Delay(b, i, draw, far).Lasts? && 0 <= f)
      && (full as real <= TOP && Share(b) == 1.0 ==> Delay(b, i, draw, far).d == full)
  {
    var full := Slot(b) * Power(2, Exponent(b, i));
    MulLe(0, Slot(b), Power(2, Exponent(b, i)));
    WrapSmall(full);
    BaseIs(b, i);
    LastsIff(b, i, draw, far);
    LargestIs(b, i);
    WithinWhole(b, full, draw, far);
  }

  lemma WithinWhole(b: LogBackoff, d: nat, draw: nat, far: int)
    requires IsFloat(Limit(b)) && d < INT64
    ensures var f := Fixed(b, d, far);
      && (Drawn(d, f, draw).Lasts? ==> f <= Drawn(d, f, draw).d <= d)
      && (Drawn(d, f, draw).Lasts? && draw <= d - f ==> Drawn(d, f, draw).d == f + draw)
      && (d as real <= TOP ==> Drawn(d, f, draw).Lasts? && 0 <= f)
      && (d as real <= TOP && Share(b) == 1.0 ==> Drawn(d, f, draw).d == d)
  {
    var f := Fixed(b, d, far);
    if Share(b) == 1.0 {
      FullIff(b, d, draw, far);
      RoundedIs(d);
      FixedFull(b, d, far);
    } else {
      LessIff(b, d, draw, far);
    }
    if f <= d && d - f <= INT64 - 2 { DrawnWithin(d, f, draw); }
  }

  // ---- with the numbers written out ----

  /** 64-bit overflow keeps the number up to multiples of 2^64, within the signed range. */
  lemma WrapIs(x: int)
    ensures -9_223_372_036_854_775_808 <= Wrap64(x) <= 9_223_372_036_854_775_807
    ensures (x - Wrap64(x)) % 18_446_744_073_709_551_616 == 0
  {}

  /** The delay before jitter doubles the slot, one second if none is set, as often as the index
      says, at most as often as the ceiling says, and at least once after the first. */
  lemma DoublesUpTo(b: LogBackoff, i: nat, e: nat)
    requires e <= i && (e > 1 ==> e <= b.ceiling) && (e < i ==> e >= 1 && e >= b.ceiling)
    ensures Base(b, i) == Wrap64((if b.slot > 0 then b.slot else 1_000_000_000) * Power(2, e))
  {
    BaseIs(b, i);
  }

  /** A jitter limit of one or more in either sign fixes all, a smaller one that share. */
  lemma ShareIs(b: LogBackoff)
    ensures Share(b) == 1.0 <==> b.jitter >= 1.0 || b.jitter <= -1.0
    ensures 0.0 <= b.jitter < 1.0 ==> Share(b) == b.jitter
    ensures -1.0 < b.jitter <= 0.0 ==> Share(b) == -b.jitter
  {}
}
