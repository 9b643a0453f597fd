/** Decimals as 16 bytes: `BigIntToByte` and `FromBytes` over 64-bit words. */
module DecimalBytes {
  import opened Arith
  import opened DecimalText

  const WORD: nat := 0x1_0000_0000_0000_0000

  type Words = seq<nat>

  ghost predicate AllBelow(s: seq<nat>, bound: nat) { forall k :: 0 <= k < |s| ==> s[k] < bound }

  // ---- words and bytes of a number ----

  /** The words of a number, the least significant first, without leading zeros. */
  function Bits(v: nat): Words { if v == 0 then [] else [v % WORD] + Bits(v / WORD) }

  function ValueOf(ws: Words): nat { if ws == [] then 0 else ws[0] + WORD * ValueOf(ws[1..]) }

  /** The last `n` bytes of a number, the most significant first. */
  function Bytes(v: nat, n: nat): (r: seq<nat>)
    ensures |r| == n
    decreases n, v
  {
    if n == 0 then [] else Bytes(v / 256, n - 1) + [v % 256]
  }

  /** SetBytes: the number whose bytes, the most significant first, are `bts`. */
  function FromBigEndian(bts: seq<nat>): nat {
    if bts == [] then 0 else 256 * FromBigEndian(bts[..|bts| - 1]) + bts[|bts| - 1]
  }

  function Pow256(n: nat): (r: nat)
    ensures r > 0
  {
    Power(256, n)
  }

  lemma {:induction false} ValueOfBits(v: nat)
    ensures ValueOf(Bits(v)) == v && AllBelow(Bits(v), WORD)
  {
    if v > 0 {
      ValueOfBits(v / WORD);
      assert Bits(v)[1..] == Bits(v / WORD);
    }
  }

  /** A number has `n` words iff it needs them. */
  lemma {:induction false} BitsLength(v: nat, n: nat)
    ensures v < Power(WORD, n) <==> |Bits(v)| <= n
  {
    if n > 0 && v > 0 {
      BitsLength(v / WORD, n - 1);
      var p := Power(WORD, n - 1);
      assert v == WORD * (v / WORD) + v % WORD;
      if v / WORD < p {
        MulLe(v / WORD + 1, p, WORD);
      } else {
        MulLe(p, v / WORD, WORD);
      }
    } else if n == 0 {
    }
  }

  lemma {:induction false} FromBytesOf(v: nat, n: nat)
    ensures v < Pow256(n) ==> FromBigEndian(Bytes(v, n)) == v
    ensures AllBelow(Bytes(v, n), 256)
    decreases n
  {
    if n > 0 {
      FromBytesOf(v / 256, n - 1);
      var hi := Bytes(v / 256, n - 1);
      assert Bytes(v, n)[..n - 1] == hi;
    }
  }

  lemma {:induction false} BigEndianBound(bts: seq<nat>)
    requires AllBelow(bts, 256)
    ensures FromBigEndian(bts) < Pow256(|bts|)
  {
    if bts != [] { BigEndianBound(bts[..|bts| - 1]); }
  }

  lemma LastByte(a: seq<nat>, b: seq<nat>, d: nat)
    ensures (a + b) + [d] == a + (b + [d])
  {}

  lemma {:induction false} BytesSplit(v: nat, k: nat, a: nat, b: nat)
    requires v < Pow256(b)
    ensures Bytes(v + k * Pow256(b), a + b) == Bytes(k, a) + Bytes(v, b)
    decreases b
  {
    if b > 0 {
      var p := Pow256(b - 1);
      var u := v + k * Pow256(b);
      assert u == v + 256 * (k * p) by { MulSwap(k, 256, p); }
      DivMod256(u, v, k * p);
      BytesSplit(v / 256, k, a, b - 1);
      LastByte(Bytes(k, a), Bytes(v / 256, b - 1), v % 256);
    }
  }

  lemma {:induction false} WordPower(n: nat)
    ensures Power(WORD, n) == Pow256(8 * n)
  {
    if n > 0 {
      WordPower(n - 1);
      var p := Pow256(8 * n - 8);
      assert Pow256(8 * n - 7) == 256 * p;
      assert Pow256(8 * n - 6) == 0x1_0000 * p;
      assert Pow256(8 * n - 5) == 0x100_0000 * p;
      assert Pow256(8 * n - 4) == 0x1_0000_0000 * p;
      assert Pow256(8 * n - 3) == 0x100_0000_0000 * p;
      assert Pow256(8 * n - 2) == 0x1_0000_0000_0000 * p;
      assert Pow256(8 * n - 1) == 0x100_0000_0000_0000 * p;
    }
  }

  lemma {:induction false} Pow256Mono(a: nat, b: nat)
    requires a <= b
    ensures Pow256(a) <= Pow256(b)
    ensures a < b ==> 256 * Pow256(a) <= Pow256(b)
    decreases b
  {
    if a < b { Pow256Mono(a, b - 1); }
  }

  // ---- complement ----

  function Flip(ws: Words): (r: Words)
    requires AllBelow(ws, WORD)
    ensures |r| == |ws|
  {
    seq(|ws|, i requires 0 <= i < |ws| => WORD - 1 - ws[i])
  }

  /** not: flips every word in place. */
  method Not(abs: array<nat>)
    requires AllBelow(abs[..], WORD)
    modifies abs
    ensures AllBelow(old(abs[..]), WORD) && abs[..] == Flip(old(abs[..]))
  {
    var i := 0;
    while i < abs.Length
      invariant 0 <= i <= abs.Length
      invariant forall k :: 0 <= k < i ==> abs[k] == WORD - 1 - old(abs[k])
      invariant forall k :: i <= k < abs.Length ==> abs[k] == old(abs[k])
    {
      assert old(abs[..])[i] < WORD;
      abs[i] := WORD - 1 - abs[i];
      i := i + 1;
    }
  }

  lemma {:induction false} FlipValue(ws: Words)
    requires AllBelow(ws, WORD)
    ensures ValueOf(Flip(ws)) + ValueOf(ws) + 1 == Power(WORD, |ws|)
  {
    if ws != [] {
      var t := ws[1..];
      FlipValue(t);
      assert Flip(ws)[1..] == Flip(t);
      MulSplit(ValueOf(Flip(t)), ValueOf(t), WORD);
    }
  }

  /** The words of the magnitude flipped, plus one. */
  function FlipPlusOne(v: nat): nat {
    ValueOfBits(v);
    ValueOf(Flip(Bits(v))) + 1
  }

  lemma FlipPlusOneIs(v: nat)
    ensures FlipPlusOne(v) + v == Power(WORD, |Bits(v)|)
  {
    ValueOfBits(v);
    FlipValue(Bits(v));
  }

  // ---- FromBytes ----

  /** The number FromBytes reads, before it is cut to the precision. */
  function Raw(bts: seq<nat>): int {
    var v := FromBigEndian(bts);
    if bts != [] && bts[0] >= 0x80 then Signed(true, FlipPlusOne(v)) else v
  }

  function FromBytes(bts: seq<nat>, precision: nat): int {
    if bts == [] then 0
    else if Abs(Raw(bts)) >= Pow10(precision) then Signed(bts[0] >= 0x80, INF)
    else Raw(bts)
  }

  /** The value of bytes in two's complement. */
  function TwosValue(bts: seq<nat>): int {
    FromBigEndian(bts) - if bts != [] && bts[0] >= 0x80 then Pow256(|bts|) else 0
  }

  lemma {:induction false} HighByte(bts: seq<nat>)
    requires bts != []
    ensures bts[0] * Pow256(|bts| - 1) <= FromBigEndian(bts)
    ensures AllBelow(bts, 256) ==> FromBigEndian(bts) < (bts[0] + 1) * Pow256(|bts| - 1)
  {
    var n := |bts| - 1;
    if n > 0 {
      var hi := bts[..n];
      HighByte(hi);
      var p := Pow256(n - 1);
      MulSwap(bts[0], 256, p);
      MulSwap(bts[0] + 1, 256, p);
    }
  }

  /** A negative number of `n` bytes fills every word that its bytes reach. */
  lemma NegativeWords(bts: seq<nat>)
    requires AllBelow(bts, 256) && bts != [] && bts[0] >= 0x80
    ensures |Bits(FromBigEndian(bts))| == (|bts| + 7) / 8
  {
    var n, k, v := |bts|, (|bts| + 7) / 8, FromBigEndian(bts);
    HighByte(bts);
    MulLe(1, bts[0], Pow256(n - 1));
    BigEndianBound(bts);
    WordPower(k);
    WordPower(k - 1);
    Pow256Mono(n, 8 * k);
    Pow256Mono(8 * (k - 1), n - 1);
    BitsLength(v, k);
    BitsLength(v, k - 1);
  }

  /** FromBytes reads two's complement exactly when the number is not negative or its
      bytes fill whole words. */
  lemma RawIsTwosValueIff(bts: seq<nat>)
    requires AllBelow(bts, 256) && bts != []
    ensures Raw(bts) == TwosValue(bts) <==> bts[0] < 0x80 || |bts| % 8 == 0
  {
    if bts[0] >= 0x80 {
      var n, k := |bts|, (|bts| + 7) / 8;
      NegativeWords(bts);
      FlipPlusOneIs(FromBigEndian(bts));
      WordPower(k);
      if n < 8 * k { Pow256Mono(n, 8 * k); }
    }
  }

  /** One byte is read as if it were followed by ones: -128 becomes minus infinity. */
  lemma ShortBytesFail()
    ensures FromBytes([0x80], 10) == Signed(true, INF) && TwosValue([0x80]) == -128
  {
    var bts := [0x80];
    assert bts[..0] == [];
    assert FromBigEndian(bts) == 128;
    assert Pow256(1) == 256 * Pow256(0);
    RawIsTwosValueIff(bts);
    NegativeWords(bts);
    FlipPlusOneIs(128);
    assert Power(WORD, 1) == WORD * Power(WORD, 0);
    assert Pow10(10) == 10_000_000_000;
  }

  /** FromBytes as the source computes it. */
  method ReadBytes(bts: seq<nat>, precision: nat) returns (r: int)
    requires AllBelow(bts, 256)
    ensures r == FromBytes(bts, precision)
  {
    if bts == [] { return 0; }
    var v := FromBigEndian(bts);
    r := v;
    var neg := bts[0] >= 0x80;
    if neg {
      ValueOfBits(v);
      var words := Bits(v);
      var abs := new nat[|words|](i requires 0 <= i < |words| => words[i]);
      assert abs[..] == words;
      Not(abs);
      r := Signed(true, ValueOf(abs[..]) + 1);
    }
    var bound := Pow(10, precision);
    if Abs(r) >= bound { r := Signed(neg, INF); }
  }

  // ---- BigIntToByte ----

  /** The bytes of words, the most significant first. */
  function WordBytes(ws: Words): (r: seq<nat>)
    ensures |r| == 8 * |ws|
  {
    if ws == [] then [] else WordBytes(ws[1..]) + Bytes(ws[0], 8)
  }

  function Repeat(b: nat, n: nat): (r: seq<nat>)
    ensures |r| == n && forall k :: 0 <= k < n ==> r[k] == b
  {
    if n == 0 then [] else [b] + Repeat(b, n - 1)
  }

  datatype Encoded = Encoded(bytes: seq<nat>) | OutOfRange

  /** put: the words of x, or of the complement of a negative x, then the padding. */
  function Put(x: int): Encoded {
    var ws := Bits(if x < 0 then FlipPlusOne(-x) else x);
    if |ws| > 2 then OutOfRange
    else Encoded(Repeat(if x < 0 && ws != [] then 0xff else 0, 16 - 8 * |ws|) + WordBytes(ws))
  }

  lemma Joined(a: seq<nat>, b: seq<nat>, c: seq<nat>)
    ensures (a + b) + c == a + (b + c)
  {}

  lemma {:induction false} WordBytesNext(ws: Words, d: nat)
    ensures WordBytes(ws + [d]) == Bytes(d, 8) + WordBytes(ws)
  {
    if ws == [] {
      assert ([d])[1..] == [];
    } else {
      WordBytesNext(ws[1..], d);
      assert (ws + [d])[1..] == ws[1..] + [d];
      Joined(Bytes(d, 8), WordBytes(ws[1..]), Bytes(ws[0], 8));
    }
  }

  /** The inner loop of put: the eight bytes of a word, filled from the right. */
  method PutWord(p: array<nat>, word: nat, from: nat)
    requires 8 <= from <= p.Length
    modifies p
    ensures p[..] == old(p[..from - 8]) + Bytes(word, 8) + old(p[from..])
  {
    var i, d := from, word;
    for j := 0 to 8
      invariant i == from - j
      invariant Bytes(d, 8 - j) + p[i..from] == Bytes(word, 8)
      invariant p[..from - 8] == old(p[..from - 8]) && p[from..] == old(p[from..])
    {
      i := i - 1;
      p[i] := d % 256;
      assert p[i..from] == [d % 256] + p[i + 1..from];
      d := d / 256;
    }
    assert p[..] == p[..from - 8] + p[from - 8..from] + p[from..];
  }

  /** put as the source computes it, into an array of 16 zeros. */
  method PutBytes(x: int) returns (p: array<nat>, fits: bool)
    ensures fits <==> Put(x).Encoded?
    ensures fits ==> p[..] == Put(x).bytes
  {
    p := new nat[16](_ => 0);
    var neg := x < 0;
    var ws := Bits(if neg then FlipPlusOne(-x) else x);
    var i, k := 16, 0;
    while k < |ws|
      invariant 0 <= k <= |ws| && i == 16 - 8 * k >= 0 && p.Length == 16
      invariant p[i..] == WordBytes(ws[..k])
      invariant forall m :: 0 <= m < i ==> p[m] == 0
    {
      if i == 0 { return p, false; }
      PutWord(p, ws[k], i);
      WordBytesNext(ws[..k], ws[k]);
      assert ws[..k + 1] == ws[..k] + [ws[k]];
      i, k := i - 8, k + 1;
    }
    assert ws[..k] == ws;
    Pad(p, if neg then 0xff else 0, i);
    fits := true;
    assert p[..] == p[..i] + p[i..];
    assert p[..i] == Repeat(if neg && ws != [] then 0xff else 0, i);
  }

  /** The padding before the words, if there are any. */
  method Pad(p: array<nat>, pad: nat, n: nat)
    requires p.Length == 16 && n <= 16
    modifies p
    ensures p[n..] == old(p[n..])
    ensures forall m :: 0 <= m < n ==> p[m] == if n < 16 then pad else old(p[m])
  {
    var i := n;
    while 0 < i < p.Length
      invariant 0 <= i <= n && (n == 16 ==> i == 16)
      invariant forall m :: 0 <= m < 16 ==> p[m] == if i <= m < n then pad else old(p[m])
      decreases i
    {
      i := i - 1;
      p[i] := pad;
    }
  }

  function Saturate(x: int, precision: nat): int {
    if Abs(x) != INF && Abs(x) != NAN && x != ERR && Abs(x) >= Pow10(precision) then Signed(x < 0, INF) else x
  }

  function BigIntToByte(x: int, precision: nat): Encoded { Put(Saturate(x, precision)) }

  const HALF: int := 128 * Pow256(15)

  predicate Is128(x: int) { -HALF <= x < HALF }

  function TwosComplement(x: int): seq<nat>
    requires Is128(x)
  {
    HalfIs();
    Bytes(if x < 0 then Pow256(16) + x else x, 16)
  }

  lemma HalfIs()
    ensures Pow256(16) == 2 * HALF && Power(WORD, 2) == Pow256(16)
  {
    WordPower(2);
  }

  lemma {:induction false} WordBytesAre(v: nat)
    ensures WordBytes(Bits(v)) == Bytes(v, 8 * |Bits(v)|)
  {
    if v > 0 {
      WordBytesAre(v / WORD);
      var ws, n := Bits(v), |Bits(v)| - 1;
      assert ws[1..] == Bits(v / WORD);
      WordPower(1);
      assert Power(WORD, 1) == WORD * Power(WORD, 0);
      BytesSplit(v % WORD, v / WORD, 8 * n, 8);
    }
  }

  lemma {:induction false} ZeroBytes(n: nat)
    ensures Bytes(0, n) == Repeat(0, n)
  {
    if n > 0 {
      ZeroBytes(n - 1);
      assert forall k :: 0 <= k < n ==> Bytes(0, n)[k] == 0;
    }
  }

  lemma {:induction false} OnesBytes(n: nat)
    ensures Bytes(Pow256(n) - 1, n) == Repeat(0xff, n)
  {
    if n > 0 {
      OnesBytes(n - 1);
      assert (Pow256(n) - 1) / 256 == Pow256(n - 1) - 1 && (Pow256(n) - 1) % 256 == 0xff;
      var r := Bytes(Pow256(n) - 1, n);
      assert r == Repeat(0xff, n - 1) + [0xff];
      assert forall k :: 0 <= k < n ==> r[k] == 0xff;
    }
  }

  /** Padding with zeros or ones continues a number into more bytes. */
  lemma ZeroPadded(v: nat, a: nat)
    ensures Bytes(v, a + 8 * |Bits(v)|) == Repeat(0, a) + WordBytes(Bits(v))
  {
    var n := |Bits(v)|;
    WordBytesAre(v);
    WordPower(n);
    BitsLength(v, n);
    BytesSplit(v, 0, a, 8 * n);
    ZeroBytes(a);
  }

  lemma OnesPadded(v: nat, a: nat)
    ensures Bytes(v + (Pow256(a) - 1) * Pow256(8 * |Bits(v)|), a + 8 * |Bits(v)|) == Repeat(0xff, a) + WordBytes(Bits(v))
  {
    var n := |Bits(v)|;
    WordBytesAre(v);
    WordPower(n);
    BitsLength(v, n);
    BytesSplit(v, Pow256(a) - 1, a, 8 * n);
    OnesBytes(a);
  }

  lemma PutNonNegative(x: nat)
    requires x < HALF
    ensures Put(x) == Encoded(TwosComplement(x))
  {
    HalfIs();
    BitsLength(x, 2);
    ZeroPadded(x, 16 - 8 * |Bits(x)|);
  }

  /** The complement of a magnitude has as many words as the magnitude. */
  lemma ComplementWords(v: nat)
    requires 0 < v <= HALF
    ensures var n, c := |Bits(v)|, FlipPlusOne(v);
      1 <= n <= 2 && |Bits(c)| == n && c + v == Power(WORD, n) && c < Pow256(8 * n) == Power(WORD, n)
  {
    var n, c := |Bits(v)|, FlipPlusOne(v);
    HalfIs();
    FlipPlusOneIs(v);
    BitsLength(v, 2);
    BitsLength(v, 0);
    BitsLength(c, n);
    BitsLength(c, n - 1);
    WordPower(n);
    WordPower(1);
    Pow256Mono(8, 15);
  }

  lemma Borrow(c: int, v: int, p: int, q: int)
    requires c + v == q
    ensures p * q - v == c + (p - 1) * q
  {
    MulSplit(p - 1, 1, q);
  }

  lemma PutPads(x: int, c: nat, n: nat)
    requires x < 0 && c == FlipPlusOne(-x) && |Bits(c)| == n && 1 <= n <= 2
    ensures Put(x) == Encoded(Repeat(0xff, 16 - 8 * n) + WordBytes(Bits(c)))
  {}

  lemma NegativeBytes(x: int, c: nat, a: nat, t: nat)
    requires t == a + 8 * |Bits(c)| && c - x == Pow256(8 * |Bits(c)|) && Pow256(t) + x >= 0
    ensures Bytes(Pow256(t) + x, t) == Repeat(0xff, a) + WordBytes(Bits(c))
  {
    var n := |Bits(c)|;
    Pow256Add(a, 8 * n);
    NegativeSum(x, c, Pow256(a), Pow256(8 * n), Pow256(t));
    OnesPadded(c, a);
  }

  lemma NegativeSum(x: int, c: nat, p: nat, q: nat, s: nat)
    requires s == p * q && c - x == q
    ensures s + x == c + (p - 1) * q
  {
    Borrow(c, -x, p, q);
  }

  lemma PutNegative(x: int)
    requires Is128(x) && x < 0
    ensures Put(x) == Encoded(TwosComplement(x))
  {
    ComplementWords(-x);
    var n, c := |Bits(-x)|, FlipPlusOne(-x);
    PutPads(x, c, n);
    NegativeTwos(x, c, n);
  }

  lemma NegativeTwos(x: int, c: nat, n: nat)
    requires Is128(x) && x < 0 && 1 <= n <= 2 && n == |Bits(c)| && c - x == Pow256(8 * n)
    ensures TwosComplement(x) == Repeat(0xff, 16 - 8 * n) + WordBytes(Bits(c))
  {
    HalfIs();
    NegativeBytes(x, c, 16 - 8 * n, 16);
  }

  lemma {:induction false} Pow256Add(a: nat, b: nat)
    ensures Pow256(a + b) == Pow256(a) * Pow256(b)
  {
    if a > 0 {
      Pow256Add(a - 1, b);
      assert a - 1 + b == a + b - 1;
      MulAssoc(256, Pow256(a - 1), Pow256(b));
    }
  }

  /** Every number of 128 bits is written in two's complement. */
  lemma PutIsTwosComplement(x: int)
    requires Is128(x)
    ensures Put(x) == Encoded(TwosComplement(x))
  {
    if x < 0 { PutNegative(x); } else { PutNonNegative(x); }
  }

  /** Two's complement read back. */
  lemma TwosRoundTrip(x: int)
    requires Is128(x)
    ensures TwosValue(TwosComplement(x)) == x && AllBelow(TwosComplement(x), 256) && |TwosComplement(x)| == 16
    ensures TwosComplement(x)[0] >= 0x80 <==> x < 0
  {
    HalfIs();
    var u := if x < 0 then Pow256(16) + x else x;
    FromBytesOf(u, 16);
    HighByte(Bytes(u, 16));
    SignByte(Bytes(u, 16)[0], Pow256(15), u);
  }

  lemma SignByte(b: nat, p: nat, u: nat)
    requires b * p <= u < (b + 1) * p
    ensures b >= 128 <==> u >= 128 * p
  {
    if b >= 128 { MulLe(128, b, p); } else { MulLe(b + 1, 128, p); }
  }

  lemma LargestPrecision()
    ensures Pow10(38) == 100_000_000_000_000_000_000_000_000_000_000_000_000
  {
    assert Pow10(9) == 1_000_000_000 && Pow10(10) == 10_000_000_000;
    Pow10Add(9, 10);
    Pow10Add(19, 19);
  }

  lemma PrecisionFits(x: int, precision: nat)
    requires precision <= 38
    ensures Is128(Saturate(x, precision))
  {
    Pow10Mono(precision, 38);
    LargestPrecision();
    HalfIs();
    assert Power(WORD, 2) == WORD * (WORD * Power(WORD, 0));
  }

  /** Up to precision 38 every number within the precision survives the 16 bytes, and any
      other becomes the infinity of its sign; not-a-number and error values do too. */
  lemma CodecRoundTrip(x: int, precision: nat)
    requires precision <= 38
    ensures var e := BigIntToByte(x, precision);
      && e.Encoded? && |e.bytes| == 16
      && FromBytes(e.bytes, precision) == if Abs(x) < Pow10(precision) then x else Signed(x < 0, INF)
  {
    var y := Saturate(x, precision);
    PrecisionFits(x, precision);
    PutIsTwosComplement(y);
    TwosRoundTrip(y);
    RawIsTwosValueIff(TwosComplement(y));
  }

  /** What is written: a number within the precision, an infinity, a not-a-number or the error
      value as itself, and any other number as the infinity of its sign. */
  lemma WrittenAs(x: int, precision: nat, y: int)
    requires y == if Abs(x) < Pow10(precision) || x == INF || x == 0 - INF || x == NAN || x == 0 - NAN || x == ERR then x
                  else if x < 0 then 0 - INF else INF
    requires Is128(y)
    ensures BigIntToByte(x, precision) == Encoded(TwosComplement(y))
  {
    PutIsTwosComplement(y);
  }

  /** Whatever the bytes, what is read fits 128 bits. */
  lemma ReadFits(bts: seq<nat>, precision: nat)
    requires AllBelow(bts, 256) && |bts| == 16
    ensures Is128(FromBytes(bts, precision))
  {
    RawIsTwosValueIff(bts);
    HighByte(bts);
    SignByte(bts[0], Pow256(15), FromBigEndian(bts));
    BigEndianBound(bts);
    HalfIs();
    PrecisionFits(INF, 0);
    PrecisionFits(Signed(true, INF), 0);
  }

  /** At any precision a number within it survives exactly when it fits 128 bits. */
  lemma CodecRoundTripIff(x: int, precision: nat)
    requires Abs(x) < Pow10(precision)
    ensures var e := BigIntToByte(x, precision);
      (e.Encoded? && FromBytes(e.bytes, precision) == x) <==> Is128(x)
  {
    if Is128(x) {
      PutIsTwosComplement(x);
      TwosRoundTrip(x);
      RawIsTwosValueIff(TwosComplement(x));
    } else {
      var e := Put(x);
      if e.Encoded? {
        PutBytesAre(x);
        ReadFits(e.bytes, precision);
      }
    }
  }

  lemma {:induction false} WordBytesBelow(ws: Words)
    ensures AllBelow(WordBytes(ws), 256)
  {
    if ws != [] {
      WordBytesBelow(ws[1..]);
      FromBytesOf(ws[0], 8);
    }
  }

  lemma PutBytesAre(x: int)
    requires Put(x).Encoded?
    ensures |Put(x).bytes| == 16 && AllBelow(Put(x).bytes, 256)
  {
    WordBytesBelow(Bits(if x < 0 then FlipPlusOne(-x) else x));
  }
}
