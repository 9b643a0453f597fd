/** Numbers of type float64: 53 significant bits, rounded half to even. */
module Floats {
  import opened Arith

  const TOP: real := 9_007_199_254_740_992.0
  const HALF: real := 4_503_599_627_370_496.0
  const TINY: nat := 1074 // the smallest positive float64 is 2 to the power of minus this

  function RoundEven(x: real): (r: int)
    ensures x - 0.5 <= r as real <= x + 0.5
  {
    var n := x.Floor;
    var r := x - n as real;
    if r < 0.5 then n else if r > 0.5 then n + 1 else n + n % 2
  }

  /** Rounds a number below 2^53, of which `left` more doublings are kept. */
  function Fine(x: real, left: nat): (r: real)
    ensures x >= 0.0 ==> r >= 0.0
    decreases left, x
  {
    if x >= HALF || left == 0 then RoundEven(x) as real else Fine(2.0 * x, left - 1) / 2.0
  }

  /** The float64 nearest to a number that is not negative. */
  function Float64(x: real): (r: real)
    requires x >= 0.0
    ensures r >= 0.0
    decreases x.Floor
  {
    if x < TOP then Fine(x, TINY) else 2.0 * Float64(x / 2.0)
  }

  /** The product of two floats. */
  function Times(a: real, b: real): real
    requires a >= 0.0 && b >= 0.0
  {
    Float64(Product(a, b))
  }

  function Product(a: real, b: real): (p: real)
    ensures a >= 0.0 && b >= 0.0 ==> p >= 0.0
  {
    a * b
  }

  predicate IsFloat(x: real)
    requires x >= 0.0
  {
    Float64(x) == x
  }

  // ---- exact numbers ----

  lemma {:induction false} FineInt(n: nat, left: nat)
    ensures Fine(n as real, left) == n as real
    decreases left
  {
    var x := n as real;
    if x < HALF && left > 0 {
      FineInt(2 * n, left - 1);
      assert 2.0 * x == (2 * n) as real;
    } else {
      assert x.Floor == n;
    }
  }

  /** Integers up to 2^53 are exact. */
  lemma FloatExact(n: nat)
    requires n as real <= TOP
    ensures Float64(n as real) == n as real
  {
    var x := n as real;
    if x < TOP {
      FineInt(n, TINY);
    } else {
      var h := 4_503_599_627_370_496;
      assert x / 2.0 == h as real;
      FineInt(h, TINY);
    }
  }

  // ---- order ----

  lemma RoundMono(x: real, y: real)
    requires x <= y
    ensures RoundEven(x) <= RoundEven(y)
  {}

  lemma RoundInt(x: real, n: int)
    ensures x <= n as real ==> RoundEven(x) <= n
    ensures x >= n as real ==> RoundEven(x) >= n
  {}

  lemma {:induction false} FineBelow(x: real, n: nat, left: nat)
    requires x <= n as real
    ensures Fine(x, left) <= n as real
    decreases left
  {
    if x < HALF && left > 0 {
      assert (2 * n) as real == 2.0 * n as real;
      FineBelow(2.0 * x, 2 * n, left - 1);
    } else {
      RoundInt(x, n);
    }
  }

  lemma {:induction false} FineMono(x: real, y: real, left: nat)
    requires 0.0 <= x <= y < TOP
    ensures Fine(x, left) <= Fine(y, left)
    decreases left
  {
    if left == 0 || x >= HALF {
      RoundMono(x, y);
    } else if y < HALF {
      FineMono(2.0 * x, 2.0 * y, left - 1);
    } else {
      FineBelow(x, 4_503_599_627_370_496, left);
      RoundInt(y, 4_503_599_627_370_496);
    }
  }

  lemma {:induction false} FloatAbove(x: real)
    requires x >= HALF
    ensures Float64(x) >= HALF && (x >= TOP ==> Float64(x) >= TOP)
    decreases x.Floor
  {
    if x >= TOP { FloatAbove(x / 2.0); } else { RoundInt(x, 4_503_599_627_370_496); }
  }

  /** Rounding keeps the order. */
  lemma {:induction false} FloatMono(x: real, y: real)
    requires 0.0 <= x <= y
    ensures Float64(x) <= Float64(y)
    decreases y.Floor
  {
    if y < TOP {
      FineMono(x, y, TINY);
    } else if x < TOP {
      FineBelow(x, 9_007_199_254_740_992, TINY);
      FloatAbove(y);
    } else {
      FloatMono(x / 2.0, y / 2.0);
    }
  }

  /** A power of two from 2^53 on bounds the floats of what it bounds. */
  lemma {:induction false} FloatBelow(x: real, k: nat)
    requires 0.0 <= x <= TOP * Power(2, k) as real
    ensures Float64(x) <= TOP * Power(2, k) as real
    decreases k
  {
    if x < TOP {
      FineBelow(x, 9_007_199_254_740_992, TINY);
    } else if k == 0 {
      FloatExact(9_007_199_254_740_992);
    } else {
      FloatBelow(x / 2.0, k - 1);
    }
  }

  /** A rounded number is a float. */
  lemma {:induction false} FloatIsFloat(x: real)
    requires x >= HALF
    ensures Float64(x) >= 0.0 && IsFloat(Float64(x))
    decreases x.Floor
  {
    FloatAbove(x);
    if x < TOP {
      FineBelow(x, 9_007_199_254_740_992, TINY);
      FloatExact(RoundEven(x));
    } else {
      FloatIsFloat(x / 2.0);
      assert Float64(x) / 2.0 == Float64(x / 2.0);
    }
  }

  function Apart(x: real, y: real): real { if x < y then y - x else x - y }

  lemma RoundNearest(x: real, n: int)
    ensures Apart(RoundEven(x) as real, x) <= Apart(n as real, x)
  {
    var m := x.Floor;
    if n <= m { assert n as real <= m as real <= x; } else { assert n as real >= (m + 1) as real > x; }
  }

  lemma {:induction false} FineNearest(x: real, y: real, left: nat)
    requires 0.0 <= x < TOP && 0.0 <= y && (y >= TOP || Fine(y, left) == y)
    ensures Apart(Fine(x, left), x) <= Apart(y, x)
    decreases left
  {
    if x < HALF && left > 0 {
      FineNearest(2.0 * x, 2.0 * y, left - 1);
    } else if y >= TOP {
      RoundNearest(x, 9_007_199_254_740_992);
    } else if y >= HALF || left == 0 {
      RoundNearest(x, RoundEven(y));
    } else {
      RoundNearest(x, 4_503_599_627_370_496);
    }
  }

  /** No float is nearer to a number than its rounding. */
  lemma {:induction false} FloatNearest(x: real, y: real)
    requires x >= 0.0 && y >= 0.0 && IsFloat(y)
    ensures Apart(Float64(x), x) <= Apart(y, x)
    decreases x.Floor
  {
    if x < TOP {
      FineNearest(x, y, TINY);
    } else if y >= TOP {
      FloatNearest(x / 2.0, y / 2.0);
    } else {
      FloatExact(4_503_599_627_370_496);
      FloatNearest(x / 2.0, HALF);
    }
  }

  /** From 2^52 on floats are integers. */
  lemma {:induction false} FloatWhole(x: real)
    requires x >= HALF
    ensures Float64(x) == Float64(x).Floor as real
    decreases x.Floor
  {
    if x >= TOP {
      FloatWhole(x / 2.0);
      assert Float64(x) == (2 * Float64(x / 2.0).Floor) as real;
    }
  }

  // ---- gaps below powers of two ----

  lemma RealMulLe(a: real, b: real, c: real)
    requires a <= b && c >= 0.0
    ensures a * c <= b * c
  {}

  lemma Doubles(x: real, p: nat)
    ensures x * (2 * p) as real == (2.0 * x) * p as real
  {}

  /** No float lies in the gap of 2^-53 times a power of two below it. */
  lemma {:induction false} NoFloatIn(x: real, left: nat, j: nat)
    requires x >= 0.0 && TOP - 1.0 < x * Power(2, j) as real < TOP && j <= left
    ensures Fine(x, left) != x
    decreases j
  {
    if j == 0 {
      assert x * Power(2, j) as real == x;
    } else {
      Doubles(x, Power(2, j - 1));
      RealMulLe(1.0, Power(2, j - 1) as real, 2.0 * x);
      assert 2.0 * x <= (2.0 * x) * Power(2, j - 1) as real;
      NoFloatIn(2.0 * x, left - 1, j - 1);
    }
  }

  lemma {:induction false} PowerPlus(a: nat, b: nat)
    ensures Power(2, a + b) == Power(2, a) * Power(2, b)
  {
    if a > 0 {
      PowerPlus(a - 1, b);
      MulAssoc(2, Power(2, a - 1), Power(2, b));
    }
  }

  lemma Power10()
    ensures Power(2, 10) == 1024
  {
    assert Power(2, 5) == 32;
    assert Power(2, 10) == 2 * (2 * (2 * (2 * (2 * Power(2, 5)))));
  }

  lemma Power53()
    ensures Power(2, 53) as real == TOP
  {
    Power10();
    PowerPlus(10, 10);
    PowerPlus(20, 20);
    PowerPlus(40, 10);
    PowerPlus(50, 3);
    assert Power(2, 3) == 8;
  }

  lemma PowerTop(k: nat)
    ensures Power(2, 53 + k) as real == TOP * Power(2, k) as real
  {
    Power53();
    PowerPlus(53, k);
  }

  /** A float below 2^-k is at least 2^-53 of that below it. */
  lemma BelowPower(x: real, k: nat, left: nat)
    requires x >= 0.0 && Fine(x, left) == x && Product(x, Power(2, k) as real) < 1.0 && 53 + k <= left
    ensures Product(x, Power(2, k) as real) <= 1.0 - 1.0 / TOP
  {
    PowerTop(k);
    BelowGap(x, Power(2, k), Power(2, 53 + k), left, 53 + k);
  }

  lemma BelowGap(x: real, p: nat, r: nat, left: nat, j: nat)
    requires x >= 0.0 && Fine(x, left) == x && Product(x, p as real) < 1.0 && r as real == TOP * p as real
    requires r == Power(2, j) && j <= left
    ensures Product(x, p as real) <= 1.0 - 1.0 / TOP
  {
    var y, z := x * p as real, x * r as real;
    assert z == y * TOP by { Raised(x, p, r); }
    if y > 1.0 - 1.0 / TOP {
      assert TOP - 1.0 < z < TOP;
      NoFloatIn(x, left, j);
    }
  }

  lemma Raised(x: real, p: nat, r: nat)
    requires r as real == TOP * p as real
    ensures x * r as real == (x * p as real) * TOP
  {
    assert x * (TOP * p as real) == (x * p as real) * TOP;
  }

  // ---- a share of a number ----

  predicate Reaches(x: real, left: nat)
    decreases left, x
  {
    x >= TOP || (left > 0 && Reaches(2.0 * x, left - 1))
  }

  lemma {:induction false} ReachesIn(x: real, left: nat, j: nat)
    requires j <= left && x * Power(2, j) as real >= TOP
    ensures Reaches(x, left)
    decreases j
  {
    if j > 0 {
      Doubles(x, Power(2, j - 1));
      ReachesIn(2.0 * x, left - 1, j - 1);
    } else {
      assert x * Power(2, j) as real == x;
    }
  }

  /** What is left of an integer up to 2^53 without its 2^-53rd part rounds to less. */
  lemma {:induction false} ShrinksFine(n: nat, left: nat)
    requires n as real <= TOP && Reaches(n as real, left)
    ensures Fine(n as real - n as real / TOP, left) < n as real
    decreases left
  {
    var x := n as real;
    var z := x - x / TOP;
    if z >= HALF {
      RoundsDown(n, z);
    } else {
      assert (2 * n) as real == 2.0 * x;
      ShrinksFine(2 * n, left - 1);
      assert (2 * n) as real - (2 * n) as real / TOP == 2.0 * z;
    }
  }

  lemma ShrinksWhole(n: nat, left: nat)
    requires 1 <= n && n as real <= TOP && left >= 53
    ensures Fine(n as real - n as real / TOP, left) < n as real
  {
    Power53();
    RealMulLe(1.0, n as real, Power(2, 53) as real);
    ReachesIn(n as real, left, 53);
    ShrinksFine(n, left);
  }

  lemma RoundsDown(n: nat, z: real)
    requires n as real - 1.0 <= z < n as real - 0.5
    ensures RoundEven(z) == n - 1
  {
    assert z.Floor == n - 1;
  }

  /** Without its 2^-53rd part a float rounds to less than a number. */
  predicate Shrinks(y: real, x: real) { y - y / TOP >= 0.0 && Float64(y - y / TOP) < x }

  lemma ShrinksRounded(x: real)
    requires HALF <= x < TOP
    ensures Shrinks(Float64(x), x)
  {
    FineBelow(x, 9_007_199_254_740_992, TINY);
    FloatAbove(x);
    var n := RoundEven(x);
    if Float64(x) > HALF {
      RoundsDown(n, n as real - n as real / TOP);
    } else {
      FineInt(9_007_199_254_740_991, TINY - 1);
    }
  }

  lemma FloatHalves(z: real)
    requires z >= HALF
    ensures Float64(z) == 2.0 * Float64(z / 2.0)
  {
    if z < TOP {
      assert 2.0 * (z / 2.0) == z;
      assert Float64(z / 2.0) == Fine(z, TINY - 1) / 2.0;
    }
  }

  lemma ShrinkStep(h: real, x: real)
    requires h >= HALF && x >= TOP && Shrinks(h, x / 2.0)
    ensures Shrinks(2.0 * h, x)
  {
    var z := 2.0 * h - 2.0 * h / TOP;
    assert z / 2.0 == h - h / TOP;
    FloatHalves(z);
  }

  /** The same of every number from 2^52 on that was rounded before. */
  lemma {:induction false} ShrinksFloat(x: real)
    requires x >= HALF
    ensures Shrinks(Float64(x), x)
    decreases x.Floor
  {
    if x < TOP {
      ShrinksRounded(x);
    } else {
      ShrinksFloat(x / 2.0);
      FloatAbove(x / 2.0);
      FloatHalves(x);
      ShrinkStep(Float64(x / 2.0), x);
    }
  }

  lemma SharesOrder(s: real, y: real)
    requires 0.0 <= s <= 1.0 - 1.0 / TOP && y >= 0.0
    ensures 0.0 <= Product(s, y) <= y - y / TOP
  {
    ProductLe(s, 1.0 - 1.0 / TOP, y);
    ProductMost(y);
  }

  lemma ProductLe(a: real, b: real, c: real)
    requires a <= b && c >= 0.0
    ensures Product(a, c) <= Product(b, c)
  {
    RealMulLe(a, b, c);
  }

  lemma ProductMost(y: real)
    ensures Product(1.0 - 1.0 / TOP, y) == y - y / TOP
  {}

  /** Without its 2^-53rd part the float of an integer rounds to less than the integer. */
  lemma ShrinksInt(n: nat)
    requires n > 0
    ensures var y := Float64(n as real); y >= 0.0 && y - y / TOP >= 0.0 && Float64(y - y / TOP) < n as real
  {
    var x := n as real;
    if x < HALF {
      FloatExact(n);
      ShrinksWhole(n, TINY);
    } else {
      FloatAbove(x);
      ShrinksFloat(x);
    }
  }

  /** A share below 1, computed in floats, is below the whole. */
  lemma ShareIsLess(s: real, n: nat)
    requires 0.0 <= s < 1.0 && IsFloat(s) && n > 0
    ensures Float64(n as real) >= 0.0 && 0.0 <= Times(s, Float64(n as real)) < n as real
  {
    ShrinksInt(n);
    BelowOne(s);
    ShareBelow(s, Float64(n as real), n as real);
  }

  lemma ShareBelow(s: real, y: real, x: real)
    requires 0.0 <= s <= 1.0 - 1.0 / TOP && y >= 0.0 && y - y / TOP >= 0.0 && Float64(y - y / TOP) < x
    ensures 0.0 <= Times(s, y) < x
  {
    SharesOrder(s, y);
    FloatMono(Product(s, y), y - y / TOP);
  }

  lemma BelowOne(s: real)
    requires 0.0 <= s < 1.0 && IsFloat(s)
    ensures s <= 1.0 - 1.0 / TOP
  {
    assert Power(2, 0) == 1;
    BelowPower(s, 0, TINY);
  }

  // ---- the largest duration ----

  /** What is within half a unit of 2^53 times a power of two rounds to it, or to more. */
  lemma {:induction false} RoundsUpTo(x: real, k: nat)
    requires x >= (TOP - 0.5) * Power(2, k) as real
    ensures x >= 0.0 && Float64(x) >= TOP * Power(2, k) as real
    decreases k
  {
    if k > 0 {
      RoundsUpTo(x / 2.0, k - 1);
      FloatHalves(x);
    } else if x >= TOP {
      FloatAbove(x);
    } else {
      assert Power(2, k) == 1;
      assert x.Floor == 9_007_199_254_740_991;
    }
  }

  // ---- which numbers are floats ----

  /** A number is `m` after `k` doublings. */
  predicate DoubledTo(x: real, k: nat, m: nat)
    decreases k
  {
    if k == 0 then x == m as real else DoubledTo(2.0 * x, k - 1, m)
  }

  lemma {:induction false} DoubledGrows(x: real, k: nat, m: nat)
    requires DoubledTo(x, k, m) && x >= 0.0
    ensures x <= m as real && (k > 0 ==> 2.0 * x <= m as real)
    decreases k
  {
    if k > 0 { DoubledGrows(2.0 * x, k - 1, m); }
  }

  lemma {:induction false} FineExact(x: real, m: nat, k: nat, left: nat)
    requires DoubledTo(x, k, m) && k <= left && x >= 0.0 && m as real <= TOP
    ensures Fine(x, left) == x
    decreases k
  {
    if k == 0 {
      FineInt(m, left);
    } else {
      DoubledGrows(x, k, m);
      if x >= HALF {
        FineInt(4_503_599_627_370_496, left);
      } else {
        FineExact(2.0 * x, m, k - 1, left - 1);
      }
    }
  }

  /** Up to 53 bits over any power of two up to 2^1074 is a float, and so is a product of up to 53
      bits and any power of two. */
  lemma Fractions(x: real, m: nat, k: nat)
    requires x >= 0.0 && DoubledTo(x, k, m) && k <= 1074 && m as real <= TOP
    ensures IsFloat(x)
  {
    DoubledGrows(x, k, m);
    if x < TOP { FineExact(x, m, k, TINY); } else { FloatExact(9_007_199_254_740_992); }
  }

  lemma ProductDoubles(a: real, p: nat)
    ensures Product(a, (2 * p) as real) == 2.0 * Product(a, p as real)
  {}

  lemma ProductWhole(m: nat, p: nat)
    ensures Product(m as real, p as real) == (m * p) as real
  {}

  lemma {:induction false} Multiples(m: nat, k: nat)
    requires m as real <= TOP
    ensures Product(m as real, Power(2, k) as real) >= 0.0 && IsFloat(Product(m as real, Power(2, k) as real))
  {
    var x := Product(m as real, Power(2, k) as real);
    ProductWhole(m, Power(2, k));
    if k == 0 || x <= TOP {
      FloatExact(m * Power(2, k));
    } else {
      Multiples(m, k - 1);
      ProductDoubles(m as real, Power(2, k - 1));
    }
  }

  /** Halfway between two floats the one with the even last bit is taken. */
  lemma TiesToEven()
    ensures Float64(9_007_199_254_740_993.0) == 9_007_199_254_740_992.0
    ensures Float64(9_007_199_254_740_995.0) == 9_007_199_254_740_996.0
  {
    assert RoundEven(4_503_599_627_370_496.5) == 4_503_599_627_370_496;
    assert RoundEven(4_503_599_627_370_497.5) == 4_503_599_627_370_498;
  }
}
