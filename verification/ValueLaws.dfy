/** Comparison of typed values is antisymmetric, and transitive unless a number is NaN. */
module ValueLaws {
  import opened ValueOrder

  // ---- antisymmetry ----

  lemma {:induction false} SeqAnti(l: seq<int>, r: seq<int>)
    ensures CompareSeq(r, l) == -CompareSeq(l, r)
  {
    if l != [] && r != [] && l[0] == r[0] { SeqAnti(l[1..], r[1..]); }
  }

  lemma KeyAnti(l: Key, r: Key)
    ensures CompareKey(r, l) == -CompareKey(l, r)
  {
    if l.SeqKey? && r.SeqKey? { SeqAnti(l.s, r.s); }
  }

  lemma PrimitiveAnti(p: Primitive, l: Value, r: Value)
    ensures ComparePrimitives(p, r, l) == Opposite(ComparePrimitives(p, l, r))
  {
    if !p.DyNumber? && !p.OtherPrimitive? { KeyAnti(KeyOf(p, l), KeyOf(p, r)); }
  }

  /** Swapping the operands negates the result, and an error stays the same error, whatever
      the types and values. */
  lemma {:induction false} Antisymmetric(l: Typed, r: Typed)
    ensures Compare(r, l) == Opposite(Compare(l, r))
    decreases Size(l.typ), 0
  {
    if l.typ.PrimitiveType? && l.typ == r.typ {
      PrimitiveAnti(l.typ.p, l.val, r.val);
    } else if SameKind(l.typ, r.typ) {
      var ls, rs := Expand(l), Expand(r);
      if ls.Elements? && rs.Elements? { AllAnti(ls.vs, rs.vs); }
    }
  }

  lemma {:induction false} AllAnti(ls: seq<Typed>, rs: seq<Typed>)
    ensures CompareAll(rs, ls) == Opposite(CompareAll(ls, rs))
    decreases Bound(ls), 0, |ls|
  {
    if ls != [] && rs != [] {
      Antisymmetric(ls[0], rs[0]);
      AllAnti(ls[1..], rs[1..]);
    }
  }

  // ---- transitivity ----

  function Min(x: int, y: int): int { if x < y then x else y }

  /** Two results that say "not greater" and what they say together. */
  predicate Agrees(x: int, y: int, z: int) { x <= 0 && y <= 0 ==> z == Min(x, y) }

  lemma {:induction false} SeqTrans(a: seq<int>, b: seq<int>, c: seq<int>)
    ensures Agrees(CompareSeq(a, b), CompareSeq(b, c), CompareSeq(a, c))
  {
    if a != [] && b != [] && c != [] && a[0] == b[0] == c[0] { SeqTrans(a[1..], b[1..], c[1..]); }
  }

  predicate NumberOk(k: Key) { k.NumberKey? ==> !k.f.NaN? }

  lemma NumberTrans(a: Number, b: Number, c: Number)
    requires !a.NaN? && !b.NaN? && !c.NaN?
    ensures Agrees(CompareNumber(a, b), CompareNumber(b, c), CompareNumber(a, c))
  {}

  lemma KeyTrans(a: Key, b: Key, c: Key)
    requires NumberOk(a) && NumberOk(b) && NumberOk(c)
    requires a.IntKey? == b.IntKey? == c.IntKey? && a.PairKey? == b.PairKey? == c.PairKey? && a.SeqKey? == b.SeqKey? == c.SeqKey?
    ensures Agrees(CompareKey(a, b), CompareKey(b, c), CompareKey(a, c))
  {
    if a.SeqKey? { SeqTrans(a.s, b.s, c.s); }
    if a.NumberKey? { NumberTrans(a.f, b.f, c.f); }
  }

  /** No floating-point number in the value is NaN. */
  predicate NoNaN(v: Value)
    decreases v
  {
    && (v.one.FloatValue? || v.one.DoubleValue? ==> !v.one.f.NaN?)
    && (v.one.NestedValue? ==> NoNaN(v.one.nested))
    && (forall i :: 0 <= i < |v.items| ==> NoNaN(v.items[i]))
  }

  predicate Both(x: Outcome, y: Outcome) { x.Order? && y.Order? && x.cmp <= 0 && y.cmp <= 0 }

  lemma PrimitiveTrans(p: Primitive, a: Value, b: Value, c: Value)
    requires NoNaN(a) && NoNaN(b) && NoNaN(c)
    requires Both(ComparePrimitives(p, a, b), ComparePrimitives(p, b, c))
    ensures ComparePrimitives(p, a, c) == Order(Min(ComparePrimitives(p, a, b).cmp, ComparePrimitives(p, b, c).cmp))
  {
    if a.one.NullFlag? || b.one.NullFlag? || c.one.NullFlag? {
    } else if p.DyNumber? {
      NumberTrans(Parsed(a), Parsed(b), Parsed(c));
    } else {
      KeyTrans(KeyOf(p, a), KeyOf(p, b), KeyOf(p, c));
    }
  }

  lemma {:induction false} UnwrapNoNaN(v: Typed)
    requires NoNaN(v.val)
    ensures NoNaN(Unwrap(v).val)
    decreases v.typ
  {
    if v.typ.OptionalType? {
      UnwrapNoNaN(Typed(v.typ.item, if v.val.one.NestedValue? then v.val.one.nested else v.val));
    }
  }

  ghost predicate AllNoNaN(vs: seq<Typed>) { forall i :: 0 <= i < |vs| ==> NoNaN(vs[i].val) }

  lemma ExpandNoNaN(v: Typed)
    requires NoNaN(v.val) && Expand(v).Elements?
    ensures AllNoNaN(Expand(v).vs)
  {
    var vs := Expand(v).vs;
    forall i | 0 <= i < |vs| ensures NoNaN(vs[i].val) {
      var item := v.val.items[i];
      match v.typ
      case TupleType(ts) => UnwrapNoNaN(Typed(ts[i], item));
      case StructType(ts) => UnwrapNoNaN(Typed(ts[i], item));
      case ListType(t) => UnwrapNoNaN(Typed(t, item));
    }
  }

  /** Comparisons chain: if the first two values and the last two are in order, so are the
      first and the last, without an error, and they are equal only if both pairs are. This
      holds for tuples, lists and structs of different lengths and element types too. */
  lemma {:induction false} Transitive(a: Typed, b: Typed, c: Typed)
    requires NoNaN(a.val) && NoNaN(b.val) && NoNaN(c.val)
    requires Both(Compare(a, b), Compare(b, c))
    ensures Compare(a, c) == Order(Min(Compare(a, b).cmp, Compare(b, c).cmp))
    decreases Size(a.typ), 0
  {
    if a.typ.PrimitiveType? {
      PrimitiveTrans(a.typ.p, a.val, b.val, c.val);
    } else {
      ExpandNoNaN(a);
      ExpandNoNaN(b);
      ExpandNoNaN(c);
      AllTrans(Expand(a).vs, Expand(b).vs, Expand(c).vs);
    }
  }

  lemma {:induction false} AllTrans(a: seq<Typed>, b: seq<Typed>, c: seq<Typed>)
    requires AllNoNaN(a) && AllNoNaN(b) && AllNoNaN(c)
    requires Both(CompareAll(a, b), CompareAll(b, c))
    ensures CompareAll(a, c) == Order(Min(CompareAll(a, b).cmp, CompareAll(b, c).cmp))
    decreases Bound(a), 0, |a|
  {
    if a != [] && b != [] && c != [] {
      Transitive(a[0], b[0], c[0]);
      if Compare(a[0], b[0]) == Order(0) && Compare(b[0], c[0]) == Order(0) {
        AllTrans(a[1..], b[1..], c[1..]);
      }
    }
  }

  // ---- what the order is ----

  /** A value under `n` optional types, nested as often or not at all. */
  function Optional(v: Typed, n: nat, nested: bool): Typed {
    if n == 0 then v
    else
      var u := Optional(v, n - 1, nested);
      Typed(OptionalType(u.typ), if nested then Value(NestedValue(u.val), [], 0) else u.val)
  }

  lemma {:induction false} BareValue(v: Typed, n: nat)
    ensures Optional(v, n, false).val == v.val
  {
    if n > 0 { BareValue(v, n - 1); }
  }

  /** Optional types do not matter: a value compares as it does without them. */
  lemma {:induction false} OptionalsVanish(v: Typed, n: nat, nested: bool)
    requires nested || !v.val.one.NestedValue?
    ensures Unwrap(Optional(v, n, nested)) == Unwrap(v)
  {
    if n > 0 {
      OptionalsVanish(v, n - 1, nested);
      BareValue(v, n - 1);
    }
  }

  // By the values on the wire: `one` is what the field of a type holds, under any optional types.

  /** A value of a primitive type. */
  ghost predicate Is(v: Typed, p: Primitive, one: OneOf, high: int) {
    Unwrap(v).typ == PrimitiveType(p) && Unwrap(v).val.one == one && Unwrap(v).val.high == high
  }

  /** Optional types around it do not matter. */
  lemma OptionalIs(p: Primitive, one: OneOf, high: int, n: nat, nested: bool)
    requires nested || !one.NestedValue?
    ensures Is(Optional(Typed(PrimitiveType(p), Value(one, [], high)), n, nested), p, one, high)
  {
    OptionalsVanish(Typed(PrimitiveType(p), Value(one, [], high)), n, nested);
  }

  /** The outcome of comparing two things of which one is smaller, or neither. */
  predicate Orders(o: Outcome, less: bool, same: bool) { (o == Order(-1) <==> less) && (o == Order(0) <==> same) && o.Order? }

  /** The number that a field holds. */
  predicate Holds(one: OneOf, p: Primitive, i: int) {
    match p
    case Int8 | Int16 | Int32 => one == Int32Value(i)
    case Uint8 | Uint16 | Uint32 | Date | Datetime => one == Uint32Value(i)
    case Int64 | Interval => one == Int64Value(i)
    case Uint64 | Timestamp => one == Uint64Value(i)
    case _ => false
  }

  /** No number is in the field of the type. */
  predicate Unset(one: OneOf, p: Primitive) {
    match p
    case Int8 | Int16 | Int32 => !one.Int32Value?
    case Uint8 | Uint16 | Uint32 | Date | Datetime => !one.Uint32Value?
    case Int64 | Interval => !one.Int64Value?
    case Uint64 | Timestamp => !one.Uint64Value?
    case _ => false
  }

  /** Integers, dates, times and intervals are in the order of the numbers that their fields
      hold; a field that is not set reads as zero. */
  lemma IntegersInOrder(l: Typed, r: Typed, p: Primitive, x: OneOf, y: OneOf, a: int, b: int, h: int, g: int)
    requires Is(l, p, x, h) && Is(r, p, y, g) && Holds(y, p, b)
    ensures Holds(x, p, a) ==> Orders(CompareTyped(l, r), a < b, a == b)
    ensures Unset(x, p) && !x.NullFlag? ==> Orders(CompareTyped(l, r), 0 < b, 0 == b)
  {}

  /** False is below true. */
  lemma BoolsInOrder(l: Typed, r: Typed, a: bool, b: bool, h: int, g: int)
    requires Is(l, Bool, BoolValue(a), h) && Is(r, Bool, BoolValue(b), g)
    ensures Orders(CompareTyped(l, r), !a && b, a == b)
  {}

  /** UUIDs are in the order of their high halves, then of their low ones. */
  lemma UuidsInOrder(l: Typed, r: Typed, a: int, b: int, h: int, g: int)
    requires Is(l, Uuid, Low128(a), h) && Is(r, Uuid, Low128(b), g)
    ensures Orders(CompareTyped(l, r), h < g || (h == g && a < b), h == g && a == b)
  {}

  /** A float or a double. */
  ghost predicate IsNumber(v: Typed, p: Primitive, f: Number, h: int) {
    (p == Float && Is(v, p, FloatValue(f), h)) || (p == Double && Is(v, p, DoubleValue(f), h))
  }

  predicate Less(f: Number, g: Number) {
    && f.Number? && g.Number?
    && (f.inf < g.inf || (f.inf == g.inf == 0 && f.x < g.x))
  }

  /** Floating-point numbers are in their order, between the infinities; one that is NaN is
      equal to all. */
  lemma FloatsInOrder(l: Typed, r: Typed, p: Primitive, f: Number, g: Number, h: int, i: int)
    requires IsNumber(l, p, f, h) && IsNumber(r, p, g, i)
    ensures Orders(CompareTyped(l, r), Less(f, g), !Less(f, g) && !Less(g, f))
  {}

  /** Other fields that are not set read as false, zero and the empty text. */
  lemma UnsetReads(l: Typed, r: Typed, p: Primitive, x: OneOf, h: int, g: Number, t: seq<int>, f: Number, b: int, i: int)
    requires Is(l, p, x, h) && !x.NullFlag?
    ensures Is(r, p, BoolValue(true), i) && p == Bool && !x.BoolValue? ==> CompareTyped(l, r) == Order(-1)
    ensures IsNumber(r, p, g, i) && !x.FloatValue? && !x.DoubleValue? ==>
      Orders(CompareTyped(l, r), Less(Number(0, 0.0), g), !Less(Number(0, 0.0), g) && !Less(g, Number(0, 0.0)))
    ensures Is(r, p, BytesValue(t), i) && p == String && !x.BytesValue? ==> Orders(CompareTyped(l, r), t != [], t == [])
    ensures Is(r, p, TextValue(t, f), i) && p == Utf8 && !x.TextValue? ==> Orders(CompareTyped(l, r), t != [], t == [])
    ensures Is(r, p, Low128(b), h) && p == Uuid && !x.Low128? ==> Orders(CompareTyped(l, r), 0 < b, 0 == b)
  {}

  /** DyNumbers are in the order of the numbers they spell; a text that spells none is an error. */
  lemma DyNumbersInOrder(l: Typed, r: Typed, s: seq<int>, f: Number, t: seq<int>, g: Number, h: int, i: int)
    requires Is(l, DyNumber, TextValue(s, f), h) && Is(r, DyNumber, TextValue(t, g), i)
    ensures f.NaN? || g.NaN? ==> CompareTyped(l, r) == BadNumber
    ensures f.Number? && g.Number? ==> Orders(CompareTyped(l, r), Less(f, g), !Less(f, g) && !Less(g, f))
  {}

  /** Strings and texts are in byte order, and equal only if identical. */
  lemma TextsInOrder(l: Typed, r: Typed, s: seq<int>, t: seq<int>, f: Number, g: Number, h: int, i: int)
    requires (Is(l, String, BytesValue(s), h) && Is(r, String, BytesValue(t), i)) || (Is(l, Utf8, TextValue(s, f), h) && Is(r, Utf8, TextValue(t, g), i))
    ensures Orders(CompareTyped(l, r), exists k :: BytesSmallerFrom(s, t, k), s == t)
  {
    BytesInOrder(s, t);
  }

  /** Values of different primitive types cannot be compared, nor those of other ones. */
  lemma TypesMustAgree(l: Typed, r: Typed, p: Primitive, q: Primitive, x: OneOf, y: OneOf, h: int, g: int)
    requires Is(l, p, x, h) && Is(r, q, y, g)
    ensures p != q || (p.OtherPrimitive? && !x.NullFlag? && !y.NullFlag?) ==> CompareTyped(l, r) == NotComparable
  {}

  /** Under any optional types, a null is below every value of the same primitive type that is
      not null, and equal to another null. */
  lemma NullFirst(p: Primitive, l: Value, r: Value, m: nat, n: nat)
    requires l.one.NullFlag?
    ensures CompareTyped(Optional(Typed(PrimitiveType(p), l), m, false), Optional(Typed(PrimitiveType(p), r), n, true)) ==
      Order(if r.one.NullFlag? then 0 else -1)
  {
    OptionalsVanish(Typed(PrimitiveType(p), l), m, false);
    OptionalsVanish(Typed(PrimitiveType(p), r), n, true);
  }

  /** The first `k` bytes are equal, and then the left text ends or has a smaller byte. */
  ghost predicate BytesSmallerFrom(l: seq<int>, r: seq<int>, k: nat) {
    k <= |l| && k < |r| && l[..k] == r[..k] && (k == |l| || l[k] < r[k])
  }

  /** Texts and byte strings are in byte order. */
  lemma {:induction false} BytesInOrder(l: seq<int>, r: seq<int>)
    ensures CompareSeq(l, r) == -1 <==> exists k :: BytesSmallerFrom(l, r, k)
    ensures CompareSeq(l, r) == 0 <==> l == r
  {
    if l == [] {
      if r != [] { assert BytesSmallerFrom(l, r, 0); }
    } else if r != [] {
      var a, b := l[1..], r[1..];
      assert l == [l[0]] + a && r == [r[0]] + b;
      BytesInOrder(a, b);
      if k: nat :| BytesSmallerFrom(l, r, k) && k > 0 {
        assert l[..k][0] == r[..k][0];
        assert a[..k - 1] == l[..k][1..] && b[..k - 1] == r[..k][1..];
        assert BytesSmallerFrom(a, b, k - 1);
      }
      if l[0] < r[0] { assert BytesSmallerFrom(l, r, 0); }
      if k: nat :| BytesSmallerFrom(a, b, k) && l[0] == r[0] {
        assert l[..k + 1] == [l[0]] + a[..k] && r[..k + 1] == [r[0]] + b[..k];
        assert BytesSmallerFrom(l, r, k + 1);
      }
    }
  }

  /** The first `k` elements are equal, and then the left one ends or has a smaller element. */
  ghost predicate SmallerFrom(l: seq<Typed>, r: seq<Typed>, k: nat) {
    && k <= |l| && k < |r|
    && (forall i :: 0 <= i < k ==> Compare(l[i], r[i]) == Order(0))
    && (k == |l| || Compare(l[k], r[k]) == Order(-1))
  }

  /** Tuples and lists are in the order of their first difference; a prefix comes first. */
  lemma {:induction false} Lexicographic(l: seq<Typed>, r: seq<Typed>)
    ensures CompareAll(l, r) == Order(-1) <==> exists k :: SmallerFrom(l, r, k)
    decreases |l|
  {
    if l == [] {
      if r != [] { assert SmallerFrom(l, r, 0); }
    } else if r != [] {
      var a, b := l[1..], r[1..];
      Lexicographic(a, b);
      if k: nat :| SmallerFrom(l, r, k) && k > 0 {
        forall i | 0 <= i < k - 1 ensures Compare(a[i], b[i]) == Order(0) { assert Compare(l[i + 1], r[i + 1]) == Order(0); }
        assert SmallerFrom(a, b, k - 1);
      }
      if Compare(l[0], r[0]) == Order(-1) { assert SmallerFrom(l, r, 0); }
      if k: nat :| SmallerFrom(a, b, k) && Compare(l[0], r[0]) == Order(0) {
        forall i | 0 <= i < k + 1 ensures Compare(l[i], r[i]) == Order(0) { assert i > 0 ==> l[i] == a[i - 1] && r[i] == b[i - 1]; }
        assert SmallerFrom(l, r, k + 1);
      }
    }
  }

  /** The k-th elements of two tuples, lists or structs, compared as values of their own types. */
  function ElementsCompared(ls: seq<Type>, l: seq<Value>, rs: seq<Type>, r: seq<Value>, k: nat): Outcome
    requires k < |l| <= |ls| && k < |r| <= |rs|
  {
    CompareTyped(Typed(ls[k], l[k]), Typed(rs[k], r[k]))
  }

  /** The first `k` elements are equal, and then the left side ends or has a smaller element. */
  ghost predicate FirstSmaller(ls: seq<Type>, l: seq<Value>, rs: seq<Type>, r: seq<Value>, k: nat)
    requires |l| <= |ls| && |r| <= |rs|
  {
    && k <= |l| && k < |r|
    && (forall i :: 0 <= i < k ==> ElementsCompared(ls, l, rs, r, i) == Order(0))
    && (k == |l| || ElementsCompared(ls, l, rs, r, k) == Order(-1))
  }

  ghost predicate AllSame(ls: seq<Type>, l: seq<Value>, rs: seq<Type>, r: seq<Value>)
    requires |l| <= |ls| && |r| <= |rs|
  {
    |l| == |r| && forall i :: 0 <= i < |l| ==> ElementsCompared(ls, l, rs, r, i) == Order(0)
  }

  lemma {:induction false} EqualIff(l: seq<Typed>, r: seq<Typed>)
    ensures CompareAll(l, r) == Order(0) <==> |l| == |r| && forall i :: 0 <= i < |l| ==> Compare(l[i], r[i]) == Order(0)
    decreases |l|
  {
    if l != [] && r != [] {
      EqualIff(l[1..], r[1..]);
      if |l| == |r| {
        assert forall i :: 1 <= i < |l| ==> l[i] == l[1..][i - 1] && r[i] == r[1..][i - 1];
      }
    }
  }

  lemma FieldsSmaller(ls: seq<Type>, l: seq<Value>, rs: seq<Type>, r: seq<Value>)
    requires |l| <= |ls| && |r| <= |rs|
    ensures CompareAll(Fields(ls, l), Fields(rs, r)) == Order(-1) <==> exists k :: FirstSmaller(ls, l, rs, r, k)
    ensures CompareAll(Fields(ls, l), Fields(rs, r)) == Order(0) <==> AllSame(ls, l, rs, r)
  {
    var a, b := Fields(ls, l), Fields(rs, r);
    Lexicographic(a, b);
    EqualIff(a, b);
    assert |l| == |r| ==> forall i :: 0 <= i < |l| ==> ElementsCompared(ls, l, rs, r, i) == Compare(a[i], b[i]);
    forall k: nat ensures SmallerFrom(a, b, k) <==> FirstSmaller(ls, l, rs, r, k) { SameSmaller(ls, l, rs, r, k); }
  }

  lemma SameSmaller(ls: seq<Type>, l: seq<Value>, rs: seq<Type>, r: seq<Value>, k: nat)
    requires |l| <= |ls| && |r| <= |rs|
    ensures SmallerFrom(Fields(ls, l), Fields(rs, r), k) <==> FirstSmaller(ls, l, rs, r, k)
  {
    var a, b := Fields(ls, l), Fields(rs, r);
    forall i | 0 <= i < |l| && i < |r| ensures ElementsCompared(ls, l, rs, r, i) == Compare(a[i], b[i]) {}
  }

  function TupleOf(ts: seq<Type>, vs: seq<Value>): Typed { Typed(TupleType(ts), Value(NoValue, vs, 0)) }

  function StructOf(ts: seq<Type>, vs: seq<Value>): Typed { Typed(StructType(ts), Value(NoValue, vs, 0)) }

  function ListOf(t: Type, vs: seq<Value>): Typed { Typed(ListType(t), Value(NoValue, vs, 0)) }

  /** Tuples are compared element by element, each by its own type; those without a value for
      some element make the source panic. Structs that have more values than members do. */
  lemma TuplesInOrder(ls: seq<Type>, l: seq<Value>, rs: seq<Type>, r: seq<Value>)
    ensures |l| < |ls| || |r| < |rs| ==> CompareTyped(TupleOf(ls, l), TupleOf(rs, r)) == Panic
    ensures |l| >= |ls| && |r| >= |rs| ==>
      var o := CompareTyped(TupleOf(ls, l), TupleOf(rs, r));
      && (o == Order(-1) <==> exists k :: FirstSmaller(ls, l[..|ls|], rs, r[..|rs|], k))
      && (o == Order(0) <==> AllSame(ls, l[..|ls|], rs, r[..|rs|]))
    ensures |l| > |ls| || |r| > |rs| ==> CompareTyped(StructOf(ls, l), StructOf(rs, r)) == Panic
    ensures |l| <= |ls| && |r| <= |rs| ==>
      var o := CompareTyped(StructOf(ls, l), StructOf(rs, r));
      && (o == Order(-1) <==> exists k :: FirstSmaller(ls, l, rs, r, k))
      && (o == Order(0) <==> AllSame(ls, l, rs, r))
  {
    if |l| >= |ls| && |r| >= |rs| { FieldsSmaller(ls, l[..|ls|], rs, r[..|rs|]); }
    if |l| <= |ls| && |r| <= |rs| { FieldsSmaller(ls, l, rs, r); }
  }

  /** Lists too, all elements by the one element type. */
  lemma ListsInOrder(lt: Type, l: seq<Value>, rt: Type, r: seq<Value>)
    ensures var ls, rs := seq(|l|, _ => lt), seq(|r|, _ => rt);
      var o := CompareTyped(ListOf(lt, l), ListOf(rt, r));
      && (o == Order(-1) <==> exists k :: FirstSmaller(ls, l, rs, r, k))
      && (o == Order(0) <==> AllSame(ls, l, rs, r))
  {
    var ls, rs := seq(|l|, _ => lt), seq(|r|, _ => rt);
    assert Items(lt, l) == Fields(ls, l) && Items(rt, r) == Fields(rs, r);
    FieldsSmaller(ls, l, rs, r);
  }

  /** Values of different kinds cannot be compared. */
  lemma KindsMustAgree(ts: seq<Type>, t: Type, p: Primitive, l: seq<Value>, r: seq<Value>, v: Value)
    ensures CompareTyped(TupleOf(ts, l), ListOf(t, r)) == NotComparable
    ensures CompareTyped(ListOf(t, l), StructOf(ts, r)) == NotComparable
    ensures CompareTyped(TupleOf(ts, l), StructOf(ts, r)) == NotComparable
    ensures CompareTyped(Typed(PrimitiveType(p), v), TupleOf(ts, r)) == NotComparable
    ensures CompareTyped(Typed(OtherType, v), Typed(OtherType, v)) == NotComparable
  {}

  function DoubleOf(f: Number): Typed { Typed(PrimitiveType(Double), Value(DoubleValue(f), [], 0)) }

  ghost predicate AtMost(l: Typed, r: Typed) { CompareTyped(l, r).Order? && CompareTyped(l, r).cmp <= 0 }

  lemma DoublesCompare(l: Number, r: Number)
    ensures CompareTyped(DoubleOf(l), DoubleOf(r)) == Order(CompareNumber(l, r))
    ensures AtMost(DoubleOf(l), DoubleOf(r)) <==> CompareNumber(l, r) <= 0
  {}

  /** The middle one of three numbers in order is between the others. */
  ghost predicate Chains(a: Number, b: Number, c: Number) {
    AtMost(DoubleOf(a), DoubleOf(b)) && AtMost(DoubleOf(b), DoubleOf(c)) ==> AtMost(DoubleOf(a), DoubleOf(c))
  }

  lemma ChainsWithout(a: Number, b: Number, c: Number)
    requires !a.NaN? && !b.NaN? && !c.NaN?
    ensures Chains(a, b, c)
  {
    DoublesCompare(a, b);
    DoublesCompare(b, c);
    DoublesCompare(a, c);
    NumberTrans(a, b, c);
  }

  /** A double chains with every pair of doubles around it exactly when it is not NaN. */
  lemma ChainsIff(b: Number)
    ensures (forall a: Number, c: Number :: a.Number? && c.Number? ==> Chains(a, b, c)) <==> !b.NaN?
  {
    if b.NaN? {
      var two, one := Number(0, 2.0), Number(0, 1.0);
      DoublesCompare(two, b);
      DoublesCompare(b, one);
      DoublesCompare(two, one);
      assert !Chains(two, b, one);
    } else {
      forall a: Number, c: Number | a.Number? && c.Number? ensures Chains(a, b, c) { ChainsWithout(a, b, c); }
    }
  }
}
