/** The order of typed values: `Compare` of the test utilities. */
module ValueOrder {

  // ---- types and values ----

  datatype Primitive =
    | Bool | Int8 | Uint8 | Int16 | Uint16 | Int32 | Uint32 | Int64 | Uint64 | Float | Double
    | Date | Datetime | Timestamp | Interval | String | Utf8 | Uuid | DyNumber
    | OtherPrimitive(id: nat)

  datatype Type =
    | PrimitiveType(p: Primitive)
    | OptionalType(item: Type)
    | ListType(item: Type)
    | TupleType(elements: seq<Type>)
    | StructType(members: seq<Type>)
    | OtherType

  /** A floating-point number; `inf` is the sign of an infinity and 0 for a finite number. */
  datatype Number = NaN | Number(inf: int, x: real)

  datatype OneOf =
    | BoolValue(b: bool)
    | Int32Value(i: int)
    | Uint32Value(i: int)
    | Int64Value(i: int)
    | Uint64Value(i: int)
    | FloatValue(f: Number)
    | DoubleValue(f: Number)
    | BytesValue(bytes: seq<int>)
    | TextValue(text: seq<int>, parsed: Number) // `parsed` is the decimal number the text spells, if any
    | Low128(i: int)
    | NullFlag
    | NestedValue(nested: Value)
    | NoValue

  datatype Value = Value(one: OneOf, items: seq<Value>, high: int)

  datatype Typed = Typed(typ: Type, val: Value)

  datatype Outcome = Order(cmp: int) | NotComparable | BadNumber | Panic

  function Opposite(o: Outcome): Outcome { if o.Order? then Order(-o.cmp) else o }

  // ---- primitives ----

  /** What a comparator reads of a value; a field that is not set reads as zero. */
  datatype Key = IntKey(i: int) | PairKey(hi: int, lo: int) | SeqKey(s: seq<int>) | NumberKey(f: Number)

  function KeyOf(p: Primitive, v: Value): (k: Key)
    requires !p.DyNumber? && !p.OtherPrimitive?
    ensures p.Uuid? <==> k.PairKey?
    ensures p.Float? || p.Double? <==> k.NumberKey?
    ensures p.String? || p.Utf8? <==> k.SeqKey?
  {
    match p
    case Bool => IntKey(if v.one.BoolValue? && v.one.b then 1 else 0)
    case Int8 | Int16 | Int32 => IntKey(if v.one.Int32Value? then v.one.i else 0)
    case Uint8 | Uint16 | Uint32 | Date | Datetime => IntKey(if v.one.Uint32Value? then v.one.i else 0)
    case Int64 | Interval => IntKey(if v.one.Int64Value? then v.one.i else 0)
    case Uint64 | Timestamp => IntKey(if v.one.Uint64Value? then v.one.i else 0)
    case Float => NumberKey(if v.one.FloatValue? then v.one.f else Number(0, 0.0))
    case Double => NumberKey(if v.one.DoubleValue? then v.one.f else Number(0, 0.0))
    case String => SeqKey(if v.one.BytesValue? then v.one.bytes else [])
    case Utf8 => SeqKey(if v.one.TextValue? then v.one.text else [])
    case Uuid => PairKey(v.high, if v.one.Low128? then v.one.i else 0)
  }

  function CompareInt(l: int, r: int): int { if l < r then -1 else if l > r then 1 else 0 }

  function CompareReal(l: real, r: real): int { if l < r then -1 else if l > r then 1 else 0 }

  /** Every comparison with a number that is none is an equality. */
  function CompareNumber(l: Number, r: Number): int {
    if l.NaN? || r.NaN? then 0
    else if l.inf != r.inf then CompareInt(l.inf, r.inf)
    else if l.inf != 0 then 0
    else CompareReal(l.x, r.x)
  }

  function CompareSeq(l: seq<int>, r: seq<int>): (c: int)
    ensures -1 <= c <= 1
  {
    if l == [] || r == [] then CompareInt(|l|, |r|)
    else if l[0] != r[0] then CompareInt(l[0], r[0])
    else CompareSeq(l[1..], r[1..])
  }

  function CompareKey(l: Key, r: Key): (c: int)
    ensures -1 <= c <= 1
  {
    match (l, r)
    case (IntKey(a), IntKey(b)) => CompareInt(a, b)
    case (PairKey(h, a), PairKey(g, b)) => if h != g then CompareInt(h, g) else CompareInt(a, b)
    case (SeqKey(a), SeqKey(b)) => CompareSeq(a, b)
    case (NumberKey(a), NumberKey(b)) => CompareNumber(a, b)
    case _ => 0
  }

  function Parsed(v: Value): Number { if v.one.TextValue? then v.one.parsed else NaN }

  function CompareDyNumber(l: Value, r: Value): Outcome {
    if Parsed(l).NaN? || Parsed(r).NaN? then BadNumber else Order(CompareNumber(Parsed(l), Parsed(r)))
  }

  function ComparePrimitives(p: Primitive, l: Value, r: Value): (o: Outcome)
    ensures o.Order? ==> -1 <= o.cmp <= 1
  {
    if l.one.NullFlag? then Order(if r.one.NullFlag? then 0 else -1)
    else if r.one.NullFlag? then Order(1)
    else if p.DyNumber? then CompareDyNumber(l, r)
    else if p.OtherPrimitive? then NotComparable
    else Order(CompareKey(KeyOf(p, l), KeyOf(p, r)))
  }

  // ---- nested values ----

  function Size(t: Type): nat
    decreases t
  {
    match t
    case OptionalType(i) => 1 + Size(i)
    case ListType(i) => 1 + Size(i)
    case TupleType(ts) => 1 + MaxSize(ts)
    case StructType(ts) => 1 + MaxSize(ts)
    case _ => 0
  }

  function MaxSize(ts: seq<Type>): (m: nat)
    ensures forall i :: 0 <= i < |ts| ==> Size(ts[i]) <= m
    decreases ts
  {
    if ts == [] then 0
    else
      var a, b := Size(ts[0]), MaxSize(ts[1..]);
      if a < b then b else a
  }

  /** The type and value under the optional types. */
  function Unwrap(v: Typed): (r: Typed)
    ensures Size(r.typ) <= Size(v.typ) && !r.typ.OptionalType?
    decreases v.typ
  {
    if !v.typ.OptionalType? then v
    else Unwrap(Typed(v.typ.item, if v.val.one.NestedValue? then v.val.one.nested else v.val))
  }

  /** The elements of a tuple, list or struct, unless the source indexes past its end. */
  datatype Elements = Elements(vs: seq<Typed>) | OutOfRange

  /** More than the size of every element's type. */
  function Bound(vs: seq<Typed>): (n: nat)
    ensures forall i :: 0 <= i < |vs| ==> Size(vs[i].typ) < n
  {
    if vs == [] then 0
    else
      var a, b := Size(vs[0].typ) + 1, Bound(vs[1..]);
      if a < b then b else a
  }

  lemma {:induction false} BoundAtMost(vs: seq<Typed>, n: nat)
    requires forall i :: 0 <= i < |vs| ==> Size(vs[i].typ) < n
    ensures Bound(vs) <= n
  {
    if vs != [] { BoundAtMost(vs[1..], n); }
  }

  function Fields(ts: seq<Type>, items: seq<Value>): (r: seq<Typed>)
    requires |items| <= |ts|
    ensures |r| == |items| && Bound(r) <= 1 + MaxSize(ts)
  {
    var r := seq(|items|, i requires 0 <= i < |items| => Unwrap(Typed(ts[i], items[i])));
    BoundAtMost(r, 1 + MaxSize(ts));
    r
  }

  function Items(t: Type, items: seq<Value>): (r: seq<Typed>)
    ensures |r| == |items| && Bound(r) <= 1 + Size(t)
  {
    var r := seq(|items|, i requires 0 <= i < |items| => Unwrap(Typed(t, items[i])));
    BoundAtMost(r, 1 + Size(t));
    r
  }

  function Expand(v: Typed): (r: Elements)
    ensures r.Elements? ==> Bound(r.vs) <= Size(v.typ)
  {
    var items := v.val.items;
    match v.typ
    case TupleType(ts) => if |ts| <= |items| then Elements(Fields(ts, items[..|ts|])) else OutOfRange
    case StructType(ts) => if |items| <= |ts| then Elements(Fields(ts, items)) else OutOfRange
    case ListType(t) => Elements(Items(t, items))
    case _ => Elements([])
  }

  predicate SameKind(s: Type, t: Type) {
    (s.TupleType? && t.TupleType?) || (s.ListType? && t.ListType?) || (s.StructType? && t.StructType?)
  }

  function Compare(l: Typed, r: Typed): (o: Outcome)
    ensures o.Order? ==> -1 <= o.cmp <= 1
    decreases Size(l.typ), 0
  {
    if l.typ.PrimitiveType? && l.typ == r.typ then ComparePrimitives(l.typ.p, l.val, r.val)
    else if !SameKind(l.typ, r.typ) then NotComparable
    else
      var ls, rs := Expand(l), Expand(r);
      if ls.OutOfRange? || rs.OutOfRange? then Panic else CompareAll(ls.vs, rs.vs)
  }

  /** Lexicographic comparison; elements after the first difference are not looked at. */
  function CompareAll(ls: seq<Typed>, rs: seq<Typed>): (o: Outcome)
    ensures o.Order? ==> -1 <= o.cmp <= 1
    decreases Bound(ls), 0, |ls|
  {
    if ls == [] || rs == [] then Order(CompareInt(|ls|, |rs|))
    else
      var c := Compare(ls[0], rs[0]);
      if c != Order(0) then c else CompareAll(ls[1..], rs[1..])
  }

  /** Compare of two values as they come, optional types and all. */
  function CompareTyped(l: Typed, r: Typed): Outcome { Compare(Unwrap(l), Unwrap(r)) }

  // ---- the loops of the source ----

  method UnwrapTypedValue(v: Typed) returns (r: Typed)
    ensures r == Unwrap(v)
  {
    var typ, val := v.typ, v.val;
    while typ.OptionalType?
      invariant Unwrap(Typed(typ, val)) == Unwrap(v)
      decreases typ
    {
      typ := typ.item;
      if val.one.NestedValue? { val := val.one.nested; }
    }
    return Typed(typ, val);
  }

  method ExpandFields(ts: seq<Type>, items: seq<Value>) returns (values: seq<Typed>)
    requires |items| <= |ts|
    ensures values == Fields(ts, items)
  {
    values := [];
    for i := 0 to |items|
      invariant values == Fields(ts, items)[..i]
    {
      var v := UnwrapTypedValue(Typed(ts[i], items[i]));
      values := values + [v];
    }
  }

  method ExpandList(t: Type, items: seq<Value>) returns (values: seq<Typed>)
    ensures values == Items(t, items)
  {
    values := [];
    for i := 0 to |items|
      invariant values == Items(t, items)[..i]
    {
      var v := UnwrapTypedValue(Typed(t, items[i]));
      values := values + [v];
    }
  }

  method ExpandValue(v: Typed) returns (r: Elements)
    ensures r == Expand(v)
  {
    var items := v.val.items;
    match v.typ {
      case TupleType(ts) =>
        if |ts| > |items| { return OutOfRange; }
        var vs := ExpandFields(ts, items[..|ts|]);
        r := Elements(vs);
      case StructType(ts) =>
        if |items| > |ts| { return OutOfRange; }
        var vs := ExpandFields(ts, items);
        r := Elements(vs);
      case ListType(t) =>
        var vs := ExpandList(t, items);
        r := Elements(vs);
      case _ => r := Elements([]);
    }
  }

  method CompareValues(l: Typed, r: Typed) returns (o: Outcome)
    ensures o == Compare(l, r)
    decreases Size(l.typ), 0
  {
    if l.typ.PrimitiveType? && l.typ == r.typ { return ComparePrimitives(l.typ.p, l.val, r.val); }
    if !SameKind(l.typ, r.typ) { return NotComparable; }
    var ls := ExpandValue(l);
    var rs := ExpandValue(r);
    if ls.OutOfRange? || rs.OutOfRange? { return Panic; }
    o := CompareElements(ls.vs, rs.vs);
  }

  /** compareTuplesOrLists and compareStructs. */
  method CompareElements(ls: seq<Typed>, rs: seq<Typed>) returns (o: Outcome)
    ensures o == CompareAll(ls, rs)
    decreases Bound(ls), 0, 1
  {
    var i := 0;
    while i < |ls|
      invariant 0 <= i <= |ls| && i <= |rs|
      invariant CompareAll(ls[i..], rs[i..]) == CompareAll(ls, rs)
    {
      if i >= |rs| { return Order(1); }
      o := CompareValues(ls[i], rs[i]);
      assert ls[i..][1..] == ls[i + 1..] && rs[i..][1..] == rs[i + 1..];
      if o != Order(0) { return; }
      i := i + 1;
    }
    return Order(if |rs| > |ls| then -1 else 0);
  }

  /** The exported Compare. */
  method CompareTop(l: Typed, r: Typed) returns (o: Outcome)
    ensures o == CompareTyped(l, r)
  {
    var a := UnwrapTypedValue(l);
    var b := UnwrapTypedValue(r);
    o := CompareValues(a, b);
  }
}
