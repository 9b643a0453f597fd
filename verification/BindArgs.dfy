/** Query arguments and the parameters they become. */
module BindArgs {
  import opened Ordering
  import opened Numerals

  /** A converted value; `yql` is the text of its type. */
  datatype Value = Value(id: nat, yql: string)

  datatype Parameter = Parameter(name: string, value: Value)

  datatype Error =
    | InconsistentArgs
    | NumericArgZero
    | UnnamedParam
    | MultipleQueryParameters
    | UnsupportedType
    | ValuerFailed
    | Panic

  datatype Result<+T> = Ok(value: T) | Err(error: Error)

  /** What may be passed for an argument. A plain value stands for what toValue makes of it. */
  datatype Arg =
    | NamedValue(name: string, arg: Arg)
    | NamedArg(name: string, arg: Arg)
    | Param(param: Parameter)
    | QueryParameters(params: seq<Parameter>)
    | Plain(converted: Result<Value>)

  function ToValue(a: Arg): Result<Value> { if a.Plain? then a.converted else Err(UnsupportedType) }

  function Dollar(name: string): string
    requires name != ""
  {
    if name[0] == '$' then name else "$" + name
  }

  /** toYdbParam: a name of the argument's own wins over the given one, and a parameter is
      taken as it is. */
  function ToParam(name: string, a: Arg): Result<Parameter> {
    var n1 := if a.NamedValue? && a.name != "" then a.name else name;
    var a1 := if a.NamedValue? then a.arg else a;
    var n2 := if a1.NamedArg? && a1.name != "" then a1.name else n1;
    var a2 := if a1.NamedArg? then a1.arg else a1;
    if a2.Param? then Ok(a2.param)
    else match ToValue(a2)
      case Err(e) => Err(e)
      case Ok(v) => if n2 == "" then Err(UnnamedParam) else Ok(Parameter(Dollar(n2), v))
  }

  // ---- the names of arguments by position ----

  function Itoa(n: nat): string {
    if n < 10 then [DigitChar(n)] else Itoa(n / 10) + [DigitChar(n % 10)]
  }

  function Name(k: nat): string { "$p" + Itoa(k) }

  lemma {:induction false} ItoaReads(n: nat)
    ensures AllDigits(Itoa(n)) && Num(0, Itoa(n)) == n
  {
    if n < 10 {
      assert Num(0, Itoa(n)) == Num(n, Itoa(n)[1..]);
    } else {
      ItoaReads(n / 10);
      var d := [DigitChar(n % 10)];
      NumConcat(0, Itoa(n / 10), d);
      assert Num(n / 10, d) == Num(10 * (n / 10) + n % 10, d[1..]);
    }
  }

  /** Different positions have different names. */
  lemma NamesDiffer(j: nat, k: nat)
    requires Name(j) == Name(k)
    ensures j == k
  {
    ItoaReads(j);
    ItoaReads(k);
    assert Name(j)[2..] == Itoa(j) && Name(k)[2..] == Itoa(k);
  }

  // ---- Params ----

  /** The parameters of a set of query parameters; ValueParam panics on an empty name. */
  function Each(ps: seq<Parameter>): Result<seq<Parameter>> {
    if ps == [] then Ok([])
    else if ps[0].name == "" then Err(Panic)
    else match Each(ps[1..])
      case Err(e) => Err(e)
      case Ok(rest) => Ok([Parameter(Dollar(ps[0].name), ps[0].value)] + rest)
  }

  function One(r: Result<Parameter>): Result<seq<Parameter>> {
    match r
    case Err(e) => Err(e)
    case Ok(p) => Ok([p])
  }

  function FromSet(ps: seq<Parameter>, count: nat): Result<seq<Parameter>> {
    if count > 1 then Err(MultipleQueryParameters) else Each(ps)
  }

  /** The parameters of argument `i` out of `count`. */
  function FromArg(a: Arg, i: nat, count: nat): Result<seq<Parameter>> {
    match a
    case NamedValue(n, v) =>
      if n != "" then One(ToParam(n, v))
      else if v.QueryParameters? then FromSet(v.params, count)
      else if v.Param? then Ok([v.param])
      else One(ToParam(Name(i), v))
    case NamedArg(n, v) => if n == "" then Err(UnnamedParam) else One(ToParam(n, v))
    case QueryParameters(ps) => FromSet(ps, count)
    case Param(p) => Ok([p])
    case Plain(_) => One(ToParam(Name(i), a))
  }

  function Collect(args: seq<Arg>, i: nat): Result<seq<Parameter>>
    requires i <= |args|
    decreases |args| - i
  {
    if i == |args| then Ok([])
    else match FromArg(args[i], i, |args|)
      case Err(e) => Err(e)
      case Ok(ps) => Prepend(ps, Collect(args, i + 1))
  }

  function Prepend<T>(ps: seq<T>, r: Result<seq<T>>): Result<seq<T>> {
    match r
    case Err(e) => Err(e)
    case Ok(rest) => Ok(ps + rest)
  }

  lemma PrependTwice<T>(a: seq<T>, b: seq<T>, r: Result<seq<T>>)
    ensures Prepend(a, Prepend(b, r)) == Prepend(a + b, r)
  {
    if r.Ok? { assert a + (b + r.value) == a + b + r.value; }
  }

  lemma PrependNone<T>(ps: seq<T>, r: Result<seq<T>>)
    ensures Prepend([], r) == r && Prepend(ps, Ok([])) == Ok(ps)
  {
    assert ps + [] == ps;
    if r.Ok? { assert [] + r.value == r.value; }
  }

  predicate ByName(p: Parameter, q: Parameter) { Le(p.name, q.name) }

  lemma NameOrder()
    ensures TotalPreorder(ByName)
  {
    forall p: Parameter, q: Parameter ensures ByName(p, q) || ByName(q, p) { LeTotal(p.name, q.name); }
    forall p: Parameter, q: Parameter, r: Parameter | ByName(p, q) && ByName(q, r) ensures ByName(p, r) {
      LeTrans(p.name, q.name, r.name);
    }
  }

  function Params(args: seq<Arg>): Result<seq<Parameter>> {
    match Collect(args, 0)
    case Err(e) => Err(e)
    case Ok(ps) => Ok(Sort(ps, ByName))
  }

  /** Params as the source computes it. */
  method CollectParams(args: seq<Arg>) returns (r: Result<seq<Parameter>>)
    ensures r == Params(args)
    ensures r.Ok? ==> Sorted(r.value, ByName)
  {
    var params: seq<Parameter> := [];
    var i := 0;
    PrependNone(params, Collect(args, 0));
    while i < |args|
      invariant 0 <= i <= |args| && Prepend(params, Collect(args, i)) == Collect(args, 0)
    {
      var one := FromArg(args[i], i, |args|);
      if one.Err? { return Err(one.error); }
      PrependTwice(params, one.value, Collect(args, i + 1));
      params := params + one.value;
      i := i + 1;
    }
    PrependNone(params, Ok([]));
    NameOrder();
    SortIs(params, ByName);
    return Ok(Sort(params, ByName));
  }

  // ---- the names that arguments bring ----

  /** The name of an argument's parameter: its own, or that of its position. */
  function NameOf(k: nat, a: Arg): string {
    var a1 := if a.NamedValue? then a.arg else a;
    var a2 := if a1.NamedArg? then a1.arg else a1;
    if a2.Param? then a2.param.name
    else if a1.NamedArg? && a1.name != "" then Dollar(a1.name)
    else if a.NamedValue? && a.name != "" then Dollar(a.name)
    else Name(k)
  }

  lemma NamedAs(k: nat, a: Arg)
    requires ToParam(Name(k), a).Ok?
    ensures ToParam(Name(k), a).value.name == NameOf(k, a)
  {
    assert Name(k)[0] == '$';
  }
}
