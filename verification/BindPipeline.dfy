/** AutoDeclare and the chain of bindings. */
module BindPipeline {
  import opened Ordering
  import opened BindArgs
  import opened BindRewrite

  datatype Bind = TablePathPrefix(path: string) | AutoDeclare | PositionalArgs | NumericArgs

  function Block(b: Bind): nat {
    match b
    case TablePathPrefix(_) => 0
    case AutoDeclare => 1
    case _ => 2
  }

  predicate ByBlock(a: Bind, b: Bind) { Block(a) <= Block(b) }

  // ---- AutoDeclare ----

  function Declaration(p: Parameter): string { "DECLARE " + p.name + " AS " + p.value.yql + ";" }

  function Declarations(ps: seq<Parameter>): (r: seq<string>)
    ensures |r| == |ps| && forall i :: 0 <= i < |ps| ==> r[i] == Declaration(ps[i])
  {
    if ps == [] then [] else [Declaration(ps[0])] + Declarations(ps[1..])
  }

  function Lines(ds: seq<string>): string { if ds == [] then "" else ds[0] + "\n" + Lines(ds[1..]) }

  function AsArgs(ps: seq<Parameter>): seq<Arg> {
    seq(|ps|, i requires 0 <= i < |ps| => Param(ps[i]))
  }

  const DECLARES: string := "-- bind declares\n"

  function DeclareBlock(ps: seq<Parameter>): string {
    if ps == [] then "" else DECLARES + Lines(Sort(Declarations(ps), Le)) + "\n"
  }

  function Declare(query: string, args: seq<Arg>): Result<Rewritten> {
    match Params(args)
    case Err(e) => Err(e)
    case Ok(ps) =>
      if ps == [] then Ok(Rewritten(query, args)) else Ok(Rewritten(DeclareBlock(ps) + query, AsArgs(ps)))
  }

  lemma {:induction false} LinesNext(ds: seq<string>, d: string)
    ensures Lines(ds + [d]) == Lines(ds) + (d + "\n")
  {
    if ds == [] {
      assert ([d])[1..] == [];
    } else {
      LinesNext(ds[1..], d);
      assert (ds + [d])[1..] == ds[1..] + [d];
    }
  }

  /** The declarations, sorted. */
  method Declares(ps: seq<Parameter>) returns (declares: seq<string>)
    ensures declares == Sort(Declarations(ps), Le)
  {
    declares := [];
    for i := 0 to |ps|
      invariant |declares| == i && forall k :: 0 <= k < i ==> declares[k] == Declaration(ps[k])
    {
      declares := declares + [Declaration(ps[i])];
    }
    assert declares == Declarations(ps);
    declares := Sort(declares, Le);
  }

  method WriteLines(ds: seq<string>) returns (buffer: string)
    ensures buffer == Lines(ds)
  {
    buffer := "";
    for i := 0 to |ds|
      invariant buffer == Lines(ds[..i])
    {
      LinesNext(ds[..i], ds[i]);
      assert ds[..i + 1] == ds[..i] + [ds[i]];
      buffer := buffer + (ds[i] + "\n");
    }
    assert ds[..|ds|] == ds;
  }

  method ToArgs(ps: seq<Parameter>) returns (newArgs: seq<Arg>)
    ensures newArgs == AsArgs(ps)
  {
    newArgs := [];
    for i := 0 to |ps|
      invariant newArgs == AsArgs(ps)[..i]
    {
      newArgs := newArgs + [Param(ps[i])];
    }
  }

  /** AutoDeclare.RewriteQuery. */
  method RewriteDeclare(query: string, args: seq<Arg>) returns (r: Result<Rewritten>)
    ensures r == Declare(query, args)
  {
    var params := CollectParams(args);
    if params.Err? { return Err(params.error); }
    var ps := params.value;
    if |ps| == 0 { return Ok(Rewritten(query, args)); }
    var declares := Declares(ps);
    var lines := WriteLines(declares);
    var newArgs := ToArgs(ps);
    return Ok(Rewritten(DECLARES + lines + "\n" + query, newArgs));
  }

  // ---- the chain ----

  function PrefixText(path: string): string {
    "-- bind TablePathPrefix\n" + "PRAGMA TablePathPrefix(\"" + path + "\");\n\n"
  }

  function Apply(b: Bind, query: string, args: seq<Arg>): Result<Rewritten> {
    match b
    case TablePathPrefix(path) => Ok(Rewritten(PrefixText(path) + query, args))
    case AutoDeclare => Declare(query, args)
    case PositionalArgs => Positional(query, args)
    case NumericArgs => Numeric(query, args)
  }

  /** The bindings from the last to the first. */
  function Chain(bs: seq<Bind>, query: string, args: seq<Arg>): Result<Rewritten> {
    if bs == [] then Ok(Rewritten(query, args))
    else match Apply(bs[|bs| - 1], query, args)
      case Err(e) => Err(e)
      case Ok(w) => Chain(bs[..|bs| - 1], w.yql, w.args)
  }

  datatype Bound = Bound(yql: string, params: map<string, Value>)

  /** NewQueryParameters: a later parameter of the same name wins. */
  function ToMap(ps: seq<Parameter>): map<string, Value> {
    if ps == [] then map[] else ToMap(ps[..|ps| - 1])[ps[|ps| - 1].name := ps[|ps| - 1].value]
  }

  function Rewrite(bs: seq<Bind>, query: string, args: seq<Arg>): Result<Bound> {
    match Chain(bs, query, args)
    case Err(e) => Err(e)
    case Ok(w) =>
      match Params(w.args)
      case Err(e) => Err(e)
      case Ok(ps) => Ok(Bound(w.yql, ToMap(ps)))
  }

  method ApplyBind(b: Bind, query: string, args: seq<Arg>) returns (r: Result<Rewritten>)
    ensures r == Apply(b, query, args)
  {
    match b
    case TablePathPrefix(path) => r := Ok(Rewritten(PrefixText(path) + query, args));
    case AutoDeclare => r := RewriteDeclare(query, args);
    case PositionalArgs => r := RewritePositional(query, args);
    case NumericArgs => r := RewriteNumeric(query, args);
  }

  /** QueryParameters.Add. */
  method Add(ps: seq<Parameter>) returns (m: map<string, Value>)
    ensures m == ToMap(ps)
  {
    m := map[];
    for i := 0 to |ps|
      invariant m == ToMap(ps[..i])
    {
      assert ps[..i + 1][..i] == ps[..i];
      m := m[ps[i].name := ps[i].value];
    }
    assert ps[..|ps|] == ps;
  }

  lemma ChainNext(bs: seq<Bind>, n: nat, query: string, args: seq<Arg>)
    requires n < |bs|
    ensures Chain(bs[..n + 1], query, args) == match Apply(bs[n], query, args)
      case Err(e) => Err(e)
      case Ok(w) => Chain(bs[..n], w.yql, w.args)
  {
    assert bs[..n + 1][..n] == bs[..n];
  }

  /** The loop over the bindings. */
  method RewriteChain(bs: seq<Bind>, query: string, args: seq<Arg>) returns (r: Result<Rewritten>)
    ensures r == Chain(bs, query, args)
  {
    var q, a := query, args;
    var i := 0;
    assert bs[..|bs|] == bs;
    while i < |bs|
      invariant 0 <= i <= |bs| && Chain(bs[..|bs| - i], q, a) == Chain(bs, query, args)
    {
      ChainNext(bs, |bs| - 1 - i, q, a);
      var w := ApplyBind(bs[|bs| - 1 - i], q, a);
      if w.Err? { return Err(w.error); }
      q, a := w.value.yql, w.value.args;
      i := i + 1;
    }
    return Ok(Rewritten(q, a));
  }

  /** Bindings.RewriteQuery. */
  method RewriteQuery(bs: seq<Bind>, query: string, args: seq<Arg>) returns (r: Result<Bound>)
    ensures r == Rewrite(bs, query, args)
  {
    var w := RewriteChain(bs, query, args);
    if w.Err? { return Err(w.error); }
    var ps := CollectParams(w.value.args);
    if ps.Err? { return Err(ps.error); }
    var m := Add(ps.value);
    return Ok(Bound(w.value.yql, m));
  }
}
