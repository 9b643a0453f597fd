/** PositionalArgs and NumericArgs: placeholders replaced by parameter names. */
module BindRewrite {
  import opened SqlText
  import opened SqlParts
  import opened SqlLexer
  import opened BindArgs

  datatype Rewritten = Rewritten(yql: string, args: seq<Arg>)

  // ---- positional arguments ----

  const POSITIONAL: string := "-- origin query with positional args replacement\n"

  /** The arguments from `k` to `n` as parameters, or the first error among them. */
  function Convert(args: seq<Arg>, k: nat, n: nat): Result<seq<Arg>>
    requires k <= n <= |args|
    decreases n - k
  {
    if k == n then Ok([])
    else match ToParam(Name(k), args[k])
      case Err(e) => Err(e)
      case Ok(p) => Prepend([Param(p)], Convert(args, k + 1, n))
  }

  function Min(a: nat, b: nat): nat { if a < b then a else b }

  function Positional(src: string, args: seq<Arg>): Result<Rewritten> {
    var n := HoleCount(src, 0);
    match Convert(args, 0, Min(n, |args|))
    case Err(e) => Err(e)
    case Ok(ps) =>
      if n != |args| then Err(InconsistentArgs)
      else Ok(Rewritten((if n > 0 then POSITIONAL else "") + Expand(src, 0, 0, Name), ps))
  }

  lemma HolesNext(parts: seq<Part>, i: nat, k: nat)
    requires i < |parts|
    ensures Holes(parts[i..]) == (if parts[i].Hole? then 1 else 0) + Holes(parts[i + 1..])
    ensures Render(parts[i..], k, Name) == match parts[i]
      case Text(t) => t + Render(parts[i + 1..], k, Name)
      case Hole => Name(k) + Render(parts[i + 1..], k + 1, Name)
      case Ref(_) => Render(parts[i + 1..], k, Name)
  {
    assert parts[i..][1..] == parts[i + 1..];
  }

  /** The loop over the pieces. */
  method NameHoles(parts: seq<Part>, args: seq<Arg>) returns (r: Result<Rewritten>)
    ensures var n, c := Holes(parts), Convert(args, 0, Min(Holes(parts), |args|));
      r == if c.Err? then Err(c.error)
           else if n != |args| then Err(InconsistentArgs)
           else Ok(Rewritten((if n > 0 then POSITIONAL else "") + Render(parts, 0, Name), c.value))
  {
    var buffer, position, newArgs := "", 0, [];
    ghost var m := Min(Holes(parts), |args|);
    PrependNone(newArgs, Convert(args, 0, m));
    var i := 0;
    while i < |parts|
      invariant 0 <= i <= |parts| && position <= m
      invariant position + Holes(parts[i..]) == Holes(parts)
      invariant buffer + Render(parts[i..], position, Name) == Render(parts, 0, Name)
      invariant Prepend(newArgs, Convert(args, position, m)) == Convert(args, 0, m)
    {
      HolesNext(parts, i, position);
      match parts[i] {
        case Text(t) =>
          Concat(buffer, t, Render(parts[i + 1..], position, Name));
          buffer := buffer + t;
        case Ref(_) =>
        case Hole =>
          if position > |args| - 1 { return Err(InconsistentArgs); }
          var paramName := Name(position);
          var param := ToParam(paramName, args[position]);
          if param.Err? { return Err(param.error); }
          PrependTwice(newArgs, [Param(param.value)], Convert(args, position + 1, m));
          newArgs := newArgs + [Param(param.value)];
          Concat(buffer, paramName, Render(parts[i + 1..], position + 1, Name));
          buffer := buffer + paramName;
          position := position + 1;
      }
      i := i + 1;
    }
    PrependNone(newArgs, Ok([]));
    assert buffer + "" == buffer;
    if |args| != position { return Err(InconsistentArgs); }
    return Ok(Rewritten((if position > 0 then POSITIONAL else "") + buffer, newArgs));
  }

  /** PositionalArgs.RewriteQuery. */
  method RewritePositional(src: string, args: seq<Arg>) returns (r: Result<Rewritten>)
    ensures r == Positional(src, args)
  {
    var l := new Lexer(src, false);
    l.Run();
    PositionalFits(src, 0, 0, Raw);
    PartsRefine(src, Name);
    r := NameHoles(l.parts, args);
  }

  // ---- numeric arguments ----

  const NUMERIC: string := "-- origin query with numeric args replacement\n"

  /** What is wrong with a reference to argument `k`. */
  function Fault(args: seq<Arg>, k: nat): Result<Parameter> {
    if k == 0 then Err(NumericArgZero)
    else if k > |args| then Err(InconsistentArgs)
    else ToParam(Name(k - 1), args[k - 1])
  }

  /** The error of the first faulty reference. */
  function FirstFault(parts: seq<Part>, args: seq<Arg>): Result<()> {
    if parts == [] then Ok(())
    else if parts[0].Ref? && Fault(args, parts[0].k).Err? then Err(Fault(args, parts[0].k).error)
    else FirstFault(parts[1..], args)
  }

  /** The name that stands for `$k`. */
  function RefName(args: seq<Arg>): nat -> string {
    (k: nat) => if Fault(args, k).Ok? then Fault(args, k).value.name else ""
  }

  /** The parameters of all arguments. */
  function Bound(args: seq<Arg>): seq<Arg> {
    seq(|args|, j requires 0 <= j < |args| => match Fault(args, j + 1) case Ok(p) => Param(p) case Err(_) => args[j])
  }

  function Upto(n: nat): (r: set<nat>)
    ensures forall k :: k in r <==> 1 <= k <= n
  {
    if n == 0 then {} else Upto(n - 1) + {n}
  }

  function Numeric(src: string, args: seq<Arg>): Result<Rewritten> {
    var parts := Parts(true, src);
    if !Fits(parts) then Err(Panic)
    else match FirstFault(parts, args)
      case Err(e) => Err(e)
      case Ok(_) =>
        if !(Upto(|args|) <= Refs(src, 0)) then Err(InconsistentArgs)
        else Ok(Rewritten((if args != [] then NUMERIC else "") + ExpandRefs(src, 0, RefName(args)), Bound(args)))
  }

  lemma {:induction false} FaultsAre(parts: seq<Part>, args: seq<Arg>)
    ensures FirstFault(parts, args).Ok? <==> forall k :: k in RefsIn(parts) ==> Fault(args, k).Ok?
  {
    if parts != [] {
      FaultsAre(parts[1..], args);
      assert parts == [parts[0]] + parts[1..];
      RefsInMore([parts[0]], parts[1..]);
      RefsInOne(parts[0]);
    }
  }

  /** Rewriting succeeds exactly when the text refers to every argument and to nothing else,
      and every argument can be converted. */
  lemma NumericIff(src: string, args: seq<Arg>)
    requires |args| <= MAX_INT
    ensures Numeric(src, args).Ok? <==>
      Refs(src, 0) == Upto(|args|) && forall k :: 0 <= k < |args| ==> ToParam(Name(k), args[k]).Ok?
  {
    var parts := Parts(true, src);
    PartsRefs(src);
    FaultsAre(parts, args);
    if Numeric(src, args).Ok? {
      forall k | k in Refs(src, 0) ensures k in Upto(|args|) { assert Fault(args, k).Ok?; }
      forall k | 0 <= k < |args| ensures ToParam(Name(k), args[k]).Ok? {
        assert k + 1 in Upto(|args|);
        assert Fault(args, k + 1).Ok?;
      }
    }
  }

  /** An element of the new arguments, nil until it is set. */
  datatype Slot = Nil | Set(param: Parameter)

  predicate SlotOk(slot: Slot, args: seq<Arg>, j: nat, used: bool) {
    if used then Fault(args, j + 1).Ok? && slot == Set(Fault(args, j + 1).value) else slot == Nil
  }

  ghost predicate Filled(a: array<Slot>, args: seq<Arg>, refs: set<nat>)
    requires a.Length == |args|
    reads a
  {
    forall j :: 0 <= j < |args| ==> SlotOk(a[j], args, j, j + 1 in refs)
  }

  /** One reference: its argument is converted unless it is already. */
  method NameRef(k: nat, args: seq<Arg>, newArgs: array<Slot>, ghost refs: set<nat>) returns (r: Result<string>)
    requires newArgs.Length == |args| && Filled(newArgs, args, refs)
    modifies newArgs
    ensures r == match Fault(args, k) case Err(e) => Err(e) case Ok(p) => Ok(p.name)
    ensures r.Ok? ==> r.value == RefName(args)(k) && Filled(newArgs, args, refs + {k})
  {
    if k == 0 { return Err(NumericArgZero); }
    if k > |args| { return Err(InconsistentArgs); }
    assert SlotOk(newArgs[k - 1], args, k - 1, k in refs);
    if newArgs[k - 1] == Nil {
      var param := ToParam(Name(k - 1), args[k - 1]);
      if param.Err? { return Err(param.error); }
      newArgs[k - 1] := Set(param.value);
    }
    forall j | 0 <= j < |args| ensures SlotOk(newArgs[j], args, j, j + 1 in refs + {k}) {
      assert SlotOk(old(newArgs[j]), args, j, j + 1 in refs);
    }
    return Ok(newArgs[k - 1].param.name);
  }

  /** The loop over the pieces. */
  method NameRefs(parts: seq<Part>, args: seq<Arg>, newArgs: array<Slot>) returns (r: Result<string>)
    requires newArgs.Length == |args| && Filled(newArgs, args, {})
    modifies newArgs
    ensures r == match FirstFault(parts, args) case Err(e) => Err(e) case Ok(_) => Ok(RenderRefs(parts, RefName(args)))
    ensures r.Ok? ==> Filled(newArgs, args, RefsIn(parts))
  {
    var buffer := "";
    ghost var name := RefName(args);
    var i := 0;
    while i < |parts|
      invariant 0 <= i <= |parts| && Filled(newArgs, args, RefsIn(parts[..i]))
      invariant FirstFault(parts[i..], args) == FirstFault(parts, args)
      invariant buffer + RenderRefs(parts[i..], name) == RenderRefs(parts, name)
    {
      RefsInNext(parts, i);
      RestNext(parts, i, args);
      var piece := "";
      if parts[i].Text? {
        piece := parts[i].text;
      } else if parts[i].Ref? {
        var one := NameRef(parts[i].k, args, newArgs, RefsIn(parts[..i]));
        if one.Err? { return Err(one.error); }
        piece := one.value;
      }
      Concat(buffer, piece, RenderRefs(parts[i + 1..], name));
      buffer := buffer + piece;
      i := i + 1;
    }
    assert parts[..i] == parts && buffer + "" == buffer;
    return Ok(buffer);
  }

  lemma Concat(a: string, b: string, c: string)
    ensures a + b + c == a + (b + c)
  {}

  lemma RestNext(parts: seq<Part>, i: nat, args: seq<Arg>)
    requires i < |parts|
    ensures RenderRefs(parts[i..], RefName(args)) == RenderRef(parts[i], RefName(args)) + RenderRefs(parts[i + 1..], RefName(args))
    ensures FirstFault(parts[i..], args) ==
      if parts[i].Ref? && Fault(args, parts[i].k).Err? then Err(Fault(args, parts[i].k).error)
      else FirstFault(parts[i + 1..], args)
  {
    assert parts[i..][1..] == parts[i + 1..];
  }

  lemma RefsInNext(parts: seq<Part>, i: nat)
    requires i < |parts|
    ensures RefsIn(parts[..i + 1]) == RefsIn(parts[..i]) + (if parts[i].Ref? then {parts[i].k} else {})
  {
    assert parts[..i + 1] == parts[..i] + [parts[i]];
    RefsInMore(parts[..i], [parts[i]]);
    RefsInOne(parts[i]);
  }

  /** The loop that looks for an argument without a reference. */
  method Complete(args: seq<Arg>, newArgs: array<Slot>, ghost refs: set<nat>) returns (r: Result<seq<Arg>>)
    requires newArgs.Length == |args| && Filled(newArgs, args, refs)
    ensures r == if Upto(|args|) <= refs then Ok(Bound(args)) else Err(InconsistentArgs)
  {
    var out: seq<Arg> := [];
    var i := 0;
    while i < |args|
      invariant 0 <= i <= |args| && out == Bound(args)[..i] && Upto(i) <= refs
    {
      assert SlotOk(newArgs[i], args, i, i + 1 in refs);
      if newArgs[i] == Nil {
        assert i + 1 in Upto(|args|);
        return Err(InconsistentArgs);
      }
      out := out + [Param(newArgs[i].param)];
      i := i + 1;
    }
    assert out == Bound(args);
    return Ok(out);
  }

  /** NumericArgs.RewriteQuery. */
  method RewriteNumeric(src: string, args: seq<Arg>) returns (r: Result<Rewritten>)
    ensures r == Numeric(src, args)
  {
    var l := new Lexer(src, true);
    l.Run();
    if l.panicked { return Err(Panic); }
    var newArgs := new Slot[|args|](_ => Nil);
    var text := NameRefs(l.parts, args, newArgs);
    if text.Err? { return Err(text.error); }
    RefsRefine(src, RefName(args));
    PartsRefs(src);
    var out := Complete(args, newArgs, Refs(src, 0));
    if out.Err? { return Err(out.error); }
    return Ok(Rewritten((if args != [] then NUMERIC else "") + text.value, out.value));
  }
}
