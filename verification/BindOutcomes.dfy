/** Which error a query is refused with, and what arguments are bound without placeholders. */
module BindOutcomes {
  import opened Ordering
  import opened SqlText
  import opened SqlParts
  import opened SqlLexer
  import opened BindArgs
  import opened BindRewrite
  import opened BindPipeline
  import opened BindNames
  import opened BindLines

  // ---- one argument ----

  /** An argument can be sent: under its names is a parameter or a value of a supported type. */
  predicate Converts(a: Arg) { Innermost(a).Param? || (Innermost(a).Plain? && Innermost(a).converted.Ok?) }

  function ErrorOf(a: Arg): Error
    requires !Converts(a)
  {
    if Innermost(a).Plain? then Innermost(a).converted.error else UnsupportedType
  }

  function ValueOf(a: Arg): Value
    requires Converts(a)
  {
    if Innermost(a).Param? then Innermost(a).param.value else Innermost(a).converted.value
  }

  /** What becomes of the argument of a position. */
  lemma ConvertedAs(k: nat, a: Arg)
    ensures ToParam(Name(k), a) ==
      if Converts(a) then Ok(Parameter(NameOf(k, a), ValueOf(a))) else Err(ErrorOf(a))
  {
    assert Name(k)[0] == '$';
  }

  // ---- the error of a query ----

  /** The first of some arguments that cannot be sent. */
  ghost predicate FirstBad(args: seq<Arg>, n: nat, k: nat) {
    k < n && k < |args| && !Converts(args[k]) && forall j :: 0 <= j < k ==> Converts(args[j])
  }

  lemma {:induction false} ConvertIs(args: seq<Arg>, k: nat, n: nat)
    requires k <= n <= |args|
    ensures Convert(args, k, n).Ok? <==> forall j :: k <= j < n ==> Converts(args[j])
    ensures forall j :: k <= j < n && !Converts(args[j]) && (forall i :: k <= i < j ==> Converts(args[i])) ==>
      Convert(args, k, n) == Err(ErrorOf(args[j]))
    decreases n - k
  {
    if k < n {
      ConvertedAs(k, args[k]);
      ConvertIs(args, k + 1, n);
    }
  }

  /** Positional rewriting fails with the error of the first argument that has a placeholder and
      cannot be sent, and otherwise because the numbers differ. */
  lemma PositionalFails(src: string, args: seq<Arg>, k: nat)
    ensures FirstBad(args, HoleCount(src, 0), k) ==> Positional(src, args) == Err(ErrorOf(args[k]))
    ensures HoleCount(src, 0) != |args| && (forall j :: 0 <= j < HoleCount(src, 0) && j < |args| ==> Converts(args[j])) ==>
      Positional(src, args) == Err(InconsistentArgs)
  {
    ConvertIs(args, 0, Min(HoleCount(src, 0), |args|));
  }

  /** What is wrong with a reference. */
  predicate BadRef(args: seq<Arg>, k: nat) { k == 0 || k > |args| || !Converts(args[k - 1]) }

  function RefError(args: seq<Arg>, k: nat): Error
    requires BadRef(args, k)
  {
    if k == 0 then NumericArgZero else if k > |args| then InconsistentArgs else ErrorOf(args[k - 1])
  }

  lemma FaultIs(args: seq<Arg>, k: nat)
    ensures Fault(args, k).Err? <==> BadRef(args, k)
    ensures BadRef(args, k) ==> Fault(args, k) == Err(RefError(args, k))
    ensures !BadRef(args, k) ==> Fault(args, k) == Ok(Parameter(NameOf(k - 1, args[k - 1]), ValueOf(args[k - 1])))
  {
    if 0 < k <= |args| { ConvertedAs(k - 1, args[k - 1]); }
  }

  /** The i-th piece is the first that refers to something wrong. */
  ghost predicate FirstBadRef(parts: seq<Part>, args: seq<Arg>, i: nat) {
    && i < |parts| && parts[i].Ref? && BadRef(args, parts[i].k)
    && forall j :: 0 <= j < i && parts[j].Ref? ==> !BadRef(args, parts[j].k)
  }

  lemma {:induction false} FirstFaultIs(parts: seq<Part>, args: seq<Arg>, i: nat)
    ensures FirstBadRef(parts, args, i) ==> FirstFault(parts, args) == Err(RefError(args, parts[i].k))
    ensures (forall j :: 0 <= j < |parts| && parts[j].Ref? ==> !BadRef(args, parts[j].k)) ==> FirstFault(parts, args).Ok?
    decreases |parts|
  {
    if parts != [] {
      if parts[0].Ref? { FaultIs(args, parts[0].k); }
      FirstFaultIs(parts[1..], args, if i > 0 then i - 1 else 0);
      assert forall j :: 1 <= j < |parts| ==> parts[j] == parts[1..][j - 1];
      if FirstBadRef(parts, args, i) && i > 0 { assert FirstBadRef(parts[1..], args, i - 1); }
    }
  }

  /** Numeric rewriting panics on a number that no int holds, else fails with the error of the
      first reference that is zero, too large or to an argument that cannot be sent, and
      otherwise because an argument is not referred to. */
  lemma NumericFails(src: string, args: seq<Arg>, i: nat, k: nat)
    ensures k in Refs(src, 0) && k > 9_223_372_036_854_775_807 ==> Numeric(src, args) == Err(Panic)
    ensures var parts := Parts(true, src);
      (forall j :: j in Refs(src, 0) ==> j <= 9_223_372_036_854_775_807) ==>
        && (FirstBadRef(parts, args, i) ==> Numeric(src, args) == Err(RefError(args, parts[i].k)))
        && ((forall j :: j in Refs(src, 0) ==> !BadRef(args, j)) && 0 < k <= |args| && k !in Refs(src, 0) ==>
              Numeric(src, args) == Err(InconsistentArgs))
  {
    var parts := Parts(true, src);
    PartsRefs(src);
    FirstFaultIs(parts, args, i);
    if forall j :: j in Refs(src, 0) ==> !BadRef(args, j) {
      forall j | 0 <= j < |parts| && parts[j].Ref? ensures !BadRef(args, parts[j].k) { assert parts[j].k in RefsIn(parts); }
    }
    assert 0 < k <= |args| ==> k in Upto(|args|);
  }

  // ---- arguments without placeholders ----

  /** The name of an argument's parameter: one of its own, or else the given one. */
  function NameOr(n: string, a: Arg): string
    requires n != ""
  {
    var b := if a.NamedValue? then a.arg else a;
    if Innermost(a).Param? then Innermost(a).param.name
    else if b.NamedArg? && b.name != "" then Dollar(b.name)
    else if a.NamedValue? && a.name != "" then Dollar(a.name)
    else Dollar(n)
  }

  /** A parameter's name begins with a dollar, which is added when it is missing. */
  lemma DollarIs(n: string)
    requires n != ""
    ensures Dollar(n)[0] == '$' && (n[0] == '$' ==> Dollar(n) == n) && (n[0] != '$' ==> Dollar(n)[1..] == n)
  {}

  function Given(n: string, a: Arg): Result<seq<Parameter>>
    requires n != ""
  {
    if Converts(a) then Ok([Parameter(NameOr(n, a), ValueOf(a))]) else Err(ErrorOf(a))
  }

  lemma GivenIs(n: string, a: Arg)
    requires n != ""
    ensures One(ToParam(n, a)) == Given(n, a)
  {}

  ghost predicate AllGiven(ps: seq<Parameter>, r: seq<Parameter>) {
    |r| == |ps| && forall k :: 0 <= k < |ps| ==> ps[k].name != "" && r[k] == Parameter(Dollar(ps[k].name), ps[k].value)
  }

  lemma {:induction false} EachIs(ps: seq<Parameter>)
    ensures Each(ps).Ok? <==> forall k :: 0 <= k < |ps| ==> ps[k].name != ""
    ensures Each(ps).Ok? ==> AllGiven(ps, Each(ps).value)
    ensures Each(ps).Err? ==> Each(ps) == Err(Panic)
  {
    if ps != [] {
      EachIs(ps[1..]);
      assert ps == [ps[0]] + ps[1..];
    }
  }

  /** What one argument is bound as, without placeholders: under its own name, that of its
      position if it brings none, or as the set of parameters that it is. */
  lemma BoundAs(a: Arg, i: nat, count: nat)
    ensures a.NamedArg? && a.name == "" ==> FromArg(a, i, count) == Err(UnnamedParam)
    ensures (a.NamedArg? || a.NamedValue?) && a.name != "" ==> FromArg(a, i, count) == Given(a.name, a.arg)
    ensures a.Plain? || a.Param? ==> FromArg(a, i, count) == Given(Name(i), a)
    ensures a.NamedValue? && a.name == "" && !a.arg.QueryParameters? ==> FromArg(a, i, count) == Given(Name(i), a.arg)
    ensures var given := if a.NamedValue? && a.name == "" then a.arg else a;
      given.QueryParameters? ==>
        && (count > 1 ==> FromArg(a, i, count) == Err(MultipleQueryParameters))
        && (count <= 1 && (forall k :: 0 <= k < |given.params| ==> given.params[k].name != "") ==>
              FromArg(a, i, count).Ok? && AllGiven(given.params, FromArg(a, i, count).value))
  {
    if a.Plain? || a.Param? { GivenIs(Name(i), a); }
    if (a.NamedArg? || a.NamedValue?) && a.name != "" { GivenIs(a.name, a.arg); }
    if a.NamedValue? && a.name == "" {
      GivenIs(Name(i), a.arg);
      if a.arg.QueryParameters? { EachIs(a.arg.params); }
    }
    if a.QueryParameters? { EachIs(a.params); }
  }

  lemma {:induction false} CollectFails(args: seq<Arg>, i: nat, k: nat)
    requires i <= k < |args| && FromArg(args[k], k, |args|).Err?
    requires forall j :: i <= j < k ==> FromArg(args[j], j, |args|).Ok?
    ensures Collect(args, i) == Err(FromArg(args[k], k, |args|).error)
    decreases k - i
  {
    if i < k { CollectFails(args, i + 1, k); }
  }

  lemma {:induction false} CollectHas(args: seq<Arg>, i: nat, k: nat)
    requires i <= k < |args| && forall j :: i <= j < |args| ==> FromArg(args[j], j, |args|).Ok?
    ensures Collect(args, i).Ok?
    ensures forall p :: p in FromArg(args[k], k, |args|).value ==> p in Collect(args, i).value
    decreases |args| - i
  {
    if i < k { CollectHas(args, i + 1, k); } else if k + 1 < |args| { CollectHas(args, k + 1, k + 1); }
  }

  /** Without bindings the query stays, and the first argument that cannot be bound decides. */
  lemma Unbound(query: string, args: seq<Arg>, k: nat)
    requires k < |args|
    ensures FromArg(args[k], k, |args|).Err? && (forall j :: 0 <= j < k ==> FromArg(args[j], j, |args|).Ok?) ==>
      Rewrite([], query, args) == Err(FromArg(args[k], k, |args|).error)
    ensures (forall j :: 0 <= j < |args| ==> FromArg(args[j], j, |args|).Ok?) ==>
      var r := Rewrite([], query, args);
      && r.Ok? && r.value.yql == query
      && forall p :: p in FromArg(args[k], k, |args|).value ==> p.name in r.value.params
  {
    if FromArg(args[k], k, |args|).Err? && forall j :: 0 <= j < k ==> FromArg(args[j], j, |args|).Ok? { CollectFails(args, 0, k); }
    if forall j :: 0 <= j < |args| ==> FromArg(args[j], j, |args|).Ok? {
      CollectHas(args, 0, k);
      var ps := Collect(args, 0).value;
      NameOrder();
      SortIs(ps, ByName);
      MapHolds(Sort(ps, ByName), ps);
      forall p | p in FromArg(args[k], k, |args|).value ensures p.name in Rewrite([], query, args).value.params {
        assert p in multiset(ps) && p in multiset(Sort(ps, ByName));
      }
    }
  }

  /** Of several parameters of one name the last one is sent. */
  lemma {:induction false} LastWins(ps: seq<Parameter>, k: nat)
    requires k < |ps| && forall j :: k < j < |ps| ==> ps[j].name != ps[k].name
    ensures ps[k].name in ToMap(ps) && ToMap(ps)[ps[k].name] == ps[k].value
    decreases |ps|
  {
    var n := |ps| - 1;
    if k < n {
      assert forall j :: 0 <= j < n ==> ps[..n][j] == ps[j];
      LastWins(ps[..n], k);
    }
  }
}
