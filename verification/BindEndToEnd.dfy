/** From the placeholders of a query to the values that are sent: names agree all the way. */
module BindEndToEnd {
  import opened Ordering
  import opened SqlText
  import opened SqlLexer
  import opened BindArgs
  import opened BindRewrite
  import opened BindPipeline
  import opened BindNames

  // ---- sorted bindings ----

  ghost predicate InBlock(bs: seq<Bind>, block: nat) { forall i :: 0 <= i < |bs| ==> Block(bs[i]) == block }

  function FirstFrom(bs: seq<Bind>, block: nat): (n: nat)
    ensures n <= |bs| && (forall i :: 0 <= i < n ==> Block(bs[i]) < block) && (n < |bs| ==> Block(bs[n]) >= block)
  {
    if bs == [] || Block(bs[0]) >= block then 0 else 1 + FirstFrom(bs[1..], block)
  }

  lemma BlockOrder()
    ensures TotalPreorder(ByBlock)
  {}

  /** From the first binding of a block on, sorted bindings are of that block or later ones. */
  lemma FromFirst(s: seq<Bind>, block: nat, k: nat)
    requires Sorted(s, ByBlock) && FirstFrom(s, block) <= k < |s|
    ensures Block(s[k]) >= block
  {
    assert k > FirstFrom(s, block) ==> ByBlock(s[FirstFrom(s, block)], s[k]);
  }

  lemma Groups(s: seq<Bind>) returns (pre: seq<Bind>, mid: seq<Bind>, last: seq<Bind>)
    requires Sorted(s, ByBlock)
    ensures s == pre + mid + last && InBlock(pre, 0) && InBlock(mid, 1) && InBlock(last, 2)
  {
    var i, j := FirstFrom(s, 1), FirstFrom(s, 2);
    forall k | i <= k < |s| ensures Block(s[k]) >= 1 { FromFirst(s, 1, k); }
    forall k | j <= k < |s| ensures Block(s[k]) >= 2 { FromFirst(s, 2, k); }
    pre, mid, last := s[..i], s[i..j], s[j..];
  }

  /** Sorting puts path prefixes first, then AutoDeclare, then what rewrites placeholders. */
  lemma SortGroups(bs: seq<Bind>) returns (pre: seq<Bind>, mid: seq<Bind>, last: seq<Bind>)
    ensures Sort(bs, ByBlock) == pre + mid + last && multiset(bs) == multiset(pre) + multiset(mid) + multiset(last)
    ensures InBlock(pre, 0) && InBlock(mid, 1) && InBlock(last, 2)
  {
    BlockOrder();
    SortIs(bs, ByBlock);
    pre, mid, last := Groups(Sort(bs, ByBlock));
  }

  function Connection(pre: seq<Bind>, declare: bool, b: Bind): seq<Bind> {
    pre + (if declare then [AutoDeclare, b] else [b])
  }

  predicate Rewrites(b: Bind) { b == PositionalArgs || b == NumericArgs }

  lemma {:induction false} CountBlock(bs: seq<Bind>, block: nat)
    requires InBlock(bs, block)
    ensures block == 1 ==> multiset(bs)[AutoDeclare] == |bs| && multiset(bs)[PositionalArgs] + multiset(bs)[NumericArgs] == 0
    ensures block == 2 ==> multiset(bs)[PositionalArgs] + multiset(bs)[NumericArgs] == |bs| && multiset(bs)[AutoDeclare] == 0
    ensures block == 0 ==> multiset(bs)[AutoDeclare] + multiset(bs)[PositionalArgs] + multiset(bs)[NumericArgs] == 0
  {
    if bs != [] {
      CountBlock(bs[1..], block);
      assert bs == [bs[0]] + bs[1..];
      assert Block(bs[0]) == block;
    }
  }

  lemma {:induction false} AllDeclare(mid: seq<Bind>)
    requires InBlock(mid, 1)
    ensures mid == seq(|mid|, _ => AutoDeclare)
  {
    forall i | 0 <= i < |mid| ensures mid[i] == AutoDeclare { assert Block(mid[i]) == 1; }
  }

  /** Any bindings are sorted into the prefixes, every AutoDeclare and the rewriting ones. With
      at most one of each that is the chain of a connection, whatever their order. */
  lemma SortBindings(bs: seq<Bind>) returns (pre: seq<Bind>, last: seq<Bind>)
    ensures InBlock(pre, 0) && InBlock(last, 2) && |last| == multiset(bs)[PositionalArgs] + multiset(bs)[NumericArgs]
    ensures Sort(bs, ByBlock) == pre + seq(multiset(bs)[AutoDeclare], _ => AutoDeclare) + last
    ensures multiset(bs)[AutoDeclare] <= 1 && |last| == 1 ==>
      last[0] in bs && Rewrites(last[0]) && Sort(bs, ByBlock) == Connection(pre, AutoDeclare in bs, last[0])
  {
    var mid;
    pre, mid, last := SortGroups(bs);
    CountBlock(pre, 0);
    CountBlock(mid, 1);
    CountBlock(last, 2);
    AllDeclare(mid);
    if |mid| <= 1 && |last| == 1 {
      var b := last[0];
      assert Block(b) == 2 && b in multiset(last) && b in multiset(bs);
      assert AutoDeclare in bs <==> AutoDeclare in multiset(bs);
      assert mid + last == if AutoDeclare in bs then [AutoDeclare, b] else [b];
      assert pre + mid + last == pre + (mid + last);
    }
  }

  // ---- the whole chain ----

  /** The pragmas before a query, the first binding's first. */
  function Pragmas(bs: seq<Bind>): string
    requires InBlock(bs, 0)
  {
    if bs == [] then "" else Pragmas(bs[..|bs| - 1]) + PrefixText(bs[|bs| - 1].path)
  }

  lemma {:induction false} ChainPrefixes(bs: seq<Bind>, query: string, args: seq<Arg>)
    requires InBlock(bs, 0)
    ensures Chain(bs, query, args) == Ok(Rewritten(Pragmas(bs) + query, args))
    decreases |bs|
  {
    if bs != [] {
      var t := PrefixText(bs[|bs| - 1].path);
      ChainPrefixes(bs[..|bs| - 1], t + query, args);
      assert Pragmas(bs[..|bs| - 1]) + (t + query) == Pragmas(bs) + query;
    } else {
      assert "" + query == query;
    }
  }

  /** The declarations of parameters, when they are declared. */
  function Block1(declare: bool, qs: seq<Parameter>): string { if declare then DeclareBlock(Sort(qs, ByName)) else "" }

  /** The arguments that reach the end of the chain. */
  function Passed(declare: bool, qs: seq<Parameter>): seq<Parameter> { if declare then Sort(qs, ByName) else qs }

  lemma DeclareGiven(query: string, qs: seq<Parameter>)
    ensures var ps := Sort(qs, ByName); Declare(query, AsArgs(qs)) == Ok(Rewritten(DeclareBlock(ps) + query, AsArgs(ps)))
  {
    ParamsGiven(qs);
    var ps := Sort(qs, ByName);
    if ps == [] {
      assert multiset(qs) == multiset{};
      assert qs == [];
      assert AsArgs(qs) == AsArgs(ps);
      assert "" + query == query;
    }
  }

  lemma ChainAfter(pre: seq<Bind>, declare: bool, query: string, qs: seq<Parameter>)
    requires InBlock(pre, 0)
    ensures Chain(pre + (if declare then [AutoDeclare] else []), query, AsArgs(qs)) ==
      Ok(Rewritten(Pragmas(pre) + (Block1(declare, qs) + query), AsArgs(Passed(declare, qs))))
  {
    if declare {
      var bs := pre + [AutoDeclare];
      assert bs[..|bs| - 1] == pre;
      DeclareGiven(query, qs);
      ChainPrefixes(pre, DeclareBlock(Sort(qs, ByName)) + query, AsArgs(Sort(qs, ByName)));
    } else {
      assert pre + [] == pre && "" + query == query;
      ChainPrefixes(pre, query, AsArgs(qs));
    }
  }

  /** What a connection's bindings make of a query whose placeholders became parameters `qs`. */
  lemma RewriteGiven(pre: seq<Bind>, declare: bool, b: Bind, src: string, args: seq<Arg>, text: string, qs: seq<Parameter>)
    requires InBlock(pre, 0) && Rewrites(b) && Apply(b, src, args) == Ok(Rewritten(text, AsArgs(qs)))
    ensures var r := Rewrite(Connection(pre, declare, b), src, args);
      r.Ok? && r.value.yql == Pragmas(pre) + (Block1(declare, qs) + text) && Holds(r.value.params, qs)
  {
    var bs := Connection(pre, declare, b);
    assert bs[..|bs| - 1] == pre + (if declare then [AutoDeclare] else []);
    ChainAfter(pre, declare, text, qs);
    var ps := Passed(declare, qs);
    ParamsGiven(qs);
    ParamsGiven(ps);
    MapHolds(Sort(ps, ByName), qs);
  }

  lemma RewriteFails(pre: seq<Bind>, declare: bool, b: Bind, src: string, args: seq<Arg>)
    requires Apply(b, src, args).Err?
    ensures Rewrite(Connection(pre, declare, b), src, args) == Err(Apply(b, src, args).error)
  {
    var bs := Connection(pre, declare, b);
    assert bs[|bs| - 1] == b;
  }

  // ---- positional arguments ----

  function PositionalText(src: string, args: seq<Arg>): string {
    (if args != [] then POSITIONAL else "") + Expand(src, 0, 0, Name)
  }

  /** Through the sorted bindings of a connection, rewriting succeeds exactly when the query has
      a placeholder for each argument and each can be converted. Then the k-th placeholder
      reads `$pk`, and the parameters bound are those of the arguments. */
  lemma PositionalEndToEnd(pre: seq<Bind>, declare: bool, src: string, args: seq<Arg>)
    requires InBlock(pre, 0)
    ensures var r := Rewrite(Connection(pre, declare, PositionalArgs), src, args);
      && (r.Ok? <==> HoleCount(src, 0) == |args| && Convertible(args))
      && (r.Ok? ==>
        && r.value.yql == Pragmas(pre) + (Block1(declare, ByPosition(args)) + PositionalText(src, args))
        && Holds(r.value.params, ByPosition(args)))
  {
    PositionalIff(src, args);
    if HoleCount(src, 0) == |args| && Convertible(args) {
      RewriteGiven(pre, declare, PositionalArgs, src, args, PositionalText(src, args), ByPosition(args));
    } else {
      RewriteFails(pre, declare, PositionalArgs, src, args);
    }
  }

  /** When rewriting succeeds, every `$pk` is bound exactly when each is the name of some
      argument. Arguments of different values are bound by position, `$pk` to the k-th,
      exactly when none brings a name but that of its position; then nothing else is bound. */
  lemma PositionalBindings(pre: seq<Bind>, declare: bool, src: string, args: seq<Arg>)
    requires InBlock(pre, 0) && HoleCount(src, 0) == |args| && Convertible(args)
    ensures var r := Rewrite(Connection(pre, declare, PositionalArgs), src, args);
      && r.Ok?
      && var m := r.value.params;
      && (AllBound(m, |args|) <==> AllNamed(args))
      && (InPosition(args) ==> BoundByPosition(m, args) && NothingElse(m, |args|))
      && (Different(ByPosition(args)) ==> (BoundByPosition(m, args) <==> InPosition(args)))
  {
    PositionalEndToEnd(pre, declare, src, args);
    var m := Rewrite(Connection(pre, declare, PositionalArgs), src, args).value.params;
    AllBoundIff(m, args);
    if InPosition(args) { InPositionKeeps(m, args); }
    if Different(ByPosition(args)) { ByPositionIff(m, args); }
  }

  // ---- numeric arguments ----

  function NumericText(src: string, args: seq<Arg>): string {
    (if args != [] then NUMERIC else "") + ExpandRefs(src, 0, RefName(args))
  }

  lemma BoundIs(args: seq<Arg>)
    requires Convertible(args)
    ensures BindRewrite.Bound(args) == AsArgs(ByPosition(args))
  {}

  lemma NumericValue(src: string, args: seq<Arg>)
    requires Numeric(src, args).Ok? && Convertible(args)
    ensures Apply(NumericArgs, src, args) == Ok(Rewritten(NumericText(src, args), AsArgs(ByPosition(args))))
  {
    BoundIs(args);
  }

  /** The name that stands for `$k` is that of the k-th argument's parameter. */
  lemma RefNameIs(args: seq<Arg>, k: nat)
    requires Convertible(args) && 1 <= k <= |args|
    ensures RefName(args)(k) == NameOf(k - 1, args[k - 1])
  {
    NamedAs(k - 1, args[k - 1]);
  }

  /** `$k` reads the name of the k-th argument's parameter, and the name is bound. */
  predicate RefNamed(m: map<string, Value>, args: seq<Arg>, k: nat)
    requires 1 <= k <= |args|
  {
    RefName(args)(k) == NameOf(k - 1, args[k - 1]) && RefName(args)(k) in m
  }

  /** That name is bound to the k-th argument. */
  ghost predicate RefBound(m: map<string, Value>, args: seq<Arg>, k: nat)
    requires 1 <= k <= |args| && Convertible(args)
  {
    RefName(args)(k) in m && m[RefName(args)(k)] == ByPosition(args)[k - 1].value
  }

  /** Through the sorted bindings of a connection, numeric rewriting succeeds exactly when the
      query refers to every argument and to nothing else and each can be converted. Then
      every `$k` reads the name of the k-th argument's parameter, every such name is bound,
      and each to its own argument exactly when no two of one name differ. */
  lemma NumericEndToEnd(pre: seq<Bind>, declare: bool, src: string, args: seq<Arg>)
    requires InBlock(pre, 0) && |args| <= MAX_INT
    ensures var r := Rewrite(Connection(pre, declare, NumericArgs), src, args);
      && (r.Ok? <==> Refs(src, 0) == Upto(|args|) && Convertible(args))
      && (r.Ok? ==>
        && r.value.yql == Pragmas(pre) + (Block1(declare, ByPosition(args)) + NumericText(src, args))
        && (forall k :: 1 <= k <= |args| ==> RefNamed(r.value.params, args, k))
        && ((forall k :: 1 <= k <= |args| ==> RefBound(r.value.params, args, k)) <==> Functional(ByPosition(args))))
  {
    NumericIff(src, args);
    assert Numeric(src, args).Ok? <==> Refs(src, 0) == Upto(|args|) && Convertible(args);
    if Numeric(src, args).Ok? {
      var qs := ByPosition(args);
      NumericValue(src, args);
      RewriteGiven(pre, declare, NumericArgs, src, args, NumericText(src, args), qs);
      NumericBindings(Rewrite(Connection(pre, declare, NumericArgs), src, args).value.params, args);
    } else {
      RewriteFails(pre, declare, NumericArgs, src, args);
    }
  }

  lemma RefIs(m: map<string, Value>, args: seq<Arg>, k: nat)
    requires Convertible(args) && Holds(m, ByPosition(args)) && 1 <= k <= |args|
    ensures RefNamed(m, args, k)
    ensures ByPosition(args)[k - 1].name in m
    ensures RefBound(m, args, k) <==> m[ByPosition(args)[k - 1].name] == ByPosition(args)[k - 1].value
  {
    RefNameIs(args, k);
    NamedAs(k - 1, args[k - 1]);
    assert ByPosition(args)[k - 1].name in m;
  }

  lemma NumericBindings(m: map<string, Value>, args: seq<Arg>)
    requires Convertible(args) && Holds(m, ByPosition(args))
    ensures forall k :: 1 <= k <= |args| ==> RefNamed(m, args, k)
    ensures (forall k :: 1 <= k <= |args| ==> RefBound(m, args, k)) <==> Functional(ByPosition(args))
  {
    var qs := ByPosition(args);
    forall k | 1 <= k <= |args| ensures RefNamed(m, args, k) { RefIs(m, args, k); }
    KeepsIff(m, qs);
    if Functional(qs) {
      forall k | 1 <= k <= |args| ensures RefBound(m, args, k) { RefIs(m, args, k); }
    }
    if forall k :: 1 <= k <= |args| ==> RefBound(m, args, k) {
      forall j | 0 <= j < |qs| ensures m[qs[j].name] == qs[j].value { RefIs(m, args, j + 1); }
    }
  }

  // ---- arguments that bring names ----

  lemma FirstNames()
    ensures Name(0) == "$p0" && Name(1) == "$p1"
  {}

  /** A named argument leaves its placeholder without a value. */
  lemma NamedArgUnbound(v: Value)
    ensures var r := Rewrite([PositionalArgs], "?", [NamedArg("x", Plain(Ok(v)))]);
      r.Ok? && r.value.yql == POSITIONAL + "$p0" && "$p0" !in r.value.params
  {
    var args := [NamedArg("x", Plain(Ok(v)))];
    FirstNames();
    assert ModeAt("?", 0) == Raw;
    assert HoleCount("?", 0) == 1 + HoleCount("?", 1);
    assert Expand("?", 0, 0, Name) == Name(0) + Expand("?", 1, 1, Name) == "$p0";
    assert Connection([], false, PositionalArgs) == [PositionalArgs];
    assert "" + ("" + PositionalText("?", args)) == POSITIONAL + "$p0";
    assert NameOf(0, args[0]) == "$" + "x" != "$p0";
    assert !IsNamed(args, 0);
    PositionalEndToEnd([], false, "?", args);
    NamedIff(Rewrite([PositionalArgs], "?", args).value.params, args, 0);
  }

  lemma TwoHoles()
    ensures HoleCount("??", 0) == 2 && Expand("??", 0, 0, Name) == "$p0$p1"
  {
    FirstNames();
    assert ModeAt("??", 0) == ModeAt("??", 1) == Raw;
    assert HoleCount("??", 0) == 1 + HoleCount("??", 1);
    assert HoleCount("??", 1) == 1 + HoleCount("??", 2);
    assert Expand("??", 1, 1, Name) == Name(1) + Expand("??", 2, 2, Name) == "$p1";
    assert Expand("??", 0, 0, Name) == Name(0) + Expand("??", 1, 1, Name);
  }

  /** Two arguments that bring each other's names are both bound, but swapped. */
  lemma NamedArgsSwapped(v: Value, w: Value)
    ensures var r := Rewrite([PositionalArgs], "??", [NamedArg("p1", Plain(Ok(v))), NamedArg("p0", Plain(Ok(w)))]);
      r.Ok? && r.value.yql == POSITIONAL + "$p0$p1" && r.value.params == map["$p0" := w, "$p1" := v]
  {
    var args := [NamedArg("p1", Plain(Ok(v))), NamedArg("p0", Plain(Ok(w)))];
    TwoHoles();
    assert Connection([], false, PositionalArgs) == [PositionalArgs];
    assert "" + ("" + PositionalText("??", args)) == POSITIONAL + "$p0$p1";
    assert "$" + "p1" == "$p1" && "$" + "p0" == "$p0";
    var qs := [Parameter("$p1", v), Parameter("$p0", w)];
    assert ByPosition(args) == qs;
    PositionalEndToEnd([], false, "??", args);
    HoldsTwo(Rewrite([PositionalArgs], "??", args).value.params, v, w);
  }

  lemma HoldsTwo(m: map<string, Value>, v: Value, w: Value)
    requires Holds(m, [Parameter("$p1", v), Parameter("$p0", w)])
    ensures m == map["$p0" := w, "$p1" := v]
  {
    var qs := [Parameter("$p1", v), Parameter("$p0", w)];
    assert qs[0].name in m && qs[1].name in m;
    assert "$p0"[2] != "$p1"[2];
  }
}
