/** The rewritten query, line by line. */
module BindLines {
  import opened Ordering
  import opened SqlText
  import opened SqlLexer
  import opened BindArgs
  import opened BindRewrite
  import opened BindPipeline
  import opened BindNames
  import opened BindEndToEnd

  // ---- lines ----

  /** A text at its newlines; the last line is what follows the last of them. */
  function Split(s: string): (r: seq<string>)
    ensures |r| > 0
  {
    if s == "" then [""]
    else if s[0] == '\n' then [""] + Split(s[1..])
    else
      var rest := Split(s[1..]);
      [[s[0]] + rest[0]] + rest[1..]
  }

  lemma {:induction false} SplitAt(l: string, t: string)
    requires '\n' !in l
    ensures Split(l + "\n" + t) == [l] + Split(t)
  {
    var s := l + "\n" + t;
    if l == "" {
      assert s == "\n" + t && s[1..] == t;
    } else {
      var u := l[1..];
      assert s[1..] == u + "\n" + t && l == [l[0]] + u;
      SplitAt(u, t);
    }
  }

  lemma {:induction false} SplitLines(ds: seq<string>, t: string)
    requires forall k :: 0 <= k < |ds| ==> '\n' !in ds[k]
    ensures Split(Lines(ds) + t) == ds + Split(t)
  {
    if ds == [] {
      assert Lines(ds) + t == t && ds + Split(t) == Split(t);
    } else {
      SplitLines(ds[1..], t);
      SplitAt(ds[0], Lines(ds[1..]) + t);
      assert Lines(ds) + t == ds[0] + "\n" + (Lines(ds[1..]) + t);
      assert ds + Split(t) == [ds[0]] + (ds[1..] + Split(t));
    }
  }

  // ---- what a declaration says ----

  /** The value under the names that an argument brings. */
  function Innermost(a: Arg): Arg {
    var b := if a.NamedValue? then a.arg else a;
    if b.NamedArg? then b.arg else b
  }

  /** The type of an argument, as YQL text. */
  function TypeOf(a: Arg): string {
    match Innermost(a)
    case Param(p) => p.value.yql
    case Plain(Ok(v)) => v.yql
    case _ => ""
  }

  /** The line that declares argument `k`. */
  function DeclareLine(k: nat, a: Arg): string { "DECLARE " + NameOf(k, a) + " AS " + TypeOf(a) + ";" }

  function DeclareLines(args: seq<Arg>): (r: seq<string>)
    ensures |r| == |args| && forall k :: 0 <= k < |args| ==> r[k] == DeclareLine(k, args[k])
  {
    seq(|args|, k requires 0 <= k < |args| => DeclareLine(k, args[k]))
  }

  ghost predicate OneLine(args: seq<Arg>) { forall k :: 0 <= k < |args| ==> '\n' !in NameOf(k, args[k]) && '\n' !in TypeOf(args[k]) }

  lemma DeclarationIs(args: seq<Arg>, k: nat)
    requires Convertible(args) && k < |args|
    ensures Declaration(ByPosition(args)[k]) == DeclareLine(k, args[k])
  {
    NamedAs(k, args[k]);
    assert ToParam(Name(k), args[k]).Ok?;
  }

  lemma DeclarationsAre(args: seq<Arg>)
    requires Convertible(args)
    ensures Declarations(ByPosition(args)) == DeclareLines(args)
  {
    forall k | 0 <= k < |args| ensures Declaration(ByPosition(args)[k]) == DeclareLine(k, args[k]) { DeclarationIs(args, k); }
  }

  // ---- the parts of a rewritten query ----

  /** The sorted lines that declare the arguments. */
  ghost predicate DeclaresAll(ds: seq<string>, args: seq<Arg>) {
    Sorted(ds, Le) && multiset(ds) == multiset(DeclareLines(args))
  }

  lemma SortedLines(args: seq<Arg>, ds: seq<string>)
    requires Convertible(args) && ds == Sort(Declarations(Sort(ByPosition(args), ByName)), Le)
    ensures DeclaresAll(ds, args)
  {
    SortDeclares(ByPosition(args));
    StringOrder();
    SortIs(Declarations(Sort(ByPosition(args), ByName)), Le);
    DeclarationsAre(args);
  }

  lemma LineIsOne(k: nat, a: Arg)
    requires '\n' !in NameOf(k, a) && '\n' !in TypeOf(a)
    ensures '\n' !in DeclareLine(k, a)
  {}

  lemma NoNewlines(ds: seq<string>, args: seq<Arg>)
    requires multiset(ds) == multiset(DeclareLines(args)) && OneLine(args)
    ensures forall j :: 0 <= j < |ds| ==> '\n' !in ds[j]
  {
    forall j | 0 <= j < |ds| ensures '\n' !in ds[j] {
      assert ds[j] in multiset(ds) && ds[j] in DeclareLines(args);
      var k :| 0 <= k < |args| && ds[j] == DeclareLine(k, args[k]);
      LineIsOne(k, args[k]);
    }
  }

  function Header(args: seq<Arg>, ds: seq<string>): seq<string> {
    if args == [] then [] else ["-- bind declares"] + ds + [""]
  }

  lemma BlockSplits(head: string, ds: seq<string>, t: string)
    requires '\n' !in head && forall k :: 0 <= k < |ds| ==> '\n' !in ds[k]
    ensures Split(head + "\n" + Lines(ds) + "\n" + t) == [head] + ds + [""] + Split(t)
  {
    var rest := "\n" + t;
    SplitAt("", t);
    assert "" + "\n" + t == rest;
    SplitLines(ds, rest);
    SplitAt(head, Lines(ds) + rest);
    assert head + "\n" + Lines(ds) + "\n" + t == head + "\n" + (Lines(ds) + rest);
    assert [head] + ds + [""] + Split(t) == [head] + (ds + ([""] + Split(t)));
  }

  lemma DeclaresIs()
    ensures DECLARES == "-- bind declares" + "\n" && '\n' !in "-- bind declares"
  {}

  lemma BlockIs(args: seq<Arg>)
    requires Convertible(args)
    ensures var ps := Sort(ByPosition(args), ByName);
      Block1(true, ByPosition(args)) == if args == [] then "" else DECLARES + Lines(Sort(Declarations(ps), Le)) + "\n"
  {
    NameOrder();
    SortIs(ByPosition(args), ByName);
    assert |multiset(Sort(ByPosition(args), ByName))| == |multiset(ByPosition(args))|;
  }

  lemma BlockLines(args: seq<Arg>, t: string) returns (ds: seq<string>)
    requires Convertible(args) && OneLine(args)
    ensures DeclaresAll(ds, args) && Split(Block1(true, ByPosition(args)) + t) == Header(args, ds) + Split(t)
  {
    ds := Sort(Declarations(Sort(ByPosition(args), ByName)), Le);
    SortedLines(args, ds);
    BlockIs(args);
    if args == [] {
      assert "" + t == t && Header(args, ds) + Split(t) == Split(t);
    } else {
      NoNewlines(ds, args);
      DeclaresIs();
      BlockSplits("-- bind declares", ds, t);
    }
  }

  ghost predicate PathsOk(pre: seq<Bind>) { forall k :: 0 <= k < |pre| ==> pre[k].TablePathPrefix? && '\n' !in pre[k].path }

  /** The lines of the path prefixes, the first binding's first. */
  function PrefixLines(pre: seq<Bind>): seq<string>
    requires forall k :: 0 <= k < |pre| ==> pre[k].TablePathPrefix?
  {
    if pre == [] then []
    else
      var n := |pre| - 1;
      PrefixLines(pre[..n]) + ["-- bind TablePathPrefix", "PRAGMA TablePathPrefix(\"" + pre[n].path + "\");", ""]
  }

  /** Two lines and an empty one. */
  lemma TwoSplit(a: string, b: string, t: string)
    requires '\n' !in a && '\n' !in b
    ensures Split(a + "\n" + (b + "\n\n") + t) == [a, b, ""] + Split(t)
  {
    SplitAt("", t);
    assert "" + "\n" + t == "\n" + t;
    SplitAt(b, "\n" + t);
    SplitAt(a, b + "\n" + ("\n" + t));
    assert a + "\n" + (b + "\n\n") + t == a + "\n" + (b + "\n" + ("\n" + t));
    assert [a, b, ""] + Split(t) == [a] + ([b] + ([""] + Split(t)));
  }

  lemma PrefixIs(path: string)
    ensures PrefixText(path) == "-- bind TablePathPrefix" + "\n" + (("PRAGMA TablePathPrefix(\"" + path + "\");") + "\n\n")
    ensures '\n' !in "-- bind TablePathPrefix" && ('\n' !in path ==> '\n' !in "PRAGMA TablePathPrefix(\"" + path + "\");")
  {}

  lemma PrefixSplits(path: string, t: string)
    requires '\n' !in path
    ensures Split(PrefixText(path) + t) ==
      ["-- bind TablePathPrefix", "PRAGMA TablePathPrefix(\"" + path + "\");", ""] + Split(t)
  {
    PrefixIs(path);
    TwoSplit("-- bind TablePathPrefix", "PRAGMA TablePathPrefix(\"" + path + "\");", t);
  }

  lemma {:induction false} PragmaLines(pre: seq<Bind>, t: string)
    requires PathsOk(pre) && InBlock(pre, 0)
    ensures Split(Pragmas(pre) + t) == PrefixLines(pre) + Split(t)
    decreases |pre|
  {
    if pre == [] {
      assert Pragmas(pre) + t == t && PrefixLines(pre) + Split(t) == Split(t);
    } else {
      var n := |pre| - 1;
      PragmaLines(pre[..n], PrefixText(pre[n].path) + t);
      PrefixSplits(pre[n].path, t);
      Concat(Pragmas(pre[..n]), PrefixText(pre[n].path), t);
    }
  }

  /** The lines before the query itself. */
  lemma LinesBefore(pre: seq<Bind>, args: seq<Arg>, text: string) returns (ds: seq<string>)
    requires InBlock(pre, 0) && PathsOk(pre) && Convertible(args) && OneLine(args)
    ensures DeclaresAll(ds, args)
    ensures Split(Pragmas(pre) + (Block1(true, ByPosition(args)) + text)) == PrefixLines(pre) + (Header(args, ds) + Split(text))
  {
    ds := BlockLines(args, text);
    PragmaLines(pre, Block1(true, ByPosition(args)) + text);
  }

  /** The lines of a rewritten query: those before it, a comment, and the query with its
      placeholders named. */
  ghost predicate HasLines(yql: string, pre: seq<Bind>, args: seq<Arg>, ds: seq<string>, comment: string, text: string)
    requires PathsOk(pre)
  {
    Split(yql) == PrefixLines(pre) + (Header(args, ds) + ((if args == [] then [] else [comment]) + Split(text)))
  }

  lemma LinesOf(pre: seq<Bind>, args: seq<Arg>, comment: string, text: string) returns (ds: seq<string>)
    requires InBlock(pre, 0) && PathsOk(pre) && Convertible(args) && OneLine(args) && '\n' !in comment
    ensures DeclaresAll(ds, args)
    ensures HasLines(Pragmas(pre) + (Block1(true, ByPosition(args)) + ((if args != [] then comment + "\n" else "") + text)),
                     pre, args, ds, comment, text)
  {
    ds := LinesBefore(pre, args, (if args != [] then comment + "\n" else "") + text);
    CommentedText(args, comment, text);
  }

  lemma Apart(a: string, b: string, c: char)
    requires c !in a && c !in b
    ensures c !in a + b
  {}

  lemma PositionalIs()
    ensures POSITIONAL == "-- origin query with positional args replacement" + "\n"
  {}

  lemma PositionalOneLine()
    ensures '\n' !in "-- origin query with positional args replacement"
  {
    assert "-- origin query with positional args replacement" == "-- origin query with pos" + "itional args replacement";
    Apart("-- origin query with pos", "itional args replacement", '\n');
  }

  lemma NumericIs()
    ensures NUMERIC == "-- origin query with numeric args replacement" + "\n"
  {}

  lemma NumericOneLine()
    ensures '\n' !in "-- origin query with numeric args replacement"
  {
    assert "-- origin query with numeric args replacement" == "-- origin query with num" + "eric args replacement";
    Apart("-- origin query with num", "eric args replacement", '\n');
  }

  /** The sent query, line by line: the pragmas of the path prefixes, the sorted declarations of the
      arguments, each on a line of its own, a comment, and the query with its placeholders
      named. */
  lemma PositionalLines(pre: seq<Bind>, src: string, args: seq<Arg>) returns (ds: seq<string>)
    requires InBlock(pre, 0) && PathsOk(pre) && HoleCount(src, 0) == |args| && Convertible(args) && OneLine(args)
    ensures DeclaresAll(ds, args)
    ensures var r := Rewrite(Connection(pre, true, PositionalArgs), src, args);
      r.Ok? && HasLines(r.value.yql, pre, args, ds, "-- origin query with positional args replacement", Expand(src, 0, 0, Name))
    ensures InPosition(args) ==> forall k: nat :: k < |args| ==> Many(ds, Declaring(Name(k))) == 1
  {
    PositionalEndToEnd(pre, true, src, args);
    PositionalIs();
    PositionalOneLine();
    ds := LinesOf(pre, args, "-- origin query with positional args replacement", Expand(src, 0, 0, Name));
    LinesOnce(ds, args);
  }

  lemma CommentedText(args: seq<Arg>, c: string, t: string)
    requires '\n' !in c
    ensures Split((if args != [] then c + "\n" else "") + t) == (if args == [] then [] else [c]) + Split(t)
  {
    SplitAt(c, t);
    assert "" + t == t && [] + Split(t) == Split(t);
  }

  lemma LinesOnce(ds: seq<string>, args: seq<Arg>)
    requires Convertible(args) && DeclaresAll(ds, args)
    ensures InPosition(args) ==> forall k: nat :: k < |args| ==> Many(ds, Declaring(Name(k))) == 1
  {
    if InPosition(args) {
      forall k: nat | k < |args| ensures Many(ds, Declaring(Name(k))) == 1 {
        PositionsDeclared(args, k);
        DeclaredOnce(args, k);
        DeclarationsAre(args);
        ManySame(ds, Sort(Declarations(Sort(ByPosition(args), ByName)), Le), Declaring(Name(k)));
      }
    }
  }

  /** The same for numeric arguments. */
  lemma NumericLines(pre: seq<Bind>, src: string, args: seq<Arg>) returns (ds: seq<string>)
    requires InBlock(pre, 0) && PathsOk(pre) && |args| <= MAX_INT
    requires Refs(src, 0) == Upto(|args|) && Convertible(args) && OneLine(args)
    ensures DeclaresAll(ds, args)
    ensures var r := Rewrite(Connection(pre, true, NumericArgs), src, args);
      r.Ok? && HasLines(r.value.yql, pre, args, ds, "-- origin query with numeric args replacement", ExpandRefs(src, 0, RefName(args)))
    ensures InPosition(args) ==> forall k: nat :: k < |args| ==> Many(ds, Declaring(Name(k))) == 1
  {
    NumericEndToEnd(pre, true, src, args);
    NumericIs();
    NumericOneLine();
    ds := LinesOf(pre, args, "-- origin query with numeric args replacement", ExpandRefs(src, 0, RefName(args)));
    LinesOnce(ds, args);
  }
}
