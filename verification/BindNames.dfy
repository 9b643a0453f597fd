/** The parameters that arguments become, their declarations and the map they fill. */
module BindNames {
  import opened Ordering
  import opened SqlText
  import opened BindArgs
  import opened BindRewrite
  import opened BindPipeline

  // ---- the parameters of positional arguments ----

  ghost predicate Convertible(args: seq<Arg>) {
    forall k :: 0 <= k < |args| ==> ToParam(Name(k), args[k]).Ok?
  }

  /** No argument brings a name but that of its position. */
  ghost predicate InPosition(args: seq<Arg>) {
    forall k :: 0 <= k < |args| ==> NameOf(k, args[k]) == Name(k)
  }

  /** The parameters of the arguments, by position. */
  function ByPosition(args: seq<Arg>): seq<Parameter>
    requires Convertible(args)
  {
    seq(|args|, k requires 0 <= k < |args| => ToParam(Name(k), args[k]).value)
  }

  lemma {:induction false} ConvertOk(args: seq<Arg>, k: nat)
    requires k <= |args| && Convertible(args)
    ensures Convert(args, k, |args|) == Ok(AsArgs(ByPosition(args))[k..])
    decreases |args| - k
  {
    var as' := AsArgs(ByPosition(args));
    if k < |args| {
      ConvertOk(args, k + 1);
      assert as'[k..] == [as'[k]] + as'[k + 1..];
    } else {
      assert as'[k..] == [];
    }
  }

  lemma {:induction false} ConvertFails(args: seq<Arg>, k: nat, j: nat)
    requires k <= j < |args| && ToParam(Name(j), args[j]).Err?
    ensures Convert(args, k, |args|).Err?
    decreases j - k
  {
    if k < j { ConvertFails(args, k + 1, j); }
  }

  lemma ConvertAll(args: seq<Arg>)
    ensures Convert(args, 0, |args|).Ok? <==> Convertible(args)
    ensures Convertible(args) ==> Convert(args, 0, |args|) == Ok(AsArgs(ByPosition(args)))
  {
    if Convertible(args) {
      ConvertOk(args, 0);
    } else {
      var j :| 0 <= j < |args| && ToParam(Name(j), args[j]).Err?;
      ConvertFails(args, 0, j);
    }
  }

  /** Positional rewriting succeeds exactly when there are as many placeholders as arguments,
      and every argument can be converted. */
  lemma PositionalIff(src: string, args: seq<Arg>)
    ensures Positional(src, args).Ok? <==> HoleCount(src, 0) == |args| && Convertible(args)
    ensures Positional(src, args).Ok? ==>
      Positional(src, args).value ==
        Rewritten((if args != [] then POSITIONAL else "") + Expand(src, 0, 0, Name), AsArgs(ByPosition(args)))
  {
    if HoleCount(src, 0) == |args| { ConvertAll(args); }
  }

  lemma NamesAre(args: seq<Arg>)
    requires Convertible(args)
    ensures forall k :: 0 <= k < |args| ==> ByPosition(args)[k].name == NameOf(k, args[k])
  {
    forall k | 0 <= k < |args| ensures ByPosition(args)[k].name == NameOf(k, args[k]) { NamedAs(k, args[k]); }
  }

  /** Nothing but a value, or one wrapped without a name. */
  predicate Unnamed(a: Arg) { a.Plain? || (a.NamedValue? && a.name == "" && a.arg.Plain?) }

  lemma UnnamedOne(args: seq<Arg>, i: nat)
    requires i < |args| && Convertible(args) && Unnamed(args[i])
    ensures FromArg(args[i], i, |args|) == Ok([ByPosition(args)[i]])
  {}

  /** Params gives unnamed arguments the names of their positions too. */
  lemma {:induction false} UnnamedByPosition(args: seq<Arg>, i: nat)
    requires i <= |args| && Convertible(args) && forall k :: 0 <= k < |args| ==> Unnamed(args[k])
    ensures Collect(args, i) == Ok(ByPosition(args)[i..])
    decreases |args| - i
  {
    var qs := ByPosition(args);
    if i < |args| {
      UnnamedOne(args, i);
      UnnamedByPosition(args, i + 1);
      assert qs[i..] == [qs[i]] + qs[i + 1..];
    } else {
      assert qs[i..] == [];
    }
  }

  // ---- parameters passed on ----

  lemma {:induction false} CollectGiven(ps: seq<Parameter>, i: nat)
    requires i <= |ps|
    ensures Collect(AsArgs(ps), i) == Ok(ps[i..])
    decreases |ps| - i
  {
    if i < |ps| {
      CollectGiven(ps, i + 1);
      assert ps[i..] == [ps[i]] + ps[i + 1..];
    } else {
      assert ps[i..] == [];
    }
  }

  lemma ParamsGiven(ps: seq<Parameter>)
    ensures Params(AsArgs(ps)) == Ok(Sort(ps, ByName)) && multiset(Sort(ps, ByName)) == multiset(ps)
  {
    CollectGiven(ps, 0);
    assert ps[0..] == ps;
    NameOrder();
    SortIs(ps, ByName);
  }

  /** No two parameters of one name. */
  ghost predicate Functional(ps: seq<Parameter>) {
    forall p, q :: p in ps && q in ps && p.name == q.name ==> p == q
  }

  lemma {:induction false} MapOnly(ps: seq<Parameter>, n: string) returns (p: Parameter)
    requires n in ToMap(ps)
    ensures p in ps && p.name == n && p.value == ToMap(ps)[n]
  {
    var init, last := ps[..|ps| - 1], ps[|ps| - 1];
    if n == last.name { p := last; } else { p := MapOnly(init, n); }
  }

  lemma {:induction false} MapKeys(ps: seq<Parameter>, p: Parameter)
    requires p in ps
    ensures p.name in ToMap(ps)
  {
    var init, last := ps[..|ps| - 1], ps[|ps| - 1];
    assert ps == init + [last];
    if p.name != last.name { MapKeys(init, p); }
  }

  lemma SameMembers(fs: seq<Parameter>, qs: seq<Parameter>)
    requires multiset(fs) == multiset(qs)
    ensures forall p :: p in fs <==> p in qs
  {
    forall p ensures p in fs <==> p in qs { assert p in multiset(fs) <==> p in multiset(qs); }
  }

  /** The map holds the names of the parameters, each with the value of one of that name. */
  ghost predicate Holds(m: map<string, Value>, qs: seq<Parameter>) {
    && (forall k :: 0 <= k < |qs| ==> qs[k].name in m)
    && (forall n :: n in m ==> exists k :: 0 <= k < |qs| && qs[k].name == n && qs[k].value == m[n])
  }

  lemma MapHolds(fs: seq<Parameter>, qs: seq<Parameter>)
    requires multiset(fs) == multiset(qs)
    ensures Holds(ToMap(fs), qs)
  {
    SameMembers(fs, qs);
    forall k | 0 <= k < |qs| ensures qs[k].name in ToMap(fs) { MapKeys(fs, qs[k]); }
    forall n | n in ToMap(fs) ensures exists k :: 0 <= k < |qs| && qs[k].name == n && qs[k].value == ToMap(fs)[n] {
      var p := MapOnly(fs, n);
      assert p in qs;
    }
  }

  /** Every parameter keeps its value in the map exactly when no two of one name differ. */
  lemma KeepsIff(m: map<string, Value>, qs: seq<Parameter>)
    requires Holds(m, qs)
    ensures (forall k :: 0 <= k < |qs| ==> m[qs[k].name] == qs[k].value) <==> Functional(qs)
  {
    if Functional(qs) {
      forall k | 0 <= k < |qs| ensures m[qs[k].name] == qs[k].value {
        var j :| 0 <= j < |qs| && qs[j].name == qs[k].name && qs[j].value == m[qs[k].name];
        assert qs[j] in qs && qs[k] in qs;
      }
    }
    if forall k :: 0 <= k < |qs| ==> m[qs[k].name] == qs[k].value {
      forall p, q | p in qs && q in qs && p.name == q.name ensures p == q {
        var i :| 0 <= i < |qs| && qs[i] == p;
        var j :| 0 <= j < |qs| && qs[j] == q;
      }
    }
  }

  lemma ByPositionFunctional(args: seq<Arg>)
    requires Convertible(args) && InPosition(args)
    ensures Functional(ByPosition(args))
  {
    var qs := ByPosition(args);
    NamesAre(args);
    forall p, q | p in qs && q in qs && p.name == q.name ensures p == q {
      var j :| 0 <= j < |qs| && qs[j] == p;
      var k :| 0 <= k < |qs| && qs[k] == q;
      NamesDiffer(j, k);
    }
  }

  // ---- declarations ----

  lemma {:induction false} InsertDeclares(p: Parameter, ps: seq<Parameter>)
    ensures multiset(Declarations(Insert(p, ps, ByName))) == multiset(Declarations(ps)) + multiset{Declaration(p)}
  {
    if ps == [] || ByName(p, ps[0]) {
      assert ([p] + ps)[1..] == ps;
    } else {
      InsertDeclares(p, ps[1..]);
      var t := Insert(p, ps[1..], ByName);
      assert ([ps[0]] + t)[1..] == t;
    }
  }

  lemma {:induction false} SortDeclares(ps: seq<Parameter>)
    ensures multiset(Declarations(Sort(ps, ByName))) == multiset(Declarations(ps))
  {
    if ps != [] {
      SortDeclares(ps[1..]);
      InsertDeclares(ps[0], Sort(ps[1..], ByName));
    }
  }

  /** Two words before a space that begin the same text are the same word. */
  lemma WordEnds(a: string, x: string, b: string, y: string)
    requires ' ' !in a && ' ' !in b && a + " " + x == b + " " + y
    ensures a == b
  {
    var s := a + " " + x;
    assert s[|a|] == ' ' && s[|b|] == ' ';
    assert a == s[..|a|] && b == s[..|b|];
  }

  /** How many elements a predicate holds for. */
  function Many<T>(s: seq<T>, f: T -> bool): nat {
    if s == [] then 0 else (if f(s[0]) then 1 else 0) + Many(s[1..], f)
  }

  lemma {:induction false} ManyPlus<T>(a: seq<T>, b: seq<T>, f: T -> bool)
    ensures Many(a + b, f) == Many(a, f) + Many(b, f)
  {
    if a == [] {
      assert a + b == b;
    } else {
      assert (a + b)[1..] == a[1..] + b;
      ManyPlus(a[1..], b, f);
    }
  }

  lemma Taken<T>(s: seq<T>, i: nat)
    requires i < |s|
    ensures multiset(s[..i] + s[i + 1..]) == multiset(s) - multiset{s[i]}
  {
    assert s == s[..i] + [s[i]] + s[i + 1..];
  }

  /** The order does not matter. */
  lemma {:induction false} ManySame<T>(a: seq<T>, b: seq<T>, f: T -> bool)
    requires multiset(a) == multiset(b)
    ensures Many(a, f) == Many(b, f)
    decreases |a|
  {
    assert |a| == |multiset(a)| == |b|;
    if a != [] {
      assert a[0] in multiset(a) && a[0] in multiset(b);
      var i :| 0 <= i < |b| && b[i] == a[0];
      var x, y := b[..i], b[i + 1..];
      assert b == x + ([b[i]] + y);
      Taken(a, 0);
      Taken(b, i);
      assert a[..0] + a[1..] == a[1..];
      ManySame(a[1..], x + y, f);
      ManyPlus(x, y, f);
      ManyPlus(x, [b[i]] + y, f);
      assert ([b[i]] + y)[1..] == y;
    }
  }

  lemma {:induction false} ManyNone<T>(s: seq<T>, f: T -> bool)
    ensures Many(s, f) == 0 <==> forall i :: 0 <= i < |s| ==> !f(s[i])
  {
    if s != [] { ManyNone(s[1..], f); }
  }

  lemma ManyOnce<T>(s: seq<T>, k: nat, f: T -> bool)
    requires k < |s| && f(s[k])
    ensures Many(s, f) == 1 <==> forall j :: 0 <= j < |s| && j != k ==> !f(s[j])
  {
    var a, b := s[..k], s[k + 1..];
    assert s == a + ([s[k]] + b) && ([s[k]] + b)[1..] == b;
    ManyPlus(a, [s[k]] + b, f);
    ManyNone(a, f);
    ManyNone(b, f);
    assert forall j :: 0 <= j < k ==> a[j] == s[j];
    assert forall j :: k < j < |s| ==> b[j - k - 1] == s[j];
  }

  function Called(n: string): Parameter -> bool { (p: Parameter) => p.name == n }

  /** A line that declares a parameter. */
  predicate Declares(d: string, n: string) { "DECLARE " + n + " AS " <= d }

  function Declaring(n: string): string -> bool { (d: string) => Declares(d, n) }

  ghost predicate Spaceless(args: seq<Arg>) { forall k :: 0 <= k < |args| ==> ' ' !in NameOf(k, args[k]) }

  /** No other argument has the name of argument `k`. */
  ghost predicate Alone(args: seq<Arg>, k: nat)
    requires k < |args|
  {
    forall j :: 0 <= j < |args| && j != k ==> NameOf(j, args[j]) != NameOf(k, args[k])
  }

  lemma DeclaresIff(p: Parameter, n: string)
    requires ' ' !in p.name && ' ' !in n
    ensures Declares(Declaration(p), n) <==> p.name == n
  {
    var d, head := Declaration(p), "DECLARE " + n + " AS ";
    var rest := "AS " + p.value.yql + ";";
    assert d == "DECLARE " + p.name + " AS " + p.value.yql + ";";
    assert d[8..] == p.name + " " + rest;
    if head <= d {
      var t := d[|head|..];
      assert d == head + t;
      assert d[8..] == n + " " + ("AS " + t);
      WordEnds(p.name, rest, n, "AS " + t);
    }
    assert p.name == n ==> d == head + (p.value.yql + ";");
  }

  lemma {:induction false} DeclaringIs(qs: seq<Parameter>, n: string)
    requires ' ' !in n && forall k :: 0 <= k < |qs| ==> ' ' !in qs[k].name
    ensures Many(Declarations(qs), Declaring(n)) == Many(qs, Called(n))
  {
    if qs != [] {
      DeclaresIff(qs[0], n);
      DeclaringIs(qs[1..], n);
      assert Declarations(qs)[1..] == Declarations(qs[1..]);
    }
  }

  lemma CalledOnce(args: seq<Arg>, k: nat)
    requires Convertible(args) && k < |args|
    ensures Many(ByPosition(args), Called(NameOf(k, args[k]))) == 1 <==> Alone(args, k)
  {
    NamesAre(args);
    ManyOnce(ByPosition(args), k, Called(NameOf(k, args[k])));
  }

  /** The declaration lines, in order, are those of the arguments. A name is declared once exactly
      when no other argument has it. */
  lemma DeclaredOnce(args: seq<Arg>, k: nat)
    requires Convertible(args) && k < |args|
    ensures var qs := ByPosition(args);
      var ps := Sort(qs, ByName);
      var ds := Sort(Declarations(ps), Le);
      && multiset(ds) == multiset(Declarations(qs)) && Sorted(ds, Le)
      && (Many(ps, Called(NameOf(k, args[k]))) == 1 <==> Alone(args, k))
      && (Spaceless(args) ==> (Many(ds, Declaring(NameOf(k, args[k]))) == 1 <==> Alone(args, k)))
  {
    var qs, n := ByPosition(args), NameOf(k, args[k]);
    var ps := Sort(qs, ByName);
    var ds := Sort(Declarations(ps), Le);
    SortDeclares(qs);
    StringOrder();
    SortIs(Declarations(ps), Le);
    SortIs(qs, ByName);
    CalledOnce(args, k);
    ManySame(ps, qs, Called(n));
    if Spaceless(args) {
      NamesAre(args);
      ManySame(ds, Declarations(qs), Declaring(n));
      DeclaringIs(qs, n);
    }
  }

  lemma NoSpace(k: nat)
    ensures ' ' !in Name(k)
  {
    ItoaReads(k);
  }

  /** Names by position have no spaces and are all different, so each is declared once. */
  lemma PositionsDeclared(args: seq<Arg>, k: nat)
    requires Convertible(args) && InPosition(args) && k < |args|
    ensures Spaceless(args) && Alone(args, k)
    ensures Many(Sort(Declarations(Sort(ByPosition(args), ByName)), Le), Declaring(Name(k))) == 1
  {
    forall j | 0 <= j < |args| ensures ' ' !in NameOf(j, args[j]) && (j != k ==> NameOf(j, args[j]) != NameOf(k, args[k])) {
      NoSpace(j);
      if Name(j) == Name(k) { NamesDiffer(j, k); }
    }
    DeclaredOnce(args, k);
  }

  // ---- which argument a position's name is bound to ----

  ghost predicate Different(qs: seq<Parameter>) {
    forall j, k :: 0 <= j < k < |qs| ==> qs[j].value != qs[k].value
  }

  /** Some argument has the name of position `k`. */
  ghost predicate IsNamed(args: seq<Arg>, k: nat) { exists j :: 0 <= j < |args| && NameOf(j, args[j]) == Name(k) }

  ghost predicate AllNamed(args: seq<Arg>) { forall k: nat :: k < |args| ==> IsNamed(args, k) }

  ghost predicate AllBound(m: map<string, Value>, n: nat) { forall k: nat :: k < n ==> Name(k) in m }

  ghost predicate NothingElse(m: map<string, Value>, n: nat) { forall x :: x in m ==> exists k: nat :: k < n && x == Name(k) }

  ghost predicate BoundByPosition(m: map<string, Value>, args: seq<Arg>)
    requires Convertible(args)
  {
    forall k: nat :: k < |args| ==> Name(k) in m && m[Name(k)] == ByPosition(args)[k].value
  }

  lemma NamedIff(m: map<string, Value>, args: seq<Arg>, k: nat)
    requires Convertible(args) && Holds(m, ByPosition(args)) && k < |args|
    ensures Name(k) in m <==> IsNamed(args, k)
  {
    var qs := ByPosition(args);
    NamesAre(args);
    if Name(k) in m {
      var j :| 0 <= j < |qs| && qs[j].name == Name(k);
      assert NameOf(j, args[j]) == Name(k);
    }
    if IsNamed(args, k) {
      var j :| 0 <= j < |args| && NameOf(j, args[j]) == Name(k);
      assert qs[j].name in m;
    }
  }

  /** Every position's name is bound exactly when it is the name of some argument. */
  lemma AllBoundIff(m: map<string, Value>, args: seq<Arg>)
    requires Convertible(args) && Holds(m, ByPosition(args))
    ensures AllBound(m, |args|) <==> AllNamed(args)
  {
    forall k: nat | k < |args| ensures Name(k) in m <==> IsNamed(args, k) { NamedIff(m, args, k); }
  }

  lemma InPositionKeeps(m: map<string, Value>, args: seq<Arg>)
    requires Convertible(args) && Holds(m, ByPosition(args)) && InPosition(args)
    ensures BoundByPosition(m, args) && NothingElse(m, |args|)
  {
    var qs := ByPosition(args);
    NamesAre(args);
    ByPositionFunctional(args);
    KeepsIff(m, qs);
    forall k: nat | k < |args| ensures Name(k) in m && m[Name(k)] == qs[k].value {
      assert qs[k].name == NameOf(k, args[k]) == Name(k);
    }
    forall n | n in m ensures exists k: nat :: k < |args| && n == Name(k) {
      var k :| 0 <= k < |qs| && qs[k].name == n;
      assert n == NameOf(k, args[k]) == Name(k);
    }
  }

  /** Arguments of different values are bound by position exactly when none brings another name. */
  lemma ByPositionIff(m: map<string, Value>, args: seq<Arg>)
    requires Convertible(args) && Holds(m, ByPosition(args)) && Different(ByPosition(args))
    ensures BoundByPosition(m, args) <==> InPosition(args)
  {
    if InPosition(args) { InPositionKeeps(m, args); }
    if BoundByPosition(m, args) {
      NamesAre(args);
      forall k | 0 <= k < |args| ensures NameOf(k, args[k]) == Name(k) { HeldByOne(m, ByPosition(args), k, Name(k)); }
    }
  }

  /** Of parameters of different values, the one whose value a name has bears it. */
  lemma HeldByOne(m: map<string, Value>, qs: seq<Parameter>, k: nat, n: string)
    requires Holds(m, qs) && Different(qs) && k < |qs| && n in m && m[n] == qs[k].value
    ensures qs[k].name == n
  {
    var j :| 0 <= j < |qs| && qs[j].name == n && qs[j].value == m[n];
    assert j == k;
  }
}
