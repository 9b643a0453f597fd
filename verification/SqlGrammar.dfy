/** What the mode automaton reads, said by the tokens that a query is made of: quoted texts,
    comments and the characters between them. */
module SqlGrammar {
  import opened Numerals
  import opened SqlText

  // ---- tokens ----

  /** A part of a block comment: a character, or a comment inside it. */
  datatype Inner = Char(c: char) | Nested(inside: seq<Inner>)

  /** A character of a line comment, and whether a backslash stands before it. */
  datatype Mark = Mark(escaped: bool, c: char)

  datatype Token =
    | Plain(c: char)
    | Quoted(q: char, text: string)
    | LineComment(marks: seq<Mark>, end: char)
    | BlockComment(inside: seq<Inner>)

  const STOP: char := '\U{FFFD}'

  function InnerText(i: Inner): string
    decreases i, 1
  {
    match i
    case Char(c) => [c]
    case Nested(inside) => "/*" + InsideText(inside) + "*/"
  }

  function InsideText(inside: seq<Inner>): string
    decreases inside, 0
  {
    if inside == [] then "" else InnerText(inside[0]) + InsideText(inside[1..])
  }

  /** What may follow in a block comment: a star is not before a slash, nor a slash before a star. */
  predicate InnerFit(before: Inner, i: Inner) {
    && (before == Char('*') ==> i != Char('/') && !i.Nested?)
    && (before == Char('/') ==> i != Char('*'))
  }

  predicate InnerOk(i: Inner)
    decreases i, 1
  {
    match i
    case Char(c) => c != STOP
    case Nested(inside) => InsideOk(inside)
  }

  predicate InsideOk(inside: seq<Inner>)
    decreases inside, 0
  {
    if inside == [] then true
    else
      && InnerOk(inside[0]) && InsideOk(inside[1..])
      && (if |inside| == 1 then inside[0] != Char('/') else InnerFit(inside[0], inside[1]))
  }

  function LineText(marks: seq<Mark>): string {
    if marks == [] then "" else (if marks[0].escaped then ['\\', marks[0].c] else [marks[0].c]) + LineText(marks[1..])
  }

  predicate LineOk(marks: seq<Mark>) {
    forall k :: 0 <= k < |marks| ==>
      marks[k].escaped || (marks[k].c != '\\' && marks[k].c != '\n' && marks[k].c != '\r' && marks[k].c != STOP)
  }

  predicate IsMark(q: char) { q == '`' || q == '\'' || q == '"' }

  function TokenText(t: Token): string {
    match t
    case Plain(c) => [c]
    case Quoted(q, text) => [q] + (text + [q])
    case LineComment(marks, end) => "--" + (LineText(marks) + [end])
    case BlockComment(inside) => "/*" + (InsideText(inside) + "*/")
  }

  predicate TokenOk(t: Token) {
    match t
    case Plain(c) => !IsMark(c) && c != STOP
    case Quoted(q, text) => IsMark(q) && q !in text && STOP !in text
    case LineComment(marks, end) => LineOk(marks) && (end == '\n' || end == '\r')
    case BlockComment(inside) => InsideOk(inside)
  }

  /** A dash is not before a dash, nor a slash before a star. */
  predicate Fit(before: Token, t: Token) {
    && (before == Plain('-') ==> t != Plain('-') && !t.LineComment?)
    && (before == Plain('/') ==> t != Plain('*'))
  }

  function Source(ts: seq<Token>): string { if ts == [] then "" else TokenText(ts[0]) + Source(ts[1..]) }

  ghost predicate Grammatical(ts: seq<Token>) {
    && (forall k :: 0 <= k < |ts| ==> TokenOk(ts[k]))
    && (forall k :: 0 <= k < |ts| - 1 ==> Fit(ts[k], ts[k + 1]))
  }

  // ---- reading a text from a mode on ----

  function After(m: Mode, s: string): Mode
    decreases |s|
  {
    if s == "" then m else After(Next(m, s[0]), s[1..])
  }

  /** How often `c` stands outside quotes and comments. */
  function RawCount(c: char, m: Mode, s: string): nat
    decreases |s|
  {
    if s == "" then 0 else (if s[0] == c && InRaw(m) then 1 else 0) + RawCount(c, Next(m, s[0]), s[1..])
  }

  /** The text with its placeholders named. */
  function Named(m: Mode, s: string, k: nat, name: nat -> string): string
    decreases |s|
  {
    if s == "" || m.Dead? then ""
    else if s[0] == '?' && InRaw(m) then name(k) + Named(Next(m, s[0]), s[1..], k + 1, name)
    else [s[0]] + Named(Next(m, s[0]), s[1..], k, name)
  }

  lemma {:induction false} AfterAppend(m: Mode, a: string, b: string)
    ensures After(m, a + b) == After(After(m, a), b)
    decreases |a|
  {
    if a == "" {
      assert a + b == b;
    } else {
      assert (a + b)[1..] == a[1..] + b;
      AfterAppend(Next(m, a[0]), a[1..], b);
    }
  }

  lemma {:induction false} CountAppend(c: char, m: Mode, a: string, b: string)
    ensures RawCount(c, m, a + b) == RawCount(c, m, a) + RawCount(c, After(m, a), b)
    decreases |a|
  {
    if a == "" {
      assert a + b == b;
    } else {
      assert (a + b)[1..] == a[1..] + b;
      CountAppend(c, Next(m, a[0]), a[1..], b);
    }
  }

  lemma {:induction false} DeadStays(s: string)
    ensures After(Dead, s) == Dead
  {
    if s != "" { DeadStays(s[1..]); }
  }

  lemma NamedFirst(m: Mode, c: char, s: string, k: nat, name: nat -> string)
    requires !m.Dead?
    ensures Named(m, [c] + s, k, name) ==
      if c == '?' && InRaw(m) then name(k) + Named(Next(m, c), s, k + 1, name) else [c] + Named(Next(m, c), s, k, name)
    ensures RawCount('?', m, [c] + s) == (if c == '?' && InRaw(m) then 1 else 0) + RawCount('?', Next(m, c), s)
    ensures After(m, [c] + s) == After(Next(m, c), s)
  {
    assert ([c] + s)[1..] == s;
  }

  lemma {:induction false} NamedAppend(m: Mode, a: string, b: string, k: nat, name: nat -> string)
    requires !After(m, a).Dead?
    ensures Named(m, a + b, k, name) == Named(m, a, k, name) + Named(After(m, a), b, k + RawCount('?', m, a), name)
    decreases |a|
  {
    if a == "" {
      assert a + b == b && "" + Named(m, b, k, name) == Named(m, b, k, name);
    } else {
      if m.Dead? { DeadStays(a); }
      var c, t := a[0], a[1..];
      assert a == [c] + t && a + b == [c] + (t + b);
      NamedFirst(m, c, t, k, name);
      NamedFirst(m, c, t + b, k, name);
      var n := if c == '?' && InRaw(m) then k + 1 else k;
      NamedAppend(Next(m, c), t, b, n, name);
      var here, tail := if c == '?' && InRaw(m) then name(k) else [c], Named(After(m, a), b, k + RawCount('?', m, a), name);
      Joined(here, Named(Next(m, c), t, n, name), tail);
    }
  }

  lemma Joined(a: string, b: string, c: string)
    ensures a + (b + c) == (a + b) + c
  {}

  /** The automaton of the model reads a text the same way. */
  lemma {:induction false} CountIs(src: string, i: nat)
    requires i <= |src|
    ensures HoleCount(src, i) == RawCount('?', ModeAt(src, i), src[i..])
    decreases |src| - i
  {
    if i < |src| {
      CountIs(src, i + 1);
      assert src[i..][1..] == src[i + 1..];
    }
  }

  lemma {:induction false} ExpandIs(src: string, i: nat, k: nat, name: nat -> string)
    requires i <= |src|
    ensures Expand(src, i, k, name) == Named(ModeAt(src, i), src[i..], k, name)
    decreases |src| - i
  {
    if i < |src| {
      ExpandIs(src, i + 1, if IsHole(src, i) then k + 1 else k, name);
      assert src[i..][1..] == src[i + 1..];
    }
  }

  // ---- inside quotes and comments ----

  /** Nothing of the text is raw. */
  predicate Out(m: Mode, s: string)
    decreases |s|
  {
    s == "" || (!InRaw(m) && !m.Dead? && Out(Next(m, s[0]), s[1..]))
  }

  lemma {:induction false} OutIs(m: Mode, s: string, c: char, k: nat, name: nat -> string)
    requires Out(m, s)
    ensures RawCount(c, m, s) == 0 && Named(m, s, k, name) == s
    decreases |s|
  {
    if s != "" {
      OutIs(Next(m, s[0]), s[1..], c, k, name);
      assert s == [s[0]] + s[1..];
    }
  }

  lemma {:induction false} OutAppend(m: Mode, a: string, b: string)
    requires Out(m, a) && Out(After(m, a), b)
    ensures Out(m, a + b)
    decreases |a|
  {
    if a == "" {
      assert a + b == b;
    } else {
      assert (a + b)[1..] == a[1..] + b;
      OutAppend(Next(m, a[0]), a[1..], b);
    }
  }

  lemma OneChar(m: Mode, c: char)
    ensures After(m, [c]) == Next(m, c)
    ensures Out(m, [c]) <==> !InRaw(m) && !m.Dead?
  {
    assert [c][1..] == "";
  }

  lemma TwoChars(m: Mode, a: char, b: char)
    ensures After(m, [a, b]) == Next(Next(m, a), b)
    ensures Out(m, [a, b]) <==> !InRaw(m) && !m.Dead? && !InRaw(Next(m, a)) && !Next(m, a).Dead?
  {
    var s := [a, b];
    assert s[1..] == [b];
    OneChar(Next(m, a), b);
  }

  lemma {:induction false} QuoteStays(q: char, text: string)
    requires IsQuote(q) && q !in text && STOP !in text
    ensures Out(Quote(q), text) && After(Quote(q), text) == Quote(q)
  {
    if text != "" { QuoteStays(q, text[1..]); }
  }

  lemma {:induction false} LineStays(marks: seq<Mark>)
    requires LineOk(marks)
    ensures Out(Line, LineText(marks)) && After(Line, LineText(marks)) == Line
  {
    if marks != [] {
      LineStays(marks[1..]);
      var s := if marks[0].escaped then ['\\', marks[0].c] else [marks[0].c];
      TwoChars(Line, '\\', marks[0].c);
      OneChar(Line, marks[0].c);
      OutAppend(Line, s, LineText(marks[1..]));
      AfterAppend(Line, s, LineText(marks[1..]));
    }
  }

  predicate InComment(m: Mode, d: nat) { m == Comment(d) || m == CommentSlash(d) || m == CommentStar(d) }

  /** What the last part of a comment leaves. */
  function Leaves(i: Inner, d: nat): Mode {
    if i == Char('/') then CommentSlash(d) else if i == Char('*') then CommentStar(d) else Comment(d)
  }

  predicate Follows(m: Mode, d: nat, i: Inner) {
    && InComment(m, d)
    && (m == CommentStar(d) ==> i != Char('/') && !i.Nested?)
    && (m == CommentSlash(d) ==> i != Char('*'))
  }

  lemma {:induction false} InnerReads(i: Inner, d: nat, m: Mode)
    requires InnerOk(i) && Follows(m, d, i)
    ensures Out(m, InnerText(i)) && After(m, InnerText(i)) == Leaves(i, d)
    decreases i, 1
  {
    match i {
      case Char(c) => assert [c][1..] == "";
      case Nested(inside) =>
        TwoChars(m, '/', '*');
        BlockReads(inside, d + 1);
        var t := InsideText(inside) + "*/";
        OutAppend(m, "/*", t);
        AfterAppend(m, "/*", t);
        assert InnerText(i) == "/*" + t;
    }
  }

  /** From its opening on, a comment ends at its own close. */
  lemma {:induction false} BlockReads(inside: seq<Inner>, d: nat)
    requires InsideOk(inside)
    ensures Out(Comment(d), InsideText(inside) + "*/")
    ensures After(Comment(d), InsideText(inside) + "*/") == if d == 0 then Raw else Comment(d - 1)
    decreases inside, 2
  {
    InsideReads(inside, d, Comment(d));
    var t := InsideText(inside);
    var m := After(Comment(d), t);
    TwoChars(m, '*', '/');
    OutAppend(Comment(d), t, "*/");
    AfterAppend(Comment(d), t, "*/");
  }

  lemma {:induction false} InsideReads(inside: seq<Inner>, d: nat, m: Mode)
    requires InsideOk(inside) && (inside == [] ==> m == Comment(d) || m == CommentStar(d)) && (inside != [] ==> Follows(m, d, inside[0]))
    ensures Out(m, InsideText(inside))
    ensures After(m, InsideText(inside)) == Comment(d) || After(m, InsideText(inside)) == CommentStar(d)
    decreases inside, 0
  {
    if inside != [] {
      InnerReads(inside[0], d, m);
      InsideReads(inside[1..], d, Leaves(inside[0], d));
      OutAppend(m, InnerText(inside[0]), InsideText(inside[1..]));
      AfterAppend(m, InnerText(inside[0]), InsideText(inside[1..]));
    }
  }

  // ---- tokens ----

  /** A mode between tokens, and what may not come next. */
  predicate Between(m: Mode, t: Token) {
    && InRaw(m)
    && (m == Dash ==> t != Plain('-') && !t.LineComment?)
    && (m == Slash ==> t != Plain('*'))
  }

  function Left(t: Token): Mode
    requires TokenOk(t)
  {
    match t
    case Plain(c) => if c == '-' then Dash else if c == '/' then Slash else Raw
    case Quoted(q, _) => QuoteEnd(q)
    case _ => Raw
  }

  /** A character that begins no quote or comment and goes on with none. */
  predicate Free(c: char) { !IsMark(c) && c != '-' && c != '/' && c != '*' && c != STOP }

  lemma PlainReads(m: Mode, c: char, x: char)
    requires TokenOk(Plain(c)) && Between(m, Plain(c))
    ensures After(m, [c]) == Left(Plain(c))
    ensures RawCount(x, m, [c]) == if x == c then 1 else 0
  {
    assert [c][1..] == "";
  }

  /** A character that opens what is not raw. */
  lemma OpensOut(m: Mode, c: char, t: string, x: char, k: nat, name: nat -> string)
    requires !m.Dead? && Out(Next(m, c), t) && c != '?' && x != c
    ensures After(m, [c] + t) == After(Next(m, c), t)
    ensures RawCount(x, m, [c] + t) == 0 && Named(m, [c] + t, k, name) == [c] + t
  {
    assert ([c] + t)[1..] == t;
    OutIs(Next(m, c), t, x, k, name);
  }

  /** Two characters that do. */
  lemma OpensTwo(m: Mode, a: char, b: char, t: string, x: char, k: nat, name: nat -> string)
    requires !m.Dead? && !Next(m, a).Dead? && Out(Next(Next(m, a), b), t) && a != '?' && b != '?' && x != a && x != b
    ensures var s := [a, b] + t;
      After(m, s) == After(Next(Next(m, a), b), t) && RawCount(x, m, s) == 0 && Named(m, s, k, name) == s
  {
    var s := [a, b] + t;
    assert s[1..] == [b] + t;
    OpensOut(Next(m, a), b, t, x, k, name);
    assert s == [a] + ([b] + t);
  }

  lemma QuotedReads(m: Mode, q: char, text: string, x: char, k: nat, name: nat -> string)
    requires TokenOk(Quoted(q, text)) && InRaw(m) && Free(x)
    ensures var s := [q] + (text + [q]);
      After(m, s) == QuoteEnd(q) && RawCount(x, m, s) == 0 && Named(m, s, k, name) == s
  {
    QuoteStays(q, text);
    assert [q][1..] == "";
    OutAppend(Quote(q), text, [q]);
    AfterAppend(Quote(q), text, [q]);
    OpensOut(m, q, text + [q], x, k, name);
  }

  lemma LineReads(m: Mode, marks: seq<Mark>, end: char, x: char, k: nat, name: nat -> string)
    requires TokenOk(LineComment(marks, end)) && InRaw(m) && m != Dash && Free(x)
    ensures var s := "--" + (LineText(marks) + [end]);
      After(m, s) == Raw && RawCount(x, m, s) == 0 && Named(m, s, k, name) == s
  {
    LineStays(marks);
    assert [end][1..] == "";
    OutAppend(Line, LineText(marks), [end]);
    AfterAppend(Line, LineText(marks), [end]);
    OpensTwo(m, '-', '-', LineText(marks) + [end], x, k, name);
  }

  lemma CommentReads(m: Mode, inside: seq<Inner>, x: char, k: nat, name: nat -> string)
    requires InsideOk(inside) && InRaw(m) && Free(x)
    ensures var s := "/*" + (InsideText(inside) + "*/");
      After(m, s) == Raw && RawCount(x, m, s) == 0 && Named(m, s, k, name) == s
  {
    BlockReads(inside, 0);
    OpensTwo(m, '/', '*', InsideText(inside) + "*/", x, k, name);
  }

  lemma TokenReads(m: Mode, t: Token, x: char, k: nat, name: nat -> string)
    requires TokenOk(t) && Between(m, t) && Free(x)
    ensures var s := TokenText(t);
      && After(m, s) == Left(t) && RawCount(x, m, s) == (if t == Plain(x) then 1 else 0)
      && Named(m, s, k, name) == if t == Plain('?') then name(k) else s
  {
    match t
    case Plain(c) =>
      PlainReads(m, c, x);
      assert [c][1..] == "" && name(k) + "" == name(k);
    case Quoted(q, text) => QuotedReads(m, q, text, x, k, name);
    case LineComment(marks, end) => LineReads(m, marks, end, x, k, name);
    case BlockComment(inside) => CommentReads(m, inside, x, k, name);
  }

  function Plains(ts: seq<Token>, x: char): nat {
    if ts == [] then 0 else (if ts[0] == Plain(x) then 1 else 0) + Plains(ts[1..], x)
  }

  /** The query with the question marks between its quotes and comments named in order. */
  function Replaced(ts: seq<Token>, k: nat, name: nat -> string): string {
    if ts == [] then ""
    else if ts[0] == Plain('?') then name(k) + Replaced(ts[1..], k + 1, name)
    else TokenText(ts[0]) + Replaced(ts[1..], k, name)
  }

  lemma FitsNext(ts: seq<Token>)
    requires Grammatical(ts) && ts != []
    ensures Grammatical(ts[1..]) && TokenOk(ts[0]) && InRaw(Left(ts[0]))
    ensures |ts| > 1 ==> Between(Left(ts[0]), ts[1])
  {
    if |ts| > 1 { assert Fit(ts[0], ts[1]); }
  }

  lemma {:induction false} SourceReads(m: Mode, ts: seq<Token>, x: char, k: nat, name: nat -> string)
    requires Grammatical(ts) && InRaw(m) && (ts != [] ==> Between(m, ts[0])) && Free(x)
    ensures InRaw(After(m, Source(ts))) && RawCount(x, m, Source(ts)) == Plains(ts, x)
    ensures Named(m, Source(ts), k, name) == Replaced(ts, k, name)
    decreases |ts|
  {
    if ts != [] {
      var s, rest := TokenText(ts[0]), Source(ts[1..]);
      FitsNext(ts);
      TokenReads(m, ts[0], x, k, name);
      TokenReads(m, ts[0], '?', k, name);
      SourceReads(Left(ts[0]), ts[1..], x, if ts[0] == Plain('?') then k + 1 else k, name);
      AfterAppend(m, s, rest);
      CountAppend(x, m, s, rest);
      NamedAppend(m, s, rest, k, name);
    }
  }

  // ---- the theorems ----

  /** For every query made of tokens: the placeholders are exactly the question marks outside
      quotes and comments, and these are named in order while all other text stays. */
  lemma HolesAre(ts: seq<Token>, name: nat -> string)
    requires Grammatical(ts)
    ensures HoleCount(Source(ts), 0) == Plains(ts, '?')
    ensures Expand(Source(ts), 0, 0, name) == Replaced(ts, 0, name)
  {
    var src := Source(ts);
    CountIs(src, 0);
    ExpandIs(src, 0, 0, name);
    assert src[0..] == src;
    SourceReads(Raw, ts, '?', 0, name);
  }

  lemma {:induction false} CountedAt(c: char, src: string, i: nat, j: nat)
    requires i <= j < |src| && src[j] == c && InRaw(ModeAt(src, j))
    ensures RawCount(c, ModeAt(src, i), src[i..]) > 0
    decreases j - i
  {
    if i < j {
      CountedAt(c, src, i + 1, j);
      assert src[i..][1..] == src[i + 1..];
    }
  }

  /** A dollar in quotes or comments refers to nothing. */
  lemma NoRefsIn(ts: seq<Token>)
    requires Grammatical(ts) && Plains(ts, '$') == 0
    ensures Refs(Source(ts), 0) == {}
  {
    var src := Source(ts);
    SourceReads(Raw, ts, '$', 0, _ => "");
    assert src[0..] == src;
    forall j | 0 <= j < |src| && IsRef(src, j) ensures false { CountedAt('$', src, 0, j); }
  }

  /** After grammatical text a dollar and digits refer to their number, unless a letter follows. */
  lemma RefReads(ts: seq<Token>, ds: string, b: string)
    requires Grammatical(ts) && AllDigits(ds) && ds != "" && (b != "" ==> !('0' <= b[0] <= '9'))
    ensures var src := Source(ts) + ("$" + (ds + b));
      && (IsRef(src, |Source(ts)|) <==> b == "" || !('a' <= b[0] <= 'z' || 'A' <= b[0] <= 'Z'))
      && RefNumber(src, |Source(ts)|) == Num(0, ds)
  {
    var a, src := Source(ts), Source(ts) + ("$" + (ds + b));
    SourceReads(Raw, ts, '$', 0, _ => "");
    ModeAfter(src, |a|);
    assert src[..|a|] == a;
    RefAt(src, |a|, ds, b);
  }

  lemma RefAt(src: string, i: nat, ds: string, b: string)
    requires i <= |src| && src[i..] == "$" + (ds + b) && InRaw(ModeAt(src, i))
    requires AllDigits(ds) && ds != "" && (b != "" ==> !('0' <= b[0] <= '9'))
    ensures IsRef(src, i) <==> b == "" || !('a' <= b[0] <= 'z' || 'A' <= b[0] <= 'Z')
    ensures RefNumber(src, i) == Num(0, ds)
  {
    var t, e := src[i..], i + 1 + |ds|;
    assert forall j :: 0 <= j < |t| ==> src[i + j] == t[j];
    assert forall j :: 0 <= j < |ds| ==> t[1 + j] == ds[j];
    assert b != "" ==> src[e] == b[0];
    forall j | i + 1 <= j < e ensures IsDigit(src[j]) { assert src[j] == ds[j - i - 1]; }
    DigitsEndAt(src, i + 1, e);
    assert src[i + 1..e] == ds;
  }

  lemma {:induction false} ModeAfter(src: string, i: nat)
    requires i <= |src|
    ensures ModeAt(src, i) == After(Raw, src[..i])
  {
    if i > 0 {
      ModeAfter(src, i - 1);
      AfterAppend(Raw, src[..i - 1], [src[i - 1]]);
      assert src[..i] == src[..i - 1] + [src[i - 1]] && [src[i - 1]][1..] == "";
    }
  }

  lemma {:induction false} DigitsEndAt(src: string, i: nat, e: nat)
    requires i <= e <= |src| && (forall j :: i <= j < e ==> IsDigit(src[j])) && (e < |src| ==> !IsDigit(src[e]))
    ensures DigitsEnd(src, i) == e
    decreases e - i
  {
    if i < e { DigitsEndAt(src, i + 1, e); }
  }
}
