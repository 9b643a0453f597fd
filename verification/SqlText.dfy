/** Which characters of a query are placeholders: a mode automaton that reads the text one
    character at a time, and the query with its placeholders replaced. */
module SqlText {
  import opened Numerals

  /** The replacement character: decoding it stops the lexer. */
  const BAD: char := '\U{FFFD}'

  predicate IsQuote(c: char) { c == '`' || c == '\'' || c == '"' }

  type Mark = c: char | IsQuote(c) witness '"'

  /** What the characters read so far leave open. `Dash`, `Slash` and `QuoteEnd` are raw text
      whose last character may begin a comment or double a quote. */
  datatype Mode =
    | Raw
    | Dash
    | Slash
    | Quote(q: Mark)
    | QuoteEnd(q: Mark)
    | Line
    | LineEscape
    | Comment(depth: nat)
    | CommentSlash(depth: nat)
    | CommentStar(depth: nat)
    | Dead

  predicate InRaw(m: Mode) { m.Raw? || m.Dash? || m.Slash? || m.QuoteEnd? }

  function FromRaw(c: char): Mode {
    if IsQuote(c) then Quote(c)
    else if c == '-' then Dash
    else if c == '/' then Slash
    else if c == BAD then Dead
    else Raw
  }

  function FromComment(depth: nat, c: char): Mode {
    if c == '/' then CommentSlash(depth)
    else if c == '*' then CommentStar(depth)
    else if c == BAD then Dead
    else Comment(depth)
  }

  function Next(m: Mode, c: char): Mode {
    match m
    case Raw => FromRaw(c)
    case Dash => if c == '-' then Line else FromRaw(c)
    case Slash => if c == '*' then Comment(0) else FromRaw(c)
    case Quote(q) => if c == q then QuoteEnd(q) else if c == BAD then Dead else m
    case QuoteEnd(q) => if c == q then Quote(q) else FromRaw(c)
    case Line =>
      if c == '\\' then LineEscape
      else if c == '\n' || c == '\r' then Raw
      else if c == BAD then Dead
      else Line
    case LineEscape => Line
    case Comment(d) => FromComment(d, c)
    case CommentSlash(d) => if c == '*' then Comment(d + 1) else FromComment(d, c)
    case CommentStar(d) =>
      if c != '/' then FromComment(d, c) else if d == 0 then Raw else Comment(d - 1)
    case Dead => Dead
  }

  /** The mode after the first `i` characters. */
  function ModeAt(src: string, i: nat): Mode
    requires i <= |src|
  {
    if i == 0 then Raw else Next(ModeAt(src, i - 1), src[i - 1])
  }

  predicate Stopped(src: string, i: nat)
    requires i <= |src|
  {
    i == |src| || ModeAt(src, i).Dead?
  }

  // ---- positional placeholders ----

  predicate IsHole(src: string, i: nat)
    requires i < |src|
  {
    src[i] == '?' && InRaw(ModeAt(src, i))
  }

  function HoleCount(src: string, i: nat): nat
    requires i <= |src|
    decreases |src| - i
  {
    if i == |src| then 0 else (if IsHole(src, i) then 1 else 0) + HoleCount(src, i + 1)
  }

  /** The text from `i` on with its placeholders named, the first of them `name(k)`. */
  function Expand(src: string, i: nat, k: nat, name: nat -> string): string
    requires i <= |src|
    decreases |src| - i
  {
    if Stopped(src, i) then ""
    else if IsHole(src, i) then name(k) + Expand(src, i + 1, k + 1, name)
    else [src[i]] + Expand(src, i + 1, k, name)
  }

  // ---- numeric placeholders ----

  predicate IsLetter(c: char) { 'a' <= c <= 'z' || 'A' <= c <= 'Z' }

  /** Where the digits from `i` on end. */
  function DigitsEnd(src: string, i: nat): (e: nat)
    requires i <= |src|
    ensures i <= e <= |src|
    ensures forall j :: i <= j < e ==> IsDigit(src[j])
    ensures e < |src| ==> !IsDigit(src[e])
    decreases |src| - i
  {
    if i < |src| && IsDigit(src[i]) then DigitsEnd(src, i + 1) else i
  }

  /** A dollar and a digit outside quotes and comments. */
  predicate IsDollar(src: string, i: nat)
    requires i < |src|
  {
    src[i] == '$' && i + 1 < |src| && IsDigit(src[i + 1]) && InRaw(ModeAt(src, i))
  }

  predicate LetterFollows(src: string, i: nat)
    requires i <= |src|
  {
    var e := DigitsEnd(src, i);
    e < |src| && IsLetter(src[e])
  }

  predicate IsRef(src: string, i: nat)
    requires i < |src|
  {
    IsDollar(src, i) && !LetterFollows(src, i + 1)
  }

  function RefNumber(src: string, i: nat): nat
    requires i < |src|
  {
    Num(0, src[i + 1..DigitsEnd(src, i + 1)])
  }

  /** The numbers that the text refers to from `i` on. */
  function Refs(src: string, i: nat): set<nat> {
    set j | i <= j < |src| && IsRef(src, j) :: RefNumber(src, j)
  }

  /** The text from `i` on with every numeric placeholder `$k` replaced by `name(k)`. */
  function ExpandRefs(src: string, i: nat, name: nat -> string): string
    requires i <= |src|
    decreases |src| - i
  {
    if Stopped(src, i) then ""
    else if IsRef(src, i) then name(RefNumber(src, i)) + ExpandRefs(src, DigitsEnd(src, i + 1), name)
    else [src[i]] + ExpandRefs(src, i + 1, name)
  }

  // ---- the pieces of a query ----

  datatype Part = Text(text: string) | Hole | Ref(k: nat)

  function Tail(src: string, start: nat, pos: nat): seq<Part>
    requires start <= pos <= |src|
  {
    if pos > start then [Text(src[start..pos])] else []
  }

  /** The pieces still to come, when the characters from `start` to `pos` are read in mode
      `m` and not yet in a piece. */
  function Lex(numeric: bool, src: string, start: nat, pos: nat, m: Mode): seq<Part>
    requires start <= pos <= |src|
    decreases |src| - pos, 1
  {
    if pos == |src| || m.Dead? then Tail(src, start, pos)
    else if !numeric && src[pos] == '?' && InRaw(m) then
      [Text(src[start..pos]), Hole] + Lex(numeric, src, pos + 1, pos + 1, Raw)
    else if numeric && src[pos] == '$' && InRaw(m) && pos + 1 < |src| && IsDigit(src[pos + 1]) then
      [Text(src[start..pos])] + LexNumber(src, pos + 1)
    else Lex(numeric, src, start, pos + 1, Next(m, src[pos]))
  }

  /** The pieces from a number on, whose dollar is read. */
  function LexNumber(src: string, pos: nat): seq<Part>
    requires 0 < pos < |src| && IsDigit(src[pos])
    decreases |src| - pos, 0
  {
    var e := DigitsEnd(src, pos);
    assert e > pos;
    if LetterFollows(src, pos) then [Text(src[pos - 1..e + 1])] + Lex(true, src, e + 1, e + 1, Raw)
    else [Ref(Num(0, src[pos..e]))] + Lex(true, src, e, e, Raw)
  }

  function Parts(numeric: bool, src: string): seq<Part> { Lex(numeric, src, 0, 0, Raw) }
}
