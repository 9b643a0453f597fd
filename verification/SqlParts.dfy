/** The pieces of a query put together again are the query, its placeholders replaced. */
module SqlParts {
  import opened Numerals
  import opened SqlText

  // ---- the automaton ----

  lemma RawGoesOn(src: string, i: nat)
    requires i < |src| && InRaw(ModeAt(src, i))
    requires src[i] == '?' || src[i] == '$' || IsDigit(src[i]) || IsLetter(src[i])
    ensures ModeAt(src, i + 1) == Raw
  {}

  lemma {:induction false} DeadStays(src: string, i: nat, j: nat)
    requires i <= j <= |src| && ModeAt(src, i).Dead?
    ensures ModeAt(src, j).Dead?
    decreases j
  {
    if i < j { DeadStays(src, i, j - 1); }
  }

  /** Text without the replacement character is read to its end. */
  lemma {:induction false} NeverStops(src: string, i: nat)
    requires BAD !in src && i <= |src|
    ensures !ModeAt(src, i).Dead?
  {
    if i > 0 {
      NeverStops(src, i - 1);
      assert src[i - 1] in src;
    }
  }

  /** How much of the text the lexer reads: up to the replacement character that stops it. */
  function Read(src: string, i: nat): (e: nat)
    requires i <= |src|
    ensures i <= e <= |src| && Stopped(src, e)
    ensures forall j :: i <= j < e ==> !Stopped(src, j)
    decreases |src| - i
  {
    if Stopped(src, i) then i else Read(src, i + 1)
  }

  // ---- positional placeholders ----

  function Holes(parts: seq<Part>): nat {
    if parts == [] then 0 else (if parts[0].Hole? then 1 else 0) + Holes(parts[1..])
  }

  /** The text of pieces, the first placeholder among them named `name(k)`. */
  function Render(parts: seq<Part>, k: nat, name: nat -> string): string {
    if parts == [] then ""
    else match parts[0]
      case Text(t) => t + Render(parts[1..], k, name)
      case Hole => name(k) + Render(parts[1..], k + 1, name)
      case Ref(_) => Render(parts[1..], k, name)
  }

  lemma RenderTail(src: string, start: nat, pos: nat, k: nat, name: nat -> string)
    requires start <= pos <= |src|
    ensures Render(Tail(src, start, pos), k, name) == src[start..pos] && Holes(Tail(src, start, pos)) == 0
  {}

  lemma RenderHole(t: string, rest: seq<Part>, k: nat, name: nat -> string)
    ensures Render([Text(t), Hole] + rest, k, name) == t + (name(k) + Render(rest, k + 1, name))
    ensures Holes([Text(t), Hole] + rest) == 1 + Holes(rest)
  {
    var s := [Text(t), Hole] + rest;
    assert s[1..] == [Hole] + rest;
    assert s[1..][1..] == rest;
  }

  lemma {:induction false} DeadCount(src: string, i: nat)
    requires i <= |src| && ModeAt(src, i).Dead?
    ensures HoleCount(src, i) == 0
    decreases |src| - i
  {
    if i < |src| {
      assert ModeAt(src, i + 1).Dead?;
      DeadCount(src, i + 1);
    }
  }

  lemma LexStops(numeric: bool, src: string, start: nat, pos: nat)
    requires start <= pos <= |src| && Stopped(src, pos)
    ensures Lex(numeric, src, start, pos, ModeAt(src, pos)) == Tail(src, start, pos)
  {}

  lemma LexCopies(numeric: bool, src: string, start: nat, pos: nat)
    requires start <= pos <= |src| && !Stopped(src, pos)
    requires if numeric then !IsDollar(src, pos) else !IsHole(src, pos)
    ensures Lex(numeric, src, start, pos, ModeAt(src, pos)) == Lex(numeric, src, start, pos + 1, ModeAt(src, pos + 1))
  {
    assert ModeAt(src, pos + 1) == Next(ModeAt(src, pos), src[pos]);
  }

  lemma LexHole(src: string, start: nat, pos: nat)
    requires start <= pos < |src| && IsHole(src, pos)
    ensures ModeAt(src, pos + 1) == Raw
    ensures Lex(false, src, start, pos, ModeAt(src, pos)) == [Text(src[start..pos]), Hole] + Lex(false, src, pos + 1, pos + 1, Raw)
  {
    RawGoesOn(src, pos);
  }

  /** One more character of the text moved from what is to come to what is read. */
  lemma Shift(src: string, start: nat, pos: nat, rest: string)
    requires start <= pos < |src|
    ensures src[start..pos + 1] + rest == src[start..pos] + ([src[pos]] + rest)
  {
    assert src[start..pos + 1] == src[start..pos] + [src[pos]];
  }

  lemma {:induction false} LexRefines(src: string, start: nat, pos: nat, k: nat, name: nat -> string)
    requires start <= pos <= |src|
    ensures Render(Lex(false, src, start, pos, ModeAt(src, pos)), k, name) == src[start..pos] + Expand(src, pos, k, name)
    decreases |src| - pos
  {
    if Stopped(src, pos) {
      LexStops(false, src, start, pos);
      RenderTail(src, start, pos, k, name);
    } else if IsHole(src, pos) {
      LexHole(src, start, pos);
      LexRefines(src, pos + 1, pos + 1, k + 1, name);
      RenderHole(src[start..pos], Lex(false, src, pos + 1, pos + 1, Raw), k, name);
    } else {
      LexCopies(false, src, start, pos);
      LexRefines(src, start, pos + 1, k, name);
      Shift(src, start, pos, Expand(src, pos + 1, k, name));
    }
  }

  lemma {:induction false} LexCounts(src: string, start: nat, pos: nat)
    requires start <= pos <= |src|
    ensures Holes(Lex(false, src, start, pos, ModeAt(src, pos))) == HoleCount(src, pos)
    decreases |src| - pos
  {
    if Stopped(src, pos) {
      LexStops(false, src, start, pos);
      if pos < |src| { DeadCount(src, pos); }
    } else if IsHole(src, pos) {
      LexHole(src, start, pos);
      LexCounts(src, pos + 1, pos + 1);
      RenderHole(src[start..pos], Lex(false, src, pos + 1, pos + 1, Raw), 0, _ => "");
    } else {
      LexCopies(false, src, start, pos);
      LexCounts(src, start, pos + 1);
    }
  }

  /** The pieces hold one placeholder for every question mark outside quotes, backticks and
      comments, in the order of the text, and nothing of the text is lost or moved. */
  lemma PartsRefine(src: string, name: nat -> string)
    ensures Render(Parts(false, src), 0, name) == Expand(src, 0, 0, name)
    ensures Holes(Parts(false, src)) == HoleCount(src, 0)
  {
    LexRefines(src, 0, 0, 0, name);
    LexCounts(src, 0, 0);
  }

  lemma {:induction false} ExpandMarks(src: string, i: nat, k: nat)
    requires i <= |src|
    ensures Expand(src, i, k, (_: nat) => "?") == src[i..Read(src, i)]
    decreases |src| - i
  {
    if !Stopped(src, i) {
      ExpandMarks(src, i + 1, if IsHole(src, i) then k + 1 else k);
      assert src[i..Read(src, i)] == [src[i]] + src[i + 1..Read(src, i)];
    }
  }

  /** Joining the pieces with question marks gives back the text that was read, all of it
      when it has no replacement character. */
  lemma Rejoin(src: string)
    ensures Render(Parts(false, src), 0, (_: nat) => "?") == src[..Read(src, 0)]
    ensures BAD !in src ==> Render(Parts(false, src), 0, (_: nat) => "?") == src
  {
    var name := (_: nat) => "?";
    PartsRefine(src, name);
    ExpandMarks(src, 0, 0);
    assert src[0..Read(src, 0)] == src[..Read(src, 0)];
    if BAD !in src { NeverStops(src, Read(src, 0)); }
  }

  // ---- numeric placeholders ----

  function RenderRefs(parts: seq<Part>, name: nat -> string): string {
    if parts == [] then ""
    else RenderRef(parts[0], name) + RenderRefs(parts[1..], name)
  }

  function RenderRef(p: Part, name: nat -> string): string {
    match p
    case Text(t) => t
    case Hole => ""
    case Ref(k) => name(k)
  }

  lemma RenderTwo(a: Part, b: Part, rest: seq<Part>, name: nat -> string)
    ensures RenderRefs([a] + ([b] + rest), name) == RenderRef(a, name) + (RenderRef(b, name) + RenderRefs(rest, name))
  {
    var s := [a] + ([b] + rest);
    assert s[1..] == [b] + rest;
    assert s[1..][1..] == rest;
  }

  /** Characters that neither stop the lexer nor start a number are copied. */
  lemma {:induction false} CopyRun(src: string, i: nat, e: nat, name: nat -> string)
    requires i <= e <= |src| && (i < e ==> InRaw(ModeAt(src, i)))
    requires forall j :: i <= j < e ==> IsDigit(src[j]) || IsLetter(src[j])
    ensures ExpandRefs(src, i, name) == src[i..e] + ExpandRefs(src, e, name)
    ensures i < e ==> ModeAt(src, e) == Raw
    decreases e - i
  {
    if i < e {
      CopyOne(src, i, name);
      CopyRun(src, i + 1, e, name);
      Joined(src, i, e, ExpandRefs(src, e, name));
    }
  }

  lemma CopyOne(src: string, i: nat, name: nat -> string)
    requires i < |src| && InRaw(ModeAt(src, i)) && (IsDigit(src[i]) || IsLetter(src[i]))
    ensures ExpandRefs(src, i, name) == [src[i]] + ExpandRefs(src, i + 1, name) && ModeAt(src, i + 1) == Raw
  {
    RawGoesOn(src, i);
  }

  lemma Joined(src: string, i: nat, e: nat, t: string)
    requires i < e <= |src|
    ensures [src[i]] + (src[i + 1..e] + t) == src[i..e] + t
  {
    assert src[i..e] == [src[i]] + src[i + 1..e];
  }

  /** After a number the mode is raw. */
  lemma AfterNumber(src: string, i: nat, e: nat, name: nat -> string)
    requires i < |src| && IsDollar(src, i) && e == DigitsEnd(src, i + 1)
    ensures e > i + 1 && ModeAt(src, e) == Raw && ModeAt(src, i + 1) == Raw
    ensures ExpandRefs(src, i + 1, name) == src[i + 1..e] + ExpandRefs(src, e, name)
    ensures LetterFollows(src, i + 1) ==>
      && ModeAt(src, e + 1) == Raw
      && ExpandRefs(src, i + 1, name) == src[i + 1..e + 1] + ExpandRefs(src, e + 1, name)
  {
    RawGoesOn(src, i);
    CopyRun(src, i + 1, e, name);
    if LetterFollows(src, i + 1) { CopyRun(src, i + 1, e + 1, name); }
  }

  lemma LexDollar(src: string, start: nat, pos: nat)
    requires start <= pos < |src| && IsDollar(src, pos)
    ensures Lex(true, src, start, pos, ModeAt(src, pos)) == [Text(src[start..pos])] + LexNumber(src, pos + 1)
  {}

  lemma {:induction false} LexRefsRefine(src: string, start: nat, pos: nat, name: nat -> string)
    requires start <= pos <= |src|
    ensures RenderRefs(Lex(true, src, start, pos, ModeAt(src, pos)), name) == src[start..pos] + ExpandRefs(src, pos, name)
    decreases |src| - pos
  {
    if Stopped(src, pos) {
      LexStops(true, src, start, pos);
    } else if IsDollar(src, pos) {
      LexDollar(src, start, pos);
      NumberEnds(src, pos, NumberEnd(src, pos + 1));
      LexRefsRefine(src, NumberEnd(src, pos + 1), NumberEnd(src, pos + 1), name);
      NumberRefines(src, start, pos, name);
    } else {
      LexCopies(true, src, start, pos);
      LexRefsRefine(src, start, pos + 1, name);
      Shift(src, start, pos, ExpandRefs(src, pos + 1, name));
    }
  }

  lemma Verbatim(src: string, pos: nat, e: nat, name: nat -> string)
    requires pos < |src| && IsDollar(src, pos) && e == DigitsEnd(src, pos + 1) && LetterFollows(src, pos + 1)
    ensures ExpandRefs(src, pos, name) == src[pos..e + 1] + ExpandRefs(src, e + 1, name)
  {
    AfterNumber(src, pos, e, name);
    assert src[pos..e + 1] == [src[pos]] + src[pos + 1..e + 1];
  }

  /** What a number leaves to read, and its piece. */
  function NumberEnd(src: string, pos: nat): (e: nat)
    requires pos <= |src|
    ensures pos <= e <= |src|
  {
    if LetterFollows(src, pos) then DigitsEnd(src, pos) + 1 else DigitsEnd(src, pos)
  }

  function NumberPart(src: string, pos: nat): Part
    requires 0 < pos < |src|
  {
    if LetterFollows(src, pos) then Text(src[pos - 1..NumberEnd(src, pos)]) else Ref(RefNumber(src, pos - 1))
  }

  lemma LexNumberIs(src: string, pos: nat)
    requires 0 < pos < |src| && IsDigit(src[pos])
    ensures var e := NumberEnd(src, pos);
      LexNumber(src, pos) == [NumberPart(src, pos)] + Lex(true, src, e, e, Raw)
  {}

  lemma NumberEnds(src: string, pos: nat, e: nat)
    requires pos < |src| && IsDollar(src, pos) && e == NumberEnd(src, pos + 1)
    ensures pos + 1 < e && ModeAt(src, e) == Raw
  {
    RawGoesOn(src, pos);
    CopyRun(src, pos + 1, e, _ => "");
  }

  lemma Named(src: string, pos: nat, name: nat -> string)
    requires pos < |src| && IsRef(src, pos)
    ensures ExpandRefs(src, pos, name) == name(RefNumber(src, pos)) + ExpandRefs(src, DigitsEnd(src, pos + 1), name)
  {}

  lemma NumberPartIs(src: string, pos: nat, e: nat, name: nat -> string)
    requires pos < |src| && e == NumberEnd(src, pos + 1) && pos + 1 < |src|
    ensures RenderRef(NumberPart(src, pos + 1), name) ==
      if LetterFollows(src, pos + 1) then src[pos..e] else name(RefNumber(src, pos))
    ensures e == if LetterFollows(src, pos + 1) then DigitsEnd(src, pos + 1) + 1 else DigitsEnd(src, pos + 1)
  {}

  lemma ExpandDollar(src: string, pos: nat, e: nat, name: nat -> string)
    requires pos < |src| && IsDollar(src, pos)
    requires e == if LetterFollows(src, pos + 1) then DigitsEnd(src, pos + 1) + 1 else DigitsEnd(src, pos + 1)
    ensures ExpandRefs(src, pos, name) ==
      (if LetterFollows(src, pos + 1) then src[pos..e] else name(RefNumber(src, pos))) + ExpandRefs(src, e, name)
  {
    if LetterFollows(src, pos + 1) {
      Verbatim(src, pos, DigitsEnd(src, pos + 1), name);
    } else {
      Named(src, pos, name);
    }
  }

  lemma ExpandNumber(src: string, pos: nat, e: nat, name: nat -> string)
    requires pos < |src| && IsDollar(src, pos) && e == NumberEnd(src, pos + 1)
    ensures ExpandRefs(src, pos, name) == RenderRef(NumberPart(src, pos + 1), name) + ExpandRefs(src, e, name)
  {
    NumberPartIs(src, pos, e, name);
    ExpandDollar(src, pos, e, name);
  }

  lemma NumberRefines(src: string, start: nat, pos: nat, name: nat -> string)
    requires start <= pos < |src| && IsDollar(src, pos)
    requires var e := NumberEnd(src, pos + 1); RenderRefs(Lex(true, src, e, e, Raw), name) == ExpandRefs(src, e, name)
    ensures RenderRefs([Text(src[start..pos])] + LexNumber(src, pos + 1), name) == src[start..pos] + ExpandRefs(src, pos, name)
  {
    var e := NumberEnd(src, pos + 1);
    LexNumberIs(src, pos + 1);
    ExpandNumber(src, pos, e, name);
    RenderTwo(Text(src[start..pos]), NumberPart(src, pos + 1), Lex(true, src, e, e, Raw), name);
  }

  /** Every numeric placeholder is a piece and all other text, such as a dollar in quotes or
      one whose digits run into a letter, stays as it is. */
  lemma RefsRefine(src: string, name: nat -> string)
    ensures RenderRefs(Parts(true, src), name) == ExpandRefs(src, 0, name)
  {
    LexRefsRefine(src, 0, 0, name);
  }

  function RefsIn(parts: seq<Part>): set<nat> {
    set p | p in parts && p.Ref? :: p.k
  }

  lemma RefsInMore(a: seq<Part>, b: seq<Part>)
    ensures RefsIn(a + b) == RefsIn(a) + RefsIn(b)
  {
    assert forall p :: p in a + b <==> p in a || p in b;
  }

  lemma RefsInOne(p: Part)
    ensures RefsIn([p]) == if p.Ref? then {p.k} else {}
  {}

  lemma RefsInTwo(t: Part, p: Part, rest: seq<Part>)
    requires t.Text?
    ensures RefsIn([t] + ([p] + rest)) == RefsIn([p]) + RefsIn(rest)
  {
    RefsInMore([t], [p] + rest);
    RefsInOne(t);
    RefsInMore([p], rest);
  }

  lemma RefsNext(src: string, i: nat)
    requires i < |src|
    ensures Refs(src, i) == (if IsRef(src, i) then {RefNumber(src, i)} else {}) + Refs(src, i + 1)
  {
    var one := if IsRef(src, i) then {RefNumber(src, i)} else {};
    forall k: nat | k in Refs(src, i) ensures k in one + Refs(src, i + 1) {
      var j :| i <= j < |src| && IsRef(src, j) && RefNumber(src, j) == k;
    }
    forall k: nat | k in Refs(src, i + 1) ensures k in Refs(src, i) {
      var j :| i + 1 <= j < |src| && IsRef(src, j) && RefNumber(src, j) == k;
    }
  }

  /** Digits and letters refer to nothing. */
  lemma {:induction false} RefsSkip(src: string, i: nat, e: nat)
    requires i <= e <= |src| && forall j :: i <= j < e ==> IsDigit(src[j]) || IsLetter(src[j])
    ensures Refs(src, i) == Refs(src, e)
    decreases e - i
  {
    if i < e {
      RefsNext(src, i);
      RefsSkip(src, i + 1, e);
    }
  }

  lemma {:induction false} DeadRefs(src: string, i: nat)
    requires i <= |src| && Stopped(src, i)
    ensures Refs(src, i) == {}
    decreases |src| - i
  {
    if i < |src| {
      RefsNext(src, i);
      DeadStays(src, i, i + 1);
      DeadRefs(src, i + 1);
    }
  }

  lemma NumberRefs(src: string, pos: nat)
    requires pos < |src| && IsDollar(src, pos)
    ensures Refs(src, pos) == RefsIn([NumberPart(src, pos + 1)]) + Refs(src, NumberEnd(src, pos + 1))
  {
    RefsNext(src, pos);
    RefsInOne(NumberPart(src, pos + 1));
    RefsSkip(src, pos + 1, NumberEnd(src, pos + 1));
  }

  lemma {:induction false} LexRefs(src: string, start: nat, pos: nat)
    requires start <= pos <= |src|
    ensures RefsIn(Lex(true, src, start, pos, ModeAt(src, pos))) == Refs(src, pos)
    decreases |src| - pos
  {
    if Stopped(src, pos) {
      LexStops(true, src, start, pos);
      DeadRefs(src, pos);
    } else if IsDollar(src, pos) {
      var e := NumberEnd(src, pos + 1);
      LexDollar(src, start, pos);
      NumberEnds(src, pos, e);
      LexRefs(src, e, e);
      LexNumberIs(src, pos + 1);
      RefsInTwo(Text(src[start..pos]), NumberPart(src, pos + 1), Lex(true, src, e, e, Raw));
      NumberRefs(src, pos);
    } else {
      LexCopies(true, src, start, pos);
      LexRefs(src, start, pos + 1);
      RefsNext(src, pos);
    }
  }

  /** The pieces refer to the numbers that the text refers to, and to no other. */
  lemma PartsRefs(src: string)
    ensures RefsIn(Parts(true, src)) == Refs(src, 0)
  {
    LexRefs(src, 0, 0);
  }
}
