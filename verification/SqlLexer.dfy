/** The state-function lexer of the query binder. */
module SqlLexer {
  import opened Numerals
  import opened SqlText
  import opened SqlParts

  const MAX_INT: nat := 0x7fff_ffff_ffff_ffff

  datatype StateFn = RawState | QuoteState(q: Mark) | LineState | CommentState | NumberState | Stop

  // ---- what one turn of a state's loop reads ----

  /** A raw mode that the next character does not extend is the raw mode. */
  lemma AsRaw(numeric: bool, src: string, start: nat, pos: nat, m: Mode)
    requires start <= pos <= |src| && InRaw(m)
    requires pos < |src| ==> Next(m, src[pos]) == FromRaw(src[pos])
    ensures Lex(numeric, src, start, pos, m) == Lex(numeric, src, start, pos, Raw)
  {}

  lemma AsComment(numeric: bool, src: string, start: nat, pos: nat, m: Mode)
    requires start <= pos <= |src| && (m.CommentSlash? || m.CommentStar?)
    requires pos < |src| ==> Next(m, src[pos]) == FromComment(m.depth, src[pos])
    ensures Lex(numeric, src, start, pos, m) == Lex(numeric, src, start, pos, Comment(m.depth))
  {}

  /** A placeholder of the lexer's kind, if the position is in raw text. */
  predicate Marks(numeric: bool, src: string, pos: nat) {
    if numeric then Sees(src, pos, '$') && pos + 1 < |src| && IsDigit(src[pos + 1]) else Sees(src, pos, '?')
  }

  /** One character that is no placeholder. */
  lemma Step(numeric: bool, src: string, start: nat, pos: nat, m: Mode)
    requires start <= pos < |src| && !m.Dead? && (InRaw(m) ==> !Marks(numeric, src, pos))
    ensures Lex(numeric, src, start, pos, m) == Lex(numeric, src, start, pos + 1, Next(m, src[pos]))
  {}

  predicate Sees(src: string, pos: nat, c: char) { pos < |src| && src[pos] == c }

  /** Nothing is left, or the replacement character is next. */
  predicate Halts(src: string, pos: nat) { pos >= |src| || src[pos] == BAD }

  function Past(src: string, pos: nat): nat { if pos < |src| then pos + 1 else pos }

  lemma Ends(numeric: bool, src: string, start: nat, pos: nat, m: Mode)
    requires start <= pos <= |src| && Halts(src, pos) && m != LineEscape
    ensures Lex(numeric, src, start, pos, m) == Tail(src, start, if m.Dead? then pos else Past(src, pos))
  {}

  lemma QuoteTurn(numeric: bool, src: string, start: nat, pos: nat, q: Mark)
    requires start <= pos < |src| && !Halts(src, pos)
    ensures Lex(numeric, src, start, pos, Quote(q)) ==
      if src[pos] != q then Lex(numeric, src, start, pos + 1, Quote(q))
      else if Sees(src, pos + 1, q) then Lex(numeric, src, start, pos + 2, Quote(q))
      else Lex(numeric, src, start, pos + 1, Raw)
  {
    Step(numeric, src, start, pos, Quote(q));
    if src[pos] == q {
      if Sees(src, pos + 1, q) {
        Step(numeric, src, start, pos + 1, QuoteEnd(q));
      } else {
        AsRaw(numeric, src, start, pos + 1, QuoteEnd(q));
      }
    }
  }

  lemma LineTurn(numeric: bool, src: string, start: nat, pos: nat)
    requires start <= pos < |src| && !Halts(src, pos)
    ensures Lex(numeric, src, start, pos, Line) ==
      if src[pos] == '\\' then Lex(numeric, src, start, Past(src, pos + 1), Line)
      else if src[pos] == '\n' || src[pos] == '\r' then Lex(numeric, src, start, pos + 1, Raw)
      else Lex(numeric, src, start, pos + 1, Line)
  {
    Step(numeric, src, start, pos, Line);
    if src[pos] == '\\' && pos + 1 < |src| { Step(numeric, src, start, pos + 1, LineEscape); }
  }

  lemma CommentOpens(numeric: bool, src: string, start: nat, pos: nat, d: nat)
    requires start <= pos && Sees(src, pos, '/') && Sees(src, pos + 1, '*')
    ensures Lex(numeric, src, start, pos, Comment(d)) == Lex(numeric, src, start, pos + 2, Comment(d + 1))
  {
    Step(numeric, src, start, pos, Comment(d));
    Step(numeric, src, start, pos + 1, CommentSlash(d));
  }

  lemma CommentCloses(numeric: bool, src: string, start: nat, pos: nat, d: nat)
    requires start <= pos && Sees(src, pos, '*') && Sees(src, pos + 1, '/')
    ensures Lex(numeric, src, start, pos, Comment(d)) ==
      Lex(numeric, src, start, pos + 2, if d == 0 then Raw else Comment(d - 1))
  {
    Step(numeric, src, start, pos, Comment(d));
    Step(numeric, src, start, pos + 1, CommentStar(d));
  }

  lemma CommentGoesOn(numeric: bool, src: string, start: nat, pos: nat, d: nat)
    requires start <= pos < |src| && !Halts(src, pos)
    requires src[pos] == '/' ==> !Sees(src, pos + 1, '*')
    requires src[pos] == '*' ==> !Sees(src, pos + 1, '/')
    ensures Lex(numeric, src, start, pos, Comment(d)) == Lex(numeric, src, start, pos + 1, Comment(d))
  {
    Step(numeric, src, start, pos, Comment(d));
    var m := FromComment(d, src[pos]);
    if m != Comment(d) { AsComment(numeric, src, start, pos + 1, m); }
  }

  lemma RawTurn(numeric: bool, src: string, start: nat, pos: nat)
    requires start <= pos < |src| && !Halts(src, pos) && !Marks(numeric, src, pos)
    ensures Lex(numeric, src, start, pos, Raw) ==
      if IsQuote(src[pos]) then Lex(numeric, src, start, pos + 1, Quote(src[pos]))
      else if src[pos] == '-' && Sees(src, pos + 1, '-') then Lex(numeric, src, start, pos + 2, Line)
      else if src[pos] == '/' && Sees(src, pos + 1, '*') then Lex(numeric, src, start, pos + 2, Comment(0))
      else Lex(numeric, src, start, pos + 1, Raw)
  {
    Step(numeric, src, start, pos, Raw);
    var m := FromRaw(src[pos]);
    if m.Dash? || m.Slash? {
      if Sees(src, pos + 1, if m.Dash? then '-' else '*') {
        Step(numeric, src, start, pos + 1, m);
      } else {
        AsRaw(numeric, src, start, pos + 1, m);
      }
    }
  }

  /** DecodeRuneInString at a position; the end reads as the replacement character. */
  function Decode(src: string, pos: nat): char { if pos < |src| then src[pos] else BAD }

  predicate Fits(parts: seq<Part>) { forall k :: k in RefsIn(parts) ==> k <= MAX_INT }

  lemma FitsMore(parts: seq<Part>, p: Part)
    ensures Fits(parts + [p]) <==> Fits(parts) && (p.Ref? ==> p.k <= MAX_INT)
  {
    RefsInMore(parts, [p]);
    RefsInOne(p);
    assert RefsIn(parts + [p]) == RefsIn(parts) + RefsIn([p]);
  }

  lemma FitsNot(parts: seq<Part>, p: Part, rest: seq<Part>)
    ensures p.Ref? && p.k > MAX_INT ==> !Fits(parts + ([p] + rest))
  {
    if p.Ref? && p.k > MAX_INT {
      var all := parts + ([p] + rest);
      assert all[|parts|] == p;
      assert p.k in RefsIn(all);
    }
  }

  lemma FitsTail(parts: seq<Part>, src: string, start: nat, pos: nat)
    requires start <= pos <= |src| && Fits(parts)
    ensures Fits(parts + Tail(src, start, pos))
  {
    if start < pos {
      FitsMore(parts, Text(src[start..pos]));
    } else {
      assert parts + Tail(src, start, pos) == parts;
    }
  }

  lemma NumberGoesOn(src: string, pos: nat)
    requires pos < |src| && IsDigit(src[pos])
    ensures NumberEnd(src, pos) > pos
  {}

  lemma {:induction false} PositionalFits(src: string, start: nat, pos: nat, m: Mode)
    requires start <= pos <= |src|
    ensures Fits(Lex(false, src, start, pos, m))
    decreases |src| - pos
  {
    if pos == |src| || m.Dead? {
    } else if src[pos] == '?' && InRaw(m) {
      PositionalFits(src, pos + 1, pos + 1, Raw);
      RefsInMore([Text(src[start..pos]), Hole], Lex(false, src, pos + 1, pos + 1, Raw));
    } else {
      PositionalFits(src, start, pos + 1, Next(m, src[pos]));
    }
  }

  /** The mode in which a state function starts; comments start unnested. */
  function ModeOf(s: StateFn): Mode {
    match s
    case QuoteState(q) => Quote(q)
    case LineState => Line
    case CommentState => Comment(0)
    case _ => Raw
  }

  class Lexer {
    const src: string
    const numeric: bool
    var start: nat
    var pos: nat
    var nested: nat
    var parts: seq<Part>
    var panicked: bool

    constructor (src: string, numeric: bool)
      ensures this.src == src && this.numeric == numeric
      ensures start == pos == nested == 0 && parts == [] && !panicked
    {
      this.src, this.numeric := src, numeric;
      start, pos, nested, parts, panicked := 0, 0, 0, [], false;
    }

    ghost predicate Ready(s: StateFn)
      reads this
    {
      && start <= pos <= |src|
      && (s.Stop? || nested == 0)
      && (s.NumberState? ==> numeric && 0 < start == pos < |src| && IsDigit(src[pos]))
    }

    ghost function Todo(s: StateFn): seq<Part>
      requires Ready(s)
      reads this
    {
      if s.Stop? then [] else if s.NumberState? then LexNumber(src, pos) else Lex(numeric, src, start, pos, ModeOf(s))
    }

    /** The pieces already there and those that state `s` has still to find. */
    ghost function All(s: StateFn): seq<Part>
      requires Ready(s)
      reads this
    {
      parts + Todo(s)
    }

    /** The text read so far becomes a piece, and the lexer stops. */
    method Finish() returns (next: StateFn)
      requires start <= pos <= |src|
      modifies `parts, `start
      ensures next == Stop && start <= pos && parts == old(parts) + old(Tail(src, start, pos))
    {
      if pos - start > 0 {
        parts := parts + [Text(src[start..pos])];
        start := pos;
      }
      return Stop;
    }

    /** backtickState, singleQuoteState and doubleQuoteState. */
    method Quoted(q: Mark) returns (next: StateFn)
      requires start <= pos <= |src|
      modifies `pos, `start, `parts
      ensures start <= pos <= |src|
      ensures next == Stop || (next == RawState && pos > old(pos))
      ensures next == Stop ==>
        old(start) <= pos && parts == old(parts) + Tail(src, old(start), pos) &&
        Tail(src, old(start), pos) == old(Lex(numeric, src, start, pos, Quote(q)))
      ensures next == RawState ==>
        start == old(start) && parts == old(parts) &&
        Lex(numeric, src, start, pos, Raw) == old(Lex(numeric, src, start, pos, Quote(q)))
    {
      ghost var todo := Lex(numeric, src, start, pos, Quote(q));
      while true
        invariant start == old(start) <= pos <= |src| && parts == old(parts) && pos >= old(pos)
        invariant Lex(numeric, src, start, pos, Quote(q)) == todo
        decreases |src| - pos
      {
        if Halts(src, pos) { Ends(numeric, src, start, pos, Quote(q)); } else { QuoteTurn(numeric, src, start, pos, q); }
        var r := Decode(src, pos);
        pos := Past(src, pos);
        if r == q {
          if Decode(src, pos) != q { return RawState; }
          pos := Past(src, pos);
        } else if r == BAD {
          next := Finish();
          return;
        }
      }
    }

    /** oneLineCommentState. */
    method LineComment() returns (next: StateFn)
      requires start <= pos <= |src|
      modifies `pos, `start, `parts
      ensures start <= pos <= |src|
      ensures next == Stop || (next == RawState && pos > old(pos))
      ensures next == Stop ==>
        old(start) <= pos && parts == old(parts) + Tail(src, old(start), pos) &&
        Tail(src, old(start), pos) == old(Lex(numeric, src, start, pos, Line))
      ensures next == RawState ==>
        start == old(start) && parts == old(parts) &&
        Lex(numeric, src, start, pos, Raw) == old(Lex(numeric, src, start, pos, Line))
    {
      ghost var todo := Lex(numeric, src, start, pos, Line);
      while true
        invariant start == old(start) <= pos <= |src| && parts == old(parts) && pos >= old(pos)
        invariant Lex(numeric, src, start, pos, Line) == todo
        decreases |src| - pos
      {
        if Halts(src, pos) { Ends(numeric, src, start, pos, Line); } else { LineTurn(numeric, src, start, pos); }
        var r := Decode(src, pos);
        pos := Past(src, pos);
        if r == '\\' {
          pos := Past(src, pos);
        } else if r == '\n' || r == '\r' {
          return RawState;
        } else if r == BAD {
          next := Finish();
          return;
        }
      }
    }

    /** One turn of multilineCommentState. */
    method CommentTurn() returns (next: StateFn)
      requires start <= pos <= |src|
      modifies `pos, `nested
      ensures start <= pos <= |src|
      ensures next == Stop || next == RawState || next == CommentState
      ensures next == Stop ==> old(Lex(numeric, src, start, pos, Comment(nested))) == Tail(src, start, pos)
      ensures next != Stop ==>
        pos > old(pos) && (next == RawState ==> nested == 0) &&
        Lex(numeric, src, start, pos, if next == RawState then Raw else Comment(nested)) ==
          old(Lex(numeric, src, start, pos, Comment(nested)))
    {
      ghost var p, d := pos, nested;
      var r := Decode(src, pos);
      pos := Past(src, pos);
      if r == '/' && Decode(src, pos) == '*' {
        CommentOpens(numeric, src, start, p, d);
        pos := Past(src, pos);
        nested := nested + 1;
      } else if r == '*' && Decode(src, pos) == '/' {
        CommentCloses(numeric, src, start, p, d);
        pos := Past(src, pos);
        if nested == 0 { return RawState; }
        nested := nested - 1;
      } else if r == BAD {
        Ends(numeric, src, start, p, Comment(d));
        return Stop;
      } else {
        CommentGoesOn(numeric, src, start, p, d);
      }
      return CommentState;
    }

    /** multilineCommentState: comments nest. */
    method BlockComment() returns (next: StateFn)
      requires start <= pos <= |src|
      modifies `pos, `start, `parts, `nested
      ensures start <= pos <= |src|
      ensures next == Stop || (next == RawState && pos > old(pos) && nested == 0)
      ensures next == Stop ==>
        old(start) <= pos && parts == old(parts) + Tail(src, old(start), pos) &&
        Tail(src, old(start), pos) == old(Lex(numeric, src, start, pos, Comment(nested)))
      ensures next == RawState ==>
        start == old(start) && parts == old(parts) &&
        Lex(numeric, src, start, pos, Raw) == old(Lex(numeric, src, start, pos, Comment(nested)))
    {
      ghost var todo := Lex(numeric, src, start, pos, Comment(nested));
      while true
        invariant start == old(start) <= pos <= |src| && parts == old(parts) && pos >= old(pos)
        invariant Lex(numeric, src, start, pos, Comment(nested)) == todo
        decreases |src| - pos
      {
        next := CommentTurn();
        if next == Stop {
          next := Finish();
          return;
        } else if next == RawState {
          return;
        }
      }
    }

    /** positionalArgsStateFn. */
    method PositionalRaw() returns (next: StateFn)
      requires start <= pos <= |src| && !numeric && nested == 0
      modifies `pos, `start, `parts
      ensures start <= pos <= |src|
      ensures next == Stop || next.QuoteState? || next.LineState? || next.CommentState?
      ensures next == Stop ==> parts == old(parts + Lex(numeric, src, start, pos, Raw))
      ensures next != Stop ==>
        pos > old(pos) && parts + Lex(numeric, src, start, pos, ModeOf(next)) == old(parts + Lex(numeric, src, start, pos, Raw))
    {
      ghost var all := parts + Lex(numeric, src, start, pos, Raw);
      while true
        invariant start <= pos <= |src| && pos >= old(pos)
        invariant parts + Lex(numeric, src, start, pos, Raw) == all
        decreases |src| - pos
      {
        if Halts(src, pos) {
          Ends(numeric, src, start, pos, Raw);
        } else if src[pos] != '?' {
          RawTurn(numeric, src, start, pos);
        }
        var r := Decode(src, pos);
        pos := Past(src, pos);
        if IsQuote(r) {
          return QuoteState(r);
        } else if r == '?' {
          parts := parts + [Text(src[start..pos - 1]), Hole];
          start := pos;
        } else if r == '-' && Decode(src, pos) == '-' {
          pos := Past(src, pos);
          return LineState;
        } else if r == '/' && Decode(src, pos) == '*' {
          pos := Past(src, pos);
          return CommentState;
        } else if r == BAD {
          next := Finish();
          return;
        }
      }
    }

    /** numericArgsStateFn. */
    method NumericRaw() returns (next: StateFn)
      requires start <= pos <= |src| && numeric && nested == 0
      modifies `pos, `start, `parts
      ensures start <= pos <= |src| && next != RawState
      ensures next != Stop ==> pos > old(pos)
      ensures next == Stop ==>
        old(start) <= pos && parts == old(parts) + Tail(src, old(start), pos) &&
        Tail(src, old(start), pos) == old(Lex(numeric, src, start, pos, Raw))
      ensures next == NumberState ==>
        && 0 < start == pos < |src| && IsDigit(src[pos]) && old(start) < pos
        && parts == old(parts) + [Text(src[old(start)..pos - 1])]
        && [Text(src[old(start)..pos - 1])] + LexNumber(src, pos) == old(Lex(numeric, src, start, pos, Raw))
      ensures next != Stop && next != NumberState ==>
        parts == old(parts) && start == old(start) &&
        Lex(numeric, src, start, pos, ModeOf(next)) == old(Lex(numeric, src, start, pos, Raw))
    {
      ghost var todo := Lex(numeric, src, start, pos, Raw);
      while true
        invariant start == old(start) <= pos <= |src| && pos >= old(pos) && parts == old(parts)
        invariant Lex(numeric, src, start, pos, Raw) == todo
        decreases |src| - pos
      {
        if Halts(src, pos) {
          Ends(numeric, src, start, pos, Raw);
        } else if !Marks(numeric, src, pos) {
          RawTurn(numeric, src, start, pos);
        }
        var r := Decode(src, pos);
        pos := Past(src, pos);
        if IsQuote(r) {
          return QuoteState(r);
        } else if r == '$' && IsDigit(Decode(src, pos)) {
          if pos - start > 0 { parts := parts + [Text(src[start..pos - 1])]; }
          start := pos;
          return NumberState;
        } else if r == '-' && Decode(src, pos) == '-' {
          pos := Past(src, pos);
          return LineState;
        } else if r == '/' && Decode(src, pos) == '*' {
          pos := Past(src, pos);
          return CommentState;
        } else if r == BAD {
          next := Finish();
          return;
        }
      }
    }

    /** The digits of numericArgState. */
    method Digits() returns (numbers: string)
      requires pos <= |src|
      modifies `pos
      ensures pos == DigitsEnd(src, old(pos)) && numbers == src[old(pos)..pos]
    {
      numbers := "";
      while IsDigit(Decode(src, pos))
        invariant old(pos) <= pos <= |src| && numbers == src[old(pos)..pos]
        invariant DigitsEnd(src, pos) == DigitsEnd(src, old(pos))
        decreases |src| - pos
      {
        numbers := numbers + [src[pos]];
        pos := pos + 1;
      }
    }

    /** numericArgState: a number, or text when its digits run into a letter. */
    method Number() returns (next: StateFn)
      requires 0 < start == pos < |src| && IsDigit(src[pos]) && !panicked
      modifies `pos, `start, `parts, `panicked
      ensures panicked <==> old(NumberPart(src, pos)).Ref? && old(NumberPart(src, pos)).k > MAX_INT
      ensures panicked ==> next == Stop
      ensures !panicked ==>
        next == RawState && start == pos == NumberEnd(src, old(pos)) && parts == old(parts) + [old(NumberPart(src, pos))]
    {
      ghost var from := pos;
      var numbers := Digits();
      if IsLetter(Decode(src, pos)) {
        pos := pos + 1;
        parts := parts + [Text(src[start - 1..pos])];
        start := pos;
        return RawState;
      }
      var n := Num(0, numbers);
      if n > MAX_INT {
        panicked := true;
        return Stop;
      }
      parts := parts + [Ref(n)];
      start := pos;
      return RawState;
    }


    /** numericArgState and what it leaves to the raw state. */
    method AfterDollar() returns (next: StateFn)
      requires Ready(NumberState) && !panicked && Fits(parts)
      modifies `pos, `start, `parts, `panicked
      ensures panicked ==> next == Stop && !Fits(old(All(NumberState)))
      ensures !panicked ==>
        next == RawState && Ready(RawState) && All(RawState) == old(All(NumberState)) && pos > old(pos) && Fits(parts)
    {
      ghost var p, rest := NumberPart(src, pos), Lex(true, src, NumberEnd(src, pos), NumberEnd(src, pos), Raw);
      LexNumberIs(src, pos);
      FitsMore(parts, p);
      FitsNot(parts, p, rest);
      NumberGoesOn(src, pos);
      assert parts + LexNumber(src, pos) == parts + [p] + rest;
      next := Number();
    }

    /** One call of the current state function. */
    method Advance(state: StateFn) returns (next: StateFn)
      requires Ready(state) && state != Stop && !panicked && (numeric ==> Fits(parts))
      modifies this
      ensures panicked ==> next == Stop && !Fits(old(All(state)))
      ensures !panicked ==> Ready(next) && All(next) == old(All(state)) && (next == Stop || pos > old(pos))
      ensures !panicked && numeric ==> Fits(parts)
    {
      ghost var ps, from := parts, start;
      match state {
        case RawState =>
          if numeric { next := NumericRaw(); } else { next := PositionalRaw(); }
        case QuoteState(q) => next := Quoted(q);
        case LineState => next := LineComment();
        case CommentState => next := BlockComment();
        case NumberState =>
          next := AfterDollar();
          return;
      }
      if numeric && next == Stop {
        FitsTail(ps, src, from, pos);
      } else if numeric && next == NumberState {
        FitsMore(ps, Text(src[from..pos - 1]));
      }
    }

    /** The loop of RewriteQuery over the state functions: it ends with the pieces of the
        text, or panics on a number that no int holds. */
    method Run()
      requires start == pos == nested == 0 && parts == [] && !panicked
      modifies this
      ensures panicked <==> !Fits(Parts(numeric, src))
      ensures !panicked ==> parts == Parts(numeric, src)
    {
      var state := RawState;
      while state != Stop
        invariant panicked ==> state == Stop && !Fits(Parts(numeric, src))
        invariant !panicked ==> Ready(state) && All(state) == Parts(numeric, src) && (numeric ==> Fits(parts))
        decreases state != Stop, |src| - pos
      {
        state := Advance(state);
      }
      assert !panicked ==> parts + [] == parts == Parts(numeric, src);
      if !numeric { PositionalFits(src, 0, 0, Raw); }
    }
  }
}
