/** The retry loop: when it tries again and how long it waits before. */
module Retry {
  import opened Backoff
  import opened Arith
  import opened Floats

  // ---- retry modes ----

  datatype ErrorType = Undefined | NoError | NonRetryable | ConditionallyRetryable | Retryable

  datatype BackoffType = NoBackoff | Fast | Slow

  datatype Mode = Mode(code: int, errType: ErrorType, backoff: BackoffType, deleteSession: bool)

  predicate MustRetry(m: Mode, idempotent: bool) {
    match m.errType
    case Undefined | NoError | NonRetryable => false
    case ConditionallyRetryable => idempotent
    case Retryable => true
  }

  // ---- runs ----

  datatype Result = Success | Failure(mode: Mode)

  /** What the surroundings do during one attempt: whether the context is done before it,
      what the operation returns, whether the context is done after it, the random draw of
      the delay, and whether the context ends the wait. */
  datatype Attempt = Attempt(doneBefore: bool, result: Result, doneAfter: bool, draw: nat, waitEnds: bool)

  datatype Outcome = Done | ContextDone | ContextError | NotRetryable | Panicked | WaitExit | Running

  /** A backoff: the delay for an index and a random draw. */
  type Backoffs = (nat, nat) -> Delayed

  /** The logarithmic backoff, on a platform that makes `far` of a float too large. */
  function Logarithmic(b: LogBackoff, far: int): Backoffs { (i: nat, draw: nat) => Delay(b, i, draw, far) }

  datatype Options = Options(idempotent: bool, fast: Backoffs, slow: Backoffs)

  datatype Pause = NoPause | Pause(delay: Delayed)

  /** The wait for the `i`-th backoff. */
  function PauseFor(o: Options, m: Mode, i: nat, draw: nat): Pause {
    match m.backoff
    case NoBackoff => NoPause
    case Fast => Pause.Pause(o.fast(i, draw))
    case Slow => Pause.Pause(o.slow(i, draw))
  }

  predicate Panics(p: Pause) { p == Pause.Pause(Panic) }

  datatype Wait = Wait(mode: Mode, index: nat, pause: Pause)

  // ---- the backoff index ----

  /** How many of the last codes are `c`. */
  function RunBefore(codes: seq<int>, c: int): nat {
    if codes == [] || codes[|codes| - 1] != c then 0 else 1 + RunBefore(codes[..|codes| - 1], c)
  }

  /** The codes of the failures of the first `k` attempts. */
  function Codes(script: seq<Attempt>, k: nat): seq<int>
    requires k <= |script|
  {
    seq(k, j requires 0 <= j < k => if script[j].result.Failure? then script[j].result.mode.code else 0)
  }

  /** The index that a failure has after those of the given codes: the loop starts as if a
      failure of code 0 came before. */
  function Index(codes: seq<int>, c: int): nat { RunBefore([0] + codes, c) }

  /** The length of the directly preceding failures of the same code. */
  lemma {:induction false} RunBeforeIs(codes: seq<int>, c: int)
    ensures var r := RunBefore(codes, c);
      && r <= |codes|
      && (forall j :: |codes| - r <= j < |codes| ==> codes[j] == c)
      && (r < |codes| ==> codes[|codes| - 1 - r] != c)
  {
    if codes != [] { RunBeforeIs(codes[..|codes| - 1], c); }
  }

  /** The index is the number of directly preceding failures of the same code, except that it
      is one more for code 0 when nothing but code 0 came before. */
  lemma {:induction false} IndexIff(codes: seq<int>, c: int)
    ensures Index(codes, c) == RunBefore(codes, c) <==> !(c == 0 && forall j :: 0 <= j < |codes| ==> codes[j] == 0)
    ensures RunBefore(codes, c) <= Index(codes, c) <= RunBefore(codes, c) + 1
  {
    if codes == [] {
      assert ([0] + codes)[..0] == [];
    } else {
      var init, last := codes[..|codes| - 1], codes[|codes| - 1];
      IndexIff(init, c);
      assert ([0] + codes)[..|codes|] == [0] + init;
      assert codes == init + [last];
    }
  }

  lemma FirstZero()
    ensures Index([], 0) == 1 && RunBefore([], 0) == 0
  {
    IndexIff([], 0);
  }

  // ---- how runs end ----

  /** The pause after the failure of attempt `k`. */
  function PauseAt(o: Options, script: seq<Attempt>, k: nat): Pause
    requires k < |script| && script[k].result.Failure?
  {
    var m := script[k].result.mode;
    PauseFor(o, m, Index(Codes(script, k), m.code), script[k].draw)
  }

  /** How attempt `k` ends the loop, if it does. */
  function Ends(o: Options, script: seq<Attempt>, k: nat): Outcome
    requires k < |script|
  {
    var a := script[k];
    if a.doneBefore then ContextDone
    else if a.result.Success? then Done
    else if a.doneAfter then ContextError
    else if !MustRetry(a.result.mode, o.idempotent) then NotRetryable
    else if Panics(PauseAt(o, script, k)) then Panicked
    else if a.waitEnds then WaitExit
    else Running
  }

  /** How a run ends, and after how many attempts. */
  function Run(o: Options, script: seq<Attempt>, k: nat): (Outcome, nat)
    requires k <= |script|
    decreases |script| - k
  {
    if k == |script| then (Running, k)
    else if Ends(o, script, k) != Running then (Ends(o, script, k), k + 1)
    else Run(o, script, k + 1)
  }

  /** A run goes on over the attempts that do not end it and stops after the first that does. */
  lemma {:induction false} RunIs(o: Options, script: seq<Attempt>, k: nat)
    requires k <= |script|
    ensures var (outcome, n) := Run(o, script, k);
      && k <= n <= |script|
      && (outcome == Running ==> n == |script| && forall j :: k <= j < n ==> Ends(o, script, j) == Running)
      && (outcome != Running ==> k < n && outcome == Ends(o, script, n - 1))
      && (forall j :: k <= j < n - 1 ==> Ends(o, script, j) == Running)
    decreases |script| - k
  {
    if k < |script| { RunIs(o, script, k + 1); }
  }

  /** A run succeeds exactly when its last attempt does, and every attempt before it failed. */
  lemma DoneIff(o: Options, script: seq<Attempt>)
    ensures var (outcome, n) := Run(o, script, 0);
      && n <= |script|
      && (outcome == Done <==> n > 0 && !script[n - 1].doneBefore && script[n - 1].result.Success?)
      && (forall k :: 0 <= k < n - 1 ==> !script[k].doneBefore && script[k].result.Failure?)
  {
    RunIs(o, script, 0);
    var (outcome, n) := Run(o, script, 0);
    assert outcome == Running ==> n > 0 ==> Ends(o, script, n - 1) == Running;
    forall k | 0 <= k < n - 1 ensures !script[k].doneBefore && script[k].result.Failure? {
      assert Ends(o, script, k) == Running;
    }
  }

  /** When a failed attempt is followed by another. */
  lemma GoesOnIff(o: Options, script: seq<Attempt>, k: nat)
    requires k < |script| && script[k].result.Failure? && !script[k].doneBefore
    ensures Ends(o, script, k) == Running <==>
      && MustRetry(script[k].result.mode, o.idempotent) && !script[k].doneAfter && !script[k].waitEnds
      && !Panics(PauseAt(o, script, k))
  {}

  /** An attempt fails with the context alive. */
  predicate Fails(a: Attempt) { !a.doneBefore && a.result.Failure? && !a.doneAfter }

  function TypeOf(a: Attempt): ErrorType { if a.result.Failure? then a.result.mode.errType else NoError }

  /** Every attempt but the last failed with a retryable error, or with a conditionally retryable
      one of an idempotent operation, while the context lasted. */
  lemma RetriedErrors(o: Options, script: seq<Attempt>, k: nat)
    requires k + 1 < Run(o, script, 0).1
    ensures k < |script| && Fails(script[k]) && !script[k].waitEnds
    ensures var t := TypeOf(script[k]); t == Retryable || (t == ConditionallyRetryable && o.idempotent)
  {
    RunIs(o, script, 0);
    assert Ends(o, script, k) == Running;
  }

  /** How a run ends, by what its last attempt met. */
  lemma OutcomeIff(o: Options, script: seq<Attempt>)
    requires Run(o, script, 0).1 > 0
    ensures var (outcome, n) := Run(o, script, 0);
      && n <= |script|
      && var a := script[n - 1];
      && (outcome == ContextDone <==> a.doneBefore)
      && (outcome == ContextError <==> !a.doneBefore && a.result.Failure? && a.doneAfter)
      && var t := TypeOf(a);
      && (outcome == NotRetryable <==> Fails(a) && t != Retryable && !(t == ConditionallyRetryable && o.idempotent))
      && (outcome == WaitExit || outcome == Panicked || outcome == Running <==>
            Fails(a) && (t == Retryable || (t == ConditionallyRetryable && o.idempotent)))
      && (outcome == Panicked ==> Panics(PauseAt(o, script, n - 1)))
      && (outcome == WaitExit ==> !Panics(PauseAt(o, script, n - 1)) && a.waitEnds)
      && (outcome == Running ==> !Panics(PauseAt(o, script, n - 1)) && !a.waitEnds && n == |script|)
  {
    RunIs(o, script, 0);
    var (outcome, n) := Run(o, script, 0);
    assert Ends(o, script, n - 1) == outcome;
  }

  /** The pause after a failure is that of its own kind of backoff, or none. */
  lemma PauseIs(o: Options, m: Mode, i: nat, draw: nat)
    ensures m.backoff == Fast ==> PauseFor(o, m, i, draw) == Pause.Pause(o.fast(i, draw))
    ensures m.backoff == Slow ==> PauseFor(o, m, i, draw) == Pause.Pause(o.slow(i, draw))
    ensures PauseFor(o, m, i, draw) == NoPause <==> m.backoff == NoBackoff
  {}

  // ---- the loop ----

  ghost predicate WaitOk(o: Options, script: seq<Attempt>, k: nat, w: Wait)
    requires k < |script|
  {
    var a := script[k];
    && a.result.Failure? && w.mode == a.result.mode && MustRetry(w.mode, o.idempotent)
    && w.index == Index(Codes(script, k), w.mode.code)
    && w.pause == PauseFor(o, w.mode, w.index, a.draw) && !Panics(w.pause)
  }

  ghost predicate WaitsOk(o: Options, script: seq<Attempt>, waits: seq<Wait>)
    requires |waits| <= |script|
  {
    forall k :: 0 <= k < |waits| ==> WaitOk(o, script, k, waits[k])
  }

  lemma WaitsNext(o: Options, script: seq<Attempt>, waits: seq<Wait>, w: Wait)
    requires |waits| < |script| && WaitsOk(o, script, waits) && WaitOk(o, script, |waits|, w)
    ensures WaitsOk(o, script, waits + [w])
  {}

  lemma CodesNext(script: seq<Attempt>, k: nat)
    requires k < |script| && script[k].result.Failure?
    ensures Codes(script, k + 1) == Codes(script, k) + [script[k].result.mode.code]
  {}

  lemma IndexNext(codes: seq<int>, c: int)
    ensures RunBefore([0] + (codes + [c]), c) == 1 + Index(codes, c)
  {
    var h := [0] + (codes + [c]);
    assert h[..|h| - 1] == [0] + codes;
  }

  /** Retry: attempts go on while each fails retryably and the context lasts. Every wait comes
      after a failure that may be retried, its index counts the directly preceding failures
      of the same code, and its delay did not panic. */
  method Retry(o: Options, script: seq<Attempt>) returns (outcome: Outcome, attempts: nat, waits: seq<Wait>)
    ensures (outcome, attempts) == Run(o, script, 0)
    ensures |waits| == if outcome == WaitExit || outcome == Running then attempts else attempts - 1
    ensures attempts <= |script| && WaitsOk(o, script, waits)
  {
    var i, code := 0, 0;
    attempts, waits := 0, [];
    while attempts < |script|
      invariant 0 <= attempts <= |script| && |waits| == attempts
      invariant Run(o, script, attempts) == Run(o, script, 0)
      invariant WaitsOk(o, script, waits)
      invariant code == ([0] + Codes(script, attempts))[attempts]
      invariant i + 1 == RunBefore([0] + Codes(script, attempts), code)
    {
      ghost var k := attempts;
      var a := script[attempts];
      i := i + 1;
      attempts := attempts + 1;
      if a.doneBefore { return ContextDone, attempts, waits; }
      if a.result.Success? { return Done, attempts, waits; }
      if a.doneAfter { return ContextError, attempts, waits; }
      var m := a.result.mode;
      if m.code != code { i := 0; }
      if !MustRetry(m, o.idempotent) { return NotRetryable, attempts, waits; }
      assert i == Index(Codes(script, k), m.code);
      var pause := PauseFor(o, m, i, a.draw);
      if Panics(pause) { return Panicked, attempts, waits; }
      WaitsNext(o, script, waits, Wait(m, i, pause));
      waits := waits + [Wait(m, i, pause)];
      if a.waitEnds { return WaitExit, attempts, waits; }
      CodesNext(script, k);
      IndexNext(Codes(script, k), m.code);
      code := m.code;
    }
    outcome := Running;
  }

  function BackoffOf(o: Options, m: Mode): Backoffs { if m.backoff == Fast then o.fast else o.slow }

  /** With a logarithmic backoff, a failure that would be retried panics in its delay exactly
      when, under a full jitter limit, the float64 of the slot doubled by its index is above
      it, and otherwise the doubled slot overflows into a negative number or the bound of the
      draw overflows. */
  lemma PanicIff(o: Options, script: seq<Attempt>, k: nat, b: LogBackoff, far: int)
    requires k < |script| && script[k].result.Failure? && !script[k].doneBefore && !script[k].doneAfter
    requires MustRetry(script[k].result.mode, o.idempotent)
    requires BackoffOf(o, script[k].result.mode) == Logarithmic(b, far) && b.slot < INT64 && IsFloat(Limit(b))
    ensures var m := script[k].result.mode;
      var i := Index(Codes(script, k), m.code);
      Ends(o, script, k) == Panicked <==>
        && m.backoff != NoBackoff
        && if Share(b) == 1.0 then !FullLasts(Doubled(b, i), far) else Doubled(b, i) < 0 || Overdraws(b, i)
  {
    var m := script[k].result.mode;
    LastsIff(b, Index(Codes(script, k), m.code), script[k].draw, far);
  }

  /** A wait of the loop lasts between the fixed part of its delay and the slot doubled as
      often as its index says, up to the ceiling. */
  lemma WaitBounds(o: Options, script: seq<Attempt>, k: nat, w: Wait, b: LogBackoff, far: int)
    requires k < |script| && WaitOk(o, script, k, w) && w.mode.backoff != NoBackoff
    requires BackoffOf(o, w.mode) == Logarithmic(b, far) && b.slot < INT64 && IsFloat(Limit(b))
    requires Slot(b) * Power(2, Exponent(b, w.index)) < INT64
    ensures var full := Slot(b) * Power(2, Exponent(b, w.index));
      && w.pause.Pause? && w.pause.delay.Lasts? && Fixed(b, full, far) <= w.pause.delay.d <= full
      && if Share(b) == 1.0 then FullLasts(full, far) else !Overdraws(b, w.index)
  {
    DelayWithin(b, w.index, script[k].draw, far);
  }
}
