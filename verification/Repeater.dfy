/** The worker that repeats the discovery task, on a tick or when forced. */
module Repeater {
  import opened Arith
  import opened Backoff
  import opened Floats

  datatype Event = Tick | Force | Cancel

  datatype Branch = OnDone | OnTick | OnForce

  /** What other goroutines do between two steps of the worker: calls of Force, and the end of
      the context. */
  datatype Env = Env(forced: bool, cancelled: bool)

  /** The choices of one turn of the worker's loop: what comes before the select, which of its
      ready branches it takes, how a forced wait ends, the draw of its delay, what the platform
      makes of a float too large, the moments around the repeated function, and whether it
      fails. */
  datatype Turn = Turn(before: Env, branch: Branch, wait: Event, draw: nat, far: int, start: Env, during: Env, fails: bool)

  /** How many of the last wake-ups failed. */
  function Failures(wakes: seq<bool>): nat {
    if wakes == [] || !wakes[|wakes| - 1] then 0 else 1 + Failures(wakes[..|wakes| - 1])
  }

  /** The failures since the last success. */
  lemma {:induction false} FailuresAre(wakes: seq<bool>)
    ensures var n := Failures(wakes);
      && n <= |wakes|
      && (forall j :: |wakes| - n <= j < |wakes| ==> wakes[j])
      && (n < |wakes| ==> !wakes[|wakes| - 1 - n])
  {
    if wakes != [] { FailuresAre(wakes[..|wakes| - 1]); }
  }

  const FORCE: LogBackoff := LogBackoff(500 * MILLISECOND, 6, 1.0)

  lemma AtMost64(e: nat)
    requires e <= 6
    ensures Power(2, e) <= 64
  {
    Power2Mono(e, 6);
    assert Power(2, 6) == 64;
  }

  lemma ForceFits(p: nat)
    requires p <= 64
    ensures 500 * MILLISECOND * p <= 32 * SECOND < INT64 && (500 * MILLISECOND * p) as real <= TOP
  {}

  /** The forced wait after `k` failures is 500 ms doubled `k` times, at most 32 s, whatever
      the random draw and the platform. */
  lemma ForcedDelay(k: nat, draw: nat, far: int)
    ensures var e := if k < 6 then k else 6;
      Delay(FORCE, k, draw, far) == Lasts(500_000_000 * Power(2, e)) && 500_000_000 * Power(2, e) <= 32_000_000_000
  {
    var e := Exponent(FORCE, k);
    AtMost64(e);
    ForceFits(Power(2, e));
    FloatExact(1);
    DelayWithin(FORCE, k, draw, far);
  }

  /** A forced wait and the failures before it. */
  datatype ForcedWait = ForcedWait(failures: nat, delay: int)

  predicate WaitOk(w: ForcedWait) {
    && w.failures > 0
    && w.delay == 500 * MILLISECOND * Power(2, if w.failures < 6 then w.failures else 6) <= 32 * SECOND
  }

  /** Whether the repeated function fails, turn by turn. */
  function Outcomes(script: seq<Turn>): seq<bool> {
    seq(|script|, k requires 0 <= k < |script| => script[k].fails)
  }

  lemma OutcomesNext(script: seq<Turn>, k: nat)
    requires k < |script|
    ensures Outcomes(script[..k + 1]) == Outcomes(script[..k]) + [script[k].fails]
  {}

  /** How many turns run the function whatever happens: all but forced waits that are cancelled. */
  function Sure(script: seq<Turn>): nat {
    if script == [] then 0
    else
      var n := |script| - 1;
      Sure(script[..n]) + if script[n].branch == OnForce && script[n].wait == Cancel then 0 else 1
  }

  lemma SureNext(script: seq<Turn>, k: nat)
    requires k < |script|
    ensures Sure(script[..k + 1]) == Sure(script[..k]) + if script[k].branch == OnForce && script[k].wait == Cancel then 0 else 1
  {
    assert script[..k + 1][..k] == script[..k];
  }

  class Worker {
    var force: bool      // the token in the one-slot channel
    var done: bool       // the context
    var forceIndex: nat
    var wakes: seq<bool> // for each wake-up, whether it failed
    var waits: seq<ForcedWait>

    constructor ()
      ensures !force && !done && forceIndex == 0 && wakes == [] && waits == []
    {
      force, done, forceIndex, wakes, waits := false, false, 0, [], [];
    }

    /** The promise at the head of the loop. */
    ghost predicate AtHead()
      reads this
    {
      forceIndex == Failures(wakes) && (forceIndex > 0 ==> force || done)
    }

    method Interfere(e: Env)
      modifies `force, `done
      ensures force == (old(force) || e.forced) && done == (old(done) || e.cancelled)
    {
      if e.forced { force := true; }
      if e.cancelled { done := true; }
    }

    /** wakeUp: a failed task leaves the force token behind, a successful one takes it away; a
        finished context fails the wake-up without touching the token. */
    method WakeUp(t: Turn) returns (failed: bool)
      modifies this
      ensures forceIndex == old(forceIndex) && waits == old(waits)
      ensures wakes == old(wakes) + [failed]
      ensures failed ==> force || done
      ensures old(done) ==> failed && force == old(force)
      ensures !old(done) ==> failed == t.fails && force == t.fails
      ensures old(done) ==> done
    {
      if done {
        failed := true;
      } else {
        Interfere(t.during);
        failed := t.fails;
        force := failed;
      }
      wakes := wakes + [failed];
    }

    /** waitForceEvent: no wait without failures, else until the delay, a tick or the end. */
    method WaitForceEvent(t: Turn) returns (event: Event)
      modifies `force, `done, `waits
      ensures event == Cancel ==> done
      ensures forceIndex == 0 ==> event == Force && waits == old(waits) && done == old(done)
      ensures forceIndex > 0 ==> exists w :: WaitOk(w) && w.failures == forceIndex && waits == old(waits) + [w]
      ensures old(done) ==> done
      ensures event == Cancel ==> t.wait == Cancel
    {
      if forceIndex == 0 { return Force; }
      ForcedDelay(forceIndex, t.draw, t.far);
      var w := ForcedWait(forceIndex, Delay(FORCE, forceIndex, t.draw, t.far).d);
      assert WaitOk(w);
      waits := waits + [w];
      Interfere(t.start);
      if t.wait == Cancel && !done { return Force; }
      return t.wait;
    }

    /** processEvent. */
    method ProcessEvent(event: Event, t: Turn)
      requires forceIndex == Failures(wakes) && (event == Cancel ==> done)
      modifies this
      ensures AtHead() && waits == old(waits)
      ensures event == Cancel ==> wakes == old(wakes)
      ensures event != Cancel ==> wakes == old(wakes) + [old(done) || t.fails]
      ensures old(done) ==> done
    {
      if event == Cancel { return; }
      var failed := WakeUp(t);
      assert wakes[..|wakes| - 1] == old(wakes);
      if failed { forceIndex := forceIndex + 1; } else { forceIndex := 0; }
    }

    ghost predicate WaitsOk()
      reads this
    {
      forall j :: 0 <= j < |waits| ==> WaitOk(waits[j])
    }

    /** One turn of the loop. */
    method TakeTurn(t: Turn) returns (stopped: bool)
      requires AtHead() && WaitsOk()
      modifies this
      ensures AtHead() && WaitsOk() && (stopped || old(done) ==> done)
      ensures !done ==> wakes == old(wakes) + [t.fails]
      ensures |wakes| >= |old(wakes)| + if stopped || (t.branch == OnForce && t.wait == Cancel) then 0 else 1
    {
      Interfere(t.before);
      if t.branch == OnForce && force {
        force := false;
        var event := WaitForceEvent(t);
        ProcessEvent(event, t);
      } else if t.branch == OnDone && done {
        return true;
      } else {
        ProcessEvent(Tick, t);
      }
      return false;
    }

    /** The worker over the choices of its surroundings, one per turn: at the head of every
        turn the force index counts the failures since the last success, and after a failure
        the token is there or the context is done, so the next turn wakes up again. While the
        context lasts every turn, by a tick or a force, runs the function once, and even after
        it every turn but a cancelled wait does. */
    method Run(script: seq<Turn>) returns (stopped: bool)
      requires AtHead() && waits == []
      modifies this
      ensures AtHead() && WaitsOk() && (stopped ==> done)
      ensures !done ==> wakes == old(wakes) + Outcomes(script)
      ensures !stopped ==> |wakes| >= |old(wakes)| + Sure(script)
    {
      var k := 0;
      while k < |script|
        invariant 0 <= k <= |script| && AtHead() && WaitsOk()
        invariant !done ==> wakes == old(wakes) + Outcomes(script[..k])
        invariant |wakes| >= |old(wakes)| + Sure(script[..k])
      {
        OutcomesNext(script, k);
        SureNext(script, k);
        stopped := TakeTurn(script[k]);
        if stopped { return; }
        k := k + 1;
      }
      assert script[..k] == script;
      return false;
    }
  }
}
