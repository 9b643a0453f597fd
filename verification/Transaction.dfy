/** Transactions and the runs of DoTx over them. */
module Transaction {
  import opened Retry

  // ---- the transaction ----

  datatype TxState = Initialized | Committed | Rollbacked

  /** What happens in an attempt, in order. A call refused without a request is not sent. */
  datatype Event =
    | Got
    | Began
    | Executed(commit: bool, ok: bool)
    | CommitCalled(ok: bool)
    | RollbackCalled(sent: bool, ok: bool)
    | Put

  /** A transaction: its state, the commit flag of its control, which stays set once an
      Execute asks for it, and the events so far. */
  datatype Tx = Tx(state: TxState, commit: bool, events: seq<Event>)

  /** A call of Execute: whether it asks for a commit, and whether the server fails it. */
  datatype Call = Call(commit: bool, fails: bool)

  const ALREADY: Mode := Mode(-1, NonRetryable, NoBackoff, false)

  function ExecuteOne(tx: Tx, c: Call): Tx {
    if tx.state != Initialized then tx
    else
      var commit := tx.commit || c.commit;
      Tx(if commit && !c.fails then Committed else Initialized, commit, tx.events + [Executed(commit, !c.fails)])
  }

  /** CommitTx with the server's answer. */
  function Commit(tx: Tx, answer: Result): (Tx, Result) {
    if tx.state != Initialized then (tx.(events := tx.events + [CommitCalled(false)]), Failure(ALREADY))
    else
      var ok := answer.Success?;
      (tx.(state := if ok then Committed else Initialized, events := tx.events + [CommitCalled(ok)]), answer)
  }

  /** Rollback: nothing to do for a committed transaction. */
  function Rollback(tx: Tx, fails: bool): (Tx, bool) {
    match tx.state
    case Committed => (tx.(events := tx.events + [RollbackCalled(false, true)]), true)
    case Rollbacked => (tx.(events := tx.events + [RollbackCalled(false, false)]), false)
    case Initialized =>
      (tx.(state := if fails then Initialized else Rollbacked, events := tx.events + [RollbackCalled(true, !fails)]), !fails)
  }

  function ExecuteAll(tx: Tx, calls: seq<Call>): Tx
    decreases |calls|
  {
    if calls == [] then tx else ExecuteAll(ExecuteOne(tx, calls[0]), calls[1..])
  }

  class TxObject {
    var state: TxState
    var commit: bool
    var events: seq<Event>

    ghost function View(): Tx
      reads this
    {
      Tx(state, commit, events)
    }

    /** BeginTransaction. */
    constructor (before: seq<Event>)
      ensures View() == Tx(Initialized, false, before + [Began])
    {
      state, commit, events := Initialized, false, before + [Began];
    }

    method Execute(c: Call) returns (ok: bool)
      modifies this
      ensures View() == ExecuteOne(old(View()), c)
      ensures ok <==> old(state) == Initialized && !c.fails
    {
      if state == Committed || state == Rollbacked { return false; }
      if c.commit { commit := true; }
      events := events + [Executed(commit, !c.fails)];
      if c.fails { return false; }
      if commit { state := Committed; }
      return true;
    }

    method CommitTx(answer: Result) returns (r: Result)
      modifies this
      ensures (View(), r) == Commit(old(View()), answer)
    {
      if state == Committed || state == Rollbacked {
        events := events + [CommitCalled(false)];
        return Failure(ALREADY);
      }
      events := events + [CommitCalled(answer.Success?)];
      if answer.Failure? { return answer; }
      state := Committed;
      return Success;
    }

    method RollbackTx(fails: bool) returns (ok: bool)
      modifies this
      ensures (View(), ok) == Rollback(old(View()), fails)
    {
      if state == Committed {
        events := events + [RollbackCalled(false, true)];
        return true;
      }
      if state == Rollbacked {
        events := events + [RollbackCalled(false, false)];
        return false;
      }
      events := events + [RollbackCalled(true, !fails)];
      if fails { return false; }
      state := Rollbacked;
      return true;
    }
  }

  // ---- one attempt ----

  /** What the surroundings do in one attempt: how Get and BeginTransaction end, the calls that
      the operation makes and how it returns, the server's answers to CommitTx and Rollback,
      and the retry mode of an error joined with that of a failed rollback. */
  datatype Faults = Faults(
    get: Result, begin: Result, calls: seq<Call>, op: Result, commit: Result, rollbackFails: bool, joined: Mode)

  /** The transaction after the operation and the commit, and the error so far. */
  function Body(f: Faults): (Tx, Result) {
    var tx := ExecuteAll(Tx(Initialized, false, [Got, Began]), f.calls);
    if f.op.Failure? then (tx, f.op) else Commit(tx, f.commit)
  }

  /** One attempt: its result and its events. */
  function Try(f: Faults): (Result, seq<Event>) {
    if f.get.Failure? then (f.get, [])
    else if f.begin.Failure? then (f.begin, [Got, Put])
    else
      var (tx, r) := Body(f);
      if r.Success? then (r, tx.events + [Put])
      else
        var (tx', ok) := Rollback(tx, f.rollbackFails);
        (if ok then r else Failure(f.joined), tx'.events + [Put])
  }

  method RunCalls(tx: TxObject, calls: seq<Call>)
    modifies tx
    ensures tx.View() == ExecuteAll(old(tx.View()), calls)
  {
    var i := 0;
    while i < |calls|
      invariant 0 <= i <= |calls|
      invariant ExecuteAll(tx.View(), calls[i..]) == ExecuteAll(old(tx.View()), calls)
    {
      assert calls[i..][1..] == calls[i + 1..];
      var _ := tx.Execute(calls[i]);
      i := i + 1;
    }
  }

  /** The function that DoTx retries, with the Get and Put around it. */
  method TryTx(f: Faults) returns (r: Result, events: seq<Event>)
    ensures (r, events) == Try(f)
  {
    if f.get.Failure? { return f.get, []; }
    events := [Got];
    assert events + [Put] == [Got, Put];
    if f.begin.Failure? { return f.begin, events + [Put]; }
    var tx := new TxObject(events);
    assert tx.View() == Tx(Initialized, false, [Got, Began]);
    RunCalls(tx, f.calls);
    r := f.op;
    if r.Success? { r := tx.CommitTx(f.commit); }
    if r.Failure? {
      var ok := tx.RollbackTx(f.rollbackFails);
      if !ok { r := Failure(f.joined); }
    }
    events := tx.events + [Put];
  }
}
