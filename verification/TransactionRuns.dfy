/** What holds of every run of DoTx, whatever the server does. */
module TransactionRuns {
  import opened Retry
  import opened Transaction

  // ---- one attempt ----

  /** Events added by calls of Execute. */
  ghost predicate Extends(a: seq<Event>, b: seq<Event>) {
    a <= b && forall i :: |a| <= i < |b| ==> b[i].Executed?
  }

  predicate HasRollback(es: seq<Event>, sent: bool) {
    RollbackCalled(sent, true) in es || RollbackCalled(sent, false) in es
  }

  /** The transaction is committed exactly when an Execute has committed it. */
  ghost predicate StateOk(tx: Tx) {
    && tx.state != Rollbacked
    && (tx.state == Committed <==> Executed(true, true) in tx.events)
  }

  lemma {:induction false} ExecuteAllIs(tx: Tx, calls: seq<Call>)
    requires StateOk(tx)
    ensures var tx' := ExecuteAll(tx, calls); StateOk(tx') && Extends(tx.events, tx'.events)
    decreases |calls|
  {
    if calls != [] {
      var t := ExecuteOne(tx, calls[0]);
      assert StateOk(t) && Extends(tx.events, t.events);
      ExecuteAllIs(t, calls[1..]);
    }
  }

  /** Without a commit option no Execute commits. */
  lemma {:induction false} NoInlineCommit(tx: Tx, calls: seq<Call>)
    requires StateOk(tx) && tx.state == Initialized && !tx.commit
    requires forall i :: 0 <= i < |calls| ==> !calls[i].commit
    ensures ExecuteAll(tx, calls).state == Initialized
    decreases |calls|
  {
    if calls != [] { NoInlineCommit(ExecuteOne(tx, calls[0]), calls[1..]); }
  }

  /** The transaction that the operation leaves. */
  function AfterOp(f: Faults): Tx { ExecuteAll(Tx(Initialized, false, [Got, Began]), f.calls) }

  lemma AfterOpIs(f: Faults)
    ensures StateOk(AfterOp(f)) && Extends([Got, Began], AfterOp(f).events)
  {
    ExecuteAllIs(Tx(Initialized, false, [Got, Began]), f.calls);
  }

  predicate CommittedIn(es: seq<Event>) { CommitCalled(true) in es }

  predicate InlineIn(es: seq<Event>) { Executed(true, true) in es }

  /** An attempt succeeds exactly when its CommitTx does. */
  lemma TrySucceedsIff(f: Faults)
    ensures Try(f).0.Success? <==> CommittedIn(Try(f).1)
  {
    AfterOpIs(f);
  }

  /** A transaction that was begun is committed, or its rollback is called; if nothing has
      committed it, the rollback request is sent. */
  lemma TryRollsBack(f: Faults)
    requires Began in Try(f).1
    ensures var es := Try(f).1;
      && (CommittedIn(es) || HasRollback(es, true) || HasRollback(es, false))
      && (!CommittedIn(es) && !InlineIn(es) ==> HasRollback(es, true))
  {
    AfterOpIs(f);
  }

  /** A session that was got is put exactly once, after everything else. */
  lemma TryPutsOnce(f: Faults)
    ensures var es := Try(f).1;
      && (f.get.Failure? ==> es == [])
      && (f.get.Success? ==> |es| >= 2 && es[0] == Got && es[|es| - 1] == Put)
      && (forall i :: 0 < i < |es| - 1 ==> es[i] != Got && es[i] != Put)
  {
    AfterOpIs(f);
  }

  /** After an Execute that committed the transaction the attempt fails, with the operation's
      own error if it has one. */
  lemma InlineFails(f: Faults)
    requires InlineIn(Try(f).1)
    ensures Try(f).0 == if f.op.Failure? then f.op else Failure(ALREADY)
  {
    AfterOpIs(f);
  }

  /** The error of an attempt: that of Get, BeginTransaction, the operation or CommitTx, whichever
      comes first; joined with that of the rollback when that fails; and a refusal that is not
      retryable when CommitTx finds the transaction committed by an Execute. */
  lemma TryFailsWith(f: Faults)
    ensures f.get.Failure? ==> Try(f).0 == f.get
    ensures f.get.Success? && f.begin.Failure? ==> Try(f).0 == f.begin
    ensures f.get.Success? && f.begin.Success? ==>
      var inline := InlineIn(Try(f).1);
      && (inline && f.op.Failure? ==> Try(f).0 == f.op)
      && (inline && f.op.Success? ==> Try(f).0 == Failure(Mode(-1, NonRetryable, NoBackoff, false)))
      && (!inline && f.op.Failure? ==> Try(f).0 == if f.rollbackFails then Failure(f.joined) else f.op)
      && (!inline && f.op.Success? && f.commit.Failure? ==>
            Try(f).0 == if f.rollbackFails then Failure(f.joined) else f.commit)
      && (!inline && f.op.Success? && f.commit.Success? ==> Try(f).0 == Success)
  {
    AfterOpIs(f);
    if f.get.Success? && f.begin.Success? { InlineIs(f); }
  }

  lemma InlineIs(f: Faults)
    requires f.get.Success? && f.begin.Success?
    ensures InlineIn(Try(f).1) <==> AfterOp(f).state == Committed
  {
    AfterOpIs(f);
  }

  /** A rollback that failed can be repeated, one that succeeded cannot, and a committed
      transaction needs none. */
  lemma RollbackAgain(tx: Tx, fails: bool)
    ensures tx.state == Initialized ==> Rollback(Rollback(tx, true).0, fails).1 == !fails
    ensures tx.state == Initialized ==> !Rollback(Rollback(tx, false).0, fails).1
    ensures tx.state == Committed ==> Rollback(tx, fails).1 && Rollback(tx, fails).0.state == Committed
  {}

  /** Call `j` commits: it succeeds, and it or a call before it, successful or not, asked for a
      commit. */
  ghost predicate CommitsAt(calls: seq<Call>, flag: bool, j: nat) {
    j < |calls| && !calls[j].fails && (flag || exists i :: 0 <= i <= j && calls[i].commit)
  }

  lemma {:induction false} CommitsIff(tx: Tx, calls: seq<Call>)
    requires tx.state == Initialized
    ensures ExecuteAll(tx, calls).state == Committed <==> exists j :: CommitsAt(calls, tx.commit, j)
    decreases |calls|
  {
    if calls != [] {
      var t, rest := ExecuteOne(tx, calls[0]), calls[1..];
      if t.state == Committed {
        StaysCommitted(t, rest);
        assert CommitsAt(calls, tx.commit, 0);
      } else {
        CommitsIff(t, rest);
        assert !CommitsAt(calls, tx.commit, 0);
        forall j: nat | j > 0 ensures CommitsAt(calls, tx.commit, j) <==> CommitsAt(rest, t.commit, j - 1) {
          CommitsNext(calls, tx.commit, j);
        }
        if j: nat :| CommitsAt(rest, t.commit, j) { assert CommitsAt(calls, tx.commit, j + 1); }
      }
    }
  }

  lemma CommitsNext(calls: seq<Call>, flag: bool, j: nat)
    requires 0 < j && calls != []
    ensures CommitsAt(calls, flag, j) <==> CommitsAt(calls[1..], flag || calls[0].commit, j - 1)
  {
    var rest := calls[1..];
    if i :| 0 <= i <= j && j < |calls| && calls[i].commit && i > 0 { assert rest[i - 1].commit; }
    if i :| 0 <= i <= j - 1 && j - 1 < |rest| && rest[i].commit { assert calls[i + 1].commit; }
  }

  lemma {:induction false} StaysCommitted(tx: Tx, calls: seq<Call>)
    requires tx.state == Committed
    ensures ExecuteAll(tx, calls) == tx
    decreases |calls|
  {
    if calls != [] { StaysCommitted(tx, calls[1..]); }
  }

  /** An operation commits inline exactly when one of its calls succeeds after a commit was asked
      for, by it or before it: the request stays set even if the call that made it fails. */
  lemma InlineIff(f: Faults)
    requires f.get.Success? && f.begin.Success?
    ensures InlineIn(Try(f).1) <==> exists j :: CommitsAt(f.calls, false, j)
  {
    InlineIs(f);
    CommitsIff(Tx(Initialized, false, [Got, Began]), f.calls);
  }

  // ---- runs ----

  datatype TxAttempt = TxAttempt(doneBefore: bool, faults: Faults, doneAfter: bool, draw: nat, waitEnds: bool)

  function Plain(a: TxAttempt): Attempt { Attempt(a.doneBefore, Try(a.faults).0, a.doneAfter, a.draw, a.waitEnds) }

  function Script(s: seq<TxAttempt>): (r: seq<Attempt>)
    ensures |r| == |s| && forall k :: 0 <= k < |s| ==> r[k] == Plain(s[k])
  {
    if s == [] then [] else [Plain(s[0])] + Script(s[1..])
  }

  function EventsOf(a: TxAttempt): seq<Event> { if a.doneBefore then [] else Try(a.faults).1 }

  /** DoTx returns nil exactly when the CommitTx of its last attempt did. */
  lemma NilIffCommitted(o: Options, s: seq<TxAttempt>)
    ensures var (outcome, n) := Run(o, Script(s), 0);
      n <= |s| && (outcome == Done <==> n > 0 && CommittedIn(EventsOf(s[n - 1])))
  {
    var script := Script(s);
    DoneIff(o, script);
    var n := Run(o, script, 0).1;
    if n > 0 { LastCommits(s, script, n - 1); }
  }

  lemma LastCommits(s: seq<TxAttempt>, script: seq<Attempt>, k: nat)
    requires k < |s| && script == Script(s)
    ensures !script[k].doneBefore && script[k].result.Success? <==> CommittedIn(EventsOf(s[k]))
  {
    TrySucceedsIff(s[k].faults);
  }

  /** No attempt follows one whose CommitTx succeeded; without commit options in the
      operation's own calls, none follows a commit at all. */
  lemma NothingAfterCommit(o: Options, s: seq<TxAttempt>, k: nat)
    requires k + 1 < Run(o, Script(s), 0).1
    ensures k < |s| && !CommittedIn(EventsOf(s[k]))
    ensures NoCommitOption(s[k].faults) ==> !InlineIn(EventsOf(s[k]))
  {
    DoneIff(o, Script(s));
    LastCommits(s, Script(s), k);
    if NoCommitOption(s[k].faults) { NotInline(s[k].faults); }
  }

  ghost predicate NoCommitOption(f: Faults) { forall i :: 0 <= i < |f.calls| ==> !f.calls[i].commit }

  lemma NotInline(f: Faults)
    requires NoCommitOption(f)
    ensures !InlineIn(Try(f).1)
  {
    AfterOpIs(f);
    NoInlineCommit(Tx(Initialized, false, [Got, Began]), f.calls);
  }

  /** An attempt that an Execute committed is retried exactly when the operation then returns
      a retryable error, the context lasts and the delay does not panic. */
  lemma {:induction false} RetriedAfterInlineIff(o: Options, s: seq<TxAttempt>, k: nat)
    requires k < |s| && InlineIn(EventsOf(s[k]))
    ensures Script(s)[k].result.Failure?
    ensures Ends(o, Script(s), k) == Running <==>
      && s[k].faults.op.Failure? && MustRetry(s[k].faults.op.mode, o.idempotent) && !s[k].doneAfter && !s[k].waitEnds
      && !Panics(PauseAt(o, Script(s), k))
  {
    InlineFails(s[k].faults);
    GoesOnIff(o, Script(s), k);
  }

  const BAD_SESSION: Mode := Mode(400100, Retryable, NoBackoff, true)

  /** An operation that commits inline and then fails retryably runs again. */
  lemma InlineCommitRepeats(o: Options)
    ensures exists s: seq<TxAttempt> :: |s| == 2 && InlineIn(EventsOf(s[0])) && Run(o, Script(s), 0) == (Done, 2)
  {
    var f := Faults(Success, Success, [Call(true, false)], Failure(BAD_SESSION), Success, false, BAD_SESSION);
    var g := Faults(Success, Success, [], Success, Success, false, BAD_SESSION);
    var a, b := TxAttempt(false, f, false, 0, false), TxAttempt(false, g, false, 0, false);
    var t := ExecuteOne(Tx(Initialized, false, [Got, Began]), Call(true, false));
    assert ExecuteAll(Tx(Initialized, false, [Got, Began]), f.calls) == ExecuteAll(t, []) == t;
    assert t.events[2] == Executed(true, true);
    assert InlineIn(EventsOf(a));
    var s := [a, b];
    InlineFails(f);
    RetriedAfterInlineIff(o, s, 0);
    assert Try(g).0.Success?;
    assert Run(o, Script(s), 1) == (Done, 2);
    assert Run(o, Script(s), 0) == (Done, 2);
  }
}
