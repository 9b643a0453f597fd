/** Every step of the protocol keeps the invariant. */
module PoolSteps {
  import opened SessionPool
  import opened PoolProtocol
  import opened PoolInvariant
  import opened PoolFrames
  import opened PoolLists

  // ---- moves that concern nobody else ----

  lemma StartMove(st: State, st': State, p: ProcId)
    requires StartGet(st, st', p) || LoopHead(st, st', p) || EnterCreate(st, st', p)
    requires PcOk(st, p, st.procs[p])
    ensures Quiet(st, st', p) && SameLimit(st, st', p)
  {}

  lemma CheckMove(st: State, st': State, p: ProcId, b: bool)
    requires CheckNode(st, st', p, b) && PcOk(st, p, st.procs[p])
    ensures Quiet(st, st', p) && SameLimit(st, st', p)
  {}

  lemma GetMoves(st: State, st': State, p: ProcId, b: bool)
    requires p in st.procs && PcOk(st, p, st.procs[p])
    requires || StartGet(st, st', p) || LoopHead(st, st', p) || CheckNode(st, st', p, b) || EnterCreate(st, st', p)
    ensures Quiet(st, st', p) && SameLimit(st, st', p)
  {
    if CheckNode(st, st', p, b) { CheckMove(st, st', p, b); } else { StartMove(st, st', p); }
  }

  lemma RefusedMove(st: State, st': State, p: ProcId, b: bool)
    requires SpawnRefused(st, st', p, b) && PcOk(st, p, st.procs[p])
    ensures Quiet(st, st', p) && SameLimit(st, st', p)
  {}

  lemma EndMove(st: State, st': State, p: ProcId)
    requires EndOperation(st, st', p) && PcOk(st, p, st.procs[p])
    ensures Quiet(st, st', p) && SameLimit(st, st', p)
  {}

  lemma PutDoneMove(st: State, st': State, p: ProcId)
    requires PutCheckDone(st, st', p) && PcOk(st, p, st.procs[p])
    ensures Quiet(st, st', p) && SameLimit(st, st', p)
  {}

  lemma PutMoves(st: State, st': State, p: ProcId, b: bool)
    requires p in st.procs && PcOk(st, p, st.procs[p])
    requires SpawnRefused(st, st', p, b) || EndOperation(st, st', p) || PutCheckDone(st, st', p)
    ensures Quiet(st, st', p) && SameLimit(st, st', p)
  {
    if SpawnRefused(st, st', p, b) { RefusedMove(st, st', p, b); }
    else if EndOperation(st, st', p) { EndMove(st, st', p); }
    else { PutDoneMove(st, st', p); }
  }

  /** A held session that is not marked is not being closed by anybody else. */
  lemma ReadyIsSafe(st: State, p: ProcId, s: SessionId)
    requires ProcsOk(st) && SessOk(st)
    requires p in st.procs && Held(st.procs[p]) == Some(s) && !st.procs[p].Close?
    requires s in st.sess && st.sess[s].hooked && st.sess[s].status == Ready
    ensures Safe(st, s)
  {
    assert SessionOk(st, s, st.sess[s]);
    forall q | q in st.procs ensures !Collects(st.procs[q], s) {
      assert PcOk(st, q, st.procs[q]);
    }
    if st.sess[s].once.Running? || st.sess[s].once.HooksRan? {
      assert SameHeld(st.procs[st.sess[s].once.proc], st.procs[p]);
    }
  }

  lemma PutClosingMove(st: State, st': State, p: ProcId)
    requires PutCheckClosing(st, st', p) && PcOk(st, p, st.procs[p])
    requires SessionOk(st, st.procs[p].s, st.sess[st.procs[p].s])
    requires st.sess[st.procs[p].s].status == Ready ==> Safe(st, st.procs[p].s)
    ensures Quiet(st, st', p) && SameLimit(st, st', p)
  {
    if st.sess[st.procs[p].s].status == Ready { SafeFrame(st, st', p, st.procs[p].s); }
  }

  lemma PutClosedMove(st: State, st': State, p: ProcId, b: bool)
    requires PutCheckClosed(st, st', p, b) && PcOk(st, p, st.procs[p])
    ensures Quiet(st, st', p) && SameLimit(st, st', p)
  {
    if Safe(st, st.procs[p].s) { SafeFrame(st, st', p, st.procs[p].s); }
  }

  lemma PutClosingNeutral(st: State, st': State, p: ProcId)
    requires ProcsOk(st) && SessOk(st) && PutCheckClosing(st, st', p)
    ensures Quiet(st, st', p) && SameLimit(st, st', p)
  {
    if st.sess[st.procs[p].s].status == Ready { ReadyIsSafe(st, p, st.procs[p].s); }
    PutClosingMove(st, st', p);
  }

  // ---- taking the first idle session ----

  /** Goroutine `p` takes the idle session `s`. */
  predicate Takes(st: State, st': State, p: ProcId, s: SessionId) {
    && Moves(st, st', p) && Held(Was(st, p)).None? && st'.procs[p].GotIdle? && st'.procs[p].s == s
    && !IsCollector(Was(st, p))
    && s in st.pool.index && st.pool.index[s].idle.Some?
    && st'.pool.index == st.pool.index[s := st.pool.index[s].(idle := None)]
    && st'.sess == st.sess && st'.pool.done == st.pool.done
  }

  /** An idle session is hooked, and nobody holds it. */
  lemma IdleIsFree(st: State, s: SessionId)
    requires ProcsOk(st) && SessOk(st)
    requires s in st.pool.index && st.pool.index[s].idle.Some?
    ensures s in st.sess && st.sess[s].hooked
    ensures Free(st, s)
  {
    assert SessionOk(st, s, st.sess[s]);
  }

  lemma TakesProcs(st: State, st': State, p: ProcId, s: SessionId)
    requires ProcsOk(st) && SessOk(st) && Takes(st, st', p, s)
    ensures ProcsOk(st')
  {
    IdleIsFree(st, s);
    forall q | q in st'.procs && q != p ensures PcOk(st', q, st'.procs[q]) {
      PcFrame(st, st', p, q, st.procs[q]);
    }
  }

  lemma TakesDrain(st: State, st': State, p: ProcId, s: SessionId)
    requires DrainOk(st) && Takes(st, st', p, s)
    requires forall j :: 0 <= j < |st'.pool.idle| ==> st'.pool.idle[j] in st.pool.idle
    ensures DrainOk(st')
  {
    forall x | x in st'.pool.index && st'.pool.index[x].idle == None ensures IsHeld(st'.procs, x) {
      if x == s {
        assert Held(st'.procs[p]) == Some(s);
      } else {
        var q :| q in st.procs && Held(st.procs[q]) == Some(x);
        assert Held(st'.procs[q]) == Some(x);
      }
    }
    forall x | IsCollected(st.procs, x) ensures IsCollected(st'.procs, x) {
      var q :| q in st.procs && Collects(st.procs[q], x);
      assert Collects(st'.procs[q], x);
    }
  }

  lemma PopTakes(st: State, st': State, p: ProcId, s: SessionId)
    requires IdleOk(st.pool) && PopIdle(st, st', p) && PopFirstIdle(st.pool).1 == Some(s)
    ensures Takes(st, st', p, s) && SameLimit(st, st', p) && SameChans(st, st', p)
    ensures SameCalls(st, st', p) && SameSess(st, st', p)
    ensures IdleOk(st'.pool) && !st'.pool.fault == !st.pool.fault
    ensures forall j :: 0 <= j < |st'.pool.idle| ==> st'.pool.idle[j] in st.pool.idle
  {
    PopKeepsIdle(st.pool);
    assert st'.pool.index.Keys == st.pool.index.Keys;
    assert |st'.pool.index.Keys| == |st.pool.index.Keys|;
  }

  lemma PopNothing(st: State, st': State, p: ProcId)
    requires PopIdle(st, st', p) && st.pool.idle == []
    ensures Quiet(st, st', p) && SameLimit(st, st', p)
  {}

  lemma KeepsPopIdle(st: State, st': State, p: ProcId)
    requires Inv(st) && PopIdle(st, st', p)
    ensures Inv(st')
  {
    if st.pool.idle == [] {
      PopNothing(st, st', p);
      NeutralMove(st, st', p);
    } else {
      PopKeepsIdle(st.pool);
      var s := PopFirstIdle(st.pool).1.value;
      PopTakes(st, st', p, s);
      TakesProcs(st, st', p, s);
      TakesDrain(st, st', p, s);
      LimitFrame(st, st', p);
      ChansFrame(st, st', p);
      CallsFrame(st, st', p);
      SessFrame(st, st', p);
    }
  }
}
