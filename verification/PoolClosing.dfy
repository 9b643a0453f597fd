/** The steps of `session.Close` up to its hooks keep the invariant. */
module PoolClosing {
  import opened SessionPool
  import opened PoolProtocol
  import opened PoolInvariant
  import opened PoolFrames

  // ---- passing a finished Close ----

  lemma CheckMoves(st: State, st': State, p: ProcId)
    requires CloseCheck(st, st', p) && PcOk(st, p, st.procs[p])
    requires SessionOk(st, st.procs[p].s, st.sess[st.procs[p].s])
    ensures Quiet(st, st', p) && SameLimit(st, st', p)
  {}

  lemma KeepsCloseCheck(st: State, st': State, p: ProcId)
    requires Inv(st) && CloseCheck(st, st', p)
    ensures Inv(st')
  {
    assert PcOk(st, p, st.procs[p]);
    CheckMoves(st, st', p);
    NeutralMove(st, st', p);
  }

  lemma PassMoves(st: State, st': State, p: ProcId)
    requires CloseEnter(st, st', p) && PcOk(st, p, st.procs[p])
    requires SessionOk(st, st.procs[p].s, st.sess[st.procs[p].s])
    requires st.sess[st.procs[p].s].once.Finished?
    ensures Quiet(st, st', p) && SameLimit(st, st', p)
  {}

  // ---- entering and leaving closeOnce ----

  /** Goroutine `p` takes session `s` one stage further. */
  predicate Advances(st: State, st': State, p: ProcId, s: SessionId) {
    && Moves(st, st', p) && p in st.procs && st.procs[p].Close? && st.procs[p].s == s && s in st.sess && s in st'.sess
    && st'.sess == st.sess[s := st'.sess[s]]
    && var x, x', pc, pc' := st.sess[s], st'.sess[s], st.procs[p], st'.procs[p];
    && x'.hooked == x.hooked && x'.deliveries == x.deliveries && x'.discards == x.discards
    && ( || (pc.stage == EnterOnce && x.once == NotStarted && pc' == pc.(stage := RunHooks)
             && x' == x.(once := Running(p)))
         || (pc.stage == RunHooks && pc' == pc.(stage := LeaveOnce)
             && x' == x.(once := HooksRan(p), removals := x.removals + if x.hooked then 1 else 0))
         || (pc.stage == LeaveOnce && pc' == AfterClose(pc.who) && x' == x.(once := Finished, status := Closed)))
    && st'.nextSession == st.nextSession && st'.nextCall == st.nextCall && st'.cancelled == st.cancelled
    && st'.cfg == st.cfg
  }

  /** What leaves the index is what had its hook run. */
  predicate Leaves(st: State, st': State, p: ProcId, s: SessionId) {
    && p in st.procs && st.procs[p].Close? && s in st.sess
    && st'.pool.index == (if st.procs[p].stage == RunHooks && st.sess[s].hooked then st.pool.index - {s} else st.pool.index)
  }

  lemma AdvancePc(st: State, st': State, p: ProcId, s: SessionId, q: ProcId)
    requires Advances(st, st', p, s) && Leaves(st, st', p, s) && PcOk(st, p, st.procs[p])
    requires q in st.procs && q != p && PcOk(st, q, st.procs[q]) && !SameHeld(st.procs[q], st.procs[p])
    ensures PcOk(st', q, st.procs[q])
  {
    var pc := st.procs[q];
    if (pc.PutPool? || pc.PutClosed?) && Safe(st, pc.s) {
      assert !Collects(st.procs[p], pc.s);
      if pc.s != s { SafeFrame(st, st', p, pc.s); }
    }
  }

  lemma AdvanceProcs(st: State, st': State, p: ProcId, s: SessionId)
    requires ProcsOk(st) && Advances(st, st', p, s) && Leaves(st, st', p, s)
    ensures ProcsOk(st')
  {
    assert PcOk(st, p, st.procs[p]);
    forall q | q in st.procs && q != p ensures PcOk(st', q, st.procs[q]) {
      assert !SameHeld(st.procs[q], st.procs[p]);
      AdvancePc(st, st', p, s, q);
    }
    AdvanceSelf(st, st', p, s);
    ProcsMove(st, st', p);
  }

  lemma AdvanceSelf(st: State, st': State, p: ProcId, s: SessionId)
    requires Advances(st, st', p, s) && Leaves(st, st', p, s) && PcOk(st, p, st.procs[p])
    ensures PcOk(st', p, st'.procs[p])
    ensures Held(st'.procs[p]) == Held(st.procs[p]) || Held(st'.procs[p]).None?
  {}

  lemma AdvanceSess(st: State, st': State, p: ProcId, s: SessionId)
    requires SessOk(st) && Advances(st, st', p, s) && Leaves(st, st', p, s) && PcOk(st, p, st.procs[p])
    ensures SessOk(st')
  {
    forall x | x in st'.sess ensures SessionOk(st', x, st'.sess[x]) {
      assert SessionOk(st, x, st.sess[x]);
      if q :| q in st.procs && AddsHook(st.procs[q], x) { assert AddsHook(st'.procs[q], x); }
    }
  }

  lemma AdvanceCalls(st: State, st': State, p: ProcId, s: SessionId)
    requires Advances(st, st', p, s) && (st.pool.done ==> st'.pool.done)
    ensures SameCalls(st, st', p)
  {}

  lemma StageMoves(st: State, st': State, p: ProcId)
    requires CloseEnter(st, st', p) || CloseLeave(st, st', p)
    requires PcOk(st, p, st.procs[p]) && SessionOk(st, st.procs[p].s, st.sess[st.procs[p].s])
    requires !st.sess[st.procs[p].s].once.Finished?
    ensures Advances(st, st', p, st.procs[p].s) && Leaves(st, st', p, st.procs[p].s)
    ensures SameLimit(st, st', p) && SameChans(st, st', p) && SameDrain(st, st', p) && st'.pool == st.pool
  {}

  lemma StageKeeps(st: State, st': State, p: ProcId, s: SessionId)
    requires Inv(st) && Advances(st, st', p, s) && Leaves(st, st', p, s)
    requires SameLimit(st, st', p) && SameChans(st, st', p) && SameDrain(st, st', p) && st'.pool == st.pool
    ensures Inv(st')
  {
    AdvanceProcs(st, st', p, s);
    AdvanceSess(st, st', p, s);
    AdvanceCalls(st, st', p, s);
    LimitFrame(st, st', p);
    ChansFrame(st, st', p);
    DrainFrame(st, st', p);
    CallsFrame(st, st', p);
  }

  /** The facts about goroutine `p` and the session it closes. */
  lemma CloserFacts(st: State, p: ProcId)
    requires ProcsOk(st) && SessOk(st) && p in st.procs && st.procs[p].Close?
    ensures PcOk(st, p, st.procs[p]) && SessionOk(st, st.procs[p].s, st.sess[st.procs[p].s])
  {}

  lemma KeepsCloseEnter(st: State, st': State, p: ProcId)
    requires Inv(st) && CloseEnter(st, st', p)
    ensures Inv(st')
  {
    CloserFacts(st, p);
    if st.sess[st.procs[p].s].once.Finished? {
      PassMoves(st, st', p);
      NeutralMove(st, st', p);
    } else {
      StageMoves(st, st', p);
      StageKeeps(st, st', p, st.procs[p].s);
    }
  }

  lemma KeepsCloseLeave(st: State, st': State, p: ProcId)
    requires Inv(st) && CloseLeave(st, st', p)
    ensures Inv(st')
  {
    CloserFacts(st, p);
    StageMoves(st, st', p);
    StageKeeps(st, st', p, st.procs[p].s);
  }

  // ---- a close hint ----

  lemma HintPc(st: State, st': State, p: ProcId, q: ProcId)
    requires Hint(st, st', p) && PcOk(st, p, st.procs[p])
    requires q in st.procs && PcOk(st, q, st.procs[q]) && (q == p || !SameHeld(st.procs[q], st.procs[p]))
    ensures PcOk(st', q, st.procs[q])
  {
    var pc := st.procs[q];
    if (pc.PutPool? || pc.PutClosed?) && Safe(st, pc.s) { SafeFrame(st, st', p, pc.s); }
  }

  lemma HintProcs(st: State, st': State, p: ProcId)
    requires ProcsOk(st) && Hint(st, st', p)
    ensures ProcsOk(st')
  {
    assert PcOk(st, p, st.procs[p]);
    forall q | q in st.procs ensures PcOk(st', q, st.procs[q]) {
      assert q == p || !SameHeld(st.procs[q], st.procs[p]);
      HintPc(st, st', p, q);
    }
    ProcsMove(st, st', p);
  }

  lemma HintSess(st: State, st': State, p: ProcId)
    requires SessOk(st) && Hint(st, st', p)
    ensures SessOk(st')
  {
    forall x | x in st'.sess ensures SessionOk(st', x, st'.sess[x]) {
      assert SessionOk(st, x, st.sess[x]);
    }
  }

  lemma HintRest(st: State, st': State, p: ProcId)
    requires Hint(st, st', p)
    ensures SameLimit(st, st', p) && SameChans(st, st', p) && SameDrain(st, st', p) && SameCalls(st, st', p)
    ensures st'.pool == st.pool
  {}

  lemma KeepsHint(st: State, st': State, p: ProcId)
    requires Inv(st) && Hint(st, st', p)
    ensures Inv(st')
  {
    HintProcs(st, st', p);
    HintSess(st, st', p);
    HintRest(st, st', p);
    LimitFrame(st, st', p);
    ChansFrame(st, st', p);
    DrainFrame(st, st', p);
    CallsFrame(st, st', p);
  }
}
