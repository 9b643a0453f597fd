/** The collector's tick and `Client.Close` keep the invariant. */
module PoolShutdown {
  import opened SessionPool
  import opened PoolProtocol
  import opened PoolInvariant
  import opened PoolLists
  import opened PoolFrames
  import opened PoolSteps

  // ---- starting closers ----

  ghost predicate IsIdle(pool: Pool, s: SessionId) { s in pool.index && pool.index[s].idle.Some? }

  lemma StartPc(st: State, s: SessionId, q: ProcId)
    requires q in st.procs && q != st.nextProc && PcOk(st, q, st.procs[q])
    requires Held(st.procs[q]) != Some(s)
    ensures PcOk(StartCloser(st, s), q, st.procs[q])
  {
    var pc := st.procs[q];
    var st' := StartCloser(st, s);
    if (pc.PutPool? || pc.PutClosed?) && Safe(st, pc.s) {
      forall r | r in st'.procs ensures !Collects(st'.procs[r], pc.s) {
        if r in st.procs && r != st.nextProc { assert !Collects(st.procs[r], pc.s); }
      }
    }
  }

  lemma StartProcs(st: State, s: SessionId)
    requires ProcsOk(st) && SessOk(st) && IsIdle(st.pool, s)
    ensures ProcsOk(StartCloser(st, s)) && st.nextProc !in st.procs
  {
    var st' := StartCloser(st, s);
    IdleIsFree(st, s);
    forall q | q in st.procs ensures PcOk(st', q, st.procs[q]) { StartPc(st, s, q); }
    ProcsMove(st, st', st.nextProc);
  }

  lemma StartSess(st: State, s: SessionId)
    requires SessOk(st) && st.nextProc !in st.procs
    ensures SessOk(StartCloser(st, s))
  {
    var st' := StartCloser(st, s);
    forall x | x in st'.sess ensures SessionOk(st', x, st'.sess[x]) {
      assert SessionOk(st, x, st.sess[x]);
      if q :| q in st.procs && AddsHook(st.procs[q], x) { assert AddsHook(st'.procs[q], x); }
    }
  }

  lemma StartRest(st: State, s: SessionId)
    requires st.nextProc !in st.procs
    ensures var st', n := StartCloser(st, s), st.nextProc;
      && SameLimit(st, st', n) && SameChans(st, st', n) && SameCalls(st, st', n) && SameDrain(st, st', n)
      && st'.pool == st.pool
  {}

  lemma StartKeeps(st: State, s: SessionId)
    requires Inv(st) && IsIdle(st.pool, s)
    ensures Inv(StartCloser(st, s)) && StartCloser(st, s).pool == st.pool
  {
    var st', n := StartCloser(st, s), st.nextProc;
    StartProcs(st, s);
    StartSess(st, s);
    StartRest(st, s);
    LimitFrame(st, st', n);
    ChansFrame(st, st', n);
    CallsFrame(st, st', n);
    DrainFrame(st, st', n);
  }

  lemma {:induction false} StartAllKeeps(st: State, ss: seq<SessionId>)
    requires Inv(st) && forall k :: 0 <= k < |ss| ==> IsIdle(st.pool, ss[k])
    ensures Inv(StartClosers(st, ss)) && StartClosers(st, ss).pool == st.pool && StartClosers(st, ss).cfg == st.cfg
    decreases |ss|
  {
    if ss != [] {
      StartKeeps(st, ss[0]);
      StartAllKeeps(StartCloser(st, ss[0]), ss[1..]);
    }
  }

  /** Started goroutines stay where they are while others are started. */
  lemma {:induction false} StartersStay(st: State, ss: seq<SessionId>, p: ProcId)
    requires p in st.procs && p < st.nextProc
    ensures p in StartClosers(st, ss).procs && StartClosers(st, ss).procs[p] == st.procs[p]
    decreases |ss|
  {
    if ss != [] { StartersStay(StartCloser(st, ss[0]), ss[1..], p); }
  }

  lemma {:induction false} AllCollected(st: State, ss: seq<SessionId>, k: nat)
    requires k < |ss|
    ensures IsCollected(StartClosers(st, ss).procs, ss[k])
    decreases |ss|
  {
    var next := StartCloser(st, ss[0]);
    if k == 0 {
      StartersStay(next, ss[1..], st.nextProc);
      assert Collects(StartClosers(st, ss).procs[st.nextProc], ss[0]);
    } else {
      AllCollected(next, ss[1..], k - 1);
    }
  }

  lemma KeepsCollectorTick(st: State, st': State, now: int, threshold: int)
    requires Inv(st) && CollectorTick(st, st', now, threshold)
    ensures Inv(st')
  {
    ExpiredIs(st.pool.index, st.pool.idle, now, threshold);
    StartAllKeeps(st, Expired(st.pool.index, st.pool.idle, now, threshold).0);
  }

  // ---- closing the client ----

  /** The client is closed: queued channels are closed, the limit is zero. */
  predicate Shuts(st: State, st': State) {
    && !st.pool.done && st' == st.(pool := Shutdown(st.pool))
  }

  lemma ShutChans(st: State, st': State)
    requires ChansOk(st) && Shuts(st, st')
    ensures ChansOk(st') && st'.pool.fault == st.pool.fault
  {
    CloseAllIs(st.pool.chans, st.pool.waitQ);
    forall q | q in st.procs ensures UserOk(st', q, st.procs[q]) { assert UserOk(st, q, st.procs[q]); }
    forall ch | ch in st'.pool.chans && st'.pool.chans[ch].receiver.Some?
      ensures ParkedOn(st'.procs, st'.pool.chans[ch].receiver.value, ch) {
      assert ParkedOn(st.procs, st.pool.chans[ch].receiver.value, ch);
    }
  }

  lemma ShutRest(st: State, st': State)
    requires ProcsOk(st) && SessOk(st) && LimitOk(st) && CallsOk(st) && Shuts(st, st')
    ensures ProcsOk(st') && SessOk(st') && LimitOk(st') && CallsOk(st')
  {
    forall q | q in st.procs ensures PcOk(st', q, st.procs[q]) {
      assert PcOk(st, q, st.procs[q]);
      var pc := st.procs[q];
      if (pc.PutPool? || pc.PutClosed?) && Safe(st, pc.s) { assert Safe(st', pc.s); }
    }
    forall s | s in st.sess ensures SessionOk(st', s, st.sess[s]) { assert SessionOk(st, s, st.sess[s]); }
  }

  lemma ShutKeeps(st: State, st': State)
    requires Inv(st) && Shuts(st, st')
    requires forall j :: 0 <= j < |st.pool.idle| ==> IsCollected(st.procs, st.pool.idle[j].value)
    ensures Inv(st')
  {
    ShutChans(st, st');
    ShutRest(st, st');
  }

  lemma IdleCollected(st: State, ss: seq<SessionId>)
    requires ss == Sessions(st.pool.idle) && forall p :: p in st.procs ==> p < st.nextProc
    ensures forall j :: 0 <= j < |st.pool.idle| ==> IsCollected(StartClosers(st, ss).procs, st.pool.idle[j].value)
  {
    forall j | 0 <= j < |st.pool.idle| ensures IsCollected(StartClosers(st, ss).procs, st.pool.idle[j].value) {
      AllCollected(st, ss, j);
    }
  }

  lemma ShutStarts(st: State, st': State) returns (mid: State)
    requires Inv(st) && CloseClient(st, st') && !st.pool.done
    ensures Inv(mid) && Shuts(mid, st')
    ensures forall j :: 0 <= j < |mid.pool.idle| ==> IsCollected(mid.procs, mid.pool.idle[j].value)
  {
    var ss := Sessions(st.pool.idle);
    mid := StartClosers(st, ss);
    StartAllKeeps(st, ss);
    IdleCollected(st, ss);
  }

  lemma KeepsCloseClient(st: State, st': State)
    requires Inv(st) && CloseClient(st, st')
    ensures Inv(st')
  {
    if !st.pool.done {
      var mid := ShutStarts(st, st');
      ShutKeeps(mid, st');
    }
  }
}
