/** What holds over whole runs of the pool, in every interleaving. */
module PoolSafety {
  import opened SessionPool
  import opened PoolProtocol
  import opened PoolInvariant
  import opened PoolFrames
  import opened PoolSteps
  import opened PoolCreate
  import opened PoolWait
  import opened PoolClosing
  import opened PoolServe
  import opened PoolShutdown

  lemma InitKeeps(st: State)
    requires Init(st)
    ensures Inv(st)
  {
    assert Counted(st.procs) == {} && CountedTwice(st.procs) == {};
  }

  /** A goroutine's position fits its session. */
  lemma PcFacts(st: State, p: ProcId)
    requires ProcsOk(st) && p in st.procs
    ensures PcOk(st, p, st.procs[p])
  {}

  lemma GetKeeps(st: State, st': State, p: ProcId, b: bool)
    requires Inv(st) && GetStep(st, st', p, b)
    ensures Inv(st')
  {
    if PopIdle(st, st', p) { KeepsPopIdle(st, st', p); }
    else if CheckSize(st, st', p) { KeepsCheckSize(st, st', p); }
    else {
      PcFacts(st, p);
      GetMoves(st, st', p, b);
      NeutralMove(st, st', p);
    }
  }

  lemma CreateKeeps(st: State, st': State, p: ProcId, c: ProcId, b: bool, now: int)
    requires Inv(st) && CreateStep(st, st', p, c, b, now)
    ensures Inv(st')
  {
    if SpawnRefused(st, st', p, b) {
      PcFacts(st, p);
      PutMoves(st, st', p, b);
      NeutralMove(st, st', p);
    }
    else if SpawnCreator(st, st', p) { KeepsSpawnCreator(st, st', p); }
    else if BuildFails(st, st', p) { KeepsBuildFails(st, st', p); }
    else if BuildDone(st, st', p) { KeepsBuildDone(st, st', p); }
    else if Deliver(st, st', p, c, b) { KeepsDeliver(st, st', p, c, b); }
    else if Abandon(st, st', p, b) { KeepsAbandon(st, st', p, b); }
    else if Discard(st, st', p) { KeepsDiscard(st, st', p); }
    else if RunOnCreate(st, st', p, now) { KeepsRunOnCreate(st, st', p, now); }
    else if AppendHook(st, st', p) { KeepsAppendHook(st, st', p); }
    else { KeepsFinishCreate(st, st', p); }
  }

  lemma WaitKeeps(st: State, st': State, p: ProcId, ch: ChanId, b: bool)
    requires Inv(st) && WaitStep(st, st', p, ch, b)
    ensures Inv(st')
  {
    if JoinQueue(st, st', p, ch) { KeepsJoinQueue(st, st', p, ch); }
    else if Park(st, st', p) { KeepsPark(st, st', p); }
    else if LeaveQueue(st, st', p) { KeepsLeaveQueue(st, st', p); }
    else if PutBackChan(st, st', p) { KeepsPutBackChan(st, st', p); }
    else { KeepsSelect(st, st', p, b); }
  }

  lemma PutKeeps(st: State, st': State, p: ProcId, b: bool, now: int)
    requires Inv(st) && PutStep(st, st', p, b, now)
    ensures Inv(st')
  {
    if PutStore(st, st', p, now) { KeepsPutStore(st, st', p, now); }
    else {
      PcFacts(st, p);
      if PutCheckClosing(st, st', p) { PutClosingNeutral(st, st', p); }
      else if PutCheckClosed(st, st', p, b) { PutClosedMove(st, st', p, b); }
      else { PutMoves(st, st', p, b); }
      NeutralMove(st, st', p);
    }
  }

  lemma CloseKeeps(st: State, st': State, p: ProcId)
    requires Inv(st) && CloseStep(st, st', p)
    ensures Inv(st')
  {
    if CloseCheck(st, st', p) { KeepsCloseCheck(st, st', p); }
    else if CloseEnter(st, st', p) { KeepsCloseEnter(st, st', p); }
    else if CloseHooks(st, st', p) { KeepsCloseHooks(st, st', p); }
    else if CloseLeave(st, st', p) { KeepsCloseLeave(st, st', p); }
    else { KeepsHint(st, st', p); }
  }

  lemma KeepsCancel(st: State, st': State, call: nat)
    requires Inv(st) && Cancel(st, st', call)
    ensures Inv(st')
  {
    CancelCalls(st, st', call);
    CancelRest(st, st', call);
  }

  lemma CancelRest(st: State, st': State, call: nat)
    requires PoolOk(st) && Cancel(st, st', call)
    ensures PoolOk(st')
  {
    forall q | q in st.procs ensures PcOk(st', q, st.procs[q]) && UserOk(st', q, st.procs[q]) {
      assert PcOk(st, q, st.procs[q]) && UserOk(st, q, st.procs[q]);
      var pc := st.procs[q];
      if (pc.PutPool? || pc.PutClosed?) && Safe(st, pc.s) { assert Safe(st', pc.s); }
    }
    forall s | s in st.sess ensures SessionOk(st', s, st.sess[s]) { assert SessionOk(st, s, st.sess[s]); }
  }

  lemma SystemKeeps(st: State, st': State, n: nat, now: int, threshold: int)
    requires Inv(st) && SystemStep(st, st', n, now, threshold)
    ensures Inv(st')
  {
    if Cancel(st, st', n) { KeepsCancel(st, st', n); }
    else if CollectorTick(st, st', now, threshold) { KeepsCollectorTick(st, st', now, threshold); }
    else { KeepsCloseClient(st, st'); }
  }

  /** Every step of every goroutine keeps the invariant. */
  lemma StepKeeps(st: State, st': State, l: Label)
    requires Inv(st) && Step(st, st', l)
    ensures Inv(st')
  {
    match l
    case LGet(p, b) => GetKeeps(st, st', p, b);
    case LCreate(p, c, b, now) => CreateKeeps(st, st', p, c, b, now);
    case LWait(p, ch, b) => WaitKeeps(st, st', p, ch, b);
    case LPut(p, b, now) => PutKeeps(st, st', p, b, now);
    case LClose(p) => CloseKeeps(st, st', p);
    case LSystem(n, now, threshold) => SystemKeeps(st, st', n, now, threshold);
  }

  /** Every run leads to a state that satisfies the invariant. */
  lemma {:induction false} RunKeeps(r: Run)
    requires IsRun(r)
    ensures Inv(r.st)
  {
    match r
    case Start(st) => InitKeeps(st);
    case Then(before, l, st) =>
      RunKeeps(before);
      StepKeeps(before.st, st, l);
  }

  // ---- the theorems ----

  /** No panic is reachable: neither the pool's consistency panics, nor a second close of
      a wait channel, nor a send on a closed one. */
  lemma NeverPanics(r: Run)
    requires IsRun(r)
    ensures !r.st.pool.fault
  {
    RunKeeps(r);
  }

  /** The index stays within the configured limit, also together with the creations in
      progress once those that are in the index already are counted once. */
  lemma LimitHolds(r: Run)
    requires IsRun(r)
    ensures |r.st.pool.index| <= r.st.cfg
    ensures r.st.pool.createInProgress + |r.st.pool.index| - |CountedTwice(r.st.procs)| <= r.st.cfg
    ensures r.st.pool.createInProgress == |Counted(r.st.procs)|
  {
    RunKeeps(r);
    TwiceIsCounted(r.st.procs);
  }

  lemma TwiceIsCounted(procs: map<ProcId, Pc>)
    ensures |CountedTwice(procs)| <= |Counted(procs)|
  {
    CardSub(CountedTwice(procs), Counted(procs));
  }

  lemma {:induction false} CardSub(a: set<ProcId>, b: set<ProcId>)
    requires a <= b
    ensures |a| <= |b|
  {
    assert b == a + (b - a);
  }

  predicate InIdle(pool: Pool, j: nat, s: SessionId) { j < |pool.idle| && pool.idle[j].value == s }

  /** A session is in the idle list, and then once, iff its index entry names the
      very element that holds it. */
  lemma IdleIffIndexed(r: Run, s: SessionId)
    requires IsRun(r)
    ensures (exists j :: InIdle(r.st.pool, j, s)) <==> s in r.st.pool.index && r.st.pool.index[s].idle.Some?
    ensures forall j: nat :: InIdle(r.st.pool, j, s) ==> s in r.st.pool.index && r.st.pool.index[s].idle == Some(r.st.pool.idle[j].id)
    ensures forall i, j :: InIdle(r.st.pool, i, s) && InIdle(r.st.pool, j, s) ==> i == j
  {
    RunKeeps(r);
    IdleOnce(r.st.pool, s);
  }

  lemma IdleOnce(pool: Pool, s: SessionId)
    requires IdleOk(pool)
    ensures (exists j :: InIdle(pool, j, s)) <==> s in pool.index && pool.index[s].idle.Some?
    ensures forall j: nat :: InIdle(pool, j, s) ==> s in pool.index && pool.index[s].idle == Some(pool.idle[j].id)
    ensures forall i, j :: InIdle(pool, i, s) && InIdle(pool, j, s) ==> i == j
  {
    if s in pool.index && pool.index[s].idle.Some? {
      var j :| 0 <= j < |pool.idle| && pool.idle[j] == Elem(pool.index[s].idle.value, s);
      assert InIdle(pool, j, s);
    }
  }

  /** A borrowed session has one borrower and is not idle. */
  lemma BorrowedAlone(r: Run, p: ProcId, q: ProcId, s: SessionId)
    requires IsRun(r) && p in r.st.procs && q in r.st.procs && Held(r.st.procs[p]) == Some(s)
    ensures Held(r.st.procs[q]) == Some(s) ==> p == q
    ensures forall j :: !InIdle(r.st.pool, j, s)
  {
    RunKeeps(r);
    IdleOnce(r.st.pool, s);
    HeldAlone(r.st, p, q, s);
  }

  lemma HeldAlone(st: State, p: ProcId, q: ProcId, s: SessionId)
    requires ProcsOk(st) && p in st.procs && q in st.procs && Held(st.procs[p]) == Some(s)
    ensures Held(st.procs[q]) == Some(s) ==> p == q
    ensures s in st.pool.index ==> st.pool.index[s].idle == None
  {
    if Held(st.procs[q]) == Some(s) { assert SameHeld(st.procs[p], st.procs[q]); }
  }

  /** A session may be put back into an open client: there is room for it. */
  lemma PutNeverOverflows(r: Run, p: ProcId, s: SessionId, now: int)
    requires IsRun(r) && p in r.st.procs && r.st.procs[p] == PutPool(s)
    ensures r.st.pool.done <==> PutLocked(r.st.pool, s, now).1 == Overflow
  {
    RunKeeps(r);
    LimitHolds(r);
    PutHasRoom(r.st, p, s, now);
  }

  lemma PutHasRoom(st: State, p: ProcId, s: SessionId, now: int)
    requires ProcsOk(st) && SessOk(st) && IdleOk(st.pool) && p in st.procs && st.procs[p] == PutPool(s)
    requires |st.pool.index| <= st.cfg && st.pool.limit == if st.pool.done then 0 else st.cfg
    ensures st.pool.done <==> PutLocked(st.pool, s, now).1 == Overflow
  {
    SafeIsBusy(st, p, s);
    IdleFits(st.pool, s);
  }

  lemma IdleFits(pool: Pool, s: SessionId)
    requires IdleOk(pool) && s in pool.index && pool.index[s].idle == None
    ensures |pool.idle| < |pool.index|
  {
    forall i, j | 0 <= i < j < |pool.idle| ensures pool.idle[i].value != pool.idle[j].value {
      assert pool.idle[i].id != pool.idle[j].id;
    }
    CardValues(pool.idle);
    CardSub(Values(pool.idle), pool.index.Keys - {s});
    assert |pool.index.Keys - {s}| == |pool.index.Keys| - 1;
  }

  lemma {:induction false} CardValues(l: seq<Elem<SessionId>>)
    requires forall i, j :: 0 <= i < j < |l| ==> l[i].value != l[j].value
    ensures |Values(l)| == |l|
  {
    if l != [] {
      var n := |l| - 1;
      CardValues(l[..n]);
      assert l[n].value !in Values(l[..n]);
      assert l == l[..n] + [l[n]];
      ValuesAppend(l[..n], l[n]);
    }
  }

  /** While the client is open, a queued channel is open, queued once and some waiter's;
      a recycled channel is open, not queued and in no waiter's hands. */
  lemma WaitQueueSound(r: Run, k: nat, ch: ChanId)
    requires IsRun(r) && !r.st.pool.done
    ensures k < |r.st.pool.waitQ| ==>
      && var e := r.st.pool.waitQ[k];
      && e.value in r.st.pool.chans && r.st.pool.chans[e.value].open && HasWaiter(r.st.procs, e)
      && forall j :: 0 <= j < |r.st.pool.waitQ| && r.st.pool.waitQ[j].value == e.value ==> j == k
    ensures ch in r.st.recycled ==>
      && ch in r.st.pool.chans && r.st.pool.chans[ch].open && ch !in Values(r.st.pool.waitQ)
      && Unused(r.st, ch)
  {
    RunKeeps(r);
    QueueSound(r.st, k, ch);
  }

  lemma QueueSound(st: State, k: nat, ch: ChanId)
    requires ChansOk(st) && !st.pool.done
    ensures k < |st.pool.waitQ| ==>
      && var e := st.pool.waitQ[k];
      && e.value in st.pool.chans && st.pool.chans[e.value].open && HasWaiter(st.procs, e)
      && forall j :: 0 <= j < |st.pool.waitQ| && st.pool.waitQ[j].value == e.value ==> j == k
    ensures ch in st.recycled ==>
      && ch in st.pool.chans && st.pool.chans[ch].open && ch !in Values(st.pool.waitQ)
      && Unused(st, ch)
  {
    if ch in st.recycled {
      forall q | q in st.procs ensures Waits(st.procs[q]) != Some(ch) { assert UserOk(st, q, st.procs[q]); }
    }
  }

  /** A built session is delivered once or discarded once, never both, never neither
      once its creator stops offering it. */
  lemma BuiltOnceUsedOnce(r: Run, s: SessionId)
    requires IsRun(r) && s in r.st.sess
    ensures var x := r.st.sess[s];
      && x.deliveries + x.discards <= 1
      && (x.deliveries + x.discards == 0 <==> Offered(r.st.procs, s))
  {
    RunKeeps(r);
  }

  /** A creator that offers its result is never stuck: its caller takes it, or what made
      the caller leave lets the creator leave too. */
  lemma CreatorNeverStuck(r: Run, c: ProcId)
    requires IsRun(r) && c in r.st.procs && r.st.procs[c].Offer?
    ensures (exists st' :: Discard(r.st, st', c)) || (exists p, st' :: Deliver(r.st, st', p, c, false))
  {
    RunKeeps(r);
    PcFacts(r.st, c);
    OfferStep(r.st, c);
  }

  lemma OfferStep(st: State, c: ProcId)
    requires PairsOk(st) && c in st.procs && st.procs[c].Offer? && PcOk(st, c, st.procs[c])
    ensures (exists st' :: Discard(st, st', c)) || (exists p, st' :: Deliver(st, st', p, c, false))
  {
    var built := st.procs[c].built;
    if CallOver(st, st.procs[c].call) {
      var st' := if built.None? then Move(st, c, End)
                 else Move(st, c, Close(CheckClosed, built.value, Creator)).(sess := st.sess[built.value :=
                   st.sess[built.value].(discards := st.sess[built.value].discards + 1)]);
      assert Discard(st, st', c);
    } else {
      var p :| p in st.procs && st.procs[p].Await? && st.procs[p].call == st.procs[c].call;
      var q := Move(st, c, End);
      var st' := if built.None? then Move(q, p, Decrement(st.procs[p].i, Fatal))
                 else Move(q, p, OnCreate(st.procs[p].i, built.value)).(sess := st.sess[built.value :=
                   st.sess[built.value].(deliveries := st.sess[built.value].deliveries + 1)]);
      assert Deliver(st, st', p, c, false);
    }
  }

  /** A caller that waits for its session may leave, or its creator is still at work. */
  lemma CallerNeverStuck(r: Run, p: ProcId)
    requires IsRun(r) && p in r.st.procs && r.st.procs[p].Await?
    ensures CallOver(r.st, r.st.procs[p].call) || HasCreator(r.st.procs, r.st.procs[p].call)
  {
    RunKeeps(r);
  }

  /** Who waits at a session's `closeOnce` waits for another goroutine that has a step. */
  lemma CloserNeverStuck(r: Run, p: ProcId)
    requires IsRun(r) && p in r.st.procs && r.st.procs[p].Close? && r.st.procs[p].stage == EnterOnce
    ensures (exists st' :: CloseEnter(r.st, st', p))
         || (exists q, st' :: q != p && (CloseHooks(r.st, st', q) || CloseLeave(r.st, st', q)))
  {
    RunKeeps(r);
    CloserFacts(r.st, p);
    EnterStep(r.st, p);
  }

  lemma EnterStep(st: State, p: ProcId)
    requires p in st.procs && st.procs[p].Close? && st.procs[p].stage == EnterOnce
    requires PcOk(st, p, st.procs[p]) && SessionOk(st, st.procs[p].s, st.sess[st.procs[p].s])
    ensures (exists st' :: CloseEnter(st, st', p))
         || (exists q, st' :: q != p && (CloseHooks(st, st', q) || CloseLeave(st, st', q)))
  {
    var Close(_, s, who) := st.procs[p];
    match st.sess[s].once
    case NotStarted =>
      assert CloseEnter(st, Move(st, p, Close(RunHooks, s, who)).(sess := st.sess[s := st.sess[s].(once := Running(p))]), p);
    case Finished =>
      assert CloseEnter(st, Move(st, p, AfterClose(who)), p);
    case HooksRan(q) =>
      var st' := Move(st, q, AfterClose(st.procs[q].who))
                   .(sess := st.sess[s := st.sess[s].(status := Closed, once := Finished)]);
      assert CloseLeave(st, st', q);
    case Running(q) =>
      var x := st.sess[s].(once := HooksRan(q));
      var m := Move(st, q, Close(LeaveOnce, s, st.procs[q].who));
      if st.sess[s].hooked {
        var (pool, to) := Unregister(st.pool, s);
        var st' := m.(pool := pool, procs := HandOver(m.procs, to, None),
                      sess := st.sess[s := x.(removals := x.removals + 1)]);
        assert CloseHooks(st, st', q);
      } else {
        assert CloseHooks(st, m.(sess := st.sess[s := x]), q);
      }
  }

  /** A session leaves the index exactly once, however many goroutines close it. */
  lemma LeavesOnce(r: Run, s: SessionId)
    requires IsRun(r) && s in r.st.sess
    ensures var x := r.st.sess[s];
      && x.removals <= 1
      && (s in r.st.pool.index ==> x.removals == 0)
      && (x.hooked && s !in r.st.pool.index ==> x.removals == 1)
  {
    RunKeeps(r);
    assert SessionOk(r.st, s, r.st.sess[s]);
  }

  /** Once the client is closed, no goroutine has a session and no closer is at work, the
      index and the idle list are empty and every session that was in the index left it. */
  lemma DrainsCompletely(r: Run)
    requires IsRun(r) && r.st.pool.done
    requires forall p :: p in r.st.procs ==> Held(r.st.procs[p]).None? && !IsCollector(r.st.procs[p])
    ensures r.st.pool.idle == [] && r.st.pool.index == map[]
    ensures forall s :: s in r.st.sess && r.st.sess[s].hooked ==> r.st.sess[s].removals == 1
  {
    RunKeeps(r);
    Drained(r.st);
    forall s | s in r.st.sess && r.st.sess[s].hooked ensures r.st.sess[s].removals == 1 { LeavesOnce(r, s); }
  }

  lemma Drained(st: State)
    requires DrainOk(st) && IdleOk(st.pool) && st.pool.done
    requires forall p :: p in st.procs ==> Held(st.procs[p]).None? && !IsCollector(st.procs[p])
    ensures st.pool.idle == [] && st.pool.index == map[]
  {
    forall s: SessionId ensures !IsHeld(st.procs, s) && !IsCollected(st.procs, s) {}
    if st.pool.idle != [] { IdleIsCollected(st); }
    assert st.pool.index.Keys == {};
  }

  lemma IdleIsCollected(st: State)
    requires DrainOk(st) && st.pool.done && st.pool.idle != []
    ensures IsCollected(st.procs, st.pool.idle[0].value)
  {}
}
