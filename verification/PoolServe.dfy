/** Serving the wait queue keeps the invariant: in the onClose hook and in `Put`. */
module PoolServe {
  import opened SessionPool
  import opened PoolProtocol
  import opened PoolInvariant
  import opened PoolLists
  import opened PoolFrames
  import opened PoolClosing

  // ---- the channels after a notification ----

  /** The wait queue of an open client was served and the waiter `to`, if any, received. */
  ghost predicate Notified(st: State, st': State, to: Option<ProcId>, got: Option<SessionId>, n: nat) {
    && !st.pool.done && !st'.pool.done
    && Served(st.pool.chans, st.pool.waitQ, to, n, st'.pool.chans, st'.pool.waitQ)
    && st'.procs == HandOver(st.procs, to, got) && st'.nextProc == st.nextProc
    && st'.recycled == st.recycled && st'.nextChan == st.nextChan && st'.pool.nextElem >= st.pool.nextElem
  }

  lemma ServedIsParked(st: State, st': State, to: ProcId, got: Option<SessionId>, n: nat)
    requires UsersOk(st) && QueueOk(st.pool) && Notified(st, st', Some(to), got, n)
    ensures n > 0 && ParkedOn(st.procs, to, st.pool.waitQ[n - 1].value)
    ensures Moves(st, st', to) && st'.procs[to] == Recycle(st.procs[to].i, st.pool.waitQ[n - 1].value, got)
  {
    assert ParkedOn(st.procs, to, st.pool.waitQ[n - 1].value);
  }

  lemma DroppedValues(q: seq<Elem<ChanId>>, n: nat)
    requires n <= |q|
    requires forall i, j :: 0 <= i < j < |q| ==> q[i].value != q[j].value
    ensures Values(q[..n]) !! Values(q[n..]) && Values(q) == Values(q[..n]) + Values(q[n..])
  {
    forall v | v in Values(q) ensures v in Values(q[..n]) || v in Values(q[n..]) {
      var i :| 0 <= i < |q| && q[i].value == v;
      if i < n { assert q[..n][i].value == v; } else { assert q[n..][i - n].value == v; }
    }
    forall v | v in Values(q[..n]) ensures v in Values(q) {
      var i :| 0 <= i < n && q[..n][i].value == v;
      assert q[i].value == v;
    }
    forall v | v in Values(q[n..]) ensures v in Values(q) && v !in Values(q[..n]) {
      var i :| 0 <= i < |q| - n && q[n..][i].value == v;
      assert q[n + i].value == v;
    }
  }

  lemma ServedQueue(st: State, st': State, to: Option<ProcId>, got: Option<SessionId>, n: nat)
    requires QueueOk(st.pool) && Notified(st, st', to, got, n)
    ensures QueueOk(st'.pool)
  {
    var q := st.pool.waitQ;
    DroppedValues(q, n);
    forall k | 0 <= k < |st'.pool.waitQ| ensures st'.pool.chans[st'.pool.waitQ[k].value].open {
      assert st'.pool.waitQ[k] == q[n + k] && q[n..][k].value in Values(q[n..]);
    }
  }

  lemma ServedRecycled(st: State, st': State, to: Option<ProcId>, got: Option<SessionId>, n: nat)
    requires QueueOk(st.pool) && RecycledOk(st) && Notified(st, st', to, got, n)
    ensures RecycledOk(st')
  {
    DroppedValues(st.pool.waitQ, n);
  }

  /** The waiter that is served leaves its channel open and unqueued. */
  lemma ServedSelf(st: State, st': State, got: Option<SessionId>, n: nat, q: ProcId)
    requires QueueOk(st.pool) && Notified(st, st', Some(q), got, n)
    requires q in st.procs && UserOk(st, q, st.procs[q])
    requires st.procs[q].Parked? && st.procs[q].ch == st.pool.waitQ[n - 1].value
    ensures UserOk(st', q, st'.procs[q])
  {
    DroppedValues(st.pool.waitQ, n);
    assert st.pool.waitQ[..n][n - 1].value in Values(st.pool.waitQ[..n]);
  }

  /** A waiter that missed its turn was not parked. */
  lemma MissedIsNotParked(st: State, st': State, to: Option<ProcId>, got: Option<SessionId>, n: nat, q: ProcId, ch: ChanId)
    requires Notified(st, st', to, got, n) && to != Some(q) && ch in Values(st.pool.waitQ[..n])
    ensures ch in st.pool.chans && st.pool.chans[ch].receiver != Some(q)
  {
    var k :| 0 <= k < n && st.pool.waitQ[..n][k].value == ch;
    assert st.pool.waitQ[k].value == ch;
  }

  lemma ServedOther(st: State, st': State, to: Option<ProcId>, got: Option<SessionId>, n: nat, q: ProcId)
    requires QueueOk(st.pool) && Notified(st, st', to, got, n)
    requires q in st.procs && UserOk(st, q, st.procs[q]) && to != Some(q)
    ensures UserOk(st', q, st'.procs[q])
  {
    DroppedValues(st.pool.waitQ, n);
    if Waits(st.procs[q]).Some? && Waits(st.procs[q]).value in Values(st.pool.waitQ[..n]) {
      MissedIsNotParked(st, st', to, got, n, q, Waits(st.procs[q]).value);
    }
  }

  lemma ServedUser(st: State, st': State, to: Option<ProcId>, got: Option<SessionId>, n: nat, q: ProcId)
    requires QueueOk(st.pool) && Notified(st, st', to, got, n)
    requires q in st.procs && UserOk(st, q, st.procs[q])
    requires to == Some(q) ==> st.procs[q].Parked? && st.procs[q].ch == st.pool.waitQ[n - 1].value
    ensures UserOk(st', q, st'.procs[q])
  {
    if to == Some(q) { ServedSelf(st, st', got, n, q); } else { ServedOther(st, st', to, got, n, q); }
  }

  lemma ServedReceiver(st: State, st': State, to: Option<ProcId>, got: Option<SessionId>, n: nat, ch: ChanId)
    requires UsersOk(st) && QueueOk(st.pool) && Notified(st, st', to, got, n)
    requires ch in st'.pool.chans && st'.pool.chans[ch].receiver.Some?
    ensures ParkedOn(st'.procs, st'.pool.chans[ch].receiver.value, ch)
  {
    var q := st.pool.waitQ;
    forall k | 0 <= k < n ensures q[..n][k].value != ch { assert st'.pool.chans[q[k].value].receiver == None; }
    assert ParkedOn(st.procs, st.pool.chans[ch].receiver.value, ch);
    if to.Some? {
      ServedIsParked(st, st', to.value, got, n);
      assert q[..n][n - 1].value in Values(q[..n]);
    }
  }

  lemma ServedUsers(st: State, st': State, to: Option<ProcId>, got: Option<SessionId>, n: nat)
    requires UsersOk(st) && QueueOk(st.pool) && Notified(st, st', to, got, n)
    ensures UsersOk(st')
  {
    if to.Some? { ServedIsParked(st, st', to.value, got, n); }
    forall q | q in st'.procs ensures UserOk(st', q, st'.procs[q]) { ServedUser(st, st', to, got, n, q); }
    forall ch | ch in st'.pool.chans && st'.pool.chans[ch].receiver.Some?
      ensures ParkedOn(st'.procs, st'.pool.chans[ch].receiver.value, ch) {
      ServedReceiver(st, st', to, got, n, ch);
    }
    if to.Some? { UsersMove(st, st', to.value); }
  }

  lemma ServedWaiters(st: State, st': State, to: Option<ProcId>, got: Option<SessionId>, n: nat)
    requires WaitersOk(st) && UsersOk(st) && QueueOk(st.pool) && Notified(st, st', to, got, n)
    ensures WaitersOk(st')
  {
    if to.Some? { ServedIsParked(st, st', to.value, got, n); }
    forall k | 0 <= k < |st'.pool.waitQ| ensures HasWaiter(st'.procs, st'.pool.waitQ[k]) {
      assert st'.pool.waitQ[k] == st.pool.waitQ[n + k];
      if to.Some? { WaiterFrame(st, st', to.value, st.pool.waitQ[n + k]); }
    }
  }

  lemma ServedChans(st: State, st': State, to: Option<ProcId>, got: Option<SessionId>, n: nat)
    requires ChansOk(st) && Notified(st, st', to, got, n)
    ensures ChansOk(st')
  {
    ServedQueue(st, st', to, got, n);
    ServedRecycled(st, st', to, got, n);
    ServedUsers(st, st', to, got, n);
    ServedWaiters(st, st', to, got, n);
  }

  // ---- the onClose hook ----

  /** The state after the session has left the index, before the queue is served. */
  function Removed(st: State, p: ProcId): State
    requires p in st.procs && st.procs[p].Close? && st.procs[p].s in st.sess
  {
    var Close(_, s, who) := st.procs[p];
    var x := st.sess[s];
    var pool :=
      if !x.hooked || s !in st.pool.index then st.pool
      else
        var q := st.pool.(index := st.pool.index - {s});
        if st.pool.index[s].idle.Some? then q.(idle := Without(q.idle, st.pool.index[s].idle.value)) else q;
    st.(pool := pool, procs := st.procs[p := Close(LeaveOnce, s, who)],
        sess := st.sess[s := x.(once := HooksRan(p), removals := x.removals + if x.hooked then 1 else 0)])
  }

  lemma HooksAre(st: State, st': State, p: ProcId)
    requires CloseHooks(st, st', p) && PcOk(st, p, st.procs[p]) && SessionOk(st, st.procs[p].s, st.sess[st.procs[p].s])
    ensures if !st.sess[st.procs[p].s].hooked || st.pool.done then st' == Removed(st, p)
            else var mid := Removed(st, p);
                 st' == mid.(pool := Notify(mid.pool).0, procs := HandOver(mid.procs, Notify(mid.pool).1, None))
  {}

  lemma RemovedAdvances(st: State, p: ProcId)
    requires p in st.procs && st.procs[p].Close? && st.procs[p].stage == RunHooks
    requires PcOk(st, p, st.procs[p]) && SessionOk(st, st.procs[p].s, st.sess[st.procs[p].s])
    ensures Advances(st, Removed(st, p), p, st.procs[p].s) && Leaves(st, Removed(st, p), p, st.procs[p].s)
    ensures st.procs[p].s !in Removed(st, p).pool.index
  {}

  lemma RemovedFrame(st: State, p: ProcId)
    requires p in st.procs && st.procs[p].Close? && st.procs[p].s in st.sess
    ensures SameCalls(st, Removed(st, p), p) && SameChans(st, Removed(st, p), p)
  {}

  lemma RemovedLimit(st: State, p: ProcId)
    requires p in st.procs && st.procs[p].Close? && st.procs[p].s in st.sess
    ensures SameLimit(st, Removed(st, p), p)
  {
    IndexShrinks(st.pool.index, st.procs[p].s);
    assert Removed(st, p).pool.index == st.pool.index || Removed(st, p).pool.index == st.pool.index - {st.procs[p].s};
  }

  lemma IndexShrinks(index: map<SessionId, SessionInfo>, s: SessionId)
    ensures |index - {s}| <= |index|
  {
    assert (index - {s}).Keys == index.Keys - {s};
    assert |(index - {s}).Keys| <= |index.Keys|;
  }

  lemma RemovedIdle(st: State, p: ProcId)
    requires p in st.procs && st.procs[p].Close? && st.procs[p].s in st.sess && IdleOk(st.pool)
    ensures IdleOk(Removed(st, p).pool)
    ensures forall j :: 0 <= j < |Removed(st, p).pool.idle| ==> Removed(st, p).pool.idle[j] in st.pool.idle
  {
    var s := st.procs[p].s;
    if s in st.pool.index && st.pool.index[s].idle.Some? {
      var e := st.pool.index[s].idle.value;
      var r := Without(st.pool.idle, e);
      WithoutIs(st.pool.idle, e, st.pool.nextElem);
      forall j | 0 <= j < |r| ensures r[j].value != s { assert r[j] in st.pool.idle; }
      forall x | x in st.pool.index && x != s && st.pool.index[x].idle.Some? ensures Elem(st.pool.index[x].idle.value, x) in r {
        var i :| 0 <= i < |st.pool.idle| && st.pool.idle[i] == Elem(st.pool.index[x].idle.value, x);
        var k :| 0 <= k < |st.pool.idle| && st.pool.idle[k] == Elem(e, s);
        assert i != k;
      }
    }
  }

  lemma RemovedHeld(st: State, st': State, p: ProcId, x: SessionId)
    requires p in st.procs && st.procs[p].Close? && st.procs[p].s in st.sess && st' == Removed(st, p)
    requires IsHeld(st.procs, x) && x != st.procs[p].s
    ensures IsHeld(st'.procs, x)
  {
    var q :| q in st.procs && Held(st.procs[q]) == Some(x);
    assert Held(st'.procs[q]) == Some(x);
  }

  lemma RemovedCollected(st: State, st': State, p: ProcId, x: SessionId)
    requires p in st.procs && st.procs[p].Close? && st.procs[p].s in st.sess && st' == Removed(st, p)
    requires IsCollected(st.procs, x)
    ensures IsCollected(st'.procs, x)
  {
    var q :| q in st.procs && Collects(st.procs[q], x);
    assert Collects(st'.procs[q], x);
  }

  lemma RemovedDrain(st: State, p: ProcId)
    requires p in st.procs && st.procs[p].Close? && st.procs[p].s in st.sess && IdleOk(st.pool) && DrainOk(st)
    requires st.procs[p].s !in Removed(st, p).pool.index
    ensures DrainOk(Removed(st, p))
  {
    var st' := Removed(st, p);
    RemovedIdle(st, p);
    forall x | x in st'.pool.index && st'.pool.index[x].idle == None ensures IsHeld(st'.procs, x) {
      RemovedHeld(st, st', p, x);
    }
    if st.pool.done {
      forall j | 0 <= j < |st'.pool.idle| ensures IsCollected(st'.procs, st'.pool.idle[j].value) {
        assert st'.pool.idle[j] in st.pool.idle;
        RemovedCollected(st, st', p, st'.pool.idle[j].value);
      }
    }
  }

  lemma HookMove(st: State, st': State, p: ProcId, s: SessionId)
    requires Inv(st) && Advances(st, st', p, s) && Leaves(st, st', p, s) && PcOk(st, p, st.procs[p])
    requires SameCalls(st, st', p) && SameChans(st, st', p) && SameLimit(st, st', p)
    requires IdleOk(st'.pool) && DrainOk(st') && !st'.pool.fault
    ensures Inv(st')
  {
    AdvanceProcs(st, st', p, s);
    AdvanceSess(st, st', p, s);
    LimitFrame(st, st', p);
    ChansFrame(st, st', p);
    CallsFrame(st, st', p);
  }

  lemma RemovedKeeps(st: State, p: ProcId)
    requires Inv(st) && p in st.procs && st.procs[p].Close? && st.procs[p].stage == RunHooks
    ensures st.procs[p].s in st.sess && Inv(Removed(st, p))
  {
    CloserFacts(st, p);
    RemovedFacts(st, Removed(st, p), p);
    HookMove(st, Removed(st, p), p, st.procs[p].s);
  }

  lemma RemovedFacts(st: State, st': State, p: ProcId)
    requires p in st.procs && st.procs[p].Close? && st.procs[p].stage == RunHooks && PcOk(st, p, st.procs[p])
    requires SessionOk(st, st.procs[p].s, st.sess[st.procs[p].s]) && IdleOk(st.pool) && DrainOk(st) && st' == Removed(st, p)
    ensures Advances(st, st', p, st.procs[p].s) && Leaves(st, st', p, st.procs[p].s)
    ensures SameCalls(st, st', p) && SameChans(st, st', p) && SameLimit(st, st', p)
    ensures IdleOk(st'.pool) && DrainOk(st') && st'.pool.fault == st.pool.fault
  {
    RemovedAdvances(st, p);
    RemovedFrame(st, p);
    RemovedLimit(st, p);
    RemovedIdle(st, p);
    RemovedDrain(st, p);
  }

  // ---- a notification that a place is free ----

  /** The waiter that is served gets `got`; nothing else but the queue changes. */
  ghost predicate Serves(st: State, st': State, got: Option<SessionId>) {
    && !st.pool.done
    && st' == st.(pool := Notify(st.pool).0, procs := HandOver(st.procs, Notify(st.pool).1, got))
  }

  lemma ServesIs(st: State, st': State, got: Option<SessionId>) returns (n: nat)
    requires QueueOk(st.pool) && Serves(st, st', got)
    ensures Notified(st, st', Notify(st.pool).1, got, n) && st'.pool == st.pool.(chans := st'.pool.chans, waitQ := st'.pool.waitQ)
  {
    n := ServeIs(st.pool.chans, st.pool.waitQ);
  }

  lemma ServedMoves(st: State, st': State, to: ProcId, got: Option<SessionId>)
    requires Moves(st, st', to) && to in st.procs && st.procs[to].Parked? && st'.procs[to].Recycle? && st'.procs[to].got == got
    requires st' == st.(pool := st.pool.(chans := st'.pool.chans, waitQ := st'.pool.waitQ), procs := st'.procs)
    requires got.Some? ==> Free(st, got.value) && got.value in st.sess && st.sess[got.value].hooked
    requires got.Some? && got.value in st.pool.index ==> st.pool.index[got.value].idle == None
    ensures SameLimit(st, st', to) && SameCalls(st, st', to) && SameSess(st, st', to) && SameDrain(st, st', to)
    ensures SameProcs(st, st', to)
  {}

  lemma PlaceServed(st: State, st': State)
    requires Inv(st) && Serves(st, st', None)
    ensures Inv(st')
  {
    var n := ServesIs(st, st', None);
    var to := Notify(st.pool).1;
    ServedChans(st, st', to, None, n);
    if to.Some? {
      ServedIsParked(st, st', to.value, None, n);
      ServedMoves(st, st', to.value, None);
      LimitFrame(st, st', to.value);
      CallsFrame(st, st', to.value);
      SessFrame(st, st', to.value);
      DrainFrame(st, st', to.value);
      ProcsFrame(st, st', to.value);
    } else {
      SameButQueue(st, st');
    }
  }

  lemma SameButQueue(st: State, st': State)
    requires ProcsOk(st) && SessOk(st) && DrainOk(st) && LimitOk(st) && CallsOk(st)
    requires st' == st.(pool := st.pool.(chans := st'.pool.chans, waitQ := st'.pool.waitQ))
    ensures ProcsOk(st') && SessOk(st') && DrainOk(st') && LimitOk(st') && CallsOk(st')
  {
    forall q | q in st.procs ensures PcOk(st', q, st.procs[q]) {
      assert PcOk(st, q, st.procs[q]);
      var pc := st.procs[q];
      if (pc.PutPool? || pc.PutClosed?) && Safe(st, pc.s) { assert Safe(st', pc.s); }
    }
    forall s | s in st.sess ensures SessionOk(st', s, st.sess[s]) { assert SessionOk(st, s, st.sess[s]); }
  }

  lemma HooksOnly(st: State, st': State, p: ProcId)
    requires Inv(st) && CloseHooks(st, st', p) && (!st.sess[st.procs[p].s].hooked || st.pool.done)
    ensures Inv(st')
  {
    CloserFacts(st, p);
    HooksAre(st, st', p);
    RemovedKeeps(st, p);
  }

  lemma HooksServe(st: State, st': State, p: ProcId) returns (mid: State)
    requires Inv(st) && CloseHooks(st, st', p) && st.sess[st.procs[p].s].hooked && !st.pool.done
    ensures Inv(mid) && Serves(mid, st', None)
  {
    CloserFacts(st, p);
    HooksAre(st, st', p);
    RemovedKeeps(st, p);
    mid := Removed(st, p);
  }

  lemma KeepsCloseHooks(st: State, st': State, p: ProcId)
    requires Inv(st) && CloseHooks(st, st', p)
    ensures Inv(st')
  {
    if st.sess[st.procs[p].s].hooked && !st.pool.done {
      var mid := HooksServe(st, st', p);
      PlaceServed(mid, st');
    } else {
      HooksOnly(st, st', p);
    }
  }

  // ---- Put ----

  /** A session that may be put back is in the index and not idle. */
  lemma SafeIsBusy(st: State, p: ProcId, s: SessionId)
    requires ProcsOk(st) && SessOk(st) && p in st.procs && st.procs[p] == PutPool(s)
    ensures Safe(st, s) && s in st.pool.index && st.pool.index[s].idle == None
  {
    assert PcOk(st, p, st.procs[p]) && SessionOk(st, s, st.sess[s]);
  }

  lemma OverflowMoves(st: State, st': State, p: ProcId, now: int)
    requires PutStore(st, st', p, now) && PutLocked(st.pool, st.procs[p].s, now).1 == Overflow
    requires PcOk(st, p, st.procs[p])
    ensures Quiet(st, st', p) && SameLimit(st, st', p)
  {}

  /** Goroutine `p` puts session `s` on the idle list. */
  predicate Stores(st: State, st': State, p: ProcId, s: SessionId, now: int) {
    && p in st.procs && st.procs[p] == PutPool(s) && !st.pool.done
    && st' == st.(pool := PushIdle(st.pool, s, now), procs := st.procs[p := Rest])
  }

  lemma StoresProcs(st: State, st': State, p: ProcId, s: SessionId, now: int)
    requires ProcsOk(st) && Stores(st, st', p, s, now) && s in st.pool.index && st.pool.index[s].idle == None
    ensures ProcsOk(st')
  {
    forall q | q in st'.procs && q != p ensures PcOk(st', q, st'.procs[q]) && Held(st'.procs[q]) != Some(s) {
      PcFrame(st, st', p, q, st.procs[q]);
      assert !SameHeld(st.procs[q], st.procs[p]);
    }
  }

  lemma StoresRest(st: State, st': State, p: ProcId, s: SessionId, now: int)
    requires Stores(st, st', p, s, now) && s in st.pool.index && st.pool.index[s].idle == None
    ensures SameLimit(st, st', p) && SameCalls(st, st', p) && SameSess(st, st', p) && SameChans(st, st', p)
    ensures st'.pool.fault == st.pool.fault
  {
    assert st'.pool.index.Keys == st.pool.index.Keys;
    assert |st'.pool.index.Keys| == |st.pool.index.Keys|;
  }

  lemma StoresDrain(st: State, st': State, p: ProcId, s: SessionId, now: int)
    requires DrainOk(st) && Stores(st, st', p, s, now) && s in st.pool.index && st.pool.index[s].idle == None
    ensures DrainOk(st')
  {
    forall x | x in st'.pool.index && st'.pool.index[x].idle == None ensures IsHeld(st'.procs, x) {
      var q :| q in st.procs && Held(st.procs[q]) == Some(x);
      assert Held(st'.procs[q]) == Some(x);
    }
  }

  lemma StoresKeeps(st: State, st': State, p: ProcId, s: SessionId, now: int)
    requires Inv(st) && Stores(st, st', p, s, now)
    ensures Inv(st')
  {
    SafeIsBusy(st, p, s);
    PushKeepsIdle(st.pool, s, now);
    StoresProcs(st, st', p, s, now);
    StoresRest(st, st', p, s, now);
    StoresDrain(st, st', p, s, now);
    LimitFrame(st, st', p);
    CallsFrame(st, st', p);
    SessFrame(st, st', p);
    ChansFrame(st, st', p);
  }

  /** Goroutine `p` gives session `s` to the waiter that is served. */
  lemma LetsGo(st: State, mid: State, p: ProcId, s: SessionId)
    requires p in st.procs && st.procs[p] == PutPool(s) && mid == Move(st, p, Rest)
    ensures SameLimit(st, mid, p) && SameCalls(st, mid, p) && SameSess(st, mid, p) && SameChans(st, mid, p)
    ensures SameProcs(st, mid, p)
  {}

  lemma NowFree(st: State, mid: State, p: ProcId, s: SessionId)
    requires ProcsOk(st) && p in st.procs && st.procs[p] == PutPool(s) && mid == Move(st, p, Rest)
    ensures Free(mid, s)
  {
    forall q | q in mid.procs ensures Held(mid.procs[q]) != Some(s) {
      if q != p { assert !SameHeld(st.procs[q], st.procs[p]); }
    }
  }

  lemma HandedDrain(st: State, mid: State, st': State, p: ProcId, s: SessionId, to: ProcId)
    requires DrainOk(st) && p in st.procs && st.procs[p] == PutPool(s) && mid == Move(st, p, Rest)
    requires Moves(mid, st', to) && Held(Was(mid, to)).None? && Held(st'.procs[to]) == Some(s)
    requires st'.pool.index == st.pool.index && !st'.pool.done
    ensures DrainOk(st')
  {
    forall x | x in st'.pool.index && st'.pool.index[x].idle == None ensures IsHeld(st'.procs, x) {
      var q :| q in st.procs && Held(st.procs[q]) == Some(x);
      assert if x == s then Held(st'.procs[to]) == Some(x) else Held(st'.procs[q]) == Some(x);
    }
  }

  lemma HandsOver(st: State, mid: State, st': State, p: ProcId, s: SessionId)
    requires Inv(st) && p in st.procs && st.procs[p] == PutPool(s) && mid == Move(st, p, Rest)
    requires Serves(mid, st', Some(s)) && Notify(mid.pool).1.Some?
    ensures Inv(st')
  {
    SafeIsBusy(st, p, s);
    LetsGo(st, mid, p, s);
    NowFree(st, mid, p, s);
    LimitFrame(st, mid, p);
    CallsFrame(st, mid, p);
    SessFrame(st, mid, p);
    ChansFrame(st, mid, p);
    ProcsFrame(st, mid, p);
    HandsOverRest(st, mid, st', p, s);
  }

  lemma HandedMoves(mid: State, st': State, s: SessionId, to: ProcId)
    requires ChansOk(mid) && Serves(mid, st', Some(s)) && Notify(mid.pool).1 == Some(to)
    requires Free(mid, s) && s in mid.sess && mid.sess[s].hooked
    requires s in mid.pool.index ==> mid.pool.index[s].idle == None
    ensures ChansOk(st') && SameLimit(mid, st', to) && SameCalls(mid, st', to) && SameSess(mid, st', to)
    ensures SameProcs(mid, st', to) && Held(Was(mid, to)).None? && Held(st'.procs[to]) == Some(s)
    ensures st'.pool == mid.pool.(chans := st'.pool.chans, waitQ := st'.pool.waitQ)
  {
    var n := ServesIs(mid, st', Some(s));
    ServedChans(mid, st', Some(to), Some(s), n);
    ServedIsParked(mid, st', to, Some(s), n);
    ServedMoves(mid, st', to, Some(s));
  }

  lemma HandsOverRest(st: State, mid: State, st': State, p: ProcId, s: SessionId)
    requires p in st.procs && st.procs[p] == PutPool(s) && mid == Move(st, p, Rest)
    requires Serves(mid, st', Some(s)) && Notify(mid.pool).1.Some?
    requires DrainOk(st) && !st.pool.fault && IdleOk(st.pool)
    requires LimitOk(mid) && CallsOk(mid) && SessOk(mid) && ChansOk(mid) && ProcsOk(mid)
    requires Free(mid, s) && s in mid.sess && mid.sess[s].hooked
    requires s in mid.pool.index ==> mid.pool.index[s].idle == None
    ensures Inv(st')
  {
    var to := Notify(mid.pool).1.value;
    HandedMoves(mid, st', s, to);
    LimitFrame(mid, st', to);
    CallsFrame(mid, st', to);
    SessFrame(mid, st', to);
    ProcsFrame(mid, st', to);
    HandedDrain(st, mid, st', p, s, to);
  }

  lemma PutIs(st: State, st': State, p: ProcId, now: int)
    requires PutStore(st, st', p, now) && LimitOk(st) && QueueOk(st.pool)
    ensures var s := st.procs[p].s;
      match PutLocked(st.pool, s, now).1
      case Overflow => true
      case Stored => var mid := st.(pool := Notify(st.pool).0); Serves(st, mid, None) && Stores(mid, st', p, s, now)
      case Handed(to) => Serves(Move(st, p, Rest), st', Some(s)) && Notify(Move(st, p, Rest).pool).1.Some?
  {}

  lemma KeepsPutStore(st: State, st': State, p: ProcId, now: int)
    requires Inv(st) && PutStore(st, st', p, now)
    ensures Inv(st')
  {
    PutIs(st, st', p, now);
    var s := st.procs[p].s;
    match PutLocked(st.pool, s, now).1
    case Overflow =>
      assert PcOk(st, p, st.procs[p]);
      OverflowMoves(st, st', p, now);
      NeutralMove(st, st', p);
    case Stored =>
      var mid := st.(pool := Notify(st.pool).0);
      PlaceServed(st, mid);
      StoresKeeps(mid, st', p, s, now);
    case Handed(to) =>
      HandsOver(st, Move(st, p, Rest), st', p, s);
  }
}
