/** The steps of the wait queue keep the invariant. */
module PoolWait {
  import opened SessionPool
  import opened PoolProtocol
  import opened PoolInvariant
  import opened PoolLists
  import opened PoolFrames

  /** What a move within the wait queue leaves untouched. */
  ghost predicate OnlyWait(st: State, st': State, p: ProcId) {
    && SameLimit(st, st', p) && SameCalls(st, st', p) && SameSess(st, st', p) && SameDrain(st, st', p)
    && SameProcs(st, st', p)
    && st'.pool.nextElem >= st.pool.nextElem && st'.pool.fault == st.pool.fault
  }

  lemma OnlyWaitMove(st: State, st': State, p: ProcId)
    requires Inv(st) && OnlyWait(st, st', p) && ChansOk(st')
    ensures Inv(st')
  {
    IdleFrame(st.pool, st'.pool);
    LimitFrame(st, st', p);
    CallsFrame(st, st', p);
    SessFrame(st, st', p);
    DrainFrame(st, st', p);
    ProcsFrame(st, st', p);
  }

  lemma JoinMove(st: State, st': State, p: ProcId, ch: ChanId)
    requires JoinQueue(st, st', p, ch)
    ensures OnlyWait(st, st', p)
  {}

  lemma LeaveMove(st: State, st': State, p: ProcId)
    requires LeaveQueue(st, st', p)
    ensures OnlyWait(st, st', p)
  {}

  lemma ParkMove(st: State, st': State, p: ProcId)
    requires Park(st, st', p)
    ensures OnlyWait(st, st', p)
  {}

  lemma QueueMoves(st: State, st': State, p: ProcId, ch: ChanId)
    requires JoinQueue(st, st', p, ch) || LeaveQueue(st, st', p) || Park(st, st', p)
    ensures OnlyWait(st, st', p)
  {
    if JoinQueue(st, st', p, ch) { JoinMove(st, st', p, ch); }
    else if LeaveQueue(st, st', p) { LeaveMove(st, st', p); }
    else { ParkMove(st, st', p); }
  }

  lemma SelectMoves(st: State, st': State, p: ProcId, b: bool)
    requires ReceiveClosed(st, st', p) || LeaveWait(st, st', p, b)
    ensures OnlyWait(st, st', p)
  {}

  lemma PutBackMoves(st: State, st': State, p: ProcId)
    requires PutBackChan(st, st', p) && PcOk(st, p, st.procs[p])
    ensures OnlyWait(st, st', p)
  {}

  // ---- joining the queue ----

  lemma ValuesAppend<T>(q: seq<Elem<T>>, e: Elem<T>)
    ensures Values(q + [e]) == Values(q) + {e.value}
  {
    assert (q + [e])[|q|] == e;
    forall v | v in Values(q) ensures v in Values(q + [e]) {
      var i :| 0 <= i < |q| && q[i].value == v;
      assert (q + [e])[i].value == v;
    }
  }

  lemma JoinUser(st: State, st': State, p: ProcId, ch: ChanId, q: ProcId)
    requires RecycledOk(st) && JoinQueue(st, st', p, ch) && q in st.procs && UserOk(st, q, st.procs[q])
    ensures Waits(st.procs[q]) != Some(ch) && UserOk(st', q, st'.procs[q])
  {
    ValuesAppend(st.pool.waitQ, Elem(st.pool.nextElem, ch));
  }

  lemma JoinUsers(st: State, st': State, p: ProcId, ch: ChanId)
    requires UsersOk(st) && RecycledOk(st) && JoinQueue(st, st', p, ch)
    ensures UsersOk(st')
  {
    forall q | q in st.procs ensures Waits(st.procs[q]) != Some(ch) && UserOk(st', q, st'.procs[q]) {
      JoinUser(st, st', p, ch, q);
    }
    forall c | c in st'.pool.chans && st'.pool.chans[c].receiver.Some?
      ensures ParkedOn(st'.procs, st'.pool.chans[c].receiver.value, c) {
      assert ParkedOn(st.procs, st.pool.chans[c].receiver.value, c);
    }
    UsersMove(st, st', p);
  }

  lemma JoinQueueOk(st: State, st': State, p: ProcId, ch: ChanId)
    requires QueueOk(st.pool) && RecycledOk(st) && JoinQueue(st, st', p, ch)
    ensures QueueOk(st'.pool) && RecycledOk(st')
  {
    ValuesAppend(st.pool.waitQ, Elem(st.pool.nextElem, ch));
    EnqueueKeepsQueue(st.pool, ch);
  }

  lemma JoinWaiters(st: State, st': State, p: ProcId, ch: ChanId)
    requires WaitersOk(st) && JoinQueue(st, st', p, ch)
    ensures WaitersOk(st')
  {
    if !st.pool.done {
      forall k | 0 <= k < |st'.pool.waitQ| ensures HasWaiter(st'.procs, st'.pool.waitQ[k]) {
        if k < |st.pool.waitQ| {
          WaiterFrame(st, st', p, st.pool.waitQ[k]);
        } else {
          assert InQueue(st'.procs[p]) && st'.procs[p].el == st'.pool.waitQ[k].id && st'.procs[p].ch == ch;
        }
      }
    }
  }

  lemma KeepsJoinQueue(st: State, st': State, p: ProcId, ch: ChanId)
    requires Inv(st) && JoinQueue(st, st', p, ch)
    ensures Inv(st')
  {
    QueueMoves(st, st', p, ch);
    JoinUsers(st, st', p, ch);
    JoinQueueOk(st, st', p, ch);
    JoinWaiters(st, st', p, ch);
    OnlyWaitMove(st, st', p);
  }

  // ---- parking on the channel and leaving it ----

  /** Goroutine `p` changes only who receives from its channel. */
  predicate Retunes(st: State, st': State, p: ProcId) {
    && Moves(st, st', p) && p in st.procs && InQueue(st.procs[p]) && st.procs[p].ch in st.pool.chans
    && var ch := st.procs[p].ch;
    && (if st'.procs[p].Parked? then st'.procs[p].ch == ch else st'.procs[p].Leaving? || Waits(st'.procs[p]).None?)
    && (Waits(st'.procs[p]).Some? ==> Waits(st'.procs[p]).value == ch)
    && st'.pool.chans == st.pool.chans[ch := st.pool.chans[ch].(receiver := if st'.procs[p].Parked? then Some(p) else None)]
    && st'.pool.waitQ == st.pool.waitQ && st'.pool.done == st.pool.done && st'.pool.nextElem == st.pool.nextElem
    && st'.recycled == st.recycled && st'.nextChan == st.nextChan
  }

  lemma RetuneUsers(st: State, st': State, p: ProcId)
    requires UsersOk(st) && Retunes(st, st', p)
    ensures UsersOk(st')
  {
    var ch := st.procs[p].ch;
    assert UserOk(st, p, st.procs[p]);
    forall q | q in st'.procs ensures UserOk(st', q, st'.procs[q]) {
      assert UserOk(st, q, st.procs[q]);
      if q != p { assert !SameWaits(st.procs[q], st.procs[p]); }
    }
    forall c | c in st'.pool.chans && st'.pool.chans[c].receiver.Some?
      ensures ParkedOn(st'.procs, st'.pool.chans[c].receiver.value, c) {
      if c != ch { assert ParkedOn(st.procs, st.pool.chans[c].receiver.value, c); }
    }
    UsersMove(st, st', p);
  }

  lemma RetuneQueue(st: State, st': State, p: ProcId)
    requires QueueOk(st.pool) && RecycledOk(st) && Retunes(st, st', p) && UserOk(st, p, st.procs[p])
    ensures QueueOk(st'.pool) && RecycledOk(st')
  {}

  lemma RetuneWaiters(st: State, st': State, p: ProcId)
    requires WaitersOk(st) && QueueOk(st.pool) && Retunes(st, st', p)
    requires InQueue(st'.procs[p]) ==> st'.procs[p].el == st.procs[p].el
    requires !InQueue(st'.procs[p]) ==> !st.pool.chans[st.procs[p].ch].open
    ensures WaitersOk(st')
  {
    if !st.pool.done {
      forall k | 0 <= k < |st'.pool.waitQ| ensures HasWaiter(st'.procs, st'.pool.waitQ[k]) {
        WaiterFrame(st, st', p, st.pool.waitQ[k]);
      }
    }
  }

  lemma RetuneChans(st: State, st': State, p: ProcId)
    requires ChansOk(st) && Retunes(st, st', p)
    requires InQueue(st'.procs[p]) ==> st'.procs[p].el == st.procs[p].el
    requires !InQueue(st'.procs[p]) ==> !st.pool.chans[st.procs[p].ch].open
    ensures ChansOk(st')
  {
    RetuneUsers(st, st', p);
    RetuneQueue(st, st', p);
    RetuneWaiters(st, st', p);
  }

  lemma SelectRetunes(st: State, st': State, p: ProcId, b: bool)
    requires Park(st, st', p) || ReceiveClosed(st, st', p) || LeaveWait(st, st', p, b)
    requires UserOk(st, p, st.procs[p])
    ensures Retunes(st, st', p)
    ensures InQueue(st'.procs[p]) ==> st'.procs[p].el == st.procs[p].el
    ensures !InQueue(st'.procs[p]) ==> !st.pool.chans[st.procs[p].ch].open
  {}

  lemma SelectChans(st: State, st': State, p: ProcId, b: bool)
    requires ChansOk(st)
    requires Park(st, st', p) || ReceiveClosed(st, st', p) || LeaveWait(st, st', p, b)
    ensures ChansOk(st')
  {
    SelectRetunes(st, st', p, b);
    RetuneChans(st, st', p);
  }

  lemma KeepsPark(st: State, st': State, p: ProcId)
    requires Inv(st) && Park(st, st', p)
    ensures Inv(st')
  {
    QueueMoves(st, st', p, 0);
    SelectChans(st, st', p, false);
    OnlyWaitMove(st, st', p);
  }

  lemma KeepsSelect(st: State, st': State, p: ProcId, b: bool)
    requires Inv(st) && (ReceiveClosed(st, st', p) || LeaveWait(st, st', p, b))
    ensures Inv(st')
  {
    SelectMoves(st, st', p, b);
    SelectChans(st, st', p, b);
    OnlyWaitMove(st, st', p);
  }

  // ---- leaving the queue ----

  lemma WithoutValues<T>(q: seq<Elem<T>>, e: ElemId, next: ElemId)
    requires Distinct(q, next)
    ensures Values(Without(q, e)) <= Values(q)
  {
    WithoutIs(q, e, next);
    forall v | v in Values(Without(q, e)) ensures v in Values(q) {
      var i :| 0 <= i < |Without(q, e)| && Without(q, e)[i].value == v;
      assert Without(q, e)[i] in q;
    }
  }

  lemma LeaveUsers(st: State, st': State, p: ProcId)
    requires UsersOk(st) && LeaveQueue(st, st', p) && Values(st'.pool.waitQ) <= Values(st.pool.waitQ)
    ensures UsersOk(st')
  {
    forall q | q in st'.procs ensures UserOk(st', q, st'.procs[q]) { assert UserOk(st, q, st.procs[q]); }
    forall c | c in st'.pool.chans && st'.pool.chans[c].receiver.Some?
      ensures ParkedOn(st'.procs, st'.pool.chans[c].receiver.value, c) {
      assert ParkedOn(st.procs, st.pool.chans[c].receiver.value, c);
    }
    UsersMove(st, st', p);
  }

  lemma LeaveWaiters(st: State, st': State, p: ProcId)
    requires WaitersOk(st) && QueueOk(st.pool) && LeaveQueue(st, st', p)
    ensures WaitersOk(st')
  {
    WithoutIs(st.pool.waitQ, st.procs[p].el, st.pool.nextElem);
    if !st.pool.done {
      forall k | 0 <= k < |st'.pool.waitQ| ensures HasWaiter(st'.procs, st'.pool.waitQ[k]) {
        assert st'.pool.waitQ[k] in st.pool.waitQ && st'.pool.waitQ[k].id != st.procs[p].el;
        WaiterFrame(st, st', p, st'.pool.waitQ[k]);
      }
    }
  }

  lemma LeaveChans(st: State, st': State, p: ProcId)
    requires ChansOk(st) && LeaveQueue(st, st', p)
    ensures ChansOk(st')
  {
    DequeueKeepsQueue(st.pool, st.procs[p].el);
    WithoutValues(st.pool.waitQ, st.procs[p].el, st.pool.nextElem);
    LeaveUsers(st, st', p);
    LeaveWaiters(st, st', p);
  }

  lemma KeepsLeaveQueue(st: State, st': State, p: ProcId)
    requires Inv(st) && LeaveQueue(st, st', p)
    ensures Inv(st')
  {
    QueueMoves(st, st', p, 0);
    LeaveChans(st, st', p);
    OnlyWaitMove(st, st', p);
  }

  // ---- recycling the channel ----

  lemma RecycleUsers(st: State, st': State, p: ProcId)
    requires UsersOk(st) && PutBackChan(st, st', p)
    ensures UsersOk(st')
  {
    forall q | q in st'.procs ensures UserOk(st', q, st'.procs[q]) {
      assert UserOk(st, q, st.procs[q]);
      if q != p { assert !SameWaits(st.procs[q], st.procs[p]); }
    }
    forall c | c in st'.pool.chans && st'.pool.chans[c].receiver.Some?
      ensures ParkedOn(st'.procs, st'.pool.chans[c].receiver.value, c) {
      assert ParkedOn(st.procs, st.pool.chans[c].receiver.value, c);
    }
    UsersMove(st, st', p);
  }

  lemma RecycleChans(st: State, st': State, p: ProcId)
    requires ChansOk(st) && PutBackChan(st, st', p)
    ensures ChansOk(st')
  {
    RecycleUsers(st, st', p);
    assert UserOk(st, p, st.procs[p]);
    if !st.pool.done {
      forall k | 0 <= k < |st'.pool.waitQ| ensures HasWaiter(st'.procs, st'.pool.waitQ[k]) {
        WaiterFrame(st, st', p, st.pool.waitQ[k]);
      }
    }
  }

  lemma KeepsPutBackChan(st: State, st': State, p: ProcId)
    requires Inv(st) && PutBackChan(st, st', p)
    ensures Inv(st')
  {
    PutBackMoves(st, st', p);
    RecycleChans(st, st', p);
    OnlyWaitMove(st, st', p);
  }
}
