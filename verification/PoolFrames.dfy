/** Frame lemmas: what a change of one goroutine's position leaves of each part of the invariant. */
module PoolFrames {
  import opened SessionPool
  import opened PoolProtocol
  import opened PoolInvariant

  function One(b: bool): nat { if b then 1 else 0 }

  lemma CardSwap(a: set<ProcId>, b: set<ProcId>, p: ProcId)
    requires forall q :: q != p ==> (q in a <==> q in b)
    ensures |b| == |a| - One(p in a) + One(p in b)
  {
    assert |a - {p}| == |a| - One(p in a) && |b - {p}| == |b| - One(p in b);
    assert a - {p} == b - {p};
  }

  lemma CountMove(procs: map<ProcId, Pc>, p: ProcId, pc: Pc)
    ensures |Counted(procs[p := pc])| == |Counted(procs)| - One(p in procs && Counts(procs[p])) + One(Counts(pc))
    ensures |CountedTwice(procs[p := pc])|
         == |CountedTwice(procs)| - One(p in procs && CountsTwice(procs[p])) + One(CountsTwice(pc))
  {
    CardSwap(Counted(procs), Counted(procs[p := pc]), p);
    CardSwap(CountedTwice(procs), CountedTwice(procs[p := pc]), p);
  }

  /** Where `p` is; a goroutine that does not exist yet is at rest. */
  function Was(st: State, p: ProcId): Pc { if p in st.procs then st.procs[p] else Rest }

  /** Goroutine `p` is the only one that moves or starts. */
  predicate Moves(st: State, st': State, p: ProcId) {
    && (p in st.procs || p == st.nextProc) && p in st'.procs
    && st'.procs == st.procs[p := st'.procs[p]]
    && st'.nextProc == (if p in st.procs then st.nextProc else p + 1)
  }

  predicate InCall(pc: Pc) { pc.Await? || pc.Build? || pc.Offer? }

  predicate InHooks(pc: Pc) { pc.Close? && (pc.stage == RunHooks || pc.stage == LeaveOnce) }

  predicate IsCollector(pc: Pc) { pc.Close? && pc.who == Collector }

  /** Nothing that counts towards the limit is added. */
  predicate SameLimit(st: State, st': State, p: ProcId) {
    && Moves(st, st', p)
    && Counts(Was(st, p)) == Counts(st'.procs[p]) && CountsTwice(Was(st, p)) == CountsTwice(st'.procs[p])
    && st'.pool.createInProgress == st.pool.createInProgress
    && |st'.pool.index| <= |st.pool.index|
    && st'.pool.limit == st.pool.limit && st'.pool.done == st.pool.done && st'.cfg == st.cfg
  }

  lemma LimitFrame(st: State, st': State, p: ProcId)
    requires LimitOk(st) && SameLimit(st, st', p)
    ensures LimitOk(st')
  {
    CountMove(st.procs, p, st'.procs[p]);
  }

  lemma WaiterFrame(st: State, st': State, p: ProcId, e: Elem<ChanId>)
    requires Moves(st, st', p) && HasWaiter(st.procs, e)
    requires InQueue(Was(st, p)) && Was(st, p).el == e.id && Was(st, p).ch == e.value ==>
      InQueue(st'.procs[p]) && st'.procs[p].el == e.id && st'.procs[p].ch == e.value
    ensures HasWaiter(st'.procs, e)
  {
    var q :| q in st.procs && InQueue(st.procs[q]) && st.procs[q].el == e.id && st.procs[q].ch == e.value;
    assert q in st'.procs && InQueue(st'.procs[q]);
  }

  /** The channels, the queue and the recycled channels are as they were. */
  predicate SameChans(st: State, st': State, p: ProcId) {
    && Moves(st, st', p)
    && Waits(Was(st, p)).None? && Waits(st'.procs[p]).None?
    && st'.pool.waitQ == st.pool.waitQ && st'.pool.chans == st.pool.chans && st'.pool.done == st.pool.done
    && st'.pool.nextElem >= st.pool.nextElem
    && st'.recycled == st.recycled && st'.nextChan == st.nextChan
  }

  ghost predicate Unused(st: State, ch: ChanId) {
    forall q :: q in st.procs ==> Waits(st.procs[q]) != Some(ch)
  }

  lemma UsersMove(st: State, st': State, p: ProcId)
    requires UsersOk(st) && Moves(st, st', p)
    requires forall q :: q in st'.procs ==> UserOk(st', q, st'.procs[q])
    requires Waits(st'.procs[p]) == Waits(Was(st, p)) || Waits(st'.procs[p]).None? || Unused(st, Waits(st'.procs[p]).value)
    requires forall ch :: ch in st'.pool.chans && st'.pool.chans[ch].receiver.Some? ==>
      ParkedOn(st'.procs, st'.pool.chans[ch].receiver.value, ch)
    ensures UsersOk(st')
  {}

  lemma UsersFrame(st: State, st': State, p: ProcId)
    requires UsersOk(st) && SameChans(st, st', p)
    ensures UsersOk(st')
  {
    forall ch | ch in st'.pool.chans && st'.pool.chans[ch].receiver.Some?
      ensures ParkedOn(st'.procs, st'.pool.chans[ch].receiver.value, ch) {
      assert ParkedOn(st.procs, st.pool.chans[ch].receiver.value, ch);
    }
    forall q | q in st'.procs ensures UserOk(st', q, st'.procs[q]) {
      if q in st.procs { assert UserOk(st, q, st.procs[q]); }
    }
    UsersMove(st, st', p);
  }

  lemma ChansFrame(st: State, st': State, p: ProcId)
    requires ChansOk(st) && SameChans(st, st', p)
    ensures ChansOk(st')
  {
    UsersFrame(st, st', p);
    if !st.pool.done {
      forall k | 0 <= k < |st.pool.waitQ| ensures HasWaiter(st'.procs, st.pool.waitQ[k]) {
        WaiterFrame(st, st', p, st.pool.waitQ[k]);
      }
    }
  }

  /** Creators and callers of other calls are where they were. */
  lemma OtherCalls(st: State, st': State, p: ProcId)
    requires Moves(st, st', p)
    ensures forall call {:trigger HasCreator(st'.procs, call)} ::
      HasCreator(st.procs, call) && !Creates(Was(st, p), call) ==> HasCreator(st'.procs, call)
    ensures forall call {:trigger HasCaller(st'.procs, call)} ::
      HasCaller(st.procs, call) && !(Was(st, p).Await? && Was(st, p).call == call) ==> HasCaller(st'.procs, call)
    ensures forall s: SessionId {:trigger Offered(st'.procs, s)} ::
      Offered(st.procs, s) && !(Was(st, p).Offer? && Was(st, p).built == Some(s)) ==> Offered(st'.procs, s)
    ensures forall s: SessionId {:trigger Offered(st'.procs, s)} ::
      Offered(st'.procs, s) && !(st'.procs[p].Offer? && st'.procs[p].built == Some(s)) ==> Offered(st.procs, s)
  {
    forall call | HasCreator(st.procs, call) && !Creates(Was(st, p), call) ensures HasCreator(st'.procs, call) {
      var c :| c in st.procs && Creates(st.procs[c], call);
      assert Creates(st'.procs[c], call);
    }
    forall call | HasCaller(st.procs, call) && !(Was(st, p).Await? && Was(st, p).call == call) ensures HasCaller(st'.procs, call) {
      var c :| c in st.procs && st.procs[c].Await? && st.procs[c].call == call;
      assert st'.procs[c].Await?;
    }
    forall s: SessionId | Offered(st.procs, s) && !(Was(st, p).Offer? && Was(st, p).built == Some(s)) ensures Offered(st'.procs, s) {
      var c :| c in st.procs && st.procs[c].Offer? && st.procs[c].built == Some(s);
      assert st'.procs[c].Offer?;
    }
  }

  /** No creation call is concerned. */
  ghost predicate SameCalls(st: State, st': State, p: ProcId) {
    && Moves(st, st', p)
    && !InCall(Was(st, p)) && !InCall(st'.procs[p])
    && (st.pool.done ==> st'.pool.done)
    && st.cancelled == st'.cancelled && st.nextCall == st'.nextCall
    && st'.sess.Keys == st.sess.Keys
    && (forall s :: s in st.sess ==>
          st'.sess[s].deliveries == st.sess[s].deliveries && st'.sess[s].discards == st.sess[s].discards)
  }

  lemma CallsFrame(st: State, st': State, p: ProcId)
    requires CallsOk(st) && SameCalls(st, st', p)
    ensures CallsOk(st')
  {
    OtherCalls(st, st', p);
  }

  /** Nobody lets go of a session in the index. */
  predicate SameDrain(st: State, st': State, p: ProcId) {
    && Moves(st, st', p)
    && (Held(Was(st, p)).Some? && Held(Was(st, p)).value in st.pool.index ==> Held(st'.procs[p]) == Held(Was(st, p)))
    && (IsCollector(Was(st, p)) && Was(st, p).s in st.pool.index ==> Collects(st'.procs[p], Was(st, p).s))
    && st'.pool.index == st.pool.index && st'.pool.idle == st.pool.idle && st'.pool.done == st.pool.done
  }

  lemma DrainFrame(st: State, st': State, p: ProcId)
    requires DrainOk(st) && IdleOk(st.pool) && SameDrain(st, st', p)
    ensures DrainOk(st')
  {
    forall s | s in st.pool.index && IsHeld(st.procs, s) ensures IsHeld(st'.procs, s) {
      var q :| q in st.procs && Held(st.procs[q]) == Some(s);
      assert Held(st'.procs[q]) == Some(s);
    }
    forall s | s in st.pool.index && IsCollected(st.procs, s) ensures IsCollected(st'.procs, s) {
      var q :| q in st.procs && Collects(st.procs[q], s);
      assert Collects(st'.procs[q], s);
    }
  }

  lemma IdleFrame(pool: Pool, pool': Pool)
    requires IdleOk(pool)
    requires pool'.idle == pool.idle && pool'.index == pool.index && pool'.nextElem >= pool.nextElem
    ensures IdleOk(pool')
  {}

  /** A session without the record of its creation. */
  function Core(x: Session): Session { x.(deliveries := 0, discards := 0) }

  ghost predicate SameCores(a: map<SessionId, Session>, b: map<SessionId, Session>) {
    a.Keys == b.Keys && forall s :: s in a ==> Core(a[s]) == Core(b[s])
  }

  /** No session changes, enters or leaves the index. */
  ghost predicate SameSess(st: State, st': State, p: ProcId) {
    && Moves(st, st', p)
    && !Was(st, p).AddHook? && !st'.procs[p].AddHook? && !InHooks(Was(st, p)) && !InHooks(st'.procs[p])
    && st'.pool.index.Keys == st.pool.index.Keys && SameCores(st.sess, st'.sess) && st'.nextSession == st.nextSession
  }

  lemma SessFrame(st: State, st': State, p: ProcId)
    requires SessOk(st) && SameSess(st, st', p)
    ensures SessOk(st')
  {
    forall s | s in st'.sess ensures SessionOk(st', s, st'.sess[s]) {
      assert SessionOk(st, s, st.sess[s]);
      assert Core(st.sess[s]) == Core(st'.sess[s]);
      if q :| q in st.procs && AddsHook(st.procs[q], s) {
        assert AddsHook(st'.procs[q], s);
      }
    }
  }

  /** No session gains a collector. */
  predicate NoNewCollector(a: Pc, b: Pc) { IsCollector(b) ==> IsCollector(a) && a.s == b.s }

  lemma SafeFrame(st: State, st': State, p: ProcId, s: SessionId)
    requires Moves(st, st', p) && Safe(st, s)
    requires NoNewCollector(Was(st, p), st'.procs[p])
    requires s in st'.sess && st'.sess[s].hooked && st'.sess[s].once == NotStarted
    ensures Safe(st', s)
  {
    forall q | q in st'.procs ensures !Collects(st'.procs[q], s) {
      if q in st.procs { assert !Collects(st.procs[q], s); }
    }
  }

  ghost predicate Free(st: State, s: SessionId) {
    forall q :: q in st.procs ==> Held(st.procs[q]) != Some(s)
  }

  /** A session that goroutine `p` gets was nobody's, and `p`'s position fits it. */
  ghost predicate SameProcs(st: State, st': State, p: ProcId) {
    && Moves(st, st', p)
    && NoNewCollector(Was(st, p), st'.procs[p])
    && (Held(st'.procs[p]).Some? && Held(st'.procs[p]) != Held(Was(st, p)) ==>
          && Free(st, Held(st'.procs[p]).value)
          && (Held(st'.procs[p]).value in st.pool.index ==> st.pool.index[Held(st'.procs[p]).value].idle == None))
    && PcOk(st', p, st'.procs[p])
    && st'.pool.index == st.pool.index && SameCores(st.sess, st'.sess)
  }

  lemma PcFrame(st: State, st': State, p: ProcId, q: ProcId, pc: Pc)
    requires PcOk(st, q, pc) && Moves(st, st', p)
    requires NoNewCollector(Was(st, p), st'.procs[p])
    requires st'.pool.index.Keys == st.pool.index.Keys && SameCores(st.sess, st'.sess)
    ensures PcOk(st', q, pc)
  {
    forall s | s in st.sess ensures Core(st.sess[s]) == Core(st'.sess[s]) {}
    if (pc.PutPool? || pc.PutClosed?) && Safe(st, pc.s) {
      SafeFrame(st, st', p, pc.s);
    }
  }

  lemma ProcsMove(st: State, st': State, p: ProcId)
    requires ProcsOk(st) && Moves(st, st', p)
    requires forall q :: q in st'.procs ==> PcOk(st', q, st'.procs[q])
    requires Held(st'.procs[p]) == Held(Was(st, p)) || Held(st'.procs[p]).None? || Free(st, Held(st'.procs[p]).value)
    requires forall s :: s in st'.pool.index && (s in st.pool.index ==> st.pool.index[s].idle == None) ==>
      st'.pool.index[s].idle == None
    requires Held(st'.procs[p]).Some? && Held(st'.procs[p]).value in st'.pool.index ==>
      st'.pool.index[Held(st'.procs[p]).value].idle == None
    ensures ProcsOk(st')
  {}

  lemma ProcsFrame(st: State, st': State, p: ProcId)
    requires ProcsOk(st) && SameProcs(st, st', p)
    ensures ProcsOk(st')
  {
    forall q | q in st'.procs && q != p ensures PcOk(st', q, st'.procs[q]) {
      PcFrame(st, st', p, q, st.procs[q]);
    }
  }

  /** A move that concerns nobody else, except perhaps the limit. */
  ghost predicate Quiet(st: State, st': State, p: ProcId) {
    && SameChans(st, st', p) && SameCalls(st, st', p) && SameSess(st, st', p) && SameDrain(st, st', p)
    && SameProcs(st, st', p)
    && st'.pool.nextElem == st.pool.nextElem && st'.pool.fault == st.pool.fault
  }

  lemma QuietMove(st: State, st': State, p: ProcId)
    requires Inv(st) && Quiet(st, st', p) && LimitOk(st')
    ensures Inv(st')
  {
    ChansFrame(st, st', p);
    CallsFrame(st, st', p);
    DrainFrame(st, st', p);
    SessFrame(st, st', p);
    ProcsFrame(st, st', p);
  }

  lemma NeutralMove(st: State, st': State, p: ProcId)
    requires Inv(st) && Quiet(st, st', p) && SameLimit(st, st', p)
    ensures Inv(st')
  {
    LimitFrame(st, st', p);
    QuietMove(st, st', p);
  }
}
