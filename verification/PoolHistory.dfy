/** What the steps of the pool do to its sessions and waiters, and what stays so over runs: the
    order in which they are served and the time at which a session was put. */
module PoolHistory {
  import opened SessionPool
  import opened PoolProtocol
  import opened PoolInvariant
  import opened PoolLists
  import opened PoolClosing
  import opened PoolServe
  import opened PoolShutdown
  import opened PoolSafety
  import opened PoolDrain

  // ---- what a step does to the lists ----

  /** A list loses one element, some at its front, or gets a new one at its end. */
  ghost predicate ListStep<T>(l: seq<Elem<T>>, m: seq<Elem<T>>, next: ElemId, next': ElemId) {
    || m == l
    || (exists i :: 0 <= i < |l| && m == l[..i] + l[i + 1..])
    || (exists n :: 0 <= n <= |l| && m == l[n..])
    || (next' == next + 1 && |m| == |l| + 1 && m[..|l|] == l && m[|l|].id == next)
  }

  /** An index entry that names an old list element is an old entry. */
  ghost predicate EntryStep(p: Pool, q: Pool) {
    forall x :: x in q.index && q.index[x].idle.Some? && q.index[x].idle.value < p.nextElem ==>
      x in p.index && p.index[x] == q.index[x]
  }

  ghost predicate PoolStep(p: Pool, q: Pool) {
    && q.nextElem >= p.nextElem
    && ListStep(p.idle, q.idle, p.nextElem, q.nextElem)
    && ListStep(p.waitQ, q.waitQ, p.nextElem, q.nextElem)
    && EntryStep(p, q)
  }

  predicate SameLists(p: Pool, q: Pool) {
    q.idle == p.idle && q.index == p.index && q.waitQ == p.waitQ && q.nextElem == p.nextElem
  }

  /** Removing an element leaves the others in their order. */
  lemma {:induction false} WithoutAt<T>(l: seq<Elem<T>>, e: ElemId) returns (i: nat)
    ensures i <= |l| && (forall j :: 0 <= j < i ==> l[j].id != e)
    ensures i == |l| ==> Without(l, e) == l
    ensures i < |l| ==> l[i].id == e && Without(l, e) == l[..i] + l[i + 1..]
  {
    i := 0;
    if l != [] && l[0].id != e {
      var t := l[1..];
      var k := WithoutAt(t, e);
      i := k + 1;
      if k < |t| { assert [l[0]] + (t[..k] + t[k + 1..]) == l[..i] + l[i + 1..]; }
    }
  }

  lemma WithoutOne<T>(l: seq<Elem<T>>, e: ElemId, next: ElemId)
    ensures ListStep(l, Without(l, e), next, next)
  {
    var i := WithoutAt(l, e);
  }

  lemma PopIs(p: Pool)
    requires IdleOk(p)
    ensures PoolStep(p, PopFirstIdle(p).0)
  {
    PopKeepsIdle(p);
    if p.idle != [] { assert p.idle[1..] == p.idle[1..]; }
  }

  lemma NotifyIs(p: Pool) returns (n: nat)
    requires QueueOk(p) && !p.done
    ensures n <= |p.waitQ|
    ensures var (q, to) := Notify(p);
      q == p.(chans := q.chans, waitQ := p.waitQ[n..], fault := p.fault) && Served(p.chans, p.waitQ, to, n, q.chans, q.waitQ)
  {
    n := ServeIs(p.chans, p.waitQ);
  }

  lemma HooksStep(p: Pool, s: SessionId)
    requires QueueOk(p) && s in p.index
    ensures PoolStep(p, Unregister(p, s).0)
  {
    var q := p.(index := p.index - {s});
    var r := if p.done then q else Notify(q).0;
    if !p.done { var n := NotifyIs(q); }
    if p.index[s].idle.Some? { WithoutOne(p.idle, p.index[s].idle.value, p.nextElem); }
  }

  lemma StoreStep(p: Pool, s: SessionId, now: int)
    requires QueueOk(p) && IdleOk(p) && s in p.index && p.index[s].idle.None?
    requires p.done ==> p.limit == 0
    ensures PoolStep(p, PutLocked(p, s, now).0)
  {
    if |p.idle| < p.limit { var n := NotifyIs(p); }
  }

  lemma QueueStep(p: Pool, ch: ChanId)
    ensures PoolStep(p, Enqueue(p, ch))
  {
    assert Enqueue(p, ch).waitQ == p.waitQ + [Elem(p.nextElem, ch)];
  }

  lemma LeaveStep(p: Pool, el: ElemId)
    ensures PoolStep(p, Dequeue(p, el))
  {
    WithoutOne(p.waitQ, el, p.nextElem);
  }

  // ---- every step ----

  lemma SameStep(p: Pool, q: Pool)
    requires SameLists(p, q)
    ensures PoolStep(p, q)
  {}

  lemma GetHistory(st: State, st': State, p: ProcId, b: bool)
    requires IdleOk(st.pool) && GetStep(st, st', p, b)
    ensures PoolStep(st.pool, st'.pool)
  {
    if PopIdle(st, st', p) { PopIs(st.pool); }
    else if CheckSize(st, st', p) { SameStep(st.pool, st'.pool); }
    else { SameStep(st.pool, st'.pool); }
  }

  lemma RegisterStep(st: State, st': State, p: ProcId, now: int)
    requires RunOnCreate(st, st', p, now)
    ensures PoolStep(st.pool, st'.pool)
  {}

  lemma CreateSame(st: State, st': State, p: ProcId, c: ProcId, b: bool, now: int)
    requires CreateStep(st, st', p, c, b, now) && !RunOnCreate(st, st', p, now)
    ensures SameLists(st.pool, st'.pool)
  {}

  lemma WaitHistory(st: State, st': State, p: ProcId, ch: ChanId, b: bool)
    requires WaitStep(st, st', p, ch, b)
    ensures PoolStep(st.pool, st'.pool)
  {
    if JoinQueue(st, st', p, ch) { QueueStep(st.pool, ch); }
    else if LeaveQueue(st, st', p) { LeaveStep(st.pool, st.procs[p].el); }
    else { SelectSame(st, st', p, b); SameStep(st.pool, st'.pool); }
  }

  lemma SelectSame(st: State, st': State, p: ProcId, b: bool)
    requires Park(st, st', p) || ReceiveClosed(st, st', p) || LeaveWait(st, st', p, b) || PutBackChan(st, st', p)
    ensures SameLists(st.pool, st'.pool)
  {}

  lemma PutHistory(st: State, st': State, p: ProcId, b: bool, now: int)
    requires Inv(st) && PutStep(st, st', p, b, now)
    ensures PoolStep(st.pool, st'.pool)
  {
    if PutStore(st, st', p, now) {
      PcFacts(st, p);
      SafeIsBusy(st, p, st.procs[p].s);
      StoreStep(st.pool, st.procs[p].s, now);
      StoreIs(st, st', p, now);
    } else {
      SameStep(st.pool, st'.pool);
    }
  }

  lemma StoreIs(st: State, st': State, p: ProcId, now: int)
    requires PutStore(st, st', p, now)
    ensures st'.pool == PutLocked(st.pool, st.procs[p].s, now).0
  {}

  lemma CloseHistory(st: State, st': State, p: ProcId)
    requires ProcsOk(st) && SessOk(st) && QueueOk(st.pool) && CloseStep(st, st', p)
    ensures PoolStep(st.pool, st'.pool)
  {
    if CloseHooks(st, st', p) {
      PcFacts(st, p);
      var s := st.procs[p].s;
      assert SessionOk(st, s, st.sess[s]);
      if st.sess[s].hooked { HooksStep(st.pool, s); } else { SameStep(st.pool, st'.pool); }
    } else {
      SameStep(st.pool, st'.pool);
    }
  }

  lemma SystemHistory(st: State, st': State, n: nat, now: int, threshold: int)
    requires Inv(st) && SystemStep(st, st', n, now, threshold)
    ensures PoolStep(st.pool, st'.pool)
  {
    if CollectorTick(st, st', now, threshold) {
      ExpiredIs(st.pool.index, st.pool.idle, now, threshold);
      StartedPool(st, Expired(st.pool.index, st.pool.idle, now, threshold).0);
      SameStep(st.pool, st'.pool);
    } else if CloseClient(st, st') {
      SameStep(st.pool, st'.pool);
    } else {
      SameStep(st.pool, st'.pool);
    }
  }

  lemma {:induction false} StartedPool(st: State, ss: seq<SessionId>)
    ensures StartClosers(st, ss).pool == st.pool
    decreases |ss|
  {
    if ss != [] { StartedPool(StartCloser(st, ss[0]), ss[1..]); }
  }

  lemma StepHistory(st: State, st': State, l: Label)
    requires Inv(st) && Step(st, st', l)
    ensures PoolStep(st.pool, st'.pool)
  {
    match l
    case LGet(p, b) => GetHistory(st, st', p, b);
    case LCreate(p, c, b, now) =>
      if RunOnCreate(st, st', p, now) { RegisterStep(st, st', p, now); }
      else { CreateSame(st, st', p, c, b, now); SameStep(st.pool, st'.pool); }
    case LWait(p, ch, b) => WaitHistory(st, st', p, ch, b);
    case LPut(p, b, now) => PutHistory(st, st', p, b, now);
    case LClose(p) => CloseHistory(st, st', p);
    case LSystem(n, now, threshold) => SystemHistory(st, st', n, now, threshold);
  }

  // ---- order ----

  /** The elements are in the order in which they were added. */
  ghost predicate Ascending<T>(l: seq<Elem<T>>) { forall i, j :: 0 <= i < j < |l| ==> l[i].id < l[j].id }

  lemma AscendsWithout<T>(l: seq<Elem<T>>, i: nat)
    requires Ascending(l) && i < |l|
    ensures Ascending(l[..i] + l[i + 1..])
  {
    var m := l[..i] + l[i + 1..];
    forall a, b | 0 <= a < b < |m| ensures m[a].id < m[b].id {
      assert m[a] == (if a < i then l[a] else l[a + 1]) && m[b] == (if b < i then l[b] else l[b + 1]);
    }
  }

  lemma AscendsMore<T>(l: seq<Elem<T>>, m: seq<Elem<T>>)
    requires Ascending(l) && |m| == |l| + 1 && m[..|l|] == l && forall j :: 0 <= j < |l| ==> l[j].id < m[|l|].id
    ensures Ascending(m)
  {
    assert forall a :: 0 <= a < |l| ==> m[a] == m[..|l|][a];
  }

  lemma ListAscends<T>(l: seq<Elem<T>>, m: seq<Elem<T>>, next: ElemId, next': ElemId)
    requires Ascending(l) && ListStep(l, m, next, next') && forall j :: 0 <= j < |l| ==> l[j].id < next
    ensures Ascending(m)
  {
    if i :| 0 <= i < |l| && m == l[..i] + l[i + 1..] {
      AscendsWithout(l, i);
    } else if n :| 0 <= n <= |l| && m == l[n..] {
    } else if m != l {
      AscendsMore(l, m);
    }
  }

  /** Sessions are idle, and waiters queue, in the order in which they came. */
  lemma {:induction false} InOrder(r: Run)
    requires IsRun(r)
    ensures Ascending(r.st.pool.idle) && Ascending(r.st.pool.waitQ)
  {
    if r.Then? {
      var p, q := r.before.st.pool, r.st.pool;
      InOrder(r.before);
      RunKeeps(r.before);
      StepHistory(r.before.st, r.st, r.l);
      ListAscends(p.idle, q.idle, p.nextElem, q.nextElem);
      ListAscends(p.waitQ, q.waitQ, p.nextElem, q.nextElem);
    }
  }

  // ---- the time of a put ----

  /** While a session stays on the idle list, its index entry stays as it is. */
  lemma {:induction false} EntryStays(r: Run, s: Run, x: SessionId, e: ElemId)
    requires IsRun(r) && IsRun(s) && Continues(r, s) && e < r.st.pool.nextElem
    requires x in s.st.pool.index && s.st.pool.index[x].idle == Some(e)
    ensures r.st.pool.nextElem <= s.st.pool.nextElem
    ensures x in r.st.pool.index && r.st.pool.index[x] == s.st.pool.index[x]
    decreases s
  {
    if s != r {
      Grows(r, s.before);
      RunKeeps(s.before);
      StepHistory(s.before.st, s.st, s.l);
      EntryStays(r, s.before, x, e);
    }
  }

  lemma {:induction false} Grows(r: Run, s: Run)
    requires IsRun(s) && Continues(r, s)
    ensures r.st.pool.nextElem <= s.st.pool.nextElem
    decreases s
  {
    if s != r {
      Grows(r, s.before);
      RunKeeps(s.before);
      StepHistory(s.before.st, s.st, s.l);
    }
  }

  /** The k-th session for which a closer is started gets the k-th new goroutine. */
  lemma {:induction false} StartedAt(st: State, ss: seq<SessionId>, k: nat)
    requires k < |ss|
    ensures At(StartClosers(st, ss), st.nextProc + k, Close(CheckClosed, ss[k], Collector))
    decreases |ss|
  {
    var next := StartCloser(st, ss[0]);
    if k == 0 { StartersStay(next, ss[1..], st.nextProc); } else { StartedAt(next, ss[1..], k - 1); }
  }

  lemma {:induction false} StartedOnly(st: State, ss: seq<SessionId>, p: ProcId)
    requires p in StartClosers(st, ss).procs && p !in st.procs
    ensures st.nextProc <= p < st.nextProc + |ss|
    decreases |ss|
  {
    if ss != [] {
      var next := StartCloser(st, ss[0]);
      if p !in next.procs { StartedOnly(next, ss[1..], p); }
    }
  }

  /** A new goroutine closes the session for the collector. */
  ghost predicate StartsClosing(st: State, st': State, x: SessionId) {
    exists q :: q !in st.procs && q in st'.procs && st'.procs[q] == Close(CheckClosed, x, Collector)
  }

  /** A collector tick starts to close exactly the idle sessions that were touched longer ago
      than the threshold, and its new goroutines do nothing else. */
  lemma TickCloses(st: State, st': State, now: int, threshold: int, x: SessionId)
    requires Inv(st) && CollectorTick(st, st', now, threshold)
    ensures StartsClosing(st, st', x) <==>
      x in st.pool.index && st.pool.index[x].idle.Some? && now - st.pool.index[x].touched > threshold
  {
    var ss := Expired(st.pool.index, st.pool.idle, now, threshold).0;
    ExpiredIs(st.pool.index, st.pool.idle, now, threshold);
    ClosersAre(st, ss, x);
    IdleOnce(st.pool, x);
  }

  lemma ClosersAre(st: State, ss: seq<SessionId>, x: SessionId)
    requires forall p :: p in st.procs ==> p < st.nextProc
    ensures StartsClosing(st, StartClosers(st, ss), x) <==> x in ss
  {
    var st' := StartClosers(st, ss);
    if x in ss {
      var k :| 0 <= k < |ss| && ss[k] == x;
      StartedAt(st, ss, k);
      assert st.nextProc + k !in st.procs;
    }
    if q :| q !in st.procs && q in st'.procs && st'.procs[q] == Close(CheckClosed, x, Collector) {
      StartedOnly(st, ss, q);
      StartedAt(st, ss, q - st.nextProc);
    }
  }

  // ---- Put ----

  /** No waiter before the n-th is at its select. */
  ghost predicate NoneParked(pool: Pool, n: nat) {
    forall k :: 0 <= k < n && k < |pool.waitQ| ==>
      pool.waitQ[k].value in pool.chans && pool.chans[pool.waitQ[k].value].receiver.None?
  }

  /** The n-th waiter is the first at its select, and it is goroutine `w`. */
  ghost predicate FirstParked(pool: Pool, n: nat, w: ProcId) {
    && NoneParked(pool, n) && n < |pool.waitQ| && pool.waitQ[n].value in pool.chans
    && pool.chans[pool.waitQ[n].value].receiver == Some(w)
  }

  /** A session is stored: it is the last idle one, touched now, and nothing else is. */
  ghost predicate StoredLast(p: Pool, q: Pool, s: SessionId, now: int) {
    && |q.idle| == |p.idle| + 1 && q.idle[..|p.idle|] == p.idle && q.idle[|p.idle|].value == s
    && s in q.index && q.index[s].touched == now && q.index[s].idle == Some(q.idle[|p.idle|].id)
    && q.index.Keys == p.index.Keys && forall x :: x in p.index && x != s ==> q.index[x] == p.index[x]
  }

  /** The n-th waiter `w` receives `got`, and those before it leave the queue. */
  predicate Receives(st: State, st': State, got: Option<SessionId>, n: nat, w: ProcId) {
    && n < |st.pool.waitQ| && w in st.procs && st.procs[w].Parked?
    && At(st', w, Recycle(st.procs[w].i, st.pool.waitQ[n].value, got)) && st'.pool.waitQ == st.pool.waitQ[n + 1..]
  }

  predicate HandedTo(st: State, st': State, got: Option<SessionId>, n: nat, w: ProcId) {
    Receives(st, st', got, n, w) && st'.pool.idle == st.pool.idle && st'.pool.index == st.pool.index
  }

  /** Put closes the session when the client is closed, hands it to the first waiter at its
      select when there is one, and else stores it; waiters that missed their turn leave. */
  lemma PutDoes(r: Run, st': State, p: ProcId, s: SessionId, now: int)
    requires IsRun(r) && At(r.st, p, PutPool(s)) && PutStore(r.st, st', p, now)
    ensures r.st.pool.done ==> st' == Move(r.st, p, Close(CheckClosed, s, Putter))
    ensures !r.st.pool.done ==> At(st', p, Rest)
    ensures forall n: nat, w :: !r.st.pool.done && FirstParked(r.st.pool, n, w) ==> HandedTo(r.st, st', Some(s), n, w)
    ensures !r.st.pool.done && NoneParked(r.st.pool, |r.st.pool.waitQ|) ==>
      StoredLast(r.st.pool, st'.pool, s, now) && st'.pool.waitQ == []
  {
    RunKeeps(r);
    PutNeverOverflows(r, p, s, now);
    SafeIsBusy(r.st, p, s);
    if !r.st.pool.done {
      PutStays(r.st, st', p, s, now);
      forall n: nat, w | FirstParked(r.st.pool, n, w) ensures HandedTo(r.st, st', Some(s), n, w) {
        PutHands(r.st, st', p, s, now, n, w);
      }
      if NoneParked(r.st.pool, |r.st.pool.waitQ|) { PutStores(r.st, st', p, s, now); }
    }
  }

  lemma PutStays(st: State, st': State, p: ProcId, s: SessionId, now: int)
    requires ChansOk(st) && At(st, p, PutPool(s)) && PutStore(st, st', p, now) && |st.pool.idle| < st.pool.limit && !st.pool.done
    ensures At(st', p, Rest)
  {
    var m := NotifyIs(st.pool);
    var to := Notify(st.pool).1;
    if to.Some? { assert ParkedOn(st.procs, to.value, st.pool.waitQ[m - 1].value); }
  }

  lemma PutMoves(st: State, st': State, p: ProcId, s: SessionId, now: int, w: ProcId)
    requires At(st, p, PutPool(s)) && PutStore(st, st', p, now) && |st.pool.idle| < st.pool.limit
    requires Notify(st.pool).1 == Some(w)
    ensures st'.pool == Notify(st.pool).0 && st'.procs == HandOver(st.procs[p := Rest], Some(w), Some(s))
  {}

  lemma PutHands(st: State, st': State, p: ProcId, s: SessionId, now: int, n: nat, w: ProcId)
    requires ChansOk(st) && At(st, p, PutPool(s)) && PutStore(st, st', p, now) && !st.pool.done && |st.pool.idle| < st.pool.limit
    requires FirstParked(st.pool, n, w)
    ensures HandedTo(st, st', Some(s), n, w)
  {
    var m := NotifyIs(st.pool);
    var (q, to) := Notify(st.pool);
    ServedFirst(st.pool, q, to, m, n, w);
    PutMoves(st, st', p, s, now, w);
    ParkedThere(st, n, w);
  }

  lemma ParkedThere(st: State, n: nat, w: ProcId)
    requires UsersOk(st) && FirstParked(st.pool, n, w)
    ensures w in st.procs && st.procs[w].Parked? && st.procs[w].ch == st.pool.waitQ[n].value
  {
    assert ParkedOn(st.procs, w, st.pool.waitQ[n].value);
  }

  lemma PutStores(st: State, st': State, p: ProcId, s: SessionId, now: int)
    requires QueueOk(st.pool) && At(st, p, PutPool(s)) && PutStore(st, st', p, now) && !st.pool.done && |st.pool.idle| < st.pool.limit
    requires s in st.pool.index && st.pool.index[s].idle.None? && NoneParked(st.pool, |st.pool.waitQ|)
    ensures StoredLast(st.pool, st'.pool, s, now) && st'.pool.waitQ == []
  {
    var m := NotifyIs(st.pool);
    assert Notify(st.pool).1.None?;
  }

  lemma ServedFirst(p: Pool, q: Pool, to: Option<ProcId>, m: nat, n: nat, w: ProcId)
    requires Served(p.chans, p.waitQ, to, m, q.chans, q.waitQ) && FirstParked(p, n, w)
    ensures to == Some(w) && m == n + 1
  {
    assert p.chans[p.waitQ[n].value].receiver == Some(w);
  }

  /** A session that was put at `now` is not collected before the threshold has passed, as long
      as it is idle. */
  lemma PutIsFresh(r: Run, s: Run, st': State, x: SessionId, now: int, t: int, threshold: int)
    requires IsRun(s) && Continues(r, s) && r.Then? && IsRun(r)
    requires StoredLast(r.before.st.pool, r.st.pool, x, now)
    requires x in s.st.pool.index && s.st.pool.index[x].idle == r.st.pool.index[x].idle
    requires CollectorTick(s.st, st', t, threshold)
    ensures StartsClosing(s.st, st', x) <==> t - now > threshold
  {
    RunKeeps(s);
    ElemIsOld(r, x);
    EntryStays(r, s, x, r.st.pool.index[x].idle.value);
    TickCloses(s.st, st', t, threshold, x);
  }

  lemma ElemIsOld(r: Run, x: SessionId)
    requires IsRun(r) && x in r.st.pool.index && r.st.pool.index[x].idle.Some?
    ensures r.st.pool.index[x].idle.value < r.st.pool.nextElem
  {
    RunKeeps(r);
    OldElem(r.st.pool, x);
  }

  lemma OldElem(p: Pool, x: SessionId)
    requires IdleOk(p) && x in p.index && p.index[x].idle.Some?
    ensures p.index[x].idle.value < p.nextElem
  {
    assert Elem(p.index[x].idle.value, x) in p.idle;
  }

  // ---- Get ----

  /** Get takes the session that has been idle longest. */
  lemma GetTakesFirst(r: Run, st': State, p: ProcId)
    requires IsRun(r) && PopIdle(r.st, st', p)
    ensures r.st.pool.idle == [] ==> st' == Move(r.st, p, CreateTop(r.st.procs[p].i))
    ensures r.st.pool.idle != [] ==>
      && At(st', p, GotIdle(r.st.procs[p].i, r.st.pool.idle[0].value)) && st'.pool.idle == r.st.pool.idle[1..]
      && forall j :: 0 < j < |r.st.pool.idle| ==> r.st.pool.idle[0].id < r.st.pool.idle[j].id
  {
    RunKeeps(r);
    InOrder(r);
    PopKeepsIdle(r.st.pool);
  }

  /** A session whose node is gone is closed and not lent. */
  lemma NodeDecides(st: State, st': State, p: ProcId, i: nat, s: SessionId, hasNode: bool)
    requires At(st, p, GotIdle(i, s)) && Step(st, st', LGet(p, hasNode))
    ensures st' == Move(st, p, if hasNode then Borrowed(s) else Close(CheckClosed, s, Getter(i)))
  {}

  /** How many turns of its loop a goroutine in Get has begun. */
  function Tries(pc: Pc): nat {
    match pc
    case GetTop(i) => i
    case GetPop(i) => i
    case GotIdle(i, _) => i
    case CreateTop(i) => i
    case Reserve(i) => i
    case Spawn(i) => i
    case Await(i, _) => i
    case OnCreate(i, _) => i
    case AddHook(i, _) => i
    case Decrement(i, _) => i
    case Join(i) => i
    case Queued(i, _, _) => i
    case Parked(i, _, _) => i
    case Leaving(i, _, _, _) => i
    case Recycle(i, _, _) => i
    case Close(_, _, Getter(i)) => i
    case _ => 0
  }

  ghost predicate TriesOk(st: State) { forall p :: p in st.procs ==> Tries(st.procs[p]) <= 100 }

  lemma GetTries(st: State, st': State, p: ProcId, b: bool)
    requires TriesOk(st) && GetStep(st, st', p, b)
    ensures TriesOk(st')
  {}

  lemma CallTries(st: State, st': State, p: ProcId, b: bool)
    requires TriesOk(st) && (SpawnRefused(st, st', p, b) || SpawnCreator(st, st', p) || Abandon(st, st', p, b))
    ensures TriesOk(st')
  {}

  lemma BuildTries(st: State, st': State, p: ProcId)
    requires TriesOk(st) && (BuildFails(st, st', p) || BuildDone(st, st', p) || Discard(st, st', p))
    ensures TriesOk(st')
  {}

  lemma HookTries(st: State, st': State, p: ProcId, now: int)
    requires TriesOk(st) && (RunOnCreate(st, st', p, now) || AppendHook(st, st', p) || FinishCreate(st, st', p))
    ensures TriesOk(st')
  {}

  lemma DeliverTries(st: State, st': State, p: ProcId, c: ProcId, b: bool)
    requires TriesOk(st) && Deliver(st, st', p, c, b)
    ensures TriesOk(st')
  {}

  lemma CreateTries(st: State, st': State, p: ProcId, c: ProcId, b: bool, now: int)
    requires TriesOk(st) && CreateStep(st, st', p, c, b, now)
    ensures TriesOk(st')
  {
    if Deliver(st, st', p, c, b) {
      DeliverTries(st, st', p, c, b);
    } else if SpawnRefused(st, st', p, b) || SpawnCreator(st, st', p) || Abandon(st, st', p, b) {
      CallTries(st, st', p, b);
    } else if BuildFails(st, st', p) || BuildDone(st, st', p) || Discard(st, st', p) {
      BuildTries(st, st', p);
    } else {
      HookTries(st, st', p, now);
    }
  }

  lemma WaitTries(st: State, st': State, p: ProcId, ch: ChanId, b: bool)
    requires TriesOk(st) && WaitStep(st, st', p, ch, b)
    ensures TriesOk(st')
  {}

  lemma StoreTries(st: State, st': State, p: ProcId, now: int)
    requires TriesOk(st) && PutStore(st, st', p, now)
    ensures TriesOk(st')
  {}

  lemma CheckTries(st: State, st': State, p: ProcId, b: bool)
    requires EndOperation(st, st', p) || PutCheckDone(st, st', p) || PutCheckClosing(st, st', p) || PutCheckClosed(st, st', p, b)
    requires TriesOk(st)
    ensures TriesOk(st')
  {}

  lemma PutTries(st: State, st': State, p: ProcId, b: bool, now: int)
    requires TriesOk(st) && PutStep(st, st', p, b, now)
    ensures TriesOk(st')
  {
    if PutStore(st, st', p, now) { StoreTries(st, st', p, now); } else { CheckTries(st, st', p, b); }
  }

  lemma CloseTries(st: State, st': State, p: ProcId)
    requires TriesOk(st) && CloseStep(st, st', p)
    ensures TriesOk(st')
  {}

  lemma {:induction false} StartTries(st: State, ss: seq<SessionId>)
    requires TriesOk(st)
    ensures TriesOk(StartClosers(st, ss))
    decreases |ss|
  {
    if ss != [] { StartTries(StartCloser(st, ss[0]), ss[1..]); }
  }

  lemma SystemTries(st: State, st': State, n: nat, now: int, threshold: int)
    requires TriesOk(st) && SystemStep(st, st', n, now, threshold)
    ensures TriesOk(st')
  {
    StartTries(st, Expired(st.pool.index, st.pool.idle, now, threshold).0);
    StartTries(st, Sessions(st.pool.idle));
  }

  /** Get tries at most 100 times. */
  lemma {:induction false} TriesBounded(r: Run)
    requires IsRun(r)
    ensures TriesOk(r.st)
  {
    if r.Then? {
      TriesBounded(r.before);
      var st, st' := r.before.st, r.st;
      match r.l
      case LGet(p, b) => GetTries(st, st', p, b);
      case LCreate(p, c, b, now) => CreateTries(st, st', p, c, b, now);
      case LWait(p, ch, b) => WaitTries(st, st', p, ch, b);
      case LPut(p, b, now) => PutTries(st, st', p, b, now);
      case LClose(p) => CloseTries(st, st', p);
      case LSystem(n, now, threshold) => SystemTries(st, st', n, now, threshold);
    }
  }

  /** It gives up when it has, or when the client is closed. */
  lemma GivesUpIff(r: Run, st': State, p: ProcId, i: nat, b: bool)
    requires IsRun(r) && At(r.st, p, GetTop(i)) && Step(r.st, st', LGet(p, b))
    ensures At(st', p, Rest) <==> i == 100 || r.st.pool.done
    ensures !At(st', p, Rest) ==> At(st', p, GetPop(i + 1))
  {
    TriesBounded(r);
    assert Tries(r.st.procs[p]) == i;
  }

  /** A Get that is told to try again, or that closed a session without a node, goes on with its
      loop; one that leaves its queue for its context or the client's closing returns. */
  lemma GoesOnTrying(st: State, st': State, p: ProcId, i: nat)
    requires p in st.procs
    ensures InWait(st.procs[p]) && st.procs[p].i == i && ReceiveClosed(st, st', p) ==> At(st', p, GetTop(i))
    ensures st.procs[p].Recycle? && st.procs[p].i == i && PutBackChan(st, st', p) ==>
      At(st', p, if st.procs[p].got.Some? then Borrowed(st.procs[p].got.value) else GetTop(i))
    ensures st.procs[p].Leaving? && st.procs[p].i == i && LeaveQueue(st, st', p) ==>
      At(st', p, if st.procs[p].again then GetTop(i) else Rest)
    ensures st.procs[p].Close? && st.procs[p].who == Getter(i) && CloseLeave(st, st', p) ==> At(st', p, GetTop(i))
  {}

  // ---- the checks of Put ----

  /** Put closes a session that is closing or closed or has no node; any other one it pools. */
  lemma PutChecks(st: State, st': State, p: ProcId, s: SessionId, hasNode: bool, now: int)
    requires Step(st, st', LPut(p, hasNode, now)) && s in st.sess
    ensures At(st, p, PutDone(s)) ==> st' == Move(st, p, if st.pool.done then Close(CheckClosed, s, Putter) else PutClosing(s))
    ensures At(st, p, PutClosing(s)) ==>
      st' == Move(st, p, if st.sess[s].status == Closing then Close(CheckClosed, s, Putter) else PutClosed(s))
    ensures At(st, p, PutClosed(s)) ==>
      st' == Move(st, p, if st.sess[s].status != Closed && hasNode then PutPool(s) else Close(CheckClosed, s, Putter))
  {}

  // ---- creation and closing ----

  /** A created session enters the index busy and touched now. */
  lemma CreatedIsTouched(st: State, st': State, p: ProcId, i: nat, s: SessionId, b: bool, c: ProcId, now: int)
    requires At(st, p, OnCreate(i, s)) && Step(st, st', LCreate(p, c, b, now))
    ensures s in st'.pool.index && st'.pool.index[s].touched == now && st'.pool.index[s].idle.None?
    ensures forall x :: x in st.pool.index && x != s ==> x in st'.pool.index && st'.pool.index[x] == st.pool.index[x]
    ensures st'.pool.index.Keys == st.pool.index.Keys + {s} && st'.pool.idle == st.pool.idle
  {}

  lemma HooksMove(st: State, st': State, p: ProcId, s: SessionId, who: Closer)
    requires At(st, p, Close(RunHooks, s, who)) && CloseHooks(st, st', p) && st.sess[s].hooked && s in st.pool.index && !st.pool.done
    ensures var (q, to) := Notify(st.pool.(index := st.pool.index - {s}));
      && st'.procs == HandOver(st.procs[p := Close(LeaveOnce, s, who)], to, None) && st'.pool.waitQ == q.waitQ
      && st'.pool.index == st.pool.index - {s}
  {}

  /** When a pooled session is closed while the client is open, the first waiter at its select is
      told to try again. */
  lemma CloseWakes(r: Run, st': State, p: ProcId, s: SessionId, who: Closer, n: nat, w: ProcId)
    requires IsRun(r) && At(r.st, p, Close(RunHooks, s, who)) && CloseHooks(r.st, st', p) && who != Creator && !r.st.pool.done
    requires FirstParked(r.st.pool, n, w)
    ensures Receives(r.st, st', None, n, w) && s in r.st.pool.index && st'.pool.index == r.st.pool.index - {s}
  {
    RunKeeps(r);
    CloserFacts(r.st, p);
    HooksWake(r.st, st', p, s, who, n, w);
  }

  lemma HooksWake(st: State, st': State, p: ProcId, s: SessionId, who: Closer, n: nat, w: ProcId)
    requires UsersOk(st) && QueueOk(st.pool) && At(st, p, Close(RunHooks, s, who)) && CloseHooks(st, st', p)
    requires st.sess[s].hooked && s in st.pool.index && !st.pool.done && FirstParked(st.pool, n, w)
    ensures Receives(st, st', None, n, w) && st'.pool.index == st.pool.index - {s}
  {
    HooksMove(st, st', p, s, who);
    var q := st.pool.(index := st.pool.index - {s});
    var m := NotifyIs(q);
    ServedFirst(q, Notify(q).0, Notify(q).1, m, n, w);
    ParkedThere(st, n, w);
  }
}
