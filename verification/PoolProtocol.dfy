/** The session pool as a protocol of concurrent goroutines. One step is one critical
    section of `Client.mu`, one channel rendezvous, one status access or one entry to or
    exit from a session's `closeOnce`. */
module PoolProtocol {
  import opened SessionPool

  datatype Status = Ready | Closing | Closed

  /** `closeOnce` together with the point the goroutine inside it has reached. */
  datatype Once = NotStarted | Running(proc: ProcId) | HooksRan(proc: ProcId) | Finished

  /** A session. The counters record what happened to it: how often it left the index,
      was delivered by its creator to a caller, or was closed by its creator. */
  datatype Session = Session(status: Status, once: Once, hooked: bool,
                             removals: nat, deliveries: nat, discards: nat)

  datatype Stage = CheckClosed | EnterOnce | RunHooks | LeaveOnce

  /** On whose behalf `session.Close` runs. */
  datatype Closer = Getter(i: nat) | Putter | Creator | Collector

  datatype CreateResult = Created(s: SessionId) | Retriable | Fatal

  /** Where a goroutine is, with the locals it needs from there on. */
  datatype Pc =
    | Rest                                             // no call in progress
    | GetTop(i: nat)                                   // loop head of internalPoolGet
    | GetPop(i: nat)                                   // about to take the first idle session
    | GotIdle(i: nat, s: SessionId)                    // has it, node not yet checked
    | CreateTop(i: nat)                                // entry of internalPoolCreateSession
    | Reserve(i: nat)                                  // about to check the size
    | Spawn(i: nat)                                    // counted; entry of createSession
    | Await(i: nat, call: nat)                         // select on done, ctx and the result
    | OnCreate(i: nat, s: SessionId)                   // received, not in the index
    | AddHook(i: nat, s: SessionId)                    // in the index, onClose not appended
    | Decrement(i: nat, r: CreateResult)               // deferred createInProgress--
    | Join(i: nat)                                     // entry of internalPoolWaitFromCh
    | Queued(i: nat, el: ElemId, ch: ChanId)           // queued, before its select
    | Parked(i: nat, el: ElemId, ch: ChanId)           // blocked in its select
    | Leaving(i: nat, el: ElemId, ch: ChanId, again: bool) // left by done, timeout or ctx
    | Recycle(i: nat, ch: ChanId, got: Option<SessionId>)  // received a value on ch
    | Borrowed(s: SessionId)                           // inside the operation
    | PutDone(s: SessionId)                            // Put: is the client closed?
    | PutClosing(s: SessionId)                         // Put: is the session closing?
    | PutClosed(s: SessionId)                          // Put: is the session closed?
    | PutPool(s: SessionId)                            // Put: about to lock
    | Close(stage: Stage, s: SessionId, who: Closer)   // inside session.Close
    | Build(call: nat)                                 // creator goroutine, building
    | Offer(call: nat, built: Option<SessionId>)          // creator goroutine, sending
    | End                                              // finished goroutine

  datatype State = State(
    pool: Pool,
    cfg: int,                                          // config.SizeLimit()
    sess: map<SessionId, Session>,
    procs: map<ProcId, Pc>,
    recycled: set<ChanId>,                             // waitChPool
    cancelled: set<nat>,                               // calls whose context is done
    nextProc: nat,
    nextSession: nat,
    nextChan: nat,
    nextCall: nat)

  /** A new client and any number of goroutines that have not called it yet. */
  predicate Init(st: State) {
    && st.pool == Pool(map[], 0, st.cfg, [], [], false, 0, map[], false)
    && st.cfg >= 0
    && st.sess == map[] && st.recycled == {} && st.cancelled == {}
    && (forall p :: p in st.procs ==> p < st.nextProc && st.procs[p] == Rest)
    && st.nextSession == 0 && st.nextChan == 0 && st.nextCall == 0
  }

  predicate At(st: State, p: ProcId, pc: Pc) { p in st.procs && st.procs[p] == pc }

  function Move(st: State, p: ProcId, pc: Pc): State { st.(procs := st.procs[p := pc]) }

  const MAX_ATTEMPTS := 100

  // ---- Get ----

  predicate StartGet(st: State, st': State, p: ProcId) {
    At(st, p, Rest) && !st.pool.done && st' == Move(st, p, GetTop(0))
  }

  predicate LoopHead(st: State, st': State, p: ProcId) {
    p in st.procs && st.procs[p].GetTop? &&
    var i := st.procs[p].i;
    st' == Move(st, p, if i < MAX_ATTEMPTS && !st.pool.done then GetPop(i + 1) else Rest)
  }

  predicate PopIdle(st: State, st': State, p: ProcId) {
    p in st.procs && st.procs[p].GetPop? &&
    var i := st.procs[p].i;
    var (pool, s) := PopFirstIdle(st.pool);
    st' == Move(st, p, if s.Some? then GotIdle(i, s.value) else CreateTop(i)).(pool := pool)
  }

  predicate CheckNode(st: State, st': State, p: ProcId, hasNode: bool) {
    p in st.procs && st.procs[p].GotIdle? &&
    var GotIdle(i, s) := st.procs[p];
    st' == Move(st, p, if hasNode then Borrowed(s) else Close(CheckClosed, s, Getter(i)))
  }

  predicate EnterCreate(st: State, st': State, p: ProcId) {
    p in st.procs && st.procs[p].CreateTop? &&
    st' == Move(st, p, if st.pool.done then Rest else Reserve(st.procs[p].i))
  }

  predicate CheckSize(st: State, st': State, p: ProcId) {
    p in st.procs && st.procs[p].Reserve? &&
    var i := st.procs[p].i;
    var (pool, ok) := TryReserve(st.pool);
    st' == Move(st, p, if ok then Spawn(i) else Join(i)).(pool := pool)
  }

  // ---- createSession: the caller and its creator goroutine ----

  /** The first select: the client is closed or the context is done. */
  predicate SpawnRefused(st: State, st': State, p: ProcId, retriable: bool) {
    p in st.procs && st.procs[p].Spawn? &&
    st' == Move(st, p, Decrement(st.procs[p].i, if retriable then Retriable else Fatal))
  }

  /** The locked part: no creator is started once the client is closed. */
  predicate SpawnCreator(st: State, st': State, p: ProcId) {
    p in st.procs && st.procs[p].Spawn? &&
    var q := Move(st, p, Await(st.procs[p].i, st.nextCall)).(nextCall := st.nextCall + 1);
    st' == if st.pool.done then q
           else q.(procs := q.procs[st.nextProc := Build(st.nextCall)], nextProc := st.nextProc + 1)
  }

  predicate Cancel(st: State, st': State, call: nat) {
    call < st.nextCall && st' == st.(cancelled := st.cancelled + {call})
  }

  predicate BuildFails(st: State, st': State, c: ProcId) {
    c in st.procs && st.procs[c].Build? && st' == Move(st, c, Offer(st.procs[c].call, None))
  }

  predicate BuildDone(st: State, st': State, c: ProcId) {
    c in st.procs && st.procs[c].Build? &&
    st' == Move(st, c, Offer(st.procs[c].call, Some(st.nextSession)))
             .(sess := st.sess[st.nextSession := Session(Ready, NotStarted, false, 0, 0, 0)],
               nextSession := st.nextSession + 1)
  }

  /** The rendezvous on the result channel. */
  predicate Deliver(st: State, st': State, p: ProcId, c: ProcId, retriable: bool) {
    p in st.procs && c in st.procs && st.procs[p].Await? && st.procs[c].Offer? &&
    st.procs[p].call == st.procs[c].call &&
    (st.procs[c].built.Some? ==> st.procs[c].built.value in st.sess) &&
    var i := st.procs[p].i;
    var r := st.procs[c].built;
    var q := Move(st, c, End);
    st' == if r.None? then Move(q, p, Decrement(i, if retriable then Retriable else Fatal))
           else Move(q, p, OnCreate(i, r.value)).(sess := st.sess[r.value :=
                  st.sess[r.value].(deliveries := st.sess[r.value].deliveries + 1)])
  }

  predicate CallOver(st: State, call: nat) { st.pool.done || call in st.cancelled }

  /** The caller stops waiting because the client is closed or its context is done. */
  predicate Abandon(st: State, st': State, p: ProcId, retriable: bool) {
    p in st.procs && st.procs[p].Await? && CallOver(st, st.procs[p].call) &&
    st' == Move(st, p, Decrement(st.procs[p].i, if retriable then Retriable else Fatal))
  }

  /** The creator stops offering for the same reason, and closes what it built. */
  predicate Discard(st: State, st': State, c: ProcId) {
    c in st.procs && st.procs[c].Offer? && CallOver(st, st.procs[c].call) &&
    (st.procs[c].built.Some? ==> st.procs[c].built.value in st.sess) &&
    var r := st.procs[c].built;
    st' == if r.None? then Move(st, c, End)
           else Move(st, c, Close(CheckClosed, r.value, Creator)).(sess := st.sess[r.value :=
                  st.sess[r.value].(discards := st.sess[r.value].discards + 1)])
  }

  predicate RunOnCreate(st: State, st': State, p: ProcId, now: int) {
    p in st.procs && st.procs[p].OnCreate? &&
    var OnCreate(i, s) := st.procs[p];
    st' == Move(st, p, AddHook(i, s)).(pool := Register(st.pool, s, now))
  }

  predicate AppendHook(st: State, st': State, p: ProcId) {
    p in st.procs && st.procs[p].AddHook? &&
    var AddHook(i, s) := st.procs[p];
    s in st.sess &&
    st' == Move(st, p, Decrement(i, Created(s))).(sess := st.sess[s := st.sess[s].(hooked := true)])
  }

  predicate FinishCreate(st: State, st': State, p: ProcId) {
    p in st.procs && st.procs[p].Decrement? &&
    var Decrement(i, r) := st.procs[p];
    st' == Move(st, p, match r case Created(s) => Borrowed(s) case Retriable => Join(i) case Fatal => Rest)
             .(pool := Release(st.pool))
  }

  // ---- the wait queue ----

  /** Takes a recycled or a new channel and queues it. */
  predicate JoinQueue(st: State, st': State, p: ProcId, ch: ChanId) {
    p in st.procs && st.procs[p].Join? && (ch in st.recycled || ch == st.nextChan) &&
    st' == Move(st, p, Queued(st.procs[p].i, st.pool.nextElem, ch))
             .(pool := Enqueue(st.pool, ch), recycled := st.recycled - {ch},
               nextChan := if ch == st.nextChan then st.nextChan + 1 else st.nextChan)
  }

  predicate Park(st: State, st': State, p: ProcId) {
    p in st.procs && st.procs[p].Queued? &&
    var Queued(i, el, ch) := st.procs[p];
    ch in st.pool.chans && st.pool.chans[ch].open &&
    st' == Move(st, p, Parked(i, el, ch))
             .(pool := st.pool.(chans := st.pool.chans[ch := Chan(true, Some(p))]))
  }

  predicate InWait(pc: Pc) { pc.Queued? || pc.Parked? }

  function Unpark(pool: Pool, ch: ChanId): Pool {
    if ch in pool.chans then pool.(chans := pool.chans[ch := pool.chans[ch].(receiver := None)]) else pool
  }

  /** The channel was closed: the waiter tries again without a session. */
  predicate ReceiveClosed(st: State, st': State, p: ProcId) {
    p in st.procs && InWait(st.procs[p]) &&
    var ch := st.procs[p].ch;
    ch in st.pool.chans && !st.pool.chans[ch].open &&
    st' == Move(st, p, GetTop(st.procs[p].i)).(pool := Unpark(st.pool, ch))
  }

  /** The waiter leaves its select by timeout, context or the client's closing. */
  predicate LeaveWait(st: State, st': State, p: ProcId, again: bool) {
    p in st.procs && InWait(st.procs[p]) &&
    var pc := st.procs[p];
    st' == Move(st, p, Leaving(pc.i, pc.el, pc.ch, again)).(pool := Unpark(st.pool, pc.ch))
  }

  predicate LeaveQueue(st: State, st': State, p: ProcId) {
    p in st.procs && st.procs[p].Leaving? &&
    var Leaving(i, el, ch, again) := st.procs[p];
    st' == Move(st, p, if again then GetTop(i) else Rest).(pool := Dequeue(st.pool, el))
  }

  predicate PutBackChan(st: State, st': State, p: ProcId) {
    p in st.procs && st.procs[p].Recycle? &&
    var Recycle(i, ch, got) := st.procs[p];
    st' == Move(st, p, if got.Some? then Borrowed(got.value) else GetTop(i))
             .(recycled := st.recycled + {ch})
  }

  /** The waiter `to`, when there is one, receives `got`. */
  function HandOver(procs: map<ProcId, Pc>, to: Option<ProcId>, got: Option<SessionId>): map<ProcId, Pc> {
    if to.Some? && to.value in procs && procs[to.value].Parked?
    then procs[to.value := Recycle(procs[to.value].i, procs[to.value].ch, got)]
    else procs
  }

  // ---- Put ----

  predicate EndOperation(st: State, st': State, p: ProcId) {
    p in st.procs && st.procs[p].Borrowed? && st' == Move(st, p, PutDone(st.procs[p].s))
  }

  function Reject(s: SessionId): Pc { Close(CheckClosed, s, Putter) }

  predicate PutCheckDone(st: State, st': State, p: ProcId) {
    p in st.procs && st.procs[p].PutDone? &&
    var s := st.procs[p].s;
    st' == Move(st, p, if st.pool.done then Reject(s) else PutClosing(s))
  }

  predicate PutCheckClosing(st: State, st': State, p: ProcId) {
    p in st.procs && st.procs[p].PutClosing? &&
    var s := st.procs[p].s;
    s in st.sess &&
    st' == Move(st, p, if st.sess[s].status == Closing then Reject(s) else PutClosed(s))
  }

  predicate PutCheckClosed(st: State, st': State, p: ProcId, hasNode: bool) {
    p in st.procs && st.procs[p].PutClosed? &&
    var s := st.procs[p].s;
    s in st.sess &&
    st' == Move(st, p, if st.sess[s].status == Closed || !hasNode then Reject(s) else PutPool(s))
  }

  predicate PutStore(st: State, st': State, p: ProcId, now: int) {
    p in st.procs && st.procs[p].PutPool? &&
    var s := st.procs[p].s;
    var (pool, out) := PutLocked(st.pool, s, now);
    match out
    case Overflow => st' == Move(st, p, Reject(s))
    case Stored => st' == Move(st, p, Rest).(pool := pool)
    case Handed(to) =>
      st' == st.(pool := pool, procs := HandOver(st.procs[p := Rest], Some(to), Some(s)))
  }

  // ---- session.Close ----

  function AfterClose(who: Closer): Pc {
    match who
    case Getter(i) => GetTop(i)
    case Putter => Rest
    case Creator => End
    case Collector => End
  }

  function SetStatus(st: State, s: SessionId, status: Status): map<SessionId, Session> {
    if s in st.sess then st.sess[s := st.sess[s].(status := status)] else st.sess
  }

  predicate CloseCheck(st: State, st': State, p: ProcId) {
    p in st.procs && st.procs[p].Close? && st.procs[p].stage == CheckClosed &&
    var Close(_, s, who) := st.procs[p];
    s in st.sess &&
    st' == Move(st, p, if st.sess[s].status == Closed then AfterClose(who) else Close(EnterOnce, s, who))
  }

  /** Enters `closeOnce`, or passes it once it is finished; a goroutine that finds it
      running waits, so it has no step. */
  predicate CloseEnter(st: State, st': State, p: ProcId) {
    p in st.procs && st.procs[p].Close? && st.procs[p].stage == EnterOnce &&
    var Close(_, s, who) := st.procs[p];
    s in st.sess &&
    match st.sess[s].once
    case NotStarted => st' == Move(st, p, Close(RunHooks, s, who))
                                .(sess := st.sess[s := st.sess[s].(once := Running(p))])
    case Finished => st' == Move(st, p, AfterClose(who))
    case _ => false
  }

  /** Runs the onClose hooks; a session its creator never delivered has none. */
  predicate CloseHooks(st: State, st': State, p: ProcId) {
    p in st.procs && st.procs[p].Close? && st.procs[p].stage == RunHooks &&
    var Close(_, s, who) := st.procs[p];
    s in st.sess &&
    var x := st.sess[s].(once := HooksRan(p));
    var q := Move(st, p, Close(LeaveOnce, s, who));
    if !st.sess[s].hooked then st' == q.(sess := st.sess[s := x])
    else
      var (pool, to) := Unregister(st.pool, s);
      st' == q.(pool := pool, procs := HandOver(q.procs, to, None),
                sess := st.sess[s := x.(removals := x.removals + 1)])
  }

  predicate CloseLeave(st: State, st': State, p: ProcId) {
    p in st.procs && st.procs[p].Close? && st.procs[p].stage == LeaveOnce &&
    var Close(_, s, who) := st.procs[p];
    s in st.sess &&
    st' == Move(st, p, AfterClose(who))
             .(sess := st.sess[s := st.sess[s].(status := Closed, once := Finished)])
  }

  /** The server's close hint, or an error that requires the session's deletion, reaches
      the goroutine that is using the session. */
  predicate Hint(st: State, st': State, p: ProcId) {
    p in st.procs &&
    (st.procs[p].Borrowed? || (st.procs[p].Close? && st.procs[p].stage == RunHooks)) &&
    st' == st.(sess := SetStatus(st, st.procs[p].s, Closing))
  }

  // ---- the collector and Client.Close ----

  /** Marks a session and starts a goroutine that closes it. */
  function StartCloser(st: State, s: SessionId): State {
    st.(sess := SetStatus(st, s, Closing),
        procs := st.procs[st.nextProc := Close(CheckClosed, s, Collector)],
        nextProc := st.nextProc + 1)
  }

  function StartClosers(st: State, ss: seq<SessionId>): State
    decreases |ss|
  {
    if ss == [] then st else StartClosers(StartCloser(st, ss[0]), ss[1..])
  }

  predicate CollectorTick(st: State, st': State, now: int, threshold: int) {
    !st.pool.done &&
    var (ss, ok) := Expired(st.pool.index, st.pool.idle, now, threshold);
    st' == if ok then StartClosers(st, ss) else st.(pool := st.pool.(fault := true))
  }

  predicate CloseClient(st: State, st': State) {
    st' == if st.pool.done then st
           else StartClosers(st, Sessions(st.pool.idle)).(pool := Shutdown(st.pool))
  }

  // ---- runs ----

  predicate GetStep(st: State, st': State, p: ProcId, b: bool) {
    || StartGet(st, st', p) || LoopHead(st, st', p) || PopIdle(st, st', p)
    || CheckNode(st, st', p, b) || EnterCreate(st, st', p) || CheckSize(st, st', p)
  }

  predicate CreateStep(st: State, st': State, p: ProcId, c: ProcId, b: bool, now: int) {
    || SpawnRefused(st, st', p, b) || SpawnCreator(st, st', p) || BuildFails(st, st', p)
    || BuildDone(st, st', p) || Deliver(st, st', p, c, b) || Abandon(st, st', p, b)
    || Discard(st, st', p) || RunOnCreate(st, st', p, now) || AppendHook(st, st', p)
    || FinishCreate(st, st', p)
  }

  predicate WaitStep(st: State, st': State, p: ProcId, ch: ChanId, b: bool) {
    || JoinQueue(st, st', p, ch) || Park(st, st', p) || ReceiveClosed(st, st', p)
    || LeaveWait(st, st', p, b) || LeaveQueue(st, st', p) || PutBackChan(st, st', p)
  }

  predicate PutStep(st: State, st': State, p: ProcId, b: bool, now: int) {
    || EndOperation(st, st', p) || PutCheckDone(st, st', p) || PutCheckClosing(st, st', p)
    || PutCheckClosed(st, st', p, b) || PutStore(st, st', p, now)
  }

  predicate CloseStep(st: State, st': State, p: ProcId) {
    || CloseCheck(st, st', p) || CloseEnter(st, st', p) || CloseHooks(st, st', p)
    || CloseLeave(st, st', p) || Hint(st, st', p)
  }

  predicate SystemStep(st: State, st': State, n: nat, now: int, threshold: int) {
    || Cancel(st, st', n) || CollectorTick(st, st', now, threshold)
    || CloseClient(st, st')
  }

  /** One step of the protocol; the label carries the choices the environment makes. */
  datatype Label =
    | LGet(p: ProcId, b: bool)
    | LCreate(p: ProcId, c: ProcId, b: bool, now: int)
    | LWait(p: ProcId, ch: ChanId, b: bool)
    | LPut(p: ProcId, b: bool, now: int)
    | LClose(p: ProcId)
    | LSystem(n: nat, now: int, threshold: int)

  predicate Step(st: State, st': State, l: Label) {
    match l
    case LGet(p, b) => GetStep(st, st', p, b)
    case LCreate(p, c, b, now) => CreateStep(st, st', p, c, b, now)
    case LWait(p, ch, b) => WaitStep(st, st', p, ch, b)
    case LPut(p, b, now) => PutStep(st, st', p, b, now)
    case LClose(p) => CloseStep(st, st', p)
    case LSystem(n, now, threshold) => SystemStep(st, st', n, now, threshold)
  }

  /** A run: an initial state and the steps taken since, the last one outermost. */
  datatype Run = Start(st: State) | Then(before: Run, l: Label, st: State)

  predicate IsRun(r: Run) {
    match r
    case Start(st) => Init(st)
    case Then(before, l, st) => IsRun(before) && Step(before.st, st, l)
  }
}
