/** What every reachable state of the pool protocol satisfies. */
module PoolInvariant {
  import opened SessionPool
  import opened PoolProtocol

  // ---- what a goroutine holds ----

  /** The session a goroutine has for itself. */
  function Held(pc: Pc): Option<SessionId> {
    match pc
    case GotIdle(_, s) => Some(s)
    case OnCreate(_, s) => Some(s)
    case AddHook(_, s) => Some(s)
    case Decrement(_, Created(s)) => Some(s)
    case Recycle(_, _, got) => got
    case Borrowed(s) => Some(s)
    case PutDone(s) => Some(s)
    case PutClosing(s) => Some(s)
    case PutClosed(s) => Some(s)
    case PutPool(s) => Some(s)
    case Close(_, s, who) => if who == Collector then None else Some(s)
    case Offer(_, built) => built
    case _ => None
  }

  /** The wait channel a goroutine uses. */
  function Waits(pc: Pc): Option<ChanId> {
    match pc
    case Queued(_, _, ch) => Some(ch)
    case Parked(_, _, ch) => Some(ch)
    case Leaving(_, _, ch, _) => Some(ch)
    case Recycle(_, ch, _) => Some(ch)
    case _ => None
  }

  predicate SameHeld(a: Pc, b: Pc) { Held(a).Some? && Held(a) == Held(b) }

  predicate SameWaits(a: Pc, b: Pc) { Waits(a).Some? && Waits(a) == Waits(b) }

  predicate AddsHook(pc: Pc, s: SessionId) { pc.AddHook? && pc.s == s }

  predicate ClosesAt(procs: map<ProcId, Pc>, p: ProcId, stage: Stage, s: SessionId) {
    p in procs && procs[p].Close? && procs[p].s == s && procs[p].stage == stage
  }

  predicate Collects(pc: Pc, s: SessionId) { pc.Close? && pc.s == s && pc.who == Collector }

  ghost predicate IsHeld(procs: map<ProcId, Pc>, s: SessionId) {
    exists p :: p in procs && Held(procs[p]) == Some(s)
  }

  ghost predicate IsCollected(procs: map<ProcId, Pc>, s: SessionId) {
    exists p :: p in procs && Collects(procs[p], s)
  }

  // ---- the index and the idle list ----

  /** The elements of a list are different and were allocated before `next`. */
  ghost predicate Distinct<T>(l: seq<Elem<T>>, next: ElemId) {
    && (forall i, j :: 0 <= i < j < |l| ==> l[i].id != l[j].id)
    && (forall j :: 0 <= j < |l| ==> l[j].id < next)
  }

  /** The index entry of a session points at an idle element iff that element holds it. */
  ghost predicate IdleOk(pool: Pool) {
    && (forall j :: 0 <= j < |pool.idle| ==>
          pool.idle[j].value in pool.index && pool.index[pool.idle[j].value].idle == Some(pool.idle[j].id))
    && (forall s :: s in pool.index && pool.index[s].idle.Some? ==>
          Elem(pool.index[s].idle.value, s) in pool.idle)
    && Distinct(pool.idle, pool.nextElem)
  }

  // ---- sessions and their holders ----

  /** A session that may go back to the idle list: nothing closes it or is about to. */
  ghost predicate Safe(st: State, s: SessionId) {
    && s in st.sess && st.sess[s].hooked && st.sess[s].once == NotStarted
    && !IsCollected(st.procs, s)
  }

  /** What a goroutine's position says about the session it mentions. */
  ghost predicate PcOk(st: State, p: ProcId, pc: Pc) {
    match pc
    case OnCreate(_, s) => s in st.sess && !st.sess[s].hooked && s !in st.pool.index && st.sess[s].once == NotStarted
    case AddHook(_, s) => s in st.sess && !st.sess[s].hooked && s in st.pool.index && st.sess[s].once == NotStarted
    case Offer(_, Some(s)) => s in st.sess && !st.sess[s].hooked && s !in st.pool.index && st.sess[s].once == NotStarted
    case PutClosed(s) => Safe(st, s) || (s in st.sess && st.sess[s].hooked && st.sess[s].status == Closed && st.sess[s].once == Finished)
    case PutPool(s) => Safe(st, s)
    case Close(stage, s, who) =>
      && s in st.sess
      && st.sess[s].hooked == !who.Creator?
      && (who == Creator ==> s !in st.pool.index)
      && (who == Collector ==> st.sess[s].status != Ready)
      && (stage == RunHooks ==> st.sess[s].once == Running(p))
      && (stage == LeaveOnce ==> st.sess[s].once == HooksRan(p))
    case _ => Held(pc).Some? ==> Held(pc).value in st.sess && st.sess[Held(pc).value].hooked
  }

  ghost predicate ProcsOk(st: State) {
    && (forall p :: p in st.procs ==> p < st.nextProc)
    && (forall p :: p in st.procs ==> PcOk(st, p, st.procs[p]))
    && (forall p, q | p in st.procs && q in st.procs && SameHeld(st.procs[p], st.procs[q]) :: p == q)
    && (forall p :: p in st.procs && Held(st.procs[p]).Some? && Held(st.procs[p]).value in st.pool.index ==>
          st.pool.index[Held(st.procs[p]).value].idle == None)
  }

  /** A session is in the index from its onCreate hook until its onClose hook. */
  ghost predicate SessionOk(st: State, s: SessionId, x: Session) {
    && s < st.nextSession
    && (x.hooked ==> (s in st.pool.index <==> x.once.NotStarted? || x.once.Running?))
    && (!x.hooked && s in st.pool.index ==> exists p :: p in st.procs && AddsHook(st.procs[p], s))
    && (x.once.Running? ==> ClosesAt(st.procs, x.once.proc, RunHooks, s))
    && (x.once.HooksRan? ==> ClosesAt(st.procs, x.once.proc, LeaveOnce, s))
    && (x.once == Finished ==> x.status != Ready)
    && (x.status == Closed ==> x.once == Finished)
    && x.removals == (if x.hooked && (x.once.HooksRan? || x.once.Finished?) then 1 else 0)
  }

  ghost predicate SessOk(st: State) {
    && st.pool.index.Keys <= st.sess.Keys
    && forall s :: s in st.sess ==> SessionOk(st, s, st.sess[s])
  }

  /** Nothing in the index is lost: it is idle or somebody has it. Once the client is
      closed, somebody is closing each idle session. */
  ghost predicate DrainOk(st: State) {
    && (forall s :: s in st.pool.index && st.pool.index[s].idle == None ==> IsHeld(st.procs, s))
    && (st.pool.done ==> forall j :: 0 <= j < |st.pool.idle| ==> IsCollected(st.procs, st.pool.idle[j].value))
  }

  // ---- the limit ----

  predicate Counts(pc: Pc) { pc.Spawn? || pc.Await? || pc.OnCreate? || pc.AddHook? || pc.Decrement? }

  /** Counted in `createInProgress` although its session is in the index already. */
  predicate CountsTwice(pc: Pc) { pc.AddHook? || (pc.Decrement? && pc.r.Created?) }

  function Counted(procs: map<ProcId, Pc>): set<ProcId> { set p | p in procs && Counts(procs[p]) }

  function CountedTwice(procs: map<ProcId, Pc>): set<ProcId> { set p | p in procs && CountsTwice(procs[p]) }

  ghost predicate LimitOk(st: State) {
    && st.pool.createInProgress == |Counted(st.procs)|
    && st.pool.createInProgress + |st.pool.index| - |CountedTwice(st.procs)| <= st.cfg
    && st.pool.limit == (if st.pool.done then 0 else st.cfg)
  }

  // ---- the wait queue ----

  ghost predicate QueueOk(pool: Pool) {
    && Distinct(pool.waitQ, pool.nextElem)
    && (forall k :: 0 <= k < |pool.waitQ| ==> pool.waitQ[k].value in pool.chans)
    && (forall i, j :: 0 <= i < j < |pool.waitQ| ==> pool.waitQ[i].value != pool.waitQ[j].value)
    && (!pool.done ==> forall k :: 0 <= k < |pool.waitQ| ==> pool.chans[pool.waitQ[k].value].open)
  }

  predicate InQueue(pc: Pc) { pc.Queued? || pc.Parked? || pc.Leaving? }

  ghost predicate HasWaiter(procs: map<ProcId, Pc>, e: Elem<ChanId>) {
    exists p :: p in procs && InQueue(procs[p]) && procs[p].el == e.id && procs[p].ch == e.value
  }

  /** A recycled channel is open and not queued. */
  ghost predicate RecycledOk(st: State) {
    && (forall ch :: ch in st.pool.chans ==> ch < st.nextChan)
    && (forall ch :: ch in st.recycled ==>
          ch in st.pool.chans && st.pool.chans[ch] == Chan(true, None) && ch !in Values(st.pool.waitQ))
  }

  /** What a goroutine's position says about the channel it uses. */
  ghost predicate UserOk(st: State, p: ProcId, pc: Pc) {
    Waits(pc).Some? ==>
      var ch := Waits(pc).value;
      && ch in st.pool.chans && ch !in st.recycled
      && (pc.Recycle? ==> st.pool.chans[ch] == Chan(true, None) && ch !in Values(st.pool.waitQ))
      && (pc.Parked? ==> st.pool.chans[ch].receiver == Some(p))
  }

  predicate ParkedOn(procs: map<ProcId, Pc>, p: ProcId, ch: ChanId) {
    p in procs && procs[p].Parked? && procs[p].ch == ch
  }

  /** A channel in use has one user, and who receives from it is parked on it. */
  ghost predicate UsersOk(st: State) {
    && (forall p :: p in st.procs ==> UserOk(st, p, st.procs[p]))
    && (forall p, q | p in st.procs && q in st.procs && SameWaits(st.procs[p], st.procs[q]) :: p == q)
    && (forall ch :: ch in st.pool.chans && st.pool.chans[ch].receiver.Some? ==>
          ParkedOn(st.procs, st.pool.chans[ch].receiver.value, ch))
  }

  /** While the client is open every queued channel is some waiter's. */
  ghost predicate WaitersOk(st: State) {
    !st.pool.done ==> forall k :: 0 <= k < |st.pool.waitQ| ==> HasWaiter(st.procs, st.pool.waitQ[k])
  }

  ghost predicate ChansOk(st: State) {
    QueueOk(st.pool) && RecycledOk(st) && UsersOk(st) && WaitersOk(st)
  }

  // ---- creation calls ----

  predicate Creates(pc: Pc, call: nat) { (pc.Build? || pc.Offer?) && pc.call == call }

  /** Both call, or both create, for the same call. */
  predicate SameCall(a: Pc, b: Pc) {
    || (a.Await? && b.Await? && a.call == b.call)
    || ((a.Build? || a.Offer?) && Creates(b, a.call))
  }

  ghost predicate HasCreator(procs: map<ProcId, Pc>, call: nat) {
    exists c :: c in procs && Creates(procs[c], call)
  }

  ghost predicate HasCaller(procs: map<ProcId, Pc>, call: nat) {
    exists p :: p in procs && procs[p].Await? && procs[p].call == call
  }

  ghost predicate Offered(procs: map<ProcId, Pc>, s: SessionId) {
    exists c :: c in procs && procs[c].Offer? && procs[c].built == Some(s)
  }

  /** A call has at most one caller and one creator. */
  ghost predicate CallIdsOk(st: State) {
    && (forall p :: p in st.procs && (st.procs[p].Await? || st.procs[p].Build? || st.procs[p].Offer?) ==>
          st.procs[p].call < st.nextCall)
    && (forall p, q | p in st.procs && q in st.procs && SameCall(st.procs[p], st.procs[q]) :: p == q)
  }

  /** A caller or a creator is on its own only when the call is over. */
  ghost predicate PairsOk(st: State) {
    && (forall p :: p in st.procs && st.procs[p].Await? ==>
          HasCreator(st.procs, st.procs[p].call) || CallOver(st, st.procs[p].call))
    && (forall c :: c in st.procs && (st.procs[c].Build? || st.procs[c].Offer?) ==>
          HasCaller(st.procs, st.procs[c].call) || CallOver(st, st.procs[c].call))
  }

  /** A built session is on offer, or was delivered or discarded, exactly once. */
  ghost predicate FatesOk(st: State) {
    forall s :: s in st.sess ==>
      st.sess[s].deliveries + st.sess[s].discards == (if Offered(st.procs, s) then 0 else 1)
  }

  ghost predicate CallsOk(st: State) { CallIdsOk(st) && PairsOk(st) && FatesOk(st) }

  ghost predicate PoolOk(st: State) {
    && !st.pool.fault
    && IdleOk(st.pool)
    && ProcsOk(st)
    && SessOk(st)
    && DrainOk(st)
    && LimitOk(st)
    && ChansOk(st)
  }

  ghost predicate Inv(st: State) { PoolOk(st) && CallsOk(st) }
}
