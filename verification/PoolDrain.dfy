/** After Client.Close every goroutine can finish, and then the pool is empty for ever. */
module PoolDrain {
  import opened SessionPool
  import opened PoolProtocol
  import opened PoolInvariant
  import opened PoolClosing
  import opened PoolSafety

  /** An upper bound for the steps a goroutine still takes once the client is closed. */
  function Rank(pc: Pc): (n: nat)
    ensures n <= 15
  {
    match pc
    case Rest => 0
    case End => 0
    case GetTop(_) => 1
    case CreateTop(_) => 1
    case Leaving(_, _, _, _) => 2
    case Parked(_, _, _) => 3
    case Queued(_, _, _) => 4
    case Join(_) => 5
    case Reserve(_) => 6
    case Spawn(_) => 15
    case Await(_, _) => 14
    case OnCreate(_, _) => 13
    case AddHook(_, _) => 12
    case Decrement(_, r) => (match r case Created(_) => 11 case Retriable => 6 case Fatal => 1)
    case Build(_) => 7
    case Offer(_, built) => if built.Some? then 6 else 1
    case GetPop(_) => 12
    case GotIdle(_, _) => 11
    case Recycle(_, _, _) => 11
    case Borrowed(_) => 10
    case PutDone(_) => 9
    case PutClosing(_) => 8
    case PutClosed(_) => 7
    case PutPool(_) => 6
    case Close(stage, _, _) =>
      (match stage case CheckClosed => 5 case EnterOnce => 4 case RunHooks => 3 case LeaveOnce => 2)
  }

  function Total(procs: map<ProcId, Pc>, n: nat): nat {
    if n == 0 then 0 else Total(procs, n - 1) + if n - 1 in procs then Rank(procs[n - 1]) else 0
  }

  /** A goroutine came nearer to its end and no other one moved. */
  predicate Nearer(st: State, st': State, p: ProcId) {
    && p in st.procs && p in st'.procs && st'.procs == st.procs[p := st'.procs[p]]
    && Rank(st'.procs[p]) < Rank(st.procs[p])
    && st'.pool.done == st.pool.done && st'.nextProc == st.nextProc
  }

  lemma {:induction false} TotalSame(procs: map<ProcId, Pc>, p: ProcId, pc: Pc, n: nat)
    requires p >= n
    ensures Total(procs[p := pc], n) == Total(procs, n)
  {
    if n > 0 { TotalSame(procs, p, pc, n - 1); }
  }

  lemma {:induction false} TotalLess(procs: map<ProcId, Pc>, p: ProcId, pc: Pc, n: nat)
    requires p in procs && p < n && Rank(pc) < Rank(procs[p])
    ensures Total(procs[p := pc], n) < Total(procs, n)
  {
    if p == n - 1 { TotalSame(procs, p, pc, n - 1); } else { TotalLess(procs, p, pc, n - 1); }
  }

  lemma TotalNearer(st: State, st': State, q: ProcId)
    requires Nearer(st, st', q) && q < st.nextProc
    ensures Total(st'.procs, st'.nextProc) < Total(st.procs, st.nextProc) && st'.procs.Keys == st.procs.Keys
  {
    TotalLess(st.procs, q, st'.procs[q], st.nextProc);
  }

  lemma ProcKnown(st: State, p: ProcId)
    requires ProcsOk(st) && p in st.procs
    ensures p < st.nextProc
  {}

  // ---- every step of a closed client ----

  lemma GetFalls(st: State, st': State, p: ProcId, b: bool)
    requires GetStep(st, st', p, b) && st.pool.done && st.pool.limit == 0 && st.pool.createInProgress >= 0
    ensures Nearer(st, st', p)
  {}

  lemma WaitFalls(st: State, st': State, p: ProcId, ch: ChanId, b: bool)
    requires WaitStep(st, st', p, ch, b) && st.pool.done
    ensures Nearer(st, st', p)
  {}

  lemma PutFalls(st: State, st': State, p: ProcId, b: bool, now: int)
    requires PutStep(st, st', p, b, now) && st.pool.done && st.pool.limit == 0
    ensures Nearer(st, st', p)
  {}

  lemma CloseFalls(st: State, st': State, p: ProcId)
    requires CloseStep(st, st', p) && !Hint(st, st', p) && st.pool.done
    ensures Nearer(st, st', p)
  {}

  lemma CallFalls(st: State, st': State, p: ProcId, b: bool)
    requires SpawnRefused(st, st', p, b) || SpawnCreator(st, st', p) || Abandon(st, st', p, b)
    requires st.pool.done
    ensures Nearer(st, st', p)
  {}

  lemma BuildFalls(st: State, st': State, p: ProcId)
    requires BuildFails(st, st', p) || BuildDone(st, st', p) || Discard(st, st', p)
    ensures Nearer(st, st', p)
  {}

  lemma HookFalls(st: State, st': State, p: ProcId, now: int)
    requires RunOnCreate(st, st', p, now) || AppendHook(st, st', p) || FinishCreate(st, st', p)
    ensures Nearer(st, st', p)
  {}

  lemma CreateFalls(st: State, st': State, p: ProcId, c: ProcId, b: bool, now: int)
    requires CreateStep(st, st', p, c, b, now) && !Deliver(st, st', p, c, b) && st.pool.done
    ensures Nearer(st, st', p)
  {
    if SpawnRefused(st, st', p, b) || SpawnCreator(st, st', p) || Abandon(st, st', p, b) {
      CallFalls(st, st', p, b);
    } else if BuildFails(st, st', p) || BuildDone(st, st', p) || Discard(st, st', p) {
      BuildFalls(st, st', p);
    } else {
      HookFalls(st, st', p, now);
    }
  }

  lemma DeliverFalls(st: State, st': State, p: ProcId, c: ProcId, b: bool, mid: State)
    requires Deliver(st, st', p, c, b) && mid == Move(st, c, End)
    ensures Nearer(st, mid, c) && Nearer(mid, st', p)
  {}

  /** A step that moves no goroutine: a hint, the end of a context, or another Close. */
  predicate Passive(st: State, st': State, l: Label) {
    || (l.LClose? && Hint(st, st', l.p))
    || (l.LSystem? && (Cancel(st, st', l.n) || CloseClient(st, st')))
  }

  lemma PassiveKeeps(st: State, st': State, l: Label)
    requires Passive(st, st', l) && st.pool.done
    ensures st'.procs == st.procs && st'.nextProc == st.nextProc && st'.pool == st.pool
  {}

  /** In a closed client every other step leaves the goroutines less to do. */
  lemma StepFalls(st: State, st': State, l: Label)
    requires ProcsOk(st) && LimitOk(st) && st.pool.done && Step(st, st', l) && !Passive(st, st', l)
    ensures Total(st'.procs, st'.nextProc) < Total(st.procs, st.nextProc)
    ensures st'.pool.done && st'.nextProc == st.nextProc && st'.procs.Keys == st.procs.Keys
  {
    match l {
      case LGet(p, b) => GetFalls(st, st', p, b); Fallen(st, st', p);
      case LCreate(p, c, b, now) =>
        if Deliver(st, st', p, c, b) {
          var mid := Move(st, c, End);
          DeliverFalls(st, st', p, c, b, mid);
          Fallen(st, mid, c);
          ProcKnown(st, p);
          TotalNearer(mid, st', p);
        } else {
          CreateFalls(st, st', p, c, b, now);
          Fallen(st, st', p);
        }
      case LWait(p, ch, b) => WaitFalls(st, st', p, ch, b); Fallen(st, st', p);
      case LPut(p, b, now) => PutFalls(st, st', p, b, now); Fallen(st, st', p);
      case LClose(p) => CloseFalls(st, st', p); Fallen(st, st', p);
    }
  }

  lemma Fallen(st: State, st': State, p: ProcId)
    requires ProcsOk(st) && Nearer(st, st', p)
    ensures Total(st'.procs, st'.nextProc) < Total(st.procs, st.nextProc) && st'.procs.Keys == st.procs.Keys
  {
    ProcKnown(st, p);
    TotalNearer(st, st', p);
  }

  // ---- who is not finished has a step ----

  predicate Unfinished(st: State, p: ProcId) { p in st.procs && st.procs[p] != Rest && st.procs[p] != End }

  lemma GetGoes(st: State, p: ProcId) returns (st': State)
    requires st.pool.done && p in st.procs
    requires var pc := st.procs[p]; pc.GetTop? || pc.GetPop? || pc.GotIdle? || pc.CreateTop? || pc.Reserve?
    ensures Step(st, st', LGet(p, true))
  {
    match st.procs[p] {
      case GetTop(_) =>
        st' := Move(st, p, Rest);
        assert LoopHead(st, st', p);
      case GetPop(i) =>
        var (pool, s) := PopFirstIdle(st.pool);
        st' := Move(st, p, if s.Some? then GotIdle(i, s.value) else CreateTop(i)).(pool := pool);
        assert PopIdle(st, st', p);
      case GotIdle(_, s) =>
        st' := Move(st, p, Borrowed(s));
        assert CheckNode(st, st', p, true);
      case CreateTop(_) =>
        st' := Move(st, p, Rest);
        assert EnterCreate(st, st', p);
      case Reserve(i) =>
        var (pool, ok) := TryReserve(st.pool);
        st' := Move(st, p, if ok then Spawn(i) else Join(i)).(pool := pool);
        assert CheckSize(st, st', p);
    }
  }

  /** A caller gives up, a creator fails. */
  lemma CallGoes(st: State, p: ProcId) returns (st': State)
    requires st.pool.done && p in st.procs
    requires var pc := st.procs[p]; pc.Spawn? || pc.Await? || pc.Build?
    ensures Step(st, st', LCreate(p, 0, false, 0))
  {
    match st.procs[p] {
      case Spawn(i) =>
        st' := Move(st, p, Decrement(i, Fatal));
        assert SpawnRefused(st, st', p, false);
      case Await(i, _) =>
        st' := Move(st, p, Decrement(i, Fatal));
        assert Abandon(st, st', p, false);
      case Build(call) =>
        st' := Move(st, p, Offer(call, None));
        assert BuildFails(st, st', p);
    }
  }

  lemma OfferGoes(st: State, p: ProcId) returns (st': State)
    requires st.pool.done && p in st.procs && PcOk(st, p, st.procs[p]) && st.procs[p].Offer?
    ensures Step(st, st', LCreate(p, 0, false, 0))
  {
    if st.procs[p].built.None? {
      st' := Move(st, p, End);
    } else {
      var s := st.procs[p].built.value;
      st' := Move(st, p, Close(CheckClosed, s, Creator))
               .(sess := st.sess[s := st.sess[s].(discards := st.sess[s].discards + 1)]);
    }
    assert Discard(st, st', p);
  }

  /** A caller goes on with the session it received. */
  lemma CreateGoes(st: State, p: ProcId) returns (st': State)
    requires p in st.procs && PcOk(st, p, st.procs[p])
    requires var pc := st.procs[p]; pc.OnCreate? || pc.AddHook? || pc.Decrement?
    ensures Step(st, st', LCreate(p, 0, false, 0))
  {
    match st.procs[p] {
      case OnCreate(i, s) =>
        st' := Move(st, p, AddHook(i, s)).(pool := Register(st.pool, s, 0));
        assert RunOnCreate(st, st', p, 0);
      case AddHook(i, s) =>
        st' := Move(st, p, Decrement(i, Created(s))).(sess := st.sess[s := st.sess[s].(hooked := true)]);
        assert AppendHook(st, st', p);
      case Decrement(i, r) =>
        var next := match r case Created(s) => Borrowed(s) case Retriable => Join(i) case Fatal => Rest;
        st' := Move(st, p, next).(pool := Release(st.pool));
        assert FinishCreate(st, st', p);
    }
  }

  lemma WaitGoes(st: State, p: ProcId) returns (st': State)
    requires p in st.procs
    requires var pc := st.procs[p]; pc.Join? || pc.Queued? || pc.Parked? || pc.Leaving? || pc.Recycle?
    ensures Step(st, st', LWait(p, st.nextChan, false))
  {
    match st.procs[p] {
      case Join(i) =>
        st' := Move(st, p, Queued(i, st.pool.nextElem, st.nextChan))
                 .(pool := Enqueue(st.pool, st.nextChan), recycled := st.recycled - {st.nextChan}, nextChan := st.nextChan + 1);
        assert JoinQueue(st, st', p, st.nextChan);
      case Queued(i, el, ch) =>
        st' := Move(st, p, Leaving(i, el, ch, false)).(pool := Unpark(st.pool, ch));
        assert LeaveWait(st, st', p, false);
      case Parked(i, el, ch) =>
        st' := Move(st, p, Leaving(i, el, ch, false)).(pool := Unpark(st.pool, ch));
        assert LeaveWait(st, st', p, false);
      case Leaving(i, el, _, again) =>
        st' := Move(st, p, if again then GetTop(i) else Rest).(pool := Dequeue(st.pool, el));
        assert LeaveQueue(st, st', p);
      case Recycle(i, ch, got) =>
        st' := Move(st, p, if got.Some? then Borrowed(got.value) else GetTop(i)).(recycled := st.recycled + {ch});
        assert PutBackChan(st, st', p);
    }
  }

  lemma PutGoes(st: State, p: ProcId) returns (st': State)
    requires st.pool.done && st.pool.limit == 0 && p in st.procs && PcOk(st, p, st.procs[p])
    requires var pc := st.procs[p]; pc.Borrowed? || pc.PutDone? || pc.PutClosing? || pc.PutClosed? || pc.PutPool?
    ensures Step(st, st', LPut(p, true, 0))
  {
    match st.procs[p] {
      case Borrowed(s) =>
        st' := Move(st, p, PutDone(s));
        assert EndOperation(st, st', p);
      case PutDone(s) =>
        st' := Move(st, p, Reject(s));
        assert PutCheckDone(st, st', p);
      case PutClosing(s) =>
        st' := Move(st, p, if st.sess[s].status == Closing then Reject(s) else PutClosed(s));
        assert PutCheckClosing(st, st', p);
      case PutClosed(s) =>
        st' := Move(st, p, if st.sess[s].status == Closed then Reject(s) else PutPool(s));
        assert PutCheckClosed(st, st', p, true);
      case PutPool(s) =>
        st' := Move(st, p, Reject(s));
        assert PutStore(st, st', p, 0);
    }
  }

  /** Who is inside `closeOnce` has a step. */
  lemma InsideGoes(st: State, q: ProcId) returns (st': State)
    requires st.pool.done && q in st.procs && PcOk(st, q, st.procs[q])
    requires st.procs[q].Close? && (st.procs[q].stage == RunHooks || st.procs[q].stage == LeaveOnce)
    ensures CloseStep(st, st', q) && !Hint(st, st', q)
  {
    var Close(stage, s, who) := st.procs[q];
    if stage == LeaveOnce {
      st' := Move(st, q, AfterClose(who)).(sess := st.sess[s := st.sess[s].(status := Closed, once := Finished)]);
      assert CloseLeave(st, st', q);
    } else {
      var x := st.sess[s].(once := HooksRan(q));
      var m := Move(st, q, Close(LeaveOnce, s, who));
      if st.sess[s].hooked {
        st' := m.(pool := Unregister(st.pool, s).0, sess := st.sess[s := x.(removals := x.removals + 1)]);
      } else {
        st' := m.(sess := st.sess[s := x]);
      }
      assert CloseHooks(st, st', q);
    }
  }

  lemma CheckGoes(st: State, p: ProcId) returns (st': State)
    requires p in st.procs && PcOk(st, p, st.procs[p]) && st.procs[p].Close? && st.procs[p].stage == CheckClosed
    ensures CloseStep(st, st', p) && !Hint(st, st', p)
  {
    var Close(_, s, who) := st.procs[p];
    st' := Move(st, p, if st.sess[s].status == Closed then AfterClose(who) else Close(EnterOnce, s, who));
    assert CloseCheck(st, st', p);
  }

  lemma EnterGoes(st: State, p: ProcId) returns (st': State)
    requires p in st.procs && PcOk(st, p, st.procs[p]) && st.procs[p].Close? && st.procs[p].stage == EnterOnce
    requires st.sess[st.procs[p].s].once.NotStarted? || st.sess[st.procs[p].s].once.Finished?
    ensures CloseStep(st, st', p) && !Hint(st, st', p)
  {
    var Close(_, s, who) := st.procs[p];
    if st.sess[s].once.NotStarted? {
      st' := Move(st, p, Close(RunHooks, s, who)).(sess := st.sess[s := st.sess[s].(once := Running(p))]);
    } else {
      st' := Move(st, p, AfterClose(who));
    }
    assert CloseEnter(st, st', p);
  }

  /** The goroutine that a closer waits for is inside `closeOnce`. */
  lemma Inside(st: State, s: SessionId, q: ProcId)
    requires s in st.sess && SessionOk(st, s, st.sess[s]) && st.sess[s].once in {Running(q), HooksRan(q)}
    ensures ClosesAt(st.procs, q, RunHooks, s) || ClosesAt(st.procs, q, LeaveOnce, s)
  {}

  /** Who closes has a step, or waits for the goroutine inside `closeOnce`, which has one. */
  lemma CloseGoes(st: State, p: ProcId) returns (st': State, q: ProcId)
    requires st.pool.done && ProcsOk(st) && SessOk(st) && p in st.procs && st.procs[p].Close?
    ensures CloseStep(st, st', q) && !Hint(st, st', q)
  {
    CloserFacts(st, p);
    q := p;
    if st.procs[p].stage == CheckClosed {
      st' := CheckGoes(st, p);
    } else if st.procs[p].stage != EnterOnce {
      st' := InsideGoes(st, p);
    } else {
      match st.sess[st.procs[p].s].once {
        case NotStarted => st' := EnterGoes(st, p);
        case Finished => st' := EnterGoes(st, p);
        case Running(x) => st' := InsideStep(st, st.procs[p].s, x); q := x;
        case HooksRan(x) => st' := InsideStep(st, st.procs[p].s, x); q := x;
      }
    }
  }

  lemma InsideStep(st: State, s: SessionId, q: ProcId) returns (st': State)
    requires st.pool.done && ProcsOk(st) && s in st.sess && SessionOk(st, s, st.sess[s])
    requires st.sess[s].once in {Running(q), HooksRan(q)}
    ensures CloseStep(st, st', q) && !Hint(st, st', q)
  {
    Inside(st, s, q);
    PcFacts(st, q);
    st' := InsideGoes(st, q);
  }

  /** In a closed client, while some goroutine is not finished some goroutine has a step. */
  lemma SomeoneGoes(st: State, p: ProcId) returns (st': State, l: Label)
    requires Inv(st) && st.pool.done && Unfinished(st, p)
    ensures Step(st, st', l) && !Passive(st, st', l)
  {
    PcFacts(st, p);
    var pc := st.procs[p];
    if pc.Close? {
      var q;
      st', q := CloseGoes(st, p);
      l := LClose(q);
    } else if pc.Borrowed? || pc.PutDone? || pc.PutClosing? || pc.PutClosed? || pc.PutPool? {
      st' := PutGoes(st, p);
      l := LPut(p, true, 0);
    } else if pc.Join? || pc.Queued? || pc.Parked? || pc.Leaving? || pc.Recycle? {
      st' := WaitGoes(st, p);
      l := LWait(p, st.nextChan, false);
    } else if pc.OnCreate? || pc.AddHook? || pc.Decrement? {
      st' := CreateGoes(st, p);
      l := LCreate(p, 0, false, 0);
    } else if pc.Offer? {
      st' := OfferGoes(st, p);
      l := LCreate(p, 0, false, 0);
    } else if pc.Spawn? || pc.Await? || pc.Build? {
      st' := CallGoes(st, p);
      l := LCreate(p, 0, false, 0);
    } else {
      st' := GetGoes(st, p);
      l := LGet(p, true);
    }
  }

  // ---- the end ----

  predicate Continues(r: Run, s: Run)
    decreases s
  {
    r == s || (s.Then? && Continues(r, s.before))
  }

  /** Every goroutine has returned from its call or ended. */
  predicate Quiet(st: State) { forall p :: p in st.procs ==> st.procs[p] == Rest || st.procs[p] == End }

  lemma {:induction false} ContinuesOn(r: Run, m: Run, s: Run)
    requires Continues(r, m) && Continues(m, s)
    ensures Continues(r, s)
    decreases s
  {
    if m != s { ContinuesOn(r, m, s.before); }
  }

  lemma QuietOr(st: State)
    ensures Quiet(st) || exists p :: Unfinished(st, p)
  {
    if p :| p in st.procs && st.procs[p] != Rest && st.procs[p] != End { assert Unfinished(st, p); }
  }

  /** One step that leaves the goroutines less to do. */
  lemma LessToDo(st: State, p: ProcId) returns (st': State, l: Label)
    requires Inv(st) && st.pool.done && Unfinished(st, p)
    ensures Step(st, st', l) && st'.pool.done && st'.procs.Keys == st.procs.Keys
    ensures Total(st'.procs, st'.nextProc) < Total(st.procs, st.nextProc)
  {
    st', l := SomeoneGoes(st, p);
    StepFalls(st, st', l);
  }

  lemma {:induction false} Quiets(r: Run) returns (s: Run)
    requires IsRun(r) && r.st.pool.done
    ensures IsRun(s) && Continues(r, s) && s.st.pool.done && Quiet(s.st)
    ensures s.st.procs.Keys == r.st.procs.Keys
    decreases Total(r.st.procs, r.st.nextProc)
  {
    QuietOr(r.st);
    s := r;
    if p :| Unfinished(r.st, p) {
      RunKeeps(r);
      var st', l := LessToDo(r.st, p);
      var m := Then(r, l, st');
      s := Quiets(m);
      ContinuesOn(r, m, s);
    }
  }

  /** A session that was in the index was closed and left it once. */
  predicate ClosedOnce(x: Session) { x.once == Finished && x.status != Ready && x.removals == 1 }

  lemma QuietIsClosed(st: State, x: SessionId)
    requires Quiet(st) && st.pool.index == map[] && x in st.sess && SessionOk(st, x, st.sess[x])
    ensures st.sess[x].hooked ==> ClosedOnce(st.sess[x])
  {}

  lemma NoneCounted(st: State)
    requires LimitOk(st) && Quiet(st)
    ensures st.pool.createInProgress == 0
  {
    assert Counted(st.procs) == {};
  }

  lemma QuietIsDrained(st: State)
    requires SessOk(st) && IdleOk(st.pool) && DrainOk(st) && st.pool.done && Quiet(st)
    ensures st.pool.idle == [] && st.pool.index == map[]
    ensures forall x :: x in st.sess && st.sess[x].hooked ==> ClosedOnce(st.sess[x])
  {
    Drained(st);
    forall x | x in st.sess && st.sess[x].hooked ensures ClosedOnce(st.sess[x]) { QuietIsClosed(st, x); }
  }

  /** After Close, whatever the goroutines were doing, they can all finish: the pool is then
      empty, no creation is counted and every session that was in the index was closed and
      left it once. */
  lemma ComesToRest(r: Run) returns (s: Run)
    requires IsRun(r) && r.st.pool.done
    ensures IsRun(s) && Continues(r, s) && s.st.pool.done && Quiet(s.st)
    ensures s.st.procs.Keys == r.st.procs.Keys
    ensures s.st.pool.idle == [] && s.st.pool.index == map[] && s.st.pool.createInProgress == 0
    ensures forall x :: x in s.st.sess && s.st.sess[x].hooked ==> ClosedOnce(s.st.sess[x])
  {
    s := Quiets(r);
    RunKeeps(s);
    QuietIsDrained(s.st);
    NoneCounted(s.st);
  }

  // ---- every run ----

  /** How many steps a run took since, without the passive ones. */
  function Moves(r: Run, s: Run): nat
    requires Continues(r, s)
    decreases s
  {
    if s == r then 0 else Moves(r, s.before) + if Passive(s.before.st, s.st, s.l) then 0 else 1
  }

  lemma {:induction false} MovesFall(r: Run, s: Run)
    requires IsRun(s) && Continues(r, s) && r.st.pool.done
    ensures s.st.pool.done && s.st.nextProc == r.st.nextProc
    ensures Moves(r, s) + Total(s.st.procs, s.st.nextProc) <= Total(r.st.procs, r.st.nextProc)
    decreases s
  {
    if s != r {
      MovesFall(r, s.before);
      MoveFalls(s.before, s.st, s.l);
    }
  }

  lemma MoveFalls(r: Run, st': State, l: Label)
    requires IsRun(r) && r.st.pool.done && Step(r.st, st', l)
    ensures st'.pool.done && st'.nextProc == r.st.nextProc
    ensures (if Passive(r.st, st', l) then 0 else 1) + Total(st'.procs, st'.nextProc) <= Total(r.st.procs, r.st.nextProc)
  {
    if Passive(r.st, st', l) {
      PassiveKeeps(r.st, st', l);
    } else {
      RunKeeps(r);
      StepFalls(r.st, st', l);
    }
  }

  lemma {:induction false} TotalAtMost(procs: map<ProcId, Pc>, n: nat)
    ensures Total(procs, n) <= 15 * n
  {
    if n > 0 { TotalAtMost(procs, n - 1); }
  }

  /** Nothing but passive steps is left. */
  ghost predicate Stuck(st: State) { forall st', l :: Step(st, st', l) ==> Passive(st, st', l) }

  lemma StuckIsQuiet(st: State)
    requires Inv(st) && st.pool.done
    ensures Stuck(st) <==> Quiet(st)
  {
    QuietOr(st);
    if p :| Unfinished(st, p) {
      var st', l := LessToDo(st, p);
      if Passive(st, st', l) { PassiveKeeps(st, st', l); }
    }
    if Quiet(st) {
      forall st', l | Step(st, st', l) ensures Passive(st, st', l) { QuietStep(st, st', l); }
    }
  }

  /** However the goroutines are scheduled after Close, they take no more steps than `Total` says,
      fewer than 16 each, and when they take no more they have all finished and the pool is
      empty. */
  lemma EveryRunRests(r: Run, s: Run)
    requires IsRun(s) && Continues(r, s) && r.st.pool.done
    ensures Moves(r, s) <= Total(r.st.procs, r.st.nextProc) <= 15 * r.st.nextProc
    ensures Stuck(s.st) <==> Quiet(s.st)
    ensures Stuck(s.st) ==> s.st.pool.idle == [] && s.st.pool.index == map[] && s.st.pool.createInProgress == 0
    ensures Stuck(s.st) ==> forall x :: x in s.st.sess && s.st.sess[x].hooked ==> ClosedOnce(s.st.sess[x])
  {
    MovesFall(r, s);
    TotalAtMost(r.st.procs, r.st.nextProc);
    RunKeeps(s);
    StuckIsQuiet(s.st);
    if Quiet(s.st) {
      QuietIsDrained(s.st);
      NoneCounted(s.st);
    }
  }

  lemma QuietStep(st: State, st': State, l: Label)
    requires st.pool.done && Quiet(st) && Step(st, st', l)
    ensures st' == st.(cancelled := st'.cancelled) && Passive(st, st', l)
  {}

  /** A closed client at rest stays as it is. */
  lemma {:induction false} RestsForEver(r: Run, s: Run)
    requires IsRun(s) && Continues(r, s) && r.st.pool.done && Quiet(r.st)
    ensures s.st == r.st.(cancelled := s.st.cancelled)
    decreases s
  {
    if s != r {
      RestsForEver(r, s.before);
      QuietStep(s.before.st, s.st, s.l);
    }
  }
}
