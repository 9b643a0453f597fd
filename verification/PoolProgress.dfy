/** The pool is of use: an open client with room can make a session, lend it and take it back. */
module PoolProgress {
  import opened SessionPool
  import opened PoolProtocol
  import opened PoolSafety

  // ---- one step each ----

  lemma Starts(r: Run, p: ProcId) returns (s: Run)
    requires IsRun(r) && At(r.st, p, Rest) && !r.st.pool.done
    ensures IsRun(s) && s.st == Move(r.st, p, GetTop(0))
  {
    s := Then(r, LGet(p, true), Move(r.st, p, GetTop(0)));
    assert StartGet(r.st, s.st, p);
  }

  lemma Loops(r: Run, p: ProcId, i: nat) returns (s: Run)
    requires IsRun(r) && At(r.st, p, GetTop(i)) && i < MAX_ATTEMPTS && !r.st.pool.done
    ensures IsRun(s) && s.st == Move(r.st, p, GetPop(i + 1))
  {
    s := Then(r, LGet(p, true), Move(r.st, p, GetPop(i + 1)));
    assert LoopHead(r.st, s.st, p);
  }

  lemma FindsNone(r: Run, p: ProcId, i: nat) returns (s: Run)
    requires IsRun(r) && At(r.st, p, GetPop(i)) && r.st.pool.idle == []
    ensures IsRun(s) && s.st == Move(r.st, p, CreateTop(i))
  {
    s := Then(r, LGet(p, true), Move(r.st, p, CreateTop(i)));
    assert PopIdle(r.st, s.st, p);
  }

  lemma Enters(r: Run, p: ProcId, i: nat) returns (s: Run)
    requires IsRun(r) && At(r.st, p, CreateTop(i)) && !r.st.pool.done
    ensures IsRun(s) && s.st == Move(r.st, p, Reserve(i))
  {
    s := Then(r, LGet(p, true), Move(r.st, p, Reserve(i)));
    assert EnterCreate(r.st, s.st, p);
  }

  function OneMore(pool: Pool): Pool { pool.(createInProgress := pool.createInProgress + 1) }

  predicate HasRoom(pool: Pool) { !pool.done && pool.createInProgress + |pool.index| < pool.limit }

  lemma Reserves(r: Run, p: ProcId, i: nat) returns (s: Run)
    requires IsRun(r) && At(r.st, p, Reserve(i)) && HasRoom(r.st.pool)
    ensures IsRun(s) && s.st == Move(r.st, p, Spawn(i)).(pool := OneMore(r.st.pool))
  {
    s := Then(r, LGet(p, true), Move(r.st, p, Spawn(i)).(pool := OneMore(r.st.pool)));
    assert CheckSize(r.st, s.st, p);
  }

  lemma Spawns(r: Run, p: ProcId, i: nat) returns (s: Run)
    requires IsRun(r) && At(r.st, p, Spawn(i)) && !r.st.pool.done
    ensures IsRun(s) && s.st == r.st.(procs := r.st.procs[p := Await(i, r.st.nextCall)][r.st.nextProc := Build(r.st.nextCall)],
                                      nextCall := r.st.nextCall + 1, nextProc := r.st.nextProc + 1)
  {
    var q := Move(r.st, p, Await(i, r.st.nextCall)).(nextCall := r.st.nextCall + 1);
    s := Then(r, LCreate(p, 0, true, 0),
      q.(procs := q.procs[r.st.nextProc := Build(r.st.nextCall)], nextProc := r.st.nextProc + 1));
    assert SpawnCreator(r.st, s.st, p);
  }

  function Fresh(deliveries: nat, hooked: bool): Session { Session(Ready, NotStarted, hooked, 0, deliveries, 0) }

  lemma Builds(r: Run, c: ProcId, call: nat) returns (s: Run)
    requires IsRun(r) && At(r.st, c, Build(call))
    ensures IsRun(s) && s.st == Move(r.st, c, Offer(call, Some(r.st.nextSession)))
                                  .(sess := r.st.sess[r.st.nextSession := Fresh(0, false)], nextSession := r.st.nextSession + 1)
  {
    s := Then(r, LCreate(c, 0, true, 0), Move(r.st, c, Offer(call, Some(r.st.nextSession)))
              .(sess := r.st.sess[r.st.nextSession := Fresh(0, false)], nextSession := r.st.nextSession + 1));
    assert BuildDone(r.st, s.st, c);
  }

  lemma Delivers(r: Run, p: ProcId, c: ProcId, i: nat, call: nat, x: SessionId) returns (s: Run)
    requires IsRun(r) && At(r.st, p, Await(i, call)) && At(r.st, c, Offer(call, Some(x)))
    requires x in r.st.sess && r.st.sess[x] == Fresh(0, false)
    ensures IsRun(s) && s.st == Move(Move(r.st, c, End), p, OnCreate(i, x)).(sess := r.st.sess[x := Fresh(1, false)])
  {
    s := Then(r, LCreate(p, c, true, 0), Move(Move(r.st, c, End), p, OnCreate(i, x)).(sess := r.st.sess[x := Fresh(1, false)]));
    DeliverStep(r.st, s.st, p, c, i, call, x);
  }

  lemma DeliverStep(st: State, st': State, p: ProcId, c: ProcId, i: nat, call: nat, x: SessionId)
    requires At(st, p, Await(i, call)) && At(st, c, Offer(call, Some(x))) && x in st.sess && st.sess[x] == Fresh(0, false)
    requires st' == Move(Move(st, c, End), p, OnCreate(i, x)).(sess := st.sess[x := Fresh(1, false)])
    ensures Deliver(st, st', p, c, true)
  {}

  lemma Registers(r: Run, p: ProcId, i: nat, x: SessionId) returns (s: Run)
    requires IsRun(r) && At(r.st, p, OnCreate(i, x))
    ensures IsRun(s) && s.st == Move(r.st, p, AddHook(i, x)).(pool := Register(r.st.pool, x, 0))
  {
    s := Then(r, LCreate(p, 0, true, 0), Move(r.st, p, AddHook(i, x)).(pool := Register(r.st.pool, x, 0)));
    assert RunOnCreate(r.st, s.st, p, 0);
  }

  lemma Hooks(r: Run, p: ProcId, i: nat, x: SessionId) returns (s: Run)
    requires IsRun(r) && At(r.st, p, AddHook(i, x)) && x in r.st.sess && r.st.sess[x] == Fresh(1, false)
    ensures IsRun(s) && s.st == Move(r.st, p, Decrement(i, Created(x))).(sess := r.st.sess[x := Fresh(1, true)])
  {
    s := Then(r, LCreate(p, 0, true, 0), Move(r.st, p, Decrement(i, Created(x))).(sess := r.st.sess[x := Fresh(1, true)]));
    assert AppendHook(r.st, s.st, p);
  }

  lemma Finishes(r: Run, p: ProcId, i: nat, x: SessionId) returns (s: Run)
    requires IsRun(r) && At(r.st, p, Decrement(i, Created(x)))
    ensures IsRun(s) && s.st == Move(r.st, p, Borrowed(x)).(pool := Release(r.st.pool))
  {
    s := Then(r, LCreate(p, 0, true, 0), Move(r.st, p, Borrowed(x)).(pool := Release(r.st.pool)));
    assert FinishCreate(r.st, s.st, p);
  }

  lemma PutsTo(r: Run, p: ProcId, pc: Pc) returns (s: Run)
    requires IsRun(r) && PutStep(r.st, Move(r.st, p, pc), p, true, 0)
    ensures IsRun(s) && s.st == Move(r.st, p, pc)
  {
    s := Then(r, LPut(p, true, 0), Move(r.st, p, pc));
  }

  lemma Stores(r: Run, p: ProcId, x: SessionId) returns (s: Run)
    requires IsRun(r) && At(r.st, p, PutPool(x)) && |r.st.pool.idle| < r.st.pool.limit && r.st.pool.waitQ == []
    requires x in r.st.pool.index && r.st.pool.index[x].idle.None?
    ensures IsRun(s) && s.st == Move(r.st, p, Rest).(pool := PushIdle(r.st.pool, x, 0))
  {
    s := Then(r, LPut(p, true, 0), Move(r.st, p, Rest).(pool := PushIdle(r.st.pool, x, 0)));
    assert Notify(r.st.pool) == (r.st.pool, None);
    assert PutStore(r.st, s.st, p, 0);
  }

  // ---- the whole way ----

  /** Nothing idle: Get turns to creation. */
  lemma GetCreates(r: Run, p: ProcId) returns (s: Run)
    requires IsRun(r) && At(r.st, p, Rest) && !r.st.pool.done && r.st.pool.idle == []
    ensures IsRun(s) && s.st == Move(r.st, p, CreateTop(1))
  {
    s := Starts(r, p);
    s := Loops(s, p, 0);
    s := FindsNone(s, p, 1);
    Overwrites(r.st, p, GetTop(0), GetPop(1));
    Overwrites(r.st, p, GetPop(1), CreateTop(1));
  }

  /** Room for one more: it reserves a place. */
  lemma GetReserves(r: Run, p: ProcId) returns (s: Run)
    requires IsRun(r) && At(r.st, p, Rest) && HasRoom(r.st.pool) && r.st.pool.idle == []
    ensures IsRun(s) && s.st == Move(r.st, p, Spawn(1)).(pool := OneMore(r.st.pool))
  {
    s := GetCreates(r, p);
    s := Enters(s, p, 1);
    s := Reserves(s, p, 1);
    Overwrites(r.st, p, CreateTop(1), Reserve(1));
    Overwrites(r.st, p, Reserve(1), Spawn(1));
  }

  lemma Overwrites(st: State, p: ProcId, a: Pc, b: Pc)
    ensures Move(Move(st, p, a), p, b) == Move(st, p, b)
  {
    assert Move(Move(st, p, a), p, b).procs == st.procs[p := b];
  }

  /** From its place on, the caller gets a new session through a creator. */
  lemma CreateBorrows(r: Run, p: ProcId) returns (s: Run)
    requires IsRun(r) && At(r.st, p, Spawn(1)) && !r.st.pool.done && p != r.st.nextProc
    ensures var x := r.st.nextSession;
      && IsRun(s) && At(s.st, p, Borrowed(x)) && x in s.st.sess && s.st.sess[x] == Fresh(1, true)
      && s.st.pool == Release(Register(r.st.pool, x, 0))
  {
    var c, call, x := r.st.nextProc, r.st.nextCall, r.st.nextSession;
    s := Spawns(r, p, 1);
    s := Builds(s, c, call);
    s := Delivers(s, p, c, 1, call, x);
    s := Registers(s, p, 1, x);
    s := Hooks(s, p, 1, x);
    s := Finishes(s, p, 1, x);
  }

  /** A healthy session put into an open client without waiters becomes idle. */
  lemma PutBack(r: Run, p: ProcId, x: SessionId) returns (s: Run)
    requires IsRun(r) && At(r.st, p, Borrowed(x)) && !r.st.pool.done && x in r.st.sess && r.st.sess[x].status == Ready
    requires |r.st.pool.idle| < r.st.pool.limit && r.st.pool.waitQ == []
    requires x in r.st.pool.index && r.st.pool.index[x].idle.None?
    ensures IsRun(s) && At(s.st, p, Rest) && s.st.pool == PushIdle(r.st.pool, x, 0)
  {
    assert EndOperation(r.st, Move(r.st, p, PutDone(x)), p);
    s := PutsTo(r, p, PutDone(x));
    assert PutCheckDone(s.st, Move(s.st, p, PutClosing(x)), p);
    s := PutsTo(s, p, PutClosing(x));
    assert PutCheckClosing(s.st, Move(s.st, p, PutClosed(x)), p);
    s := PutsTo(s, p, PutClosed(x));
    assert PutCheckClosed(s.st, Move(s.st, p, PutPool(x)), p, true);
    s := PutsTo(s, p, PutPool(x));
    s := Stores(s, p, x);
  }

  lemma Known(r: Run, p: ProcId)
    requires IsRun(r) && p in r.st.procs
    ensures p < r.st.nextProc && r.st.pool.createInProgress >= 0
  {
    RunKeeps(r);
    LimitHolds(r);
  }

  /** From every reachable state of an open client with room, nothing idle and nobody waiting,
      a goroutine can get a session made for it, use it and leave it idle. */
  lemma MadeLentAndReturned(r: Run, p: ProcId) returns (s: Run)
    requires IsRun(r) && At(r.st, p, Rest) && HasRoom(r.st.pool) && r.st.pool.idle == [] && r.st.pool.waitQ == []
    ensures IsRun(s) && At(s.st, p, Rest)
    ensures |s.st.pool.idle| == 1 && s.st.pool.idle[0].value == r.st.nextSession
    ensures s.st.pool.index.Keys == r.st.pool.index.Keys + {r.st.nextSession}
    ensures s.st.pool.createInProgress == r.st.pool.createInProgress
  {
    Known(r, p);
    s := GetReserves(r, p);
    s := CreateBorrows(s, p);
    s := PutBack(s, p, r.st.nextSession);
  }
}
