/** The steps of a creation keep the invariant. */
module PoolCreate {
  import opened SessionPool
  import opened PoolProtocol
  import opened PoolInvariant
  import opened PoolFrames

  // ---- reserving and releasing a place ----

  lemma CheckSizeQuiet(st: State, st': State, p: ProcId)
    requires CheckSize(st, st', p)
    ensures Quiet(st, st', p)
  {}

  lemma CheckSizeLimit(st: State, st': State, p: ProcId)
    requires LimitOk(st) && CheckSize(st, st', p)
    ensures LimitOk(st')
  {
    CountMove(st.procs, p, st'.procs[p]);
  }

  lemma KeepsCheckSize(st: State, st': State, p: ProcId)
    requires Inv(st) && CheckSize(st, st', p)
    ensures Inv(st')
  {
    CheckSizeQuiet(st, st', p);
    CheckSizeLimit(st, st', p);
    QuietMove(st, st', p);
  }

  lemma FinishQuiet(st: State, st': State, p: ProcId)
    requires FinishCreate(st, st', p) && PcOk(st, p, st.procs[p])
    ensures Quiet(st, st', p)
  {}

  lemma FinishLimit(st: State, st': State, p: ProcId)
    requires LimitOk(st) && FinishCreate(st, st', p)
    ensures LimitOk(st')
  {
    CountMove(st.procs, p, st'.procs[p]);
  }

  lemma KeepsFinishCreate(st: State, st': State, p: ProcId)
    requires Inv(st) && FinishCreate(st, st', p)
    ensures Inv(st')
  {
    FinishQuiet(st, st', p);
    FinishLimit(st, st', p);
    QuietMove(st, st', p);
  }

  // ---- the call ----

  /** What a move within a creation call leaves untouched. */
  ghost predicate OnlyCall(st: State, st': State, p: ProcId) {
    && SameLimit(st, st', p) && SameChans(st, st', p) && SameSess(st, st', p) && SameDrain(st, st', p)
    && SameProcs(st, st', p) && st'.pool == st.pool
  }

  lemma OnlyCallMove(st: State, st': State, p: ProcId)
    requires PoolOk(st) && OnlyCall(st, st', p)
    ensures PoolOk(st')
  {
    LimitFrame(st, st', p);
    ChansFrame(st, st', p);
    SessFrame(st, st', p);
    DrainFrame(st, st', p);
    ProcsFrame(st, st', p);
  }

  lemma BuildFailsCalls(st: State, st': State, c: ProcId)
    requires CallsOk(st) && BuildFails(st, st', c)
    ensures CallsOk(st')
  {
    OtherCalls(st, st', c);
    assert Creates(st'.procs[c], st'.procs[c].call);
  }

  lemma AbandonCalls(st: State, st': State, p: ProcId, b: bool)
    requires CallsOk(st) && Abandon(st, st', p, b)
    ensures CallsOk(st')
  {
    OtherCalls(st, st', p);
  }

  lemma CallMoves(st: State, st': State, p: ProcId, b: bool)
    requires BuildFails(st, st', p) || Abandon(st, st', p, b)
    ensures OnlyCall(st, st', p)
  {}

  lemma KeepsBuildFails(st: State, st': State, c: ProcId)
    requires Inv(st) && BuildFails(st, st', c)
    ensures Inv(st')
  {
    CallMoves(st, st', c, false);
    OnlyCallMove(st, st', c);
    BuildFailsCalls(st, st', c);
  }

  lemma KeepsAbandon(st: State, st': State, p: ProcId, b: bool)
    requires Inv(st) && Abandon(st, st', p, b)
    ensures Inv(st')
  {
    CallMoves(st, st', p, b);
    OnlyCallMove(st, st', p);
    AbandonCalls(st, st', p, b);
  }

  lemma CancelCalls(st: State, st': State, call: nat)
    requires CallsOk(st) && Cancel(st, st', call)
    ensures CallsOk(st')
  {}

  // ---- starting the creator ----

  lemma SpawnMoves(st: State, mid: State, st': State, p: ProcId)
    requires SpawnCreator(st, st', p) && st.nextProc !in st.procs
    requires mid == st.(procs := st.procs[p := Await(st.procs[p].i, st.nextCall)], nextCall := st.nextCall + 1)
    ensures OnlyCall(st, mid, p)
    ensures if st.pool.done then st' == mid else OnlyCall(mid, st', st.nextProc)
  {}

  lemma SpawnPairs(st: State, st': State, p: ProcId)
    requires PairsOk(st) && SpawnCreator(st, st', p) && st.nextProc !in st.procs
    ensures PairsOk(st')
  {
    var mid := st.(procs := st.procs[p := Await(st.procs[p].i, st.nextCall)], nextCall := st.nextCall + 1);
    OtherCalls(st, mid, p);
    if !st.pool.done {
      OtherCalls(mid, st', st.nextProc);
      assert Creates(st'.procs[st.nextProc], st.nextCall);
      assert HasCreator(st'.procs, st.nextCall);
      assert st'.procs[p].Await? && st'.procs[p].call == st.nextCall;
      assert HasCaller(st'.procs, st.nextCall);
    }
  }

  lemma SpawnFates(st: State, st': State, p: ProcId)
    requires FatesOk(st) && SpawnCreator(st, st', p) && st.nextProc !in st.procs
    ensures FatesOk(st')
  {
    var mid := st.(procs := st.procs[p := Await(st.procs[p].i, st.nextCall)], nextCall := st.nextCall + 1);
    OtherCalls(st, mid, p);
    if !st.pool.done { OtherCalls(mid, st', st.nextProc); }
  }

  lemma SpawnCallIds(st: State, st': State, p: ProcId)
    requires CallIdsOk(st) && SpawnCreator(st, st', p) && st.nextProc !in st.procs
    ensures CallIdsOk(st')
  {}

  lemma KeepsSpawnCreator(st: State, st': State, p: ProcId)
    requires Inv(st) && SpawnCreator(st, st', p)
    ensures Inv(st')
  {
    var mid := st.(procs := st.procs[p := Await(st.procs[p].i, st.nextCall)], nextCall := st.nextCall + 1);
    SpawnMoves(st, mid, st', p);
    OnlyCallMove(st, mid, p);
    if !st.pool.done { OnlyCallMove(mid, st', st.nextProc); }
    SpawnPairs(st, st', p);
    SpawnFates(st, st', p);
    SpawnCallIds(st, st', p);
  }

  // ---- building ----

  lemma BuildDoneSess(st: State, st': State, c: ProcId)
    requires SessOk(st) && BuildDone(st, st', c)
    ensures SessOk(st')
    ensures st.nextSession !in st.sess && st.nextSession !in st.pool.index
  {
    forall s | s in st.sess ensures s < st.nextSession { assert SessionOk(st, s, st.sess[s]); }
    forall s | s in st.sess ensures SessionOk(st', s, st.sess[s]) {
      assert SessionOk(st, s, st.sess[s]);
      if q :| q in st.procs && AddsHook(st.procs[q], s) { assert AddsHook(st'.procs[q], s); }
    }
  }

  lemma BuildDoneProcs(st: State, st': State, c: ProcId)
    requires ProcsOk(st) && BuildDone(st, st', c)
    requires st.nextSession !in st.sess && st.nextSession !in st.pool.index
    ensures ProcsOk(st')
  {
    forall q | q in st.procs && q != c ensures PcOk(st', q, st.procs[q]) && Held(st.procs[q]) != Some(st.nextSession) {
      BuildDonePc(st, st', c, q);
    }
    ProcsMove(st, st', c);
  }

  lemma BuildDonePc(st: State, st': State, c: ProcId, q: ProcId)
    requires BuildDone(st, st', c) && q in st.procs && PcOk(st, q, st.procs[q]) && st.nextSession !in st.sess
    ensures PcOk(st', q, st.procs[q]) && Held(st.procs[q]) != Some(st.nextSession)
  {
    var pc := st.procs[q];
    if (pc.PutPool? || pc.PutClosed?) && Safe(st, pc.s) {
      SafeFrame(st, st', c, pc.s);
    }
  }

  lemma BuildDoneCalls(st: State, st': State, c: ProcId)
    requires CallsOk(st) && BuildDone(st, st', c) && st.nextSession !in st.sess
    ensures CallsOk(st')
  {
    OtherCalls(st, st', c);
    assert Creates(st'.procs[c], st'.procs[c].call);
    assert st'.procs[c].Offer? && st'.procs[c].built == Some(st.nextSession);
  }

  lemma BuildDoneRest(st: State, st': State, c: ProcId)
    requires BuildDone(st, st', c)
    ensures SameLimit(st, st', c) && SameChans(st, st', c) && SameDrain(st, st', c) && st'.pool == st.pool
  {}

  lemma KeepsBuildDone(st: State, st': State, c: ProcId)
    requires Inv(st) && BuildDone(st, st', c)
    ensures Inv(st')
  {
    BuildDoneSess(st, st', c);
    BuildDoneProcs(st, st', c);
    BuildDoneCalls(st, st', c);
    BuildDoneRest(st, st', c);
    LimitFrame(st, st', c);
    ChansFrame(st, st', c);
    DrainFrame(st, st', c);
  }

  // ---- delivering and discarding ----

  lemma OffererGone(st: State, c: ProcId)
    requires ProcsOk(st) && c in st.procs && Held(st.procs[c]).Some?
    ensures Free(Move(st, c, End), Held(st.procs[c]).value)
  {
    var mid := Move(st, c, End);
    forall q | q in mid.procs ensures Held(mid.procs[q]) != Held(st.procs[c]) {
      if q != c { assert !SameHeld(st.procs[q], st.procs[c]); }
    }
  }

  lemma CreatorLeaves(st: State, mid: State, c: ProcId)
    requires c in st.procs && st.procs[c].Offer? && mid == Move(st, c, End) && PcOk(st, c, st.procs[c])
    ensures OnlyCall(st, mid, c)
  {}

  lemma CallerReceives(st: State, mid: State, st': State, p: ProcId, c: ProcId, b: bool)
    requires Deliver(st, st', p, c, b) && mid == Move(st, c, End) && PcOk(st, c, st.procs[c])
    requires st.procs[c].built.Some? ==> Free(mid, st.procs[c].built.value)
    ensures OnlyCall(mid, st', p)
  {}

  lemma DeliverMoves(st: State, mid: State, st': State, p: ProcId, c: ProcId, b: bool)
    requires ProcsOk(st) && Deliver(st, st', p, c, b) && mid == Move(st, c, End)
    ensures OnlyCall(st, mid, c) && OnlyCall(mid, st', p)
    ensures st.procs[c].built.Some? ==> Free(mid, st.procs[c].built.value)
  {
    if st.procs[c].built.Some? { OffererGone(st, c); }
    CreatorLeaves(st, mid, c);
    CallerReceives(st, mid, st', p, c, b);
  }

  lemma DeliverCallIds(st: State, st': State, p: ProcId, c: ProcId, b: bool)
    requires CallIdsOk(st) && Deliver(st, st', p, c, b)
    ensures CallIdsOk(st')
  {}

  lemma DeliverPairs(st: State, st': State, p: ProcId, c: ProcId, b: bool)
    requires CallIdsOk(st) && PairsOk(st) && Deliver(st, st', p, c, b)
    ensures PairsOk(st')
  {
    var mid := Move(st, c, End);
    OtherCalls(st, mid, c);
    OtherCalls(mid, st', p);
    forall q | q in st'.procs && st'.procs[q].Await? ensures st'.procs[q].call != st.procs[c].call {
      assert !SameCall(st.procs[q], st.procs[p]);
    }
    forall q | q in st'.procs && (st'.procs[q].Build? || st'.procs[q].Offer?) ensures st'.procs[q].call != st.procs[c].call {
      assert !SameCall(st.procs[q], st.procs[c]);
    }
  }

  lemma DeliverFates(st: State, st': State, p: ProcId, c: ProcId, b: bool)
    requires FatesOk(st) && Deliver(st, st', p, c, b)
    requires st.procs[c].built.Some? ==> Free(Move(st, c, End), st.procs[c].built.value)
    ensures FatesOk(st')
  {
    var mid := Move(st, c, End);
    OtherCalls(st, mid, c);
    OtherCalls(mid, st', p);
    if st.procs[c].built.Some? {
      NotOffered(mid, st.procs[c].built.value);
      assert Offered(st.procs, st.procs[c].built.value);
    }
  }

  lemma NotOffered(st: State, s: SessionId)
    requires Free(st, s)
    ensures !Offered(st.procs, s)
  {}

  lemma KeepsDeliver(st: State, st': State, p: ProcId, c: ProcId, b: bool)
    requires Inv(st) && Deliver(st, st', p, c, b)
    ensures Inv(st')
  {
    var mid := Move(st, c, End);
    DeliverMoves(st, mid, st', p, c, b);
    OnlyCallMove(st, mid, c);
    OnlyCallMove(mid, st', p);
    DeliverCallIds(st, st', p, c, b);
    DeliverPairs(st, st', p, c, b);
    DeliverFates(st, st', p, c, b);
  }

  lemma CreatorCloses(st: State, st': State, c: ProcId)
    requires Discard(st, st', c) && PcOk(st, c, st.procs[c])
    ensures OnlyCall(st, st', c)
  {}

  lemma DiscardMoves(st: State, st': State, c: ProcId)
    requires ProcsOk(st) && Discard(st, st', c)
    ensures OnlyCall(st, st', c)
    ensures st.procs[c].built.Some? ==> Free(Move(st, c, End), st.procs[c].built.value)
  {
    if st.procs[c].built.Some? { OffererGone(st, c); }
    CreatorCloses(st, st', c);
  }

  lemma DiscardCalls(st: State, st': State, c: ProcId)
    requires CallIdsOk(st) && PairsOk(st) && Discard(st, st', c)
    ensures CallIdsOk(st') && PairsOk(st')
  {
    OtherCalls(st, st', c);
  }

  lemma DiscardFates(st: State, st': State, c: ProcId)
    requires FatesOk(st) && Discard(st, st', c)
    requires st.procs[c].built.Some? ==> Free(Move(st, c, End), st.procs[c].built.value)
    ensures FatesOk(st')
  {
    var mid := Move(st, c, End);
    OtherCalls(st, mid, c);
    OtherCalls(mid, st', c);
    if st.procs[c].built.Some? {
      NotOffered(mid, st.procs[c].built.value);
      assert Offered(st.procs, st.procs[c].built.value);
    }
  }

  lemma KeepsDiscard(st: State, st': State, c: ProcId)
    requires Inv(st) && Discard(st, st', c)
    ensures Inv(st')
  {
    DiscardMoves(st, st', c);
    OnlyCallMove(st, st', c);
    DiscardCalls(st, st', c);
    DiscardFates(st, st', c);
  }

  // ---- entering the index ----

  lemma RegisterSess(st: State, st': State, p: ProcId, now: int)
    requires SessOk(st) && RunOnCreate(st, st', p, now) && PcOk(st, p, st.procs[p])
    ensures SessOk(st')
  {
    forall s | s in st.sess ensures SessionOk(st', s, st.sess[s]) {
      assert SessionOk(st, s, st.sess[s]);
      if q :| q in st.procs && AddsHook(st.procs[q], s) { assert AddsHook(st'.procs[q], s); }
      if s == st.procs[p].s { assert AddsHook(st'.procs[p], s); }
    }
  }

  lemma RegisterPc(st: State, st': State, p: ProcId, now: int, q: ProcId)
    requires RunOnCreate(st, st', p, now) && PcOk(st, p, st.procs[p])
    requires q in st.procs && q != p && PcOk(st, q, st.procs[q]) && !SameHeld(st.procs[q], st.procs[p])
    ensures PcOk(st', q, st.procs[q])
  {
    var pc := st.procs[q];
    if (pc.PutPool? || pc.PutClosed?) && Safe(st, pc.s) { SafeFrame(st, st', p, pc.s); }
  }

  lemma RegisterProcs(st: State, st': State, p: ProcId, now: int)
    requires ProcsOk(st) && RunOnCreate(st, st', p, now)
    ensures ProcsOk(st')
  {
    forall q | q in st.procs && q != p ensures PcOk(st', q, st.procs[q]) { RegisterPc(st, st', p, now, q); }
    ProcsMove(st, st', p);
  }

  lemma RegisterRest(st: State, st': State, p: ProcId, now: int)
    requires RunOnCreate(st, st', p, now)
    ensures SameChans(st, st', p) && SameCalls(st, st', p)
  {}

  lemma RegisterLimit(st: State, st': State, p: ProcId, now: int)
    requires LimitOk(st) && RunOnCreate(st, st', p, now) && st.procs[p].s !in st.pool.index
    ensures LimitOk(st')
  {
    CountMove(st.procs, p, st'.procs[p]);
    IndexGrows(st.pool.index, st.procs[p].s, SessionInfo(None, now));
  }

  lemma IndexGrows(index: map<SessionId, SessionInfo>, s: SessionId, info: SessionInfo)
    requires s !in index
    ensures |index[s := info]| == |index| + 1
  {
    assert index[s := info].Keys == index.Keys + {s};
    assert |index[s := info].Keys| == |index.Keys| + 1;
  }

  lemma RegisterDrain(st: State, st': State, p: ProcId, now: int)
    requires DrainOk(st) && IdleOk(st.pool) && RunOnCreate(st, st', p, now) && st.procs[p].s !in st.pool.index
    ensures DrainOk(st') && IdleOk(st'.pool)
  {
    var mid := Move(st, p, st'.procs[p]);
    DrainFrame(st, mid, p);
    assert Held(st'.procs[p]) == Some(st.procs[p].s);
    assert IsHeld(st'.procs, st.procs[p].s);
  }

  lemma KeepsRunOnCreate(st: State, st': State, p: ProcId, now: int)
    requires Inv(st) && RunOnCreate(st, st', p, now)
    ensures Inv(st')
  {
    RegisterProcs(st, st', p, now);
    RegisterSess(st, st', p, now);
    RegisterRest(st, st', p, now);
    RegisterLimit(st, st', p, now);
    RegisterDrain(st, st', p, now);
    ChansFrame(st, st', p);
    CallsFrame(st, st', p);
  }

  // ---- appending the hook ----

  lemma HookPc(st: State, st': State, p: ProcId, q: ProcId)
    requires AppendHook(st, st', p) && PcOk(st, p, st.procs[p])
    requires q in st.procs && q != p && PcOk(st, q, st.procs[q]) && !SameHeld(st.procs[q], st.procs[p])
    ensures PcOk(st', q, st.procs[q])
  {
    var pc := st.procs[q];
    if (pc.PutPool? || pc.PutClosed?) && Safe(st, pc.s) { SafeFrame(st, st', p, pc.s); }
  }

  lemma HookProcs(st: State, st': State, p: ProcId)
    requires ProcsOk(st) && AppendHook(st, st', p)
    ensures ProcsOk(st')
  {
    forall q | q in st.procs && q != p ensures PcOk(st', q, st.procs[q]) { HookPc(st, st', p, q); }
    ProcsMove(st, st', p);
  }

  lemma HookSess(st: State, st': State, p: ProcId)
    requires SessOk(st) && AppendHook(st, st', p) && PcOk(st, p, st.procs[p])
    ensures SessOk(st')
  {
    forall s | s in st.sess ensures SessionOk(st', s, st'.sess[s]) {
      assert SessionOk(st, s, st.sess[s]);
      if q :| q in st.procs && AddsHook(st.procs[q], s) && q != p { assert AddsHook(st'.procs[q], s); }
    }
  }

  lemma HookRest(st: State, st': State, p: ProcId)
    requires AppendHook(st, st', p)
    ensures SameChans(st, st', p) && SameCalls(st, st', p) && SameLimit(st, st', p) && SameDrain(st, st', p)
    ensures st'.pool == st.pool
  {}

  lemma KeepsAppendHook(st: State, st': State, p: ProcId)
    requires Inv(st) && AppendHook(st, st', p)
    ensures Inv(st')
  {
    HookProcs(st, st', p);
    HookSess(st, st', p);
    HookRest(st, st', p);
    ChansFrame(st, st', p);
    CallsFrame(st, st', p);
    LimitFrame(st, st', p);
    DrainFrame(st, st', p);
  }
}
