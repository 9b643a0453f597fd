/** The table client's pool as the object it is: fields that the critical sections update
    in place. Each method is proved to do what the protocol takes for one step. */
module TableClient {
  import opened SessionPool

  class Client {
    var index: map<SessionId, SessionInfo>
    var createInProgress: int
    var limit: int
    var idle: seq<Elem<SessionId>>
    var waitQ: seq<Elem<ChanId>>
    var done: bool
    var nextElem: ElemId
    var chans: map<ChanId, Chan>
    var fault: bool

    ghost function View(): Pool
      reads this
    {
      Pool(index, createInProgress, limit, idle, waitQ, done, nextElem, chans, fault)
    }

    constructor (sizeLimit: int)
      ensures View() == Pool(map[], 0, sizeLimit, [], [], false, 0, map[], false)
    {
      index, createInProgress, limit, idle, waitQ := map[], 0, sizeLimit, [], [];
      done, nextElem, chans, fault := false, 0, map[], false;
    }

    /** internalPoolNotify: closes the channels of waiters that miss their turn until one
        is parked and receives. */
    method NotifyWaiter() returns (to: Option<ProcId>)
      modifies this
      ensures (View(), to) == Notify(old(View()))
    {
      while waitQ != []
        invariant Notify(View()) == Notify(old(View()))
        decreases |waitQ|
      {
        var ch := waitQ[0].value;
        waitQ := waitQ[1..];
        if ch !in chans || !chans[ch].open {
          fault := true;
          return None;
        }
        if chans[ch].receiver.Some? {
          to := chans[ch].receiver;
          chans := chans[ch := Chan(true, None)];
          return;
        }
        chans := chans[ch := Chan(false, None)];
      }
      return None;
    }

    /** internalPoolRemoveFirstIdle */
    method RemoveFirstIdle() returns (s: Option<SessionId>)
      modifies this
      ensures (View(), s) == PopFirstIdle(old(View()))
    {
      if idle == [] { return None; }
      var el := idle[0];
      if el.value !in index || index[el.value].idle != Some(el.id) {
        fault := true;
        return None;
      }
      RemoveIdle(el.value);
      return Some(el.value);
    }

    /** internalPoolRemoveIdle */
    method RemoveIdle(s: SessionId)
      modifies this
      ensures s in old(index) && old(index[s].idle).Some? ==>
        View() == old(View()).(idle := Without(old(idle), old(index[s].idle.value)),
                               index := old(index)[s := old(index[s]).(idle := None)])
      ensures s !in old(index) || old(index[s].idle).None? ==> View() == old(View()).(fault := true)
    {
      if s !in index || index[s].idle.None? {
        fault := true;
        return;
      }
      idle := Without(idle, index[s].idle.value);
      index := index[s := index[s].(idle := None)];
    }

    /** internalPoolPushIdle */
    method PushBackIdle(s: SessionId, now: int)
      modifies this
      ensures View() == PushIdle(old(View()), s, now)
      ensures s in old(index) && old(index[s].idle).None? ==>
        && |idle| == |old(idle)| + 1 && idle[..|old(idle)|] == old(idle) && idle[|old(idle)|].value == s
        && s in index && index[s] == SessionInfo(Some(idle[|old(idle)|].id), now)
    {
      if s !in index || index[s].idle.Some? {
        fault := true;
        return;
      }
      idle := idle + [Elem(nextElem, s)];
      index := index[s := SessionInfo(Some(nextElem), now)];
      nextElem := nextElem + 1;
    }

    /** The locked part of Put. */
    method PutSession(s: SessionId, now: int) returns (out: PutOutcome)
      modifies this
      ensures (View(), out) == PutLocked(old(View()), s, now)
    {
      if |idle| >= limit { return Overflow; }
      var to := NotifyWaiter();
      if to.Some? { return Handed(to.value); }
      PushBackIdle(s, now);
      return Stored;
    }

    /** The size check of internalPoolCreateSession. */
    method ReservePlace() returns (enoughSpace: bool)
      modifies this
      ensures (View(), enoughSpace) == TryReserve(old(View()))
    {
      enoughSpace := createInProgress + |index| < limit;
      if enoughSpace { createInProgress := createInProgress + 1; }
    }

    /** The onClose hook of a pooled session. */
    method RemoveSession(s: SessionId) returns (to: Option<ProcId>)
      modifies this
      ensures (View(), to) == Unregister(old(View()), s)
    {
      to := None;
      if s !in index {
        fault := true;
        return;
      }
      var info := index[s];
      index := index - {s};
      if !done { to := NotifyWaiter(); }
      if info.idle.Some? { idle := Without(idle, info.idle.value); }
    }

    /** The scan of internalPoolGCTick; yields the sessions to close. */
    method CollectExpired(now: int, threshold: int) returns (expired: seq<SessionId>)
      modifies this
      ensures var (ss, ok) := Expired(old(index), old(idle), now, threshold);
        if old(done) then View() == old(View()) && expired == []
        else View() == old(View()).(fault := old(fault) || !ok) && (ok ==> expired == ss)
    {
      expired := [];
      if done { return; }
      var i := 0;
      while i < |idle|
        invariant 0 <= i <= |idle| && View() == old(View())
        invariant var (ss, ok) := Expired(index, idle, now, threshold);
                  var (rest, restOk) := Expired(index, idle[i..], now, threshold);
                  ok == restOk && (ok ==> ss == expired + rest)
      {
        var s := idle[i].value;
        assert idle[i..][0] == idle[i] && idle[i..][1..] == idle[i + 1..];
        if s !in index || index[s].idle.None? {
          fault := true;
          return;
        }
        if now - index[s].touched > threshold { expired := expired + [s]; }
        i := i + 1;
      }
      assert idle[i..] == [];
    }

    /** The locked part of Close; yields the idle sessions to close. */
    method CloseClient() returns (toClose: seq<SessionId>)
      modifies this
      ensures View() == Shutdown(old(View()))
      ensures toClose == if old(done) || fault then [] else Sessions(old(idle))
    {
      toClose := [];
      if done { return; }
      done := true;
      limit := 0;
      var i := 0;
      while i < |waitQ|
        invariant 0 <= i <= |waitQ|
        invariant View() == old(View()).(done := true, limit := 0, chans := chans)
        invariant CloseAll(chans, waitQ[i..]) == CloseAll(old(chans), old(waitQ))
      {
        var ch := waitQ[i].value;
        assert waitQ[i..][0] == waitQ[i] && waitQ[i..][1..] == waitQ[i + 1..];
        if ch !in chans || !chans[ch].open {
          fault := true;
          return;
        }
        chans := chans[ch := chans[ch].(open := false)];
        i := i + 1;
      }
      assert waitQ[i..] == [];
      if fault { return; }
      i := 0;
      while i < |idle|
        invariant 0 <= i <= |idle| && toClose == Sessions(idle[..i])
      {
        toClose := toClose + [idle[i].value];
        i := i + 1;
      }
      assert idle[..i] == idle;
    }
  }
}
