/** The table client's session pool: the fields guarded by `Client.mu` and the
    effect of each critical section on them, as functions on values. */
module SessionPool {

  datatype Option<+T> = None | Some(value: T)

  type SessionId = nat
  type ProcId = nat
  type ChanId = nat
  type ElemId = nat

  /** An element of a doubly linked list; `id` stands for its address. */
  datatype Elem<+T> = Elem(id: ElemId, value: T)

  /** An unbuffered channel of sessions. `receiver` is the goroutine parked on it. */
  datatype Chan = Chan(open: bool, receiver: Option<ProcId>)

  datatype SessionInfo = SessionInfo(idle: Option<ElemId>, touched: int)

  /** The pool's fields. `fault` records that a panic was reached: one of the
      pool's own consistency panics, a send on a closed channel or a second close. */
  datatype Pool = Pool(
    index: map<SessionId, SessionInfo>,
    createInProgress: int,
    limit: int,
    idle: seq<Elem<SessionId>>,
    waitQ: seq<Elem<ChanId>>,
    done: bool,
    nextElem: ElemId,
    chans: map<ChanId, Chan>,
    fault: bool)

  /** `list.Remove`: a list that does not hold the element is unchanged. */
  function Without<T>(l: seq<Elem<T>>, e: ElemId): seq<Elem<T>> {
    if l == [] then []
    else if l[0].id == e then l[1..]
    else [l[0]] + Without(l[1..], e)
  }

  function Values<T>(l: seq<Elem<T>>): set<T> {
    set i | 0 <= i < |l| :: l[i].value
  }

  /** Serves a wait queue in order: a parked waiter receives the session, a waiter that is
      not at its select has its channel closed and the next one is tried. Yields the
      channels, the rest of the queue, the waiter served, and `false` when a send panics. */
  function Serve(chans: map<ChanId, Chan>, q: seq<Elem<ChanId>>)
    : (map<ChanId, Chan>, seq<Elem<ChanId>>, Option<ProcId>, bool)
    decreases |q|
  {
    if q == [] then (chans, q, None, true) else
    var ch := q[0].value;
    if ch !in chans || !chans[ch].open then (chans, q[1..], None, false)
    else if chans[ch].receiver.Some? then (chans[ch := Chan(true, None)], q[1..], chans[ch].receiver, true)
    else Serve(chans[ch := Chan(false, None)], q[1..])
  }

  function Notify(p: Pool): (Pool, Option<ProcId>) {
    var (chans, q, to, ok) := Serve(p.chans, p.waitQ);
    (p.(chans := chans, waitQ := q, fault := p.fault || !ok), to)
  }

  /** Takes the first idle session out of the idle list. */
  function PopFirstIdle(p: Pool): (Pool, Option<SessionId>) {
    if p.idle == [] then (p, None) else
    var el := p.idle[0];
    if el.value !in p.index || p.index[el.value].idle != Some(el.id) then (p.(fault := true), None)
    else
      var info := p.index[el.value].(idle := None);
      (p.(idle := Without(p.idle, el.id), index := p.index[el.value := info]), Some(el.value))
  }

  function PushIdle(p: Pool, s: SessionId, now: int): Pool {
    if s !in p.index || p.index[s].idle.Some? then p.(fault := true)
    else p.(idle := p.idle + [Elem(p.nextElem, s)],
            index := p.index[s := SessionInfo(Some(p.nextElem), now)],
            nextElem := p.nextElem + 1)
  }

  datatype PutOutcome = Overflow | Handed(to: ProcId) | Stored

  /** The locked part of `Put`. */
  function PutLocked(p: Pool, s: SessionId, now: int): (Pool, PutOutcome) {
    if |p.idle| >= p.limit then (p, Overflow) else
    var (q, to) := Notify(p);
    if to.Some? then (q, Handed(to.value)) else (PushIdle(q, s, now), Stored)
  }

  /** The size check that precedes a creation. */
  function TryReserve(p: Pool): (Pool, bool) {
    if p.createInProgress + |p.index| < p.limit
    then (p.(createInProgress := p.createInProgress + 1), true)
    else (p, false)
  }

  function Release(p: Pool): Pool { p.(createInProgress := p.createInProgress - 1) }

  /** The onCreate hook: a built session enters the index. */
  function Register(p: Pool, s: SessionId, now: int): Pool {
    p.(index := p.index[s := SessionInfo(None, now)])
  }

  /** The onClose hook: a session leaves the index and the idle list. */
  function Unregister(p: Pool, s: SessionId): (Pool, Option<ProcId>) {
    if s !in p.index then (p.(fault := true), None) else
    var info := p.index[s];
    var q := p.(index := p.index - {s});
    var (r, to) := if p.done then (q, None) else Notify(q);
    (if info.idle.Some? then r.(idle := Without(r.idle, info.idle.value)) else r, to)
  }

  function Enqueue(p: Pool, ch: ChanId): Pool {
    p.(waitQ := p.waitQ + [Elem(p.nextElem, ch)],
       nextElem := p.nextElem + 1,
       chans := if ch in p.chans then p.chans else p.chans[ch := Chan(true, None)])
  }

  function Dequeue(p: Pool, el: ElemId): Pool { p.(waitQ := Without(p.waitQ, el)) }

  /** Closes the queued channels in order; `false` when one is already closed, which panics. */
  function CloseAll(chans: map<ChanId, Chan>, q: seq<Elem<ChanId>>): (map<ChanId, Chan>, bool) {
    if q == [] then (chans, true) else
    var ch := q[0].value;
    if ch !in chans || !chans[ch].open then (chans, false)
    else CloseAll(chans[ch := chans[ch].(open := false)], q[1..])
  }

  function Sessions(l: seq<Elem<SessionId>>): seq<SessionId> {
    seq(|l|, i requires 0 <= i < |l| => l[i].value)
  }

  /** The locked part of `Client.Close`. */
  function Shutdown(p: Pool): Pool {
    if p.done then p else
    var (chans, ok) := CloseAll(p.chans, p.waitQ);
    p.(done := true, limit := 0, chans := chans, fault := p.fault || !ok)
  }

  /** The idle sessions a collector tick closes; `false` when the scan panics. */
  function Expired(index: map<SessionId, SessionInfo>, l: seq<Elem<SessionId>>, now: int, threshold: int)
    : (seq<SessionId>, bool)
  {
    if l == [] then ([], true) else
    var s := l[0].value;
    if s !in index || index[s].idle.None? then ([], false) else
    var (rest, ok) := Expired(index, l[1..], now, threshold);
    (if now - index[s].touched > threshold then [s] + rest else rest, ok)
  }
}
