/** How the critical sections keep the idle list and the wait queue consistent. */
module PoolLists {
  import opened SessionPool
  import opened PoolInvariant

  lemma {:induction false} WithoutIs<T>(l: seq<Elem<T>>, e: ElemId, next: ElemId)
    requires Distinct(l, next)
    ensures Distinct(Without(l, e), next)
    ensures forall j :: 0 <= j < |Without(l, e)| ==> Without(l, e)[j] in l && Without(l, e)[j].id != e
    ensures forall j :: 0 <= j < |l| && l[j].id != e ==> l[j] in Without(l, e)
  {
    if l != [] && l[0].id != e {
      var t := l[1..];
      var r := Without(t, e);
      WithoutIs(t, e, next);
      forall j | 0 <= j < |r| ensures r[j].id != l[0].id { assert r[j] in t; }
      forall j | 1 <= j < |l| && l[j].id != e ensures l[j] in [l[0]] + r { assert t[j - 1] in r; }
    }
  }

  lemma PopKeepsIdle(p: Pool)
    requires IdleOk(p)
    ensures var (q, s) := PopFirstIdle(p);
      && IdleOk(q) && q.fault == p.fault
      && (s.None? <==> p.idle == [])
      && (s.Some? ==> s.value == p.idle[0].value && q.idle == p.idle[1..])
      && (s.Some? ==> s.value in p.index && p.index[s.value].idle.Some? && q.index == p.index[s.value := p.index[s.value].(idle := None)])
      && q == p.(idle := q.idle, index := q.index)
      && (forall x :: x in q.idle ==> x in p.idle)
  {
    if p.idle != [] {
      WithoutIs(p.idle, p.idle[0].id, p.nextElem);
    }
  }

  lemma PushKeepsIdle(p: Pool, s: SessionId, now: int)
    requires IdleOk(p) && s in p.index && p.index[s].idle == None
    ensures IdleOk(PushIdle(p, s, now))
  {
  }

  // ---- the wait queue ----

  /** Every queued channel is known and open, and no channel is queued twice. */
  ghost predicate AllOpen(chans: map<ChanId, Chan>, q: seq<Elem<ChanId>>) {
    && (forall k :: 0 <= k < |q| ==> q[k].value in chans && chans[q[k].value].open)
    && (forall i, j :: 0 <= i < j < |q| ==> q[i].value != q[j].value)
  }

  /** Queue `q` was served up to its element `n`: the waiters before the served one
      missed their turn and had their channels closed, the served one was parked. */
  ghost predicate Served(chans: map<ChanId, Chan>, q: seq<Elem<ChanId>>, to: Option<ProcId>, n: nat,
                         chans': map<ChanId, Chan>, q': seq<Elem<ChanId>>)
  {
    && n <= |q| && q' == q[n..] && chans'.Keys == chans.Keys
    && (forall k :: 0 <= k < n ==> q[k].value in chans)
    && (forall ch :: ch in chans && ch !in Values(q[..n]) ==> chans'[ch] == chans[ch])
    && (forall k :: 0 <= k < n && (to.None? || k < n - 1) ==>
          chans[q[k].value].receiver == None && chans'[q[k].value] == Chan(false, None))
    && (to.Some? ==> n > 0 && chans[q[n - 1].value].receiver == to && chans'[q[n - 1].value] == Chan(true, None))
    && (to.None? ==> n == |q|)
  }

  /** The first parked waiter of the queue is served; nobody else receives anything. */
  lemma {:induction false} ServeIs(chans: map<ChanId, Chan>, q: seq<Elem<ChanId>>) returns (n: nat)
    requires AllOpen(chans, q)
    ensures var (chans', q', to, ok) := Serve(chans, q); ok && Served(chans, q, to, n, chans', q')
    decreases |q|
  {
    n := 0;
    if q != [] {
      var ch := q[0].value;
      if chans[ch].receiver.None? {
        var rest := chans[ch := Chan(false, None)];
        n := ServeIs(rest, q[1..]);
        var (chans', q', to, ok) := Serve(chans, q);
        ServedNext(chans, q, to, n, chans', q');
      }
      n := n + 1;
    }
  }

  lemma ServedNext(chans: map<ChanId, Chan>, q: seq<Elem<ChanId>>, to: Option<ProcId>, n: nat,
                   chans': map<ChanId, Chan>, q': seq<Elem<ChanId>>)
    requires AllOpen(chans, q) && q != [] && chans[q[0].value].receiver.None?
    requires Served(chans[q[0].value := Chan(false, None)], q[1..], to, n, chans', q')
    ensures Served(chans, q, to, n + 1, chans', q')
  {
    var r := q[1..];
    assert forall k :: 0 < k <= n ==> q[k] == r[k - 1];
    assert q[0].value !in Values(r[..n]);
    forall ch | ch in chans && ch !in Values(q[..n + 1]) ensures chans'[ch] == chans[ch] {
      assert q[..n + 1][0] == q[0];
      forall k | 0 <= k < n ensures r[..n][k].value != ch { assert q[..n + 1][k + 1] == r[k]; }
    }
  }

  lemma EnqueueKeepsQueue(p: Pool, ch: ChanId)
    requires QueueOk(p) && ch !in Values(p.waitQ) && (ch in p.chans ==> p.chans[ch].open)
    ensures QueueOk(Enqueue(p, ch))
  {
    var q := Enqueue(p, ch);
    forall i | 0 <= i < |p.waitQ| ensures p.waitQ[i].value != ch { assert p.waitQ[i].value in Values(p.waitQ); }
  }

  lemma DequeueKeepsQueue(p: Pool, el: ElemId)
    requires QueueOk(p)
    ensures QueueOk(Dequeue(p, el))
  {
    WithoutIs(p.waitQ, el, p.nextElem);
    var r := Without(p.waitQ, el);
    forall i, j | 0 <= i < j < |r| ensures r[i].value != r[j].value {
      assert r[i] in p.waitQ && r[j] in p.waitQ && r[i].id != r[j].id;
    }
  }

  /** Closing the queued channels of an open client closes each once and no other. */
  lemma {:induction false} CloseAllIs(chans: map<ChanId, Chan>, q: seq<Elem<ChanId>>)
    requires AllOpen(chans, q)
    ensures var (r, ok) := CloseAll(chans, q);
      && ok && r.Keys == chans.Keys
      && forall ch :: ch in chans ==> r[ch] == (if ch in Values(q) then chans[ch].(open := false) else chans[ch])
    decreases |q|
  {
    if q != [] {
      var ch0 := q[0].value;
      CloseAllIs(chans[ch0 := chans[ch0].(open := false)], q[1..]);
      assert Values(q) == {ch0} + Values(q[1..]) by {
        forall v | v in Values(q) ensures v == ch0 || v in Values(q[1..]) {
          var i :| 0 <= i < |q| && q[i].value == v;
          if i > 0 { assert q[1..][i - 1].value == v; }
        }
        forall v | v in Values(q[1..]) ensures v in Values(q) {
          var i :| 0 <= i < |q[1..]| && q[1..][i].value == v;
          assert q[i + 1].value == v;
        }
      }
    }
  }

  lemma {:induction false} ExpiredIs(index: map<SessionId, SessionInfo>, l: seq<Elem<SessionId>>, now: int, threshold: int)
    requires forall j :: 0 <= j < |l| ==> l[j].value in index && index[l[j].value].idle.Some?
    ensures var (ss, ok) := Expired(index, l, now, threshold);
      && ok
      && (forall j :: 0 <= j < |l| ==> (l[j].value in ss <==> now - index[l[j].value].touched > threshold))
      && (forall k :: 0 <= k < |ss| ==>
            ss[k] in index && index[ss[k]].idle.Some? && now - index[ss[k]].touched > threshold)
    decreases |l|
  {
    if l != [] {
      ExpiredIs(index, l[1..], now, threshold);
      assert forall j :: 1 <= j < |l| ==> l[j] == l[1..][j - 1];
    }
  }
}
