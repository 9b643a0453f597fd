/** How the balancer chooses a connection, and when it asks for discovery. */
module Balancer {

  datatype ConnState = Unknown | Created | Online | Banned | Offline | Destroyed

  datatype Conn = Conn(address: string, node: nat, state: ConnState)

  predicate IsOk(c: Conn, bannedIsOk: bool) {
    match c.state
    case Online | Created | Offline => true
    case Banned => bannedIsOk
    case _ => false
  }

  datatype Choice = Nothing | Chosen(conn: Conn)

  /** The random numbers of one selection: the first pick and the swaps of the shuffle. */
  datatype Draw = Draw(pick: nat, swaps: seq<(nat, nat)>)

  ghost predicate SomeOk(conns: seq<Conn>, bannedIsOk: bool) {
    exists i :: 0 <= i < |conns| && IsOk(conns[i], bannedIsOk)
  }

  // ---- the snapshot ----

  datatype ConnectionsState =
    ConnectionsState(byNode: map<nat, Conn>, prefer: seq<Conn>, fallback: seq<Conn>, all: seq<Conn>)

  /** Every connection that may be used is preferred or a fallback. */
  ghost predicate Covered(s: ConnectionsState) {
    forall c :: c in s.all <==> c in s.prefer || c in s.fallback
  }

  datatype Filter = NoFilter | Allow(f: Conn -> bool)

  predicate Allowed(filter: Filter, c: Conn) { filter.NoFilter? || filter.f(c) }

  /** The connections that the filter allows, or those it does not, in their order. */
  function Kept(conns: seq<Conn>, filter: Filter, allowed: bool): seq<Conn> {
    if conns == [] then []
    else
      var last := conns[|conns| - 1];
      Kept(conns[..|conns| - 1], filter, allowed) + if Allowed(filter, last) == allowed then [last] else []
  }

  lemma {:induction false} KeptMembers(conns: seq<Conn>, filter: Filter, allowed: bool)
    ensures forall c :: c in Kept(conns, filter, allowed) <==> c in conns && Allowed(filter, c) == allowed
  {
    if conns != [] {
      KeptMembers(conns[..|conns| - 1], filter, allowed);
      assert conns == conns[..|conns| - 1] + [conns[|conns| - 1]];
    }
  }

  lemma {:induction false} KeptAll(conns: seq<Conn>, filter: Filter)
    requires filter.NoFilter?
    ensures Kept(conns, filter, true) == conns && Kept(conns, filter, false) == []
  {
    if conns != [] {
      KeptAll(conns[..|conns| - 1], filter);
      assert conns == conns[..|conns| - 1] + [conns[|conns| - 1]];
    }
  }

  lemma KeptNext(conns: seq<Conn>, i: nat, filter: Filter, allowed: bool)
    requires i < |conns|
    ensures Kept(conns[..i + 1], filter, allowed) ==
      Kept(conns[..i], filter, allowed) + if Allowed(filter, conns[i]) == allowed then [conns[i]] else []
  {
    assert conns[..i + 1][..i] == conns[..i];
  }

  method SortPrefer(conns: seq<Conn>, filter: Filter, allowFallback: bool) returns (prefer: seq<Conn>, fallback: seq<Conn>)
    ensures prefer == Kept(conns, filter, true)
    ensures fallback == if allowFallback then Kept(conns, filter, false) else []
  {
    KeptAll(conns, NoFilter);
    if filter.NoFilter? { return conns, []; }
    prefer, fallback := [], [];
    for i := 0 to |conns|
      invariant prefer == Kept(conns[..i], filter, true)
      invariant fallback == if allowFallback then Kept(conns[..i], filter, false) else []
    {
      KeptNext(conns, i, filter, true);
      KeptNext(conns, i, filter, false);
      if filter.f(conns[i]) {
        prefer := prefer + [conns[i]];
      } else if allowFallback {
        fallback := fallback + [conns[i]];
      }
    }
    assert conns[..|conns|] == conns;
  }

  /** The last connection of node `n`. */
  ghost predicate IsLast(conns: seq<Conn>, n: nat, c: Conn) {
    exists i :: 0 <= i < |conns| && conns[i] == c && c.node == n && forall j :: i < j < |conns| ==> conns[j].node != n
  }

  /** connsToNodeIDMap: every node has its last connection. */
  method ByNode(conns: seq<Conn>) returns (nodes: map<nat, Conn>)
    ensures forall n :: n in nodes ==> IsLast(conns, n, nodes[n])
    ensures forall i :: 0 <= i < |conns| ==> conns[i].node in nodes
  {
    nodes := map[];
    for i := 0 to |conns|
      invariant forall n :: n in nodes ==> IsLast(conns[..i], n, nodes[n])
      invariant forall j :: 0 <= j < i ==> conns[j].node in nodes
    {
      ghost var before := nodes;
      nodes := nodes[conns[i].node := conns[i]];
      forall n | n in nodes ensures IsLast(conns[..i + 1], n, nodes[n]) { LastNext(conns, i, n, before); }
    }
    assert conns[..|conns|] == conns;
  }

  lemma LastNext(conns: seq<Conn>, i: nat, n: nat, before: map<nat, Conn>)
    requires i < |conns| && (n in before ==> IsLast(conns[..i], n, before[n])) && (n in before || n == conns[i].node)
    ensures IsLast(conns[..i + 1], n, before[conns[i].node := conns[i]][n])
  {
    var s := conns[..i + 1];
    if n == conns[i].node {
      assert s[i] == conns[i];
    } else {
      var j :| 0 <= j < i && conns[..i][j] == before[n] && forall k :: j < k < i ==> conns[..i][k].node != n;
      assert s[j] == before[n] && forall k :: j < k < |s| ==> s[k].node != n;
    }
  }

  method NewConnectionsState(conns: seq<Conn>, filter: Filter, allowFallback: bool) returns (s: ConnectionsState)
    ensures Covered(s)
    ensures s.prefer == Kept(conns, filter, true) && s.fallback == if allowFallback then Kept(conns, filter, false) else []
    ensures forall c :: c in s.all <==> c in conns && (allowFallback || Allowed(filter, c))
    ensures forall n :: n in s.byNode ==> IsLast(conns, n, s.byNode[n])
    ensures forall i :: 0 <= i < |conns| ==> conns[i].node in s.byNode
  {
    var nodes := ByNode(conns);
    var prefer, fallback := SortPrefer(conns, filter, allowFallback);
    KeptMembers(conns, filter, true);
    KeptMembers(conns, filter, false);
    s := ConnectionsState(nodes, prefer, fallback, if allowFallback then conns else prefer);
  }

  // ---- the selection ----

  /** The indexes 0 to n - 1, each of them somewhere. */
  ghost predicate Complete(s: seq<nat>, n: nat) {
    && |s| == n
    && (forall k :: 0 <= k < n ==> s[k] < n)
    && (forall v: nat :: v < n ==> v in s)
  }

  lemma SwapKeeps(s: seq<nat>, t: seq<nat>, i: nat, j: nat, n: nat)
    requires Complete(s, n) && i < n && j < n && t == s[i := s[j]][j := s[i]]
    ensures Complete(t, n)
  {
    forall v: nat | v < n ensures v in t {
      assert v in s;
      var k :| 0 <= k < n && s[k] == v;
      assert t[if k == i then j else if k == j then i else k] == v;
    }
  }

  method Shuffle(indexes: array<nat>, swaps: seq<(nat, nat)>)
    requires Complete(indexes[..], indexes.Length)
    modifies indexes
    ensures Complete(indexes[..], indexes.Length)
  {
    for k := 0 to |swaps|
      invariant Complete(indexes[..], indexes.Length)
    {
      var (i, j) := swaps[k];
      if i < indexes.Length && j < indexes.Length {
        ghost var before := indexes[..];
        indexes[i], indexes[j] := indexes[j], indexes[i];
        SwapKeeps(before, indexes[..], i, j, indexes.Length);
      }
    }
  }

  /** selectRandomConnection: whatever the pick and the shuffle, a usable connection is found
      if there is one, and otherwise every connection counts as failed. */
  method SelectRandom(conns: seq<Conn>, allowBanned: bool, draw: Draw) returns (c: Choice, failed: nat)
    ensures c.Chosen? <==> SomeOk(conns, allowBanned)
    ensures c.Chosen? ==> c.conn in conns && IsOk(c.conn, allowBanned)
    ensures failed == if c.Chosen? then 0 else |conns|
  {
    var n := |conns|;
    if n == 0 { return Nothing, 0; }
    if IsOk(conns[draw.pick % n], allowBanned) { return Chosen(conns[draw.pick % n]), 0; }
    var indexes := new nat[n](k => k);
    forall v: nat | v < n ensures v in indexes[..] { assert indexes[..][v] == v; }
    Shuffle(indexes, draw.swaps);
    failed := 0;
    for k := 0 to n
      invariant failed == k && Complete(indexes[..], n)
      invariant forall j :: 0 <= j < k ==> !IsOk(conns[indexes[j]], allowBanned)
    {
      var one := conns[indexes[k]];
      if IsOk(one, allowBanned) { return Chosen(one), 0; }
      failed := failed + 1;
    }
    forall i | 0 <= i < n ensures !IsOk(conns[i], allowBanned) {
      assert i in indexes[..];
      var j :| 0 <= j < n && indexes[j] == i;
    }
    c := Nothing;
  }

  /** What a choice among a snapshot must be, without a pinned endpoint: a preferred connection
      that is not banned, else such a fallback, else a banned one, else nothing. */
  ghost predicate InOrder(s: ConnectionsState, c: Choice) {
    if SomeOk(s.prefer, false) then c.Chosen? && c.conn in s.prefer && IsOk(c.conn, false)
    else if SomeOk(s.fallback, false) then c.Chosen? && c.conn in s.fallback && IsOk(c.conn, false)
    else if SomeOk(s.all, true) then c.Chosen? && c.conn in s.all && c.conn.state == Banned
    else c == Nothing
  }

  lemma LastResortIsBanned(s: ConnectionsState, c: Conn)
    requires Covered(s) && !SomeOk(s.prefer, false) && !SomeOk(s.fallback, false) && c in s.all && IsOk(c, true)
    ensures c.state == Banned
  {
    if c in s.prefer {
      var i :| 0 <= i < |s.prefer| && s.prefer[i] == c;
      assert !IsOk(s.prefer[i], false);
    } else {
      assert c in s.fallback;
      var i :| 0 <= i < |s.fallback| && s.fallback[i] == c;
      assert !IsOk(s.fallback[i], false);
    }
  }

  predicate Alive(c: Conn) { c.state == Online || c.state == Created || c.state == Offline }

  /** A choice by the states of the connections: a live preferred one, else a live fallback, else
      a banned one; nothing is chosen only when every connection is unknown or destroyed. */
  lemma ChoiceByState(s: ConnectionsState, c: Choice)
    requires Covered(s) && InOrder(s, c)
    ensures c == Nothing <==> forall x :: x in s.all ==> x.state == Unknown || x.state == Destroyed
    ensures c.Chosen? ==> (c.conn.state == Banned || Alive(c.conn)) && c.conn in s.all
    ensures forall x :: x in s.prefer && Alive(x) ==> c.Chosen? && c.conn in s.prefer && Alive(c.conn)
    ensures forall x :: x in s.fallback && Alive(x) ==> c.Chosen? && Alive(c.conn)
  {
    forall x | x in s.prefer && Alive(x) ensures SomeOk(s.prefer, false) { LiveIsOk(s.prefer, x, false); }
    forall x | x in s.fallback && Alive(x) ensures SomeOk(s.fallback, false) { LiveIsOk(s.fallback, x, false); }
    forall x | x in s.all && (Alive(x) || x.state == Banned) ensures SomeOk(s.all, true) { LiveIsOk(s.all, x, true); }
    if c == Nothing {
      forall x | x in s.all ensures x.state == Unknown || x.state == Destroyed {
        if Alive(x) || x.state == Banned { LiveIsOk(s.all, x, true); }
      }
    }
  }

  lemma LiveIsOk(conns: seq<Conn>, x: Conn, bannedIsOk: bool)
    requires x in conns && (Alive(x) || (bannedIsOk && x.state == Banned))
    ensures SomeOk(conns, bannedIsOk)
  {
    var i :| 0 <= i < |conns| && conns[i] == x;
    assert IsOk(conns[i], bannedIsOk);
  }

  predicate Pinned(s: ConnectionsState, node: int) {
    node >= 0 && node in s.byNode && IsOk(s.byNode[node], true)
  }

  /** An endpoint is used when its last connection is alive or banned. */
  lemma PinnedByState(s: ConnectionsState, node: int)
    ensures Pinned(s, node) <==> node >= 0 && node in s.byNode && (Alive(s.byNode[node]) || s.byNode[node].state == Banned)
  {}

  /** GetConnection with the context's endpoint, -1 for none. */
  method GetConnection(s: ConnectionsState, done: bool, node: int, a: Draw, b: Draw, d: Draw)
    returns (c: Choice, failed: nat)
    requires Covered(s)
    ensures done ==> c == Nothing && failed == 0
    ensures !done && Pinned(s, node) ==> c == Chosen(s.byNode[node]) && failed == 0
    ensures !done && !Pinned(s, node) ==> InOrder(s, c)
    ensures !done && !Pinned(s, node) ==>
      failed == if SomeOk(s.prefer, false) then 0
                else |s.prefer| + if SomeOk(s.fallback, false) then 0 else |s.fallback|
  {
    if done { return Nothing, 0; }
    if node >= 0 && node in s.byNode && IsOk(s.byNode[node], true) { return Chosen(s.byNode[node]), 0; }
    failed := 0;
    var tryFailed;
    c, tryFailed := SelectRandom(s.prefer, false, a);
    failed := failed + tryFailed;
    if c.Chosen? { return; }
    c, tryFailed := SelectRandom(s.fallback, false, b);
    failed := failed + tryFailed;
    if c.Chosen? { return; }
    c, tryFailed := SelectRandom(s.all, true, d);
    if c.Chosen? { LastResortIsBanned(s, c.conn); }
  }

  /** getConn: the connection, and whether discovery is forced. Without a pinned endpoint it is
      forced exactly when every preferred connection failed, or when none is preferred and
      every fallback, of at least one, failed. */
  method GetConn(s: ConnectionsState, done: bool, node: int, a: Draw, b: Draw, d: Draw)
    returns (c: Choice, forced: bool)
    requires Covered(s)
    ensures done || Pinned(s, node) ==> !forced
    ensures !done && !Pinned(s, node) ==> InOrder(s, c)
    ensures !done && !Pinned(s, node) && s.prefer != [] ==> (forced <==> !SomeOk(s.prefer, false))
    ensures !done && !Pinned(s, node) && s.prefer == [] ==> (forced <==> s.fallback != [] && !SomeOk(s.fallback, false))
  {
    if done { return Nothing, false; }
    var failedCount;
    c, failedCount := GetConnection(s, done, node, a, b, d);
    forced := failedCount * 2 > |s.prefer|;
  }
}
