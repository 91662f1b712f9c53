/** Every event of session management is free of assertion failures and keeps the invariant
    that links sessions, connect tokens and management packets. */
module HandshakeProof {
  import opened Wire
  import opened Handshake

  // ---------------------------------------------------------------------------
  // Ring entries and buffers of one endpoint
  // ---------------------------------------------------------------------------

  ghost function LiveCount(ss: seq<Option<Session>>): nat {
    if ss == [] then 0 else (if ss[0].Some? then 1 else 0) + LiveCount(ss[1..])
  }

  ghost function ServerCount(ss: seq<Option<Session>>): nat {
    if ss == [] then 0 else (if ss[0].Some? && ss[0].value.role.Server? then 1 else 0) + ServerCount(ss[1..])
  }

  /** Free ring entries plus the credits of every live session make up the ring, and every
      live server session has its preallocated buffers. */
  ghost predicate RingOk(p: Limits, n: Node) {
    && n.ring + p.credits * LiveCount(n.sessions) == p.ring
    && n.prealloc == p.window * ServerCount(n.sessions)
  }

  lemma {:induction false} CountAppend(ss: seq<Option<Session>>, x: Session)
    ensures LiveCount(ss + [Some(x)]) == LiveCount(ss) + 1
    ensures ServerCount(ss + [Some(x)]) == ServerCount(ss) + (if x.role.Server? then 1 else 0)
  {
    if ss == [] {
      assert ss + [Some(x)] == [Some(x)];
    } else {
      CountAppend(ss[1..], x);
      assert (ss + [Some(x)])[1..] == ss[1..] + [Some(x)];
    }
  }

  lemma {:induction false} CountSet(ss: seq<Option<Session>>, k: nat, y: Option<Session>)
    requires k < |ss| && ss[k].Some? && (y.Some? ==> y.value.role == ss[k].value.role)
    ensures LiveCount(ss) == LiveCount(ss[k := y]) + (if y.Some? then 0 else 1)
    ensures ServerCount(ss) == ServerCount(ss[k := y]) + (if y.Some? || ss[k].value.role.Client? then 0 else 1)
  {
    if k == 0 {
      assert ss[k := y][1..] == ss[1..];
    } else {
      CountSet(ss[1..], k - 1, y);
      assert ss[k := y][1..] == ss[1..][k - 1 := y];
    }
  }

  lemma Distribute(c: nat, a: nat)
    ensures c * (a + 1) == c * a + c
  {
  }

  lemma RingAppend(p: Limits, n: Node, n': Node, x: Session)
    requires RingOk(p, n) && HasRing(p, n)
    requires n'.sessions == n.sessions + [Some(x)] && n'.ring == n.ring - p.credits
    requires n'.prealloc == n.prealloc + if x.role.Server? then p.window else 0
    ensures RingOk(p, n')
  {
    CountAppend(n.sessions, x);
    Distribute(p.credits, LiveCount(n.sessions));
    Distribute(p.window, ServerCount(n.sessions));
  }

  lemma RingSet(p: Limits, n: Node, n': Node, k: nat, x: Session)
    requires RingOk(p, n) && Live(n, k) && x.role == n.sessions[k].value.role
    requires n'.sessions == n.sessions[k := Some(x)] && n'.ring == n.ring && n'.prealloc == n.prealloc
    ensures RingOk(p, n')
  {
    CountSet(n.sessions, k, Some(x));
  }

  /** A live session has ring entries to give back, and a server session its buffers. */
  lemma RingRoom(p: Limits, n: Node, k: nat)
    requires RingOk(p, n) && Live(n, k)
    ensures n.ring + p.credits <= p.ring
    ensures n.sessions[k].value.role.Server? ==> n.prealloc >= p.window
  {
    CountSet(n.sessions, k, None);
    Distribute(p.credits, LiveCount(n.sessions[k := None]));
    Distribute(p.window, ServerCount(n.sessions[k := None]));
    MulMono(0, LiveCount(n.sessions[k := None]), p.credits);
    MulMono(0, ServerCount(n.sessions[k := None]), p.window);
  }

  lemma RingBury(p: Limits, n: Node, k: nat)
    requires RingOk(p, n) && Live(n, k)
    ensures n.sessions[k].value.role.Server? ==> n.prealloc >= p.window
    ensures RingOk(p, Bury(n.(ring := n.ring + p.credits), k, p))
  {
    RingRoom(p, n, k);
    CountSet(n.sessions, k, None);
    Distribute(p.credits, LiveCount(n.sessions[k := None]));
    Distribute(p.window, ServerCount(n.sessions[k := None]));
  }

  // ---------------------------------------------------------------------------
  // The invariant
  // ---------------------------------------------------------------------------

  /** Rpc `r` has served token `t` with session number `m`. */
  ghost predicate Served(s: Sys, t: nat, r: nat, m: nat) {
    r < |s.nodes| && t in s.nodes[r].tokens && s.nodes[r].tokens[t] == m
  }

  ghost predicate LiveAt(s: Sys, i: nat, k: nat) {
    i < |s.nodes| && Live(s.nodes[i], k)
  }

  ghost function At(s: Sys, i: nat, k: nat): Session
    requires LiveAt(s, i, k)
  {
    s.nodes[i].sessions[k].value
  }

  /** The client session that was created with token `t` is gone or disconnecting. */
  ghost predicate Leaving(s: Sys, t: nat)
    requires t in s.h.born
  {
    var c := s.h.born[t].client;
    c.num.Some? && (LiveAt(s, c.rpc, c.num.value) ==> At(s, c.rpc, c.num.value).state.DisconnectInProgress?)
  }

  ghost predicate ClientOk(s: Sys, i: nat, k: nat, x: Session)
    requires x.token in s.h.born
  {
    && x.client == Endpoint(i, Some(k))
    && s.h.born[x.token] == Origin(x.client, x.server.rpc)
    && if x.state.ConnectInProgress? then x.server.num.None?
       else x.server.num.Some? && Served(s, x.token, x.server.rpc, x.server.num.value)
  }

  ghost predicate ServerOk(s: Sys, i: nat, k: nat, x: Session)
    requires x.token in s.h.born
  {
    && x.state.Connected? && x.server == Endpoint(i, Some(k))
    && x.client == s.h.born[x.token].client
    && Served(s, x.token, i, k)
  }

  ghost predicate SessOk(s: Sys, i: nat, k: nat) {
    LiveAt(s, i, k) ==>
      && var x := At(s, i, k);
         && x.token in s.h.born
         && (i, k) in s.h.owner && s.h.owner[(i, k)] == x.token
         && if x.role.Client? then ClientOk(s, i, k, x) else ServerOk(s, i, k, x)
  }

  /** Session numbers are given out once. */
  ghost predicate OwnerOk(s: Sys, i: nat, k: nat) {
    (i, k) in s.h.owner <==> i < |s.nodes| && k < |s.nodes[i].sessions|
  }

  ghost predicate BornOk(s: Sys, t: nat) {
    t in s.h.born ==>
      && var o := s.h.born[t];
         && o.client.num.Some? && o.client.rpc < |s.nodes| && o.remote < |s.nodes| && o.client.rpc != o.remote
         && (o.client.rpc, o.client.num.value) in s.h.owner
         && s.h.owner[(o.client.rpc, o.client.num.value)] == t
  }

  /** A served token created exactly one session, which lives on at least until its client
      is leaving. */
  ghost predicate TokenOk(s: Sys, i: nat, t: nat) {
    i < |s.nodes| && t in s.nodes[i].tokens ==>
      && t in s.h.born && s.h.born[t].remote == i
      && var k := s.nodes[i].tokens[t];
         && (i, k) in s.h.owner && s.h.owner[(i, k)] == t
         && (LiveAt(s, i, k) || Leaving(s, t))
  }

  ghost predicate MadeOk(s: Sys, t: nat) {
    s.h.made[t] ==
      if t in s.h.born && s.h.born[t].remote < |s.nodes| && t in s.nodes[s.h.born[t].remote].tokens then 1 else 0
  }

  ghost predicate PktOk(s: Sys, pkt: SmPkt) {
    && pkt.token in s.h.born
    && var o := s.h.born[pkt.token];
       && pkt.client == o.client && pkt.server.rpc == o.remote
       && match pkt.kind
          case ConnectReq => pkt.server.num.None?
          case ConnectResp =>
            if pkt.err.NoError? then pkt.server.num.Some? && Served(s, pkt.token, o.remote, pkt.server.num.value)
            else pkt.server.num.None?
          case DisconnectReq =>
            pkt.server.num.Some? && Served(s, pkt.token, o.remote, pkt.server.num.value) && Leaving(s, pkt.token)
          case DisconnectResp =>
            && pkt.err.NoError?
            && pkt.server.num.Some? && Served(s, pkt.token, o.remote, pkt.server.num.value) && Leaving(s, pkt.token)
            && !LiveAt(s, o.remote, pkt.server.num.value)
  }

  ghost predicate StateInv(s: Sys) {
    && (forall i: nat, k: nat {:trigger SessOk(s, i, k)} :: SessOk(s, i, k))
    && (forall i: nat, k: nat {:trigger OwnerOk(s, i, k)} :: OwnerOk(s, i, k))
    && (forall t: nat {:trigger BornOk(s, t)} :: BornOk(s, t))
    && (forall i: nat, t: nat {:trigger TokenOk(s, i, t)} :: TokenOk(s, i, t))
    && (forall t: nat {:trigger MadeOk(s, t)} :: MadeOk(s, t))
  }

  ghost predicate NetInv(s: Sys, net: set<SmPkt>) {
    forall pkt {:trigger PktOk(s, pkt)} :: pkt in net ==> PktOk(s, pkt)
  }

  ghost predicate Inv(p: Limits, s: Sys) {
    && StateInv(s) && NetInv(s, s.net)
    && (forall i: nat {:trigger s.nodes[i]} :: i < |s.nodes| ==> RingOk(p, s.nodes[i]))
  }

  // ---------------------------------------------------------------------------
  // State changes
  // ---------------------------------------------------------------------------

  /** The state after replacing node `i` and the history, before anything is sent. */
  function With(s: Sys, i: nat, n: Node, h: Hist): Sys
    requires i < |s.nodes|
  {
    Sys(s.nodes[i := n], s.net, h)
  }

  /** Nothing that the invariant speaks about has changed. */
  lemma SameKeeps(s: Sys, i: nat, n: Node)
    requires StateInv(s) && NetInv(s, s.net) && i < |s.nodes|
    requires n.sessions == s.nodes[i].sessions && n.tokens == s.nodes[i].tokens
    ensures StateInv(With(s, i, n, s.h)) && NetInv(With(s, i, n, s.h), s.net)
  {
    hide PktOk, NetInv;
    var s' := With(s, i, n, s.h);
    Stable(s, s');
    forall j: nat, k: nat ensures SessOk(s', j, k) && OwnerOk(s', j, k) { assert SessOk(s, j, k) && OwnerOk(s, j, k); }
    forall t: nat ensures BornOk(s', t) && MadeOk(s', t) { assert BornOk(s, t) && MadeOk(s, t); }
    forall j: nat, t: nat ensures TokenOk(s', j, t) { assert TokenOk(s, j, t); }
  }

  /** What later states keep of the facts that packets rely on. */
  ghost predicate Later(s: Sys, s': Sys) {
    && |s'.nodes| == |s.nodes|
    && (forall t :: t in s.h.born ==> t in s'.h.born && s'.h.born[t] == s.h.born[t])
    && (forall i: nat, t: nat {:trigger t in s.nodes[i].tokens} :: i < |s.nodes| && t in s.nodes[i].tokens ==>
          t in s'.nodes[i].tokens && s'.nodes[i].tokens[t] == s.nodes[i].tokens[t])
    && (forall i: nat, k: nat {:trigger LiveAt(s', i, k)} ::
          i < |s.nodes| && k < |s.nodes[i].sessions| && LiveAt(s', i, k) ==>
          && LiveAt(s, i, k)
          && (At(s, i, k).state.DisconnectInProgress? ==> At(s', i, k).state.DisconnectInProgress?))
  }

  lemma PktLater(s: Sys, s': Sys, pkt: SmPkt)
    requires StateInv(s) && Later(s, s') && PktOk(s, pkt)
    ensures PktOk(s', pkt)
  {
    var o := s.h.born[pkt.token];
    assert BornOk(s, pkt.token) && OwnerOk(s, o.client.rpc, o.client.num.value);
    if pkt.server.num.Some? {
      assert TokenOk(s, o.remote, pkt.token) && OwnerOk(s, o.remote, pkt.server.num.value);
    }
  }

  lemma Stable(s: Sys, s': Sys)
    requires StateInv(s) && NetInv(s, s.net) && Later(s, s')
    ensures NetInv(s', s.net)
  {
    hide PktOk, Later, StateInv;
    forall pkt | pkt in s.net
      ensures PktOk(s', pkt)
    {
      PktLater(s, s', pkt);
    }
  }

  /** A leaving client stays so. */
  lemma LeavingLater(s: Sys, s': Sys, t: nat)
    requires StateInv(s) && Later(s, s') && t in s.h.born && Leaving(s, t)
    ensures t in s'.h.born && Leaving(s', t)
  {
    var c := s.h.born[t].client;
    assert BornOk(s, t) && OwnerOk(s, c.rpc, c.num.value);
  }

  /** A session changes its state, or a client session is buried. */
  ghost predicate ClientMoves(s: Sys, i: nat, k: nat, y: Option<Session>) {
    && LiveAt(s, i, k) && At(s, i, k).role.Client?
    && var x := At(s, i, k);
       match y
       case None => true
       case Some(x') =>
         && x'.role.Client? && x'.token == x.token && x'.client == x.client && x'.server.rpc == x.server.rpc
         && !x'.state.ConnectInProgress? && (x.state.DisconnectInProgress? ==> x'.state.DisconnectInProgress?)
         && x'.server.num.Some? && Served(s, x.token, x.server.rpc, x'.server.num.value)
  }

  lemma ClientMoveKeeps(s: Sys, i: nat, k: nat, y: Option<Session>, n: Node)
    requires StateInv(s) && NetInv(s, s.net) && ClientMoves(s, i, k, y)
    requires n.sessions == s.nodes[i].sessions[k := y] && n.tokens == s.nodes[i].tokens
    ensures StateInv(With(s, i, n, s.h)) && NetInv(With(s, i, n, s.h), s.net)
  {
    hide PktOk, NetInv;
    var s' := With(s, i, n, s.h);
    assert Later(s, s');
    Stable(s, s');
    assert SessOk(s, i, k);
    forall j: nat, m: nat ensures SessOk(s', j, m) && OwnerOk(s', j, m) { assert SessOk(s, j, m) && OwnerOk(s, j, m); }
    forall t: nat ensures BornOk(s', t) && MadeOk(s', t) { assert BornOk(s, t) && MadeOk(s, t); }
    forall j: nat, t: nat
      ensures TokenOk(s', j, t)
    {
      assert TokenOk(s, j, t);
      if j < |s.nodes| && t in s.nodes[j].tokens {
        if Leaving(s, t) { LeavingLater(s, s', t); }
        NotThatClient(s, i, k, j, t);
      }
    }
  }

  /** A client session is not the one that a served token created. */
  lemma NotThatClient(s: Sys, i: nat, k: nat, j: nat, t: nat)
    requires StateInv(s) && LiveAt(s, i, k) && At(s, i, k).role.Client?
    requires j < |s.nodes| && t in s.nodes[j].tokens
    ensures (i, k) != (j, s.nodes[j].tokens[t])
  {
    assert SessOk(s, i, k) && TokenOk(s, j, t) && BornOk(s, t);
  }

  /** A server session is buried when its client is leaving. */
  lemma ServerBuryKeeps(s: Sys, i: nat, k: nat, n: Node)
    requires StateInv(s) && NetInv(s, s.net) && LiveAt(s, i, k) && At(s, i, k).role.Server?
    requires At(s, i, k).token in s.h.born && Leaving(s, At(s, i, k).token)
    requires n.sessions == s.nodes[i].sessions[k := None] && n.tokens == s.nodes[i].tokens
    ensures StateInv(With(s, i, n, s.h)) && NetInv(With(s, i, n, s.h), s.net)
  {
    hide PktOk, NetInv;
    var s' := With(s, i, n, s.h);
    assert Later(s, s');
    Stable(s, s');
    assert SessOk(s, i, k);
    forall j: nat, m: nat ensures SessOk(s', j, m) && OwnerOk(s', j, m) { assert SessOk(s, j, m) && OwnerOk(s, j, m); }
    forall t: nat ensures BornOk(s', t) && MadeOk(s', t) { assert BornOk(s, t) && MadeOk(s, t); }
    forall j: nat, t: nat
      ensures TokenOk(s', j, t)
    {
      assert TokenOk(s, j, t);
      if j < |s.nodes| && t in s.nodes[j].tokens && Leaving(s, t) { LeavingLater(s, s', t); }
    }
  }

  /** A client session is appended under a fresh token. */
  lemma ClientAppendKeeps(s: Sys, i: nat, remote: nat, token: nat, n: Node, h: Hist)
    requires StateInv(s) && NetInv(s, s.net) && i < |s.nodes| && remote < |s.nodes| && i != remote
    requires token !in s.h.born && n.tokens == s.nodes[i].tokens
    requires var k := |s.nodes[i].sessions|;
      var x := Session(Client, ConnectInProgress, token, Endpoint(i, Some(k)), Endpoint(remote, None));
      && n.sessions == s.nodes[i].sessions + [Some(x)]
      && h == s.h.(owner := s.h.owner[(i, k) := token], born := s.h.born[token := Origin(x.client, remote)])
    ensures StateInv(With(s, i, n, h)) && NetInv(With(s, i, n, h), s.net)
  {
    hide PktOk, NetInv;
    var s', k := With(s, i, n, h), |s.nodes[i].sessions|;
    assert Later(s, s');
    Stable(s, s');
    forall j: nat, m: nat ensures SessOk(s', j, m) && OwnerOk(s', j, m) { assert SessOk(s, j, m) && OwnerOk(s, j, m); }
    forall j: nat, t: nat
      ensures TokenOk(s', j, t)
    {
      assert TokenOk(s, j, t);
      if j < |s.nodes| && t in s.nodes[j].tokens {
        assert OwnerOk(s, i, k);
        if Leaving(s, t) { LeavingLater(s, s', t); }
      }
    }
    forall t: nat
      ensures BornOk(s', t) && MadeOk(s', t)
    {
      assert BornOk(s, t) && MadeOk(s, t) && OwnerOk(s, i, k);
      assert TokenOk(s, remote, token);
    }
  }

  /** A server session is appended for a token that this Rpc has not served. */
  lemma ServerAppendKeeps(s: Sys, i: nat, pkt: SmPkt, n: Node, h: Hist)
    requires StateInv(s) && NetInv(s, s.net) && i < |s.nodes| && PktOk(s, pkt) && pkt.server.rpc == i
    requires pkt.token !in s.nodes[i].tokens
    requires var k := |s.nodes[i].sessions|;
             var x := Session(Server, Connected, pkt.token, pkt.client, Endpoint(i, Some(k)));
      && n.sessions == s.nodes[i].sessions + [Some(x)] && n.tokens == s.nodes[i].tokens[pkt.token := k]
      && h == s.h.(owner := s.h.owner[(i, k) := pkt.token], made := s.h.made + multiset{pkt.token})
    ensures StateInv(With(s, i, n, h)) && NetInv(With(s, i, n, h), s.net)
  {
    var s', k := With(s, i, n, h), |s.nodes[i].sessions|;
    assert Later(s, s');
    Stable(s, s');
    forall j: nat, m: nat ensures SessOk(s', j, m) && OwnerOk(s', j, m) { assert SessOk(s, j, m) && OwnerOk(s, j, m); }
    forall j: nat, t: nat
      ensures TokenOk(s', j, t)
    {
      assert TokenOk(s, j, t) && OwnerOk(s, i, k);
      if j < |s.nodes| && t in s.nodes[j].tokens && Leaving(s, t) { LeavingLater(s, s', t); }
    }
    forall t: nat
      ensures BornOk(s', t) && MadeOk(s', t)
    {
      assert BornOk(s, t) && MadeOk(s, t) && OwnerOk(s, i, k);
    }
  }
}
