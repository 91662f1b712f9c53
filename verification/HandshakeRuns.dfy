/** What holds in every run of session management over a lossy, duplicating and reordering
    channel. */
module HandshakeRuns {
  import opened Wire
  import opened Handshake
  import opened HandshakeProof

  // ---------------------------------------------------------------------------
  // Sending
  // ---------------------------------------------------------------------------

  /** The invariant of the sessions does not depend on the packets sent. */
  lemma NetFree(s: Sys, s': Sys)
    requires StateInv(s) && s'.nodes == s.nodes && s'.h == s.h
    ensures StateInv(s')
    ensures forall pkt {:trigger PktOk(s', pkt)} :: PktOk(s, pkt) ==> PktOk(s', pkt)
  {
    forall i: nat, k: nat ensures SessOk(s', i, k) && OwnerOk(s', i, k) { assert SessOk(s, i, k) && OwnerOk(s, i, k); }
    forall t: nat ensures BornOk(s', t) && MadeOk(s', t) { assert BornOk(s, t) && MadeOk(s, t); }
    forall i: nat, t: nat ensures TokenOk(s', i, t) { assert TokenOk(s, i, t); }
  }

  /** A handler that keeps the sessions' invariant, its ring entries, and sends valid packets. */
  lemma DidKeeps(p: Limits, s: Sys, i: nat, out: Out)
    requires Inv(p, s) && i < |s.nodes| && RingOk(p, out.node)
    requires var s1 := With(s, i, out.node, Appended(s, i, out));
             StateInv(s1) && NetInv(s1, s.net) && forall pkt :: pkt in out.sent ==> PktOk(s1, pkt)
    ensures Inv(p, Did(s, i, out))
  {
    hide StateInv, PktOk, RingOk, Appended;
    var s1, s' := With(s, i, out.node, Appended(s, i, out)), Did(s, i, out);
    NetFree(s1, s');
    forall pkt | pkt in s'.net
      ensures PktOk(s', pkt)
    {
      assert PktOk(s1, pkt);
    }
  }

  /** A handler that only sends. */
  lemma AnswerKeeps(p: Limits, s: Sys, i: nat, out: Out)
    requires Inv(p, s) && i < |s.nodes|
    requires out.node == s.nodes[i].(pending := out.node.pending)
    requires forall pkt :: pkt in out.sent ==> PktOk(s, pkt)
    ensures Inv(p, Did(s, i, out))
  {
    hide StateInv, PktOk;
    SameKeeps(s, i, out.node);
    var s1 := With(s, i, out.node, s.h);
    PktSame(s, i, out.node);
    DidKeeps(p, s, i, out);
  }

  lemma PktSame(s: Sys, i: nat, n: Node)
    requires StateInv(s) && i < |s.nodes|
    requires n.sessions == s.nodes[i].sessions && n.tokens == s.nodes[i].tokens
    ensures forall pkt {:trigger PktOk(With(s, i, n, s.h), pkt)} :: PktOk(s, pkt) ==> PktOk(With(s, i, n, s.h), pkt)
  {
    var s' := With(s, i, n, s.h);
    assert Later(s, s');
    forall pkt | PktOk(s, pkt)
      ensures PktOk(s', pkt)
    {
      PktLater(s, s', pkt);
    }
  }

  // ---------------------------------------------------------------------------
  // Events
  // ---------------------------------------------------------------------------

  /** The pending request of a session is a valid packet. */
  lemma RequestOk(s: Sys, i: nat, k: nat)
    requires StateInv(s) && LiveAt(s, i, k) && At(s, i, k).role.Client? && !At(s, i, k).state.Connected?
    ensures PktOk(s, Request(At(s, i, k)))
  {
    assert SessOk(s, i, k);
    assert BornOk(s, At(s, i, k).token);
  }

  lemma CreateKeeps(p: Limits, s: Sys, i: nat, remote: nat, token: nat)
    requires Inv(p, s) && Enabled(s, Create(i, remote, token))
    ensures Inv(p, Step(p, s, Create(i, remote, token)))
  {
    var n := s.nodes[i];
    var out := CreateSession(p, n, i, remote, token);
    if CreateAllowed(p, n, i, remote) {
      var k := |n.sessions|;
      var x := Session(Client, ConnectInProgress, token, Endpoint(i, Some(k)), Endpoint(remote, None));
      assert out.node.sessions[k] == Some(x);
      var h := Appended(s, i, out);
      RingAppend(p, n, out.node, x);
      hide StateInv, NetInv, PktOk, RingOk;
      ClientAppendKeeps(s, i, remote, token, out.node, h);
      RequestOk(With(s, i, out.node, h), i, k);
      DidKeeps(p, s, i, out);
    } else {
      AnswerKeeps(p, s, i, out);
    }
  }

  /** A client session changes state and sends its next request, or is buried. */
  lemma MoveKeeps(p: Limits, s: Sys, i: nat, k: nat, y: Option<Session>, out: Out)
    requires Inv(p, s) && ClientMoves(s, i, k, y)
    requires out.node.sessions == s.nodes[i].sessions[k := y] && out.node.tokens == s.nodes[i].tokens
    requires RingOk(p, out.node)
    requires out.sent == [] || (y.Some? && !y.value.state.Connected? && out.sent == [Request(y.value)])
    ensures Inv(p, Did(s, i, out))
  {
    hide StateInv, NetInv, PktOk, RingOk;
    ClientMoveKeeps(s, i, k, y, out.node);
    var s1 := With(s, i, out.node, s.h);
    if out.sent != [] {
      RequestOk(s1, i, k);
    }
    DidKeeps(p, s, i, out);
  }

  lemma DestroyKeeps(p: Limits, s: Sys, i: nat, k: nat, slotsFree: bool)
    requires Inv(p, s) && i < |s.nodes|
    ensures Inv(p, Did(s, i, DestroySession(s.nodes[i], k, slotsFree)))
  {
    var n := s.nodes[i];
    var out := DestroySession(n, k, slotsFree);
    if out.sent == [] {
      AnswerKeeps(p, s, i, out);
    } else {
      assert SessOk(s, i, k);
      var x := At(s, i, k).(state := DisconnectInProgress);
      RingSet(p, n, out.node, k, x);
      MoveKeeps(p, s, i, k, Some(x), out);
    }
  }

  lemma ResendKeeps(p: Limits, s: Sys, i: nat, k: nat)
    requires Inv(p, s) && Enabled(s, Resend(i, k))
    ensures Inv(p, Step(p, s, Resend(i, k)))
  {
    assert SessOk(s, i, k);
    RequestOk(s, i, k);
    AnswerKeeps(p, s, i, SendReq(s.nodes[i], k));
  }

  lemma ConnectReqKeeps(p: Limits, s: Sys, pkt: SmPkt, env: Env)
    requires Inv(p, s) && pkt in s.net && pkt.kind.ConnectReq?
    ensures Target(pkt) < |s.nodes| && ConnectReqOk(s.nodes[Target(pkt)], pkt)
    ensures Inv(p, Did(s, Target(pkt), HandleConnectReq(p, s.nodes[Target(pkt)], Target(pkt), pkt, env)))
  {
    var i, t := Target(pkt), pkt.token;
    assert PktOk(s, pkt) && BornOk(s, t) && TokenOk(s, i, t);
    var n := s.nodes[i];
    if t in n.tokens { assert OwnerOk(s, i, n.tokens[t]) && SessOk(s, i, n.tokens[t]) && BornOk(s, t); }
    var out := HandleConnectReq(p, n, i, pkt, env);
    if out.node == n {
      AnswerKeeps(p, s, i, out);
    } else {
      var k := |n.sessions|;
      var x := Session(Server, Connected, t, pkt.client, Endpoint(i, Some(k)));
      assert out.node.sessions[k] == Some(x);
      var h := Appended(s, i, out);
      RingAppend(p, n, out.node, x);
      ServerAppendKeeps(s, i, pkt, out.node, h);
      assert PktOk(With(s, i, out.node, h), out.sent[0]);
      hide StateInv, NetInv, PktOk, RingOk;
      DidKeeps(p, s, i, out);
    }
  }

  lemma ConnectRespKeeps(p: Limits, s: Sys, pkt: SmPkt, resolves: bool, retry: bool)
    requires Inv(p, s) && pkt in s.net && pkt.kind.ConnectResp?
    ensures Target(pkt) < |s.nodes| && ConnectRespOk(p, s.nodes[Target(pkt)], pkt)
    ensures Inv(p, Did(s, Target(pkt), HandleConnectResp(p, s.nodes[Target(pkt)], pkt, resolves, retry)))
  {
    var i := Target(pkt);
    RespFacts(s, pkt);
    var n, k := s.nodes[i], pkt.client.num.value;
    if Live(n, k) { RingRoom(p, n, k); }
    var out := HandleConnectResp(p, n, pkt, resolves, retry);
    if !Live(n, k) || !n.sessions[k].value.state.ConnectInProgress? || (pkt.err.InvalidRemoteRpcId? && retry) {
      AnswerKeeps(p, s, i, out);
    } else if !pkt.err.NoError? {
      RingBury(p, n, k);
      MoveKeeps(p, s, i, k, None, out);
    } else {
      var x := out.node.sessions[k].value;
      RingSet(p, n, out.node, k, x);
      MoveKeeps(p, s, i, k, Some(x), out);
    }
  }

  /** The client session that a response is for, if it still exists. */
  lemma RespFacts(s: Sys, pkt: SmPkt)
    requires StateInv(s) && PktOk(s, pkt) && (pkt.kind.ConnectResp? || pkt.kind.DisconnectResp?)
    ensures pkt.client.rpc < |s.nodes| && pkt.client.num.Some? &&
            pkt.client.num.value < |s.nodes[pkt.client.rpc].sessions|
    ensures LiveAt(s, pkt.client.rpc, pkt.client.num.value) ==>
      var x := At(s, pkt.client.rpc, pkt.client.num.value);
      && x.role.Client? && x.token == pkt.token && x.client == pkt.client && x.server.rpc == pkt.server.rpc
      && (x.state.ConnectInProgress? <==> x.server.num.None?)
      && (x.server.num.Some? ==> Served(s, x.token, x.server.rpc, x.server.num.value))
      && (pkt.kind.DisconnectResp? ==> x.state.DisconnectInProgress? && x.server == pkt.server)
  {
    assert BornOk(s, pkt.token);
    var i, k := pkt.client.rpc, pkt.client.num.value;
    assert OwnerOk(s, i, k) && SessOk(s, i, k) && TokenOk(s, i, pkt.token);
    if LiveAt(s, i, k) && At(s, i, k).role.Server? {
      assert false;
    }
  }

  /** The server session that a disconnect request is for, if it still exists. */
  lemma DisconnectFacts(s: Sys, pkt: SmPkt)
    requires StateInv(s) && PktOk(s, pkt) && pkt.kind.DisconnectReq?
    ensures pkt.server.rpc < |s.nodes| && pkt.server.num.Some? &&
            pkt.server.num.value < |s.nodes[pkt.server.rpc].sessions|
    ensures LiveAt(s, pkt.server.rpc, pkt.server.num.value) ==>
      var x := At(s, pkt.server.rpc, pkt.server.num.value);
      && x.role.Server? && x.token == pkt.token && x.state.Connected?
      && x.client == pkt.client && x.server == pkt.server
  {
    var i, k := pkt.server.rpc, pkt.server.num.value;
    assert BornOk(s, pkt.token) && TokenOk(s, i, pkt.token) && OwnerOk(s, i, k) && SessOk(s, i, k);
    if LiveAt(s, i, k) && At(s, i, k).role.Client? {
      NotThatClient(s, i, k, i, pkt.token);
      assert false;
    }
  }

  lemma DisconnectReqKeeps(p: Limits, s: Sys, pkt: SmPkt)
    requires Inv(p, s) && pkt in s.net && pkt.kind.DisconnectReq?
    ensures Target(pkt) < |s.nodes| && DisconnectReqOk(p, s.nodes[Target(pkt)], pkt)
    ensures Inv(p, Did(s, Target(pkt), HandleDisconnectReq(p, s.nodes[Target(pkt)], pkt)))
  {
    var i, k := Target(pkt), pkt.server.num.value;
    DisconnectFacts(s, pkt);
    var n := s.nodes[i];
    if Live(n, k) { RingRoom(p, n, k); }
    var out := HandleDisconnectReq(p, n, pkt);
    if Live(n, k) {
      RingBury(p, n, k);
      ServerBuryKeeps(s, i, k, out.node);
      var s1 := With(s, i, out.node, s.h);
      BuriedReply(s, i, k, pkt, out.node);
      hide StateInv, NetInv, PktOk, RingOk;
      DidKeeps(p, s, i, out);
    } else {
      AnswerKeeps(p, s, i, out);
    }
  }

  lemma BuriedReply(s: Sys, i: nat, k: nat, pkt: SmPkt, n: Node)
    requires StateInv(s) && PktOk(s, pkt) && pkt.kind.DisconnectReq? && pkt.server == Endpoint(i, Some(k)) &&
             i < |s.nodes|
    requires k < |s.nodes[i].sessions| && n.sessions == s.nodes[i].sessions[k := None] && n.tokens == s.nodes[i].tokens
    ensures PktOk(With(s, i, n, s.h), Response(pkt, NoError))
  {
    var s' := With(s, i, n, s.h);
    assert Later(s, s');
    PktLater(s, s', pkt);
  }

  lemma DisconnectRespKeeps(p: Limits, s: Sys, pkt: SmPkt)
    requires Inv(p, s) && pkt in s.net && pkt.kind.DisconnectResp?
    ensures Target(pkt) < |s.nodes| && DisconnectRespOk(p, s.nodes[Target(pkt)], pkt)
    ensures Inv(p, Did(s, Target(pkt), HandleDisconnectResp(p, s.nodes[Target(pkt)], pkt)))
  {
    var i := Target(pkt);
    assert PktOk(s, pkt);
    RespFacts(s, pkt);
    var n, k := s.nodes[i], pkt.client.num.value;
    if Live(n, k) { RingRoom(p, n, k); }
    var out := HandleDisconnectResp(p, n, pkt);
    if Live(n, k) {
      RingBury(p, n, k);
      MoveKeeps(p, s, i, k, None, out);
    } else {
      AnswerKeeps(p, s, i, out);
    }
  }

  lemma UnknownKeeps(p: Limits, s: Sys, pkt: SmPkt)
    requires Inv(p, s) && Enabled(s, Unknown(pkt))
    ensures Inv(p, Step(p, s, Unknown(pkt)))
  {
    var s' := Step(p, s, Unknown(pkt));
    NetFree(s, s');
    assert PktOk(s, pkt);
    assert PktOk(s, Response(pkt, InvalidRemoteRpcId));
  }

  /** No enabled event ever fails an assertion, and every event keeps the invariant. */
  lemma StepKeeps(p: Limits, s: Sys, e: Event)
    requires Inv(p, s) && Enabled(s, e)
    ensures Safe(p, s, e) && Inv(p, Step(p, s, e))
  {
    hide Inv;
    match e
    case Create(i, remote, token) => CreateKeeps(p, s, i, remote, token);
    case Destroy(i, k, slotsFree) => DestroyKeeps(p, s, i, k, slotsFree);
    case Resend(i, k) => ResendKeeps(p, s, i, k);
    case Unknown(pkt) => UnknownKeeps(p, s, pkt);
    case Deliver(pkt, env, retry) =>
      match pkt.kind
      case ConnectReq => ConnectReqKeeps(p, s, pkt, env);
      case ConnectResp => ConnectRespKeeps(p, s, pkt, env.resolves, retry);
      case DisconnectReq => DisconnectReqKeeps(p, s, pkt);
      case DisconnectResp => DisconnectRespKeeps(p, s, pkt);
  }

  lemma InitKeeps(p: Limits, n: nat)
    ensures Inv(p, InitSys(p, n))
  {
    var s := InitSys(p, n);
    assert StateInv(s);
    forall i: nat | i < n
      ensures RingOk(p, s.nodes[i])
    {
      assert p.credits * 0 == 0 && p.window * 0 == 0;
    }
  }

  // ---------------------------------------------------------------------------
  // Runs
  // ---------------------------------------------------------------------------

  ghost predicate Reaches(p: Limits, s: Sys, es: seq<Event>, t: Sys)
    decreases |es|
  {
    if es == [] then s == t
    else Enabled(s, es[0]) && Safe(p, s, es[0]) && Reaches(p, Step(p, s, es[0]), es[1..], t)
  }

  ghost predicate Fails(p: Limits, s: Sys, es: seq<Event>)
    decreases |es|
  {
    es != [] && Enabled(s, es[0]) && (!Safe(p, s, es[0]) || Fails(p, Step(p, s, es[0]), es[1..]))
  }

  ghost predicate Reachable(p: Limits, s: Sys) {
    exists n: nat, es :: Reaches(p, InitSys(p, n), es, s)
  }

  lemma {:induction false} ReachesInv(p: Limits, s: Sys, es: seq<Event>, t: Sys)
    requires Inv(p, s) && Reaches(p, s, es, t)
    ensures Inv(p, t)
    decreases |es|
  {
    hide Inv, Safe, Enabled, Step;
    if es != [] {
      StepKeeps(p, s, es[0]);
      ReachesInv(p, Step(p, s, es[0]), es[1..], t);
    }
  }

  lemma {:induction false} Extend(p: Limits, s: Sys, a: seq<Event>, t: Sys, e: Event)
    requires Reaches(p, s, a, t) && Enabled(t, e) && Safe(p, t, e)
    ensures Reaches(p, s, a + [e], Step(p, t, e))
    decreases |a|
  {
    hide Enabled, Safe, Step;
    if a == [] {
      assert [] + [e] == [e] && [e][1..] == [];
      assert Reaches(p, Step(p, t, e), [], Step(p, t, e));
    } else {
      Extend(p, Step(p, s, a[0]), a[1..], t, e);
      assert (a + [e])[1..] == a[1..] + [e];
    }
  }

  lemma ReachableInv(p: Limits, s: Sys)
    requires Reachable(p, s)
    ensures Inv(p, s)
  {
    var n: nat, es :| Reaches(p, InitSys(p, n), es, s);
    InitKeeps(p, n);
    ReachesInv(p, InitSys(p, n), es, s);
  }

  lemma {:induction false} NeverFails(p: Limits, s: Sys, es: seq<Event>)
    requires Inv(p, s)
    ensures !Fails(p, s, es)
    decreases |es|
  {
    hide Inv, Safe, Enabled, Step;
    if es != [] && Enabled(s, es[0]) {
      StepKeeps(p, s, es[0]);
      NeverFails(p, Step(p, s, es[0]), es[1..]);
    }
  }

  /** No assertion of a session management handler fails in any run. */
  lemma NoRunFails(p: Limits, n: nat, es: seq<Event>)
    ensures !Fails(p, InitSys(p, n), es)
  {
    InitKeeps(p, n);
    NeverFails(p, InitSys(p, n), es);
  }

  /** A token creates at most one server session ever, whatever is duplicated or repeated. */
  lemma OneSessionPerToken(p: Limits, s: Sys, t: nat)
    requires Reachable(p, s)
    ensures s.h.made[t] <= 1
  {
    ReachableInv(p, s);
    assert MadeOk(s, t);
  }

  /** A connected client is paired with a live server session, and the two sessions name
      each other. */
  lemma ConnectedIsPaired(p: Limits, s: Sys, i: nat, k: nat)
    requires Reachable(p, s) && LiveAt(s, i, k)
    requires At(s, i, k).role.Client? && At(s, i, k).state.Connected?
    ensures var x := At(s, i, k);
      && x.client == Endpoint(i, Some(k)) && x.server.num.Some?
      && LiveAt(s, x.server.rpc, x.server.num.value)
      && var y := At(s, x.server.rpc, x.server.num.value);
         y.role.Server? && y.token == x.token && y.client == x.client && y.server == x.server
  {
    ReachableInv(p, s);
    assert SessOk(s, i, k);
    var x := At(s, i, k);
    var r, m := x.server.rpc, x.server.num.value;
    assert TokenOk(s, r, x.token) && BornOk(s, x.token) && SessOk(s, r, m);
    if At(s, r, m).role.Client? {
      NotThatClient(s, r, m, r, x.token);
      assert false;
    }
  }

  /** Two client sessions are never paired with the same server session. */
  lemma PairingIsInjective(p: Limits, s: Sys, i: nat, k: nat, j: nat, l: nat)
    requires Reachable(p, s) && LiveAt(s, i, k) && LiveAt(s, j, l)
    requires At(s, i, k).role.Client? && At(s, j, l).role.Client?
    requires !At(s, i, k).state.ConnectInProgress? && At(s, i, k).server == At(s, j, l).server
    ensures i == j && k == l
  {
    ReachableInv(p, s);
    var x, y := At(s, i, k), At(s, j, l);
    assert SessOk(s, i, k) && SessOk(s, j, l);
    assert TokenOk(s, x.server.rpc, x.token) && TokenOk(s, y.server.rpc, y.token);
  }

  /** Between events, an endpoint's free ring entries and the credits of its live sessions
      always make up its ring, and every server session has its preallocated buffers. */
  lemma RingConstant(p: Limits, s: Sys, i: nat)
    requires Reachable(p, s) && i < |s.nodes|
    ensures s.nodes[i].ring + p.credits * LiveCount(s.nodes[i].sessions) == p.ring
    ensures s.nodes[i].prealloc == p.window * ServerCount(s.nodes[i].sessions)
  {
    ReachableInv(p, s);
    assert RingOk(p, s.nodes[i]);
  }
}
