/** When a server session can be left without its client session: exactly after a connect
    request was refused for a reason that can pass, because the same request may then be
    delivered again and accepted. */
module Orphans {
  import opened Wire
  import opened Handshake
  import opened HandshakeProof
  import opened HandshakeRuns

  // ---------------------------------------------------------------------------
  // The fate of a token
  // ---------------------------------------------------------------------------

  ghost predicate ClientLives(s: Sys, t: nat)
    requires t in s.h.born
  {
    var c := s.h.born[t].client;
    c.num.Some? && LiveAt(s, c.rpc, c.num.value)
  }

  /** A connect response with this error was sent for the token. */
  ghost predicate RefusedWith(s: Sys, t: nat, err: ErrType) {
    exists pkt :: pkt in s.net && pkt.token == t && pkt.kind.ConnectResp? && pkt.err == err
  }

  ghost predicate Refused(s: Sys, t: nat) {
    exists err :: err != NoError && RefusedWith(s, t, err)
  }

  /** The token's server session existed and is buried. */
  ghost predicate Retired(s: Sys, t: nat)
    requires t in s.h.born
  {
    exists m: nat :: Served(s, t, s.h.born[t].remote, m) && !LiveAt(s, s.h.born[t].remote, m)
  }

  ghost predicate Matched(p: Limits, s: Sys, t: nat)
    requires t in s.h.born
  {
    TransportsMatch(p, s.h.born[t].client.rpc, s.h.born[t].remote)
  }

  /** A client session lives until it is refused or its server session is gone; a token is
      served only if the transports match, and refused for its transport only otherwise. */
  ghost predicate FateOk(p: Limits, s: Sys, t: nat) {
    t in s.h.born ==>
      && (ClientLives(s, t) || Refused(s, t) || Retired(s, t))
      && (forall m: nat {:trigger Served(s, t, s.h.born[t].remote, m)} :: Served(s, t, s.h.born[t].remote, m) ==>
          Matched(p, s, t))
      && (RefusedWith(s, t, InvalidTransport) ==> !Matched(p, s, t))
  }

  ghost predicate FateInv(p: Limits, s: Sys) {
    forall t: nat {:trigger FateOk(p, s, t)} :: FateOk(p, s, t)
  }

  // ---------------------------------------------------------------------------
  // Steps
  // ---------------------------------------------------------------------------

  /** What a step must show about a token that was born before it. */
  ghost predicate FateStep(p: Limits, s: Sys, s': Sys, t: nat)
    requires t in s.h.born && t in s'.h.born && s.h.born[t].remote < |s.nodes| == |s'.nodes|
  {
    && (ClientLives(s, t) ==> ClientLives(s', t) || Refused(s', t) || Retired(s', t))
    && (t !in s.nodes[s.h.born[t].remote].tokens && t in s'.nodes[s.h.born[t].remote].tokens ==> Matched(p, s, t))
    && (RefusedWith(s', t, InvalidTransport) ==> RefusedWith(s, t, InvalidTransport) || !Matched(p, s, t))
  }

  lemma FateStays(p: Limits, s: Sys, s': Sys, t: nat)
    requires StateInv(s) && Later(s, s') && s.net <= s'.net
    requires t in s.h.born && s.h.born[t].remote < |s.nodes| == |s'.nodes| && FateOk(p, s, t) && FateStep(p, s, s', t)
    ensures FateOk(p, s', t)
  {
    var r := s.h.born[t].remote;
    assert s'.h.born[t] == s.h.born[t];
    if Refused(s, t) {
      var err :| err != NoError && RefusedWith(s, t, err);
      assert RefusedWith(s', t, err);
    }
    if Retired(s, t) {
      var m: nat :| Served(s, t, r, m) && !LiveAt(s, r, m);
      assert TokenOk(s, r, t) && OwnerOk(s, r, m);
      assert Served(s', t, r, m) && !LiveAt(s', r, m);
    }
    if t in s.nodes[r].tokens {
      assert Served(s, t, r, s.nodes[r].tokens[t]);
    }
  }

  /** A step on node `i` that leaves its sessions alone and sends no refusal for transports
      that match. */
  lemma QuietFate(p: Limits, s: Sys, i: nat, out: Out)
    requires Inv(p, s) && FateInv(p, s) && i < |s.nodes|
    requires out.node.sessions == s.nodes[i].sessions && out.node.tokens == s.nodes[i].tokens
    requires forall pkt :: pkt in out.sent && pkt.kind.ConnectResp? && pkt.err.InvalidTransport? ==>
               pkt.token in s.h.born && !Matched(p, s, pkt.token)
    ensures FateInv(p, Did(s, i, out))
  {
    hide RingOk, NetInv;
    var s' := Did(s, i, out);
    assert Later(s, s');
    forall t: nat
      ensures FateOk(p, s', t)
    {
      assert FateOk(p, s, t) && BornOk(s, t);
      if t in s.h.born {
        NoNewRefusal(p, s, i, out, t);
        FateStays(p, s, s', t);
      }
    }
  }

  lemma NoNewRefusal(p: Limits, s: Sys, i: nat, out: Out, t: nat)
    requires i < |s.nodes| && t in s.h.born
    requires forall pkt :: pkt in out.sent && pkt.kind.ConnectResp? && pkt.err.InvalidTransport? ==>
               pkt.token in s.h.born && !Matched(p, s, pkt.token)
    ensures RefusedWith(Did(s, i, out), t, InvalidTransport) ==>
            RefusedWith(s, t, InvalidTransport) || !Matched(p, s, t)
  {
  }

  /** The session created with a token is the only one at its number. */
  lemma OneToken(s: Sys, t: nat, u: nat)
    requires StateInv(s) && t in s.h.born && u in s.h.born && s.h.born[t].client == s.h.born[u].client
    ensures t == u
  {
    assert BornOk(s, t) && BornOk(s, u);
  }

  /** A client session of node `i` changes its state, or is buried after a refusal or the end
      of its server session. */
  lemma MoveFate(p: Limits, s: Sys, i: nat, k: nat, y: Option<Session>, out: Out)
    requires Inv(p, s) && FateInv(p, s) && ClientMoves(s, i, k, y)
    requires out.node.sessions == s.nodes[i].sessions[k := y] && out.node.tokens == s.nodes[i].tokens
    requires forall pkt :: pkt in out.sent ==> !pkt.kind.ConnectResp?
    requires y.None? ==>
               At(s, i, k).token in s.h.born && (Refused(s, At(s, i, k).token) || Retired(s, At(s, i, k).token))
    ensures FateInv(p, Did(s, i, out))
  {
    hide RingOk, NetInv;
    var s', x := Did(s, i, out), At(s, i, k);
    assert Later(s, s');
    assert SessOk(s, i, k);
    forall t: nat
      ensures FateOk(p, s', t)
    {
      assert FateOk(p, s, t) && BornOk(s, t) && FateOk(p, s, x.token);
      if t in s.h.born {
        NoNewRefusal(p, s, i, out, t);
        if s.h.born[t].client == Endpoint(i, Some(k)) {
          OneToken(s, t, x.token);
          RefusedStays(s, s', t);
          RetiredStays(s, s', t);
        }
        FateStays(p, s, s', t);
      }
    }
  }

  lemma RefusedStays(s: Sys, s': Sys, t: nat)
    requires s.net <= s'.net
    ensures Refused(s, t) ==> Refused(s', t)
  {
    if err :| err != NoError && RefusedWith(s, t, err) {
      assert RefusedWith(s', t, err);
    }
  }

  lemma RetiredStays(s: Sys, s': Sys, t: nat)
    requires StateInv(s) && Later(s, s') && t in s.h.born && s.h.born[t].remote < |s.nodes|
    ensures Retired(s, t) ==> Retired(s', t)
  {
    var r := s.h.born[t].remote;
    if m: nat :| Served(s, t, r, m) && !LiveAt(s, r, m) {
      assert TokenOk(s, r, t) && OwnerOk(s, r, m);
      assert Served(s', t, r, m) && !LiveAt(s', r, m);
    }
  }

  lemma CreateFate(p: Limits, s: Sys, i: nat, remote: nat, token: nat)
    requires Inv(p, s) && FateInv(p, s) && Enabled(s, Create(i, remote, token)) &&
             CreateAllowed(p, s.nodes[i], i, remote)
    ensures FateInv(p, Step(p, s, Create(i, remote, token)))
  {
    hide RingOk, NetInv;
    var s' := Step(p, s, Create(i, remote, token));
    var out, k := CreateSession(p, s.nodes[i], i, remote, token), |s.nodes[i].sessions|;
    assert out.node.sessions[k].Some?;
    assert Later(s, s');
    forall t: nat
      ensures FateOk(p, s', t)
    {
      assert FateOk(p, s, t) && BornOk(s, t);
      if t == token {
        assert LiveAt(s', i, k);
        FreshToken(p, s, token, remote);
        assert forall pkt :: pkt in out.sent ==> pkt.kind.ConnectReq?;
      } else if t in s.h.born {
        NoNewRefusal(p, s, i, out, t);
        FateStays(p, s, s', t);
      }
    }
  }

  /** Nothing is known of a token before its session is created. */
  lemma FreshToken(p: Limits, s: Sys, t: nat, r: nat)
    requires Inv(p, s) && t !in s.h.born && r < |s.nodes|
    ensures t !in s.nodes[r].tokens && forall pkt :: pkt in s.net ==> pkt.token != t
  {
    assert TokenOk(s, r, t);
    forall pkt | pkt in s.net
      ensures pkt.token != t
    {
      assert PktOk(s, pkt);
    }
  }

  lemma ConnectReqFate(p: Limits, s: Sys, pkt: SmPkt, env: Env)
    requires Inv(p, s) && FateInv(p, s) && pkt in s.net && pkt.kind.ConnectReq?
    requires Target(pkt) < |s.nodes| && ConnectReqOk(s.nodes[Target(pkt)], pkt)
    ensures FateInv(p, Did(s, Target(pkt), HandleConnectReq(p, s.nodes[Target(pkt)], Target(pkt), pkt, env)))
  {
    hide RingOk;
    var i, t := Target(pkt), pkt.token;
    var n := s.nodes[i];
    var out := HandleConnectReq(p, n, i, pkt, env);
    assert PktOk(s, pkt) && BornOk(s, t);
    if out.node == n {
      QuietFate(p, s, i, out);
    } else {
      var s', k := Did(s, i, out), |n.sessions|;
      assert out.node.sessions[k].Some?;
      assert Later(s, s');
      hide NetInv, HandleConnectReq;
      forall u: nat
        ensures FateOk(p, s', u)
      {
        assert FateOk(p, s, u) && BornOk(s, u);
        if u in s.h.born {
          NoNewRefusal(p, s, i, out, u);
          FateStays(p, s, s', u);
        }
      }
    }
  }

  lemma ConnectRespFate(p: Limits, s: Sys, pkt: SmPkt, resolves: bool, retry: bool)
    requires Inv(p, s) && FateInv(p, s) && pkt in s.net && pkt.kind.ConnectResp?
    requires Target(pkt) < |s.nodes| && ConnectRespOk(p, s.nodes[Target(pkt)], pkt)
    ensures FateInv(p, Did(s, Target(pkt), HandleConnectResp(p, s.nodes[Target(pkt)], pkt, resolves, retry)))
  {
    var i, k := Target(pkt), pkt.client.num.value;
    assert PktOk(s, pkt);
    RespFacts(s, pkt);
    var n := s.nodes[i];
    var out := HandleConnectResp(p, n, pkt, resolves, retry);
    if !Live(n, k) || !n.sessions[k].value.state.ConnectInProgress? || (pkt.err.InvalidRemoteRpcId? && retry) {
      QuietFate(p, s, i, out);
    } else if !pkt.err.NoError? {
      assert RefusedWith(s, pkt.token, pkt.err);
      MoveFate(p, s, i, k, None, out);
    } else {
      MoveFate(p, s, i, k, out.node.sessions[k], out);
    }
  }

  lemma DisconnectRespFate(p: Limits, s: Sys, pkt: SmPkt)
    requires Inv(p, s) && FateInv(p, s) && pkt in s.net && pkt.kind.DisconnectResp?
    requires Target(pkt) < |s.nodes| && DisconnectRespOk(p, s.nodes[Target(pkt)], pkt)
    ensures FateInv(p, Did(s, Target(pkt), HandleDisconnectResp(p, s.nodes[Target(pkt)], pkt)))
  {
    var i, k := Target(pkt), pkt.client.num.value;
    assert PktOk(s, pkt);
    RespFacts(s, pkt);
    var out := HandleDisconnectResp(p, s.nodes[i], pkt);
    if Live(s.nodes[i], k) {
      MoveFate(p, s, i, k, None, out);
    } else {
      QuietFate(p, s, i, out);
    }
  }

  lemma DisconnectReqFate(p: Limits, s: Sys, pkt: SmPkt)
    requires Inv(p, s) && FateInv(p, s) && pkt in s.net && pkt.kind.DisconnectReq?
    requires Target(pkt) < |s.nodes| && DisconnectReqOk(p, s.nodes[Target(pkt)], pkt)
    ensures FateInv(p, Did(s, Target(pkt), HandleDisconnectReq(p, s.nodes[Target(pkt)], pkt)))
  {
    var i, k := Target(pkt), pkt.server.num.value;
    assert PktOk(s, pkt);
    DisconnectFacts(s, pkt);
    var out := HandleDisconnectReq(p, s.nodes[i], pkt);
    if Live(s.nodes[i], k) {
      BuryFate(p, s, i, k, out);
    } else {
      QuietFate(p, s, i, out);
    }
  }

  /** Burying a server session leaves all client sessions alone. */
  lemma BuryFate(p: Limits, s: Sys, i: nat, k: nat, out: Out)
    requires Inv(p, s) && FateInv(p, s) && LiveAt(s, i, k) && At(s, i, k).role.Server?
    requires out.node.sessions == s.nodes[i].sessions[k := None] && out.node.tokens == s.nodes[i].tokens
    requires forall pkt :: pkt in out.sent ==> !pkt.kind.ConnectResp?
    ensures FateInv(p, Did(s, i, out))
  {
    hide RingOk, NetInv;
    var s', x := Did(s, i, out), At(s, i, k);
    assert Later(s, s');
    forall t: nat
      ensures FateOk(p, s', t)
    {
      assert FateOk(p, s, t) && BornOk(s, t);
      if t in s.h.born {
        NoNewRefusal(p, s, i, out, t);
        NotItsClient(s, i, k, t);
        FateStays(p, s, s', t);
      }
    }
  }

  lemma NotItsClient(s: Sys, i: nat, k: nat, t: nat)
    requires StateInv(s) && LiveAt(s, i, k) && At(s, i, k).role.Server? && t in s.h.born
    ensures s.h.born[t].client != Endpoint(i, Some(k))
  {
    assert SessOk(s, i, k) && BornOk(s, t);
    assert TokenOk(s, i, At(s, i, k).token) && BornOk(s, At(s, i, k).token);
  }

  lemma DestroyFate(p: Limits, s: Sys, i: nat, k: nat, slotsFree: bool)
    requires Inv(p, s) && FateInv(p, s) && i < |s.nodes|
    ensures FateInv(p, Did(s, i, DestroySession(s.nodes[i], k, slotsFree)))
  {
    var out := DestroySession(s.nodes[i], k, slotsFree);
    if out.sent == [] {
      QuietFate(p, s, i, out);
    } else {
      assert SessOk(s, i, k);
      MoveFate(p, s, i, k, out.node.sessions[k], out);
    }
  }

  lemma UnknownFate(p: Limits, s: Sys, pkt: SmPkt)
    requires Inv(p, s) && FateInv(p, s) && Enabled(s, Unknown(pkt))
    ensures FateInv(p, Step(p, s, Unknown(pkt)))
  {
    hide RingOk, NetInv;
    var s' := Step(p, s, Unknown(pkt));
    assert Later(s, s');
    forall t: nat
      ensures FateOk(p, s', t)
    {
      assert FateOk(p, s, t) && BornOk(s, t);
      if t in s.h.born {
        FateStays(p, s, s', t);
      }
    }
  }

  lemma StepFate(p: Limits, s: Sys, e: Event)
    requires Inv(p, s) && FateInv(p, s) && Enabled(s, e) && Safe(p, s, e)
    ensures FateInv(p, Step(p, s, e))
  {
    match e
    case Create(i, remote, token) =>
      if CreateAllowed(p, s.nodes[i], i, remote) {
        CreateFate(p, s, i, remote, token);
      } else {
        QuietFate(p, s, i, Out(s.nodes[i], []));
      }
    case Destroy(i, k, slotsFree) => DestroyFate(p, s, i, k, slotsFree);
    case Resend(i, k) => assert SessOk(s, i, k); QuietFate(p, s, i, SendReq(s.nodes[i], k));
    case Unknown(pkt) => UnknownFate(p, s, pkt);
    case Deliver(pkt, env, retry) =>
      hide Inv, FateInv;
      match pkt.kind
      case ConnectReq => ConnectReqFate(p, s, pkt, env);
      case ConnectResp => ConnectRespFate(p, s, pkt, env.resolves, retry);
      case DisconnectReq => DisconnectReqFate(p, s, pkt);
      case DisconnectResp => DisconnectRespFate(p, s, pkt);
  }

  lemma {:induction false} ReachesFate(p: Limits, s: Sys, es: seq<Event>, t: Sys)
    requires Inv(p, s) && FateInv(p, s) && Reaches(p, s, es, t)
    ensures FateInv(p, t)
    decreases |es|
  {
    hide Inv, FateInv, Safe, Enabled, Step;
    if es != [] {
      StepKeeps(p, s, es[0]);
      StepFate(p, s, es[0]);
      ReachesFate(p, Step(p, s, es[0]), es[1..], t);
    }
  }

  lemma ReachableFate(p: Limits, s: Sys)
    requires Reachable(p, s)
    ensures FateInv(p, s)
  {
    var n: nat, es :| Reaches(p, InitSys(p, n), es, s);
    InitKeeps(p, n);
    ReachesFate(p, InitSys(p, n), es, s);
  }

  // ---------------------------------------------------------------------------
  // Orphans
  // ---------------------------------------------------------------------------

  /** A live server session whose client session is buried. */
  ghost predicate Orphan(s: Sys, i: nat, k: nat) {
    && LiveAt(s, i, k) && At(s, i, k).role.Server?
    && var c := At(s, i, k).client;
       c.num.Some? && !LiveAt(s, c.rpc, c.num.value)
  }

  /** Reasons for a refusal that can pass; the two transports never change. */
  predicate Passing(err: ErrType) {
    err != NoError && err != InvalidTransport
  }

  /** An orphan's connect request was refused for a reason that can pass. So a token for which
      no such refusal was ever sent never has an orphan. */
  lemma OrphanWasRefused(p: Limits, s: Sys, i: nat, k: nat) returns (err: ErrType)
    requires Reachable(p, s) && Orphan(s, i, k)
    ensures Passing(err) && RefusedWith(s, At(s, i, k).token, err)
  {
    ReachableInv(p, s);
    ReachableFate(p, s);
    var t := At(s, i, k).token;
    assert SessOk(s, i, k) && TokenOk(s, i, t) && BornOk(s, t) && FateOk(p, s, t);
    err :| err != NoError && RefusedWith(s, t, err);
  }

  function Able(p: Limits): Env {
    Env(true, p.window)
  }

  /** The first session of Rpc 0, to Rpc 1. */
  const TOKEN: nat := 7
  const REQ := SmPkt(ConnectReq, NoError, TOKEN, Endpoint(0, Some(0)), Endpoint(1, None))

  /** The request was refused, its client session is buried, and Rpc 1 could accept it. */
  ghost predicate RefusedAndGone(p: Limits, s: Sys, err: ErrType) {
    && |s.nodes| == 2 && REQ in s.net && |s.nodes[0].sessions| > 0 && s.nodes[0].sessions[0].None?
    && TOKEN !in s.nodes[1].tokens && HasRing(p, s.nodes[1])
    && RefusedWith(s, TOKEN, err)
    && forall pkt :: pkt in s.net && pkt.token == TOKEN && pkt.kind.ConnectResp? ==> pkt.err == err
  }

  /** Delivered again, the request is accepted and leaves an orphan. */
  lemma Redelivered(p: Limits, s: Sys, err: ErrType) returns (t: Sys)
    requires RefusedAndGone(p, s, err) && TransportsMatch(p, 0, 1)
    ensures Reaches(p, s, [Deliver(REQ, Able(p), false)], t)
    ensures Orphan(t, 1, |s.nodes[1].sessions|) && At(t, 1, |s.nodes[1].sessions|).token == TOKEN
    ensures RefusedWith(t, TOKEN, err)
    ensures forall other :: other != err && other != NoError ==> !RefusedWith(t, TOKEN, other)
  {
    var e := Deliver(REQ, Able(p), false);
    t := Step(p, s, e);
    assert [e][1..] == [] && Reaches(p, t, [], t);
    assert At(t, 1, |s.nodes[1].sessions|).client == Endpoint(0, Some(0));
    var pkt :| pkt in s.net && pkt.token == TOKEN && pkt.kind.ConnectResp? && pkt.err == err;
    assert pkt in t.net;
  }

  /** The session that the request is for. */
  const CLIENT := Session(Client, ConnectInProgress, TOKEN, Endpoint(0, Some(0)), Endpoint(1, None))

  /** The request was sent and has not been answered. */
  ghost predicate Waiting(p: Limits, s: Sys) {
    && |s.nodes| == 2 && s.nodes[0].sessions == [Some(CLIENT)] && s.nodes[0].ring + p.credits == p.ring
    && TOKEN !in s.nodes[1].tokens
    && REQ in s.net && forall pkt :: pkt in s.net && pkt.token == TOKEN ==> pkt == REQ
  }

  /** The event refuses the request with `err`. */
  predicate Refuses(p: Limits, s: Sys, err: ErrType, e: Event) {
    || (err.OutOfMemory? && |s.nodes| == 2 && HasRing(p, s.nodes[1]) && e == Deliver(REQ, Env(true, 0), false))
    || (err.RoutingResolutionFailure? && |s.nodes| == 2 && HasRing(p, s.nodes[1]) &&
        e == Deliver(REQ, Env(false, p.window), false))
    || (err.InvalidRemoteRpcId? && e == Unknown(REQ))
    || (err.RingExhausted? && |s.nodes| == 2 && !HasRing(p, s.nodes[1]) && e == Deliver(REQ, Able(p), false))
  }

  lemma Refuse(p: Limits, s: Sys, err: ErrType, e: Event)
    requires Waiting(p, s) && Refuses(p, s, err, e) && TransportsMatch(p, 0, 1)
    ensures Enabled(s, e) && Safe(p, s, e)
    ensures Step(p, s, e) == s.(net := s.net + {Response(REQ, err)})
  {
    if e.Deliver? {
      var out := HandleConnectReq(p, s.nodes[1], 1, REQ, e.env);
      assert out == Out(s.nodes[1], [Response(REQ, err)]);
      assert s.nodes[1 := s.nodes[1]] == s.nodes;
    }
  }

  /** A refusal buries a client session that waits for its connection. */
  lemma RefusalBuries(p: Limits, s: Sys, pkt: SmPkt, i: nat)
    requires i < |s.nodes| && pkt in s.net && pkt.kind.ConnectResp? && !pkt.err.NoError? &&
             pkt.client == Endpoint(i, Some(0))
    requires s.nodes[i].ring + p.credits <= p.ring
    requires s.nodes[i].sessions != [] && pkt.server.num.None?
    requires s.nodes[i].sessions[0] == Some(Session(Client, ConnectInProgress, pkt.token, pkt.client, pkt.server))
    ensures var e := Deliver(pkt, Able(p), false);
      && Enabled(s, e) && Safe(p, s, e)
      && var t := Step(p, s, e);
         && t.net == s.net && |t.nodes| == |s.nodes|
         && t.nodes[i].sessions == s.nodes[i].sessions[0 := None] && t.nodes[i].tokens == s.nodes[i].tokens
         && t.nodes[i].ring == s.nodes[i].ring + p.credits
         && forall j :: 0 <= j < |s.nodes| && j != i ==> t.nodes[j] == s.nodes[j]
  {
    assert Target(pkt) == i;
  }

  lemma Issues(p: Limits, s: Sys)
    requires |s.nodes| == 2 && s.nodes[0] == InitNode(p) && TOKEN !in s.h.born && TOKEN !in s.nodes[1].tokens
    requires p.credits <= p.ring && forall pkt :: pkt in s.net ==> pkt.token != TOKEN
    ensures var e := Create(0, 1, TOKEN);
      && Enabled(s, e) && Safe(p, s, e) && Waiting(p, Step(p, s, e))
      && Step(p, s, e).nodes[1] == s.nodes[1] && s.net <= Step(p, s, e).net
  {
    var out := CreateSession(p, s.nodes[0], 0, 1, TOKEN);
    assert out.node.sessions == [Some(CLIENT)] && out.sent == [REQ];
    assert ToSet(out.sent) == {REQ};
  }

  /** The request is refused, and the refusal buries its client session. */
  lemma RefusedGoes(p: Limits, s: Sys, err: ErrType, e: Event) returns (es: seq<Event>, t: Sys)
    requires Waiting(p, s) && Refuses(p, s, err, e) && TransportsMatch(p, 0, 1) && err != NoError
    ensures Reaches(p, s, es, t) && |t.nodes| == 2 && t.nodes[1] == s.nodes[1] && t.nodes[0].sessions == [None]
    ensures t.net == s.net + {Response(REQ, err)}
  {
    hide Step, Enabled, Safe;
    var refusal := Response(REQ, err);
    Refuse(p, s, err, e);
    var s1 := Step(p, s, e);
    RefusalBuries(p, s1, refusal, 0);
    Extend(p, s, [], s, e);
    Extend(p, s, [e], s1, Deliver(refusal, Able(p), false));
    es, t := [e] + [Deliver(refusal, Able(p), false)], Step(p, s1, Deliver(refusal, Able(p), false));
    assert [] + [e] == [e];
  }

  lemma RefusedRun(p: Limits, err: ErrType, refuse: Event) returns (es: seq<Event>, s: Sys)
    requires p.credits <= p.ring && TransportsMatch(p, 0, 1) && !err.RingExhausted? && err != NoError
    requires Refuses(p, InitSys(p, 2), err, refuse)
    ensures Reaches(p, InitSys(p, 2), es, s) && RefusedAndGone(p, s, err)
  {
    var s0, e := InitSys(p, 2), Create(0, 1, TOKEN);
    Issues(p, s0);
    hide Step, Enabled, Safe;
    Extend(p, s0, [], s0, e);
    var s1 := Step(p, s0, e);
    es, s := RefusedGoes(p, s1, err, refuse);
    ReachesJoin(p, s0, [] + [e], s1, es, s);
    es := [] + [e] + es;
    assert Response(REQ, err) in s.net;
  }

  /** The request of Rpc 1's own first session. */
  const OTHER := SmPkt(ConnectReq, NoError, TOKEN + 1, Endpoint(1, Some(0)), Endpoint(0, None))

  /** Rpc 1 takes up its ring with sessions of its own, and the first will be refused. */
  ghost predicate Filling(p: Limits, s: Sys, m: nat) {
    && |s.nodes| == 2 && s.nodes[0] == InitNode(p) && m > TOKEN + 1
    && s.nodes[1].tokens == map[] && s.nodes[1].ring + p.credits <= p.ring
    && s.nodes[1].sessions != []
    && s.nodes[1].sessions[0] == Some(Session(Client, ConnectInProgress, TOKEN + 1, OTHER.client, OTHER.server))
    && (forall t :: t in s.h.born ==> t < m && t != TOKEN)
    && (forall pkt :: pkt in s.net ==> pkt.token != TOKEN)
    && Response(OTHER, InvalidRemoteRpcId) in s.net
  }

  /** Rpc 1 has asked for a session before Rpc 0 existed. */
  lemma OtherRun(p: Limits) returns (es: seq<Event>, s: Sys)
    requires p.credits <= p.ring
    ensures Reaches(p, InitSys(p, 2), es, s) && Filling(p, s, TOKEN + 2)
  {
    var s0, e1, e2 := InitSys(p, 2), Create(1, 0, TOKEN + 1), Unknown(OTHER);
    var out := CreateSession(p, s0.nodes[1], 1, 0, TOKEN + 1);
    assert out.sent == [OTHER] && ToSet(out.sent) == {OTHER};
    var s1 := Step(p, s0, e1);
    assert s1.net == {OTHER};
    s := Step(p, s1, e2);
    assert Enabled(s1, e2) && Safe(p, s1, e2);
    hide Step, Enabled, Safe;
    Extend(p, s0, [], s0, e1);
    Extend(p, s0, [] + [e1], s1, e2);
    es := [] + [e1] + [e2];
  }

  lemma FillOne(p: Limits, s: Sys, m: nat)
    requires Filling(p, s, m) && HasRing(p, s.nodes[1])
    ensures var e := Create(1, 0, m);
      && Enabled(s, e) && Safe(p, s, e) && Filling(p, Step(p, s, e), m + 1)
      && Step(p, s, e).nodes[1].ring == s.nodes[1].ring - p.credits
  {
    var out := CreateSession(p, s.nodes[1], 1, 0, m);
    assert out.sent == [SmPkt(ConnectReq, NoError, m, Endpoint(1, Some(|s.nodes[1].sessions|)), Endpoint(0, None))];
  }

  lemma {:induction false} FillRun(p: Limits, s: Sys, m: nat) returns (es: seq<Event>, t: Sys, m': nat)
    requires Filling(p, s, m)
    ensures Reaches(p, s, es, t) && Filling(p, t, m') && !HasRing(p, t.nodes[1])
    decreases s.nodes[1].ring
  {
    if HasRing(p, s.nodes[1]) {
      FillOne(p, s, m);
      hide Step, Enabled, Safe;
      var e := Create(1, 0, m);
      es, t, m' := FillRun(p, Step(p, s, e), m + 1);
      Extend(p, s, [], s, e);
      ReachesJoin(p, s, [] + [e], Step(p, s, e), es, t);
      es := [] + [e] + es;
    } else {
      es, t, m' := [], s, m;
    }
  }

  lemma ExhaustedRun(p: Limits) returns (es: seq<Event>, s: Sys)
    requires p.credits <= p.ring && TransportsMatch(p, 0, 1)
    ensures Reaches(p, InitSys(p, 2), es, s) && RefusedAndGone(p, s, RingExhausted)
  {
    hide Step, Enabled, Safe, Reaches;
    var s0, e, refusal := InitSys(p, 2), Create(0, 1, TOKEN), Response(OTHER, InvalidRemoteRpcId);
    var es0, r0 := OtherRun(p);
    var es1, s1, m := FillRun(p, r0, TOKEN + 2);
    ReachesJoin(p, s0, es0, r0, es1, s1);
    Issues(p, s1);
    Extend(p, s0, es0 + es1, s1, e);
    var s2 := Step(p, s1, e);
    var es3, s3 := RefusedGoes(p, s2, RingExhausted, Deliver(REQ, Able(p), false));
    ReachesJoin(p, s0, es0 + es1 + [e], s2, es3, s3);
    RefusalBuries(p, s3, refusal, 1);
    Extend(p, s0, es0 + es1 + [e] + es3, s3, Deliver(refusal, Able(p), false));
    es, s := es0 + es1 + [e] + es3 + [Deliver(refusal, Able(p), false)], Step(p, s3, Deliver(refusal, Able(p), false));
    assert Response(REQ, RingExhausted) in s.net;
  }

  /** Each reason that can pass leaves an orphan in some run, alone: memory, routing
      information, an Rpc that does not exist yet, and ring entries. */
  lemma OrphanPossible(p: Limits, err: ErrType) returns (es: seq<Event>, t: Sys, k: nat)
    requires Passing(err) && p.credits <= p.ring && TransportsMatch(p, 0, 1)
    ensures Reaches(p, InitSys(p, 2), es, t)
    ensures Orphan(t, 1, k) && RefusedWith(t, At(t, 1, k).token, err)
    ensures forall other :: other != err && other != NoError ==> !RefusedWith(t, At(t, 1, k).token, other)
  {
    hide Step, Enabled, Safe;
    var s;
    match err {
      case RingExhausted => es, s := ExhaustedRun(p);
      case OutOfMemory => es, s := RefusedRun(p, err, Deliver(REQ, Env(true, 0), false));
      case RoutingResolutionFailure => es, s := RefusedRun(p, err, Deliver(REQ, Env(false, p.window), false));
      case InvalidRemoteRpcId => es, s := RefusedRun(p, err, Unknown(REQ));
    }
    k := |s.nodes[1].sessions|;
    t := Redelivered(p, s, err);
    ReachesJoin(p, InitSys(p, 2), es, s, [Deliver(REQ, Able(p), false)], t);
    es := es + [Deliver(REQ, Able(p), false)];
  }

  lemma {:induction false} ReachesJoin(p: Limits, s: Sys, a: seq<Event>, t: Sys, b: seq<Event>, u: Sys)
    requires Reaches(p, s, a, t) && Reaches(p, t, b, u)
    ensures Reaches(p, s, a + b, u)
    decreases |a|
  {
    hide Enabled, Safe, Step;
    if a == [] {
      assert a + b == b;
    } else {
      ReachesJoin(p, Step(p, s, a[0]), a[1..], t, b, u);
      assert (a + b)[1..] == a[1..] + b;
    }
  }
}
