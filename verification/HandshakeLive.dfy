/** What session management achieves: which event leads where, that every session that is
    connecting gets connected when its packets get through, and exactly when one that is
    disconnecting still can be. */
module HandshakeLive {
  import opened Wire
  import opened Handshake
  import opened HandshakeProof
  import opened HandshakeRuns

  // ---------------------------------------------------------------------------
  // Pending requests
  // ---------------------------------------------------------------------------

  /** A pending request belongs to a live client session that is not connected, so the loss
      scan never meets a session that is gone; and a connecting session's is pending. */
  ghost predicate PendOk(n: Node) {
    && (forall k :: k in n.pending ==>
          Live(n, k) && n.sessions[k].value.role.Client? && !n.sessions[k].value.state.Connected?)
    && (forall k: nat :: Live(n, k) && n.sessions[k].value.state.ConnectInProgress? ==> k in n.pending)
  }

  ghost predicate PendInv(s: Sys) {
    forall i: nat {:trigger s.nodes[i]} :: i < |s.nodes| ==> PendOk(s.nodes[i])
  }

  lemma ConnectPend(p: Limits, n: Node, i: nat, pkt: SmPkt, env: Env, retry: bool)
    requires PendOk(n) && HandleOk(p, n, pkt) && (pkt.kind.ConnectReq? || pkt.kind.ConnectResp?)
    ensures PendOk(Handle(p, n, i, pkt, env, retry).node)
  {
  }

  lemma DisconnectPend(p: Limits, n: Node, i: nat, pkt: SmPkt, env: Env, retry: bool)
    requires PendOk(n) && HandleOk(p, n, pkt) && (pkt.kind.DisconnectReq? || pkt.kind.DisconnectResp?)
    ensures PendOk(Handle(p, n, i, pkt, env, retry).node)
  {
  }

  /** Every event keeps pending requests right. */
  lemma StepPend(p: Limits, s: Sys, e: Event)
    requires Inv(p, s) && PendInv(s) && Enabled(s, e) && Safe(p, s, e)
    ensures PendInv(Step(p, s, e))
  {
    hide Inv, Handle, HandleOk;
    if e.Deliver? {
      var n := s.nodes[Target(e.pkt)];
      assert PendOk(n);
      if e.pkt.kind.ConnectReq? || e.pkt.kind.ConnectResp? {
        ConnectPend(p, n, Target(e.pkt), e.pkt, e.env, e.retry);
      } else {
        DisconnectPend(p, n, Target(e.pkt), e.pkt, e.env, e.retry);
      }
    } else if !e.Unknown? {
      assert PendOk(s.nodes[e.i]);
    }
  }

  lemma {:induction false} ReachesPend(p: Limits, s: Sys, es: seq<Event>, t: Sys)
    requires Inv(p, s) && PendInv(s) && Reaches(p, s, es, t)
    ensures PendInv(t)
    decreases |es|
  {
    hide Inv, PendInv, Safe, Enabled, Step;
    if es != [] {
      StepKeeps(p, s, es[0]);
      StepPend(p, s, es[0]);
      ReachesPend(p, Step(p, s, es[0]), es[1..], t);
    }
  }

  /** The loss scan's pending requests are those of live client sessions that are connecting or
      disconnecting, in every reachable state. */
  lemma PendingIsLive(p: Limits, s: Sys, i: nat, k: nat)
    requires Reachable(p, s) && i < |s.nodes|
    ensures k in s.nodes[i].pending ==> LiveAt(s, i, k) && At(s, i, k).role.Client? && !At(s, i, k).state.Connected?
    ensures LiveAt(s, i, k) && At(s, i, k).state.ConnectInProgress? ==> k in s.nodes[i].pending
  {
    ReachablePend(p, s);
    assert PendOk(s.nodes[i]);
  }

  lemma ReachablePend(p: Limits, s: Sys)
    requires Reachable(p, s)
    ensures Inv(p, s) && PendInv(s)
  {
    hide Inv;
    ReachableInv(p, s);
    var n: nat, es :| Reaches(p, InitSys(p, n), es, s);
    InitKeeps(p, n);
    ReachesPend(p, InitSys(p, n), es, s);
  }

  // ---------------------------------------------------------------------------
  // Which event leads where
  // ---------------------------------------------------------------------------

  /** The first response to a connecting session settles it: connected exactly if the server
      accepted it and its routing resolves, disconnecting if it accepted but does not resolve,
      still connecting if the remote Rpc is unknown and that is retried, and gone with its ring
      entries returned otherwise. */
  lemma ResponseSettles(p: Limits, s: Sys, pkt: SmPkt, env: Env, retry: bool)
    requires Inv(p, s) && pkt in s.net && pkt.kind.ConnectResp?
    requires var i, k := pkt.client.rpc, pkt.client.num;
             k.Some? && LiveAt(s, i, k.value) && At(s, i, k.value).state.ConnectInProgress?
    ensures Safe(p, s, Deliver(pkt, env, retry))
    ensures var i, k, t := pkt.client.rpc, pkt.client.num.value, Step(p, s, Deliver(pkt, env, retry));
      var x := At(s, i, k);
      && (LiveAt(t, i, k) <==> pkt.err.NoError? || (pkt.err.InvalidRemoteRpcId? && retry))
      && (!LiveAt(t, i, k) ==> t.nodes[i].ring == s.nodes[i].ring + p.credits && k !in t.nodes[i].pending)
      && (LiveAt(t, i, k) ==> t.nodes[i].ring == s.nodes[i].ring)
      && (pkt.err.NoError? ==>
            && At(t, i, k) == x.(server := pkt.server, state := At(t, i, k).state)
            && (At(t, i, k).state.Connected? <==> env.resolves)
            && (env.resolves ==> t.net == s.net && k !in t.nodes[i].pending)
            && (!env.resolves ==>
                  && At(t, i, k).state.DisconnectInProgress? && k in t.nodes[i].pending
                  && Request(At(t, i, k)) in t.net))
      && (pkt.err.InvalidRemoteRpcId? && retry ==> At(t, i, k) == x && k in t.nodes[i].pending)
  {
    StepKeeps(p, s, Deliver(pkt, env, retry));
    hide Inv;
  }

  /** Why a server turns down a connect request that it sees for the first time: the first of
      its checks that fails. */
  predicate TurnsDown(p: Limits, n: Node, client: nat, server: nat, env: Env, err: ErrType) {
    match err
    case InvalidTransport => p.transport(client) != p.transport(server)
    case RingExhausted => p.transport(client) == p.transport(server) && n.ring < p.credits
    case RoutingResolutionFailure =>
      p.transport(client) == p.transport(server) && n.ring >= p.credits && !env.resolves
    case OutOfMemory =>
      p.transport(client) == p.transport(server) && n.ring >= p.credits && env.resolves && env.memory < p.window
    case _ => false
  }

  ghost predicate Accepts(p: Limits, n: Node, client: nat, server: nat, env: Env) {
    forall err :: !TurnsDown(p, n, client, server, env, err)
  }

  /** The first time that a request is seen it is answered once: with the reason, and nothing
      else happens, or with the number of a new server session that holds ring entries. */
  lemma FirstRequestAnswered(p: Limits, s: Sys, pkt: SmPkt, env: Env, retry: bool)
    requires Inv(p, s) && pkt in s.net && pkt.kind.ConnectReq?
    requires pkt.server.rpc < |s.nodes| && pkt.token !in s.nodes[pkt.server.rpc].tokens
    ensures Safe(p, s, Deliver(pkt, env, retry))
    ensures var r, t := pkt.server.rpc, Step(p, s, Deliver(pkt, env, retry));
      && (forall err :: TurnsDown(p, s.nodes[r], pkt.client.rpc, r, env, err) ==>
            t == s.(net := s.net + {pkt.(kind := ConnectResp, err := err)}))
      && (Accepts(p, s.nodes[r], pkt.client.rpc, r, env) ==>
            var m := |s.nodes[r].sessions|;
            && LiveAt(t, r, m) && Served(t, pkt.token, r, m) && t.nodes[r].ring == s.nodes[r].ring - p.credits
            && At(t, r, m) == Session(Server, Connected, pkt.token, pkt.client, Endpoint(r, Some(m)))
            && t.net == s.net + {pkt.(kind := ConnectResp, err := NoError, server := Endpoint(r, Some(m)))})
  {
    StepKeeps(p, s, Deliver(pkt, env, retry));
    assert PktOk(s, pkt);
    hide Inv;
    var r, n := pkt.server.rpc, s.nodes[pkt.server.rpc];
    assert s.nodes[r := n] == s.nodes;
    var c := pkt.client.rpc;
    assert Accepts(p, n, c, r, env) ==>
      && !TurnsDown(p, n, c, r, env, InvalidTransport) && !TurnsDown(p, n, c, r, env, RingExhausted)
      && !TurnsDown(p, n, c, r, env, RoutingResolutionFailure) && !TurnsDown(p, n, c, r, env, OutOfMemory);
  }

  /** A request that was accepted before is answered again with the same session, and nothing
      else happens, as long as its client is not leaving. */
  lemma RepeatedRequestAnswered(p: Limits, s: Sys, pkt: SmPkt, env: Env, retry: bool)
    requires Inv(p, s) && pkt in s.net && pkt.kind.ConnectReq?
    requires pkt.token in s.h.born && !Leaving(s, pkt.token)
    requires pkt.server.rpc < |s.nodes| && pkt.token in s.nodes[pkt.server.rpc].tokens
    ensures Safe(p, s, Deliver(pkt, env, retry))
    ensures var r, t := pkt.server.rpc, Step(p, s, Deliver(pkt, env, retry));
      var m := s.nodes[r].tokens[pkt.token];
      && LiveAt(s, r, m)
      && t == s.(net := s.net + {pkt.(kind := ConnectResp, err := NoError, server := Endpoint(r, Some(m)))})
  {
    StepKeeps(p, s, Deliver(pkt, env, retry));
    var r := pkt.server.rpc;
    var m := s.nodes[r].tokens[pkt.token];
    assert PktOk(s, pkt) && TokenOk(s, r, pkt.token) && SessOk(s, r, m);
    if At(s, r, m).role.Client? {
      NotThatClient(s, r, m, r, pkt.token);
      assert false;
    }
    hide Inv;
    assert s.nodes[r := s.nodes[r]] == s.nodes;
  }

  /** A connected client session stays as it is in every event but one: its user's destroying
      it while all its slots are free. That starts to disconnect it and sends the request. */
  lemma LeavesConnected(p: Limits, s: Sys, e: Event, i: nat, k: nat)
    requires Inv(p, s) && Enabled(s, e)
    requires LiveAt(s, i, k) && At(s, i, k).role.Client? && At(s, i, k).state.Connected?
    ensures Safe(p, s, e) && LiveAt(Step(p, s, e), i, k)
    ensures var t, x := Step(p, s, e), At(s, i, k);
      if e == Destroy(i, k, true) then
        && At(t, i, k) == x.(state := DisconnectInProgress) && k in t.nodes[i].pending
        && t.net == s.net + {SmPkt(DisconnectReq, NoError, x.token, x.client, x.server)}
      else At(t, i, k) == x
  {
    hide HandleOk, Handle;
    StepKeeps(p, s, e);
    assert SessOk(s, i, k);
    if e.Deliver? {
      assert PktOk(s, e.pkt);
      DeliverLeaves(p, s, e.pkt, e.env, e.retry, i, k);
    }
  }

  /** No packet makes it leave. */
  lemma DeliverLeaves(p: Limits, s: Sys, pkt: SmPkt, env: Env, retry: bool, i: nat, k: nat)
    requires StateInv(s) && PktOk(s, pkt) && Target(pkt) < |s.nodes| && HandleOk(p, s.nodes[Target(pkt)], pkt)
    requires LiveAt(s, i, k) && At(s, i, k).role.Client? && At(s, i, k).state.Connected?
    ensures var n := Handle(p, s.nodes[Target(pkt)], Target(pkt), pkt, env, retry).node;
      Target(pkt) == i ==> Live(n, k) && n.sessions[k] == Some(At(s, i, k))
  {
    if pkt.kind.DisconnectResp? {
      RespFacts(s, pkt);
    } else if pkt.kind.DisconnectReq? {
      DisconnectFacts(s, pkt);
    }
    hide StateInv, PktOk;
  }

  /** Destroying any other session, or one with requests outstanding, is refused. */
  lemma DestroyRefused(p: Limits, s: Sys, i: nat, k: nat, slotsFree: bool)
    requires i < |s.nodes|
    requires !slotsFree || !LiveAt(s, i, k) || At(s, i, k).role.Server? || !At(s, i, k).state.Connected?
    ensures Step(p, s, Destroy(i, k, slotsFree)) == s
  {
    assert s.nodes[i := s.nodes[i]] == s.nodes;
    assert s.net + ToSet([]) == s.net;
  }

  /** Creating a session with another Rpc starts to connect it exactly if there are ring
      entries for it. */
  lemma CreateStarts(p: Limits, s: Sys, i: nat, remote: nat, token: nat)
    requires Inv(p, s) && Enabled(s, Create(i, remote, token))
    ensures var t, k := Step(p, s, Create(i, remote, token)), |s.nodes[i].sessions|;
      if remote == i || s.nodes[i].ring < p.credits then t == s
      else
        && LiveAt(t, i, k) && k in t.nodes[i].pending && t.nodes[i].ring == s.nodes[i].ring - p.credits
        && At(t, i, k) == Session(Client, ConnectInProgress, token, Endpoint(i, Some(k)), Endpoint(remote, None))
        && t.net == s.net + {SmPkt(ConnectReq, NoError, token, Endpoint(i, Some(k)), Endpoint(remote, None))}
  {
    hide Inv;
    assert s.nodes[i := s.nodes[i]] == s.nodes;
    assert s.net + ToSet([]) == s.net;
  }

  /** The server buries the session that a disconnect request is for, returns its ring entries
      and confirms; a repeated request is only confirmed again. */
  lemma DisconnectConfirmed(p: Limits, s: Sys, pkt: SmPkt, env: Env, retry: bool)
    requires Inv(p, s) && pkt in s.net && pkt.kind.DisconnectReq?
    ensures Safe(p, s, Deliver(pkt, env, retry)) && pkt.server.num.Some?
    ensures var r, m, t := pkt.server.rpc, pkt.server.num.value, Step(p, s, Deliver(pkt, env, retry));
      && r < |s.nodes| && !LiveAt(t, r, m) && t.net == s.net + {pkt.(kind := DisconnectResp, err := NoError)}
      && t.nodes[r].ring == s.nodes[r].ring + (if LiveAt(s, r, m) then p.credits else 0)
      && t.nodes == s.nodes[r := t.nodes[r]] && t.nodes[r].pending == s.nodes[r].pending
      && (forall k :: 0 <= k < |s.nodes[r].sessions| && k != m ==> t.nodes[r].sessions[k] == s.nodes[r].sessions[k])
  {
    StepKeeps(p, s, Deliver(pkt, env, retry));
    DisconnectFacts(s, pkt);
    hide Inv;
  }

  /** The confirmation buries the client's session and returns its ring entries. */
  lemma ConfirmationBuries(p: Limits, s: Sys, pkt: SmPkt, env: Env, retry: bool)
    requires Inv(p, s) && pkt in s.net && pkt.kind.DisconnectResp?
    ensures Safe(p, s, Deliver(pkt, env, retry)) && pkt.client.num.Some?
    ensures var i, k, t := pkt.client.rpc, pkt.client.num.value, Step(p, s, Deliver(pkt, env, retry));
      && i < |s.nodes| && !LiveAt(t, i, k) && k !in t.nodes[i].pending && t.net == s.net
      && t.nodes[i].ring == s.nodes[i].ring + (if LiveAt(s, i, k) then p.credits else 0)
      && t.nodes == s.nodes[i := t.nodes[i]]
  {
    StepKeeps(p, s, Deliver(pkt, env, retry));
    RespFacts(s, pkt);
    hide Inv;
    assert s.net + ToSet([]) == s.net;
  }

  // ---------------------------------------------------------------------------
  // Completion
  // ---------------------------------------------------------------------------

  /** Every management packet in flight is lost. */
  function Lost(s: Sys): Sys {
    s.(net := {})
  }

  lemma LostKeeps(p: Limits, s: Sys)
    requires Inv(p, s)
    ensures Inv(p, Lost(s))
  {
    hide StateInv, PktOk, RingOk;
    NetFree(s, Lost(s));
  }

  lemma Reaches3(p: Limits, s: Sys, e1: Event, e2: Event, e3: Event)
    requires Enabled(s, e1) && Safe(p, s, e1)
    requires var s1 := Step(p, s, e1);
      && Enabled(s1, e2) && Safe(p, s1, e2)
      && Enabled(Step(p, s1, e2), e3) && Safe(p, Step(p, s1, e2), e3)
    ensures Reaches(p, s, [e1, e2, e3], Step(p, Step(p, Step(p, s, e1), e2), e3))
  {
    hide Enabled, Safe, Step;
    var u := Step(p, Step(p, Step(p, s, e1), e2), e3);
    assert [e1, e2, e3][1..] == [e2, e3] && [e2, e3][1..] == [e3] && [e3][1..] == [];
    assert Reaches(p, u, [], u);
    assert Reaches(p, Step(p, Step(p, s, e1), e2), [e3], u);
    assert Reaches(p, Step(p, s, e1), [e2, e3], u);
  }

  /** The loss scan repeats a pending request and changes nothing else. */
  lemma ResendSends(p: Limits, s: Sys, i: nat, k: nat)
    requires Inv(p, s) && PendInv(s) && i < |s.nodes| && k in s.nodes[i].pending
    ensures LiveAt(s, i, k) && Enabled(s, Resend(i, k)) && Safe(p, s, Resend(i, k))
    ensures Step(p, s, Resend(i, k)) == s.(net := s.net + {Request(At(s, i, k))})
  {
    hide Inv;
    assert PendOk(s.nodes[i]);
    assert s.nodes[i].pending + {k} == s.nodes[i].pending;
    assert s.nodes[i := s.nodes[i]] == s.nodes;
  }

  /** The session is connected to a server session that names it as its client. */
  ghost predicate PairedAt(s: Sys, i: nat, k: nat) {
    && LiveAt(s, i, k) && At(s, i, k).role.Client? && At(s, i, k).state.Connected?
    && var x := At(s, i, k);
       && x.server.num.Some? && LiveAt(s, x.server.rpc, x.server.num.value)
       && At(s, x.server.rpc, x.server.num.value) == Session(Server, Connected, x.token, x.client, x.server)
  }

  /** The server has accepted the session's request before, or accepts it now. */
  ghost predicate Welcome(p: Limits, s: Sys, i: nat, k: nat, env: Env)
    requires LiveAt(s, i, k)
  {
    var x := At(s, i, k);
    && x.server.rpc < |s.nodes|
    && (x.token in s.nodes[x.server.rpc].tokens || Accepts(p, s.nodes[x.server.rpc], i, x.server.rpc, env))
  }

  /** The server's answer to a session's request, which it is given for the first time or again. */
  lemma RequestAccepted(p: Limits, s: Sys, i: nat, k: nat, env: Env, retry: bool) returns (pkt: SmPkt)
    requires Inv(p, s) && LiveAt(s, i, k) && At(s, i, k).role.Client? && At(s, i, k).state.ConnectInProgress?
    requires Request(At(s, i, k)) in s.net && Welcome(p, s, i, k, env)
    ensures Safe(p, s, Deliver(Request(At(s, i, k)), env, retry))
    ensures var x, t := At(s, i, k), Step(p, s, Deliver(Request(At(s, i, k)), env, retry));
      && pkt in t.net && pkt.kind.ConnectResp? && pkt.err.NoError?
      && pkt.client == x.client == Endpoint(i, Some(k)) && pkt.token == x.token
      && LiveAt(t, i, k) && At(t, i, k) == x
      && pkt.server.num.Some? && pkt.server.rpc != i && LiveAt(t, pkt.server.rpc, pkt.server.num.value)
      && At(t, pkt.server.rpc, pkt.server.num.value) == Session(Server, Connected, x.token, x.client, pkt.server)
  {
    var x, req := At(s, i, k), Request(At(s, i, k));
    var r := x.server.rpc;
    assert SessOk(s, i, k) && BornOk(s, x.token);
    if x.token in s.nodes[r].tokens {
      RepeatedRequestAnswered(p, s, req, env, retry);
      var m := s.nodes[r].tokens[x.token];
      assert TokenOk(s, r, x.token) && SessOk(s, r, m);
      if At(s, r, m).role.Client? {
        NotThatClient(s, r, m, r, x.token);
        assert false;
      }
      pkt := req.(kind := ConnectResp, err := NoError, server := Endpoint(r, Some(m)));
    } else {
      FirstRequestAnswered(p, s, req, env, retry);
      pkt := req.(kind := ConnectResp, err := NoError, server := Endpoint(r, Some(|s.nodes[r].sessions|)));
    }
  }

  /** Whatever packets were lost, a connecting session that is welcome is connected and paired
      once its request and an answer get through, if the server's routing resolves: be it the
      first time or after an answer was lost. */
  lemma ConnectCompletes(p: Limits, s: Sys, i: nat, k: nat, env: Env, env': Env, retry: bool)
    returns (es: seq<Event>, t: Sys)
    requires Reachable(p, s) && LiveAt(s, i, k) && At(s, i, k).role.Client? && At(s, i, k).state.ConnectInProgress?
    requires Welcome(p, s, i, k, env) && env'.resolves
    ensures |es| == 3 && es[0] == Resend(i, k) && es[1] == Deliver(Request(At(s, i, k)), env, retry)
    ensures es[2].Deliver? && es[2].pkt.kind.ConnectResp? && es[2].env == env'
    ensures Reaches(p, Lost(s), es, t) && PairedAt(t, i, k)
  {
    hide Inv, PendInv, Safe, Enabled, Step, Welcome;
    ReachablePend(p, s);
    es, t := ConnectSchedule(p, s, i, k, env, env', retry);
  }

  lemma ConnectSchedule(p: Limits, s: Sys, i: nat, k: nat, env: Env, env': Env, retry: bool)
    returns (es: seq<Event>, t: Sys)
    requires Inv(p, s) && PendInv(s)
    requires LiveAt(s, i, k) && At(s, i, k).role.Client? && At(s, i, k).state.ConnectInProgress?
    requires Welcome(p, s, i, k, env) && env'.resolves
    ensures |es| == 3 && es[0] == Resend(i, k) && es[1] == Deliver(Request(At(s, i, k)), env, retry)
    ensures es[2].Deliver? && es[2].pkt.kind.ConnectResp? && es[2].env == env'
    ensures Reaches(p, Lost(s), es, t) && PairedAt(t, i, k)
  {
    hide Inv, Step;
    LostKeeps(p, s);
    assert PendOk(s.nodes[i]);
    ResendSends(p, Lost(s), i, k);
    StepKeeps(p, Lost(s), Resend(i, k));
    var s1, req := Step(p, Lost(s), Resend(i, k)), Request(At(s, i, k));
    var resp := RequestAccepted(p, s1, i, k, env, retry);
    StepKeeps(p, s1, Deliver(req, env, retry));
    var s2 := Step(p, s1, Deliver(req, env, retry));
    ResponseSettles(p, s2, resp, env', retry);
    OthersStay(p, s2, resp, env', retry);
    es := [Resend(i, k), Deliver(req, env, retry), Deliver(resp, env', retry)];
    t := Step(p, s2, es[2]);
    Reaches3(p, Lost(s), es[0], es[1], es[2]);
  }

  /** A delivered packet concerns its target only. */
  lemma OthersStay(p: Limits, s: Sys, pkt: SmPkt, env: Env, retry: bool)
    requires Enabled(s, Deliver(pkt, env, retry)) && Safe(p, s, Deliver(pkt, env, retry))
    ensures var t := Step(p, s, Deliver(pkt, env, retry));
      |t.nodes| == |s.nodes| && forall j :: 0 <= j < |s.nodes| && j != Target(pkt) ==> t.nodes[j] == s.nodes[j]
  {
  }

  // ---------------------------------------------------------------------------
  // Disconnecting
  // ---------------------------------------------------------------------------

  /** A client session that is disconnecting. */
  ghost predicate Parting(s: Sys, i: nat, k: nat) {
    LiveAt(s, i, k) && At(s, i, k).role.Client? && At(s, i, k).state.DisconnectInProgress?
  }

  /** With its request pending, a disconnecting session is buried at both ends once the request
      and its confirmation get through, and both ends have their ring entries back. */
  lemma DisconnectSchedule(p: Limits, s: Sys, i: nat, k: nat, env: Env, retry: bool) returns (es: seq<Event>, t: Sys)
    requires Inv(p, s) && PendInv(s) && Parting(s, i, k) && k in s.nodes[i].pending
    ensures Reaches(p, Lost(s), es, t) && |t.nodes| == |s.nodes|
    ensures var x := At(s, i, k);
      && !LiveAt(t, i, k) && x.server.num.Some? && !LiveAt(t, x.server.rpc, x.server.num.value)
      && t.nodes[i].ring == s.nodes[i].ring + p.credits
      && x.server.rpc < |s.nodes| && x.server.rpc != i
      && t.nodes[x.server.rpc].ring ==
         s.nodes[x.server.rpc].ring + (if LiveAt(s, x.server.rpc, x.server.num.value) then p.credits else 0)
  {
    hide Inv, Step;
    LostKeeps(p, s);
    ResendSends(p, Lost(s), i, k);
    StepKeeps(p, Lost(s), Resend(i, k));
    var s1, req := Step(p, Lost(s), Resend(i, k)), Request(At(s, i, k));
    PartingFacts(p, s, i, k);
    DisconnectConfirmed(p, s1, req, env, retry);
    StepKeeps(p, s1, Deliver(req, env, retry));
    var s2, resp := Step(p, s1, Deliver(req, env, retry)), req.(kind := DisconnectResp, err := NoError);
    ConfirmationBuries(p, s2, resp, env, retry);
    es := [Resend(i, k), Deliver(req, env, retry), Deliver(resp, env, retry)];
    t := Step(p, s2, es[2]);
    Reaches3(p, Lost(s), es[0], es[1], es[2]);
  }

  lemma PartingFacts(p: Limits, s: Sys, i: nat, k: nat)
    requires Inv(p, s) && Parting(s, i, k)
    ensures var x := At(s, i, k);
      && x.client == Endpoint(i, Some(k)) && x.server.num.Some? && x.server.rpc < |s.nodes| && x.server.rpc != i
      && x.token in s.h.born
  {
    assert SessOk(s, i, k) && BornOk(s, At(s, i, k).token);
  }

  /** A disconnecting session whose request is neither pending nor in flight. */
  ghost predicate Stuck(s: Sys, i: nat, k: nat) {
    && Parting(s, i, k) && k !in s.nodes[i].pending
    && forall pkt :: pkt in s.net && (pkt.kind.DisconnectReq? || pkt.kind.DisconnectResp?) ==>
         pkt.token != At(s, i, k).token
  }

  /** Two client sessions never have the same token. */
  lemma TokensDiffer(s: Sys, i: nat, k: nat, j: nat, l: nat)
    requires StateInv(s) && LiveAt(s, i, k) && LiveAt(s, j, l)
    requires At(s, i, k).role.Client? && At(s, j, l).role.Client? && At(s, i, k).token == At(s, j, l).token
    ensures i == j && k == l
  {
    assert SessOk(s, i, k) && SessOk(s, j, l);
  }

  lemma StuckConnectReq(p: Limits, s: Sys, pkt: SmPkt, env: Env, i: nat, k: nat)
    requires Stuck(s, i, k) && pkt.kind.ConnectReq?
    requires Target(pkt) < |s.nodes| && ConnectReqOk(s.nodes[Target(pkt)], pkt)
    ensures Stuck(Did(s, Target(pkt), HandleConnectReq(p, s.nodes[Target(pkt)], Target(pkt), pkt, env)), i, k)
  {
  }

  lemma StuckConnectResp(p: Limits, s: Sys, pkt: SmPkt, resolves: bool, retry: bool, i: nat, k: nat)
    requires StateInv(s) && Stuck(s, i, k) && pkt.kind.ConnectResp? && PktOk(s, pkt)
    requires Target(pkt) < |s.nodes| && ConnectRespOk(p, s.nodes[Target(pkt)], pkt)
    ensures Stuck(Did(s, Target(pkt), HandleConnectResp(p, s.nodes[Target(pkt)], pkt, resolves, retry)), i, k)
  {
    var j, l := pkt.client.rpc, pkt.client.num.value;
    RespFacts(s, pkt);
    if LiveAt(s, j, l) && (j, l) != (i, k) && At(s, j, l).token == At(s, i, k).token {
      TokensDiffer(s, i, k, j, l);
    }
    hide StateInv, PktOk;
  }

  lemma StuckDisconnectReq(p: Limits, s: Sys, pkt: SmPkt, i: nat, k: nat)
    requires StateInv(s) && Stuck(s, i, k) && pkt in s.net && pkt.kind.DisconnectReq? && PktOk(s, pkt)
    requires Target(pkt) < |s.nodes| && DisconnectReqOk(p, s.nodes[Target(pkt)], pkt)
    ensures Stuck(Did(s, Target(pkt), HandleDisconnectReq(p, s.nodes[Target(pkt)], pkt)), i, k)
  {
    DisconnectFacts(s, pkt);
    hide StateInv, PktOk;
  }

  lemma StuckDisconnectResp(p: Limits, s: Sys, pkt: SmPkt, i: nat, k: nat)
    requires StateInv(s) && Stuck(s, i, k) && pkt in s.net && pkt.kind.DisconnectResp? && PktOk(s, pkt)
    requires Target(pkt) < |s.nodes| && DisconnectRespOk(p, s.nodes[Target(pkt)], pkt)
    ensures Stuck(Did(s, Target(pkt), HandleDisconnectResp(p, s.nodes[Target(pkt)], pkt)), i, k)
  {
    RespFacts(s, pkt);
    hide StateInv, PktOk;
  }

  /** It stays so whatever happens. */
  lemma StaysStuck(p: Limits, s: Sys, e: Event, i: nat, k: nat)
    requires Inv(p, s) && Enabled(s, e) && Stuck(s, i, k)
    ensures Safe(p, s, e) && Stuck(Step(p, s, e), i, k)
  {
    StepKeeps(p, s, e);
    match e
    case Deliver(pkt, env, retry) =>
      assert PktOk(s, pkt);
      match pkt.kind {
        case ConnectReq => StuckConnectReq(p, s, pkt, env, i, k);
        case ConnectResp => StuckConnectResp(p, s, pkt, env.resolves, retry, i, k);
        case DisconnectReq => StuckDisconnectReq(p, s, pkt, i, k);
        case DisconnectResp => StuckDisconnectResp(p, s, pkt, i, k);
      }
    case Create(j, remote, token) =>
    case Destroy(j, l, slotsFree) => if LiveAt(s, j, l) && At(s, j, l).role.Client? { StuckSender(s, i, k, j, l); }
    case Resend(j, l) =>
      assert SessOk(s, j, l);
      StuckSender(s, i, k, j, l);
    case Unknown(pkt) =>
  }

  lemma StuckSender(s: Sys, i: nat, k: nat, j: nat, l: nat)
    requires StateInv(s) && Stuck(s, i, k) && LiveAt(s, j, l) && At(s, j, l).role.Client?
    ensures At(s, j, l).token == At(s, i, k).token ==> i == j && k == l
  {
    if At(s, j, l).token == At(s, i, k).token {
      TokensDiffer(s, i, k, j, l);
    }
  }

  lemma {:induction false} StuckForever(p: Limits, s: Sys, es: seq<Event>, t: Sys, i: nat, k: nat)
    requires Inv(p, s) && Stuck(s, i, k) && Reaches(p, s, es, t)
    ensures LiveAt(t, i, k)
    decreases |es|
  {
    hide Inv, Safe, Enabled, Step;
    if es != [] {
      StaysStuck(p, s, es[0], i, k);
      StepKeeps(p, s, es[0]);
      StuckForever(p, Step(p, s, es[0]), es[1..], t, i, k);
    }
  }

  /** Some events bury the session. */
  ghost predicate CanEnd(p: Limits, s: Sys, i: nat, k: nat) {
    exists es, t :: Reaches(p, s, es, t) && !LiveAt(t, i, k)
  }

  /** When all packets in flight are lost, a disconnecting session can still be buried exactly if
      its request is pending. */
  lemma DisconnectExactly(p: Limits, s: Sys, i: nat, k: nat)
    requires Reachable(p, s) && Parting(s, i, k)
    ensures CanEnd(p, Lost(s), i, k) <==> k in s.nodes[i].pending
  {
    hide Inv, PendInv, Safe, Enabled, Step;
    ReachablePend(p, s);
    LostKeeps(p, s);
    if k in s.nodes[i].pending {
      var es, t := DisconnectSchedule(p, s, i, k, Env(true, 0), false);
    } else if CanEnd(p, Lost(s), i, k) {
      var es, t :| Reaches(p, Lost(s), es, t) && !LiveAt(t, i, k);
      assert Stuck(Lost(s), i, k);
      StuckForever(p, Lost(s), es, t, i, k);
    }
  }

  /** It need not be: every management response clears the pending request of its session, also
      a late duplicate of the response that connected it. */
  lemma DuplicateUnpends(p: Limits, s: Sys, pkt: SmPkt, env: Env, retry: bool)
    requires Inv(p, s) && pkt in s.net && pkt.kind.ConnectResp? && pkt.client.num.Some?
    requires Parting(s, pkt.client.rpc, pkt.client.num.value)
    ensures Safe(p, s, Deliver(pkt, env, retry))
    ensures var i, k, t := pkt.client.rpc, pkt.client.num.value, Step(p, s, Deliver(pkt, env, retry));
      && LiveAt(t, i, k) && At(t, i, k) == At(s, i, k) && k !in t.nodes[i].pending && t.net == s.net
  {
    StepKeeps(p, s, Deliver(pkt, env, retry));
    hide Inv;
    assert s.net + ToSet([]) == s.net;
  }

  /** A run that connects the first session of the first of two Rpcs. */
  lemma ConnectedRun(p: Limits) returns (es: seq<Event>, s: Sys, resp: SmPkt)
    requires p.ring >= p.credits && p.transport(0) == p.transport(1)
    ensures Reaches(p, InitSys(p, 2), es, s) && PairedAt(s, 0, 0)
    ensures resp in s.net && resp.kind.ConnectResp? && resp.client == Endpoint(0, Some(0))
  {
    hide Step, Enabled, Safe, Inv;
    var s0, env := InitSys(p, 2), Env(true, p.window);
    InitKeeps(p, 2);
    var e1 := Create(0, 1, 0);
    InitEnabled(p);
    StepKeeps(p, s0, e1);
    CreateStarts(p, s0, 0, 1, 0);
    var s1 := Step(p, s0, e1);
    var e2 := Deliver(Request(At(s1, 0, 0)), env, false);
    DeliverEnabled(s1, Request(At(s1, 0, 0)), env);
    StepKeeps(p, s1, e2);
    InitWelcome(p, s1, env);
    resp := RequestAccepted(p, s1, 0, 0, env, false);
    var s2 := Step(p, s1, e2);
    var e3 := Deliver(resp, env, false);
    DeliverEnabled(s2, resp, env);
    ResponseSettles(p, s2, resp, env, false);
    OthersStay(p, s2, resp, env, false);
    Reaches3(p, s0, e1, e2, e3);
    es, s := [e1, e2, e3], Step(p, s2, e3);
  }

  lemma DeliverEnabled(s: Sys, pkt: SmPkt, env: Env)
    requires pkt in s.net
    ensures Enabled(s, Deliver(pkt, env, false))
  {
  }

  lemma InitEnabled(p: Limits)
    ensures Enabled(InitSys(p, 2), Create(0, 1, 0))
  {
  }

  lemma InitWelcome(p: Limits, s: Sys, env: Env)
    requires LiveAt(s, 0, 0) && At(s, 0, 0).server.rpc == 1 && s == Step(p, InitSys(p, 2), Create(0, 1, 0))
    requires Enabled(InitSys(p, 2), Create(0, 1, 0)) && Safe(p, InitSys(p, 2), Create(0, 1, 0))
    requires p.ring >= p.credits && p.transport(0) == p.transport(1) && env == Env(true, p.window)
    ensures Welcome(p, s, 0, 0, env)
  {
  }

  /** So in some run a session that its user destroys stays for ever, when the one request to
      disconnect it is lost after the duplicate came. */
  lemma StuckPossible(p: Limits) returns (es: seq<Event>, s: Sys)
    requires p.ring >= p.credits && p.transport(0) == p.transport(1)
    ensures Reaches(p, InitSys(p, 2), es, s) && Destroy(0, 0, true) in es
    ensures Parting(s, 0, 0) && !CanEnd(p, Lost(s), 0, 0)
  {
    hide Step, Enabled, Safe, Inv, Reaches;
    var env := Env(true, 0);
    var a, s1, resp := ConnectedRun(p);
    InitKeeps(p, 2);
    ReachesInv(p, InitSys(p, 2), a, s1);
    var e1, e2 := Destroy(0, 0, true), Deliver(resp, env, false);
    DestroyEnabled(s1);
    LeavesConnected(p, s1, e1, 0, 0);
    StepKeeps(p, s1, e1);
    var s2 := Step(p, s1, e1);
    DeliverEnabled(s2, resp, env);
    DuplicateUnpends(p, s2, resp, env, false);
    s := Step(p, s2, e2);
    Extend(p, InitSys(p, 2), a, s1, e1);
    Extend(p, InitSys(p, 2), a + [e1], s2, e2);
    es := a + [e1] + [e2];
    assert Reachable(p, s);
    DisconnectExactly(p, s, 0, 0);
  }

  lemma DestroyEnabled(s: Sys)
    requires LiveAt(s, 0, 0)
    ensures Enabled(s, Destroy(0, 0, true))
  {
  }
}
