/** Session management of one Rpc in the form the program has it: its session vector, token
    map, ring entries and pending requests, updated in place by user calls and handlers. */
module SmRpc {
  import opened Wire
  import opened Handshake
  import HandshakeProof
  import HandshakeRuns

  /** A received management packet, with what its handler cannot decide. */
  datatype WorkItem = WorkItem(pkt: SmPkt, env: Env, retry: bool)

  predicate DrainOk(p: Limits, n: Node, i: nat, q: seq<WorkItem>)
    decreases |q|
  {
    q != [] ==>
      && HandleOk(p, n, q[0].pkt)
      && DrainOk(p, Handle(p, n, i, q[0].pkt, q[0].env, q[0].retry).node, i, q[1..])
  }

  /** Handling a queue of packets in order. */
  function Drain(p: Limits, n: Node, i: nat, q: seq<WorkItem>, sent: seq<SmPkt>): Out
    requires DrainOk(p, n, i, q)
    decreases |q|
  {
    if q == [] then Out(n, sent)
    else
      var out := Handle(p, n, i, q[0].pkt, q[0].env, q[0].retry);
      Drain(p, out.node, i, q[1..], sent + out.sent)
  }

  /** The packets of the queue are delivered one after the other. */
  function Deliveries(q: seq<WorkItem>): seq<Event> {
    if q == [] then [] else [Deliver(q[0].pkt, q[0].env, q[0].retry)] + Deliveries(q[1..])
  }

  /** Draining a queue of packets that were sent to the Rpc fails no assertion, and is the run in
      which they are delivered in order. */
  lemma {:induction false} DrainDelivers(p: Limits, s: Sys, i: nat, q: seq<WorkItem>, sent: seq<SmPkt>)
    returns (t: Sys, more: seq<SmPkt>)
    requires HandshakeProof.Inv(p, s) && i < |s.nodes|
    requires forall w :: w in q ==> w.pkt in s.net && Target(w.pkt) == i
    ensures DrainOk(p, s.nodes[i], i, q) && HandshakeRuns.Reaches(p, s, Deliveries(q), t)
    ensures var out := Drain(p, s.nodes[i], i, q, sent);
      out.sent == sent + more && t.nodes == s.nodes[i := out.node] && t.net == s.net + ToSet(more)
    decreases |q|
  {
    hide HandshakeProof.Inv, HandleOk, Handle, Appended;
    if q == [] {
      t, more := s, [];
      assert s.nodes[i := s.nodes[i]] == s.nodes && s.net + ToSet([]) == s.net;
    } else {
      assert q[0] in q;
      assert forall w :: w in q[1..] ==> w in q;
      var e := Deliver(q[0].pkt, q[0].env, q[0].retry);
      HandshakeRuns.StepKeeps(p, s, e);
      var s1, out := Step(p, s, e), Handle(p, s.nodes[i], i, q[0].pkt, q[0].env, q[0].retry);
      var rest;
      t, rest := DrainDelivers(p, s1, i, q[1..], sent + out.sent);
      more := out.sent + rest;
      assert ToSet(more) == ToSet(out.sent) + ToSet(rest);
      assert Deliveries(q)[1..] == Deliveries(q[1..]);
      assert s1.nodes == s.nodes[i := out.node];
    }
  }

  class Rpc {
    const p: Limits
    const id: nat
    var sessionVec: seq<Option<Session>>
    var tokenMap: map<nat, nat>
    var ringEntries: nat
    var pending: set<nat>
    var prealloc: nat
    var sent: seq<SmPkt>

    function View(): Node
      reads this
    {
      Node(sessionVec, tokenMap, ringEntries, pending, prealloc)
    }

    /** The state is that of `out`, and its packets have been sent. */
    twostate predicate Did(out: Out)
      reads this
    {
      View() == out.node && sent == old(sent) + out.sent
    }

    constructor (p: Limits, id: nat)
      ensures this.p == p && this.id == id && View() == InitNode(p) && sent == []
    {
      this.p, this.id := p, id;
      sessionVec, tokenMap, ringEntries, pending, prealloc, sent := [], map[], p.ring, {}, 0, [];
    }

    method SendSmReqSt(k: nat)
      requires Live(View(), k)
      modifies this`pending, this`sent
      ensures Did(SendReq(old(View()), k))
    {
      pending := pending + {k};
      sent := sent + [Request(sessionVec[k].value)];
    }

    method BurySessionSt(k: nat)
      requires Live(View(), k) && (sessionVec[k].value.role.Server? ==> prealloc >= p.window)
      modifies this`sessionVec, this`prealloc
      ensures View() == Bury(old(View()), k, p)
    {
      if sessionVec[k].value.role.Server? {
        var i := 0;
        while i < p.window
          invariant 0 <= i <= p.window && prealloc == old(prealloc) - i && sessionVec == old(sessionVec)
        {
          prealloc := prealloc - 1;
          i := i + 1;
        }
      }
      sessionVec := sessionVec[k := None];
    }

    /** The new session's number, or none. */
    method CreateSessionSt(remote: nat, token: nat) returns (num: Option<nat>)
      modifies this
      ensures Did(CreateSession(p, old(View()), id, remote, token))
      ensures num == if CreateAllowed(p, old(View()), id, remote) then Some(|old(sessionVec)|) else None
    {
      if remote == id { return None; }
      if !(ringEntries >= p.credits) { return None; }
      var k := |sessionVec|;
      var session := Session(Client, ConnectInProgress, token, Endpoint(id, Some(k)), Endpoint(remote, None));
      ringEntries := ringEntries - p.credits;
      sessionVec := sessionVec + [Some(session)];
      SendSmReqSt(k);
      return Some(k);
    }

    method DestroySessionSt(k: nat, slotsFree: bool) returns (ok: bool)
      modifies this
      ensures Did(DestroySession(old(View()), k, slotsFree))
      ensures ok <==> DestroySession(old(View()), k, slotsFree).sent != []
    {
      if k >= |sessionVec| { return false; }
      if sessionVec[k].None? { return false; }
      var session := sessionVec[k].value;
      if !session.role.Client? { return false; }
      if !slotsFree { return false; }
      match session.state
      case ConnectInProgress => return false;
      case DisconnectInProgress => return false;
      case Connected =>
        sessionVec := sessionVec[k := Some(session.(state := DisconnectInProgress))];
        SendSmReqSt(k);
        return true;
    }

    method HandleConnectReqSt(pkt: SmPkt, env: Env)
      requires ConnectReqOk(View(), pkt)
      modifies this
      ensures Did(HandleConnectReq(p, old(View()), id, pkt, env))
    {
      if pkt.token in tokenMap {
        var k := tokenMap[pkt.token];
        if sessionVec[k].None? || !sessionVec[k].value.state.Connected? { return; }
        sent := sent + [Response(pkt, NoError).(server := sessionVec[k].value.server)];
        return;
      }
      if p.transport(pkt.client.rpc) != p.transport(id) {
        sent := sent + [Response(pkt, InvalidTransport)];
        return;
      }
      if !(ringEntries >= p.credits) {
        sent := sent + [Response(pkt, RingExhausted)];
        return;
      }
      if !env.resolves {
        sent := sent + [Response(pkt, RoutingResolutionFailure)];
        return;
      }
      var full := AllocPrealloc(env.memory);
      if !full {
        sent := sent + [Response(pkt, OutOfMemory)];
        return;
      }
      var k := |sessionVec|;
      var session := Session(Server, Connected, pkt.token, pkt.client, pkt.server.(num := Some(k)));
      tokenMap := tokenMap[session.token := k];
      ringEntries := ringEntries - p.credits;
      sessionVec := sessionVec + [Some(session)];
      sent := sent + [Response(pkt, NoError).(server := session.server)];
    }

    /** Allocate a response buffer for each slot, or none: when an allocation fails, those
        made before are freed. `memory` allocations succeed. */
    method AllocPrealloc(memory: nat) returns (full: bool)
      modifies this`prealloc
      ensures full <==> memory >= p.window
      ensures prealloc == old(prealloc) + if full then p.window else 0
    {
      var i := 0;
      while i < p.window
        invariant 0 <= i <= p.window && i <= memory && prealloc == old(prealloc) + i
      {
        if i == memory {
          var j := 0;
          while j < i
            invariant 0 <= j <= i && prealloc == old(prealloc) + i - j
          {
            prealloc := prealloc - 1;
            j := j + 1;
          }
          return false;
        }
        prealloc := prealloc + 1;
        i := i + 1;
      }
      return true;
    }

    method HandleConnectRespSt(pkt: SmPkt, resolves: bool, retry: bool)
      requires ConnectRespOk(p, View(), pkt)
      modifies this
      ensures Did(HandleConnectResp(p, old(View()), pkt, resolves, retry))
    {
      var k := pkt.client.num.value;
      pending := pending - {k};
      if sessionVec[k].None? || !sessionVec[k].value.state.ConnectInProgress? { return; }
      var session := sessionVec[k].value;
      if pkt.err.InvalidRemoteRpcId? && retry {
        pending := pending + {k};
        return;
      }
      if !pkt.err.NoError? {
        ringEntries := ringEntries + p.credits;
        BurySessionSt(k);
        return;
      }
      session := session.(server := pkt.server);
      if !resolves {
        sessionVec := sessionVec[k := Some(session.(state := DisconnectInProgress))];
        SendSmReqSt(k);
        return;
      }
      sessionVec := sessionVec[k := Some(session.(state := Connected))];
    }

    method HandleDisconnectReqSt(pkt: SmPkt)
      requires DisconnectReqOk(p, View(), pkt)
      modifies this
      ensures Did(HandleDisconnectReq(p, old(View()), pkt))
    {
      var k := pkt.server.num.value;
      if sessionVec[k].None? {
        sent := sent + [Response(pkt, NoError)];
        return;
      }
      ringEntries := ringEntries + p.credits;
      sent := sent + [Response(pkt, NoError)];
      BurySessionSt(k);
    }

    method HandleDisconnectRespSt(pkt: SmPkt)
      requires DisconnectRespOk(p, View(), pkt)
      modifies this
      ensures Did(HandleDisconnectResp(p, old(View()), pkt))
    {
      var k := pkt.client.num.value;
      pending := pending - {k};
      if sessionVec[k].None? { return; }
      ringEntries := ringEntries + p.credits;
      BurySessionSt(k);
    }

    /** Drain the queue of received management packets. */
    method HandleSmRxSt(queue: seq<WorkItem>)
      requires DrainOk(p, View(), id, queue)
      modifies this
      ensures View() == Drain(p, old(View()), id, queue, old(sent)).node
      ensures sent == Drain(p, old(View()), id, queue, old(sent)).sent
    {
      hide ConnectReqOk, ConnectRespOk, DisconnectReqOk, DisconnectRespOk;
      hide HandleConnectReq, HandleConnectResp, HandleDisconnectReq, HandleDisconnectResp;
      var k := 0;
      while k < |queue|
        invariant 0 <= k <= |queue| && DrainOk(p, View(), id, queue[k..])
        invariant Drain(p, View(), id, queue[k..], sent) == Drain(p, old(View()), id, queue, old(sent))
      {
        var wi := queue[k];
        assert queue[k..][0] == wi && queue[k..][1..] == queue[k + 1..];
        match wi.pkt.kind {
          case ConnectReq => HandleConnectReqSt(wi.pkt, wi.env);
          case ConnectResp => HandleConnectRespSt(wi.pkt, wi.env.resolves, wi.retry);
          case DisconnectReq => HandleDisconnectReqSt(wi.pkt);
          case DisconnectResp => HandleDisconnectRespSt(wi.pkt);
        }
        k := k + 1;
      }
    }

    method NumActiveSessionsSt() returns (ret: nat)
      ensures ret == HandshakeProof.LiveCount(sessionVec)
    {
      ret := 0;
      var k := 0;
      while k < |sessionVec|
        invariant 0 <= k <= |sessionVec|
        invariant ret + HandshakeProof.LiveCount(sessionVec[k..]) == HandshakeProof.LiveCount(sessionVec)
      {
        assert sessionVec[k..][1..] == sessionVec[k + 1..];
        if sessionVec[k].Some? { ret := ret + 1; }
        k := k + 1;
      }
    }
  }
}
