/** Session management: connect and disconnect handshakes between any number of Rpc
    endpoints over an unreliable channel, as functions on an endpoint's state and as a state
    machine over events. */
module Handshake {
  import opened Wire

  /** An endpoint's Rpc and its session number there, if it is known. */
  datatype Endpoint = Endpoint(rpc: nat, num: Option<nat>)

  datatype PktType = ConnectReq | ConnectResp | DisconnectReq | DisconnectResp

  datatype ErrType =
    | NoError | RingExhausted | OutOfMemory | RoutingResolutionFailure | InvalidRemoteRpcId | InvalidTransport

  datatype SmPkt = SmPkt(kind: PktType, err: ErrType, token: nat, client: Endpoint, server: Endpoint)

  datatype Role = Client | Server

  datatype State = ConnectInProgress | Connected | DisconnectInProgress

  datatype Session = Session(role: Role, state: State, token: nat, client: Endpoint, server: Endpoint)

  /** Entries of the receive ring, credits of a session, slots of a session, each of which
      has a preallocated response buffer at the server, and the transport of each Rpc, which
      never changes and which the Rpc's connect requests carry. */
  datatype Limits = Limits(ring: nat, credits: pos, window: pos, transport: nat -> nat)

  /** One Rpc: its session vector (None for buried sessions), the connect tokens it has
      served, its free ring entries, the sessions with a pending management request, and the
      number of preallocated response buffers. */
  datatype Node = Node(
    sessions: seq<Option<Session>>, tokens: map<nat, nat>, ring: nat, pending: set<nat>, prealloc: nat)

  /** What a handler leaves behind, and what it sends. */
  datatype Out = Out(node: Node, sent: seq<SmPkt>)

  /** What an endpoint cannot decide: whether routing information can be resolved, and how
      many buffer allocations succeed. */
  datatype Env = Env(resolves: bool, memory: nat)

  function InitNode(p: Limits): Node {
    Node([], map[], p.ring, {}, 0)
  }

  predicate HasRing(p: Limits, n: Node) {
    n.ring >= p.credits
  }

  function RespType(k: PktType): PktType
    requires k.ConnectReq? || k.DisconnectReq?
  {
    if k.ConnectReq? then ConnectResp else DisconnectResp
  }

  function Response(pkt: SmPkt, err: ErrType): SmPkt
    requires pkt.kind.ConnectReq? || pkt.kind.DisconnectReq?
  {
    pkt.(kind := RespType(pkt.kind), err := err)
  }

  function Bury(n: Node, k: nat, p: Limits): Node
    requires k < |n.sessions| && n.sessions[k].Some?
    requires n.sessions[k].value.role.Server? ==> n.prealloc >= p.window
  {
    n.(sessions := n.sessions[k := None],
       prealloc := if n.sessions[k].value.role.Server? then n.prealloc - p.window else n.prealloc)
  }

  predicate Live(n: Node, k: nat) {
    k < |n.sessions| && n.sessions[k].Some?
  }

  /** The request that a session waiting for its peer sends, again and again. */
  function Request(s: Session): SmPkt {
    SmPkt(if s.state.ConnectInProgress? then ConnectReq else DisconnectReq, NoError, s.token, s.client, s.server)
  }

  function SendReq(n: Node, k: nat): Out
    requires Live(n, k)
  {
    Out(n.(pending := n.pending + {k}), [Request(n.sessions[k].value)])
  }

  // ---------------------------------------------------------------------------
  // User calls
  // ---------------------------------------------------------------------------

  /** Fails for a session with oneself and without ring entries. */
  predicate CreateAllowed(p: Limits, n: Node, i: nat, remote: nat) {
    remote != i && HasRing(p, n)
  }

  function CreateSession(p: Limits, n: Node, i: nat, remote: nat, token: nat): Out {
    if !CreateAllowed(p, n, i, remote) then Out(n, [])
    else
      var k := |n.sessions|;
      var s := Session(Client, ConnectInProgress, token, Endpoint(i, Some(k)), Endpoint(remote, None));
      SendReq(n.(ring := n.ring - p.credits, sessions := n.sessions + [Some(s)]), k)
  }

  function DestroySession(n: Node, k: nat, slotsFree: bool): Out {
    if !Live(n, k) || !n.sessions[k].value.role.Client? || !slotsFree || !n.sessions[k].value.state.Connected?
    then Out(n, [])
    else SendReq(n.(sessions := n.sessions[k := Some(n.sessions[k].value.(state := DisconnectInProgress))]), k)
  }

  // ---------------------------------------------------------------------------
  // Handlers
  // ---------------------------------------------------------------------------

  predicate ConnectReqOk(n: Node, pkt: SmPkt) {
    pkt.kind.ConnectReq? && (pkt.token in n.tokens ==> n.tokens[pkt.token] < |n.sessions|)
  }

  /** The transport in the request is that of the Rpc that it is for. */
  predicate TransportsMatch(p: Limits, client: nat, server: nat) {
    p.transport(client) == p.transport(server)
  }

  function HandleConnectReq(p: Limits, n: Node, i: nat, pkt: SmPkt, env: Env): Out
    requires ConnectReqOk(n, pkt)
  {
    if pkt.token in n.tokens then
      var k := n.tokens[pkt.token];
      if !Live(n, k) || !n.sessions[k].value.state.Connected? then Out(n, [])
      else Out(n, [Response(pkt, NoError).(server := n.sessions[k].value.server)])
    else if !TransportsMatch(p, pkt.client.rpc, i) then Out(n, [Response(pkt, InvalidTransport)])
    else if !HasRing(p, n) then Out(n, [Response(pkt, RingExhausted)])
    else if !env.resolves then Out(n, [Response(pkt, RoutingResolutionFailure)])
    else if env.memory < p.window then Out(n, [Response(pkt, OutOfMemory)])
    else
      var k := |n.sessions|;
      var s := Session(Server, Connected, pkt.token, pkt.client, pkt.server.(num := Some(k)));
      Out(n.(sessions := n.sessions + [Some(s)], tokens := n.tokens[pkt.token := k],
             ring := n.ring - p.credits, prealloc := n.prealloc + p.window),
          [Response(pkt, NoError).(server := s.server)])
  }

  /** A management response clears the session's pending request. */
  function Unpend(n: Node, pkt: SmPkt): Node
    requires pkt.client.num.Some?
  {
    n.(pending := n.pending - {pkt.client.num.value})
  }

  predicate ConnectRespOk(p: Limits, n: Node, pkt: SmPkt) {
    && pkt.kind.ConnectResp? && pkt.client.num.Some? && pkt.client.num.value < |n.sessions|
    && var s := n.sessions[pkt.client.num.value];
       (s.Some? && s.value.state.ConnectInProgress? ==>
          && s.value.role.Client? && s.value.client == pkt.client
          && s.value.server.rpc == pkt.server.rpc && s.value.server.num.None?
          && n.ring + p.credits <= p.ring)
  }

  /** `retry` is the endpoint's setting for unknown remote Rpcs. */
  function HandleConnectResp(p: Limits, n0: Node, pkt: SmPkt, resolves: bool, retry: bool): Out
    requires ConnectRespOk(p, n0, pkt)
  {
    var n, k := Unpend(n0, pkt), pkt.client.num.value;
    if !Live(n, k) || !n.sessions[k].value.state.ConnectInProgress? then Out(n, [])
    else if pkt.err.InvalidRemoteRpcId? && retry then Out(n.(pending := n.pending + {k}), [])
    else if !pkt.err.NoError? then Out(Bury(n.(ring := n.ring + p.credits), k, p), [])
    else
      var s := n.sessions[k].value.(server := pkt.server);
      if !resolves then SendReq(n.(sessions := n.sessions[k := Some(s.(state := DisconnectInProgress))]), k)
      else Out(n.(sessions := n.sessions[k := Some(s.(state := Connected))]), [])
  }

  predicate DisconnectReqOk(p: Limits, n: Node, pkt: SmPkt) {
    && pkt.kind.DisconnectReq? && pkt.server.num.Some? && pkt.server.num.value < |n.sessions|
    && var s := n.sessions[pkt.server.num.value];
       (s.Some? ==>
          && s.value.role.Server? && s.value.state.Connected?
          && s.value.server == pkt.server && s.value.client == pkt.client
          && n.ring + p.credits <= p.ring && n.prealloc >= p.window)
  }

  function HandleDisconnectReq(p: Limits, n: Node, pkt: SmPkt): Out
    requires DisconnectReqOk(p, n, pkt)
  {
    var k := pkt.server.num.value;
    if !Live(n, k) then Out(n, [Response(pkt, NoError)])
    else Out(Bury(n.(ring := n.ring + p.credits), k, p), [Response(pkt, NoError)])
  }

  predicate DisconnectRespOk(p: Limits, n: Node, pkt: SmPkt) {
    && pkt.kind.DisconnectResp? && pkt.err.NoError?
    && pkt.client.num.Some? && pkt.client.num.value < |n.sessions|
    && var s := n.sessions[pkt.client.num.value];
       (s.Some? ==>
          && s.value.role.Client? && s.value.state.DisconnectInProgress?
          && s.value.client == pkt.client && s.value.server == pkt.server
          && n.ring + p.credits <= p.ring)
  }

  function HandleDisconnectResp(p: Limits, n0: Node, pkt: SmPkt): Out
    requires DisconnectRespOk(p, n0, pkt)
  {
    var n, k := Unpend(n0, pkt), pkt.client.num.value;
    if !Live(n, k) then Out(n, [])
    else Out(Bury(n.(ring := n.ring + p.credits), k, p), [])
  }

  // ---------------------------------------------------------------------------
  // The state machine
  // ---------------------------------------------------------------------------

  /** Who created a token's session, for which remote Rpc; which token each session number
      was created with; and how often a connect request created a session for a token. */
  datatype Origin = Origin(client: Endpoint, remote: nat)

  datatype Hist = Hist(born: map<nat, Origin>, owner: map<(nat, nat), nat>, made: multiset<nat>)

  /** All Rpcs, and every management packet ever sent. */
  datatype Sys = Sys(nodes: seq<Node>, net: set<SmPkt>, h: Hist)

  datatype Event =
    | Create(i: nat, remote: nat, token: nat)
    | Destroy(i: nat, k: nat, slotsFree: bool)
    | Resend(i: nat, k: nat)                           // the loss scan repeats a pending request
    | Deliver(pkt: SmPkt, env: Env, retry: bool)
    | Unknown(pkt: SmPkt)                              // the remote Rpc does not exist yet

  function InitSys(p: Limits, n: nat): Sys {
    Sys(seq(n, _ => InitNode(p)), {}, Hist(map[], map[], multiset{}))
  }

  /** The Rpc that a packet is for. */
  function Target(pkt: SmPkt): nat {
    if pkt.kind.ConnectReq? || pkt.kind.DisconnectReq? then pkt.server.rpc else pkt.client.rpc
  }

  /** Tokens are unique. */
  predicate Enabled(s: Sys, e: Event) {
    match e
    case Create(i, remote, token) => i < |s.nodes| && remote < |s.nodes| && token !in s.h.born
    case Destroy(i, k, _) => i < |s.nodes|
    case Resend(i, k) =>
      && i < |s.nodes| && k in s.nodes[i].pending && Live(s.nodes[i], k)
      && !s.nodes[i].sessions[k].value.state.Connected?
    case Deliver(pkt, _, _) => pkt in s.net
    case Unknown(pkt) => pkt in s.net && pkt.kind.ConnectReq?
  }

  /** No assertion of the packet's handler fails. */
  predicate HandleOk(p: Limits, n: Node, pkt: SmPkt) {
    match pkt.kind
    case ConnectReq => ConnectReqOk(n, pkt)
    case ConnectResp => ConnectRespOk(p, n, pkt)
    case DisconnectReq => DisconnectReqOk(p, n, pkt)
    case DisconnectResp => DisconnectRespOk(p, n, pkt)
  }

  /** No assertion on the event's path fails. */
  predicate Safe(p: Limits, s: Sys, e: Event) {
    e.Deliver? ==>
      && Target(e.pkt) < |s.nodes|
      && var n := s.nodes[Target(e.pkt)];
         HandleOk(p, n, e.pkt)
  }

  function Handle(p: Limits, n: Node, i: nat, pkt: SmPkt, env: Env, retry: bool): Out
    requires HandleOk(p, n, pkt)
  {
    match pkt.kind
    case ConnectReq => HandleConnectReq(p, n, i, pkt, env)
    case ConnectResp => HandleConnectResp(p, n, pkt, env.resolves, retry)
    case DisconnectReq => HandleDisconnectReq(p, n, pkt)
    case DisconnectResp => HandleDisconnectResp(p, n, pkt)
  }

  function ToSet(pkts: seq<SmPkt>): set<SmPkt> {
    set x | x in pkts
  }

  /** A newly appended session is recorded with its token. */
  function Appended(s: Sys, i: nat, out: Out): Hist
    requires i < |s.nodes|
  {
    if |out.node.sessions| <= |s.nodes[i].sessions| then s.h
    else
      var k := |out.node.sessions| - 1;
      if out.node.sessions[k].None? then s.h
      else
        var x := out.node.sessions[k].value;
        var h := s.h.(owner := s.h.owner[(i, k) := x.token]);
        if x.role.Client? then h.(born := h.born[x.token := Origin(x.client, x.server.rpc)])
        else h.(made := h.made + multiset{x.token})
  }

  function Did(s: Sys, i: nat, out: Out): Sys
    requires i < |s.nodes|
  {
    Sys(s.nodes[i := out.node], s.net + ToSet(out.sent), Appended(s, i, out))
  }

  function Step(p: Limits, s: Sys, e: Event): Sys
    requires Enabled(s, e) && Safe(p, s, e)
  {
    match e
    case Create(i, remote, token) => Did(s, i, CreateSession(p, s.nodes[i], i, remote, token))
    case Destroy(i, k, slotsFree) => Did(s, i, DestroySession(s.nodes[i], k, slotsFree))
    case Resend(i, k) => Did(s, i, SendReq(s.nodes[i], k))
    case Deliver(pkt, env, retry) =>
      Did(s, Target(pkt), Handle(p, s.nodes[Target(pkt)], Target(pkt), pkt, env, retry))
    case Unknown(pkt) => s.(net := s.net + {Response(pkt, InvalidRemoteRpcId)})
  }
}
