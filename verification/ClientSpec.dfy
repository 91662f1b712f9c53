/** The client endpoint of a session as functions on values: what each event-loop
    handler does to the slots, credits and queues, and which packets it sends.
    The `...Ok` predicates collect the assertions on a handler's path. */
module ClientSpec {
  import opened Wire

  /** A user's request: its type and data, and the buffer supplied for the response. */
  datatype Request = Request(reqType: nat, data: seq<byte>, resp: MsgBuf)

  datatype ClientSlot = ClientSlot(
    tx: Option<Request>,      // the active request, if any
    curReq: nat,
    resp: MsgBuf,             // the user's response buffer
    numTx: nat,
    numRx: nat,
    inWheel: seq<bool>,       // indexed by packet number modulo the credits
    wheelCount: nat,
    wheel: multiset<nat>)     // this slot's packet numbers in the wheel or its ready queue

  datatype Client = Client(
    credits: nat,
    slots: seq<ClientSlot>,
    free: seq<nat>,           // stack of free slots
    backlog: seq<Request>,
    stallq: seq<nat>,         // slots stalled for credits
    active: seq<nat>)         // list of active slots, oldest first

  datatype Completion = Completion(reqNum: nat, bytes: seq<byte>)

  /** What a handler returns: the new state, the packets sent, the request that was
      given a slot, and the request whose continuation was invoked. */
  datatype ClientOut = ClientOut(
    cl: Client,
    sent: seq<Pkt>,
    issued: Option<(nat, Request)>,
    done: Option<Completion>)

  function InitSlot(p: Config, i: nat): ClientSlot {
    ClientSlot(None, i, EmptyBuf, 0, 0, seq(p.credits, _ => false), 0, multiset{})
  }

  function InitClient(p: Config): Client {
    Client(p.credits, seq(p.window, i requires 0 <= i => InitSlot(p, i)),
           seq(p.window, i requires 0 <= i < p.window => p.window - 1 - i as nat), [], [], [])
  }

  // ---------------------------------------------------------------------------
  // Packets
  // ---------------------------------------------------------------------------

  function ReqPkts(p: Config, r: Request): pos {
    NumPkts(p.dataPerPkt, |r.data|)
  }

  function ReqPkt(p: Config, r: Request, reqNum: nat, idx: nat): Pkt
    requires idx < ReqPkts(p, r)
  {
    Pkt(Req, r.reqType, reqNum, PktNumField(idx), |r.data|, Chunk(p.dataPerPkt, r.data, idx))
  }

  /** A request-for-response copies its type and request number from the response's header. */
  function RfrPkt(resp: MsgBuf, pktNum: nat): Pkt {
    Pkt(Rfr, resp.hdrType, resp.hdrReqNum, PktNumField(pktNum), 0, [])
  }

  // ---------------------------------------------------------------------------
  // Spending credits
  // ---------------------------------------------------------------------------

  /** The part of the state that the credit-spending loops change. */
  datatype Kick = Kick(credits: nat, slot: ClientSlot, sent: seq<Pkt>)

  function AddToWheel(p: Config, s: ClientSlot, pktNum: nat): ClientSlot
    requires |s.inWheel| == p.credits
  {
    s.(inWheel := s.inWheel[pktNum % p.credits := true],
       wheelCount := s.wheelCount + 1,
       wheel := s.wheel + multiset{pktNum})
  }

  predicate CanSendReq(p: Config, g: Kick, n: nat) {
    && n <= g.credits
    && g.slot.tx.Some? && g.slot.numTx + n <= ReqPkts(p, g.slot.tx.value)
    && |g.slot.inWheel| == p.credits
  }

  /** One iteration of the request-sending loop. */
  function SendReq(p: Config, g: Kick, bypass: bool): Kick
    requires CanSendReq(p, g, 1)
  {
    var s := g.slot;
    if bypass then
      Kick(g.credits - 1, s.(numTx := s.numTx + 1), g.sent + [ReqPkt(p, s.tx.value, s.curReq, s.numTx)])
    else
      Kick(g.credits - 1, AddToWheel(p, s, s.numTx).(numTx := s.numTx + 1), g.sent)
  }

  function SendReqs(p: Config, g: Kick, n: nat, bypass: bool): (g': Kick)
    requires CanSendReq(p, g, n)
    ensures g'.credits == g.credits - n
    ensures g'.slot == g.slot.(numTx := g.slot.numTx + n, inWheel := g'.slot.inWheel,
                               wheelCount := g'.slot.wheelCount, wheel := g'.slot.wheel)
    ensures |g'.slot.inWheel| == p.credits
    decreases n
  {
    if n == 0 then g else SendReqs(p, SendReq(p, g, bypass), n - 1, bypass)
  }

  predicate KickReqOk(p: Config, credits: nat, s: ClientSlot) {
    && credits > 0
    && s.tx.Some? && s.numTx <= ReqPkts(p, s.tx.value)
    && |s.inWheel| == p.credits
  }

  /** Send as many request packets as credits allow, directly if the slot has nothing in
      the wheel and its session is uncongested, and through the wheel otherwise. */
  function KickReq(p: Config, credits: nat, s: ClientSlot, uncongested: bool): Kick
    requires KickReqOk(p, credits, s)
  {
    SendReqs(p, Kick(credits, s, []), Min(credits, ReqPkts(p, s.tx.value) - s.numTx),
             s.wheelCount == 0 && uncongested)
  }

  /** One iteration of the RFR-sending loop; RFRs are not paced. */
  function SendRfr(g: Kick): Kick
    requires g.credits > 0
  {
    Kick(g.credits - 1, g.slot.(numTx := g.slot.numTx + 1), g.sent + [RfrPkt(g.slot.resp, g.slot.numTx)])
  }

  function SendRfrs(g: Kick, n: nat): (g': Kick)
    requires n <= g.credits
    ensures g'.credits == g.credits - n
    ensures g'.slot == g.slot.(numTx := g.slot.numTx + n)
    decreases n
  {
    if n == 0 then g else SendRfrs(SendRfr(g), n - 1)
  }

  function SlotWirePkts(p: Config, s: ClientSlot): nat
    requires s.tx.Some?
  {
    WirePkts(ReqPkts(p, s.tx.value), s.resp.numPkts)
  }

  predicate KickRfrOk(p: Config, credits: nat, s: ClientSlot) {
    && credits > 0
    && s.tx.Some?
    && ReqPkts(p, s.tx.value) <= s.numRx < SlotWirePkts(p, s)
    && s.numTx <= SlotWirePkts(p, s)
  }

  function KickRfr(p: Config, credits: nat, s: ClientSlot): Kick
    requires KickRfrOk(p, credits, s)
  {
    SendRfrs(Kick(credits, s, []), Min(credits, SlotWirePkts(p, s) - s.numTx))
  }

  /** Does the slot still have request packets to send? */
  predicate ReqPktsPending(p: Config, s: ClientSlot)
    requires s.tx.Some?
  {
    s.numTx < ReqPkts(p, s.tx.value)
  }

  predicate KickOk(p: Config, credits: nat, s: ClientSlot) {
    && s.tx.Some?
    && if ReqPktsPending(p, s) then KickReqOk(p, credits, s) else KickRfrOk(p, credits, s)
  }

  function KickAny(p: Config, credits: nat, s: ClientSlot, uncongested: bool): Kick
    requires KickOk(p, credits, s)
  {
    if ReqPktsPending(p, s) then KickReq(p, credits, s, uncongested) else KickRfr(p, credits, s)
  }

  // ---------------------------------------------------------------------------
  // Issuing and completing requests
  // ---------------------------------------------------------------------------

  function Last(s: seq<nat>): nat
    requires s != []
  {
    s[|s| - 1]
  }

  /** The slot as `enqueue_request` fills it in. */
  function Activated(p: Config, s: ClientSlot, r: Request): ClientSlot {
    s.(tx := Some(r), curReq := s.curReq + p.window, resp := r.resp, numRx := 0, numTx := 0)
  }

  predicate EnqueueOk(p: Config, cl: Client, r: Request) {
    cl.free != [] ==>
      && Last(cl.free) < |cl.slots|
      && cl.slots[Last(cl.free)].tx.None?
      && |cl.slots[Last(cl.free)].inWheel| == p.credits
  }

  function EnqueueRequest(p: Config, cl: Client, r: Request, uncongested: bool): ClientOut
    requires EnqueueOk(p, cl, r)
  {
    if cl.free == [] then
      ClientOut(cl.(backlog := cl.backlog + [r]), [], None, None)
    else
      var i := Last(cl.free);
      var s := Activated(p, cl.slots[i], r);
      var cl1 := cl.(free := cl.free[..|cl.free| - 1], active := cl.active + [i]);
      if cl.credits > 0 then
        var g := KickReq(p, cl.credits, s, uncongested);
        ClientOut(cl1.(credits := g.credits, slots := cl.slots[i := g.slot]), g.sent, Some((s.curReq, r)), None)
      else
        ClientOut(cl1.(slots := cl.slots[i := s], stallq := cl.stallq + [i]), [], Some((s.curReq, r)), None)
  }

  /** Unlink the first occurrence of a slot from the active list. */
  function Unlink(s: seq<nat>, i: nat): seq<nat> {
    if s == [] then [] else if s[0] == i then s[1..] else [s[0]] + Unlink(s[1..], i)
  }

  function Released(cl: Client, i: nat): Client
    requires i < |cl.slots|
  {
    cl.(slots := cl.slots[i := cl.slots[i].(tx := None)],
        active := Unlink(cl.active, i),
        free := cl.free + [i])
  }

  predicate CompleteOk(p: Config, cl: Client, i: nat) {
    && i < |cl.slots| && |cl.free| < p.window
    && cl.slots[i].wheelCount == 0 && cl.slots[i].resp.dataSize <= |cl.slots[i].resp.mem|
    && (cl.backlog != [] ==> |cl.free| == 0 && EnqueueOk(p, Released(cl, i), cl.backlog[0]))
  }

  /** Free the slot of a completed request, give it to the oldest backlogged request if
      there is one, and invoke the continuation. */
  function Complete(p: Config, cl: Client, i: nat, uncongested: bool): ClientOut
    requires CompleteOk(p, cl, i)
  {
    var done := Some(Completion(cl.slots[i].curReq, cl.slots[i].resp.Contents()));
    var cl1 := Released(cl, i);
    if cl.backlog == [] then
      ClientOut(cl1, [], None, done)
    else
      var out := EnqueueRequest(p, cl1, cl.backlog[0], uncongested);
      out.(cl := out.cl.(backlog := out.cl.backlog[1..]), done := done)
  }

  // ---------------------------------------------------------------------------
  // Received packets
  // ---------------------------------------------------------------------------

  predicate InOrderClient(p: Config, s: ClientSlot, pkt: Pkt)
    requires |s.inWheel| == p.credits
  {
    && pkt.reqNum == s.curReq
    && pkt.pktNum == s.numRx
    && pkt.pktNum < s.numTx
    && !s.inWheel[pkt.pktNum % p.credits]
  }

  /** Return a credit and count the packet. */
  function Accepted(cl: Client, i: nat): Client
    requires i < |cl.slots|
  {
    cl.(credits := cl.credits + 1, slots := cl.slots[i := cl.slots[i].(numRx := cl.slots[i].numRx + 1)])
  }

  predicate ExplCrOk(p: Config, cl: Client, i: nat, pkt: Pkt) {
    && i < |cl.slots| && |cl.slots[i].inWheel| == p.credits
    && pkt.reqNum <= cl.slots[i].curReq
    && (InOrderClient(p, cl.slots[i], pkt) ==>
          && cl.credits < p.credits
          && cl.slots[i].tx.Some?)
  }

  function ProcessExplCr(p: Config, cl: Client, i: nat, pkt: Pkt, uncongested: bool): ClientOut
    requires ExplCrOk(p, cl, i, pkt)
  {
    if !InOrderClient(p, cl.slots[i], pkt) then
      ClientOut(cl, [], None, None)
    else
      var cl1 := Accepted(cl, i);
      if ReqPktsPending(p, cl1.slots[i]) then
        var g := KickReq(p, cl1.credits, cl1.slots[i], uncongested);
        ClientOut(cl1.(credits := g.credits, slots := cl1.slots[i := g.slot]), g.sent, None, None)
      else
        ClientOut(cl1, [], None, None)
  }

  /** Store a single-packet response, header and data. */
  function StoreSmall(k: pos, b: MsgBuf, pkt: Pkt): MsgBuf
    requires pkt.msgSize <= |b.mem| && pkt.msgSize <= |pkt.data|
  {
    Resize(k, b, pkt.msgSize).(
      hdrType := pkt.reqType, hdrReqNum := pkt.reqNum,
      mem := pkt.data[..pkt.msgSize] + b.mem[pkt.msgSize..])
  }

  /** On the first packet of a large response, size the buffer and store the header. */
  function SizeLarge(k: pos, b: MsgBuf, pkt: Pkt): MsgBuf
    requires pkt.msgSize <= |b.mem|
  {
    Resize(k, b, pkt.msgSize).(hdrType := pkt.reqType, hdrReqNum := pkt.reqNum)
  }

  predicate SizedOk(p: Config, s: ClientSlot, pkt: Pkt) {
    s.tx.Some? && (pkt.pktNum == ReqPkts(p, s.tx.value) - 1 ==> pkt.msgSize <= |s.resp.mem|)
  }

  function Sized(p: Config, s: ClientSlot, pkt: Pkt): ClientSlot
    requires SizedOk(p, s, pkt)
  {
    if pkt.pktNum == ReqPkts(p, s.tx.value) - 1 then
      s.(resp := SizeLarge(p.dataPerPkt, s.resp, pkt))
    else
      s
  }

  /** Ask for the rest of a large response, then store this packet's data. */
  predicate PullOk(p: Config, credits: nat, s: ClientSlot, pkt: Pkt) {
    && s.tx.Some?
    && (s.numTx != SlotWirePkts(p, s) ==> KickRfrOk(p, credits, s))
    && ReqPkts(p, s.tx.value) <= pkt.pktNum + 1
    && CopyOk(p.dataPerPkt, s.resp, RespNtoi(pkt.pktNum, ReqPkts(p, s.tx.value)), pkt)
  }

  function Pull(p: Config, credits: nat, s: ClientSlot, pkt: Pkt): Kick
    requires PullOk(p, credits, s, pkt)
  {
    var g := if s.numTx != SlotWirePkts(p, s) then KickRfr(p, credits, s) else Kick(credits, s, []);
    var idx := RespNtoi(pkt.pktNum, ReqPkts(p, s.tx.value));
    g.(slot := g.slot.(resp := CopyData(p.dataPerPkt, g.slot.resp, idx, pkt)))
  }

  function WithKick(cl: Client, i: nat, g: Kick): Client
    requires i < |cl.slots|
  {
    cl.(credits := g.credits, slots := cl.slots[i := g.slot])
  }

  function AcceptedSmall(p: Config, cl: Client, i: nat, pkt: Pkt): Client
    requires i < |cl.slots|
    requires pkt.msgSize <= |cl.slots[i].resp.mem| && pkt.msgSize <= |pkt.data|
  {
    var cl1 := Accepted(cl, i);
    cl1.(slots := cl1.slots[i := cl1.slots[i].(resp := StoreSmall(p.dataPerPkt, cl1.slots[i].resp, pkt))])
  }

  predicate RespOk(p: Config, cl: Client, i: nat, pkt: Pkt) {
    && i < |cl.slots| && |cl.slots[i].inWheel| == p.credits
    && pkt.reqNum <= cl.slots[i].curReq
    && (InOrderClient(p, cl.slots[i], pkt) ==>
          && cl.credits < p.credits
          && if pkt.msgSize <= p.dataPerPkt then
               && pkt.msgSize <= |cl.slots[i].resp.mem| && pkt.msgSize <= |pkt.data|
               && CompleteOk(p, AcceptedSmall(p, cl, i, pkt), i)
             else
               var cl1 := Accepted(cl, i);
               && SizedOk(p, cl1.slots[i], pkt)
               && PullOk(p, cl1.credits, Sized(p, cl1.slots[i], pkt), pkt)
               && (var g := Pull(p, cl1.credits, Sized(p, cl1.slots[i], pkt), pkt);
                   g.slot.numRx == SlotWirePkts(p, g.slot) ==> CompleteOk(p, WithKick(cl1, i, g), i)))
  }

  function ProcessResp(p: Config, cl: Client, i: nat, pkt: Pkt, uncongested: bool): ClientOut
    requires RespOk(p, cl, i, pkt)
  {
    if !InOrderClient(p, cl.slots[i], pkt) then
      ClientOut(cl, [], None, None)
    else if pkt.msgSize <= p.dataPerPkt then
      Complete(p, AcceptedSmall(p, cl, i, pkt), i, uncongested)
    else
      var cl1 := Accepted(cl, i);
      var g := Pull(p, cl1.credits, Sized(p, cl1.slots[i], pkt), pkt);
      var cl2 := WithKick(cl1, i, g);
      if g.slot.numRx != SlotWirePkts(p, g.slot) then
        ClientOut(cl2, g.sent, None, None)
      else
        var out := Complete(p, cl2, i, uncongested);
        out.(sent := g.sent + out.sent)
  }

  // ---------------------------------------------------------------------------
  // Queues and retransmission
  // ---------------------------------------------------------------------------

  predicate StallOk(p: Config, cl: Client, q: seq<nat>, uncongested: bool)
    decreases |q|
  {
    q != [] ==>
      && q[0] < |cl.slots|
      && if cl.credits > 0 then
           KickOk(p, cl.credits, cl.slots[q[0]]) &&
           StallOk(p, WithKick(cl, q[0], KickAny(p, cl.credits, cl.slots[q[0]], uncongested)), q[1..], uncongested)
         else
           StallOk(p, cl, q[1..], uncongested)
  }

  /** Serve the stalled slots in order while credits last; `kept` are those that stay. */
  function StallLoop(
    p: Config, cl: Client, q: seq<nat>, kept: seq<nat>, sent: seq<Pkt>, uncongested: bool): (out: ClientOut)
    requires StallOk(p, cl, q, uncongested)
    ensures out.issued.None? && out.done.None? && out.cl.backlog == cl.backlog
    decreases |q|
  {
    if q == [] then
      ClientOut(cl.(stallq := kept), sent, None, None)
    else if cl.credits > 0 then
      var g := KickAny(p, cl.credits, cl.slots[q[0]], uncongested);
      StallLoop(p, WithKick(cl, q[0], g), q[1..], kept, sent + g.sent, uncongested)
    else
      StallLoop(p, cl, q[1..], kept + [q[0]], sent, uncongested)
  }

  function ProcessStallQueue(p: Config, cl: Client, uncongested: bool): ClientOut
    requires StallOk(p, cl, cl.stallq, uncongested)
  {
    StallLoop(p, cl, cl.stallq, [], [], uncongested)
  }

  /** Remove a packet that left the wheel's ready queue. */
  function TakeFromWheel(p: Config, s: ClientSlot, pktNum: nat): ClientSlot
    requires |s.inWheel| == p.credits && s.wheelCount > 0
  {
    s.(inWheel := s.inWheel[pktNum % p.credits := false],
       wheelCount := s.wheelCount - 1,
       wheel := s.wheel - multiset{pktNum})
  }

  predicate WheelTxOk(p: Config, cl: Client, i: nat, pktNum: nat) {
    && i < |cl.slots|
    && var s := cl.slots[i];
       s.tx.Some? && |s.inWheel| == p.credits && s.wheelCount > 0
  }

  /** Transmit one packet from the wheel's ready queue. */
  function WheelTx(p: Config, cl: Client, i: nat, pktNum: nat): ClientOut
    requires WheelTxOk(p, cl, i, pktNum)
  {
    var s := cl.slots[i];
    var pkt := if pktNum < ReqPkts(p, s.tx.value)
               then ReqPkt(p, s.tx.value, s.curReq, pktNum)
               else RfrPkt(s.resp, s.numTx);
    ClientOut(cl.(slots := cl.slots[i := TakeFromWheel(p, s, pktNum)]), [pkt], None, None)
  }

  /** The slot after go-back-N rollback. */
  function RolledBack(s: ClientSlot): ClientSlot {
    s.(numTx := s.numRx)
  }

  predicate RetransmitOk(p: Config, cl: Client, i: nat) {
    && i < |cl.slots|
    && var s := cl.slots[i];
       && s.tx.Some? && s.numRx <= s.numTx
       && cl.credits + (s.numTx - s.numRx) <= p.credits
       && (s.numTx != s.numRx ==>
             && i !in cl.stallq
             && (s.wheelCount == 0 ==> KickOk(p, cl.credits + (s.numTx - s.numRx), RolledBack(s))))
  }

  function Retransmit(p: Config, cl: Client, i: nat, uncongested: bool): ClientOut
    requires RetransmitOk(p, cl, i)
  {
    var s := cl.slots[i];
    if s.numTx == s.numRx || s.wheelCount > 0 then
      ClientOut(cl, [], None, None)
    else
      var g := KickAny(p, cl.credits + (s.numTx - s.numRx), RolledBack(s), uncongested);
      ClientOut(WithKick(cl, i, g), g.sent, None, None)
  }

  /** The loss scan passes over slots that wait only for credits. */
  predicate ScanRetransmits(cl: Client, i: nat, expired: set<nat>)
    requires i < |cl.slots|
  {
    cl.slots[i].numTx != cl.slots[i].numRx && i in expired
  }

  predicate ScanOk(p: Config, cl: Client, list: seq<nat>, expired: set<nat>, uncongested: bool)
    decreases |list|
  {
    list != [] ==>
      && list[0] < |cl.slots|
      && if ScanRetransmits(cl, list[0], expired) then
           RetransmitOk(p, cl, list[0]) &&
           ScanOk(p, Retransmit(p, cl, list[0], uncongested).cl, list[1..], expired, uncongested)
         else
           ScanOk(p, cl, list[1..], expired, uncongested)
  }

  /** Walk the active list and retransmit for the slots whose timer has expired. */
  function ScanLoop(
    p: Config, cl: Client, list: seq<nat>, expired: set<nat>, sent: seq<Pkt>, uncongested: bool): (out: ClientOut)
    requires ScanOk(p, cl, list, expired, uncongested)
    ensures out.issued.None? && out.done.None? && out.cl.backlog == cl.backlog
    decreases |list|
  {
    if list == [] then
      ClientOut(cl, sent, None, None)
    else if ScanRetransmits(cl, list[0], expired) then
      var out := Retransmit(p, cl, list[0], uncongested);
      ScanLoop(p, out.cl, list[1..], expired, sent + out.sent, uncongested)
    else
      ScanLoop(p, cl, list[1..], expired, sent, uncongested)
  }

  function PktLossScan(p: Config, cl: Client, expired: set<nat>, uncongested: bool): ClientOut
    requires ScanOk(p, cl, cl.active, expired, uncongested)
  {
    ScanLoop(p, cl, cl.active, expired, [], uncongested)
  }
}
