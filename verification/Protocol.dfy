/** The two endpoints of a session joined by an unreliable network, as a state machine
    over events. The network is the set of packets ever sent, so that any packet may be
    delivered late, twice, out of order, or never. */
module Protocol {
  import opened Wire
  import opened ClientSpec
  import S = ServerSpec

  /** What the run has done so far, by request number: the requests issued, how often
      each handler was invoked and with what, the replies of the handlers, and how often
      each continuation was invoked and with what. */
  datatype Hist = Hist(
    issued: map<nat, Request>,
    ran: multiset<nat>,
    seen: map<nat, S.Exec>,
    replies: map<nat, seq<byte>>,
    done: multiset<nat>,
    outcome: map<nat, seq<byte>>)

  datatype Sys = Sys(cl: Client, srv: seq<S.ServerSlot>, up: set<Pkt>, down: set<Pkt>, h: Hist)

  datatype Event =
    | Issue(req: Request, uncongested: bool)           // the user enqueues a request
    | ToServer(pkt: Pkt, mem: Option<seq<byte>>)       // the server receives a packet; `mem` is what an
                                                       // allocation of its message's size would return
    | ToClient(pkt: Pkt, uncongested: bool)            // the client receives a packet
    | Reply(i: nat, data: seq<byte>)                   // a handler enqueues its response
    | ServeStalled(uncongested: bool)                  // the client serves its stall queue
    | FromWheel(i: nat, pktNum: nat)                   // a packet leaves the timing wheel
    | Scan(expired: set<nat>, uncongested: bool)       // the client scans for lost packets
  {
    /** If it matters to the event, the session is uncongested exactly if `u`. */
    predicate Flagged(u: bool) {
      (Issue? || ToClient? || ServeStalled? || Scan?) ==> uncongested == u
    }
  }

  function Init(p: Config): Sys {
    Sys(InitClient(p), seq(p.window, i requires 0 <= i => S.InitSlot(i)), {}, {},
        Hist(map[], multiset{}, map[], map[], multiset{}, map[]))
  }

  function ToSet(pkts: seq<Pkt>): set<Pkt> {
    set x | x in pkts
  }

  // ---------------------------------------------------------------------------
  // Steps
  // ---------------------------------------------------------------------------

  /** Messages within the size limit, and a response buffer that holds the response:
      what the API demands of its users. The rest of the guard is that the packet,
      handler or wheel entry of the event exists. */
  predicate Enabled(p: Config, s: Sys, e: Event) {
    match e
    case Issue(req, _) => |req.data| <= p.maxMsgSize
    case ToServer(pkt, mem) => pkt in s.up && (mem.Some? ==> |mem.value| == pkt.msgSize)
    case ToClient(pkt, _) => pkt in s.down
    case Reply(i, data) =>
      && i < |s.srv| && s.srv[i].reqType.Some?
      && |data| <= p.maxMsgSize
      && s.srv[i].curReq in s.h.issued
      && |data| <= |s.h.issued[s.srv[i].curReq].resp.mem|
    case ServeStalled(_) => true
    case FromWheel(i, pktNum) => i < |s.cl.slots| && pktNum in s.cl.slots[i].wheel
    case Scan(_, _) => true
  }

  /** The server can get a buffer for a request of this size and type: an empty request to a
      background handler asks for a buffer of size zero. */
  predicate Servable(p: Config, r: Request) {
    |r.data| > 0 || r.reqType !in p.background
  }

  /** If the event makes the server allocate a buffer, the buffer is not empty and there is
      memory for it. */
  predicate Provided(p: Config, s: Sys, e: Event) {
    e.ToServer? && e.pkt.kind == Req && SlotOf(p, e.pkt.reqNum) < |s.srv| ==>
      (S.Allocates(p, s.srv[SlotOf(p, e.pkt.reqNum)], e.pkt) ==> S.AllocOk(e.pkt.msgSize, e.mem))
  }

  /** No assertion on the event's path fails. */
  predicate Safe(p: Config, s: Sys, e: Event) {
    match e
    case Issue(req, _) => EnqueueOk(p, s.cl, req)
    case ToServer(pkt, mem) =>
      && pkt.msgSize <= p.maxMsgSize
      && SlotOf(p, pkt.reqNum) < |s.srv|
      && var slot := s.srv[SlotOf(p, pkt.reqNum)];
         (match pkt.kind
          case Req => S.ReqOk(p, slot, pkt, mem)
          case Rfr => S.RfrOk(p, slot, pkt)
          case _ => false)
    case ToClient(pkt, _) =>
      && pkt.msgSize <= p.maxMsgSize
      && (match pkt.kind
          case Resp => RespOk(p, s.cl, SlotOf(p, pkt.reqNum), pkt)
          case ExplCr => ExplCrOk(p, s.cl, SlotOf(p, pkt.reqNum), pkt)
          case _ => false)
    case Reply(i, _) => i < |s.srv| && S.ResponseOk(s.srv[i])
    case ServeStalled(u) => StallOk(p, s.cl, s.cl.stallq, u)
    case FromWheel(i, pktNum) => WheelTxOk(p, s.cl, i, pktNum)
    case Scan(expired, u) => ScanOk(p, s.cl, s.cl.active, expired, u)
  }

  function Issued(h: Hist, issued: Option<(nat, Request)>): Hist {
    if issued.None? then h else h.(issued := h.issued[issued.value.0 := issued.value.1])
  }

  function Finished(h: Hist, done: Option<Completion>): Hist {
    if done.None? then h else
      h.(done := h.done + multiset{done.value.reqNum},
         outcome := h.outcome[done.value.reqNum := done.value.bytes])
  }

  function Started(h: Hist, started: Option<S.Exec>): Hist {
    if started.None? then h else
      h.(ran := h.ran + multiset{started.value.reqNum},
         seen := h.seen[started.value.reqNum := started.value])
  }

  function ClientDid(s: Sys, out: ClientOut): Sys {
    s.(cl := out.cl, up := s.up + ToSet(out.sent), h := Issued(Finished(s.h, out.done), out.issued))
  }

  function ServerDid(s: Sys, i: nat, out: S.ServerOut): Sys
    requires i < |s.srv|
  {
    s.(srv := s.srv[i := out.slot], down := s.down + ToSet(out.sent), h := Started(s.h, out.started))
  }

  function Step(p: Config, s: Sys, e: Event): Sys
    requires Safe(p, s, e)
  {
    match e
    case Issue(req, u) => ClientDid(s, EnqueueRequest(p, s.cl, req, u))
    case ToServer(pkt, mem) =>
      var i := SlotOf(p, pkt.reqNum);
      ServerDid(s, i, if pkt.kind == Req then S.ProcessReq(p, s.srv[i], pkt, mem)
                      else S.ProcessRfr(p, s.srv[i], pkt))
    case ToClient(pkt, u) =>
      var i := SlotOf(p, pkt.reqNum);
      ClientDid(s, if pkt.kind == Resp then ProcessResp(p, s.cl, i, pkt, u)
                   else ProcessExplCr(p, s.cl, i, pkt, u))
    case Reply(i, data) =>
      var s1 := ServerDid(s, i, S.EnqueueResponse(p, s.srv[i], data));
      s1.(h := s1.h.(replies := s1.h.replies[s.srv[i].curReq := data]))
    case ServeStalled(u) => ClientDid(s, ProcessStallQueue(p, s.cl, u))
    case FromWheel(i, pktNum) => ClientDid(s, WheelTx(p, s.cl, i, pktNum))
    case Scan(expired, u) => ClientDid(s, PktLossScan(p, s.cl, expired, u))
  }

  // ---------------------------------------------------------------------------
  // The invariant of one slot pair
  // ---------------------------------------------------------------------------

  /** A slot's packets in the wheel are distinct numbers in [numRx, numTx), counted by
      `wheelCount`, and the bitmap indexed modulo the credits shows exactly them. */
  ghost predicate WheelInv(c: pos, s: ClientSlot) {
    && |s.inWheel| == c
    && s.wheelCount == |s.wheel|
    && (forall n :: n in s.wheel ==> s.wheel[n] == 1 && s.numRx <= n < s.numTx)
    && (forall n: nat {:trigger Bit(c, s, n)} :: s.numRx <= n < s.numRx + c ==> (Bit(c, s, n) <==> n in s.wheel))
  }

  predicate Bit(c: pos, s: ClientSlot, n: nat)
    requires |s.inWheel| == c
  {
    s.inWheel[n % c]
  }

  ghost predicate Covers(h: Hist, r: nat) {
    r in h.issued && r in h.replies
  }

  /** The packet counts of a request and of its reply. */
  ghost function ReqN(p: Config, h: Hist, r: nat): (n: nat)
    requires r in h.issued
    ensures n >= 1
  {
    ReqPkts(p, h.issued[r])
  }

  ghost function RespN(p: Config, h: Hist, r: nat): (n: nat)
    requires r in h.replies
    ensures n >= 1
  {
    NumPkts(p.dataPerPkt, |h.replies[r]|)
  }

  ghost predicate SizesOk(p: Config, h: Hist, r: nat) {
    && (r in h.issued ==> |h.issued[r].data| <= p.maxMsgSize)
    && (Covers(h, r) ==> |h.replies[r]| <= p.maxMsgSize && |h.replies[r]| <= |h.issued[r].resp.mem|)
  }

  /** While it collects the response, the client has its first packets in place. */
  ghost predicate Collecting(p: Config, c: ClientSlot, h: Hist)
    requires c.curReq in h.issued
  {
    var r, n := c.curReq, ReqN(p, h, c.curReq);
    && c.numRx >= n && r in h.replies
    && var m := RespN(p, h, r);
       && c.numRx < n + m - 1 && c.numTx <= n + m - 1
       && c.resp.dataSize == |h.replies[r]| && c.resp.numPkts == m
       && c.resp.hdrType == h.issued[r].reqType && c.resp.hdrReqNum == r
       && HasPrefix(p.dataPerPkt, c.resp, h.replies[r], c.numRx - (n - 1))
  }

  ghost predicate ActiveInv(p: Config, c: ClientSlot, h: Hist) {
    && c.tx.Some? && c.curReq in h.issued && h.issued[c.curReq] == c.tx.value
    && |c.resp.mem| == |c.tx.value.resp.mem|
    && (forall n :: n in c.wheel ==> n < ReqN(p, h, c.curReq))
    && if c.numRx < ReqN(p, h, c.curReq) then c.numTx <= ReqN(p, h, c.curReq)
       else Collecting(p, c, h)
  }

  ghost predicate ClientInv(p: Config, i: nat, c: ClientSlot, h: Hist) {
    && SlotOf(p, c.curReq) == i
    && WheelInv(p.credits, c)
    && c.numRx <= c.numTx
    && (if c.tx.None? then c.numTx == c.numRx else ActiveInv(p, c, h))
  }

  /** The three phases of the server's current request. */
  ghost predicate Receiving(p: Config, s: S.ServerSlot, h: Hist)
    requires s.curReq in h.issued
  {
    var r, n := s.curReq, ReqN(p, h, s.curReq);
    && 1 <= s.numRx < n && s.reqType.None? && s.tx.None?
    && s.req.Some? && |s.req.value.mem| == s.req.value.dataSize == |h.issued[r].data|
    && s.req.value.numPkts == n
    && HasPrefix(p.dataPerPkt, s.req.value, h.issued[r].data, s.numRx)
  }

  ghost predicate Handling(p: Config, s: S.ServerSlot, h: Hist)
    requires s.curReq in h.issued
  {
    var r, n := s.curReq, ReqN(p, h, s.curReq);
    && s.numRx == n && s.reqType == Some(h.issued[r].reqType) && s.tx.None?
    && s.req.Some? && s.req.value.numPkts == n
  }

  ghost function ReplyOf(p: Config, h: Hist, r: nat): S.Response
    requires Covers(h, r)
  {
    S.Response(h.issued[r].reqType, ReqN(p, h, r) - 1, r, h.replies[r])
  }

  ghost predicate Responded(p: Config, s: S.ServerSlot, h: Hist)
    requires s.curReq in h.issued
  {
    var r, n := s.curReq, ReqN(p, h, s.curReq);
    && s.req.None? && s.reqType.None? && s.savNumReqPkts == n
    && r in h.replies && s.tx == Some(ReplyOf(p, h, r))
    && n <= s.numRx <= n + RespN(p, h, r) - 1
  }

  ghost predicate Virgin(p: Config, s: S.ServerSlot) {
    s.curReq < p.window && s.numRx == 0 && s.req.None? && s.reqType.None? && s.tx.None?
  }

  ghost predicate ServerInv(p: Config, i: nat, s: S.ServerSlot, h: Hist) {
    && SlotOf(p, s.curReq) == i
    && if s.curReq in h.issued then Receiving(p, s, h) || Handling(p, s, h) || Responded(p, s, h)
       else Virgin(p, s)
  }

  /** The server has nothing more to do for its current request. */
  ghost predicate Settled(p: Config, s: S.ServerSlot, h: Hist) {
    if s.curReq in h.issued
    then Responded(p, s, h) && s.numRx == ReqN(p, h, s.curReq) + RespN(p, h, s.curReq) - 1
    else Virgin(p, s)
  }

  /** The client is on the server's request, or one window ahead of a settled server. */
  ghost predicate Linked(p: Config, c: ClientSlot, s: S.ServerSlot, h: Hist) {
    if c.curReq == s.curReq then
      if c.tx.Some? then c.numRx <= s.numRx else Settled(p, s, h)
    else
      && c.curReq == s.curReq + p.window
      && c.tx.Some? && c.numRx == 0
      && Settled(p, s, h)
  }

  /** Every client packet ever sent carries its request's data, or pulls a packet of an
      existing response. */
  ghost predicate UpPkt(p: Config, h: Hist, pkt: Pkt) {
    && pkt.reqNum in h.issued
    && match pkt.kind
       case Req => pkt.pktNum < ReqN(p, h, pkt.reqNum) && pkt == ReqPkt(p, h.issued[pkt.reqNum], pkt.reqNum, pkt.pktNum)
       case Rfr => pkt.reqNum in h.replies && pkt.msgSize == 0
                   && ReqN(p, h, pkt.reqNum) <= pkt.pktNum < ReqN(p, h, pkt.reqNum) + RespN(p, h, pkt.reqNum) - 1
       case _ => false
  }

  /** Every server packet ever sent answers a packet that the server has received. */
  ghost predicate DownPkt(p: Config, s: S.ServerSlot, h: Hist, pkt: Pkt) {
    && pkt.reqNum in h.issued && pkt.reqNum <= s.curReq
    && (pkt.reqNum == s.curReq ==> pkt.pktNum < s.numRx)
    && match pkt.kind
       case ExplCr => pkt.pktNum < ReqN(p, h, pkt.reqNum) - 1 && pkt.msgSize == 0
       case Resp =>
         && pkt.reqNum in h.replies
         && var n, m := ReqN(p, h, pkt.reqNum), RespN(p, h, pkt.reqNum);
            n - 1 <= pkt.pktNum < n - 1 + m
            && pkt == S.RespPkt(p, ReplyOf(p, h, pkt.reqNum), pkt.pktNum - (n - 1))
       case _ => false
  }

  ghost predicate NetInv(p: Config, i: nat, s: S.ServerSlot, up: set<Pkt>, down: set<Pkt>, h: Hist) {
    && (forall pkt {:trigger UpPkt(p, h, pkt)} :: pkt in up && SlotOf(p, pkt.reqNum) == i ==> UpPkt(p, h, pkt))
    && (forall pkt {:trigger DownPkt(p, s, h, pkt)} :: pkt in down && SlotOf(p, pkt.reqNum) == i ==>
        DownPkt(p, s, h, pkt))
  }

  /** The handler of request `r` has been invoked. */
  ghost predicate HasRun(p: Config, s: S.ServerSlot, h: Hist, r: nat)
    requires r in h.issued
  {
    r < s.curReq || (r == s.curReq && s.numRx >= ReqN(p, h, r))
  }

  /** The exact history of request number `r` of the slot. */
  ghost predicate HistAt(p: Config, c: ClientSlot, s: S.ServerSlot, h: Hist, r: nat) {
    && (r in h.issued <==> p.window <= r <= c.curReq)
    && (r in h.replies <==> r in h.issued && (r < s.curReq || (r == s.curReq && s.tx.Some?)))
    && h.ran[r] == (if r in h.issued && HasRun(p, s, h, r) then 1 else 0)
    && h.done[r] == (if r in h.issued && (r < c.curReq || (r == c.curReq && c.tx.None?)) then 1 else 0)
    && (h.ran[r] == 1 ==>
          Servable(p, h.issued[r]) && r in h.seen && h.seen[r] == S.Exec(r, h.issued[r].reqType, h.issued[r].data))
    && (h.done[r] == 1 ==> r in h.replies && r in h.outcome && h.outcome[r] == h.replies[r])
    && SizesOk(p, h, r)
  }

  ghost predicate HistInv(p: Config, i: nat, c: ClientSlot, s: S.ServerSlot, h: Hist) {
    forall r: nat {:trigger HistAt(p, c, s, h, r)} :: SlotOf(p, r) == i ==> HistAt(p, c, s, h, r)
  }

  ghost predicate PairInv(p: Config, i: nat, c: ClientSlot, s: S.ServerSlot, up: set<Pkt>, down: set<Pkt>, h: Hist) {
    && ClientInv(p, i, c, h)
    && ServerInv(p, i, s, h)
    && Linked(p, c, s, h)
    && NetInv(p, i, s, up, down, h)
    && HistInv(p, i, c, s, h)
  }

  // ---------------------------------------------------------------------------
  // The invariant of the session
  // ---------------------------------------------------------------------------

  /** Credits in use: packets sent and not yet answered. */
  ghost function Outstanding(slots: seq<ClientSlot>): int {
    if slots == [] then 0 else slots[0].numTx - slots[0].numRx + Outstanding(slots[1..])
  }

  ghost predicate NoDup(s: seq<nat>) {
    forall a, b :: 0 <= a < b < |s| ==> s[a] != s[b]
  }

  ghost predicate AtSlot(p: Config, s: Sys, i: nat)
    requires i < |s.cl.slots| && i < |s.srv|
  {
    PairInv(p, i, s.cl.slots[i], s.srv[i], s.up, s.down, s.h)
  }

  ghost predicate PairsInv(p: Config, s: Sys) {
    && |s.cl.slots| == |s.srv| == p.window
    && forall i: nat {:trigger AtSlot(p, s, i)} :: i < p.window ==> AtSlot(p, s, i)
  }

  /** The free stack and the active list split the slots between them. */
  ghost predicate ListsInv(p: Config, cl: Client) {
    && |cl.slots| == p.window
    && NoDup(cl.free) && NoDup(cl.active)
    && (forall i :: i in cl.free ==> i < p.window)
    && (forall i :: i in cl.active ==> i < p.window)
    && (forall i: nat :: i < p.window ==> (i in cl.free <==> cl.slots[i].tx.None?))
    && (forall i: nat :: i < p.window ==> (i in cl.active <==> cl.slots[i].tx.Some?))
  }

  /** A slot waits in the stall queue exactly when it is active with nothing outstanding,
      and then it has not sent anything yet. */
  ghost predicate StallInv(p: Config, cl: Client) {
    && |cl.slots| == p.window
    && NoDup(cl.stallq)
    && (forall i :: i in cl.stallq ==> i < p.window)
    && (forall i: nat {:trigger i in cl.stallq} {:trigger cl.slots[i]} :: i < p.window ==>
          (i in cl.stallq <==> cl.slots[i].tx.Some? && cl.slots[i].numTx == cl.slots[i].numRx))
    && (forall i: nat :: i in cl.stallq ==> cl.slots[i].numTx == 0)
  }

  ghost predicate CreditInv(p: Config, cl: Client) {
    cl.credits + Outstanding(cl.slots) == p.credits
  }

  ghost predicate BacklogInv(p: Config, cl: Client) {
    forall r :: r in cl.backlog ==> |r.data| <= p.maxMsgSize
  }

  /** What holds also in the middle of an event, before a freed slot is given away. */
  ghost predicate BaseInv(p: Config, s: Sys) {
    && PairsInv(p, s)
    && ListsInv(p, s.cl)
    && StallInv(p, s.cl)
    && CreditInv(p, s.cl)
    && BacklogInv(p, s.cl)
  }

  ghost predicate Inv(p: Config, s: Sys) {
    && BaseInv(p, s)
    && (s.cl.backlog != [] ==> s.cl.free == [])
  }
}
