/** The server endpoint of a session as functions on values: duplicate suppression,
    request reassembly, the handler trigger, and the response pull. */
module ServerSpec {
  import opened Wire

  /** A response in its slot, with the fields of its zeroth packet header. */
  datatype Response = Response(reqType: nat, pktNum0: nat, reqNum: nat, data: seq<byte>)

  datatype ServerSlot = ServerSlot(
    curReq: nat,
    numRx: nat,
    req: Option<MsgBuf>,       // None when buried
    reqType: Option<nat>,      // valid only while a response is awaited from the handler
    savNumReqPkts: nat,
    tx: Option<Response>)      // None when buried

  /** One run of a request handler: what it was given. */
  datatype Exec = Exec(reqNum: nat, reqType: nat, bytes: seq<byte>)

  datatype ServerOut = ServerOut(slot: ServerSlot, sent: seq<Pkt>, started: Option<Exec>)

  function InitSlot(i: nat): ServerSlot {
    ServerSlot(i, 0, None, None, 0, None)
  }

  function RespPkts(p: Config, r: Response): pos {
    NumPkts(p.dataPerPkt, |r.data|)
  }

  function RespPkt(p: Config, r: Response, idx: nat): Pkt
    requires idx < RespPkts(p, r)
  {
    Pkt(Resp, r.reqType, r.reqNum, PktNumField(r.pktNum0 + idx), |r.data|, Chunk(p.dataPerPkt, r.data, idx))
  }

  function CrPkt(pkt: Pkt): Pkt {
    Pkt(ExplCr, pkt.reqType, pkt.reqNum, pkt.pktNum, 0, [])
  }

  function BuryResp(s: ServerSlot): ServerSlot {
    s.(tx := None)
  }

  function Quiet(s: ServerSlot): ServerOut {
    ServerOut(s, [], None)
  }

  /** Re-send the first response packet if the response is available. */
  function ResendFirst(p: Config, s: ServerSlot): ServerOut {
    if s.tx.Some? then ServerOut(s, [RespPkt(p, s.tx.value, 0)], None) else Quiet(s)
  }

  // ---------------------------------------------------------------------------
  // Request packets
  // ---------------------------------------------------------------------------

  /** A buffer allocation on the request path: `mem` is the memory that the allocator
      returns, with unspecified content, or nothing when it has run out. Allocating asserts
      that the size is not zero, and the request path that there is memory. */
  predicate AllocOk(size: nat, mem: Option<seq<byte>>) {
    size > 0 && mem.Some? && |mem.value| == size
  }

  /** Does the packet make the server allocate a buffer for its request? A single-packet
      request is copied for a background handler only, a larger one always. */
  predicate Allocates(p: Config, s: ServerSlot, pkt: Pkt) {
    if pkt.msgSize <= p.dataPerPkt then
      pkt.reqNum > s.curReq && pkt.reqType in p.background
    else
      (IsNextPktSameReq(s, pkt) || IsFirstPktNextReq(p, s, pkt)) && pkt.pktNum == 0
  }

  predicate SmallReqOk(p: Config, s: ServerSlot, pkt: Pkt, mem: Option<seq<byte>>) {
    pkt.reqNum > s.curReq ==>
      && pkt.reqNum == s.curReq + p.window
      && s.req.None?
      && s.reqType.None?
      && pkt.msgSize <= |pkt.data|
      && (pkt.reqType in p.background ==> AllocOk(pkt.msgSize, mem))
  }

  /** The buffer of a single-packet request: the packet itself for a foreground handler, and
      an allocated copy without its header for a background one. */
  function SmallReqBuf(p: Config, pkt: Pkt): MsgBuf
    requires pkt.msgSize <= |pkt.data|
  {
    var bytes := pkt.data[..pkt.msgSize];
    if pkt.reqType in p.background then MsgBuf(bytes, pkt.msgSize, NumPkts(p.dataPerPkt, pkt.msgSize), 0, 0)
    else MsgBuf(bytes, pkt.msgSize, 1, pkt.reqType, pkt.reqNum)
  }

  function ProcessSmallReq(p: Config, s: ServerSlot, pkt: Pkt, mem: Option<seq<byte>>): ServerOut
    requires SmallReqOk(p, s, pkt, mem)
  {
    if pkt.reqNum < s.curReq then
      Quiet(s)
    else if pkt.reqNum == s.curReq then
      ResendFirst(p, s)
    else
      var b := SmallReqBuf(p, pkt);
      ServerOut(
        BuryResp(s).(curReq := pkt.reqNum, numRx := 1, reqType := Some(pkt.reqType), req := Some(b)),
        [], Some(Exec(pkt.reqNum, pkt.reqType, b.Contents())))
  }

  predicate IsNextPktSameReq(s: ServerSlot, pkt: Pkt) {
    pkt.reqNum == s.curReq && pkt.pktNum == s.numRx
  }

  predicate IsFirstPktNextReq(p: Config, s: ServerSlot, pkt: Pkt) {
    pkt.reqNum == s.curReq + p.window && pkt.pktNum == 0
  }

  function FreshBuf(p: Config, mem: seq<byte>): MsgBuf {
    MsgBuf(mem, |mem|, NumPkts(p.dataPerPkt, |mem|), 0, 0)
  }

  /** The slot with the packet counted and its request buffer allocated or located. */
  function Located(p: Config, s: ServerSlot, pkt: Pkt, mem: Option<seq<byte>>): ServerSlot
    requires pkt.pktNum == 0 ==> mem.Some?
  {
    if pkt.pktNum == 0 then
      BuryResp(s).(curReq := pkt.reqNum, numRx := 1, req := Some(FreshBuf(p, mem.value)))
    else
      s.(numRx := s.numRx + 1)
  }

  predicate LargeReqOk(p: Config, s: ServerSlot, pkt: Pkt, mem: Option<seq<byte>>) {
    IsNextPktSameReq(s, pkt) || IsFirstPktNextReq(p, s, pkt) ==>
      && (pkt.pktNum == 0 ==> s.req.None? && AllocOk(pkt.msgSize, mem))
      && var s1 := Located(p, s, pkt, mem);
         && s1.req.Some? && CopyOk(p.dataPerPkt, s1.req.value, pkt.pktNum, pkt)
         && s1.req.value.dataSize <= |s1.req.value.mem|
         && s1.reqType.None?
  }

  function ProcessLargeReq(p: Config, s: ServerSlot, pkt: Pkt, mem: Option<seq<byte>>): ServerOut
    requires LargeReqOk(p, s, pkt, mem)
  {
    if !IsNextPktSameReq(s, pkt) && !IsFirstPktNextReq(p, s, pkt) then
      if pkt.reqNum != s.curReq || pkt.pktNum > s.numRx then
        Quiet(s)
      else if pkt.pktNum != NumPkts(p.dataPerPkt, pkt.msgSize) - 1 then
        ServerOut(s, [CrPkt(pkt)], None)
      else
        ResendFirst(p, s)
    else
      var s1 := Located(p, s, pkt, mem);
      var sent := if pkt.pktNum != s1.req.value.numPkts - 1 then [CrPkt(pkt)] else [];
      var b := CopyData(p.dataPerPkt, s1.req.value, pkt.pktNum, pkt);
      var s2 := s1.(req := Some(b));
      if s2.numRx != b.numPkts then
        ServerOut(s2, sent, None)
      else
        ServerOut(s2.(reqType := Some(pkt.reqType)), sent, Some(Exec(pkt.reqNum, pkt.reqType, b.Contents())))
  }

  predicate ReqOk(p: Config, s: ServerSlot, pkt: Pkt, mem: Option<seq<byte>>) {
    if pkt.msgSize <= p.dataPerPkt then SmallReqOk(p, s, pkt, mem) else LargeReqOk(p, s, pkt, mem)
  }

  function ProcessReq(p: Config, s: ServerSlot, pkt: Pkt, mem: Option<seq<byte>>): ServerOut
    requires ReqOk(p, s, pkt, mem)
  {
    if pkt.msgSize <= p.dataPerPkt then ProcessSmallReq(p, s, pkt, mem) else ProcessLargeReq(p, s, pkt, mem)
  }

  // ---------------------------------------------------------------------------
  // Responses
  // ---------------------------------------------------------------------------

  /** The response packet that an RFR selects exists. */
  predicate SelectsOk(p: Config, s: ServerSlot, pkt: Pkt) {
    && s.tx.Some?
    && s.savNumReqPkts <= pkt.pktNum + 1
    && RespNtoi(pkt.pktNum, s.savNumReqPkts) < RespPkts(p, s.tx.value)
  }

  predicate RfrOk(p: Config, s: ServerSlot, pkt: Pkt) {
    && pkt.reqNum <= s.curReq
    && (pkt.reqNum == s.curReq && pkt.pktNum <= s.numRx ==> SelectsOk(p, s, pkt))
  }

  function ProcessRfr(p: Config, s: ServerSlot, pkt: Pkt): ServerOut
    requires RfrOk(p, s, pkt)
  {
    if pkt.reqNum < s.curReq || pkt.pktNum > s.numRx then
      Quiet(s)
    else
      var out := [RespPkt(p, s.tx.value, RespNtoi(pkt.pktNum, s.savNumReqPkts))];
      if pkt.pktNum == s.numRx then
        ServerOut(s.(numRx := s.numRx + 1), out, None)
      else
        ServerOut(s, out, None)
  }

  predicate ResponseOk(s: ServerSlot) {
    && s.reqType.Some?
    && s.req.Some? && s.req.value.numPkts > 0
    && s.tx.None?
  }

  /** The handler's response: bury the request, record its packet count, and send the
      first response packet, numbered like the last request packet. */
  function EnqueueResponse(p: Config, s: ServerSlot, data: seq<byte>): ServerOut
    requires ResponseOk(s)
  {
    var sav := s.req.value.numPkts;
    var r := Response(s.reqType.value, PktNumField(sav - 1), s.curReq, data);
    ServerOut(s.(savNumReqPkts := sav, req := None, tx := Some(r), reqType := None),
              [RespPkt(p, r, 0)], None)
  }
}
