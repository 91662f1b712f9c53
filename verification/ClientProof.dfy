/** Every client-side transition of one slot keeps the invariant of its slot pair. */
module ClientProof {
  import opened Wire
  import opened ClientSpec
  import opened Protocol
  import opened WheelBits
  import S = ServerSpec

  lemma SlotStride(p: Config, r: nat)
    ensures SlotOf(p, r + p.window) == SlotOf(p, r)
  {
    ModShift(p.window, r);
  }

  /** Request numbers of one slot are a window apart. */
  lemma SameSlot(p: Config, a: nat, b: nat)
    requires SlotOf(p, a) == SlotOf(p, b) && a < b <= a + p.window
    ensures b == a + p.window
  {
    if b < a + p.window {
      ModDistinct(p.window, a, b);
    }
  }

  lemma ToSetAdd(a: seq<Pkt>, x: Pkt)
    ensures ToSet(a + [x]) == ToSet(a) + {x}
  {
  }

  lemma ToSetConcat(a: seq<Pkt>, b: seq<Pkt>)
    ensures ToSet(a + b) == ToSet(a) + ToSet(b)
  {
  }

  lemma HistSizes(p: Config, i: nat, c: ClientSlot, s: S.ServerSlot, h: Hist, r: nat)
    requires HistInv(p, i, c, s, h) && SlotOf(p, r) == i
    ensures HistAt(p, c, s, h, r)
    ensures r in h.issued ==> ReqN(p, h, r) <= PKT_NUM_LIMIT
    ensures Covers(h, r) ==> ReqN(p, h, r) + RespN(p, h, r) - 1 <= PKT_NUM_LIMIT
  {
    assert HistAt(p, c, s, h, r);
    if r in h.issued {
      PktNumsFit(p, |h.issued[r].data|, 0);
    }
    if Covers(h, r) {
      PktNumsFit(p, |h.issued[r].data|, |h.replies[r]|);
    }
  }

  /** Changes to the client's counters and wheel, and new valid packets, leave the rest of
      the pair's invariant alone. */
  lemma ClientFrame(p: Config, i: nat, c: ClientSlot, c': ClientSlot, s: S.ServerSlot,
                    up: set<Pkt>, up': set<Pkt>, down: set<Pkt>, h: Hist)
    requires PairInv(p, i, c, s, up, down, h)
    requires ClientInv(p, i, c', h) && Linked(p, c', s, h)
    requires c'.curReq == c.curReq && c'.tx == c.tx
    requires forall pkt :: pkt in up' && pkt !in up ==> UpPkt(p, h, pkt)
    ensures PairInv(p, i, c', s, up', down, h)
  {
    forall r: nat | SlotOf(p, r) == i
      ensures HistAt(p, c', s, h, r)
    {
      assert HistAt(p, c, s, h, r);
    }
  }

  ghost predicate SameAt(h: Hist, h': Hist, r: nat) {
    && (r in h.issued <==> r in h'.issued) && (r in h.issued ==> h.issued[r] == h'.issued[r])
    && (r in h.replies <==> r in h'.replies) && (r in h.replies ==> h.replies[r] == h'.replies[r])
    && (r in h.seen <==> r in h'.seen) && (r in h.seen ==> h.seen[r] == h'.seen[r])
    && (r in h.outcome <==> r in h'.outcome) && (r in h.outcome ==> h.outcome[r] == h'.outcome[r])
    && h.ran[r] == h'.ran[r] && h.done[r] == h'.done[r]
  }

  /** The endpoints' states depend on the history of their own request numbers only. */
  lemma StatesSame(p: Config, j: nat, c: ClientSlot, s: S.ServerSlot, h: Hist, h': Hist)
    requires ClientInv(p, j, c, h) && ServerInv(p, j, s, h) && Linked(p, c, s, h)
    requires SameAt(h, h', c.curReq) && SameAt(h, h', s.curReq)
    ensures ClientInv(p, j, c, h') && ServerInv(p, j, s, h') && Linked(p, c, s, h')
  {
    hide WheelInv, HasPrefix, NumPkts;
  }

  lemma NetSame(
    p: Config, i: nat, j: nat, s: S.ServerSlot, up: set<Pkt>, up': set<Pkt>, down: set<Pkt>, down': set<Pkt>,
    h: Hist, h': Hist)
    requires NetInv(p, j, s, up, down, h) && i != j
    requires forall pkt :: pkt in up' && pkt !in up ==> SlotOf(p, pkt.reqNum) == i
    requires forall pkt :: pkt in down' && pkt !in down ==> SlotOf(p, pkt.reqNum) == i
    requires forall r: nat :: SlotOf(p, r) == j ==> SameAt(h, h', r)
    ensures NetInv(p, j, s, up', down', h')
  {
    hide SlotOf, NumPkts;
    forall pkt | pkt in up' && SlotOf(p, pkt.reqNum) == j
      ensures UpPkt(p, h', pkt)
    {
      assert SameAt(h, h', pkt.reqNum) && UpPkt(p, h, pkt);
    }
    forall pkt | pkt in down' && SlotOf(p, pkt.reqNum) == j
      ensures DownPkt(p, s, h', pkt)
    {
      assert SameAt(h, h', pkt.reqNum) && DownPkt(p, s, h, pkt);
    }
  }

  /** Requests and replies, once recorded, stay. */
  ghost predicate Grows(h: Hist, h': Hist) {
    && (forall r :: r in h.issued ==> r in h'.issued && h'.issued[r] == h.issued[r])
    && (forall r :: r in h.replies ==> r in h'.replies && h'.replies[r] == h.replies[r])
  }

  lemma NetGrows(p: Config, i: nat, s: S.ServerSlot, up: set<Pkt>, down: set<Pkt>, h: Hist, h': Hist)
    requires NetInv(p, i, s, up, down, h) && Grows(h, h')
    ensures NetInv(p, i, s, up, down, h')
  {
    hide SlotOf, NumPkts;
    forall pkt | pkt in up && SlotOf(p, pkt.reqNum) == i
      ensures UpPkt(p, h', pkt)
    {
      assert UpPkt(p, h, pkt);
    }
    forall pkt | pkt in down && SlotOf(p, pkt.reqNum) == i
      ensures DownPkt(p, s, h', pkt)
    {
      assert DownPkt(p, s, h, pkt);
    }
  }

  lemma HistSame(p: Config, j: nat, c: ClientSlot, s: S.ServerSlot, h: Hist, h': Hist)
    requires HistInv(p, j, c, s, h)
    requires forall r: nat :: SlotOf(p, r) == j ==> SameAt(h, h', r)
    ensures HistInv(p, j, c, s, h')
  {
    hide SlotOf, NumPkts;
    forall r: nat | SlotOf(p, r) == j
      ensures HistAt(p, c, s, h', r)
    {
      assert SameAt(h, h', r) && HistAt(p, c, s, h, r);
    }
  }

  /** Packets and history of one slot do not concern another slot's invariant. */
  lemma OtherFrame(p: Config, i: nat, j: nat, c: ClientSlot, s: S.ServerSlot,
                   up: set<Pkt>, up': set<Pkt>, down: set<Pkt>, down': set<Pkt>, h: Hist, h': Hist)
    requires PairInv(p, j, c, s, up, down, h) && i != j
    requires forall pkt :: pkt in up' && pkt !in up ==> SlotOf(p, pkt.reqNum) == i
    requires forall pkt :: pkt in down' && pkt !in down ==> SlotOf(p, pkt.reqNum) == i
    requires forall r: nat :: SlotOf(p, r) == j ==> SameAt(h, h', r)
    ensures PairInv(p, j, c, s, up', down', h')
  {
    hide ActiveInv, WheelInv, Linked, NetInv, HistInv, SameAt, Receiving, Handling, Responded, Virgin;
    assert SameAt(h, h', c.curReq) && SameAt(h, h', s.curReq);
    StatesSame(p, j, c, s, h, h');
    NetSame(p, i, j, s, up, up', down, down', h, h');
    HistSame(p, j, c, s, h, h');
  }

  // ---------------------------------------------------------------------------
  // Spending credits
  // ---------------------------------------------------------------------------

  lemma SendReqKeeps(p: Config, i: nat, g: Kick, bypass: bool, s: S.ServerSlot, up: set<Pkt>, down: set<Pkt>, h: Hist)
    requires PairInv(p, i, g.slot, s, up + ToSet(g.sent), down, h)
    requires CanSendReq(p, g, 1) && g.slot.numTx < g.slot.numRx + p.credits
    ensures PairInv(p, i, SendReq(p, g, bypass).slot, s, up + ToSet(SendReq(p, g, bypass).sent), down, h)
    ensures forall pkt :: pkt in SendReq(p, g, bypass).sent ==> pkt in g.sent || SlotOf(p, pkt.reqNum) == i
  {
    hide WheelInv, UpPkt, DownPkt, HistAt, ServerInv, Linked, HasPrefix;
    var c, g' := g.slot, SendReq(p, g, bypass);
    HistSizes(p, i, c, s, h, c.curReq);
    ReqPktValid(p, h, c.curReq, c.numTx);
    if bypass {
      WheelWiden(p, c, g'.slot);
    } else {
      AddKeeps(p, c);
    }
    ToSetAdd(g.sent, ReqPkt(p, c.tx.value, c.curReq, c.numTx));
    LinkedSame(p, c, g'.slot, s, h);
    ClientFrame(p, i, c, g'.slot, s, up + ToSet(g.sent), up + ToSet(g'.sent), down, h);
  }

  lemma ReqPktValid(p: Config, h: Hist, r: nat, idx: nat)
    requires r in h.issued && idx < ReqN(p, h, r) <= PKT_NUM_LIMIT
    ensures UpPkt(p, h, ReqPkt(p, h.issued[r], r, idx))
  {
  }

  /** Sending past the wheel widens the window of outstanding packets. */
  lemma WheelWiden(p: Config, c: ClientSlot, c': ClientSlot)
    requires WheelInv(p.credits, c)
    requires c'.inWheel == c.inWheel && c'.wheelCount == c.wheelCount && c'.wheel == c.wheel
    requires c'.numRx == c.numRx && c'.numTx >= c.numTx
    ensures WheelInv(p.credits, c')
  {
    forall n: nat | c.numRx <= n < c.numRx + p.credits
      ensures Bit(p.credits, c', n) <==> n in c'.wheel
    {
      assert Bit(p.credits, c, n) <==> n in c.wheel;
    }
  }

  lemma LinkedSame(p: Config, c: ClientSlot, c': ClientSlot, s: S.ServerSlot, h: Hist)
    requires Linked(p, c, s, h)
    requires c'.tx == c.tx && c'.curReq == c.curReq && c'.numRx == c.numRx
    ensures Linked(p, c', s, h)
  {
    hide Settled;
  }

  lemma {:induction false} SendReqsKeep(p: Config, i: nat, g: Kick, n: nat, bypass: bool, s: S.ServerSlot,
                                       up: set<Pkt>, down: set<Pkt>, h: Hist)
    requires PairInv(p, i, g.slot, s, up + ToSet(g.sent), down, h)
    requires CanSendReq(p, g, n) && g.slot.numTx + n <= g.slot.numRx + p.credits
    ensures PairInv(p, i, SendReqs(p, g, n, bypass).slot, s, up + ToSet(SendReqs(p, g, n, bypass).sent), down, h)
    ensures forall pkt :: pkt in SendReqs(p, g, n, bypass).sent ==> pkt in g.sent || SlotOf(p, pkt.reqNum) == i
    decreases n
  {
    hide PairInv;
    if n > 0 {
      SendReqKeeps(p, i, g, bypass, s, up, down, h);
      SendReqsKeep(p, i, SendReq(p, g, bypass), n - 1, bypass, s, up, down, h);
    }
  }

  lemma {:induction false} SendReqsSends(p: Config, g: Kick, n: nat, bypass: bool)
    requires CanSendReq(p, g, n)
    ensures g.sent <= SendReqs(p, g, n, bypass).sent
    ensures g.slot.wheel <= SendReqs(p, g, n, bypass).slot.wheel
    ensures n > 0 && bypass ==>
            ReqPkt(p, g.slot.tx.value, g.slot.curReq, g.slot.numTx) in SendReqs(p, g, n, bypass).sent
    ensures n > 0 && !bypass ==> g.slot.numTx in SendReqs(p, g, n, bypass).slot.wheel
    decreases n
  {
    if n > 0 {
      SendReqsSends(p, SendReq(p, g, bypass), n - 1, bypass);
      assert bypass ==> SendReq(p, g, bypass).sent[|g.sent|] == ReqPkt(p, g.slot.tx.value, g.slot.curReq, g.slot.numTx);
    }
  }

  lemma SendRfrKeeps(p: Config, i: nat, g: Kick, s: S.ServerSlot, up: set<Pkt>, down: set<Pkt>, h: Hist)
    requires PairInv(p, i, g.slot, s, up + ToSet(g.sent), down, h)
    requires g.credits > 0 && g.slot.tx.Some? && ReqPkts(p, g.slot.tx.value) <= g.slot.numRx
    requires g.slot.numTx < SlotWirePkts(p, g.slot) && g.slot.numTx < g.slot.numRx + p.credits
    ensures PairInv(p, i, SendRfr(g).slot, s, up + ToSet(SendRfr(g).sent), down, h)
    ensures forall pkt :: pkt in SendRfr(g).sent ==> pkt in g.sent || SlotOf(p, pkt.reqNum) == i
  {
    hide WheelInv, UpPkt, DownPkt, HistAt, ServerInv, Linked, HasPrefix;
    var c, g' := g.slot, SendRfr(g);
    HistSizes(p, i, c, s, h, c.curReq);
    RfrPktValid(p, h, c.curReq, c);
    WheelWiden(p, c, g'.slot);
    ToSetAdd(g.sent, RfrPkt(c.resp, c.numTx));
    LinkedSame(p, c, g'.slot, s, h);
    ClientFrame(p, i, c, g'.slot, s, up + ToSet(g.sent), up + ToSet(g'.sent), down, h);
  }

  lemma RfrPktValid(p: Config, h: Hist, r: nat, c: ClientSlot)
    requires Covers(h, r) && c.resp.hdrReqNum == r
    requires ReqN(p, h, r) <= c.numTx < ReqN(p, h, r) + RespN(p, h, r) - 1 <= PKT_NUM_LIMIT
    ensures UpPkt(p, h, RfrPkt(c.resp, c.numTx))
  {
  }

  lemma {:induction false} SendRfrsKeep(
    p: Config, i: nat, g: Kick, n: nat, s: S.ServerSlot, up: set<Pkt>, down: set<Pkt>, h: Hist)
    requires PairInv(p, i, g.slot, s, up + ToSet(g.sent), down, h)
    requires n <= g.credits && g.slot.tx.Some? && ReqPkts(p, g.slot.tx.value) <= g.slot.numRx
    requires g.slot.numTx + n <= SlotWirePkts(p, g.slot) && g.slot.numTx + n <= g.slot.numRx + p.credits
    ensures PairInv(p, i, SendRfrs(g, n).slot, s, up + ToSet(SendRfrs(g, n).sent), down, h)
    ensures forall pkt :: pkt in SendRfrs(g, n).sent ==> pkt in g.sent || SlotOf(p, pkt.reqNum) == i
    decreases n
  {
    hide PairInv;
    if n > 0 {
      SendRfrKeeps(p, i, g, s, up, down, h);
      SendRfrsKeep(p, i, SendRfr(g), n - 1, s, up, down, h);
    }
  }

  /** What kicking a slot guarantees: its pair's invariant, progress, and conservation. */
  ghost predicate Kicked(
    p: Config, i: nat, credits: nat, c: ClientSlot, g: Kick, s: S.ServerSlot, up: set<Pkt>, down: set<Pkt>,
    h: Hist)
  {
    && PairInv(p, i, g.slot, s, up + ToSet(g.sent), down, h)
    && (forall pkt :: pkt in g.sent ==> SlotOf(p, pkt.reqNum) == i)
    && g.slot.numTx > c.numTx
    && g.slot.numTx - c.numTx == credits - g.credits
    && g.slot.numRx == c.numRx && g.slot.tx == c.tx && g.slot.curReq == c.curReq && g.slot.resp == c.resp
  }

  lemma KickReqKeeps(
    p: Config, i: nat, credits: nat, c: ClientSlot, u: bool, s: S.ServerSlot, up: set<Pkt>, down: set<Pkt>,
    h: Hist)
    requires PairInv(p, i, c, s, up, down, h)
    requires KickReqOk(p, credits, c) && ReqPktsPending(p, c)
    requires credits + c.numTx <= c.numRx + p.credits
    ensures Kicked(p, i, credits, c, KickReq(p, credits, c, u), s, up, down, h)
  {
    hide PairInv;
    assert up + ToSet([]) == up;
    SendReqsKeep(p, i, Kick(credits, c, []), Min(credits, ReqPkts(p, c.tx.value) - c.numTx),
                 c.wheelCount == 0 && u, s, up, down, h);
  }

  lemma KickRfrKeeps(
    p: Config, i: nat, credits: nat, c: ClientSlot, s: S.ServerSlot, up: set<Pkt>, down: set<Pkt>, h: Hist)
    requires PairInv(p, i, c, s, up, down, h)
    requires KickRfrOk(p, credits, c) && c.numTx < SlotWirePkts(p, c)
    requires credits + c.numTx <= c.numRx + p.credits
    ensures Kicked(p, i, credits, c, KickRfr(p, credits, c), s, up, down, h)
  {
    hide PairInv;
    assert up + ToSet([]) == up;
    SendRfrsKeep(p, i, Kick(credits, c, []), Min(credits, SlotWirePkts(p, c) - c.numTx), s, up, down, h);
  }

  /** An active slot with nothing outstanding can always be kicked, and the kick sends. */
  lemma KickAnyKeeps(
    p: Config, i: nat, credits: nat, c: ClientSlot, u: bool, s: S.ServerSlot, up: set<Pkt>, down: set<Pkt>,
    h: Hist)
    requires PairInv(p, i, c, s, up, down, h)
    requires 0 < credits <= p.credits && c.tx.Some? && c.numTx == c.numRx
    ensures KickOk(p, credits, c)
    ensures Kicked(p, i, credits, c, KickAny(p, credits, c, u), s, up, down, h)
  {
    assert ActiveInv(p, c, h);
    if ReqPktsPending(p, c) {
      KickReqKeeps(p, i, credits, c, u, s, up, down, h);
    } else {
      assert Collecting(p, c, h);
      KickRfrKeeps(p, i, credits, c, s, up, down, h);
    }
  }

  // ---------------------------------------------------------------------------
  // Received packets
  // ---------------------------------------------------------------------------

  lemma AcceptCrKeeps(
    p: Config, i: nat, c: ClientSlot, pkt: Pkt, s: S.ServerSlot, up: set<Pkt>, down: set<Pkt>, h: Hist)
    requires PairInv(p, i, c, s, up, down, h)
    requires pkt in down && pkt.kind == ExplCr && SlotOf(p, pkt.reqNum) == i
    requires InOrderClient(p, c, pkt) && c.numTx <= c.numRx + p.credits
    ensures c.tx.Some?
    ensures PairInv(p, i, c.(numRx := c.numRx + 1), s, up, down, h)
    ensures c.numRx + 1 < ReqPkts(p, c.tx.value)
  {
    var c' := c.(numRx := c.numRx + 1);
    assert DownPkt(p, s, h, pkt);
    assert c.tx.Some?;
    assert ActiveInv(p, c, h);
    assert !Bit(p.credits, c, c.numRx);
    AcceptKeeps(p, c);
    ClientFrame(p, i, c, c', s, up, up, down, h);
  }

  /** The slot after an in-order response packet is counted and stored. */
  ghost function Stored(p: Config, c: ClientSlot, pkt: Pkt): ClientSlot
    requires SizedOk(p, c, pkt) && ReqPkts(p, c.tx.value) <= pkt.pktNum + 1
    requires CopyOk(p.dataPerPkt, Sized(p, c, pkt).resp, RespNtoi(pkt.pktNum, ReqPkts(p, c.tx.value)), pkt)
  {
    var c1 := Sized(p, c.(numRx := c.numRx + 1), pkt);
    c1.(resp := CopyData(p.dataPerPkt, c1.resp, RespNtoi(pkt.pktNum, ReqPkts(p, c1.tx.value)), pkt))
  }

  /** An in-order response packet is the next packet of the reply. */
  lemma RespIsNext(p: Config, i: nat, c: ClientSlot, pkt: Pkt, s: S.ServerSlot, up: set<Pkt>, down: set<Pkt>, h: Hist)
    requires PairInv(p, i, c, s, up, down, h)
    requires pkt in down && pkt.kind == Resp && SlotOf(p, pkt.reqNum) == i
    requires InOrderClient(p, c, pkt)
    ensures c.tx.Some? && Covers(h, c.curReq) && h.issued[c.curReq] == c.tx.value
    ensures c.curReq == s.curReq && c.numRx + 1 <= s.numRx
    ensures var n, m, reply := ReqN(p, h, c.curReq), RespN(p, h, c.curReq), h.replies[c.curReq];
            && n - 1 <= c.numRx < n - 1 + m
            && pkt.msgSize == |reply| && pkt.data == Chunk(p.dataPerPkt, reply, c.numRx - (n - 1))
            && pkt.reqType == c.tx.value.reqType && pkt.reqNum == c.curReq && pkt.pktNum == c.numRx
            && |reply| <= |c.resp.mem|
            && (c.numRx < n ==> c.numTx == n)
            && c.numTx <= n - 1 + m
  {
    assert DownPkt(p, s, h, pkt);
    HistSizes(p, i, c, s, h, c.curReq);
    assert c.tx.Some?;
    assert ActiveInv(p, c, h);
  }

  lemma StoreKeeps(p: Config, i: nat, c: ClientSlot, pkt: Pkt, s: S.ServerSlot, up: set<Pkt>, down: set<Pkt>, h: Hist)
    requires PairInv(p, i, c, s, up, down, h)
    requires pkt in down && pkt.kind == Resp && SlotOf(p, pkt.reqNum) == i
    requires InOrderClient(p, c, pkt)
    ensures SizedOk(p, c, pkt) && ReqPkts(p, c.tx.value) <= pkt.pktNum + 1
    ensures CopyOk(p.dataPerPkt, Sized(p, c, pkt).resp, RespNtoi(pkt.pktNum, ReqPkts(p, c.tx.value)), pkt)
    ensures Covers(h, c.curReq)
    ensures var c', n, m, reply := Stored(p, c, pkt), ReqN(p, h, c.curReq), RespN(p, h, c.curReq), h.replies[c.curReq];
            && c'.resp.dataSize == |reply| && c'.resp.numPkts == m
            && c'.resp.hdrType == c.tx.value.reqType && c'.resp.hdrReqNum == c.curReq
            && |c'.resp.mem| == |c.resp.mem|
            && HasPrefix(p.dataPerPkt, c'.resp, reply, c'.numRx - (n - 1))
            && (c'.numRx == n + m - 1 ==> c'.resp.Contents() == reply)
  {
    hide ClientInv, ServerInv, Linked, NetInv, HistInv, HasPrefix, CopyOk, CopyData, NumPkts, Chunk, SlotOf,
      InOrderClient;
    RespIsNext(p, i, c, pkt, s, up, down, h);
    var n, reply := ReqN(p, h, c.curReq), h.replies[c.curReq];
    var idx, b := c.numRx - (n - 1), Sized(p, c, pkt).resp;
    SizedPrefix(p, i, c, pkt, h);
    CopyExtends(p.dataPerPkt, b, reply, idx, pkt);
    CopyFrame(p.dataPerPkt, b, idx, pkt);
  }

  /** The buffer that an in-order packet of a reply is stored in has the earlier packets in place. */
  lemma SizedPrefix(p: Config, i: nat, c: ClientSlot, pkt: Pkt, h: Hist)
    requires ClientInv(p, i, c, h) && c.tx.Some? && Covers(h, c.curReq) && h.issued[c.curReq] == c.tx.value
    requires pkt.pktNum == c.numRx && ReqN(p, h, c.curReq) - 1 <= c.numRx
    requires pkt.reqType == c.tx.value.reqType && pkt.reqNum == c.curReq
    requires pkt.msgSize == |h.replies[c.curReq]| <= |c.resp.mem|
    ensures SizedOk(p, c, pkt)
    ensures var b := Sized(p, c, pkt).resp;
            && b.dataSize == pkt.msgSize && b.numPkts == RespN(p, h, c.curReq) && |b.mem| == |c.resp.mem|
            && b.hdrType == c.tx.value.reqType && b.hdrReqNum == c.curReq
            && HasPrefix(p.dataPerPkt, b, h.replies[c.curReq], c.numRx - (ReqN(p, h, c.curReq) - 1))
  {
    hide WheelInv;
    assert ActiveInv(p, c, h);
  }

  /** Storing a response packet that is not the last. */
  lemma AcceptRespKeeps(
    p: Config, i: nat, c: ClientSlot, pkt: Pkt, s: S.ServerSlot, up: set<Pkt>, down: set<Pkt>, h: Hist)
    requires PairInv(p, i, c, s, up, down, h)
    requires pkt in down && pkt.kind == Resp && SlotOf(p, pkt.reqNum) == i
    requires InOrderClient(p, c, pkt) && c.numTx <= c.numRx + p.credits
    requires Covers(h, c.curReq) && c.numRx + 1 < ReqN(p, h, c.curReq) + RespN(p, h, c.curReq) - 1
    requires SizedOk(p, c, pkt) && ReqPkts(p, c.tx.value) <= pkt.pktNum + 1
    requires CopyOk(p.dataPerPkt, Sized(p, c, pkt).resp, RespNtoi(pkt.pktNum, ReqPkts(p, c.tx.value)), pkt)
    ensures PairInv(p, i, Stored(p, c, pkt), s, up, down, h)
  {
    RespIsNext(p, i, c, pkt, s, up, down, h);
    StoreKeeps(p, i, c, pkt, s, up, down, h);
    var c' := Stored(p, c, pkt);
    assert !Bit(p.credits, c, c.numRx);
    AcceptKeeps(p, c);
    WheelWiden(p, c.(numRx := c.numRx + 1), c');
    assert Collecting(p, c', h);
    ClientFrame(p, i, c, c', s, up, up, down, h);
  }

  /** After the last response packet nothing is in the wheel or unanswered. */
  lemma LastPacket(p: Config, i: nat, c: ClientSlot, pkt: Pkt, s: S.ServerSlot, up: set<Pkt>, down: set<Pkt>, h: Hist)
    requires PairInv(p, i, c, s, up, down, h)
    requires pkt in down && pkt.kind == Resp && SlotOf(p, pkt.reqNum) == i
    requires InOrderClient(p, c, pkt) && c.numTx <= c.numRx + p.credits
    requires Covers(h, c.curReq) && c.numRx + 1 == ReqN(p, h, c.curReq) + RespN(p, h, c.curReq) - 1
    ensures c.wheelCount == 0 && c.numTx == c.numRx + 1
    ensures Settled(p, s, h) && c.curReq == s.curReq
  {
    RespIsNext(p, i, c, pkt, s, up, down, h);
    assert HistAt(p, c, s, h, c.curReq);
    assert Responded(p, s, h);
    LastWheel(p, c);
  }

  lemma LastWheel(p: Config, c: ClientSlot)
    requires WheelInv(p.credits, c) && c.numTx == c.numRx + 1
    requires !Bit(p.credits, c, c.numRx)
    ensures c.wheelCount == 0
  {
    AcceptKeeps(p, c);
    EmptyWheel(p.credits, c.(numRx := c.numRx + 1));
  }

  /** Completing the request records its continuation and keeps the pair's invariant. */
  lemma ReleaseKeeps(
    p: Config, i: nat, c: ClientSlot, c': ClientSlot, s: S.ServerSlot, up: set<Pkt>, down: set<Pkt>, h: Hist,
    h': Hist)
    requires PairInv(p, i, c, s, up, down, h)
    requires c.tx.Some? && c'.tx.None? && c'.curReq == c.curReq == s.curReq
    requires c.curReq in h.replies
    requires c.wheelCount == 0 && c'.wheelCount == 0 && c'.wheel == c.wheel && c'.inWheel == c.inWheel
    requires c'.numTx == c'.numRx
    requires Settled(p, s, h)
    requires h' == Finished(h, Some(Completion(c.curReq, h.replies[c.curReq])))
    ensures PairInv(p, i, c', s, up, down, h')
    ensures forall r: nat :: r != c.curReq ==> SameAt(h, h', r)
  {
    hide WheelInv, UpPkt, DownPkt, HasPrefix, NumPkts;
    ClearKeeps(p, c, c');
    NetGrows(p, i, s, up, down, h, h');
    assert SameAt(h, h', s.curReq) || c.curReq == s.curReq;
    forall r: nat | SlotOf(p, r) == i
      ensures HistAt(p, c', s, h', r)
    {
      assert HistAt(p, c, s, h, r);
    }
  }

  /** Giving a free slot its next request keeps the pair's invariant. */
  lemma ActivateKeeps(
    p: Config, i: nat, c: ClientSlot, r: Request, s: S.ServerSlot, up: set<Pkt>, down: set<Pkt>, h: Hist,
    h': Hist)
    requires PairInv(p, i, c, s, up, down, h)
    requires c.tx.None? && |r.data| <= p.maxMsgSize
    requires h' == Issued(h, Some((c.curReq + p.window, r)))
    ensures PairInv(p, i, Activated(p, c, r), s, up, down, h')
    ensures forall q: nat :: q != c.curReq + p.window ==> SameAt(h, h', q)
    ensures SlotOf(p, c.curReq + p.window) == i
  {
    hide UpPkt, DownPkt, HasPrefix, NumPkts;
    var c', q := Activated(p, c, r), c.curReq + p.window;
    SlotStride(p, c.curReq);
    assert HistAt(p, c, s, h, q);
    assert ClientInv(p, i, c', h') by {
      EmptyWheel(p.credits, c);
      ClearKeeps(p, c, c');
    }
    hide WheelInv;
    assert SameAt(h, h', s.curReq);
    assert ServerInv(p, i, s, h');
    assert Linked(p, c', s, h');
    NetGrows(p, i, s, up, down, h, h');
    ActivateHist(p, i, c, c', r, s, h, h');
  }

  lemma ActivateHist(p: Config, i: nat, c: ClientSlot, c': ClientSlot, r: Request, s: S.ServerSlot, h: Hist, h': Hist)
    requires HistInv(p, i, c, s, h) && SlotOf(p, c.curReq) == i
    requires c.tx.None? && c.curReq == s.curReq && |r.data| <= p.maxMsgSize
    requires c'.tx == Some(r) && c'.curReq == c.curReq + p.window && SlotOf(p, c'.curReq) == i
    requires h' == Issued(h, Some((c'.curReq, r)))
    ensures HistInv(p, i, c', s, h')
  {
    hide NumPkts;
    forall q: nat | SlotOf(p, q) == i
      ensures HistAt(p, c', s, h', q)
    {
      assert HistAt(p, c, s, h, q);
      if c.curReq < q < c'.curReq {
        SameSlot(p, c.curReq, q);
      }
    }
  }

  // ---------------------------------------------------------------------------
  // Wheel and rollback
  // ---------------------------------------------------------------------------

  /** Only request packets are ever in the wheel, and transmitting one keeps the invariant. */
  lemma WheelTxKeeps(p: Config, i: nat, c: ClientSlot, n: nat, s: S.ServerSlot, up: set<Pkt>, down: set<Pkt>, h: Hist)
    requires PairInv(p, i, c, s, up, down, h)
    requires n in c.wheel && c.numTx <= c.numRx + p.credits
    ensures c.tx.Some? && |c.inWheel| == p.credits && c.wheelCount > 0 && n < ReqPkts(p, c.tx.value) &&
            c.numRx < c.numTx
    ensures PairInv(p, i, TakeFromWheel(p, c, n), s, up + {ReqPkt(p, c.tx.value, c.curReq, n)}, down, h)
    ensures SlotOf(p, ReqPkt(p, c.tx.value, c.curReq, n).reqNum) == i
  {
    assert c.numRx <= n < c.numTx;
    assert c.tx.Some?;
    assert ActiveInv(p, c, h);
    HistSizes(p, i, c, s, h, c.curReq);
    TakeKeeps(p, c, n);
    ClientFrame(p, i, c, TakeFromWheel(p, c, n), s, up, up + {ReqPkt(p, c.tx.value, c.curReq, n)}, down, h);
  }

  /** Rolling back a slot with an empty wheel keeps its pair's invariant. */
  lemma RollbackKeeps(p: Config, i: nat, c: ClientSlot, s: S.ServerSlot, up: set<Pkt>, down: set<Pkt>, h: Hist)
    requires PairInv(p, i, c, s, up, down, h)
    requires c.tx.Some? && c.wheelCount == 0
    ensures PairInv(p, i, RolledBack(c), s, up, down, h)
  {
    assert ActiveInv(p, c, h);
    EmptyWheel(p.credits, c);
    ClearKeeps(p, c, RolledBack(c));
    ClientFrame(p, i, c, RolledBack(c), s, up, up, down, h);
  }
}
