/** Every server-side transition of one slot is free of assertion failures and keeps the
    invariant of its slot pair. */
module ServerProof {
  import opened Wire
  import opened ClientSpec
  import opened Protocol
  import opened ClientProof
  import S = ServerSpec

  /** The request of a client packet: its slot's current one, an older one, or, one window
      ahead, the client's current one. */
  lemma Placed(p: Config, i: nat, c: ClientSlot, s: S.ServerSlot, up: set<Pkt>, down: set<Pkt>, h: Hist, r: nat)
    requires PairInv(p, i, c, s, up, down, h)
    requires SlotOf(p, r) == i && r in h.issued
    ensures HistAt(p, c, s, h, r)
    ensures r > s.curReq ==> r == s.curReq + p.window == c.curReq && Settled(p, s, h) && c.numRx == 0 && c.tx.Some?
    ensures 1 <= ReqN(p, h, r) <= PKT_NUM_LIMIT
  {
    HistSizes(p, i, c, s, h, r);
    if r > s.curReq {
      SameSlot(p, s.curReq, r);
    }
  }

  /** Effects of a server step that the pair's invariant needs to know about. */
  ghost predicate Kept(p: Config, i: nat, c: ClientSlot, s': S.ServerSlot, up: set<Pkt>, down: set<Pkt>,
                       sent: seq<Pkt>, h: Hist, h': Hist) {
    && PairInv(p, i, c, s', up, down + ToSet(sent), h')
    && (forall pkt :: pkt in sent ==> SlotOf(p, pkt.reqNum) == i)
    && (forall q: nat :: SlotOf(p, q) != i ==> SameAt(h, h', q))
  }

  /** A step that only sends valid packets. */
  lemma ResendKeeps(
    p: Config, i: nat, c: ClientSlot, s: S.ServerSlot, up: set<Pkt>, down: set<Pkt>, sent: seq<Pkt>, h: Hist)
    requires PairInv(p, i, c, s, up, down, h)
    requires forall pkt :: pkt in sent ==> SlotOf(p, pkt.reqNum) == i && DownPkt(p, s, h, pkt)
    ensures Kept(p, i, c, s, up, down, sent, h, h)
  {
  }

  lemma ResendFirstKeeps(p: Config, i: nat, c: ClientSlot, s: S.ServerSlot, up: set<Pkt>, down: set<Pkt>, h: Hist)
    requires PairInv(p, i, c, s, up, down, h)
    requires s.curReq in h.issued
    ensures Kept(p, i, c, s, up, down, S.ResendFirst(p, s).sent, h, h)
  {
    HistSizes(p, i, c, s, h, s.curReq);
    if s.tx.Some? {
      assert Responded(p, s, h);
      RespPktValid(p, s, h, s.curReq, 0);
    }
    ResendKeeps(p, i, c, s, up, down, S.ResendFirst(p, s).sent, h);
  }

  /** The network's packets stay behind a server that moves on and answers. */
  lemma NetAdvances(
    p: Config, i: nat, s: S.ServerSlot, s': S.ServerSlot, up: set<Pkt>, down: set<Pkt>, sent: seq<Pkt>, h: Hist,
    h': Hist)
    requires NetInv(p, i, s, up, down, h) && Grows(h, h')
    requires s.curReq < s'.curReq || (s.curReq == s'.curReq && s.numRx <= s'.numRx)
    requires forall pkt :: pkt in sent ==> DownPkt(p, s', h', pkt)
    ensures NetInv(p, i, s', up, down + ToSet(sent), h')
  {
    hide SlotOf, NumPkts;
    NetGrows(p, i, s, up, down, h, h');
    forall pkt | pkt in down + ToSet(sent) && SlotOf(p, pkt.reqNum) == i
      ensures DownPkt(p, s', h', pkt)
    {
      if pkt in down {
        assert DownPkt(p, s, h', pkt);
      }
    }
  }

  /** The server moves on to the client's next request. */
  lemma AdvanceKeeps(p: Config, i: nat, c: ClientSlot, s: S.ServerSlot, s': S.ServerSlot, up: set<Pkt>, down: set<Pkt>,
                     sent: seq<Pkt>, h: Hist, h': Hist)
    requires PairInv(p, i, c, s, up, down, h)
    requires c.curReq == s.curReq + p.window == s'.curReq && c.curReq in h.issued
    requires s'.numRx == 1 && s'.tx.None?
    requires Receiving(p, s', h) || Handling(p, s', h)
    requires Receiving(p, s', h) ==> h' == h
    requires Handling(p, s', h) ==> Servable(p, h.issued[c.curReq])
    requires Handling(p, s', h) ==>
             h' == Started(h, Some(S.Exec(c.curReq, h.issued[c.curReq].reqType, h.issued[c.curReq].data)))
    requires forall pkt :: pkt in sent ==> pkt.reqNum == c.curReq && DownPkt(p, s', h, pkt)
    ensures Kept(p, i, c, s', up, down, sent, h, h')
  {
    hide WheelInv, UpPkt, DownPkt, HistAt, HasPrefix, NumPkts;
    AdvanceHist(p, i, c, s, s', h, h');
    SentGrows(p, s', sent, h, h');
    NetAdvances(p, i, s, s', up, down, sent, h, h');
  }

  lemma AdvanceHist(p: Config, i: nat, c: ClientSlot, s: S.ServerSlot, s': S.ServerSlot, h: Hist, h': Hist)
    requires HistInv(p, i, c, s, h) && SlotOf(p, s.curReq) == i && Settled(p, s, h)
    requires c.curReq == s.curReq + p.window == s'.curReq && c.curReq in h.issued && c.tx.Some?
    requires s'.numRx == 1 && s'.tx.None?
    requires if ReqN(p, h, c.curReq) == 1
             then Servable(p, h.issued[c.curReq])
               && h' == Started(h, Some(S.Exec(c.curReq, h.issued[c.curReq].reqType, h.issued[c.curReq].data)))
             else h' == h
    ensures HistInv(p, i, c, s', h')
  {
    hide NumPkts, HasPrefix;
    forall q: nat | SlotOf(p, q) == i
      ensures HistAt(p, c, s', h', q)
    {
      assert HistAt(p, c, s, h, q);
      if s.curReq < q < c.curReq {
        SameSlot(p, s.curReq, q);
      }
    }
  }

  lemma SentGrows(p: Config, s: S.ServerSlot, sent: seq<Pkt>, h: Hist, h': Hist)
    requires Grows(h, h') && forall pkt :: pkt in sent ==> DownPkt(p, s, h, pkt)
    ensures forall pkt :: pkt in sent ==> DownPkt(p, s, h', pkt)
  {
    hide NumPkts;
  }

  /** The server makes progress on its current request. */
  lemma ProgressKeeps(p: Config, i: nat, c: ClientSlot, s: S.ServerSlot, s': S.ServerSlot, up: set<Pkt>, down: set<Pkt>,
                      sent: seq<Pkt>, h: Hist, h': Hist)
    requires PairInv(p, i, c, s, up, down, h)
    requires s'.curReq == s.curReq && s.curReq in h.issued
    requires s'.numRx == s.numRx + 1 && s'.tx == s.tx
    requires Receiving(p, s', h) || Handling(p, s', h) || Responded(p, s', h)
    requires Handling(p, s', h) ==> Servable(p, h.issued[s.curReq])
    requires Handling(p, s', h) ==>
      h' == Started(h, Some(S.Exec(s.curReq, h.issued[s.curReq].reqType, h.issued[s.curReq].data)))
    requires !Handling(p, s', h) ==> h' == h
    requires forall pkt :: pkt in sent ==> pkt.reqNum == s.curReq && DownPkt(p, s', h, pkt)
    requires !Settled(p, s, h)
    requires Responded(p, s', h) ==> s.numRx >= ReqN(p, h, s.curReq)
    ensures Kept(p, i, c, s', up, down, sent, h, h')
  {
    hide WheelInv, UpPkt, DownPkt, HistAt, HasPrefix, NumPkts;
    ProgressHist(p, i, c, s, s', h, h');
    SentGrows(p, s', sent, h, h');
    NetAdvances(p, i, s, s', up, down, sent, h, h');
  }

  lemma ProgressHist(p: Config, i: nat, c: ClientSlot, s: S.ServerSlot, s': S.ServerSlot, h: Hist, h': Hist)
    requires HistInv(p, i, c, s, h)
    requires s'.curReq == s.curReq && s.curReq in h.issued && s'.numRx == s.numRx + 1 && s'.tx == s.tx
    requires if s'.numRx == ReqN(p, h, s.curReq)
             then Servable(p, h.issued[s.curReq])
               && h' == Started(h, Some(S.Exec(s.curReq, h.issued[s.curReq].reqType, h.issued[s.curReq].data)))
             else h' == h
    ensures HistInv(p, i, c, s', h')
  {
    hide NumPkts;
    forall q: nat | SlotOf(p, q) == i
      ensures HistAt(p, c, s', h', q)
    {
      assert HistAt(p, c, s, h, q);
    }
  }

  /** A single-packet request finds its slot and goes to its handler whole. */
  lemma SmallReqNew(
    p: Config, i: nat, c: ClientSlot, s: S.ServerSlot, up: set<Pkt>, down: set<Pkt>, h: Hist, pkt: Pkt,
    mem: Option<seq<byte>>)
    requires PairInv(p, i, c, s, up, down, h)
    requires pkt in up && pkt.kind == Req && SlotOf(p, pkt.reqNum) == i && pkt.msgSize <= p.dataPerPkt
    requires S.Allocates(p, s, pkt) ==> S.AllocOk(pkt.msgSize, mem)
    ensures pkt.reqNum in h.issued && S.SmallReqOk(p, s, pkt, mem)
    ensures pkt.reqNum > s.curReq ==>
      && c.curReq == pkt.reqNum == s.curReq + p.window && Servable(p, h.issued[pkt.reqNum])
      && pkt.reqType == h.issued[pkt.reqNum].reqType && pkt.data == h.issued[pkt.reqNum].data
      && pkt.msgSize == |pkt.data| && ReqN(p, h, pkt.reqNum) == 1
  {
    hide ClientInv, DownPkt, Receiving, Handling, HistAt;
    assert UpPkt(p, h, pkt);
    Placed(p, i, c, s, up, down, h, pkt.reqNum);
    assert pkt.pktNum == 0 && pkt.data == h.issued[pkt.reqNum].data;
  }

  lemma SmallReqKeeps(
    p: Config, i: nat, c: ClientSlot, s: S.ServerSlot, up: set<Pkt>, down: set<Pkt>, h: Hist, pkt: Pkt,
    mem: Option<seq<byte>>)
    requires PairInv(p, i, c, s, up, down, h)
    requires pkt in up && pkt.kind == Req && SlotOf(p, pkt.reqNum) == i && pkt.msgSize <= p.dataPerPkt
    requires S.Allocates(p, s, pkt) ==> S.AllocOk(pkt.msgSize, mem)
    ensures S.SmallReqOk(p, s, pkt, mem)
    ensures var out := S.ProcessSmallReq(p, s, pkt, mem);
            Kept(p, i, c, out.slot, up, down, out.sent, h, Started(h, out.started))
  {
    hide PairInv, Kept, DownPkt;
    SmallReqNew(p, i, c, s, up, down, h, pkt, mem);
    var out := S.ProcessSmallReq(p, s, pkt, mem);
    if pkt.reqNum < s.curReq {
      ResendKeeps(p, i, c, s, up, down, [], h);
    } else if pkt.reqNum == s.curReq {
      ResendFirstKeeps(p, i, c, s, up, down, h);
    } else {
      assert S.SmallReqBuf(p, pkt).Contents() == h.issued[pkt.reqNum].data;
      assert Handling(p, out.slot, h);
      AdvanceKeeps(p, i, c, s, out.slot, up, down, out.sent, h, Started(h, out.started));
    }
  }

  /** The first packet of the next large request. */
  lemma LargeFirstKeeps(
    p: Config, i: nat, c: ClientSlot, s: S.ServerSlot, up: set<Pkt>, down: set<Pkt>, h: Hist, pkt: Pkt,
    mem: Option<seq<byte>>)
    requires PairInv(p, i, c, s, up, down, h)
    requires pkt in up && pkt.kind == Req && SlotOf(p, pkt.reqNum) == i && pkt.msgSize > p.dataPerPkt
    requires S.IsFirstPktNextReq(p, s, pkt) && S.AllocOk(pkt.msgSize, mem)
    ensures S.LargeReqOk(p, s, pkt, mem)
    ensures var out := S.ProcessLargeReq(p, s, pkt, mem);
            Kept(p, i, c, out.slot, up, down, out.sent, h, Started(h, out.started))
  {
    assert UpPkt(p, h, pkt);
    Placed(p, i, c, s, up, down, h, pkt.reqNum);
    var data := h.issued[pkt.reqNum].data;
    var b := S.Located(p, s, pkt, mem).req.value;
    assert HasPrefix(p.dataPerPkt, b, data, 0);
    CopyExtends(p.dataPerPkt, b, data, 0, pkt);
    var out := S.ProcessLargeReq(p, s, pkt, mem);
    assert Receiving(p, out.slot, h);
    assert DownPkt(p, out.slot, h, S.CrPkt(pkt));
    AdvanceKeeps(p, i, c, s, out.slot, up, down, out.sent, h, h);
  }

  /** The next packet of the current large request. */
  lemma LargeNextKeeps(
    p: Config, i: nat, c: ClientSlot, s: S.ServerSlot, up: set<Pkt>, down: set<Pkt>, h: Hist, pkt: Pkt,
    mem: Option<seq<byte>>)
    requires PairInv(p, i, c, s, up, down, h)
    requires pkt in up && pkt.kind == Req && SlotOf(p, pkt.reqNum) == i && pkt.msgSize > p.dataPerPkt
    requires S.IsNextPktSameReq(s, pkt)
    ensures S.LargeReqOk(p, s, pkt, mem)
    ensures var out := S.ProcessLargeReq(p, s, pkt, mem);
            Kept(p, i, c, out.slot, up, down, out.sent, h, Started(h, out.started))
  {
    assert UpPkt(p, h, pkt);
    Placed(p, i, c, s, up, down, h, pkt.reqNum);
    assert Receiving(p, s, h);
    var data, n := h.issued[pkt.reqNum].data, ReqN(p, h, pkt.reqNum);
    var b := s.req.value;
    CopyExtends(p.dataPerPkt, b, data, pkt.pktNum, pkt);
    var out := S.ProcessLargeReq(p, s, pkt, mem);
    if pkt.pktNum == n - 1 {
      assert Handling(p, out.slot, h);
    } else {
      assert Receiving(p, out.slot, h);
      assert DownPkt(p, out.slot, h, S.CrPkt(pkt));
    }
    ProgressKeeps(p, i, c, s, out.slot, up, down, out.sent, h, Started(h, out.started));
  }

  /** Any other packet of a large request is dropped, or answered again. */
  lemma LargePastKeeps(
    p: Config, i: nat, c: ClientSlot, s: S.ServerSlot, up: set<Pkt>, down: set<Pkt>, h: Hist, pkt: Pkt,
    mem: Option<seq<byte>>)
    requires PairInv(p, i, c, s, up, down, h)
    requires pkt in up && pkt.kind == Req && SlotOf(p, pkt.reqNum) == i && pkt.msgSize > p.dataPerPkt
    requires !S.IsNextPktSameReq(s, pkt) && !S.IsFirstPktNextReq(p, s, pkt)
    ensures S.LargeReqOk(p, s, pkt, mem)
    ensures var out := S.ProcessLargeReq(p, s, pkt, mem);
            Kept(p, i, c, out.slot, up, down, out.sent, h, Started(h, out.started))
  {
    assert UpPkt(p, h, pkt);
    Placed(p, i, c, s, up, down, h, pkt.reqNum);
    if pkt.reqNum != s.curReq || pkt.pktNum > s.numRx {
      ResendKeeps(p, i, c, s, up, down, [], h);
    } else if pkt.pktNum != ReqN(p, h, pkt.reqNum) - 1 {
      assert DownPkt(p, s, h, S.CrPkt(pkt));
      ResendKeeps(p, i, c, s, up, down, [S.CrPkt(pkt)], h);
    } else {
      ResendFirstKeeps(p, i, c, s, up, down, h);
    }
  }

  /** A request packet fails no assertion exactly when the buffer that it makes the server
      allocate, if any, is not empty and there is memory for it. */
  lemma ReqKeeps(
    p: Config, i: nat, c: ClientSlot, s: S.ServerSlot, up: set<Pkt>, down: set<Pkt>, h: Hist, pkt: Pkt,
    mem: Option<seq<byte>>)
    requires PairInv(p, i, c, s, up, down, h)
    requires pkt in up && pkt.kind == Req && SlotOf(p, pkt.reqNum) == i
    ensures S.ReqOk(p, s, pkt, mem) <==> (S.Allocates(p, s, pkt) ==> S.AllocOk(pkt.msgSize, mem))
    ensures S.ReqOk(p, s, pkt, mem) ==>
            var out := S.ProcessReq(p, s, pkt, mem);
            Kept(p, i, c, out.slot, up, down, out.sent, h, Started(h, out.started))
  {
    if S.Allocates(p, s, pkt) && !S.AllocOk(pkt.msgSize, mem) {
    } else if pkt.msgSize <= p.dataPerPkt {
      SmallReqKeeps(p, i, c, s, up, down, h, pkt, mem);
    } else if S.IsNextPktSameReq(s, pkt) {
      LargeNextKeeps(p, i, c, s, up, down, h, pkt, mem);
    } else if S.IsFirstPktNextReq(p, s, pkt) {
      LargeFirstKeeps(p, i, c, s, up, down, h, pkt, mem);
    } else {
      LargePastKeeps(p, i, c, s, up, down, h, pkt, mem);
    }
  }

  /** Every RFR that is answered selects a response packet other than the first, of the
      live response for its request. */
  lemma RfrKeeps(p: Config, i: nat, c: ClientSlot, s: S.ServerSlot, up: set<Pkt>, down: set<Pkt>, h: Hist, pkt: Pkt)
    requires PairInv(p, i, c, s, up, down, h)
    requires pkt in up && pkt.kind == Rfr && SlotOf(p, pkt.reqNum) == i
    ensures S.RfrOk(p, s, pkt)
    ensures pkt.reqNum == s.curReq && pkt.pktNum <= s.numRx ==>
              && s.tx == Some(ReplyOf(p, h, pkt.reqNum))
              && 1 <= RespNtoi(pkt.pktNum, s.savNumReqPkts) < RespN(p, h, pkt.reqNum)
    ensures var out := S.ProcessRfr(p, s, pkt);
            Kept(p, i, c, out.slot, up, down, out.sent, h, Started(h, out.started))
  {
    RfrSelects(p, i, c, s, up, down, h, pkt);
    hide PairInv, UpPkt, DownPkt, HistAt, NumPkts;
    var out := S.ProcessRfr(p, s, pkt);
    if pkt.reqNum < s.curReq || pkt.pktNum > s.numRx {
      ResendKeeps(p, i, c, s, up, down, [], h);
    } else {
      RespPktValid(p, out.slot, h, pkt.reqNum, RespNtoi(pkt.pktNum, s.savNumReqPkts));
      if pkt.pktNum == s.numRx {
        ProgressKeeps(p, i, c, s, out.slot, up, down, out.sent, h, h);
      } else {
        ResendKeeps(p, i, c, s, up, down, out.sent, h);
      }
    }
  }

  lemma RfrSelects(p: Config, i: nat, c: ClientSlot, s: S.ServerSlot, up: set<Pkt>, down: set<Pkt>, h: Hist, pkt: Pkt)
    requires PairInv(p, i, c, s, up, down, h)
    requires pkt in up && pkt.kind == Rfr && SlotOf(p, pkt.reqNum) == i
    ensures pkt.reqNum <= s.curReq && Covers(h, pkt.reqNum)
    ensures ReqN(p, h, pkt.reqNum) + RespN(p, h, pkt.reqNum) - 1 <= PKT_NUM_LIMIT
    ensures ReqN(p, h, pkt.reqNum) <= pkt.pktNum < ReqN(p, h, pkt.reqNum) + RespN(p, h, pkt.reqNum) - 1
    ensures pkt.reqNum == s.curReq && pkt.pktNum <= s.numRx ==> Responded(p, s, h)
  {
    hide ClientInv, DownPkt, NumPkts;
    assert UpPkt(p, h, pkt);
    Placed(p, i, c, s, up, down, h, pkt.reqNum);
    HistSizes(p, i, c, s, h, pkt.reqNum);
  }

  lemma RespPktValid(p: Config, s: S.ServerSlot, h: Hist, r: nat, idx: nat)
    requires Covers(h, r) && s.curReq == r && s.numRx >= ReqN(p, h, r) + idx
    requires idx < RespN(p, h, r) && ReqN(p, h, r) - 1 + idx < PKT_NUM_LIMIT
    ensures DownPkt(p, s, h, S.RespPkt(p, ReplyOf(p, h, r), idx))
  {
  }

  /** The handler's reply becomes the response of its request. */
  lemma ReplyKeeps(
    p: Config, i: nat, c: ClientSlot, s: S.ServerSlot, up: set<Pkt>, down: set<Pkt>, h: Hist, h': Hist,
    data: seq<byte>)
    requires PairInv(p, i, c, s, up, down, h)
    requires s.reqType.Some? && s.curReq in h.issued
    requires |data| <= p.maxMsgSize && |data| <= |h.issued[s.curReq].resp.mem|
    requires h' == h.(replies := h.replies[s.curReq := data])
    ensures S.ResponseOk(s)
    ensures var out := S.EnqueueResponse(p, s, data);
            Kept(p, i, c, out.slot, up, down, out.sent, h, h')
  {
    hide WheelInv, UpPkt, DownPkt, HistAt, HasPrefix, NumPkts;
    var r, n := s.curReq, ReqN(p, h, s.curReq);
    assert Handling(p, s, h);
    Placed(p, i, c, s, up, down, h, r);
    var out := S.EnqueueResponse(p, s, data);
    assert c.curReq == r;
    assert Responded(p, out.slot, h');
    RespPktValid(p, out.slot, h', r, 0);
    NetAdvances(p, i, s, out.slot, up, down, out.sent, h, h');
    ReplyHist(p, i, c, s, out.slot, h, h', data);
  }

  lemma ReplyHist(
    p: Config, i: nat, c: ClientSlot, s: S.ServerSlot, s': S.ServerSlot, h: Hist, h': Hist, data: seq<byte>)
    requires HistInv(p, i, c, s, h)
    requires s.curReq in h.issued && s'.curReq == s.curReq == c.curReq && c.tx.Some?
    requires s.numRx == s'.numRx == ReqN(p, h, s.curReq) && s.tx.None? && s'.tx.Some?
    requires |data| <= p.maxMsgSize && |data| <= |h.issued[s.curReq].resp.mem|
    requires h' == h.(replies := h.replies[s.curReq := data])
    ensures HistInv(p, i, c, s', h')
  {
    hide NumPkts;
    forall q: nat | SlotOf(p, q) == i
      ensures HistAt(p, c, s', h', q)
    {
      assert HistAt(p, c, s, h, q);
    }
  }
}
