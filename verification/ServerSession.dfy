/** The server endpoint in the form the program has it: slots updated in place as packets
    and replies arrive. Each handler computes exactly its function in `ServerSpec`. */
module ServerSession {
  import opened Wire
  import S = ServerSpec

  class Session {
    const p: Config
    const slots: array<S.ServerSlot>
    var sent: seq<Pkt>          // everything handed to the transport

    constructor (p: Config)
      ensures this.p == p && fresh(slots) && sent == []
      ensures slots[..] == seq(p.window, i requires 0 <= i => S.InitSlot(i))
    {
      this.p := p;
      slots := new S.ServerSlot[p.window](i requires 0 <= i => S.InitSlot(i));
      sent := [];
      new;
      assert slots[..] == seq(p.window, i requires 0 <= i => S.InitSlot(i));
    }

    /** Slot `i` is as in `out`, the others are as before, and `out`'s packets were sent. */
    twostate predicate Did(i: nat, out: S.ServerOut)
      reads this, slots
    {
      && i < slots.Length
      && slots[..] == old(slots[..])[i := out.slot]
      && sent == old(sent) + out.sent
    }

    method ResendFirstSt(i: nat)
      requires i < slots.Length
      modifies this`sent
      ensures sent == old(sent) + S.ResendFirst(p, slots[i]).sent
    {
      if slots[i].tx.Some? {
        sent := sent + [S.RespPkt(p, slots[i].tx.value, 0)];
      }
    }

    /** `mem` is what an allocation of the message's size would return. */
    method ProcessSmallReqSt(i: nat, pkt: Pkt, mem: Option<seq<byte>>) returns (started: Option<S.Exec>)
      requires i < slots.Length && S.SmallReqOk(p, slots[i], pkt, mem)
      modifies this, slots
      ensures Did(i, S.ProcessSmallReq(p, old(slots[i]), pkt, mem))
      ensures started == S.ProcessSmallReq(p, old(slots[i]), pkt, mem).started
    {
      started := None;
      if pkt.reqNum <= slots[i].curReq {
        if pkt.reqNum < slots[i].curReq { return; }
        ResendFirstSt(i);
        return;
      }
      slots[i] := slots[i].(tx := None);
      slots[i] := slots[i].(curReq := pkt.reqNum, numRx := 1);
      slots[i] := slots[i].(reqType := Some(pkt.reqType));
      var bytes := pkt.data[..pkt.msgSize];
      if pkt.reqType !in p.background {
        slots[i] := slots[i].(req := Some(MsgBuf(bytes, pkt.msgSize, 1, pkt.reqType, pkt.reqNum)));
      } else {
        var b := S.FreshBuf(p, mem.value);
        slots[i] := slots[i].(req := Some(b.(mem := bytes + b.mem[pkt.msgSize..])));
        assert bytes + b.mem[pkt.msgSize..] == bytes;
      }
      started := Some(S.Exec(pkt.reqNum, pkt.reqType, slots[i].req.value.Contents()));
    }

    method ProcessLargeReqOneSt(i: nat, pkt: Pkt, mem: Option<seq<byte>>) returns (started: Option<S.Exec>)
      requires i < slots.Length && S.LargeReqOk(p, slots[i], pkt, mem)
      modifies this, slots
      ensures Did(i, S.ProcessLargeReq(p, old(slots[i]), pkt, mem))
      ensures started == S.ProcessLargeReq(p, old(slots[i]), pkt, mem).started
    {
      hide NumPkts, CopyOk, CopyData;
      started := None;
      var k := p.dataPerPkt;
      var isNext := pkt.reqNum == slots[i].curReq && pkt.pktNum == slots[i].numRx;
      var isFirst := pkt.reqNum == slots[i].curReq + p.window && pkt.pktNum == 0;
      if !isNext && !isFirst {
        if pkt.reqNum != slots[i].curReq || pkt.pktNum > slots[i].numRx { return; }
        if pkt.pktNum != NumPkts(k, pkt.msgSize) - 1 {
          sent := sent + [S.CrPkt(pkt)];
          return;
        }
        ResendFirstSt(i);
        return;
      }
      if pkt.pktNum == 0 {
        slots[i] := slots[i].(tx := None);
        slots[i] := slots[i].(req := Some(S.FreshBuf(p, mem.value)));
        slots[i] := slots[i].(curReq := pkt.reqNum, numRx := 1);
      } else {
        slots[i] := slots[i].(numRx := slots[i].numRx + 1);
      }
      if pkt.pktNum != slots[i].req.value.numPkts - 1 {
        sent := sent + [S.CrPkt(pkt)];
      }
      slots[i] := slots[i].(req := Some(CopyData(k, slots[i].req.value, pkt.pktNum, pkt)));
      CopyFrame(k, S.Located(p, old(slots[i]), pkt, mem).req.value, pkt.pktNum, pkt);
      if slots[i].numRx != slots[i].req.value.numPkts { return; }
      started := Some(S.Exec(pkt.reqNum, pkt.reqType, slots[i].req.value.Contents()));
      slots[i] := slots[i].(reqType := Some(pkt.reqType));
    }

    method ProcessRfrSt(i: nat, pkt: Pkt)
      requires i < slots.Length && S.RfrOk(p, slots[i], pkt)
      modifies this, slots
      ensures Did(i, S.ProcessRfr(p, old(slots[i]), pkt))
    {
      if pkt.reqNum < slots[i].curReq { return; }
      if pkt.pktNum > slots[i].numRx { return; }
      var idx := RespNtoi(pkt.pktNum, slots[i].savNumReqPkts);
      sent := sent + [S.RespPkt(p, slots[i].tx.value, idx)];
      if pkt.pktNum == slots[i].numRx {
        slots[i] := slots[i].(numRx := slots[i].numRx + 1);
      }
    }

    method EnqueueResponseSt(i: nat, data: seq<byte>)
      requires i < slots.Length && S.ResponseOk(slots[i])
      modifies this, slots
      ensures Did(i, S.EnqueueResponse(p, old(slots[i]), data))
    {
      slots[i] := slots[i].(savNumReqPkts := slots[i].req.value.numPkts);
      slots[i] := slots[i].(req := None);
      var r := S.Response(slots[i].reqType.value, PktNumField(slots[i].savNumReqPkts - 1), slots[i].curReq, data);
      slots[i] := slots[i].(tx := Some(r), reqType := None);
      sent := sent + [S.RespPkt(p, r, 0)];
    }
  }
}
