/** The client endpoint in the form the program has it: session state updated in place by
    event-loop handlers, with the active slots on their linked list. Each handler computes
    exactly its function in `ClientSpec`. */
module ClientSession {
  import opened Wire
  import opened ClientSpec
  import A = ActiveList
  import ListFacts

  lemma SendReqCan(p: Config, g: Kick, n: nat, bypass: bool)
    requires CanSendReq(p, g, n) && n > 0
    ensures CanSendReq(p, g, 1) && CanSendReq(p, SendReq(p, g, bypass), n - 1)
  {
  }

  lemma SendReqAppend(p: Config, g: Kick, bypass: bool, before: seq<Pkt>)
    requires CanSendReq(p, g, 1)
    ensures SendReq(p, g.(sent := before + g.sent), bypass) ==
            SendReq(p, g, bypass).(sent := before + SendReq(p, g, bypass).sent)
  {
  }

  /** Earlier packets stay in front of what the credit-spending loops send. */
  lemma {:induction false} SendReqsAppend(p: Config, g: Kick, n: nat, bypass: bool, before: seq<Pkt>)
    requires CanSendReq(p, g, n)
    ensures SendReqs(p, g.(sent := before + g.sent), n, bypass) ==
            SendReqs(p, g, n, bypass).(sent := before + SendReqs(p, g, n, bypass).sent)
    decreases n
  {
    if n > 0 {
      var g' := SendReq(p, g, bypass);
      SendReqAppend(p, g, bypass, before);
      SendReqCan(p, g, n, bypass);
      hide SendReq;
      SendReqsAppend(p, g', n - 1, bypass, before);
    }
  }

  lemma {:induction false} SendRfrsAppend(g: Kick, n: nat, before: seq<Pkt>)
    requires n <= g.credits
    ensures SendRfrs(g.(sent := before + g.sent), n) == SendRfrs(g, n).(sent := before + SendRfrs(g, n).sent)
    decreases n
  {
    if n > 0 {
      var g' := SendRfr(g);
      assert SendRfr(g.(sent := before + g.sent)) == g'.(sent := before + g'.sent);
      SendRfrsAppend(g', n - 1, before);
    }
  }

  /** One iteration of the loop over the stall queue. */
  lemma StallNext(p: Config, cl: Client, q: seq<nat>, k: nat, kept: seq<nat>, sent: seq<Pkt>, u: bool)
    requires k < |q| && StallOk(p, cl, q[k..], u)
    ensures q[k] < |cl.slots|
    ensures cl.credits > 0 ==>
      && KickOk(p, cl.credits, cl.slots[q[k]])
      && var g := KickAny(p, cl.credits, cl.slots[q[k]], u);
         && StallOk(p, WithKick(cl, q[k], g), q[k + 1..], u)
         && StallLoop(p, cl, q[k..], kept, sent, u) ==
            StallLoop(p, WithKick(cl, q[k], g), q[k + 1..], kept, sent + g.sent, u)
    ensures cl.credits == 0 ==>
      && StallOk(p, cl, q[k + 1..], u)
      && StallLoop(p, cl, q[k..], kept, sent, u) == StallLoop(p, cl, q[k + 1..], kept + [q[k]], sent, u)
  {
    hide KickOk, KickAny;
    assert q[k..][0] == q[k] && q[k..][1..] == q[k + 1..];
  }

  lemma StallEnd(p: Config, cl: Client, kept: seq<nat>, sent: seq<Pkt>, u: bool)
    ensures StallLoop(p, cl, [], kept, sent, u) == ClientOut(cl.(stallq := kept), sent, None, None)
  {
  }

  /** One iteration of the loss scan. */
  lemma ScanNext(p: Config, cl: Client, list: seq<nat>, k: nat, expired: set<nat>, sent: seq<Pkt>, u: bool)
    requires k < |list| && ScanOk(p, cl, list[k..], expired, u)
    ensures list[k] < |cl.slots|
    ensures if ScanRetransmits(cl, list[k], expired) then
      && RetransmitOk(p, cl, list[k])
      && var out := Retransmit(p, cl, list[k], u);
         && ScanOk(p, out.cl, list[k + 1..], expired, u)
         && ScanLoop(p, cl, list[k..], expired, sent, u) ==
            ScanLoop(p, out.cl, list[k + 1..], expired, sent + out.sent, u)
    else
      && ScanOk(p, cl, list[k + 1..], expired, u)
      && ScanLoop(p, cl, list[k..], expired, sent, u) == ScanLoop(p, cl, list[k + 1..], expired, sent, u)
  {
    hide RetransmitOk, Retransmit;
    assert list[k..][0] == list[k] && list[k..][1..] == list[k + 1..];
  }

  lemma ScanEnd(p: Config, cl: Client, expired: set<nat>, sent: seq<Pkt>, u: bool)
    ensures ScanLoop(p, cl, [], expired, sent, u) == ClientOut(cl, sent, None, None)
  {
  }

  /** A slot that is just filled in can send. */
  lemma ActivatedOk(p: Config, s: ClientSlot, r: Request, credits: nat)
    requires |s.inWheel| == p.credits && credits > 0
    ensures KickReqOk(p, credits, Activated(p, s, r))
  {
  }

  class Session {
    const p: Config
    const slots: array<ClientSlot>
    var credits: nat
    var free: seq<nat>
    var backlog: seq<Request>
    var stallq: seq<nat>
    const list: A.List          // the active slots
    var sent: seq<Pkt>          // everything handed to the transport

    ghost function View(): Client
      reads this, slots, list
    {
      Client(credits, slots[..], free, backlog, stallq, list.order)
    }

    /** The list links slots of this session. */
    ghost predicate Linked()
      reads this, list, list.next, list.prev
    {
      list.n == p.window && list.Valid()
    }

    constructor (p: Config)
      ensures this.p == p && fresh(slots) && View() == InitClient(p) && sent == []
      ensures Linked() && fresh(list) && fresh(list.next) && fresh(list.prev)
    {
      this.p := p;
      slots := new ClientSlot[p.window](i requires 0 <= i => InitSlot(p, i));
      credits := p.credits;
      free := seq(p.window, i requires 0 <= i < p.window => p.window - 1 - i as nat);
      backlog, stallq, sent := [], [], [];
      list := new A.List(p.window);
      new;
      assert slots[..] == InitClient(p).slots;
    }

    /** Put one request packet in the timing wheel. */
    method EnqueueWheelReq(i: nat, pktNum: nat)
      requires i < slots.Length && |slots[i].inWheel| == p.credits
      modifies slots
      ensures slots[..] == old(slots[..])[i := AddToWheel(p, old(slots[i]), pktNum)]
    {
      var s := slots[i];
      slots[i] := s.(inWheel := s.inWheel[pktNum % p.credits := true], wheelCount := s.wheelCount + 1,
                     wheel := s.wheel + multiset{pktNum});
    }

    /** Send or pace the next request packet of a slot, for one credit. */
    method SendReqSt(i: nat, bypass: bool)
      requires i < slots.Length && CanSendReq(p, Kick(credits, slots[i], sent), 1)
      modifies this`credits, this`sent, slots
      ensures Kick(credits, slots[i], sent) == SendReq(p, Kick(old(credits), old(slots[i]), old(sent)), bypass)
      ensures forall j :: 0 <= j < slots.Length && j != i ==> slots[j] == old(slots[j])
    {
      if bypass {
        sent := sent + [ReqPkt(p, slots[i].tx.value, slots[i].curReq, slots[i].numTx)];
      } else {
        EnqueueWheelReq(i, slots[i].numTx);
      }
      slots[i] := slots[i].(numTx := slots[i].numTx + 1);
      credits := credits - 1;
    }

    method SendReqsSt(i: nat, sending: nat, bypass: bool)
      requires i < slots.Length && CanSendReq(p, Kick(credits, slots[i], sent), sending)
      modifies this`credits, this`sent, slots
      ensures Kick(credits, slots[i], sent) ==
              SendReqs(p, Kick(old(credits), old(slots[i]), old(sent)), sending, bypass)
      ensures forall j :: 0 <= j < slots.Length && j != i ==> slots[j] == old(slots[j])
    {
      hide SendReq, CanSendReq;
      var x := 0;
      while x < sending
        invariant 0 <= x <= sending
        invariant forall j :: 0 <= j < slots.Length && j != i ==> slots[j] == old(slots[j])
        invariant CanSendReq(p, Kick(credits, slots[i], sent), sending - x)
        invariant SendReqs(p, Kick(credits, slots[i], sent), sending - x, bypass)
               == SendReqs(p, Kick(old(credits), old(slots[i]), old(sent)), sending, bypass)
      {
        SendReqCan(p, Kick(credits, slots[i], sent), sending - x, bypass);
        SendReqSt(i, bypass);
        x := x + 1;
      }
    }

    method KickReqSt(i: nat, uncongested: bool)
      requires i < slots.Length && KickReqOk(p, credits, slots[i])
      modifies this`credits, this`sent, slots
      ensures View() == WithKick(old(View()), i, KickReq(p, old(credits), old(slots[i]), uncongested))
      ensures sent == old(sent) + KickReq(p, old(credits), old(slots[i]), uncongested).sent
    {
      hide SendReqs, NumPkts;
      var sending := Min(credits, ReqPkts(p, slots[i].tx.value) - slots[i].numTx);
      var bypass := slots[i].wheelCount == 0 && uncongested;
      assert sent + [] == sent;
      SendReqsAppend(p, Kick(credits, slots[i], []), sending, bypass, sent);
      SendReqsSt(i, sending, bypass);
      assert slots[..] == old(slots[..])[i := slots[i]];
    }

    method SendRfrsSt(i: nat, sending: nat)
      requires i < slots.Length && sending <= credits
      modifies this`credits, this`sent, slots
      ensures Kick(credits, slots[i], sent) == SendRfrs(Kick(old(credits), old(slots[i]), old(sent)), sending)
      ensures forall j :: 0 <= j < slots.Length && j != i ==> slots[j] == old(slots[j])
    {
      var x := 0;
      while x < sending
        invariant 0 <= x <= sending && sending - x <= credits
        invariant forall j :: 0 <= j < slots.Length && j != i ==> slots[j] == old(slots[j])
        invariant SendRfrs(Kick(credits, slots[i], sent), sending - x)
               == SendRfrs(Kick(old(credits), old(slots[i]), old(sent)), sending)
      {
        ghost var g := Kick(credits, slots[i], sent);
        sent := sent + [RfrPkt(slots[i].resp, slots[i].numTx)];
        slots[i] := slots[i].(numTx := slots[i].numTx + 1);
        credits := credits - 1;
        assert Kick(credits, slots[i], sent) == SendRfr(g);
        x := x + 1;
      }
    }

    method KickRfrSt(i: nat)
      requires i < slots.Length && KickRfrOk(p, credits, slots[i])
      modifies this`credits, this`sent, slots
      ensures View() == WithKick(old(View()), i, KickRfr(p, old(credits), old(slots[i])))
      ensures sent == old(sent) + KickRfr(p, old(credits), old(slots[i])).sent
    {
      hide SendRfrs, NumPkts;
      var sending := Min(credits, SlotWirePkts(p, slots[i]) - slots[i].numTx);
      assert sent + [] == sent;
      SendRfrsAppend(Kick(credits, slots[i], []), sending, sent);
      SendRfrsSt(i, sending);
      assert slots[..] == old(slots[..])[i := slots[i]];
    }

    method KickSt(i: nat, uncongested: bool)
      requires i < slots.Length && KickOk(p, credits, slots[i])
      modifies this`credits, this`sent, slots
      ensures View() == WithKick(old(View()), i, KickAny(p, old(credits), old(slots[i]), uncongested))
      ensures sent == old(sent) + KickAny(p, old(credits), old(slots[i]), uncongested).sent
    {
      if slots[i].numTx < ReqPkts(p, slots[i].tx.value) {
        KickReqSt(i, uncongested);
      } else {
        KickRfrSt(i);
      }
    }

    /** The state is that of `out`, and its packets have been sent. */
    twostate predicate Did(out: ClientOut)
      reads this, slots, list
    {
      View() == out.cl && sent == old(sent) + out.sent
    }

    method EnqueueRequestSt(r: Request, uncongested: bool) returns (issued: Option<(nat, Request)>)
      requires EnqueueOk(p, View(), r)
      requires Linked() && (free != [] ==> Last(free) < p.window && Last(free) !in list.order)
      modifies this, slots, list, list.next, list.prev
      ensures Linked() && Did(EnqueueRequest(p, old(View()), r, uncongested))
      ensures issued == EnqueueRequest(p, old(View()), r, uncongested).issued
    {
      hide KickReq, KickReqOk, NumPkts, ReqPkts;
      if |free| == 0 {
        backlog := backlog + [r];
        return None;
      }
      var i := free[|free| - 1];
      free := free[..|free| - 1];
      slots[i] := slots[i].(tx := Some(r), curReq := slots[i].curReq + p.window);
      slots[i] := slots[i].(resp := r.resp);
      list.Add(i);
      slots[i] := slots[i].(numRx := 0, numTx := 0);
      issued := Some((slots[i].curReq, r));
      assert slots[..] == old(slots[..])[i := Activated(p, old(slots[i]), r)];
      if credits > 0 {
        ActivatedOk(p, old(slots[i]), r, credits);
        KickReqSt(i, uncongested);
      } else {
        stallq := stallq + [i];
      }
    }

    /** The end of response processing: the slot is released and perhaps reused. */
    method CompleteSt(i: nat, uncongested: bool) returns (issued: Option<(nat, Request)>, done: Completion)
      requires CompleteOk(p, View(), i)
      requires Linked() && i in list.order
      modifies this, slots, list, list.next, list.prev
      ensures Linked() && Did(Complete(p, old(View()), i, uncongested))
      ensures issued == Complete(p, old(View()), i, uncongested).issued
      ensures Some(done) == Complete(p, old(View()), i, uncongested).done
    {
      done := Completion(slots[i].curReq, slots[i].resp.Contents());
      slots[i] := slots[i].(tx := None);
      ListFacts.UnlinkFacts(list.order, i);
      list.Delete(i);
      free := free + [i];
      issued := None;
      assert View() == Released(old(View()), i);
      if |backlog| > 0 {
        issued := EnqueueRequestSt(backlog[0], uncongested);
        backlog := backlog[1..];
      }
    }

    method ProcessExplCrSt(i: nat, pkt: Pkt, uncongested: bool)
      requires ExplCrOk(p, View(), i, pkt)
      modifies this, slots
      ensures Did(ProcessExplCr(p, old(View()), i, pkt, uncongested))
    {
      if !InOrderClient(p, slots[i], pkt) { return; }
      credits := credits + 1;
      slots[i] := slots[i].(numRx := slots[i].numRx + 1);
      assert View() == Accepted(old(View()), i);
      if slots[i].numTx < ReqPkts(p, slots[i].tx.value) {
        KickReqSt(i, uncongested);
      }
    }

    /** Ask for the rest of a large response, then store this packet's data. */
    method PullSt(i: nat, pkt: Pkt) returns (complete: bool)
      requires i < slots.Length && PullOk(p, credits, slots[i], pkt)
      modifies this`credits, this`sent, slots
      ensures View() == WithKick(old(View()), i, Pull(p, old(credits), old(slots[i]), pkt))
      ensures sent == old(sent) + Pull(p, old(credits), old(slots[i]), pkt).sent
      ensures slots[i].tx.Some? && complete == (slots[i].numRx == SlotWirePkts(p, slots[i]))
    {
      if slots[i].numTx != SlotWirePkts(p, slots[i]) {
        KickRfrSt(i);
      }
      var idx := RespNtoi(pkt.pktNum, ReqPkts(p, slots[i].tx.value));
      slots[i] := slots[i].(resp := CopyData(p.dataPerPkt, slots[i].resp, idx, pkt));
      assert slots[..] == old(slots[..])[i := slots[i]];
      complete := slots[i].numRx == SlotWirePkts(p, slots[i]);
    }

    /** Store an in-order response packet; `complete` when the whole response is there. */
    method StoreRespSt(i: nat, pkt: Pkt) returns (complete: bool)
      requires i < slots.Length
      requires if pkt.msgSize <= p.dataPerPkt then pkt.msgSize <= |slots[i].resp.mem| && pkt.msgSize <= |pkt.data|
               else SizedOk(p, slots[i], pkt) && PullOk(p, credits, Sized(p, slots[i], pkt), pkt)
      modifies this`credits, this`sent, slots
      ensures var c := old(slots[i]);
              if pkt.msgSize <= p.dataPerPkt then
                && complete && sent == old(sent)
                && View() == WithKick(old(View()), i,
                                      Kick(old(credits), c.(resp := StoreSmall(p.dataPerPkt, c.resp, pkt)), []))
              else
                var g := Pull(p, old(credits), Sized(p, c, pkt), pkt);
                && View() == WithKick(old(View()), i, g) && sent == old(sent) + g.sent
                && g.slot.tx.Some? && complete == (g.slot.numRx == SlotWirePkts(p, g.slot))
    {
      hide Pull, PullOk, StoreSmall, SizeLarge, NumPkts;
      if pkt.msgSize <= p.dataPerPkt {
        slots[i] := slots[i].(resp := StoreSmall(p.dataPerPkt, slots[i].resp, pkt));
        complete := true;
      } else {
        if pkt.pktNum == ReqPkts(p, slots[i].tx.value) - 1 {
          slots[i] := slots[i].(resp := SizeLarge(p.dataPerPkt, slots[i].resp, pkt));
        }
        complete := PullSt(i, pkt);
      }
    }

    method ProcessRespOneSt(i: nat, pkt: Pkt, uncongested: bool)
      returns (issued: Option<(nat, Request)>, done: Option<Completion>)
      requires RespOk(p, View(), i, pkt)
      requires Linked() && (InOrderClient(p, slots[i], pkt) ==> i in list.order)
      modifies this, slots, list, list.next, list.prev
      ensures Linked() && Did(ProcessResp(p, old(View()), i, pkt, uncongested))
      ensures issued == ProcessResp(p, old(View()), i, pkt, uncongested).issued
      ensures done == ProcessResp(p, old(View()), i, pkt, uncongested).done
    {
      hide Pull, PullOk, CompleteOk, Complete, StoreSmall, NumPkts;
      issued, done := None, None;
      if !InOrderClient(p, slots[i], pkt) { return; }
      credits := credits + 1;
      slots[i] := slots[i].(numRx := slots[i].numRx + 1);
      assert View() == Accepted(old(View()), i);
      var complete := StoreRespSt(i, pkt);
      if !complete { return; }
      var d;
      issued, d := CompleteSt(i, uncongested);
      done := Some(d);
    }

    /** Serve the stall queue, compacting it in place. */
    method ProcessCreditStallQueueSt(uncongested: bool)
      requires StallOk(p, View(), stallq, uncongested)
      modifies this, slots
      ensures Did(ProcessStallQueue(p, old(View()), uncongested))
    {
      hide KickOk, KickAny, NumPkts, StallOk, StallLoop;
      ghost var q, out := stallq, [];
      assert q[0..] == q;
      var writeIndex, k := 0, 0;
      while k < |stallq|
        invariant 0 <= writeIndex <= k <= |stallq| == |q|
        invariant stallq[k..] == q[k..] && sent == old(sent) + out
        invariant free == old(free) && backlog == old(backlog)
        invariant StallOk(p, View().(stallq := q), q[k..], uncongested)
        invariant StallLoop(p, View().(stallq := q), q[k..], stallq[..writeIndex], out, uncongested)
               == ProcessStallQueue(p, old(View()), uncongested)
      {
        var i := stallq[k];
        assert stallq[k..][0] == q[k..][0];
        StallNext(p, View().(stallq := q), q, k, stallq[..writeIndex], out, uncongested);
        if credits > 0 {
          ghost var before := View().(stallq := q);
          ghost var g := KickAny(p, credits, slots[i], uncongested);
          KickSt(i, uncongested);
          out := out + g.sent;
          assert View().(stallq := q) == WithKick(before, i, g);
        } else {
          assert stallq[..writeIndex] + [i] == stallq[writeIndex := i][..writeIndex + 1];
          stallq := stallq[writeIndex := i];
          writeIndex := writeIndex + 1;
        }
        k := k + 1;
      }
      assert q[k..] == [];
      StallEnd(p, View().(stallq := q), stallq[..writeIndex], out, uncongested);
      stallq := stallq[..writeIndex];
    }

    /** Transmit one packet from the wheel's ready queue. */
    method WheelTxSt(i: nat, pktNum: nat)
      requires WheelTxOk(p, View(), i, pktNum)
      modifies this, slots
      ensures Did(WheelTx(p, old(View()), i, pktNum))
    {
      var s := slots[i];
      if pktNum < ReqPkts(p, s.tx.value) {
        sent := sent + [ReqPkt(p, s.tx.value, s.curReq, pktNum)];
      } else {
        sent := sent + [RfrPkt(s.resp, s.numTx)];
      }
      slots[i] := s.(wheelCount := s.wheelCount - 1, inWheel := s.inWheel[pktNum % p.credits := false],
                     wheel := s.wheel - multiset{pktNum});
    }

    method PktLossRetransmitSt(i: nat, uncongested: bool)
      requires RetransmitOk(p, View(), i)
      modifies this`credits, this`sent, slots
      ensures Did(Retransmit(p, old(View()), i, uncongested))
    {
      var delta := slots[i].numTx - slots[i].numRx;
      if delta == 0 { return; }
      if slots[i].wheelCount > 0 { return; }
      credits := credits + delta;
      slots[i] := slots[i].(numTx := slots[i].numRx);
      KickSt(i, uncongested);
      assert slots[..] == old(slots[..])[i := slots[i]];
    }

    /** Walk the active list and retransmit for the slots whose timer has expired. */
    method PktLossScanSt(expired: set<nat>, uncongested: bool)
      requires Linked() && ScanOk(p, View(), list.order, expired, uncongested)
      modifies this`credits, this`sent, slots
      ensures Did(PktLossScan(p, old(View()), expired, uncongested))
    {
      hide RetransmitOk, Retransmit, A.LinkAt, ScanOk, ScanLoop;
      ghost var order, k, out := list.order, 0, [];
      assert order[0..] == order;
      var cur := list.First();
      while cur != p.window + 1
        invariant 0 <= k <= |order| && sent == old(sent) + out
        invariant cur == list.Chain()[k + 1] && (k < |order| ==> cur == order[k] && cur in order)
        invariant ScanOk(p, View(), order[k..], expired, uncongested)
        invariant ScanLoop(p, View(), order[k..], expired, out, uncongested)
               == PktLossScan(p, old(View()), expired, uncongested)
        decreases |order| - k
      {
        assert k < |order|;
        ScanNext(p, View(), order, k, expired, out, uncongested);
        if slots[cur].numTx != slots[cur].numRx && cur in expired {
          out := out + Retransmit(p, View(), cur, uncongested).sent;
          PktLossRetransmitSt(cur, uncongested);
        }
        cur := list.After(cur, k);
        k := k + 1;
      }
      assert order[k..] == [];
      ScanEnd(p, View(), expired, out, uncongested);
    }
  }
}
