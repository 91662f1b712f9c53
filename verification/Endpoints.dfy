/** The two endpoint classes of a session, joined by the network: whatever events happen, in
    any order, each handler is called within its contract and the pair of objects makes
    exactly the steps of the protocol. */
module Endpoints {
  import opened Wire
  import opened ClientSpec
  import opened Protocol
  import opened ProtocolProof
  import C = ClientSession
  import V = ServerSession
  import S = ServerSpec

  class Pair {
    const p: Config
    const client: C.Session
    const server: V.Session
    ghost var up: set<Pkt>
    ghost var down: set<Pkt>
    ghost var h: Hist

    ghost function View(): Sys
      reads this, client, client.slots, client.list, server, server.slots
    {
      Sys(client.View(), server.slots[..], up, down, h)
    }

    ghost predicate Valid()
      reads this, client, client.slots, client.list, client.list.next, client.list.prev, server, server.slots
    {
      client.p == p && server.p == p && client.Linked() && Inv(p, View())
    }

    constructor (p: Config)
      ensures Valid() && this.p == p && View() == Init(p)
    {
      this.p := p;
      client := new C.Session(p);
      server := new V.Session(p);
      up, down, h := {}, {}, Init(p).h;
      new;
      InitKeeps(p);
    }

    /** No assertion failed, and the state is that after the event. */
    twostate predicate Stepped(e: Event)
      reads this, client, client.slots, client.list, server, server.slots
    {
      Safe(p, old(View()), e) && View() == Step(p, old(View()), e)
    }

    method Issue(req: Request, u: bool)
      requires Valid() && Enabled(p, View(), Event.Issue(req, u))
      modifies this, client, client.slots, client.list, client.list.next, client.list.prev
      ensures Valid() && Stepped(Event.Issue(req, u))
    {
      hide Inv, Step, Safe, EnqueueRequest, EnqueueOk, Issued, Finished;
      StepKeeps(p, View(), Event.Issue(req, u));
      FreeIsInactive(p, View());
      IssueStep(p, View(), req, u);
      ghost var out := EnqueueRequest(p, client.View(), req, u);
      ghost var before := server.slots[..];
      var issued := client.EnqueueRequestSt(req, u);
      assert client.View() == out.cl && server.slots[..] == before;
      up := up + ToSet(out.sent);
      h := Issued(Finished(h, out.done), out.issued);
    }

    method RespArrives(pkt: Pkt, u: bool)
      requires Valid() && Enabled(p, View(), Event.ToClient(pkt, u)) && pkt.kind == Resp
      modifies this, client, client.slots, client.list, client.list.next, client.list.prev
      ensures Valid() && Stepped(Event.ToClient(pkt, u))
    {
      hide Inv, Step, Safe, ProcessResp, RespOk, InOrderClient, Issued, Finished;
      StepKeeps(p, View(), Event.ToClient(pkt, u));
      InOrderIsActive(p, View(), pkt);
      RespStepIs(p, View(), pkt, u);
      var i := SlotOf(p, pkt.reqNum);
      ghost var out := ProcessResp(p, client.View(), i, pkt, u);
      ghost var before := server.slots[..];
      var issued, done := client.ProcessRespOneSt(i, pkt, u);
      assert client.View() == out.cl && server.slots[..] == before;
      up := up + ToSet(out.sent);
      h := Issued(Finished(h, out.done), out.issued);
    }

    method CreditArrives(pkt: Pkt, u: bool)
      requires Valid() && Enabled(p, View(), Event.ToClient(pkt, u)) && pkt.kind == ExplCr
      modifies this, client, client.slots
      ensures Valid() && Stepped(Event.ToClient(pkt, u))
    {
      hide Inv, Step, Safe, ProcessExplCr, ExplCrOk, Issued, Finished;
      StepKeeps(p, View(), Event.ToClient(pkt, u));
      ExplCrStep(p, View(), pkt, u);
      var i := SlotOf(p, pkt.reqNum);
      ghost var out := ProcessExplCr(p, client.View(), i, pkt, u);
      ghost var before := server.slots[..];
      client.ProcessExplCrSt(i, pkt, u);
      assert client.View() == out.cl && server.slots[..] == before;
      up := up + ToSet(out.sent);
      h := Issued(Finished(h, out.done), out.issued);
    }

    /** The client's switch on the type of a received packet. */
    method ToClient(pkt: Pkt, u: bool)
      requires Valid() && Enabled(p, View(), Event.ToClient(pkt, u))
      modifies this, client, client.slots, client.list, client.list.next, client.list.prev
      ensures Valid() && Stepped(Event.ToClient(pkt, u))
    {
      DownFacts(p, View(), pkt);
      hide BaseInv, Safe, Step;
      if pkt.kind == Resp {
        RespArrives(pkt, u);
      } else {
        CreditArrives(pkt, u);
      }
    }

    /** The server's switch on the type and size of a received packet. */
    method ToServer(pkt: Pkt, mem: Option<seq<byte>>)
      requires Valid() && Enabled(p, View(), Event.ToServer(pkt, mem))
      requires Provided(p, View(), Event.ToServer(pkt, mem))
      modifies this, server, server.slots
      ensures Valid() && Stepped(Event.ToServer(pkt, mem))
    {
      hide Inv, Started, S.SmallReqOk, S.LargeReqOk, S.RfrOk, S.ProcessSmallReq, S.ProcessLargeReq, S.ProcessRfr;
      StepKeeps(p, View(), Event.ToServer(pkt, mem));
      var i := SlotOf(p, pkt.reqNum);
      ghost var out := if pkt.kind == Req then S.ProcessReq(p, server.slots[i], pkt, mem)
                       else S.ProcessRfr(p, server.slots[i], pkt);
      if pkt.kind == Req {
        if pkt.msgSize <= p.dataPerPkt {
          var started := server.ProcessSmallReqSt(i, pkt, mem);
        } else {
          var started := server.ProcessLargeReqOneSt(i, pkt, mem);
        }
      } else {
        server.ProcessRfrSt(i, pkt);
      }
      down := down + ToSet(out.sent);
      h := Started(h, out.started);
    }

    method Reply(i: nat, data: seq<byte>)
      requires Valid() && Enabled(p, View(), Event.Reply(i, data))
      modifies this, server, server.slots
      ensures Valid() && Stepped(Event.Reply(i, data))
    {
      hide Inv, S.EnqueueResponse, S.ResponseOk;
      StepKeeps(p, View(), Event.Reply(i, data));
      ghost var out, r := S.EnqueueResponse(p, server.slots[i], data), server.slots[i].curReq;
      server.EnqueueResponseSt(i, data);
      down := down + ToSet(out.sent);
      h := Started(h, out.started);
      h := h.(replies := h.replies[r := data]);
    }

    method ServeStalled(u: bool)
      requires Valid()
      modifies this, client, client.slots
      ensures Valid() && Stepped(Event.ServeStalled(u))
    {
      hide Inv, StallOk;
      StepKeeps(p, View(), Event.ServeStalled(u));
      ghost var out := ProcessStallQueue(p, client.View(), u);
      client.ProcessCreditStallQueueSt(u);
      up := up + ToSet(out.sent);
    }

    method FromWheel(i: nat, pktNum: nat)
      requires Valid() && Enabled(p, View(), Event.FromWheel(i, pktNum))
      modifies this, client, client.slots
      ensures Valid() && Stepped(Event.FromWheel(i, pktNum))
    {
      hide Inv;
      StepKeeps(p, View(), Event.FromWheel(i, pktNum));
      ghost var out := WheelTx(p, client.View(), i, pktNum);
      client.WheelTxSt(i, pktNum);
      up := up + ToSet(out.sent);
    }

    method Scan(expired: set<nat>, u: bool)
      requires Valid()
      modifies this, client, client.slots
      ensures Valid() && Stepped(Event.Scan(expired, u))
    {
      hide Inv, ScanOk;
      StepKeeps(p, View(), Event.Scan(expired, u));
      ghost var out := PktLossScan(p, client.View(), expired, u);
      client.PktLossScanSt(expired, u);
      up := up + ToSet(out.sent);
    }

    /** Any enabled event that does not starve the server of a buffer. */
    method Do(e: Event)
      requires Valid() && Enabled(p, View(), e) && Provided(p, View(), e)
      modifies this, client, client.slots, client.list, client.list.next, client.list.prev, server, server.slots
      ensures Valid() && Stepped(e)
    {
      hide Inv, Enabled, Safe, Step, Provided;
      match e
      case Issue(req, u) => Issue(req, u);
      case ToServer(pkt, mem) => ToServer(pkt, mem);
      case ToClient(pkt, u) => ToClient(pkt, u);
      case Reply(i, data) => Reply(i, data);
      case ServeStalled(u) => ServeStalled(u);
      case FromWheel(i, pktNum) => FromWheel(i, pktNum);
      case Scan(expired, u) => Scan(expired, u);
    }
  }

  /** The steps of the client's events are those of its handlers. */
  lemma IssueStep(p: Config, s: Sys, req: Request, u: bool)
    requires Safe(p, s, Issue(req, u))
    ensures EnqueueOk(p, s.cl, req) && Step(p, s, Issue(req, u)) == ClientDid(s, EnqueueRequest(p, s.cl, req, u))
  {
  }

  lemma ExplCrStep(p: Config, s: Sys, pkt: Pkt, u: bool)
    requires Safe(p, s, ToClient(pkt, u)) && pkt.kind == ExplCr
    ensures var i := SlotOf(p, pkt.reqNum);
      ExplCrOk(p, s.cl, i, pkt) && Step(p, s, ToClient(pkt, u)) == ClientDid(s, ProcessExplCr(p, s.cl, i, pkt, u))
  {
  }

  lemma RespStepIs(p: Config, s: Sys, pkt: Pkt, u: bool)
    requires Safe(p, s, ToClient(pkt, u)) && pkt.kind == Resp
    ensures var i := SlotOf(p, pkt.reqNum);
      && RespOk(p, s.cl, i, pkt) && Step(p, s, ToClient(pkt, u)) == ClientDid(s, ProcessResp(p, s.cl, i, pkt, u))
      && |s.cl.slots| > i && |s.cl.slots[i].inWheel| == p.credits
  {
  }

  /** The next free slot is not on the active list. */
  lemma FreeIsInactive(p: Config, s: Sys)
    requires Inv(p, s)
    ensures s.cl.free != [] ==> Last(s.cl.free) < p.window && Last(s.cl.free) !in s.cl.active
  {
    hide PairsInv, StallInv;
    if s.cl.free != [] {
      assert Last(s.cl.free) in s.cl.free;
    }
  }

  /** A slot that accepts a packet is on the active list. */
  lemma InOrderIsActive(p: Config, s: Sys, pkt: Pkt)
    requires Inv(p, s)
    ensures |s.cl.slots| == p.window
    ensures InOrderAt(p, s, pkt) ==> SlotOf(p, pkt.reqNum) in s.cl.active
  {
    hide StallInv;
    SlotFacts(p, s, SlotOf(p, pkt.reqNum));
  }
}
