/** A request of one packet on a session that is otherwise quiet, and its empty reply, when
    nothing is lost. */
module LoneRpc {
  import opened Wire
  import opened ClientSpec
  import opened Protocol
  import opened ProtocolProof
  import opened Runs
  import opened Acts
  import opened Progress
  import opened ListFacts
  import AtomicRpc
  import S = ServerSpec

  /** A request of one full packet. */
  function One(p: Config): Request {
    Request(0, seq(p.dataPerPkt, _ => 0), EmptyBuf)
  }

  function NoBytes(): Handlers {
    _ => []
  }

  /** No request is active or backlogged. */
  ghost predicate Quiet(p: Config, s: Sys) {
    Inv(p, s) && Ready(p, NoBytes(), s) && s.cl.active == []
  }

  lemma QuietSlots(p: Config, s: Sys)
    requires Quiet(p, s)
    ensures s.cl.free != [] && s.cl.backlog == [] && s.cl.credits == p.credits
    ensures var i := Last(s.cl.free);
      && i < |s.cl.slots| == p.window
      && s.cl.slots[i].tx.None? && s.cl.slots[i].wheel == multiset{}
      && s.cl.slots[i].wheelCount == 0 && |s.cl.slots[i].inWheel| == p.credits
  {
    hide Ready, PairInv;
    AllFree(p, s);
    assert 0 in s.cl.free;
    forall k: nat | k < p.window
      ensures s.cl.slots[k].tx.None? && s.cl.slots[k].numTx == s.cl.slots[k].numRx
    {
      NoneOutstanding(p, s, k);
    }
    OutstandingZero(s.cl.slots);
    var i := Last(s.cl.free);
    assert i in s.cl.free;
    NoneOutstanding(p, s, i);
  }

  lemma NoneOutstanding(p: Config, s: Sys, k: nat)
    requires Inv(p, s) && k < p.window && s.cl.slots[k].tx.None?
    ensures s.cl.slots[k].numTx == s.cl.slots[k].numRx
    ensures s.cl.slots[k].wheel == multiset{} && s.cl.slots[k].wheelCount == 0
    ensures |s.cl.slots[k].inWheel| == p.credits
  {
    hide ListsInv, StallInv;
    SlotFacts(p, s, k);
    var c := s.cl.slots[k];
    if n :| n in c.wheel {
      assert false;
    }
  }

  /** The request is issued, and all of its packets go at once. */
  lemma IssueActs(p: Config, hdr: nat, s: Sys, r: Request, u: bool)
    requires Quiet(p, s) && 0 < |r.data| <= p.maxMsgSize && ReqPkts(p, r) <= p.credits
    ensures Enabled(p, s, Issue(r, u)) && Keeps(p, s, Issue(r, u))
    ensures EventActs(p, hdr, s, Issue(r, u)) == ReqActs(p, hdr, r, 0, ReqPkts(p, r), u)
  {
    hide Inv, Ready;
    QuietSlots(p, s);
    StepKeeps(p, s, Issue(r, u));
  }

  /** The request of one packet is the only one, and its packet is outstanding. */
  ghost predicate Alone(p: Config, s: Sys, i: nat) {
    && Inv(p, s) && Ready(p, NoBytes(), s) && i < p.window
    && s.cl.active == [i] && s.cl.backlog == []
    && var c := s.cl.slots[i];
       && c.tx == Some(One(p)) && c.numTx == 1 && c.numRx == 0
       && c.curReq in s.h.issued && ReplyTo(NoBytes(), s.h, c.curReq) == []
  }

  /** Its packet is in the wheel. */
  ghost predicate Wheeled(p: Config, s: Sys, i: nat) {
    Alone(p, s, i) && s.cl.slots[i].wheel == multiset{0}
  }

  /** Its packet is in the network. */
  ghost predicate OnWire(p: Config, s: Sys, i: nat) {
    Alone(p, s, i) && s.cl.slots[i].wheel == multiset{} && Asking(p, s.cl.slots[i]) in s.up
  }

  lemma OnePkt(p: Config)
    ensures ReqPkts(p, One(p)) == 1
  {
  }

  lemma IssueOne(p: Config, s: Sys, u: bool)
    requires Quiet(p, s) && p.dataPerPkt <= p.maxMsgSize && Keeps(p, s, Issue(One(p), u))
    ensures var t, i := Step(p, s, Issue(One(p), u)), Last(s.cl.free);
      if u then OnWire(p, t, i) else Wheeled(p, t, i)
  {
    hide Inv, Ready;
    QuietSlots(p, s);
    OnePkt(p);
    var i, t := Last(s.cl.free), Step(p, s, Issue(One(p), u));
    var c := Activated(p, s.cl.slots[i], One(p));
    OneSent(p, s.cl.credits, c, u);
    IssueReady(p, s, u);
  }

  lemma OneSent(p: Config, credits: nat, c: ClientSlot, u: bool)
    requires KickReqOk(p, credits, c) && c.tx == Some(One(p)) && c.numTx == 0
    requires c.wheelCount == 0 && c.wheel == multiset{}
    ensures var g := KickReq(p, credits, c, u);
      && g.slot.wheel == (if u then multiset{} else multiset{0})
      && g.sent == (if u then [ReqPkt(p, One(p), c.curReq, 0)] else [])
      && g.slot.numTx == 1
  {
    OnePkt(p);
    assert SendReqs(p, SendReq(p, Kick(credits, c, []), u), 0, u) == SendReq(p, Kick(credits, c, []), u);
  }

  lemma IssueReady(p: Config, s: Sys, u: bool)
    requires Quiet(p, s) && Safe(p, s, Issue(One(p), u))
    ensures var t, q := Step(p, s, Issue(One(p), u)), s.cl.slots[Last(s.cl.free)].curReq + p.window;
      Ready(p, NoBytes(), t) && q in t.h.issued && ReplyTo(NoBytes(), t.h, q) == []
  {
    hide Inv;
    QuietSlots(p, s);
    var q := s.cl.slots[Last(s.cl.free)].curReq + p.window;
    hide EnqueueRequest;
    AtomicRpc.EnqueueRecords(p, s.cl, One(p), u);
    AtomicRpc.NextIsFresh(p, s, Last(s.cl.free));
    if q in s.h.replies {
      RepliesIssued(p, s, q);
    }
  }

  lemma OneReaches(p: Config, s: Sys, e: Event, t: Sys)
    requires Reaches(p, s, [e], t)
    ensures Enabled(p, s, e) && Safe(p, s, e) && t == Step(p, s, e)
  {
    assert [e][1..] == [];
  }

  /** What later events keep, as long as they leave the request's slot alone. */
  lemma StaysAlone(p: Config, s: Sys, evs: seq<Event>, t: Sys, i: nat)
    requires Alone(p, s, i) && Leads(p, NoBytes(), s, evs, t) && |t.cl.slots| == p.window
    requires t.cl.active == s.cl.active && t.cl.backlog == s.cl.backlog
    requires var c, d := s.cl.slots[i], t.cl.slots[i];
             SameProgress(c, d) && d.numTx == c.numTx
    ensures Alone(p, t, i)
  {
    hide Inv, Ready, Reaches;
  }

  /** The packet leaves the wheel. */
  lemma LeaveOne(p: Config, s: Sys, i: nat)
    requires Wheeled(p, s, i)
    ensures Enabled(p, s, FromWheel(i, 0)) && Safe(p, s, FromWheel(i, 0)) && OnWire(p, Step(p, s, FromWheel(i, 0)), i)
  {
    hide Inv, Ready, SameReplies;
    SlotsOf(p, s);
    OnePkt(p);
    var t := DrainOne(p, NoBytes(), s, i, 0);
    OneReaches(p, s, FromWheel(i, 0), t);
    StaysAlone(p, s, [FromWheel(i, 0)], t, i);
    assert |t.cl.slots[i].wheel| < 1;
  }

  lemma SlotsOf(p: Config, s: Sys)
    requires Inv(p, s)
    ensures |s.cl.slots| == |s.srv| == p.window
  {
  }

  /** The reply is in the network. */
  ghost predicate Served(p: Config, s: Sys, i: nat, pkt: Pkt) {
    Alone(p, s, i) && s.cl.slots[i].wheel == multiset{} && Answered(p, s, i, pkt)
  }

  /** The server gets the packet, and its handler replies. */
  lemma ServeOne(p: Config, s: Sys, i: nat) returns (evs: seq<Event>, t: Sys, pkt: Pkt)
    requires OnWire(p, s, i)
    ensures Reaches(p, s, evs, t) && forall e :: e in evs ==> e.ToServer? || e.Reply?
    ensures Served(p, t, i, pkt)
  {
    hide Inv, Ready, SameReplies, Reaches;
    SlotsOf(p, s);
    evs, t, pkt := Answer(p, NoBytes(), s, i);
    SlotsOf(p, t);
    StaysAlone(p, s, evs, t, i);
  }

  lemma PairReply(
    p: Config, i: nat, c: ClientSlot, sv: S.ServerSlot, up: set<Pkt>, down: set<Pkt>, h: Hist, pkt: Pkt)
    requires PairInv(p, i, c, sv, up, down, h) && pkt in down && SlotOf(p, pkt.reqNum) == i
    requires c.tx == Some(One(p)) && pkt.reqNum == c.curReq
    requires c.curReq in h.issued && ReplyTo(NoBytes(), h, c.curReq) == []
    ensures pkt.kind == Resp && pkt.msgSize == 0
  {
    OnePkt(p);
    assert DownPkt(p, sv, h, pkt);
  }

  lemma ReplyIsEmpty(p: Config, s: Sys, i: nat, pkt: Pkt)
    requires Served(p, s, i, pkt)
    ensures SlotOf(p, pkt.reqNum) == i && InOrderAt(p, s, pkt) && pkt.kind == Resp && pkt.msgSize == 0
  {
    hide Ready, ListsInv, StallInv;
    AnswerInOrder(p, s, i, pkt);
    SlotFacts(p, s, i);
    hide Inv;
    PairReply(p, i, s.cl.slots[i], s.srv[i], s.up, s.down, s.h, pkt);
  }

  /** The client gets the reply: the request is complete, and the session quiet again. */
  lemma TakeOne(p: Config, hdr: nat, s: Sys, i: nat, pkt: Pkt, u: bool)
    requires Served(p, s, i, pkt)
    ensures Enabled(p, s, ToClient(pkt, u)) && Safe(p, s, ToClient(pkt, u)) && InOrderAt(p, s, pkt)
    ensures EventActs(p, hdr, s, ToClient(pkt, u)) == [Free]
    ensures Quiet(p, Step(p, s, ToClient(pkt, u)))
  {
    hide Inv, Ready, SameReplies;
    SlotsOf(p, s);
    ReplyIsEmpty(p, s, i, pkt);
    OneStep(p, NoBytes(), s, ToClient(pkt, u));
  }
}