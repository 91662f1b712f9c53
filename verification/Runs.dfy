/** What holds in every run of a session over an unreliable network. */
module Runs {
  import opened Wire
  import opened ClientSpec
  import opened Protocol
  import opened ProtocolProof
  import opened ClientProof
  import ListFacts
  import S = ServerSpec

  /** The enabled events `evs` lead from `s` to `t` without an assertion failing. */
  ghost predicate Reaches(p: Config, s: Sys, evs: seq<Event>, t: Sys)
    decreases |evs|
  {
    if evs == [] then s == t
    else Enabled(p, s, evs[0]) && Safe(p, s, evs[0]) && Reaches(p, Step(p, s, evs[0]), evs[1..], t)
  }

  /** Some assertion fails while the enabled events `evs` happen. */
  ghost predicate Fails(p: Config, s: Sys, evs: seq<Event>)
    decreases |evs|
  {
    && evs != [] && Enabled(p, s, evs[0])
    && (!Safe(p, s, evs[0]) || Fails(p, Step(p, s, evs[0]), evs[1..]))
  }

  lemma {:induction false} ReachesInv(p: Config, s: Sys, evs: seq<Event>, t: Sys)
    requires Inv(p, s) && Reaches(p, s, evs, t)
    ensures Inv(p, t)
    decreases |evs|
  {
    hide Step, Safe, Enabled, Inv;
    if evs != [] {
      StepKeeps(p, s, evs[0]);
      ReachesInv(p, Step(p, s, evs[0]), evs[1..], t);
    }
  }

  // ---------------------------------------------------------------------------
  // When a run fails
  // ---------------------------------------------------------------------------

  /** The run gets to its event `k` in state `t`, and there the server is to allocate an
      empty buffer or one that there is no memory for. */
  ghost predicate StarvesAt(p: Config, s: Sys, evs: seq<Event>, k: nat, t: Sys) {
    k < |evs| && Reaches(p, s, evs[..k], t) && Enabled(p, t, evs[k]) && !Provided(p, t, evs[k])
  }

  lemma StarvesUnroll(p: Config, s: Sys, evs: seq<Event>, k: nat, t: Sys)
    requires StarvesAt(p, s, evs, k, t)
    ensures evs != [] && Enabled(p, s, evs[0])
    ensures k == 0 ==> !Provided(p, s, evs[0])
    ensures k > 0 ==> Safe(p, s, evs[0]) && StarvesAt(p, Step(p, s, evs[0]), evs[1..], k - 1, t)
  {
    hide Step, Safe, Enabled, Provided;
    if k > 0 {
      assert evs[..k][0] == evs[0] && evs[..k][1..] == evs[1..][..k - 1];
    }
  }

  lemma StarvesLater(p: Config, s: Sys, evs: seq<Event>, k: nat, t: Sys)
    requires evs != [] && Enabled(p, s, evs[0]) && Safe(p, s, evs[0])
    requires StarvesAt(p, Step(p, s, evs[0]), evs[1..], k, t)
    ensures StarvesAt(p, s, evs, k + 1, t)
  {
    hide Step, Safe, Enabled, Provided;
    assert evs[..k + 1][1..] == evs[1..][..k] && evs[..k + 1][0] == evs[0];
  }

  ghost predicate Starves(p: Config, s: Sys, evs: seq<Event>) {
    exists k: nat, t :: StarvesAt(p, s, evs, k, t)
  }

  /** A run fails an assertion exactly when it comes to such an allocation. */
  lemma {:induction false} FailsExactly(p: Config, s: Sys, evs: seq<Event>)
    requires Inv(p, s)
    ensures Fails(p, s, evs) <==> Starves(p, s, evs)
    decreases |evs|
  {
    hide Step, Safe, Enabled, Inv, Provided, StarvesAt;
    if evs != [] && Enabled(p, s, evs[0]) {
      StepKeeps(p, s, evs[0]);
      if Safe(p, s, evs[0]) {
        FailsExactly(p, Step(p, s, evs[0]), evs[1..]);
      } else {
        StarvesNow(p, s, evs);
      }
    }
    if k: nat, t :| StarvesAt(p, s, evs, k, t) {
      StarvesUnroll(p, s, evs, k, t);
    }
    if Fails(p, s, evs) && Safe(p, s, evs[0]) {
      var k: nat, t :| StarvesAt(p, Step(p, s, evs[0]), evs[1..], k, t);
      StarvesLater(p, s, evs, k, t);
    }
  }

  lemma StarvesNow(p: Config, s: Sys, evs: seq<Event>)
    requires evs != [] && Enabled(p, s, evs[0]) && !Provided(p, s, evs[0])
    ensures StarvesAt(p, s, evs, 0, s)
  {
  }

  /** Every request that was issued or waits in the backlog can be given a buffer. */
  ghost predicate AllServable(p: Config, s: Sys) {
    && (forall r :: r in s.h.issued ==> Servable(p, s.h.issued[r]))
    && (forall r :: r in s.cl.backlog ==> Servable(p, r))
  }

  lemma ClientServable(p: Config, s: Sys, out: ClientOut)
    requires AllServable(p, s)
    requires forall r :: r in out.cl.backlog ==> Servable(p, r)
    requires out.issued.Some? ==> Servable(p, out.issued.value.1)
    ensures AllServable(p, ClientDid(s, out))
  {
  }

  /** A completion gives its slot to the oldest request in the backlog. */
  lemma CompletePops(p: Config, cl: Client, i: nat, u: bool)
    requires CompleteOk(p, cl, i)
    ensures var out := Complete(p, cl, i, u);
            if out.issued.None? then out.cl.backlog == cl.backlog == []
            else cl.backlog != [] && out.issued.value.1 == cl.backlog[0] && out.cl.backlog == cl.backlog[1..]
  {
  }

  lemma RespPops(p: Config, cl: Client, i: nat, pkt: Pkt, u: bool)
    requires RespOk(p, cl, i, pkt)
    ensures var out := ProcessResp(p, cl, i, pkt, u);
            if out.issued.None? then out.cl.backlog == cl.backlog
            else cl.backlog != [] && out.issued.value.1 == cl.backlog[0] && out.cl.backlog == cl.backlog[1..]
  {
    hide Complete;
    if InOrderClient(p, cl.slots[i], pkt) {
      if pkt.msgSize <= p.dataPerPkt {
        CompletePops(p, AcceptedSmall(p, cl, i, pkt), i, u);
      } else {
        var cl1 := Accepted(cl, i);
        var g := Pull(p, cl1.credits, Sized(p, cl1.slots[i], pkt), pkt);
        if g.slot.numRx == SlotWirePkts(p, g.slot) {
          CompletePops(p, WithKick(cl1, i, g), i, u);
        }
      }
    }
  }

  lemma StepServable(p: Config, s: Sys, e: Event)
    requires AllServable(p, s) && Safe(p, s, e)
    requires e.Issue? ==> Servable(p, e.req)
    ensures AllServable(p, Step(p, s, e))
  {
    hide ProcessResp, RespOk, Servable, S.ProcessReq, S.ProcessRfr;
    match e
    case Issue(req, u) => ClientServable(p, s, EnqueueRequest(p, s.cl, req, u));
    case ToServer(_, _) =>
    case ToClient(pkt, u) =>
      if pkt.kind == Resp {
        RespPops(p, s.cl, SlotOf(p, pkt.reqNum), pkt, u);
        ClientServable(p, s, ProcessResp(p, s.cl, SlotOf(p, pkt.reqNum), pkt, u));
      } else {
        ClientServable(p, s, ProcessExplCr(p, s.cl, SlotOf(p, pkt.reqNum), pkt, u));
      }
    case Reply(_, _) =>
    case ServeStalled(u) => ClientServable(p, s, ProcessStallQueue(p, s.cl, u));
    case FromWheel(i, n) => ClientServable(p, s, WheelTx(p, s.cl, i, n));
    case Scan(expired, u) => ClientServable(p, s, PktLossScan(p, s.cl, expired, u));
  }

  /** What a session is promised: whether its user may send empty requests to background
      handlers, and whether the server may be out of memory. */
  predicate Respects(p: Config, e: Event, emptyBackground: bool, lowMemory: bool) {
    match e
    case Issue(req, _) => emptyBackground || Servable(p, req)
    case ToServer(_, mem) => lowMemory || mem.Some?
    case _ => true
  }

  predicate AllRespect(p: Config, evs: seq<Event>, emptyBackground: bool, lowMemory: bool) {
    forall e :: e in evs ==> Respects(p, e, emptyBackground, lowMemory)
  }

  /** Some request makes the server allocate a buffer that is not empty. */
  predicate NeedsMemory(p: Config) {
    p.dataPerPkt < p.maxMsgSize || (p.background != {} && p.maxMsgSize > 0)
  }

  predicate Unfailing(p: Config, emptyBackground: bool, lowMemory: bool) {
    !(emptyBackground && p.background != {}) && !(lowMemory && NeedsMemory(p))
  }

  lemma RespectsProvided(p: Config, s: Sys, e: Event, emptyBackground: bool, lowMemory: bool)
    requires Inv(p, s) && AllServable(p, s) && Enabled(p, s, e)
    requires Unfailing(p, emptyBackground, lowMemory) && Respects(p, e, emptyBackground, lowMemory)
    ensures Provided(p, s, e)
  {
    hide ClientInv, ServerInv, Linked, HistInv, ListsInv, StallInv;
    if e.ToServer? && e.pkt.kind == Req {
      SlotFacts(p, s, SlotOf(p, e.pkt.reqNum));
      UpFacts(p, s, e.pkt);
      assert UpPkt(p, s.h, e.pkt);
    }
  }

  lemma {:induction false} NeverFails(p: Config, s: Sys, evs: seq<Event>, emptyBackground: bool, lowMemory: bool)
    requires Inv(p, s) && AllServable(p, s) && Unfailing(p, emptyBackground, lowMemory)
    requires AllRespect(p, evs, emptyBackground, lowMemory)
    ensures !Fails(p, s, evs)
    decreases |evs|
  {
    hide Step, Safe, Enabled, Inv, AllServable, Provided;
    if evs != [] && Enabled(p, s, evs[0]) {
      assert evs[0] in evs;
      RespectsProvided(p, s, evs[0], emptyBackground, lowMemory);
      StepKeeps(p, s, evs[0]);
      StepServable(p, s, evs[0]);
      NeverFails(p, Step(p, s, evs[0]), evs[1..], emptyBackground, lowMemory);
    }
  }

  /** The first request of a session and the arrival of its first packet. */
  function FirstRequest(p: Config, r: Request, mem: Option<seq<byte>>): seq<Event> {
    [Issue(r, true), ToServer(ReqPkt(p, r, p.window, 0), mem)]
  }

  lemma FirstPacketSent(p: Config, r: Request)
    requires |r.data| <= p.maxMsgSize
    ensures Enabled(p, Init(p), Issue(r, true)) && Safe(p, Init(p), Issue(r, true))
    ensures var t := Step(p, Init(p), Issue(r, true));
            ReqPkt(p, r, p.window, 0) in t.up && t.srv == Init(p).srv
  {
    InitKeeps(p);
    StepKeeps(p, Init(p), Issue(r, true));
    var cl := Init(p).cl;
    assert Last(cl.free) == 0;
    var c := Activated(p, cl.slots[0], r);
    SendReqsSends(p, Kick(cl.credits, c, []), Min(cl.credits, ReqPkts(p, r)), true);
  }

  /** A first request whose buffer is empty or finds no memory makes the server fail. */
  lemma FirstRequestFails(p: Config, r: Request, mem: Option<seq<byte>>)
    requires |r.data| <= p.maxMsgSize && (mem.Some? ==> |mem.value| == |r.data|)
    requires r.reqType in p.background || |r.data| > p.dataPerPkt
    requires !S.AllocOk(|r.data|, mem)
    ensures Fails(p, Init(p), FirstRequest(p, r, mem))
  {
    hide Chunk;
    FirstPacketSent(p, r);
    var evs, t := FirstRequest(p, r, mem), Step(p, Init(p), Issue(r, true));
    assert t.srv[0] == S.InitSlot(0) && SlotOf(p, p.window) == 0;
    InitKeeps(p);
    StepKeeps(p, Init(p), evs[0]);
    StepKeeps(p, t, evs[1]);
    assert evs[1..][0] == evs[1];
    assert !Provided(p, t, evs[1]);
  }

  /** No assertion of either endpoint fails in any run exactly when no background handler can
      be sent an empty request, and memory never runs out or is never needed. */
  lemma NoRunFails(p: Config, emptyBackground: bool, lowMemory: bool)
    ensures (forall evs :: AllRespect(p, evs, emptyBackground, lowMemory) ==> !Fails(p, Init(p), evs))
       <==> Unfailing(p, emptyBackground, lowMemory)
  {
    if Unfailing(p, emptyBackground, lowMemory) {
      forall evs: seq<Event> | AllRespect(p, evs, emptyBackground, lowMemory)
        ensures !Fails(p, Init(p), evs)
      {
        InitKeeps(p);
        NeverFails(p, Init(p), evs, emptyBackground, lowMemory);
      }
    } else {
      var bad := FailingRun(p, emptyBackground, lowMemory);
    }
  }

  lemma FailingRun(p: Config, emptyBackground: bool, lowMemory: bool) returns (evs: seq<Event>)
    requires !Unfailing(p, emptyBackground, lowMemory)
    ensures AllRespect(p, evs, emptyBackground, lowMemory)
    ensures Fails(p, Init(p), evs)
  {
    var r, mem;
    if emptyBackground && p.background != {} {
      var t :| t in p.background;
      r, mem := Request(t, [], EmptyBuf), Some([]);
    } else if p.dataPerPkt < p.maxMsgSize {
      r, mem := Request(0, seq(p.dataPerPkt + 1, _ => 0), EmptyBuf), None;
    } else {
      var t :| t in p.background;
      r, mem := Request(t, [0], EmptyBuf), None;
    }
    FirstRequestFails(p, r, mem);
    evs := FirstRequest(p, r, mem);
  }

  ghost predicate Reachable(p: Config, s: Sys) {
    exists evs :: Reaches(p, Init(p), evs, s)
  }

  lemma ReachableInv(p: Config, s: Sys)
    requires Reachable(p, s)
    ensures Inv(p, s)
  {
    var evs :| Reaches(p, Init(p), evs, s);
    InitKeeps(p);
    ReachesInv(p, Init(p), evs, s);
  }

  lemma HistOf(p: Config, s: Sys, r: nat)
    requires Inv(p, s)
    ensures HistAt(p, s.cl.slots[SlotOf(p, r)], s.srv[SlotOf(p, r)], s.h, r)
  {
    SlotFacts(p, s, SlotOf(p, r));
  }

  /** Each request's handler and continuation run at most once, and the continuation only
      after the handler. */
  lemma AtMostOnce(p: Config, s: Sys, r: nat)
    requires Reachable(p, s)
    ensures s.h.done[r] <= s.h.ran[r] <= 1
    ensures s.h.ran[r] == 1 ==> r in s.h.issued
  {
    ReachableInv(p, s);
    HistOf(p, s, r);
    SlotFacts(p, s, SlotOf(p, r));
  }

  /** The handler is given exactly the client's message, and the continuation exactly the
      handler's response. */
  lemma ByteExact(p: Config, s: Sys, r: nat)
    requires Reachable(p, s)
    ensures s.h.ran[r] > 0 ==>
      && r in s.h.issued && r in s.h.seen
      && s.h.seen[r].bytes == s.h.issued[r].data && s.h.seen[r].reqType == s.h.issued[r].reqType
    ensures s.h.done[r] > 0 ==> r in s.h.replies && r in s.h.outcome && s.h.outcome[r] == s.h.replies[r]
  {
    AtMostOnce(p, s, r);
    ReachableInv(p, s);
    HistOf(p, s, r);
  }

  /** The client is on the server's request number or exactly one window ahead, and in the
      latter case the server has finished with its request and buried its buffer. */
  lemma OneWindowAhead(p: Config, s: Sys, i: nat)
    requires Reachable(p, s) && i < p.window
    ensures i < |s.cl.slots| && i < |s.srv|
    ensures s.cl.slots[i].curReq == s.srv[i].curReq || s.cl.slots[i].curReq == s.srv[i].curReq + p.window
    ensures s.cl.slots[i].curReq != s.srv[i].curReq ==>
      && s.srv[i].req.None? && s.srv[i].reqType.None? && s.cl.slots[i].numRx == 0
      && (s.srv[i].curReq in s.h.issued ==> s.srv[i].tx.Some?)
  {
    ReachableInv(p, s);
    SlotFacts(p, s, i);
  }

  /** Credits are conserved, so returning one never overflows the pool. */
  lemma CreditsConserved(p: Config, s: Sys)
    requires Reachable(p, s)
    ensures |s.cl.slots| == p.window && s.cl.credits + Outstanding(s.cl.slots) == p.credits
    ensures forall i: nat :: i < p.window ==> s.cl.slots[i].numRx <= s.cl.slots[i].numTx
    ensures forall i: nat :: i < p.window && s.cl.slots[i].numRx < s.cl.slots[i].numTx ==> s.cl.credits < p.credits
  {
    ReachableInv(p, s);
    forall i: nat | i < p.window
      ensures 0 <= s.cl.slots[i].numTx - s.cl.slots[i].numRx <= p.credits - s.cl.credits
    {
      SlotFacts(p, s, i);
    }
  }

  /** The wheel bookkeeping is exact: a slot's packets in the wheel are distinct, lie in
      [numRx, numTx), are request packets, and are what the bitmap and the count show;
      none is left once the slot has sent an RFR or completed. */
  lemma WheelExact(p: Config, s: Sys, i: nat)
    requires Reachable(p, s) && i < p.window
    ensures i < |s.cl.slots|
    ensures var c := s.cl.slots[i];
      && |c.inWheel| == p.credits && c.wheelCount == |c.wheel|
      && (forall n :: n in c.wheel ==> c.wheel[n] == 1 && c.numRx <= n < c.numTx)
      && (forall n: nat {:trigger Bit(p.credits, c, n)} :: c.numRx <= n < c.numTx ==>
          (Bit(p.credits, c, n) <==> n in c.wheel))
      && (c.tx.Some? ==> forall n :: n in c.wheel ==> n < ReqPkts(p, c.tx.value))
      && (c.tx.None? || c.numRx >= ReqPkts(p, c.tx.value) ==> c.wheelCount == 0)
  {
    ReachableInv(p, s);
    SlotFacts(p, s, i);
    var c := s.cl.slots[i];
    if c.tx.None? || c.numRx >= ReqPkts(p, c.tx.value) {
      assert forall n :: n in c.wheel ==> false;
      assert c.wheel == multiset{};
    }
  }

  ghost function InWheel(slots: seq<ClientSlot>): nat {
    if slots == [] then 0 else slots[0].wheelCount + InWheel(slots[1..])
  }

  /** A slot's packets in the wheel are distinct outstanding packets. */
  ghost predicate Counted(s: ClientSlot) {
    && s.wheelCount == |s.wheel| && s.numRx <= s.numTx
    && forall n :: n in s.wheel ==> s.wheel[n] == 1 && s.numRx <= n < s.numTx
  }

  lemma {:induction false} WheelWithin(slots: seq<ClientSlot>)
    requires forall k :: 0 <= k < |slots| ==> Counted(slots[k])
    ensures InWheel(slots) <= Outstanding(slots)
  {
    if slots != [] {
      WheelWithin(slots[1..]);
      CountWithin(slots[0].wheel, slots[0].numRx, slots[0].numTx);
    }
  }

  /** Distinct numbers in a range are at most as many as the range has. */
  lemma {:induction false} CountWithin(m: multiset<nat>, lo: nat, hi: nat)
    requires lo <= hi || m == multiset{}
    requires forall n :: n in m ==> m[n] == 1 && lo <= n < hi
    ensures |m| <= if lo <= hi then hi - lo else 0
    decreases hi
  {
    if m == multiset{} {
    } else if hi - 1 in m {
      CountWithin(m - multiset{hi - 1}, lo, hi - 1);
    } else {
      CountWithin(m, lo, hi - 1);
    }
  }

  /** The packets of a session in the wheel hold credits: together with the credits that are
      left they are at most all credits. */
  lemma WheelHoldsCredits(p: Config, s: Sys)
    requires Reachable(p, s)
    ensures InWheel(s.cl.slots) + s.cl.credits <= p.credits
  {
    ReachableInv(p, s);
    forall k: nat | k < p.window
      ensures Counted(s.cl.slots[k])
    {
      SlotFacts(p, s, k);
    }
    WheelWithin(s.cl.slots);
  }

  /** No request is stranded: every active slot is in the stall queue with nothing sent, or
      has packets outstanding, so the loss scan skips exactly the stall queue. */
  lemma NoneStranded(p: Config, s: Sys, i: nat)
    requires Reachable(p, s) && i < p.window
    ensures i < |s.cl.slots|
    ensures i in s.cl.stallq <==> s.cl.slots[i].tx.Some? && s.cl.slots[i].numTx == s.cl.slots[i].numRx
    ensures i in s.cl.stallq ==> s.cl.slots[i].numTx == 0
    ensures i in s.cl.active <==> s.cl.slots[i].tx.Some?
    ensures i in s.cl.active && i !in s.cl.stallq ==> s.cl.slots[i].numTx > s.cl.slots[i].numRx
  {
    ReachableInv(p, s);
    SlotFacts(p, s, i);
  }

  /** When slots wait for credits and none is left, another slot has packets outstanding. */
  lemma StallIsFed(p: Config, s: Sys) returns (j: nat)
    requires Reachable(p, s) && s.cl.credits == 0
    ensures j < p.window && j < |s.cl.slots|
    ensures s.cl.slots[j].numTx > s.cl.slots[j].numRx && j !in s.cl.stallq
  {
    ReachableInv(p, s);
    j := SomeOutstanding(p, s);
  }

  lemma SomeOutstanding(p: Config, s: Sys) returns (j: nat)
    requires Inv(p, s) && s.cl.credits < p.credits
    ensures j < p.window
    ensures s.cl.slots[j].numTx > s.cl.slots[j].numRx && j !in s.cl.stallq
  {
    if k: nat :| k < p.window && s.cl.slots[k].numTx != s.cl.slots[k].numRx {
      j := k;
      SlotFacts(p, s, j);
    } else {
      ListFacts.OutstandingZero(s.cl.slots);
      assert false;
    }
  }

  /** When every slot of the client is free, the server may bury the session: every request
      buffer is buried, no handler is pending, and every response has been sent whole. */
  lemma DisconnectSafe(p: Config, s: Sys, i: nat)
    requires Reachable(p, s) && i < p.window && |s.cl.free| == p.window
    ensures i < |s.srv| && AllSent(p, s.srv[i])
  {
    ReachableInv(p, s);
    FreeMeansSent(p, s, i);
  }

  /** The slot's request is buried, no handler is pending, and its response is sent whole. */
  predicate AllSent(p: Config, s: S.ServerSlot) {
    && s.req.None? && s.reqType.None?
    && (s.tx.Some? ==> s.numRx == s.savNumReqPkts + S.RespPkts(p, s.tx.value) - 1)
  }

  lemma FreeMeansSent(p: Config, s: Sys, i: nat)
    requires Inv(p, s) && i < p.window && |s.cl.free| == p.window
    ensures i < |s.srv| && AllSent(p, s.srv[i])
    ensures i < |s.cl.slots| && s.cl.slots[i].tx.None?
  {
    SlotFacts(p, s, i);
    ListFacts.AllPresent(s.cl.free, p.window, i);
  }

  /** Every response packet in the network is a packet of its request's only response, and
      an RFR in the network pulls one of its packets after the first. */
  lemma NetworkHonest(p: Config, s: Sys, pkt: Pkt)
    requires Reachable(p, s)
    ensures pkt in s.down && pkt.kind == Resp ==>
      && Covers(s.h, pkt.reqNum)
      && ReqN(p, s.h, pkt.reqNum) <= pkt.pktNum + 1
      && var idx := RespNtoi(pkt.pktNum, ReqN(p, s.h, pkt.reqNum));
         idx < RespN(p, s.h, pkt.reqNum) && pkt.data == Chunk(p.dataPerPkt, s.h.replies[pkt.reqNum], idx)
    ensures pkt in s.up && pkt.kind == Rfr ==>
      && Covers(s.h, pkt.reqNum)
      && ReqN(p, s.h, pkt.reqNum) <= pkt.pktNum + 1
      && 1 <= RespNtoi(pkt.pktNum, ReqN(p, s.h, pkt.reqNum)) < RespN(p, s.h, pkt.reqNum)
  {
    hide ClientInv, Linked, ListsInv, StallInv;
    ReachableInv(p, s);
    var i := SlotOf(p, pkt.reqNum);
    SlotFacts(p, s, i);
    if pkt in s.down { assert DownPkt(p, s.srv[i], s.h, pkt); }
    if pkt in s.up { assert UpPkt(p, s.h, pkt); }
  }
}
