/** From every reachable state, even when every packet in flight has been lost, and whatever
    the handlers reply, a finite schedule of wheel drains, retransmissions, deliveries and
    those replies completes every request. The measure is the number of packets the client
    still awaits. */
module Progress {
  import opened Wire
  import opened ClientSpec
  import opened Protocol
  import opened ClientProof
  import opened ProtocolProof
  import opened ListFacts
  import opened Runs
  import AtomicRpc
  import ServerProof
  import S = ServerSpec

  // ---------------------------------------------------------------------------
  // The handlers' replies
  // ---------------------------------------------------------------------------

  /** What the handlers reply, by request number, type and bytes. */
  type Handlers = S.Exec -> seq<byte>

  /** What the handler of request `r` is given. */
  ghost function Call(h: Hist, r: nat): S.Exec
    requires r in h.issued
  {
    S.Exec(r, h.issued[r].reqType, h.issued[r].data)
  }

  /** The reply to request `r`: the one given, or else the one that its handler will give. */
  ghost function ReplyTo(rep: Handlers, h: Hist, r: nat): seq<byte>
    requires r in h.issued
  {
    if r in h.replies then h.replies[r] else rep(Call(h, r))
  }

  /** The reply to request `q`, if it is given number `r`, keeps to the size limit and fits
      the buffer that the user supplied for it. */
  ghost predicate Fits(p: Config, rep: Handlers, q: Request, r: nat) {
    var size := |rep(S.Exec(r, q.reqType, q.data))|;
    size <= p.maxMsgSize && size <= |q.resp.mem|
  }

  /** The outstanding requests can be served, and their replies fit. */
  ghost predicate Ready(p: Config, rep: Handlers, s: Sys) {
    && AllServable(p, s)
    && (forall r :: r in s.h.issued && r !in s.h.replies ==> Fits(p, rep, s.h.issued[r], r))
    && (forall q, r: nat :: q in s.cl.backlog ==> Fits(p, rep, q, r))
  }

  /** Requests that had a number keep their replies, and the others get their handlers'. */
  ghost predicate SameReplies(rep: Handlers, h: Hist, h': Hist) {
    && (forall r :: r in h.issued ==> r in h'.issued && h'.issued[r] == h.issued[r])
    && (forall r :: r in h'.issued ==>
          ReplyTo(rep, h', r) == if r in h.issued then ReplyTo(rep, h, r) else rep(Call(h', r)))
  }

  // ---------------------------------------------------------------------------
  // The measure
  // ---------------------------------------------------------------------------

  /** Packets that a slot still awaits. */
  ghost function Awaited(p: Config, rep: Handlers, c: ClientSlot, h: Hist): int {
    if c.tx.None? || c.curReq !in h.issued then 0
    else ReqN(p, h, c.curReq) + NumPkts(p.dataPerPkt, |ReplyTo(rep, h, c.curReq)|) - 1 - c.numRx
  }

  ghost function TotalAwaited(p: Config, rep: Handlers, slots: seq<ClientSlot>, h: Hist): int {
    if slots == [] then 0 else Awaited(p, rep, slots[0], h) + TotalAwaited(p, rep, slots[1..], h)
  }

  lemma {:induction false} TotalLess(p: Config, rep: Handlers, a: seq<ClientSlot>, g: Hist, b: seq<ClientSlot>, h: Hist)
    requires |a| == |b|
    requires forall k :: 0 <= k < |a| ==> Awaited(p, rep, a[k], g) <= Awaited(p, rep, b[k], h)
    ensures TotalAwaited(p, rep, a, g) <= TotalAwaited(p, rep, b, h)
    ensures (exists k :: 0 <= k < |a| && Awaited(p, rep, a[k], g) < Awaited(p, rep, b[k], h)) ==>
              TotalAwaited(p, rep, a, g) < TotalAwaited(p, rep, b, h)
  {
    if a != [] {
      TotalLess(p, rep, a[1..], g, b[1..], h);
      if k :| 0 <= k < |a| && Awaited(p, rep, a[k], g) < Awaited(p, rep, b[k], h) {
        if k > 0 {
          assert a[k] == a[1..][k - 1] && b[k] == b[1..][k - 1];
        }
      }
    }
  }

  lemma {:induction false} TotalNonNeg(p: Config, rep: Handlers, a: seq<ClientSlot>, h: Hist)
    requires forall k :: 0 <= k < |a| ==> Awaited(p, rep, a[k], h) >= 0
    ensures TotalAwaited(p, rep, a, h) >= 0
  {
    if a != [] {
      TotalNonNeg(p, rep, a[1..], h);
    }
  }

  lemma AwaitedNonNeg(p: Config, rep: Handlers, s: Sys, j: nat)
    requires Inv(p, s) && j < p.window
    ensures Awaited(p, rep, s.cl.slots[j], s.h) >= 0
    ensures Awaited(p, rep, s.cl.slots[j], s.h) > 0 <==> s.cl.slots[j].tx.Some?
  {
    hide ListsInv, StallInv;
    SlotFacts(p, s, j);
    HistOf(p, s, s.cl.slots[j].curReq);
  }

  ghost function Measure(p: Config, rep: Handlers, s: Sys): nat
    requires Inv(p, s)
  {
    forall j: nat | j < p.window ensures Awaited(p, rep, s.cl.slots[j], s.h) >= 0 { AwaitedNonNeg(p, rep, s, j); }
    TotalNonNeg(p, rep, s.cl.slots, s.h);
    TotalAwaited(p, rep, s.cl.slots, s.h)
  }

  /** No slot awaits more than before, and nothing was taken from the backlog. */
  ghost predicate NoWorse(p: Config, rep: Handlers, s: Sys, t: Sys) {
    && |s.cl.slots| == |t.cl.slots| == p.window
    && |t.cl.backlog| == |s.cl.backlog|
    && forall j: nat {:trigger t.cl.slots[j]} :: j < p.window ==>
       Awaited(p, rep, t.cl.slots[j], t.h) <= Awaited(p, rep, s.cl.slots[j], s.h)
  }

  /** The request and its progress in a slot are the same. */
  predicate SameProgress(c: ClientSlot, d: ClientSlot) {
    d.tx == c.tx && d.curReq == c.curReq && d.numRx == c.numRx
  }

  // ---------------------------------------------------------------------------
  // Schedules
  // ---------------------------------------------------------------------------

  lemma {:induction false} ReachesJoin(p: Config, s: Sys, a: seq<Event>, t: Sys, b: seq<Event>, v: Sys)
    requires Reaches(p, s, a, t) && Reaches(p, t, b, v)
    ensures Reaches(p, s, a + b, v)
    decreases |a|
  {
    hide Step, Safe, Enabled;
    if a == [] {
      assert a + b == b;
    } else {
      ReachesJoin(p, Step(p, s, a[0]), a[1..], t, b, v);
      assert (a + b)[1..] == a[1..] + b;
    }
  }

  ghost predicate NoIssue(evs: seq<Event>) {
    forall e :: e in evs ==> !e.Issue?
  }

  /** A schedule without new requests and with the handlers' replies leads from `s` to `t`. */
  ghost predicate Leads(p: Config, rep: Handlers, s: Sys, evs: seq<Event>, t: Sys) {
    && Reaches(p, s, evs, t) && NoIssue(evs)
    && Inv(p, t) && Ready(p, rep, t)
    && SameReplies(rep, s.h, t.h)
    && |t.h.issued| + |t.cl.backlog| == |s.h.issued| + |s.cl.backlog|
  }

  lemma LeadsJoin(p: Config, rep: Handlers, s: Sys, a: seq<Event>, t: Sys, b: seq<Event>, v: Sys)
    requires Leads(p, rep, s, a, t) && Leads(p, rep, t, b, v)
    ensures Leads(p, rep, s, a + b, v)
  {
    hide Inv, Ready, ReplyTo, Reaches;
    ReachesJoin(p, s, a, t, b, v);
  }

  lemma LeadsNowhere(p: Config, rep: Handlers, s: Sys)
    requires Inv(p, s) && Ready(p, rep, s)
    ensures Leads(p, rep, s, [], s)
  {
  }

  /** Whether the session is uncongested at an event, given the events before it. */
  type Congestion = seq<Event> -> bool

  /** The events of the schedule, which comes after `past`, find the session so. */
  ghost predicate Under(u: Congestion, past: seq<Event>, evs: seq<Event>) {
    forall j :: 0 <= j < |evs| ==> evs[j].Flagged(u(past + evs[..j]))
  }

  /** To these events it makes no difference. */
  predicate Indifferent(evs: seq<Event>) {
    forall e :: e in evs ==> e.FromWheel? || e.ToServer? || e.Reply?
  }

  lemma UnderJoin(u: Congestion, past: seq<Event>, a: seq<Event>, b: seq<Event>)
    requires Under(u, past, a) && Under(u, past + a, b)
    ensures Under(u, past, a + b)
  {
    forall j | 0 <= j < |a + b|
      ensures (a + b)[j].Flagged(u(past + (a + b)[..j]))
    {
      if j < |a| {
        assert (a + b)[..j] == a[..j];
      } else {
        assert past + (a + b)[..j] == past + a + b[..j - |a|];
      }
    }
  }

  lemma UnderAny(u: Congestion, past: seq<Event>, evs: seq<Event>)
    requires Indifferent(evs)
    ensures Under(u, past, evs)
  {
    assert forall j :: 0 <= j < |evs| ==> evs[j] in evs;
  }

  lemma UnderOne(u: Congestion, past: seq<Event>, e: Event)
    requires e.Flagged(u(past))
    ensures Under(u, past, [e])
  {
    assert past + [e][..0] == past;
  }

  /** The history and backlog after the backlog's oldest request has been given a slot. */
  ghost predicate Moves(s: Sys, t: Sys, issued: Option<(nat, Request)>) {
    if issued.None? then t.h.issued == s.h.issued && t.cl.backlog == s.cl.backlog
    else
      && s.cl.backlog != [] && issued.value.1 == s.cl.backlog[0] && t.cl.backlog == s.cl.backlog[1..]
      && issued.value.0 !in s.h.issued && t.h.issued == s.h.issued[issued.value.0 := issued.value.1]
  }

  lemma OutMoves(s: Sys, out: ClientOut)
    requires if out.issued.None? then out.cl.backlog == s.cl.backlog
             else s.cl.backlog != [] && out.issued.value.1 == s.cl.backlog[0] && out.cl.backlog == s.cl.backlog[1..]
                  && out.issued.value.0 !in s.h.issued
    ensures Moves(s, ClientDid(s, out), out.issued)
    ensures ClientDid(s, out).h.replies == s.h.replies
  {
  }

  lemma ExplCrIssuesNone(p: Config, cl: Client, i: nat, pkt: Pkt, u: bool)
    requires ExplCrOk(p, cl, i, pkt)
    ensures var out := ProcessExplCr(p, cl, i, pkt, u);
            out.issued.None? && out.cl.backlog == cl.backlog
  {
    hide KickReq;
  }

  lemma OtherMoves(p: Config, s: Sys, e: Event)
    requires Safe(p, s, e) && !e.Issue? && !(e.ToClient? && e.pkt.kind == Resp)
    ensures Moves(s, Step(p, s, e), None)
    ensures Step(p, s, e).h.replies == if e.Reply? then s.h.replies[s.srv[e.i].curReq := e.data] else s.h.replies
  {
    hide StallOk, ScanOk, StallLoop, ScanLoop, S.ReqOk, S.ProcessReq, S.RfrOk, S.ProcessRfr;
    hide S.EnqueueResponse, S.ResponseOk, RespOk, ExplCrOk, ProcessExplCr, ReqPkt, Chunk;
    match e
    case ToClient(pkt, u) =>
      ExplCrIssuesNone(p, s.cl, SlotOf(p, pkt.reqNum), pkt, u);
      OutMoves(s, ProcessExplCr(p, s.cl, SlotOf(p, pkt.reqNum), pkt, u));
    case ServeStalled(u) => OutMoves(s, ProcessStallQueue(p, s.cl, u));
    case Scan(expired, u) => OutMoves(s, PktLossScan(p, s.cl, expired, u));
    case FromWheel(i, n) => OutMoves(s, WheelTx(p, s.cl, i, n));
    case _ =>
  }

  lemma StepMoves(p: Config, s: Sys, e: Event) returns (issued: Option<(nat, Request)>)
    requires Inv(p, s) && Enabled(p, s, e) && Safe(p, s, e) && !e.Issue?
    ensures Moves(s, Step(p, s, e), issued)
    ensures Step(p, s, e).h.replies == if e.Reply? then s.h.replies[s.srv[e.i].curReq := e.data] else s.h.replies
  {
    hide Inv, Step, Safe;
    issued := None;
    if e.ToClient? && e.pkt.kind == Resp {
      issued := RespMoves(p, s, e.pkt, e.uncongested);
    } else {
      OtherMoves(p, s, e);
    }
  }

  lemma RespMoves(p: Config, s: Sys, pkt: Pkt, u: bool) returns (issued: Option<(nat, Request)>)
    requires Inv(p, s) && Safe(p, s, ToClient(pkt, u)) && pkt.kind == Resp
    ensures Moves(s, Step(p, s, ToClient(pkt, u)), issued)
    ensures Step(p, s, ToClient(pkt, u)).h.replies == s.h.replies
  {
    hide Inv, ProcessResp, RespOk;
    var i := SlotOf(p, pkt.reqNum);
    AtomicRpc.NextIsFresh(p, s, i);
    AtomicRpc.RespRecords(p, s.cl, i, pkt, u);
    RespPops(p, s.cl, i, pkt, u);
    var out := ProcessResp(p, s.cl, i, pkt, u);
    OutMoves(s, out);
    issued := out.issued;
  }

  lemma MovesCount(s: Sys, t: Sys, issued: Option<(nat, Request)>)
    requires Moves(s, t, issued)
    ensures |t.h.issued| + |t.cl.backlog| == |s.h.issued| + |s.cl.backlog|
  {
    if issued.Some? {
      assert t.h.issued.Keys == s.h.issued.Keys + {issued.value.0};
      assert |t.h.issued.Keys| == |s.h.issued.Keys| + 1;
    }
  }

  lemma MovesReplies(rep: Handlers, s: Sys, t: Sys, issued: Option<(nat, Request)>)
    requires Moves(s, t, issued)
    requires forall r :: r in t.h.replies ==> r in s.h.issued
    requires forall r :: r in s.h.replies ==> r in t.h.replies && t.h.replies[r] == s.h.replies[r]
    requires forall r :: r in t.h.replies && r !in s.h.replies ==> t.h.replies[r] == rep(Call(s.h, r))
    ensures SameReplies(rep, s.h, t.h)
  {
  }

  lemma MovesReady(p: Config, rep: Handlers, s: Sys, t: Sys, issued: Option<(nat, Request)>)
    requires Ready(p, rep, s) && Moves(s, t, issued)
    requires forall r :: r in s.h.replies ==> r in t.h.replies
    ensures Ready(p, rep, t)
  {
    hide Servable, Fits;
    if issued.Some? {
      assert s.cl.backlog[0] in s.cl.backlog;
    }
  }

  /** Every answer in the history is to a request that was issued. */
  lemma RepliesIssued(p: Config, s: Sys, r: nat)
    requires Inv(p, s) && r in s.h.replies
    ensures r in s.h.issued
  {
    HistOf(p, s, r);
  }

  /** One event that is not a new request, and is a handler's own reply if it is a reply. */
  lemma OneStep(p: Config, rep: Handlers, s: Sys, e: Event)
    requires Inv(p, s) && Ready(p, rep, s) && Enabled(p, s, e) && Provided(p, s, e) && !e.Issue?
    requires e.Reply? ==> s.srv[e.i].curReq !in s.h.replies && e.data == rep(Call(s.h, s.srv[e.i].curReq))
    ensures Keeps(p, s, e) && Leads(p, rep, s, [e], Step(p, s, e))
  {
    hide Inv, Ready, Step, Safe, Provided;
    StepKeeps(p, s, e);
    var t := Step(p, s, e);
    assert [e][1..] == [] && Reaches(p, t, [], t);
    var issued := StepMoves(p, s, e);
    forall r | r in s.h.replies
      ensures r in s.h.issued
    {
      RepliesIssued(p, s, r);
    }
    MovesReady(p, rep, s, t, issued);
    MovesReplies(rep, s, t, issued);
    MovesCount(s, t, issued);
  }

  // ---------------------------------------------------------------------------
  // Draining the wheel
  // ---------------------------------------------------------------------------

  /** `t` is `s` after packets of slot `i` have left the wheel. */
  ghost predicate Drained(p: Config, s: Sys, t: Sys, i: nat) {
    && |s.cl.slots| == |t.cl.slots| == p.window && i < p.window
    && s.up <= t.up
    && t == s.(cl := s.cl.(slots := s.cl.slots[i := t.cl.slots[i]]), up := t.up)
    && var c, d := s.cl.slots[i], t.cl.slots[i];
       && d == c.(inWheel := d.inWheel, wheelCount := d.wheelCount, wheel := d.wheel)
       && (c.tx.Some? ==> forall n :: n in c.wheel && n < ReqPkts(p, c.tx.value) ==>
             n in d.wheel || ReqPkt(p, c.tx.value, c.curReq, n) in t.up)
  }

  lemma DrainedJoin(p: Config, s: Sys, t: Sys, v: Sys, i: nat)
    requires Drained(p, s, t, i) && Drained(p, t, v, i)
    ensures Drained(p, s, v, i)
  {
    assert s.cl.slots[i := t.cl.slots[i]][i := v.cl.slots[i]] == s.cl.slots[i := v.cl.slots[i]];
    var c := s.cl.slots[i];
    if c.tx.Some? {
      forall n | n in c.wheel && n < ReqPkts(p, c.tx.value)
        ensures n in v.cl.slots[i].wheel || ReqPkt(p, c.tx.value, c.curReq, n) in v.up
      {
        assert n in t.cl.slots[i].wheel || ReqPkt(p, c.tx.value, c.curReq, n) in t.up;
      }
    }
  }

  lemma DrainOne(p: Config, rep: Handlers, s: Sys, i: nat, n: nat) returns (t: Sys)
    requires Inv(p, s) && Ready(p, rep, s) && i < p.window && n in s.cl.slots[i].wheel
    ensures Leads(p, rep, s, [FromWheel(i, n)], t) && Drained(p, s, t, i)
    ensures |t.cl.slots[i].wheel| < |s.cl.slots[i].wheel|
  {
    hide PairInv, ListsInv, StallInv, CreditInv, BacklogInv, Ready, SameReplies, Reaches;
    FromWheelKeeps(p, s, i, n);
    OneStep(p, rep, s, FromWheel(i, n));
    t := Step(p, s, FromWheel(i, n));
    var c := s.cl.slots[i];
    assert ToSet([ReqPkt(p, c.tx.value, c.curReq, n)]) == {ReqPkt(p, c.tx.value, c.curReq, n)};
    assert c.wheel == (c.wheel - multiset{n}) + multiset{n};
  }

  lemma {:induction false} DrainWheel(p: Config, rep: Handlers, s: Sys, i: nat) returns (evs: seq<Event>, t: Sys)
    requires Inv(p, s) && Ready(p, rep, s) && i < p.window
    ensures Leads(p, rep, s, evs, t) && Indifferent(evs)
    ensures Drained(p, s, t, i) && t.cl.slots[i].wheel == multiset{}
    decreases |s.cl.slots[i].wheel|
  {
    hide Ready, SameReplies, Reaches;
    if n :| n in s.cl.slots[i].wheel {
      var s1 := DrainOne(p, rep, s, i, n);
      evs, t := DrainWheel(p, rep, s1, i);
      LeadsJoin(p, rep, s, [FromWheel(i, n)], s1, evs, t);
      DrainedJoin(p, s, s1, t, i);
      evs := [FromWheel(i, n)] + evs;
    } else {
      evs, t := [], s;
      LeadsNowhere(p, rep, s);
      assert s.cl.slots[i].wheel == multiset{};
      assert s.cl.slots[i := s.cl.slots[i]] == s.cl.slots;
    }
  }

  // ---------------------------------------------------------------------------
  // Retransmitting the awaited packet
  // ---------------------------------------------------------------------------

  /** The packet that asks for the answer the slot awaits. */
  ghost function Asking(p: Config, c: ClientSlot): Pkt
    requires c.tx.Some?
  {
    if c.numRx < ReqPkts(p, c.tx.value) then ReqPkt(p, c.tx.value, c.curReq, c.numRx)
    else RfrPkt(c.resp, c.numRx)
  }

  lemma {:induction false} SendRfrsSends(g: Kick, n: nat)
    requires n <= g.credits
    ensures g.sent <= SendRfrs(g, n).sent
    ensures n > 0 ==> RfrPkt(g.slot.resp, g.slot.numTx) in SendRfrs(g, n).sent
    decreases n
  {
    if n > 0 {
      SendRfrsSends(SendRfr(g), n - 1);
      assert SendRfr(g).sent[|g.sent|] == RfrPkt(g.slot.resp, g.slot.numTx);
    }
  }

  /** A kick from a rolled-back slot sends the asking packet or puts it in the wheel. */
  lemma KickAsks(p: Config, credits: nat, c: ClientSlot, u: bool)
    requires c.tx.Some? && c.numTx == c.numRx && KickOk(p, credits, c)
    ensures var g := KickAny(p, credits, c, u);
            && (c.numRx >= ReqPkts(p, c.tx.value) ==> Asking(p, c) in g.sent)
            && (c.numRx < ReqPkts(p, c.tx.value) ==> Asking(p, c) in g.sent || c.numRx in g.slot.wheel)
            && g.slot.tx == c.tx && g.slot.curReq == c.curReq && g.slot.numRx == c.numRx && g.slot.resp == c.resp
            && g.slot.numTx > c.numTx && g.credits < credits
  {
    if ReqPktsPending(p, c) {
      SendReqsSends(p, Kick(credits, c, []), Min(credits, ReqPkts(p, c.tx.value) - c.numTx), c.wheelCount == 0 && u);
    } else {
      SendRfrsSends(Kick(credits, c, []), Min(credits, SlotWirePkts(p, c) - c.numTx));
    }
  }

  /** A scan in which only slot `i` has expired touches only slot `i`. */
  lemma {:induction false} ScanOne(p: Config, cl: Client, list: seq<nat>, i: nat, sent: seq<Pkt>, u: bool)
    requires ScanOk(p, cl, list, {i}, u) && NoDup(list) && i < |cl.slots|
    ensures ScanLoop(p, cl, list, {i}, sent, u) ==
            if i in list && ScanRetransmits(cl, i, {i}) && RetransmitOk(p, cl, i)
            then var out := Retransmit(p, cl, i, u); ClientOut(out.cl, sent + out.sent, None, None)
            else ClientOut(cl, sent, None, None)
    ensures i in list && ScanRetransmits(cl, i, {i}) ==> RetransmitOk(p, cl, i)
    decreases |list|
  {
    if list != [] {
      if ScanRetransmits(cl, list[0], {i}) {
        assert list[0] == i;
        var out := Retransmit(p, cl, i, u);
        assert i !in list[1..];
        ScanOne(p, out.cl, list[1..], i, sent + out.sent, u);
      } else {
        ScanOne(p, cl, list[1..], i, sent, u);
        assert list == [list[0]] + list[1..];
        assert ScanRetransmits(cl, i, {i}) ==> list[0] != i;
      }
    }
  }

  lemma RetransmitKick(p: Config, s: Sys, i: nat, u: bool)
    requires Inv(p, s) && i < p.window
    requires s.cl.slots[i].tx.Some? && s.cl.slots[i].numTx != s.cl.slots[i].numRx && s.cl.slots[i].wheelCount == 0
    ensures var c := s.cl.slots[i];
            c.numRx < c.numTx && i in s.cl.active && KickOk(p, s.cl.credits + (c.numTx - c.numRx), RolledBack(c))
  {
    hide PairInv, StepFits;
    RetransmitFits(p, s, i, u);
  }

  /** A retransmission sends the asking packet or puts it in the wheel. */
  lemma RetransmitAsks(p: Config, cl: Client, i: nat, u: bool)
    requires RetransmitOk(p, cl, i) && cl.slots[i].numTx > cl.slots[i].numRx && cl.slots[i].wheelCount == 0
    ensures var out, c := Retransmit(p, cl, i, u), cl.slots[i];
            && |out.cl.slots| == |cl.slots| && out.cl.backlog == cl.backlog
            && out.cl.slots == cl.slots[i := out.cl.slots[i]]
            && SameProgress(c, out.cl.slots[i]) && out.cl.slots[i].resp == c.resp
            && out.cl.slots[i].numTx > out.cl.slots[i].numRx
            && (Asking(p, c) in out.sent || (c.numRx < ReqPkts(p, c.tx.value) && c.numRx in out.cl.slots[i].wheel))
  {
    var c := cl.slots[i];
    KickAsks(p, cl.credits + (c.numTx - c.numRx), RolledBack(c), u);
  }

  lemma ScanRetransmitsOne(p: Config, rep: Handlers, s: Sys, i: nat, u: bool) returns (t: Sys)
    requires Inv(p, s) && Ready(p, rep, s) && i < p.window
    requires s.cl.slots[i].tx.Some? && s.cl.slots[i].numTx != s.cl.slots[i].numRx && s.cl.slots[i].wheelCount == 0
    ensures Leads(p, rep, s, [Scan({i}, u)], t)
    ensures |t.cl.slots| == p.window && t.srv == s.srv && t.down == s.down && t.h == s.h && t.cl.backlog == s.cl.backlog
    ensures t.cl.slots == s.cl.slots[i := t.cl.slots[i]]
    ensures var c, d := s.cl.slots[i], t.cl.slots[i];
            && SameProgress(c, d) && d.resp == c.resp && d.numTx > d.numRx
            && (Asking(p, c) in t.up || (c.numRx < ReqPkts(p, c.tx.value) && c.numRx in d.wheel))
  {
    hide PairInv, StallInv, Retransmit, ScanLoop, Ready, SameReplies, Reaches;
    OneStep(p, rep, s, Scan({i}, u));
    RetransmitKick(p, s, i, u);
    t := Step(p, s, Scan({i}, u));
    ScanOne(p, s.cl, s.cl.active, i, [], u);
    RetransmitAsks(p, s.cl, i, u);
    var out := Retransmit(p, s.cl, i, u);
    assert [] + out.sent == out.sent;
  }

  /** Slot `i` asks: afterwards its asking packet is in the network and out of the wheel. */
  lemma Ask(p: Config, rep: Handlers, s: Sys, i: nat, u: Congestion, past: seq<Event>)
    returns (evs: seq<Event>, t: Sys)
    requires Inv(p, s) && Ready(p, rep, s) && i < p.window
    requires s.cl.slots[i].tx.Some? && s.cl.slots[i].numTx > s.cl.slots[i].numRx
    ensures Leads(p, rep, s, evs, t) && Under(u, past, evs)
    ensures |t.cl.slots| == p.window && t.srv == s.srv && t.down == s.down && t.h == s.h && t.cl.backlog == s.cl.backlog
    ensures t.cl.slots == s.cl.slots[i := t.cl.slots[i]]
    ensures var c, d := s.cl.slots[i], t.cl.slots[i];
            && SameProgress(c, d) && d.numTx > d.numRx && d.wheel == multiset{}
            && Asking(p, d) in t.up
  {
    hide ListsInv, StallInv, Ready, SameReplies, Reaches, Under, Indifferent;
    var evs1, s1 := DrainWheel(p, rep, s, i);
    SlotFacts(p, s1, i);
    var scan := Scan({i}, u(past + evs1));
    var s2 := ScanRetransmitsOne(p, rep, s1, i, scan.uncongested);
    var evs3;
    evs3, t := DrainWheel(p, rep, s2, i);
    LeadsJoin(p, rep, s, evs1, s1, [scan], s2);
    LeadsJoin(p, rep, s, evs1 + [scan], s2, evs3, t);
    AskUnder(u, past, evs1, scan, evs3);
    evs := evs1 + [scan] + evs3;
    assert t.cl.slots == s.cl.slots[i := t.cl.slots[i]];
  }

  lemma AskUnder(u: Congestion, past: seq<Event>, a: seq<Event>, e: Event, b: seq<Event>)
    requires Indifferent(a) && Indifferent(b) && e.Flagged(u(past + a))
    ensures Under(u, past, a + [e] + b)
  {
    UnderAny(u, past, a);
    UnderOne(u, past + a, e);
    UnderJoin(u, past, a, [e]);
    UnderAny(u, past + (a + [e]), b);
    UnderJoin(u, past, a + [e], b);
  }

  // ---------------------------------------------------------------------------
  // The server's answer
  // ---------------------------------------------------------------------------

  /** An in-order answer for slot `i` is in the network. */
  ghost predicate Answered(p: Config, s: Sys, i: nat, pkt: Pkt)
    requires i < |s.cl.slots|
  {
    && pkt in s.down && pkt.reqNum == s.cl.slots[i].curReq && pkt.pktNum == s.cl.slots[i].numRx
  }

  /** What the server sends for the asking packet, unless its handler has yet to reply. */
  lemma AskedServer(
    p: Config, i: nat, c: ClientSlot, sv: S.ServerSlot, up: set<Pkt>, down: set<Pkt>, h: Hist, pkt: Pkt,
    mem: Option<seq<byte>>)
    requires PairInv(p, i, c, sv, up, down, h)
    requires c.tx.Some? && pkt == Asking(p, c) && pkt in up && SlotOf(p, pkt.reqNum) == i
    requires pkt.kind == Req && S.Allocates(p, sv, pkt) ==> S.AllocOk(pkt.msgSize, mem)
    ensures pkt.reqNum == c.curReq && pkt.pktNum == c.numRx
    ensures if pkt.kind == Req then S.ReqOk(p, sv, pkt, mem) else pkt.kind == Rfr && S.RfrOk(p, sv, pkt)
    ensures var out := if pkt.kind == Req then S.ProcessReq(p, sv, pkt, mem) else S.ProcessRfr(p, sv, pkt);
            (|out.sent| == 1 && out.sent[0].reqNum == c.curReq && out.sent[0].pktNum == c.numRx)
            || (out.slot.reqType.Some? && out.slot.curReq == c.curReq && c.numRx == ReqPkts(p, c.tx.value) - 1)
  {
    hide PairInv, NumPkts, Chunk, S.ReqOk, S.RfrOk, S.ProcessReq, S.ProcessRfr;
    AskingFits(p, i, c, sv, up, down, h);
    if c.numRx < ReqPkts(p, c.tx.value) {
      ServerProof.ReqKeeps(p, i, c, sv, up, down, h, pkt, mem);
      AskedReq(p, i, c, sv, up, down, h, pkt, mem);
    } else {
      ServerProof.RfrKeeps(p, i, c, sv, up, down, h, pkt);
      AskedRfr(p, i, c, sv, up, down, h, pkt);
    }
  }

  /** The asking packet's number fits its header field. */
  lemma AskingFits(p: Config, i: nat, c: ClientSlot, sv: S.ServerSlot, up: set<Pkt>, down: set<Pkt>, h: Hist)
    requires PairInv(p, i, c, sv, up, down, h) && c.tx.Some?
    ensures c.curReq in h.issued && h.issued[c.curReq] == c.tx.value && ReqPkts(p, c.tx.value) <= PKT_NUM_LIMIT
    ensures c.numRx < PKT_NUM_LIMIT
    ensures c.numRx >= ReqPkts(p, c.tx.value) ==> c.resp.hdrReqNum == c.curReq
  {
    hide WheelInv, NetInv, NumPkts, HasPrefix;
    HistSizes(p, i, c, sv, h, c.curReq);
    assert ActiveInv(p, c, h);
  }

  lemma AskedRfr(p: Config, i: nat, c: ClientSlot, sv: S.ServerSlot, up: set<Pkt>, down: set<Pkt>, h: Hist, pkt: Pkt)
    requires PairInv(p, i, c, sv, up, down, h)
    requires c.tx.Some? && c.numRx >= ReqPkts(p, c.tx.value) && pkt == Asking(p, c)
    requires pkt.reqNum == c.curReq && pkt.pktNum == c.numRx && S.RfrOk(p, sv, pkt)
    ensures var out := S.ProcessRfr(p, sv, pkt);
            |out.sent| == 1 && out.sent[0].reqNum == c.curReq && out.sent[0].pktNum == c.numRx
  {
    hide WheelInv, NetInv, NumPkts, HasPrefix;
    HistSizes(p, i, c, sv, h, c.curReq);
    assert ActiveInv(p, c, h) && Collecting(p, c, h);
    assert HistAt(p, c, sv, h, c.curReq);
    assert Responded(p, sv, h);
  }

  lemma AskedReq(
    p: Config, i: nat, c: ClientSlot, sv: S.ServerSlot, up: set<Pkt>, down: set<Pkt>, h: Hist, pkt: Pkt,
    mem: Option<seq<byte>>)
    requires PairInv(p, i, c, sv, up, down, h)
    requires c.tx.Some? && c.curReq in h.issued && h.issued[c.curReq] == c.tx.value
    requires c.numRx < ReqPkts(p, c.tx.value) <= PKT_NUM_LIMIT
    requires pkt == ReqPkt(p, c.tx.value, c.curReq, c.numRx)
    requires S.ReqOk(p, sv, pkt, mem)
    ensures var out := S.ProcessReq(p, sv, pkt, mem);
            (|out.sent| == 1 && out.sent[0].reqNum == c.curReq && out.sent[0].pktNum == c.numRx)
            || (out.slot.reqType.Some? && out.slot.curReq == c.curReq && c.numRx == ReqPkts(p, c.tx.value) - 1)
  {
    if sv.curReq == c.curReq {
      assert Receiving(p, sv, h) || Handling(p, sv, h) || Responded(p, sv, h);
    }
  }

  /** With memory at hand the asking packet can be delivered. */
  lemma AskProvided(p: Config, rep: Handlers, s: Sys, ask: Pkt) returns (e: Event)
    requires Inv(p, s) && Ready(p, rep, s) && ask in s.up
    ensures e.ToServer? && e.pkt == ask && Enabled(p, s, e) && Provided(p, s, e)
  {
    hide Inv, AllServable, Provided;
    e := ToServer(ask, Some(seq(ask.msgSize, _ => 0)));
    RespectsProvided(p, s, e, false, false);
  }

  /** Delivering the asking packet produces the answer, or leaves its handler to reply. */
  lemma DeliverAsk(p: Config, rep: Handlers, s: Sys, i: nat) returns (e: Event, t: Sys, pkt: Pkt)
    requires Inv(p, s) && Ready(p, rep, s) && i < p.window
    requires s.cl.slots[i].tx.Some? && Asking(p, s.cl.slots[i]) in s.up
    ensures Leads(p, rep, s, [e], t) && e.ToServer?
    ensures t.cl == s.cl && NoWorse(p, rep, s, t)
    ensures Answered(p, t, i, pkt)
         || (t.srv[i].reqType.Some? && t.srv[i].curReq == s.cl.slots[i].curReq
             && s.cl.slots[i].numRx == ReqPkts(p, s.cl.slots[i].tx.value) - 1)
  {
    hide PairInv, ListsInv, StallInv, Ready, SameReplies, Reaches, S.Allocates;
    var c := s.cl.slots[i];
    var ask := Asking(p, c);
    AskReqNum(p, s, i);
    e := AskProvided(p, rep, s, ask);
    OneStep(p, rep, s, e);
    SlotFacts(p, s, i);
    AskedServer(p, i, c, s.srv[i], s.up, s.down, s.h, ask, e.mem);
    t := Step(p, s, e);
    var out := if ask.kind == Req then S.ProcessReq(p, s.srv[i], ask, e.mem) else S.ProcessRfr(p, s.srv[i], ask);
    hide S.ReqOk, S.RfrOk, S.ProcessReq, S.ProcessRfr, Asking;
    assert t == ServerDid(s, i, out);
    pkt := if out.sent != [] then out.sent[0] else ask;
  }

  /** Delivering the asking packet, and a reply if one is due, produces the answer. */
  lemma Answer(p: Config, rep: Handlers, s: Sys, i: nat) returns (evs: seq<Event>, t: Sys, pkt: Pkt)
    requires Inv(p, s) && Ready(p, rep, s) && i < p.window
    requires s.cl.slots[i].tx.Some? && Asking(p, s.cl.slots[i]) in s.up
    ensures Leads(p, rep, s, evs, t) && Indifferent(evs)
    ensures forall e :: e in evs ==> e.ToServer? || e.Reply?
    ensures t.cl == s.cl && NoWorse(p, rep, s, t) && Answered(p, t, i, pkt)
  {
    hide Ready, SameReplies, Reaches;
    var e, s1, pkt1 := DeliverAsk(p, rep, s, i);
    if Answered(p, s1, i, pkt1) {
      evs, t, pkt := [e], s1, pkt1;
    } else {
      var data;
      t, pkt, data := ReplyAnswers(p, rep, s1, i);
      LeadsJoin(p, rep, s, [e], s1, [Reply(i, data)], t);
      evs := [e] + [Reply(i, data)];
    }
  }

  lemma AskReqNum(p: Config, s: Sys, i: nat)
    requires Inv(p, s) && i < p.window && s.cl.slots[i].tx.Some?
    ensures Asking(p, s.cl.slots[i]).reqNum == s.cl.slots[i].curReq && SlotOf(p, s.cl.slots[i].curReq) == i
  {
    hide ListsInv, StallInv;
    SlotFacts(p, s, i);
    assert ActiveInv(p, s.cl.slots[i], s.h);
  }

  /** The handler's reply leaves the number of awaited packets alone. */
  lemma ReplyAnswers(p: Config, rep: Handlers, s: Sys, i: nat) returns (t: Sys, pkt: Pkt, data: seq<byte>)
    requires Inv(p, s) && Ready(p, rep, s) && i < p.window
    requires s.cl.slots[i].tx.Some? && s.srv[i].curReq == s.cl.slots[i].curReq && s.srv[i].reqType.Some?
    requires s.cl.slots[i].numRx == ReqPkts(p, s.cl.slots[i].tx.value) - 1
    ensures Leads(p, rep, s, [Reply(i, data)], t)
    ensures t.cl == s.cl && NoWorse(p, rep, s, t) && Answered(p, t, i, pkt)
  {
    hide PairInv, ListsInv, StallInv;
    ReplyFacts(p, s, i);
    data := rep(Call(s.h, s.srv[i].curReq));
    assert Fits(p, rep, s.h.issued[s.srv[i].curReq], s.srv[i].curReq);
    assert Enabled(p, s, Reply(i, data));
    hide Inv, Step, Safe, Awaited, Reaches, S.EnqueueResponse;
    OneStep(p, rep, s, Reply(i, data));
    t := Step(p, s, Reply(i, data));
    pkt := ReplyStep(p, s, i, data);
    ReplyAwaits(p, rep, s, t, s.srv[i].curReq);
  }

  /** What a reply does: its first packet answers the last request packet. */
  lemma ReplyStep(p: Config, s: Sys, i: nat, data: seq<byte>) returns (pkt: Pkt)
    requires Safe(p, s, Reply(i, data)) && s.srv[i].req.value.numPkts <= PKT_NUM_LIMIT
    ensures var t := Step(p, s, Reply(i, data));
      && t.cl == s.cl && t.h == s.h.(replies := s.h.replies[s.srv[i].curReq := data])
      && pkt in t.down && pkt.reqNum == s.srv[i].curReq && pkt.pktNum == s.srv[i].req.value.numPkts - 1
  {
    pkt := S.EnqueueResponse(p, s.srv[i], data).sent[0];
  }

  lemma ReplyAwaits(p: Config, rep: Handlers, s: Sys, t: Sys, r: nat)
    requires Inv(p, s) && r in s.h.issued && r !in s.h.replies
    requires t.cl == s.cl && t.h == s.h.(replies := s.h.replies[r := rep(Call(s.h, r))])
    ensures NoWorse(p, rep, s, t)
  {
    hide ListsInv, StallInv, PairInv, NumPkts;
    forall j: nat | j < p.window
      ensures Awaited(p, rep, t.cl.slots[j], t.h) <= Awaited(p, rep, s.cl.slots[j], s.h)
    {
    }
  }

  lemma ReplyFacts(p: Config, s: Sys, i: nat)
    requires Inv(p, s) && i < p.window
    requires s.cl.slots[i].tx.Some? && s.srv[i].curReq == s.cl.slots[i].curReq && s.srv[i].reqType.Some?
    ensures var r := s.srv[i].curReq;
            && r in s.h.issued && r !in s.h.replies && s.h.issued[r] == s.cl.slots[i].tx.value
            && s.srv[i].req.Some? && s.srv[i].req.value.numPkts == ReqN(p, s.h, r) <= PKT_NUM_LIMIT
            && SlotOf(p, r) == i
  {
    hide ListsInv, StallInv;
    SlotFacts(p, s, i);
    HistSizes(p, i, s.cl.slots[i], s.srv[i], s.h, s.srv[i].curReq);
    assert Handling(p, s.srv[i], s.h);
  }

  // ---------------------------------------------------------------------------
  // One round
  // ---------------------------------------------------------------------------

  ghost predicate Smaller(p: Config, rep: Handlers, s: Sys, t: Sys)
    requires Inv(p, s) && Inv(p, t)
  {
    |t.cl.backlog| < |s.cl.backlog| || (|t.cl.backlog| == |s.cl.backlog| && Measure(p, rep, t) < Measure(p, rep, s))
  }

  /** The event fails no assertion and leaves less to be awaited. */
  ghost predicate GoesDown(p: Config, rep: Handlers, s: Sys, e: Event)
    requires Inv(p, s)
  {
    Keeps(p, s, e) && Smaller(p, rep, s, Step(p, s, e))
  }

  lemma NoWorseSmaller(p: Config, rep: Handlers, s: Sys, m: Sys, t: Sys)
    requires Inv(p, s) && Inv(p, m) && Inv(p, t) && NoWorse(p, rep, s, m) && Smaller(p, rep, m, t)
    ensures Smaller(p, rep, s, t)
  {
    TotalLess(p, rep, m.cl.slots, m.h, s.cl.slots, s.h);
  }

  /** The slot step of a received packet: one packet fewer is awaited. */
  lemma StepSmaller(p: Config, rep: Handlers, s: Sys, i: nat, g: Kick)
    requires Inv(p, s) && i < p.window && StepFits(p, s, i, g) && Inv(p, SlotStep(s, i, g))
    requires g.slot.tx == s.cl.slots[i].tx && g.slot.curReq == s.cl.slots[i].curReq &&
             g.slot.numRx == s.cl.slots[i].numRx + 1
    ensures Smaller(p, rep, s, SlotStep(s, i, g))
  {
    hide ListsInv, StallInv;
    var t := SlotStep(s, i, g);
    SlotFacts(p, s, i);
    assert Awaited(p, rep, t.cl.slots[i], t.h) < Awaited(p, rep, s.cl.slots[i], s.h);
    TotalLess(p, rep, t.cl.slots, t.h, s.cl.slots, s.h);
  }

  /** Receiving the answer: the client awaits one packet fewer, or completes a request. */
  lemma Take(p: Config, rep: Handlers, s: Sys, i: nat, pkt: Pkt, u: bool) returns (t: Sys)
    requires Inv(p, s) && Ready(p, rep, s) && i < p.window && Answered(p, s, i, pkt)
    requires s.cl.slots[i].tx.Some? && s.cl.slots[i].numTx > s.cl.slots[i].numRx && s.cl.slots[i].wheel == multiset{}
    ensures Leads(p, rep, s, [ToClient(pkt, u)], t) && Smaller(p, rep, s, t)
  {
    hide PairInv, ListsInv, StallInv, Ready, SameReplies, Reaches;
    AnswerInOrder(p, s, i, pkt);
    OneStep(p, rep, s, ToClient(pkt, u));
    t := Step(p, s, ToClient(pkt, u));
    if pkt.kind == ExplCr {
      TakeCr(p, rep, s, i, pkt, u);
    } else if s.cl.slots[i].numRx + 1 < ReqN(p, s.h, pkt.reqNum) + RespN(p, s.h, pkt.reqNum) - 1 {
      TakeResp(p, rep, s, i, pkt, u);
    } else {
      TakeLast(p, rep, s, i, pkt, u);
    }
  }

  lemma AnswerInOrder(p: Config, s: Sys, i: nat, pkt: Pkt)
    requires Inv(p, s) && i < p.window && Answered(p, s, i, pkt)
    requires s.cl.slots[i].tx.Some? && s.cl.slots[i].numTx > s.cl.slots[i].numRx && s.cl.slots[i].wheel == multiset{}
    ensures SlotOf(p, pkt.reqNum) == i && InOrderAt(p, s, pkt) && pkt.msgSize <= p.maxMsgSize
    ensures pkt.kind == ExplCr || (pkt.kind == Resp && Covers(s.h, pkt.reqNum)
              && s.cl.slots[i].numRx + 1 <= ReqN(p, s.h, pkt.reqNum) + RespN(p, s.h, pkt.reqNum) - 1)
  {
    hide ListsInv, StallInv;
    SlotFacts(p, s, i);
    DownFacts(p, s, pkt);
    assert !Bit(p.credits, s.cl.slots[i], s.cl.slots[i].numRx);
    if pkt.kind == Resp {
      RespCovered(p, s, pkt);
    }
  }

  lemma TakeCr(p: Config, rep: Handlers, s: Sys, i: nat, pkt: Pkt, u: bool)
    requires Inv(p, s) && pkt in s.down && pkt.kind == ExplCr && InOrderAt(p, s, pkt) && SlotOf(p, pkt.reqNum) == i
    ensures GoesDown(p, rep, s, ToClient(pkt, u))
  {
    hide PairInv, StepFits, Step, Safe;
    var g := ExplCrTakes(p, s, pkt, u);
    StepSmaller(p, rep, s, i, g);
  }

  lemma TakeResp(p: Config, rep: Handlers, s: Sys, i: nat, pkt: Pkt, u: bool)
    requires Inv(p, s) && pkt in s.down && pkt.kind == Resp && InOrderAt(p, s, pkt) && SlotOf(p, pkt.reqNum) == i
    requires Covers(s.h, pkt.reqNum) && pkt.msgSize <= p.maxMsgSize
    requires s.cl.slots[i].numRx + 1 < ReqN(p, s.h, pkt.reqNum) + RespN(p, s.h, pkt.reqNum) - 1
    ensures GoesDown(p, rep, s, ToClient(pkt, u))
  {
    hide PairInv, StepFits, PullPath, Step, Safe;
    RespMoreKeeps(p, s, pkt, u);
    var g := RespMoreFits(p, s, pkt);
    SlotStepKeeps(p, s, i, g);
    PullPathStep(p, s.cl, i, pkt, g, u);
    RespStep(p, s, pkt, u);
    assert Step(p, s, ToClient(pkt, u)) == SlotStep(s, i, g);
    PullProgress(p, s.cl, i, pkt, g);
    StepSmaller(p, rep, s, i, g);
  }

  lemma PullProgress(p: Config, cl: Client, i: nat, pkt: Pkt, g: Kick)
    requires PullPath(p, cl, i, pkt, g)
    ensures g.slot.tx == cl.slots[i].tx && g.slot.curReq == cl.slots[i].curReq && g.slot.numRx == cl.slots[i].numRx + 1
  {
  }

  lemma LastStep(p: Config, s: Sys, i: nat, pkt: Pkt, u: bool, c2: ClientSlot)
    requires pkt.kind == Resp && pkt.msgSize <= p.maxMsgSize && SlotOf(p, pkt.reqNum) == i &&
             LastPath(p, s.cl, i, pkt, c2)
    requires CompleteOk(p, WithKick(s.cl, i, Kick(s.cl.credits + 1, c2, [])), i)
    ensures Safe(p, s, ToClient(pkt, u))
    ensures Step(p, s, ToClient(pkt, u)) ==
            ClientDid(s, Complete(p, WithKick(s.cl, i, Kick(s.cl.credits + 1, c2, [])), i, u))
  {
    hide LastPath, CompleteOk, Complete, RespOk, ProcessResp;
    LastPathStep(p, s.cl, i, c2, pkt, u);
    RespStep(p, s, pkt, u);
  }

  /** A completion with an empty backlog leaves its slot awaiting nothing. */
  lemma CompletedLess(p: Config, rep: Handlers, s: Sys, t: Sys, i: nat, c2: ClientSlot)
    requires Inv(p, s) && i < p.window && s.cl.slots[i].tx.Some?
    requires |t.cl.slots| == p.window && t.cl.slots == s.cl.slots[i := c2.(tx := None)]
    requires t.h.issued == s.h.issued && t.h.replies == s.h.replies
    ensures TotalAwaited(p, rep, t.cl.slots, t.h) < TotalAwaited(p, rep, s.cl.slots, s.h)
  {
    AwaitedNonNeg(p, rep, s, i);
    assert Awaited(p, rep, t.cl.slots[i], t.h) < Awaited(p, rep, s.cl.slots[i], s.h);
    TotalLess(p, rep, t.cl.slots, t.h, s.cl.slots, s.h);
  }

  lemma TakeLast(p: Config, rep: Handlers, s: Sys, i: nat, pkt: Pkt, u: bool)
    requires Inv(p, s) && pkt in s.down && pkt.kind == Resp && InOrderAt(p, s, pkt) && SlotOf(p, pkt.reqNum) == i
    requires Covers(s.h, pkt.reqNum) && s.cl.slots[i].tx.Some? && pkt.msgSize <= p.maxMsgSize
    requires s.cl.slots[i].numRx + 1 == ReqN(p, s.h, pkt.reqNum) + RespN(p, s.h, pkt.reqNum) - 1
    requires Keeps(p, s, ToClient(pkt, u))
    ensures GoesDown(p, rep, s, ToClient(pkt, u))
  {
    hide PairInv, LastPath, Step, Safe, Complete;
    var c2 := RespLastSlot(p, s, pkt, u);
    LastStep(p, s, i, pkt, u, c2);
    CompleteFacts(p, WithKick(s.cl, i, Kick(s.cl.credits + 1, c2, [])), i, u);
    if s.cl.backlog == [] {
      CompletedLess(p, rep, s, Step(p, s, ToClient(pkt, u)), i, c2);
    }
  }

  lemma CompleteFacts(p: Config, cl: Client, i: nat, u: bool)
    requires CompleteOk(p, cl, i)
    ensures var out := Complete(p, cl, i, u);
            if cl.backlog == []
            then out.cl.slots == cl.slots[i := cl.slots[i].(tx := None)] && out.cl.backlog == [] && out.issued.None?
            else |out.cl.backlog| == |cl.backlog| - 1
  {
  }

  // ---------------------------------------------------------------------------
  // The stall queue, and a whole round
  // ---------------------------------------------------------------------------

  lemma {:induction false} StallLoopFacts(p: Config, cl: Client, q: seq<nat>, kept: seq<nat>, sent: seq<Pkt>, u: bool)
    requires StallOk(p, cl, q, u)
    ensures var out := StallLoop(p, cl, q, kept, sent, u);
            && |out.cl.slots| == |cl.slots| && out.cl.backlog == cl.backlog
            && out.cl.credits <= cl.credits
            && (q != [] && cl.credits > 0 && cl.slots[q[0]].numTx == cl.slots[q[0]].numRx ==>
                out.cl.credits < cl.credits)
            && forall j :: 0 <= j < |cl.slots| ==> SameProgress(cl.slots[j], out.cl.slots[j])
    decreases |q|
  {
    if q != [] {
      if cl.credits > 0 {
        var g := KickAny(p, cl.credits, cl.slots[q[0]], u);
        KickProgress(p, cl.credits, cl.slots[q[0]], u);
        StallLoopFacts(p, WithKick(cl, q[0], g), q[1..], kept, sent + g.sent, u);
      } else {
        StallLoopFacts(p, cl, q[1..], kept + [q[0]], sent, u);
      }
    }
  }

  lemma KickProgress(p: Config, credits: nat, c: ClientSlot, u: bool)
    requires KickOk(p, credits, c)
    ensures SameProgress(c, KickAny(p, credits, c, u).slot)
    ensures KickAny(p, credits, c, u).credits <= credits
    ensures c.numTx == c.numRx ==> KickAny(p, credits, c, u).credits < credits
  {
  }

  /** With nothing outstanding all credits are available, and serving the stall queue puts
      packets of some slot on their way. */
  lemma Unstall(p: Config, rep: Handlers, s: Sys, u: bool) returns (t: Sys, j: nat)
    requires Inv(p, s) && Ready(p, rep, s) && s.cl.active != []
    requires forall k: nat :: k < p.window ==> s.cl.slots[k].numTx == s.cl.slots[k].numRx
    ensures Leads(p, rep, s, [ServeStalled(u)], t) && NoWorse(p, rep, s, t)
    ensures j < p.window && t.cl.slots[j].tx.Some? && t.cl.slots[j].numTx > t.cl.slots[j].numRx
  {
    hide PairInv, StallOk, ProcessStallQueue, Ready, SameReplies, Reaches;
    StalledHead(p, s);
    OneStep(p, rep, s, ServeStalled(u));
    t := Step(p, s, ServeStalled(u));
    StallServed(p, rep, s, u);
    j := SomeOutstanding(p, t);
    SlotFacts(p, t, j);
    ActiveIfOutstanding(p, t, j);
  }

  lemma ActiveIfOutstanding(p: Config, s: Sys, j: nat)
    requires Inv(p, s) && j < p.window && s.cl.slots[j].numTx != s.cl.slots[j].numRx
    ensures s.cl.slots[j].tx.Some?
  {
    hide ListsInv, StallInv;
    SlotFacts(p, s, j);
  }

  lemma StalledHead(p: Config, s: Sys)
    requires Inv(p, s) && s.cl.active != []
    requires forall k: nat :: k < p.window ==> s.cl.slots[k].numTx == s.cl.slots[k].numRx
    ensures s.cl.credits == p.credits && s.cl.stallq != [] && s.cl.stallq[0] < p.window
  {
    hide PairInv;
    OutstandingZero(s.cl.slots);
    assert s.cl.active[0] in s.cl.active;
    assert s.cl.active[0] in s.cl.stallq;
    assert s.cl.stallq[0] in s.cl.stallq;
  }

  /** Serving a non-empty stall queue spends a credit and takes nothing back. */
  lemma StallServed(p: Config, rep: Handlers, s: Sys, u: bool)
    requires |s.cl.slots| == p.window && s.cl.credits > 0 && s.cl.stallq != [] && s.cl.stallq[0] < p.window
    requires s.cl.slots[s.cl.stallq[0]].numTx == s.cl.slots[s.cl.stallq[0]].numRx
    requires Safe(p, s, ServeStalled(u))
    ensures var t := Step(p, s, ServeStalled(u));
            t.cl.credits < s.cl.credits && NoWorse(p, rep, s, t)
  {
    hide StallOk;
    StallLoopFacts(p, s.cl, s.cl.stallq, [], [], u);
  }

  /** Ask, answer, take: one round for a slot with packets outstanding. */
  lemma RoundAt(p: Config, rep: Handlers, s: Sys, i: nat, u: Congestion, past: seq<Event>)
    returns (evs: seq<Event>, t: Sys)
    requires Inv(p, s) && Ready(p, rep, s) && i < p.window
    requires s.cl.slots[i].tx.Some? && s.cl.slots[i].numTx > s.cl.slots[i].numRx
    ensures Leads(p, rep, s, evs, t) && Smaller(p, rep, s, t) && Under(u, past, evs)
  {
    hide PairInv, ListsInv, StallInv, CreditInv, BacklogInv, Reaches, Ready, SameReplies, Under, Indifferent;
    var evs1, s1 := Ask(p, rep, s, i, u, past);
    var evs2, s2, pkt := Answer(p, rep, s1, i);
    var take := ToClient(pkt, u(past + (evs1 + evs2)));
    t := Take(p, rep, s2, i, pkt, take.uncongested);
    LeadsJoin(p, rep, s, evs1, s1, evs2, s2);
    LeadsJoin(p, rep, s, evs1 + evs2, s2, [take], t);
    UnderAny(u, past + evs1, evs2);
    UnderJoin(u, past, evs1, evs2);
    UnderOne(u, past + (evs1 + evs2), take);
    UnderJoin(u, past, evs1 + evs2, [take]);
    evs := evs1 + evs2 + [take];
    assert NoWorse(p, rep, s, s1);
    NoWorseSmaller(p, rep, s1, s2, t);
    NoWorseSmaller(p, rep, s, s1, t);
  }

  lemma Round(p: Config, rep: Handlers, s: Sys, u: Congestion, past: seq<Event>) returns (evs: seq<Event>, t: Sys)
    requires Inv(p, s) && Ready(p, rep, s) && s.cl.active != []
    ensures Leads(p, rep, s, evs, t) && Smaller(p, rep, s, t) && Under(u, past, evs)
  {
    hide Ready, SameReplies, Reaches, Under;
    if k: nat :| k < p.window && s.cl.slots[k].numTx != s.cl.slots[k].numRx {
      SlotFacts(p, s, k);
      evs, t := RoundAt(p, rep, s, k, u, past);
    } else {
      var serve := ServeStalled(u(past));
      var s1, j := Unstall(p, rep, s, serve.uncongested);
      evs, t := RoundAt(p, rep, s1, j, u, past + [serve]);
      LeadsJoin(p, rep, s, [serve], s1, evs, t);
      UnderOne(u, past, serve);
      UnderJoin(u, past, [serve], evs);
      evs := [serve] + evs;
      NoWorseSmaller(p, rep, s, s1, t);
    }
  }

  // ---------------------------------------------------------------------------
  // Completion
  // ---------------------------------------------------------------------------

  /** Some finite schedule without new requests leaves no request active, however the session
      becomes congested and uncongested on the way. */
  lemma {:induction false} Completes(p: Config, rep: Handlers, s: Sys, u: Congestion, past: seq<Event>)
    returns (evs: seq<Event>, t: Sys)
    requires Inv(p, s) && Ready(p, rep, s)
    ensures Leads(p, rep, s, evs, t) && t.cl.active == [] && t.cl.backlog == []
    ensures Under(u, past, evs)
    decreases |s.cl.backlog|, Measure(p, rep, s)
  {
    if s.cl.active == [] {
      evs, t := [], s;
      LeadsNowhere(p, rep, s);
      AllFree(p, s);
    } else {
      var evs1, s1 := Round(p, rep, s, u, past);
      evs, t := Completes(p, rep, s1, u, past + evs1);
      LeadsJoin(p, rep, s, evs1, s1, evs, t);
      UnderJoin(u, past, evs1, evs);
      evs := evs1 + evs;
    }
  }

  lemma AllFree(p: Config, s: Sys)
    requires Inv(p, s) && s.cl.active == []
    ensures s.cl.backlog == []
  {
    assert 0 < p.window;
    assert 0 in s.cl.free;
  }

  /** Every packet in flight is lost. */
  function Lost(s: Sys): Sys {
    s.(up := {}, down := {})
  }

  lemma LostKeeps(p: Config, s: Sys)
    requires Inv(p, s)
    ensures Inv(p, Lost(s))
  {
    hide ClientInv, ServerInv, Linked, HistInv;
    forall j: nat | j < p.window
      ensures AtSlot(p, Lost(s), j)
    {
      assert AtSlot(p, s, j);
    }
  }

  lemma LostReady(p: Config, rep: Handlers, s: Sys)
    requires Ready(p, rep, s)
    ensures Ready(p, rep, Lost(s))
  {
  }

  /** From every reachable state in which every packet in flight is then lost, and for all
      handlers whose replies fit, a finite schedule of retransmissions, loss-free deliveries
      and those replies gives every backlogged request a number, and runs every request's
      handler and continuation exactly once, the latter on the handler's reply. It does so
      whenever the session is congested or not, as decided anew at each event. */
  lemma EveryRequestCompletes(p: Config, rep: Handlers, s: Sys, u: Congestion) returns (evs: seq<Event>, t: Sys)
    requires Reachable(p, s) && Ready(p, rep, s)
    ensures Reaches(p, Lost(s), evs, t) && NoIssue(evs) && Under(u, [], evs)
    ensures |t.h.issued| == |s.h.issued| + |s.cl.backlog| && t.cl.backlog == []
    ensures forall r :: r in s.h.issued ==> r in t.h.issued && t.h.issued[r] == s.h.issued[r]
    ensures forall r :: r in t.h.issued ==>
      && t.h.ran[r] == 1 && t.h.done[r] == 1 && r in t.h.outcome
      && t.h.outcome[r] == if r in s.h.replies then s.h.replies[r] else rep(Call(t.h, r))
  {
    ReachableInv(p, s);
    LostKeeps(p, s);
    LostReady(p, rep, s);
    evs, t := Completes(p, rep, Lost(s), u, []);
    forall r | r in t.h.issued
      ensures t.h.ran[r] == 1 && t.h.done[r] == 1 && r in t.h.outcome && r in t.h.replies
      ensures t.h.outcome[r] == if r in s.h.replies then s.h.replies[r] else rep(Call(t.h, r))
    {
      CompletedAt(p, t, r);
      if r in s.h.replies { RepliesIssued(p, s, r); }
    }
  }

  lemma CompletedAt(p: Config, t: Sys, r: nat)
    requires Inv(p, t) && t.cl.active == [] && r in t.h.issued
    ensures t.h.ran[r] == 1 && t.h.done[r] == 1 && r in t.h.replies && r in t.h.outcome
    ensures t.h.outcome[r] == t.h.replies[r]
  {
    HistOf(p, t, r);
    SlotFacts(p, t, SlotOf(p, r));
  }

  lemma StepIssued(p: Config, s: Sys, e: Event, r: nat)
    requires Inv(p, s) && Enabled(p, s, e) && Safe(p, s, e) && r in s.h.issued
    ensures r in Step(p, s, e).h.issued && Step(p, s, e).h.issued[r] == s.h.issued[r]
  {
    hide Inv, Safe, Step;
    if e.Issue? {
      IssueFresh(p, s, e.req, e.uncongested, r);
    } else {
      var issued := StepMoves(p, s, e);
    }
  }

  lemma IssueFresh(p: Config, s: Sys, req: Request, u: bool, r: nat)
    requires Inv(p, s) && Safe(p, s, Issue(req, u)) && r in s.h.issued
    ensures var t := Step(p, s, Issue(req, u)); r in t.h.issued && t.h.issued[r] == s.h.issued[r]
  {
    hide PairInv, StallInv, EnqueueRequest;
    AtomicRpc.EnqueueRecords(p, s.cl, req, u);
    if s.cl.free != [] {
      assert Last(s.cl.free) in s.cl.free;
      AtomicRpc.NextIsFresh(p, s, Last(s.cl.free));
    }
  }

  lemma {:induction false} IssuedStays(p: Config, s: Sys, evs: seq<Event>, t: Sys, r: nat)
    requires Inv(p, s) && Reaches(p, s, evs, t) && r in s.h.issued
    ensures r in t.h.issued && t.h.issued[r] == s.h.issued[r]
    decreases |evs|
  {
    hide Inv, Safe, Enabled, Step;
    if evs != [] {
      StepKeeps(p, s, evs[0]);
      StepIssued(p, s, evs[0], r);
      IssuedStays(p, Step(p, s, evs[0]), evs[1..], t, r);
    }
  }

  /** An empty request to a background handler is never served, so the condition that
      outstanding requests are servable is needed. */
  lemma EmptyNeverServed(p: Config, s: Sys, evs: seq<Event>, t: Sys, r: nat)
    requires Reachable(p, s) && Reaches(p, s, evs, t)
    requires r in s.h.issued && !Servable(p, s.h.issued[r])
    ensures t.h.ran[r] == 0 && t.h.done[r] == 0
  {
    ReachableInv(p, s);
    IssuedStays(p, s, evs, t, r);
    var past :| Reaches(p, Init(p), past, s);
    ReachesJoin(p, Init(p), past, s, evs, t);
    AtMostOnce(p, t, r);
    ReachableInv(p, t);
    HistOf(p, t, r);
  }
}
