/** What an event makes the client send, and when: an event that touches a slot sends all that
    credits allow; packets go past the wheel exactly when the session is uncongested and the
    slot has none there; stalled slots are served in turn; and old packets do nothing. */
module Sending {
  import opened Wire
  import opened ClientSpec
  import opened Protocol
  import opened ProtocolProof
  import opened Progress
  import opened ListFacts
  import opened Runs
  import ClientProof
  import S = ServerSpec

  /** Packets that the slot can send: those of the request, and the pulls of the response once
      its first packet is there. */
  function Goal(p: Config, c: ClientSlot): nat
    requires c.tx.Some?
  {
    if c.numRx < ReqPkts(p, c.tx.value) then ReqPkts(p, c.tx.value) else SlotWirePkts(p, c)
  }

  /** The slot has sent all of them. */
  predicate Sated(p: Config, c: ClientSlot) {
    c.tx.Some? && c.numTx == Goal(p, c)
  }

  predicate Touched(c: ClientSlot, d: ClientSlot) {
    d.curReq != c.curReq || d.numTx != c.numTx || d.numRx != c.numRx
  }

  /** What may happen to slot `j` in an event that sends these packets. */
  predicate SlotMoved(p: Config, j: nat, c: ClientSlot, d: ClientSlot, credits: nat, sent: seq<Pkt>, u: bool) {
    && (Touched(c, d) && d.tx.Some? ==> credits == 0 || Sated(p, d))
    && (u && c.wheelCount == 0 ==> d.wheelCount == 0)
    && (c.wheelCount > 0 ==> d.wheelCount > 0)
    && (c.wheelCount > 0 || !u ==> forall pkt :: pkt in sent && pkt.kind == Req ==> SlotOf(p, pkt.reqNum) != j)
    && d.curReq % p.window == c.curReq % p.window
  }

  /** The event spends all the credits that touched slots can use, and sends past the wheel or
      through it as the session and the slot demand. */
  ghost predicate Moved(p: Config, a: Client, b: Client, sent: seq<Pkt>, u: bool) {
    && |a.slots| == |b.slots|
    && forall j: nat {:trigger b.slots[j]} :: j < |a.slots| ==>
         SlotMoved(p, j, a.slots[j], b.slots[j], b.credits, sent, u)
  }

  /** Slots are numbered by their requests, and have sent no more than they can. */
  ghost predicate Slotted(p: Config, cl: Client) {
    forall j: nat {:trigger cl.slots[j]} :: j < |cl.slots| ==>
      && SlotOf(p, cl.slots[j].curReq) == j && cl.slots[j].numRx <= cl.slots[j].numTx
      && (cl.slots[j].tx.Some? ==> cl.slots[j].numTx <= Goal(p, cl.slots[j]))
  }

  // ---------------------------------------------------------------------------
  // Kicks
  // ---------------------------------------------------------------------------

  lemma {:induction false} ReqsMove(p: Config, g: Kick, n: nat, bypass: bool)
    requires CanSendReq(p, g, n)
    ensures var g' := SendReqs(p, g, n, bypass);
      && (bypass ==> g'.slot.wheelCount == g.slot.wheelCount)
      && g'.slot.wheelCount >= g.slot.wheelCount
      && (forall pkt :: pkt in g'.sent && pkt.kind == Req ==>
            pkt in g.sent || (bypass && pkt.reqNum == g.slot.curReq))
    decreases n
  {
    if n > 0 {
      ReqsMove(p, SendReq(p, g, bypass), n - 1, bypass);
    }
  }

  lemma {:induction false} RfrsMove(g: Kick, n: nat)
    requires n <= g.credits
    ensures forall pkt :: pkt in SendRfrs(g, n).sent ==> pkt in g.sent || pkt.kind == Rfr
    decreases n
  {
    if n > 0 {
      RfrsMove(SendRfr(g), n - 1);
    }
  }

  lemma KickMoves(p: Config, credits: nat, c: ClientSlot, u: bool)
    requires KickOk(p, credits, c) && c.numRx <= c.numTx
    ensures var g := KickAny(p, credits, c, u);
      && g.credits <= credits && (g.credits == 0 || Sated(p, g.slot))
      && g.slot.tx == c.tx && g.slot.curReq == c.curReq && g.slot.numRx == c.numRx && g.slot.resp == c.resp
      && g.slot.numTx == c.numTx + (credits - g.credits) <= Goal(p, g.slot)
      && (u && c.wheelCount == 0 ==> g.slot.wheelCount == 0)
      && g.slot.wheelCount >= c.wheelCount
      && (forall pkt :: pkt in g.sent && pkt.kind == Req ==> c.wheelCount == 0 && u && pkt.reqNum == c.curReq)
  {
    if ReqPktsPending(p, c) {
      ReqsMove(p, Kick(credits, c, []), Min(credits, ReqPkts(p, c.tx.value) - c.numTx), c.wheelCount == 0 && u);
    } else {
      RfrsMove(Kick(credits, c, []), Min(credits, SlotWirePkts(p, c) - c.numTx));
    }
  }

  /** One slot changes, by a kick that may come after its request or its counts changed. */
  lemma KickedMoves(p: Config, cl: Client, i: nat, credits: nat, c: ClientSlot, u: bool)
    requires Slotted(p, cl) && i < |cl.slots| && KickOk(p, credits, c) && c.numRx <= c.numTx
    requires SlotOf(p, c.curReq) == i && c.wheelCount == cl.slots[i].wheelCount
    ensures var g := KickAny(p, credits, c, u);
      Moved(p, cl, WithKick(cl, i, g), g.sent, u) && Slotted(p, WithKick(cl, i, g))
  {
    hide KickAny, KickOk, Sated;
    KickMoves(p, credits, c, u);
  }

  lemma MovedJoin(p: Config, a: Client, b: Client, s: seq<Pkt>, c: Client, t: seq<Pkt>, u: bool)
    requires Moved(p, a, b, s, u) && Moved(p, b, c, t, u) && c.credits <= b.credits
    requires forall j: nat :: j < |a.slots| ==> SameRequest(b.slots[j], c.slots[j])
    ensures Moved(p, a, c, s + t, u)
  {
    hide Sated;
    forall j: nat | j < |a.slots|
      ensures SlotMoved(p, j, a.slots[j], c.slots[j], c.credits, s + t, u)
    {
      assert SlotMoved(p, j, a.slots[j], b.slots[j], b.credits, s, u);
      assert SlotMoved(p, j, b.slots[j], c.slots[j], c.credits, t, u);
      if !Touched(b.slots[j], c.slots[j]) && Sated(p, b.slots[j]) {
        SatedSame(p, b.slots[j], c.slots[j]);
      }
    }
  }

  predicate SameRequest(c: ClientSlot, d: ClientSlot) {
    d.tx == c.tx && d.resp == c.resp
  }

  lemma SatedSame(p: Config, c: ClientSlot, d: ClientSlot)
    requires Sated(p, c) && SameRequest(c, d) && !Touched(c, d)
    ensures Sated(p, d)
  {
  }

  lemma MovedNot(p: Config, cl: Client, u: bool)
    ensures Moved(p, cl, cl, [], u)
  {
  }

  // ---------------------------------------------------------------------------
  // The stall queue
  // ---------------------------------------------------------------------------

  /** The stalled slots are served in turn while credits last, and the others wait on in the
      same order. */
  lemma {:induction false} StallMoves(p: Config, cl: Client, q: seq<nat>, kept: seq<nat>, sent: seq<Pkt>, u: bool)
    returns (more: seq<Pkt>, n: nat)
    requires StallOk(p, cl, q, u) && Slotted(p, cl) && (kept == [] || cl.credits == 0)
    ensures var out := StallLoop(p, cl, q, kept, sent, u);
      && out.sent == sent + more && Moved(p, cl, out.cl, more, u)
      && out.cl.credits <= cl.credits
      && |out.cl.slots| == |cl.slots|
      && (forall j: nat :: j < |cl.slots| ==> SameRequest(cl.slots[j], out.cl.slots[j]))
      && n <= |q| && out.cl.stallq == kept + q[n..] && (n < |q| ==> out.cl.credits == 0)
      && (n < |q| && cl.credits == 0 ==> n == 0) && (q != [] && cl.credits > 0 ==> n > 0)
    decreases |q|
  {
    hide KickAny, KickOk, Moved, Slotted, SlotMoved;
    if q == [] {
      more, n := [], 0;
      MovedNot(p, cl, u);
      MovedQueue(p, cl, cl, kept, [], u);
    } else if cl.credits > 0 {
      var i, g := q[0], KickAny(p, cl.credits, cl.slots[q[0]], u);
      KickedAt(p, cl, i, u);
      more, n := StallMoves(p, WithKick(cl, i, g), q[1..], kept, sent + g.sent, u);
      var out := StallLoop(p, cl, q, kept, sent, u);
      MovedJoin(p, cl, WithKick(cl, i, g), g.sent, out.cl, more, u);
      more, n := g.sent + more, n + 1;
    } else {
      StallNone(p, cl, q, kept, sent, u);
      more, n := [], 0;
      MovedNot(p, cl, u);
      MovedQueue(p, cl, cl, kept + q, [], u);
    }
  }

  lemma MovedQueue(p: Config, a: Client, b: Client, kept: seq<nat>, sent: seq<Pkt>, u: bool)
    requires Moved(p, a, b, sent, u)
    ensures Moved(p, a, b.(stallq := kept), sent, u)
  {
  }

  /** Without credits nothing is served. */
  lemma {:induction false} StallNone(p: Config, cl: Client, q: seq<nat>, kept: seq<nat>, sent: seq<Pkt>, u: bool)
    requires StallOk(p, cl, q, u) && cl.credits == 0
    ensures StallLoop(p, cl, q, kept, sent, u) == ClientOut(cl.(stallq := kept + q), sent, None, None)
    decreases |q|
  {
    if q != [] {
      StallNone(p, cl, q[1..], kept + [q[0]], sent, u);
      assert kept + [q[0]] + q[1..] == kept + q;
    } else {
      assert kept + q == kept;
    }
  }

  lemma KickedAt(p: Config, cl: Client, i: nat, u: bool)
    requires Slotted(p, cl) && i < |cl.slots| && KickOk(p, cl.credits, cl.slots[i])
    ensures var g := KickAny(p, cl.credits, cl.slots[i], u);
      && Moved(p, cl, WithKick(cl, i, g), g.sent, u) && Slotted(p, WithKick(cl, i, g))
      && g.credits <= cl.credits && SameRequest(cl.slots[i], g.slot)
  {
    hide KickAny, KickOk, Moved;
    KickMoves(p, cl.credits, cl.slots[i], u);
    KickedMoves(p, cl, i, cl.credits, cl.slots[i], u);
  }

  // ---------------------------------------------------------------------------
  // Retransmissions
  // ---------------------------------------------------------------------------

  /** The slot asks for what it awaits: the packet is sent or in the wheel. */
  ghost predicate Asks(p: Config, c: ClientSlot, d: ClientSlot, sent: seq<Pkt>)
    requires c.tx.Some?
  {
    Asking(p, c) in sent || (c.numRx < ReqPkts(p, c.tx.value) && c.numRx in d.wheel)
  }

  predicate Lossy(c: ClientSlot) {
    c.tx.Some? && c.numTx > c.numRx && c.wheelCount == 0
  }

  lemma RetransmitMoves(p: Config, cl: Client, i: nat, u: bool)
    requires RetransmitOk(p, cl, i) && Slotted(p, cl)
    ensures var out := Retransmit(p, cl, i, u);
      && Moved(p, cl, out.cl, out.sent, u) && Slotted(p, out.cl) && out.cl.credits <= cl.credits
      && |out.cl.slots| == |cl.slots|
      && (forall j: nat :: j < |cl.slots| ==> SameRequest(cl.slots[j], out.cl.slots[j]))
      && (forall j: nat :: j < |cl.slots| && j != i ==> out.cl.slots[j] == cl.slots[j])
      && (!Lossy(cl.slots[i]) ==> out.cl == cl && out.sent == [])
      && (Lossy(cl.slots[i]) ==> Asks(p, cl.slots[i], out.cl.slots[i], out.sent))
  {
    hide KickAny, KickOk, Moved, Asking;
    var c := cl.slots[i];
    if c.numTx == c.numRx || c.wheelCount > 0 {
      MovedNot(p, cl, u);
    } else {
      KickMoves(p, cl.credits + (c.numTx - c.numRx), RolledBack(c), u);
      RolledGoal(p, c);
      KickedMoves(p, cl, i, cl.credits + (c.numTx - c.numRx), RolledBack(c), u);
      RetransmitAsks(p, cl, i, u);
    }
  }

  lemma RolledGoal(p: Config, c: ClientSlot)
    requires c.tx.Some?
    ensures Goal(p, RolledBack(c)) == Goal(p, c)
  {
  }

  /** The scan retransmits for every slot that has lost packets and whose time is up, and for no
      other slot. */
  lemma {:induction false} ScanMoves(p: Config, cl: Client, list: seq<nat>, expired: set<nat>, sent: seq<Pkt>, u: bool)
    returns (more: seq<Pkt>)
    requires ScanOk(p, cl, list, expired, u) && Slotted(p, cl) && NoDup(list)
    ensures var out := ScanLoop(p, cl, list, expired, sent, u);
      && out.sent == sent + more && Moved(p, cl, out.cl, more, u) && out.cl.credits <= cl.credits
      && |out.cl.slots| == |cl.slots|
      && (forall j: nat :: j < |cl.slots| ==> SameRequest(cl.slots[j], out.cl.slots[j]))
      && (forall j: nat :: j < |cl.slots| && !(j in list && j in expired && Lossy(cl.slots[j])) ==>
            out.cl.slots[j] == cl.slots[j])
      && (forall j: nat :: j < |cl.slots| && j in list && j in expired && Lossy(cl.slots[j]) ==>
            Asks(p, cl.slots[j], out.cl.slots[j], more))
    decreases |list|
  {
    hide Moved, Slotted, RetransmitOk, Retransmit, Asks;
    if list == [] {
      more := [];
      MovedNot(p, cl, u);
    } else if ScanRetransmits(cl, list[0], expired) {
      var i, one := list[0], Retransmit(p, cl, list[0], u);
      assert i !in list[1..] && list == [i] + list[1..];
      RetransmitMoves(p, cl, i, u);
      more := ScanMoves(p, one.cl, list[1..], expired, sent + one.sent, u);
      var out := ScanLoop(p, cl, list, expired, sent, u);
      MovedJoin(p, cl, one.cl, one.sent, out.cl, more, u);
      forall j: nat | j < |cl.slots| && j in list && j in expired && Lossy(cl.slots[j])
        ensures Asks(p, cl.slots[j], out.cl.slots[j], one.sent + more)
      {
        AsksMore(p, cl.slots[j], out.cl.slots[j], one.sent, more);
      }
      more := one.sent + more;
    } else {
      more := ScanMoves(p, cl, list[1..], expired, sent, u);
    }
  }

  lemma AsksMore(p: Config, c: ClientSlot, d: ClientSlot, a: seq<Pkt>, b: seq<Pkt>)
    requires c.tx.Some?
    ensures Asks(p, c, d, a) || Asks(p, c, d, b) ==> Asks(p, c, d, a + b)
  {
  }

  // ---------------------------------------------------------------------------
  // Issuing and receiving
  // ---------------------------------------------------------------------------

  lemma SlotsAre(p: Config, s: Sys)
    requires Inv(p, s)
    ensures Slotted(p, s.cl) && |s.cl.slots| == p.window
  {
    hide ListsInv, StallInv;
    forall j: nat | j < p.window
      ensures SlotOf(p, s.cl.slots[j].curReq) == j && s.cl.slots[j].numRx <= s.cl.slots[j].numTx
      ensures s.cl.slots[j].tx.Some? ==> s.cl.slots[j].numTx <= Goal(p, s.cl.slots[j])
    {
      SlotFacts(p, s, j);
      var c := s.cl.slots[j];
      if c.tx.Some? && c.numRx >= ReqPkts(p, c.tx.value) {
        assert Collecting(p, c, s.h);
      }
    }
  }

  lemma EnqueueMoves(p: Config, cl: Client, r: Request, u: bool)
    requires EnqueueOk(p, cl, r) && Slotted(p, cl)
    ensures var out := EnqueueRequest(p, cl, r, u);
      Moved(p, cl, out.cl, out.sent, u)
  {
    hide KickAny, Sated;
    if cl.free != [] {
      var i := Last(cl.free);
      var c := Activated(p, cl.slots[i], r);
      ClientProof.SlotStride(p, cl.slots[i].curReq);
      if cl.credits > 0 {
        assert KickReq(p, cl.credits, c, u) == KickAny(p, cl.credits, c, u) by { KickIsReq(p, cl.credits, c, u); }
        KickedMoves(p, cl, i, cl.credits, c, u);
      }
    }
  }

  lemma KickIsReq(p: Config, credits: nat, c: ClientSlot, u: bool)
    requires KickReqOk(p, credits, c) && ReqPktsPending(p, c)
    ensures KickAny(p, credits, c, u) == KickReq(p, credits, c, u)
  {
  }

  /** A completion frees its slot, or gives it to the next request, which then sends. */
  lemma CompleteMoves(p: Config, cl: Client, i: nat, c: ClientSlot, u: bool)
    requires Slotted(p, cl) && i < |cl.slots| && c.curReq == cl.slots[i].curReq
    requires cl.slots[i].wheelCount == c.wheelCount && |c.inWheel| == p.credits
    requires CompleteOk(p, WithKick(cl, i, Kick(cl.credits + 1, c, [])), i)
    ensures var out := Complete(p, WithKick(cl, i, Kick(cl.credits + 1, c, [])), i, u);
      Moved(p, cl, out.cl, out.sent, u)
  {
    hide KickAny, Sated;
    if cl.backlog != [] {
      var cl1 := Released(WithKick(cl, i, Kick(cl.credits + 1, c, [])), i);
      var d := Activated(p, cl1.slots[i], cl.backlog[0]);
      assert Last(cl1.free) == i;
      ClientProof.SlotStride(p, c.curReq);
      KickIsReq(p, cl.credits + 1, d, u);
      KickedMoves(p, cl, i, cl.credits + 1, d, u);
      var g := KickAny(p, cl.credits + 1, d, u);
      assert cl1.slots[i := g.slot] == cl.slots[i := g.slot];
    }
  }

  /** Pulling a response asks for all its packets that credits allow. */
  lemma PullMoves(p: Config, credits: nat, c: ClientSlot, pkt: Pkt)
    requires PullOk(p, credits, c, pkt) && c.numRx <= c.numTx && c.numRx == pkt.pktNum + 1
    ensures var g := Pull(p, credits, c, pkt);
      && (g.credits == 0 || Sated(p, g.slot))
      && g.slot.curReq == c.curReq && g.slot.wheelCount == c.wheelCount
      && forall x :: x in g.sent ==> x.kind == Rfr
  {
    if c.numTx != SlotWirePkts(p, c) {
      KickMoves(p, credits, c, false);
      RfrsMove(Kick(credits, c, []), Min(credits, SlotWirePkts(p, c) - c.numTx));
    }
  }

  lemma PulledMoves(p: Config, cl: Client, i: nat, g: Kick, u: bool)
    requires Slotted(p, cl) && i < |cl.slots| && (g.credits == 0 || Sated(p, g.slot))
    requires g.slot.curReq == cl.slots[i].curReq && g.slot.wheelCount == cl.slots[i].wheelCount
    requires forall x :: x in g.sent ==> x.kind == Rfr
    ensures Moved(p, cl, WithKick(cl, i, g), g.sent, u)
  {
  }

  lemma BitmapSize(p: Config, s: Sys, i: nat)
    requires Inv(p, s) && i < p.window
    ensures |s.cl.slots| == p.window && |s.cl.slots[i].inWheel| == p.credits
  {
    hide ListsInv, StallInv;
    SlotFacts(p, s, i);
  }

  lemma PathMoves(p: Config, cl: Client, i: nat, pkt: Pkt, g: Kick, u: bool)
    requires Slotted(p, cl) && PullPath(p, cl, i, pkt, g)
    ensures Moved(p, cl, WithKick(cl, i, g), g.sent, u)
  {
    hide Pull, PullOk, Moved, Sated;
    PullMoves(p, cl.credits + 1, Sized(p, cl.slots[i].(numRx := cl.slots[i].numRx + 1), pkt), pkt);
    PulledMoves(p, cl, i, g, u);
  }

  lemma LastSlot(p: Config, cl: Client, i: nat, pkt: Pkt, c: ClientSlot)
    requires LastPath(p, cl, i, pkt, c)
    ensures c.curReq == cl.slots[i].curReq && c.wheelCount == cl.slots[i].wheelCount && |c.inWheel| == p.credits
  {
  }

  lemma RespMoves(p: Config, s: Sys, pkt: Pkt, u: bool)
    requires Inv(p, s) && pkt in s.down && pkt.kind == Resp && Safe(p, s, ToClient(pkt, u))
    ensures var out := ProcessResp(p, s.cl, SlotOf(p, pkt.reqNum), pkt, u);
      Moved(p, s.cl, out.cl, out.sent, u)
  {
    hide PairInv, ListsInv, StallInv, PullPath, LastPath, ProcessResp, RespOk, Moved, Slotted;
    var i := SlotOf(p, pkt.reqNum);
    SlotsAre(p, s);
    if InOrderAt(p, s, pkt) {
      RespCovered(p, s, pkt);
      if s.cl.slots[i].numRx + 1 < ReqN(p, s.h, pkt.reqNum) + RespN(p, s.h, pkt.reqNum) - 1 {
        var g := RespMoreFits(p, s, pkt);
        PullPathStep(p, s.cl, i, pkt, g, u);
        PathMoves(p, s.cl, i, pkt, g, u);
      } else {
        var c := RespLastCompletes(p, s, pkt, u);
        LastPathStep(p, s.cl, i, c, pkt, u);
        LastSlot(p, s.cl, i, pkt, c);
        CompleteMoves(p, s.cl, i, c, u);
      }
    } else {
      DownFacts(p, s, pkt);
      BitmapSize(p, s, i);
      RespDropped(p, s.cl, i, pkt, u);
      MovedNot(p, s.cl, u);
    }
  }

  lemma CrMoves(p: Config, s: Sys, pkt: Pkt, u: bool)
    requires Inv(p, s) && pkt in s.down && pkt.kind == ExplCr && Safe(p, s, ToClient(pkt, u))
    ensures var out := ProcessExplCr(p, s.cl, SlotOf(p, pkt.reqNum), pkt, u);
      Moved(p, s.cl, out.cl, out.sent, u)
  {
    hide PairInv, ListsInv, StallInv, Moved, Slotted, CrKick, ProcessExplCr, ExplCrOk;
    var i := SlotOf(p, pkt.reqNum);
    SlotsAre(p, s);
    DownFacts(p, s, pkt);
    if InOrderAt(p, s, pkt) {
      var g := ExplCrFits(p, s, pkt, u);
      CrKickStep(p, s.cl, i, pkt, g, u);
      CrGoal(p, s, pkt);
      CrKickMoves(p, s.cl, i, g, u);
    } else {
      CrDropped(p, s.cl, i, pkt, u);
      MovedNot(p, s.cl, u);
    }
  }

  /** A credit return answers a request packet other than the last. */
  lemma CrGoal(p: Config, s: Sys, pkt: Pkt)
    requires Inv(p, s) && pkt in s.down && pkt.kind == ExplCr && InOrderAt(p, s, pkt)
    ensures var c := s.cl.slots[SlotOf(p, pkt.reqNum)];
      c.tx.Some? && c.numRx + 1 < ReqPkts(p, c.tx.value) && c.numRx + 1 <= c.numTx <= ReqPkts(p, c.tx.value)
  {
    hide ListsInv, StallInv;
    var i := SlotOf(p, pkt.reqNum);
    SlotFacts(p, s, i);
    assert DownPkt(p, s.srv[i], s.h, pkt);
  }

  lemma CrKickMoves(p: Config, cl: Client, i: nat, g: Kick, u: bool)
    requires Slotted(p, cl) && CrKick(p, cl, i, g, u)
    requires var c := cl.slots[i];
             c.numRx + 1 < ReqPkts(p, c.tx.value) && c.numRx + 1 <= c.numTx <= ReqPkts(p, c.tx.value)
    ensures Moved(p, cl, WithKick(cl, i, g), g.sent, u)
  {
    hide KickReq, KickAny;
    var c := cl.slots[i].(numRx := cl.slots[i].numRx + 1);
    if ReqPktsPending(p, c) {
      KickIsReq(p, cl.credits + 1, c, u);
      KickedMoves(p, cl, i, cl.credits + 1, c, u);
    }
  }

  lemma CrDropped(p: Config, cl: Client, i: nat, pkt: Pkt, u: bool)
    requires i < |cl.slots| && |cl.slots[i].inWheel| == p.credits
    requires pkt.reqNum <= cl.slots[i].curReq && !InOrderClient(p, cl.slots[i], pkt)
    ensures ExplCrOk(p, cl, i, pkt) && ProcessExplCr(p, cl, i, pkt, u) == ClientOut(cl, [], None, None)
  {
  }

  // ---------------------------------------------------------------------------
  // Every event
  // ---------------------------------------------------------------------------

  /** In every event of the client but the wheel's, a slot that is touched ends up with nothing
      left to send or no credits left; an uncongested session puts nothing in the wheel for a
      slot that has nothing there; and a congested one, or a slot with packets in the wheel,
      sends no request packet past it. */
  lemma EventSends(p: Config, s: Sys, e: Event) returns (sent: seq<Pkt>)
    requires Inv(p, s) && Enabled(p, s, e) && Safe(p, s, e)
    requires e.Issue? || e.ToClient? || e.ServeStalled? || e.Scan?
    ensures Step(p, s, e).up == s.up + ToSet(sent) && Moved(p, s.cl, Step(p, s, e).cl, sent, e.uncongested)
  {
    hide Inv, Moved, Slotted, StallOk, ScanOk, EnqueueRequest, ProcessResp, RespOk, ProcessExplCr, ExplCrOk;
    SlotsAre(p, s);
    match e
    case Issue(req, u) =>
      EnqueueMoves(p, s.cl, req, u);
      sent := EnqueueRequest(p, s.cl, req, u).sent;
    case ToClient(pkt, u) =>
      if pkt.kind == Resp {
        RespMoves(p, s, pkt, u);
        sent := ProcessResp(p, s.cl, SlotOf(p, pkt.reqNum), pkt, u).sent;
      } else {
        CrMoves(p, s, pkt, u);
        sent := ProcessExplCr(p, s.cl, SlotOf(p, pkt.reqNum), pkt, u).sent;
      }
    case ServeStalled(u) =>
      var n;
      sent, n := StallMoves(p, s.cl, s.cl.stallq, [], [], u);
    case Scan(expired, u) =>
      ActiveNoDup(p, s);
      sent := ScanMoves(p, s.cl, s.cl.active, expired, [], u);
  }

  lemma ActiveNoDup(p: Config, s: Sys)
    requires Inv(p, s)
    ensures NoDup(s.cl.active) && forall i: nat :: i < p.window ==> (i in s.cl.active <==> s.cl.slots[i].tx.Some?)
  {
    hide PairInv, StallInv;
  }

  /** Serving the stall queue serves a first part of it, until all are served or no credits are
      left, and at least one slot if there is a credit. */
  lemma StallsInTurn(p: Config, s: Sys, u: bool) returns (n: nat)
    requires Inv(p, s) && Safe(p, s, ServeStalled(u))
    ensures n <= |s.cl.stallq| && Step(p, s, ServeStalled(u)).cl.stallq == s.cl.stallq[n..]
    ensures n < |s.cl.stallq| ==> Step(p, s, ServeStalled(u)).cl.credits == 0
    ensures s.cl.stallq != [] && s.cl.credits > 0 ==> n > 0
  {
    hide Inv, Moved, Slotted, StallOk;
    SlotsAre(p, s);
    var sent;
    sent, n := StallMoves(p, s.cl, s.cl.stallq, [], [], u);
    assert [] + s.cl.stallq[n..] == s.cl.stallq[n..];
  }

  /** Every other event leaves the stall queue alone or appends to it, and the active list keeps
      its order: slots leave it, and new ones are appended. */
  lemma ListsInTurn(p: Config, s: Sys, e: Event)
    requires Inv(p, s) && Enabled(p, s, e) && Safe(p, s, e)
    ensures var t := Step(p, s, e);
      && (!e.ServeStalled? ==> s.cl.stallq <= t.cl.stallq && |t.cl.stallq| <= |s.cl.stallq| + 1)
      && (t.cl.active == s.cl.active
          || exists i: nat :: t.cl.active in {s.cl.active + [i], Unlink(s.cl.active, i), Unlink(s.cl.active, i) + [i]})
  {
    hide Inv, StallOk, ScanOk, RespOk, ExplCrOk, S.ProcessReq, S.ProcessRfr, S.ReqOk, S.RfrOk, KickReq, Pull;
    match e
    case Issue(req, u) =>
      if s.cl.free != [] { assert Step(p, s, e).cl.active == s.cl.active + [Last(s.cl.free)]; }
    case ToClient(pkt, u) =>
      if pkt.kind == Resp { RespLists(p, s.cl, SlotOf(p, pkt.reqNum), pkt, u); }
    case ServeStalled(u) => StallActive(p, s.cl, s.cl.stallq, [], [], u);
    case Scan(expired, u) => ScanLists(p, s.cl, s.cl.active, expired, [], u);
    case _ =>
  }

  lemma {:induction false} StallActive(p: Config, cl: Client, q: seq<nat>, kept: seq<nat>, sent: seq<Pkt>, u: bool)
    requires StallOk(p, cl, q, u)
    ensures StallLoop(p, cl, q, kept, sent, u).cl.active == cl.active
    decreases |q|
  {
    hide KickAny, KickOk;
    if q != [] {
      if cl.credits > 0 {
        var g := KickAny(p, cl.credits, cl.slots[q[0]], u);
        StallActive(p, WithKick(cl, q[0], g), q[1..], kept, sent + g.sent, u);
      } else {
        StallActive(p, cl, q[1..], kept + [q[0]], sent, u);
      }
    }
  }

  lemma {:induction false} ScanLists(p: Config, cl: Client, list: seq<nat>, expired: set<nat>, sent: seq<Pkt>, u: bool)
    requires ScanOk(p, cl, list, expired, u)
    ensures var out := ScanLoop(p, cl, list, expired, sent, u);
      out.cl.active == cl.active && out.cl.stallq == cl.stallq
    decreases |list|
  {
    hide KickAny, RetransmitOk;
    if list != [] {
      if ScanRetransmits(cl, list[0], expired) {
        var out := Retransmit(p, cl, list[0], u);
        ScanLists(p, out.cl, list[1..], expired, sent + out.sent, u);
      } else {
        ScanLists(p, cl, list[1..], expired, sent, u);
      }
    }
  }

  lemma RespLists(p: Config, cl: Client, i: nat, pkt: Pkt, u: bool)
    requires RespOk(p, cl, i, pkt)
    ensures var out := ProcessResp(p, cl, i, pkt, u).cl;
      && cl.stallq <= out.stallq && |out.stallq| <= |cl.stallq| + 1
      && out.active in {cl.active, Unlink(cl.active, i), Unlink(cl.active, i) + [i]}
  {
    hide Pull, PullOk, KickReq;
  }

  /** The loss scan makes every slot ask that has lost packets, none of them in the wheel, and
      whose timer has expired, and touches no other slot. */
  lemma ScanAsksAll(p: Config, s: Sys, expired: set<nat>, u: bool, j: nat)
    requires Inv(p, s) && Safe(p, s, Scan(expired, u)) && j < p.window
    ensures var t := Step(p, s, Scan(expired, u));
      && j < |s.cl.slots| == |t.cl.slots|
      && var c, d := s.cl.slots[j], t.cl.slots[j];
         if j in expired && Lossy(c)
         then Asking(p, c) in t.up || (c.numRx < ReqPkts(p, c.tx.value) && c.numRx in d.wheel)
         else d == c
  {
    hide Inv, Moved, Slotted, ScanOk, Asking;
    SlotsAre(p, s);
    ActiveNoDup(p, s);
    var sent := ScanMoves(p, s.cl, s.cl.active, expired, [], u);
  }

  /** A packet that leaves the wheel is sent, and nothing else happens. */
  lemma WheelSends(p: Config, s: Sys, i: nat, n: nat)
    requires Inv(p, s) && Enabled(p, s, FromWheel(i, n))
    ensures Safe(p, s, FromWheel(i, n))
    ensures var t, c := Step(p, s, FromWheel(i, n)), s.cl.slots[i];
      && |t.cl.slots| == |s.cl.slots| && n < ReqPkts(p, c.tx.value)
      && t.up == s.up + {ReqPkt(p, c.tx.value, c.curReq, n)}
      && var d := t.cl.slots[i];
         && t == s.(up := t.up, cl := s.cl.(slots := s.cl.slots[i := d]))
         && d == c.(inWheel := d.inWheel, wheelCount := c.wheelCount - 1, wheel := c.wheel - multiset{n})
  {
    StepKeeps(p, s, FromWheel(i, n));
    hide ListsInv, StallInv;
    SlotFacts(p, s, i);
    var c := s.cl.slots[i];
    assert ToSet([ReqPkt(p, c.tx.value, c.curReq, n)]) == {ReqPkt(p, c.tx.value, c.curReq, n)};
  }

  /** The server ignores packets of requests older than its slot's, also ones that were delayed
      for long. */
  lemma OldIgnored(p: Config, s: Sys, pkt: Pkt, mem: Option<seq<byte>>)
    requires Inv(p, s) && Enabled(p, s, ToServer(pkt, mem))
    requires SlotOf(p, pkt.reqNum) < |s.srv| && pkt.reqNum < s.srv[SlotOf(p, pkt.reqNum)].curReq
    ensures Safe(p, s, ToServer(pkt, mem)) && Step(p, s, ToServer(pkt, mem)) == s
  {
    hide ListsInv, StallInv;
    UpFacts(p, s, pkt);
    StepKeeps(p, s, ToServer(pkt, mem));
    var i := SlotOf(p, pkt.reqNum);
    assert s.srv[i := s.srv[i]] == s.srv && s.down + ToSet([]) == s.down;
  }

  /** The client ignores every packet but the next one that its slot awaits. */
  lemma UnawaitedIgnored(p: Config, s: Sys, pkt: Pkt, u: bool)
    requires Inv(p, s) && Enabled(p, s, ToClient(pkt, u))
    requires var i := SlotOf(p, pkt.reqNum);
             i < |s.cl.slots| && (pkt.reqNum != s.cl.slots[i].curReq || pkt.pktNum != s.cl.slots[i].numRx)
    ensures Safe(p, s, ToClient(pkt, u)) && Step(p, s, ToClient(pkt, u)) == s
  {
    StepKeeps(p, s, ToClient(pkt, u));
    DownFacts(p, s, pkt);
    hide Inv;
    NothingSent(s);
  }

  /** Each packet is answered by at most one packet, and a reply is one packet: the server never
      sends more of a response than it is asked for. */
  lemma OneAnswer(p: Config, s: Sys, e: Event)
    requires Inv(p, s) && Enabled(p, s, e) && Safe(p, s, e)
    ensures var t := Step(p, s, e);
      t.down == s.down || exists pkt :: t.down == s.down + {pkt} && (e.ToServer? || e.Reply?)
  {
    hide Inv, StallOk, ScanOk, RespOk, ExplCrOk, ProcessResp, ProcessExplCr, StallLoop, ScanLoop, EnqueueRequest;
    if e.ToServer? || e.Reply? {
      var sent := ServerSent(p, s, e);
      assert sent == [] ==> s.down + ToSet(sent) == s.down;
      assert sent != [] ==> ToSet(sent) == {sent[0]};
    }
  }

  function ServerSent(p: Config, s: Sys, e: Event): (sent: seq<Pkt>)
    requires Safe(p, s, e) && (e.ToServer? || e.Reply?)
    ensures |sent| <= 1
  {
    match e
    case ToServer(pkt, mem) =>
      if pkt.kind == Req then S.ProcessReq(p, s.srv[SlotOf(p, pkt.reqNum)], pkt, mem).sent
      else S.ProcessRfr(p, s.srv[SlotOf(p, pkt.reqNum)], pkt).sent
    case Reply(i, data) => S.EnqueueResponse(p, s.srv[i], data).sent
    case _ => []
  }
}
