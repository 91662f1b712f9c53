/** Every event of the session is free of assertion failures and keeps its invariant. */
module ProtocolProof {
  import opened Wire
  import opened ClientSpec
  import opened Protocol
  import opened ClientProof
  import opened ServerProof
  import opened ListFacts
  import S = ServerSpec

  /** No assertion fails on the event, and the invariant holds after it. */
  ghost predicate Keeps(p: Config, s: Sys, e: Event) {
    Safe(p, s, e) && Inv(p, Step(p, s, e))
  }

  /** Facts about one slot of a session in the invariant. */
  lemma SlotFacts(p: Config, s: Sys, i: nat)
    requires PairsInv(p, s) && CreditInv(p, s.cl) && i < p.window
    ensures AtSlot(p, s, i)
    ensures 0 <= s.cl.slots[i].numTx - s.cl.slots[i].numRx <= p.credits - s.cl.credits
  {
    hide WheelInv, ActiveInv, ServerInv, Linked, NetInv, HistInv, ListsInv, StallInv;
    forall k: nat | k < p.window
      ensures s.cl.slots[k].numRx <= s.cl.slots[k].numTx
    {
      assert AtSlot(p, s, k);
    }
    OutstandingBound(s.cl.slots, i);
  }

  /** A client step on slot `i` that keeps that slot's pair keeps all pairs. */
  lemma LiftClient(p: Config, s: Sys, s': Sys, i: nat)
    requires PairsInv(p, s) && i < p.window
    requires |s'.cl.slots| == p.window && s'.srv == s.srv && s'.down == s.down
    requires s'.cl.slots == s.cl.slots[i := s'.cl.slots[i]]
    requires AtSlot(p, s', i)
    requires forall pkt :: pkt in s'.up && pkt !in s.up ==> SlotOf(p, pkt.reqNum) == i
    requires forall q: nat :: SlotOf(p, q) != i ==> SameAt(s.h, s'.h, q)
    ensures PairsInv(p, s')
  {
    hide PairInv, SameAt;
    forall j: nat | j < p.window
      ensures AtSlot(p, s', j)
    {
      if j != i {
        assert AtSlot(p, s, j);
        OtherFrame(p, i, j, s.cl.slots[j], s.srv[j], s.up, s'.up, s.down, s'.down, s.h, s'.h);
      }
    }
  }

  lemma LiftServer(p: Config, s: Sys, s': Sys, i: nat)
    requires PairsInv(p, s) && i < p.window
    requires |s'.srv| == p.window && s'.cl == s.cl && s'.up == s.up
    requires s'.srv == s.srv[i := s'.srv[i]]
    requires AtSlot(p, s', i)
    requires forall pkt :: pkt in s'.down && pkt !in s.down ==> SlotOf(p, pkt.reqNum) == i
    requires forall q: nat :: SlotOf(p, q) != i ==> SameAt(s.h, s'.h, q)
    ensures PairsInv(p, s')
  {
    hide PairInv, SameAt;
    forall j: nat | j < p.window
      ensures AtSlot(p, s', j)
    {
      if j != i {
        assert AtSlot(p, s, j);
        OtherFrame(p, i, j, s.cl.slots[j], s.srv[j], s.up, s'.up, s.down, s'.down, s.h, s'.h);
      }
    }
  }

  // ---------------------------------------------------------------------------
  // Client steps on one active slot
  // ---------------------------------------------------------------------------

  /** Replace an active slot's counters and wheel, conserving credits, and send. */
  function SlotStep(s: Sys, i: nat, g: Kick): Sys
    requires i < |s.cl.slots|
  {
    s.(cl := WithKick(s.cl, i, g), up := s.up + ToSet(g.sent))
  }

  /** The step is on an active slot, keeps its pair, conserves credits, and leaves packets
      outstanding. */
  ghost predicate StepFits(p: Config, s: Sys, i: nat, g: Kick) {
    && |s.cl.slots| == |s.srv| == p.window && i < p.window
    && AtSlot(p, SlotStep(s, i, g), i)
    && (forall pkt :: pkt in g.sent ==> SlotOf(p, pkt.reqNum) == i)
    && var c := s.cl.slots[i];
       && c.tx.Some? && g.slot.tx.Some?
       && c.numTx > c.numRx && g.slot.numTx > g.slot.numRx
       && g.credits + g.slot.numTx - g.slot.numRx == s.cl.credits + c.numTx - c.numRx
  }

  lemma SlotStepKeeps(p: Config, s: Sys, i: nat, g: Kick)
    requires BaseInv(p, s) && StepFits(p, s, i, g)
    ensures BaseInv(p, SlotStep(s, i, g))
    ensures Inv(p, s) ==> Inv(p, SlotStep(s, i, g))
  {
    hide PairInv;
    var s' := SlotStep(s, i, g);
    LiftClient(p, s, s', i);
    OutstandingUpdate(s.cl.slots, i, g.slot);
  }

  /** A slot step from the invariant of its pair. */
  lemma Fits(p: Config, s: Sys, i: nat, g: Kick)
    requires PairsInv(p, s) && i < p.window
    requires PairInv(p, i, g.slot, s.srv[i], s.up + ToSet(g.sent), s.down, s.h)
    ensures AtSlot(p, SlotStep(s, i, g), i)
  {
    hide PairInv;
  }

  lemma FromWheelKeeps(p: Config, s: Sys, i: nat, n: nat)
    requires Inv(p, s) && Enabled(p, s, FromWheel(i, n))
    ensures Keeps(p, s, FromWheel(i, n))
    ensures s.cl.slots[i].tx.Some? && n < ReqPkts(p, s.cl.slots[i].tx.value)
  {
    hide PairInv, ListsInv, StallInv;
    SlotFacts(p, s, i);
    var c := s.cl.slots[i];
    WheelTxKeeps(p, i, c, n, s.srv[i], s.up, s.down, s.h);
    var pkt := ReqPkt(p, c.tx.value, c.curReq, n);
    assert ToSet([pkt]) == {pkt};
    var g := Kick(s.cl.credits, TakeFromWheel(p, c, n), [pkt]);
    Fits(p, s, i, g);
    SlotStepKeeps(p, s, i, g);
    assert Step(p, s, FromWheel(i, n)) == SlotStep(s, i, g);
  }

  /** The slot step of an in-order credit return. */
  lemma ExplCrFits(p: Config, s: Sys, pkt: Pkt, u: bool) returns (g: Kick)
    requires BaseInv(p, s) && pkt in s.down && pkt.kind == ExplCr
    requires InOrderAt(p, s, pkt)
    ensures var i := SlotOf(p, pkt.reqNum);
            s.cl.credits < p.credits && StepFits(p, s, i, g) && CrKick(p, s.cl, i, g, u)
  {
    hide PairInv, ListsInv, StallInv;
    var i := SlotOf(p, pkt.reqNum);
    SlotFacts(p, s, i);
    var c := s.cl.slots[i];
    var c1 := c.(numRx := c.numRx + 1);
    AcceptCrKeeps(p, i, c, pkt, s.srv[i], s.up, s.down, s.h);
    if ReqPktsPending(p, c1) {
      KickReqKeeps(p, i, s.cl.credits + 1, c1, u, s.srv[i], s.up, s.down, s.h);
      g := KickReq(p, s.cl.credits + 1, c1, u);
    } else {
      g := Kick(s.cl.credits + 1, c1, []);
      assert s.up + ToSet(g.sent) == s.up;
    }
    Fits(p, s, i, g);
  }

  ghost predicate InOrderAt(p: Config, s: Sys, pkt: Pkt) {
    && |s.cl.slots| == p.window
    && |s.cl.slots[SlotOf(p, pkt.reqNum)].inWheel| == p.credits
    && InOrderClient(p, s.cl.slots[SlotOf(p, pkt.reqNum)], pkt)
  }

  /** No server packet runs ahead of its slot's request number or exceeds the size limit. */
  lemma DownFacts(p: Config, s: Sys, pkt: Pkt)
    requires BaseInv(p, s) && pkt in s.down
    ensures pkt.kind == Resp || pkt.kind == ExplCr
    ensures pkt.msgSize <= p.maxMsgSize
    ensures |s.cl.slots[SlotOf(p, pkt.reqNum)].inWheel| == p.credits
    ensures pkt.reqNum <= s.cl.slots[SlotOf(p, pkt.reqNum)].curReq
  {
    hide ActiveInv, ServerInv, Linked, ListsInv, StallInv;
    var i := SlotOf(p, pkt.reqNum);
    SlotFacts(p, s, i);
    assert DownPkt(p, s.srv[i], s.h, pkt);
    assert HistAt(p, s.cl.slots[i], s.srv[i], s.h, pkt.reqNum);
  }

  lemma NothingSent(s: Sys)
    ensures ClientDid(s, ClientOut(s.cl, [], None, None)) == s
  {
    assert s.up + ToSet([]) == s.up;
  }

  /** The kick that an in-order credit return leads to. */
  ghost predicate CrKick(p: Config, cl: Client, i: nat, g: Kick, u: bool) {
    && i < |cl.slots| && cl.slots[i].tx.Some?
    && var c1 := cl.slots[i].(numRx := cl.slots[i].numRx + 1);
       if ReqPktsPending(p, c1)
       then KickReqOk(p, cl.credits + 1, c1) && g == KickReq(p, cl.credits + 1, c1, u)
       else g == Kick(cl.credits + 1, c1, [])
  }

  lemma CrKickStep(p: Config, cl: Client, i: nat, pkt: Pkt, g: Kick, u: bool)
    requires CrKick(p, cl, i, g, u) && |cl.slots[i].inWheel| == p.credits && cl.credits < p.credits
    requires InOrderClient(p, cl.slots[i], pkt)
    ensures ExplCrOk(p, cl, i, pkt)
    ensures ProcessExplCr(p, cl, i, pkt, u) == ClientOut(WithKick(cl, i, g), g.sent, None, None)
    ensures g.slot.tx == cl.slots[i].tx && g.slot.curReq == cl.slots[i].curReq
    ensures g.slot.numRx == cl.slots[i].numRx + 1
  {
    assert Accepted(cl, i).slots[i := g.slot] == cl.slots[i := g.slot];
  }

  lemma ExplCrTakes(p: Config, s: Sys, pkt: Pkt, u: bool) returns (g: Kick)
    requires Inv(p, s) && pkt in s.down && pkt.kind == ExplCr && InOrderAt(p, s, pkt)
    ensures var i := SlotOf(p, pkt.reqNum);
            && Safe(p, s, ToClient(pkt, u)) && StepFits(p, s, i, g)
            && Step(p, s, ToClient(pkt, u)) == SlotStep(s, i, g) && Inv(p, SlotStep(s, i, g))
            && g.slot.tx == s.cl.slots[i].tx && g.slot.curReq == s.cl.slots[i].curReq
            && g.slot.numRx == s.cl.slots[i].numRx + 1
  {
    hide PairInv, ListsInv, StallInv, StepFits, CrKick, ProcessExplCr, ExplCrOk;
    DownFacts(p, s, pkt);
    var i := SlotOf(p, pkt.reqNum);
    g := ExplCrFits(p, s, pkt, u);
    SlotStepKeeps(p, s, i, g);
    CrKickStep(p, s.cl, i, pkt, g, u);
  }

  lemma ExplCrKeeps(p: Config, s: Sys, pkt: Pkt, u: bool)
    requires Inv(p, s) && Enabled(p, s, ToClient(pkt, u)) && pkt.kind == ExplCr
    ensures Keeps(p, s, ToClient(pkt, u))
  {
    DownFacts(p, s, pkt);
    if InOrderAt(p, s, pkt) {
      var g := ExplCrTakes(p, s, pkt, u);
    } else {
      NothingSent(s);
    }
  }

  // ---------------------------------------------------------------------------
  // Retransmission
  // ---------------------------------------------------------------------------

  /** The slot step of a rollback and retransmission. */
  lemma RetransmitFits(p: Config, s: Sys, i: nat, u: bool)
    requires BaseInv(p, s) && i < p.window
    requires s.cl.slots[i].tx.Some? && s.cl.slots[i].numTx != s.cl.slots[i].numRx && s.cl.slots[i].wheelCount == 0
    ensures var c := s.cl.slots[i];
            && c.numRx < c.numTx
            && var credits := s.cl.credits + (c.numTx - c.numRx);
               credits <= p.credits && KickOk(p, credits, RolledBack(c))
               && StepFits(p, s, i, KickAny(p, credits, RolledBack(c), u))
  {
    hide PairInv, ListsInv, StallInv;
    SlotFacts(p, s, i);
    var c := s.cl.slots[i];
    RollbackKeeps(p, i, c, s.srv[i], s.up, s.down, s.h);
    var credits := s.cl.credits + (c.numTx - c.numRx);
    KickAnyKeeps(p, i, credits, RolledBack(c), u, s.srv[i], s.up, s.down, s.h);
    Fits(p, s, i, KickAny(p, credits, RolledBack(c), u));
  }

  lemma RetransmitKeeps(p: Config, s: Sys, i: nat, u: bool)
    requires Inv(p, s) && i < p.window && s.cl.slots[i].tx.Some?
    ensures RetransmitOk(p, s.cl, i)
    ensures Inv(p, ClientDid(s, Retransmit(p, s.cl, i, u)))
    ensures forall j: nat :: j < p.window ==>
      (Retransmit(p, s.cl, i, u).cl.slots[j].tx.Some? <==> s.cl.slots[j].tx.Some?)
  {
    hide PairInv, ListsInv;
    SlotFacts(p, s, i);
    var c := s.cl.slots[i];
    if c.numTx == c.numRx || c.wheelCount > 0 {
      NothingSent(s);
    } else {
      RetransmitFits(p, s, i, u);
      SlotStepKeeps(p, s, i, KickAny(p, s.cl.credits + (c.numTx - c.numRx), RolledBack(c), u));
    }
  }

  ghost predicate AllActive(p: Config, cl: Client, list: seq<nat>) {
    |cl.slots| == p.window && forall i :: i in list ==> i < p.window && cl.slots[i].tx.Some?
  }

  lemma {:induction false} ScanLoopKeeps(
    p: Config, s: Sys, cl: Client, list: seq<nat>, expired: set<nat>, sent: seq<Pkt>, u: bool)
    requires Inv(p, s.(cl := cl, up := s.up + ToSet(sent)))
    requires AllActive(p, cl, list)
    ensures ScanOk(p, cl, list, expired, u)
    ensures Inv(p, ClientDid(s, ScanLoop(p, cl, list, expired, sent, u)))
    decreases |list|
  {
    hide Inv, RetransmitOk;
    if list != [] {
      assert list[0] in list;
      assert forall i :: i in list[1..] ==> i in list;
      if ScanRetransmits(cl, list[0], expired) {
        var s1 := s.(cl := cl, up := s.up + ToSet(sent));
        RetransmitKeeps(p, s1, list[0], u);
        var out := Retransmit(p, cl, list[0], u);
        ToSetConcat(sent, out.sent);
        assert ClientDid(s1, out) == s.(cl := out.cl, up := s.up + ToSet(sent + out.sent));
        ScanLoopKeeps(p, s, out.cl, list[1..], expired, sent + out.sent, u);
      } else {
        ScanLoopKeeps(p, s, cl, list[1..], expired, sent, u);
      }
    }
  }

  lemma ActiveAll(p: Config, s: Sys)
    requires Inv(p, s)
    ensures AllActive(p, s.cl, s.cl.active)
  {
    hide PairsInv, StallInv;
  }

  lemma ScanKeeps(p: Config, s: Sys, expired: set<nat>, u: bool)
    requires Inv(p, s)
    ensures Keeps(p, s, Scan(expired, u))
  {
    NothingSent(s);
    ActiveAll(p, s);
    hide Inv, ScanLoop, ScanOk;
    ScanLoopKeeps(p, s, s.cl, s.cl.active, expired, [], u);
  }

  // ---------------------------------------------------------------------------
  // The stall queue
  // ---------------------------------------------------------------------------

  /** Kicking the stalled slot `q[0]` takes it out of the queue. */
  lemma UnstallKeeps(p: Config, s: Sys, cl: Client, kept: seq<nat>, q: seq<nat>, sent: seq<Pkt>, u: bool)
    requires q != [] && cl.credits > 0
    requires Inv(p, s.(cl := cl.(stallq := kept + q), up := s.up + ToSet(sent)))
    ensures |cl.slots| == p.window && q[0] < p.window && KickOk(p, cl.credits, cl.slots[q[0]])
    ensures var g := KickAny(p, cl.credits, cl.slots[q[0]], u);
            Inv(p, s.(cl := WithKick(cl, q[0], g).(stallq := kept + q[1..]), up := s.up + ToSet(sent + g.sent)))
  {
    hide PairInv, ListsInv, CreditInv, BacklogInv;
    var i, s1 := q[0], s.(cl := cl.(stallq := kept + q), up := s.up + ToSet(sent));
    assert (kept + q)[|kept|] == i && i in s1.cl.stallq;
    SlotFacts(p, s1, i);
    var c := cl.slots[i];
    KickAnyKeeps(p, i, cl.credits, c, u, s.srv[i], s1.up, s.down, s.h);
    var g := KickAny(p, cl.credits, c, u);
    ToSetConcat(sent, g.sent);
    var s2 := s.(cl := WithKick(cl, i, g).(stallq := kept + q[1..]), up := s.up + ToSet(sent + g.sent));
    assert s2.up == s1.up + ToSet(g.sent);
    LiftClient(p, s1, s2, i);
    UnstallLists(p, s1.cl, s2.cl, kept, q, g);
  }

  lemma UnstallLists(p: Config, cl: Client, cl': Client, kept: seq<nat>, q: seq<nat>, g: Kick)
    requires ListsInv(p, cl) && StallInv(p, cl) && CreditInv(p, cl) && BacklogInv(p, cl)
    requires q != [] && cl.stallq == kept + q && q[0] < p.window
    requires cl' == WithKick(cl, q[0], g).(stallq := kept + q[1..])
    requires g.slot.tx.Some? && g.slot.numTx > g.slot.numRx == cl.slots[q[0]].numRx
    requires cl.slots[q[0]].tx.Some? && g.credits + g.slot.numTx == cl.credits + cl.slots[q[0]].numTx
    ensures ListsInv(p, cl') && StallInv(p, cl') && CreditInv(p, cl') && BacklogInv(p, cl')
  {
    OutstandingUpdate(cl.slots, q[0], g.slot);
    RemoveAt(kept, q);
  }

  lemma RemoveAt(kept: seq<nat>, q: seq<nat>)
    requires q != [] && NoDup(kept + q)
    ensures NoDup(kept + q[1..])
    ensures forall x :: x in kept + q[1..] <==> x in kept + q && x != q[0]
  {
    var t := kept + q;
    assert t[|kept|] == q[0];
    forall a, b | 0 <= a < b < |kept + q[1..]|
      ensures (kept + q[1..])[a] != (kept + q[1..])[b]
    {
      var a', b' := if a < |kept| then a else a + 1, if b < |kept| then b else b + 1;
      assert t[a'] == (kept + q[1..])[a] && t[b'] == (kept + q[1..])[b];
    }
    forall x | x in kept + q[1..]
      ensures x in t && x != q[0]
    {
      var a :| 0 <= a < |kept + q[1..]| && (kept + q[1..])[a] == x;
      var a' := if a < |kept| then a else a + 1;
      assert t[a'] == x;
    }
    forall x | x in t && x != q[0]
      ensures x in kept + q[1..]
    {
      assert t == kept + [q[0]] + q[1..];
    }
  }

  lemma StallHead(p: Config, cl: Client, kept: seq<nat>, q: seq<nat>)
    requires q != [] && StallInv(p, cl.(stallq := kept + q))
    ensures |cl.slots| == p.window && q[0] < p.window
  {
    assert (kept + q)[|kept|] == q[0];
    assert q[0] in kept + q;
  }

  lemma {:induction false} StallLoopKeeps(
    p: Config, s: Sys, cl: Client, q: seq<nat>, kept: seq<nat>, sent: seq<Pkt>, u: bool)
    requires Inv(p, s.(cl := cl.(stallq := kept + q), up := s.up + ToSet(sent)))
    ensures StallOk(p, cl, q, u)
    ensures Inv(p, ClientDid(s, StallLoop(p, cl, q, kept, sent, u)))
    decreases |q|
  {
    hide PairsInv, ListsInv, KickAny, KickOk;
    if q == [] {
      assert kept + q == kept;
    } else {
      StallHead(p, cl, kept, q);
      if cl.credits > 0 {
        UnstallKeeps(p, s, cl, kept, q, sent, u);
        var g := KickAny(p, cl.credits, cl.slots[q[0]], u);
        StallLoopKeeps(p, s, WithKick(cl, q[0], g), q[1..], kept, sent + g.sent, u);
      } else {
        assert kept + [q[0]] + q[1..] == kept + q;
        StallLoopKeeps(p, s, cl, q[1..], kept + [q[0]], sent, u);
      }
    }
  }

  lemma ServeStalledKeeps(p: Config, s: Sys, u: bool)
    requires Inv(p, s)
    ensures Keeps(p, s, ServeStalled(u))
  {
    hide Inv, StallLoop, StallOk;
    assert s.up + ToSet([]) == s.up;
    assert s.cl.(stallq := [] + s.cl.stallq) == s.cl by { assert [] + s.cl.stallq == s.cl.stallq; }
    StallLoopKeeps(p, s, s.cl, s.cl.stallq, [], [], u);
  }

  // ---------------------------------------------------------------------------
  // Issuing and completing
  // ---------------------------------------------------------------------------

  /** A free slot has nothing outstanding, and its next request number is fresh. */
  lemma FreeFacts(p: Config, s: Sys, i: nat)
    requires PairsInv(p, s) && i < p.window && s.cl.slots[i].tx.None?
    ensures AtSlot(p, s, i)
    ensures s.cl.slots[i].numTx == s.cl.slots[i].numRx && |s.cl.slots[i].inWheel| == p.credits
    ensures s.cl.slots[i].curReq + p.window !in s.h.issued
  {
    assert AtSlot(p, s, i);
    SlotStride(p, s.cl.slots[i].curReq);
    assert HistAt(p, s.cl.slots[i], s.srv[i], s.h, s.cl.slots[i].curReq + p.window);
  }

  /** The pair of the slot that a new request is given. */
  lemma IssueFits(p: Config, s: Sys, i: nat, r: Request, u: bool)
    requires BaseInv(p, s) && i < p.window && s.cl.slots[i].tx.None? && |r.data| <= p.maxMsgSize
    requires s.cl.free != [] && Last(s.cl.free) == i
    ensures EnqueueOk(p, s.cl, r)
    ensures AtSlot(p, ClientDid(s, EnqueueRequest(p, s.cl, r, u)), i)
    ensures var out := EnqueueRequest(p, s.cl, r, u);
            && |out.cl.slots| == p.window && out.cl.slots == s.cl.slots[i := out.cl.slots[i]]
            && (forall pkt :: pkt in out.sent ==> SlotOf(p, pkt.reqNum) == i)
            && var c := out.cl.slots[i];
               && c.tx.Some? && c.numRx == 0
               && out.cl.credits + c.numTx == s.cl.credits
               && (if s.cl.credits > 0 then c.numTx > 0 && out.cl.stallq == s.cl.stallq
                   else c.numTx == 0 && out.cl.stallq == s.cl.stallq + [i])
    ensures var out := EnqueueRequest(p, s.cl, r, u);
            && out.issued == Some((s.cl.slots[i].curReq + p.window, r)) && out.issued.value.0 !in s.h.issued
            && SlotOf(p, out.issued.value.0) == i
  {
    hide PairInv, ListsInv, StallInv;
    SlotFacts(p, s, i);
    FreeFacts(p, s, i);
    var c, q := s.cl.slots[i], s.cl.slots[i].curReq + p.window;
    var h' := Issued(s.h, Some((q, r)));
    ActivateKeeps(p, i, c, r, s.srv[i], s.up, s.down, s.h, h');
    if s.cl.credits > 0 {
      KickReqKeeps(p, i, s.cl.credits, Activated(p, c, r), u, s.srv[i], s.up, s.down, h');
    } else {
      assert s.up + ToSet([]) == s.up;
    }
  }

  /** The lists and credits when a request is given the slot on top of the free stack. */
  lemma IssueLists(p: Config, cl: Client, cl': Client, i: nat)
    requires ListsInv(p, cl) && StallInv(p, cl) && CreditInv(p, cl)
    requires cl.free != [] && i == Last(cl.free) && i < p.window && cl.slots[i].tx.None?
    requires cl.slots[i].numTx == cl.slots[i].numRx
    requires |cl'.slots| == p.window && cl'.slots == cl.slots[i := cl'.slots[i]]
    requires cl'.free == cl.free[..|cl.free| - 1] && cl'.active == cl.active + [i]
    requires cl'.slots[i].tx.Some? && cl'.slots[i].numRx == 0
    requires cl'.credits + cl'.slots[i].numTx == cl.credits
    requires if cl.credits > 0 then cl'.slots[i].numTx > 0 && cl'.stallq == cl.stallq
             else cl'.slots[i].numTx == 0 && cl'.stallq == cl.stallq + [i]
    ensures ListsInv(p, cl') && StallInv(p, cl') && CreditInv(p, cl')
  {
    hide ListsInv;
    TakenLists(p, cl, cl', i);
    OutstandingUpdate(cl.slots, i, cl'.slots[i]);
    if cl.credits == 0 {
      PushFacts(cl.stallq, i);
    }
  }

  lemma TakenLists(p: Config, cl: Client, cl': Client, i: nat)
    requires ListsInv(p, cl) && cl.free != [] && i == Last(cl.free) && i < p.window && cl.slots[i].tx.None?
    requires |cl'.slots| == p.window && cl'.slots == cl.slots[i := cl'.slots[i]] && cl'.slots[i].tx.Some?
    requires cl'.free == cl.free[..|cl.free| - 1] && cl'.active == cl.active + [i]
    ensures ListsInv(p, cl')
  {
    PopFacts(cl.free);
    PushFacts(cl.active, i);
    assert forall x :: x in cl'.free ==> x in cl.free;
  }

  /** What enqueueing a request leaves alone. */
  lemma EnqueueShape(p: Config, cl: Client, r: Request, u: bool)
    requires EnqueueOk(p, cl, r) && cl.free != []
    ensures var out, i := EnqueueRequest(p, cl, r, u), Last(cl.free);
            && out.cl.backlog == cl.backlog && out.done.None?
            && out.cl.free == cl.free[..|cl.free| - 1] && out.cl.active == cl.active + [i]
            && out.issued == Some((cl.slots[i].curReq + p.window, r))
  {
  }

  lemma IssuedSame(p: Config, h: Hist, i: nat, q: nat, r: Request)
    requires SlotOf(p, q) == i
    ensures forall x: nat :: SlotOf(p, x) != i ==> SameAt(h, Issued(h, Some((q, r))), x)
  {
  }

  /** Enqueueing when a slot is free keeps the invariant and leaves the backlog alone. */
  lemma IssueKeeps(p: Config, s: Sys, r: Request, u: bool)
    requires BaseInv(p, s) && |r.data| <= p.maxMsgSize && s.cl.free != []
    ensures EnqueueOk(p, s.cl, r)
    ensures BaseInv(p, ClientDid(s, EnqueueRequest(p, s.cl, r, u)))
    ensures var out := EnqueueRequest(p, s.cl, r, u);
            && out.cl.backlog == s.cl.backlog && out.done.None?
            && out.cl.free == s.cl.free[..|s.cl.free| - 1]
            && out.issued.Some? && out.issued.value.1 == r && out.issued.value.0 !in s.h.issued
  {
    hide PairInv, SameAt, EnqueueRequest;
    var i := Last(s.cl.free);
    assert i in s.cl.free;
    FreeFacts(p, s, i);
    IssueFits(p, s, i, r, u);
    EnqueueShape(p, s.cl, r, u);
    var out := EnqueueRequest(p, s.cl, r, u);
    IssuedSame(p, s.h, i, out.issued.value.0, r);
    LiftClient(p, s, ClientDid(s, out), i);
    IssueLists(p, s.cl, out.cl, i);
  }

  /** Completing slot `i`, up to giving the slot away. */
  lemma ReleasedKeeps(p: Config, s: Sys, i: nat, c': ClientSlot, h': Hist)
    requires BaseInv(p, s) && i < p.window
    requires s.cl.slots[i].tx.Some? && s.cl.slots[i].numTx == s.cl.slots[i].numRx + 1 && s.cl.slots[i].wheelCount == 0
    requires PairInv(p, i, c'.(tx := None), s.srv[i], s.up, s.down, h') && c'.numTx == c'.numRx
    requires forall q: nat :: SlotOf(p, q) != i ==> SameAt(s.h, h', q)
    ensures var cl1 := WithKick(s.cl, i, Kick(s.cl.credits + 1, c', []));
            && |cl1.free| < p.window
            && BaseInv(p, s.(cl := Released(cl1, i), h := h'))
  {
    hide PairInv, ListsInv, StallInv, CreditInv, SameAt;
    var cl1 := WithKick(s.cl, i, Kick(s.cl.credits + 1, c', []));
    var s' := s.(cl := Released(cl1, i), h := h');
    assert s.cl.slots[i := c'][i := c'.(tx := None)] == s.cl.slots[i := c'.(tx := None)];
    LiftClient(p, s, s', i);
    ReleasedLists(p, s.cl, s'.cl, i);
  }

  lemma ReleasedLists(p: Config, cl: Client, cl': Client, i: nat)
    requires ListsInv(p, cl) && StallInv(p, cl) && CreditInv(p, cl) && i < p.window
    requires cl.slots[i].tx.Some? && cl.slots[i].numTx == cl.slots[i].numRx + 1
    requires |cl'.slots| == p.window && cl'.slots == cl.slots[i := cl'.slots[i]]
    requires cl'.slots[i].tx.None? && cl'.slots[i].numTx == cl'.slots[i].numRx
    requires cl'.credits == cl.credits + 1 && cl'.stallq == cl.stallq
    requires cl'.active == Unlink(cl.active, i) && cl'.free == cl.free + [i]
    ensures |cl.free| < p.window
    ensures ListsInv(p, cl') && StallInv(p, cl') && CreditInv(p, cl')
  {
    PushFacts(cl.free, i);
    NoDupBound(cl.free + [i], p.window);
    UnlinkFacts(cl.active, i);
    OutstandingUpdate(cl.slots, i, cl'.slots[i]);
  }

  lemma BacklogPops(p: Config, s: Sys)
    requires BaseInv(p, s) && s.cl.backlog != [] && s.cl.free == []
    ensures Inv(p, s.(cl := s.cl.(backlog := s.cl.backlog[1..])))
  {
    SamePairs(p, s, s.(cl := s.cl.(backlog := s.cl.backlog[1..])));
  }

  lemma SamePairs(p: Config, s: Sys, s': Sys)
    requires PairsInv(p, s)
    requires s'.cl.slots == s.cl.slots && s'.srv == s.srv && s'.up == s.up && s'.down == s.down && s'.h == s.h
    ensures PairsInv(p, s')
  {
    hide PairInv;
    forall j: nat | j < p.window
      ensures AtSlot(p, s', j)
    {
      assert AtSlot(p, s, j);
    }
  }

  /** The completion of a request, from the state in which its last packet arrived. */
  lemma CompleteKeeps(p: Config, s: Sys, i: nat, c': ClientSlot, u: bool)
    requires Inv(p, s) && i < p.window
    requires Final(p, i, s.cl.slots[i], c', s.srv[i], s.up, s.down, s.h)
    ensures var cl1 := WithKick(s.cl, i, Kick(s.cl.credits + 1, c', []));
            && CompleteOk(p, cl1, i)
            && Inv(p, ClientDid(s, Complete(p, cl1, i, u)))
            && ClientDid(s, Complete(p, cl1, i, u)).h.done == s.h.done + multiset{c'.curReq}
  {
    hide AtSlot, ListsInv, StallInv, CreditInv, EnqueueRequest, EnqueueOk;
    var r := c'.curReq;
    var h' := Finished(s.h, Some(Completion(r, s.h.replies[r])));
    var cl1 := WithKick(s.cl, i, Kick(s.cl.credits + 1, c', []));
    ReleasedKeeps(p, s, i, c', h');
    var s1 := s.(cl := Released(cl1, i), h := h');
    if s.cl.backlog == [] {
      NothingSent(s1);
      assert ClientDid(s, Complete(p, cl1, i, u)) == s1;
    } else {
      assert s.cl.backlog[0] in s.cl.backlog;
      IssueKeeps(p, s1, s.cl.backlog[0], u);
      BacklogPops(p, ClientDid(s1, EnqueueRequest(p, s1.cl, s.cl.backlog[0], u)));
    }
  }

  /** Pulling the rest of a response before or after storing a packet's data is the same. */
  lemma {:induction false} RfrsCommute(g: Kick, n: nat, b: MsgBuf)
    requires n <= g.credits
    requires b.hdrType == g.slot.resp.hdrType && b.hdrReqNum == g.slot.resp.hdrReqNum
    ensures SendRfrs(g.(slot := g.slot.(resp := b)), n) ==
            SendRfrs(g, n).(slot := SendRfrs(g, n).slot.(resp := b))
    decreases n
  {
    if n > 0 {
      RfrsCommute(SendRfr(g), n - 1, b);
    }
  }

  /** What `Pull` does to a slot whose response is complete or not yet fully requested. */
  lemma PullFacts(p: Config, credits: nat, c: ClientSlot, pkt: Pkt, b: MsgBuf)
    requires PullOk(p, credits, c, pkt)
    requires b == CopyData(p.dataPerPkt, c.resp, RespNtoi(pkt.pktNum, ReqPkts(p, c.tx.value)), pkt)
    ensures var c2 := c.(resp := b);
            Pull(p, credits, c, pkt) ==
              if c.numTx != SlotWirePkts(p, c) then KickRfr(p, credits, c2) else Kick(credits, c2, [])
  {
    if c.numTx != SlotWirePkts(p, c) {
      RfrsCommute(Kick(credits, c, []), Min(credits, SlotWirePkts(p, c) - c.numTx), b);
    }
  }

  lemma PairPull(p: Config, i: nat, c: ClientSlot, credits: nat, pkt: Pkt, sv: S.ServerSlot,
                 up: set<Pkt>, down: set<Pkt>, h: Hist) returns (g: Kick)
    requires PairInv(p, i, c, sv, up, down, h)
    requires pkt in down && pkt.kind == Resp && SlotOf(p, pkt.reqNum) == i && InOrderClient(p, c, pkt)
    requires Covers(h, pkt.reqNum) && c.numRx + 1 < ReqN(p, h, pkt.reqNum) + RespN(p, h, pkt.reqNum) - 1
    requires 0 < credits && credits + c.numTx <= c.numRx + 1 + p.credits
    ensures pkt.msgSize > p.dataPerPkt
    ensures var c1 := c.(numRx := c.numRx + 1);
            && SizedOk(p, c1, pkt) && PullOk(p, credits, Sized(p, c1, pkt), pkt)
            && g == Pull(p, credits, Sized(p, c1, pkt), pkt)
    ensures PairInv(p, i, g.slot, sv, up + ToSet(g.sent), down, h)
    ensures forall x :: x in g.sent ==> SlotOf(p, x.reqNum) == i
    ensures c.tx.Some? && g.slot.tx.Some? && g.slot.numTx > g.slot.numRx == c.numRx + 1
    ensures g.credits + g.slot.numTx == credits + c.numTx
    ensures g.slot.numRx != SlotWirePkts(p, g.slot)
  {
    RespIsNext(p, i, c, pkt, sv, up, down, h);
    StoreKeeps(p, i, c, pkt, sv, up, down, h);
    AcceptRespKeeps(p, i, c, pkt, sv, up, down, h);
    var c1, c2 := Sized(p, c.(numRx := c.numRx + 1), pkt), Stored(p, c, pkt);
    PairPullOk(p, i, c, c1, c2, credits, pkt, sv, up, down, h);
    PullFacts(p, credits, c1, pkt, c2.resp);
    g := Pull(p, credits, c1, pkt);
    if c1.numTx != SlotWirePkts(p, c1) {
      KickRfrKeeps(p, i, credits, c2, sv, up, down, h);
    } else {
      assert up + ToSet(g.sent) == up;
    }
  }

  lemma PairPullOk(p: Config, i: nat, c: ClientSlot, c1: ClientSlot, c2: ClientSlot, credits: nat, pkt: Pkt,
                   sv: S.ServerSlot, up: set<Pkt>, down: set<Pkt>, h: Hist)
    requires PairInv(p, i, c, sv, up, down, h)
    requires pkt in down && pkt.kind == Resp && SlotOf(p, pkt.reqNum) == i && InOrderClient(p, c, pkt)
    requires Covers(h, pkt.reqNum) && c.numRx + 1 < ReqN(p, h, pkt.reqNum) + RespN(p, h, pkt.reqNum) - 1
    requires SizedOk(p, c, pkt) && c1 == Sized(p, c.(numRx := c.numRx + 1), pkt)
    requires ReqPkts(p, c.tx.value) <= pkt.pktNum + 1
    requires CopyOk(p.dataPerPkt, c1.resp, RespNtoi(pkt.pktNum, ReqPkts(p, c.tx.value)), pkt)
    requires c2 == c1.(resp := CopyData(p.dataPerPkt, c1.resp, RespNtoi(pkt.pktNum, ReqPkts(p, c1.tx.value)), pkt))
    requires PairInv(p, i, c2, sv, up, down, h)
    requires 0 < credits
    ensures PullOk(p, credits, c1, pkt) && pkt.msgSize > p.dataPerPkt
    ensures c1.numTx != SlotWirePkts(p, c1) ==> KickRfrOk(p, credits, c2) && c2.numTx < SlotWirePkts(p, c2)
    ensures c2.numRx < SlotWirePkts(p, c2) == SlotWirePkts(p, c1)
  {
    RespIsNext(p, i, c, pkt, sv, up, down, h);
    assert ActiveInv(p, c2, h);
    assert Collecting(p, c2, h);
  }

  /** The code path of an in-order packet of a large response up to storing its data. */
  ghost predicate PullPath(p: Config, cl: Client, i: nat, pkt: Pkt, g: Kick) {
    && |cl.slots| == p.window && i < p.window && |cl.slots[i].inWheel| == p.credits
    && pkt.reqNum <= cl.slots[i].curReq && InOrderClient(p, cl.slots[i], pkt) && cl.credits < p.credits
    && pkt.msgSize > p.dataPerPkt
    && var c1 := cl.slots[i].(numRx := cl.slots[i].numRx + 1);
       && SizedOk(p, c1, pkt) && PullOk(p, cl.credits + 1, Sized(p, c1, pkt), pkt)
       && g == Pull(p, cl.credits + 1, Sized(p, c1, pkt), pkt)
  }

  lemma PullPathStep(p: Config, cl: Client, i: nat, pkt: Pkt, g: Kick, u: bool)
    requires PullPath(p, cl, i, pkt, g) && g.slot.numRx != SlotWirePkts(p, g.slot)
    ensures RespOk(p, cl, i, pkt)
    ensures ProcessResp(p, cl, i, pkt, u) == ClientOut(WithKick(cl, i, g), g.sent, None, None)
  {
    var cl1 := Accepted(cl, i);
    assert cl1.slots[i := g.slot] == cl.slots[i := g.slot];
    assert WithKick(cl1, i, g) == WithKick(cl, i, g);
  }

  /** The step of a received response packet is its handler's. */
  lemma RespStep(p: Config, s: Sys, pkt: Pkt, u: bool)
    requires pkt.kind == Resp && pkt.msgSize <= p.maxMsgSize && RespOk(p, s.cl, SlotOf(p, pkt.reqNum), pkt)
    ensures Safe(p, s, ToClient(pkt, u))
    ensures Step(p, s, ToClient(pkt, u)) == ClientDid(s, ProcessResp(p, s.cl, SlotOf(p, pkt.reqNum), pkt, u))
  {
  }

  lemma RespMoreKeeps(p: Config, s: Sys, pkt: Pkt, u: bool)
    requires Inv(p, s) && pkt in s.down && pkt.kind == Resp && InOrderAt(p, s, pkt) && Covers(s.h, pkt.reqNum)
    requires s.cl.slots[SlotOf(p, pkt.reqNum)].numRx + 1 < ReqN(p, s.h, pkt.reqNum) + RespN(p, s.h, pkt.reqNum) - 1
    ensures RespOk(p, s.cl, SlotOf(p, pkt.reqNum), pkt)
    ensures Inv(p, ClientDid(s, ProcessResp(p, s.cl, SlotOf(p, pkt.reqNum), pkt, u)))
  {
    hide PairInv, PullPath;
    var i := SlotOf(p, pkt.reqNum);
    var g := RespMoreFits(p, s, pkt);
    SlotStepKeeps(p, s, i, g);
    PullPathStep(p, s.cl, i, pkt, g, u);
    assert ClientDid(s, ProcessResp(p, s.cl, i, pkt, u)) == SlotStep(s, i, g);
  }

  lemma RespMoreFits(p: Config, s: Sys, pkt: Pkt) returns (g: Kick)
    requires Inv(p, s) && pkt in s.down && pkt.kind == Resp && InOrderAt(p, s, pkt) && Covers(s.h, pkt.reqNum)
    requires s.cl.slots[SlotOf(p, pkt.reqNum)].numRx + 1 < ReqN(p, s.h, pkt.reqNum) + RespN(p, s.h, pkt.reqNum) - 1
    ensures PullPath(p, s.cl, SlotOf(p, pkt.reqNum), pkt, g) && StepFits(p, s, SlotOf(p, pkt.reqNum), g)
    ensures g.slot.numRx != SlotWirePkts(p, g.slot)
  {
    hide PairInv, ListsInv, StallInv, Pull, PullOk, Sized, SizedOk;
    DownFacts(p, s, pkt);
    var i := SlotOf(p, pkt.reqNum);
    SlotFacts(p, s, i);
    g := PairPull(p, i, s.cl.slots[i], s.cl.credits + 1, pkt, s.srv[i], s.up, s.down, s.h);
    Fits(p, s, i, g);
  }

  /** The code path of the last packet of a response: `c2` is the slot that stored it. */
  ghost predicate LastPath(p: Config, cl: Client, i: nat, pkt: Pkt, c2: ClientSlot) {
    && |cl.slots| == p.window && i < p.window && |cl.slots[i].inWheel| == p.credits
    && pkt.reqNum <= cl.slots[i].curReq && InOrderClient(p, cl.slots[i], pkt) && cl.credits < p.credits
    && var c1 := cl.slots[i].(numRx := cl.slots[i].numRx + 1);
       if pkt.msgSize <= p.dataPerPkt then
         && pkt.msgSize <= |c1.resp.mem| && pkt.msgSize <= |pkt.data|
         && c2 == c1.(resp := StoreSmall(p.dataPerPkt, c1.resp, pkt))
       else
         && PullPath(p, cl, i, pkt, Kick(cl.credits + 1, c2, []))
         && c2.tx.Some? && c2.numRx == SlotWirePkts(p, c2)
  }

  /** The handler of a last packet is the completion of the slot that stored it. */
  lemma LastPathStep(p: Config, cl: Client, i: nat, c2: ClientSlot, pkt: Pkt, u: bool)
    requires LastPath(p, cl, i, pkt, c2)
    requires CompleteOk(p, WithKick(cl, i, Kick(cl.credits + 1, c2, [])), i)
    ensures RespOk(p, cl, i, pkt)
    ensures ProcessResp(p, cl, i, pkt, u) == Complete(p, WithKick(cl, i, Kick(cl.credits + 1, c2, [])), i, u)
  {
    var cl1, g := Accepted(cl, i), Kick(cl.credits + 1, c2, []);
    assert cl1.slots[i := c2] == cl.slots[i := c2];
    if pkt.msgSize <= p.dataPerPkt {
      assert AcceptedSmall(p, cl, i, pkt) == WithKick(cl, i, g);
    } else {
      assert WithKick(cl1, i, g) == WithKick(cl, i, g);
      var out := Complete(p, WithKick(cl, i, g), i, u);
      assert [] + out.sent == out.sent;
    }
  }

  /** After the last packet, `c2` holds the whole reply and is ready to be released. */
  ghost predicate Final(
    p: Config, i: nat, c: ClientSlot, c2: ClientSlot, sv: S.ServerSlot, up: set<Pkt>, down: set<Pkt>, h: Hist)
  {
    && c.curReq in h.replies && SlotOf(p, c.curReq) == i
    && c.tx.Some? && c.numTx == c.numRx + 1 && c.wheelCount == 0
    && c2.numTx == c2.numRx && c2.curReq == c.curReq && c2.tx == c.tx && c2.wheelCount == 0
    && c2.resp.dataSize <= |c2.resp.mem| && c2.resp.Contents() == h.replies[c.curReq]
    && PairInv(p, i, c2.(tx := None), sv, up, down, Finished(h, Some(Completion(c.curReq, h.replies[c.curReq]))))
  }

  lemma PairLast(p: Config, i: nat, c: ClientSlot, credits: nat, pkt: Pkt, sv: S.ServerSlot,
                 up: set<Pkt>, down: set<Pkt>, h: Hist) returns (c2: ClientSlot)
    requires PairInv(p, i, c, sv, up, down, h) && c.numTx <= c.numRx + p.credits
    requires pkt in down && pkt.kind == Resp && SlotOf(p, pkt.reqNum) == i && InOrderClient(p, c, pkt)
    requires Covers(h, pkt.reqNum) && c.numRx + 1 == ReqN(p, h, pkt.reqNum) + RespN(p, h, pkt.reqNum) - 1
    ensures Final(p, i, c, c2, sv, up, down, h)
    ensures var c1 := c.(numRx := c.numRx + 1);
            if pkt.msgSize <= p.dataPerPkt then
              && pkt.msgSize <= |c1.resp.mem| && pkt.msgSize <= |pkt.data|
              && c2 == c1.(resp := StoreSmall(p.dataPerPkt, c1.resp, pkt))
            else
              && SizedOk(p, c1, pkt) && PullOk(p, credits, Sized(p, c1, pkt), pkt)
              && Kick(credits, c2, []) == Pull(p, credits, Sized(p, c1, pkt), pkt)
              && c2.numRx == SlotWirePkts(p, c2)
  {
    var reply := h.replies[pkt.reqNum];
    RespIsNext(p, i, c, pkt, sv, up, down, h);
    StoreKeeps(p, i, c, pkt, sv, up, down, h);
    LastPacket(p, i, c, pkt, sv, up, down, h);
    var c1 := c.(numRx := c.numRx + 1);
    if pkt.msgSize <= p.dataPerPkt {
      c2 := c1.(resp := StoreSmall(p.dataPerPkt, c1.resp, pkt));
      assert c2.resp.Contents() == reply by { assert reply[..|reply|] == reply; }
    } else {
      c2 := Stored(p, c, pkt);
      assert SlotWirePkts(p, c2) == c2.numRx;
    }
    ReleaseKeeps(p, i, c, c2.(tx := None), sv, up, down, h, Finished(h, Some(Completion(c.curReq, reply))));
  }

  lemma RespLastFits(p: Config, s: Sys, pkt: Pkt) returns (c2: ClientSlot)
    requires Inv(p, s) && pkt in s.down && pkt.kind == Resp && InOrderAt(p, s, pkt) && Covers(s.h, pkt.reqNum)
    requires s.cl.slots[SlotOf(p, pkt.reqNum)].numRx + 1 == ReqN(p, s.h, pkt.reqNum) + RespN(p, s.h, pkt.reqNum) - 1
    ensures var i := SlotOf(p, pkt.reqNum);
            Final(p, i, s.cl.slots[i], c2, s.srv[i], s.up, s.down, s.h) && LastPath(p, s.cl, i, pkt, c2)
    ensures c2.curReq == pkt.reqNum
  {
    hide PairInv, ListsInv, StallInv, Pull, PullOk, Sized, SizedOk, StoreSmall;
    DownFacts(p, s, pkt);
    var i := SlotOf(p, pkt.reqNum);
    SlotFacts(p, s, i);
    c2 := PairLast(p, i, s.cl.slots[i], s.cl.credits + 1, pkt, s.srv[i], s.up, s.down, s.h);
  }

  /** The completion that the last packet of a response brings about. */
  lemma RespLastCompletes(p: Config, s: Sys, pkt: Pkt, u: bool) returns (c2: ClientSlot)
    requires Inv(p, s) && pkt in s.down && pkt.kind == Resp && InOrderAt(p, s, pkt) && Covers(s.h, pkt.reqNum)
    requires s.cl.slots[SlotOf(p, pkt.reqNum)].numRx + 1 == ReqN(p, s.h, pkt.reqNum) + RespN(p, s.h, pkt.reqNum) - 1
    ensures var i := SlotOf(p, pkt.reqNum);
            var cl1 := WithKick(s.cl, i, Kick(s.cl.credits + 1, c2, []));
            && LastPath(p, s.cl, i, pkt, c2)
            && CompleteOk(p, cl1, i)
            && Inv(p, ClientDid(s, Complete(p, cl1, i, u)))
            && ClientDid(s, Complete(p, cl1, i, u)).h.done == s.h.done + multiset{pkt.reqNum}
  {
    hide Inv, PairInv, LastPath, Complete;
    c2 := RespLastFits(p, s, pkt);
    CompleteKeeps(p, s, SlotOf(p, pkt.reqNum), c2, u);
  }

  lemma RespLastSlot(p: Config, s: Sys, pkt: Pkt, u: bool) returns (c2: ClientSlot)
    requires Inv(p, s) && pkt in s.down && pkt.kind == Resp && InOrderAt(p, s, pkt) && Covers(s.h, pkt.reqNum)
    requires s.cl.slots[SlotOf(p, pkt.reqNum)].numRx + 1 == ReqN(p, s.h, pkt.reqNum) + RespN(p, s.h, pkt.reqNum) - 1
    ensures var i := SlotOf(p, pkt.reqNum);
            LastPath(p, s.cl, i, pkt, c2) && CompleteOk(p, WithKick(s.cl, i, Kick(s.cl.credits + 1, c2, [])), i)
  {
    c2 := RespLastCompletes(p, s, pkt, u);
  }

  lemma RespLastKeeps(p: Config, s: Sys, pkt: Pkt, u: bool)
    requires Inv(p, s) && pkt in s.down && pkt.kind == Resp && InOrderAt(p, s, pkt) && Covers(s.h, pkt.reqNum)
    requires s.cl.slots[SlotOf(p, pkt.reqNum)].numRx + 1 == ReqN(p, s.h, pkt.reqNum) + RespN(p, s.h, pkt.reqNum) - 1
    ensures RespOk(p, s.cl, SlotOf(p, pkt.reqNum), pkt)
    ensures Inv(p, ClientDid(s, ProcessResp(p, s.cl, SlotOf(p, pkt.reqNum), pkt, u)))
    ensures ClientDid(s, ProcessResp(p, s.cl, SlotOf(p, pkt.reqNum), pkt, u)).h.done == s.h.done + multiset{pkt.reqNum}
  {
    hide Inv, LastPath, Complete, CompleteOk, RespOk, ProcessResp;
    var c2 := RespLastCompletes(p, s, pkt, u);
    LastPathStep(p, s.cl, SlotOf(p, pkt.reqNum), c2, pkt, u);
  }

  lemma RespDropped(p: Config, cl: Client, i: nat, pkt: Pkt, u: bool)
    requires i < |cl.slots| && |cl.slots[i].inWheel| == p.credits
    requires pkt.reqNum <= cl.slots[i].curReq && !InOrderClient(p, cl.slots[i], pkt)
    ensures RespOk(p, cl, i, pkt) && ProcessResp(p, cl, i, pkt, u) == ClientOut(cl, [], None, None)
  {
  }

  lemma RespKeeps(p: Config, s: Sys, pkt: Pkt, u: bool)
    requires Inv(p, s) && Enabled(p, s, ToClient(pkt, u)) && pkt.kind == Resp
    ensures Keeps(p, s, ToClient(pkt, u))
  {
    hide PairInv, ListsInv, StallInv, ProcessResp, RespOk;
    DownFacts(p, s, pkt);
    if InOrderAt(p, s, pkt) {
      RespCovered(p, s, pkt);
      if s.cl.slots[SlotOf(p, pkt.reqNum)].numRx + 1 < ReqN(p, s.h, pkt.reqNum) + RespN(p, s.h, pkt.reqNum) - 1 {
        RespMoreKeeps(p, s, pkt, u);
      } else {
        RespLastKeeps(p, s, pkt, u);
      }
    } else {
      RespDropped(p, s.cl, SlotOf(p, pkt.reqNum), pkt, u);
      NothingSent(s);
    }
    RespStep(p, s, pkt, u);
  }

  lemma RespCovered(p: Config, s: Sys, pkt: Pkt)
    requires BaseInv(p, s) && pkt in s.down && pkt.kind == Resp && InOrderAt(p, s, pkt)
    ensures Covers(s.h, pkt.reqNum)
    ensures s.cl.slots[SlotOf(p, pkt.reqNum)].numRx + 1 <= ReqN(p, s.h, pkt.reqNum) + RespN(p, s.h, pkt.reqNum) - 1
  {
    hide ListsInv, StallInv;
    var i := SlotOf(p, pkt.reqNum);
    SlotFacts(p, s, i);
    RespIsNext(p, i, s.cl.slots[i], pkt, s.srv[i], s.up, s.down, s.h);
  }

  // ---------------------------------------------------------------------------
  // Server events, and all events together
  // ---------------------------------------------------------------------------

  /** No client packet is larger than the size limit. */
  lemma UpFacts(p: Config, s: Sys, pkt: Pkt)
    requires BaseInv(p, s) && pkt in s.up
    ensures pkt.kind == Req || pkt.kind == Rfr
    ensures pkt.msgSize <= p.maxMsgSize
  {
    hide ActiveInv, ServerInv, Linked, ListsInv, StallInv;
    var i := SlotOf(p, pkt.reqNum);
    SlotFacts(p, s, i);
    assert UpPkt(p, s.h, pkt);
    assert HistAt(p, s.cl.slots[i], s.srv[i], s.h, pkt.reqNum);
  }

  lemma ToServerKeeps(p: Config, s: Sys, pkt: Pkt, mem: Option<seq<byte>>)
    requires Inv(p, s) && Enabled(p, s, ToServer(pkt, mem))
    ensures Safe(p, s, ToServer(pkt, mem)) <==> Provided(p, s, ToServer(pkt, mem))
    ensures Safe(p, s, ToServer(pkt, mem)) ==> Inv(p, Step(p, s, ToServer(pkt, mem)))
  {
    hide ListsInv, StallInv;
    var i := SlotOf(p, pkt.reqNum);
    SlotFacts(p, s, i);
    assert UpPkt(p, s.h, pkt);
    if pkt.kind == Req {
      ReqKeeps(p, i, s.cl.slots[i], s.srv[i], s.up, s.down, s.h, pkt, mem);
    } else {
      RfrKeeps(p, i, s.cl.slots[i], s.srv[i], s.up, s.down, s.h, pkt);
    }
    UpFacts(p, s, pkt);
    if Safe(p, s, ToServer(pkt, mem)) {
      LiftServer(p, s, Step(p, s, ToServer(pkt, mem)), i);
    }
  }

  lemma ReplyEventKeeps(p: Config, s: Sys, i: nat, data: seq<byte>)
    requires Inv(p, s) && Enabled(p, s, Reply(i, data))
    ensures Keeps(p, s, Reply(i, data))
  {
    hide ListsInv, StallInv;
    SlotFacts(p, s, i);
    var h' := s.h.(replies := s.h.replies[s.srv[i].curReq := data]);
    ReplyKeeps(p, i, s.cl.slots[i], s.srv[i], s.up, s.down, s.h, h', data);
    LiftServer(p, s, Step(p, s, Reply(i, data)), i);
  }

  lemma IssueEventKeeps(p: Config, s: Sys, r: Request, u: bool)
    requires Inv(p, s) && Enabled(p, s, Issue(r, u))
    ensures Keeps(p, s, Issue(r, u))
  {
    if s.cl.free != [] {
      IssueKeeps(p, s, r, u);
    } else {
      NothingSent(s);
      SamePairs(p, s, Step(p, s, Issue(r, u)));
    }
  }

  /** No event other than a packet's arrival at the server ever fails an assertion. */
  lemma OtherKeeps(p: Config, s: Sys, e: Event)
    requires Inv(p, s) && Enabled(p, s, e) && !e.ToServer?
    ensures Keeps(p, s, e)
  {
    hide ListsInv, StallInv, Keeps;
    match e
    case Issue(r, u) => IssueEventKeeps(p, s, r, u);
    case ToClient(pkt, u) =>
      SlotFacts(p, s, SlotOf(p, pkt.reqNum));
      assert DownPkt(p, s.srv[SlotOf(p, pkt.reqNum)], s.h, pkt);
      if pkt.kind == Resp { RespKeeps(p, s, pkt, u); } else { ExplCrKeeps(p, s, pkt, u); }
    case Reply(i, data) => ReplyEventKeeps(p, s, i, data);
    case ServeStalled(u) => ServeStalledKeeps(p, s, u);
    case FromWheel(i, n) => FromWheelKeeps(p, s, i, n);
    case Scan(expired, u) => ScanKeeps(p, s, expired, u);
  }

  /** An enabled event fails an assertion only if it makes the server allocate an empty
      buffer or one that there is no memory for, and then it does; every event that fails
      none keeps the invariant. */
  lemma StepKeeps(p: Config, s: Sys, e: Event)
    requires Inv(p, s) && Enabled(p, s, e)
    ensures Safe(p, s, e) <==> Provided(p, s, e)
    ensures Safe(p, s, e) ==> Inv(p, Step(p, s, e))
  {
    hide Inv, Safe, Step;
    if e.ToServer? {
      ToServerKeeps(p, s, e.pkt, e.mem);
    } else {
      OtherKeeps(p, s, e);
    }
  }

  lemma InitPair(p: Config, i: nat)
    requires i < p.window
    ensures PairInv(p, i, ClientSpec.InitSlot(p, i), S.InitSlot(i), {}, {}, Init(p).h)
  {
    hide NumPkts, ReqPkt, HasPrefix;
    var c := ClientSpec.InitSlot(p, i);
    assert WheelInv(p.credits, c);
    hide WheelInv;
    forall r: nat | SlotOf(p, r) == i
      ensures HistAt(p, c, S.InitSlot(i), Init(p).h, r)
    {
    }
  }

  lemma InitKeeps(p: Config)
    ensures Inv(p, Init(p))
  {
    var s := Init(p);
    forall i: nat | i < p.window
      ensures AtSlot(p, s, i)
    {
      InitPair(p, i);
    }
    OutstandingZero(s.cl.slots);
    forall i: nat | i < p.window
      ensures i in s.cl.free
    {
      assert s.cl.free[p.window - 1 - i] == i;
    }
  }
}
