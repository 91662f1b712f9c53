/** What a session's events do to its credits and to the timing wheel, in the order of the
    program: credits return, and are spent on packets that are sent at once or put in the
    wheel. Every event of the session is balanced: no credit is spent that is not there, and
    none returns for a packet that is still in the wheel. */
module Acts {
  import opened Wire
  import opened ClientSpec
  import opened Protocol
  import opened ProtocolProof
  import opened Runs
  import opened ListFacts

  datatype Act =
    | Free                  // a credit returns
    | Send                  // a credit is spent on a packet that is sent at once
    | Pace(size: nat)       // a credit is spent on a packet of this size, put in the wheel
    | Leave                 // a packet leaves the wheel and is sent

  /** The credits of a session that are left, and its packets in the wheel. */
  datatype Ledger = Ledger(credits: nat, inWheel: nat)

  ghost function LedgerOf(cl: Client): Ledger {
    Ledger(cl.credits, InWheel(cl.slots))
  }

  /** The act is possible, where `u` tells whether the session is uncongested: such a session
      puts packets in the wheel only behind packets that are there. */
  predicate ActOk(total: nat, u: bool, l: Ledger, a: Act) {
    match a
    case Free => l.credits + l.inWheel < total
    case Send => l.credits > 0
    case Pace(_) => l.credits > 0 && (u ==> l.inWheel > 0)
    case Leave => l.inWheel > 0
  }

  function Do(total: nat, u: bool, l: Ledger, a: Act): Ledger
    requires ActOk(total, u, l, a)
  {
    match a
    case Free => l.(credits := l.credits + 1)
    case Send => l.(credits := l.credits - 1)
    case Pace(_) => Ledger(l.credits - 1, l.inWheel + 1)
    case Leave => l.(inWheel := l.inWheel - 1)
  }

  /** The acts lead from one ledger to another, each being possible when it happens. */
  ghost predicate Balanced(total: nat, u: bool, l: Ledger, acts: seq<Act>, m: Ledger)
    decreases |acts|
  {
    if acts == [] then l == m
    else ActOk(total, u, l, acts[0]) && Balanced(total, u, Do(total, u, l, acts[0]), acts[1..], m)
  }

  lemma {:induction false} BalancedJoin(total: nat, u: bool, l: Ledger, a: seq<Act>, m: Ledger, b: seq<Act>, r: Ledger)
    requires Balanced(total, u, l, a, m) && Balanced(total, u, m, b, r)
    ensures Balanced(total, u, l, a + b, r)
    decreases |a|
  {
    if a == [] {
      assert a + b == b;
    } else {
      BalancedJoin(total, u, Do(total, u, l, a[0]), a[1..], m, b, r);
      assert (a + b)[1..] == a[1..] + b;
    }
  }

  // ---------------------------------------------------------------------------
  // The acts of each handler
  // ---------------------------------------------------------------------------

  /** The size of a request packet with its header of `hdr` bytes. */
  function PktSize(p: Config, hdr: nat, r: Request, idx: nat): nat {
    hdr + if idx * p.dataPerPkt <= |r.data| then Min(p.dataPerPkt, |r.data| - idx * p.dataPerPkt) else 0
  }

  /** That is the header and the data that the packet carries. */
  lemma SizeIsData(p: Config, hdr: nat, r: Request, reqNum: nat, idx: nat)
    requires idx < ReqPkts(p, r)
    ensures PktSize(p, hdr, r, idx) == hdr + |ReqPkt(p, r, reqNum, idx).data|
  {
    var k := p.dataPerPkt;
    NumPktsBounds(k, |r.data|, idx);
    assert (idx + 1) * k == idx * k + k;
  }

  function Sends(n: nat): seq<Act> {
    if n == 0 then [] else [Send] + Sends(n - 1)
  }

  function Frees(n: nat): seq<Act> {
    if n == 0 then [] else [Free] + Frees(n - 1)
  }

  /** `n` request packets from number `from` on. */
  function ReqActs(p: Config, hdr: nat, r: Request, from: nat, n: nat, bypass: bool): seq<Act>
    decreases n
  {
    if n == 0 then []
    else [if bypass then Send else Pace(PktSize(p, hdr, r, from))] + ReqActs(p, hdr, r, from + 1, n - 1, bypass)
  }

  function KickReqActs(p: Config, hdr: nat, credits: nat, s: ClientSlot, u: bool): seq<Act>
    requires KickReqOk(p, credits, s)
  {
    var n: nat := Min(credits, ReqPkts(p, s.tx.value) - s.numTx);
    ReqActs(p, hdr, s.tx.value, s.numTx, n, s.wheelCount == 0 && u)
  }

  function KickRfrActs(p: Config, credits: nat, s: ClientSlot): seq<Act>
    requires KickRfrOk(p, credits, s)
  {
    Sends(Min(credits, SlotWirePkts(p, s) - s.numTx))
  }

  function KickActs(p: Config, hdr: nat, credits: nat, s: ClientSlot, u: bool): seq<Act>
    requires KickOk(p, credits, s)
  {
    if ReqPktsPending(p, s) then KickReqActs(p, hdr, credits, s, u) else KickRfrActs(p, credits, s)
  }

  function EnqueueActs(p: Config, hdr: nat, cl: Client, r: Request, u: bool): seq<Act>
    requires EnqueueOk(p, cl, r)
  {
    if cl.free == [] || cl.credits == 0 then []
    else KickReqActs(p, hdr, cl.credits, Activated(p, cl.slots[Last(cl.free)], r), u)
  }

  function CompleteActs(p: Config, hdr: nat, cl: Client, i: nat, u: bool): seq<Act>
    requires CompleteOk(p, cl, i)
  {
    if cl.backlog == [] then [] else EnqueueActs(p, hdr, Released(cl, i), cl.backlog[0], u)
  }

  function ExplCrActs(p: Config, hdr: nat, cl: Client, i: nat, pkt: Pkt, u: bool): seq<Act>
    requires ExplCrOk(p, cl, i, pkt)
  {
    if !InOrderClient(p, cl.slots[i], pkt) then []
    else
      var cl1 := Accepted(cl, i);
      [Free] + if ReqPktsPending(p, cl1.slots[i]) then KickReqActs(p, hdr, cl1.credits, cl1.slots[i], u) else []
  }

  function PullActs(p: Config, credits: nat, s: ClientSlot): seq<Act>
    requires s.tx.Some? && (s.numTx != SlotWirePkts(p, s) ==> KickRfrOk(p, credits, s))
  {
    if s.numTx != SlotWirePkts(p, s) then KickRfrActs(p, credits, s) else []
  }

  function RespActs(p: Config, hdr: nat, cl: Client, i: nat, pkt: Pkt, u: bool): seq<Act>
    requires RespOk(p, cl, i, pkt)
  {
    if !InOrderClient(p, cl.slots[i], pkt) then []
    else if pkt.msgSize <= p.dataPerPkt then [Free] + CompleteActs(p, hdr, AcceptedSmall(p, cl, i, pkt), i, u)
    else
      var cl1 := Accepted(cl, i);
      var s := Sized(p, cl1.slots[i], pkt);
      var g := Pull(p, cl1.credits, s, pkt);
      var pull := PullActs(p, cl1.credits, s);
      [Free] + if g.slot.numRx != SlotWirePkts(p, g.slot) then pull
               else pull + CompleteActs(p, hdr, WithKick(cl1, i, g), i, u)
  }

  function StallActs(p: Config, hdr: nat, cl: Client, q: seq<nat>, u: bool): seq<Act>
    requires StallOk(p, cl, q, u)
    decreases |q|
  {
    if q == [] then []
    else if cl.credits > 0 then
      KickActs(p, hdr, cl.credits, cl.slots[q[0]], u)
      + StallActs(p, hdr, WithKick(cl, q[0], KickAny(p, cl.credits, cl.slots[q[0]], u)), q[1..], u)
    else StallActs(p, hdr, cl, q[1..], u)
  }

  function RetransmitActs(p: Config, hdr: nat, cl: Client, i: nat, u: bool): seq<Act>
    requires RetransmitOk(p, cl, i)
  {
    var s := cl.slots[i];
    if s.numTx == s.numRx || s.wheelCount > 0 then []
    else Frees(s.numTx - s.numRx) + KickActs(p, hdr, cl.credits + (s.numTx - s.numRx), RolledBack(s), u)
  }

  function ScanActs(p: Config, hdr: nat, cl: Client, list: seq<nat>, expired: set<nat>, u: bool): seq<Act>
    requires ScanOk(p, cl, list, expired, u)
    decreases |list|
  {
    if list == [] then []
    else if ScanRetransmits(cl, list[0], expired) then
      RetransmitActs(p, hdr, cl, list[0], u)
      + ScanActs(p, hdr, Retransmit(p, cl, list[0], u).cl, list[1..], expired, u)
    else ScanActs(p, hdr, cl, list[1..], expired, u)
  }

  function EventActs(p: Config, hdr: nat, s: Sys, e: Event): seq<Act>
    requires Safe(p, s, e)
  {
    match e
    case Issue(req, u) => EnqueueActs(p, hdr, s.cl, req, u)
    case ToServer(_, _) => []
    case ToClient(pkt, u) =>
      if pkt.kind == Resp then RespActs(p, hdr, s.cl, SlotOf(p, pkt.reqNum), pkt, u)
      else ExplCrActs(p, hdr, s.cl, SlotOf(p, pkt.reqNum), pkt, u)
    case Reply(_, _) => []
    case ServeStalled(u) => StallActs(p, hdr, s.cl, s.cl.stallq, u)
    case FromWheel(_, _) => [Leave]
    case Scan(expired, u) => ScanActs(p, hdr, s.cl, s.cl.active, expired, u)
  }

  // ---------------------------------------------------------------------------
  // Spending
  // ---------------------------------------------------------------------------

  lemma {:induction false} InWheelUpdate(slots: seq<ClientSlot>, i: nat, s: ClientSlot)
    requires i < |slots|
    ensures InWheel(slots[i := s]) == InWheel(slots) - slots[i].wheelCount + s.wheelCount
    ensures InWheel(slots) >= slots[i].wheelCount
  {
    if i > 0 {
      InWheelUpdate(slots[1..], i - 1, s);
      assert slots[i := s][1..] == slots[1..][i - 1 := s];
    }
  }

  lemma {:induction false} SendsBalanced(total: nat, u: bool, credits: nat, w: nat, n: nat)
    requires n <= credits
    ensures Balanced(total, u, Ledger(credits, w), Sends(n), Ledger(credits - n, w))
  {
    if n > 0 {
      SendsBalanced(total, u, credits - 1, w, n - 1);
      assert Sends(n)[1..] == Sends(n - 1);
    }
  }

  lemma {:induction false} FreesBalanced(total: nat, u: bool, credits: nat, w: nat, n: nat)
    requires credits + w + n <= total
    ensures Balanced(total, u, Ledger(credits, w), Frees(n), Ledger(credits + n, w))
    decreases n
  {
    if n > 0 {
      FreesBalanced(total, u, credits + 1, w, n - 1);
      assert Frees(n)[1..] == Frees(n - 1);
    }
  }

  lemma {:induction false} ReqsBalanced(p: Config, hdr: nat, total: nat, u: bool, g: Kick, w: nat, n: nat, bypass: bool)
    requires CanSendReq(p, g, n) && (u && !bypass ==> w > 0)
    ensures var g' := SendReqs(p, g, n, bypass);
            && g'.slot.wheelCount >= g.slot.wheelCount
            && Balanced(total, u, Ledger(g.credits, w), ReqActs(p, hdr, g.slot.tx.value, g.slot.numTx, n, bypass),
                        Ledger(g'.credits, w + g'.slot.wheelCount - g.slot.wheelCount))
    decreases n
  {
    hide PktSize, ReqPkt, NumPkts;
    if n > 0 {
      var acts := ReqActs(p, hdr, g.slot.tx.value, g.slot.numTx, n, bypass);
      ReqsBalanced(p, hdr, total, u, SendReq(p, g, bypass), if bypass then w else w + 1, n - 1, bypass);
      assert acts[1..] == ReqActs(p, hdr, g.slot.tx.value, g.slot.numTx + 1, n - 1, bypass);
    }
  }

  /** A kick's acts, whatever else the wheel holds. */
  lemma KickReqBalanced(p: Config, hdr: nat, total: nat, credits: nat, s: ClientSlot, w: nat, u: bool)
    requires KickReqOk(p, credits, s) && s.wheelCount <= w
    ensures var g := KickReq(p, credits, s, u);
            && g.slot.wheelCount >= s.wheelCount
            && Balanced(total, u, Ledger(credits, w), KickReqActs(p, hdr, credits, s, u),
                        Ledger(g.credits, w + g.slot.wheelCount - s.wheelCount))
  {
    var n: nat := Min(credits, ReqPkts(p, s.tx.value) - s.numTx);
    ReqsBalanced(p, hdr, total, u, Kick(credits, s, []), w, n, s.wheelCount == 0 && u);
  }

  lemma KickBalanced(p: Config, hdr: nat, total: nat, credits: nat, s: ClientSlot, w: nat, u: bool)
    requires KickOk(p, credits, s) && s.wheelCount <= w
    ensures var g := KickAny(p, credits, s, u);
            && g.slot.wheelCount >= s.wheelCount
            && Balanced(total, u, Ledger(credits, w), KickActs(p, hdr, credits, s, u),
                        Ledger(g.credits, w + g.slot.wheelCount - s.wheelCount))
  {
    if ReqPktsPending(p, s) {
      KickReqBalanced(p, hdr, total, credits, s, w, u);
    } else {
      SendsBalanced(total, u, credits, w, Min(credits, SlotWirePkts(p, s) - s.numTx));
    }
  }

  lemma EnqueueBalanced(p: Config, hdr: nat, cl: Client, r: Request, u: bool)
    requires EnqueueOk(p, cl, r)
    ensures Balanced(p.credits, u, LedgerOf(cl), EnqueueActs(p, hdr, cl, r, u),
                     LedgerOf(EnqueueRequest(p, cl, r, u).cl))
  {
    if cl.free != [] {
      var i := Last(cl.free);
      var s := Activated(p, cl.slots[i], r);
      if cl.credits > 0 {
        InWheelUpdate(cl.slots, i, KickReq(p, cl.credits, s, u).slot);
        KickReqBalanced(p, hdr, p.credits, cl.credits, s, InWheel(cl.slots), u);
      } else {
        InWheelUpdate(cl.slots, i, s);
      }
    }
  }

  lemma CompleteBalanced(p: Config, hdr: nat, cl: Client, i: nat, u: bool)
    requires CompleteOk(p, cl, i)
    ensures Balanced(p.credits, u, LedgerOf(cl), CompleteActs(p, hdr, cl, i, u), LedgerOf(Complete(p, cl, i, u).cl))
  {
    hide EnqueueActs, EnqueueRequest, EnqueueOk, Balanced;
    InWheelUpdate(cl.slots, i, cl.slots[i].(tx := None));
    assert LedgerOf(Released(cl, i)) == LedgerOf(cl);
    if cl.backlog != [] {
      EnqueueBalanced(p, hdr, Released(cl, i), cl.backlog[0], u);
    } else {
      NoActs(p.credits, u, LedgerOf(cl));
    }
  }

  lemma NoActs(total: nat, u: bool, l: Ledger)
    ensures Balanced(total, u, l, [], l)
  {
  }

  lemma {:induction false} StallBalanced(
    p: Config, hdr: nat, cl: Client, q: seq<nat>, kept: seq<nat>, sent: seq<Pkt>, u: bool)
    requires StallOk(p, cl, q, u)
    ensures Balanced(p.credits, u, LedgerOf(cl), StallActs(p, hdr, cl, q, u),
                     LedgerOf(StallLoop(p, cl, q, kept, sent, u).cl))
    decreases |q|
  {
    hide KickAny, KickOk, KickActs;
    if q != [] {
      if cl.credits > 0 {
        var i := q[0];
        var g := KickAny(p, cl.credits, cl.slots[i], u);
        InWheelUpdate(cl.slots, i, g.slot);
        KickBalanced(p, hdr, p.credits, cl.credits, cl.slots[i], InWheel(cl.slots), u);
        StallBalanced(p, hdr, WithKick(cl, i, g), q[1..], kept, sent + g.sent, u);
        BalancedJoin(p.credits, u, LedgerOf(cl), KickActs(p, hdr, cl.credits, cl.slots[i], u),
                     LedgerOf(WithKick(cl, i, g)),
                     StallActs(p, hdr, WithKick(cl, i, g), q[1..], u),
                     LedgerOf(StallLoop(p, cl, q, kept, sent, u).cl));
      } else {
        StallBalanced(p, hdr, cl, q[1..], kept + [q[0]], sent, u);
      }
    }
  }

  // ---------------------------------------------------------------------------
  // Returning credits
  // ---------------------------------------------------------------------------

  /** The packets of slot `i` that are outstanding but not in the wheel hold credits too. */
  lemma OutsideWheel(p: Config, s: Sys, i: nat, n: nat)
    requires Inv(p, s) && i < p.window
    requires var c := s.cl.slots[i];
             c.numRx + n <= c.numTx && forall k :: k in c.wheel ==> k >= c.numRx + n
    ensures s.cl.credits + InWheel(s.cl.slots) + n <= p.credits
  {
    hide PairInv, ListsInv, StallInv;
    var c := s.cl.slots[i];
    var slots := s.cl.slots[i := c.(numRx := c.numRx + n)];
    forall k | 0 <= k < |slots|
      ensures Counted(slots[k])
    {
      SlotCounted(p, s, k);
    }
    WheelWithin(slots);
    OutstandingUpdate(s.cl.slots, i, slots[i]);
    InWheelUpdate(s.cl.slots, i, slots[i]);
  }

  lemma SlotCounted(p: Config, s: Sys, k: nat)
    requires Inv(p, s) && k < p.window
    ensures Counted(s.cl.slots[k])
  {
    hide ListsInv, StallInv;
    SlotFacts(p, s, k);
  }

  /** An in-order packet answers one that is not in the wheel. */
  lemma OneOutside(p: Config, s: Sys, pkt: Pkt, u: bool)
    requires Inv(p, s) && InOrderAt(p, s, pkt)
    ensures ActOk(p.credits, u, LedgerOf(s.cl), Free)
    ensures LedgerOf(Accepted(s.cl, SlotOf(p, pkt.reqNum))) == Do(p.credits, u, LedgerOf(s.cl), Free)
  {
    hide ListsInv, StallInv;
    var i := SlotOf(p, pkt.reqNum);
    SlotFacts(p, s, i);
    var c := s.cl.slots[i];
    assert !Bit(p.credits, c, c.numRx);
    hide PairInv;
    OutsideWheel(p, s, i, 1);
    InWheelUpdate(s.cl.slots, i, c.(numRx := c.numRx + 1));
  }

  lemma FreeThen(total: nat, u: bool, l: Ledger, acts: seq<Act>, m: Ledger)
    requires ActOk(total, u, l, Free) && Balanced(total, u, Do(total, u, l, Free), acts, m)
    ensures Balanced(total, u, l, [Free] + acts, m)
  {
    assert ([Free] + acts)[1..] == acts;
  }

  lemma ExplCrBalanced(p: Config, hdr: nat, s: Sys, pkt: Pkt, u: bool)
    requires Inv(p, s) && |s.cl.slots| == p.window && ExplCrOk(p, s.cl, SlotOf(p, pkt.reqNum), pkt)
    ensures var i := SlotOf(p, pkt.reqNum);
            Balanced(p.credits, u, LedgerOf(s.cl), ExplCrActs(p, hdr, s.cl, i, pkt, u),
                     LedgerOf(ProcessExplCr(p, s.cl, i, pkt, u).cl))
  {
    hide Inv, KickReq, KickReqActs, Balanced;
    var i := SlotOf(p, pkt.reqNum);
    if InOrderClient(p, s.cl.slots[i], pkt) {
      OneOutside(p, s, pkt, u);
      var cl1 := Accepted(s.cl, i);
      if ReqPktsPending(p, cl1.slots[i]) {
        var g := KickReq(p, cl1.credits, cl1.slots[i], u);
        InWheelUpdate(cl1.slots, i, g.slot);
        KickReqBalanced(p, hdr, p.credits, cl1.credits, cl1.slots[i], InWheel(cl1.slots), u);
        FreeThen(p.credits, u, LedgerOf(s.cl), KickReqActs(p, hdr, cl1.credits, cl1.slots[i], u),
                 LedgerOf(WithKick(cl1, i, g)));
      } else {
        NoActs(p.credits, u, LedgerOf(cl1));
        FreeThen(p.credits, u, LedgerOf(s.cl), [], LedgerOf(cl1));
      }
    } else {
      NoActs(p.credits, u, LedgerOf(s.cl));
    }
  }

  /** Pulling the rest of a response spends credits outside the wheel. */
  lemma PullBalanced(p: Config, cl: Client, i: nat, s: ClientSlot, pkt: Pkt, u: bool)
    requires i < |cl.slots| && s.wheelCount == cl.slots[i].wheelCount && PullOk(p, cl.credits, s, pkt)
    ensures Balanced(p.credits, u, LedgerOf(cl), PullActs(p, cl.credits, s),
                     LedgerOf(WithKick(cl, i, Pull(p, cl.credits, s, pkt))))
  {
    var g := Pull(p, cl.credits, s, pkt);
    InWheelUpdate(cl.slots, i, g.slot);
    if s.numTx != SlotWirePkts(p, s) {
      SendsBalanced(p.credits, u, cl.credits, InWheel(cl.slots), Min(cl.credits, SlotWirePkts(p, s) - s.numTx));
    }
  }

  lemma SizedCount(p: Config, s: ClientSlot, pkt: Pkt)
    requires SizedOk(p, s, pkt)
    ensures Sized(p, s, pkt).wheelCount == s.wheelCount
  {
  }

  lemma PullKeepsRequest(p: Config, credits: nat, s: ClientSlot, pkt: Pkt)
    requires PullOk(p, credits, s, pkt)
    ensures Pull(p, credits, s, pkt).slot.tx == s.tx && s.tx.Some?
  {
  }

  lemma RespBalanced(p: Config, hdr: nat, s: Sys, pkt: Pkt, u: bool)
    requires Inv(p, s) && |s.cl.slots| == p.window && RespOk(p, s.cl, SlotOf(p, pkt.reqNum), pkt)
    ensures var i := SlotOf(p, pkt.reqNum);
            Balanced(p.credits, u, LedgerOf(s.cl), RespActs(p, hdr, s.cl, i, pkt, u),
                     LedgerOf(ProcessResp(p, s.cl, i, pkt, u).cl))
  {
    hide Inv, Balanced, Pull, PullOk, PullActs, Sized, SizedOk, CompleteOk, Complete, CompleteActs;
    var i := SlotOf(p, pkt.reqNum);
    if !InOrderClient(p, s.cl.slots[i], pkt) {
      NoActs(p.credits, u, LedgerOf(s.cl));
    } else {
      OneOutside(p, s, pkt, u);
      var cl1 := Accepted(s.cl, i);
      if pkt.msgSize <= p.dataPerPkt {
        var cl2 := AcceptedSmall(p, s.cl, i, pkt);
        InWheelUpdate(cl1.slots, i, cl2.slots[i]);
        CompleteBalanced(p, hdr, cl2, i, u);
        FreeThen(p.credits, u, LedgerOf(s.cl), CompleteActs(p, hdr, cl2, i, u), LedgerOf(Complete(p, cl2, i, u).cl));
      } else {
        PullKeepsRequest(p, cl1.credits, Sized(p, cl1.slots[i], pkt), pkt);
        RespLargeBalanced(p, hdr, cl1, i, pkt, u);
        var acts := RespActs(p, hdr, s.cl, i, pkt, u);
        FreeThen(p.credits, u, LedgerOf(s.cl), acts[1..], LedgerOf(ProcessResp(p, s.cl, i, pkt, u).cl));
        assert acts == [Free] + acts[1..];
      }
    }
  }

  lemma RespLargeBalanced(p: Config, hdr: nat, cl: Client, i: nat, pkt: Pkt, u: bool)
    requires i < |cl.slots| && SizedOk(p, cl.slots[i], pkt) && PullOk(p, cl.credits, Sized(p, cl.slots[i], pkt), pkt)
    requires var g := Pull(p, cl.credits, Sized(p, cl.slots[i], pkt), pkt);
             g.slot.tx.Some? && (g.slot.numRx == SlotWirePkts(p, g.slot) ==> CompleteOk(p, WithKick(cl, i, g), i))
    ensures var s := Sized(p, cl.slots[i], pkt);
            var g, pull := Pull(p, cl.credits, s, pkt), PullActs(p, cl.credits, s);
            var cl2 := WithKick(cl, i, g);
            if g.slot.numRx != SlotWirePkts(p, g.slot)
            then Balanced(p.credits, u, LedgerOf(cl), pull, LedgerOf(cl2))
            else Balanced(p.credits, u, LedgerOf(cl), pull + CompleteActs(p, hdr, cl2, i, u),
                          LedgerOf(Complete(p, cl2, i, u).cl))
  {
    SizedCount(p, cl.slots[i], pkt);
    var s := Sized(p, cl.slots[i], pkt);
    PullBalanced(p, cl, i, s, pkt, u);
    var g := Pull(p, cl.credits, s, pkt);
    hide Balanced, Pull, PullActs, Sized, CompleteOk, Complete, CompleteActs;
    if g.slot.numRx == SlotWirePkts(p, g.slot) {
      var cl2 := WithKick(cl, i, g);
      CompleteBalanced(p, hdr, cl2, i, u);
      BalancedJoin(p.credits, u, LedgerOf(cl), PullActs(p, cl.credits, s), LedgerOf(cl2),
                   CompleteActs(p, hdr, cl2, i, u), LedgerOf(Complete(p, cl2, i, u).cl));
    }
  }

  lemma RetransmitBalanced(p: Config, hdr: nat, s: Sys, i: nat, u: bool)
    requires Inv(p, s) && |s.cl.slots| == p.window && i < p.window && RetransmitOk(p, s.cl, i)
    ensures Balanced(p.credits, u, LedgerOf(s.cl), RetransmitActs(p, hdr, s.cl, i, u),
                     LedgerOf(Retransmit(p, s.cl, i, u).cl))
  {
    hide Balanced, KickAny, KickOk, KickActs;
    var c := s.cl.slots[i];
    if c.numTx == c.numRx || c.wheelCount > 0 {
      NoActs(p.credits, u, LedgerOf(s.cl));
    } else {
      var n, w := c.numTx - c.numRx, InWheel(s.cl.slots);
      SlotCounted(p, s, i);
      hide Inv;
      OutsideWheel(p, s, i, n);
      FreesBalanced(p.credits, u, s.cl.credits, w, n);
      KickBalanced(p, hdr, p.credits, s.cl.credits + n, RolledBack(c), w, u);
      var g := KickAny(p, s.cl.credits + n, RolledBack(c), u);
      InWheelUpdate(s.cl.slots, i, g.slot);
      BalancedJoin(p.credits, u, LedgerOf(s.cl), Frees(n), Ledger(s.cl.credits + n, w),
                   KickActs(p, hdr, s.cl.credits + n, RolledBack(c), u), LedgerOf(WithKick(s.cl, i, g)));
    }
  }

  lemma {:induction false} ScanBalanced(
    p: Config, hdr: nat, s: Sys, list: seq<nat>, expired: set<nat>, sent: seq<Pkt>, u: bool)
    requires Inv(p, s) && AllActive(p, s.cl, list) && ScanOk(p, s.cl, list, expired, u)
    ensures Balanced(p.credits, u, LedgerOf(s.cl), ScanActs(p, hdr, s.cl, list, expired, u),
                     LedgerOf(ScanLoop(p, s.cl, list, expired, sent, u).cl))
    decreases |list|
  {
    hide Inv, RetransmitOk, Retransmit, RetransmitActs;
    if list != [] {
      assert list[0] in list;
      assert forall i :: i in list[1..] ==> i in list;
      if ScanRetransmits(s.cl, list[0], expired) {
        RetransmitKeeps(p, s, list[0], u);
        RetransmitBalanced(p, hdr, s, list[0], u);
        var out := Retransmit(p, s.cl, list[0], u);
        RetransmitSize(p, s.cl, list[0], u);
        ScanBalanced(p, hdr, ClientDid(s, out), list[1..], expired, sent + out.sent, u);
        BalancedJoin(p.credits, u, LedgerOf(s.cl), RetransmitActs(p, hdr, s.cl, list[0], u), LedgerOf(out.cl),
                     ScanActs(p, hdr, out.cl, list[1..], expired, u),
                     LedgerOf(ScanLoop(p, s.cl, list, expired, sent, u).cl));
      } else {
        ScanBalanced(p, hdr, s, list[1..], expired, sent, u);
      }
    }
  }

  lemma RetransmitSize(p: Config, cl: Client, i: nat, u: bool)
    requires RetransmitOk(p, cl, i)
    ensures |Retransmit(p, cl, i, u).cl.slots| == |cl.slots|
  {
  }

  lemma LeaveBalanced(p: Config, cl: Client, i: nat, n: nat, u: bool)
    requires WheelTxOk(p, cl, i, n)
    ensures Balanced(p.credits, u, LedgerOf(cl), [Leave], LedgerOf(WheelTx(p, cl, i, n).cl))
  {
    InWheelUpdate(cl.slots, i, TakeFromWheel(p, cl.slots[i], n));
    assert [Leave][1..] == [];
  }

  /** Every event of a session is balanced. */
  lemma EventBalanced(p: Config, hdr: nat, s: Sys, e: Event, u: bool)
    requires Inv(p, s) && Safe(p, s, e) && e.Flagged(u)
    ensures Balanced(p.credits, u, LedgerOf(s.cl), EventActs(p, hdr, s, e), LedgerOf(Step(p, s, e).cl))
  {
    hide Balanced, RespOk, ExplCrOk, EnqueueRequest, EnqueueActs, ProcessResp, RespActs, ProcessExplCr, ExplCrActs;
    hide StallLoop, StallActs, StallOk, ScanLoop, ScanActs, ScanOk, WheelTx, PairInv, StallInv;
    match e
    case Issue(req, _) => EnqueueBalanced(p, hdr, s.cl, req, u);
    case ToServer(_, _) => NoActs(p.credits, u, LedgerOf(s.cl));
    case ToClient(pkt, _) =>
      if pkt.kind == Resp { RespBalanced(p, hdr, s, pkt, u); } else { ExplCrBalanced(p, hdr, s, pkt, u); }
    case Reply(_, _) => NoActs(p.credits, u, LedgerOf(s.cl));
    case ServeStalled(_) => StallBalanced(p, hdr, s.cl, s.cl.stallq, [], [], u);
    case FromWheel(i, n) => LeaveBalanced(p, s.cl, i, n, u);
    case Scan(expired, _) =>
      ActiveAll(p, s);
      ScanBalanced(p, hdr, s, s.cl.active, expired, [], u);
  }

  // ---------------------------------------------------------------------------
  // Which acts occur
  // ---------------------------------------------------------------------------

  /** Packets leave the wheel in an event of their own, and none is larger than `mtu`. */
  ghost predicate Plain(acts: seq<Act>, mtu: nat) {
    forall a :: a in acts ==> !a.Leave? && (a.Pace? ==> a.size <= mtu)
  }

  lemma {:induction false} ReqsPlain(p: Config, hdr: nat, r: Request, from: nat, n: nat, bypass: bool)
    ensures Plain(ReqActs(p, hdr, r, from, n, bypass), hdr + p.dataPerPkt)
    decreases n
  {
    if n > 0 {
      ReqsPlain(p, hdr, r, from + 1, n - 1, bypass);
    }
  }

  lemma {:induction false} SendsPlain(n: nat, mtu: nat)
    ensures Plain(Sends(n), mtu) && Plain(Frees(n), mtu)
  {
    if n > 0 {
      SendsPlain(n - 1, mtu);
    }
  }

  lemma KickPlain(p: Config, hdr: nat, credits: nat, s: ClientSlot, u: bool)
    requires KickOk(p, credits, s)
    ensures Plain(KickActs(p, hdr, credits, s, u), hdr + p.dataPerPkt)
  {
    if ReqPktsPending(p, s) {
      KickReqPlain(p, hdr, credits, s, u);
    } else {
      SendsPlain(Min(credits, SlotWirePkts(p, s) - s.numTx), hdr + p.dataPerPkt);
    }
  }

  lemma KickReqPlain(p: Config, hdr: nat, credits: nat, s: ClientSlot, u: bool)
    requires KickReqOk(p, credits, s)
    ensures Plain(KickReqActs(p, hdr, credits, s, u), hdr + p.dataPerPkt)
  {
    ReqsPlain(p, hdr, s.tx.value, s.numTx, Min(credits, ReqPkts(p, s.tx.value) - s.numTx), s.wheelCount == 0 && u);
  }

  lemma EnqueuePlain(p: Config, hdr: nat, cl: Client, r: Request, u: bool)
    requires EnqueueOk(p, cl, r)
    ensures Plain(EnqueueActs(p, hdr, cl, r, u), hdr + p.dataPerPkt)
  {
    if cl.free != [] && cl.credits > 0 {
      KickReqPlain(p, hdr, cl.credits, Activated(p, cl.slots[Last(cl.free)], r), u);
    }
  }

  lemma CompletePlain(p: Config, hdr: nat, cl: Client, i: nat, u: bool)
    requires CompleteOk(p, cl, i)
    ensures Plain(CompleteActs(p, hdr, cl, i, u), hdr + p.dataPerPkt)
  {
    if cl.backlog != [] {
      EnqueuePlain(p, hdr, Released(cl, i), cl.backlog[0], u);
    }
  }

  lemma RespPlain(p: Config, hdr: nat, cl: Client, i: nat, pkt: Pkt, u: bool)
    requires RespOk(p, cl, i, pkt)
    ensures Plain(RespActs(p, hdr, cl, i, pkt, u), hdr + p.dataPerPkt)
  {
    hide KickRfrOk, CompleteOk, CompleteActs, Pull, CopyOk;
    if InOrderClient(p, cl.slots[i], pkt) {
      if pkt.msgSize <= p.dataPerPkt {
        CompletePlain(p, hdr, AcceptedSmall(p, cl, i, pkt), i, u);
      } else {
        var cl1 := Accepted(cl, i);
        var s := Sized(p, cl1.slots[i], pkt);
        var g := Pull(p, cl1.credits, s, pkt);
        PullPlain(p, cl1.credits, s, hdr + p.dataPerPkt);
        PullKeepsRequest(p, cl1.credits, s, pkt);
        if g.slot.numRx == SlotWirePkts(p, g.slot) {
          CompletePlain(p, hdr, WithKick(cl1, i, g), i, u);
        }
      }
    }
  }

  lemma PullPlain(p: Config, credits: nat, s: ClientSlot, mtu: nat)
    requires s.tx.Some? && (s.numTx != SlotWirePkts(p, s) ==> KickRfrOk(p, credits, s))
    ensures Plain(PullActs(p, credits, s), mtu)
  {
    if s.numTx != SlotWirePkts(p, s) {
      SendsPlain(Min(credits, SlotWirePkts(p, s) - s.numTx), mtu);
    }
  }

  lemma {:induction false} StallPlain(p: Config, hdr: nat, cl: Client, q: seq<nat>, u: bool)
    requires StallOk(p, cl, q, u)
    ensures Plain(StallActs(p, hdr, cl, q, u), hdr + p.dataPerPkt)
    decreases |q|
  {
    hide KickOk, KickAny, KickActs;
    if q != [] {
      if cl.credits > 0 {
        KickPlain(p, hdr, cl.credits, cl.slots[q[0]], u);
        StallPlain(p, hdr, WithKick(cl, q[0], KickAny(p, cl.credits, cl.slots[q[0]], u)), q[1..], u);
      } else {
        StallPlain(p, hdr, cl, q[1..], u);
      }
    }
  }

  lemma {:induction false} ScanPlain(p: Config, hdr: nat, cl: Client, list: seq<nat>, expired: set<nat>, u: bool)
    requires ScanOk(p, cl, list, expired, u)
    ensures Plain(ScanActs(p, hdr, cl, list, expired, u), hdr + p.dataPerPkt)
    decreases |list|
  {
    hide Retransmit, KickOk, KickActs;
    if list != [] {
      if ScanRetransmits(cl, list[0], expired) {
        var s := cl.slots[list[0]];
        if s.numTx != s.numRx && s.wheelCount == 0 {
          SendsPlain(s.numTx - s.numRx, hdr + p.dataPerPkt);
          KickPlain(p, hdr, cl.credits + (s.numTx - s.numRx), RolledBack(s), u);
        }
        ScanPlain(p, hdr, Retransmit(p, cl, list[0], u).cl, list[1..], expired, u);
      } else {
        ScanPlain(p, hdr, cl, list[1..], expired, u);
      }
    }
  }

  lemma EventPlain(p: Config, hdr: nat, s: Sys, e: Event)
    requires Safe(p, s, e) && !e.FromWheel?
    ensures Plain(EventActs(p, hdr, s, e), hdr + p.dataPerPkt)
  {
    hide EnqueueActs, RespActs, RespOk, ExplCrOk, StallActs, StallOk, ScanActs, ScanOk, ExplCrActs;
    match e
    case Issue(req, u) => EnqueuePlain(p, hdr, s.cl, req, u);
    case ToServer(_, _) =>
    case ToClient(pkt, u) =>
      if pkt.kind == Resp {
        RespPlain(p, hdr, s.cl, SlotOf(p, pkt.reqNum), pkt, u);
      } else {
        ExplCrPlain(p, hdr, s.cl, SlotOf(p, pkt.reqNum), pkt, u);
      }
    case Reply(_, _) =>
    case ServeStalled(u) => StallPlain(p, hdr, s.cl, s.cl.stallq, u);
    case Scan(expired, u) => ScanPlain(p, hdr, s.cl, s.cl.active, expired, u);
  }

  lemma ExplCrPlain(p: Config, hdr: nat, cl: Client, i: nat, pkt: Pkt, u: bool)
    requires ExplCrOk(p, cl, i, pkt)
    ensures Plain(ExplCrActs(p, hdr, cl, i, pkt, u), hdr + p.dataPerPkt)
  {
    hide KickReqActs;
    if InOrderClient(p, cl.slots[i], pkt) && ReqPktsPending(p, Accepted(cl, i).slots[i]) {
      KickReqPlain(p, hdr, Accepted(cl, i).credits, Accepted(cl, i).slots[i], u);
    }
  }
}
