/** Exactly when a paced packet can miss the wheel: when a session that spends all its credits
    on full packets at the least rate gets ahead of the horizon or of the wheel itself. The
    failing run brings the rate down, lets a packet leave the wheel just as a slot begins, and
    then paces a full packet for each credit. */
module HorizonLimits {
  import W = Wire
  import opened WheelSpec
  import opened WheelRuns
  import opened Pacing
  import T = Timely

  // ---------------------------------------------------------------------------
  // Runs
  // ---------------------------------------------------------------------------

  lemma {:induction false} FailsLater(c: Config, s: Paced, a: seq<Event>, b: seq<Event>)
    requires Passes(c, s, a) && Fails(c, After(c, s, a), b)
    ensures Fails(c, s, a + b)
    decreases |a|
  {
    hide Enabled, Safe, Step;
    if a == [] {
      assert a + b == b;
    } else {
      FailsLater(c, Step(c, s, a[0]), a[1..], b);
      assert (a + b)[1..] == a[1..] + b;
    }
  }

  // ---------------------------------------------------------------------------
  // One packet at a time
  // ---------------------------------------------------------------------------

  function WheelOf(c: Config): Setup
    requires c.cc.Valid()
  {
    Setup(c.width, c.n, c.Horizon(), c.start)
  }

  /** Nothing is in the wheel. */
  ghost predicate Vacant(c: Config, w: State)
    requires c.cc.Valid()
  {
    && |w.a.slots| == c.n && w.a.width == c.width && w.a.ready == []
    && (forall k :: 0 <= k < |w.a.slots| ==> w.a.slots[k] == [])
    && c.start <= w.now && w.a.base == Boundary(WheelOf(c), w.now)
  }

  predicate RateOf(c: Config, rate: real) {
    rate == c.cc.linkBandwidth || rate >= T.MIN_RATE
  }

  /** The first session has `held` credits in use and nothing is in the wheel. */
  ghost predicate Idle(c: Config, s: Paced, held: nat)
    requires c.cc.Valid()
  {
    && Vacant(c, s.w) && s.sess != []
    && s.sess[0].held == held && RateOf(c, s.sess[0].cc.rate)
  }

  lemma VacantTimely(c: Config, w: State)
    requires c.cc.Valid() && Vacant(c, w)
    ensures Timely(w) && w.a.Order() == []
  {
    hide Boundary;
    BoundaryAfter(WheelOf(c), w.now);
    FlattenEmpty(w.a.slots);
  }

  lemma VacantReap(c: Config, w: State, t: nat)
    requires c.cc.Valid() && Vacant(c, w) && w.now <= t
    ensures Vacant(c, State(Reap(w.a, t), t))
  {
    VacantTimely(c, w);
    ReapBoundary(WheelOf(c), w, t);
    var m := ReapReleases(w.a, t);
    FlattenEmpty(w.a.slots[..m]);
  }

  /** The wheel with one entry, which is released when its slot ends. */
  lemma LoneEntry(c: Config, w: State, x: Item, ref: nat)
    requires c.cc.Valid() && Vacant(c, w) && w.now <= ref && InsertOk(w.a, c.Horizon(), ref, x.desired)
    ensures var w1, t := State(Insert(w.a, c.Horizon(), x, ref, x.desired), ref), SlotTime(WheelOf(c), ref, x.desired);
      && ref <= t
      && var a2 := Reap(w1.a, t);
         a2.ready == [x] && Vacant(c, State(a2.(ready := []), t))
  {
    var h, r, k, t := WheelOf(c), Reap(w.a, ref), SlotFor(Reap(w.a, ref), x.desired),
      SlotTime(WheelOf(c), ref, x.desired);
    VacantReap(c, w, ref);
    VacantTimely(c, w);
    VacantTimely(c, State(r, ref));
    ChosenSlot(h, r, ref, x.desired);
    BoundaryAfter(h, x.desired);
    InsertTimely(h, w, x, ref);
    var w1 := State(Insert(w.a, c.Horizon(), x, ref, x.desired), ref);
    hide Reap, SlotFor, Boundary;
    ReleaseLone(c, w1, x, k, t);
  }

  lemma ReleaseLone(c: Config, w: State, x: Item, k: nat, t: nat)
    requires c.cc.Valid() && Timely(w) && c.start <= w.now <= t
    requires |w.a.slots| == c.n && w.a.width == c.width && w.a.ready == [] && w.a.base == Boundary(WheelOf(c), w.now)
    requires k < |w.a.slots| && w.a.slots[k] == [x] && w.a.Deadline(k) == t
    requires forall j :: 0 <= j < |w.a.slots| && j != k ==> w.a.slots[j] == []
    ensures Reap(w.a, t).ready == [x] && Vacant(c, State(Reap(w.a, t).(ready := []), t))
  {
    hide Reap, Boundary, Timely;
    ReapBoundary(WheelOf(c), w, t);
    var m := ReapReleases(w.a, t);
    assert k < m;
    FlattenLone(w.a.slots[..m], k, x);
  }

  lemma {:induction false} FlattenLone(slots: seq<seq<Item>>, k: nat, x: Item)
    requires k < |slots| && slots[k] == [x] && forall j :: 0 <= j < |slots| && j != k ==> slots[j] == []
    ensures Flatten(slots) == [x]
    decreases k
  {
    if k == 0 {
      FlattenEmpty(slots[1..]);
    } else {
      FlattenLone(slots[1..], k - 1, x);
    }
  }

  /** A full packet of the first session is sent, past the wheel or through it. */
  function Sending(c: Config, x: Sess, ref: nat): seq<Event>
    requires c.cc.Valid() && c.start <= ref && x.cc.rate > 0.0
  {
    if c.wheelBypass && x.cc.rate == c.cc.linkBandwidth then [Bypass(0)]
    else [Pace(0, ref, c.mtu), Poll(SlotTime(WheelOf(c), ref, Desired(c, x, ref, c.mtu))), Transmit]
  }

  /** The time and the session's last desired time after that. */
  function SentAt(c: Config, x: Sess, now: nat, ref: nat): (nat, nat)
    requires c.cc.Valid() && c.start <= ref && x.cc.rate > 0.0
  {
    if c.wheelBypass && x.cc.rate == c.cc.linkBandwidth then (now, x.prev)
    else var d := Desired(c, x, ref, c.mtu); (SlotTime(WheelOf(c), ref, d), d)
  }

  ghost predicate Sent(c: Config, s: Paced, t: Paced, ref: nat)
    requires c.cc.Valid() && c.start <= ref && s.sess != [] && s.sess[0].cc.rate > 0.0
  {
    && Idle(c, t, 1)
    && (t.w.now, t.sess[0].prev) == SentAt(c, s.sess[0], s.w.now, ref)
    && t.sess[0].cc == s.sess[0].cc
  }

  lemma SendDirect(c: Config, s: Paced, ref: nat)
    requires c.cc.Valid() && Idle(c, s, 0) && c.start <= ref
    requires c.wheelBypass && s.sess[0].cc.rate == c.cc.linkBandwidth
    ensures Passes(c, s, [Bypass(0)]) && Sent(c, s, After(c, s, [Bypass(0)]), ref)
  {
    VacantTimely(c, s.w);
    PassesOne(c, s, Bypass(0));
  }

  lemma SendOne(c: Config, s: Paced, ref: nat)
    requires c.cc.Valid() && Idle(c, s, 0) && s.w.now <= ref && s.sess[0].cc.lastUpdateTsc <= ref
    ensures s.sess[0].cc.rate > 0.0 && c.start <= ref
    ensures var es := Sending(c, s.sess[0], ref);
      Fails(c, s, es) || (Passes(c, s, es) && Sent(c, s, After(c, s, es), ref))
  {
    var x := s.sess[0];
    if c.wheelBypass && x.cc.rate == c.cc.linkBandwidth {
      SendDirect(c, s, ref);
    } else {
      VacantTimely(c, s.w);
      var d := Desired(c, x, ref, c.mtu);
      var e1, e2 := Pace(0, ref, c.mtu), Poll(SlotTime(WheelOf(c), ref, d));
      var es := Sending(c, x, ref);
      assert es == [e1, e2, Transmit] && es[0] == e1;
      if Safe(c, s, e1) {
        PacedOne(c, s, ref);
      }
    }
  }

  /** A packet that is paced is at the head of the ready queue when its slot ends. */
  lemma PacedReady(c: Config, s: Paced, ref: nat)
    requires c.cc.Valid() && Idle(c, s, 0) && s.w.now <= ref
    requires Enabled(c, s, Pace(0, ref, c.mtu)) && Safe(c, s, Pace(0, ref, c.mtu))
    ensures c.start <= ref && s.sess[0].cc.rate > 0.0
    ensures var d := Desired(c, s.sess[0], ref, c.mtu);
      var s1, t := Step(c, s, Pace(0, ref, c.mtu)), SlotTime(WheelOf(c), ref, d);
      && s1.w.now <= t
      && var s2 := Step(c, s1, Poll(t));
         s2.w.a.ready == [Item(0, d)] && Vacant(c, State(s2.w.a.(ready := []), t))
  {
    hide Insert, Reap, InsertOk, CycleDelta, SlotTime, Boundary;
    LoneEntry(c, s.w, Item(0, Desired(c, s.sess[0], ref, c.mtu)), ref);
  }

  lemma PacedOne(c: Config, s: Paced, ref: nat)
    requires c.cc.Valid() && Idle(c, s, 0) && s.w.now <= ref
    requires Enabled(c, s, Pace(0, ref, c.mtu)) && Safe(c, s, Pace(0, ref, c.mtu))
    requires !(c.wheelBypass && s.sess[0].cc.rate == c.cc.linkBandwidth)
    ensures s.sess[0].cc.rate > 0.0
    ensures var es := Sending(c, s.sess[0], ref);
      Passes(c, s, es) && Sent(c, s, After(c, s, es), ref)
  {
    hide Insert, Reap, InsertOk, CycleDelta, SlotTime, Boundary;
    var d := Desired(c, s.sess[0], ref, c.mtu);
    var t := SlotTime(WheelOf(c), ref, d);
    PacedReady(c, s, ref);
    var s1 := Step(c, s, Pace(0, ref, c.mtu));
    var s2 := Step(c, s1, Poll(t));
    assert [Item(0, d)][1..] == [];
    PassesThree(c, s, Pace(0, ref, c.mtu), Poll(t), Transmit);
  }

  /** It is answered, which gives a sample of the round-trip time. */
  function Answering(m: T.Sample): seq<Event> {
    [Sample(0, m)] + [Return(0)]
  }

  lemma AnswerOne(c: Config, s: Paced, m: T.Sample)
    requires c.cc.Valid() && Idle(c, s, 1) && RttOk(c, s.sess[0].cc, m)
    ensures Passes(c, s, Answering(m))
    ensures var t := After(c, s, Answering(m));
      && Idle(c, t, 0) && t.w == s.w && t.sess[0].prev == s.sess[0].prev
      && t.sess[0].cc == T.Update(c.cc, s.sess[0].cc, m)
  {
    VacantTimely(c, s.w);
    T.UpdateKeeps(c.cc, s.sess[0].cc, m);
    PassesOne(c, s, Sample(0, m));
    PassesOne(c, Step(c, s, Sample(0, m)), Return(0));
    PassesJoin(c, s, [Sample(0, m)], [Return(0)]);
  }

  /** One packet is sent and answered: either the wheel fails, or it is vacant again. */
  lemma Round(c: Config, s: Paced, ref: nat, m: T.Sample) returns (t: Paced)
    requires c.cc.Valid() && Idle(c, s, 0) && s.w.now <= ref && s.sess[0].cc.lastUpdateTsc <= ref
    requires RttOk(c, s.sess[0].cc, m)
    ensures s.sess[0].cc.rate > 0.0 && c.start <= ref
    ensures var es := Sending(c, s.sess[0], ref) + Answering(m);
      Fails(c, s, es) || (Passes(c, s, es) && t == After(c, s, es) && Rounded(c, s, t, ref, m))
  {
    hide Passes, After, Fails, Vacant, RateOf, Sending, Answering, T.Update, RttOk, SentAt;
    SendOne(c, s, ref);
    var a, b := Sending(c, s.sess[0], ref), Answering(m);
    t := s;
    if Passes(c, s, a) && Sent(c, s, After(c, s, a), ref) {
      AnswerOne(c, After(c, s, a), m);
      PassesJoin(c, s, a, b);
      t := After(c, s, a + b);
    } else {
      FailsMore(c, s, a, b);
    }
  }

  ghost predicate Rounded(c: Config, s: Paced, t: Paced, ref: nat, m: T.Sample)
    requires c.cc.Valid() && c.start <= ref && s.sess != [] && s.sess[0].cc.rate > 0.0
    requires RttOk(c, s.sess[0].cc, m)
  {
    && Idle(c, t, 0)
    && (t.w.now, t.sess[0].prev) == SentAt(c, s.sess[0], s.w.now, ref)
    && t.sess[0].cc == T.Update(c.cc, s.sess[0].cc, m)
  }

  lemma {:induction false} FailsMore(c: Config, s: Paced, a: seq<Event>, b: seq<Event>)
    requires Fails(c, s, a)
    ensures Fails(c, s, a + b)
    decreases |a|
  {
    hide Enabled, Safe, Step;
    assert (a + b)[0] == a[0] && (a + b)[1..] == a[1..] + b;
    if Safe(c, s, a[0]) {
      FailsMore(c, Step(c, s, a[0]), a[1..], b);
    }
  }

  // ---------------------------------------------------------------------------
  // Sequences of rounds
  // ---------------------------------------------------------------------------

  /** A round: when its packet is sent, and the sample that its answer gives. */
  datatype Turn = Turn(ref: nat, m: T.Sample)

  ghost predicate TurnReady(c: Config, s: Paced, r: Turn)
    requires c.cc.Valid()
  {
    && Idle(c, s, 0) && s.w.now <= r.ref && s.sess[0].cc.lastUpdateTsc <= r.ref
    && c.start <= r.ref && s.sess[0].cc.rate > 0.0 && RttOk(c, s.sess[0].cc, r.m)
  }

  ghost function TurnEvents(c: Config, s: Paced, r: Turn): seq<Event>
    requires c.cc.Valid() && TurnReady(c, s, r)
  {
    Sending(c, s.sess[0], r.ref) + Answering(r.m)
  }

  /** The rounds lead from `s` to `t`. */
  ghost predicate Leads(c: Config, s: Paced, rounds: seq<Turn>, t: Paced)
    requires c.cc.Valid()
    decreases |rounds|
  {
    if rounds == [] then s == t
    else
      && TurnReady(c, s, rounds[0]) && Passes(c, s, TurnEvents(c, s, rounds[0]))
      && Leads(c, After(c, s, TurnEvents(c, s, rounds[0])), rounds[1..], t)
  }

  /** The wheel fails in one of the rounds. */
  ghost predicate Breaks(c: Config, s: Paced, rounds: seq<Turn>)
    requires c.cc.Valid()
    decreases |rounds|
  {
    && rounds != [] && TurnReady(c, s, rounds[0])
    && var es := TurnEvents(c, s, rounds[0]);
       Fails(c, s, es) || (Passes(c, s, es) && Breaks(c, After(c, s, es), rounds[1..]))
  }

  /** Prepending a round that passes. */
  lemma TurnFirst(c: Config, s: Paced, r: Turn, rounds: seq<Turn>, t: Paced)
    requires c.cc.Valid() && TurnReady(c, s, r) && Passes(c, s, TurnEvents(c, s, r))
    ensures Breaks(c, After(c, s, TurnEvents(c, s, r)), rounds) ==> Breaks(c, s, [r] + rounds)
    ensures Leads(c, After(c, s, TurnEvents(c, s, r)), rounds, t) ==> Leads(c, s, [r] + rounds, t)
  {
    hide Passes, After, Fails, TurnReady, TurnEvents;
    assert ([r] + rounds)[0] == r && ([r] + rounds)[1..] == rounds;
  }

  lemma TurnBreaks(c: Config, s: Paced, r: Turn, rounds: seq<Turn>)
    requires c.cc.Valid() && TurnReady(c, s, r) && Fails(c, s, TurnEvents(c, s, r))
    ensures Breaks(c, s, [r] + rounds)
  {
    assert ([r] + rounds)[0] == r;
  }

  lemma {:induction false} LeadsJoin(c: Config, s: Paced, a: seq<Turn>, t: Paced, b: seq<Turn>, u: Paced)
    requires c.cc.Valid() && Leads(c, s, a, t)
    ensures Leads(c, t, b, u) ==> Leads(c, s, a + b, u)
    ensures Breaks(c, t, b) ==> Breaks(c, s, a + b)
    decreases |a|
  {
    hide Passes, After, Fails, TurnReady, TurnEvents;
    if a == [] {
      assert a + b == b;
    } else {
      LeadsJoin(c, After(c, s, TurnEvents(c, s, a[0])), a[1..], t, b, u);
      assert (a + b)[0] == a[0] && (a + b)[1..] == a[1..] + b;
    }
  }

  lemma {:induction false} BreaksMore(c: Config, s: Paced, a: seq<Turn>, b: seq<Turn>)
    requires c.cc.Valid() && Breaks(c, s, a)
    ensures Breaks(c, s, a + b)
    decreases |a|
  {
    hide Passes, After, Fails, TurnReady, TurnEvents;
    assert (a + b)[0] == a[0] && (a + b)[1..] == a[1..] + b;
    if !Fails(c, s, TurnEvents(c, s, a[0])) {
      BreaksMore(c, After(c, s, TurnEvents(c, s, a[0])), a[1..], b);
    }
  }

  // ---------------------------------------------------------------------------
  // Bringing the rate down
  // ---------------------------------------------------------------------------

  /** Ten milliseconds and more, in cycles. */
  function LongRtt(c: Config): nat
    requires c.cc.Valid()
  {
    (10000000.0 * c.cc.freqGhz).Floor + 1
  }

  lemma LongRttUsec(c: Config, rtt: nat)
    requires c.cc.Valid() && rtt >= LongRtt(c)
    ensures T.ToUsec(rtt, c.cc.freqGhz) >= 10000.0
    ensures rtt as real > 10000000.0 * c.cc.freqGhz
  {
    var x, f := rtt as real, c.cc.freqGhz * 1000.0;
    assert x > 10000.0 * f;
    var q := x / f;
    assert q * f == x;
    if q < 10000.0 {
      MulStrict(q, 10000.0, f);
    }
  }

  /** The change that a very long round trip asks for, after a while without samples. */
  lemma LongCut(rate: real, rtt: real, n: nat, avg: real, c: T.Setup)
    requires rtt >= 10000.0 && rate >= 0.0
    ensures T.NewRate(c, rate, rtt, n, avg, 1.0) <= rate * 0.8
  {
    var q := T.T_HIGH / rtt;
    assert q * rtt == T.T_HIGH;
    if q > 0.1 {
      MulStrict(0.1, q, rtt);
    }
    var cut := T.Cut(T.BETA, 1.0 - q);
    assert cut <= 0.8;
    T.MulLess(cut, 0.8, rate);
    assert T.NewRate(c, rate, rtt, n, avg, 1.0) == rate * cut;
  }

  lemma FullDelta(c: T.Setup, s: T.State, tsc: nat)
    requires c.Valid() && s.lastUpdateTsc <= tsc
    requires (tsc - s.lastUpdateTsc) as real >= T.MIN_RTT * c.freqGhz * 1000.0
    ensures T.DeltaFactor(c, s, tsc) == 1.0
  {
    var a, b := (tsc - s.lastUpdateTsc) as real, T.MIN_RTT * c.freqGhz * 1000.0;
    var q := a / b;
    assert q * b == a;
    if q < 1.0 {
      MulStrict(q, 1.0, b);
    }
  }

  /** Such a sample brings a rate above the minimum down, and any other rate to the minimum. */
  lemma LongSample(c: Config, x: T.State, m: T.Sample)
    requires c.cc.Valid() && T.SampleOk(x, m) && m.rttTsc >= LongRtt(c) && m.tsc >= x.lastUpdateTsc + LongRtt(c)
    requires RateOf(c, x.rate)
    ensures var r := T.Update(c.cc, x, m).rate;
            if x.rate <= T.MIN_RATE then r == T.MIN_RATE
            else T.MIN_RATE <= r && (r == T.MIN_RATE || r <= x.rate - 3000000.0)
    ensures T.Update(c.cc, x, m).lastUpdateTsc == m.tsc
  {
    hide T.NewRate, T.ToUsec, T.DeltaFactor;
    LongRttUsec(c, m.rttTsc);
    FullDelta(c.cc, x, m.tsc);
    var rtt := T.ToUsec(m.rttTsc, c.cc.freqGhz);
    var diff := rtt - x.prevRtt;
    var count := if diff < 0.0 then x.negGradientCount + 1 else 0;
    var avg := (1.0 - T.EWMA_ALPHA) * x.avgRttDiff + T.EWMA_ALPHA * diff;
    LongCut(x.rate, rtt, count, avg, c.cc);
    assert !T.Ignored(c.cc, x, m);
  }

  /** How many such samples a rate above the minimum takes at most. */
  function Steps(rate: real): nat {
    if rate == T.MIN_RATE then 0
    else if rate < T.MIN_RATE then 1
    else ((rate - T.MIN_RATE) / 1000000.0).Floor + 1
  }

  lemma FewerSteps(c: Config, x: T.State, m: T.Sample)
    requires c.cc.Valid() && T.SampleOk(x, m) && m.rttTsc >= LongRtt(c) && m.tsc >= x.lastUpdateTsc + LongRtt(c)
    requires RateOf(c, x.rate) && x.rate != T.MIN_RATE
    ensures Steps(T.Update(c.cc, x, m).rate) < Steps(x.rate)
  {
    LongSample(c, x, m);
    hide T.Update;
  }

  /** A sample of a very long round trip of a packet that was sent at time `t`. */
  function LateSample(c: Config, x: T.State, t: nat): (m: T.Sample)
    requires c.cc.Valid() && c.start <= t
    ensures T.SampleOk(x, m) && m.rttTsc >= LongRtt(c) && m.tsc >= x.lastUpdateTsc + LongRtt(c)
    ensures RttOk(c, x, m)
  {
    var rtt := 1000000000 + x.lastUpdateTsc + LongRtt(c);
    T.Sample(t + rtt, rtt)
  }

  function LongTurn(c: Config, x: Sess, now: nat): (r: Turn)
    requires c.cc.Valid() && c.start <= now && x.cc.rate > 0.0
    ensures now <= r.ref && x.cc.lastUpdateTsc <= r.ref && T.SampleOk(x.cc, r.m)
    ensures r.m.rttTsc >= LongRtt(c) && r.m.tsc >= x.cc.lastUpdateTsc + LongRtt(c)
    ensures RttOk(c, x.cc, r.m)
  {
    var ref := Max(now, x.cc.lastUpdateTsc);
    Turn(ref, LateSample(c, x.cc, SentAt(c, x, now, ref).0))
  }

  /** Rounds after which the session's rate is the minimum. */
  lemma {:induction false} CutRate(c: Config, s: Paced) returns (rounds: seq<Turn>, t: Paced)
    requires c.cc.Valid() && Idle(c, s, 0)
    ensures Breaks(c, s, rounds) || (Leads(c, s, rounds, t) && Idle(c, t, 0) && t.sess[0].cc.rate == T.MIN_RATE)
    decreases Steps(s.sess[0].cc.rate)
  {
    hide Vacant, Passes, After, Fails, Breaks, T.Update, T.SampleOk, Sending, SentAt, LongRtt, Steps, RateOf;
    if s.sess[0].cc.rate == T.MIN_RATE {
      rounds, t := [], s;
    } else {
      IdleRate(c, s);
      var r := LongTurn(c, s.sess[0], s.w.now);
      var s1 := Round(c, s, r.ref, r.m);
      if Fails(c, s, TurnEvents(c, s, r)) {
        TurnBreaks(c, s, r, []);
        rounds, t := [r] + [], s;
      } else {
        FewerSteps(c, s.sess[0].cc, r.m);
        rounds, t := CutRate(c, s1);
        TurnFirst(c, s, r, rounds, t);
        rounds := [r] + rounds;
      }
    }
  }

  lemma IdleRate(c: Config, s: Paced)
    requires c.cc.Valid() && Idle(c, s, 0)
    ensures c.start <= s.w.now && s.sess[0].cc.rate > 0.0 && RateOf(c, s.sess[0].cc.rate)
  {
  }

  // ---------------------------------------------------------------------------
  // Landing on a boundary
  // ---------------------------------------------------------------------------

  /** The first session's last packet left the wheel just now, as a slot begins. */
  ghost predicate Poised(c: Config, s: Paced)
    requires c.cc.Valid()
  {
    && Idle(c, s, 0) && InBurst(c, s, s.w.now, 0)
  }

  predicate AtLeast(c: Config, rate: real) {
    rate == LeastPacedRate(c) && rate > 0.0 && !(c.wheelBypass && rate == c.cc.linkBandwidth)
  }

  /** A packet that is wanted when it is sent stays until the current slot ends. */
  lemma SentLate(c: Config, x: Sess, now: nat, ref: nat)
    requires c.cc.Valid() && AtLeast(c, x.cc.rate) && c.start <= ref && x.prev + MaxDelta(c) <= ref
    ensures SentAt(c, x, now, ref) == (Boundary(WheelOf(c), ref), ref)
  {
    hide Boundary, CycleDelta;
  }

  /** A packet that is wanted when the current slot ends leaves just then. */
  lemma SentAtEdge(c: Config, x: Sess, now: nat, edge: nat)
    requires c.cc.Valid() && AtLeast(c, x.cc.rate) && c.start < edge && x.prev + MaxDelta(c) == edge
    requires IsBoundary(WheelOf(c), edge)
    ensures SentAt(c, x, now, edge - 1) == (edge, edge)
  {
    hide Boundary, IsBoundary, CycleDelta;
  }

  /** A sample that is too short to count, as when a packet was just retransmitted. */
  lemma ShortSample(c: Config, x: T.State, t: nat)
    requires c.cc.Valid() && 1000000000 <= t && x.lastUpdateTsc <= t && c.start <= t
    ensures RttOk(c, x, T.Sample(t, 0)) && T.Update(c.cc, x, T.Sample(t, 0)) == x
  {
    T.MulLess(0.0, T.MIN_RTT, c.cc.freqGhz);
  }

  /** One packet that is wanted when it is sent, and one that is wanted a full packet later,
      when a slot begins; it is sent just before that. */
  lemma Land(c: Config, s: Paced) returns (rounds: seq<Turn>, t: Paced)
    requires c.cc.Valid() && Idle(c, s, 0) && AtLeast(c, s.sess[0].cc.rate) && c.width < MaxDelta(c)
    ensures Breaks(c, s, rounds) || (Leads(c, s, rounds, t) && Poised(c, t))
  {
    hide Vacant, Passes, After, Fails, Breaks, Boundary, IsBoundary, MaxDelta, SentAt, Sending, AtLeast;
    hide InBurst, RttOk, T.Update;
    IdleRate(c, s);
    var x, delta := s.sess[0], MaxDelta(c);
    var q := 1000000000 + s.w.now + x.prev + x.cc.lastUpdateTsc + 2 * delta;
    var edge := c.start + q * c.width;
    W.MulMono(1, c.width, q);
    Edge(c, q);
    BoundaryAfter(WheelOf(c), edge - delta);
    var r1 := Turn(edge - delta, T.Sample(Boundary(WheelOf(c), edge - delta), 0));
    SentLate(c, x, s.w.now, r1.ref);
    ShortSample(c, x.cc, r1.m.tsc);
    var s1 := Round(c, s, r1.ref, r1.m);
    if Fails(c, s, TurnEvents(c, s, r1)) {
      TurnBreaks(c, s, r1, []);
      rounds, t := [r1] + [], s;
    } else {
      rounds, t := LandOn(c, s1, edge);
      TurnFirst(c, s, r1, rounds, t);
      rounds := [r1] + rounds;
    }
  }

  lemma LandOn(c: Config, s: Paced, edge: nat) returns (rounds: seq<Turn>, t: Paced)
    requires c.cc.Valid() && Idle(c, s, 0) && AtLeast(c, s.sess[0].cc.rate)
    requires 1000000000 <= edge
    requires s.w.now < edge && s.sess[0].cc.lastUpdateTsc < edge && s.sess[0].prev + MaxDelta(c) == edge
    requires c.start < edge && IsBoundary(WheelOf(c), edge) && Boundary(WheelOf(c), edge) == edge + c.width
    ensures Breaks(c, s, rounds) || (Leads(c, s, rounds, t) && Poised(c, t))
  {
    hide Passes, After, Fails, Breaks, Boundary, IsBoundary, MaxDelta, SentAt, Sending, RttOk, T.Update;
    var r := Turn(edge - 1, T.Sample(edge, 0));
    ShortSample(c, s.sess[0].cc, edge);
    SentAtEdge(c, s.sess[0], s.w.now, edge);
    t := Round(c, s, r.ref, r.m);
    if Fails(c, s, TurnEvents(c, s, r)) {
      TurnBreaks(c, s, r, []);
    } else {
      TurnFirst(c, s, r, [], t);
      assert 0 * MaxDelta(c) == 0;
    }
    rounds := [r] + [];
  }

  lemma Edge(c: Config, q: nat)
    requires c.cc.Valid()
    ensures var t := c.start + q * c.width; IsBoundary(WheelOf(c), t) && Boundary(WheelOf(c), t) == t + c.width
  {
    var h, t := WheelOf(c), c.start + q * c.width;
    DivUnique(c.width, q * c.width, q, 0);
    assert (q + 1) * c.width == q * c.width + c.width;
    BoundaryIs(h, t, t + c.width, q + 1);
  }

  // ---------------------------------------------------------------------------
  // The exact condition
  // ---------------------------------------------------------------------------

  lemma InitIdle(c: Config, sessions: W.pos)
    requires c.cc.Valid()
    ensures Idle(c, Init(c, sessions), 0)
  {
    BoundaryIs(WheelOf(c), c.start, c.start + c.width, 1);
  }

  /** Rounds after which the first session is ready for a burst at the least rate. */
  lemma Poise(c: Config, sessions: W.pos) returns (rounds: seq<Turn>, t: Paced)
    requires c.cc.Valid() && !c.NeverPaced() && c.width < MaxDelta(c)
    ensures Breaks(c, Init(c, sessions), rounds) || (Leads(c, Init(c, sessions), rounds, t) && Poised(c, t))
  {
    hide Vacant, Passes, After, Fails, MaxDelta, InBurst;
    var s := Init(c, sessions);
    InitIdle(c, sessions);
    if !c.wheelBypass && c.cc.linkBandwidth <= T.MIN_RATE {
      rounds, t := [], s;
      BurstStarts(c, sessions);
    } else {
      var a, m := CutRate(c, s);
      if Breaks(c, s, a) {
        rounds, t := a, s;
      } else {
        var b;
        b, t := Land(c, m);
        LeadsJoin(c, s, a, m, b, t);
        rounds := a + b;
      }
    }
  }

  lemma {:induction false} RoundsPass(c: Config, s: Paced, rounds: seq<Turn>, t: Paced) returns (es: seq<Event>)
    requires c.cc.Valid() && Leads(c, s, rounds, t)
    ensures Passes(c, s, es) && After(c, s, es) == t
    decreases |rounds|
  {
    hide TurnReady, TurnEvents;
    if rounds == [] {
      es := [];
    } else {
      var a := TurnEvents(c, s, rounds[0]);
      var b := RoundsPass(c, After(c, s, a), rounds[1..], t);
      PassesJoin(c, s, a, b);
      es := a + b;
    }
  }

  lemma {:induction false} RoundsFail(c: Config, s: Paced, rounds: seq<Turn>) returns (es: seq<Event>)
    requires c.cc.Valid() && Breaks(c, s, rounds)
    ensures Fails(c, s, es)
    decreases |rounds|
  {
    hide TurnReady, TurnEvents, Fails;
    var a := TurnEvents(c, s, rounds[0]);
    if Fails(c, s, a) {
      es := a;
    } else {
      var b := RoundsFail(c, After(c, s, a), rounds[1..]);
      FailsLater(c, s, a, b);
      es := a + b;
    }
  }

  lemma FailingRun(c: Config, sessions: W.pos) returns (es: seq<Event>)
    requires c.cc.Valid() && c.n > 1 && c.width < MaxDelta(c) && !c.NeverPaced() && TooFar(c)
    ensures Fails(c, Init(c, sessions), es)
  {
    hide Passes, After, Fails, TooFar, InBurst, MaxDelta;
    var s := Init(c, sessions);
    var rounds, t := Poise(c, sessions);
    if Breaks(c, s, rounds) {
      es := RoundsFail(c, s, rounds);
    } else {
      var a := RoundsPass(c, s, rounds, t);
      BurstFails(c, t, t.w.now, 0);
      FailsLater(c, s, a, Burst(c, t.w.now, c.credits));
      es := a + Burst(c, t.w.now, c.credits);
    }
  }

  /** On any wheel whose slots are shorter than a full packet, no run fails exactly if nothing
      is ever paced, or a session that spends all its credits on full packets at the least
      rate stays within the horizon and ahead of the wheel by less than its slots. */
  lemma KeptExactly(c: Config, sessions: W.pos)
    requires c.cc.Valid() && c.n > 1 && c.width < MaxDelta(c)
    ensures (forall es :: !Fails(c, Init(c, sessions), es)) <==>
            c.NeverPaced() || (c.Lead() <= c.Horizon() && c.Lead() < c.n * c.width)
  {
    hide MaxDelta;
    if c.NeverPaced() || (c.Lead() <= c.Horizon() && c.Lead() < c.n * c.width) {
      forall es: seq<Event>
        ensures !Fails(c, Init(c, sessions), es)
      {
        HorizonHolds(c, sessions, es);
      }
    } else {
      var es := FailingRun(c, sessions);
    }
  }

  // ---------------------------------------------------------------------------
  // The wheel that the program builds
  // ---------------------------------------------------------------------------

  const SLOT_WIDTH_US: real := 0.5

  function CeilNat(x: real): nat {
    if x < 0.0 then 0 else if x.Floor as real == x then x.Floor else x.Floor + 1
  }

  /** The wheel has the program's slot width and number of slots. */
  predicate Built(c: Config) {
    && c.width == FloorNat(SLOT_WIDTH_US * 1000.0 * c.cc.freqGhz)
    && c.n == 1 + CeilNat(1000000.0 * (c.credits * c.mtu) as real / T.MIN_RATE / SLOT_WIDTH_US)
  }

  /** It spans the horizon on every clock with a whole number of cycles in a slot width. */
  lemma WholeClockSpans(c: Config)
    requires c.cc.Valid() && Built(c) && c.width as real == SLOT_WIDTH_US * 1000.0 * c.cc.freqGhz
    ensures c.Spans()
  {
    var us := 1000000.0 * (c.credits * c.mtu) as real / T.MIN_RATE;
    ClockReal(us, c.cc.freqGhz);
    hide CeilNat, FloorNat;
    CeilBound(us / SLOT_WIDTH_US);
    SlotsCover(us / SLOT_WIDTH_US, c.n - 1, c.width);
  }

  lemma ClockReal(us: real, f: real)
    ensures us * 1000.0 * f == us / SLOT_WIDTH_US * (SLOT_WIDTH_US * 1000.0 * f)
  {
    assert us / SLOT_WIDTH_US == us * 2.0;
  }

  lemma CeilBound(x: real)
    ensures x <= CeilNat(x) as real
  {
  }

  lemma SlotsCover(x: real, n: nat, width: nat)
    requires x <= n as real
    ensures FloorNat(x * width as real) <= n * width
  {
    assert (n * width) as real == n as real * width as real;
    T.MulLess(x, n as real, width as real);
  }

  /** It does not on every clock: truncating the slot width can take more off the wheel than
      the extra slot adds. This is the wheel for 2.1999 GHz, with all optimisations on. */
  function FractionalClock(): Config {
    Config(32, 1024, T.Setup(2.1999, 20000000.0, true, false), true, 1099, 4371, 0)
  }

  lemma FractionalClockIsShort()
    ensures var c := FractionalClock();
      && c.cc.Valid() && Built(c) && c.Covers() && !c.Spans() && TooFar(c) && MaxDelta(c) == 150179
  {
    var c := FractionalClock();
    assert c.Horizon() == 4805754;
    assert c.Lead() == 4805728 && c.n * c.width == 4803729;
  }
}
