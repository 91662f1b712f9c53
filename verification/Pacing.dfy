/** Pacing: the packets of a session are spaced according to its sending rate, except that a
    session at the link's rate with nothing in the wheel sends past the wheel. A packet in the
    timing wheel holds one of the session's credits, and packets are paced at a minimum rate;
    so with a wheel that spans its horizon no packet is ever wanted later than the horizon. */
module Pacing {
  import opened Wire
  import opened WheelSpec
  import opened WheelRuns
  import T = Timely

  /** Credits of a session, the largest packet, congestion control, whether uncongested
      sessions bypass the wheel, and the wheel. */
  datatype Config = Config(credits: pos, mtu: pos, cc: T.Setup, wheelBypass: bool, width: pos, n: pos, start: nat) {
    predicate Spans()
      requires cc.Valid()
    {
      Horizon() <= (n - 1) * width
    }

    /** The horizon covers a full packet for each credit at the least rate of a session. */
    predicate Covers()
      requires cc.Valid()
    {
      credits * CycleDelta(this, mtu, LeastRate(this)) <= Horizon()
    }

    /** On such a link rates never change, and every session stays uncongested. */
    predicate NeverPaced() {
      wheelBypass && cc.linkBandwidth == T.MIN_RATE
    }

    /** How far a session gets ahead that spends all credits on full packets. */
    function Lead(): nat
      requires cc.Valid()
    {
      credits * MaxDelta(this)
    }

    /** The lead is within the horizon, and within the wheel. */
    predicate Fits()
      requires cc.Valid()
    {
      Lead() <= Horizon() && (Spans() || (Long() && Lead() < n * width))
    }

    /** A full packet takes at least about a slot width. */
    predicate Long()
      requires cc.Valid()
    {
      width <= MaxDelta(this) + 1
    }

    predicate Valid() {
      cc.Valid() && (NeverPaced() || Fits())
    }

    /** All credits' worth of full packets at the minimum rate, in TSC cycles. */
    function Horizon(): nat
      requires cc.Valid()
    {
      var us := 1000000.0 * (credits * mtu) as real / T.MIN_RATE;
      FloorNat(us * 1000.0 * cc.freqGhz)
    }
  }

  function FloorNat(x: real): nat {
    if x < 0.0 then 0 else x.Floor
  }

  /** Cycles that a packet takes at the given rate. */
  function CycleDelta(c: Config, size: nat, rate: real): nat
    requires rate > 0.0
  {
    FloorNat(1000000000.0 * (size as real / rate) * c.cc.freqGhz)
  }

  /** The least rate that a session can have: rates start at the link's bandwidth, and
      updates keep them at or above the minimum. */
  function LeastRate(c: Config): real {
    T.Min(c.cc.linkBandwidth, T.MIN_RATE)
  }

  /** The least rate at which packets are paced: with the bypass, a slower link's rate is not. */
  function LeastPacedRate(c: Config): real {
    if c.wheelBypass then T.MIN_RATE else LeastRate(c)
  }

  function MaxDelta(c: Config): nat
    requires c.cc.Valid()
  {
    CycleDelta(c, c.mtu, LeastPacedRate(c))
  }

  /** A session: the desired time of its last packet, the credits in use, and its rate. */
  datatype Sess = Sess(prev: nat, held: nat, cc: T.State)

  /** Wheel entries are named by their session. */
  datatype Paced = Paced(w: WheelRuns.State, sess: seq<Sess>)

  datatype Event =
    | Poll(t: nat)                            // the wheel is reaped
    | Transmit                                // the head of the ready queue is sent
    | Pace(sid: nat, ref: nat, size: nat)     // a packet is put in the wheel
    | Bypass(sid: nat)                        // a packet is sent without the wheel
    | Return(sid: nat)                        // a credit returns for a packet outside the wheel
    | Sample(sid: nat, m: T.Sample)           // the rate is updated

  function Init(c: Config, sessions: nat): Paced
    requires c.cc.Valid()
  {
    Paced(WheelRuns.State(Empty(c.width, c.n, c.start), c.start),
          seq(sessions, _ => Sess(c.start, 0, T.Init(c.cc, c.start))))
  }

  /** The session's desired transmission time for its next packet. */
  function Desired(c: Config, x: Sess, ref: nat, size: nat): nat
    requires x.cc.rate > 0.0
  {
    Max(x.prev + CycleDelta(c, size, x.cc.rate), ref)
  }

  function Max(a: nat, b: nat): nat {
    if a < b then b else a
  }

  // ---------------------------------------------------------------------------
  // Counting a session's entries
  // ---------------------------------------------------------------------------

  ghost function Count(order: seq<Item>, sid: nat): nat {
    if order == [] then 0 else (if order[0].id == sid then 1 else 0) + Count(order[1..], sid)
  }

  /** Entries of the session that are wanted after time `t`. */
  ghost function Later(order: seq<Item>, sid: nat, t: nat): nat {
    if order == [] then 0
    else (if order[0].id == sid && order[0].desired > t then 1 else 0) + Later(order[1..], sid, t)
  }

  lemma {:induction false} CountConcat(a: seq<Item>, b: seq<Item>, sid: nat, t: nat)
    ensures Count(a + b, sid) == Count(a, sid) + Count(b, sid)
    ensures Later(a + b, sid, t) == Later(a, sid, t) + Later(b, sid, t)
  {
    if a == [] {
      assert a + b == b;
    } else {
      CountConcat(a[1..], b, sid, t);
      assert (a + b)[1..] == a[1..] + b;
    }
  }

  lemma CountInsert(u: seq<Item>, x: Item, v: seq<Item>, sid: nat, t: nat)
    ensures Count(u + [x] + v, sid) == Count(u + v, sid) + (if x.id == sid then 1 else 0)
    ensures Later(u + [x] + v, sid, t) == Later(u + v, sid, t) + (if x.id == sid && x.desired > t then 1 else 0)
  {
    CountConcat(u, v, sid, t);
    CountConcat(u + [x], v, sid, t);
    CountConcat(u, [x], sid, t);
  }

  lemma {:induction false} LaterLess(order: seq<Item>, sid: nat, t: nat)
    ensures Later(order, sid, t) <= Count(order, sid)
  {
    if order != [] {
      LaterLess(order[1..], sid, t);
    }
  }

  // ---------------------------------------------------------------------------
  // Steps
  // ---------------------------------------------------------------------------

  /** The session's packets bypass the wheel. */
  ghost predicate Bypasses(c: Config, order: seq<Item>, x: Sess, sid: nat) {
    c.wheelBypass && x.cc.rate == c.cc.linkBandwidth && Count(order, sid) == 0
  }

  /** A round trip is no longer than the life of the wheel. */
  predicate RttOk(c: Config, cc: T.State, m: T.Sample) {
    T.SampleOk(cc, m) && c.start + m.rttTsc <= m.tsc
  }

  predicate Known(s: Paced, sid: nat) {
    sid < |s.sess| && s.sess[sid].cc.rate > 0.0
  }

  /** The clock does not run backwards, and a packet is put in the wheel only if it may not
      bypass it. */
  ghost predicate Enabled(c: Config, s: Paced, e: Event) {
    match e
    case Poll(t) => s.w.now <= t
    case Transmit => s.w.a.ready != []
    case Pace(sid, ref, size) =>
      && sid < |s.sess| && s.w.now <= ref && size <= c.mtu && s.sess[sid].held < c.credits
      && s.sess[sid].cc.lastUpdateTsc <= ref && !Bypasses(c, s.w.a.Order(), s.sess[sid], sid)
    case Bypass(sid) => sid < |s.sess| && s.sess[sid].held < c.credits
    case Return(sid) => sid < |s.sess| && Count(s.w.a.Order(), sid) < s.sess[sid].held
    case Sample(sid, m) => sid < |s.sess| && RttOk(c, s.sess[sid].cc, m)
  }

  /** The assertions of the wheel hold: the desired time is within the horizon. */
  ghost predicate Safe(c: Config, s: Paced, e: Event) {
    && s.w.a.slots != [] && c.cc.Valid()
    && match e
       case Pace(sid, ref, size) =>
         Known(s, sid) && InsertOk(s.w.a, c.Horizon(), ref, Desired(c, s.sess[sid], ref, size))
       case _ => true
  }

  ghost function Step(c: Config, s: Paced, e: Event): Paced
    requires Enabled(c, s, e) && Safe(c, s, e)
  {
    match e
    case Poll(t) => s.(w := WheelRuns.State(Reap(s.w.a, t), t))
    case Transmit => s.(w := s.w.(a := s.w.a.(ready := s.w.a.ready[1..])))
    case Pace(sid, ref, size) =>
      var x := s.sess[sid];
      var desired := Desired(c, x, ref, size);
      Paced(WheelRuns.State(Insert(s.w.a, c.Horizon(), Item(sid, desired), ref, desired), ref),
            s.sess[sid := x.(prev := desired, held := x.held + 1)])
    case Bypass(sid) => s.(sess := s.sess[sid := s.sess[sid].(held := s.sess[sid].held + 1)])
    case Return(sid) => s.(sess := s.sess[sid := s.sess[sid].(held := s.sess[sid].held - 1)])
    case Sample(sid, m) => s.(sess := s.sess[sid := s.sess[sid].(cc := T.Update(c.cc, s.sess[sid].cc, m))])
  }

  // ---------------------------------------------------------------------------
  // The invariant
  // ---------------------------------------------------------------------------

  /** At any time from now on, the session is ahead by at most one full packet at the
      least rate for each of its packets that is not yet due. */
  ghost predicate Ahead(c: Config, order: seq<Item>, x: Sess, sid: nat, t: nat)
    requires c.cc.Valid()
  {
    x.prev <= t + Later(order, sid, t) * MaxDelta(c)
  }

  /** With the bypass, a rate below the minimum is the link's, and such a session has nothing
      in the wheel. */
  ghost predicate RateOk(c: Config, order: seq<Item>, x: Sess, sid: nat) {
    && LeastRate(c) <= x.cc.rate
    && (c.NeverPaced() || (c.wheelBypass && x.cc.rate < T.MIN_RATE) ==>
          x.cc.rate == c.cc.linkBandwidth && Count(order, sid) == 0)
  }

  ghost predicate SessOk(c: Config, order: seq<Item>, now: nat, x: Sess, sid: nat)
    requires c.cc.Valid()
  {
    && Count(order, sid) <= x.held <= c.credits
    && RateOk(c, order, x, sid)
    && forall t: nat {:trigger Ahead(c, order, x, sid, t)} :: now <= t ==> Ahead(c, order, x, sid, t)
  }

  /** Likewise from the start of the `m`th slot on, counting the entries in that slot and later
      ones. This is tighter than `Ahead`: entries leave the wheel by whole slots. */
  ghost predicate AheadOf(c: Config, a: Agenda<Item>, x: Sess, sid: nat, m: nat)
    requires c.cc.Valid()
  {
    x.prev + a.width <= a.base + m * a.width + Count(Flatten(a.slots[Min(m, |a.slots|)..]), sid) * MaxDelta(c)
  }

  ghost predicate LeadOk(c: Config, a: Agenda<Item>, x: Sess, sid: nat)
    requires c.cc.Valid()
  {
    c.Long() ==> forall m: nat {:trigger AheadOf(c, a, x, sid, m)} :: AheadOf(c, a, x, sid, m)
  }

  ghost predicate Inv(c: Config, s: Paced) {
    && c.Valid() && |s.w.a.slots| == c.n && s.w.a.width == c.width
    && Timely(s.w)
    && forall sid: nat {:trigger s.sess[sid]} :: sid < |s.sess| ==>
         SessOk(c, s.w.a.Order(), s.w.now, s.sess[sid], sid) && LeadOk(c, s.w.a, s.sess[sid], sid)
  }

  // ---------------------------------------------------------------------------
  // The horizon
  // ---------------------------------------------------------------------------

  lemma DivMono(a: real, b: real, r: real, q: real)
    requires 0.0 <= a <= b && 0.0 < q <= r
    ensures 0.0 <= a / r <= b / q
  {
    var x, y := a / r, b / q;
    assert x * r == a && y * q == b;
    T.MulLess(q, r, y);
    if y < x {
      MulStrict(y, x, r);
    }
  }

  lemma MulStrict(a: real, b: real, x: real)
    requires a < b && x > 0.0
    ensures a * x < b * x
  {
  }

  lemma MulMonoReal(a: real, b: real, x: real)
    requires 0.0 <= a <= b && x >= 0.0
    ensures 0.0 <= a * x <= b * x
  {
  }

  lemma FloorMono(a: real, b: real)
    requires a <= b
    ensures FloorNat(a) <= FloorNat(b)
  {
  }

  /** No packet takes longer than a full packet at a lesser rate. */
  lemma DeltaBound(c: Config, size: nat, rate: real, least: real)
    requires c.cc.Valid() && size <= c.mtu && 0.0 < least <= rate
    ensures CycleDelta(c, size, rate) <= CycleDelta(c, c.mtu, least)
  {
    var a, b := size as real / rate, c.mtu as real / least;
    DivMono(size as real, c.mtu as real, rate, least);
    MulMonoReal(1000000000.0 * a, 1000000000.0 * b, c.cc.freqGhz);
    FloorMono(1000000000.0 * a * c.cc.freqGhz, 1000000000.0 * b * c.cc.freqGhz);
  }

  lemma FloorTimes(k: nat, x: real)
    requires x >= 0.0
    ensures k * FloorNat(x) <= FloorNat(k as real * x)
  {
    var n := x.Floor;
    assert (k * n) as real == k as real * n as real;
    T.MulLess(n as real, x, k as real);
  }

  /** The horizon covers one full packet at the minimum rate for each credit. */
  lemma HorizonCovers(c: Config)
    requires c.cc.Valid()
    ensures c.credits * CycleDelta(c, c.mtu, T.MIN_RATE) <= c.Horizon()
  {
    var k, m, f := c.credits as real, c.mtu as real, c.cc.freqGhz;
    var x := 1000000000.0 * (m / T.MIN_RATE) * f;
    FloorTimes(c.credits, x);
    assert (c.credits * c.mtu) as real == k * m;
    HorizonReal(k, m, f);
  }

  lemma HorizonReal(k: real, m: real, f: real)
    ensures 1000000.0 * (k * m) / T.MIN_RATE * 1000.0 * f == k * (1000000000.0 * (m / T.MIN_RATE) * f)
  {
    assert m / T.MIN_RATE == m / 15000000.0;
  }

  /** A session that may not bypass the wheel has at least the least rate for pacing. */
  lemma PacedRate(c: Config, order: seq<Item>, x: Sess, sid: nat)
    requires c.Valid() && RateOk(c, order, x, sid) && !Bypasses(c, order, x, sid)
    ensures !c.NeverPaced() && 0.0 < LeastPacedRate(c) <= x.cc.rate
  {
  }

  /** Its next packet is wanted at most a full packet at that rate after its last one. */
  lemma PacedStep(c: Config, order: seq<Item>, x: Sess, sid: nat, ref: nat, size: nat)
    requires c.Valid() && RateOk(c, order, x, sid) && !Bypasses(c, order, x, sid) && size <= c.mtu
    ensures x.cc.rate > 0.0
    ensures var d := Desired(c, x, ref, size); d == ref || ref <= d <= x.prev + MaxDelta(c)
  {
    hide CycleDelta;
    PacedRate(c, order, x, sid);
    DeltaBound(c, size, x.cc.rate, LeastPacedRate(c));
  }

  /** A session's next packet is wanted within the horizon. */
  lemma WithinHorizon(c: Config, order: seq<Item>, now: nat, x: Sess, sid: nat, ref: nat, size: nat)
    requires c.Valid() && SessOk(c, order, now, x, sid) && !Bypasses(c, order, x, sid)
    requires now <= ref && size <= c.mtu && x.held < c.credits
    ensures x.cc.rate > 0.0 && ref <= Desired(c, x, ref, size) <= ref + c.Horizon()
  {
    hide CycleDelta;
    PacedStep(c, order, x, sid, ref, size);
    LaterLess(order, sid, ref);
    assert Ahead(c, order, x, sid, ref);
    var n := Later(order, sid, ref);
    MulMono(n + 1, c.credits, MaxDelta(c));
    assert (n + 1) * MaxDelta(c) == n * MaxDelta(c) + MaxDelta(c);
  }

  lemma AheadStep(prev: nat, d: nat, t: nat, n: nat, delta: nat)
    requires prev <= t + n * delta && (d <= prev + delta || d <= t)
    ensures d <= t + (if d > t then n + 1 else n) * delta
  {
    assert (n + 1) * delta == n * delta + delta;
    MulMono(0, n, delta);
  }

  /** Pacing a packet keeps its session's lead bounded. */
  lemma PaceKeeps(c: Config, u: seq<Item>, v: seq<Item>, now: nat, x: Sess, sid: nat, ref: nat, size: nat)
    requires c.Valid() && SessOk(c, u + v, now, x, sid) && !Bypasses(c, u + v, x, sid)
    requires now <= ref && size <= c.mtu && x.held < c.credits
    ensures x.cc.rate > 0.0
    ensures var d := Desired(c, x, ref, size);
            SessOk(c, u + [Item(sid, d)] + v, ref, x.(prev := d, held := x.held + 1), sid)
  {
    hide CycleDelta, MaxDelta, Desired, Later, Count;
    PacedStep(c, u + v, x, sid, ref, size);
    var d := Desired(c, x, ref, size);
    var x', order, order' := x.(prev := d, held := x.held + 1), u + v, u + [Item(sid, d)] + v;
    CountInsert(u, Item(sid, d), v, sid, 0);
    forall t: nat | ref <= t
      ensures Ahead(c, order', x', sid, t)
    {
      CountInsert(u, Item(sid, d), v, sid, t);
      assert Ahead(c, order, x, sid, t);
      AheadStep(x.prev, d, t, Later(order, sid, t), MaxDelta(c));
    }
  }

  /** Entries of other sessions, and time, leave a session alone. */
  lemma OtherKeeps(c: Config, u: seq<Item>, y: Item, v: seq<Item>, now: nat, now': nat, x: Sess, sid: nat)
    requires c.cc.Valid() && SessOk(c, u + v, now, x, sid) && y.id != sid && now <= now'
    ensures SessOk(c, u + [y] + v, now', x, sid)
  {
    CountInsert(u, y, v, sid, 0);
    forall t: nat | now' <= t
      ensures Ahead(c, u + [y] + v, x, sid, t)
    {
      CountInsert(u, y, v, sid, t);
      assert Ahead(c, u + v, x, sid, t);
    }
  }

  /** An entry that leaves the ready queue was wanted by now. */
  lemma PopKeeps(c: Config, order: seq<Item>, now: nat, x: Sess, sid: nat)
    requires c.cc.Valid() && SessOk(c, order, now, x, sid) && order != [] && order[0].desired <= now
    ensures SessOk(c, order[1..], now, x, sid)
  {
    forall t: nat | now <= t
      ensures Ahead(c, order[1..], x, sid, t)
    {
      assert Ahead(c, order, x, sid, t);
    }
  }

  lemma SameOrder(c: Config, order: seq<Item>, now: nat, now': nat, x: Sess, x': Sess, sid: nat)
    requires c.cc.Valid() && SessOk(c, order, now, x, sid) && now <= now'
    requires x'.prev == x.prev && Count(order, sid) <= x'.held <= c.credits
    requires RateOk(c, order, x', sid)
    ensures SessOk(c, order, now', x', sid)
  {
    forall t: nat | now' <= t
      ensures Ahead(c, order, x', sid, t)
    {
      assert Ahead(c, order, x, sid, t);
    }
  }

  // ---------------------------------------------------------------------------
  // The wheel's slots
  // ---------------------------------------------------------------------------

  lemma CountNil(slots: seq<seq<Item>>, sid: nat)
    ensures Count(Flatten(slots + [[]]), sid) == Count(Flatten(slots), sid)
  {
    FlattenNil(slots);
  }

  lemma RollLead(c: Config, a: Agenda<Item>, x: Sess, sid: nat)
    requires c.cc.Valid() && a.slots != [] && LeadOk(c, a, x, sid)
    ensures LeadOk(c, Roll(a), x, sid)
  {
    hide MaxDelta;
    if c.Long() {
      forall m: nat
        ensures AheadOf(c, Roll(a), x, sid, m)
      {
        assert AheadOf(c, a, x, sid, m + 1);
        assert (m + 1) * a.width == m * a.width + a.width;
        if m + 1 <= |a.slots| {
          assert Roll(a).slots[m..] == a.slots[m + 1..] + [[]];
          CountNil(a.slots[m + 1..], sid);
        } else {
          assert Roll(a).slots[|a.slots|..] == a.slots[|a.slots|..];
        }
      }
    }
  }

  lemma {:induction false} ReapLead(c: Config, a: Agenda<Item>, t: nat, x: Sess, sid: nat)
    requires c.cc.Valid() && a.slots != [] && LeadOk(c, a, x, sid)
    ensures LeadOk(c, Reap(a, t), x, sid)
    decreases t + 1 - a.base
  {
    hide LeadOk;
    if a.base <= t {
      RollLead(c, a, x, sid);
      ReapLead(c, Roll(a), t, x, sid);
    }
  }

  lemma {:induction false} CountPlaced(slots: seq<seq<Item>>, k: nat, e: Item, sid: nat)
    requires k < |slots|
    ensures Count(Flatten(slots[k := slots[k] + [e]]), sid) ==
            Count(Flatten(slots), sid) + (if e.id == sid then 1 else 0)
    decreases k
  {
    var slots' := slots[k := slots[k] + [e]];
    CountConcat(slots[0], Flatten(slots[1..]), sid, 0);
    CountConcat(slots'[0], Flatten(slots'[1..]), sid, 0);
    if k == 0 {
      assert slots'[1..] == slots[1..];
      CountConcat(slots[0], [e], sid, 0);
    } else {
      assert slots'[1..] == slots[1..][k - 1 := slots[1..][k - 1] + [e]];
      CountPlaced(slots[1..], k - 1, e, sid);
    }
  }

  /** How placing an entry changes the counts of later slots. */
  lemma CountLater(a: Agenda<Item>, k: nat, e: Item, sid: nat, m: nat)
    requires k < |a.slots|
    ensures Count(Flatten(Place(a, k, e).slots[Min(m, |a.slots|)..]), sid) ==
            Count(Flatten(a.slots[Min(m, |a.slots|)..]), sid) + (if m <= k && e.id == sid then 1 else 0)
  {
    if m <= k {
      assert Place(a, k, e).slots[m..] == a.slots[m..][k - m := a.slots[m..][k - m] + [e]];
      CountPlaced(a.slots[m..], k - m, e, sid);
    } else {
      assert Place(a, k, e).slots[Min(m, |a.slots|)..] == a.slots[Min(m, |a.slots|)..];
    }
  }

  /** An entry of another session leaves the lead alone. */
  lemma OtherLead(c: Config, a: Agenda<Item>, k: nat, e: Item, x: Sess, sid: nat)
    requires c.cc.Valid() && k < |a.slots| && e.id != sid && LeadOk(c, a, x, sid)
    ensures LeadOk(c, Place(a, k, e), x, sid)
  {
    hide MaxDelta;
    if c.Long() {
      forall m: nat
        ensures AheadOf(c, Place(a, k, e), x, sid, m)
      {
        CountLater(a, k, e, sid, m);
        assert AheadOf(c, a, x, sid, m);
      }
    }
  }

  lemma LeadStep(prev: nat, d: nat, w: pos, base: nat, m: nat, k: nat, count: nat, delta: nat)
    requires prev + w <= base + m * w + count * delta && w <= delta + 1
    requires d <= base + k * w && (d <= prev + delta || d < base)
    ensures d + w <= base + m * w + (if m <= k then count + 1 else count) * delta
  {
    assert (count + 1) * delta == count * delta + delta;
    MulMono(0, count, delta);
    MulMono(0, m, w);
    if m > k {
      MulMono(k + 1, m, w);
      assert (k + 1) * w == k * w + w;
    }
  }

  /** So does an entry of the session itself that is wanted one packet after the last one, or
      within the current slot. */
  lemma PlaceLead(c: Config, a: Agenda<Item>, k: nat, d: nat, x: Sess, x': Sess, sid: nat)
    requires c.cc.Valid() && k < |a.slots| && a.width == c.width && LeadOk(c, a, x, sid)
    requires x'.prev == d <= a.Deadline(k) && (d <= x.prev + MaxDelta(c) || d < a.base)
    ensures LeadOk(c, Place(a, k, Item(sid, d)), x', sid)
  {
    hide MaxDelta;
    if c.Long() {
      forall m: nat
        ensures AheadOf(c, Place(a, k, Item(sid, d)), x', sid, m)
      {
        CountLater(a, k, Item(sid, d), sid, m);
        assert AheadOf(c, a, x, sid, m);
        LeadStep(x.prev, d, a.width, a.base, m, k, Count(Flatten(a.slots[Min(m, |a.slots|)..]), sid), MaxDelta(c));
      }
    }
  }

  /** The slot that a session's next packet is given is in the wheel. */
  lemma WithinWheel(c: Config, a: Agenda<Item>, now: nat, x: Sess, sid: nat, ref: nat, d: nat)
    requires c.cc.Valid() && c.Fits() && |a.slots| == c.n && a.width == c.width && ref < a.base
    requires Count(a.Order(), sid) <= x.held < c.credits && LeadOk(c, a, x, sid)
    requires d <= ref + c.Horizon() && (d <= x.prev + MaxDelta(c) || d < a.base)
    ensures SlotFor(a, d) < |a.slots|
  {
    hide MaxDelta, SlotFor, LeadOk;
    if c.Spans() {
      SlotInRange(a, c.Horizon(), ref, d);
    } else {
      LeadInWheel(c, a, x, sid);
      LeadSlot(c, a, x.prev, Count(Flatten(a.slots), sid), d);
    }
  }

  lemma LeadInWheel(c: Config, a: Agenda<Item>, x: Sess, sid: nat)
    requires c.cc.Valid() && c.Long() && LeadOk(c, a, x, sid)
    ensures x.prev + a.width <= a.base + Count(Flatten(a.slots), sid) * MaxDelta(c)
    ensures Count(Flatten(a.slots), sid) <= Count(a.Order(), sid)
  {
    hide MaxDelta;
    assert AheadOf(c, a, x, sid, 0);
    assert a.slots[0..] == a.slots;
    CountConcat(a.ready, Flatten(a.slots), sid, 0);
  }

  lemma LeadSlot(c: Config, a: Agenda<Item>, prev: nat, count: nat, d: nat)
    requires c.cc.Valid() && c.Lead() < c.n * c.width && |a.slots| == c.n && a.width == c.width
    requires prev + a.width <= a.base + count * MaxDelta(c) && count < c.credits
    requires d <= prev + MaxDelta(c) || d < a.base
    ensures SlotFor(a, d) < |a.slots|
  {
    hide MaxDelta;
    if d > a.base {
      MulMono(count + 1, c.credits, MaxDelta(c));
      assert (count + 1) * MaxDelta(c) == count * MaxDelta(c) + MaxDelta(c);
      assert (c.n - 1) * c.width == c.n * c.width - c.width;
      InSlot(a.width, d - a.base, c.n - 1);
    }
  }

  lemma InSlot(w: pos, x: nat, n: nat)
    requires x < n * w
    ensures x / w < n
  {
    assert x == x / w * w + x % w;
    MulCancel(x / w, n, w);
  }

  // ---------------------------------------------------------------------------
  // Every step
  // ---------------------------------------------------------------------------

  /** Where a paced packet goes. */
  lemma PaceFits(c: Config, s: Paced, sid: nat, ref: nat, size: nat)
    requires Inv(c, s) && Enabled(c, s, Pace(sid, ref, size))
    ensures Safe(c, s, Pace(sid, ref, size)) && c.Fits()
    ensures var r, d := Reap(s.w.a, ref), Desired(c, s.sess[sid], ref, size);
            && ref < r.base && d <= r.Deadline(SlotFor(r, d))
            && (d <= s.sess[sid].prev + MaxDelta(c) || d < r.base)
  {
    hide CycleDelta, Timely, LeadOk;
    var x, order, r := s.sess[sid], s.w.a.Order(), Reap(s.w.a, ref);
    PacedRate(c, order, x, sid);
    PacedStep(c, order, x, sid, ref, size);
    WithinHorizon(c, order, s.w.now, x, sid, ref, size);
    var d := Desired(c, x, ref, size);
    ReapLead(c, s.w.a, ref, x, sid);
    ReapKeepsOrder(s.w.a, ref);
    SlotWithin(r, d);
    WithinWheel(c, r, s.w.now, x, sid, ref, d);
  }

  lemma PaceEventKeeps(c: Config, s: Paced, sid: nat, ref: nat, size: nat)
    requires Inv(c, s) && Enabled(c, s, Pace(sid, ref, size))
    ensures Safe(c, s, Pace(sid, ref, size)) && Inv(c, Step(c, s, Pace(sid, ref, size)))
  {
    hide SessOk, LeadOk, Timely, MaxDelta, Reap, SlotFor;
    var x, r := s.sess[sid], Reap(s.w.a, ref);
    PaceFits(c, s, sid, ref, size);
    var d := Desired(c, x, ref, size);
    var u, v := InsertOrder(s.w.a, c.Horizon(), Item(sid, d), ref, d);
    InsertTimely(Setup(c.width, c.n, c.Horizon(), c.start), s.w, Item(sid, d), ref);
    var s' := Step(c, s, Pace(sid, ref, size));
    forall j: nat | j < |s'.sess|
      ensures SessOk(c, s'.w.a.Order(), ref, s'.sess[j], j) && LeadOk(c, s'.w.a, s'.sess[j], j)
    {
      ReapLead(c, s.w.a, ref, s.sess[j], j);
      if j == sid {
        SessBooks(c, s, sid);
        PaceKeeps(c, u, v, s.w.now, x, sid, ref, size);
        PlaceLead(c, r, SlotFor(r, d), d, x, s'.sess[j], sid);
      } else {
        OtherKeeps(c, u, Item(sid, d), v, s.w.now, ref, s.sess[j], j);
        OtherLead(c, r, SlotFor(r, d), Item(sid, d), s.sess[j], j);
      }
    }
  }

  lemma SessBooks(c: Config, s: Paced, sid: nat)
    requires Inv(c, s) && sid < |s.sess|
    ensures Count(s.w.a.Order(), sid) <= s.sess[sid].held <= c.credits
  {
  }

  lemma SameLead(c: Config, a: Agenda<Item>, a': Agenda<Item>, x: Sess, x': Sess, sid: nat)
    requires c.cc.Valid() && LeadOk(c, a, x, sid)
    requires a'.slots == a.slots && a'.base == a.base && a'.width == a.width && x'.prev == x.prev
    ensures LeadOk(c, a', x', sid)
  {
    hide MaxDelta;
    if c.Long() {
      forall m: nat
        ensures AheadOf(c, a', x', sid, m)
      {
        assert AheadOf(c, a, x, sid, m);
      }
    }
  }

  lemma TransmitKeeps(c: Config, s: Paced)
    requires Inv(c, s) && Enabled(c, s, Transmit)
    ensures Inv(c, Step(c, s, Transmit))
  {
    hide SessOk;
    var s', order := Step(c, s, Transmit), s.w.a.Order();
    assert s.w.a.ready[0] in s.w.a.ready && order[0] == s.w.a.ready[0];
    assert s'.w.a.Order() == order[1..];
    assert forall x :: x in s'.w.a.ready ==> x in s.w.a.ready;
    forall k: nat, x | k < |s'.w.a.slots| && x in s'.w.a.slots[k]
      ensures x.desired <= s'.w.a.Deadline(k) <= x.desired + s'.w.a.width
    {
      assert x in s.w.a.slots[k] && s'.w.a.Deadline(k) == s.w.a.Deadline(k);
    }
    forall j: nat | j < |s'.sess|
      ensures SessOk(c, order[1..], s.w.now, s'.sess[j], j) && LeadOk(c, s'.w.a, s'.sess[j], j)
    {
      PopKeeps(c, order, s.w.now, s.sess[j], j);
      SameLead(c, s.w.a, s'.w.a, s.sess[j], s.sess[j], j);
    }
  }

  lemma PollKeeps(c: Config, s: Paced, t: nat)
    requires Inv(c, s) && s.w.now <= t
    ensures Inv(c, Step(c, s, Poll(t)))
  {
    ReapTimely(s.w, t);
    ReapKeepsOrder(s.w.a, t);
    forall j: nat | j < |s.sess|
      ensures SessOk(c, s.w.a.Order(), t, s.sess[j], j) && LeadOk(c, Reap(s.w.a, t), s.sess[j], j)
    {
      SameOrder(c, s.w.a.Order(), s.w.now, t, s.sess[j], s.sess[j], j);
      ReapLead(c, s.w.a, t, s.sess[j], j);
    }
  }

  /** An event that changes only a session's credits or rate. */
  lemma SessionKeeps(c: Config, s: Paced, sid: nat, x: Sess)
    requires Inv(c, s) && sid < |s.sess| && x.prev == s.sess[sid].prev
    requires Count(s.w.a.Order(), sid) <= x.held <= c.credits
    requires RateOk(c, s.w.a.Order(), x, sid)
    ensures Inv(c, s.(sess := s.sess[sid := x]))
  {
    SameOrder(c, s.w.a.Order(), s.w.now, s.w.now, s.sess[sid], x, sid);
    SameLead(c, s.w.a, s.w.a, s.sess[sid], x, sid);
  }

  /** No enabled event fails an assertion of the wheel, and every event keeps the invariant. */
  lemma StepKeeps(c: Config, s: Paced, e: Event)
    requires Inv(c, s) && Enabled(c, s, e)
    ensures Safe(c, s, e) && Inv(c, Step(c, s, e))
  {
    match e
    case Poll(t) => PollKeeps(c, s, t);
    case Transmit => TransmitKeeps(c, s);
    case Pace(sid, ref, size) => PaceEventKeeps(c, s, sid, ref, size);
    case Bypass(sid) => SessionKeeps(c, s, sid, s.sess[sid].(held := s.sess[sid].held + 1));
    case Return(sid) => SessionKeeps(c, s, sid, s.sess[sid].(held := s.sess[sid].held - 1));
    case Sample(sid, m) =>
      T.UpdateKeeps(c.cc, s.sess[sid].cc, m);
      SessionKeeps(c, s, sid, s.sess[sid].(cc := T.Update(c.cc, s.sess[sid].cc, m)));
  }

  // ---------------------------------------------------------------------------
  // Runs
  // ---------------------------------------------------------------------------

  /** The events happen one after the other, and no assertion of the wheel fails. */
  ghost predicate Passes(c: Config, s: Paced, es: seq<Event>)
    decreases |es|
  {
    es == [] || (Enabled(c, s, es[0]) && Safe(c, s, es[0]) && Passes(c, Step(c, s, es[0]), es[1..]))
  }

  ghost function After(c: Config, s: Paced, es: seq<Event>): Paced
    requires Passes(c, s, es)
    decreases |es|
  {
    if es == [] then s else After(c, Step(c, s, es[0]), es[1..])
  }

  ghost predicate Fails(c: Config, s: Paced, es: seq<Event>)
    decreases |es|
  {
    es != [] && Enabled(c, s, es[0]) && (!Safe(c, s, es[0]) || Fails(c, Step(c, s, es[0]), es[1..]))
  }

  lemma {:induction false} PassesJoin(c: Config, s: Paced, a: seq<Event>, b: seq<Event>)
    requires Passes(c, s, a) && Passes(c, After(c, s, a), b)
    ensures Passes(c, s, a + b) && After(c, s, a + b) == After(c, After(c, s, a), b)
    decreases |a|
  {
    hide Enabled, Safe, Step;
    if a == [] {
      assert a + b == b;
    } else {
      PassesJoin(c, Step(c, s, a[0]), a[1..], b);
      assert (a + b)[1..] == a[1..] + b;
    }
  }

  lemma PassesOne(c: Config, s: Paced, e: Event)
    requires Enabled(c, s, e) && Safe(c, s, e)
    ensures Passes(c, s, [e]) && After(c, s, [e]) == Step(c, s, e)
  {
    hide Enabled, Safe, Step;
    assert [e][1..] == [];
    assert Passes(c, Step(c, s, e), []);
  }

  lemma PassesThree(c: Config, s: Paced, e1: Event, e2: Event, e3: Event)
    requires Enabled(c, s, e1) && Safe(c, s, e1)
    requires var s1 := Step(c, s, e1);
      && Enabled(c, s1, e2) && Safe(c, s1, e2)
      && Enabled(c, Step(c, s1, e2), e3) && Safe(c, Step(c, s1, e2), e3)
    ensures Passes(c, s, [e1, e2, e3])
    ensures After(c, s, [e1, e2, e3]) == Step(c, Step(c, Step(c, s, e1), e2), e3)
  {
    hide Enabled, Safe, Step;
    PassesOne(c, Step(c, Step(c, s, e1), e2), e3);
    assert [e1, e2, e3][1..] == [e2, e3] && [e2, e3][1..] == [e3];
  }

  lemma {:induction false} FailsNotPass(c: Config, s: Paced, es: seq<Event>)
    requires Fails(c, s, es)
    ensures !Passes(c, s, es)
    decreases |es|
  {
    hide Enabled, Safe, Step;
    if Passes(c, s, es) {
      FailsNotPass(c, Step(c, s, es[0]), es[1..]);
    }
  }

  lemma {:induction false} NeverFails(c: Config, s: Paced, es: seq<Event>)
    requires Inv(c, s)
    ensures !Fails(c, s, es)
    decreases |es|
  {
    hide Inv, Safe, Enabled, Step;
    if es != [] && Enabled(c, s, es[0]) {
      StepKeeps(c, s, es[0]);
      NeverFails(c, Step(c, s, es[0]), es[1..]);
    }
  }

  lemma FreshLead(c: Config, a: Agenda<Item>, x: Sess, sid: nat)
    requires c.cc.Valid() && x.prev + a.width <= a.base
    ensures LeadOk(c, a, x, sid)
  {
    forall m: nat
      ensures AheadOf(c, a, x, sid, m)
    {
      MulMono(0, m, a.width);
      MulMono(0, Count(Flatten(a.slots[Min(m, |a.slots|)..]), sid), MaxDelta(c));
    }
  }

  lemma InitKeeps(c: Config, sessions: nat)
    requires c.Valid()
    ensures Inv(c, Init(c, sessions))
  {
    var s := Init(c, sessions);
    FlattenEmpty(s.w.a.slots);
    assert s.w.a.Order() == [];
    forall j: nat | j < sessions
      ensures SessOk(c, s.w.a.Order(), s.w.now, s.sess[j], j) && LeadOk(c, s.w.a, s.sess[j], j)
    {
      assert forall t: nat :: Later([], j, t) == 0;
      FreshLead(c, s.w.a, s.sess[j], j);
    }
  }

  /** In every run, whatever the packet sizes, round-trip times, losses and schedule, each
      packet is wanted within the wheel's horizon and finds a slot. */
  lemma HorizonHolds(c: Config, sessions: nat, es: seq<Event>)
    requires c.Valid()
    ensures !Fails(c, Init(c, sessions), es)
  {
    InitKeeps(c, sessions);
    NeverFails(c, Init(c, sessions), es);
  }

  // ---------------------------------------------------------------------------
  // When the horizon is not kept
  // ---------------------------------------------------------------------------

  /** Full packets of the first session, all paced at time `t`. */
  function Burst(c: Config, t: nat, k: nat): seq<Event> {
    seq(k, _ => Pace(0, t, c.mtu))
  }

  /** The last packet of a burst that spends all credits at the least rate is wanted beyond
      the horizon or beyond the last slot of the wheel. */
  predicate TooFar(c: Config)
    requires c.cc.Valid()
  {
    c.Lead() > c.Horizon() || (c.n > 1 && c.Lead() >= c.n * c.width)
  }

  /** The wheel and the first session after `k` packets of a burst that starts with a slot at
      time `t`, at the least rate for pacing. */
  ghost predicate InBurst(c: Config, s: Paced, t: nat, k: nat)
    requires c.cc.Valid()
  {
    && s.w.now == t && s.w.a.base == t + c.width
    && |s.w.a.slots| == c.n && s.w.a.width == c.width && s.sess != []
    && var x := s.sess[0];
       && x.prev == t + k * MaxDelta(c) && x.held == k && x.cc.lastUpdateTsc <= t
       && x.cc.rate == LeastPacedRate(c) && !(c.wheelBypass && x.cc.rate == c.cc.linkBandwidth)
  }

  lemma BurstStep(c: Config, s: Paced, t: nat, k: nat)
    requires c.cc.Valid() && InBurst(c, s, t, k) && k < c.credits
    ensures Enabled(c, s, Pace(0, t, c.mtu))
    ensures Safe(c, s, Pace(0, t, c.mtu)) ==> InBurst(c, Step(c, s, Pace(0, t, c.mtu)), t, k + 1)
    ensures TooFar(c) && k + 1 == c.credits ==> !Safe(c, s, Pace(0, t, c.mtu))
  {
    hide CycleDelta;
    assert (k + 1) * MaxDelta(c) == k * MaxDelta(c) + MaxDelta(c);
    assert Desired(c, s.sess[0], t, c.mtu) == t + (k + 1) * MaxDelta(c);
    if k + 1 == c.credits && c.Lead() <= c.Horizon() && TooFar(c) {
      assert (c.n - 1) * c.width == c.n * c.width - c.width;
      MulMono(1, c.n - 1, c.width);
      DivAtLeast(c.width, c.Lead() - c.width, c.n - 1);
    }
  }

  lemma {:induction false} BurstFails(c: Config, s: Paced, t: nat, k: nat)
    requires c.cc.Valid() && TooFar(c) && InBurst(c, s, t, k) && k < c.credits
    ensures Fails(c, s, Burst(c, t, c.credits - k))
    decreases c.credits - k
  {
    hide Enabled, Safe, Step, InBurst, TooFar;
    BurstStep(c, s, t, k);
    var e, es := Pace(0, t, c.mtu), Burst(c, t, c.credits - k);
    assert es[0] == e && es[1..] == Burst(c, t, c.credits - (k + 1));
    if Safe(c, s, e) {
      BurstFails(c, Step(c, s, e), t, k + 1);
    }
  }

  /** Without the bypass, a new session on a slow link is at the least rate. */
  lemma BurstStarts(c: Config, sessions: pos)
    requires c.cc.Valid() && !c.wheelBypass && c.cc.linkBandwidth <= T.MIN_RATE
    ensures InBurst(c, Init(c, sessions), c.start, 0)
  {
    assert 0 * MaxDelta(c) == 0;
  }

  lemma SpanningFits(c: Config)
    requires c.cc.Valid() && c.Spans() && (c.wheelBypass || c.Covers())
    ensures c.Valid()
  {
    HorizonCovers(c);
  }

  /** With a wheel that spans the horizon, no run fails exactly if uncongested sessions bypass
      the wheel, or the horizon covers a full packet at the least rate for each credit. */
  lemma HorizonExactly(c: Config, sessions: pos)
    requires c.cc.Valid() && c.Spans()
    ensures (forall es :: !Fails(c, Init(c, sessions), es)) <==> c.wheelBypass || c.Covers()
  {
    hide CycleDelta;
    if c.wheelBypass || c.Covers() {
      SpanningFits(c);
      forall es: seq<Event>
        ensures !Fails(c, Init(c, sessions), es)
      {
        HorizonHolds(c, sessions, es);
      }
    } else {
      HorizonCovers(c);
      BurstStarts(c, sessions);
      BurstFails(c, Init(c, sessions), c.start, 0);
    }
  }

  /** For example, without the bypass the first packet of a session on a slow link can be
      wanted beyond the horizon. */
  lemma SlowLinkFails()
    ensures var c := Config(32, 1024, T.Setup(1.0, 100000.0, true, false), false, 500, 4371, 0);
      && c.cc.Valid() && c.Spans() && c.cc.linkBandwidth < T.MIN_RATE
      && Fails(c, Init(c, 1), [Pace(0, 0, 1024)])
  {
    var c := Config(32, 1024, T.Setup(1.0, 100000.0, true, false), false, 500, 4371, 0);
    assert c.Horizon() == 2184533;
    assert CycleDelta(c, 1024, 100000.0) == 10240000;
    assert !Safe(c, Init(c, 1), Pace(0, 0, 1024));
  }
}
