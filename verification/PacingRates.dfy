/** Pacing follows the rate: packets are spaced by the time they take at their session's rate,
    no sooner and, unless the session is late, no later. */
module PacingRates {
  import opened WheelSpec
  import opened WheelRuns
  import opened Pacing
  import T = Timely

  /** Cycles times bytes per second that a byte takes. */
  function Unit(c: Config): real {
    1000000000.0 * c.cc.freqGhz
  }

  /** `gap` is the whole number of cycles that a packet takes at the rate. */
  predicate Spaced(c: Config, gap: int, size: nat, rate: real) {
    gap as real * rate <= Unit(c) * size as real < gap as real * rate + rate
  }

  lemma AtLeastTimes(lo: real, x: real, rate: real, k: real)
    requires rate > 0.0 && lo <= x && x * rate == k
    ensures lo * rate <= k
  {
    if lo < x {
      MulStrict(lo, x, rate);
    }
  }

  lemma LessTimes(lo: real, x: real, rate: real, k: real)
    requires rate > 0.0 && x < lo + 1.0 && x * rate == k
    ensures k < lo * rate + rate
  {
    MulStrict(x, lo + 1.0, rate);
  }

  lemma Product(f: real, q: real, rate: real, size: real, x: real, k: real)
    requires q * rate == size && x == 1000000000.0 * q * f && k == 1000000000.0 * f * size
    ensures x * rate == k
  {
    var y, z := q * f, f * size;
    assert y * rate == z by { assert y * rate == f * (q * rate); }
    assert x == 1000000000.0 * y && k == 1000000000.0 * z;
    assert x * rate == 1000000000.0 * (y * rate);
  }

  lemma SpacedFrom(c: Config, gap: int, size: nat, rate: real, x: real)
    requires rate > 0.0 && x * rate == Unit(c) * size as real && gap as real <= x < gap as real + 1.0
    ensures Spaced(c, gap, size, rate)
  {
    AtLeastTimes(gap as real, x, rate, Unit(c) * size as real);
    LessTimes(gap as real, x, rate, Unit(c) * size as real);
  }

  lemma DeltaSpaced(c: Config, size: nat, rate: real)
    requires c.cc.Valid() && rate > 0.0
    ensures Spaced(c, CycleDelta(c, size, rate), size, rate)
  {
    hide Spaced, Unit;
    var q := size as real / rate;
    assert q * rate == size as real;
    if q < 0.0 {
      MulStrict(q, 0.0, rate);
    }
    var x := 1000000000.0 * q * c.cc.freqGhz;
    T.MulLess(0.0, 1000000000.0 * q, c.cc.freqGhz);
    UnitIs(c, q, rate, size, x);
    SpacedFrom(c, CycleDelta(c, size, rate), size, rate, x);
  }

  lemma UnitIs(c: Config, q: real, rate: real, size: nat, x: real)
    requires q * rate == size as real && x == 1000000000.0 * q * c.cc.freqGhz
    ensures x * rate == Unit(c) * size as real
  {
    Product(c.cc.freqGhz, q, rate, size as real, x, Unit(c) * size as real);
  }

  /** A packet that is put in the wheel is wanted at its reference time, or, if that is later,
      as many cycles after the session's last packet as it takes at the session's rate; that
      is the time with which it is put in the wheel. */
  lemma PaceSpacing(c: Config, s: Paced, sid: nat, ref: nat, size: nat)
    requires c.cc.Valid() && Enabled(c, s, Pace(sid, ref, size)) && Safe(c, s, Pace(sid, ref, size))
    ensures var t := Step(c, s, Pace(sid, ref, size));
      var d, d', rate := s.sess[sid].prev, t.sess[sid].prev, s.sess[sid].cc.rate;
      && d' >= ref && (d' > ref ==> Spaced(c, d' - d, size, rate))
      && (d' == ref ==> Unit(c) * size as real < (ref - d) as real * rate + rate)
      && exists u, v :: u + v == s.w.a.Order() && t.w.a.Order() == u + [Item(sid, d')] + v
  {
    hide Insert, InsertOk, CycleDelta, Unit, Spaced;
    var x := s.sess[sid];
    DeltaSpaced(c, size, x.cc.rate);
    var d := Desired(c, x, ref, size);
    var u, v := InsertOrder(s.w.a, c.Horizon(), Item(sid, d), ref, d);
    if d == ref {
      LateSpaced(c, CycleDelta(c, size, x.cc.rate), ref - x.prev, size, x.cc.rate);
    }
  }

  lemma LateSpaced(c: Config, gap: int, late: int, size: nat, rate: real)
    requires Spaced(c, gap, size, rate) && gap <= late && rate > 0.0
    ensures Unit(c) * size as real < late as real * rate + rate
  {
    MulReal(gap, late, rate);
  }

  lemma MulReal(a: int, b: int, x: real)
    requires a <= b && x >= 0.0
    ensures a as real * x <= b as real * x
  {
    T.MulLess(a as real, b as real, x);
  }

  // ---------------------------------------------------------------------------
  // Over runs
  // ---------------------------------------------------------------------------

  /** The packets of a session that the events put in the wheel, and their bytes. */
  function Packets(es: seq<Event>, sid: nat): nat {
    if es == [] then 0 else (if es[0].Pace? && es[0].sid == sid then 1 else 0) + Packets(es[1..], sid)
  }

  function Bytes(es: seq<Event>, sid: nat): nat {
    if es == [] then 0 else (if es[0].Pace? && es[0].sid == sid then es[0].size else 0) + Bytes(es[1..], sid)
  }

  /** Whenever the session's packets are put in the wheel, its rate is in this range. */
  ghost predicate Rated(c: Config, s: Paced, es: seq<Event>, sid: nat, lo: real, hi: real)
    requires Passes(c, s, es)
    decreases |es|
  {
    es == [] ||
      ((es[0].Pace? && es[0].sid == sid ==> sid < |s.sess| && lo <= s.sess[sid].cc.rate <= hi)
        && Rated(c, Step(c, s, es[0]), es[1..], sid, lo, hi))
  }

  /** Events that pace no packet of the session leave its desired time alone. */
  lemma StepOther(c: Config, s: Paced, e: Event, sid: nat)
    requires Enabled(c, s, e) && Safe(c, s, e) && sid < |s.sess|
    ensures |Step(c, s, e).sess| == |s.sess| && s.w.now <= Step(c, s, e).w.now
    ensures !(e.Pace? && e.sid == sid) ==> Step(c, s, e).sess[sid].prev == s.sess[sid].prev
    ensures e.Pace? ==> Step(c, s, e).w.now == e.ref
  {
    hide Insert, InsertOk, CycleDelta, Reap;
  }

  /** A gap in which a packet of this size is sent at a rate of at most `hi`. */
  lemma GapEnough(c: Config, gap: int, size: nat, rate: real, hi: real)
    requires c.cc.Valid() && 0.0 < rate <= hi && Unit(c) * size as real < gap as real * rate + rate
    ensures gap >= 0 && Unit(c) * size as real <= (gap + 1) as real * hi
  {
    T.MulLess(0.0, size as real, Unit(c));
    if gap + 1 <= 0 {
      MulReal(gap + 1, 0, rate);
    }
    T.MulLess(rate, hi, (gap + 1) as real);
  }

  lemma AddTimes(a: int, b: int, x: real)
    ensures (a + b) as real * x == a as real * x + b as real * x
  {
  }

  lemma UnitsNonNeg(c: Config, a: nat)
    requires c.cc.Valid()
    ensures Unit(c) * a as real >= 0.0
  {
    T.MulLess(0.0, a as real, Unit(c));
  }

  lemma AddUnits(c: Config, a: nat, b: nat)
    ensures Unit(c) * (a + b) as real == Unit(c) * a as real + Unit(c) * b as real
  {
  }

  /** The bytes, in units, that so many cycles allow at the rate. */
  function Allowed(cycles: int, rate: real): real {
    cycles as real * rate
  }

  lemma PaceFaster(c: Config, s: Paced, sid: nat, ref: nat, size: nat, hi: real)
    requires c.cc.Valid() && Enabled(c, s, Pace(sid, ref, size)) && Safe(c, s, Pace(sid, ref, size))
    requires s.sess[sid].cc.rate <= hi
    ensures var t := Step(c, s, Pace(sid, ref, size));
      sid < |t.sess| && Allowed(t.sess[sid].prev - s.sess[sid].prev + 1, hi) >= Unit(c) * size as real
  {
    hide Enabled, Safe, Step, Unit, Spaced;
    PaceGap(c, s, sid, ref, size);
    var t := Step(c, s, Pace(sid, ref, size));
    GapEnough(c, t.sess[sid].prev - s.sess[sid].prev, size, s.sess[sid].cc.rate, hi);
  }

  lemma AddAllowed(a: int, b: int, rate: real)
    ensures Allowed(a + b, rate) == Allowed(a, rate) + Allowed(b, rate)
  {
  }

  /** A session whose rate is at most `hi` is never sent faster: the desired times of its
      packets advance at least by what all their bytes take at that rate, up to one cycle for
      each packet. */
  lemma {:induction false} NeverFaster(c: Config, s: Paced, es: seq<Event>, sid: nat, lo: real, hi: real)
    requires c.cc.Valid() && Passes(c, s, es) && sid < |s.sess|
    requires Rated(c, s, es, sid, lo, hi)
    ensures |After(c, s, es).sess| == |s.sess|
    ensures Allowed(After(c, s, es).sess[sid].prev - s.sess[sid].prev + Packets(es, sid), hi)
            >= Unit(c) * Bytes(es, sid) as real
    decreases |es|
  {
    hide Enabled, Safe, Step, Unit, Spaced, Allowed;
    if es == [] {
      AddAllowed(0, 0, hi);
      AddUnits(c, 0, 0);
    } else {
      var t, e, r := Step(c, s, es[0]), es[0], es[1..];
      StepOther(c, s, e, sid);
      NeverFaster(c, t, r, sid, lo, hi);
      if e.Pace? && e.sid == sid {
        PaceFaster(c, s, sid, e.ref, e.size, hi);
        AddAllowed(t.sess[sid].prev - s.sess[sid].prev + 1,
                   After(c, t, r).sess[sid].prev - t.sess[sid].prev + Packets(r, sid), hi);
        AddUnits(c, e.size, Bytes(r, sid));
      }
    }
  }

  lemma PaceGap(c: Config, s: Paced, sid: nat, ref: nat, size: nat)
    requires c.cc.Valid() && Enabled(c, s, Pace(sid, ref, size)) && Safe(c, s, Pace(sid, ref, size))
    ensures sid < |s.sess| == |Step(c, s, Pace(sid, ref, size)).sess|
    ensures var t := Step(c, s, Pace(sid, ref, size));
      var gap, rate := t.sess[sid].prev - s.sess[sid].prev, s.sess[sid].cc.rate;
      && rate > 0.0 && Unit(c) * size as real < gap as real * rate + rate
      && (t.sess[sid].prev == ref || gap as real * rate <= Unit(c) * size as real)
  {
    PaceSpacing(c, s, sid, ref, size);
  }

  /** One packet: `use` is what its bytes take at unit rate. */
  lemma LaterStep(d: nat, d': nat, ref: nat, now: nat, rate: real, lo: real, use: real)
    requires 0.0 < lo <= rate && use >= 0.0 && ref <= now
    requires d' == ref || (d' >= d && (d' - d) as real * rate <= use)
    ensures Max(d', now) as real * lo <= Max(d, now) as real * lo + use
  {
    MulReal(now, Max(d, now), lo);
    if d' > now {
      T.MulLess(lo, rate, (d' - d) as real);
      AddTimes(d, d' - d, lo);
      MulReal(d, Max(d, now), lo);
    }
  }

  /** The later of the two times, in bytes at the rate. */
  function Due(prev: nat, now: nat, rate: real): real {
    Max(prev, now) as real * rate
  }

  lemma PaceLater(c: Config, s: Paced, sid: nat, ref: nat, size: nat, now: nat, lo: real)
    requires c.cc.Valid() && Enabled(c, s, Pace(sid, ref, size)) && Safe(c, s, Pace(sid, ref, size))
    requires ref <= now && 0.0 < lo <= s.sess[sid].cc.rate
    ensures var t := Step(c, s, Pace(sid, ref, size));
      Due(t.sess[sid].prev, now, lo) <= Due(s.sess[sid].prev, now, lo) + Unit(c) * size as real
  {
    hide Enabled, Safe, Step, Unit, Spaced;
    PaceGap(c, s, sid, ref, size);
    var t := Step(c, s, Pace(sid, ref, size));
    var d: nat, d': nat, rate := s.sess[sid].prev, t.sess[sid].prev, s.sess[sid].cc.rate;
    GapEnough(c, d' - d, size, rate, rate);
    UnitsNonNeg(c, size);
    LaterStep(d, d', ref, now, rate, lo, Unit(c) * size as real);
  }

  /** A session whose rate is at least `lo` is never later than that: its last packet is wanted
      at most as long after its earlier packets, or after now, as all bytes take at that rate. */
  lemma {:induction false} NeverLater(c: Config, s: Paced, es: seq<Event>, sid: nat, lo: real, hi: real)
    requires c.cc.Valid() && Passes(c, s, es) && sid < |s.sess| && lo > 0.0
    requires Rated(c, s, es, sid, lo, hi)
    ensures |After(c, s, es).sess| == |s.sess| && s.w.now <= After(c, s, es).w.now
    ensures After(c, s, es).sess[sid].prev as real * lo
            <= Due(s.sess[sid].prev, After(c, s, es).w.now, lo) + Unit(c) * Bytes(es, sid) as real
    decreases |es|
  {
    hide Enabled, Safe, Step, Unit, Spaced, Due;
    if es == [] {
      DueAtLeast(s.sess[sid].prev, s.w.now, lo);
      UnitsNonNeg(c, 0);
    } else {
      var t, e, r := Step(c, s, es[0]), es[0], es[1..];
      StepOther(c, s, e, sid);
      NeverLater(c, t, r, sid, lo, hi);
      if e.Pace? && e.sid == sid {
        PaceLater(c, s, sid, e.ref, e.size, After(c, t, r).w.now, lo);
        AddUnits(c, e.size, Bytes(r, sid));
      }
    }
  }

  lemma DueAtLeast(prev: nat, now: nat, rate: real)
    requires rate > 0.0
    ensures prev as real * rate <= Due(prev, now, rate)
  {
    MulReal(prev, Max(prev, now), rate);
  }

  // ---------------------------------------------------------------------------
  // The link
  // ---------------------------------------------------------------------------

  ghost predicate RatesUp(s: Paced, hi: real) {
    forall sid: nat {:trigger s.sess[sid]} :: sid < |s.sess| ==> 0.0 < s.sess[sid].cc.rate <= hi
  }

  lemma StepRates(c: Config, s: Paced, e: Event, hi: real)
    requires c.cc.Valid() && Enabled(c, s, e) && Safe(c, s, e)
    requires RatesUp(s, hi) && hi == T.Max(c.cc.linkBandwidth, T.MIN_RATE)
    ensures RatesUp(Step(c, s, e), hi)
  {
    hide Insert, InsertOk, CycleDelta, Reap, T.Update;
    if e.Sample? {
      T.UpdateKeeps(c.cc, s.sess[e.sid].cc, e.m);
    }
  }

  lemma {:induction false} RunRated(c: Config, s: Paced, es: seq<Event>, sid: nat, hi: real)
    requires c.cc.Valid() && Passes(c, s, es) && RatesUp(s, hi) && sid < |s.sess|
    requires hi == T.Max(c.cc.linkBandwidth, T.MIN_RATE)
    ensures Rated(c, s, es, sid, 0.0, hi)
    decreases |es|
  {
    hide Enabled, Safe, Step;
    if es != [] {
      StepOther(c, s, es[0], sid);
      StepRates(c, s, es[0], hi);
      RunRated(c, Step(c, s, es[0]), es[1..], sid, hi);
    }
  }

  lemma InitRates(c: Config, sessions: nat)
    requires c.cc.Valid()
    ensures RatesUp(Init(c, sessions), T.Max(c.cc.linkBandwidth, T.MIN_RATE))
  {
  }

  /** In every run, whatever the samples, what a session puts in the wheel never exceeds the
      link's bandwidth, or the minimum rate on a slower link. */
  lemma LinkRespected(c: Config, sessions: nat, es: seq<Event>, sid: nat)
    requires c.cc.Valid() && Passes(c, Init(c, sessions), es) && sid < sessions
    ensures sid < |After(c, Init(c, sessions), es).sess|
    ensures var cycles := After(c, Init(c, sessions), es).sess[sid].prev - c.start + Packets(es, sid);
      Allowed(cycles, T.Max(c.cc.linkBandwidth, T.MIN_RATE)) >= Unit(c) * Bytes(es, sid) as real
  {
    hide Allowed, Unit, Passes, After, Rated;
    var hi := T.Max(c.cc.linkBandwidth, T.MIN_RATE);
    InitRates(c, sessions);
    RunRated(c, Init(c, sessions), es, sid, hi);
    NeverFaster(c, Init(c, sessions), es, sid, 0.0, hi);
  }
}
