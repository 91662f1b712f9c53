/** Which way a sample of the round-trip time moves the sending rate, and how far: below `T_LOW`
    it rises, above `T_HIGH` it falls, and in between it follows the gradient. */
module TimelyLaws {
  import opened Timely

  /** The part of a full step that the time since the last update allows. */
  function Elapsed(c: Setup, s: State, m: Sample): real
    requires c.Valid()
  {
    var us := (m.tsc as real - s.lastUpdateTsc as real) / (c.freqGhz * 1000.0);
    if us >= MIN_RTT then 1.0 else us / MIN_RTT
  }

  function Rtt(c: Setup, m: Sample): real
    requires c.Valid()
  {
    m.rttTsc as real / (c.freqGhz * 1000.0)
  }

  /** A sample that counts, at a rate within bounds. */
  predicate Counts(c: Setup, s: State, m: Sample) {
    && c.Valid() && SampleOk(s, m) && MIN_RATE <= s.rate <= c.linkBandwidth
    && Rtt(c, m) >= MIN_RTT && !(c.bypass && s.rate == c.linkBandwidth && Rtt(c, m) <= T_LOW)
  }

  lemma TimesLess(a: real, b: real, k: real)
    requires k > 0.0
    ensures a / k < b <==> a < b * k
    ensures a / k <= b <==> a <= b * k
  {
    var q := a / k;
    assert q * k == a;
    if q < b {
      Times(q, b, k);
    } else if q > b {
      Times(b, q, k);
    }
  }

  lemma Times(a: real, b: real, k: real)
    requires a < b && k > 0.0
    ensures a * k < b * k
  {
  }

  lemma NotIgnored(c: Setup, s: State, m: Sample)
    requires Counts(c, s, m)
    ensures !Ignored(c, s, m) && ToUsec(m.rttTsc, c.freqGhz) == Rtt(c, m)
    ensures DeltaFactor(c, s, m.tsc) == Elapsed(c, s, m)
    ensures 0.0 <= Elapsed(c, s, m) <= 1.0 && (m.tsc > s.lastUpdateTsc ==> Elapsed(c, s, m) > 0.0)
  {
    var k, f := c.freqGhz * 1000.0, c.freqGhz;
    var a := (m.tsc - s.lastUpdateTsc) as real;
    TimesLess(m.rttTsc as real, T_LOW, k);
    TimesLess(m.rttTsc as real, MIN_RTT, k);
    assert T_LOW * f * 1000.0 == T_LOW * k && MIN_RTT * f * 1000.0 == MIN_RTT * k;
    Halves(a, k);
    TimesLess(a, 0.0, k);
    TimesLess(0.0 - a, 0.0, k);
  }

  /** Every other sample changes nothing: one shorter than the least round-trip time, or with the
      bypass a short one at the link's rate. */
  lemma OthersIgnored(c: Setup, s: State, m: Sample)
    requires c.Valid() && SampleOk(s, m) && MIN_RATE <= s.rate <= c.linkBandwidth && !Counts(c, s, m)
    ensures Update(c, s, m) == s
  {
    var k, f := c.freqGhz * 1000.0, c.freqGhz;
    TimesLess(m.rttTsc as real, T_LOW, k);
    TimesLess(m.rttTsc as real, MIN_RTT, k);
    assert T_LOW * f * 1000.0 == T_LOW * k && MIN_RTT * f * 1000.0 == MIN_RTT * k;
    assert Ignored(c, s, m);
  }

  lemma Halves(a: real, k: real)
    requires k > 0.0
    ensures a / (MIN_RTT * k) == a / k / MIN_RTT
  {
    var q := a / k;
    assert q * k == a;
    assert (q / 2.0) * (2.0 * k) == a;
  }

  /** What a sample that counts leaves in the state: its round-trip time, its time, whether it
      lengthens the streak of falling round trips, and the moving average of their changes. */
  lemma StateAfter(c: Setup, s: State, m: Sample)
    requires Counts(c, s, m)
    ensures var r, rtt := Update(c, s, m), Rtt(c, m);
      && r.prevRtt == rtt && r.lastUpdateTsc == m.tsc
      && r.negGradientCount == (if rtt < s.prevRtt then s.negGradientCount + 1 else 0)
      && r.avgRttDiff == 0.54 * s.avgRttDiff + 0.46 * (rtt - s.prevRtt)
  {
    hide NewRate, ToUsec, DeltaFactor, Clamp, Rtt;
    NotIgnored(c, s, m);
  }

  /** The averaged change of the round-trip time, relative to the least round-trip time. */
  function Gradient(r: State): real {
    r.avgRttDiff / MIN_RTT
  }

  lemma RateAfter(c: Setup, s: State, m: Sample)
    requires Counts(c, s, m)
    ensures var r := Update(c, s, m);
      r.rate == Clamp(c, s.rate, NewRate(c, s.rate, Rtt(c, m), r.negGradientCount, r.avgRttDiff, Elapsed(c, s, m)))
  {
    hide NewRate, ToUsec, DeltaFactor, Clamp, Rtt, Elapsed;
    NotIgnored(c, s, m);
  }

  lemma Positive(a: real, b: real)
    requires a >= 0.0 && b >= 0.0
    ensures a * b >= 0.0
    ensures a > 0.0 && b > 0.0 ==> a * b > 0.0
  {
  }

  /** Short round trips add a full step, up to the link's bandwidth. */
  lemma ShortAdds(c: Setup, s: State, m: Sample)
    requires Counts(c, s, m) && Rtt(c, m) < T_LOW
    ensures var r := Update(c, s, m);
      && r.rate == Min(s.rate + ADD_RATE * Elapsed(c, s, m), c.linkBandwidth)
      && r.rate >= s.rate && (s.rate < c.linkBandwidth && m.tsc > s.lastUpdateTsc ==> r.rate > s.rate)
  {
    hide Elapsed, Rtt, Update, DeltaFactor, ToUsec;
    NotIgnored(c, s, m);
    RateAfter(c, s, m);
    Positive(ADD_RATE, Elapsed(c, s, m));
  }

  /** The rate without the given part of it. */
  function Without(rate: real, part: real): real {
    rate * (1.0 - part)
  }

  /** A cut takes away the given part of the rate, at most half, and stops at the minimum. */
  lemma CutTakes(c: Setup, rate: real, part: real)
    requires MIN_RATE <= rate <= c.linkBandwidth && 0.0 <= part
    ensures var r := Clamp(c, rate, Without(rate, part));
      && r == Max(rate - rate * Min(part, 0.5), MIN_RATE)
      && MIN_RATE <= r <= rate && (part > 0.0 && rate > MIN_RATE ==> r < rate)
  {
    var x := rate * part;
    Spread(rate, part);
    Positive(rate, part);
    if part <= 0.5 {
      Less(part, 0.5, rate);
      ClampCut(c, rate, x);
    } else {
      Less(0.5, part, rate);
      ClampCut(c, rate, x);
      assert Min(part, 0.5) == 0.5;
    }
  }

  lemma ClampCut(c: Setup, rate: real, x: real)
    requires MIN_RATE <= rate <= c.linkBandwidth && x >= 0.0
    ensures Clamp(c, rate, rate - x) == Max(rate - Min(x, rate * 0.5), MIN_RATE)
  {
  }

  lemma Less(a: real, b: real, x: real)
    requires a <= b && x >= 0.0
    ensures x * a <= x * b
  {
  }

  lemma Spread(x: real, a: real)
    ensures x * (1.0 - a) == x - x * a
  {
  }

  lemma CutIs(e: real, part: real)
    ensures Cut(e * BETA, part) == 1.0 - BETA * e * part
  {
    assert e * BETA == BETA * e;
  }

  /** The part of the rate that a long round trip takes away. */
  function LongPart(e: real, rtt: real): real
    requires rtt > 0.0
  {
    BETA * e * (1.0 - T_HIGH / rtt)
  }

  /** The part of the rate that a positive gradient takes away. */
  function RisingPart(e: real, g: real): real {
    BETA * e * g
  }

  /** Long round trips take away up to the fraction `BETA`. */
  lemma LongCuts(c: Setup, s: State, m: Sample)
    requires Counts(c, s, m) && Rtt(c, m) > T_HIGH
    ensures var r, part := Update(c, s, m), LongPart(Elapsed(c, s, m), Rtt(c, m));
      && 0.0 <= part <= BETA && r.rate == Max(s.rate - s.rate * part, MIN_RATE)
      && r.rate <= s.rate && (s.rate > MIN_RATE && m.tsc > s.lastUpdateTsc ==> r.rate < s.rate)
  {
    hide Elapsed, Rtt, Update, DeltaFactor, ToUsec, Clamp, NewRate, Without, LongPart, RisingPart;
    NotIgnored(c, s, m);
    RateAfter(c, s, m);
    var e, rtt, r := Elapsed(c, s, m), Rtt(c, m), Update(c, s, m);
    LongPartRange(e, rtt);
    LongIs(c, s.rate, rtt, r.negGradientCount, r.avgRttDiff, e);
    CutTakes(c, s.rate, LongPart(e, rtt));
  }

  lemma LongIs(c: Setup, rate: real, rtt: real, n: nat, avg: real, e: real)
    requires rtt > T_HIGH
    ensures NewRate(c, rate, rtt, n, avg, e) == Without(rate, LongPart(e, rtt))
  {
    CutIs(e, 1.0 - T_HIGH / rtt);
  }

  lemma LongPartRange(e: real, rtt: real)
    requires rtt > T_HIGH && 0.0 <= e <= 1.0
    ensures 0.0 <= LongPart(e, rtt) <= BETA && (e > 0.0 ==> LongPart(e, rtt) > 0.0)
  {
    var q := 1.0 - T_HIGH / rtt;
    TimesLess(T_HIGH, 1.0, rtt);
    TimesLess(0.0 - T_HIGH, 0.0, rtt);
    assert 0.0 < q <= 1.0 by { assert (0.0 - T_HIGH) / rtt == 0.0 - T_HIGH / rtt; }
    Positive(BETA * e, q);
    Less(e, 1.0, BETA);
    Less(q, 1.0, BETA * e);
  }

  /** Between the thresholds the original rule follows the gradient: a positive one takes away
      that part of the rate, scaled by `BETA` and the time passed, but not more than half. */
  lemma RisingCuts(c: Setup, s: State, m: Sample)
    requires Counts(c, s, m) && !c.patched && T_LOW <= Rtt(c, m) <= T_HIGH
    requires Update(c, s, m).avgRttDiff > 0.0
    ensures var r := Update(c, s, m);
      && r.rate == Max(s.rate - s.rate * Min(RisingPart(Elapsed(c, s, m), Gradient(r)), 0.5), MIN_RATE)
      && r.rate <= s.rate && (s.rate > MIN_RATE && m.tsc > s.lastUpdateTsc ==> r.rate < s.rate)
  {
    hide Elapsed, Rtt, Update, DeltaFactor, ToUsec, Clamp, NewRate, Without, LongPart, RisingPart;
    NotIgnored(c, s, m);
    RateAfter(c, s, m);
    var e, r := Elapsed(c, s, m), Update(c, s, m);
    RisingIs(c, s.rate, Rtt(c, m), r.negGradientCount, r.avgRttDiff, e);
    RisingPartRange(e, Gradient(r));
    CutTakes(c, s.rate, RisingPart(e, Gradient(r)));
  }

  lemma RisingIs(c: Setup, rate: real, rtt: real, n: nat, avg: real, e: real)
    requires T_LOW <= rtt <= T_HIGH && !c.patched && avg > 0.0
    ensures NewRate(c, rate, rtt, n, avg, e) == Without(rate, RisingPart(e, avg / MIN_RTT))
  {
    CutIs(e, avg / MIN_RTT);
  }

  lemma RisingPartRange(e: real, g: real)
    requires e >= 0.0 && g > 0.0
    ensures RisingPart(e, g) >= 0.0 && (e > 0.0 ==> RisingPart(e, g) > 0.0)
  {
    Positive(BETA * e, g);
  }

  /** Any other gradient adds a full step, and five from the fifth falling round trip on. */
  lemma FallingAdds(c: Setup, s: State, m: Sample)
    requires Counts(c, s, m) && !c.patched && T_LOW <= Rtt(c, m) <= T_HIGH
    requires Update(c, s, m).avgRttDiff <= 0.0
    ensures var r := Update(c, s, m);
      && r.rate == Min(s.rate + (if r.negGradientCount >= 5 then 5.0 else 1.0) * (ADD_RATE * Elapsed(c, s, m)),
                       c.linkBandwidth)
      && r.rate >= s.rate && (s.rate < c.linkBandwidth && m.tsc > s.lastUpdateTsc ==> r.rate > s.rate)
  {
    hide Elapsed, Rtt, Update, DeltaFactor, ToUsec;
    NotIgnored(c, s, m);
    RateAfter(c, s, m);
    Positive(ADD_RATE, Elapsed(c, s, m));
  }

  /** The weight of the decrease under the patch. */
  function Weight(g: real): (w: real)
    ensures 0.0 <= w <= 1.0
  {
    if g >= 0.25 then 1.0 else if g > -0.25 then 0.5 + 2.0 * g else 0.0
  }

  /** What the patched rule adds in a full step, if positive, or takes away. */
  function Gain(rate: real, w: real, err: real): real {
    ADD_RATE * (1.0 - w) - rate * (BETA * w * err)
  }

  lemma BlendIs(rate: real, e: real, w: real, err: real)
    ensures Blend(rate, e * BETA, ADD_RATE * e, w, err) == rate + e * Gain(rate, w, err)
  {
    var x, y := BETA * w * err, ADD_RATE * (1.0 - w);
    assert e * BETA * w * err == e * x;
    assert ADD_RATE * e * (1.0 - w) == e * y;
    assert rate * (1.0 - e * x) == rate - e * (rate * x);
    assert e * (y - rate * x) == e * y - e * (rate * x);
  }

  lemma Sign(e: real, x: real)
    requires e > 0.0
    ensures (x > 0.0 <==> e * x > 0.0) && (x < 0.0 <==> e * x < 0.0)
  {
    if x > 0.0 {
      Times(0.0, x, e);
    } else if x < 0.0 {
      Times(x, 0.0, e);
    }
  }

  /** Between the thresholds the patched rule mixes the two by the gradient: the rate falls
      exactly if what the decrease takes away is more than what the increase adds, whatever the
      time passed, which scales the change. */
  lemma PatchedMoves(c: Setup, s: State, m: Sample)
    requires Counts(c, s, m) && c.patched && T_LOW <= Rtt(c, m) <= T_HIGH
    ensures var r := Update(c, s, m);
      var gain := Gain(s.rate, Weight(Gradient(r)), (Rtt(c, m) - T_LOW) / T_LOW);
      && r.rate == Max(Min(s.rate + Max(Elapsed(c, s, m) * gain, 0.0 - s.rate * 0.5), c.linkBandwidth), MIN_RATE)
      && (m.tsc > s.lastUpdateTsc ==>
            && (r.rate < s.rate <==> gain < 0.0 && s.rate > MIN_RATE)
            && (r.rate > s.rate <==> gain > 0.0 && s.rate < c.linkBandwidth))
  {
    hide Elapsed, Rtt, Update, DeltaFactor, ToUsec, Blend, Gain;
    NotIgnored(c, s, m);
    RateAfter(c, s, m);
    var e, g, err := Elapsed(c, s, m), Gradient(Update(c, s, m)), (Rtt(c, m) - T_LOW) / T_LOW;
    BlendIs(s.rate, e, Weight(g), err);
    if m.tsc > s.lastUpdateTsc {
      Sign(e, Gain(s.rate, Weight(g), err));
    }
  }

  // ---------------------------------------------------------------------------
  // Over many samples
  // ---------------------------------------------------------------------------

  /** Samples that all count. */
  ghost predicate AllCount(c: Setup, s: State, ms: seq<Sample>)
    decreases |ms|
  {
    ms == [] || (Counts(c, s, ms[0]) && AllCount(c, Update(c, s, ms[0]), ms[1..]))
  }

  lemma {:induction false} AllCountOk(c: Setup, s: State, ms: seq<Sample>)
    requires c.Valid() && AllCount(c, s, ms)
    ensures SamplesOk(c, s, ms)
    decreases |ms|
  {
    hide Update;
    if ms != [] {
      AllCountOk(c, Update(c, s, ms[0]), ms[1..]);
    }
  }

  /** The round-trip times fall all the way, also from the last one before. */
  predicate Falls(c: Setup, prev: real, ms: seq<Sample>)
    requires c.Valid()
    decreases |ms|
  {
    ms == [] || (Rtt(c, ms[0]) < prev && Falls(c, Rtt(c, ms[0]), ms[1..]))
  }

  /** The streak counts exactly the falling round trips since the last one that did not fall. */
  lemma {:induction false} StreakCounts(c: Setup, s: State, ms: seq<Sample>)
    requires c.Valid() && AllCount(c, s, ms) && Falls(c, s.prevRtt, ms)
    ensures SamplesOk(c, s, ms)
    ensures After(c, s, ms).negGradientCount == s.negGradientCount + |ms|
    decreases |ms|
  {
    hide Update, Rtt;
    AllCountOk(c, s, ms);
    if ms != [] {
      StateAfter(c, s, ms[0]);
      StreakCounts(c, Update(c, s, ms[0]), ms[1..]);
    }
  }

  /** So from the fifth falling round trip after one that did not fall, and not before, the
      rate grows five times as fast. */
  lemma FifthIsFast(c: Setup, s: State, first: Sample, ms: seq<Sample>, last: Sample)
    requires Counts(c, s, first) && Rtt(c, first) >= s.prevRtt
    requires AllCount(c, Update(c, s, first), ms) && Falls(c, Rtt(c, first), ms + [last]) && !c.patched
    ensures SamplesOk(c, Update(c, s, first), ms)
    ensures var t := After(c, Update(c, s, first), ms);
      Counts(c, t, last) && T_LOW <= Rtt(c, last) <= T_HIGH && Update(c, t, last).avgRttDiff <= 0.0 ==>
        Update(c, t, last).rate ==
        Min(t.rate + (if |ms| >= 4 then 5.0 else 1.0) * (ADD_RATE * Elapsed(c, t, last)), c.linkBandwidth)
  {
    hide Update, Rtt, Elapsed;
    var u := Update(c, s, first);
    StateAfter(c, s, first);
    FallsSplit(c, Rtt(c, first), ms, last);
    StreakCounts(c, u, ms);
    var t := After(c, u, ms);
    LastRtt(c, u, ms);
    if Counts(c, t, last) && T_LOW <= Rtt(c, last) <= T_HIGH && Update(c, t, last).avgRttDiff <= 0.0 {
      StateAfter(c, t, last);
      FallingAdds(c, t, last);
    }
  }

  lemma {:induction false} FallsSplit(c: Setup, prev: real, ms: seq<Sample>, last: Sample)
    requires c.Valid() && Falls(c, prev, ms + [last])
    ensures Falls(c, prev, ms) && Rtt(c, last) < (if ms == [] then prev else Rtt(c, ms[|ms| - 1]))
    decreases |ms|
  {
    hide Rtt;
    if ms == [] {
      assert ms + [last] == [last];
    } else {
      assert (ms + [last])[1..] == ms[1..] + [last];
      FallsSplit(c, Rtt(c, ms[0]), ms[1..], last);
    }
  }

  lemma {:induction false} LastRtt(c: Setup, s: State, ms: seq<Sample>)
    requires c.Valid() && AllCount(c, s, ms)
    ensures SamplesOk(c, s, ms)
    ensures After(c, s, ms).prevRtt == if ms == [] then s.prevRtt else Rtt(c, ms[|ms| - 1])
    decreases |ms|
  {
    hide Update, Rtt;
    AllCountOk(c, s, ms);
    if ms != [] {
      StateAfter(c, s, ms[0]);
      LastRtt(c, Update(c, s, ms[0]), ms[1..]);
    }
  }

  /** Short round trips, each at least the least round-trip time after the last one. */
  ghost predicate Calm(c: Setup, s: State, ms: seq<Sample>)
    requires c.Valid()
    decreases |ms|
  {
    ms == [] ||
      (SampleOk(s, ms[0]) && MIN_RTT <= Rtt(c, ms[0]) < T_LOW && Elapsed(c, s, ms[0]) == 1.0
        && Calm(c, Update(c, s, ms[0]), ms[1..]))
  }

  /** They bring every rate up to the link's bandwidth, by a full step each. */
  lemma {:induction false} CalmRecovers(c: Setup, s: State, ms: seq<Sample>)
    requires c.Valid() && MIN_RATE <= s.rate <= c.linkBandwidth && Calm(c, s, ms)
    ensures SamplesOk(c, s, ms)
    ensures After(c, s, ms).rate == Min(s.rate + |ms| as real * ADD_RATE, c.linkBandwidth)
    decreases |ms|
  {
    hide Rtt, Elapsed, Update, Ignored;
    if ms != [] {
      var t := Update(c, s, ms[0]);
      CalmOne(c, s, ms[0]);
      CalmRecovers(c, t, ms[1..]);
    }
  }

  lemma CalmOne(c: Setup, s: State, m: Sample)
    requires c.Valid() && MIN_RATE <= s.rate <= c.linkBandwidth
    requires SampleOk(s, m) && MIN_RTT <= Rtt(c, m) < T_LOW && Elapsed(c, s, m) == 1.0
    ensures Update(c, s, m).rate == Min(s.rate + ADD_RATE, c.linkBandwidth)
  {
    hide Elapsed, NewRate, ToUsec, DeltaFactor;
    if Counts(c, s, m) {
      ShortAdds(c, s, m);
    } else {
      TimesLess(m.rttTsc as real, T_LOW, c.freqGhz * 1000.0);
      assert T_LOW * c.freqGhz * 1000.0 == T_LOW * (c.freqGhz * 1000.0);
      assert Ignored(c, s, m);
    }
  }
}
