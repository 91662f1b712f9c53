/** TIMELY congestion control: the sending rate of a session, updated from round-trip time
    samples. Times are in microseconds or TSC cycles, rates in bytes per second, and
    floating-point numbers are reals. */
module Timely {

  const MIN_RATE: real := 15000000.0
  const ADD_RATE: real := 5000000.0
  const MIN_RTT: real := 2.0
  const T_LOW: real := 50.0
  const T_HIGH: real := 1000.0
  const HAI_THRESH: nat := 5
  const EWMA_ALPHA: real := 0.46
  const BETA: real := 0.26

  /** The TSC frequency and link bandwidth, and two compile-time switches. */
  datatype Setup = Setup(freqGhz: real, linkBandwidth: real, bypass: bool, patched: bool) {
    predicate Valid() {
      freqGhz > 0.0 && linkBandwidth > 0.0
    }
  }

  datatype State = State(rate: real, negGradientCount: nat, prevRtt: real, avgRttDiff: real, lastUpdateTsc: nat)

  datatype Sample = Sample(tsc: nat, rttTsc: nat)

  function Max(a: real, b: real): real {
    if a < b then b else a
  }

  function Min(a: real, b: real): real {
    if b < a then b else a
  }

  function ToUsec(cycles: nat, freqGhz: real): real
    requires freqGhz > 0.0
  {
    cycles as real / (freqGhz * 1000.0)
  }

  function WFunc(g: real): real {
    if g <= -0.25 then 0.0 else if g >= 0.25 then 1.0 else 2.0 * g + 0.5
  }

  /** The increase or decrease factors of one update. */
  function DeltaFactor(c: Setup, s: State, tsc: nat): real
    requires c.Valid() && s.lastUpdateTsc <= tsc
  {
    Min((tsc - s.lastUpdateTsc) as real / (MIN_RTT * c.freqGhz * 1000.0), 1.0)
  }

  /** The factor of a multiplicative decrease. */
  function Cut(md: real, part: real): real {
    1.0 - md * part
  }

  /** The patched mix of decrease and increase. */
  function Blend(rate: real, md: real, ai: real, wght: real, err: real): real {
    rate * (1.0 - md * wght * err) + ai * (1.0 - wght)
  }

  /** The rate that a sample asks for, before it is clamped. */
  function NewRate(c: Setup, rate: real, rtt: real, gradientCount: nat, avgRttDiff: real, delta: real): real {
    var ai, md, grad := ADD_RATE * delta, delta * BETA, avgRttDiff / MIN_RTT;
    if rtt < T_LOW then rate + ai
    else if rtt > T_HIGH then rate * Cut(md, 1.0 - T_HIGH / rtt)
    else if c.patched then
      Blend(rate, md, ai, WFunc(grad), (rtt - T_LOW) / T_LOW)
    else if grad <= 0.0 then rate + (if gradientCount >= HAI_THRESH then 5.0 else 1.0) * ai
    else rate * Cut(md, grad)
  }

  function Clamp(c: Setup, rate: real, newRate: real): real {
    Max(Min(Max(newRate, rate * 0.5), c.linkBandwidth), MIN_RATE)
  }

  predicate SampleOk(s: State, m: Sample) {
    m.tsc >= 1000000000 && m.tsc >= s.lastUpdateTsc
  }

  /** The sample changes nothing: the session is uncongested, or the sample is too short. */
  predicate Ignored(c: Setup, s: State, m: Sample) {
    || (c.bypass && s.rate == c.linkBandwidth && m.rttTsc as real <= T_LOW * c.freqGhz * 1000.0)
    || (m.rttTsc as real) < MIN_RTT * c.freqGhz * 1000.0
  }

  function Update(c: Setup, s: State, m: Sample): State
    requires c.Valid() && SampleOk(s, m)
  {
    if Ignored(c, s, m) then s
    else
      var rtt := ToUsec(m.rttTsc, c.freqGhz);
      var diff := rtt - s.prevRtt;
      var count := if diff < 0.0 then s.negGradientCount + 1 else 0;
      var avg := (1.0 - EWMA_ALPHA) * s.avgRttDiff + EWMA_ALPHA * diff;
      var newRate := NewRate(c, s.rate, rtt, count, avg, DeltaFactor(c, s, m.tsc));
      State(Clamp(c, s.rate, newRate), count, rtt, avg, m.tsc)
  }

  function Init(c: Setup, tsc: nat): State {
    State(c.linkBandwidth, 0, MIN_RTT, 0.0, tsc)
  }

  class Controller {
    const c: Setup
    var rate: real
    var negGradientCount: nat
    var prevRtt: real
    var avgRttDiff: real
    var lastUpdateTsc: nat

    function View(): State
      reads this
    {
      State(rate, negGradientCount, prevRtt, avgRttDiff, lastUpdateTsc)
    }

    constructor (c: Setup, tsc: nat)
      ensures this.c == c && View() == Init(c, tsc)
    {
      this.c := c;
      rate, negGradientCount, prevRtt, avgRttDiff, lastUpdateTsc := c.linkBandwidth, 0, MIN_RTT, 0.0, tsc;
    }

    method PickRate(sampleRtt: real, deltaFactor: real) returns (newRate: real)
      ensures newRate == NewRate(c, rate, sampleRtt, negGradientCount, avgRttDiff, deltaFactor)
    {
      hide Cut, WFunc, Blend;
      var aiFactor := ADD_RATE * deltaFactor;
      if sampleRtt < T_LOW {
        return rate + aiFactor;
      }
      var mdFactor, normGrad := deltaFactor * BETA, avgRttDiff / MIN_RTT;
      if sampleRtt <= T_HIGH {
        if c.patched {
          var wght, err := WFunc(normGrad), (sampleRtt - T_LOW) / T_LOW;
          newRate := Blend(rate, mdFactor, aiFactor, wght, err);
        } else if normGrad <= 0.0 {
          var n := if negGradientCount >= HAI_THRESH then 5.0 else 1.0;
          newRate := rate + n * aiFactor;
        } else {
          newRate := rate * Cut(mdFactor, normGrad);
        }
      } else {
        newRate := rate * Cut(mdFactor, 1.0 - T_HIGH / sampleRtt);
      }
    }

    method UpdateRate(tsc: nat, sampleRttTsc: nat)
      requires c.Valid() && SampleOk(View(), Sample(tsc, sampleRttTsc))
      modifies this
      ensures View() == Update(c, old(View()), Sample(tsc, sampleRttTsc))
    {
      hide NewRate, ToUsec, DeltaFactor;
      if c.bypass && rate == c.linkBandwidth && sampleRttTsc as real <= T_LOW * c.freqGhz * 1000.0 { return; }
      if (sampleRttTsc as real) < MIN_RTT * c.freqGhz * 1000.0 { return; }
      var sampleRtt := ToUsec(sampleRttTsc, c.freqGhz);
      var rttDiff := sampleRtt - prevRtt;
      negGradientCount := if rttDiff < 0.0 then negGradientCount + 1 else 0;
      avgRttDiff := (1.0 - EWMA_ALPHA) * avgRttDiff + EWMA_ALPHA * rttDiff;
      var deltaFactor := DeltaFactor(c, View(), tsc);
      DeltaDependsOn(c, old(View()), View(), tsc);
      var newRate := PickRate(sampleRtt, deltaFactor);
      rate := Max(newRate, rate * 0.5);
      rate := Min(rate, c.linkBandwidth);
      rate := Max(rate, MIN_RATE);
      prevRtt := sampleRtt;
      lastUpdateTsc := tsc;
    }
  }

  lemma DeltaDependsOn(c: Setup, s: State, t: State, tsc: nat)
    requires c.Valid() && s.lastUpdateTsc == t.lastUpdateTsc <= tsc
    ensures DeltaFactor(c, s, tsc) == DeltaFactor(c, t, tsc)
  {
  }

  // ---------------------------------------------------------------------------
  // What every run of updates keeps
  // ---------------------------------------------------------------------------

  ghost predicate SamplesOk(c: Setup, s: State, ms: seq<Sample>)
    requires c.Valid()
    decreases |ms|
  {
    ms == [] || (SampleOk(s, ms[0]) && SamplesOk(c, Update(c, s, ms[0]), ms[1..]))
  }

  ghost function After(c: Setup, s: State, ms: seq<Sample>): State
    requires c.Valid() && SamplesOk(c, s, ms)
    decreases |ms|
  {
    if ms == [] then s else After(c, Update(c, s, ms[0]), ms[1..])
  }

  lemma UpdateRange(c: Setup, s: State, m: Sample)
    requires c.Valid() && SampleOk(s, m) && MIN_RATE <= s.rate <= c.linkBandwidth
    ensures MIN_RATE <= Update(c, s, m).rate <= c.linkBandwidth
  {
    hide NewRate, ToUsec, DeltaFactor;
  }

  /** A sample leaves the rate as it is or sets it between the minimum and the link's
      bandwidth, or to the minimum on a slower link. */
  lemma UpdateKeeps(c: Setup, s: State, m: Sample)
    requires c.Valid() && SampleOk(s, m)
    ensures var r := Update(c, s, m).rate; r == s.rate || MIN_RATE <= r <= Max(c.linkBandwidth, MIN_RATE)
  {
    hide NewRate, ToUsec, DeltaFactor;
  }

  lemma {:induction false} RateStays(c: Setup, s: State, ms: seq<Sample>)
    requires c.Valid() && SamplesOk(c, s, ms) && MIN_RATE <= s.rate <= c.linkBandwidth
    ensures MIN_RATE <= After(c, s, ms).rate <= c.linkBandwidth
    decreases |ms|
  {
    if ms != [] {
      UpdateRange(c, s, ms[0]);
      RateStays(c, Update(c, s, ms[0]), ms[1..]);
    }
  }

  /** A possible history of samples since the session was created. */
  ghost predicate History(c: Setup, tsc: nat, ms: seq<Sample>) {
    c.Valid() && SamplesOk(c, Init(c, tsc), ms)
  }

  /** The rate never falls below the minimum exactly if the link is at least that fast. */
  lemma RateFloor(c: Setup, tsc: nat)
    requires c.Valid()
    ensures (forall ms :: History(c, tsc, ms) ==> After(c, Init(c, tsc), ms).rate >= MIN_RATE)
            <==> c.linkBandwidth >= MIN_RATE
  {
    if c.linkBandwidth >= MIN_RATE {
      forall ms | History(c, tsc, ms)
        ensures After(c, Init(c, tsc), ms).rate >= MIN_RATE
      {
        RateStays(c, Init(c, tsc), ms);
      }
    } else {
      assert History(c, tsc, []) && After(c, Init(c, tsc), []).rate == c.linkBandwidth;
    }
  }

  lemma MulLess(a: real, b: real, x: real)
    requires a <= b && x >= 0.0
    ensures x * a <= x * b
  {
  }

  lemma DeltaRange(c: Setup, s: State, tsc: nat)
    requires c.Valid() && s.lastUpdateTsc <= tsc
    ensures 0.0 <= DeltaFactor(c, s, tsc) <= 1.0
  {
    var a, b := (tsc - s.lastUpdateTsc) as real, MIN_RTT * c.freqGhz * 1000.0;
    assert b > 0.0;
    assert a / b >= 0.0;
  }

  lemma CutRange(md: real, part: real)
    requires 0.0 <= md <= BETA && 0.0 <= part <= 1.0
    ensures 1.0 - BETA <= Cut(md, part) <= 1.0
  {
    MulLess(0.0, part, md);
    MulLess(part, 1.0, md);
  }

  lemma Fraction(a: real, b: real)
    requires 0.0 < a < b
    ensures 0.0 <= 1.0 - a / b <= 1.0
  {
    var q := a / b;
    assert q * b == a;
    if q >= 1.0 {
      MulLess(1.0, q, b);
    }
  }

  lemma LongRate(c: Setup, rate: real, rtt: real, n: nat, avg: real, delta: real)
    requires 0.0 <= delta <= 1.0 && rtt > T_HIGH && rate >= 0.0
    ensures rate * (1.0 - BETA) <= NewRate(c, rate, rtt, n, avg, delta) <= rate
  {
    hide Cut, WFunc, Blend;
    var cut := Cut(delta * BETA, 1.0 - T_HIGH / rtt);
    Fraction(T_HIGH, rtt);
    CutRange(delta * BETA, 1.0 - T_HIGH / rtt);
    Scale(rate, 1.0 - BETA, cut);
    assert NewRate(c, rate, rtt, n, avg, delta) == rate * cut;
  }

  lemma Scale(x: real, lo: real, f: real)
    requires 0.0 <= x && lo <= f <= 1.0
    ensures x * lo <= x * f <= x
  {
    MulLess(f, 1.0, x);
    MulLess(lo, f, x);
  }

  lemma ClampRange(c: Setup, rate: real, newRate: real)
    requires MIN_RATE <= rate <= c.linkBandwidth
    ensures Clamp(c, rate, newRate) >= rate * 0.5
    ensures newRate >= rate ==> Clamp(c, rate, newRate) >= rate
    ensures rate * (1.0 - BETA) <= newRate <= rate ==> rate * (1.0 - BETA) <= Clamp(c, rate, newRate) <= rate
  {
  }

  /** A short round trip never lowers the rate, a long one never raises it and takes away at
      most the fraction `BETA`, and no update takes away more than half of it. */
  lemma RateDirection(c: Setup, s: State, m: Sample)
    requires c.Valid() && SampleOk(s, m) && MIN_RATE <= s.rate <= c.linkBandwidth
    ensures var r, rtt := Update(c, s, m).rate, ToUsec(m.rttTsc, c.freqGhz);
      && (rtt < T_LOW ==> r >= s.rate)
      && (rtt > T_HIGH ==> s.rate * (1.0 - BETA) <= r <= s.rate)
      && r >= s.rate * 0.5
  {
    if !Ignored(c, s, m) {
      hide ToUsec, DeltaFactor, NewRate, Clamp;
      var rtt, delta := ToUsec(m.rttTsc, c.freqGhz), DeltaFactor(c, s, m.tsc);
      var diff := rtt - s.prevRtt;
      var count := if diff < 0.0 then s.negGradientCount + 1 else 0;
      var avg := (1.0 - EWMA_ALPHA) * s.avgRttDiff + EWMA_ALPHA * diff;
      DeltaRange(c, s, m.tsc);
      ClampRange(c, s.rate, NewRate(c, s.rate, rtt, count, avg, delta));
      if rtt < T_LOW {
        ShortRate(c, s.rate, rtt, count, avg, delta);
      } else if rtt > T_HIGH {
        LongRate(c, s.rate, rtt, count, avg, delta);
      }
    }
  }

  lemma ShortRate(c: Setup, rate: real, rtt: real, n: nat, avg: real, delta: real)
    requires 0.0 <= delta && rtt < T_LOW
    ensures NewRate(c, rate, rtt, n, avg, delta) >= rate
  {
  }
}
