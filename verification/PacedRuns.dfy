/** The sessions of an Rpc with the one timing wheel that paces their packets. Whatever happens
    to the sessions, the credits and wheel entries of the pacing machine are those of the
    datapath, so that its horizon theorem is one about runs of the datapath. */
module PacedRuns {
  import opened Wire
  import opened ClientSpec
  import opened Protocol
  import opened ProtocolProof
  import opened Acts
  import Runs
  import WheelSpec
  import WheelRuns
  import P = Pacing

  /** The datapath, the bytes of a packet header, the pacing of full packets, and whether
      round-trip times are sampled. */
  datatype Setup = Setup(p: Wire.Config, hdr: nat, c: P.Config, rateComp: bool) {
    ghost predicate Valid() {
      c.cc.Valid() && c.credits == p.credits && c.mtu == hdr + p.dataPerPkt
    }
  }

  datatype World = World(sys: seq<Sys>, paced: P.Paced)

  /** A session's event comes with the clock at each of its acts, and with the sample of the
      round-trip time that its packet gives. */
  datatype Event =
    | Handle(sid: nat, e: Protocol.Event, times: seq<nat>, sample: Option<P.T.Sample>)
    | Poll(t: nat)                                          // the wheel is reaped

  function Init(x: Setup, sessions: nat): World
    requires x.c.cc.Valid()
  {
    World(seq(sessions, _ => Protocol.Init(x.p)), P.Init(x.c, sessions))
  }

  /** The pacing event of an act of session `sid` at time `t`. */
  function PacingEvent(sid: nat, a: Act, t: nat): P.Event {
    match a
    case Free => P.Return(sid)
    case Send => P.Bypass(sid)
    case Pace(size) => P.Pace(sid, t, size)
    case Leave => P.Transmit
  }

  function PacingEvents(sid: nat, acts: seq<Act>, times: seq<nat>): (es: seq<P.Event>)
    requires |times| == |acts|
  {
    if acts == [] then [] else [PacingEvent(sid, acts[0], times[0])] + PacingEvents(sid, acts[1..], times[1..])
  }

  /** Clock readings that do not decrease. */
  predicate Readings(now: nat, times: seq<nat>)
    decreases |times|
  {
    times == [] || (now <= times[0] && Readings(times[0], times[1..]))
  }

  /** The session's rate is the link's, and uncongested sessions may bypass the wheel. */
  predicate Uncongested(c: P.Config, cc: P.T.State) {
    c.wheelBypass && cc.rate == c.cc.linkBandwidth
  }

  /** A packet for the client gives a sample if it is in order. */
  ghost predicate Samples(x: Setup, s: Sys, e: Protocol.Event) {
    x.rateComp && e.ToClient? && InOrderAt(x.p, s, e.pkt)
  }

  predicate AnswerOk(c: P.Config, cc: P.T.State, m: Option<P.T.Sample>) {
    m.Some? ==> P.RttOk(c, cc, m.value)
  }

  /** The rate control after the sample, if there is one. */
  function Sampled(c: P.Config, cc: P.T.State, m: Option<P.T.Sample>): P.T.State
    requires c.cc.Valid() && AnswerOk(c, cc, m)
  {
    if m.Some? then P.T.Update(c.cc, cc, m.value) else cc
  }

  /** What an event of the sessions asks for: an event of the datapath that fails no assertion
      there (by `ProtocolProof.StepKeeps`, one for which the server has a buffer), in which the
      session is uncongested as its rate tells after the sample; clock readings; and for a
      packet that leaves the wheel an entry of its session at the head of the ready queue.
      Nothing is demanded of credits or the wheel. */
  ghost predicate Enabled(x: Setup, w: World, e: Event)
    requires x.Valid()
  {
    match e
    case Handle(sid, e, times, sample) =>
      && sid < |w.sys| && sid < |w.paced.sess|
      && Protocol.Enabled(x.p, w.sys[sid], e) && Safe(x.p, w.sys[sid], e)
      && (sample.Some? <==> Samples(x, w.sys[sid], e)) && AnswerOk(x.c, w.paced.sess[sid].cc, sample)
      && var cc := Sampled(x.c, w.paced.sess[sid].cc, sample);
         && e.Flagged(Uncongested(x.c, cc))
         && |times| == |EventActs(x.p, x.hdr, w.sys[sid], e)|
         && Readings(w.paced.w.now, times) && Readings(cc.lastUpdateTsc, times)
         && (e.FromWheel? ==> w.paced.w.a.ready != [] && w.paced.w.a.ready[0].id == sid)
    case Poll(t) => w.paced.w.now <= t
  }

  /** The sample comes before the acts, as the program updates the rate first. */
  function Sampling(sid: nat, sample: Option<P.T.Sample>): seq<P.Event> {
    if sample.Some? then [P.Sample(sid, sample.value)] else []
  }

  ghost function Paces(x: Setup, w: World, e: Event): seq<P.Event>
    requires x.Valid() && Enabled(x, w, e)
  {
    match e
    case Handle(sid, e, times, sample) =>
      Sampling(sid, sample) + PacingEvents(sid, EventActs(x.p, x.hdr, w.sys[sid], e), times)
    case Poll(t) => [P.Poll(t)]
  }

  ghost function Next(x: Setup, w: World, e: Event): World
    requires x.Valid() && Enabled(x, w, e) && P.Passes(x.c, w.paced, Paces(x, w, e))
  {
    World(if e.Handle? then w.sys[e.sid := Protocol.Step(x.p, w.sys[e.sid], e.e)] else w.sys,
          P.After(x.c, w.paced, Paces(x, w, e)))
  }

  /** In some event of the run an assertion of the wheel fails, or a pacing event that the
      event leads to is not possible. */
  ghost predicate Fails(x: Setup, w: World, evs: seq<Event>)
    requires x.Valid()
    decreases |evs|
  {
    && evs != [] && Enabled(x, w, evs[0])
    && (P.Passes(x.c, w.paced, Paces(x, w, evs[0])) ==> Fails(x, Next(x, w, evs[0]), evs[1..]))
  }

  // ---------------------------------------------------------------------------
  // The pacing machine keeps the datapath's books
  // ---------------------------------------------------------------------------

  /** The session's credits in use and wheel entries in the pacing machine are those of the
      ledger. */
  ghost predicate Books(c: P.Config, s: P.Paced, sid: nat, l: Ledger) {
    && sid < |s.sess|
    && s.sess[sid].held + l.credits == c.credits
    && P.Count(s.w.a.Order(), sid) == l.inWheel
  }

  /** The books of all other sessions are as before. */
  ghost predicate OthersKept(s: P.Paced, t: P.Paced, sid: nat) {
    && |t.sess| == |s.sess|
    && forall j: nat {:trigger t.sess[j]} :: j < |t.sess| && j != sid ==>
         t.sess[j].held == s.sess[j].held && P.Count(t.w.a.Order(), j) == P.Count(s.w.a.Order(), j)
  }

  lemma CountPop(order: seq<WheelRuns.Item>, j: nat)
    requires order != []
    ensures P.Count(order, j) == P.Count(order[1..], j) + (if order[0].id == j then 1 else 0)
  {
  }

  /** A packet that is put in the wheel is one more entry of its session. */
  lemma PaceCounts(c: P.Config, s: P.Paced, sid: nat, t: nat, size: nat)
    requires c.cc.Valid() && P.Enabled(c, s, P.Pace(sid, t, size)) && P.Safe(c, s, P.Pace(sid, t, size))
    ensures var s' := P.Step(c, s, P.Pace(sid, t, size));
      forall j :: P.Count(s'.w.a.Order(), j) == P.Count(s.w.a.Order(), j) + (if j == sid then 1 else 0)
  {
    hide WheelSpec.Insert, P.CycleDelta;
    var d := P.Desired(c, s.sess[sid], t, size);
    var u, v := WheelRuns.InsertOrder(s.w.a, c.Horizon(), WheelRuns.Item(sid, d), t, d);
    forall j
      ensures P.Count(u + [WheelRuns.Item(sid, d)] + v, j) == P.Count(u + v, j) + (if j == sid then 1 else 0)
    {
      P.CountInsert(u, WheelRuns.Item(sid, d), v, j, 0);
    }
  }

  /** An act that its ledger allows is possible in the pacing machine, fails no assertion of
      the wheel, and keeps the books. */
  lemma ActPasses(c: P.Config, s: P.Paced, sid: nat, l: Ledger, a: Act, t: nat)
    requires P.Inv(c, s) && Books(c, s, sid, l) && ActOk(c.credits, Uncongested(c, s.sess[sid].cc), l, a)
    requires s.w.now <= t && s.sess[sid].cc.lastUpdateTsc <= t && (a.Pace? ==> a.size <= c.mtu)
    requires a.Leave? ==> s.w.a.ready != [] && s.w.a.ready[0].id == sid
    ensures var e := PacingEvent(sid, a, t);
      && P.Enabled(c, s, e) && P.Safe(c, s, e) && P.Inv(c, P.Step(c, s, e))
      && Books(c, P.Step(c, s, e), sid, Do(c.credits, Uncongested(c, s.sess[sid].cc), l, a))
      && OthersKept(s, P.Step(c, s, e), sid)
      && P.Step(c, s, e).w.now <= t && P.Step(c, s, e).sess[sid].cc == s.sess[sid].cc
  {
    var e := PacingEvent(sid, a, t);
    P.StepKeeps(c, s, e);
    match a
    case Pace(size) => PaceCounts(c, s, sid, t, size);
    case Leave =>
      var order := s.w.a.Order();
      assert P.Step(c, s, e).w.a.Order() == order[1..];
      forall j
        ensures P.Count(order, j) == P.Count(order[1..], j) + (if j == sid then 1 else 0)
      {
        CountPop(order, j);
      }
    case Free =>
    case Send =>
  }

  lemma {:induction false} ActsPass(
    c: P.Config, s: P.Paced, sid: nat, l: Ledger, acts: seq<Act>, times: seq<nat>, m: Ledger)
    requires P.Inv(c, s) && Books(c, s, sid, l) && Balanced(c.credits, Uncongested(c, s.sess[sid].cc), l, acts, m)
    requires |times| == |acts| && Plain(acts, c.mtu)
    requires Readings(s.w.now, times) && Readings(s.sess[sid].cc.lastUpdateTsc, times)
    ensures var es := PacingEvents(sid, acts, times);
      && P.Passes(c, s, es) && P.Inv(c, P.After(c, s, es))
      && Books(c, P.After(c, s, es), sid, m) && OthersKept(s, P.After(c, s, es), sid)
    decreases |acts|
  {
    hide P.Inv, P.Enabled, P.Safe, P.Step, ActOk, Do;
    if acts != [] {
      assert acts[0] in acts;
      assert forall a :: a in acts[1..] ==> a in acts;
      ActPasses(c, s, sid, l, acts[0], times[0]);
      var e := PacingEvent(sid, acts[0], times[0]);
      var t, es := P.Step(c, s, e), PacingEvents(sid, acts, times);
      assert es[0] == e && es[1..] == PacingEvents(sid, acts[1..], times[1..]);
      LaterReadings(t.w.now, times[0], times[1..]);
      LaterReadings(t.sess[sid].cc.lastUpdateTsc, times[0], times[1..]);
      ActsPass(c, t, sid, Do(c.credits, Uncongested(c, s.sess[sid].cc), l, acts[0]), acts[1..], times[1..], m);
    }
  }

  lemma LaterReadings(now: nat, t: nat, times: seq<nat>)
    requires now <= t && Readings(t, times)
    ensures Readings(now, times)
  {
  }

  // ---------------------------------------------------------------------------
  // Runs
  // ---------------------------------------------------------------------------

  ghost predicate SessionTied(x: Setup, w: World, sid: nat)
    requires sid < |w.sys|
  {
    Inv(x.p, w.sys[sid]) && Books(x.c, w.paced, sid, LedgerOf(w.sys[sid].cl))
  }

  /** For each session the credits in use are those that the datapath does not have, and the
      entries in the wheel are its packets there. */
  ghost predicate Tied(x: Setup, w: World) {
    && x.Valid() && P.Inv(x.c, w.paced) && |w.paced.sess| == |w.sys|
    && forall sid: nat {:trigger SessionTied(x, w, sid)} :: sid < |w.sys| ==> SessionTied(x, w, sid)
  }

  /** Every event of a session without a sample, or after it, is a sequence of possible pacing
      events of that session, and the two stay tied. */
  lemma HandlePasses(x: Setup, w: World, sid: nat, e: Protocol.Event, times: seq<nat>)
    requires Tied(x, w) && sid < |w.sys| && Protocol.Enabled(x.p, w.sys[sid], e) && Safe(x.p, w.sys[sid], e)
    requires e.Flagged(Uncongested(x.c, w.paced.sess[sid].cc))
    requires |times| == |EventActs(x.p, x.hdr, w.sys[sid], e)|
    requires Readings(w.paced.w.now, times) && Readings(w.paced.sess[sid].cc.lastUpdateTsc, times)
    requires e.FromWheel? ==> w.paced.w.a.ready != [] && w.paced.w.a.ready[0].id == sid
    ensures var es := PacingEvents(sid, EventActs(x.p, x.hdr, w.sys[sid], e), times);
      && P.Passes(x.c, w.paced, es)
      && Tied(x, World(w.sys[sid := Step(x.p, w.sys[sid], e)], P.After(x.c, w.paced, es)))
  {
    hide Inv, P.Inv, Safe, Step, EventActs, P.Passes, P.After, P.Enabled, Readings, Provided, Books;
    assert SessionTied(x, w, sid);
    var s := w.sys[sid];
    var acts := EventActs(x.p, x.hdr, s, e);
    EventBalanced(x.p, x.hdr, s, e, Uncongested(x.c, w.paced.sess[sid].cc));
    StepKeeps(x.p, s, e);
    var m := LedgerOf(Step(x.p, s, e).cl);
    if e.FromWheel? {
      LeaveActs(x, s, e);
      LeavePasses(x, w.paced, sid, LedgerOf(s.cl), acts, times, m);
    } else {
      EventPlain(x.p, x.hdr, s, e);
      ActsPass(x.c, w.paced, sid, LedgerOf(s.cl), acts, times, m);
    }
    StaysTied(x, w, sid, Step(x.p, s, e), P.After(x.c, w.paced, PacingEvents(sid, acts, times)));
  }

  lemma LeaveActs(x: Setup, s: Sys, e: Protocol.Event)
    requires Safe(x.p, s, e) && e.FromWheel?
    ensures EventActs(x.p, x.hdr, s, e) == [Leave]
  {
  }

  lemma LeavePasses(x: Setup, s: P.Paced, sid: nat, l: Ledger, acts: seq<Act>, times: seq<nat>, m: Ledger)
    requires P.Inv(x.c, s) && Books(x.c, s, sid, l) && acts == [Leave]
    requires Balanced(x.c.credits, Uncongested(x.c, s.sess[sid].cc), l, acts, m)
    requires |times| == 1 && Readings(s.w.now, times) && Readings(s.sess[sid].cc.lastUpdateTsc, times)
    requires s.w.a.ready != [] && s.w.a.ready[0].id == sid
    ensures var es := PacingEvents(sid, acts, times);
      && P.Passes(x.c, s, es) && P.Inv(x.c, P.After(x.c, s, es))
      && Books(x.c, P.After(x.c, s, es), sid, m) && OthersKept(s, P.After(x.c, s, es), sid)
  {
    hide P.Inv, P.Enabled, P.Safe, P.Step;
    ActPasses(x.c, s, sid, l, Leave, times[0]);
    var es := PacingEvents(sid, acts, times);
    assert acts[1..] == [] && times[1..] == [];
    assert PacingEvents(sid, acts[1..], times[1..]) == [];
    assert es == [P.Transmit];
    P.PassesOne(x.c, s, P.Transmit);
    LastAct(x.c.credits, Uncongested(x.c, s.sess[sid].cc), l, m);
  }

  lemma LastAct(total: nat, u: bool, l: Ledger, m: Ledger)
    requires Balanced(total, u, l, [Leave], m)
    ensures ActOk(total, u, l, Leave) && m == Do(total, u, l, Leave)
  {
    assert [Leave][1..] == [];
  }

  lemma StaysTied(x: Setup, w: World, sid: nat, s: Sys, t: P.Paced)
    requires Tied(x, w) && sid < |w.sys| && P.Inv(x.c, t) && OthersKept(w.paced, t, sid)
    requires Inv(x.p, s) && Books(x.c, t, sid, LedgerOf(s.cl))
    ensures Tied(x, World(w.sys[sid := s], t))
  {
    hide Inv, P.Inv, LedgerOf;
    var v := World(w.sys[sid := s], t);
    forall j: nat | j < |v.sys|
      ensures SessionTied(x, v, j)
    {
      if j != sid {
        assert SessionTied(x, w, j);
        assert t.sess[j].held == w.paced.sess[j].held;
      }
    }
  }

  lemma OnePasses(x: Setup, w: World, e: P.Event)
    requires Tied(x, w) && P.Enabled(x.c, w.paced, e) && (e.Poll? || e.Sample?)
    ensures P.Passes(x.c, w.paced, [e]) && Tied(x, World(w.sys, P.After(x.c, w.paced, [e])))
  {
    hide Inv, LedgerOf;
    P.StepKeeps(x.c, w.paced, e);
    assert [e][1..] == [];
    var t := P.Step(x.c, w.paced, e);
    if e.Poll? {
      WheelSpec.ReapKeepsOrder(w.paced.w.a, e.t);
    }
    hide P.Inv, P.Step, P.Safe, P.Enabled;
    P.PassesOne(x.c, w.paced, e);
    forall j: nat | j < |w.sys|
      ensures SessionTied(x, World(w.sys, t), j)
    {
      assert SessionTied(x, w, j);
      assert t.sess[j].held == w.paced.sess[j].held;
    }
  }

  /** Every event keeps the sessions and the pacing machine tied. */
  lemma NextTied(x: Setup, w: World, e: Event)
    requires Tied(x, w) && Enabled(x, w, e)
    ensures P.Passes(x.c, w.paced, Paces(x, w, e)) && Tied(x, Next(x, w, e))
  {
    hide P.Enabled;
    match e
    case Handle(sid, ev, times, sample) => SampledPasses(x, w, sid, ev, times, sample);
    case Poll(t) => PollEnabled(x.c, w.paced, t); OnePasses(x, w, P.Poll(t));
  }

  lemma SampledPasses(
    x: Setup, w: World, sid: nat, e: Protocol.Event, times: seq<nat>, sample: Option<P.T.Sample>)
    requires Tied(x, w) && Enabled(x, w, Handle(sid, e, times, sample))
    ensures P.Passes(x.c, w.paced, Paces(x, w, Handle(sid, e, times, sample)))
    ensures Tied(x, Next(x, w, Handle(sid, e, times, sample)))
  {
    hide Tied, P.Passes, P.After, Protocol.Enabled, Safe, Step, EventActs, Readings, Samples;
    var es := PacingEvents(sid, EventActs(x.p, x.hdr, w.sys[sid], e), times);
    if sample.Some? {
      SampleTied(x, w, sid, sample.value);
      var t := P.After(x.c, w.paced, Sampling(sid, sample));
      HandlePasses(x, World(w.sys, t), sid, e, times);
      P.PassesJoin(x.c, w.paced, Sampling(sid, sample), es);
    } else {
      HandlePasses(x, w, sid, e, times);
      assert [] + es == es;
    }
  }

  lemma SampleTied(x: Setup, w: World, sid: nat, m: P.T.Sample)
    requires Tied(x, w) && sid < |w.paced.sess| && P.RttOk(x.c, w.paced.sess[sid].cc, m)
    ensures P.Passes(x.c, w.paced, [P.Sample(sid, m)])
    ensures var t := P.After(x.c, w.paced, [P.Sample(sid, m)]);
      && Tied(x, World(w.sys, t)) && |t.sess| == |w.paced.sess| && t.w == w.paced.w
      && t.sess[sid].cc == P.T.Update(x.c.cc, w.paced.sess[sid].cc, m)
  {
    OnePasses(x, w, P.Sample(sid, m));
    hide P.Inv, SessionTied;
    P.PassesOne(x.c, w.paced, P.Sample(sid, m));
  }

  lemma PollEnabled(c: P.Config, s: P.Paced, t: nat)
    requires s.w.now <= t
    ensures P.Enabled(c, s, P.Poll(t))
  {
  }

  lemma {:induction false} NeverFails(x: Setup, w: World, evs: seq<Event>)
    requires x.Valid() && Tied(x, w)
    ensures !Fails(x, w, evs)
    decreases |evs|
  {
    hide Tied, Enabled, P.Passes, Next;
    if evs != [] && Enabled(x, w, evs[0]) {
      NextTied(x, w, evs[0]);
      NeverFails(x, Next(x, w, evs[0]), evs[1..]);
    }
  }

  lemma {:induction false} NoneInWheel(p: Wire.Config, slots: seq<ClientSlot>)
    requires forall k :: 0 <= k < |slots| ==> slots[k].wheelCount == 0
    ensures Runs.InWheel(slots) == 0
  {
    if slots != [] {
      NoneInWheel(p, slots[1..]);
    }
  }

  lemma InitTied(x: Setup, sessions: nat)
    requires x.Valid() && x.c.Valid()
    ensures Tied(x, Init(x, sessions))
  {
    P.InitKeeps(x.c, sessions);
    InitKeeps(x.p);
    var w := Init(x, sessions);
    NoneInWheel(x.p, Protocol.Init(x.p).cl.slots);
    WheelRuns.FlattenEmpty(w.paced.w.a.slots);
    assert w.paced.w.a.Order() == [];
    hide Inv, P.Inv;
    forall j: nat | j < sessions
      ensures SessionTied(x, w, j)
    {
    }
  }

  /** In every run of any number of sessions, whatever their requests, losses, retransmissions,
      rates and clock readings, every packet is wanted within the horizon and finds a slot. */
  lemma HorizonHolds(x: Setup, sessions: nat, evs: seq<Event>)
    requires x.Valid() && x.c.Valid()
    ensures !Fails(x, Init(x, sessions), evs)
  {
    InitTied(x, sessions);
    NeverFails(x, Init(x, sessions), evs);
  }
}
