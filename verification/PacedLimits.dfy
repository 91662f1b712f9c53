/** Exactly when runs of the datapath's sessions keep the wheel's assertions. The rounds that
    bring the rate down and land a packet on a slot's start are requests of one packet, and the
    burst is a request that spends all credits. */
module PacedLimits {
  import opened Wire
  import opened ClientSpec
  import opened LoneRpc
  import opened Acts
  import opened R = PacedRuns
  import opened ProtocolProof
  import D = Protocol
  import Runs
  import WheelRuns
  import WheelSpec
  import Progress
  import P = Pacing
  import H = HorizonLimits

  // ---------------------------------------------------------------------------
  // Runs
  // ---------------------------------------------------------------------------

  /** The events lead from `w` to `v`, and the wheel does not fail. */
  ghost predicate Leads(x: Setup, w: World, evs: seq<Event>, v: World)
    requires x.Valid()
    decreases |evs|
  {
    if evs == [] then w == v
    else
      && Enabled(x, w, evs[0]) && P.Passes(x.c, w.paced, Paces(x, w, evs[0]))
      && Leads(x, Next(x, w, evs[0]), evs[1..], v)
  }

  lemma {:induction false} LeadsJoin(x: Setup, w: World, a: seq<Event>, v: World, b: seq<Event>, u: World)
    requires x.Valid() && Leads(x, w, a, v)
    ensures Leads(x, v, b, u) ==> Leads(x, w, a + b, u)
    ensures Fails(x, v, b) ==> Fails(x, w, a + b)
    decreases |a|
  {
    hide Enabled, Paces, Next, P.Passes;
    if a == [] {
      assert a + b == b;
    } else {
      LeadsJoin(x, Next(x, w, a[0]), a[1..], v, b, u);
      assert (a + b)[0] == a[0] && (a + b)[1..] == a[1..] + b;
    }
  }

  lemma LeadsOne(x: Setup, w: World, e: Event)
    requires x.Valid() && Enabled(x, w, e) && P.Passes(x.c, w.paced, Paces(x, w, e))
    ensures Leads(x, w, [e], Next(x, w, e))
  {
    hide Enabled, Paces, Next, P.Passes;
    assert [e][1..] == [];
  }

  lemma FailsOne(x: Setup, w: World, e: Event)
    requires x.Valid() && Enabled(x, w, e) && !P.Passes(x.c, w.paced, Paces(x, w, e))
    ensures Fails(x, w, [e])
  {
    hide Enabled, Paces, Next, P.Passes;
  }

  // ---------------------------------------------------------------------------
  // One request of one packet
  // ---------------------------------------------------------------------------

  /** The first session is quiet, and has `held` credits in use in the pacing machine. */
  ghost predicate Ready(x: Setup, w: World)
    requires x.Valid()
  {
    w.sys != [] && Quiet(x.p, w.sys[0]) && H.Idle(x.c, w.paced, 0)
  }

  ghost predicate Asked(x: Setup, w: World, i: nat)
    requires x.Valid()
  {
    w.sys != [] && OnWire(x.p, w.sys[0], i) && H.Idle(x.c, w.paced, 1)
  }

  /** What failing runs need: round-trip samples, and messages that can spend all credits. */
  ghost predicate Able(x: Setup) {
    x.Valid() && x.rateComp && x.p.credits * x.p.dataPerPkt <= x.p.maxMsgSize
  }

  lemma OneFits(x: Setup)
    requires Able(x)
    ensures x.p.dataPerPkt <= x.p.maxMsgSize
  {
    MulMono(1, x.p.credits, x.p.dataPerPkt);
  }

  function IssueAt(x: Setup, u: bool, t: nat): Event {
    Handle(0, D.Issue(One(x.p), u), [t], None)
  }

  lemma OneReading(now: nat, t: nat)
    requires now <= t
    ensures Readings(now, [t])
  {
    assert [t][1..] == [];
  }

  lemma OnePacing(a: Act, t: nat)
    ensures PacingEvents(0, [a], [t]) == [PacingEvent(0, a, t)]
  {
    assert [a][1..] == [] && [t][1..] == [];
  }

  lemma OneAct(x: Setup, u: bool)
    requires x.Valid()
    ensures ReqActs(x.p, x.hdr, One(x.p), 0, 1, u) == [if u then Send else Pace(x.c.mtu)]
  {
    assert ReqActs(x.p, x.hdr, One(x.p), 1, 0, u) == [];
  }

  /** Issuing the request is one act. */
  lemma IssuePaces(x: Setup, w: World, t: nat)
    requires Able(x) && Ready(x, w) && w.paced.w.now <= t && w.paced.sess[0].cc.lastUpdateTsc <= t
    ensures var u := Uncongested(x.c, w.paced.sess[0].cc);
      && Enabled(x, w, IssueAt(x, u, t))
      && Paces(x, w, IssueAt(x, u, t)) == [if u then P.Bypass(0) else P.Pace(0, t, x.c.mtu)]
  {
    hide H.Vacant, Quiet, D.Safe, D.Enabled, EventActs, ReqActs, Readings, PacingEvents, H.RateOf;
    var s, u := w.sys[0], Uncongested(x.c, w.paced.sess[0].cc);
    OneFits(x);
    OnePkt(x.p);
    IssueActs(x.p, x.hdr, s, One(x.p), u);
    OneAct(x, u);
    OneReading(w.paced.w.now, t);
    OneReading(w.paced.sess[0].cc.lastUpdateTsc, t);
    OnePacing(if u then Send else Pace(x.c.mtu), t);
  }

  /** Issuing past the wheel. */
  lemma IssueDirect(x: Setup, w: World, t: nat) returns (v: World, i: nat)
    requires Able(x) && Ready(x, w) && w.paced.w.now <= t && w.paced.sess[0].cc.lastUpdateTsc <= t
    requires Uncongested(x.c, w.paced.sess[0].cc)
    ensures P.Passes(x.c, w.paced, H.Sending(x.c, w.paced.sess[0], t))
    ensures Leads(x, w, [IssueAt(x, true, t)], v) && Asked(x, v, i)
    ensures v.paced == P.After(x.c, w.paced, H.Sending(x.c, w.paced.sess[0], t))
  {
    hide H.Vacant, Quiet, Enabled, Paces, D.Step, D.Safe, P.Safe, P.Step;
    IssuePaces(x, w, t);
    IssueQuiet(x, w, true);
    H.IdleRate(x.c, w.paced);
    H.SendDirect(x.c, w.paced, t);
    v := Next(x, w, IssueAt(x, true, t));
    LeadsOne(x, w, IssueAt(x, true, t));
    i := Last(w.sys[0].cl.free);
  }

  lemma IssueQuiet(x: Setup, w: World, u: bool)
    requires Able(x) && Ready(x, w)
    ensures w.sys[0].cl.free != [] && D.Safe(x.p, w.sys[0], D.Issue(One(x.p), u))
    ensures var t, i := D.Step(x.p, w.sys[0], D.Issue(One(x.p), u)), Last(w.sys[0].cl.free);
      if u then OnWire(x.p, t, i) else Wheeled(x.p, t, i)
  {
    hide H.Idle, Quiet;
    OneFits(x);
    OnePkt(x.p);
    QuietSlots(x.p, w.sys[0]);
    IssueActs(x.p, x.hdr, w.sys[0], One(x.p), u);
    IssueOne(x.p, w.sys[0], u);
  }

  /** An event that paces one event. */
  lemma LeadsBy(x: Setup, w: World, e: Event, pe: P.Event)
    requires x.Valid() && Enabled(x, w, e) && Paces(x, w, e) == [pe]
    requires P.Enabled(x.c, w.paced, pe) && P.Safe(x.c, w.paced, pe)
    ensures e.Handle? ==> e.sid < |w.sys| && D.Safe(x.p, w.sys[e.sid], e.e)
    ensures var sys := if e.Handle? then w.sys[e.sid := D.Step(x.p, w.sys[e.sid], e.e)] else w.sys;
      Leads(x, w, [e], World(sys, P.Step(x.c, w.paced, pe)))
  {
    hide D.Safe, D.Step, D.Enabled, P.Enabled, P.Safe, P.Step, Paces;
    P.PassesOne(x.c, w.paced, pe);
    LeadsOne(x, w, e);
  }

  /** A packet that is at the head of the ready queue leaves it. */
  lemma LeaveEnabled(x: Setup, w: World, i: nat, r: nat)
    requires x.Valid() && w.sys != [] && Wheeled(x.p, w.sys[0], i)
    requires w.paced.sess != [] && w.paced.w.now <= r && w.paced.sess[0].cc.lastUpdateTsc <= r
    requires w.paced.w.a.ready != [] && w.paced.w.a.ready[0].id == 0
    ensures var e := Handle(0, D.FromWheel(i, 0), [r], None);
      && Enabled(x, w, e) && Paces(x, w, e) == [P.Transmit]
      && OnWire(x.p, D.Step(x.p, w.sys[0], e.e), i)
  {
    hide Wheeled, OnWire, D.Step, D.Safe, D.Enabled;
    LeaveOne(x.p, w.sys[0], i);
    LeaveActs(x, w.sys[0], D.FromWheel(i, 0));
    OneReading(w.paced.w.now, r);
    OneReading(w.paced.sess[0].cc.lastUpdateTsc, r);
    assert EventActs(x.p, x.hdr, w.sys[0], D.FromWheel(i, 0)) == [Leave];
    OnePacing(Leave, r);
  }

  function Leaving(i: nat, r: nat): seq<Event> {
    [R.Poll(r)] + [Handle(0, D.FromWheel(i, 0), [r], None)]
  }

  /** The first session's packet leaves the wheel at time `r`. */
  lemma ReleaseLeads(x: Setup, w: World, i: nat, r: nat) returns (v: World)
    requires x.Valid() && w.sys != [] && Wheeled(x.p, w.sys[0], i)
    requires w.paced.sess != [] && w.paced.w.now <= r && w.paced.sess[0].cc.lastUpdateTsc <= r
    requires w.paced.w.a.slots != []
    requires var a2 := WheelSpec.Reap(w.paced.w.a, r);
             a2.slots != [] && a2.ready != [] && a2.ready[0].id == 0
    ensures Leads(x, w, Leaving(i, r), v)
    ensures v.sys != [] && OnWire(x.p, v.sys[0], i)
    ensures v.paced == P.Step(x.c, P.Step(x.c, w.paced, P.Poll(r)), P.Transmit)
  {
    hide Leads, D.Step, D.Safe, WheelSpec.Reap, Wheeled, OnWire;
    var e1, e2 := R.Poll(r), Handle(0, D.FromWheel(i, 0), [r], None);
    var w1 := World(w.sys, P.Step(x.c, w.paced, P.Poll(r)));
    LeadsBy(x, w, e1, P.Poll(r));
    LeaveEnabled(x, w1, i, r);
    LeadsBy(x, w1, e2, P.Transmit);
    v := World(w.sys[0 := D.Step(x.p, w.sys[0], e2.e)], P.Step(x.c, w1.paced, P.Transmit));
    LeadsJoin(x, w, [e1], w1, [e2], v);
  }

  /** When the packet's slot ends. */
  function ReleaseTime(x: Setup, w: World, t: nat): nat
    requires x.Valid() && w.paced.sess != [] && w.paced.sess[0].cc.rate > 0.0 && x.c.start <= t
  {
    WheelRuns.SlotTime(H.WheelOf(x.c), t, P.Desired(x.c, w.paced.sess[0], t, x.c.mtu))
  }

  /** The first session may pace a packet, and the wheel does not fail. */
  ghost predicate CanPace(x: Setup, w: World, t: nat)
    requires x.Valid()
  {
    && H.Idle(x.c, w.paced, 0) && w.paced.w.now <= t
    && !Uncongested(x.c, w.paced.sess[0].cc)
    && P.Enabled(x.c, w.paced, P.Pace(0, t, x.c.mtu)) && P.Safe(x.c, w.paced, P.Pace(0, t, x.c.mtu))
  }

  /** The pacing machine's part of issuing through the wheel. */
  lemma PacedThrough(x: Setup, w: World, t: nat)
    requires x.Valid() && CanPace(x, w, t)
    ensures x.c.start <= t && w.paced.sess[0].cc.rate > 0.0
    ensures var s1 := P.Step(x.c, w.paced, P.Pace(0, t, x.c.mtu));
      && s1.sess != [] && s1.w.a.slots != [] && s1.sess[0].cc == w.paced.sess[0].cc
      && s1.w.now == t <= ReleaseTime(x, w, t)
      && (var a2 := WheelSpec.Reap(s1.w.a, ReleaseTime(x, w, t));
          a2.slots != [] && a2.ready != [] && a2.ready[0].id == 0)
      && var s2 := P.Step(x.c, s1, P.Poll(ReleaseTime(x, w, t)));
         && P.Passes(x.c, w.paced, H.Sending(x.c, w.paced.sess[0], t))
         && P.After(x.c, w.paced, H.Sending(x.c, w.paced.sess[0], t)) == P.Step(x.c, s2, P.Transmit)
         && H.Idle(x.c, P.Step(x.c, s2, P.Transmit), 1)
  {
    hide H.Vacant, P.Desired, P.CycleDelta, WheelRuns.SlotTime, WheelSpec.Insert, WheelSpec.Reap, WheelSpec.InsertOk;
    H.IdleRate(x.c, w.paced);
    H.PacedReady(x.c, w.paced, t);
    H.PacedOne(x.c, w.paced, t);
    P.PassesThree(x.c, w.paced, P.Pace(0, t, x.c.mtu), P.Poll(ReleaseTime(x, w, t)), P.Transmit);
  }

  lemma IssueThrough(x: Setup, w: World, t: nat) returns (v: World, i: nat)
    requires Able(x) && Ready(x, w) && CanPace(x, w, t) && w.paced.sess[0].cc.lastUpdateTsc <= t
    ensures x.c.start <= t && w.paced.sess[0].cc.rate > 0.0
    ensures Leads(x, w, [IssueAt(x, false, t)] + Leaving(i, ReleaseTime(x, w, t)), v) && Asked(x, v, i)
    ensures P.Passes(x.c, w.paced, H.Sending(x.c, w.paced.sess[0], t))
    ensures v.paced == P.After(x.c, w.paced, H.Sending(x.c, w.paced.sess[0], t))
  {
    hide H.Idle, Quiet, Leads, D.Step, D.Safe, P.Step, P.Safe, P.Enabled, P.Passes, P.After, H.Sending, ReleaseTime;
    hide Leaving, Wheeled, OnWire, Enabled, Paces;
    PacedThrough(x, w, t);
    IdleHas(x, w);
    IssuePaces(x, w, t);
    IssueQuiet(x, w, false);
    i := Last(w.sys[0].cl.free);
    var r, e := ReleaseTime(x, w, t), IssueAt(x, false, t);
    LeadsBy(x, w, e, P.Pace(0, t, x.c.mtu));
    var w1 := World(w.sys[0 := D.Step(x.p, w.sys[0], e.e)], P.Step(x.c, w.paced, P.Pace(0, t, x.c.mtu)));
    v := ReleaseLeads(x, w1, i, r);
    LeadsJoin(x, w, [e], w1, Leaving(i, r), v);
  }

  lemma IdleHas(x: Setup, w: World)
    requires x.Valid() && H.Idle(x.c, w.paced, 0)
    ensures w.paced.sess != []
  {
  }

  /** The first session issues a request of one full packet, which is sent or fails the wheel. */
  lemma Ask(x: Setup, w: World, t: nat) returns (evs: seq<Event>, v: World, i: nat)
    requires Able(x) && Ready(x, w) && w.paced.w.now <= t && w.paced.sess[0].cc.lastUpdateTsc <= t
    ensures x.c.start <= t && w.paced.sess[0].cc.rate > 0.0
    ensures Fails(x, w, evs) ||
            (Leads(x, w, evs, v) && Asked(x, v, i)
              && P.Passes(x.c, w.paced, H.Sending(x.c, w.paced.sess[0], t))
              && v.paced == P.After(x.c, w.paced, H.Sending(x.c, w.paced.sess[0], t)))
  {
    hide Quiet, Leads, Fails, Asked, P.Passes, P.After, H.Sending, H.Vacant, Enabled, Paces, P.Safe;
    H.IdleRate(x.c, w.paced);
    var pace := P.Pace(0, t, x.c.mtu);
    if Uncongested(x.c, w.paced.sess[0].cc) {
      v, i := IssueDirect(x, w, t);
      evs := [IssueAt(x, true, t)];
    } else if P.Safe(x.c, w.paced, pace) {
      v, i := IssueThrough(x, w, t);
      evs := [IssueAt(x, false, t)] + Leaving(i, ReleaseTime(x, w, t));
    } else {
      IssuePaces(x, w, t);
      PaceFails(x, w, t);
      FailsOne(x, w, IssueAt(x, false, t));
      evs, v, i := [IssueAt(x, false, t)], w, 0;
    }
  }

  lemma PaceFails(x: Setup, w: World, t: nat)
    requires !P.Safe(x.c, w.paced, P.Pace(0, t, x.c.mtu))
    ensures !P.Passes(x.c, w.paced, [P.Pace(0, t, x.c.mtu)])
  {
  }

  // ---------------------------------------------------------------------------
  // Its answer
  // ---------------------------------------------------------------------------

  /** The server's events do not concern the wheel. */
  function AtServer(es: seq<D.Event>): seq<Event> {
    if es == [] then [] else [Handle(0, es[0], [], None)] + AtServer(es[1..])
  }

  lemma ServerEvent(x: Setup, w: World, e: D.Event)
    requires x.Valid() && w.sys != [] && w.paced.sess != [] && (e.ToServer? || e.Reply?)
    requires D.Enabled(x.p, w.sys[0], e) && D.Safe(x.p, w.sys[0], e)
    ensures Enabled(x, w, Handle(0, e, [], None)) && Paces(x, w, Handle(0, e, [], None)) == []
  {
    hide D.Enabled, D.Safe;
  }

  lemma {:induction false} ServerLeads(x: Setup, w: World, es: seq<D.Event>, t: D.Sys)
    requires x.Valid() && w.sys != [] && w.paced.sess != [] && Runs.Reaches(x.p, w.sys[0], es, t)
    requires forall e :: e in es ==> e.ToServer? || e.Reply?
    ensures Leads(x, w, AtServer(es), World(w.sys[0 := t], w.paced))
    decreases |es|
  {
    hide Enabled, Paces, D.Enabled, D.Safe, D.Step;
    if es == [] {
      assert w.sys[0 := t] == w.sys;
    } else {
      assert es[0] in es;
      assert forall e :: e in es[1..] ==> e in es;
      ServerEvent(x, w, es[0]);
      var w1 := World(w.sys[0 := D.Step(x.p, w.sys[0], es[0])], w.paced);
      ServerLeads(x, w1, es[1..], t);
      assert w1.sys[0 := t] == w.sys[0 := t];
    }
  }

  function TakeAt(x: Setup, w: World, pkt: Pkt, m: P.T.Sample): Event
    requires x.Valid() && w.paced.sess != [] && P.RttOk(x.c, w.paced.sess[0].cc, m)
  {
    var cc := P.T.Update(x.c.cc, w.paced.sess[0].cc, m);
    Handle(0, D.ToClient(pkt, Uncongested(x.c, cc)), [P.Max(w.paced.w.now, cc.lastUpdateTsc)], Some(m))
  }

  lemma TakeEnabled(x: Setup, w: World, i: nat, pkt: Pkt, m: P.T.Sample)
    requires Able(x) && w.sys != [] && Served(x.p, w.sys[0], i, pkt)
    requires w.paced.sess != [] && P.RttOk(x.c, w.paced.sess[0].cc, m)
    ensures var e := TakeAt(x, w, pkt, m);
      && Enabled(x, w, e) && Paces(x, w, e) == H.Answering(m)
      && Quiet(x.p, D.Step(x.p, w.sys[0], e.e))
  {
    hide Served, Quiet, D.Step, D.Safe, D.Enabled, P.T.Update, InOrderAt;
    var e := TakeAt(x, w, pkt, m);
    TakeOne(x.p, x.hdr, w.sys[0], i, pkt, e.e.uncongested);
    var cc := P.T.Update(x.c.cc, w.paced.sess[0].cc, m);
    OneReading(w.paced.w.now, e.times[0]);
    OneReading(cc.lastUpdateTsc, e.times[0]);
    OnePacing(Free, e.times[0]);
  }

  /** The server gets the packet and replies, and the client gets the reply. */
  lemma Answer(x: Setup, w: World, i: nat, m: P.T.Sample) returns (evs: seq<Event>, v: World)
    requires Able(x) && Asked(x, w, i) && P.RttOk(x.c, w.paced.sess[0].cc, m)
    ensures P.Passes(x.c, w.paced, H.Answering(m))
    ensures Leads(x, w, evs, v) && Ready(x, v) && v.paced == P.After(x.c, w.paced, H.Answering(m))
  {
    hide Served, OnWire, Quiet, Leads, D.Step, D.Safe, Enabled, Paces, Runs.Reaches, Progress.Answered;
    hide P.T.Update, P.RttOk, P.Passes, P.After, H.Answering;
    var es, t, pkt := ServeOne(x.p, w.sys[0], i);
    ServerLeads(x, w, es, t);
    H.AnswerOne(x.c, w.paced, m);
    var w1 := World(w.sys[0 := t], w.paced);
    TakeEnabled(x, w1, i, pkt, m);
    var e := TakeAt(x, w1, pkt, m);
    LeadsOne(x, w1, e);
    v := Next(x, w1, e);
    LeadsJoin(x, w, AtServer(es), w1, [e], v);
    evs := AtServer(es) + [e];
  }

  // ---------------------------------------------------------------------------
  // Rounds
  // ---------------------------------------------------------------------------

  /** A round of the pacing machine is one request of the datapath. */
  lemma TurnLeads(x: Setup, w: World, r: H.Turn) returns (evs: seq<Event>, v: World)
    requires Able(x) && Ready(x, w) && H.TurnReady(x.c, w.paced, r)
    ensures Fails(x, w, evs) ||
            (Leads(x, w, evs, v) && Ready(x, v)
              && P.Passes(x.c, w.paced, H.TurnEvents(x.c, w.paced, r))
              && v.paced == P.After(x.c, w.paced, H.TurnEvents(x.c, w.paced, r)))
  {
    hide Quiet, Leads, Fails, P.Passes, P.After, P.Fails, H.Sending, H.Answering, H.Vacant, OnWire, H.SentAt;
    var a, w1, i := Ask(x, w, r.ref);
    if Fails(x, w, a) {
      evs, v := a, w;
    } else {
      var sending := H.Sending(x.c, w.paced.sess[0], r.ref);
      H.SendOne(x.c, w.paced, r.ref);
      if P.Fails(x.c, w.paced, sending) {
        P.FailsNotPass(x.c, w.paced, sending);
      }
      var b;
      b, v := Answer(x, w1, i, r.m);
      LeadsJoin(x, w, a, w1, b, v);
      P.PassesJoin(x.c, w.paced, sending, H.Answering(r.m));
      evs := a + b;
    }
  }

  lemma {:induction false} RoundsLead(x: Setup, w: World, rounds: seq<H.Turn>, t: P.Paced)
    returns (evs: seq<Event>, v: World)
    requires Able(x) && Ready(x, w) && H.Leads(x.c, w.paced, rounds, t)
    ensures Fails(x, w, evs) || (Leads(x, w, evs, v) && Ready(x, v) && v.paced == t)
    decreases |rounds|
  {
    hide Ready, Fails, P.Passes, P.After, H.TurnReady, H.TurnEvents;
    if rounds == [] {
      evs, v := [], w;
    } else {
      var a, w1 := TurnLeads(x, w, rounds[0]);
      if Fails(x, w, a) {
        evs, v := a, w;
      } else {
        var b;
        b, v := RoundsLead(x, w1, rounds[1..], t);
        LeadsJoin(x, w, a, w1, b, v);
        evs := a + b;
      }
    }
  }

  lemma {:induction false} RoundsBreak(x: Setup, w: World, rounds: seq<H.Turn>) returns (evs: seq<Event>)
    requires Able(x) && Ready(x, w) && H.Breaks(x.c, w.paced, rounds)
    ensures Fails(x, w, evs)
    decreases |rounds|
  {
    hide Ready, Leads, Fails, P.Passes, P.After, P.Fails, H.TurnReady, H.TurnEvents;
    var es := H.TurnEvents(x.c, w.paced, rounds[0]);
    var a, w1 := TurnLeads(x, w, rounds[0]);
    if Fails(x, w, a) {
      evs := a;
    } else {
      if P.Fails(x.c, w.paced, es) {
        P.FailsNotPass(x.c, w.paced, es);
      }
      var b := RoundsBreak(x, w1, rounds[1..]);
      LeadsJoin(x, w, a, w1, b, w1);
      evs := a + b;
    }
  }

  // ---------------------------------------------------------------------------
  // The burst
  // ---------------------------------------------------------------------------

  /** A request that fills as many packets as there are credits. */
  function FullRequest(p: Wire.Config): Request {
    Request(0, seq(p.credits * p.dataPerPkt, _ => 0), EmptyBuf)
  }

  lemma FullSize(x: Setup, idx: nat)
    requires x.Valid() && idx < x.p.credits
    ensures PktSize(x.p, x.hdr, FullRequest(x.p), idx) == x.c.mtu
  {
    var k := x.p.dataPerPkt;
    MulMono(idx + 1, x.p.credits, k);
    assert (idx + 1) * k == idx * k + k;
  }

  lemma WholePkts(k: pos, c: pos)
    ensures NumPkts(k, c * k) == c
  {
    if c > 1 {
      MulMono(2, c, k);
      var n := DivUp(k, c * k);
      assert (c - 1) * k == c * k - k;
      hide DivUp;
      MulCancel(n - 1, c, k);
      MulCancel(c - 1, n, k);
    }
  }

  lemma FullPkts(p: Wire.Config)
    ensures ReqPkts(p, FullRequest(p)) == p.credits
  {
    WholePkts(p.dataPerPkt, p.credits);
    hide NumPkts;
  }

  lemma {:induction false} FullActs(x: Setup, t: nat, from: nat, n: nat)
    requires x.Valid() && from + n <= x.p.credits
    ensures var acts := ReqActs(x.p, x.hdr, FullRequest(x.p), from, n, false);
      |acts| == n && PacingEvents(0, acts, seq(n, _ => t)) == P.Burst(x.c, t, n)
    decreases n
  {
    if n > 0 {
      FullActs(x, t, from + 1, n - 1);
      FullSize(x, from);
      var acts := ReqActs(x.p, x.hdr, FullRequest(x.p), from, n, false);
      assert acts[1..] == ReqActs(x.p, x.hdr, FullRequest(x.p), from + 1, n - 1, false);
      assert seq(n, _ => t)[1..] == seq(n - 1, _ => t);
      assert P.Burst(x.c, t, n) == [P.Pace(0, t, x.c.mtu)] + P.Burst(x.c, t, n - 1);
    }
  }

  lemma {:induction false} SameReadings(now: nat, t: nat, n: nat)
    requires now <= t
    ensures Readings(now, seq(n, _ => t))
    decreases n
  {
    if n > 0 {
      SameReadings(t, t, n - 1);
      assert seq(n, _ => t)[1..] == seq(n - 1, _ => t);
    }
  }

  function FullIssue(x: Setup, t: nat): Event {
    Handle(0, D.Issue(FullRequest(x.p), false), seq(x.p.credits, _ => t), None)
  }

  /** A quiet congested session can issue the request, and paces all its packets. */
  lemma IssueBursts(x: Setup, w: World, t: nat)
    requires x.Valid() && x.p.credits * x.p.dataPerPkt <= x.p.maxMsgSize
    requires w.sys != [] && Quiet(x.p, w.sys[0]) && w.paced.sess != []
    requires w.paced.w.now <= t && w.paced.sess[0].cc.lastUpdateTsc <= t
    requires !Uncongested(x.c, w.paced.sess[0].cc)
    ensures Enabled(x, w, FullIssue(x, t)) && Paces(x, w, FullIssue(x, t)) == P.Burst(x.c, t, x.c.credits)
  {
    hide Quiet, D.Safe, D.Enabled, Readings;
    var r := FullRequest(x.p);
    FullPkts(x.p);
    MulMono(1, x.p.credits, x.p.dataPerPkt);
    IssueActs(x.p, x.hdr, w.sys[0], r, false);
    FullActs(x, t, 0, x.p.credits);
    SameReadings(w.paced.w.now, t, x.p.credits);
    SameReadings(w.paced.sess[0].cc.lastUpdateTsc, t, x.p.credits);
  }

  /** So it fails when a burst gets too far. */
  lemma FullRequestFails(x: Setup, w: World)
    requires x.Valid() && x.p.credits * x.p.dataPerPkt <= x.p.maxMsgSize
    requires w.sys != [] && Quiet(x.p, w.sys[0])
    requires P.InBurst(x.c, w.paced, w.paced.w.now, 0) && P.TooFar(x.c)
    ensures Fails(x, w, [FullIssue(x, w.paced.w.now)])
  {
    hide Enabled, Paces, P.Passes, P.Fails, Quiet, P.TooFar;
    var t := w.paced.w.now;
    P.BurstFails(x.c, w.paced, t, 0);
    P.FailsNotPass(x.c, w.paced, P.Burst(x.c, t, x.c.credits));
    IssueBursts(x, w, t);
    FailsOne(x, w, FullIssue(x, t));
  }

  // ---------------------------------------------------------------------------
  // The exact conditions
  // ---------------------------------------------------------------------------

  lemma InitReady(x: Setup, sessions: pos)
    requires x.Valid()
    ensures Ready(x, R.Init(x, sessions))
  {
    InitKeeps(x.p);
    H.InitIdle(x.c, sessions);
  }

  /** With a wheel that spans the horizon, and messages that can spend all credits, no run of
      the sessions' datapaths ever fails an assertion of the wheel exactly if uncongested
      sessions bypass the wheel, or the horizon covers a full packet at the least rate for
      each credit. */
  lemma HorizonExactly(x: Setup, sessions: pos)
    requires x.Valid() && x.c.Spans() && x.p.credits * x.p.dataPerPkt <= x.p.maxMsgSize
    ensures (forall evs :: !Fails(x, R.Init(x, sessions), evs)) <==> x.c.wheelBypass || x.c.Covers()
  {
    hide Fails, Quiet;
    if x.c.wheelBypass || x.c.Covers() {
      P.SpanningFits(x.c);
      forall evs: seq<Event>
        ensures !Fails(x, R.Init(x, sessions), evs)
      {
        HorizonHolds(x, sessions, evs);
      }
    } else {
      P.HorizonCovers(x.c);
      P.BurstStarts(x.c, sessions);
      InitReady(x, sessions);
      FullRequestFails(x, R.Init(x, sessions));
    }
  }

  lemma FailingRun(x: Setup, sessions: pos) returns (evs: seq<Event>)
    requires Able(x) && x.c.n > 1 && x.c.width < P.MaxDelta(x.c) && !x.c.NeverPaced() && P.TooFar(x.c)
    ensures Fails(x, R.Init(x, sessions), evs)
  {
    hide Leads, Fails, H.Leads, H.Breaks, P.TooFar, P.InBurst, P.MaxDelta, H.Idle, Quiet;
    var w := R.Init(x, sessions);
    InitReady(x, sessions);
    var rounds, t := H.Poise(x.c, sessions);
    if H.Breaks(x.c, w.paced, rounds) {
      evs := RoundsBreak(x, w, rounds);
    } else {
      var a, v := RoundsLead(x, w, rounds, t);
      if Fails(x, w, a) {
        evs := a;
      } else {
        FullRequestFails(x, v);
        LeadsJoin(x, w, a, v, [FullIssue(x, t.w.now)], v);
        evs := a + [FullIssue(x, t.w.now)];
      }
    }
  }

  /** With any wheel whose slots are shorter than a full packet, and with congestion control,
      no run of the sessions' datapaths ever fails an assertion of the wheel exactly if nothing
      is ever paced, or a session that spends all its credits on full packets at the least
      rate stays within the horizon and ahead of the wheel by less than its slots. */
  lemma KeptExactly(x: Setup, sessions: pos)
    requires Able(x) && x.c.n > 1 && x.c.width < P.MaxDelta(x.c)
    ensures (forall evs :: !Fails(x, R.Init(x, sessions), evs)) <==>
            x.c.NeverPaced() || (x.c.Lead() <= x.c.Horizon() && x.c.Lead() < x.c.n * x.c.width)
  {
    hide P.MaxDelta, Fails;
    if x.c.NeverPaced() || (x.c.Lead() <= x.c.Horizon() && x.c.Lead() < x.c.n * x.c.width) {
      forall evs: seq<Event>
        ensures !Fails(x, R.Init(x, sessions), evs)
      {
        HorizonHolds(x, sessions, evs);
      }
    } else {
      var evs := FailingRun(x, sessions);
    }
  }

  /** So on a clock of 2.1999 GHz, with the program's wheel and packet sizes and a link faster
      than the minimum rate, a session that long round trips slowed down to the minimum rate
      misses the wheel. */
  lemma FractionalClockFails() returns (evs: seq<Event>)
    ensures var x := Setup(Params(8, 32, 1008, 8255456, {}), 16, H.FractionalClock(), true);
      && x.Valid() && H.Built(x.c) && x.c.wheelBypass && x.c.Covers() && !x.c.Spans()
      && Fails(x, R.Init(x, 1), evs)
  {
    H.FractionalClockIsShort();
    evs := FailingRun(Setup(Params(8, 32, 1008, 8255456, {}), 16, H.FractionalClock(), true), 1);
  }
}
