/** The datapath of a session over the session's life: requests only while it is connected, and
    its end only when all its slots are free. So the assertions that ending a session makes
    about its slots hold in every run of many Rpcs and sessions. */
module SessionLife {
  import opened Wire
  import H = Handshake
  import HP = HandshakeProof
  import HR = HandshakeRuns
  import HL = HandshakeLive
  import D = Protocol
  import DP = ProtocolProof
  import Runs
  import ListFacts
  import ClientSpec

  /** The datapath of every session, and the limits of session management. */
  datatype Setup = Setup(d: Wire.Config, m: H.Limits)

  /** Session management, and the datapath of each session by its token: the two ends of a
      session have the same one. */
  datatype World = World(sm: H.Sys, data: map<nat, D.Sys>)

  datatype Event =
    | Manage(m: H.Event)
    | Data(token: nat, e: D.Event)

  function Init(x: Setup, rpcs: nat): World {
    World(H.InitSys(x.m, rpcs), map[])
  }

  ghost predicate ClientAt(s: H.Sys, i: nat, k: nat) {
    HP.LiveAt(s, i, k) && HP.At(s, i, k).role.Client?
  }

  /** The client session that was created with token `t` is connected. */
  ghost predicate Connected(s: H.Sys, t: nat)
    requires t in s.h.born
  {
    var c := s.h.born[t].client;
    c.num.Some? && HP.LiveAt(s, c.rpc, c.num.value) && HP.At(s, c.rpc, c.num.value).state.Connected?
  }

  /** The server session that was created with token `t` exists. */
  ghost predicate Serving(s: H.Sys, t: nat)
    requires t in s.h.born
  {
    var r := s.h.born[t].remote;
    r < |s.nodes| && t in s.nodes[r].tokens && HP.LiveAt(s, r, s.nodes[r].tokens[t])
  }

  /** All slots of the datapath's client are free. */
  predicate AllFree(x: Setup, d: D.Sys) {
    |d.cl.free| == x.d.window
  }

  /** A user destroys a session whatever its slots, which then decide. A session issues requests
      and takes packets only while it is connected, and its server only while it exists; stall
      queue, wheel and loss scan know no session states. */
  ghost predicate Enabled(x: Setup, w: World, e: Event) {
    match e
    case Manage(e) =>
      && H.Enabled(w.sm, e)
      && (e.Destroy? && ClientAt(w.sm, e.i, e.k) && HP.At(w.sm, e.i, e.k).token in w.data ==>
            (e.slotsFree <==> AllFree(x, w.data[HP.At(w.sm, e.i, e.k).token])))
    case Data(t, e) =>
      && t in w.data && t in w.sm.h.born
      && D.Enabled(x.d, w.data[t], e) && D.Provided(x.d, w.data[t], e)
      && (e.Issue? || e.ToClient? ==> Connected(w.sm, t))
      && (e.ToServer? || e.Reply? ==> Serving(w.sm, t))
  }

  /** No assertion on the event's path fails: also those about slots, at the client when a
      session is destroyed and at the server when it is disconnected. */
  ghost predicate Safe(x: Setup, w: World, e: Event) {
    match e
    case Manage(e) =>
      && H.Safe(x.m, w.sm, e)
      && (e.Destroy? && e.slotsFree && ClientAt(w.sm, e.i, e.k) ==>
            && HP.At(w.sm, e.i, e.k).token in w.data
            && forall c :: c in w.data[HP.At(w.sm, e.i, e.k).token].cl.slots ==> c.tx.None?)
      && (e.Deliver? && e.pkt.kind.DisconnectReq? && e.pkt.server.num.Some?
          && HP.LiveAt(w.sm, e.pkt.server.rpc, e.pkt.server.num.value) ==>
            var t := HP.At(w.sm, e.pkt.server.rpc, e.pkt.server.num.value).token;
            t in w.data && forall s :: s in w.data[t].srv ==> Runs.AllSent(x.d, s))
    case Data(t, e) => t in w.data && D.Safe(x.d, w.data[t], e)
  }

  ghost function Step(x: Setup, w: World, e: Event): World
    requires Enabled(x, w, e) && Safe(x, w, e)
  {
    match e
    case Manage(e) =>
      var sm := H.Step(x.m, w.sm, e);
      World(sm, map t | t in sm.h.born :: if t in w.data then w.data[t] else D.Init(x.d))
    case Data(t, e) => w.(data := w.data[t := D.Step(x.d, w.data[t], e)])
  }

  /** The datapath's client has nothing to do unless its session is connected. */
  ghost predicate DataOk(x: Setup, w: World, t: nat)
    requires t in w.data && t in w.sm.h.born
  {
    D.Inv(x.d, w.data[t]) && (Connected(w.sm, t) || w.data[t].cl.active == [])
  }

  ghost predicate Inv(x: Setup, w: World) {
    && HP.Inv(x.m, w.sm)
    && (forall t :: t in w.data <==> t in w.sm.h.born)
    && (forall t {:trigger DataOk(x, w, t)} :: t in w.data ==> DataOk(x, w, t))
  }

  // ---------------------------------------------------------------------------
  // Slots
  // ---------------------------------------------------------------------------

  lemma FreeIdle(x: Setup, d: D.Sys)
    requires D.Inv(x.d, d)
    ensures AllFree(x, d) <==> d.cl.active == []
    ensures AllFree(x, d) ==> forall c :: c in d.cl.slots ==> c.tx.None?
    ensures AllFree(x, d) ==> forall s :: s in d.srv ==> Runs.AllSent(x.d, s)
  {
    hide Runs.AllSent;
    if AllFree(x, d) {
      forall i: nat | i < x.d.window
        ensures i < |d.srv| && Runs.AllSent(x.d, d.srv[i]) && d.cl.slots[i].tx.None?
      {
        Runs.FreeMeansSent(x.d, d, i);
      }
      Head(d.cl.active);
    } else if d.cl.active == [] {
      AllPresentFree(x, d);
    }
  }

  /** With no slot active, all are free. */
  lemma AllPresentFree(x: Setup, d: D.Sys)
    requires D.Inv(x.d, d) && d.cl.active == []
    ensures |d.cl.free| == x.d.window
  {
    hide D.PairInv, D.StallInv;
    forall i: nat | i < x.d.window
      ensures i in d.cl.free
    {
      assert d.cl.slots[i].tx.Some? ==> i in d.cl.active;
    }
    ListFacts.NoDupSize(d.cl.free);
    ListFacts.SubsetSize(ListFacts.Range(x.d.window), ListFacts.Elems(d.cl.free));
    ListFacts.NoDupBound(d.cl.free, x.d.window);
  }

  /** A datapath whose client has nothing to do stays so in every event that may happen then. */
  lemma IdleStays(x: Setup, d: D.Sys, e: D.Event)
    requires D.Inv(x.d, d) && d.cl.active == [] && D.Enabled(x.d, d, e) && D.Safe(x.d, d, e)
    requires !e.Issue? && !e.ToClient?
    ensures D.Step(x.d, d, e).cl.active == []
  {
    hide D.Inv;
    NoneInWheel(x, d);
    NoneStalled(x, d);
  }

  lemma Head(s: seq<nat>)
    ensures s == [] || s[0] in s
  {
  }

  lemma NoneInWheel(x: Setup, d: D.Sys)
    requires D.Inv(x.d, d) && d.cl.active == []
    ensures |d.cl.slots| == x.d.window && forall i :: 0 <= i < x.d.window ==> d.cl.slots[i].wheel == multiset{}
  {
    hide D.StallInv;
    forall i: nat | i < x.d.window
      ensures d.cl.slots[i].wheel == multiset{}
    {
      DP.SlotFacts(x.d, d, i);
      var c := d.cl.slots[i];
      assert c.tx.None? && c.numTx == c.numRx;
      assert forall n :: n in c.wheel ==> c.numRx <= n < c.numTx;
    }
  }

  lemma NoneStalled(x: Setup, d: D.Sys)
    requires D.Inv(x.d, d) && d.cl.active == []
    ensures d.cl.stallq == []
  {
    hide D.PairInv;
    Head(d.cl.stallq);
  }

  // ---------------------------------------------------------------------------
  // Every event
  // ---------------------------------------------------------------------------

  /** Only creating a client session adds a token. */
  lemma DeliverBorn(m: H.Limits, s: H.Sys, pkt: H.SmPkt, env: H.Env, retry: bool)
    requires H.Target(pkt) < |s.nodes| && H.HandleOk(m, s.nodes[H.Target(pkt)], pkt)
    ensures var i := H.Target(pkt);
      H.Appended(s, i, H.Handle(m, s.nodes[i], i, pkt, env, retry)).born == s.h.born
  {
  }

  /** Tokens are never forgotten, and a new one belongs to a session that is connecting. */
  lemma BornStays(m: H.Limits, s: H.Sys, e: H.Event, t: nat)
    requires HP.Inv(m, s) && H.Enabled(s, e) && H.Safe(m, s, e)
    ensures t in s.h.born ==> t in H.Step(m, s, e).h.born && H.Step(m, s, e).h.born[t] == s.h.born[t]
    ensures t !in s.h.born && t in H.Step(m, s, e).h.born ==> !Connected(H.Step(m, s, e), t)
  {
    hide HP.Inv, H.Handle, H.HandleOk;
    if e.Deliver? {
      DeliverBorn(m, s, e.pkt, e.env, e.retry);
    }
  }

  /** A session that is no longer connected was destroyed with all its slots free. */
  lemma StaysConnected(x: Setup, w: World, e: H.Event, t: nat)
    requires Inv(x, w) && Enabled(x, w, Manage(e)) && H.Safe(x.m, w.sm, e)
    requires t in w.sm.h.born && Connected(w.sm, t)
    requires !(t in H.Step(x.m, w.sm, e).h.born && Connected(H.Step(x.m, w.sm, e), t))
    ensures t in w.data && w.data[t].cl.active == []
  {
    hide HP.Inv, H.Step, H.Safe, H.Enabled;
    BornStays(x.m, w.sm, e, t);
    var c := w.sm.h.born[t].client;
    var i, k := c.rpc, c.num.value;
    ClientOfToken(x.m, w.sm, t);
    HL.LeavesConnected(x.m, w.sm, e, i, k);
    assert DataOk(x, w, t);
    FreeIdle(x, w.data[t]);
  }

  lemma ClientOfToken(m: H.Limits, s: H.Sys, t: nat)
    requires HP.Inv(m, s) && t in s.h.born
    ensures var c := s.h.born[t].client;
      && c.num.Some?
      && (HP.LiveAt(s, c.rpc, c.num.value) ==>
            HP.At(s, c.rpc, c.num.value).role.Client? && HP.At(s, c.rpc, c.num.value).token == t)
  {
    assert HP.BornOk(s, t);
    var c := s.h.born[t].client;
    assert HP.SessOk(s, c.rpc, c.num.value) && HP.TokenOk(s, c.rpc, t);
  }

  lemma ManageKeeps(x: Setup, w: World, e: H.Event)
    requires Inv(x, w) && Enabled(x, w, Manage(e)) && Safe(x, w, Manage(e))
    ensures Inv(x, Step(x, w, Manage(e)))
  {
    hide HP.Inv, H.Step, H.Safe, H.Enabled, D.Inv;
    HR.StepKeeps(x.m, w.sm, e);
    var v := Step(x, w, Manage(e));
    forall t | t in w.data
      ensures t in v.sm.h.born
    {
      BornStays(x.m, w.sm, e, t);
    }
    forall t | t in v.data
      ensures DataOk(x, v, t)
    {
      BornStays(x.m, w.sm, e, t);
      if t in w.data {
        assert DataOk(x, w, t);
        if Connected(w.sm, t) && !Connected(v.sm, t) {
          StaysConnected(x, w, e, t);
        } else if !Connected(w.sm, t) {
          assert w.data[t].cl.active == [];
        }
      } else {
        InitIdle(x);
      }
    }
  }

  lemma InitIdle(x: Setup)
    ensures D.Inv(x.d, D.Init(x.d)) && D.Init(x.d).cl.active == []
  {
    DP.InitKeeps(x.d);
    hide D.Inv;
  }

  lemma DataKeeps(x: Setup, w: World, t: nat, e: D.Event)
    requires Inv(x, w) && Enabled(x, w, Data(t, e))
    ensures Safe(x, w, Data(t, e)) && Inv(x, Step(x, w, Data(t, e)))
  {
    hide HP.Inv, D.Inv, D.Step, D.Safe, D.Enabled, D.Provided;
    assert DataOk(x, w, t);
    DP.StepKeeps(x.d, w.data[t], e);
    var v := Step(x, w, Data(t, e));
    forall u | u in v.data
      ensures DataOk(x, v, u)
    {
      assert DataOk(x, w, u);
      if u == t && !Connected(w.sm, t) {
        IdleStays(x, w.data[t], e);
      }
    }
  }

  /** When a server session is to end, its client is leaving, so all its slots are settled. */
  lemma EndIsSafe(x: Setup, w: World, pkt: H.SmPkt)
    requires Inv(x, w) && pkt in w.sm.net && pkt.kind.DisconnectReq? && pkt.server.num.Some?
    requires HP.LiveAt(w.sm, pkt.server.rpc, pkt.server.num.value)
    ensures var t := HP.At(w.sm, pkt.server.rpc, pkt.server.num.value).token;
      t in w.data && forall s :: s in w.data[t].srv ==> Runs.AllSent(x.d, s)
  {
    assert HP.PktOk(w.sm, pkt);
    HR.DisconnectFacts(w.sm, pkt);
    var t := pkt.token;
    assert DataOk(x, w, t);
    assert !Connected(w.sm, t);
    hide HP.Inv;
    FreeIdle(x, w.data[t]);
  }

  /** When a session may be destroyed, all its slots are empty. */
  lemma DestroyIsSafe(x: Setup, w: World, e: H.Event)
    requires Inv(x, w) && Enabled(x, w, Manage(e)) && e.Destroy? && e.slotsFree && ClientAt(w.sm, e.i, e.k)
    ensures var t := HP.At(w.sm, e.i, e.k).token;
      t in w.data && forall c :: c in w.data[t].cl.slots ==> c.tx.None?
  {
    assert HP.SessOk(w.sm, e.i, e.k);
    var t := HP.At(w.sm, e.i, e.k).token;
    assert DataOk(x, w, t);
    hide HP.Inv;
    FreeIdle(x, w.data[t]);
  }

  /** No assertion fails in any event, and every event keeps the invariant. */
  lemma StepKeeps(x: Setup, w: World, e: Event)
    requires Inv(x, w) && Enabled(x, w, e)
    ensures Safe(x, w, e) && Inv(x, Step(x, w, e))
  {
    hide Inv, H.Safe, H.Enabled, HP.Inv;
    match e
    case Data(t, d) => DataKeeps(x, w, t, d);
    case Manage(m) =>
      ManageSafe(x, w, m);
      ManageKeeps(x, w, m);
  }

  lemma ManageSafe(x: Setup, w: World, e: H.Event)
    requires Inv(x, w) && Enabled(x, w, Manage(e))
    ensures Safe(x, w, Manage(e))
  {
    hide H.Safe, HP.Inv;
    HR.StepKeeps(x.m, w.sm, e);
    if e.Destroy? && e.slotsFree && ClientAt(w.sm, e.i, e.k) {
      DestroyIsSafe(x, w, e);
    } else if e.Deliver? && e.pkt.kind.DisconnectReq? && e.pkt.server.num.Some? {
      if HP.LiveAt(w.sm, e.pkt.server.rpc, e.pkt.server.num.value) {
        EndIsSafe(x, w, e.pkt);
      }
    }
  }

  // ---------------------------------------------------------------------------
  // Runs
  // ---------------------------------------------------------------------------

  ghost predicate Fails(x: Setup, w: World, es: seq<Event>)
    decreases |es|
  {
    es != [] && Enabled(x, w, es[0]) && (!Safe(x, w, es[0]) || Fails(x, Step(x, w, es[0]), es[1..]))
  }

  lemma {:induction false} NeverFails(x: Setup, w: World, es: seq<Event>)
    requires Inv(x, w)
    ensures !Fails(x, w, es)
    decreases |es|
  {
    hide Inv, Safe, Enabled, Step;
    if es != [] && Enabled(x, w, es[0]) {
      StepKeeps(x, w, es[0]);
      NeverFails(x, Step(x, w, es[0]), es[1..]);
    }
  }

  /** In every run of any number of Rpcs, sessions and requests no assertion fails, neither in
      the datapath nor in session management, and in particular none about the slots of a
      session that is destroyed or disconnected. */
  lemma NoRunFails(x: Setup, rpcs: nat, es: seq<Event>)
    ensures !Fails(x, Init(x, rpcs), es)
  {
    HR.InitKeeps(x.m, rpcs);
    NeverFails(x, Init(x, rpcs), es);
  }
}
