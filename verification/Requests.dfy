/** No request is lost, reordered or made up: over every run, the requests that the user
    enqueued are, in order, the requests issued in order of issue, followed by the backlog. */
module Requests {
  import opened Wire
  import opened ClientSpec
  import opened Protocol
  import opened ProtocolProof
  import opened Runs
  import opened Progress
  import AtomicRpc

  /** The requests that the events enqueue, in order. */
  function Enqueued(evs: seq<Event>): seq<Request> {
    if evs == [] then []
    else (if evs[0].Issue? then [evs[0].req] else []) + Enqueued(evs[1..])
  }

  /** The requests with these numbers. */
  ghost function Numbered(h: Hist, order: seq<nat>): seq<Request>
    requires forall r :: r in order ==> r in h.issued
  {
    seq(|order|, k requires 0 <= k < |order| => h.issued[order[k]])
  }

  /** The history grows by the requests with these numbers. */
  ghost predicate Grows(h: Hist, h': Hist, order: seq<nat>) {
    && (forall r :: r in h'.issued <==> r in h.issued || r in order)
    && (forall r :: r in h.issued ==> h'.issued[r] == h.issued[r])
    && (forall r :: r in order ==> r !in h.issued)
    && NoDup(order)
  }

  /** The events issue the requests with these numbers, in this order and one at a time. */
  ghost predicate Issues(p: Config, s: Sys, evs: seq<Event>, order: seq<nat>)
    decreases |evs|
  {
    if evs == [] then order == []
    else
      && Enabled(p, s, evs[0]) && Safe(p, s, evs[0])
      && var t := Step(p, s, evs[0]);
         || (Grows(s.h, t.h, []) && Issues(p, t, evs[1..], order))
         || (order != [] && Grows(s.h, t.h, [order[0]]) && Issues(p, t, evs[1..], order[1..]))
  }

  /** Issuing a request either gives it a fresh number, leaving the backlog empty, or appends it
      to the backlog and changes nothing else; the former exactly if there is a free slot. */
  lemma IssueRecords(p: Config, s: Sys, req: Request, u: bool)
    requires Inv(p, s) && Safe(p, s, Issue(req, u))
    ensures var t := Step(p, s, Issue(req, u));
      if s.cl.free == [] then t == s.(cl := s.cl.(backlog := s.cl.backlog + [req]))
      else
        && s.cl.backlog == t.cl.backlog == []
        && exists r: nat :: r !in s.h.issued && t.h == s.h.(issued := s.h.issued[r := req])
  {
    hide PairInv, StallInv;
    if s.cl.free != [] {
      assert Last(s.cl.free) in s.cl.free;
      AtomicRpc.NextIsFresh(p, s, Last(s.cl.free));
      var r := s.cl.slots[Last(s.cl.free)].curReq + p.window;
      assert Step(p, s, Issue(req, u)).h == s.h.(issued := s.h.issued[r := req]);
    } else {
      assert s.up + ToSet([]) == s.up;
    }
  }

  /** Every event takes the requests it issues from the head of the backlog, after appending
      the one that it enqueues. */
  lemma StepRecords(p: Config, s: Sys, e: Event) returns (order: seq<nat>)
    requires Inv(p, s) && Enabled(p, s, e) && Safe(p, s, e)
    ensures |order| <= 1 && Grows(s.h, Step(p, s, e).h, order)
    ensures s.cl.backlog + Enqueued([e]) == Numbered(Step(p, s, e).h, order) + Step(p, s, e).cl.backlog
  {
    hide Inv, Safe, Enabled, Step;
    var t := Step(p, s, e);
    assert [e][1..] == [];
    if e.Issue? {
      IssueRecords(p, s, e.req, e.uncongested);
      if s.cl.free == [] {
        order := [];
        assert Numbered(t.h, []) + t.cl.backlog == s.cl.backlog + [e.req];
      } else {
        var r: nat :| r !in s.h.issued && t.h == s.h.(issued := s.h.issued[r := e.req]);
        order := [r];
      }
    } else {
      var issued := StepMoves(p, s, e);
      order := if issued.None? then [] else [issued.value.0];
      assert Numbered(t.h, order) + t.cl.backlog == s.cl.backlog;
    }
  }

  lemma GrowsJoin(h0: Hist, h1: Hist, h2: Hist, a: seq<nat>, b: seq<nat>)
    requires Grows(h0, h1, a) && Grows(h1, h2, b)
    ensures Grows(h0, h2, a + b) && Numbered(h2, a + b) == Numbered(h1, a) + Numbered(h2, b)
  {
    forall k, l | 0 <= k < l < |a + b|
      ensures (a + b)[k] != (a + b)[l]
    {
      if k < |a| && l >= |a| {
        assert a[k] in a && b[l - |a|] in b;
      }
    }
  }

  /** Over every run the requests enqueued are those issued, in order of issue, and then the
      backlog. */
  lemma {:induction false} RunRecords(p: Config, s: Sys, evs: seq<Event>, t: Sys) returns (order: seq<nat>)
    requires Inv(p, s) && Reaches(p, s, evs, t)
    ensures Issues(p, s, evs, order) && Grows(s.h, t.h, order)
    ensures s.cl.backlog + Enqueued(evs) == Numbered(t.h, order) + t.cl.backlog
    decreases |evs|
  {
    hide Inv, Safe, Enabled, Step, Grows;
    if evs == [] {
      order := [];
      GrowsNot(s.h);
    } else {
      var m := Step(p, s, evs[0]);
      StepKeeps(p, s, evs[0]);
      var a := StepRecords(p, s, evs[0]);
      var b := RunRecords(p, m, evs[1..], t);
      GrowsJoin(s.h, m.h, t.h, a, b);
      order := a + b;
      EnqueuedFirst(evs);
      if a == [] {
        assert order == b;
      } else {
        assert a == [order[0]] && order[1..] == b;
      }
      GrowsHas(s.h, m.h, a);
      calc {
        s.cl.backlog + Enqueued(evs);
        (s.cl.backlog + Enqueued([evs[0]])) + Enqueued(evs[1..]);
        Numbered(m.h, a) + (m.cl.backlog + Enqueued(evs[1..]));
        Numbered(t.h, order) + t.cl.backlog;
      }
    }
  }

  lemma GrowsNot(h: Hist)
    ensures Grows(h, h, [])
  {
  }

  lemma GrowsHas(h: Hist, h': Hist, order: seq<nat>)
    requires Grows(h, h', order)
    ensures forall r :: r in order ==> r in h'.issued
  {
  }

  lemma EnqueuedFirst(evs: seq<Event>)
    requires evs != []
    ensures Enqueued(evs) == Enqueued([evs[0]]) + Enqueued(evs[1..])
  {
    assert [evs[0]][1..] == [];
  }

  /** So from the start of a session every request that the user enqueues is issued once or in
      the backlog, and nothing else is issued. */
  lemma AllRecorded(p: Config, evs: seq<Event>, t: Sys) returns (order: seq<nat>)
    requires Reaches(p, Init(p), evs, t)
    ensures Issues(p, Init(p), evs, order) && Grows(Init(p).h, t.h, order)
    ensures forall r :: r in t.h.issued <==> r in order
    ensures Enqueued(evs) == Numbered(t.h, order) + t.cl.backlog
  {
    InitKeeps(p);
    order := RunRecords(p, Init(p), evs, t);
    assert [] + Enqueued(evs) == Enqueued(evs);
  }

  // ---------------------------------------------------------------------------
  // Completion
  // ---------------------------------------------------------------------------

  lemma {:induction false} NoneEnqueued(evs: seq<Event>)
    requires NoIssue(evs)
    ensures Enqueued(evs) == []
  {
    if evs != [] {
      assert evs[0] in evs;
      assert forall e :: e in evs[1..] ==> e in evs;
      NoneEnqueued(evs[1..]);
    }
  }

  /** The request with number `r` has been handled once and completed once, with the reply that
      was given or that its handler gives. */
  ghost predicate CompletedOnce(rep: Handlers, h: Hist, t: Hist, r: nat) {
    && r in t.issued && t.ran[r] == 1 && t.done[r] == 1 && r in t.outcome
    && t.outcome[r] == if r in h.replies then h.replies[r] else rep(Call(t, r))
  }

  /** From every state that a run reaches, even when all packets in flight are lost first, some
      finite schedule without new requests completes every request that the run's user
      enqueued, each exactly once, under a number of its own. */
  lemma EveryEnqueuedCompletes(p: Config, rep: Handlers, past: seq<Event>, s: Sys, u: Congestion)
    returns (evs: seq<Event>, t: Sys, order: seq<nat>)
    requires Reaches(p, Init(p), past, s) && Ready(p, rep, s)
    ensures Reaches(p, Lost(s), evs, t) && NoIssue(evs) && Under(u, [], evs)
    ensures NoDup(order) && |order| == |Enqueued(past)|
    ensures forall k :: 0 <= k < |order| ==>
              CompletedOnce(rep, s.h, t.h, order[k]) && t.h.issued[order[k]] == Enqueued(past)[k]
  {
    hide Reaches, Ready, Under, Inv, CompletedOnce, Numbered, Grows, Init, Issues;
    var a := AllRecorded(p, past, s);
    ReachableInv(p, s);
    var b;
    evs, t, b := LostRecords(p, rep, s, u);
    order := a + b;
    GrowsJoin(Init(p).h, s.h, t.h, a, b);
    EachCompleted(rep, s.h, t, order, Init(p).h);
    assert Enqueued(past) == Numbered(t.h, order);
  }

  lemma LostRecords(p: Config, rep: Handlers, s: Sys, u: Congestion)
    returns (evs: seq<Event>, t: Sys, order: seq<nat>)
    requires Reachable(p, s) && Ready(p, rep, s)
    ensures Reaches(p, Lost(s), evs, t) && NoIssue(evs) && Under(u, [], evs)
    ensures forall r :: r in t.h.issued ==> CompletedOnce(rep, s.h, t.h, r)
    ensures Grows(s.h, t.h, order) && s.cl.backlog == Numbered(t.h, order)
  {
    hide Reaches, Ready, Under, Inv, Grows, Numbered, Issues;
    evs, t := EveryRequestCompletes(p, rep, s, u);
    ReachableInv(p, s);
    LostKeeps(p, s);
    order := RunRecords(p, Lost(s), evs, t);
    NoneEnqueued(evs);
    assert s.cl.backlog + [] == s.cl.backlog;
  }

  lemma EachCompleted(rep: Handlers, h: Hist, t: Sys, order: seq<nat>, h0: Hist)
    requires Grows(h0, t.h, order) && forall r :: r in t.h.issued ==> CompletedOnce(rep, h, t.h, r)
    ensures |Numbered(t.h, order)| == |order| && NoDup(order)
    ensures forall k :: 0 <= k < |order| ==>
              CompletedOnce(rep, h, t.h, order[k]) && t.h.issued[order[k]] == Numbered(t.h, order)[k]
  {
    hide CompletedOnce;
    assert forall k :: 0 <= k < |order| ==> order[k] in order;
  }
}
