/** The session refines atomic remote procedure calls: seen through its history, a run is a
    sequence of steps that issue a fresh request, run its handler on exactly its message,
    accept the handler's reply, and complete the request with exactly that reply. */
module AtomicRpc {
  import opened Wire
  import opened ClientSpec
  import opened Protocol
  import opened ProtocolProof
  import opened Runs
  import opened ClientProof
  import S = ServerSpec

  ghost predicate IssueStep(h: Hist, h': Hist, r: nat) {
    && r !in h.issued && r in h'.issued
    && h' == h.(issued := h.issued[r := h'.issued[r]])
  }

  ghost predicate ExecuteStep(h: Hist, h': Hist, r: nat) {
    && r in h.issued && h.ran[r] == 0
    && h' == h.(ran := h.ran + multiset{r},
                seen := h.seen[r := S.Exec(r, h.issued[r].reqType, h.issued[r].data)])
  }

  ghost predicate ReplyStep(h: Hist, h': Hist, r: nat) {
    && h.ran[r] == 1 && r !in h.replies && r in h'.replies
    && h' == h.(replies := h.replies[r := h'.replies[r]])
  }

  ghost predicate CompleteStep(h: Hist, h': Hist, r: nat) {
    && h.ran[r] == 1 && r in h.replies && h.done[r] == 0
    && h' == h.(done := h.done + multiset{r}, outcome := h.outcome[r := h.replies[r]])
  }

  ghost predicate AtomicStep(h: Hist, h': Hist) {
    exists r :: IssueStep(h, h', r) || ExecuteStep(h, h', r) || ReplyStep(h, h', r) || CompleteStep(h, h', r)
  }

  ghost predicate AtomicPath(hs: seq<Hist>) {
    && hs != []
    && forall k :: 0 <= k < |hs| - 1 ==> AtomicStep(hs[k], hs[k + 1])
  }

  /** A fresh slot's next request number has not been issued. */
  lemma NextIsFresh(p: Config, s: Sys, i: nat)
    requires Inv(p, s) && i < p.window
    ensures s.cl.slots[i].curReq + p.window !in s.h.issued
  {
    SlotFacts(p, s, i);
    SlotStride(p, s.cl.slots[i].curReq);
    HistOf(p, s, s.cl.slots[i].curReq + p.window);
  }

  /** What enqueueing a request records. */
  lemma EnqueueRecords(p: Config, cl: Client, r: Request, u: bool)
    requires EnqueueOk(p, cl, r)
    ensures var out := EnqueueRequest(p, cl, r, u);
            && out.done.None?
            && (out.issued.Some? ==> cl.free != [] && out.issued.value.0 == cl.slots[Last(cl.free)].curReq + p.window)
  {
  }

  lemma CompleteRecords(p: Config, cl: Client, i: nat, u: bool)
    requires CompleteOk(p, cl, i)
    ensures var out := Complete(p, cl, i, u);
            && out.done == Some(Completion(cl.slots[i].curReq, cl.slots[i].resp.Contents()))
            && (out.issued.Some? ==> Last(cl.free + [i]) == i && out.issued.value.0 == cl.slots[i].curReq + p.window)
  {
    if cl.backlog != [] {
      EnqueueRecords(p, Released(cl, i), cl.backlog[0], u);
    }
  }

  lemma RespRecords(p: Config, cl: Client, i: nat, pkt: Pkt, u: bool)
    requires RespOk(p, cl, i, pkt)
    ensures var out := ProcessResp(p, cl, i, pkt, u);
            && (out.done.Some? ==> out.done.value.reqNum == cl.slots[i].curReq)
            && (out.issued.Some? ==> out.done.Some? && out.issued.value.0 == cl.slots[i].curReq + p.window)
  {
    if InOrderClient(p, cl.slots[i], pkt) {
      if pkt.msgSize <= p.dataPerPkt {
        CompleteRecords(p, AcceptedSmall(p, cl, i, pkt), i, u);
      } else {
        var cl1 := Accepted(cl, i);
        var g := Pull(p, cl1.credits, Sized(p, cl1.slots[i], pkt), pkt);
        assert g.slot.curReq == cl.slots[i].curReq;
        if g.slot.numRx == SlotWirePkts(p, g.slot) {
          CompleteRecords(p, WithKick(cl1, i, g), i, u);
        }
      }
    }
  }

  /** A request issued at slot `i` is an atomic step, also just after a completion. */
  lemma IssuePath(p: Config, s: Sys, i: nat, h: Hist, issued: Option<(nat, Request)>) returns (hs: seq<Hist>)
    requires Inv(p, s) && i < p.window && h.issued == s.h.issued
    requires issued.Some? ==> issued.value.0 == s.cl.slots[i].curReq + p.window
    ensures AtomicPath(hs) && hs[0] == h && hs[|hs| - 1] == Issued(h, issued)
  {
    if issued.None? {
      hs := [h];
    } else {
      NextIsFresh(p, s, i);
      hs := [h, Issued(h, issued)];
      assert IssueStep(hs[0], hs[1], issued.value.0);
    }
  }

  /** A recorded completion is an atomic step if the next state is in the invariant. */
  lemma FinishPath(
    p: Config, s: Sys, t: Sys, done: Option<Completion>, issued: Option<(nat, Request)>) returns (hs: seq<Hist>)
    requires Inv(p, s) && Inv(p, t) && t.h == Issued(Finished(s.h, done), issued)
    ensures AtomicPath(hs) && hs[0] == s.h && hs[|hs| - 1] == Finished(s.h, done)
  {
    if done.None? {
      hs := [s.h];
    } else {
      var r := done.value.reqNum;
      SlotFacts(p, s, SlotOf(p, r));
      HistOf(p, s, r);
      HistOf(p, t, r);
      hs := [s.h, Finished(s.h, done)];
      assert t.h.done[r] == s.h.done[r] + 1;
      assert CompleteStep(hs[0], hs[1], r);
    }
  }

  lemma Join(a: seq<Hist>, b: seq<Hist>)
    requires AtomicPath(a) && AtomicPath(b) && a[|a| - 1] == b[0]
    ensures AtomicPath(a + b[1..]) && (a + b[1..])[0] == a[0]
    ensures (a + b[1..])[|a + b[1..]| - 1] == b[|b| - 1]
  {
    var c := a + b[1..];
    forall k | 0 <= k < |c| - 1
      ensures AtomicStep(c[k], c[k + 1])
    {
      if k < |a| - 1 {
        assert AtomicStep(a[k], a[k + 1]);
      } else {
        assert AtomicStep(b[k - |a| + 1], b[k - |a| + 2]);
      }
    }
  }

  /** Every client event is atomic in the history. */
  lemma ClientPath(p: Config, s: Sys, t: Sys, i: nat, out: ClientOut) returns (hs: seq<Hist>)
    requires Inv(p, s) && Inv(p, t) && t == ClientDid(s, out) && i < p.window
    requires out.issued.Some? ==> out.issued.value.0 == s.cl.slots[i].curReq + p.window
    ensures AtomicPath(hs) && hs[0] == s.h && hs[|hs| - 1] == t.h
  {
    var a := FinishPath(p, s, t, out.done, out.issued);
    var b := IssuePath(p, s, i, Finished(s.h, out.done), out.issued);
    Join(a, b);
    hs := a + b[1..];
  }

  /** A handler invocation is atomic: it has not run before and sees its whole message. */
  lemma StartPath(p: Config, s: Sys, t: Sys, started: Option<S.Exec>) returns (hs: seq<Hist>)
    requires Inv(p, s) && Inv(p, t) && t.h == Started(s.h, started)
    ensures AtomicPath(hs) && hs[0] == s.h && hs[|hs| - 1] == t.h
  {
    if started.None? {
      hs := [s.h];
    } else {
      var r := started.value.reqNum;
      HistOf(p, s, r);
      HistOf(p, t, r);
      hs := [s.h, t.h];
      assert t.h.ran[r] == s.h.ran[r] + 1;
      assert ExecuteStep(hs[0], hs[1], r);
    }
  }

  lemma ReplyPath(p: Config, s: Sys, i: nat, data: seq<byte>) returns (hs: seq<Hist>)
    requires Inv(p, s) && Enabled(p, s, Reply(i, data)) && Safe(p, s, Reply(i, data))
    ensures AtomicPath(hs) && hs[0] == s.h && hs[|hs| - 1] == Step(p, s, Reply(i, data)).h
  {
    SlotFacts(p, s, i);
    var r := s.srv[i].curReq;
    HistOf(p, s, r);
    hs := [s.h, Step(p, s, Reply(i, data)).h];
    assert ReplyStep(hs[0], hs[1], r);
  }

  lemma IssueEventPath(p: Config, s: Sys, r: Request, u: bool) returns (hs: seq<Hist>)
    requires Inv(p, s) && Keeps(p, s, Issue(r, u))
    ensures AtomicPath(hs) && hs[0] == s.h && hs[|hs| - 1] == Step(p, s, Issue(r, u)).h
  {
    hide PairInv, StallInv, AtomicStep;
    EnqueueRecords(p, s.cl, r, u);
    if s.cl.free == [] {
      hs := [s.h];
    } else {
      assert Last(s.cl.free) in s.cl.free;
      hs := ClientPath(p, s, Step(p, s, Issue(r, u)), Last(s.cl.free), EnqueueRequest(p, s.cl, r, u));
    }
  }

  lemma ToServerPath(p: Config, s: Sys, pkt: Pkt, mem: Option<seq<byte>>) returns (hs: seq<Hist>)
    requires Inv(p, s) && Keeps(p, s, ToServer(pkt, mem))
    ensures AtomicPath(hs) && hs[0] == s.h && hs[|hs| - 1] == Step(p, s, ToServer(pkt, mem)).h
  {
    hide BaseInv, AtomicPath;
    var i := SlotOf(p, pkt.reqNum);
    hs := StartPath(p, s, Step(p, s, ToServer(pkt, mem)),
                    (if pkt.kind == Req then S.ProcessReq(p, s.srv[i], pkt, mem)
                     else S.ProcessRfr(p, s.srv[i], pkt)).started);
  }

  lemma ToClientPath(p: Config, s: Sys, pkt: Pkt, u: bool) returns (hs: seq<Hist>)
    requires Inv(p, s) && Keeps(p, s, ToClient(pkt, u))
    ensures AtomicPath(hs) && hs[0] == s.h && hs[|hs| - 1] == Step(p, s, ToClient(pkt, u)).h
  {
    hide BaseInv, AtomicStep, ProcessResp, RespOk;
    var i := SlotOf(p, pkt.reqNum);
    if pkt.kind == Resp {
      RespRecords(p, s.cl, i, pkt, u);
      hs := ClientPath(p, s, Step(p, s, ToClient(pkt, u)), i, ProcessResp(p, s.cl, i, pkt, u));
    } else {
      hs := [s.h];
    }
  }

  /** Every event of the session is a sequence of atomic RPC steps on the history. */
  lemma StepRefines(p: Config, s: Sys, e: Event) returns (hs: seq<Hist>)
    requires Inv(p, s) && Enabled(p, s, e) && Safe(p, s, e)
    ensures AtomicPath(hs) && hs[0] == s.h && hs[|hs| - 1] == Step(p, s, e).h
  {
    hide BaseInv, AtomicStep, Enabled;
    StepKeeps(p, s, e);
    match e
    case Issue(r, u) => hs := IssueEventPath(p, s, r, u);
    case ToServer(pkt, mem) => hs := ToServerPath(p, s, pkt, mem);
    case ToClient(pkt, u) => hs := ToClientPath(p, s, pkt, u);
    case Reply(i, data) => hs := ReplyPath(p, s, i, data);
    case ServeStalled(u) => hs := [s.h];
    case FromWheel(i, n) => hs := [s.h];
    case Scan(expired, u) => hs := [s.h];
  }

  /** Every run of the session is a run of atomic RPCs. */
  lemma {:induction false} RunRefines(p: Config, s: Sys, evs: seq<Event>, t: Sys) returns (hs: seq<Hist>)
    requires Inv(p, s) && Reaches(p, s, evs, t)
    ensures AtomicPath(hs) && hs[0] == s.h && hs[|hs| - 1] == t.h
    decreases |evs|
  {
    hide Step, Safe, Enabled, Inv, AtomicStep;
    if evs == [] {
      hs := [s.h];
    } else {
      var a := StepRefines(p, s, evs[0]);
      StepKeeps(p, s, evs[0]);
      var b := RunRefines(p, Step(p, s, evs[0]), evs[1..], t);
      Join(a, b);
      hs := a + b[1..];
    }
  }
}
