/** The raw transport's receive path: the NIC keeps overwriting a ring of eight completion
    entries, and the host learns how many packets have arrived from the cyclic distance
    between the packet indices in successive entries. */
module RecvRing {
  import opened Wire

  const CQ_DEPTH: pos := 8
  const STRIDES_PER_WQE: pos := 512
  const WQE_IDS: pos := 65536
  const CYCLE: pos := 33554432
  const RING_ENTRIES: pos := 4096

  /** The fields of a completion entry that tell a packet's index in the cycle. */
  datatype Snapshot = Snapshot(wqeId: nat, wqeCounter: nat) {
    function CycleIdx(): nat {
      wqeId * STRIDES_PER_WQE + wqeCounter
    }
  }

  /** The completion that the NIC writes for packet `p`; the initial entries are those of
      packets that came before the first. */
  function CompletionOf(p: int): Snapshot {
    Snapshot((p / STRIDES_PER_WQE) % WQE_IDS, p % STRIDES_PER_WQE)
  }

  function CycleDelta(prev: Snapshot, cur: Snapshot): nat
    requires prev.CycleIdx() < CYCLE && cur.CycleIdx() < CYCLE
  {
    (cur.CycleIdx() + CYCLE - prev.CycleIdx()) % CYCLE
  }

  /** The last packet written to entry `i` of the ring when `w` packets have been written. */
  function LastAt(w: nat, i: nat): int {
    if w <= i then i - CQ_DEPTH else i + (w - 1 - i) / CQ_DEPTH * CQ_DEPTH
  }

  lemma LastBounds(w: nat, i: nat)
    requires i < CQ_DEPTH
    ensures -8 <= LastAt(w, i) < w && LastAt(w, i) % CQ_DEPTH == i
    ensures w - CQ_DEPTH <= LastAt(w, i)
  {
  }

  /** Packets that are less than a ring apart and share an entry are equal. */
  lemma LastUnique(w: nat, i: nat, p: int)
    requires i < CQ_DEPTH && p % CQ_DEPTH == i && w - CQ_DEPTH <= p < w
    ensures p == LastAt(w, i)
  {
    LastBounds(w, i);
  }

  /** The packet index in a completion is the packet's number modulo the cycle. */
  lemma CompletionIdx(p: int)
    ensures CompletionOf(p).CycleIdx() == p % CYCLE
  {
    var q, r := p / STRIDES_PER_WQE, p % STRIDES_PER_WQE;
    var id, turn := q % WQE_IDS, q / WQE_IDS;
    assert p == q * STRIDES_PER_WQE + r && q == turn * WQE_IDS + id;
    assert p == turn * CYCLE + (id * STRIDES_PER_WQE + r);
  }

  /** The cyclic distance between two packets less than a cycle apart. */
  lemma DeltaIs(prev: int, cur: int)
    ensures CompletionOf(prev).CycleIdx() < CYCLE && CompletionOf(cur).CycleIdx() < CYCLE
    ensures prev <= cur < prev + CYCLE ==> CycleDelta(CompletionOf(prev), CompletionOf(cur)) == cur - prev
    ensures cur < prev <= cur + CYCLE ==>
            CycleDelta(CompletionOf(prev), CompletionOf(cur)) == cur - prev + CYCLE || prev == cur + CYCLE
  {
    CompletionIdx(prev);
    CompletionIdx(cur);
    var a, b := prev % CYCLE, cur % CYCLE;
    var m, n := prev / CYCLE, cur / CYCLE;
    assert prev == m * CYCLE + a && cur == n * CYCLE + b;
  }

  lemma NewLast(w: nat, i: nat)
    requires i < CQ_DEPTH
    ensures LastAt(w + 1, i) == if i == w % CQ_DEPTH then w else LastAt(w, i)
  {
    LastBounds(w, i);
    hide LastAt;
    assert (w - CQ_DEPTH) % CQ_DEPTH == w % CQ_DEPTH;
    LastUnique(w + 1, i, if i == w % CQ_DEPTH then w else LastAt(w, i));
  }

  /** The polled entry holds the packet from one ring ago, or one of those not yet delivered. */
  lemma StaleOrNext(w: nat, got: nat)
    requires got <= w <= got + RING_ENTRIES
    ensures var p := LastAt(w, got % CQ_DEPTH);
      if w == got then p == got - CQ_DEPTH else got <= p < w && p - got + 1 < RING_ENTRIES
  {
    var i := got % CQ_DEPTH;
    LastBounds(w, i);
    if w == got {
      LastUnique(w, i, got - CQ_DEPTH);
    }
  }

  /** What a poll computes. */
  lemma PollIs(w: nat, got: nat)
    requires got <= w <= got + RING_ENTRIES
    ensures var p := LastAt(w, got % CQ_DEPTH);
      && CompletionOf(got - 1).CycleIdx() < CYCLE && CompletionOf(p).CycleIdx() < CYCLE
      && var delta := CycleDelta(CompletionOf(got - 1), CompletionOf(p));
         if w == got then delta >= RING_ENTRIES else 0 < delta < RING_ENTRIES && delta == p - got + 1 && p < w
  {
    hide LastAt, CompletionOf, CycleDelta;
    StaleOrNext(w, got);
    DeltaIs(got - 1, LastAt(w, got % CQ_DEPTH));
  }

  lemma NextEntry(w: nat, got: nat, delta: nat)
    requires delta == LastAt(w, got % CQ_DEPTH) - got + 1
    ensures (got % CQ_DEPTH + 1) % CQ_DEPTH == (got + delta) % CQ_DEPTH
    ensures w - (got + delta) < CQ_DEPTH
  {
    LastBounds(w, got % CQ_DEPTH);
  }

  lemma NextSlot(n: nat)
    ensures (n % RING_ENTRIES + 1) % RING_ENTRIES == (n + 1) % RING_ENTRIES
  {
  }

  class RawTransport {
    const cqes: array<Snapshot>     // written by the NIC
    var cqeIdx: nat
    var prevSnapshot: Snapshot
    var recvHead: nat
    var recvsToPost: nat
    var wqes: nat                   // receive work queue entries posted so far
    var written: nat                // the NIC's count of packets
    ghost var got: nat              // the sum of the results of RxBurst
    ghost var posted: nat           // the sum of the arguments of PostRecvs

    /** The NIC writes into posted entries only; the host posts again what it has consumed. */
    ghost predicate Valid()
      reads this, cqes
    {
      && cqes.Length == CQ_DEPTH
      && (forall i: nat :: i < CQ_DEPTH ==> cqes[i] == CompletionOf(LastAt(written, i)))
      && cqeIdx == got % CQ_DEPTH && prevSnapshot == CompletionOf(got - 1) && recvHead == got % RING_ENTRIES
      && posted <= got <= written <= wqes * STRIDES_PER_WQE
      && wqes * STRIDES_PER_WQE + recvsToPost == RING_ENTRIES + posted
    }

    /** The entries start as if the last eight packets of the cycle had just been received. */
    constructor ()
      ensures Valid() && fresh(cqes) && got == written == posted == 0
    {
      cqes := new Snapshot[CQ_DEPTH](_ => Snapshot(0, 0));
      cqeIdx, recvHead, recvsToPost, wqes := 0, 0, 0, RING_ENTRIES / STRIDES_PER_WQE;
      prevSnapshot := Snapshot(0, 0);
      written, got, posted := 0, 0, 0;
      new;
      var i := 0;
      while i < CQ_DEPTH
        invariant 0 <= i <= CQ_DEPTH
        invariant cqeIdx == recvHead == recvsToPost == 0 && wqes == 8 && written == got == posted == 0
        invariant forall j: nat :: j < i ==> cqes[j] == CompletionOf(j - CQ_DEPTH)
      {
        cqes[i] := Snapshot(WQE_IDS - 1, STRIDES_PER_WQE - (CQ_DEPTH - i));
        i := i + 1;
      }
      prevSnapshot := cqes[CQ_DEPTH - 1];
    }

    /** The NIC receives the next packet into posted memory and overwrites the oldest entry. */
    method NicReceives()
      requires Valid() && written < wqes * STRIDES_PER_WQE
      modifies this`written, cqes
      ensures Valid() && written == old(written) + 1
    {
      hide LastAt, CompletionOf;
      var w := written;
      cqes[w % CQ_DEPTH] := CompletionOf(w);
      written := w + 1;
      forall i: nat | i < CQ_DEPTH
        ensures cqes[i] == CompletionOf(LastAt(w + 1, i))
      {
        NewLast(w, i);
      }
    }

    /** The number of packets that the polled entry shows to have arrived: 0 exactly if none
        has. Then fewer than a ring of entries remain. */
    method RxBurst() returns (delta: nat)
      requires Valid()
      modifies this`cqeIdx, this`prevSnapshot, this`recvHead, this`got
      ensures Valid() && got == old(got) + delta <= written
      ensures delta == 0 <==> old(got) == written
      ensures delta > 0 ==> got == LastAt(written, old(got) % CQ_DEPTH) + 1 && written - got < CQ_DEPTH
    {
      hide LastAt, CompletionOf, CycleDelta;
      var cur := cqes[cqeIdx];
      PollIs(written, got);
      delta := CycleDelta(prevSnapshot, cur);
      if delta == 0 || delta >= RING_ENTRIES { return 0; }
      var i := 0;
      while i < delta
        invariant 0 <= i <= delta && recvHead == (got + i) % RING_ENTRIES && got == old(got)
        invariant cqeIdx == old(cqeIdx) && prevSnapshot == old(prevSnapshot)
      {
        NextSlot(got + i);
        recvHead := (recvHead + 1) % RING_ENTRIES;
        i := i + 1;
      }
      NextEntry(written, got, delta);
      cqeIdx := (cqeIdx + 1) % CQ_DEPTH;
      prevSnapshot := cur;
      got := got + delta;
    }

    /** Post one more work queue entry once enough packets have been consumed. */
    method PostRecvs(numRecvs: nat)
      requires Valid() && posted + numRecvs <= got
      modifies this`recvsToPost, this`wqes, this`posted
      ensures Valid() && posted == old(posted) + numRecvs
    {
      recvsToPost := recvsToPost + numRecvs;
      posted := posted + numRecvs;
      if recvsToPost < STRIDES_PER_WQE { return; }
      wqes := wqes + 1;
      recvsToPost := recvsToPost - STRIDES_PER_WQE;
    }
  }
}
