/** Selective signalling on the InfiniBand send queue: only every 64th send asks for a
    completion, which is polled before the next one is signalled. */
module SendSignal {
  import opened Wire

  const UNSIG_BATCH: pos := 64
  const POSTLIST: pos := 16
  const SQ_DEPTH: pos := 128

  /** The numbers of the signalled ones among sends that are numbered from `start`. */
  function Signalled(flags: seq<bool>, start: nat): seq<nat> {
    if flags == [] then [] else (if flags[0] then [start] else []) + Signalled(flags[1..], start + 1)
  }

  lemma {:induction false} SignalledSnoc(flags: seq<bool>, start: nat, x: bool)
    ensures Signalled(flags + [x], start) == Signalled(flags, start) + if x then [start + |flags|] else []
  {
    if flags == [] {
      assert flags + [x] == [x] && [x][1..] == [];
    } else {
      assert (flags + [x])[1..] == flags[1..] + [x];
      SignalledSnoc(flags[1..], start + 1, x);
      var head, tail := if flags[0] then [start] else [], if x then [start + |flags|] else [];
      assert Signalled(flags + [x], start) == head + (Signalled(flags[1..], start + 1) + tail);
      assert head + (Signalled(flags[1..], start + 1) + tail) == (head + Signalled(flags[1..], start + 1)) + tail;
    }
  }

  /** The NIC's send queue and its completion queue. Sends are numbered in posting order; a
      completion retires its send and all earlier ones. Posting beyond the queue's capacity,
      and polling for a completion that no posted send will produce, are errors. */
  class SendQueue {
    var posted: nat
    var retired: nat
    var unpolled: seq<nat>      // signalled sends that have not been polled

    constructor ()
      ensures posted == retired == 0 && unpolled == []
    {
      posted, retired, unpolled := 0, 0, [];
    }

    method PostSend(flags: seq<bool>)
      requires retired <= posted && posted + |flags| - retired <= SQ_DEPTH
      modifies this`posted, this`unpolled
      ensures posted == old(posted) + |flags| && unpolled == old(unpolled) + Signalled(flags, old(posted))
    {
      unpolled := unpolled + Signalled(flags, posted);
      posted := posted + |flags|;
    }

    method PollOne()
      requires unpolled != [] && unpolled[0] < posted
      modifies this`retired, this`unpolled
      ensures retired == old(unpolled[0]) + 1 && unpolled == old(unpolled[1..])
    {
      retired := unpolled[0] + 1;
      unpolled := unpolled[1..];
    }
  }

  class IbTransport {
    const sq: SendQueue
    var nbTx: nat
    ghost var base: nat         // the number of the first send after the last flush

    /** The number of the last signalled send when `nb` sends have been prepared. */
    ghost function LastSignal(nb: nat): nat
      requires nb > 0
      reads this
    {
      base + (nb - 1) / UNSIG_BATCH * UNSIG_BATCH
    }

    /** The state in the middle of a burst of which `flags` have been prepared. */
    ghost predicate Preparing(flags: seq<bool>)
      reads this, sq
    {
      && base <= sq.posted && nbTx == sq.posted + |flags| - base
      && if nbTx == 0 then sq.unpolled == [] && sq.retired == sq.posted
         else
           var last := LastSignal(nbTx);
           && sq.unpolled == (if last < sq.posted then [last] else [])
           && Signalled(flags, sq.posted) == (if last < sq.posted then [] else [last])
           && sq.retired == (if last == base then base else last + 1 - UNSIG_BATCH)
    }

    /** Between bursts, exactly one signalled send is unpolled if anything was sent since the
        last flush, and none otherwise. */
    ghost predicate Valid()
      reads this, sq
      ensures Valid() ==> |sq.unpolled| == (if nbTx > 0 then 1 else 0)
      ensures Valid() ==> sq.retired <= sq.posted <= sq.retired + SQ_DEPTH
    {
      Preparing([])
    }

    constructor ()
      ensures Valid() && fresh(sq) && nbTx == 0
    {
      sq := new SendQueue();
      nbTx, base := 0, 0;
    }

    /** Whether the next send is signalled; the previous signalled send is polled first. */
    method GetSignaledFlag(ghost flags: seq<bool>) returns (signaled: bool)
      requires Preparing(flags) && |flags| < POSTLIST
      modifies this`nbTx, sq`retired, sq`unpolled
      ensures Preparing(flags + [signaled]) && nbTx == old(nbTx) + 1
      ensures signaled <==> old(nbTx) % UNSIG_BATCH == 0
    {
      hide Signalled;
      ghost var nb := nbTx;
      if nb == 0 { assert flags == [] && Signalled(flags, sq.posted) == [] by { NoFlags(sq.posted); } }
      if nbTx % UNSIG_BATCH == 0 {
        signaled := true;
        if nbTx != 0 {
          LastStep(base, nb);
          sq.PollOne();
        }
      } else {
        signaled := false;
        LastStep(base, nb);
      }
      nbTx := nbTx + 1;
      SignalledSnoc(flags, sq.posted, signaled);
    }

    /** Transmit a burst of packets. */
    method TxBurst(numPkts: nat)
      requires Valid() && 1 <= numPkts <= POSTLIST
      modifies this`nbTx, sq
      ensures Valid() && nbTx == old(nbTx) + numPkts && sq.posted == old(sq.posted) + numPkts
    {
      var flags: seq<bool> := [];
      var i := 0;
      while i < numPkts
        invariant 0 <= i <= numPkts && |flags| == i && Preparing(flags)
        invariant nbTx == old(nbTx) + i && sq.posted == old(sq.posted)
      {
        var flag := GetSignaledFlag(flags);
        flags := flags + [flag];
        i := i + 1;
      }
      Room(base, nbTx, sq.posted, |flags|);
      sq.PostSend(flags);
      LastWithin(base, nbTx);
    }

    /** Wait until everything sent so far has left the queue. */
    method TxFlush()
      requires Valid()
      modifies this, sq
      ensures Valid() && nbTx == 0 && sq.unpolled == [] && sq.retired == sq.posted
    {
      if nbTx == 0 { return; }
      LastWithin(base, nbTx);
      sq.PollOne();
      assert Signalled([true], sq.posted) == [sq.posted] by { assert [true][1..] == []; }
      sq.PostSend([true]);
      sq.PollOne();
      nbTx := 0;
      base := sq.posted;
    }
  }

  lemma NoFlags(start: nat)
    ensures Signalled([], start) == []
  {
  }

  lemma LastWithin(base: nat, nb: nat)
    requires nb > 0
    ensures base <= base + (nb - 1) / UNSIG_BATCH * UNSIG_BATCH < base + nb
    ensures base + nb <= base + (nb - 1) / UNSIG_BATCH * UNSIG_BATCH + UNSIG_BATCH
  {
  }

  lemma LastStep(base: nat, nb: nat)
    requires nb > 0
    ensures var last, next := base + (nb - 1) / UNSIG_BATCH * UNSIG_BATCH, base + nb / UNSIG_BATCH * UNSIG_BATCH;
            if nb % UNSIG_BATCH == 0 then next == base + nb == last + UNSIG_BATCH else next == last
  {
  }

  lemma Room(base: nat, nb: nat, posted: nat, n: nat)
    requires nb == posted + n - base && base <= posted && 1 <= n <= POSTLIST
    ensures var last := base + (nb - 1) / UNSIG_BATCH * UNSIG_BATCH;
            posted + n <= (if last == base then base else last + 1 - UNSIG_BATCH) + SQ_DEPTH
  {
  }
}
