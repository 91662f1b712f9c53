/** The timing wheel in the form the program has it: a ring of slots, each the head of a
    chain of buckets, with unused buckets in a pool. It computes exactly the operations of
    `WheelSpec`. */
module TimingWheel {
  import opened Wire
  import opened Protocol
  import opened WheelBuckets
  import opened WheelSpec
  import MemPool

  /** The ring seen from its current slot. */
  function Rotate<T>(s: seq<T>, cur: nat): seq<T>
    requires cur < |s|
  {
    s[cur..] + s[..cur]
  }

  /** The slot that is `k` slots after the current one. */
  function Ring(cur: nat, k: nat, n: nat): nat
    requires cur < n && k < n
  {
    if cur + k < n then cur + k else cur + k - n
  }

  lemma RotateAt<T>(s: seq<T>, cur: nat, k: nat, x: T)
    requires cur < |s| && k < |s|
    ensures Rotate(s, cur)[k] == s[Ring(cur, k, |s|)]
    ensures Rotate(s[Ring(cur, k, |s|) := x], cur) == Rotate(s, cur)[k := x]
  {
  }

  /** Replacing the current slot and moving on makes it the last one. */
  lemma RotateOn<T>(s: seq<T>, cur: nat, x: T)
    requires cur < |s|
    ensures Rotate(s[cur := x], if cur + 1 == |s| then 0 else cur + 1) == Rotate(s, cur)[1..] + [x]
  {
  }

  /** Deadlines are one slot width apart, starting from the current slot. */
  ghost predicate Progression(txs: seq<nat>, cur: nat, width: nat) {
    cur < |txs| && forall k: nat :: k < |txs| ==> Rotate(txs, cur)[k] == txs[cur] + k * width
  }

  lemma ProgressionOn(txs: seq<nat>, cur: nat, width: nat)
    requires Progression(txs, cur, width)
    ensures var cur' := if cur + 1 == |txs| then 0 else cur + 1;
            var txs' := txs[cur := txs[cur] + width * |txs|];
            Progression(txs', cur', width) && txs'[cur'] == txs[cur] + width
  {
    var cur' := if cur + 1 == |txs| then 0 else cur + 1;
    var x := txs[cur] + width * |txs|;
    var txs' := txs[cur := x];
    RotateOn(txs, cur, x);
    var r, r' := Rotate(txs, cur), Rotate(txs', cur');
    forall k: nat | k < |txs|
      ensures r'[k] == txs[cur] + width + k * width
    {
      assert (k + 1) * width == k * width + width;
      if k + 1 < |txs| {
        assert r'[k] == r[k + 1];
      } else {
        assert r'[k] == x && (k + 1) * width == width * |txs|;
      }
    }
    assert r'[0] == txs'[cur'];
  }

  ghost predicate AllChains(mem: seq<Bkt>, chains: seq<seq<nat>>) {
    forall i: nat {:trigger chains[i]} :: i < |chains| ==> ChainOk(mem, chains[i], i)
  }

  ghost function Contents(mem: seq<Bkt>, chains: seq<seq<nat>>): seq<seq<Entry>>
    requires AllChains(mem, chains)
  {
    seq(|chains|, i requires 0 <= i < |chains| => Content(mem, chains[i]))
  }

  ghost function Txs(mem: seq<Bkt>, n: nat): seq<nat>
    requires n <= |mem|
  {
    seq(n, i requires 0 <= i < n => mem[i].tx)
  }

  /** Changing one chain, and nothing in the others, changes only that slot's entries. */
  lemma OneChain(mem: seq<Bkt>, mem': seq<Bkt>, chains: seq<seq<nat>>, ws: nat, c: seq<nat>)
    requires AllChains(mem, chains) && ws < |chains| && ChainOk(mem', c, ws)
    requires forall i: nat, x {:trigger x in chains[i]} :: i < |chains| && i != ws && x in chains[i] ==>
               x < |mem'| && mem'[x] == mem[x]
    ensures AllChains(mem', chains[ws := c])
    ensures Contents(mem', chains[ws := c]) == Contents(mem, chains)[ws := Content(mem', c)]
  {
    forall i: nat | i < |chains| && i != ws
      ensures ChainOk(mem', chains[i], i) && Content(mem', chains[i]) == Content(mem, chains[i])
    {
      ChainSame(mem, mem', chains[i], i);
    }
  }

  class Wheel {
    const n: pos                // number of slots; buckets 0..n-1 are their heads
    const width: pos
    const horizon: nat
    const pool: MemPool.Pool
    var mem: seq<Bkt>
    var cur: nat
    var ready: seq<Entry>
    ghost var chains: seq<seq<nat>>
    ghost var own: seq<int>     // the chain that each bucket belongs to, or -1

    ghost predicate Valid()
      reads this, pool
    {
      && |chains| == n && AllChains(mem, chains)
      && n <= |mem| == pool.end && pool.numToAlloc > 0
      && (forall b: nat :: b < |mem| ==> BktOk(mem[b]))
      && Partition(|mem|, chains, own, pool.pool)
      && Progression(Txs(mem, n), cur, width)
    }

    ghost function View(): (a: Agenda<Entry>)
      reads this, pool
      requires Valid()
      ensures |a.slots| == n
    {
      Agenda(width, mem[cur].tx, Rotate(Contents(mem, chains), cur), ready)
    }

    constructor (n: pos, width: pos, horizon: nat, baseTsc: nat, junk: seq<Bkt>)
      requires |junk| == n && forall b :: 0 <= b < |junk| ==> BktOk(junk[b])
      ensures Valid() && fresh(pool) && this.n == n && this.width == width && this.horizon == horizon
      ensures View() == Empty(width, n, baseTsc)
    {
      this.n, this.width, this.horizon := n, width, horizon;
      pool := new MemPool.Pool(n);
      mem, cur, ready := junk, 0, [];
      chains := seq(n, i requires 0 <= i => [i]);
      own := seq(n, i => i);
      new;
      var i := 0;
      while i < n
        invariant 0 <= i <= n && |mem| == n && cur == 0 && ready == []
        invariant pool.pool == [] && pool.end == n && pool.numToAlloc > 0 && fresh(pool)
        invariant chains == seq(n, i requires 0 <= i => [i]) && own == seq(n, i => i)
        invariant forall b :: 0 <= b < n ==> BktOk(mem[b])
        invariant forall b: nat :: b < i ==>
          mem[b] == Reset(mem[b]) && mem[b].tx == baseTsc + (b + 1) * width && mem[b].last == b
      {
        mem := mem[i := Reset(mem[i])];
        mem := mem[i := mem[i].(tx := baseTsc + (i + 1) * width)];
        mem := mem[i := mem[i].(last := i)];
        i := i + 1;
      }
      FreshWheel(mem, n, width, baseTsc);
    }

    /** A bucket from the pool, reset. New pool memory extends the wheel's memory. */
    method AllocBkt() returns (b: nat)
      requires |mem| == pool.end && pool.numToAlloc > 0 && Partition(|mem|, chains, own, pool.pool)
      requires forall b: nat :: b < |mem| ==> BktOk(mem[b])
      modifies this`mem, this`own, pool
      ensures |mem| == pool.end && pool.numToAlloc > 0 && |old(mem)| <= |mem|
      ensures Partition(|mem|, chains, own, pool.pool + [b]) && b < |mem|
      ensures forall x: nat :: x < |mem| ==> BktOk(mem[x])
      ensures forall x: nat :: x < |old(mem)| && x != b ==> mem[x] == old(mem)[x]
      ensures mem[b] == Reset(mem[b]) && (b < |old(mem)| ==> mem[b] == Reset(old(mem)[b]))
    {
      b := pool.Alloc();
      ghost var grown := pool.end - |mem|;
      if |mem| < pool.end {
        PartitionExtend(|mem|, chains, own, grown, pool.pool + [b]);
        own := own + seq(grown, _ => -1);
        mem := mem + seq(pool.end - |mem|, _ => Bkt(0, 0, 0, None, seq(CAP, _ => Entry(0, 0))));
      }
      assert (pool.pool + [b])[|pool.pool|] == b && b in pool.pool + [b];
      mem := mem[b := Reset(mem[b])];
    }

    method InsertIntoWslot(ws: nat, ent: Entry)
      requires Valid() && ws < n
      modifies this`mem, this`chains, this`own, pool
      ensures Valid() && Txs(mem, n) == old(Txs(mem, n))
      ensures Contents(mem, chains) == old(Contents(mem, chains))[ws := old(Contents(mem, chains))[ws] + [ent]]
    {
      hide AllChains, Partition, Progression, Contents, ChainOk, Txs;
      ghost var mem0 := mem;
      HeadFacts(mem, chains, own, pool.pool, ws, ent);
      var last := mem[ws].last;
      mem := mem[last := mem[last].(entry := mem[last].entry[mem[last].numEntries := ent])];
      mem := mem[last := mem[last].(numEntries := mem[last].numEntries + 1)];
      assert mem == mem0[last := WithEntry(mem0[last], ent)];
      if mem[last].numEntries == CAP {
        var newBkt := AllocBkt();
        ghost var mem1 := mem;
        PartitionTake(|mem|, chains, own, pool.pool + [newBkt], pool.pool, ws, newBkt);
        mem := mem[last := mem[last].(next := Some(newBkt))];
        mem := mem[ws := mem[ws].(last := newBkt)];
        PutGrown(mem0, mem1, chains, ws, ent, newBkt);
        chains := chains[ws := chains[ws] + [newBkt]];
        own := own[newBkt := ws];
      } else {
        PutRoom(mem0, chains, own, pool.pool, ws, ent);
      }
      SameTxs(mem0, mem, n);
    }

    method PushEntries(b: nat)
      requires b < |mem| && BktOk(mem[b])
      modifies this`ready
      ensures ready == old(ready) + mem[b].entry[..mem[b].numEntries]
    {
      var i := 0;
      while i < mem[b].numEntries
        invariant 0 <= i <= mem[b].numEntries && ready == old(ready) + mem[b].entry[..i]
      {
        ready := ready + [mem[b].entry[i]];
        i := i + 1;
      }
    }

    /** Transfer all entries of a slot to the ready queue, and its buckets to the pool. */
    method ReapWslot(ws: nat)
      requires Valid() && ws < n
      modifies this`mem, this`ready, this`chains, this`own, pool
      ensures Valid() && Txs(mem, n) == old(Txs(mem, n))
      ensures ready == old(ready) + old(Contents(mem, chains))[ws]
      ensures Contents(mem, chains) == old(Contents(mem, chains))[ws := []]
    {
      hide Partition, Progression, Contents, ChainOk, Content;
      ghost var mem0, c, ready0, pool0, k := mem, chains[ws], ready, pool.pool, 0;
      ChainStart(mem, c, ws);
      var bkt: Option<nat> := Some(ws);
      while bkt.Some?
        invariant 0 <= k <= |c| && bkt == (if k < |c| then Some(c[k]) else None)
        invariant pool.end == |mem| && pool.numToAlloc > 0 && chains == old(chains) && own == old(own)
        invariant ReapedTo(mem0, mem, c, k) && InMem(mem0, c[..k]) && ready == ready0 + Content(mem0, c[..k])
        invariant pool.pool == pool0 + c[..k][Min(1, k)..]
        decreases |c| - k
      {
        var b := bkt.value;
        ReapNext(mem0, mem, c, ws, k);
        PushEntries(b);
        var tmpNext := mem[b].next;
        mem := mem[b := Reset(mem[b])];
        if b != ws {
          pool.Free(b);
        }
        bkt := tmpNext;
        k := k + 1;
      }
      assert c[..k] == c && Contents(mem0, chains)[ws] == Content(mem0, c) by { ContentsAt(mem0, chains, ws); }
      mem := mem[ws := mem[ws].(last := ws)];
      ChainsApart(|mem|, chains, own, pool0, ws);
      ReapedSlot(mem0, mem, chains, ws);
      own := ReapedPool(|mem|, chains, own, pool0, ws);
      chains := chains[ws := [ws]];
      SameTxs(mem0, mem, n);
    }

    /** Release the current slot and make it the last one. */
    method Advance()
      requires Valid()
      modifies this`mem, this`ready, this`cur, this`chains, this`own, pool
      ensures Valid() && View() == Roll(old(View()))
    {
      hide AllChains, Partition, Contents, Progression, Rotate;
      CurFacts(Txs(mem, n), cur, width);
      ghost var all := Contents(mem, chains);
      ghost var txs := Txs(mem, n);
      ContentsAt(mem, chains, cur);
      RotateAt(all, cur, 0, []);
      RotateOn(all, cur, []);
      ProgressionOn(txs, cur, width);
      ReapWslot(cur);
      TxChange(mem, chains, cur, n, mem[cur].tx + width * n);
      mem := mem[cur := mem[cur].(tx := mem[cur].tx + width * n)];
      cur := cur + 1;
      if cur == n { cur := 0; }
    }

    /** Move the entries of all slots that are due to the ready queue. */
    method ReapSt(reapTsc: nat)
      requires Valid()
      modifies this`mem, this`ready, this`cur, this`chains, this`own, pool
      ensures Valid() && View() == Reap(old(View()), reapTsc)
    {
      hide AllChains, Partition, Contents;
      CurFacts(Txs(mem, n), cur, width);
      while mem[cur].tx <= reapTsc
        invariant Valid() && cur < n && Reap(View(), reapTsc) == Reap(old(View()), reapTsc)
        decreases reapTsc + 1 - mem[cur].tx
      {
        Advance();
        CurFacts(Txs(mem, n), cur, width);
      }
    }

    /** Add an entry to the wheel. This may move entries to the ready queue. */
    method InsertSt(ent: Entry, refTsc: nat, desiredTxTsc: nat)
      requires Valid() && InsertOk(View(), horizon, refTsc, desiredTxTsc)
      modifies this`mem, this`ready, this`cur, this`chains, this`own, pool
      ensures Valid() && View() == Insert(old(View()), horizon, ent, refTsc, desiredTxTsc)
    {
      hide AllChains, Partition, Contents, Reap;
      ReapSt(refTsc);
      CurFacts(Txs(mem, n), cur, width);
      var dst;
      if desiredTxTsc <= mem[cur].tx {
        dst := cur;
      } else {
        var delta := 1 + (desiredTxTsc - mem[cur].tx) / width;
        assert delta == SlotFor(View(), desiredTxTsc) < n;
        dst := cur + delta;
        if dst >= n { dst := dst - n; }
      }
      ghost var k := SlotFor(View(), desiredTxTsc);
      assert dst == Ring(cur, k, n);
      ContentsAt(mem, chains, dst);
      ghost var all := Contents(mem, chains);
      RotateAt(all, cur, k, all[dst] + [ent]);
      InsertIntoWslot(dst, ent);
    }
  }

  lemma CurFacts(txs: seq<nat>, cur: nat, width: nat)
    requires Progression(txs, cur, width)
    ensures cur < |txs|
  {
  }

  /** Deadlines are kept apart from the chains. */
  lemma TxChange(mem: seq<Bkt>, chains: seq<seq<nat>>, cur: nat, n: nat, tx: nat)
    requires AllChains(mem, chains) && cur < n <= |mem|
    ensures var mem' := mem[cur := mem[cur].(tx := tx)];
      && AllChains(mem', chains) && Contents(mem', chains) == Contents(mem, chains)
      && Txs(mem', n) == Txs(mem, n)[cur := tx]
  {
    var mem' := mem[cur := mem[cur].(tx := tx)];
    forall i: nat | i < |chains|
      ensures ChainOk(mem', chains[i], i) && Content(mem', chains[i]) == Content(mem, chains[i])
    {
      var c := chains[i];
      assert ChainOk(mem, c, i);
      forall k: nat | k < |c|
        ensures LinkOk(mem', c, k)
      {
        assert LinkOk(mem, c, k);
      }
      ContentSame(mem, mem', c);
    }
  }

  /** The first `k` buckets of the chain have been reset. */
  ghost predicate ReapedTo(mem0: seq<Bkt>, mem: seq<Bkt>, c: seq<nat>, k: nat) {
    && k <= |c| && |mem| == |mem0|
    && (forall x: nat :: x < |mem| ==> mem[x] == if x in c[..k] then Reset(mem0[x]) else mem0[x])
  }

  lemma ChainStart(mem: seq<Bkt>, c: seq<nat>, ws: nat)
    requires ChainOk(mem, c, ws)
    ensures c != [] && c[0] == ws && NoDup(c) && InMem(mem, c) && InMem(mem, []) && Content(mem, []) == [] &&
            c[..0] == []
  {
  }

  lemma ReapNext(mem0: seq<Bkt>, mem: seq<Bkt>, c: seq<nat>, ws: nat, k: nat)
    requires ChainOk(mem0, c, ws) && k < |c| && ReapedTo(mem0, mem, c, k)
    ensures var b := c[k];
      && b < |mem| && BktOk(mem[b]) && InMem(mem0, c[..k]) && InMem(mem0, c[..k + 1])
      && Content(mem0, c[..k + 1]) == Content(mem0, c[..k]) + mem[b].entry[..mem[b].numEntries]
      && mem[b].next == (if k + 1 < |c| then Some(c[k + 1]) else None)
      && ReapedTo(mem0, mem[b := Reset(mem[b])], c, k + 1)
      && (b != ws <==> k > 0)
    ensures c[..k + 1][Min(1, k + 1)..] == c[..k][Min(1, k)..] + (if k > 0 then [c[k]] else [])
  {
    var b := c[k];
    assert LinkOk(mem0, c, k) && b in c;
    assert b !in c[..k];
    assert c[..k + 1] == c[..k] + [b];
    assert forall x :: x in c[..k + 1] ==> x in c;
    ContentSnoc(mem0, c[..k], b);
  }

  lemma ReapedSlot(mem0: seq<Bkt>, mem: seq<Bkt>, chains: seq<seq<nat>>, ws: nat)
    requires AllChains(mem0, chains) && ws < |chains|
    requires ws < |mem| == |mem0| && mem[ws].last == ws
    requires ReapedTo(mem0, mem[ws := mem[ws].(last := mem0[ws].last)], chains[ws], |chains[ws]|)
    requires forall i: nat, x {:trigger x in chains[i]} :: i < |chains| && i != ws && x in chains[i] ==>
             x !in chains[ws]
    ensures AllChains(mem, chains[ws := [ws]])
    ensures Contents(mem, chains[ws := [ws]]) == Contents(mem0, chains)[ws := []]
  {
    var c := chains[ws];
    assert c[..|c|] == c && c[0] == ws && ws in c;
    assert LinkOk(mem, [ws], 0);
    assert ChainOk(mem, [ws], ws);
    assert Held(mem[ws]) == [] && Content(mem, [ws]) == Held(mem[ws]) + Content(mem, [ws][1..]);
    forall i: nat, x | i < |chains| && i != ws && x in chains[i]
      ensures x < |mem| && mem[x] == mem0[x]
    {
      assert ChainOk(mem0, chains[i], i);
    }
    OneChain(mem0, mem, chains, ws, [ws]);
  }

  lemma ContentsAt(mem: seq<Bkt>, chains: seq<seq<nat>>, ws: nat)
    requires AllChains(mem, chains) && ws < |chains|
    ensures InMem(mem, chains[ws]) && Contents(mem, chains)[ws] == Content(mem, chains[ws])
    ensures |Contents(mem, chains)| == |chains|
  {
  }

  lemma ChainsApart(size: nat, chains: seq<seq<nat>>, own: seq<int>, pool: seq<nat>, ws: nat)
    requires Partition(size, chains, own, pool) && ws < |chains|
    ensures forall i: nat, x {:trigger x in chains[i]} :: i < |chains| && i != ws && x in chains[i] ==> x !in chains[ws]
  {
  }

  lemma ReapedPool(size: nat, chains: seq<seq<nat>>, own: seq<int>, pool: seq<nat>, ws: nat) returns (own': seq<int>)
    requires Partition(size, chains, own, pool) && ws < |chains| && chains[ws] != [] && NoDup(chains[ws])
    requires chains[ws][0] == ws
    ensures Partition(size, chains[ws := [ws]], own', pool + chains[ws][1..])
  {
    own' := seq(size, b requires 0 <= b < size => if b in chains[ws][1..] then -1 else own[b]);
    PartitionReturn(size, chains, own, pool, ws, own');
  }

  lemma SameTxs(mem: seq<Bkt>, mem': seq<Bkt>, n: nat)
    requires n <= |mem| <= |mem'| && forall i: nat :: i < n ==> mem'[i].tx == mem[i].tx
    ensures Txs(mem', n) == Txs(mem, n)
  {
  }

  /** The last bucket of a slot's chain has room for an entry and is in no other chain. */
  lemma HeadFacts(mem: seq<Bkt>, chains: seq<seq<nat>>, own: seq<int>, pool: seq<nat>, ws: nat, e: Entry)
    requires AllChains(mem, chains) && Partition(|mem|, chains, own, pool) && ws < |chains|
    ensures ws < |mem| && ChainOk(mem, chains[ws], ws)
    ensures var b := mem[ws].last;
            && b < |mem| && b in chains[ws] && BktOk(mem[b]) && mem[b].numEntries < CAP && mem[b].next == None
            && forall i: nat :: i < |chains| && i != ws ==> b !in chains[i] && ws !in chains[i]
  {
    var c := chains[ws];
    WriteContent(mem, c, ws, e);
    assert c[|c| - 1] in c && c[0] in c;
  }

  lemma PutRoom(mem: seq<Bkt>, chains: seq<seq<nat>>, own: seq<int>, pool: seq<nat>, ws: nat, e: Entry)
    requires AllChains(mem, chains) && Partition(|mem|, chains, own, pool) && ws < |chains| && ws < |mem|
    requires var b := mem[ws].last; b < |mem| && BktOk(mem[b]) && mem[b].numEntries + 1 < CAP
    ensures var mem' := mem[mem[ws].last := WithEntry(mem[mem[ws].last], e)];
            && AllChains(mem', chains)
            && Contents(mem', chains) == Contents(mem, chains)[ws := Contents(mem, chains)[ws] + [e]]
  {
    var b, c := mem[ws].last, chains[ws];
    HeadFacts(mem, chains, own, pool, ws, e);
    WriteContent(mem, c, ws, e);
    WriteKeeps(mem, c, ws, e);
    OneChain(mem, mem[b := WithEntry(mem[b], e)], chains, ws, c);
    assert chains[ws := c] == chains;
  }

  /** Link the new last bucket `nb` behind the bucket `b` of slot `ws`. */
  function LinkLast(mem: seq<Bkt>, ws: nat, b: nat, nb: nat): seq<Bkt>
    requires b < |mem| && ws < |mem|
  {
    var mem1 := mem[b := mem[b].(next := Some(nb))];
    mem1[ws := mem1[ws].(last := nb)]
  }

  lemma PutGrown(mem: seq<Bkt>, memA: seq<Bkt>, chains: seq<seq<nat>>, ws: nat, e: Entry, nb: nat)
    requires AllChains(mem, chains) && ws < |chains| && ws < |mem| <= |memA| && nb < |memA|
    requires forall i: nat :: i < |chains| ==>
      nb !in chains[i] && (i != ws ==> mem[ws].last !in chains[i] && ws !in chains[i])
    requires var b := mem[ws].last;
      && b < |mem| && BktOk(mem[b]) && mem[b].numEntries + 1 == CAP
      && (forall x: nat :: x < |mem| && x != nb ==> memA[x] == mem[b := WithEntry(mem[b], e)][x])
    requires BktOk(memA[nb]) && memA[nb] == Reset(memA[nb])
    ensures var c', mem' := chains[ws] + [nb], LinkLast(memA, ws, mem[ws].last, nb);
      && AllChains(mem', chains[ws := c'])
      && Contents(mem', chains[ws := c']) == Contents(mem, chains)[ws := Contents(mem, chains)[ws] + [e]]
  {
    var c, mem' := chains[ws], LinkLast(memA, ws, mem[ws].last, nb);
    assert ChainOk(mem, c, ws) && c[0] in c && c[|c| - 1] in c;
    assert Grown(mem, c, ws, e, mem', nb);
    GrowKeeps(mem, c, ws, e, mem', nb);
    forall i: nat, x | i < |chains| && i != ws && x in chains[i]
      ensures x < |mem'| && mem'[x] == mem[x]
    {
      assert ChainOk(mem, chains[i], i);
    }
    OneChain(mem, mem', chains, ws, c + [nb]);
  }

  lemma FreshWheel(mem: seq<Bkt>, n: pos, width: pos, baseTsc: nat)
    requires |mem| == n
    requires forall b: nat :: b < n ==>
      BktOk(mem[b]) && mem[b] == Reset(mem[b]) && mem[b].tx == baseTsc + (b + 1) * width && mem[b].last == b
    ensures var chains := seq(n, i requires 0 <= i => [i]);
      && AllChains(mem, chains) && Partition(n, chains, seq(n, i => i), [])
      && Progression(Txs(mem, n), 0, width)
      && Rotate(Contents(mem, chains), 0) == Empty<Entry>(width, n, baseTsc).slots
      && mem[0].tx == baseTsc + width
  {
    var chains := seq(n, i requires 0 <= i => [i]);
    forall b: nat | b < n
      ensures ChainOk(mem, chains[b], b) && Content(mem, chains[b]) == []
    {
      assert chains[b] == [b] && LinkOk(mem, [b], 0);
      assert Held(mem[b]) == [] && Content(mem, [b]) == Held(mem[b]) + Content(mem, [b][1..]);
    }
    forall k: nat | k < n
      ensures Rotate(Txs(mem, n), 0)[k] == mem[0].tx + k * width
    {
      assert (k + 1) * width == k * width + width;
    }
  }
}
