/** The memory behind the timing wheel's slots: chains of fixed-capacity buckets, and a pool
    of unused buckets. Every bucket is in exactly one chain or in the pool. */
module WheelBuckets {
  import opened Wire
  import opened Protocol

  const CAP: pos := 5

  datatype Entry = Entry(sslot: nat, pktNum: nat)

  datatype Bkt = Bkt(numEntries: nat, tx: nat, last: nat, next: Option<nat>, entry: seq<Entry>)

  predicate BktOk(b: Bkt) {
    |b.entry| == CAP && b.numEntries <= CAP
  }

  function Held(b: Bkt): seq<Entry>
    requires BktOk(b)
  {
    b.entry[..b.numEntries]
  }

  function Reset(b: Bkt): Bkt {
    b.(next := None, numEntries := 0)
  }

  // ---------------------------------------------------------------------------
  // Chains
  // ---------------------------------------------------------------------------

  ghost predicate InMem(mem: seq<Bkt>, c: seq<nat>) {
    forall x :: x in c ==> x < |mem| && BktOk(mem[x])
  }

  /** The entries of a chain of buckets, in order. */
  ghost function Content(mem: seq<Bkt>, c: seq<nat>): seq<Entry>
    requires InMem(mem, c)
  {
    if c == [] then []
    else
      assert c[0] in c && forall x :: x in c[1..] ==> x in c;
      Held(mem[c[0]]) + Content(mem, c[1..])
  }

  /** All buckets but the last are full and point to their successor; the last has room. */
  ghost predicate LinkOk(mem: seq<Bkt>, c: seq<nat>, k: nat) {
    && k < |c| && c[k] < |mem|
    && if k + 1 < |c| then mem[c[k]].next == Some(c[k + 1]) && mem[c[k]].numEntries == CAP
       else mem[c[k]].next == None && mem[c[k]].numEntries < CAP
  }

  ghost predicate ChainOk(mem: seq<Bkt>, c: seq<nat>, ws: nat) {
    && c != [] && c[0] == ws && InMem(mem, c) && NoDup(c)
    && ws < |mem| && mem[ws].last == c[|c| - 1]
    && forall k: nat {:trigger LinkOk(mem, c, k)} :: k < |c| ==> LinkOk(mem, c, k)
  }

  /** A chain and its entries depend on its own buckets only. */
  lemma ChainSame(mem: seq<Bkt>, mem': seq<Bkt>, c: seq<nat>, ws: nat)
    requires ChainOk(mem, c, ws)
    requires forall x :: x in c ==> x < |mem'| && mem'[x] == mem[x]
    ensures ChainOk(mem', c, ws)
    ensures Content(mem', c) == Content(mem, c)
  {
    forall k: nat | k < |c|
      ensures LinkOk(mem', c, k)
    {
      assert LinkOk(mem, c, k) && c[k] in c;
    }
    ContentSame(mem, mem', c);
  }

  lemma {:induction false} ContentSame(mem: seq<Bkt>, mem': seq<Bkt>, c: seq<nat>)
    requires InMem(mem, c) && InMem(mem', c)
    requires forall x :: x in c ==> Held(mem'[x]) == Held(mem[x])
    ensures Content(mem', c) == Content(mem, c)
  {
    if c != [] {
      assert c[0] in c;
      assert forall x :: x in c[1..] ==> x in c;
      ContentSame(mem, mem', c[1..]);
    }
  }

  lemma {:induction false} ContentSnoc(mem: seq<Bkt>, c: seq<nat>, b: nat)
    requires InMem(mem, c + [b])
    ensures InMem(mem, c) && b < |mem| && BktOk(mem[b])
    ensures Content(mem, c + [b]) == Content(mem, c) + Held(mem[b])
  {
    assert b in c + [b];
    assert forall x :: x in c ==> x in c + [b];
    if c == [] {
      assert (c + [b])[1..] == [];
    } else {
      assert (c + [b])[1..] == c[1..] + [b];
      assert forall x :: x in (c + [b])[1..] ==> x in c + [b];
      ContentSnoc(mem, c[1..], b);
      assert (c + [b])[0] == c[0] && c[0] in c;
      assert Content(mem, c + [b]) == Held(mem[c[0]]) + (Content(mem, c[1..]) + Held(mem[b]));
    }
  }

  // ---------------------------------------------------------------------------
  // Adding an entry
  // ---------------------------------------------------------------------------

  function WithEntry(b: Bkt, e: Entry): Bkt
    requires BktOk(b) && b.numEntries < CAP
  {
    b.(entry := b.entry[b.numEntries := e], numEntries := b.numEntries + 1)
  }

  /** Writing into the last bucket appends to the chain's entries. */
  lemma WriteContent(mem: seq<Bkt>, c: seq<nat>, ws: nat, e: Entry)
    requires ChainOk(mem, c, ws)
    ensures var b := mem[ws].last;
      && b == c[|c| - 1] && b < |mem| && BktOk(mem[b]) && mem[b].numEntries < CAP && mem[b].next == None
      && InMem(mem[b := WithEntry(mem[b], e)], c)
      && Content(mem[b := WithEntry(mem[b], e)], c) == Content(mem, c) + [e]
  {
    var m := |c| - 1;
    var b := c[m];
    assert b in c && LinkOk(mem, c, m);
    var mem' := mem[b := WithEntry(mem[b], e)];
    assert c == c[..m] + [b];
    ContentSnoc(mem, c[..m], b);
    ContentSnoc(mem', c[..m], b);
    assert forall x :: x in c[..m] ==> x != b;
    ContentSame(mem, mem', c[..m]);
    assert Held(mem'[b]) == Held(mem[b]) + [e];
  }

  /** The chain with a new entry that leaves room in its last bucket. */
  lemma WriteKeeps(mem: seq<Bkt>, c: seq<nat>, ws: nat, e: Entry)
    requires ChainOk(mem, c, ws)
    ensures var b := mem[ws].last;
      && b == c[|c| - 1] && b < |mem| && BktOk(mem[b]) && mem[b].numEntries < CAP
      && (mem[b].numEntries + 1 < CAP ==> ChainOk(mem[b := WithEntry(mem[b], e)], c, ws))
  {
    WriteContent(mem, c, ws, e);
    var b := mem[ws].last;
    var mem' := mem[b := WithEntry(mem[b], e)];
    if mem[b].numEntries + 1 < CAP {
      forall k: nat | k < |c|
        ensures LinkOk(mem', c, k)
      {
        assert LinkOk(mem, c, k);
      }
    }
  }

  /** The last bucket has been filled with an entry and linked to the empty bucket `nb`. */
  ghost predicate Grown(mem: seq<Bkt>, c: seq<nat>, ws: nat, e: Entry, mem': seq<Bkt>, nb: nat)
    requires ChainOk(mem, c, ws)
  {
    var b := mem[ws].last;
    && b < |mem| && BktOk(mem[b]) && mem[b].numEntries + 1 == CAP
    && nb !in c && nb < |mem'| && |mem| <= |mem'| && BktOk(mem'[nb]) && mem'[nb] == Reset(mem'[nb])
    && (forall x :: x in c && x != b && x != ws ==> mem'[x] == mem[x])
    && mem'[b] == WithEntry(mem[b], e).(next := Some(nb), last := mem'[b].last)
    && (b != ws ==> mem'[ws] == mem[ws].(last := nb))
    && mem'[ws].last == nb
  }

  /** The chain with a new entry that fills its last bucket, and an empty bucket `nb` added. */
  lemma GrowKeeps(mem: seq<Bkt>, c: seq<nat>, ws: nat, e: Entry, mem': seq<Bkt>, nb: nat)
    requires ChainOk(mem, c, ws) && Grown(mem, c, ws, e, mem', nb)
    ensures ChainOk(mem', c + [nb], ws)
    ensures Content(mem', c + [nb]) == Content(mem, c) + [e]
  {
    var b, c', m := mem[ws].last, c + [nb], |c| - 1;
    GrowContent(mem, c, ws, e, mem', nb);
    assert LinkOk(mem, c, m) && c[m] == b && b in c;
    forall k: nat | k < |c'|
      ensures LinkOk(mem', c', k)
    {
      if k < m {
        assert LinkOk(mem, c, k) && c'[k] == c[k] && c'[k + 1] == c[k + 1] && c[k] in c && c[k] != c[m];
      }
    }
  }

  lemma GrowContent(mem: seq<Bkt>, c: seq<nat>, ws: nat, e: Entry, mem': seq<Bkt>, nb: nat)
    requires ChainOk(mem, c, ws) && Grown(mem, c, ws, e, mem', nb)
    ensures InMem(mem', c + [nb]) && Content(mem', c + [nb]) == Content(mem, c) + [e]
  {
    var b := mem[ws].last;
    WriteContent(mem, c, ws, e);
    assert InMem(mem', c + [nb]);
    ContentSnoc(mem', c, nb);
    assert Held(mem'[nb]) == [];
    ContentSame(mem[b := WithEntry(mem[b], e)], mem', c);
  }

  // ---------------------------------------------------------------------------
  // Ownership
  // ---------------------------------------------------------------------------

  /** `own` says which chain each bucket belongs to, or -1 for the pool. */
  ghost predicate Partition(size: nat, chains: seq<seq<nat>>, own: seq<int>, pool: seq<nat>) {
    && |own| == size && NoDup(pool)
    && (forall b :: b in pool ==> b < size && own[b] == -1)
    && (forall i: nat, b {:trigger b in chains[i]} :: i < |chains| && b in chains[i] ==> b < size && own[b] == i)
    && (forall b: nat :: b < size ==> if own[b] == -1 then b in pool else 0 <= own[b] < |chains| && b in chains[own[b]])
  }

  /** A bucket taken from the pool joins a chain. */
  lemma PartitionTake(size: nat, chains: seq<seq<nat>>, own: seq<int>, pool: seq<nat>, pool': seq<nat>, i: nat, b: nat)
    requires Partition(size, chains, own, pool) && pool == pool' + [b] && i < |chains|
    ensures b < size && own[b] == -1 && forall j: nat :: j < |chains| ==> b !in chains[j]
    ensures Partition(size, chains[i := chains[i] + [b]], own[b := i], pool')
  {
    assert pool[|pool| - 1] == b && b in pool;
    var chains', own' := chains[i := chains[i] + [b]], own[b := i];
    assert forall x :: x in pool <==> x in pool' || x == b;
    forall k, l | 0 <= k < l < |pool'|
      ensures pool'[k] != pool'[l]
    {
      assert pool[k] != pool[l];
    }
    forall k | 0 <= k < |pool'|
      ensures pool'[k] != b
    {
      assert pool[k] != pool[|pool| - 1];
    }
    forall j: nat, x | j < |chains'| && x in chains'[j]
      ensures x < size && own'[x] == j
    {
      assert x in chains[j] || (j == i && x == b);
    }
    forall x: nat | x < size
      ensures if own'[x] == -1 then x in pool' else 0 <= own'[x] < |chains'| && x in chains'[own'[x]]
    {
      if x != b && own[x] != -1 {
        assert x in chains[own[x]];
      }
    }
  }

  /** Newly carved buckets join the pool. */
  lemma PartitionExtend(size: nat, chains: seq<seq<nat>>, own: seq<int>, n: nat, pool: seq<nat>)
    requires Partition(size, chains, own, [])
    requires pool == seq(n, i requires 0 <= i => size + i)
    ensures Partition(size + n, chains, own + seq(n, _ => -1), pool)
  {
    var own' := own + seq(n, _ => -1);
    forall b: nat | b < size + n
      ensures if own'[b] == -1 then b in pool else 0 <= own'[b] < |chains| && b in chains[own'[b]]
    {
      if b >= size {
        assert pool[b - size] == b;
      }
    }
  }

  lemma NoDupConcat(s: seq<nat>, t: seq<nat>)
    requires NoDup(s) && NoDup(t) && forall x :: x in t ==> x !in s
    ensures NoDup(s + t)
  {
    forall a, b | 0 <= a < b < |s + t|
      ensures (s + t)[a] != (s + t)[b]
    {
      if a < |s| <= b {
        assert s[a] in s && t[b - |s|] in t;
      } else if |s| <= a {
        assert t[a - |s|] != t[b - |s|];
      }
    }
  }

  /** A reaped chain keeps its first bucket and returns the others to the pool. */
  lemma PartitionReturn(size: nat, chains: seq<seq<nat>>, own: seq<int>, pool: seq<nat>, i: nat, own': seq<int>)
    requires Partition(size, chains, own, pool) && i < |chains| && chains[i] != [] && NoDup(chains[i])
    requires |own'| == size
    requires forall b: nat :: b < size ==> own'[b] == if b in chains[i][1..] then -1 else own[b]
    ensures Partition(size, chains[i := [chains[i][0]]], own', pool + chains[i][1..])
  {
    var c, pool' := chains[i], pool + chains[i][1..];
    var chains' := chains[i := [c[0]]];
    assert c == [c[0]] + c[1..];
    assert c[0] !in c[1..];
    assert forall b :: b in c[1..] ==> b in c;
    assert forall b :: b in pool' <==> b in pool || b in c[1..];
    NoDupConcat(pool, c[1..]);
    forall j: nat, x | j < |chains'| && x in chains'[j]
      ensures x < size && own'[x] == j
    {
      assert x in chains[j] && (j != i ==> x !in c);
    }
    forall b: nat | b < size
      ensures if own'[b] == -1 then b in pool' else 0 <= own'[b] < |chains'| && b in chains'[own'[b]]
    {
      if b in c[1..] {
        assert b in pool';
      } else if own[b] == i {
        assert b in c;
      }
    }
  }
}
