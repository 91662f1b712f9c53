/** Every operation of the hugepage allocator keeps its tiling, and an allocation fails only
    when the operating system has no memory left. */
module HugeAllocProof {
  import opened Wire
  import opened SizeClasses
  import opened HugeAllocSpec

  // ---------------------------------------------------------------------------
  // Counting
  // ---------------------------------------------------------------------------

  lemma {:induction false} CoverConcat(s: seq<Buffer>, t: seq<Buffer>, a: nat)
    ensures Cover(s + t, a) == Cover(s, a) + Cover(t, a)
  {
    if s == [] {
      assert s + t == t;
    } else {
      CoverConcat(s[1..], t, a);
      assert (s + t)[1..] == s[1..] + t;
    }
  }

  lemma CoverOne(b: Buffer, a: nat)
    ensures Cover([b], a) == if Contains(b, a) then 1 else 0
  {
    assert [b][1..] == [];
  }

  lemma CoverPop(s: seq<Buffer>, a: nat)
    requires s != []
    ensures Cover(s, a) == Cover(Pop(s), a) + (if Contains(Top(s), a) then 1 else 0)
  {
    assert s == Pop(s) + [Top(s)];
    CoverConcat(Pop(s), [Top(s)], a);
  }

  lemma {:induction false} FreeCoverUpdate(free: seq<seq<Buffer>>, i: nat, bs: seq<Buffer>, a: nat)
    requires i < |free|
    ensures FreeCover(free[i := bs], a) == FreeCover(free, a) - Cover(free[i], a) + Cover(bs, a)
  {
    if i == 0 {
      assert free[i := bs][1..] == free[1..];
    } else {
      FreeCoverUpdate(free[1..], i - 1, bs, a);
      assert free[i := bs][1..] == free[1..][i - 1 := bs];
    }
  }

  lemma {:induction false} AreaConcat(s: seq<Region>, r: Region, a: nat)
    ensures Area(s + [r], a) == Area(s, a) + (if r.Has(a) then 1 else 0)
  {
    if s == [] {
      assert s + [r] == [r];
    } else {
      AreaConcat(s[1..], r, a);
      assert (s + [r])[1..] == s[1..] + [r];
    }
  }

  lemma {:induction false} BytesConcat(s: seq<Buffer>, t: seq<Buffer>)
    ensures Bytes(s + t) == Bytes(s) + Bytes(t)
  {
    if s == [] {
      assert s + t == t;
    } else {
      BytesConcat(s[1..], t);
      assert (s + t)[1..] == s[1..] + t;
    }
  }

  // ---------------------------------------------------------------------------
  // Splitting
  // ---------------------------------------------------------------------------

  lemma PlacedHalves(regions: seq<Region>, b: Buffer, h: pos)
    requires Placed(regions, b) && b.classSize == 2 * h
    ensures forall x :: x in Halves(b) ==> x.classSize == h && Placed(regions, x)
  {
    var k :| 0 <= k < |regions| && InRegion(regions[k], b);
    var r := regions[k];
    HalfMultiple(b.buf - r.base, h);
    assert (b.buf + h) - r.base == (b.buf - r.base) + h;
    forall x | x in Halves(b)
      ensures x.classSize == h && Placed(regions, x)
    {
      assert InRegion(r, x);
    }
  }

  lemma HalfMultiple(d: nat, h: pos)
    requires d % (2 * h) == 0
    ensures d % h == 0 && (d + h) % h == 0
  {
    var q := d / (2 * h);
    assert d == q * (2 * h);
    assert q * (2 * h) == (2 * q) * h;
    assert (2 * q + 1) * h == (2 * q) * h + h;
    Multiple(h, 2 * q, d);
    Multiple(h, 2 * q + 1, d + h);
  }

  lemma Multiple(h: pos, q: nat, d: nat)
    requires d == q * h
    ensures d % h == 0
  {
    var r, p := d % h, d / h;
    assert d == p * h + r;
    assert (q - p) * h == r by { assert (q - p) * h == q * h - p * h; }
    MulCancel(q - p, 1, h);
    MulCancel(-1, q - p, h);
  }

  ghost predicate ClassesOk(regions: seq<Region>, free: seq<seq<Buffer>>) {
    forall i: nat {:trigger free[i]} :: i < |free| ==> ClassOk(regions, free[i], i)
  }

  lemma ClassDoubles(i: pos)
    ensures ClassMax(i) == 2 * ClassMax(i - 1)
  {
  }

  lemma SplitKeeps(regions: seq<Region>, free: seq<seq<Buffer>>, i: nat)
    requires ClassesOk(regions, free) && 1 <= i < |free| && free[i] != [] && free[i - 1] == []
    ensures SplitOk(free, i) && ClassesOk(regions, Split(free, i))
    ensures forall a :: FreeCover(Split(free, i), a) == FreeCover(free, a)
    ensures Split(free, i)[i - 1] != [] && forall k :: 0 <= k < i - 1 ==> Split(free, i)[k] == free[k]
  {
    hide FreeCover, Cover, ClassMax, ClassesOk;
    SplitClasses(regions, free, i);
    ClassDoubles(i);
    assert free[i - 1] + Halves(Top(free[i])) == Halves(Top(free[i]));
    forall a: nat
      ensures FreeCover(Split(free, i), a) == FreeCover(free, a)
    {
      SplitCover(free, i, ClassMax(i - 1), a);
    }
  }

  lemma SplitClasses(regions: seq<Region>, free: seq<seq<Buffer>>, i: nat)
    requires ClassesOk(regions, free) && 1 <= i < |free| && free[i] != [] && free[i - 1] == []
    ensures SplitOk(free, i) && ClassesOk(regions, Split(free, i))
  {
    hide ClassMax, Placed;
    var b := Top(free[i]);
    assert b in free[i];
    ClassDoubles(i);
    PlacedHalves(regions, b, ClassMax(i - 1));
    assert free[i - 1] + Halves(b) == Halves(b);
    assert forall x :: x in Pop(free[i]) ==> x in free[i];
    var free' := Split(free, i);
    forall j: nat | j < |free|
      ensures ClassOk(regions, free'[j], j)
    {
      assert ClassOk(regions, free[j], j);
    }
  }

  lemma SplitCover(free: seq<seq<Buffer>>, i: nat, h: pos, a: nat)
    requires SplitOk(free, i) && Top(free[i]).classSize == 2 * h
    ensures FreeCover(Split(free, i), a) == FreeCover(free, a)
  {
    var b, mid := Top(free[i]), free[i := Pop(free[i])];
    assert free[i - 1] + Halves(b) == Halves(b);
    CoverPop(free[i], a);
    FreeCoverUpdate(free, i, Pop(free[i]), a);
    FreeCoverUpdate(mid, i - 1, Halves(b), a);
    HalvesCover(b, h, a);
  }

  lemma HalvesCover(b: Buffer, h: pos, a: nat)
    requires b.classSize == 2 * h
    ensures Cover(Halves(b), a) == if Contains(b, a) then 1 else 0
  {
    var x, y := Halves(b)[0], Halves(b)[1];
    assert Halves(b) == [x] + [y];
    CoverConcat([x], [y], a);
    CoverOne(x, a);
    CoverOne(y, a);
  }

  /** The cascade of splits meets only empty classes, and leaves a buffer of the wanted one. */
  lemma {:induction false} CascadeKeeps(regions: seq<Region>, free: seq<seq<Buffer>>, from: nat, to: nat)
    requires ClassesOk(regions, free) && to <= from < |free| && free[from] != []
    requires forall k :: to <= k < from ==> free[k] == []
    ensures SplitDownOk(free, from, to) && ClassesOk(regions, SplitDown(free, from, to))
    ensures forall a :: FreeCover(SplitDown(free, from, to), a) == FreeCover(free, a)
    ensures SplitDown(free, from, to)[to] != []
    decreases from
  {
    if from > to {
      SplitKeeps(regions, free, from);
      CascadeKeeps(regions, Split(free, from), from - 1, to);
    }
  }

  // ---------------------------------------------------------------------------
  // Reserving
  // ---------------------------------------------------------------------------

  lemma {:induction false} CarveCover(g: Grant, n: nat, a: nat)
    ensures Cover(Carve(g, n), a) == if g.base <= a < g.base + n * MAX_CLASS then 1 else 0
  {
    if n > 0 {
      CarveCover(g, n - 1, a);
      var b := Buffer(g.base + (n - 1) * MAX_CLASS, MAX_CLASS, g.lkey);
      assert Carve(g, n) == Carve(g, n - 1) + [b];
      CoverConcat(Carve(g, n - 1), [b], a);
    }
  }

  lemma CarvePlaced(r: Region, regions: seq<Region>, g: Grant)
    requires r == Region(g.base, r.size, g.lkey) && r in regions
    ensures forall b :: b in Carve(g, r.size / MAX_CLASS) ==> b.classSize == MAX_CLASS && Placed(regions, b)
  {
    var n := r.size / MAX_CLASS;
    forall b | b in Carve(g, n)
      ensures b.classSize == MAX_CLASS && Placed(regions, b)
    {
      var i :| 0 <= i < n && Carve(g, n)[i] == b;
      Multiple(MAX_CLASS, i, b.buf - g.base);
      assert InRegion(r, b);
    }
  }

  lemma PlacedGrows(regions: seq<Region>, r: Region, b: Buffer)
    requires Placed(regions, b)
    ensures Placed(regions + [r], b)
  {
    var k :| 0 <= k < |regions| && InRegion(regions[k], b);
    assert InRegion((regions + [r])[k], b);
  }

  /** A reservation of at least one largest buffer keeps the tiling. */
  lemma GrowKeeps(h: Heap, out: seq<Buffer>, g: Grant)
    requires Inv(h, out) && GrantOk(h, g)
    ensures Inv(Grow(h, g), out) && Grow(h, g).free[NUM_CLASSES - 1] != []
    ensures forall k :: 0 <= k < NUM_CLASSES - 1 ==> Grow(h, g).free[k] == h.free[k]
  {
    var top, n := NUM_CLASSES - 1, 2 * h.prev / MAX_CLASS;
    var r := Region(g.base, 2 * h.prev, g.lkey);
    var h', regions' := Grow(h, g), h.regions + [r];
    TopClass();
    CarvePlaced(r, regions', g);
    assert n >= 1;
    forall a: nat
      ensures TiledAt(h', out, a)
    {
      assert TiledAt(h, out, a);
      CarveCover(g, n, a);
      CoverConcat(h.free[top], Carve(g, n), a);
      FreeCoverUpdate(h.free, top, h.free[top] + Carve(g, n), a);
      AreaConcat(h.regions, r, a);
    }
    forall i: nat | i < NUM_CLASSES
      ensures ClassOk(regions', h'.free[i], i)
    {
      forall b | b in h'.free[i]
        ensures b.classSize == ClassMax(i) && Placed(regions', b)
      {
        if b in h.free[i] {
          PlacedGrows(h.regions, r, b);
        }
      }
    }
    forall b | b in out
      ensures OutOk(regions', b)
    {
      PlacedGrows(h.regions, r, b);
    }
  }

  // ---------------------------------------------------------------------------
  // Allocating and freeing
  // ---------------------------------------------------------------------------

  lemma TakeKeeps(h: Heap, out: seq<Buffer>, i: nat)
    requires Inv(h, out) && i < NUM_CLASSES && h.free[i] != []
    ensures TakeOk(h, i)
    ensures var (h', r) := Take(h, i);
            r.Some? && r.value.classSize == ClassMax(i) && Inv(h', out + [r.value])
  {
    var b := Top(h.free[i]);
    var h', out' := Take(h, i).0, out + [b];
    assert b in h.free[i];
    assert forall x :: x in Pop(h.free[i]) ==> x in h.free[i];
    assert OutOk(h.regions, b);
    BytesConcat(out, [b]);
    forall a: nat
      ensures TiledAt(h', out', a)
    {
      assert TiledAt(h, out, a);
      CoverPop(h.free[i], a);
      FreeCoverUpdate(h.free, i, Pop(h.free[i]), a);
      CoverConcat(out, [b], a);
    }
  }

  lemma CutKeeps(h: Heap, out: seq<Buffer>, from: nat, to: nat)
    requires Inv(h, out) && to <= from < NUM_CLASSES && h.free[from] != []
    requires forall k :: to <= k < from ==> h.free[k] == []
    ensures CutOk(h, from, to)
    ensures var (h', r) := Cut(h, from, to);
            r.Some? && r.value.classSize == ClassMax(to) && Inv(h', out + [r.value])
  {
    CascadeKeeps(h.regions, h.free, from, to);
    var h1 := h.(free := SplitDown(h.free, from, to));
    forall a: nat
      ensures TiledAt(h1, out, a)
    {
      assert TiledAt(h, out, a);
    }
    TakeKeeps(h1, out, to);
  }

  /** An allocation returns a buffer of the least class that fits, or fails: exactly when
      neither its class nor a larger one has a free buffer and the operating system grants
      no memory; then nothing has changed. The tiling is kept in every case. */
  lemma AllocKeeps(h: Heap, out: seq<Buffer>, size: pos, grant: Option<Grant>)
    requires Inv(h, out) && size <= MAX_CLASS
    requires grant.Some? ==> GrantOk(h, grant.value)
    ensures AllocOk(h, size, grant)
    ensures var (h', r), c := Alloc(h, size, grant), GetClass(size);
      && (r.None? <==> grant.None? && forall i: nat :: c <= i < NUM_CLASSES ==> h.free[i] == [])
      && (r.None? ==> h' == h)
      && (r.Some? ==> r.value.classSize == ClassMax(c) && Inv(h', out + [r.value]))
  {
    ClassInRange(size);
    var c := GetClass(size);
    var from := FirstFree(h.free, c);
    if from < NUM_CLASSES {
      CutKeeps(h, out, from, c);
    } else if grant.Some? {
      GrowKeeps(h, out, grant.value);
      CutKeeps(Grow(h, grant.value), out, NUM_CLASSES - 1, c);
    }
  }

  /** Memory is reserved only when no free buffer is large enough, and then one region of twice
      the size of the last one; in any other case the reservations stay as they are. */
  lemma AllocReserves(h: Heap, out: seq<Buffer>, size: pos, grant: Option<Grant>)
    requires Inv(h, out) && size <= MAX_CLASS
    requires grant.Some? ==> GrantOk(h, grant.value)
    ensures AllocOk(h, size, grant)
    ensures var h' := Alloc(h, size, grant).0;
      if grant.Some? && forall i: nat :: GetClass(size) <= i < NUM_CLASSES ==> h.free[i] == []
      then h'.regions == h.regions + [Region(grant.value.base, 2 * h.prev, grant.value.lkey)] && h'.prev == 2 * h.prev
      else h'.regions == h.regions && h'.prev == h.prev
  {
    AllocKeeps(h, out, size, grant);
  }

  /** Each region is twice as large as the one before, and the last one as `prev` says. */
  ghost predicate Doubling(h: Heap) {
    && (h.regions != [] ==> h.regions[|h.regions| - 1].size == h.prev)
    && forall k {:trigger h.regions[k]} :: 0 < k < |h.regions| ==> h.regions[k].size == 2 * h.regions[k - 1].size
  }

  lemma AllocDoubles(h: Heap, out: seq<Buffer>, size: pos, grant: Option<Grant>)
    requires Inv(h, out) && size <= MAX_CLASS && Doubling(h)
    requires grant.Some? ==> GrantOk(h, grant.value)
    ensures AllocOk(h, size, grant) && Doubling(Alloc(h, size, grant).0)
  {
    AllocReserves(h, out, size, grant);
  }

  /** So the number of reservations is logarithmic in the memory reserved. */
  lemma {:induction false} FewReservations(h: Heap, k: nat)
    requires Doubling(h) && k < |h.regions|
    ensures h.regions[k].size == Pow2(k) * h.regions[0].size
  {
    hide Pow2;
    Pow2Step(k, h.regions[0].size);
    if k > 0 {
      FewReservations(h, k - 1);
    }
  }

  lemma Pow2Step(k: nat, x: nat)
    ensures Pow2(k) * x == if k == 0 then x else 2 * (Pow2(k - 1) * x)
  {
  }

  lemma ClassOfClass(i: nat)
    requires i < NUM_CLASSES
    ensures ClassMax(i) <= MAX_CLASS && GetClass(ClassMax(i)) == i
  {
    TopClass();
    Pow2Mono(i, NUM_CLASSES - 1);
    ClassIsLeast(ClassMax(i), i);
    if GetClass(ClassMax(i)) < i {
      Pow2Mono(GetClass(ClassMax(i)), i - 1);
    }
  }

  /** Freeing a handed-out buffer puts it back in its class. */
  lemma FreeKeeps(h: Heap, out: seq<Buffer>, k: nat)
    requires Inv(h, out) && k < |out|
    ensures FreeOk(h, out[k])
    ensures Inv(Free(h, out[k]), out[..k] + out[k + 1..])
  {
    var b, out' := out[k], out[..k] + out[k + 1..];
    assert OutOk(h.regions, b);
    var i: nat :| i < NUM_CLASSES && b.classSize == ClassMax(i);
    ClassOfClass(i);
    assert out == out[..k] + ([b] + out[k + 1..]);
    BytesConcat(out[..k], [b] + out[k + 1..]);
    BytesConcat([b], out[k + 1..]);
    BytesConcat(out[..k], out[k + 1..]);
    var h' := Free(h, b);
    forall a: nat
      ensures TiledAt(h', out', a)
    {
      assert TiledAt(h, out, a);
      CoverConcat(out[..k], [b] + out[k + 1..], a);
      CoverConcat([b], out[k + 1..], a);
      CoverConcat(out[..k], out[k + 1..], a);
      CoverConcat(h.free[i], [b], a);
      FreeCoverUpdate(h.free, i, h.free[i] + [b], a);
    }
    assert forall x :: x in out' ==> x in out;
  }

  lemma {:induction false} NoCover(free: seq<seq<Buffer>>, a: nat)
    requires forall i :: 0 <= i < |free| ==> free[i] == []
    ensures FreeCover(free, a) == 0
  {
    if free != [] {
      NoCover(free[1..], a);
    }
  }

  lemma InitInv(initialSize: nat)
    ensures Inv(InitHeap(initialSize), [])
  {
    var h := InitHeap(initialSize);
    forall a: nat
      ensures TiledAt(h, [], a)
    {
      NoCover(h.free, a);
    }
  }

  // ---------------------------------------------------------------------------
  // Consequences
  // ---------------------------------------------------------------------------

  lemma {:induction false} CoverAt(s: seq<Buffer>, i: nat, a: nat)
    requires i < |s| && Contains(s[i], a)
    ensures Cover(s, a) >= 1
  {
    if i > 0 {
      CoverAt(s[1..], i - 1, a);
    }
  }

  lemma {:induction false} CoverTwo(s: seq<Buffer>, i: nat, j: nat, a: nat)
    requires i < j < |s| && Contains(s[i], a) && Contains(s[j], a)
    ensures Cover(s, a) >= 2
  {
    if i > 0 {
      CoverTwo(s[1..], i - 1, j - 1, a);
    } else {
      CoverAt(s[1..], j - 1, a);
    }
  }

  lemma {:induction false} FreeCoverAt(free: seq<seq<Buffer>>, c: nat, a: nat)
    requires c < |free|
    ensures Cover(free[c], a) <= FreeCover(free, a)
  {
    if c > 0 {
      FreeCoverAt(free[1..], c - 1, a);
    }
  }

  /** Handed-out buffers never overlap each other or a free buffer. */
  lemma NeverOverlap(h: Heap, out: seq<Buffer>, i: nat, a: nat)
    requires Inv(h, out) && i < |out| && Contains(out[i], a)
    ensures forall j: nat :: j < |out| && j != i ==> !Contains(out[j], a)
    ensures forall c: nat, k: nat :: c < NUM_CLASSES && k < |h.free[c]| ==> !Contains(h.free[c][k], a)
    ensures Area(h.regions, a) == 1
  {
    assert TiledAt(h, out, a);
    CoverAt(out, i, a);
    forall j: nat | j < |out| && j != i
      ensures !Contains(out[j], a)
    {
      if Contains(out[j], a) {
        CoverTwo(out, if i < j then i else j, if i < j then j else i, a);
      }
    }
    forall c: nat, k: nat | c < NUM_CLASSES && k < |h.free[c]|
      ensures !Contains(h.free[c][k], a)
    {
      if Contains(h.free[c][k], a) {
        CoverAt(h.free[c], k, a);
        FreeCoverAt(h.free, c, a);
      }
    }
  }
}
