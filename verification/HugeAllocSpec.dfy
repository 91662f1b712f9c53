/** The hugepage allocator as a value: one free list for each size class, larger buffers
    split on demand, and memory reserved from the operating system when none is left. Free
    and handed-out buffers always tile the reserved memory exactly. */
module HugeAllocSpec {
  import opened Wire
  import opened SizeClasses

  const HUGEPAGE: pos := 2097152

  datatype Buffer = Buffer(buf: nat, classSize: nat, lkey: nat)

  /** A reservation: its address, requested size and registration key. */
  datatype Region = Region(base: nat, size: nat, lkey: nat) {
    /** The part that is cut into buffers of the largest class. */
    function ClassBytes(): nat {
      (size / MAX_CLASS) * MAX_CLASS
    }

    predicate Has(a: nat) {
      base <= a < base + ClassBytes()
    }
  }

  datatype Heap = Heap(free: seq<seq<Buffer>>, regions: seq<Region>, prev: nat, shmReserved: nat, userTot: nat)

  /** The operating system's answer to a reservation: an address and a key, or none. */
  datatype Grant = Grant(base: nat, lkey: nat)

  function InitHeap(initialSize: nat): Heap {
    Heap(seq(NUM_CLASSES, _ => []), [], if initialSize < MAX_CLASS then MAX_CLASS else initialSize, 0, 0)
  }

  // ---------------------------------------------------------------------------
  // Operations
  // ---------------------------------------------------------------------------

  function Top(s: seq<Buffer>): Buffer
    requires s != []
  {
    s[|s| - 1]
  }

  function Pop(s: seq<Buffer>): seq<Buffer>
    requires s != []
  {
    s[..|s| - 1]
  }

  function Halves(b: Buffer): seq<Buffer> {
    [Buffer(b.buf, b.classSize / 2, b.lkey), Buffer(b.buf + b.classSize / 2, b.classSize / 2, b.lkey)]
  }

  predicate SplitOk(free: seq<seq<Buffer>>, i: nat) {
    && 1 <= i < |free|
    && free[i] != [] && free[i - 1] == []
    && Top(free[i]).classSize == ClassMax(i)
  }

  function Split(free: seq<seq<Buffer>>, i: nat): (r: seq<seq<Buffer>>)
    requires SplitOk(free, i)
    ensures |r| == |free|
  {
    free[i := Pop(free[i])][i - 1 := free[i - 1] + Halves(Top(free[i]))]
  }

  predicate SplitDownOk(free: seq<seq<Buffer>>, from: nat, to: nat)
    decreases from
  {
    from > to ==> SplitOk(free, from) && SplitDownOk(Split(free, from), from - 1, to)
  }

  /** Split a buffer of class `from` down to class `to`. */
  function SplitDown(free: seq<seq<Buffer>>, from: nat, to: nat): (r: seq<seq<Buffer>>)
    requires SplitDownOk(free, from, to)
    ensures |r| == |free|
    decreases from
  {
    if from > to then SplitDown(Split(free, from), from - 1, to) else free
  }

  /** The first class from `i` on with a free buffer. */
  function FirstFree(free: seq<seq<Buffer>>, i: nat): (j: nat)
    requires i <= |free|
    ensures i <= j <= |free| && (j < |free| ==> free[j] != [])
    ensures forall k :: i <= k < j ==> free[k] == []
    decreases |free| - i
  {
    if i == |free| || free[i] != [] then i else FirstFree(free, i + 1)
  }

  function Carve(g: Grant, n: nat): seq<Buffer> {
    seq(n, i requires 0 <= i => Buffer(g.base + i * MAX_CLASS, MAX_CLASS, g.lkey))
  }

  function RoundUpPage(size: nat): nat {
    (size + HUGEPAGE - 1) / HUGEPAGE * HUGEPAGE
  }

  /** Add the buffers of a new reservation to the largest class. */
  function Reserve(h: Heap, size: nat, g: Grant): Heap
    requires |h.free| == NUM_CLASSES
  {
    var top := NUM_CLASSES - 1;
    h.(free := h.free[top := h.free[top] + Carve(g, size / MAX_CLASS)],
       regions := h.regions + [Region(g.base, size, g.lkey)],
       shmReserved := h.shmReserved + RoundUpPage(size))
  }

  predicate TakeOk(h: Heap, i: nat) {
    i < |h.free| && h.free[i] != []
  }

  /** Hand out the last buffer of a class. */
  function Take(h: Heap, i: nat): (Heap, Option<Buffer>)
    requires TakeOk(h, i)
  {
    var b := Top(h.free[i]);
    (h.(free := h.free[i := Pop(h.free[i])], userTot := h.userTot + b.classSize), Some(b))
  }

  /** Split from class `from` and hand out. */
  predicate CutOk(h: Heap, from: nat, to: nat) {
    SplitDownOk(h.free, from, to) && TakeOk(h.(free := SplitDown(h.free, from, to)), to)
  }

  function Cut(h: Heap, from: nat, to: nat): (Heap, Option<Buffer>)
    requires CutOk(h, from, to)
  {
    Take(h.(free := SplitDown(h.free, from, to)), to)
  }

  /** The heap after a reservation of twice the previous size. */
  function Grow(h: Heap, g: Grant): Heap
    requires |h.free| == NUM_CLASSES
  {
    Reserve(h.(prev := 2 * h.prev), 2 * h.prev, g)
  }

  predicate AllocOk(h: Heap, size: pos, grant: Option<Grant>) {
    && |h.free| == NUM_CLASSES && size <= MAX_CLASS && GetClass(size) < NUM_CLASSES
    && var c, from := GetClass(size), FirstFree(h.free, GetClass(size));
       if from < NUM_CLASSES then CutOk(h, from, c)
       else grant.Some? ==> 2 * h.prev >= MAX_CLASS && CutOk(Grow(h, grant.value), NUM_CLASSES - 1, c)
  }

  /** Allocate from the first class that has a free buffer, or from new memory. */
  function Alloc(h: Heap, size: pos, grant: Option<Grant>): (Heap, Option<Buffer>)
    requires AllocOk(h, size, grant)
  {
    var c, from := GetClass(size), FirstFree(h.free, GetClass(size));
    if from < NUM_CLASSES then Cut(h, from, c)
    else if grant.None? then (h, None)
    else Cut(Grow(h, grant.value), NUM_CLASSES - 1, c)
  }

  predicate FreeOk(h: Heap, b: Buffer) {
    && 1 <= b.classSize <= MAX_CLASS && GetClass(b.classSize) < |h.free|
    && ClassMax(GetClass(b.classSize)) == b.classSize
    && b.classSize <= h.userTot
  }

  function Free(h: Heap, b: Buffer): Heap
    requires FreeOk(h, b)
  {
    var c := GetClass(b.classSize);
    h.(free := h.free[c := h.free[c] + [b]], userTot := h.userTot - b.classSize)
  }

  // ---------------------------------------------------------------------------
  // Tiling
  // ---------------------------------------------------------------------------

  predicate Contains(b: Buffer, a: nat) {
    b.buf <= a < b.buf + b.classSize
  }

  /** How many buffers of a list contain address `a`. */
  ghost function Cover(bs: seq<Buffer>, a: nat): nat {
    if bs == [] then 0 else (if Contains(bs[0], a) then 1 else 0) + Cover(bs[1..], a)
  }

  ghost function FreeCover(free: seq<seq<Buffer>>, a: nat): nat {
    if free == [] then 0 else Cover(free[0], a) + FreeCover(free[1..], a)
  }

  /** How many reservations have `a` in their class memory. */
  ghost function Area(regions: seq<Region>, a: nat): nat {
    if regions == [] then 0 else (if regions[0].Has(a) then 1 else 0) + Area(regions[1..], a)
  }

  /** Every address of the reserved class memory is in exactly one buffer, free or handed
      out, and no other address is in any. */
  ghost predicate TiledAt(h: Heap, out: seq<Buffer>, a: nat) {
    FreeCover(h.free, a) + Cover(out, a) == Area(h.regions, a) <= 1
  }

  /** A buffer lies in a reservation at a multiple of its size, and has its key. */
  ghost predicate InRegion(r: Region, b: Buffer) {
    && r.base <= b.buf && b.buf + b.classSize <= r.base + r.ClassBytes()
    && b.lkey == r.lkey && b.classSize > 0 && (b.buf - r.base) % b.classSize == 0
  }

  ghost predicate Placed(regions: seq<Region>, b: Buffer) {
    exists k :: 0 <= k < |regions| && InRegion(regions[k], b)
  }

  ghost predicate ClassOk(regions: seq<Region>, bs: seq<Buffer>, i: nat) {
    forall b :: b in bs ==> b.classSize == ClassMax(i) && Placed(regions, b)
  }

  ghost function Bytes(bs: seq<Buffer>): nat {
    if bs == [] then 0 else bs[0].classSize + Bytes(bs[1..])
  }

  ghost predicate OutOk(regions: seq<Region>, b: Buffer) {
    && (exists i: nat :: i < NUM_CLASSES && b.classSize == ClassMax(i))
    && Placed(regions, b)
  }

  /** `out` lists the handed-out buffers. */
  ghost predicate Inv(h: Heap, out: seq<Buffer>) {
    && |h.free| == NUM_CLASSES && h.prev >= MAX_CLASS
    && (forall a: nat {:trigger TiledAt(h, out, a)} :: TiledAt(h, out, a))
    && (forall i: nat {:trigger h.free[i]} :: i < NUM_CLASSES ==> ClassOk(h.regions, h.free[i], i))
    && (forall b :: b in out ==> OutOk(h.regions, b))
    && h.userTot == Bytes(out)
  }

  /** The operating system never grants memory that overlaps an earlier reservation. */
  ghost predicate GrantOk(h: Heap, g: Grant) {
    forall a: nat :: Region(g.base, 2 * h.prev, g.lkey).Has(a) ==> Area(h.regions, a) == 0
  }
}
