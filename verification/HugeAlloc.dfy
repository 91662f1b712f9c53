/** The hugepage allocator in the form the program has it: free lists searched, split and
    refilled in place. It computes exactly the operations of `HugeAllocSpec`. */
module HugeAlloc {
  import opened Wire
  import opened SizeClasses
  import opened HugeAllocSpec
  import opened HugeAllocProof

  class Allocator {
    const freelist: array<seq<Buffer>>
    var shmList: seq<Region>
    var prevAllocationSize: nat
    var shmReserved: nat
    var userAllocTot: nat
    ghost var out: seq<Buffer>      // the handed-out buffers

    ghost function View(): Heap
      reads this, freelist
    {
      Heap(freelist[..], shmList, prevAllocationSize, shmReserved, userAllocTot)
    }

    ghost predicate Valid()
      reads this, freelist
    {
      freelist.Length == NUM_CLASSES && Inv(View(), out)
    }

    constructor (initialSize: nat)
      ensures Valid() && fresh(freelist) && out == [] && View() == InitHeap(initialSize)
    {
      freelist := new seq<Buffer>[NUM_CLASSES](_ => []);
      shmList, shmReserved, userAllocTot, out := [], 0, 0, [];
      prevAllocationSize := if initialSize < MAX_CLASS then MAX_CLASS else initialSize;
      new;
      assert freelist[..] == InitHeap(initialSize).free;
      InitInv(initialSize);
    }

    method SplitSt(sizeClass: nat)
      requires SplitOk(freelist[..], sizeClass)
      modifies freelist
      ensures freelist[..] == Split(old(freelist[..]), sizeClass)
    {
      var s := freelist[sizeClass];
      var buffer := s[|s| - 1];
      freelist[sizeClass] := s[..|s| - 1];
      var half := buffer.classSize / 2;
      freelist[sizeClass - 1] := freelist[sizeClass - 1] + [Buffer(buffer.buf, half, buffer.lkey)];
      freelist[sizeClass - 1] := freelist[sizeClass - 1] + [Buffer(buffer.buf + half, half, buffer.lkey)];
      assert freelist[sizeClass - 1] == old(freelist[sizeClass - 1]) + Halves(buffer);
    }

    /** Split from class `from` down to class `to`. */
    method SplitDownSt(from: nat, to: nat)
      requires to <= from && SplitDownOk(freelist[..], from, to)
      modifies freelist
      ensures freelist[..] == SplitDown(old(freelist[..]), from, to)
    {
      var nextClass := from;
      while nextClass != to
        invariant to <= nextClass && SplitDownOk(freelist[..], nextClass, to)
        invariant SplitDown(freelist[..], nextClass, to) == SplitDown(old(freelist[..]), from, to)
        decreases nextClass
      {
        SplitSt(nextClass);
        nextClass := nextClass - 1;
      }
    }

    method AllocFromClass(sizeClass: nat) returns (b: Buffer)
      requires TakeOk(View(), sizeClass)
      modifies this`userAllocTot, freelist
      ensures (View(), Some(b)) == Take(old(View()), sizeClass)
    {
      var s := freelist[sizeClass];
      b := s[|s| - 1];
      freelist[sizeClass] := s[..|s| - 1];
      userAllocTot := userAllocTot + b.classSize;
    }

    /** `grant` is the operating system's answer to the reservation. */
    method ReserveHugepages(size: nat, grant: Option<Grant>) returns (success: bool)
      requires freelist.Length == NUM_CLASSES
      modifies this`shmList, this`shmReserved, freelist
      ensures success == grant.Some?
      ensures View() == if success then Reserve(old(View()), size, grant.value) else old(View())
    {
      if grant.None? { return false; }
      var g := grant.value;
      shmList := shmList + [Region(g.base, size, g.lkey)];
      shmReserved := shmReserved + RoundUpPage(size);
      var numBuffers := size / MAX_CLASS;
      var i, top := 0, NUM_CLASSES - 1;
      assert Carve(g, 0) == [];
      while i < numBuffers
        invariant 0 <= i <= numBuffers
        invariant shmList == old(shmList) + [Region(g.base, size, g.lkey)]
        invariant shmReserved == old(shmReserved) + RoundUpPage(size)
        invariant freelist[top] == old(freelist[top]) + Carve(g, i)
        invariant forall j :: 0 <= j < top ==> freelist[j] == old(freelist[j])
      {
        assert Carve(g, i + 1) == Carve(g, i) + [Buffer(g.base + i * MAX_CLASS, MAX_CLASS, g.lkey)];
        freelist[top] := freelist[top] + [Buffer(g.base + i * MAX_CLASS, MAX_CLASS, g.lkey)];
        i := i + 1;
      }
      assert freelist[..] == Reserve(old(View()), size, g).free;
      return true;
    }

    method FindFree(sizeClass: nat) returns (nextClass: nat)
      requires freelist.Length == NUM_CLASSES && sizeClass <= NUM_CLASSES
      ensures nextClass == FirstFree(freelist[..], sizeClass)
    {
      nextClass := sizeClass;
      while nextClass < NUM_CLASSES
        invariant nextClass <= NUM_CLASSES
        invariant FirstFree(freelist[..], nextClass) == FirstFree(freelist[..], sizeClass)
      {
        if freelist[nextClass] != [] { break; }
        nextClass := nextClass + 1;
      }
    }

    /** Allocate a buffer of the class of `size`. `grant` is the operating system's answer if
        the free lists are exhausted. */
    method AllocSt(size: pos, grant: Option<Grant>) returns (b: Option<Buffer>)
      requires Valid() && size <= MAX_CLASS && (grant.Some? ==> GrantOk(View(), grant.value))
      modifies this, freelist
      ensures AllocOk(old(View()), size, grant) && (View(), b) == Alloc(old(View()), size, grant)
      ensures Valid() && out == old(out) + (if b.Some? then [b.value] else [])
    {
      hide Inv;
      AllocKeeps(View(), out, size, grant);
      var sizeClass := GetClass(size);
      ghost var start := View();
      var nextClass := FindFree(sizeClass);
      if nextClass == NUM_CLASSES {
        prevAllocationSize := prevAllocationSize * 2;
        var success := ReserveHugepages(prevAllocationSize, grant);
        if !success {
          prevAllocationSize := prevAllocationSize / 2;
          assert out + [] == out;
          return None;
        }
        nextClass := NUM_CLASSES - 1;
        assert View() == Grow(start, grant.value);
      }
      SplitDownSt(nextClass, sizeClass);
      var buffer := AllocFromClass(sizeClass);
      b := Some(buffer);
      out := out + [buffer];
    }

    /** Give back a handed-out buffer. */
    method FreeBuf(b: Buffer)
      requires Valid() && b in out
      modifies this, freelist
      ensures FreeOk(old(View()), b) && View() == Free(old(View()), b)
      ensures Valid() && multiset(out) == old(multiset(out)) - multiset{b}
    {
      ghost var k :| 0 <= k < |out| && out[k] == b;
      FreeKeeps(View(), out, k);
      hide Inv;
      assert out == out[..k] + [b] + out[k + 1..];
      var sizeClass := GetClass(b.classSize);
      freelist[sizeClass] := freelist[sizeClass] + [b];
      userAllocTot := userAllocTot - b.classSize;
      out := out[..k] + out[k + 1..];
    }
  }
}
