/** A pool of equally sized objects carved from hugepage memory, which is never returned.
    Objects are named by their position in that memory. */
module MemPool {
  /** Two megabytes of 64-byte objects. */
  const INITIAL_OBJECTS := 32768

  class Pool {
    var pool: seq<nat>          // a stack of free objects
    var numToAlloc: nat
    var end: nat                // objects from the first to here have been carved

    constructor (first: nat)
      ensures pool == [] && end == first && numToAlloc == INITIAL_OBJECTS
    {
      pool, end, numToAlloc := [], first, INITIAL_OBJECTS;
    }

    /** Carve twice as many objects as the last time. */
    method ExtendPool()
      modifies this
      ensures end == old(end) + old(numToAlloc) && numToAlloc == 2 * old(numToAlloc)
      ensures pool == old(pool) + seq(old(numToAlloc), i requires 0 <= i => old(end) + i)
    {
      ghost var before, start := pool, end;
      var i := 0;
      while i < numToAlloc
        invariant 0 <= i <= numToAlloc == old(numToAlloc) && end == start
        invariant pool == before + seq(i, j requires 0 <= j => start + j)
      {
        pool := pool + [end + i];
        i := i + 1;
      }
      end := end + numToAlloc;
      numToAlloc := numToAlloc * 2;
    }

    /** A free object: from the pool, or else newly carved. */
    method Alloc() returns (b: nat)
      requires numToAlloc > 0
      modifies this
      ensures numToAlloc > 0
      ensures if old(pool) != [] then old(pool) == pool + [b] && end == old(end) && numToAlloc == old(numToAlloc)
              else
                && end == old(end) + old(numToAlloc) && numToAlloc == 2 * old(numToAlloc)
                && pool + [b] == seq(end - old(end), i requires 0 <= i => old(end) + i)
    {
      if |pool| == 0 {
        ExtendPool();
      }
      b := pool[|pool| - 1];
      pool := pool[..|pool| - 1];
    }

    method Free(b: nat)
      modifies this`pool
      ensures pool == old(pool) + [b]
    {
      pool := pool + [b];
    }
  }
}
