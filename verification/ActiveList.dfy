/** The intrusive list of slots with an active request: doubly linked through the slots,
    between a root and a tail sentinel. It is a sequence to which slots are appended and
    from which any slot is unlinked. */
module ActiveList {
  import opened ClientSpec
  import opened Protocol
  import opened ListFacts

  /** The `k`th node of the chain and its successor point at each other. */
  ghost predicate LinkAt(next: seq<nat>, prev: seq<nat>, c: seq<nat>, k: nat) {
    && k + 1 < |c| && c[k] < |next| && c[k + 1] < |prev|
    && next[c[k]] == c[k + 1] && prev[c[k + 1]] == c[k]
  }

  ghost predicate Links(next: seq<nat>, prev: seq<nat>, c: seq<nat>) {
    && |next| == |prev|
    && forall k: nat {:trigger LinkAt(next, prev, c, k)} :: k + 1 < |c| ==> LinkAt(next, prev, c, k)
  }

  /** Pointing the neighbours of a node at each other takes the node out of the chain. */
  lemma Bypass(next: seq<nat>, prev: seq<nat>, c: seq<nat>, j: nat)
    requires Links(next, prev, c) && NoDup(c) && j + 2 < |c|
    requires c[j] < |next| && c[j + 2] < |prev|
    ensures Links(next[c[j] := c[j + 2]], prev[c[j + 2] := c[j]], c[..j + 1] + c[j + 2..])
  {
    var next', prev', c' := next[c[j] := c[j + 2]], prev[c[j + 2] := c[j]], c[..j + 1] + c[j + 2..];
    forall k: nat | k + 1 < |c'|
      ensures LinkAt(next', prev', c', k)
    {
      assert LinkAt(next, prev, c, j) && LinkAt(next, prev, c, j + 1);
      if k < j {
        assert LinkAt(next, prev, c, k);
      } else if k > j {
        assert LinkAt(next, prev, c, k + 1);
      }
    }
  }

  /** Linking a new node before the last one inserts it there. */
  lemma Insert(next: seq<nat>, prev: seq<nat>, c: seq<nat>, i: nat)
    requires Links(next, prev, c) && NoDup(c) && |c| >= 2 && i !in c && i < |next|
    requires c[|c| - 2] < |next| && c[|c| - 1] < |prev|
    ensures Links(next[c[|c| - 2] := i][i := c[|c| - 1]], prev[i := c[|c| - 2]][c[|c| - 1] := i],
                  c[..|c| - 1] + [i, c[|c| - 1]])
  {
    var m := |c| - 2;
    var next', prev', c' := next[c[m] := i][i := c[m + 1]], prev[i := c[m]][c[m + 1] := i], c[..m + 1] + [i, c[m + 1]];
    forall k: nat | k + 1 < |c'|
      ensures LinkAt(next', prev', c', k)
    {
      if k < m {
        assert LinkAt(next, prev, c, k);
      }
    }
  }

  class List {
    const n: nat                // slots are 0..n-1, the root sentinel n, the tail sentinel n+1
    const next: array<nat>
    const prev: array<nat>
    ghost var order: seq<nat>

    ghost function Chain(): seq<nat>
      reads this
    {
      [n] + order + [n + 1]
    }

    ghost predicate Valid()
      reads this, next, prev
    {
      && next.Length == prev.Length == n + 2 && next != prev
      && NoDup(order) && (forall x :: x in order ==> x < n)
      && Links(next[..], prev[..], Chain())
    }

    constructor (n: nat)
      ensures Valid() && this.n == n && order == [] && fresh(next) && fresh(prev)
    {
      this.n := n;
      next := new nat[n + 2](_ => n + 1);
      prev := new nat[n + 2](_ => n);
      order := [];
      new;
      assert Chain() == [n, n + 1];
    }

    method Add(i: nat)
      requires Valid() && i < n && i !in order
      modifies this`order, next, prev
      ensures Valid() && order == old(order) + [i]
    {
      ghost var c := Chain();
      ChainNoDup(order, n);
      assert LinkAt(next[..], prev[..], c, |order|);
      Insert(next[..], prev[..], c, i);
      var prevTail := prev[n + 1];
      next[prevTail] := i;
      prev[i] := prevTail;
      next[i] := n + 1;
      prev[n + 1] := i;
      order := order + [i];
      assert Chain() == c[..|c| - 1] + [i, n + 1];
    }

    /** Make the neighbours `a` and `b` of a node point at each other. */
    method Unhook(i: nat, ghost a: nat, ghost b: nat)
      requires next.Length == prev.Length && next != prev && i < next.Length
      requires prev[i] == a < next.Length && next[i] == b < prev.Length && a != i
      modifies next, prev
      ensures next[..] == old(next[..])[a := b] && prev[..] == old(prev[..])[b := a]
    {
      next[prev[i]] := next[i];
      prev[next[i]] := prev[i];
    }

    method Delete(i: nat)
      requires Valid() && i in order
      modifies this`order, next, prev
      ensures Valid() && order == Unlink(old(order), i)
    {
      ghost var c, j := Chain(), Find(order, i);
      ChainNoDup(order, n);
      assert LinkAt(next[..], prev[..], c, j) && LinkAt(next[..], prev[..], c, j + 1) && c[j + 1] == i;
      hide Links, LinkAt, Unlink;
      Bypass(next[..], prev[..], c, j);
      Unhook(i, c[j], c[j + 2]);
      UnlinkIs(order, i, j);
      UnlinkFacts(order, i);
      ChainWithout(order, n, j);
      order := Unlink(order, i);
    }

    /** The first node after the root: the oldest slot, or the tail. */
    method First() returns (cur: nat)
      requires Valid()
      ensures cur == Chain()[1]
    {
      assert LinkAt(next[..], prev[..], Chain(), 0);
      cur := next[n];
    }

    /** The node after the `k`th slot of the list. */
    method After(i: nat, ghost k: nat) returns (cur: nat)
      requires Valid() && k < |order| && i == order[k]
      ensures cur == Chain()[k + 2]
    {
      assert LinkAt(next[..], prev[..], Chain(), k + 1);
      cur := next[i];
    }

    /** The walk of the loss scan visits the slots in order. */
    method Walk() returns (visited: seq<nat>)
      requires Valid()
      ensures visited == order
    {
      visited := [];
      var cur := First();
      while cur != n + 1
        invariant visited <= order && cur == Chain()[|visited| + 1]
        invariant |visited| < |order| ==> cur == order[|visited|] && cur in order
        decreases |order| - |visited|
      {
        ghost var k := |visited|;
        visited := visited + [cur];
        cur := After(cur, k);
      }
    }
  }

  ghost function Find(s: seq<nat>, i: nat): (j: nat)
    requires i in s
    ensures j < |s| && s[j] == i
  {
    var j :| 0 <= j < |s| && s[j] == i; j
  }

  lemma {:induction false} UnlinkIs(s: seq<nat>, i: nat, j: nat)
    requires NoDup(s) && j < |s| && s[j] == i
    ensures Unlink(s, i) == s[..j] + s[j + 1..]
  {
    if j > 0 {
      assert s[0] != i;
      UnlinkIs(s[1..], i, j - 1);
      assert s[..j] + s[j + 1..] == [s[0]] + (s[1..][..j - 1] + s[1..][j..]);
    }
  }

  lemma ChainWithout(order: seq<nat>, n: nat, j: nat)
    requires j < |order|
    ensures [n] + (order[..j] + order[j + 1..]) + [n + 1] ==
            ([n] + order + [n + 1])[..j + 1] + ([n] + order + [n + 1])[j + 2..]
  {
  }

  /** No node occurs twice between the sentinels. */
  lemma ChainNoDup(order: seq<nat>, n: nat)
    requires NoDup(order) && (forall x :: x in order ==> x < n)
    ensures NoDup([n] + order + [n + 1])
  {
    var c := [n] + order + [n + 1];
    forall a, b | 0 <= a < b < |c|
      ensures c[a] != c[b]
    {
      if 0 < a { assert c[a] == order[a - 1] && c[a] in order; }
      if b < |order| + 1 { assert c[b] == order[b - 1] && c[b] in order; }
    }
  }
}
