/** Facts about duplicate-free lists of slot numbers and sums over the slots. */
module ListFacts {
  import opened ClientSpec
  import opened Protocol

  ghost function Range(n: nat): (s: set<nat>)
    ensures |s| == n && forall x: nat :: x in s <==> x < n
  {
    if n == 0 then {} else Range(n - 1) + {n - 1}
  }

  ghost function Elems(s: seq<nat>): set<nat> {
    set x | x in s
  }

  lemma {:induction false} NoDupSize(s: seq<nat>)
    requires NoDup(s)
    ensures |Elems(s)| == |s|
  {
    if s != [] {
      NoDupSize(s[1..]);
      assert Elems(s) == Elems(s[1..]) + {s[0]};
    }
  }

  lemma SubsetSize(a: set<nat>, b: set<nat>)
    requires a <= b
    ensures |a| <= |b|
  {
    assert b == a + (b - a);
  }

  /** A duplicate-free list of numbers below `n` has at most `n` elements. */
  lemma NoDupBound(s: seq<nat>, n: nat)
    requires NoDup(s) && forall x :: x in s ==> x < n
    ensures |s| <= n
  {
    NoDupSize(s);
    SubsetSize(Elems(s), Range(n));
  }

  /** A duplicate-free list of `n` numbers below `n` holds all of them. */
  lemma AllPresent(s: seq<nat>, n: nat, i: nat)
    requires NoDup(s) && (forall x :: x in s ==> x < n) && |s| == n && i < n
    ensures i in s
  {
    if i !in s {
      PushFacts(s, i);
      NoDupBound(s + [i], n);
    }
  }

  lemma {:induction false} UnlinkFacts(s: seq<nat>, i: nat)
    requires NoDup(s)
    ensures NoDup(Unlink(s, i))
    ensures forall x :: x in Unlink(s, i) <==> x in s && x != i
  {
    if s != [] {
      UnlinkFacts(s[1..], i);
      assert s == [s[0]] + s[1..];
      assert s[0] !in s[1..];
      ConsFacts(s[0], Unlink(s[1..], i));
    }
  }

  lemma ConsFacts(x: nat, s: seq<nat>)
    requires NoDup(s) && x !in s
    ensures NoDup([x] + s)
  {
    var t := [x] + s;
    forall a, b | 0 <= a < b < |t|
      ensures t[a] != t[b]
    {
      assert t[b] == s[b - 1];
    }
  }

  lemma PushFacts(s: seq<nat>, i: nat)
    requires NoDup(s) && i !in s
    ensures NoDup(s + [i])
    ensures forall x :: x in s + [i] <==> x in s || x == i
  {
  }

  lemma PopFacts(s: seq<nat>)
    requires NoDup(s) && s != []
    ensures NoDup(s[..|s| - 1])
    ensures forall x :: x in s[..|s| - 1] <==> x in s && x != Last(s)
  {
    assert s == s[..|s| - 1] + [Last(s)];
  }

  lemma {:induction false} OutstandingUpdate(slots: seq<ClientSlot>, i: nat, c: ClientSlot)
    requires i < |slots|
    ensures Outstanding(slots[i := c]) ==
            Outstanding(slots) - (slots[i].numTx - slots[i].numRx) + (c.numTx - c.numRx)
  {
    if i == 0 {
      assert slots[i := c][1..] == slots[1..];
    } else {
      OutstandingUpdate(slots[1..], i - 1, c);
      assert slots[i := c][1..] == slots[1..][i - 1 := c];
    }
  }

  /** No slot has more outstanding than all of them together. */
  lemma {:induction false} OutstandingBound(slots: seq<ClientSlot>, i: nat)
    requires i < |slots|
    requires forall k :: 0 <= k < |slots| ==> slots[k].numRx <= slots[k].numTx
    ensures 0 <= slots[i].numTx - slots[i].numRx <= Outstanding(slots)
  {
    OutstandingNonNeg(slots[1..]);
    if i > 0 {
      OutstandingBound(slots[1..], i - 1);
    }
  }

  lemma {:induction false} OutstandingNonNeg(slots: seq<ClientSlot>)
    requires forall k :: 0 <= k < |slots| ==> slots[k].numRx <= slots[k].numTx
    ensures 0 <= Outstanding(slots)
  {
    if slots != [] {
      OutstandingNonNeg(slots[1..]);
    }
  }

  lemma {:induction false} OutstandingZero(slots: seq<ClientSlot>)
    requires forall k :: 0 <= k < |slots| ==> slots[k].numRx == slots[k].numTx
    ensures Outstanding(slots) == 0
  {
    if slots != [] {
      OutstandingZero(slots[1..]);
    }
  }
}
