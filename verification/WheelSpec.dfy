/** The timing wheel as a value: a row of slots whose deadlines are one slot width apart,
    starting with the current slot, and the queue of entries that are ready. */
module WheelSpec {
  import opened Wire

  datatype Agenda<E> = Agenda(width: pos, base: nat, slots: seq<seq<E>>, ready: seq<E>) {
    /** The time after which slot `k` from the current one is released. */
    function Deadline(k: nat): nat {
      base + k * width
    }

    ghost function Order(): seq<E> {
      ready + Flatten(slots)
    }
  }

  ghost function Flatten<E>(slots: seq<seq<E>>): seq<E> {
    if slots == [] then [] else slots[0] + Flatten(slots[1..])
  }

  function Empty<E>(width: pos, n: nat, start: nat): Agenda<E> {
    Agenda(width, start + width, seq(n, _ => []), [])
  }

  // ---------------------------------------------------------------------------
  // Operations
  // ---------------------------------------------------------------------------

  /** Release the current slot and reuse it as the last one. */
  function Roll<E>(a: Agenda<E>): Agenda<E>
    requires a.slots != []
  {
    Agenda(a.width, a.base + a.width, a.slots[1..] + [[]], a.ready + a.slots[0])
  }

  function Reap<E>(a: Agenda<E>, t: nat): (r: Agenda<E>)
    requires a.slots != []
    ensures |r.slots| == |a.slots| && r.width == a.width && t < r.base && a.base <= r.base
    ensures r.base == a.base || r.base <= t + a.width
    decreases t + 1 - a.base
  {
    if a.base <= t then Reap(Roll(a), t) else a
  }

  lemma DivAtLeast(w: pos, x: nat, m: nat)
    requires m * w <= x
    ensures m <= x / w
  {
    var q := x / w;
    assert x == q * w + x % w;
    assert (q + 1) * w == q * w + w;
    MulCancel(m, q + 1, w);
  }

  /** The slot that an entry with the given desired time goes to. */
  function SlotFor<E>(a: Agenda<E>, desired: nat): nat {
    if desired <= a.base then 0 else 1 + (desired - a.base) / a.width
  }

  function Place<E>(a: Agenda<E>, k: nat, e: E): Agenda<E>
    requires k < |a.slots|
  {
    a.(slots := a.slots[k := a.slots[k] + [e]])
  }

  /** The assertions of an insertion: the desired time is not in the past and not beyond the
      horizon, and the slot computed for it is in the wheel. */
  predicate InsertOk<E>(a: Agenda<E>, horizon: nat, ref: nat, desired: nat) {
    && a.slots != []
    && ref <= desired <= ref + horizon
    && SlotFor(Reap(a, ref), desired) < |a.slots|
  }

  function Insert<E>(a: Agenda<E>, horizon: nat, e: E, ref: nat, desired: nat): (r: Agenda<E>)
    requires InsertOk(a, horizon, ref, desired)
    ensures |r.slots| == |a.slots| && r.width == a.width
  {
    Place(Reap(a, ref), SlotFor(Reap(a, ref), desired), e)
  }

  /** The slot is in the wheel if the horizon is at least one slot width short of its span. */
  lemma SlotInRange<E>(a: Agenda<E>, horizon: nat, ref: nat, desired: nat)
    requires a.slots != [] && ref < a.base && desired <= ref + horizon
    requires horizon <= (|a.slots| - 1) * a.width
    ensures SlotFor(a, desired) < |a.slots|
  {
    if desired > a.base {
      var q := (desired - a.base) / a.width;
      assert desired - a.base == q * a.width + (desired - a.base) % a.width;
      MulCancel(q, |a.slots| - 1, a.width);
    }
  }

  // ---------------------------------------------------------------------------
  // Timing
  // ---------------------------------------------------------------------------

  /** The wheel is not ahead of time: its current slot ends at most one width from now. */
  ghost predicate OnTime<E>(a: Agenda<E>, now: nat) {
    a.slots != [] && a.base <= now + a.width
  }

  /** An entry is placed in a slot whose deadline is at its desired time or at most one
      slot width later. */
  lemma LandsInTime<E>(a: Agenda<E>, horizon: nat, now: nat, ref: nat, desired: nat)
    requires InsertOk(a, horizon, ref, desired) && OnTime(a, now) && now <= ref
    ensures var r := Reap(a, ref);
            desired <= r.Deadline(SlotFor(r, desired)) <= desired + a.width
  {
    var r := Reap(a, ref);
    hide Reap;
    SlotWithin(r, desired);
  }

  lemma SlotWithin<E>(a: Agenda<E>, desired: nat)
    ensures desired <= a.base ==> SlotFor(a, desired) == 0 && a.Deadline(0) == a.base
    ensures desired > a.base ==> desired < a.Deadline(SlotFor(a, desired)) <= desired + a.width
  {
    if desired > a.base {
      var x, w := desired - a.base, a.width;
      var q := x / w;
      assert x == q * w + x % w;
      assert (1 + q) * w == q * w + w;
    }
  }

  // ---------------------------------------------------------------------------
  // What is released, and in which order
  // ---------------------------------------------------------------------------

  lemma {:induction false} FlattenAppend<E>(a: seq<seq<E>>, b: seq<seq<E>>)
    ensures Flatten(a + b) == Flatten(a) + Flatten(b)
  {
    if a == [] {
      assert a + b == b;
    } else {
      FlattenAppend(a[1..], b);
      assert (a + b)[1..] == a[1..] + b;
      assert Flatten(a + b) == a[0] + (Flatten(a[1..]) + Flatten(b));
    }
  }

  lemma FlattenNil<E>(a: seq<seq<E>>)
    ensures Flatten(a + [[]]) == Flatten(a)
  {
    FlattenAppend(a, [[]]);
    FlattenOne<E>([]);
  }

  /** How many slots are due at time `t`. */
  ghost function Due<E>(a: Agenda<E>, t: nat): nat {
    if t < a.base then 0 else 1 + (t - a.base) / a.width
  }

  lemma DueStep<E>(a: Agenda<E>, t: nat)
    requires a.slots != [] && a.base <= t
    ensures Due(a, t) == 1 + Due(Roll(a), t)
  {
    var x, w := t - a.base, a.width;
    if x >= w {
      var q := (x - w) / w;
      assert x - w == q * w + (x - w) % w;
      assert x == (q + 1) * w + (x - w) % w by { assert (q + 1) * w == q * w + w; }
      DivUnique(w, x, q + 1, (x - w) % w);
    } else {
      DivUnique(w, x, 0, x);
    }
  }

  lemma DivUnique(w: pos, x: nat, q: nat, r: nat)
    requires x == q * w + r && r < w
    ensures x / w == q
  {
    var q', r' := x / w, x % w;
    assert x == q' * w + r';
    assert (q - q') * w == r' - r by { assert (q - q') * w == q * w - q' * w; }
    MulCancel(q - q', 1, w);
    MulCancel(-1, q - q', w);
  }

  /** A slot is due exactly when its deadline has passed. */
  lemma DueIsDeadline<E>(a: Agenda<E>, t: nat, k: nat)
    ensures k < Due(a, t) <==> a.Deadline(k) <= t
  {
    if a.base <= t {
      var q := (t - a.base) / a.width;
      assert t - a.base == q * a.width + (t - a.base) % a.width;
      if k <= q {
        MulMono(k, q, a.width);
      } else {
        MulMono(q + 1, k, a.width);
        assert (q + 1) * a.width == q * a.width + a.width;
      }
    }
  }

  lemma {:induction false} ReapBase<E>(a: Agenda<E>, t: nat)
    requires a.slots != []
    ensures Reap(a, t).base == a.Deadline(Due(a, t))
    decreases t + 1 - a.base
  {
    if a.base <= t {
      var b := Roll(a);
      DueStep(a, t);
      ReapBase(b, t);
      assert (1 + Due(b, t)) * a.width == a.width + Due(b, t) * a.width;
    }
  }

  lemma {:induction false} ReapSlots<E>(a: Agenda<E>, t: nat, k: nat)
    requires k < |a.slots|
    ensures Reap(a, t).slots[k] == if Due(a, t) + k < |a.slots| then a.slots[Due(a, t) + k] else []
    decreases t + 1 - a.base
  {
    if a.base <= t {
      DueStep(a, t);
      hide Due;
      ReapSlots(Roll(a), t, k);
    }
  }

  lemma {:induction false} ReapReady<E>(a: Agenda<E>, t: nat)
    requires a.slots != []
    ensures Reap(a, t).ready == a.ready + Flatten(a.slots[..Min(Due(a, t), |a.slots|)])
    decreases t + 1 - a.base
  {
    if a.base <= t {
      DueStep(a, t);
      hide Due;
      ReapReady(Roll(a), t);
      RollReady(a, Due(Roll(a), t));
    }
  }

  lemma RollReady<E>(a: Agenda<E>, due: nat)
    requires a.slots != []
    ensures var m, m' := Min(1 + due, |a.slots|), Min(due, |a.slots|);
            a.ready + a.slots[0] + Flatten(Roll(a).slots[..m']) == a.ready + Flatten(a.slots[..m])
  {
    var m, m' := Min(1 + due, |a.slots|), Min(due, |a.slots|);
    assert a.slots[..m][1..] == a.slots[1..m];
    if m' < |a.slots| {
      assert Roll(a).slots[..m'] == a.slots[1..m];
    } else {
      assert Roll(a).slots[..m'] == a.slots[1..m] + [[]];
      FlattenNil(a.slots[1..m]);
    }
    assert Flatten(a.slots[..m]) == a.slots[0] + Flatten(a.slots[1..m]);
  }

  lemma DeadlineShift<E>(a: Agenda<E>, r: Agenda<E>, m: nat, j: nat)
    requires r.base == a.Deadline(m) && r.width == a.width
    ensures r.Deadline(j) == a.Deadline(m + j)
  {
    assert (m + j) * a.width == m * a.width + j * a.width;
  }

  /** Reaping at time `t` releases exactly the entries whose deadline is at most `t`, slot
      by slot in deadline order; every other entry keeps its deadline. */
  lemma ReapReleases<E>(a: Agenda<E>, t: nat) returns (m: nat)
    requires a.slots != []
    ensures m <= |a.slots|
    ensures forall k: nat :: k < |a.slots| ==> (k < m <==> a.Deadline(k) <= t)
    ensures Reap(a, t).ready == a.ready + Flatten(a.slots[..m])
    ensures Reap(a, t).slots == a.slots[m..] + seq(m, _ => [])
    ensures forall j: nat :: m + j < |a.slots| ==> Reap(a, t).Deadline(j) == a.Deadline(m + j)
  {
    var due, r := Due(a, t), Reap(a, t);
    m := Min(due, |a.slots|);
    ReapBase(a, t);
    ReapReady(a, t);
    hide Reap, Due;
    forall k: nat | k < |a.slots|
      ensures k < due <==> a.Deadline(k) <= t
    {
      DueIsDeadline(a, t, k);
    }
    forall k: nat | k < |a.slots|
      ensures r.slots[k] == (a.slots[m..] + seq(m, _ => []))[k]
    {
      ReapSlots(a, t, k);
    }
    forall j: nat | m + j < |a.slots|
      ensures r.Deadline(j) == a.Deadline(m + j)
    {
      DeadlineShift(a, r, m, j);
    }
  }

  /** Nothing is lost or duplicated: reaping leaves the release order as it is. */
  lemma {:induction false} ReapKeepsOrder<E>(a: Agenda<E>, t: nat)
    requires a.slots != []
    ensures Reap(a, t).Order() == a.Order() && a.ready <= Reap(a, t).ready
    decreases t + 1 - a.base
  {
    if a.base <= t {
      FlattenNil(a.slots[1..]);
      assert Roll(a).Order() == a.Order();
      ReapKeepsOrder(Roll(a), t);
    }
  }

  /** Placing an entry inserts it after the entries of its own and earlier slots. */
  lemma PlaceOrder<E>(a: Agenda<E>, k: nat, e: E)
    requires k < |a.slots|
    ensures var u, v := a.ready + Flatten(a.slots[..k + 1]), Flatten(a.slots[k + 1..]);
            a.Order() == u + v && Place(a, k, e).Order() == u + [e] + v
  {
    var b := Place(a, k, e);
    assert a.slots == a.slots[..k + 1] + a.slots[k + 1..];
    FlattenAppend(a.slots[..k + 1], a.slots[k + 1..]);
    assert b.slots == b.slots[..k + 1] + a.slots[k + 1..];
    FlattenAppend(b.slots[..k + 1], a.slots[k + 1..]);
    PlaceLast(a.slots[..k + 1], e);
    assert b.slots[..k + 1] == a.slots[..k + 1][k := a.slots[k] + [e]];
  }

  lemma PlaceLast<E>(s: seq<seq<E>>, e: E)
    requires s != []
    ensures var k := |s| - 1; Flatten(s[k := s[k] + [e]]) == Flatten(s) + [e]
  {
    var k := |s| - 1;
    assert s == s[..k] + [s[k]] && s[k := s[k] + [e]] == s[..k] + [s[k] + [e]];
    FlattenAppend(s[..k], [s[k]]);
    FlattenAppend(s[..k], [s[k] + [e]]);
    FlattenOne(s[k]);
    FlattenOne(s[k] + [e]);
  }

  lemma FlattenOne<E>(s: seq<E>)
    ensures Flatten([s]) == s
  {
    assert Flatten([s]) == s + Flatten([s][1..]);
  }
}
