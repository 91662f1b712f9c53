/** What holds over every run of the timing wheel: no entry is lost or duplicated, none is
    released before its desired time or held a slot width longer, and entries are released in
    the order of their slots' deadlines, and of their insertion when these are equal. */
module WheelRuns {
  import opened Wire
  import opened WheelSpec

  /** An inserted entry, named by the operation that inserted it. */
  datatype Item = Item(id: nat, desired: nat)

  datatype Op = ReapAt(t: nat) | InsertAt(ref: nat, desired: nat)

  /** A wheel's slot width, number of slots and horizon, and its creation time. */
  datatype Setup = Setup(width: pos, n: pos, horizon: nat, start: nat)

  datatype State = State(a: Agenda<Item>, now: nat)

  function Time(op: Op): nat {
    if op.ReapAt? then op.t else op.ref
  }

  /** Times never decrease, and an entry is wanted within the horizon. */
  predicate Admissible(c: Setup, s: State, op: Op) {
    && s.now <= Time(op)
    && (op.InsertAt? ==> op.ref <= op.desired <= op.ref + c.horizon)
  }

  /** An admissible operation that fails no assertion of the wheel. */
  predicate OpOk(c: Setup, s: State, op: Op) {
    Admissible(c, s, op) && (op.InsertAt? ==> InsertOk(s.a, c.horizon, op.ref, op.desired))
  }

  function Apply(c: Setup, s: State, op: Op, id: nat): (r: State)
    requires |s.a.slots| == c.n && s.a.width == c.width && OpOk(c, s, op)
    ensures |r.a.slots| == c.n && r.a.width == c.width
  {
    match op
    case ReapAt(t) => State(Reap(s.a, t), t)
    case InsertAt(ref, desired) => State(Insert(s.a, c.horizon, Item(id, desired), ref, desired), ref)
  }

  ghost predicate RunOk(c: Setup, ops: seq<Op>)
    decreases |ops|, 0
  {
    ops == [] || var m := |ops| - 1; RunOk(c, ops[..m]) && OpOk(c, Run(c, ops[..m]), ops[m])
  }

  ghost function Run(c: Setup, ops: seq<Op>): (s: State)
    requires RunOk(c, ops)
    ensures |s.a.slots| == c.n && s.a.width == c.width
    decreases |ops|, 1
  {
    if ops == [] then State(Empty(c.width, c.n, c.start), c.start)
    else var m := |ops| - 1; Apply(c, Run(c, ops[..m]), ops[m], m)
  }

  // ---------------------------------------------------------------------------
  // Invariants
  // ---------------------------------------------------------------------------

  /** The deadline of a pending entry is at its desired time or at most a slot width later;
      ready entries were wanted by now; the wheel is neither behind nor ahead of time. */
  ghost predicate Timely(s: State) {
    && OnTime(s.a, s.now) && s.now < s.a.base
    && (forall x :: x in s.a.ready ==> x.desired <= s.now)
    && (forall k: nat, x {:trigger x in s.a.slots[k]} :: k < |s.a.slots| && x in s.a.slots[k] ==>
          x.desired <= s.a.Deadline(k) <= x.desired + s.a.width)
  }

  lemma {:induction false} FlattenIn<E>(slots: seq<seq<E>>, x: E) returns (k: nat)
    requires x in Flatten(slots)
    ensures k < |slots| && x in slots[k]
  {
    if x in slots[0] {
      k := 0;
    } else {
      var k' := FlattenIn(slots[1..], x);
      k := k' + 1;
    }
  }

  lemma ReapTimely(s: State, t: nat)
    requires Timely(s) && s.now <= t
    ensures Timely(State(Reap(s.a, t), t))
  {
    var r := Reap(s.a, t);
    var m := ReapReleases(s.a, t);
    hide Reap;
    forall x | x in r.ready
      ensures x.desired <= t
    {
      if x !in s.a.ready {
        var k := FlattenIn(s.a.slots[..m], x);
        assert x in s.a.slots[k];
      }
    }
    forall k: nat, x | k < |r.slots| && x in r.slots[k]
      ensures x.desired <= r.Deadline(k) <= x.desired + r.width
    {
      assert m + k < |s.a.slots| && r.slots[k] == s.a.slots[m + k];
    }
  }

  lemma PlaceTimely(s: State, x: Item, k: nat)
    requires Timely(s) && k < |s.a.slots|
    requires x.desired <= s.a.Deadline(k) <= x.desired + s.a.width
    ensures Timely(State(Place(s.a, k, x), s.now))
  {
    var b := Place(s.a, k, x);
    forall j: nat, y | j < |b.slots| && y in b.slots[j]
      ensures y.desired <= b.Deadline(j) <= y.desired + b.width
    {
      assert b.Deadline(j) == s.a.Deadline(j);
      assert y in s.a.slots[j] || (j == k && y == x);
    }
  }

  lemma InsertTimely(c: Setup, s: State, x: Item, ref: nat)
    requires Timely(s) && s.now <= ref && InsertOk(s.a, c.horizon, ref, x.desired)
    ensures Timely(State(Insert(s.a, c.horizon, x, ref, x.desired), ref))
  {
    var r := Reap(s.a, ref);
    ReapTimely(s, ref);
    LandsInTime(s.a, c.horizon, s.now, ref, x.desired);
    PlaceTimely(State(r, ref), x, SlotFor(r, x.desired));
  }

  lemma {:induction false} RunTimely(c: Setup, ops: seq<Op>)
    requires RunOk(c, ops)
    ensures Timely(Run(c, ops))
  {
    if ops != [] {
      var m := |ops| - 1;
      RunTimely(c, ops[..m]);
      match ops[m]
      case ReapAt(t) => ReapTimely(Run(c, ops[..m]), t);
      case InsertAt(ref, desired) => InsertTimely(c, Run(c, ops[..m]), Item(m, desired), ref);
    }
  }

  /** No entry is ready before its desired time, and none is pending once its desired time
      is a slot width in the past. */
  lemma NeverEarlyNeverLate(c: Setup, ops: seq<Op>, x: Item)
    requires RunOk(c, ops)
    ensures var s := Run(c, ops);
      && (x in s.a.ready ==> x.desired <= s.now)
      && (x in Flatten(s.a.slots) ==> s.now < x.desired + c.width)
  {
    hide RunOk, Run;
    RunTimely(c, ops);
    var s := Run(c, ops);
    if x in Flatten(s.a.slots) {
      var k := FlattenIn(s.a.slots, x);
      assert s.a.base <= s.a.Deadline(k) by { MulMono(0, k, s.a.width); }
    }
  }

  // ---------------------------------------------------------------------------
  // The span of the wheel
  // ---------------------------------------------------------------------------

  /** Every admissible insertion of every run finds a slot. */
  ghost predicate AlwaysFits(c: Setup) {
    forall ops, op :: RunOk(c, ops) && Admissible(c, Run(c, ops), op) ==> OpOk(c, Run(c, ops), op)
  }

  predicate Spans(c: Setup) {
    c.horizon <= (c.n - 1) * c.width
  }

  /** Every insertion within the horizon finds a slot exactly if the horizon is at least one
      slot width short of the wheel's span. */
  lemma SpanExactly(c: Setup)
    requires c.n > 1
    ensures AlwaysFits(c) <==> Spans(c)
  {
    hide RunOk, Run;
    if Spans(c) {
      forall ops, op | RunOk(c, ops) && Admissible(c, Run(c, ops), op)
        ensures OpOk(c, Run(c, ops), op)
      {
        if op.InsertAt? {
          SlotInRange(Reap(Run(c, ops).a, op.ref), c.horizon, op.ref, op.desired);
        }
      }
    } else {
      var op := Misses(c);
    }
  }

  /** Otherwise the farthest insertion at the very end of the first slot has no slot. */
  lemma Misses(c: Setup) returns (op: Op)
    requires c.n > 1 && !Spans(c)
    ensures RunOk(c, []) && Admissible(c, Run(c, []), op) && !OpOk(c, Run(c, []), op)
  {
    var ref := c.start + c.width - 1;
    op := InsertAt(ref, ref + c.horizon);
    var a := Run(c, []).a;
    assert Reap(a, ref) == a && a.base == ref + 1;
    MulMono(1, c.n - 1, c.width);
    DivAtLeast(c.width, c.horizon - 1, c.n - 1);
  }

  // ---------------------------------------------------------------------------
  // Conservation and order
  // ---------------------------------------------------------------------------

  /** The order of release after one more insertion. */
  lemma InsertOrder<E>(a: Agenda<E>, horizon: nat, e: E, ref: nat, desired: nat) returns (u: seq<E>, v: seq<E>)
    requires InsertOk(a, horizon, ref, desired)
    ensures a.Order() == u + v && Insert(a, horizon, e, ref, desired).Order() == u + [e] + v
    ensures var r := Reap(a, ref);
            SlotFor(r, desired) < |r.slots| && u == r.ready + Flatten(r.slots[..SlotFor(r, desired) + 1])
  {
    var r := Reap(a, ref);
    ReapKeepsOrder(a, ref);
    var k := SlotFor(r, desired);
    PlaceOrder(r, k, e);
    u, v := r.ready + Flatten(r.slots[..k + 1]), Flatten(r.slots[k + 1..]);
  }

  /** The operations insert this entry, which they name by its position. */
  ghost predicate Inserted(ops: seq<Op>, x: Item) {
    x.id < |ops| && ops[x.id].InsertAt? && ops[x.id].desired == x.desired
  }

  lemma {:induction false} FlattenEmpty<E>(slots: seq<seq<E>>)
    requires forall k :: 0 <= k < |slots| ==> slots[k] == []
    ensures Flatten(slots) == []
  {
    if slots != [] {
      FlattenEmpty(slots[1..]);
    }
  }

  /** Nothing is lost or duplicated: an entry is in the wheel or in the ready queue exactly
      once if it was inserted, and otherwise not at all. */
  lemma {:induction false} NothingLost(c: Setup, ops: seq<Op>, x: Item)
    requires RunOk(c, ops)
    ensures multiset(Run(c, ops).a.Order())[x] == if Inserted(ops, x) then 1 else 0
  {
    hide Apply, OpOk;
    if ops == [] {
      FlattenEmpty(Run(c, ops).a.slots);
    } else {
      var m := |ops| - 1;
      NothingLost(c, ops[..m], x);
      CountStep(c, Run(c, ops[..m]), ops[m], m, x);
    }
  }

  lemma CountStep(c: Setup, s: State, op: Op, id: nat, x: Item)
    requires |s.a.slots| == c.n && s.a.width == c.width && OpOk(c, s, op)
    ensures multiset(Apply(c, s, op, id).a.Order())[x] ==
            multiset(s.a.Order())[x] + (if op.InsertAt? && x == Item(id, op.desired) then 1 else 0)
  {
    hide Insert, Reap;
    match op
    case ReapAt(t) => ReapKeepsOrder(s.a, t);
    case InsertAt(ref, desired) => var u, v := InsertOrder(s.a, c.horizon, Item(id, desired), ref, desired);
  }

  // ---------------------------------------------------------------------------
  // The wheel's boundaries
  // ---------------------------------------------------------------------------

  /** The first slot boundary after time `t`. */
  function Boundary(c: Setup, t: nat): nat
    requires c.start <= t
  {
    c.start + ((t - c.start) / c.width + 1) * c.width
  }

  /** Is `t` a slot boundary? */
  predicate IsBoundary(c: Setup, t: nat)
    requires c.start <= t
  {
    (t - c.start) % c.width == 0
  }

  /** The deadline of the slot of an entry that is inserted at time `ref`: the first boundary
      after its desired time, or that time itself if it is the boundary that ends the
      current slot. */
  function SlotTime(c: Setup, ref: nat, desired: nat): nat
    requires c.start <= ref <= desired
  {
    if IsBoundary(c, desired) && desired - c.width <= ref < desired then desired else Boundary(c, desired)
  }

  lemma BoundaryIs(c: Setup, t: nat, b: nat, q: nat)
    requires c.start <= t && b == c.start + q * c.width && t < b <= t + c.width
    ensures b == Boundary(c, t)
  {
    assert (q - 1) * c.width == q * c.width - c.width;
    MulCancel(-1, q - 1, c.width);
    DivUnique(c.width, t - c.start, q - 1, t - (b - c.width));
  }

  lemma BoundaryAfter(c: Setup, t: nat)
    requires c.start <= t
    ensures t < Boundary(c, t) <= t + c.width
  {
    var q := (t - c.start) / c.width;
    assert t - c.start == q * c.width + (t - c.start) % c.width;
    assert (q + 1) * c.width == q * c.width + c.width;
  }

  lemma BoundaryNumber(c: Setup, t: nat) returns (q: nat)
    requires c.start <= t
    ensures Boundary(c, t) == c.start + q * c.width
  {
    q := (t - c.start) / c.width + 1;
  }

  /** A boundary at most one width after `ref` is the first one after it. */
  lemma EndsCurrent(c: Setup, ref: nat, t: nat)
    requires c.start <= ref < t <= ref + c.width && IsBoundary(c, t)
    ensures t == Boundary(c, ref)
  {
    BoundaryIs(c, ref, t, (t - c.start) / c.width);
  }

  /** The deadline of a slot after the current one is the first boundary after the time that
      the slot is chosen for. */
  lemma FarSlot(c: Setup, a: Agenda<Item>, ref: nat, desired: nat)
    requires c.start <= ref && a.width == c.width && a.base == Boundary(c, ref) && a.base < desired
    ensures a.Deadline(SlotFor(a, desired)) == Boundary(c, desired)
  {
    hide SlotFor, Boundary;
    var q := BoundaryNumber(c, ref);
    var k := SlotFor(a, desired);
    SlotWithin(a, desired);
    assert (q + k) * c.width == q * c.width + k * c.width;
    BoundaryIs(c, desired, a.Deadline(k), q + k);
  }

  /** Times in the current slot have the same boundary. */
  lemma NearSlot(c: Setup, ref: nat, desired: nat)
    requires c.start <= ref <= desired < Boundary(c, ref)
    ensures Boundary(c, desired) == Boundary(c, ref)
  {
    hide Boundary;
    BoundaryAfter(c, ref);
    var q := BoundaryNumber(c, ref);
    BoundaryIs(c, desired, Boundary(c, ref), q);
  }

  /** The slot that is chosen for an entry has its slot time as its deadline. */
  lemma ChosenSlot(c: Setup, a: Agenda<Item>, ref: nat, desired: nat)
    requires c.start <= ref <= desired && a.width == c.width && a.base == Boundary(c, ref)
    ensures a.Deadline(SlotFor(a, desired)) == SlotTime(c, ref, desired)
  {
    hide SlotFor, Boundary, IsBoundary;
    BoundaryAfter(c, ref);
    SlotWithin(a, desired);
    if desired > a.base {
      FarSlot(c, a, ref, desired);
    } else if desired < a.base {
      NearSlot(c, ref, desired);
    } else {
      BaseIsBoundary(c, ref);
    }
    if IsBoundary(c, desired) && desired - c.width <= ref < desired {
      EndsCurrent(c, ref, desired);
    }
  }

  lemma BaseIsBoundary(c: Setup, ref: nat)
    requires c.start <= ref
    ensures c.start <= Boundary(c, ref) && IsBoundary(c, Boundary(c, ref))
  {
    var q := (ref - c.start) / c.width + 1;
    DivUnique(c.width, q * c.width, q, 0);
  }

  // ---------------------------------------------------------------------------
  // The order of release
  // ---------------------------------------------------------------------------

  /** The entry was inserted, and its slot has had this deadline from then on. */
  ghost predicate Goes(c: Setup, ops: seq<Op>, x: Item, deadline: nat) {
    && Inserted(ops, x) && c.start <= ops[x.id].ref <= x.desired
    && deadline == SlotTime(c, ops[x.id].ref, x.desired)
  }

  /** Every pending entry is in the slot whose deadline is its slot time, and the slot time
      of every ready entry has passed. */
  ghost predicate Exact(c: Setup, ops: seq<Op>, s: State) {
    && Timely(s) && c.start <= s.now && s.a.base == Boundary(c, s.now) && s.a.width == c.width
    && (forall x :: x in s.a.ready ==> exists d: nat :: d <= s.now && Goes(c, ops, x, d))
    && (forall k: nat, x {:trigger x in s.a.slots[k]} :: k < |s.a.slots| && x in s.a.slots[k] ==>
          Goes(c, ops, x, s.a.Deadline(k)))
  }

  lemma ReapExact(c: Setup, ops: seq<Op>, s: State, t: nat)
    requires Exact(c, ops, s) && s.now <= t
    ensures Exact(c, ops, State(Reap(s.a, t), t))
  {
    hide Goes;
    var r := Reap(s.a, t);
    ReapTimely(s, t);
    ReapBoundary(c, s, t);
    var m := ReapReleases(s.a, t);
    hide Reap, Timely;
    forall x | x in r.ready
      ensures exists d: nat :: d <= t && Goes(c, ops, x, d)
    {
      if x !in s.a.ready {
        var k := FlattenIn(s.a.slots[..m], x);
        assert x in s.a.slots[k] && Goes(c, ops, x, s.a.Deadline(k));
      }
    }
    forall k: nat, x | k < |r.slots| && x in r.slots[k]
      ensures Goes(c, ops, x, r.Deadline(k))
    {
      assert m + k < |s.a.slots| && r.slots[k] == s.a.slots[m + k];
    }
  }

  lemma ReapBoundary(c: Setup, s: State, t: nat)
    requires Timely(s) && c.start <= s.now <= t && s.a.base == Boundary(c, s.now) && s.a.width == c.width
    ensures Reap(s.a, t).base == Boundary(c, t)
  {
    hide Boundary, Reap, Due;
    var q := BoundaryNumber(c, s.now);
    var due, r := Due(s.a, t), Reap(s.a, t);
    ReapTimely(s, t);
    ReapBase(s.a, t);
    hide Timely;
    assert (q + due) * c.width == q * c.width + due * c.width;
    BoundaryIs(c, t, r.base, q + due);
  }

  lemma PlaceExact(c: Setup, ops: seq<Op>, s: State, x: Item, k: nat)
    requires Exact(c, ops, s) && k < |s.a.slots| && Goes(c, ops, x, s.a.Deadline(k))
    requires Timely(State(Place(s.a, k, x), s.now))
    ensures Exact(c, ops, State(Place(s.a, k, x), s.now))
  {
    hide Goes, Timely;
    var b := Place(s.a, k, x);
    forall j: nat, y | j < |b.slots| && y in b.slots[j]
      ensures Goes(c, ops, y, b.Deadline(j))
    {
      assert b.Deadline(j) == s.a.Deadline(j);
      assert y in s.a.slots[j] || (j == k && y == x);
    }
  }

  lemma MoreOps(c: Setup, ops: seq<Op>, s: State)
    requires ops != [] && Exact(c, ops[..|ops| - 1], s)
    ensures Exact(c, ops, s)
  {
    hide Timely, SlotTime;
    var past := ops[..|ops| - 1];
    forall x | x in s.a.ready
      ensures exists d: nat :: d <= s.now && Goes(c, ops, x, d)
    {
      var d: nat :| d <= s.now && Goes(c, past, x, d);
      assert Goes(c, ops, x, d);
    }
    forall k: nat, x | k < |s.a.slots| && x in s.a.slots[k]
      ensures Goes(c, ops, x, s.a.Deadline(k))
    {
      assert Goes(c, past, x, s.a.Deadline(k));
    }
  }

  lemma InsertExact(c: Setup, ops: seq<Op>, s: State, x: Item, ref: nat)
    requires Exact(c, ops, s) && s.now <= ref && InsertOk(s.a, c.horizon, ref, x.desired)
    requires Inserted(ops, x) && ops[x.id].ref == ref
    ensures Exact(c, ops, State(Reap(s.a, ref), ref))
    ensures Exact(c, ops, State(Insert(s.a, c.horizon, x, ref, x.desired), ref))
    ensures Goes(c, ops, x, Reap(s.a, ref).Deadline(SlotFor(Reap(s.a, ref), x.desired)))
  {
    ReapExact(c, ops, s, ref);
    InsertTimely(c, s, x, ref);
    var r := Reap(s.a, ref);
    hide Reap, Timely, SlotFor;
    ChosenSlot(c, r, ref, x.desired);
    PlaceExact(c, ops, State(r, ref), x, SlotFor(r, x.desired));
  }

  lemma {:induction false} RunExact(c: Setup, ops: seq<Op>)
    requires RunOk(c, ops)
    ensures Exact(c, ops, Run(c, ops))
  {
    hide Goes, Timely;
    RunTimely(c, ops);
    if ops == [] {
      BoundaryIs(c, c.start, c.start + c.width, 1);
    } else {
      var m := |ops| - 1;
      RunExact(c, ops[..m]);
      MoreOps(c, ops, Run(c, ops[..m]));
      match ops[m]
      case ReapAt(t) => ReapExact(c, ops, Run(c, ops[..m]), t);
      case InsertAt(ref, desired) => InsertExact(c, ops, Run(c, ops[..m]), Item(m, desired), ref);
    }
  }

  /** The times of a run's operations never decrease. */
  lemma {:induction false} TimesGrow(c: Setup, ops: seq<Op>, i: nat)
    requires RunOk(c, ops) && i < |ops|
    ensures c.start <= Time(ops[i]) <= Run(c, ops).now
    ensures ops[i].InsertAt? ==> ops[i].ref <= ops[i].desired
  {
    var m := |ops| - 1;
    RunExact(c, ops[..m]);
    if i < m {
      TimesGrow(c, ops[..m], i);
    }
  }

  lemma {:induction false} TimesOrdered(c: Setup, ops: seq<Op>, i: nat, j: nat)
    requires RunOk(c, ops) && i < j < |ops|
    ensures Time(ops[i]) <= Time(ops[j])
  {
    var m := |ops| - 1;
    if j == m {
      TimesGrow(c, ops[..m], i);
    } else {
      TimesOrdered(c, ops[..m], i, j);
    }
  }

  /** When an entry is inserted, an earlier one is ahead of its place exactly if that one's
      slot time is not later. */
  lemma AheadOfNew(c: Setup, ops: seq<Op>, s: State, x: Item, y: Item, u: seq<Item>, v: seq<Item>)
    requires Exact(c, ops, s) && s.a.base > s.now && SlotFor(s.a, y.desired) < |s.a.slots|
    requires Goes(c, ops, y, s.a.Deadline(SlotFor(s.a, y.desired)))
    requires u == s.a.ready + Flatten(s.a.slots[..SlotFor(s.a, y.desired) + 1])
    requires v == Flatten(s.a.slots[SlotFor(s.a, y.desired) + 1..])
    requires Inserted(ops, x) && c.start <= ops[x.id].ref <= x.desired
    ensures x in u ==> SlotTime(c, ops[x.id].ref, x.desired) <= SlotTime(c, ops[y.id].ref, y.desired)
    ensures x in v ==> SlotTime(c, ops[x.id].ref, x.desired) > SlotTime(c, ops[y.id].ref, y.desired)
  {
    hide Timely, SlotTime, SlotFor;
    var k := SlotFor(s.a, y.desired);
    MulMono(0, k, s.a.width);
    if x in v {
      var j := FlattenIn(s.a.slots[k + 1..], x);
      assert x in s.a.slots[k + 1 + j];
      MulMono(k + 1, k + 1 + j, s.a.width);
      assert (k + 1) * s.a.width == k * s.a.width + s.a.width;
    }
    if x in u && x !in s.a.ready {
      var j := FlattenIn(s.a.slots[..k + 1], x);
      assert x in s.a.slots[j];
      MulMono(j, k, s.a.width);
    }
  }

  lemma PlacedAt(c: Setup, ops: seq<Op>, s: State, x: Item, y: Item) returns (i: nat, j: nat)
    requires Exact(c, ops, s) && Inserted(ops, x) && Inserted(ops, y) && x in s.a.Order()
    requires c.start <= ops[x.id].ref <= x.desired && c.start <= s.now <= ops[y.id].ref <= y.desired
    requires InsertOk(s.a, c.horizon, ops[y.id].ref, y.desired)
    ensures var order := Insert(s.a, c.horizon, y, ops[y.id].ref, y.desired).Order();
            i < |order| && j < |order| && order[i] == x && order[j] == y
    ensures j < i <==> SlotTime(c, ops[y.id].ref, y.desired) < SlotTime(c, ops[x.id].ref, x.desired)
  {
    hide Reap, Goes, Insert, SlotTime, Timely;
    var ref := ops[y.id].ref;
    InsertExact(c, ops, s, y, ref);
    var r := Reap(s.a, ref);
    var u, v := InsertOrder(s.a, c.horizon, y, ref, y.desired);
    ReapKeepsOrder(s.a, ref);
    SplitOrder(r, SlotFor(r, y.desired), s.a.Order(), u, v);
    AheadOfNew(c, ops, State(r, ref), x, y, u, v);
    i, j := Around(u, v, x, y);
  }

  lemma Around(u: seq<Item>, v: seq<Item>, x: Item, y: Item) returns (i: nat, j: nat)
    requires x in u + v
    ensures i < |u + [y] + v| && j < |u + [y] + v| && (u + [y] + v)[i] == x && (u + [y] + v)[j] == y
    ensures if j < i then x in v else x in u
  {
    j := |u|;
    if x in u {
      i :| 0 <= i < |u| && u[i] == x;
    } else {
      var k :| 0 <= k < |v| && v[k] == x;
      i := |u| + 1 + k;
    }
  }

  lemma InsertedAt(c: Setup, ops: seq<Op>, x: Item, y: Item) returns (i: nat, j: nat)
    requires RunOk(c, ops) && Inserted(ops, x) && Inserted(ops, y) && x.id < y.id == |ops| - 1
    requires c.start <= ops[x.id].ref <= x.desired && c.start <= ops[y.id].ref <= y.desired
    ensures var order := Run(c, ops).a.Order(); i < |order| && j < |order| && order[i] == x && order[j] == y
    ensures j < i <==> SlotTime(c, ops[y.id].ref, y.desired) < SlotTime(c, ops[x.id].ref, x.desired)
  {
    hide Goes, Insert, InsertOk, SlotTime, Timely;
    var past := ops[..y.id];
    RunExact(c, past);
    MoreOps(c, ops, Run(c, past));
    NothingLost(c, past, x);
    assert x in Run(c, past).a.Order();
    i, j := PlacedAt(c, ops, Run(c, past), x, y);
    assert Item(y.id, y.desired) == y;
  }

  lemma SplitOrder(r: Agenda<Item>, k: nat, order: seq<Item>, u: seq<Item>, v: seq<Item>)
    requires k < |r.slots| && r.Order() == order == u + v && u == r.ready + Flatten(r.slots[..k + 1])
    ensures v == Flatten(r.slots[k + 1..])
  {
    assert r.slots == r.slots[..k + 1] + r.slots[k + 1..];
    FlattenAppend(r.slots[..k + 1], r.slots[k + 1..]);
    assert r.Order() == u + Flatten(r.slots[k + 1..]);
    assert v == order[|u|..] == Flatten(r.slots[k + 1..]);
  }

  /** Later operations keep entries in their order. */
  lemma StaysInOrder(c: Setup, s: State, op: Op, id: nat, i: nat, j: nat) returns (i': nat, j': nat)
    requires |s.a.slots| == c.n && s.a.width == c.width && OpOk(c, s, op)
    requires i < j < |s.a.Order()|
    ensures var order, order' := s.a.Order(), Apply(c, s, op, id).a.Order();
            i' < j' < |order'| && order'[i'] == order[i] && order'[j'] == order[j]
  {
    hide Insert;
    if op.ReapAt? {
      ReapKeepsOrder(s.a, op.t);
      i', j' := i, j;
    } else {
      var u, v := InsertOrder(s.a, c.horizon, Item(id, op.desired), op.ref, op.desired);
      i', j' := if i < |u| then i else i + 1, if j < |u| then j else j + 1;
    }
  }

  /** Of two entries the later one is released first exactly if its slot time is earlier. */
  lemma {:induction false} ReleaseOrder(c: Setup, ops: seq<Op>, x: Item, y: Item) returns (i: nat, j: nat)
    requires RunOk(c, ops) && Inserted(ops, x) && Inserted(ops, y) && x.id < y.id
    ensures c.start <= ops[x.id].ref <= x.desired && c.start <= ops[y.id].ref <= y.desired
    ensures ops[x.id].ref <= ops[y.id].ref
    ensures var order := Run(c, ops).a.Order(); i < |order| && j < |order| && order[i] == x && order[j] == y
    ensures j < i <==> SlotTime(c, ops[y.id].ref, y.desired) < SlotTime(c, ops[x.id].ref, x.desired)
    decreases |ops|
  {
    hide Apply, OpOk, SlotTime;
    var m := |ops| - 1;
    TimesGrow(c, ops, x.id);
    TimesGrow(c, ops, y.id);
    TimesOrdered(c, ops, x.id, y.id);
    if y.id == m {
      i, j := InsertedAt(c, ops, x, y);
    } else {
      i, j := ReleaseOrder(c, ops[..m], x, y);
      if i < j {
        i, j := StaysInOrder(c, Run(c, ops[..m]), ops[m], m, i, j);
      } else {
        j, i := StaysInOrder(c, Run(c, ops[..m]), ops[m], m, j, i);
      }
    }
  }

  /** Entries wanted at strictly increasing times have slot times in the same order. */
  lemma LaterSlotTime(c: Setup, ref: nat, desired: nat, ref': nat, desired': nat)
    requires c.start <= ref <= desired < desired' && c.start <= ref' <= desired'
    ensures SlotTime(c, ref, desired) <= SlotTime(c, ref', desired')
  {
    hide Boundary, IsBoundary;
    BoundaryAfter(c, desired);
    BoundaryAfter(c, desired');
    if desired' < Boundary(c, desired) {
      if IsBoundary(c, desired') {
        EndsCurrent(c, desired, desired');
      } else {
        NearSlot(c, desired, desired');
      }
    }
  }

  /** Entries wanted at strictly increasing times are released in the order of insertion,
      across wrap-around and the reaps inside insertions. */
  lemma Fifo(c: Setup, ops: seq<Op>, x: Item, y: Item) returns (i: nat, j: nat)
    requires RunOk(c, ops) && Inserted(ops, x) && Inserted(ops, y)
    requires x.id < y.id && x.desired < y.desired
    ensures var order := Run(c, ops).a.Order(); i < j < |order| && order[i] == x && order[j] == y
  {
    i, j := ReleaseOrder(c, ops, x, y);
    LaterSlotTime(c, ops[x.id].ref, x.desired, ops[y.id].ref, y.desired);
  }

  /** The second of two insertions for the same time overtakes the first: the time is a slot
      boundary, and the slot that it ends is current at the second but not yet at the first. */
  predicate Overtakes(c: Setup, ref: nat, ref': nat, desired: nat)
    requires c.start <= desired
  {
    IsBoundary(c, desired) && ref < desired - c.width <= ref' < desired
  }

  /** Entries wanted at the same time are released in the order of insertion, except exactly
      when the second overtakes. */
  lemma EqualTimes(c: Setup, ops: seq<Op>, x: Item, y: Item) returns (i: nat, j: nat)
    requires RunOk(c, ops) && Inserted(ops, x) && Inserted(ops, y)
    requires x.id < y.id && x.desired == y.desired
    ensures c.start <= x.desired
    ensures var order := Run(c, ops).a.Order(); i < |order| && j < |order| && order[i] == x && order[j] == y
    ensures j < i <==> Overtakes(c, ops[x.id].ref, ops[y.id].ref, x.desired)
  {
    hide RunOk, Run, Boundary, IsBoundary;
    i, j := ReleaseOrder(c, ops, x, y);
    BoundaryAfter(c, x.desired);
  }

  /** Hence an entry is never released before an earlier one that is wanted earlier. */
  lemma ReadyInOrder(c: Setup, ops: seq<Op>, x: Item, y: Item, j: nat) returns (i: nat)
    requires RunOk(c, ops) && Inserted(ops, x) && Inserted(ops, y)
    requires x.id < y.id && x.desired < y.desired
    requires var ready := Run(c, ops).a.ready; j < |ready| && ready[j] == y
    ensures i < j && Run(c, ops).a.ready[i] == x
  {
    hide RunOk, Run;
    var i0, j0 := Fifo(c, ops, x, y);
    var order := Run(c, ops).a.Order();
    NothingLost(c, ops, y);
    OnceOnly(order, y, j, j0);
    i := i0;
  }

  lemma OnceOnly<E>(s: seq<E>, x: E, i: nat, j: nat)
    requires multiset(s)[x] == 1 && i < |s| && j < |s| && s[i] == x && s[j] == x
    ensures i == j
  {
    if i < j {
      Twice(s, x, i, j);
    } else if j < i {
      Twice(s, x, j, i);
    }
  }

  lemma Twice<E>(s: seq<E>, x: E, i: nat, j: nat)
    requires i < j < |s| && s[i] == x && s[j] == x
    ensures multiset(s)[x] >= 2
  {
    assert s == s[..i + 1] + s[i + 1..];
    assert x in s[..i + 1] && s[i + 1..][j - i - 1] == x;
  }

  // ---------------------------------------------------------------------------
  // An instance
  // ---------------------------------------------------------------------------

  const FIRST := Item(0, 20)
  const SECOND := Item(1, 20)
  const ONE := Agenda(10, 10, [[], [], [FIRST], []], [])
  const BOTH := Agenda(10, 20, [[SECOND], [FIRST], [], []], [])

  lemma FirstInserted()
    ensures var a: Agenda<Item> := Empty(10, 4, 0);
            InsertOk(a, 30, 5, 20) && Insert(a, 30, FIRST, 5, 20) == ONE
  {
    var a: Agenda<Item> := Empty(10, 4, 0);
    assert a.slots == [[], [], [], []] && a.base == 10;
    assert Reap(a, 5) == a && SlotFor(a, 20) == 2;
    assert a.slots[2] + [FIRST] == [FIRST];
  }

  lemma SecondInserted()
    ensures InsertOk(ONE, 30, 15, 20) && Insert(ONE, 30, SECOND, 15, 20) == BOTH
  {
    var a := Roll(ONE);
    assert a == Agenda(10, 20, [[], [FIRST], [], []], []) && Reap(ONE, 15) == a;
    assert SlotFor(a, 20) == 0 && a.slots[0] + [SECOND] == [SECOND];
  }

  lemma SecondReleased()
    ensures Reap(BOTH, 20).ready == [SECOND]
  {
    assert [] + [SECOND] == [SECOND];
    assert Roll(BOTH) == Agenda(10, 30, [[FIRST], [], [], []], [SECOND]) && Reap(BOTH, 20) == Roll(BOTH);
  }

  /** It happens: an entry wanted at a slot's deadline goes one slot later while that slot is
      not yet current, and then a second one for the same time overtakes it. */
  lemma EqualTimesOvertake()
    ensures var c := Setup(10, 4, 30, 0);
      var ops := [InsertAt(5, 20), InsertAt(15, 20), ReapAt(20)];
      RunOk(c, ops) && Run(c, ops).a.ready == [Item(1, 20)]
  {
    hide Reap, Insert, InsertOk, Empty;
    var c, ops := Setup(10, 4, 30, 0), [InsertAt(5, 20), InsertAt(15, 20), ReapAt(20)];
    assert ops[..0] == [] && RunOk(c, ops[..0]);
    FirstInserted();
    assert ops[..1][..0] == ops[..0] && RunOk(c, ops[..1]) && Run(c, ops[..1]) == State(ONE, 5);
    SecondInserted();
    assert ops[..2][..1] == ops[..1] && RunOk(c, ops[..2]) && Run(c, ops[..2]) == State(BOTH, 15);
    SecondReleased();
    assert ops[..3] == ops && ops[..3][..2] == ops[..2];
  }
}
