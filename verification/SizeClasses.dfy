/** Size classes of the hugepage allocator, 64 bytes to 8 megabytes in powers of two, and
    the layout of a message buffer inside its class. */
module SizeClasses {
  import opened Wire

  const MIN_CLASS: pos := 64
  const NUM_CLASSES: pos := 18
  const MAX_CLASS: pos := 8388608

  function Pow2(n: nat): pos {
    if n == 0 then 1 else 2 * Pow2(n - 1)
  }

  /** The maximum size of a class. */
  function ClassMax(i: nat): pos {
    MIN_CLASS * Pow2(i)
  }

  /** The index of the most significant bit, counting from 1; 0 for 0. */
  function MsbIndex(x: nat): nat {
    if x == 0 then 0 else 1 + MsbIndex(x / 2)
  }

  /** The class of a size, from its bit length. */
  function GetClass(size: pos): nat {
    MsbIndex((size - 1) / MIN_CLASS)
  }

  lemma {:induction false} MsbBounds(x: nat)
    ensures x < Pow2(MsbIndex(x))
    ensures x > 0 ==> MsbIndex(x) > 0 && Pow2(MsbIndex(x) - 1) <= x
  {
    if x > 0 {
      MsbBounds(x / 2);
    }
  }

  lemma {:induction false} Pow2Mono(a: nat, b: nat)
    requires a <= b
    ensures Pow2(a) <= Pow2(b)
  {
    if a < b {
      Pow2Mono(a, b - 1);
    }
  }

  /** The class of a size is the least one that the size fits. */
  lemma ClassIsLeast(size: pos, i: nat)
    ensures size <= ClassMax(GetClass(size))
    ensures size <= ClassMax(i) <==> GetClass(size) <= i
  {
    var x, c := (size - 1) / MIN_CLASS, GetClass(size);
    MsbBounds(x);
    if c <= i {
      Pow2Mono(c, i);
    } else {
      Pow2Mono(i, c - 1);
    }
  }

  lemma TopClass()
    ensures ClassMax(NUM_CLASSES - 1) == MAX_CLASS
  {
    assert Pow2(4) == 16;
    assert Pow2(8) == 256;
    assert Pow2(12) == 4096;
    assert Pow2(16) == 65536;
  }

  lemma ClassInRange(size: pos)
    ensures size <= MAX_CLASS <==> GetClass(size) < NUM_CLASSES
  {
    TopClass();
    ClassIsLeast(size, NUM_CLASSES - 1);
  }

  /** The reference loop computes the same class. */
  method GetClassSlow(size: pos) returns (sizeClass: nat)
    requires size <= MAX_CLASS
    ensures sizeClass == GetClass(size) < NUM_CLASSES
    ensures size <= ClassMax(sizeClass) && forall i: nat :: i < sizeClass ==> ClassMax(i) < size
  {
    sizeClass := 0;
    var classLim := MIN_CLASS;
    ClassInRange(size);
    while size > classLim
      invariant classLim == ClassMax(sizeClass) && sizeClass <= GetClass(size)
      invariant forall i: nat :: i < sizeClass ==> ClassMax(i) < size
      decreases GetClass(size) - sizeClass
    {
      ClassIsLeast(size, sizeClass);
      sizeClass := sizeClass + 1;
      classLim := classLim * 2;
    }
    ClassIsLeast(size, sizeClass);
  }

  // ---------------------------------------------------------------------------
  // Message buffers
  // ---------------------------------------------------------------------------

  /** Data bytes per packet and the size of a packet header, which is a multiple of 8. */
  datatype Layout = Layout(perPkt: pos, hdr: pos) {
    predicate Valid() {
      hdr % 8 == 0
    }

    function Bytes(size: nat): pos {
      size + NumPkts(perPkt, size) * hdr
    }

    /** The largest message: one header's worth of bytes less for each full packet of the
        largest class. */
    function MaxMsgSize(): int {
      MAX_CLASS - (MAX_CLASS / perPkt) * hdr
    }

    /** Offset of the `n`th packet header from the start of the allocation; data follows
        the zeroth one. */
    function HdrOffset(maxData: nat, n: nat): nat {
      if n == 0 then 0 else hdr + RoundUp8(maxData) + (n - 1) * hdr
    }
  }

  function RoundUp8(x: nat): nat {
    (x + 7) / 8 * 8
  }

  lemma RoundUp8Least(x: nat, y: nat)
    requires x <= y && y % 8 == 0
    ensures x <= RoundUp8(x) <= y
  {
  }

  lemma {:induction false} ClassMultiple(i: nat)
    ensures ClassMax(i) % 8 == 0
  {
    assert ClassMax(i) == 8 * (8 * Pow2(i));
  }

  lemma MultipleOf8(n: nat, h: nat)
    requires h % 8 == 0
    ensures (n * h) % 8 == 0
  {
    var q := h / 8;
    assert n * h == 8 * (n * q) by { assert h == 8 * q; }
  }

  /** All headers and the data of a message buffer lie in the class it was given, without
      overlap, although the headers after the data start at a rounded-up offset. */
  lemma MsgBufferFits(l: Layout, maxData: pos)
    requires l.Valid() && l.Bytes(maxData) <= MAX_CLASS
    ensures var n, c := NumPkts(l.perPkt, maxData), ClassMax(GetClass(l.Bytes(maxData)));
      && (forall i: nat :: i < n ==> l.HdrOffset(maxData, i) + l.hdr <= c)
      && l.hdr + maxData <= c
      && (forall i: nat :: 0 < i < n ==> l.hdr + maxData <= l.HdrOffset(maxData, i))
      && (forall i: nat, j: nat :: i < j < n ==> l.HdrOffset(maxData, i) + l.hdr <= l.HdrOffset(maxData, j))
  {
    var n, bytes := NumPkts(l.perPkt, maxData), l.Bytes(maxData);
    var k := GetClass(bytes);
    ClassIsLeast(bytes, k);
    ClassMultiple(k);
    hide NumPkts, GetClass, ClassMax, RoundUp8, Layout.HdrOffset;
    var c := ClassMax(k);
    Room(l, maxData, n, c);
    forall i: nat | i < n
      ensures l.HdrOffset(maxData, i) + l.hdr <= c
      ensures i > 0 ==> l.hdr + maxData <= l.HdrOffset(maxData, i)
    {
      HdrBefore(l, maxData, i, n);
      HdrBefore(l, maxData, 0, i);
    }
    forall i: nat, j: nat | i < j < n
      ensures l.HdrOffset(maxData, i) + l.hdr <= l.HdrOffset(maxData, j)
    {
      HdrBefore(l, maxData, i, j);
    }
    HdrBefore(l, maxData, 0, n);
  }

  lemma Room(l: Layout, maxData: nat, n: nat, c: nat)
    requires maxData + n * l.hdr <= c && c % 8 == 0 && l.Valid()
    ensures maxData <= RoundUp8(maxData) && RoundUp8(maxData) + n * l.hdr <= c
  {
    MultipleOf8(n, l.hdr);
    RoundUp8Least(maxData, c - n * l.hdr);
  }

  /** Header `j` starts after header `i` ends, and after the data. */
  lemma HdrBefore(l: Layout, maxData: nat, i: nat, j: nat)
    ensures j > 0 ==> l.HdrOffset(maxData, j) == RoundUp8(maxData) + j * l.hdr
    ensures i < j ==> l.HdrOffset(maxData, i) + l.hdr <= l.HdrOffset(maxData, j)
    ensures i < j && maxData <= RoundUp8(maxData) ==> l.hdr + maxData <= l.HdrOffset(maxData, j)
  {
    if j > 0 {
      assert (j - 1) * l.hdr + l.hdr == j * l.hdr;
      MulMono(0, j - 1, l.hdr);
    }
    if 0 < i < j {
      assert (i - 1) * l.hdr + l.hdr == i * l.hdr;
      MulMono(i, j - 1, l.hdr);
    }
  }

  /** Every message up to the size limit fits the largest class exactly if the header bytes
      taken off the limit make up for its last, partial packet. */
  lemma LimitFits(l: Layout)
    requires l.MaxMsgSize() >= 1
    ensures (forall size: pos :: size <= l.MaxMsgSize() ==> l.Bytes(size) <= MAX_CLASS)
            <==> MAX_CLASS <= (MAX_CLASS / l.perPkt) * (l.perPkt + l.hdr)
  {
    var k, h, q := l.perPkt, l.hdr, MAX_CLASS / l.perPkt;
    var m: pos := l.MaxMsgSize();
    assert q * (k + h) == q * k + q * h;
    if m <= q * k {
      forall size: pos | size <= m
        ensures l.Bytes(size) <= MAX_CLASS
      {
        PktsAtMost(k, size, q);
        MulMono(NumPkts(k, size), q, h);
      }
    } else {
      PktsMoreThan(k, m, q);
      MulMono(q + 1, NumPkts(k, m), h);
      assert (q + 1) * h == q * h + h;
      assert l.Bytes(m) > MAX_CLASS;
    }
  }

  lemma PktsAtMost(k: pos, size: pos, q: nat)
    requires size <= q * k
    ensures NumPkts(k, size) <= q
  {
    if size <= k {
      MulCancel(0, q, k);
    } else {
      MulCancel(DivUp(k, size) - 1, q, k);
    }
  }

  lemma PktsMoreThan(k: pos, size: pos, q: nat)
    requires size > q * k
    ensures NumPkts(k, size) > q
  {
    if size <= k {
      if q >= 1 { MulMono(1, q, k); }
    } else {
      MulCancel(q, DivUp(k, size), k);
    }
  }

  /** The limit fits for the packet sizes of every transport. */
  lemma LimitFitsHere(l: Layout, size: pos)
    requires (l == Layout(968, 56) || l == Layout(1008, 16) || l == Layout(3824, 16)) && size <= l.MaxMsgSize()
    ensures l.Bytes(size) <= MAX_CLASS && l.Valid()
  {
    LimitFits(l);
  }
}
