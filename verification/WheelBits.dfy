/** The per-slot bookkeeping of packets in the timing wheel: the bitmap indexed modulo
    the credits never aliases, because a slot never has more than that many packets
    outstanding. */
module WheelBits {
  import opened Wire
  import opened ClientSpec
  import opened Protocol

  lemma ModDistinct(c: pos, a: nat, b: nat)
    requires a < b < a + c
    ensures a % c != b % c
  {
    var q, r := a / c, b / c;
    assert a == q * c + a % c && b == r * c + b % c;
    if a % c == b % c {
      assert b - a == (r - q) * c by { assert (r - q) * c == r * c - q * c; }
      MulCancel(0, r - q, c);
      MulCancel(r - q, 1, c);
    }
  }

  lemma ModShift(c: pos, a: nat)
    ensures (a + c) % c == a % c
  {
    var q := a / c;
    assert a + c == (q + 1) * c + a % c by { assert (q + 1) * c == q * c + c; }
    ModUnique(c, a + c, q + 1, a % c);
  }

  lemma ModUnique(c: pos, a: nat, q: int, r: nat)
    requires a == q * c + r && r < c
    ensures a % c == r
  {
    var q', r' := a / c, a % c;
    assert a == q' * c + r';
    assert (q - q') * c == r' - r by { assert (q - q') * c == q * c - q' * c; }
    MulCancel(q - q', 1, c);
    MulCancel(-1, q - q', c);
  }

  /** Every residue has a representative in the window that starts at `base`. */
  lemma Representative(c: pos, base: nat, j: nat) returns (n: nat)
    requires j < c
    ensures base <= n < base + c && n % c == j
  {
    var q := base / c;
    assert base == q * c + base % c;
    if base % c <= j {
      n := q * c + j;
      ModUnique(c, n, q, j);
    } else {
      n := (q + 1) * c + j;
      assert (q + 1) * c == q * c + c;
      ModUnique(c, n, q + 1, j);
    }
  }

  lemma AddKeeps(p: Config, s: ClientSlot)
    requires WheelInv(p.credits, s)
    requires s.numRx <= s.numTx < s.numRx + p.credits
    ensures WheelInv(p.credits, AddToWheel(p, s, s.numTx).(numTx := s.numTx + 1))
  {
    var c, t := p.credits, AddToWheel(p, s, s.numTx).(numTx := s.numTx + 1);
    assert s.numTx !in s.wheel;
    forall n: nat | t.numRx <= n < t.numRx + c
      ensures Bit(c, t, n) <==> n in t.wheel
    {
      if n < s.numTx { ModDistinct(c, n, s.numTx); }
      if n > s.numTx { ModDistinct(c, s.numTx, n); }
      assert Bit(c, s, n) <==> n in s.wheel;
    }
  }

  lemma TakeKeeps(p: Config, s: ClientSlot, n0: nat)
    requires WheelInv(p.credits, s) && n0 in s.wheel && s.numTx <= s.numRx + p.credits
    ensures s.wheelCount > 0
    ensures WheelInv(p.credits, TakeFromWheel(p, s, n0))
    ensures n0 !in TakeFromWheel(p, s, n0).wheel
  {
    var c := p.credits;
    assert s.wheel == (s.wheel - multiset{n0}) + multiset{n0};
    var t := TakeFromWheel(p, s, n0);
    forall n: nat | t.numRx <= n < t.numRx + c
      ensures Bit(c, t, n) <==> n in t.wheel
    {
      if n < n0 { ModDistinct(c, n, n0); }
      if n > n0 { ModDistinct(c, n0, n); }
      assert Bit(c, s, n) <==> n in s.wheel;
    }
  }

  /** Counting an in-order packet moves the window past a packet that has left the wheel. */
  lemma AcceptKeeps(p: Config, s: ClientSlot)
    requires WheelInv(p.credits, s)
    requires s.numRx < s.numTx <= s.numRx + p.credits
    requires !Bit(p.credits, s, s.numRx)
    ensures WheelInv(p.credits, s.(numRx := s.numRx + 1))
  {
    var c, t := p.credits, s.(numRx := s.numRx + 1);
    assert s.numRx !in s.wheel;
    forall n: nat | t.numRx <= n < t.numRx + c
      ensures Bit(c, t, n) <==> n in t.wheel
    {
      if n == s.numRx + c {
        ModShift(c, s.numRx);
        assert n !in s.wheel;
      } else {
        assert Bit(c, s, n) <==> n in s.wheel;
      }
    }
  }

  lemma EmptyWheel(c: pos, s: ClientSlot)
    requires WheelInv(c, s)
    ensures s.wheelCount == 0 <==> s.wheel == multiset{}
    ensures s.numTx == s.numRx ==> s.wheelCount == 0
  {
    if s.numTx == s.numRx {
      assert forall n :: n in s.wheel ==> false;
      assert s.wheel == multiset{};
    }
  }

  /** With nothing in the wheel the bitmap is clear, so it fits any new window. */
  lemma ClearKeeps(p: Config, s: ClientSlot, t: ClientSlot)
    requires WheelInv(p.credits, s) && s.wheelCount == 0
    requires t.inWheel == s.inWheel && t.wheelCount == s.wheelCount && t.wheel == s.wheel
    ensures WheelInv(p.credits, t)
  {
    var c := p.credits;
    EmptyWheel(c, s);
    forall n: nat | t.numRx <= n < t.numRx + c
      ensures Bit(c, t, n) <==> n in t.wheel
    {
      var m := Representative(c, s.numRx, n % c);
      assert Bit(c, s, m) <==> m in s.wheel;
    }
  }
}
