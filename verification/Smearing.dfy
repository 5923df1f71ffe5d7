/** The bit-smearing trick: OR-ing a 32-bit integer with its own shifts sets every bit below its
    top one.  Bit operations work on 32-bit two's complement, after ToInt32. */
module Smearing {

  const TWO_31 := 0x8000_0000
  const TWO_32 := 0x1_0000_0000

  function Pow2(n: nat): (p: nat)
    ensures p >= 1
  {
    if n == 0 then 1 else 2 * Pow2(n - 1)
  }

  /** Section 7.1.6 of ECMA-262, on a non-negative number. */
  function ToInt32(x: real): (v: int)
    requires x >= 0.0
    ensures -TWO_31 <= v < TWO_31
  {
    var m := x.Floor % TWO_32;
    if m >= TWO_31 then m - TWO_32 else m
  }

  /** `a | b` in two's complement: the sign extends for ever, so 0 and -1 are the base cases. */
  function Or(a: int, b: int): int
    decreases Size(a) + Size(b)
  {
    if (a == 0 || a == -1) && (b == 0 || b == -1) then (if a == -1 || b == -1 then -1 else 0)
    else 2 * Or(a / 2, b / 2) + (if a % 2 == 1 || b % 2 == 1 then 1 else 0)
  }

  function Size(a: int): nat { if a < 0 then -1 - a else a }

  /** `a >> k`: the count is taken modulo 32, so a shift by 32 is no shift. */
  function Shr(a: int, k: nat): int { Halves(a, k % 32) }

  function Halves(a: int, n: nat): int
    decreases n
  {
    if n == 0 then a else Halves(a / 2, n - 1)
  }

  /** `x | (x >> s)` for s, 2s, 4s, ... up to 32. */
  function SmearFrom(x: int, s: nat): int
    requires s >= 1
    decreases 64 - s, Size(x)
  {
    if s > 32 then x else SmearFrom(Or(x, Shr(x, s)), 2 * s)
  }

  function Smear(v: int): int { SmearFrom(v, 1) }

  function TopBit(v: int): int { Smear(v) - Shr(Smear(v), 1) }

  // ----- OR -----

  /** On numbers of the same sign, OR keeps the sign and is at least both. */
  lemma {:induction false} OrAtLeast(a: int, b: int)
    requires a < 0 <==> b < 0
    ensures Or(a, b) >= a && Or(a, b) >= b && (Or(a, b) < 0 <==> a < 0)
    decreases Size(a) + Size(b)
  {
    if !((a == 0 || a == -1) && (b == 0 || b == -1)) { OrAtLeast(a / 2, b / 2); }
  }

  lemma {:induction false} OrBelow(a: nat, b: nat, n: nat)
    requires a < Pow2(n) && b < Pow2(n)
    ensures 0 <= Or(a, b) < Pow2(n)
    decreases n
  {
    if n > 0 { OrBelow(a / 2, b / 2, n - 1); }
  }

  lemma {:induction false} OrSame(a: int)
    ensures Or(a, a) == a
    decreases Size(a)
  {
    if a != 0 && a != -1 { OrSame(a / 2); }
  }

  lemma {:induction false} OrZero(q: nat)
    ensures Or(q, 0) == q
    decreases q
  {
    if q > 0 { OrZero(q / 2); }
  }

  predicate Multiple(h: nat, m: nat) {
    m == 0 || (h % 2 == 0 && Multiple(h / 2, m - 1))
  }

  /** High bits pass through an OR of smaller numbers. */
  lemma {:induction false} OrHigh(h: nat, a: nat, b: nat, m: nat)
    requires Multiple(h, m) && a < Pow2(m) && b < Pow2(m)
    ensures Or(h + a, b) == h + Or(a, b)
    decreases m
  {
    if m == 0 {
      OrZero(h);
    } else {
      OrHigh(h / 2, a / 2, b / 2, m - 1);
    }
  }

  lemma {:induction false} TopIsMultiple(n: nat, m: nat)
    requires m <= n
    ensures Pow2(n) >= Pow2(m) && Multiple(Pow2(n) - Pow2(m), m)
  {
    if m > 0 {
      TopIsMultiple(n - 1, m - 1);
      assert (Pow2(n) - Pow2(m)) / 2 == Pow2(n - 1) - Pow2(m - 1);
    } else if n > 0 {
      TopIsMultiple(n - 1, 0);
    }
  }

  // ----- smearing -----

  /** `v` is below 2^n and all its bits from `j` up to `n` are set. */
  ghost predicate Ones(v: int, n: nat, j: nat) {
    j <= n && 0 <= v && Pow2(n) - Pow2(j) <= v < Pow2(n)
  }

  function Drop(n: nat, s: nat): nat { if s <= n then n - s else 0 }

  lemma {:induction false} HalvesOnes(v: nat, n: nat, j: nat, s: nat)
    requires Ones(v, n, j) && s <= n
    ensures Ones(Halves(v, s), n - s, Drop(j, s))
    decreases s
  {
    if s > 0 { HalvesOnes(v / 2, n - 1, Drop(j, 1), s - 1); }
  }

  lemma {:induction false} HalvesBelow(v: nat, s: nat)
    ensures 0 <= Halves(v, s) <= v
    decreases s
  {
    if s > 0 { HalvesBelow(v / 2, s - 1); }
  }

  lemma {:induction false} HalvesNegative(v: int, n: nat, s: nat)
    requires 0 <= v + Pow2(n) && v < 0
    ensures 0 <= Halves(v, s) + Pow2(Drop(n, s)) && Halves(v, s) < 0
    decreases s
  {
    if s > 0 { HalvesNegative(v / 2, Drop(n, 1), s - 1); }
  }

  /** Behind a run of top bits only the low bits change, to at least those of `b`. */
  lemma {:induction false} OrBehindOnes(v: nat, n: nat, j: nat, b: nat)
    requires Ones(v, n, j) && b < Pow2(j)
    ensures 0 <= Or(v, b) && Pow2(n) - Pow2(j) + b <= Or(v, b) < Pow2(n)
  {
    TopIsMultiple(n, j);
    var h := Pow2(n) - Pow2(j);
    OrHigh(h, v - h, b, j);
    OrBelow(v - h, b, j);
    OrAtLeast(v - h, b);
  }

  lemma {:induction false} OrAllOnes(v: nat, n: nat, b: nat)
    requires Ones(v, n, 0) && b <= v
    ensures Ones(Or(v, b), n, 0)
  {
    OrBelow(v, b, n);
    OrAtLeast(v, b);
  }

  /** One smearing step doubles the run of top bits. */
  lemma {:induction false} SmearStep(v: nat, n: nat, s: nat)
    requires Ones(v, n, Drop(n, s)) && 1 <= s < 32
    ensures Ones(Or(v, Shr(v, s)), n, Drop(n, 2 * s))
  {
    assert Shr(v, s) == Halves(v, s);
    HalvesBelow(v, s);
    if s >= n {
      OrAllOnes(v, n, Halves(v, s));
    } else {
      HalvesOnes(v, n, n - s, s);
      OrBehindOnes(v, n, n - s, Halves(v, s));
    }
  }

  lemma {:induction false} BitLength(v: nat) returns (n: nat)
    requires v > 0
    ensures n >= 1 && Pow2(n - 1) <= v < Pow2(n)
  {
    if v == 1 {
      n := 1;
    } else {
      n := BitLength(v / 2);
      n := n + 1;
    }
  }

  predicate IsShift(s: nat) { s in {1, 2, 4, 8, 16, 32} }

  /** Smearing a positive number sets every bit below its top one. */
  lemma {:induction false} SmearFills(x: nat, n: nat, s: nat)
    requires 1 <= n <= 31 && IsShift(s) && Ones(x, n, Drop(n, s))
    ensures SmearFrom(x, s) == Pow2(n) - 1
    decreases 64 - s
  {
    if s == 32 {
      OrSame(x);
    } else {
      SmearStep(x, n, s);
      SmearFills(Or(x, Shr(x, s)), n, 2 * s);
    }
  }

  lemma {:induction false} Pow2Monotone(a: nat, b: nat)
    requires a <= b
    ensures Pow2(a) <= Pow2(b)
  {
    if a < b { Pow2Monotone(a, b - 1); }
  }

  lemma {:induction false} Pow2Of31()
    ensures Pow2(31) == TWO_31
  {
    assert Pow2(8) == 0x100;
    assert Pow2(16) == 0x1_0000;
    assert Pow2(24) == 0x100_0000;
  }

  /** The top bit of a positive 32-bit integer is the power of two at or below it. */
  lemma {:induction false} TopBitIsPower(v: nat) returns (k: nat)
    requires 0 < v < TWO_31
    ensures k <= 30 && TopBit(v) == Pow2(k) && Pow2(k) <= v < 2 * Pow2(k)
  {
    var n := BitLength(v);
    Pow2Of31();
    if n > 31 { Pow2Monotone(31, n - 1); }
    SmearFills(v, n, 1);
    k := n - 1;
    HalfOfOnes(Smear(v), Pow2(k));
  }

  lemma {:induction false} HalfOfOnes(x: nat, p: nat)
    requires p >= 1 && x == 2 * p - 1
    ensures x - Shr(x, 1) == p
  {
    HalfOf(x);
  }

  /** `v` is negative and at least -2^n. */
  predicate AboveMinus(v: int, n: nat) { v < 0 <= v + Pow2(n) }

  lemma {:induction false} SmearNegative(x: int, n: nat, s: nat)
    requires AboveMinus(x, n) && s < 32
    ensures AboveMinus(Or(x, Shr(x, s)), Drop(n, s))
  {
    HalvesNegative(x, n, s);
    OrAtLeast(x, Shr(x, s));
  }

  /** A negative number smears to -1. */
  lemma {:induction false} NegativeFills(x: int, n: nat, s: nat)
    requires IsShift(s) && n == Drop(32, s) && AboveMinus(x, n)
    ensures SmearFrom(x, s) == -1
    decreases 64 - s
  {
    if s == 32 {
      OrSame(x);
    } else {
      SmearNegative(x, n, s);
      NegativeFills(Or(x, Shr(x, s)), Drop(n, s), 2 * s);
    }
  }

  lemma {:induction false} ZeroStays(x: nat, s: nat)
    requires IsShift(s) && x == 0
    ensures SmearFrom(x, s) == 0
    decreases 64 - s
  {
    HalvesBelow(x, s % 32);
    OrSame(x);
    if s < 32 { ZeroStays(Or(x, Shr(x, s)), 2 * s); }
  }

  lemma {:induction false} HalfOf(x: int)
    ensures Shr(x, 1) == x / 2
  {
    assert Halves(x, 1) == Halves(x / 2, 0);
  }

  /** Zero and the negative integers have no top bit: zero stays zero, the others smear to -1. */
  lemma {:induction false} NoTopBit(v: int)
    requires -TWO_31 <= v <= 0
    ensures TopBit(v) == 0
  {
    HalfOf(Smear(v));
    if v < 0 {
      Pow2Of31();
      NegativeFills(v, 31, 1);
    } else {
      ZeroStays(v, 1);
    }
  }

  /** The integer a number is taken for differs from its floor by a multiple of 2^32. */
  lemma {:induction false} ToInt32IsCongruent(x: real)
    requires x >= 0.0
    ensures (x.Floor - ToInt32(x)) % 0x1_0000_0000 == 0 && -0x8000_0000 <= ToInt32(x) < 0x8000_0000
  {}
}
