/** Binary floating point, section 4.3.1 of IEEE 754-2019: what rounding to the nearest 64-bit
    number does to non-negative reals, and the error bound that proofs mostly need. */
module Doubles {

  // ----- powers of two -----

  function TwoTo(e: int): (t: real)
    ensures t > 0.0
    decreases if e < 0 then -e else e
  {
    if e == 0 then 1.0 else if e > 0 then 2.0 * TwoTo(e - 1) else TwoTo(e + 1) / 2.0
  }

  lemma TwoToStep(e: int)
    ensures TwoTo(e + 1) == 2.0 * TwoTo(e)
  {}

  lemma {:induction false} TwoToMonotone(a: int, b: int)
    requires a <= b
    ensures TwoTo(a) <= TwoTo(b)
    decreases b - a
  {
    if a < b {
      TwoToMonotone(a, b - 1);
      TwoToStep(b - 1);
    }
  }

  function Times(x: real, y: real): real { x * y }

  lemma {:induction false} TwoToAdd(a: nat, e: int)
    ensures TwoTo(e + a) == Times(TwoTo(a), TwoTo(e))
  {
    if a > 0 {
      TwoToAdd(a - 1, e);
      TwoToStep(e + a - 1);
      Associate(TwoTo(a - 1), TwoTo(e));
    }
  }

  lemma Associate(x: real, y: real)
    ensures Times(2.0 * x, y) == 2.0 * Times(x, y)
  {}

  /** 2^-53: half a unit in the last place, relative to the value. */
  const U: real := 0.00000000000000011102230246251565404236316680908203125

  lemma UIsPowerOfTwo()
    ensures U == TwoTo(-53)
  {
    SmallPowers();
    TwoToAdd(53, -53);
  }

  lemma SmallPowers()
    ensures TwoTo(10) == 1024.0 && TwoTo(20) == 1048576.0 && TwoTo(40) == 1099511627776.0
    ensures TwoTo(53) == 9007199254740992.0 && TwoTo(70) == 1180591620717411303424.0
  {
    assert TwoTo(5) == 32.0;
    assert TwoTo(10) == 1024.0;
    TwoToAdd(10, 10);
    TwoToAdd(20, 20);
    TwoToAdd(10, 40);
    assert TwoTo(3) == 8.0;
    TwoToAdd(3, 50);
    TwoToAdd(20, 50);
  }

  // ----- rounding to nearest -----

  /** `e` is the exponent of `x`; below the normal range the spacing stays that of 2^-1022. */
  ghost predicate InBinade(x: real, e: int) {
    -1022 <= e <= 1023 && 0.0 <= x < TwoTo(e + 1) && (e == -1022 || TwoTo(e) <= x)
  }

  function GridPoint(k: int, e: int): real { Times(k as real, TwoTo(e - 52)) }

  ghost predicate OnGrid(d: real, e: int) { exists k: int :: d == GridPoint(k, e) }

  function Abs(x: real): real { if x < 0.0 then -x else x }

  /** At `x` the result is a 53-bit number at most half a spacing away. */
  ghost predicate NearestAt(rnd: real -> real, x: real, e: int) {
    InBinade(x, e) ==> OnGrid(rnd(x), e) && Abs(rnd(x) - x) <= TwoTo(e - 53)
  }

  /** Of numbers outside the binades no more is asked: a negative one does not become positive, and
      what overflows does not come back. */
  ghost predicate OutsideAt(rnd: real -> real, x: real) {
    (x < 0.0 ==> rnd(x) <= 0.0) && (x >= TwoTo(1024) ==> rnd(x) >= TwoTo(1024))
  }

  /** Round to nearest; how ties are broken is left open, and 2^1024 stands for infinity. */
  ghost predicate RoundsToNearest(rnd: real -> real) {
    (forall x, e :: NearestAt(rnd, x, e)) && (forall x :: OutsideAt(rnd, x))
  }

  // ----- the error bound -----

  /** Zero, or in the normal range and below 2^1023. */
  ghost predicate Normal(x: real) { x == 0.0 || TwoTo(-1022) <= x < TwoTo(1023) }

  ghost predicate Near(rnd: real -> real, x: real) { Normal(x) ==> Abs(rnd(x) - x) <= x * U }

  ghost predicate InOrder(rnd: real -> real, x: real, y: real) { 0.0 <= x <= y < TwoTo(1023) ==> rnd(x) <= rnd(y) }

  /** What the error analysis uses: relative error at most 2^-53 in the normal range, and order
      kept among all non-negative numbers. */
  ghost predicate IsRounding(rnd: real -> real) {
    (forall x :: Near(rnd, x)) && (forall x, y :: InOrder(rnd, x, y))
  }

  lemma {:induction false} ModerateIsNormal(x: real)
    requires x == 0.0 || 0.00000000000000000001 <= x <= 100_000_000_000_000_000_000.0
    ensures Normal(x) && 0.0 <= x < TwoTo(1023)
  {
    SmallPowers();
    TwoToAdd(70, -70);
    TwoToMonotone(-1022, -70);
    TwoToMonotone(70, 1023);
  }

  lemma {:induction false} Exponent(x: real, top: int) returns (e: int)
    requires 0.0 <= x < TwoTo(top + 1) && -1022 <= top <= 1023
    ensures InBinade(x, e) && e <= top
    decreases top + 1022
  {
    if top == -1022 || TwoTo(top) <= x {
      e := top;
    } else {
      e := Exponent(x, top - 1);
    }
  }

  lemma {:induction false} BelowTop(x: real)
    requires 0.0 <= x < TwoTo(1024)
    ensures exists e :: InBinade(x, e)
  {
    var e := Exponent(x, 1023);
  }

  /** Half a spacing is at most 2^-53 of a normal number. */
  lemma {:induction false} HalfSpacing(x: real, e: int)
    requires InBinade(x, e) && TwoTo(-1022) <= x
    ensures TwoTo(e - 53) <= x * U
  {
    UIsPowerOfTwo();
    SmallPowers();
    TwoToAdd(53, e - 53);
    assert TwoTo(e) <= x;
    ScaleDown(TwoTo(e - 53), x);
  }

  lemma ScaleDown(h: real, x: real)
    requires Times(9007199254740992.0, h) <= x
    ensures h <= x * U
  {}

  lemma {:induction false} NearestIsNear(rnd: real -> real, x: real)
    requires RoundsToNearest(rnd)
    ensures Near(rnd, x)
  {
    if Normal(x) {
      TwoToMonotone(1023, 1024);
      BelowTop(x);
      var e :| InBinade(x, e);
      assert NearestAt(rnd, x, e);
      if x == 0.0 { ZeroRoundsToZero(rnd, e); } else { HalfSpacing(x, e); }
    }
  }

  lemma {:induction false} Apart(a: int, b: int, u: real)
    requires u > 0.0 && Times(a as real, u) < Times(b as real, u)
    ensures Times(a as real, u) + u <= Times(b as real, u)
  {
    if a >= b { TimesMonotone(b as real, a as real, u); }
    TimesMonotone(a as real + 1.0, b as real, u);
    assert Times(a as real + 1.0, u) == Times(a as real, u) + u;
  }

  lemma TimesMonotone(a: real, b: real, u: real)
    requires u >= 0.0
    ensures a <= b ==> Times(a, u) <= Times(b, u)
  {}

  /** Numbers on the grid are at least a spacing apart. */
  lemma {:induction false} GridGap(a: real, b: real, e: int)
    requires OnGrid(a, e) && OnGrid(b, e) && a < b
    ensures a + TwoTo(e - 52) <= b
  {
    var j: int :| a == GridPoint(j, e);
    var k: int :| b == GridPoint(k, e);
    Apart(j, k, TwoTo(e - 52));
  }

  /** Two grid points within half a spacing of two numbers are in the order of the numbers. */
  lemma {:induction false} GridOrder(a: real, b: real, x: real, y: real, e: int)
    requires OnGrid(a, e) && OnGrid(b, e) && x <= y
    requires Abs(a - x) <= TwoTo(e - 53) && Abs(b - y) <= TwoTo(e - 53) && (x == y ==> a == b)
    ensures a <= b
  {
    HalfOf(e);
    if b < a { GridGap(b, a, e); }
  }

  lemma {:induction false} HalfOf(e: int)
    ensures TwoTo(e - 52) == 2.0 * TwoTo(e - 53)
  {
    TwoToStep(e - 53);
  }

  /** A number on the grid is its own rounding. */
  lemma {:induction false} GridStays(rnd: real -> real, x: real, e: int)
    requires RoundsToNearest(rnd) && InBinade(x, e) && OnGrid(x, e)
    ensures rnd(x) == x
  {
    assert NearestAt(rnd, x, e);
    HalfOf(e);
    if rnd(x) < x { GridGap(rnd(x), x, e); }
    if x < rnd(x) { GridGap(x, rnd(x), e); }
  }

  lemma {:induction false} ZeroRoundsToZero(rnd: real -> real, e: int)
    requires RoundsToNearest(rnd) && InBinade(0.0, e)
    ensures rnd(0.0) == 0.0
  {
    assert GridPoint(0, e) == 0.0;
    GridStays(rnd, 0.0, e);
  }

  /** The end points of a binade are on its grid. */
  lemma {:induction false} BinadeEnds(e: int)
    ensures TwoTo(e) == GridPoint(4503599627370496, e) && TwoTo(e + 1) == GridPoint(9007199254740992, e)
  {
    SmallPowers();
    TwoToAdd(52, e - 52);
    TwoToAdd(53, e - 52);
    TwoToStep(52);
  }

  /** Rounding stays between the end points of the binade. */
  lemma {:induction false} WithinEnds(rnd: real -> real, x: real, e: int)
    requires RoundsToNearest(rnd) && InBinade(x, e)
    ensures rnd(x) <= TwoTo(e + 1) && (e > -1022 ==> TwoTo(e) <= rnd(x))
  {
    assert NearestAt(rnd, x, e);
    HalfOf(e);
    BinadeEnds(e);
    if TwoTo(e + 1) < rnd(x) { GridGap(TwoTo(e + 1), rnd(x), e); }
    if rnd(x) < TwoTo(e) { GridGap(rnd(x), TwoTo(e), e); }
  }

  lemma {:induction false} KeepsOrder(rnd: real -> real, x: real, y: real)
    requires RoundsToNearest(rnd) && 0.0 <= x <= y < TwoTo(1024)
    ensures rnd(x) <= rnd(y)
  {
    BelowTop(x);
    BelowTop(y);
    var d :| InBinade(x, d);
    var e :| InBinade(y, e);
    if d == e {
      assert NearestAt(rnd, x, e) && NearestAt(rnd, y, e);
      GridOrder(rnd(x), rnd(y), x, y, e);
    } else {
      if e < d { TwoToMonotone(e + 1, d); }
      WithinEnds(rnd, x, d);
      WithinEnds(rnd, y, e);
      TwoToMonotone(d + 1, e);
    }
  }

  lemma {:induction false} PowerStays(rnd: real -> real, e: int)
    requires RoundsToNearest(rnd) && -1022 <= e <= 1023
    ensures rnd(TwoTo(e)) == TwoTo(e)
  {
    BinadeEnds(e);
    TwoToStep(e);
    GridStays(rnd, TwoTo(e), e);
  }

  /** Rounding to nearest meets the error bound and keeps order. */
  lemma {:induction false} NearestIsRounding(rnd: real -> real)
    requires RoundsToNearest(rnd)
    ensures IsRounding(rnd)
  {
    forall x ensures Near(rnd, x) { NearestIsNear(rnd, x); }
    TwoToMonotone(1023, 1024);
    forall x, y ensures InOrder(rnd, x, y) { if 0.0 <= x <= y < TwoTo(1023) { KeepsOrder(rnd, x, y); } }
  }

  // ----- doubles and their neighbours -----

  ghost predicate IsDouble(x: real) { exists e :: InBinade(x, e) && OnGrid(x, e) }

  /** A rounded number below 2^1024 is a double. */
  lemma {:induction false} RoundedIsDouble(rnd: real -> real, x: real)
    requires RoundsToNearest(rnd) && 0.0 < rnd(x) < TwoTo(1024)
    ensures IsDouble(rnd(x))
  {
    assert OutsideAt(rnd, x);
    BelowTop(x);
    var e :| InBinade(x, e);
    assert NearestAt(rnd, x, e);
    WithinEnds(rnd, x, e);
    if rnd(x) < TwoTo(e + 1) {
      assert InBinade(rnd(x), e);
    } else {
      TwoToStep(e + 1);
      BinadeEnds(e + 1);
      assert e < 1023;
      assert InBinade(rnd(x), e + 1) && OnGrid(rnd(x), e + 1);
    }
  }

  lemma {:induction false} NextPoint(k: int, e: int)
    ensures GridPoint(k + 1, e) == GridPoint(k, e) + TwoTo(e - 52)
  {
    assert (k + 1) as real == k as real + 1.0;
  }

  /** A double below one of 53 bits is at most its predecessor. */
  lemma {:induction false} AtMostPrevious(x: real, k: int, e: int)
    requires IsDouble(x) && -1022 <= e <= 1023 && 4503599627370496 < k <= 9007199254740992 && x < GridPoint(k, e)
    ensures x <= GridPoint(k - 1, e)
  {
    var d :| InBinade(x, d) && OnGrid(x, d);
    BinadeEnds(e);
    TimesMonotone(4503599627370496 as real, (k - 1) as real, TwoTo(e - 52));
    TimesMonotone(k as real, 9007199254740992 as real, TwoTo(e - 52));
    if d < e {
      TwoToMonotone(d + 1, e);
    } else {
      if e < d { TwoToMonotone(e + 1, d); }
      assert OnGrid(GridPoint(k, e), e);
      GridGap(x, GridPoint(k, e), e);
      NextPoint(k - 1, e);
    }
  }

  /** A double above one of 53 bits is at least its successor. */
  lemma {:induction false} AtLeastNext(x: real, k: int, e: int)
    requires IsDouble(x) && -1022 <= e <= 1023 && 4503599627370496 <= k < 9007199254740992 && GridPoint(k, e) < x
    ensures GridPoint(k + 1, e) <= x
  {
    var d :| InBinade(x, d) && OnGrid(x, d);
    BinadeEnds(e);
    TimesMonotone(4503599627370496 as real, k as real, TwoTo(e - 52));
    TimesMonotone((k + 1) as real, 9007199254740992 as real, TwoTo(e - 52));
    if e < d {
      TwoToMonotone(e + 1, d);
    } else {
      if d < e { TwoToMonotone(d + 1, e); }
      assert OnGrid(GridPoint(k, e), e);
      GridGap(GridPoint(k, e), x, e);
      NextPoint(k, e);
    }
  }

  // ----- computing a rounding -----

  /** A number less than half a spacing from `k` spacings rounds to them. */
  lemma {:induction false} RoundsTo(rnd: real -> real, x: real, e: int, k: int, spacing: real)
    requires RoundsToNearest(rnd) && -1022 <= e <= 1023 && spacing == TwoTo(e - 52)
    requires 4503599627370496 < k < 9007199254740992
    requires Times(k as real, spacing) - spacing / 2.0 < x < Times(k as real, spacing) + spacing / 2.0
    ensures rnd(x) == Times(k as real, spacing)
  {
    BinadeEnds(e);
    HalfOf(e);
    TimesMonotone(4503599627370497 as real, k as real, spacing);
    TimesMonotone(k as real, 9007199254740991 as real, spacing);
    assert InBinade(x, e) && NearestAt(rnd, x, e);
    assert OnGrid(GridPoint(k, e), e);
    if rnd(x) < GridPoint(k, e) { GridGap(rnd(x), GridPoint(k, e), e); }
    if GridPoint(k, e) < rnd(x) { GridGap(GridPoint(k, e), rnd(x), e); }
  }

  /** The same scaled by a power of two. */
  lemma {:induction false} RoundsToScaled(rnd: real -> real, x: real, e: int, k: int, spacing: real, j: nat)
    requires RoundsToNearest(rnd) && -1022 <= e && e + j <= 1023 && spacing == TwoTo(e - 52)
    requires 4503599627370496 < k < 9007199254740992
    requires k as real * spacing - spacing / 2.0 < x < k as real * spacing + spacing / 2.0
    ensures rnd(Times(x, TwoTo(j))) == GridPoint(k, e + j)
  {
    TwoToAdd(j, e - 52);
    ScaleBounds(x, k as real, spacing, TwoTo(j));
    RoundsTo(rnd, Times(x, TwoTo(j)), e + j, k, TwoTo(e + j - 52));
  }

  lemma {:induction false} ScaleBounds(x: real, k: real, s: real, t: real)
    requires t > 0.0 && k * s - s / 2.0 < x < k * s + s / 2.0
    ensures Times(k, Times(t, s)) - Times(t, s) / 2.0 < Times(x, t) < Times(k, Times(t, s)) + Times(t, s) / 2.0
  {
    Stretch(k * s - s / 2.0, x, t);
    Stretch(x, k * s + s / 2.0, t);
    assert Times(k, Times(t, s)) == Times(k * s, t);
    assert Times(k * s - s / 2.0, t) == Times(k * s, t) - Times(t, s) / 2.0;
    assert Times(k * s + s / 2.0, t) == Times(k * s, t) + Times(t, s) / 2.0;
  }

  lemma {:induction false} Stretch(a: real, b: real, t: real)
    requires t > 0.0 && a < b
    ensures Times(a, t) < Times(b, t)
  {}

  lemma {:induction false} Inverse(n: nat)
    ensures TwoTo(0 - n) == 1.0 / TwoTo(n)
  {
    TwoToAdd(n, 0 - n);
    assert TwoTo(n) * TwoTo(0 - n) == 1.0;
  }

  // ----- there is such a rounding -----

  lemma {:induction false} OneBinade(x: real, d: int, e: int)
    requires InBinade(x, d) && InBinade(x, e)
    ensures d == e
  {
    if d < e { TwoToMonotone(d + 1, e); }
    if e < d { TwoToMonotone(e + 1, d); }
  }

  function Closest(x: real, u: real): int
    requires u > 0.0
  {
    (x / u + 0.5).Floor
  }

  lemma {:induction false} ClosestIsClose(x: real, u: real)
    requires u > 0.0
    ensures Abs(Times(Closest(x, u) as real, u) - x) <= u / 2.0
  {
    var q, k := x / u, Closest(x, u) as real;
    assert q * u == x;
    assert k - 0.5 <= q <= k + 0.5;
    TimesMonotone(k - 0.5, q, u);
    TimesMonotone(q, k + 0.5, u);
    assert Times(k - 0.5, u) == Times(k, u) - u / 2.0 && Times(k + 0.5, u) == Times(k, u) + u / 2.0;
  }

  ghost function Nearest(x: real): real {
    if exists e :: InBinade(x, e) then var e :| InBinade(x, e); GridPoint(Closest(x, TwoTo(e - 52)), e) else x
  }

  lemma {:induction false} NearestRounds()
    ensures RoundsToNearest(Nearest)
  {
    forall x, e ensures NearestAt(Nearest, x, e) {
      if InBinade(x, e) {
        var d :| InBinade(x, d) && Nearest(x) == GridPoint(Closest(x, TwoTo(d - 52)), d);
        OneBinade(x, d, e);
        ClosestIsClose(x, TwoTo(e - 52));
        HalfOf(e);
      }
    }
    forall x ensures OutsideAt(Nearest, x) {
      forall e ensures InBinade(x, e) ==> 0.0 <= x < TwoTo(1024) { if InBinade(x, e) { TwoToMonotone(e + 1, 1024); } }
    }
  }
}
