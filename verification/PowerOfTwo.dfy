/** nearestPowerOfTwo: a power of two at or below a difficulty, scaled by hundreds below 1. */
module PowerOfTwo {
  import opened Doubles
  import opened Smearing

  const MIN_DIFF: real := 0.00001

  /** The recursion of nearestPowerOfTwo with room for `depth` nested calls; Overflow when they
      run out, which is what an endless recursion comes to. */
  datatype Suggestion = Null | Diff(value: real) | Overflow

  function DivideBy100(rnd: real -> real, s: Suggestion): Suggestion {
    if s.Diff? then Diff(rnd(s.value / 100.0)) else s
  }

  /** Products and quotients are rounded by `rnd`.  A product of 2^1024 or more is Infinity, on
      which the recursion never ends. */
  function NearestPowerOfTwo(rnd: real -> real, val: real, depth: nat): Suggestion
    decreases depth
  {
    if depth == 0 then Overflow
    else if val == 0.0 then Null
    else if val < MIN_DIFF then Diff(MIN_DIFF)
    else
      var res := TopBit(ToInt32(val));
      if res != 0 then Diff(res as real)
      else if val * 100.0 >= TwoTo(1024) then Overflow
      else if rnd(val * 100.0) < MIN_DIFF then Diff(MIN_DIFF)
      else DivideBy100(rnd, NearestPowerOfTwo(rnd, rnd(val * 100.0), depth - 1))
  }

  // ----- from 1 upwards: exact -----

  lemma {:induction false} BelowOne(val: real)
    requires 0.0 <= val < 1.0
    ensures TopBit(ToInt32(val)) == 0
  {
    NoTopBit(ToInt32(val));
  }

  lemma {:induction false} FloorBetween(val: real, p: int)
    requires p <= val.Floor < 2 * p
    ensures p as real <= val < 2.0 * p as real
  {}

  lemma {:induction false} SmallToInt32(val: real)
    requires 0.0 <= val < TWO_31 as real
    ensures ToInt32(val) == val.Floor
  {}

  lemma {:induction false} PowerBelow(val: real) returns (p: int)
    requires 1.0 <= val < TWO_31 as real
    ensures p == TopBit(ToInt32(val)) && p >= 1 && p as real <= val < 2.0 * p as real
  {
    SmallToInt32(val);
    var k := TopBitIsPower(val.Floor);
    p := Pow2(k);
    FloorBetween(val, p);
  }

  predicate WithinTwo(n: Suggestion, val: real) { n.Diff? && 0.0 < n.value <= val < 2.0 * n.value }

  lemma {:induction false} NearestAboveOne(rnd: real -> real, val: real, depth: nat)
    requires 1.0 <= val < TWO_31 as real && depth >= 1
    ensures WithinTwo(NearestPowerOfTwo(rnd, val, depth), val)
  {
    var p := PowerBelow(val);
    assert NearestPowerOfTwo(rnd, val, depth) == Diff(p as real);
  }

  lemma {:induction false} TopBitAtMost(v: int)
    requires -TWO_31 <= v < TWO_31
    ensures 0 <= TopBit(v) <= 0x4000_0000
  {
    if v > 0 {
      var k := TopBitIsPower(v);
      Pow2Monotone(k, 30);
      Pow2Of31();
    } else {
      NoTopBit(v);
    }
  }

  const TWO_30: real := 1073741824.0

  lemma {:induction false} PowersStay(rnd: real -> real)
    requires RoundsToNearest(rnd)
    ensures rnd(1.0) == 1.0 && rnd(TWO_30) == TWO_30 && rnd(2.0 * TWO_30) == 2.0 * TWO_30 && rnd(0.0) == 0.0
  {
    SmallPowers();
    TwoToAdd(10, 20);
    TwoToStep(30);
    PowerStays(rnd, 0);
    PowerStays(rnd, 30);
    PowerStays(rnd, 31);
    ZeroRoundsToZero(rnd, -1022);
  }

  predicate AtMostTwo30(n: Suggestion) { n.Diff? ==> 0.0 <= n.value <= TWO_30 }

  lemma {:induction false} DividedAtMost(rnd: real -> real, n: Suggestion)
    requires RoundsToNearest(rnd) && AtMostTwo30(n)
    ensures AtMostTwo30(DivideBy100(rnd, n))
  {
    if n.Diff? {
      PowersStay(rnd);
      ModerateIsNormal(TWO_30);
      TwoToMonotone(1023, 1024);
      KeepsOrder(rnd, 0.0, n.value / 100.0);
      KeepsOrder(rnd, n.value / 100.0, TWO_30);
    }
  }

  lemma {:induction false} ScaledStaysLarge(rnd: real -> real, val: real)
    requires RoundsToNearest(rnd) && 2.0 * TWO_30 <= val && val * 100.0 < TwoTo(1024)
    ensures 2.0 * TWO_30 <= rnd(val * 100.0)
  {
    PowersStay(rnd);
    KeepsOrder(rnd, 2.0 * TWO_30, val * 100.0);
  }

  lemma {:induction false} TopBitReturned(rnd: real -> real, val: real, depth: nat)
    requires val >= 2.0 * TWO_30 && depth > 0 && TopBit(ToInt32(val)) > 0
    ensures AtMostTwo30(NearestPowerOfTwo(rnd, val, depth))
  {
    TopBitAtMost(ToInt32(val));
    assert NearestPowerOfTwo(rnd, val, depth) == Diff(TopBit(ToInt32(val)) as real);
  }

  lemma {:induction false} ScalesUp(rnd: real -> real, val: real, depth: nat)
    requires val >= MIN_DIFF && depth > 0 && TopBit(ToInt32(val)) == 0
    requires val * 100.0 < TwoTo(1024) && rnd(val * 100.0) >= MIN_DIFF
    ensures NearestPowerOfTwo(rnd, val, depth) == DivideBy100(rnd, NearestPowerOfTwo(rnd, rnd(val * 100.0), depth - 1))
  {}

  lemma {:induction false} TooLargeStep(rnd: real -> real, val: real, depth: nat)
    requires RoundsToNearest(rnd) && val >= 2.0 * TWO_30 && depth > 0 && TopBit(ToInt32(val)) == 0
      && val * 100.0 < TwoTo(1024)
    requires AtMostTwo30(NearestPowerOfTwo(rnd, rnd(val * 100.0), depth - 1))
    ensures AtMostTwo30(NearestPowerOfTwo(rnd, val, depth))
  {
    ScaledStaysLarge(rnd, val);
    ScalesUp(rnd, val, depth);
    DividedAtMost(rnd, NearestPowerOfTwo(rnd, rnd(val * 100.0), depth - 1));
  }

  lemma {:induction false} Overflows(rnd: real -> real, val: real, depth: nat)
    requires val >= 2.0 * TWO_30 && TopBit(ToInt32(val)) == 0 && (depth == 0 || val * 100.0 >= TwoTo(1024))
    ensures NearestPowerOfTwo(rnd, val, depth) == Overflow
  {}

  /** What becomes of a value of 2^31 or more: it is answered here, or asked again a hundred
      times as large. */
  lemma {:induction false} LargeCases(rnd: real -> real, val: real, depth: nat) returns (again: bool)
    requires RoundsToNearest(rnd) && val >= 2.0 * TWO_30 && depth > 0
    ensures !again ==> AtMostTwo30(NearestPowerOfTwo(rnd, val, depth))
    ensures again ==> rnd(val * 100.0) >= 2.0 * TWO_30 && LargeStep(rnd, val, depth)
  {
    TopBitAtMost(ToInt32(val));
    if TopBit(ToInt32(val)) > 0 {
      TopBitReturned(rnd, val, depth);
      again := false;
    } else if val * 100.0 >= TwoTo(1024) {
      Overflows(rnd, val, depth);
      again := false;
    } else {
      ScaledStaysLarge(rnd, val);
      LargeStepHolds(rnd, val, depth);
      again := true;
    }
  }

  predicate LargeStep(rnd: real -> real, val: real, depth: nat)
    requires depth > 0
  {
    AtMostTwo30(NearestPowerOfTwo(rnd, rnd(val * 100.0), depth - 1)) ==> AtMostTwo30(NearestPowerOfTwo(rnd, val, depth))
  }

  lemma {:induction false} LargeStepHolds(rnd: real -> real, val: real, depth: nat)
    requires RoundsToNearest(rnd) && val >= 2.0 * TWO_30 && depth > 0
    requires TopBit(ToInt32(val)) == 0 && val * 100.0 < TwoTo(1024)
    ensures LargeStep(rnd, val, depth)
  {
    if AtMostTwo30(NearestPowerOfTwo(rnd, rnd(val * 100.0), depth - 1)) { TooLargeStep(rnd, val, depth); }
  }

  lemma {:induction false} TooLarge(rnd: real -> real, val: real, depth: nat)
    requires RoundsToNearest(rnd) && val >= 2.0 * TWO_30
    ensures AtMostTwo30(NearestPowerOfTwo(rnd, val, depth))
    decreases depth
  {
    if depth > 0 {
      var again := LargeCases(rnd, val, depth);
      if again { TooLarge(rnd, rnd(val * 100.0), depth - 1); }
    }
  }

  /** From 1 upwards the result is within a factor of two of the value if and only if the value
      is below 2^31. */
  lemma {:induction false} WithinTwoExactly(rnd: real -> real, val: real, depth: nat)
    requires RoundsToNearest(rnd) && val >= 1.0 && depth >= 1
    ensures WithinTwo(NearestPowerOfTwo(rnd, val, depth), val) <==> val < TWO_31 as real
  {
    if val < TWO_31 as real { NearestAboveOne(rnd, val, depth); } else { TooLarge(rnd, val, depth); }
  }

  // ----- below 1: scaled up and down again -----

  /** `y` is `x` up to one rounding. */
  predicate Rounded(x: real, y: real) { x - x * U <= y <= x + x * U }

  lemma {:induction false} RoundsNear(rnd: real -> real, x: real)
    requires RoundsToNearest(rnd) && 0.00000000000000000001 <= x <= 100_000_000_000_000_000_000.0
    ensures Rounded(x, rnd(x))
  {
    ModerateIsNormal(x);
    NearestIsNear(rnd, x);
  }

  lemma {:induction false} LevelUp(rnd: real -> real, val: real, depth: nat)
    requires MIN_DIFF <= val < 1.0 && depth > 0 && rnd(val * 100.0) >= MIN_DIFF
    ensures NearestPowerOfTwo(rnd, val, depth) == DivideBy100(rnd, NearestPowerOfTwo(rnd, rnd(val * 100.0), depth - 1))
  {
    BelowOne(val);
    ModerateIsNormal(100.0);
    TwoToMonotone(1023, 1024);
    ScalesUp(rnd, val, depth);
  }

  // ----- a value on which the routine never returns -----

  /** A multiple of 2^31. */
  function Big(q: nat): real { q as real * (2.0 * TWO_30) }

  lemma {:induction false} BigToInt32(q: nat)
    ensures ToInt32(Big(q)) == 0 || ToInt32(Big(q)) == -TWO_31
  {
    assert Big(q) == (q * TWO_31) as real;
    assert Big(q).Floor == q * TWO_31;
    assert q * TWO_31 % TWO_32 == 0 || q * TWO_31 % TWO_32 == TWO_31;
  }

  lemma {:induction false} BigHasNoTopBit(q: nat)
    ensures TopBit(ToInt32(Big(q))) == 0
  {
    BigToInt32(q);
    NoTopBit(ToInt32(Big(q)));
  }

  lemma {:induction false} WholePower(n: nat)
    ensures TwoTo(n) == Pow2(n) as real
  {
    if n > 0 { WholePower(n - 1); }
  }

  lemma TimesWhole(k: int, p: int, t: real)
    ensures Times(k as real, Times(p as real, t)) == Times((k * p) as real, t)
  {
    assert (k * p) as real == k as real * p as real;
  }

  lemma {:induction false} TwoTo31()
    ensures TwoTo(31) == 2.0 * TWO_30
  {
    SmallPowers();
    TwoToAdd(10, 20);
    TwoToStep(30);
  }

  /** Up to 53 bits a multiple of 2^31 is a double. */
  lemma {:induction false} BigOnGrid(q: nat, e: int)
    requires e < 83
    ensures Big(q) == GridPoint(q * Pow2(83 - e), e)
  {
    TwoTo31();
    WholePower(83 - e);
    TwoToAdd(83 - e, e - 52);
    TimesWhole(q, Pow2(83 - e), TwoTo(e - 52));
  }

  /** Above, every double is one. */
  lemma {:induction false} GridIsBig(k: int, e: int) returns (r: nat)
    requires e >= 83 && GridPoint(k, e) > 0.0
    ensures r > 0 && GridPoint(k, e) == Big(r)
  {
    TwoTo31();
    WholePower(e - 83);
    TwoToAdd(e - 83, 31);
    TimesWhole(k, Pow2(e - 83), TwoTo(31));
    PositiveFactor(k * Pow2(e - 83), TwoTo(31));
    r := k * Pow2(e - 83);
  }

  /** Rounding a multiple of 2^31 gives a multiple of 2^31. */
  lemma {:induction false} BigStaysBig(rnd: real -> real, q: nat) returns (r: nat)
    requires RoundsToNearest(rnd) && q > 0 && Big(q) < TwoTo(1024)
    ensures r > 0 && rnd(Big(q)) == Big(r)
  {
    BelowTop(Big(q));
    var e :| InBinade(Big(q), e);
    assert NearestAt(rnd, Big(q), e);
    if e < 83 {
      BigOnGrid(q, e);
      GridStays(rnd, Big(q), e);
      r := q;
    } else {
      var k: int :| rnd(Big(q)) == GridPoint(k, e);
      WithinEnds(rnd, Big(q), e);
      r := GridIsBig(k, e);
    }
  }

  lemma PositiveFactor(k: int, t: real)
    requires t > 0.0 && Times(k as real, t) > 0.0
    ensures k > 0
  {
    if k <= 0 { TimesMonotone(k as real, 0.0, t); }
  }

  lemma {:induction false} BigScales(q: nat)
    ensures Big(q) * 100.0 == Big(100 * q)
  {
    assert (100 * q) as real == 100.0 * q as real;
  }

  lemma {:induction false} BigIsLarge(q: nat)
    requires q > 0
    ensures Big(q) >= 2.0 * TWO_30
  {}

  /** On a multiple of 2^31 the recursion never ends: scaling by 100 and rounding keep it one,
      until it is Infinity. */
  lemma {:induction false} NeverReturns(rnd: real -> real, q: nat, val: real, depth: nat)
    requires RoundsToNearest(rnd) && q > 0 && val == Big(q)
    ensures NearestPowerOfTwo(rnd, val, depth) == Overflow
    decreases depth
  {
    if depth > 0 {
      BigHasNoTopBit(q);
      BigIsLarge(q);
      if val * 100.0 < TwoTo(1024) {
        BigScales(q);
        var r := BigStaysBig(rnd, 100 * q);
        BigIsLarge(r);
        NeverReturns(rnd, r, rnd(val * 100.0), depth - 1);
        ScalesUp(rnd, val, depth);
      }
    }
  }

  // ----- exactly when it returns -----

  /** The value after `n` rounded multiplications by 100 is finite and its 32-bit integer positive. */
  predicate Ends(rnd: real -> real, val: real, n: nat)
    decreases n
  {
    if n == 0 then val >= 0.0 && ToInt32(val) > 0 else val * 100.0 < TwoTo(1024) && Ends(rnd, rnd(val * 100.0), n - 1)
  }

  ghost predicate EndsWithin(rnd: real -> real, val: real, depth: nat) {
    exists n: nat :: n < depth && Ends(rnd, val, n)
  }

  predicate Returns(rnd: real -> real, val: real, depth: nat) { NearestPowerOfTwo(rnd, val, depth) != Overflow }

  lemma {:induction false} BitReturns(rnd: real -> real, val: real, depth: nat)
    requires val >= 2.0 * TWO_30 && depth > 0 && ToInt32(val) > 0
    ensures Returns(rnd, val, depth)
  {
    var k := TopBitIsPower(ToInt32(val));
  }

  lemma {:induction false} NoBitReturns(rnd: real -> real, val: real, depth: nat)
    requires RoundsToNearest(rnd) && val >= 2.0 * TWO_30 && depth > 0 && ToInt32(val) <= 0 && val * 100.0 < TwoTo(1024)
    ensures rnd(val * 100.0) >= 2.0 * TWO_30
    ensures Returns(rnd, val, depth) <==> Returns(rnd, rnd(val * 100.0), depth - 1)
  {
    NoTopBit(ToInt32(val));
    ScaledStaysLarge(rnd, val);
    ScalesUp(rnd, val, depth);
  }

  lemma {:induction false} InfinityNeverReturns(rnd: real -> real, val: real, depth: nat)
    requires val >= 2.0 * TWO_30 && ToInt32(val) <= 0 && (depth == 0 || val * 100.0 >= TwoTo(1024))
    ensures !Returns(rnd, val, depth)
  {
    NoTopBit(ToInt32(val));
    Overflows(rnd, val, depth);
  }

  lemma {:induction false} EndsLater(rnd: real -> real, val: real, depth: nat)
    requires depth > 0 && val >= 0.0 && ToInt32(val) <= 0
    ensures EndsWithin(rnd, val, depth)
      <==> val * 100.0 < TwoTo(1024) && EndsWithin(rnd, rnd(val * 100.0), depth - 1)
  {
    if EndsWithin(rnd, val, depth) {
      var n: nat :| n < depth && Ends(rnd, val, n);
      assert n > 0 && Ends(rnd, rnd(val * 100.0), n - 1);
    }
    if val * 100.0 < TwoTo(1024) && EndsWithin(rnd, rnd(val * 100.0), depth - 1) {
      var n: nat :| n < depth - 1 && Ends(rnd, rnd(val * 100.0), n);
      assert Ends(rnd, val, n + 1);
    }
  }

  ghost predicate Agrees(rnd: real -> real, val: real, depth: nat) {
    Returns(rnd, val, depth) <==> EndsWithin(rnd, val, depth)
  }

  lemma {:induction false} BitAgrees(rnd: real -> real, val: real, depth: nat)
    requires val >= 2.0 * TWO_30 && depth > 0 && ToInt32(val) > 0
    ensures Agrees(rnd, val, depth)
  {
    BitReturns(rnd, val, depth);
    assert Ends(rnd, val, 0);
  }

  lemma {:induction false} InfinityAgrees(rnd: real -> real, val: real, depth: nat)
    requires val >= 2.0 * TWO_30 && depth > 0 && ToInt32(val) <= 0 && val * 100.0 >= TwoTo(1024)
    ensures Agrees(rnd, val, depth)
  {
    EndsLater(rnd, val, depth);
    InfinityNeverReturns(rnd, val, depth);
  }

  lemma {:induction false} NoCallAgrees(rnd: real -> real, val: real)
    ensures Agrees(rnd, val, 0)
  {}

  lemma {:induction false} NoBitAgrees(rnd: real -> real, val: real, depth: nat)
    requires RoundsToNearest(rnd) && val >= 2.0 * TWO_30 && depth > 0 && ToInt32(val) <= 0 && val * 100.0 < TwoTo(1024)
    requires Agrees(rnd, rnd(val * 100.0), depth - 1)
    ensures Agrees(rnd, val, depth)
  {
    EndsLater(rnd, val, depth);
    NoBitReturns(rnd, val, depth);
  }

  /** From 2^31 upwards the routine returns within `depth` nested calls if and only if one of the
      first `depth` values that scaling by 100 gives is finite and has a positive 32-bit integer. */
  lemma {:induction false} ReturnsExactly(rnd: real -> real, val: real, depth: nat)
    requires RoundsToNearest(rnd) && val >= 2.0 * TWO_30
    ensures Agrees(rnd, val, depth)
    decreases depth
  {
    if depth == 0 {
      NoCallAgrees(rnd, val);
    } else if ToInt32(val) > 0 {
      BitAgrees(rnd, val, depth);
    } else if val * 100.0 >= TwoTo(1024) {
      InfinityAgrees(rnd, val, depth);
    } else {
      ScaledStaysLarge(rnd, val);
      ReturnsExactly(rnd, rnd(val * 100.0), depth - 1);
      NoBitAgrees(rnd, val, depth);
    }
  }
}
