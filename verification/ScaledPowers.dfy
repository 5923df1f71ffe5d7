/** nearestPowerOfTwo on doubles below 1: a power of two scaled down by hundreds is scaled up again to
    no less, at one and two levels; at three it comes back just under itself, so there a double is
    within a factor of two of the result except at three values. */
module ScaledPowers {
  import opened Doubles
  import opened PowerOfTwo
  import opened Smearing

  // ----- the scaled powers: 2^j, rounded after each division by 100 -----

  const ONE: int := 5764607523034235
  const TWO: int := 7378697629483821
  const THREE: int := 4722366482869645

  function Hundredth(j: nat): real {
    if j == 0 then 5764607523034235.0 / 576460752303423488.0 else 2.0 * Hundredth(j - 1)
  }

  function TenThousandth(j: nat): real {
    if j == 0 then 7378697629483821.0 / 73786976294838206464.0 else 2.0 * TenThousandth(j - 1)
  }

  function Millionth(j: nat): real {
    if j == 0 then 4722366482869645.0 / 4722366482869645213696.0 else 2.0 * Millionth(j - 1)
  }

  lemma {:induction false} Spacings()
    ensures TwoTo(-53) == 1.0 / 9007199254740992.0 && TwoTo(-59) == 1.0 / 576460752303423488.0
    ensures TwoTo(-66) == 1.0 / 73786976294838206464.0 && TwoTo(-72) == 1.0 / 4722366482869645213696.0
  {
    SmallPowers();
    assert TwoTo(6) == 64.0 && TwoTo(2) == 4.0;
    TwoToAdd(6, 53);
    TwoToAdd(6, 60);
    TwoToAdd(2, 70);
    TwoToStep(59);
    TwoToStep(52);
    TwoToStep(65);
    TwoToAdd(6, 59);
    Inverse(53);
    Inverse(59);
    Inverse(66);
    Inverse(72);
  }

  lemma {:induction false} Doubled(k: int, e: int)
    ensures GridPoint(k, e + 1) == 2.0 * GridPoint(k, e)
  {
    TwoToStep(e - 52);
  }

  /** They are 53-bit numbers. */
  lemma {:induction false} Points(j: nat)
    ensures Hundredth(j) == GridPoint(ONE, j - 7) && TenThousandth(j) == GridPoint(TWO, j - 14)
    ensures Millionth(j) == GridPoint(THREE, j - 20)
  {
    if j == 0 {
      Spacings();
    } else {
      Points(j - 1);
      Doubled(ONE, j - 8);
      Doubled(TWO, j - 15);
      Doubled(THREE, j - 21);
    }
  }

  lemma {:induction false} GridScaled(k: int, e: int, j: nat)
    ensures GridPoint(k, e + j) == Times(GridPoint(k, e), TwoTo(j))
  {
    TwoToAdd(j, e - 52);
  }

  lemma {:induction false} Factor(v: real, f: real, t: real)
    ensures Times(v, t) * f == Times(v * f, t)
  {}

  lemma {:induction false} Divisor(v: real, t: real)
    ensures Times(v, t) / 100.0 == Times(v / 100.0, t)
  {}

  /** What multiplying a point by 100 rounds to, at every scale. */
  lemma {:induction false} UpTo(rnd: real -> real, k: int, e: int, s: real, n: int, d: int, u: real, j: nat)
    requires RoundsToNearest(rnd) && s == TwoTo(e - 52) && u == TwoTo(d - 52) && -1022 <= d && d + j <= 1023
    requires 4503599627370496 < n < 9007199254740992
    requires n as real * u - u / 2.0 < Times(k as real, s) * 100.0 < n as real * u + u / 2.0
    ensures rnd(GridPoint(k, e + j) * 100.0) == GridPoint(n, d + j)
  {
    var v := Times(k as real, s);
    GridScaled(k, e, j);
    Factor(v, 100.0, TwoTo(j));
    RoundsToScaled(rnd, v * 100.0, d, n, u, j);
  }

  /** And dividing it. */
  lemma {:induction false} DownTo(rnd: real -> real, k: int, e: int, s: real, n: int, d: int, u: real, j: nat)
    requires RoundsToNearest(rnd) && s == TwoTo(e - 52) && u == TwoTo(d - 52) && -1022 <= d && d + j <= 1023
    requires 4503599627370496 < n < 9007199254740992
    requires n as real * u - u / 2.0 < Times(k as real, s) / 100.0 < n as real * u + u / 2.0
    ensures rnd(GridPoint(k, e + j) / 100.0) == GridPoint(n, d + j)
  {
    var v := Times(k as real, s);
    GridScaled(k, e, j);
    Divisor(v, TwoTo(j));
    RoundsToScaled(rnd, v / 100.0, d, n, u, j);
  }

  lemma {:induction false} PowerPoint(j: int)
    ensures TwoTo(j) == GridPoint(4503599627370496, j) && TwoTo(j) == GridPoint(9007199254740992, j - 1)
  {
    BinadeEnds(j);
    BinadeEnds(j - 1);
  }

  /** Dividing a power of two by 100 once, twice and three times. */
  lemma {:induction false} DividedOnce(rnd: real -> real, j: nat)
    requires RoundsToNearest(rnd) && j <= 100
    ensures rnd(TwoTo(j) / 100.0) == Hundredth(j)
  {
    Points(j);
    Spacings();
    PowerPoint(j);
    SmallPowers();
    DownTo(rnd, 9007199254740992, -1, TwoTo(-53), ONE, -7, TwoTo(-59), j);
  }

  lemma {:induction false} DividedTwice(rnd: real -> real, j: nat)
    requires RoundsToNearest(rnd) && j <= 100
    ensures rnd(Hundredth(j) / 100.0) == TenThousandth(j)
  {
    Points(j);
    Spacings();
    DownTo(rnd, ONE, -7, TwoTo(-59), TWO, -14, TwoTo(-66), j);
  }

  lemma {:induction false} DividedThrice(rnd: real -> real, j: nat)
    requires RoundsToNearest(rnd) && j <= 100
    ensures rnd(TenThousandth(j) / 100.0) == Millionth(j)
  {
    Points(j);
    Spacings();
    DownTo(rnd, TWO, -14, TwoTo(-66), THREE, -20, TwoTo(-72), j);
  }

  // ----- thresholds: from which double on multiplying by 100 reaches a scaled power -----

  lemma {:induction false} TimesHundred(rnd: real -> real, x: real, y: real)
    requires RoundsToNearest(rnd) && 0.0 <= x <= y <= 1_000_000.0
    ensures rnd(x * 100.0) <= rnd(y * 100.0)
  {
    ModerateIsNormal(100_000_000.0);
    TwoToMonotone(1023, 1024);
    KeepsOrder(rnd, x * 100.0, y * 100.0);
  }

  /** Scaled powers are moderate numbers. */
  lemma {:induction false} Moderate(j: nat)
    requires j <= 10
    ensures 0.0 < Hundredth(j) <= TwoTo(j) <= 1024.0 && 0.0 < TenThousandth(j) <= TwoTo(j) && Millionth(j) <= TwoTo(j)
    ensures Hundredth(j) * 100.0 >= TwoTo(j)
  {
    ScaledPositive(j);
    SmallPowers();
    TwoToMonotone(j, 10);
  }

  lemma {:induction false} ScaledPositive(j: nat)
    ensures 0.0 < Hundredth(j) <= TwoTo(j) && 0.0 < TenThousandth(j) <= TwoTo(j) && Millionth(j) <= TwoTo(j)
    ensures Hundredth(j) * 100.0 >= TwoTo(j)
  {
    if j > 0 { ScaledPositive(j - 1); }
  }

  lemma {:induction false} PowerReached(rnd: real -> real, x: real, j: nat)
    requires RoundsToNearest(rnd) && Hundredth(j) <= x <= 1024.0 && j <= 10
    ensures rnd(x * 100.0) >= TwoTo(j)
  {
    Moderate(j);
    PowerStays(rnd, j);
    ModerateIsNormal(102400.0);
    TwoToMonotone(1023, 1024);
    KeepsOrder(rnd, TwoTo(j), x * 100.0);
  }

  lemma {:induction false} PowerPrevious(rnd: real -> real, j: nat)
    requires RoundsToNearest(rnd) && j <= 10
    ensures rnd(GridPoint(ONE - 1, j - 7) * 100.0) < TwoTo(j)
  {
    Spacings();
    PowerPoint(j);
    UpTo(rnd, ONE - 1, -7, TwoTo(-59), 9007199254740991, -1, TwoTo(-53), j);
    NextPoint(9007199254740991, j - 1);
  }

  lemma {:induction false} PowerMissed(rnd: real -> real, x: real, j: nat)
    requires RoundsToNearest(rnd) && IsDouble(x) && 0.0 < x < Hundredth(j) && j <= 10
    ensures rnd(x * 100.0) < TwoTo(j)
  {
    Moderate(j);
    Points(j);
    AtMostPrevious(x, ONE, j - 7);
    NextPoint(ONE - 1, j - 7);
    TimesHundred(rnd, x, GridPoint(ONE - 1, j - 7));
    PowerPrevious(rnd, j);
  }

  /** A double scales to 2^j or more exactly from 2^j/100, rounded, on. */
  lemma {:induction false} ReachesPower(rnd: real -> real, x: real, j: nat)
    requires RoundsToNearest(rnd) && IsDouble(x) && 0.0 < x <= 1024.0 && j <= 10
    ensures rnd(x * 100.0) >= TwoTo(j) <==> x >= Hundredth(j)
  {
    if x >= Hundredth(j) { PowerReached(rnd, x, j); } else { PowerMissed(rnd, x, j); }
  }

  lemma {:induction false} HundredthReached(rnd: real -> real, x: real, j: nat)
    requires RoundsToNearest(rnd) && TenThousandth(j) <= x <= 1024.0 && j <= 10
    ensures rnd(x * 100.0) >= Hundredth(j)
  {
    Points(j);
    Spacings();
    UpTo(rnd, TWO, -14, TwoTo(-66), ONE, -7, TwoTo(-59), j);
    PointPositive(TWO, j - 14);
    TimesHundred(rnd, TenThousandth(j), x);
  }

  lemma {:induction false} HundredthMissed(rnd: real -> real, x: real, j: nat)
    requires RoundsToNearest(rnd) && IsDouble(x) && 0.0 < x < TenThousandth(j) && j <= 10
    ensures rnd(x * 100.0) < Hundredth(j)
  {
    Points(j);
    Spacings();
    Moderate(j);
    AtMostPrevious(x, TWO, j - 14);
    NextPoint(TWO - 1, j - 14);
    TimesHundred(rnd, x, GridPoint(TWO - 1, j - 14));
    UpTo(rnd, TWO - 1, -14, TwoTo(-66), ONE - 1, -7, TwoTo(-59), j);
    NextPoint(ONE - 1, j - 7);
  }

  lemma {:induction false} ReachesHundredth(rnd: real -> real, x: real, j: nat)
    requires RoundsToNearest(rnd) && IsDouble(x) && 0.0 < x <= 1024.0 && j <= 10
    ensures rnd(x * 100.0) >= Hundredth(j) <==> x >= TenThousandth(j)
  {
    if x >= TenThousandth(j) { HundredthReached(rnd, x, j); } else { HundredthMissed(rnd, x, j); }
  }

  lemma {:induction false} TenThousandthReached(rnd: real -> real, x: real, j: nat)
    requires RoundsToNearest(rnd) && IsDouble(x) && Millionth(j) < x <= 1024.0 && j <= 10
    ensures rnd(x * 100.0) >= TenThousandth(j)
  {
    Points(j);
    Spacings();
    AtLeastNext(x, THREE, j - 20);
    UpTo(rnd, THREE + 1, -20, TwoTo(-72), TWO + 1, -14, TwoTo(-66), j);
    PointPositive(THREE + 1, j - 20);
    TimesHundred(rnd, GridPoint(THREE + 1, j - 20), x);
    NextPoint(TWO, j - 14);
  }

  lemma {:induction false} TenThousandthMissed(rnd: real -> real, x: real, j: nat)
    requires RoundsToNearest(rnd) && 0.0 < x <= Millionth(j) && j <= 10
    ensures rnd(x * 100.0) < TenThousandth(j)
  {
    Points(j);
    Spacings();
    Moderate(j);
    NextPoint(THREE, j - 20);
    TimesHundred(rnd, x, Millionth(j));
    UpTo(rnd, THREE, -20, TwoTo(-72), TWO - 1, -14, TwoTo(-66), j);
    NextPoint(TWO - 1, j - 14);
  }

  /** At the third level the scaled power itself falls short. */
  lemma {:induction false} ReachesTenThousandth(rnd: real -> real, x: real, j: nat)
    requires RoundsToNearest(rnd) && IsDouble(x) && 0.0 < x <= 1024.0 && j <= 10
    ensures rnd(x * 100.0) >= TenThousandth(j) <==> x > Millionth(j)
  {
    if x > Millionth(j) { TenThousandthReached(rnd, x, j); } else { TenThousandthMissed(rnd, x, j); }
  }

  lemma {:induction false} PointPositive(k: int, e: int)
    requires k > 0
    ensures GridPoint(k, e) > 0.0
  {}

  // ----- the result for a double -----

  lemma {:induction false} PowersApart(a: int, b: int)
    requires TwoTo(a) < TwoTo(b)
    ensures a < b
  {
    if b <= a { TwoToMonotone(b, a); }
  }

  predicate Gives(rnd: real -> real, val: real, depth: nat, r: real) { NearestPowerOfTwo(rnd, val, depth) == Diff(r) }

  lemma {:induction false} AboveOne(rnd: real -> real, x: real, depth: nat) returns (k: nat)
    requires 1.0 <= x <= 200.0 && depth >= 1
    ensures k <= 7 && Gives(rnd, x, depth, TwoTo(k)) && TwoTo(k) <= x < TwoTo(k + 1)
  {
    SmallToInt32(x);
    k := TopBitIsPower(x.Floor);
    WholePower(k);
    FloorBetween(x, Pow2(k));
    TwoToStep(k);
    assert TwoTo(8) == 256.0;
    PowersApart(k, 8);
  }

  lemma {:induction false} Quotient(rnd: real -> real, s: Suggestion, r: real)
    requires s == Diff(r)
    ensures DivideBy100(rnd, s) == Diff(rnd(r / 100.0))
  {}

  /** One level up and down again. */
  lemma {:induction false} ResultBelow(rnd: real -> real, val: real, depth: nat, r: real, q: real)
    requires MIN_DIFF <= val < 1.0 && depth > 0 && rnd(val * 100.0) >= MIN_DIFF
    requires Gives(rnd, rnd(val * 100.0), depth - 1, r) && rnd(r / 100.0) == q
    ensures Gives(rnd, val, depth, q)
  {
    Quotient(rnd, NearestPowerOfTwo(rnd, rnd(val * 100.0), depth - 1), r);
    LevelUp(rnd, val, depth);
  }

  lemma {:induction false} OneLevelBounds(rnd: real -> real, val: real, k: nat)
    requires RoundsToNearest(rnd) && IsDouble(val) && 0.0 < val < 1.0 && k <= 7
    requires TwoTo(k) <= rnd(val * 100.0) < TwoTo(k + 1)
    ensures Hundredth(k) <= val < 2.0 * Hundredth(k)
  {
    ReachesPower(rnd, val, k);
    ReachesPower(rnd, val, k + 1);
  }

  lemma {:induction false} TwoLevelBounds(rnd: real -> real, val: real, k: nat)
    requires RoundsToNearest(rnd) && IsDouble(val) && 0.0 < val < 1.0 && k <= 7
    requires Hundredth(k) <= rnd(val * 100.0) < 2.0 * Hundredth(k)
    ensures TenThousandth(k) <= val < 2.0 * TenThousandth(k)
  {
    ReachesHundredth(rnd, val, k);
    ReachesHundredth(rnd, val, k + 1);
  }

  lemma {:induction false} ThreeLevelBounds(rnd: real -> real, val: real, k: nat)
    requires RoundsToNearest(rnd) && IsDouble(val) && 0.0 < val < 1.0 && k <= 7
    requires TenThousandth(k) <= rnd(val * 100.0) < 2.0 * TenThousandth(k)
    ensures Millionth(k) < val <= 2.0 * Millionth(k)
  {
    ReachesTenThousandth(rnd, val, k);
    ReachesTenThousandth(rnd, val, k + 1);
  }

  lemma {:induction false} OneLevel(rnd: real -> real, val: real, depth: nat) returns (k: nat)
    requires RoundsToNearest(rnd) && IsDouble(val) && MIN_DIFF <= val < 1.0 && depth >= 2 && rnd(val * 100.0) >= 1.0
    ensures k <= 7 && Gives(rnd, val, depth, Hundredth(k))
    ensures Hundredth(k) <= val < 2.0 * Hundredth(k)
  {
    BelowTwoHundred(rnd, val);
    k := AboveOne(rnd, rnd(val * 100.0), depth - 1);
    DividedOnce(rnd, k);
    ResultBelow(rnd, val, depth, TwoTo(k), Hundredth(k));
    OneLevelBounds(rnd, val, k);
  }

  lemma {:induction false} BelowTwoHundred(rnd: real -> real, val: real)
    requires RoundsToNearest(rnd) && MIN_DIFF <= val < 1.0
    ensures 0.0009 <= rnd(val * 100.0) <= 200.0
  {
    RoundsNear(rnd, val * 100.0);
  }

  lemma {:induction false} NextIsDouble(rnd: real -> real, val: real)
    requires RoundsToNearest(rnd) && MIN_DIFF <= val < 1.0
    ensures IsDouble(rnd(val * 100.0)) && MIN_DIFF <= rnd(val * 100.0) <= 200.0
  {
    BelowTwoHundred(rnd, val);
    ModerateIsNormal(200.0);
    TwoToMonotone(1023, 1024);
    RoundedIsDouble(rnd, val * 100.0);
  }

  lemma {:induction false} SecondLevel(rnd: real -> real, val: real, depth: nat, k: nat)
    requires RoundsToNearest(rnd) && MIN_DIFF <= val < 1.0 && depth > 0 && k <= 7
    requires Gives(rnd, rnd(val * 100.0), depth - 1, Hundredth(k)) && rnd(val * 100.0) >= MIN_DIFF
    ensures Gives(rnd, val, depth, TenThousandth(k))
  {
    DividedTwice(rnd, k);
    ResultBelow(rnd, val, depth, Hundredth(k), TenThousandth(k));
  }

  lemma {:induction false} TwoLevels(rnd: real -> real, val: real, depth: nat) returns (k: nat)
    requires RoundsToNearest(rnd) && IsDouble(val) && MIN_DIFF <= val < 1.0 && depth >= 3
    requires rnd(val * 100.0) < 1.0 && rnd(rnd(val * 100.0) * 100.0) >= 1.0
    ensures k <= 7 && Gives(rnd, val, depth, TenThousandth(k))
    ensures TenThousandth(k) <= val < 2.0 * TenThousandth(k)
  {
    NextIsDouble(rnd, val);
    k := OneLevel(rnd, rnd(val * 100.0), depth - 1);
    TwoLevelBounds(rnd, val, k);
    SecondLevel(rnd, val, depth, k);
  }

  lemma {:induction false} ThirdLevel(rnd: real -> real, val: real, depth: nat, k: nat)
    requires RoundsToNearest(rnd) && MIN_DIFF <= val < 1.0 && depth > 0 && k <= 7
    requires Gives(rnd, rnd(val * 100.0), depth - 1, TenThousandth(k)) && rnd(val * 100.0) >= MIN_DIFF
    ensures Gives(rnd, val, depth, Millionth(k))
  {
    DividedThrice(rnd, k);
    ResultBelow(rnd, val, depth, TenThousandth(k), Millionth(k));
  }

  lemma {:induction false} ThreeLevels(rnd: real -> real, val: real, depth: nat) returns (k: nat)
    requires RoundsToNearest(rnd) && IsDouble(val) && MIN_DIFF <= val < 1.0 && depth >= 4
    requires rnd(val * 100.0) < 1.0 && rnd(rnd(val * 100.0) * 100.0) < 1.0
    ensures k <= 7 && Gives(rnd, val, depth, Millionth(k))
    ensures Millionth(k) < val <= 2.0 * Millionth(k)
  {
    NextIsDouble(rnd, val);
    ThirdReachesOne(rnd, val);
    k := TwoLevels(rnd, rnd(val * 100.0), depth - 1);
    ThreeLevelBounds(rnd, val, k);
    ThirdLevel(rnd, val, depth, k);
  }

  /** Three multiplications bring every value from 0.00001 on to 1. */
  lemma {:induction false} ThirdReachesOne(rnd: real -> real, val: real)
    requires RoundsToNearest(rnd) && MIN_DIFF <= val < 1.0 && rnd(val * 100.0) < 1.0
    requires rnd(rnd(val * 100.0) * 100.0) < 1.0
    ensures rnd(rnd(rnd(val * 100.0) * 100.0) * 100.0) >= 1.0
  {
    RoundsNear(rnd, val * 100.0);
    RoundsNear(rnd, rnd(val * 100.0) * 100.0);
    RoundsNear(rnd, rnd(rnd(val * 100.0) * 100.0) * 100.0);
  }

  /** Every double from 0.00001 up to 2^31 lies between the result and twice the result. */
  lemma {:induction false} DoublesWithinTwice(rnd: real -> real, val: real, depth: nat)
    requires RoundsToNearest(rnd) && IsDouble(val) && MIN_DIFF <= val < TWO_31 as real && depth >= 4
    ensures var n := NearestPowerOfTwo(rnd, val, depth); n.Diff? && 0.0 < n.value <= val <= 2.0 * n.value
  {
    if val >= 1.0 {
      NearestAboveOne(rnd, val, depth);
    } else if rnd(val * 100.0) >= 1.0 {
      var k := OneLevel(rnd, val, depth);
    } else if rnd(rnd(val * 100.0) * 100.0) >= 1.0 {
      var k := TwoLevels(rnd, val, depth);
    } else {
      var k := ThreeLevels(rnd, val, depth);
    }
  }

  // ----- exactly within a factor of two -----

  /** The doubles nearest to 0.000016, 0.000032 and 0.000064. */
  ghost predicate Exceptional(rnd: real -> real, val: real) {
    val == rnd(0.000016) || val == rnd(0.000032) || val == rnd(0.000064)
  }

  lemma {:induction false} ExceptionalPoints(rnd: real -> real, val: real)
    requires RoundsToNearest(rnd)
    ensures Exceptional(rnd, val) <==> val == Millionth(4) || val == Millionth(5) || val == Millionth(6)
  {
    Points(4);
    Points(5);
    Points(6);
    Spacings();
    assert TwoTo(4) == 16.0 && TwoTo(5) == 32.0 && TwoTo(6) == 64.0;
    RoundsToScaled(rnd, 0.000001, -20, THREE, TwoTo(-72), 4);
    RoundsToScaled(rnd, 0.000001, -20, THREE, TwoTo(-72), 5);
    RoundsToScaled(rnd, 0.000001, -20, THREE, TwoTo(-72), 6);
  }

  lemma {:induction false} MillionthMonotone(i: nat, j: nat)
    requires i <= j
    ensures 0.0 < Millionth(i) <= Millionth(j)
  {
    if j > 0 {
      if i < j { MillionthMonotone(i, j - 1); } else { MillionthMonotone(i - 1, j - 1); }
    }
  }

  lemma {:induction false} MillionthValues()
    ensures Millionth(3) < MIN_DIFF < Millionth(4) && Millionth(6) < TenThousandth(0) < Millionth(7)
  {
    assert Millionth(2) == 4.0 * Millionth(0);
    assert Millionth(4) == 4.0 * Millionth(2);
    assert Millionth(6) == 4.0 * Millionth(4);
  }

  /** What takes three levels lies below 0.0001, rounded. */
  lemma {:induction false} TakesThree(rnd: real -> real, val: real)
    requires RoundsToNearest(rnd) && IsDouble(val) && MIN_DIFF <= val < 1.0 && rnd(val * 100.0) < 1.0
    ensures rnd(rnd(val * 100.0) * 100.0) >= 1.0 <==> val >= TenThousandth(0)
  {
    NextIsDouble(rnd, val);
    ReachesPower(rnd, rnd(val * 100.0), 0);
    ReachesHundredth(rnd, val, 0);
  }

  /** At the third level twice the result is reached at the three exceptional doubles only. */
  lemma {:induction false} ThreeLevelsExactly(rnd: real -> real, val: real, k: nat)
    requires RoundsToNearest(rnd) && MIN_DIFF <= val < TenThousandth(0) && Millionth(k) < val <= 2.0 * Millionth(k)
    ensures val == 2.0 * Millionth(k) <==> Exceptional(rnd, val)
  {
    ExceptionalPoints(rnd, val);
    MillionthValues();
    if val == Millionth(k + 1) {
      if k + 1 <= 3 { MillionthMonotone(k + 1, 3); }
      if k + 1 >= 7 { MillionthMonotone(7, k + 1); }
    } else {
      forall m | 4 <= m <= 6 ensures val != Millionth(m) {
        if m <= k { MillionthMonotone(m, k); } else { MillionthMonotone(k + 1, m); }
      }
    }
  }

  lemma {:induction false} ExceptionsAreSmall(rnd: real -> real, val: real)
    requires RoundsToNearest(rnd) && Exceptional(rnd, val)
    ensures MIN_DIFF <= val < TenThousandth(0)
  {
    ExceptionalPoints(rnd, val);
    MillionthValues();
    MillionthMonotone(4, 5);
    MillionthMonotone(5, 6);
  }

  lemma {:induction false} WithinTwoBelowOne(rnd: real -> real, val: real, depth: nat)
    requires RoundsToNearest(rnd) && IsDouble(val) && MIN_DIFF <= val < 1.0 && depth >= 4
    ensures WithinTwo(NearestPowerOfTwo(rnd, val, depth), val) <==> !Exceptional(rnd, val)
  {
    if rnd(val * 100.0) >= 1.0 {
      var k := OneLevel(rnd, val, depth);
      if Exceptional(rnd, val) {
        ExceptionsAreSmall(rnd, val);
        TooSmallForOne(rnd, val);
      }
    } else {
      TakesThree(rnd, val);
      if rnd(rnd(val * 100.0) * 100.0) >= 1.0 {
        var k := TwoLevels(rnd, val, depth);
        if Exceptional(rnd, val) { ExceptionsAreSmall(rnd, val); }
      } else {
        var k := ThreeLevels(rnd, val, depth);
        ThreeLevelsExactly(rnd, val, k);
      }
    }
  }

  lemma {:induction false} TooSmallForOne(rnd: real -> real, val: real)
    requires RoundsToNearest(rnd) && IsDouble(val) && 0.0 < val < TenThousandth(0)
    ensures rnd(val * 100.0) < 1.0
  {
    Spacings();
    Moderate(0);
    ReachesPower(rnd, val, 0);
  }

  /** On each of the three the result is exactly half the value. */
  lemma {:induction false} ExceptionsGiveHalf(rnd: real -> real, val: real, depth: nat)
    requires RoundsToNearest(rnd) && Exceptional(rnd, val) && depth >= 4
    ensures NearestPowerOfTwo(rnd, val, depth) == Diff(val / 2.0)
  {
    ExceptionsAreSmall(rnd, val);
    HundredthIsSmall();
    ExceptionIsDouble(rnd, val);
    TooSmallForOne(rnd, val);
    TakesThree(rnd, val);
    var k := ThreeLevels(rnd, val, depth);
    ThreeLevelsExactly(rnd, val, k);
  }

  lemma {:induction false} ExceptionIsDouble(rnd: real -> real, val: real)
    requires RoundsToNearest(rnd) && Exceptional(rnd, val) && 0.0 < val < 1.0
    ensures IsDouble(val)
  {
    TwoToMonotone(0, 1024);
    var x := if val == rnd(0.000016) then 0.000016 else if val == rnd(0.000032) then 0.000032 else 0.000064;
    RoundedIsDouble(rnd, x);
  }

  /** On doubles the result is within a factor of two of the value if and only if the value is from
      0.00001 up to 2^31 and not one of the three exceptions. */
  lemma {:induction false} WithinTwoOnDoubles(rnd: real -> real, val: real, depth: nat)
    requires RoundsToNearest(rnd) && IsDouble(val) && depth >= 4
    ensures WithinTwo(NearestPowerOfTwo(rnd, val, depth), val)
      <==> MIN_DIFF <= val < TWO_31 as real && !Exceptional(rnd, val)
  {
    if Exceptional(rnd, val) {
      ExceptionsAreSmall(rnd, val);
      HundredthIsSmall();
    }
    if val >= 1.0 {
      WithinTwoExactly(rnd, val, depth);
    } else if val >= MIN_DIFF {
      WithinTwoBelowOne(rnd, val, depth);
    }
  }

  lemma {:induction false} HundredthIsSmall()
    ensures TenThousandth(0) < 1.0
  {}
}
