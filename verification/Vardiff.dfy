/** The difficulty the pool suggests to a miner from the shares it cached. */
module Vardiff {
  import opened Doubles
  import opened PowerOfTwo
  import opened ScaledPowers
  import opened Smearing

  /** Time in milliseconds. */
  datatype Submission = Submission(time: int, difficulty: real)

  function SumDifficulty(rnd: real -> real, cache: seq<Submission>): real {
    if cache == [] then 0.0
    else rnd(SumDifficulty(rnd, cache[..|cache| - 1]) + cache[|cache| - 1].difficulty)
  }

  function Span(rnd: real -> real, cache: seq<Submission>): real
    requires cache != []
  {
    rnd((cache[|cache| - 1].time - cache[0].time) as real / 1000.0)
  }

  /** The difficulty at which the cached rate would meet the configured spacing. */
  function Target(rnd: real -> real, cache: seq<Submission>, secondsPerShare: real): real
    requires cache != [] && Span(rnd, cache) != 0.0
  {
    rnd(rnd(SumDifficulty(rnd, cache) / Span(rnd, cache)) * secondsPerShare)
  }

  /** getSuggestedDifficulty.  Over a zero span the rate is an infinity, which overflows the
      recursion, or NaN, which suggests nothing.  Doubling and halving a double are exact. */
  function Suggest(rnd: real -> real, cache: seq<Submission>, cacheStart: int, now: int, secondsPerShare: real,
                   client: real, depth: nat): Suggestion
  {
    if |cache| < 5 then
      if (now - cacheStart) as real / 1000.0 > 60.0 then NearestPowerOfTwo(rnd, rnd(client / 6.0), depth) else Null
    else if Span(rnd, cache) == 0.0 then
      if SumDifficulty(rnd, cache) * secondsPerShare > 0.0 then Overflow else Null
    else
      var target := Target(rnd, cache, secondsPerShare);
      if client * 2.0 < target || client / 2.0 > target then NearestPowerOfTwo(rnd, target, depth) else Null
  }

  /** No rounding at all. */
  function Unrounded(x: real): real { x }

  function PlainSum(cache: seq<Submission>): real {
    if cache == [] then 0.0 else cache[0].difficulty + PlainSum(cache[1..])
  }

  lemma {:induction false} PlainSumSnoc(cache: seq<Submission>, s: Submission)
    ensures PlainSum(cache + [s]) == PlainSum(cache) + s.difficulty
  {
    if cache == [] {
      assert [] + [s] == [s] && [s][1..] == [];
    } else {
      assert (cache + [s])[1..] == cache[1..] + [s];
      PlainSumSnoc(cache[1..], s);
    }
  }

  lemma {:induction false} SumIsPlain(cache: seq<Submission>)
    ensures SumDifficulty(Unrounded, cache) == PlainSum(cache)
    decreases |cache|
  {
    if cache != [] {
      var n := |cache| - 1;
      SumIsPlain(cache[..n]);
      PlainSumSnoc(cache[..n], cache[n]);
      assert cache == cache[..n] + [cache[n]];
    }
  }

  /** Roundings aside the target is the difficulty per second of the cached shares, from the first to the
      last of them, times the configured seconds per share. */
  lemma {:induction false} TargetIsRate(cache: seq<Submission>, secondsPerShare: real)
    requires cache != [] && cache[0].time < cache[|cache| - 1].time
    ensures Span(Unrounded, cache) != 0.0
    ensures var seconds := (cache[|cache| - 1].time - cache[0].time) as real / 1000.0;
      Target(Unrounded, cache, secondsPerShare) == PlainSum(cache) / seconds * secondsPerShare
  {
    SumIsPlain(cache);
  }

  lemma {:induction false} TargetIsDouble(rnd: real -> real, cache: seq<Submission>, secondsPerShare: real)
    requires RoundsToNearest(rnd) && cache != [] && Span(rnd, cache) != 0.0
    requires 0.0 < Target(rnd, cache, secondsPerShare) < TWO_31 as real
    ensures IsDouble(Target(rnd, cache, secondsPerShare))
  {
    TwoTo31();
    TwoToMonotone(31, 1024);
    RoundedIsDouble(rnd, rnd(SumDifficulty(rnd, cache) / Span(rnd, cache)) * secondsPerShare);
  }

  /** With five cached shares over a positive span and a target in range, the suggestion is null
      exactly within a factor of two of the target.  Applying one settles the matter: the next on
      the same cache is null. */
  lemma {:induction false} SuggestionSettles(rnd: real -> real, cache: seq<Submission>, cacheStart: int, now: int,
                                             later: int,
                                             secondsPerShare: real, client: real, depth: nat)
    requires RoundsToNearest(rnd) && |cache| >= 5 && Span(rnd, cache) != 0.0 && depth >= 4
    requires MIN_DIFF <= Target(rnd, cache, secondsPerShare) < TWO_31 as real
    ensures var s := Suggest(rnd, cache, cacheStart, now, secondsPerShare, client, depth);
      var t := Target(rnd, cache, secondsPerShare);
      && !s.Overflow?
      && (s.Null? <==> client / 2.0 <= t <= client * 2.0)
      && (s.Diff? ==>
        Suggest(rnd, cache, cacheStart, later, secondsPerShare, s.value, depth) == Null)
  {
    TargetIsDouble(rnd, cache, secondsPerShare);
    DoublesWithinTwice(rnd, Target(rnd, cache, secondsPerShare), depth);
  }

  lemma {:induction false} SixthIsDouble(rnd: real -> real, client: real)
    requires RoundsToNearest(rnd) && MIN_DIFF * 6.0 <= client < TWO_31 as real
    ensures Rounded(client / 6.0, rnd(client / 6.0)) && IsDouble(rnd(client / 6.0))
    ensures 0.0 < rnd(client / 6.0) < TWO_31 as real
  {
    RoundsNear(rnd, client / 6.0);
    TwoTo31();
    TwoToMonotone(31, 1024);
    RoundedIsDouble(rnd, client / 6.0);
  }

  /** Lower than `client` by a factor between 6 and 12, up to one rounding. */
  predicate Lowered(s: Suggestion, client: real) {
    s.Diff? && client / 12.0 * (1.0 - U) <= s.value <= client / 6.0 * (1.0 + U)
  }

  lemma {:induction false} SixthBounds(client: real, c: real, n: Suggestion)
    requires client >= MIN_DIFF * 6.0 && Rounded(client / 6.0, c) && n.Diff?
    requires n.value <= c <= 2.0 * n.value || (c < MIN_DIFF && n.value == MIN_DIFF)
    ensures Lowered(n, client)
  {}

  lemma {:induction false} SixthLowers(rnd: real -> real, client: real, depth: nat)
    requires RoundsToNearest(rnd) && depth >= 4 && MIN_DIFF * 6.0 <= client < TWO_31 as real
    ensures Lowered(NearestPowerOfTwo(rnd, rnd(client / 6.0), depth), client)
  {
    var c := rnd(client / 6.0);
    SixthIsDouble(rnd, client);
    if c >= MIN_DIFF {
      DoublesWithinTwice(rnd, c, depth);
    } else {
      assert NearestPowerOfTwo(rnd, c, depth) == Diff(MIN_DIFF);
    }
    SixthBounds(client, c, NearestPowerOfTwo(rnd, c, depth));
  }

  /** A miner with fewer than five cached shares is left alone for a minute, then suggested a
      lower difficulty each time, by a factor between 6 and 12 up to one rounding, until it is near
      the bottom. */
  lemma {:induction false} SilenceLowers(rnd: real -> real, cache: seq<Submission>, cacheStart: int, now: int,
                                         secondsPerShare: real, client: real, depth: nat)
    requires RoundsToNearest(rnd) && |cache| < 5 && depth >= 4 && MIN_DIFF * 6.0 <= client < TWO_31 as real
    ensures var s := Suggest(rnd, cache, cacheStart, now, secondsPerShare, client, depth);
      if now - cacheStart <= 60_000 then s == Null else Lowered(s, client)
  {
    SixthLowers(rnd, client, depth);
  }
}
