/** The detour of every payout through a percentage: sats are divided by the reward and scaled to
    a percent on one side, and multiplied back and floored on the other. */
module PercentHop {
  import opened Shared
  import opened Bytes
  import opened Transaction
  import opened Doubles

  /** 21 million BTC in sats. */
  const MAX_MONEY := 2_100_000_000_000_000

  datatype AddressPercent = AddressPercent(address: string, percent: real)

  function ToPercent(rnd: real -> real, sats: nat, reward: nat): real
    requires reward > 0
  {
    rnd(rnd(sats as real / reward as real) * 100.0)
  }

  function ToAmount(rnd: real -> real, percent: real, reward: nat): int {
    rnd(Times(rnd(percent / 100.0), reward as real)).Floor
  }

  // ----- one amount through the hop -----

  /** Zero, or far inside the normal range of doubles. */
  predicate Moderate(x: real) { x == 0.0 || 0.00000000000000000001 <= x <= 100_000_000_000_000_000_000.0 }

  lemma {:induction false} Rounds(rnd: real -> real, x: real)
    requires IsRounding(rnd) && Moderate(x)
    ensures x - x * U <= rnd(x) <= x + x * U && rnd(x) >= 0.0
  {
    ModerateIsNormal(x);
    assert Near(rnd, x);
  }

  lemma {:induction false} QuotientTimes(s: real, r: real)
    requires r > 0.0 && s >= 0.0
    ensures s / r >= 0.0 && (s / r) * r == s
  {}

  /** Three roundings leave the quotient within three relative errors. */
  lemma {:induction false} HopQuotient(rnd: real -> real, q: real) returns (x3: real)
    requires IsRounding(rnd) && (q == 0.0 || 0.0000000000000001 <= q <= 1.0)
    ensures x3 == rnd(rnd(rnd(q) * 100.0) / 100.0)
    ensures q * (1.0 - 4.0 * U) <= x3 - x3 * U && x3 + x3 * U <= q * (1.0 + 4.00001 * U) && x3 >= 0.0
  {
    var x1 := rnd(q);
    Rounds(rnd, q);
    var x2 := rnd(x1 * 100.0);
    Rounds(rnd, x1 * 100.0);
    x3 := rnd(x2 / 100.0);
    Rounds(rnd, x2 / 100.0);
  }

  lemma {:induction false} Swap(q: real, k: real, r: real)
    ensures (q * k) * r == (q * r) * k
  {}

  lemma {:induction false} Spread(x: real, k: real, r: real)
    ensures (x - x * k) * r == x * r - (x * r) * k
    ensures (x + x * k) * r == x * r + (x * r) * k
  {}

  lemma {:induction false} ScaledBounds(q: real, x3: real, r: real, s: real)
    requires x3 >= 0.0 && r > 0.0 && q * r == s && s <= 2_100_000_000_000_000.0 && q >= 0.0
    requires q * (1.0 - 4.0 * U) <= x3 - x3 * U && x3 + x3 * U <= q * (1.0 + 4.00001 * U)
    ensures var p := Times(x3, r); s / 2.0 <= p <= 2.0 * s && s - 1.0 < p - p * U && p + p * U < s + 1.0
  {
    TimesMonotone(0.0, q, r);
    TimesMonotone(q * (1.0 - 4.0 * U), x3 - x3 * U, r);
    TimesMonotone(x3 + x3 * U, q * (1.0 + 4.00001 * U), r);
    Swap(q, 1.0 - 4.0 * U, r);
    Swap(q, 1.0 + 4.00001 * U, r);
    Spread(x3, U, r);
    WithinOne(s, Times(x3, r));
  }

  lemma {:induction false} WithinOne(s: real, p: real)
    requires 0.0 <= s <= 2_100_000_000_000_000.0
    requires s * (1.0 - 4.0 * U) <= p - p * U && p + p * U <= s * (1.0 + 4.00001 * U)
    ensures s / 2.0 <= p <= 2.0 * s && s - 1.0 < p - p * U && p + p * U < s + 1.0
  {}

  lemma {:induction false} FloorNear(y: real, n: int)
    requires n as real - 1.0 < y < n as real + 1.0
    ensures n - 1 <= y.Floor <= n
  {}

  lemma {:induction false} NearProduct(rnd: real -> real, q: real, s: real, r: real)
    requires IsRounding(rnd) && (q == 0.0 || 0.0000000000000001 <= q <= 1.0) && q * r == s && r > 0.0
    requires s == 0.0 || 1.0 <= s <= 2_100_000_000_000_000.0
    ensures var y := rnd(Times(rnd(rnd(rnd(q) * 100.0) / 100.0), r)); y >= 0.0 && s - 1.0 < y < s + 1.0
  {
    var x3 := HopQuotient(rnd, q);
    ScaledBounds(q, x3, r, s);
    Rounds(rnd, Times(x3, r));
  }

  lemma {:induction false} QuotientInRange(s: real, r: real)
    requires 1.0 <= s <= r <= 2_100_000_000_000_000.0
    ensures 0.0000000000000001 <= s / r <= 1.0
  {
    Divided(s, r, 0.0000000000000001);
    assert (1.0 - s / r) * r == r - s;
  }

  lemma {:induction false} Divided(s: real, r: real, lo: real)
    requires r > 0.0 && lo * r <= s
    ensures lo <= s / r
  {
    assert (s / r - lo) * r == s - lo * r;
  }

  lemma {:induction false} NearSats(rnd: real -> real, s: real, r: real)
    requires IsRounding(rnd) && (s == 0.0 || 1.0 <= s) && s <= r && 1.0 <= r <= 2_100_000_000_000_000.0
    ensures var y := rnd(Times(rnd(rnd(rnd(s / r) * 100.0) / 100.0), r)); y >= 0.0 && s - 1.0 < y < s + 1.0
  {
    QuotientTimes(s, r);
    if s > 0.0 { QuotientInRange(s, r); }
    NearProduct(rnd, s / r, s, r);
  }

  /** A payout comes back as itself or one sat less. */
  lemma {:induction false} HopLosesAtMostOneSat(rnd: real -> real, sats: nat, reward: nat)
    requires IsRounding(rnd) && 0 < reward <= MAX_MONEY && sats <= reward
    ensures var a := ToAmount(rnd, ToPercent(rnd, sats, reward), reward); a >= 0 && sats - 1 <= a <= sats
  {
    NearSats(rnd, sats as real, reward as real);
    FloorNear(rnd(Times(rnd(ToPercent(rnd, sats, reward) / 100.0), reward as real)), sats);
  }

  /** The percentage is a hundred times the part of the reward, up to two roundings. */
  lemma {:induction false} PercentIsShare(rnd: real -> real, sats: nat, reward: nat)
    requires IsRounding(rnd) && 0 < reward <= MAX_MONEY && sats <= reward
    ensures var share := sats as real / reward as real;
      share * 100.0 * (1.0 - 3.0 * U) <= ToPercent(rnd, sats, reward) <= share * 100.0 * (1.0 + 3.0 * U)
  {
    var q := sats as real / reward as real;
    if sats > 0 { QuotientInRange(sats as real, reward as real); }
    Rounds(rnd, q);
    Rounds(rnd, rnd(q) * 100.0);
  }

  // ----- an admissible rounding that always loses -----

  /** Every result a full relative error too low. */
  function Low(x: real): real { if x >= 0.0 then x * (1.0 - U) else x }

  lemma {:induction false} LowIsRounding()
    ensures IsRounding(Low)
  {
    forall x ensures Near(Low, x) { TwoToPositive(); }
    forall x, y ensures InOrder(Low, x, y) { TimesMonotone(x, y, 1.0 - U); }
  }

  lemma TwoToPositive()
    ensures TwoTo(-1022) > 0.0
  {}

  lemma {:induction false} LowHop(q: real, r: real, s: real)
    requires q >= 0.0 && r > 0.0 && q * r == s && 1.0 <= s <= 2_100_000_000_000_000.0
    ensures s - 1.0 < Low(Times(Low(Low(Low(q) * 100.0) / 100.0), r)) < s
  {
    var x := Low(Low(Low(q) * 100.0) / 100.0);
    assert x == q * ((1.0 - U) * (1.0 - U) * (1.0 - U));
    Swap(q, (1.0 - U) * (1.0 - U) * (1.0 - U), r);
    TimesMonotone(0.0, x, r);
  }

  /** Under it every positive payout comes back as one sat less. */
  lemma {:induction false} LowLosesOneSat(sats: nat, reward: nat)
    requires 0 < sats <= reward <= MAX_MONEY
    ensures ToAmount(Low, ToPercent(Low, sats, reward), reward) == sats - 1
  {
    var s, r := sats as real, reward as real;
    QuotientTimes(s, r);
    LowHop(s / r, r, s);
    FloorBelow(Low(Times(Low(ToPercent(Low, sats, reward) / 100.0), r)), sats);
  }

  lemma {:induction false} FloorBelow(y: real, n: int)
    requires n as real - 1.0 < y < n as real
    ensures y.Floor == n - 1
  {}

  // ----- a loss in actual double arithmetic -----

  lemma {:induction false} Spacings()
    ensures TwoTo(-75) == 1.0 / 37778931862957161709568.0 && TwoTo(-69) == 1.0 / 590295810358705651712.0
    ensures TwoTo(-47) == 1.0 / 140737488355328.0
  {
    SmallPowers();
    assert TwoTo(5) == 32.0 && TwoTo(7) == 128.0;
    TwoToAdd(5, 70);
    TwoToAdd(7, 40);
    TwoToStep(69);
    Inverse(75);
    Inverse(69);
    Inverse(47);
  }

  /** 43 sats of 312500000 come back as 42, whichever way ties are broken. */
  lemma {:induction false} DoublesLoseOneSat(rnd: real -> real)
    requires RoundsToNearest(rnd)
    ensures ToAmount(rnd, ToPercent(rnd, 43, 312_500_000), 312_500_000) == 42
  {
    Spacings();
    var q := 5198381024342905.0 / 37778931862957161709568.0;
    var p := 8122470350535789.0 / 590295810358705651712.0;
    var y := 6051711999279103.0 / 140737488355328.0;
    RoundsTo(rnd, 43 as real / 312_500_000 as real, -23, 5198381024342905, TwoTo(-75));
    RoundsTo(rnd, q * 100.0, -17, 8122470350535789, TwoTo(-69));
    RoundsTo(rnd, p / 100.0, -23, 5198381024342905, TwoTo(-75));
    RoundsTo(rnd, Times(q, 312_500_000 as real), 5, 6051711999279103, TwoTo(-47));
    assert rnd(Times(q, 312_500_000 as real)) == y;
  }

  // ----- the whole hop -----

  function ToUpstream(rnd: real -> real, outs: seq<CoinbaseOutput>, reward: nat): seq<AddressPercent>
    requires reward > 0
  {
    seq(|outs|, i requires 0 <= i < |outs| => AddressPercent(outs[i].address, ToPercent(rnd, outs[i].sats, reward)))
  }

  /** The reward left over after the first `n` recipients took their floored amounts. */
  function Balance(rnd: real -> real, rs: seq<AddressPercent>, n: nat, reward: nat): int
    requires n <= |rs|
  {
    if n == 0 then reward else Balance(rnd, rs, n - 1, reward) - ToAmount(rnd, rs[n - 1].percent, reward)
  }

  /** createCoinbaseTransaction: floored amounts, the balance added to the first output.  With no
      recipient there is no first output to add it to. */
  method CreateOutputs(rnd: real -> real, rs: seq<AddressPercent>, reward: nat, scriptOf: string -> seq<byte>)
    returns (r: Result<seq<TxOut>>)
    ensures r.Success? <==> rs != []
    ensures r.Success? ==> IsPayout(rnd, rs, reward, scriptOf, r.value)
  {
    var rewardBalance: int := reward;
    var outs: seq<TxOut> := [];
    for i := 0 to |rs|
      invariant rewardBalance == Balance(rnd, rs, i, reward) && |outs| == i
      invariant forall j :: 0 <= j < i ==>
        outs[j] == TxOut(scriptOf(rs[j].address), ToAmount(rnd, rs[j].percent, reward))
    {
      var amount := ToAmount(rnd, rs[i].percent, reward);
      rewardBalance := rewardBalance - amount;
      outs := outs + [TxOut(scriptOf(rs[i].address), amount)];
    }
    if |outs| == 0 { return Failure("outs[0] is undefined"); }
    outs := outs[0 := outs[0].(value := outs[0].value + rewardBalance)];
    return Success(outs);
  }

  ghost predicate IsPayout(rnd: real -> real, rs: seq<AddressPercent>, reward: nat, scriptOf: string -> seq<byte>,
                           outs: seq<TxOut>)
  {
    && |outs| == |rs| > 0
    && (forall i :: 0 <= i < |rs| ==> outs[i].script == scriptOf(rs[i].address))
    && (forall i :: 0 < i < |rs| ==> outs[i].value == ToAmount(rnd, rs[i].percent, reward))
    && outs[0].value == ToAmount(rnd, rs[0].percent, reward) + Balance(rnd, rs, |rs|, reward)
  }

  /** The outputs that come out of the hop. */
  function PayoutOf(rnd: real -> real, rs: seq<AddressPercent>, reward: nat,
                    scriptOf: string -> seq<byte>): seq<TxOut>
  {
    seq(|rs|, i requires 0 <= i < |rs| =>
      TxOut(scriptOf(rs[i].address),
            ToAmount(rnd, rs[i].percent, reward) + (if i == 0 then Balance(rnd, rs, |rs|, reward) else 0)))
  }

  lemma {:induction false} PayoutOfIsPayout(rnd: real -> real, rs: seq<AddressPercent>, reward: nat,
                                            scriptOf: string -> seq<byte>)
    requires rs != []
    ensures IsPayout(rnd, rs, reward, scriptOf, PayoutOf(rnd, rs, reward, scriptOf))
  {}

  lemma {:induction false} TailValues(rnd: real -> real, rs: seq<AddressPercent>, reward: nat,
                                      scriptOf: string -> seq<byte>, outs: seq<TxOut>, n: nat)
    requires IsPayout(rnd, rs, reward, scriptOf, outs) && 1 <= n <= |rs|
    ensures SumValues(outs[n..]) == Balance(rnd, rs, n, reward) - Balance(rnd, rs, |rs|, reward)
    decreases |rs| - n
  {
    if n < |rs| {
      TailValues(rnd, rs, reward, scriptOf, outs, n + 1);
      assert outs[n..][1..] == outs[n + 1..];
    }
  }

  /** Whatever the percentages, the transaction outputs add up to the reward. */
  lemma {:induction false} OutputsTotalReward(rnd: real -> real, rs: seq<AddressPercent>, reward: nat,
                                              scriptOf: string -> seq<byte>, outs: seq<TxOut>)
    requires IsPayout(rnd, rs, reward, scriptOf, outs)
    ensures SumValues(outs) == reward
  {
    TailValues(rnd, rs, reward, scriptOf, outs, 1);
    assert Balance(rnd, rs, 1, reward) == Balance(rnd, rs, 0, reward) - ToAmount(rnd, rs[0].percent, reward);
  }

  lemma {:induction false} EachWithinSum(outs: seq<CoinbaseOutput>, o: CoinbaseOutput)
    requires o in outs
    ensures o.sats <= SumSats(outs)
  {
    if o != outs[0] { EachWithinSum(outs[1..], o); }
  }

  /** A payout list that adds up to the reward survives the hop: the transaction still pays
      exactly the reward, every output but the first gets its intended sats or one less, and the
      first gains what the others lost, between 0 and n - 1 sats. */
  lemma {:induction false} HopIsExact(rnd: real -> real, outs: seq<CoinbaseOutput>, reward: nat,
                                      scriptOf: string -> seq<byte>, tx: seq<TxOut>)
    requires IsRounding(rnd) && 0 < reward <= MAX_MONEY && outs != [] && SumSats(outs) == reward
    requires IsPayout(rnd, ToUpstream(rnd, outs, reward), reward, scriptOf, tx)
    ensures |tx| == |outs| && SumValues(tx) == reward
    ensures forall i :: 0 < i < |outs| ==> tx[i].value >= 0 && outs[i].sats - 1 <= tx[i].value <= outs[i].sats
    ensures outs[0].sats <= tx[0].value <= outs[0].sats + |outs| - 1
  {
    var rs, n := ToUpstream(rnd, outs, reward), |outs|;
    OutputsTotalReward(rnd, rs, reward, scriptOf, tx);
    forall i | 0 <= i < n
      ensures var a := ToAmount(rnd, rs[i].percent, reward); a >= 0 && outs[i].sats - 1 <= a <= outs[i].sats
    {
      EachWithinSum(outs, outs[i]);
      HopLosesAtMostOneSat(rnd, outs[i].sats, reward);
    }
    forall o | o in outs ensures o.sats <= reward { EachWithinSum(outs, o); }
    assert outs[..n] == outs;
    FirstGains(rnd, outs, reward);
  }

  lemma {:induction false} FirstGains(rnd: real -> real, outs: seq<CoinbaseOutput>, reward: nat)
    requires IsRounding(rnd) && 0 < reward <= MAX_MONEY && outs != [] && SumSats(outs) == reward
    requires forall o :: o in outs ==> o.sats <= reward
    ensures var rs := ToUpstream(rnd, outs, reward);
      outs[0].sats <= ToAmount(rnd, rs[0].percent, reward) + Balance(rnd, rs, |rs|, reward) <= outs[0].sats + |outs| - 1
  {
    var rs, n := ToUpstream(rnd, outs, reward), |outs|;
    LaterLosses(rnd, outs, reward, n);
    assert outs[..n] == outs && outs[..1] == [outs[0]];
  }

  /** What recipients 1 to n-1 lose, in sats, is between 0 and n - 1. */
  lemma {:induction false} LaterLosses(rnd: real -> real, outs: seq<CoinbaseOutput>, reward: nat, n: nat)
    requires IsRounding(rnd) && 0 < reward <= MAX_MONEY && 1 <= n <= |outs|
      && (forall o :: o in outs ==> o.sats <= reward)
    ensures var rs := ToUpstream(rnd, outs, reward);
      var gained := ToAmount(rnd, rs[0].percent, reward) + Balance(rnd, rs, n, reward)
        - (reward - SumSats(outs[..n])) - outs[0].sats;
      0 <= gained <= n - 1
  {
    var rs := ToUpstream(rnd, outs, reward);
    if n == 1 {
      assert outs[..1] == [outs[0]];
      assert SumSats([outs[0]]) == outs[0].sats;
      assert Balance(rnd, rs, 1, reward) == Balance(rnd, rs, 0, reward) - ToAmount(rnd, rs[0].percent, reward);
    } else {
      LaterLosses(rnd, outs, reward, n - 1);
      assert outs[..n] == outs[..n - 1] + [outs[n - 1]];
      SumSatsConcat(outs[..n - 1], [outs[n - 1]]);
      HopLosesAtMostOneSat(rnd, outs[n - 1].sats, reward);
    }
  }
}
