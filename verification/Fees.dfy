/** Fee arithmetic shared by both payout rules.  Fees floor; the slack stays with the rest. */
module Fees {
  import opened Shared

  const BPS := 10_000

  datatype FeeContext = FeeContext(reward: int, operatorBps: int, platformBps: int)

  datatype FeeSplit = FeeSplit(operatorFee: nat, platformFee: nat, remaining: nat)

  function FeeError(c: FeeContext): Option<string> {
    if c.reward <= 0 then Some("blockRewardSats must be positive")
    else if c.operatorBps < 0 || c.operatorBps > BPS then Some("operatorFeeBps must be integer 0..10000")
    else if c.platformBps < 0 || c.platformBps > BPS then Some("platformFeeBps must be integer 0..10000")
    else if c.operatorBps + c.platformBps > BPS then Some("operatorFeeBps + platformFeeBps cannot exceed 10000 (100%)")
    else None
  }

  function SplitFees(c: FeeContext): (r: Result<FeeSplit>)
    ensures r.Success? <==> FeeError(c) == None
    ensures r.Success? <==>
      c.reward > 0 && c.operatorBps >= 0 && c.platformBps >= 0 && c.operatorBps + c.platformBps <= 10_000
    ensures r.Success? ==> r.value.operatorFee + r.value.platformFee + r.value.remaining == c.reward
    ensures r.Success? ==> FloorBps(r.value.operatorFee, c.reward, c.operatorBps)
    ensures r.Success? ==> FloorBps(r.value.platformFee, c.reward, c.platformBps)
  {
    if FeeError(c).Some? then Failure(FeeError(c).value)
    else
      FloorBpsHolds(c.reward, c.platformBps);
      FloorBpsHolds(c.reward, c.operatorBps);
      FeesFit(c.reward, c.operatorBps, c.platformBps);
      var platformFee := c.reward * c.platformBps / BPS;
      var operatorFee := c.reward * c.operatorBps / BPS;
      Success(FeeSplit(operatorFee, platformFee, c.reward - platformFee - operatorFee))
  }

  /** `fee` is the largest number of sats not above `bps` ten-thousandths of the reward. */
  predicate FloorBps(fee: int, reward: int, bps: int) {
    fee * BPS <= reward * bps < (fee + 1) * BPS
  }

  lemma {:induction false} FloorBpsHolds(reward: nat, bps: nat)
    ensures reward * bps >= 0 && FloorBps(reward * bps / BPS, reward, bps)
  {
    assert reward * bps >= 0;
  }

  lemma {:induction false} FeesFit(reward: nat, a: nat, b: nat)
    requires a + b <= BPS
    ensures reward * a / BPS + reward * b / BPS <= reward
  {
    FloorBpsHolds(reward, a);
    FloorBpsHolds(reward, b);
    assert reward * a + reward * b == reward * (a + b) <= reward * BPS;
  }

  /** What the fees leave is at least the part of the reward their rates leave. */
  lemma {:induction false} RemainingAtLeast(c: FeeContext)
    requires SplitFees(c).Success?
    ensures SplitFees(c).value.remaining * BPS >= c.reward * (BPS - c.operatorBps - c.platformBps)
  {
    var f := SplitFees(c).value;
    assert c.reward * (BPS - c.operatorBps - c.platformBps)
      == c.reward * BPS - c.reward * c.operatorBps - c.reward * c.platformBps;
  }
}
