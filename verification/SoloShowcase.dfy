/** buildSoloShowcaseCoinbase: the finder takes the reward less both fees. */
module SoloShowcase {
  import opened Shared
  import opened Fees

  datatype SoloInput = SoloInput(fees: FeeContext, miner: string, operator: string, platform: string,
                                 minerPubkey: string)

  function AddressError(p: SoloInput): Option<string> {
    if p.miner == "" then Some("minerBtcAddress required")
    else if p.operator == "" then Some("operatorBtcAddress required")
    else if p.platform == "" then Some("platformBtcAddress required")
    else if p.minerPubkey == "" then Some("minerPubkey required")
    else None
  }

  /** The miner comes first and gets at least the reward's part the fee rates leave; every sat is
      accounted for; the error is the first failed check. */
  method BuildSoloShowcaseCoinbase(p: SoloInput) returns (r: Result<seq<CoinbaseOutput>>)
    ensures r.Success? <==> AddressError(p) == None && FeeError(p.fees) == None
    ensures r.Failure? ==> Some(r.error) == if AddressError(p).Some? then AddressError(p) else FeeError(p.fees)
    ensures r.Success? <==>
      p.miner != "" && p.operator != "" && p.platform != "" && p.minerPubkey != "" && p.fees.reward > 0
      && p.fees.operatorBps >= 0 && p.fees.platformBps >= 0 && p.fees.operatorBps + p.fees.platformBps <= 10_000
    ensures r.Success? ==> IsSoloPayout(p, r.value) && PaysFees(p, r.value)
  {
    if AddressError(p).Some? { return Failure(AddressError(p).value); }
    var split := SplitFees(p.fees);
    if split.Failure? { return Failure(split.error); }
    var f := split.value;
    RemainingAtLeast(p.fees);
    var outputs := [CoinbaseOutput(p.miner, f.remaining, Member, Some(p.minerPubkey))];
    if f.operatorFee > 0 {
      SumSatsConcat(outputs, [CoinbaseOutput(p.operator, f.operatorFee, OperatorFee, None)]);
      outputs := outputs + [CoinbaseOutput(p.operator, f.operatorFee, OperatorFee, None)];
    }
    if f.platformFee > 0 {
      SumSatsConcat(outputs, [CoinbaseOutput(p.platform, f.platformFee, PlatformFee, None)]);
      outputs := outputs + [CoinbaseOutput(p.platform, f.platformFee, PlatformFee, None)];
    }
    assert FeesPaid(p, outputs, f.operatorFee, f.platformFee);
    return Success(outputs);
  }

  /** Behind the miner's output, of what both fees leave, stand the operator's and the platform's, each to
      its own address unless it is nothing. */
  ghost predicate FeesPaid(p: SoloInput, outs: seq<CoinbaseOutput>, operatorFee: nat, platformFee: nat) {
    && FloorBps(operatorFee, p.fees.reward, p.fees.operatorBps)
    && FloorBps(platformFee, p.fees.reward, p.fees.platformBps)
    && |outs| == 1 + (if operatorFee > 0 then 1 else 0) + (if platformFee > 0 then 1 else 0)
    && outs[0].sats == p.fees.reward - operatorFee - platformFee
    && (operatorFee > 0 ==> outs[1] == CoinbaseOutput(p.operator, operatorFee, OperatorFee, None))
    && (platformFee > 0 ==> outs[|outs| - 1] == CoinbaseOutput(p.platform, platformFee, PlatformFee, None))
  }

  ghost predicate PaysFees(p: SoloInput, outs: seq<CoinbaseOutput>) {
    exists operatorFee: nat, platformFee: nat :: FeesPaid(p, outs, operatorFee, platformFee)
  }

  ghost predicate IsSoloPayout(p: SoloInput, outs: seq<CoinbaseOutput>) {
    && 1 <= |outs| <= 3 && SumSats(outs) == p.fees.reward > 0
    && outs[0].address == p.miner && outs[0].kind == Member && outs[0].pubkey == Some(p.minerPubkey)
    && outs[0].sats * BPS >= p.fees.reward * (BPS - p.fees.operatorBps - p.fees.platformBps)
    && (forall i :: 0 < i < |outs| ==>
       outs[i].sats > 0 && outs[i].pubkey == None && outs[i].kind in {OperatorFee, PlatformFee})
  }
}
