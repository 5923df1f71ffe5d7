/** One PPLNS job, from the builder's input to a member's own check of it. */
module PplnsEndToEnd {
  import opened Shared
  import opened Bytes
  import opened Transaction
  import opened Pplns
  import opened PplnsLaws
  import opened Doubles
  import opened PercentHop
  import opened Verifier
  import S = SoloEndToEnd
  import J = MiningJob

  /** A member whose share reaches the threshold has an output of exactly that share. */
  lemma {:induction false} OutputOf(ms: seq<PplnsMember>, remaining: nat, total: int, threshold: int, m: PplnsMember)
    returns (i: nat)
    requires NonNegative(ms) && total > 0 && m in ms && Share(remaining, m.weight, total) >= threshold
    ensures var outs := MemberOutputs(ms, remaining, total, threshold);
      i < |outs| && outs[i].address == m.address && outs[i].sats == Share(remaining, m.weight, total)
  {
    if m == ms[0] {
      i := 0;
    } else {
      i := OutputOf(ms[1..], remaining, total, threshold, m);
      i := i + |OwnOutput(ms[0], Share(remaining, ms[0].weight, total), threshold)|;
    }
  }

  function ShareOf(p: PplnsInput, m: PplnsMember): nat
    requires Build(p).Success? && m in p.members && TotalWeight(p.members) > 0
  {
    Share(FeesOf(p).remaining, m.weight, TotalWeight(p.members))
  }

  ghost predicate IsPplnsPayout(rnd: real -> real, p: PplnsInput, scriptOf: string -> seq<byte>, tx: seq<TxOut>) {
    && Build(p).Success? && p.fees.reward > 0
    && IsPayout(rnd, ToUpstream(rnd, Build(p).value.outputs, p.fees.reward), p.fees.reward, scriptOf, tx)
  }

  lemma {:induction false} BuiltOutput(p: PplnsInput, m: PplnsMember) returns (i: nat)
    requires Build(p).Success? && m in p.members && TotalWeight(p.members) > 0 && ShareOf(p, m) >= p.dustThreshold
    ensures var outs := Build(p).value.outputs;
      i < |outs| && outs[i].address == m.address && outs[i].sats == ShareOf(p, m)
  {
    i := OutputOf(p.members, FeesOf(p).remaining, TotalWeight(p.members), p.dustThreshold, m);
  }

  /** The commitment behind the outputs changes neither what an output's script is paid nor the total. */
  lemma {:induction false} WithCommitment(tx: seq<TxOut>, commitment: TxOut, i: nat)
    requires i < |tx| && (forall j :: 0 <= j < |tx| ==> tx[j].value >= 0) && commitment.value == 0
    ensures var all, mine := tx + [commitment], tx[i].script;
      MySats(all, mine) >= tx[i].value && MyCount(all, mine) > 0 && SumValues(all) == SumValues(tx)
  {
    var all := tx + [commitment];
    ValuesNonNegative(tx, commitment);
    assert all[i] == tx[i];
    PaidAtLeast(all, i);
    SumValuesConcat(tx, [commitment]);
    assert SumValues([commitment]) == 0;
  }

  /** Through the percentage hop the member's address still gets the share less at most one sat. */
  lemma {:induction false} MemberIsPaid(rnd: real -> real, p: PplnsInput, m: PplnsMember, scriptOf: string -> seq<byte>,
                                        tx: seq<TxOut>, commitment: TxOut)
    requires IsRounding(rnd) && IsPplnsPayout(rnd, p, scriptOf, tx) && p.fees.reward <= MAX_MONEY
      && commitment.value == 0
    requires m in p.members && TotalWeight(p.members) > 0 && ShareOf(p, m) >= p.dustThreshold
    ensures var all, mine := tx + [commitment], scriptOf(m.address);
      MySats(all, mine) >= ShareOf(p, m) - 1 && MyCount(all, mine) > 0 && SumValues(all) == p.fees.reward
  {
    var i := BuiltOutput(p, m);
    OutputsConserveReward(p);
    HopIsExact(rnd, Build(p).value.outputs, p.fees.reward, scriptOf, tx);
    assert tx[i].script == scriptOf(m.address);
    WithCommitment(tx, commitment, i);
  }

  lemma {:induction false} ValuesNonNegative(tx: seq<TxOut>, commitment: TxOut)
    requires (forall j :: 0 <= j < |tx| ==> tx[j].value >= 0) && commitment.value == 0
    ensures forall o :: o in tx + [commitment] ==> o.value >= 0
  {}

  /** Every member paid on chain at least two sats accepts the job at every `minSats` up to their
      share less one sat, and without one. */
  lemma {:induction false} MemberAccepts(rnd: real -> real, p: PplnsInput, m: PplnsMember,
                                         scriptOf: string -> seq<byte>,
                                         tx: seq<TxOut>, commitment: TxOut, minSats: Option<int>)
    requires IsRounding(rnd) && IsPplnsPayout(rnd, p, scriptOf, tx) && p.fees.reward <= MAX_MONEY
      && commitment.value == 0
    requires m in p.members && TotalWeight(p.members) > 0 && ShareOf(p, m) >= p.dustThreshold && ShareOf(p, m) >= 2
    requires minSats.Some? ==> minSats.value <= ShareOf(p, m) - 1
    ensures Accepts(rnd, tx + [commitment], VerifyConfig(scriptOf(m.address), PplnsRule, 0.0, minSats))
  {
    MemberIsPaid(rnd, p, m, scriptOf, tx, commitment);
  }

  lemma {:induction false} PayoutFits(rnd: real -> real, p: PplnsInput, scriptOf: string -> seq<byte>, tx: seq<TxOut>)
    requires IsRounding(rnd) && IsPplnsPayout(rnd, p, scriptOf, tx) && p.fees.reward <= MAX_MONEY
    requires |tx| < MAX_SAFE && forall a :: |scriptOf(a)| <= MAX_SAFE
    ensures J.OutsOk(tx)
  {
    var outs := Build(p).value.outputs;
    OutputsConserveReward(p);
    HopIsExact(rnd, outs, p.fees.reward, scriptOf, tx);
    OutputsTotalReward(rnd, ToUpstream(rnd, outs, p.fees.reward), p.fees.reward, scriptOf, tx);
    forall j | 0 <= j < |tx| ensures OutOk(tx[j]) {
      PaidAtLeast(tx, j);
      assert tx[j].script == scriptOf(outs[j].address);
    }
  }

  /** The whole path for a PPLNS member: the hop, the job, the reconstruction by the member's
      verifier, acceptance. */
  method ServeAndVerifyPplns(rnd: real -> real, p: PplnsInput, m: PplnsMember, scriptOf: string -> seq<byte>,
                             extranonce2: Option<int>,
                             pool: Option<seq<byte>>, height: nat, witnessCommit: seq<byte>, blockWeight: nat,
                             extraNonce1: string, minSats: Option<int>) returns (r: VerifyResult)
    requires IsRounding(rnd) && Build(p).Success? && p.fees.reward <= MAX_MONEY
    requires J.HeightOk(height) && |witnessCommit| == 32 && IsHex(extraNonce1)
      && |extraNonce1| == 2 * J.EXTRANONCE1_SIZE
    requires |Build(p).value.outputs| < MAX_SAFE && forall a :: |scriptOf(a)| <= MAX_SAFE
    requires m in p.members && TotalWeight(p.members) > 0 && ShareOf(p, m) >= p.dustThreshold && ShareOf(p, m) >= 2
    requires minSats.Some? ==> minSats.value <= ShareOf(p, m) - 1
    ensures r.ok && r.mySats >= ShareOf(p, m) - 1 && r.totalSats == p.fees.reward
  {
    var built := BuildPplnsCoinbase(p);
    SomeOutput(p);
    var created := CreateOutputs(rnd, ToUpstream(rnd, built.value.outputs, p.fees.reward), p.fees.reward, scriptOf);
    var tx := created.value;
    PayoutFits(rnd, p, scriptOf, tx);
    var parsed := S.ServeJob(tx, extranonce2, pool, height, witnessCommit, blockWeight, extraNonce1);
    MemberIsPaid(rnd, p, m, scriptOf, tx, J.Commitment(witnessCommit));
    r := VerifyOutputs(rnd, parsed.value, VerifyConfig(scriptOf(m.address), PplnsRule, 0.0, minSats));
  }

  lemma {:induction false} SomeOutput(p: PplnsInput)
    requires Build(p).Success?
    ensures p.fees.reward > 0 && Build(p).value.outputs != []
  {
    OutputsConserveReward(p);
  }
}
