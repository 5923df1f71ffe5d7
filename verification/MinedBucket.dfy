/** Whether the dust bucket that is actually mined holds what the worker will be asked to pay. */
module MinedBucket {
  import opened Shared
  import opened Fees
  import opened Pplns
  import opened PplnsLaws
  import opened BlockReward
  import B = Bytes
  import F = Doubles
  import H = PercentHop
  import T = Transaction

  ghost predicate CoversDust(p: PplnsInput, i: nat, rnd: real -> real, scriptOf: string -> seq<B.byte>,
                             tx: seq<T.TxOut>)
    requires Build(p).Success? && p.fees.reward > 0
  {
    && F.IsRounding(rnd)
    && H.IsPayout(rnd, H.ToUpstream(rnd, Build(p).value.outputs, p.fees.reward), p.fees.reward, scriptOf, tx) ==>
    i < |tx| && SumOwed(Build(p).value.dust) <= tx[i].value
  }

  /** Under every admissible rounding the mined bucket holds what the worker will be asked to pay. */
  ghost predicate AlwaysCoversDust(p: PplnsInput, i: nat)
    requires Build(p).Success? && p.fees.reward > 0
  {
    forall rnd, scriptOf, tx :: CoversDust(p, i, rnd, scriptOf, tx)
  }

  /** The member shares floor to less than the members' part of the reward. */
  ghost predicate HasRemainder(p: PplnsInput)
    requires Build(p).Success?
  {
    TotalWeight(p.members) > 0 && Remainder(p.members, FeesOf(p).remaining, TotalWeight(p.members)) > 0
  }

  lemma {:induction false} BucketSats(p: PplnsInput, i: nat)
    requires Build(p).Success? && i < |Build(p).value.outputs| && Build(p).value.outputs[i].kind == DustBucket
    ensures Build(p).value.outputs[i].sats == SatsOf(Build(p).value.outputs, DustBucket) <= p.fees.reward
  {
    var outs := Build(p).value.outputs;
    forall j | 0 <= j < |outs| && j != i ensures outs[j].kind != DustBucket {
      if outs[j].kind == DustBucket { OneBucket(p, i, j); }
    }
    OneOfKind(outs, i, DustBucket);
    OutputsConserveReward(p);
    H.EachWithinSum(outs, outs[i]);
  }

  /** A bucket behind other outputs follows members, so there is weight, and someone is owed dust. */
  lemma {:induction false} LaterBucket(p: PplnsInput, i: nat)
    requires Build(p).Success? && 0 < i < |Build(p).value.outputs| && Build(p).value.outputs[i].kind == DustBucket
    ensures TotalWeight(p.members) > 0 && Build(p).value.dust != []
    ensures Build(p).value.outputs[i].sats
      == SumOwed(Build(p).value.dust) + Remainder(p.members, FeesOf(p).remaining, TotalWeight(p.members)) > 0
  {
    BucketComesFirst(p, i);
    TotalNonNegative(p.members);
    BucketHoldsBreakdown(p);
    BucketSats(p, i);
    BucketIsPositive(p, i);
  }

  lemma {:induction false} BucketIsPositive(p: PplnsInput, i: nat)
    requires Build(p).Success? && i < |Build(p).value.outputs| && Build(p).value.outputs[i].kind == DustBucket
    ensures Build(p).value.outputs[i].sats > 0
  {
    var f, total, parts := FeesOf(p), TotalWeight(p.members), PartsOf(p, FeesOf(p));
    TotalNonNegative(p.members);
    BucketComesFirst(p, i);
    assert Build(p).value.outputs[i] == Tail(p, parts.bucket, parts.operatorSats, parts.platformSats)[0];
  }

  lemma {:induction false} RoundedBucketCovers(p: PplnsInput, i: nat, rnd: real -> real,
                                               scriptOf: string -> seq<B.byte>, tx: seq<T.TxOut>)
    requires Build(p).Success? && p.fees.reward <= H.MAX_MONEY
    requires i < |Build(p).value.outputs| && Build(p).value.outputs[i].kind == DustBucket
    requires F.IsRounding(rnd) && (i == 0 || HasRemainder(p))
    requires H.IsPayout(rnd, H.ToUpstream(rnd, Build(p).value.outputs, p.fees.reward), p.fees.reward, scriptOf, tx)
    ensures i < |tx| && SumOwed(Build(p).value.dust) <= tx[i].value
  {
    BucketSats(p, i);
    OutputsConserveReward(p);
    H.HopIsExact(rnd, Build(p).value.outputs, p.fees.reward, scriptOf, tx);
    TotalNonNegative(p.members);
    if TotalWeight(p.members) > 0 { BucketHoldsBreakdown(p); }
  }

  /** Without a remainder a bucket behind other outputs can come out one sat short. */
  lemma {:induction false} ShortBucket(p: PplnsInput, i: nat, scriptOf: string -> seq<B.byte>)
    requires Build(p).Success? && p.fees.reward <= H.MAX_MONEY && !HasRemainder(p)
    requires 0 < i < |Build(p).value.outputs| && Build(p).value.outputs[i].kind == DustBucket
    ensures var rs := H.ToUpstream(H.Low, Build(p).value.outputs, p.fees.reward);
      !CoversDust(p, i, H.Low, scriptOf, H.PayoutOf(H.Low, rs, p.fees.reward, scriptOf))
  {
    var outs := Build(p).value.outputs;
    var rs := H.ToUpstream(H.Low, outs, p.fees.reward);
    LaterBucket(p, i);
    BucketHoldsBreakdown(p);
    BucketSats(p, i);
    H.LowIsRounding();
    H.LowLosesOneSat(outs[i].sats, p.fees.reward);
    H.PayoutOfIsPayout(H.Low, rs, p.fees.reward, scriptOf);
  }

  lemma {:induction false} LongBucket(p: PplnsInput, i: nat)
    requires Build(p).Success? && p.fees.reward <= H.MAX_MONEY && (i == 0 || HasRemainder(p))
    requires i < |Build(p).value.outputs| && Build(p).value.outputs[i].kind == DustBucket
    ensures AlwaysCoversDust(p, i)
  {
    forall rnd, scriptOf, tx ensures CoversDust(p, i, rnd, scriptOf, tx) {
      if F.IsRounding(rnd)
         && H.IsPayout(rnd, H.ToUpstream(rnd, Build(p).value.outputs, p.fees.reward), p.fees.reward, scriptOf, tx)
      {
        RoundedBucketCovers(p, i, rnd, scriptOf, tx);
      }
    }
  }

  /** The mined bucket holds the whole breakdown under every admissible rounding if and only if
      it is the first output or the shares leave a remainder. */
  lemma {:induction false} BucketCoversDustExactly(p: PplnsInput, i: nat)
    requires Build(p).Success? && p.fees.reward <= H.MAX_MONEY
    requires i < |Build(p).value.outputs| && Build(p).value.outputs[i].kind == DustBucket
    ensures AlwaysCoversDust(p, i) <==> i == 0 || HasRemainder(p)
  {
    if i == 0 || HasRemainder(p) { LongBucket(p, i); } else { ShortBucket(p, i, _ => []); }
  }

  // ----- a short bucket in actual double arithmetic -----

  function TwoMembers(x: PplnsMember, y: PplnsMember, operator: string, platform: string): PplnsInput {
    PplnsInput(FeeContext(312_500_000, 0, 0), [x, y], operator, platform, 546)
  }

  lemma OwedByOne(pubkey: string, owed: nat)
    ensures SumOwed([DustEntry(pubkey, owed)]) == owed
  {
    assert [DustEntry(pubkey, owed)][1..] == [];
  }

  lemma {:induction false} TwoMembersBuild(x: PplnsMember, y: PplnsMember, operator: string, platform: string)
    requires InputOk(TwoMembers(x, y, operator, platform)) && x.weight == 312_499_957 && y.weight == 43
    ensures Build(TwoMembers(x, y, operator, platform)) == Success(PplnsResult(
      [CoinbaseOutput(x.address, 312_499_957, Member, Some(x.pubkey)), CoinbaseOutput(operator, 43, DustBucket, None)],
      [DustEntry(y.pubkey, 43)]))
  {
    var p := TwoMembers(x, y, operator, platform);
    var ms, total := p.members, 312_500_000;
    assert SplitFees(p.fees) == Success(FeeSplit(0, 0, total));
    assert ms[1..] == [y] && [y][1..] == [];
    assert TotalWeight([]) == 0 && TotalWeight([y]) == y.weight + TotalWeight([]);
    assert TotalWeight(ms) == total;
    assert Share(total, x.weight, total) == 312_499_957 && Share(total, y.weight, total) == 43;
    assert SumShares([], total, total) == 0 && SumShares([y], total, total) == 43;
    assert SumShares(ms, total, total) == total;
    assert DustEntries([], total, total, 546) == [] && DustEntries([y], total, total, 546) == [DustEntry(y.pubkey, 43)];
    assert DustEntries(ms, total, total, 546) == [DustEntry(y.pubkey, 43)];
    assert MemberOutputs([], total, total, 546) == [] && MemberOutputs([y], total, total, 546) == [];
    OwedByOne(y.pubkey, 43);
    var member := CoinbaseOutput(x.address, 312_499_957, Member, Some(x.pubkey));
    assert MemberOutputs(ms, total, total, 546) == [member];
    var bucket := CoinbaseOutput(operator, 43, DustBucket, None);
    assert Tail(p, 43, 0, 0) == [bucket];
    assert [member] + [bucket] == [member, bucket];
    assert PartsOf(p, FeeSplit(0, 0, total)) == Parts([member], [DustEntry(y.pubkey, 43)], 43, 0, 0);
  }

  /** With doubles rounding to nearest, a member of weight 312499957 and one of weight 43 share
      312500000 sats: 43 are owed as dust, and the mined bucket holds 42. */
  lemma {:induction false} BucketOneSatShort(x: PplnsMember, y: PplnsMember, operator: string, platform: string,
                                             rnd: real -> real, scriptOf: string -> seq<B.byte>, tx: seq<T.TxOut>)
    requires InputOk(TwoMembers(x, y, operator, platform)) && x.weight == 312_499_957 && y.weight == 43
    requires F.RoundsToNearest(rnd)
    requires var p := TwoMembers(x, y, operator, platform);
      && Build(p).Success?
      && H.IsPayout(rnd, H.ToUpstream(rnd, Build(p).value.outputs, 312_500_000), 312_500_000, scriptOf, tx)
    ensures var r := Build(TwoMembers(x, y, operator, platform)).value;
      |r.outputs| == |tx| == 2 && r.outputs[1].kind == DustBucket && SumOwed(r.dust) == 43 && tx[1].value == 42
  {
    TwoMembersBuild(x, y, operator, platform);
    H.DoublesLoseOneSat(rnd);
    OwedByOne(y.pubkey, 43);
  }
}
