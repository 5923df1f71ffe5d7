/** Whom each PPLNS output pays and in which order the outputs stand, for every valid input. */
module PplnsOutputs {
  import opened Shared
  import opened Fees
  import opened Strings
  import opened Pplns
  import opened PplnsLaws

  // ----- which inputs are accepted -----

  lemma {:induction false} AscendingIfPairs(ms: seq<PplnsMember>)
    requires forall i, j :: 0 <= i < j < |ms| ==> Less(ms[i].pubkey, ms[j].pubkey)
    ensures Ascending(ms)
  {
    forall i | 1 <= i < |ms| ensures InOrder(ms, i) { assert Less(ms[i - 1].pubkey, ms[i].pubkey); }
  }

  /** Fees within bounds, both addresses, a threshold, and members in strict order with addresses and
      weights that are not negative: the builder asks for this and no more. */
  lemma {:induction false} BuildSucceedsExactly(p: PplnsInput)
    ensures Build(p).Success? <==>
      && p.fees.reward > 0 && p.fees.operatorBps >= 0 && p.fees.platformBps >= 0
      && p.fees.operatorBps + p.fees.platformBps <= 10000
      && p.operator != "" && p.platform != "" && p.dustThreshold >= 0
      && (forall m :: m in p.members ==> m.weight >= 0 && m.address != "")
      && (forall i, j :: 0 <= i < j < |p.members| ==> Less(p.members[i].pubkey, p.members[j].pubkey))
  {
    if Ascending(p.members) {
      forall i, j | 0 <= i < j < |p.members| ensures Less(p.members[i].pubkey, p.members[j].pubkey) {
        AscendingPairs(p.members, i, j);
      }
    }
    if forall i, j :: 0 <= i < j < |p.members| ==> Less(p.members[i].pubkey, p.members[j].pubkey) {
      AscendingIfPairs(p.members);
    }
  }

  // ----- whom the outputs pay -----

  function TailOf(p: PplnsInput): seq<CoinbaseOutput>
    requires Build(p).Success?
  {
    var parts := PartsOf(p, FeesOf(p));
    Tail(p, parts.bucket, parts.operatorSats, parts.platformSats)
  }

  ghost predicate PaysOwner(p: PplnsInput, o: CoinbaseOutput) {
    match o.kind
    case Member => exists m :: m in p.members && o.address == m.address && o.pubkey == Some(m.pubkey)
    case PlatformFee => o.address == p.platform && o.pubkey == None && o.sats > 0
    case _ => o.address == p.operator && o.pubkey == None && o.sats > 0
  }

  /** The dust bucket and the operator's fee pay the operator, the platform's fee the platform, and each
      member output the member it names. */
  lemma {:induction false} OutputsPayTheirOwners(p: PplnsInput, o: CoinbaseOutput)
    requires Build(p).Success? && o in Build(p).value.outputs
    ensures PaysOwner(p, o)
  {
    var f, total, parts := FeesOf(p), TotalWeight(p.members), PartsOf(p, FeesOf(p));
    TotalNonNegative(p.members);
    if o in parts.members {
      var i := MemberOutputFrom(p.members, f.remaining, total, p.dustThreshold, o);
      assert p.members[i] in p.members;
    } else {
      assert o in TailOf(p);
    }
  }

  // ----- the order of the outputs -----

  function KindRank(kind: OutputKind): nat {
    match kind
    case Member => 0
    case DustBucket => 1
    case OperatorFee => 2
    case PlatformFee => 3
  }

  lemma {:induction false} TailRanks(p: PplnsInput, i: nat, j: nat)
    requires Build(p).Success? && i < j < |TailOf(p)|
    ensures 0 < KindRank(TailOf(p)[i].kind) < KindRank(TailOf(p)[j].kind)
  {}

  lemma {:induction false} TailHasNoMember(p: PplnsInput, i: nat)
    requires Build(p).Success? && i < |TailOf(p)|
    ensures TailOf(p)[i].kind != Member
  {}

  lemma {:induction false} MemberOutputsAscend(ms: seq<PplnsMember>, remaining: nat, total: int, threshold: int,
                                               i: nat, j: nat)
    requires NonNegative(ms) && total > 0 && Ascending(ms)
    requires i < j < |MemberOutputs(ms, remaining, total, threshold)|
    ensures var outs := MemberOutputs(ms, remaining, total, threshold);
      outs[i].pubkey.Some? && outs[j].pubkey.Some? && Less(outs[i].pubkey.value, outs[j].pubkey.value)
  {
    var outs := MemberOutputs(ms, remaining, total, threshold);
    var own := OwnOutput(ms[0], Share(remaining, ms[0].weight, total), threshold);
    var rest := MemberOutputs(ms[1..], remaining, total, threshold);
    AscendingRest(ms);
    if i >= |own| {
      assert outs[i] == rest[i - |own|] && outs[j] == rest[j - |own|];
      MemberOutputsAscend(ms[1..], remaining, total, threshold, i - |own|, j - |own|);
    } else {
      assert outs[j] == rest[j - |own|] && outs[j] in rest;
      var k := MemberOutputFrom(ms[1..], remaining, total, threshold, outs[j]);
      AscendingPairs(ms, 0, k + 1);
    }
  }

  lemma {:induction false} AscendingRest(ms: seq<PplnsMember>)
    requires Ascending(ms) && ms != []
    ensures Ascending(ms[1..])
  {
    forall i | 1 <= i < |ms[1..]| ensures InOrder(ms[1..], i) { assert InOrder(ms, i + 1); }
  }

  /** Members stand first, by ascending pubkey; behind them at most one dust bucket, then at most one
      operator fee, then at most one platform fee. */
  lemma {:induction false} OutputsStandInOrder(p: PplnsInput, i: nat, j: nat)
    requires Build(p).Success? && i < j < |Build(p).value.outputs|
    ensures var a, b := Build(p).value.outputs[i], Build(p).value.outputs[j];
      if a.kind == Member && b.kind == Member
      then a.pubkey.Some? && b.pubkey.Some? && Less(a.pubkey.value, b.pubkey.value)
      else KindRank(a.kind) < KindRank(b.kind)
  {
    var f, total, parts := FeesOf(p), TotalWeight(p.members), PartsOf(p, FeesOf(p));
    var outs, n := Build(p).value.outputs, |PartsOf(p, FeesOf(p)).members|;
    TotalNonNegative(p.members);
    if j < n {
      MemberOutputsAscend(p.members, f.remaining, total, p.dustThreshold, i, j);
      var x := MemberOutputFrom(p.members, f.remaining, total, p.dustThreshold, parts.members[i]);
      var y := MemberOutputFrom(p.members, f.remaining, total, p.dustThreshold, parts.members[j]);
    } else if i < n {
      var x := MemberOutputFrom(p.members, f.remaining, total, p.dustThreshold, parts.members[i]);
      assert outs[j] == TailOf(p)[j - n];
      TailHasNoMember(p, j - n);
    } else {
      assert outs[i] == TailOf(p)[i - n] && outs[j] == TailOf(p)[j - n];
      TailRanks(p, i - n, j - n);
    }
  }

  // ----- amounts -----

  lemma {:induction false} ShareIsFloor(remaining: nat, weight: int, total: int)
    requires weight >= 0 && total > 0
    ensures var s := Share(remaining, weight, total); s * total <= remaining * weight < (s + 1) * total
  {
    assert remaining * weight >= 0;
    FloorBounds(remaining * weight, total);
    OneMore(Share(remaining, weight, total), total);
  }

  lemma {:induction false} OneMore(s: nat, total: nat)
    ensures (s + 1) * total == s * total + total
  {}

  /** A member's credit is the largest whole number of sats not above their proportion of what both
      fees leave. */
  lemma {:induction false} CreditIsFloor(p: PplnsInput, m: PplnsMember)
    requires Build(p).Success? && m in p.members && TotalWeight(p.members) > 0
    ensures var credit, total := Credit(Build(p).value, m.pubkey), TotalWeight(p.members);
      credit * total <= FeesOf(p).remaining * m.weight < (credit + 1) * total
  {
    CreditIsShare(p, m);
    ShareIsFloor(FeesOf(p).remaining, m.weight, TotalWeight(p.members));
  }

  /** With nothing in the window everything the fees leave goes to the bucket, and nobody is owed. */
  lemma {:induction false} WeightlessGoesToBucket(p: PplnsInput)
    requires Build(p).Success? && TotalWeight(p.members) == 0
    ensures var r := Build(p).value;
      && r.dust == [] && SatsOf(r.outputs, Member) == 0
      && SatsOf(r.outputs, DustBucket) + SatsOf(r.outputs, OperatorFee) + SatsOf(r.outputs, PlatformFee)
         == p.fees.reward
      && FloorBps(SatsOf(r.outputs, OperatorFee), p.fees.reward, p.fees.operatorBps)
      && FloorBps(SatsOf(r.outputs, PlatformFee), p.fees.reward, p.fees.platformBps)
  {
    KindTotals(p, Member);
    KindTotals(p, DustBucket);
    KindTotals(p, OperatorFee);
    KindTotals(p, PlatformFee);
  }
}
