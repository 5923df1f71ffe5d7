/** buildPplnsCoinbase: member outputs, the dust bucket and its breakdown, and both fees. */
module Pplns {
  import opened Shared
  import opened Fees
  import opened Strings

  datatype PplnsInput = PplnsInput(
    fees: FeeContext, members: seq<PplnsMember>, operator: string, platform: string, dustThreshold: int)

  datatype PplnsResult = PplnsResult(outputs: seq<CoinbaseOutput>, dust: seq<DustEntry>)

  // ----- validation -----

  predicate InOrder(ms: seq<PplnsMember>, i: int)
    requires 1 <= i < |ms|
  {
    Less(ms[i - 1].pubkey, ms[i].pubkey)
  }

  predicate Ascending(ms: seq<PplnsMember>) {
    forall i :: 1 <= i < |ms| ==> InOrder(ms, i)
  }

  predicate MembersOk(ms: seq<PplnsMember>) {
    Ascending(ms) && forall m :: m in ms ==> m.weight >= 0 && m.address != ""
  }

  predicate InputOk(p: PplnsInput) {
    p.operator != "" && p.platform != "" && p.dustThreshold >= 0 && MembersOk(p.members)
  }

  lemma {:induction false} AscendingPairs(ms: seq<PplnsMember>, i: nat, j: nat)
    requires Ascending(ms) && i < j < |ms|
    ensures Less(ms[i].pubkey, ms[j].pubkey) && ms[i].pubkey != ms[j].pubkey
    decreases j - i
  {
    assert InOrder(ms, j);
    if i + 1 < j {
      AscendingPairs(ms, i, j - 1);
      LessTransitive(ms[i].pubkey, ms[j - 1].pubkey, ms[j].pubkey);
    }
    LessAsymmetric(ms[i].pubkey, ms[j].pubkey);
  }

  // ----- specification -----

  ghost predicate NonNegative(ms: seq<PplnsMember>) { forall m :: m in ms ==> m.weight >= 0 }

  function TotalWeight(ms: seq<PplnsMember>): int {
    if ms == [] then 0 else ms[0].weight + TotalWeight(ms[1..])
  }

  /** A member's floored proportion of the distributable sats. */
  function Share(remaining: nat, weight: int, total: int): (s: nat)
    requires weight >= 0 && total > 0
  {
    assert remaining * weight >= 0;
    remaining * weight / total
  }

  /** A member at or above the threshold gets an output, one below it a dust entry, and one
      whose share floors to nothing gets neither. */
  function OwnOutput(m: PplnsMember, s: nat, threshold: int): seq<CoinbaseOutput> {
    if s >= threshold then [CoinbaseOutput(m.address, s, Member, Some(m.pubkey))] else []
  }

  function OwnEntry(m: PplnsMember, s: nat, threshold: int): seq<DustEntry> {
    if 0 < s < threshold then [DustEntry(m.pubkey, s)] else []
  }

  function MemberOutputs(ms: seq<PplnsMember>, remaining: nat, total: int, threshold: int): seq<CoinbaseOutput>
    requires NonNegative(ms) && total > 0
  {
    if ms == [] then []
    else
      OwnOutput(ms[0], Share(remaining, ms[0].weight, total), threshold)
      + MemberOutputs(ms[1..], remaining, total, threshold)
  }

  function DustEntries(ms: seq<PplnsMember>, remaining: nat, total: int, threshold: int): seq<DustEntry>
    requires NonNegative(ms) && total > 0
  {
    if ms == [] then []
    else
      OwnEntry(ms[0], Share(remaining, ms[0].weight, total), threshold)
      + DustEntries(ms[1..], remaining, total, threshold)
  }

  function Paid(address: string, sats: nat, kind: OutputKind): seq<CoinbaseOutput> {
    if sats > 0 then [CoinbaseOutput(address, sats, kind, None)] else []
  }

  /** The three operator- and platform-owned outputs, in order, zero amounts left out. */
  function Tail(p: PplnsInput, bucket: nat, operatorSats: nat, platformSats: nat): seq<CoinbaseOutput> {
    Paid(p.operator, bucket, DustBucket) + Paid(p.operator, operatorSats, OperatorFee)
      + Paid(p.platform, platformSats, PlatformFee)
  }

  function SumShares(ms: seq<PplnsMember>, remaining: nat, total: int): nat
    requires NonNegative(ms) && total > 0
  {
    if ms == [] then 0 else Share(remaining, ms[0].weight, total) + SumShares(ms[1..], remaining, total)
  }

  function Remainder(ms: seq<PplnsMember>, remaining: nat, total: int): int
    requires NonNegative(ms) && total > 0
  {
    remaining - SumShares(ms, remaining, total)
  }

  // ----- floor arithmetic -----

  lemma {:induction false} FloorBounds(a: nat, d: nat)
    requires d > 0
    ensures a / d * d <= a < a / d * d + d
  {}

  lemma {:induction false} FactorBelow(x: int, d: nat)
    requires d > 0 && x * d < d
    ensures x <= 0
  {}

  lemma {:induction false} FloorUnique(a: nat, d: nat, q: nat)
    requires d > 0 && q * d <= a < q * d + d
    ensures a / d == q
  {
    FloorBounds(a, d);
    assert (q - a / d) * d == q * d - a / d * d;
    assert (a / d - q) * d == a / d * d - q * d;
    FactorBelow(q - a / d, d);
    FactorBelow(a / d - q, d);
  }

  lemma {:induction false} FloorMonotone(a: nat, b: nat, d: nat)
    requires d > 0 && a <= b
    ensures a / d <= b / d
  {
    FloorBounds(a, d);
    FloorBounds(b, d);
    assert (a / d - b / d) * d == a / d * d - b / d * d;
    FactorBelow(a / d - b / d, d);
  }

  function CountPositive(ms: seq<PplnsMember>): nat {
    if ms == [] then 0 else (if ms[0].weight > 0 then 1 else 0) + CountPositive(ms[1..])
  }

  /** Flooring each share loses less than one sat per member with positive weight. */
  lemma {:induction false} SharesBound(ms: seq<PplnsMember>, remaining: nat, total: int)
    requires NonNegative(ms) && total > 0
    ensures total * SumShares(ms, remaining, total) <= remaining * TotalWeight(ms)
    ensures remaining * TotalWeight(ms) <= total * SumShares(ms, remaining, total) + (total - 1) * CountPositive(ms)
  {
    if ms != [] {
      var w, rest := ms[0].weight, ms[1..];
      assert remaining * w >= 0;
      FloorBounds(remaining * w, total);
      SharesBound(rest, remaining, total);
      OneMoreShare(total, remaining, w, remaining * w / total, SumShares(rest, remaining, total), TotalWeight(rest),
        CountPositive(rest));
    }
  }

  lemma {:induction false} OneMoreShare(total: nat, remaining: nat, w: nat, s: nat, sum: nat, weight: int, n: nat)
    requires total > 0 && s * total <= remaining * w < s * total + total
    requires total * sum <= remaining * weight <= total * sum + (total - 1) * n
    ensures total * (s + sum) <= remaining * (w + weight)
    ensures remaining * (w + weight) <= total * (s + sum) + (total - 1) * ((if w > 0 then 1 else 0) + n)
  {
    assert total * (s + sum) == s * total + total * sum;
    assert remaining * (w + weight) == remaining * w + remaining * weight;
    if w > 0 {
      assert (total - 1) * (1 + n) == (total - 1) + (total - 1) * n;
    } else {
      assert remaining * w == 0;
    }
  }

  /** With positive total weight the rounding remainder is non-negative and smaller than the
      number of members with positive weight. */
  lemma {:induction false} RemainderBound(ms: seq<PplnsMember>, remaining: nat)
    requires NonNegative(ms) && TotalWeight(ms) > 0
    ensures 0 <= Remainder(ms, remaining, TotalWeight(ms)) < CountPositive(ms)
  {
    var total := TotalWeight(ms);
    var sum, n := SumShares(ms, remaining, total), CountPositive(ms);
    SharesBound(ms, remaining, total);
    PositiveTotalHasMember(ms);
    BetweenMultiples(total, remaining, sum, n);
  }

  lemma {:induction false} BetweenMultiples(total: nat, remaining: nat, sum: nat, n: nat)
    requires total > 0 && n > 0 && total * sum <= remaining * total <= total * sum + (total - 1) * n
    ensures 0 <= remaining - sum < n
  {
    assert total * (sum - remaining) <= 0;
    assert total * (remaining - sum - n) + n <= 0;
  }

  lemma PositiveTotalHasMember(ms: seq<PplnsMember>)
    requires NonNegative(ms) && TotalWeight(ms) > 0
    ensures CountPositive(ms) > 0
  {}

  // ----- the builder -----

  /** The pieces the outputs are put together from. */
  datatype Parts = Parts(members: seq<CoinbaseOutput>, dust: seq<DustEntry>, bucket: nat, operatorSats: nat,
                         platformSats: nat)

  function PartsOf(p: PplnsInput, f: FeeSplit): Parts
    requires InputOk(p)
  {
    var total := TotalWeight(p.members);
    TotalNonNegative(p.members);
    if total == 0 then Parts([], [], f.remaining, f.operatorFee, f.platformFee)
    else
      RemainderBound(p.members, f.remaining);
      var dust := DustEntries(p.members, f.remaining, total, p.dustThreshold);
      var rem := Remainder(p.members, f.remaining, total);
      Parts(MemberOutputs(p.members, f.remaining, total, p.dustThreshold), dust,
            if dust != [] then SumOwed(dust) + rem else 0,
            if dust != [] then f.operatorFee else f.operatorFee + rem,
            f.platformFee)
  }

  function Build(p: PplnsInput): Result<PplnsResult> {
    if !InputOk(p) then Failure("invalid input")
    else match SplitFees(p.fees)
      case Failure(e) => Failure(e)
      case Success(f) =>
        var parts := PartsOf(p, f);
        Success(PplnsResult(parts.members + Tail(p, parts.bucket, parts.operatorSats, parts.platformSats), parts.dust))
  }

  lemma TotalNonNegative(ms: seq<PplnsMember>)
    requires NonNegative(ms)
    ensures TotalWeight(ms) >= 0
  {}

  /** validatePplnsInput: the first violation found, or None. */
  method ValidatePplnsInput(p: PplnsInput) returns (error: Option<string>)
    ensures error == None <==> InputOk(p)
  {
    if p.operator == "" { return Some("operatorBtcAddress required"); }
    if p.platform == "" { return Some("platformBtcAddress required"); }
    if p.dustThreshold < 0 { return Some("dustThresholdSats must be non-negative"); }
    var i := 1;
    while i < |p.members|
      invariant i >= 1 && forall j :: 1 <= j < i && j < |p.members| ==> InOrder(p.members, j)
    {
      if !InOrder(p.members, i) { return Some("members must be sorted ascending by memberPubkey"); }
      i := i + 1;
    }
    for i := 0 to |p.members|
      invariant forall m :: m in p.members[..i] ==> m.weight >= 0 && m.address != ""
    {
      var m := p.members[i];
      if m.weight < 0 { return Some("shareWeight must be non-negative"); }
      if m.address == "" { return Some("btcAddress required"); }
    }
    assert p.members[..|p.members|] == p.members;
    return None;
  }

  method SumWeights(ms: seq<PplnsMember>) returns (total: int)
    ensures total == TotalWeight(ms)
  {
    total := 0;
    for i := 0 to |ms|
      invariant total + TotalWeight(ms[i..]) == TotalWeight(ms)
    {
      assert ms[i..][0] == ms[i] && ms[i..][1..] == ms[i + 1..];
      total := total + ms[i].weight;
    }
  }

  /** The member loop of the builder, with its running totals. */
  method SplitMembers(ms: seq<PplnsMember>, remaining: nat, total: int, threshold: int)
    returns (outputs: seq<CoinbaseOutput>, dust: seq<DustEntry>, bucket: nat, allotted: nat)
    requires NonNegative(ms) && total > 0
    ensures outputs == MemberOutputs(ms, remaining, total, threshold)
    ensures dust == DustEntries(ms, remaining, total, threshold)
    ensures bucket == SumOwed(dust)
    ensures threshold >= 0 ==> allotted == SumShares(ms, remaining, total)
  {
    outputs, dust, bucket, allotted := [], [], 0, 0;
    for i := 0 to |ms|
      invariant outputs + MemberOutputs(ms[i..], remaining, total, threshold)
        == MemberOutputs(ms, remaining, total, threshold)
      invariant dust + DustEntries(ms[i..], remaining, total, threshold) == DustEntries(ms, remaining, total, threshold)
      invariant bucket == SumOwed(dust)
      invariant threshold >= 0 ==> allotted + SumShares(ms[i..], remaining, total) == SumShares(ms, remaining, total)
    {
      assert ms[i..][0] == ms[i] && ms[i..][1..] == ms[i + 1..];
      var s := Share(remaining, ms[i].weight, total);
      ConcatAssociative(outputs, OwnOutput(ms[i], s, threshold),
                        MemberOutputs(ms[i + 1..], remaining, total, threshold));
      ConcatAssociative(dust, OwnEntry(ms[i], s, threshold), DustEntries(ms[i + 1..], remaining, total, threshold));
      assert outputs + [] == outputs && dust + [] == dust;
      if s >= threshold {
        outputs := outputs + [CoinbaseOutput(ms[i].address, s, Member, Some(ms[i].pubkey))];
        allotted := allotted + s;
      } else if s > 0 {
        SumOwedConcat(dust, [DustEntry(ms[i].pubkey, s)]);
        bucket, dust := bucket + s, dust + [DustEntry(ms[i].pubkey, s)];
        allotted := allotted + s;
      }
    }
  }

  method BuildPplnsCoinbase(p: PplnsInput) returns (r: Result<PplnsResult>)
    ensures r.Success? <==> Build(p).Success?
    ensures r.Success? ==> r == Build(p)
  {
    var error := ValidatePplnsInput(p);
    if error.Some? { return Failure(error.value); }
    var split := SplitFees(p.fees);
    if split.Failure? { return Failure(split.error); }
    var f := split.value;
    var total := SumWeights(p.members);
    TotalNonNegative(p.members);
    if total == 0 {
      var outputs := Tail(p, f.remaining, f.operatorFee, f.platformFee);
      assert [] + outputs == outputs;
      return Success(PplnsResult(outputs, []));
    }
    var outputs, dust, bucket, allotted := SplitMembers(p.members, f.remaining, total, p.dustThreshold);
    RemainderBound(p.members, f.remaining);
    var remainder := f.remaining - allotted;
    var operatorSats := f.operatorFee;
    if |dust| > 0 {
      bucket := bucket + remainder;
    } else {
      operatorSats := operatorSats + remainder;
    }
    return Success(PplnsResult(outputs + Tail(p, bucket, operatorSats, f.platformFee), dust));
  }
}
