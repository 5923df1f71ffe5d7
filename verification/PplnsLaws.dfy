/** What the PPLNS builder promises: conservation, exact fees, the dust bucket, and fairness. */
module PplnsLaws {
  import opened Shared
  import opened Fees
  import opened Pplns

  function FeesOf(p: PplnsInput): FeeSplit
    requires Build(p).Success?
  {
    SplitFees(p.fees).value
  }

  /** All sats of a kind. */
  function SatsOf(outs: seq<CoinbaseOutput>, kind: OutputKind): nat {
    if outs == [] then 0 else (if outs[0].kind == kind then outs[0].sats else 0) + SatsOf(outs[1..], kind)
  }

  lemma SatsOfConcat(a: seq<CoinbaseOutput>, b: seq<CoinbaseOutput>, kind: OutputKind)
    ensures SatsOf(a + b, kind) == SatsOf(a, kind) + SatsOf(b, kind)
  {
    if a == [] {
      assert a + b == b;
    } else {
      assert (a + b)[1..] == a[1..] + b;
    }
  }

  // ----- conservation -----

  lemma {:induction false} MembersConserve(ms: seq<PplnsMember>, remaining: nat, total: int, threshold: int)
    requires NonNegative(ms) && total > 0 && threshold >= 0
    ensures SumSats(MemberOutputs(ms, remaining, total, threshold))
      + SumOwed(DustEntries(ms, remaining, total, threshold))
      == SumShares(ms, remaining, total)
  {
    if ms != [] {
      var s := Share(remaining, ms[0].weight, total);
      MembersConserve(ms[1..], remaining, total, threshold);
      SumSatsConcat(OwnOutput(ms[0], s, threshold), MemberOutputs(ms[1..], remaining, total, threshold));
      SumOwedConcat(OwnEntry(ms[0], s, threshold), DustEntries(ms[1..], remaining, total, threshold));
    }
  }

  lemma {:induction false} TailSum(p: PplnsInput, bucket: nat, operatorSats: nat, platformSats: nat)
    ensures SumSats(Tail(p, bucket, operatorSats, platformSats)) == bucket + operatorSats + platformSats
  {
    var a, b := Paid(p.operator, bucket, DustBucket), Paid(p.operator, operatorSats, OperatorFee);
    var c := Paid(p.platform, platformSats, PlatformFee);
    SumSatsConcat(a + b, c);
    SumSatsConcat(a, b);
  }

  lemma {:induction false} TailKinds(p: PplnsInput, bucket: nat, operatorSats: nat, platformSats: nat, kind: OutputKind)
    ensures SatsOf(Tail(p, bucket, operatorSats, platformSats), kind)
      == match kind
         case DustBucket => bucket
         case OperatorFee => operatorSats
         case PlatformFee => platformSats
         case Member => 0
  {
    var a, b := Paid(p.operator, bucket, DustBucket), Paid(p.operator, operatorSats, OperatorFee);
    var c := Paid(p.platform, platformSats, PlatformFee);
    SatsOfConcat(a + b, c, kind);
    SatsOfConcat(a, b, kind);
  }

  lemma {:induction false} MemberOutputsAreMembers(ms: seq<PplnsMember>, remaining: nat, total: int, threshold: int,
                                                   kind: OutputKind)
    requires NonNegative(ms) && total > 0
    ensures var outs := MemberOutputs(ms, remaining, total, threshold);
      SatsOf(outs, kind) == if kind == Member then SumSats(outs) else 0
  {
    if ms != [] {
      var own := OwnOutput(ms[0], Share(remaining, ms[0].weight, total), threshold);
      MemberOutputsAreMembers(ms[1..], remaining, total, threshold, kind);
      SatsOfConcat(own, MemberOutputs(ms[1..], remaining, total, threshold), kind);
      SumSatsConcat(own, MemberOutputs(ms[1..], remaining, total, threshold));
    }
  }

  /** What the outputs of each kind carry. */
  lemma {:induction false} KindTotals(p: PplnsInput, kind: OutputKind)
    requires Build(p).Success?
    ensures var parts := PartsOf(p, FeesOf(p));
      SatsOf(Build(p).value.outputs, kind)
      == match kind
         case Member => SumSats(parts.members)
         case DustBucket => parts.bucket
         case OperatorFee => parts.operatorSats
         case PlatformFee => parts.platformSats
  {
    var parts, total := PartsOf(p, FeesOf(p)), TotalWeight(p.members);
    TotalNonNegative(p.members);
    if total > 0 { MemberOutputsAreMembers(p.members, FeesOf(p).remaining, total, p.dustThreshold, kind); }
    TailKinds(p, parts.bucket, parts.operatorSats, parts.platformSats, kind);
    SatsOfConcat(parts.members, Tail(p, parts.bucket, parts.operatorSats, parts.platformSats), kind);
  }

  lemma {:induction false} PartsConserve(p: PplnsInput, f: FeeSplit)
    requires InputOk(p)
    ensures var parts := PartsOf(p, f);
      SumSats(parts.members) + parts.bucket + parts.operatorSats == f.remaining + f.operatorFee
        && parts.platformSats == f.platformFee
  {
    var total := TotalWeight(p.members);
    TotalNonNegative(p.members);
    if total > 0 {
      RemainderBound(p.members, f.remaining);
      MembersConserve(p.members, f.remaining, total, p.dustThreshold);
    }
  }

  /** The outputs add up to the reward exactly, and the platform is paid exactly its floor,
      for every valid input, with or without any weight in the window. */
  lemma {:induction false} OutputsConserveReward(p: PplnsInput)
    requires Build(p).Success?
    ensures SumSats(Build(p).value.outputs) == p.fees.reward
    ensures FloorBps(SatsOf(Build(p).value.outputs, PlatformFee), p.fees.reward, p.fees.platformBps)
  {
    var parts := PartsOf(p, FeesOf(p));
    PartsConserve(p, FeesOf(p));
    TailSum(p, parts.bucket, parts.operatorSats, parts.platformSats);
    SumSatsConcat(parts.members, Tail(p, parts.bucket, parts.operatorSats, parts.platformSats));
    KindTotals(p, PlatformFee);
  }

  /** With weight in the window: the dust bucket holds the breakdown plus the rounding remainder
      when anyone is owed dust, and otherwise there is no bucket and the operator's output
      absorbs the remainder; the remainder is less than one sat per member with weight. */
  lemma {:induction false} BucketHoldsBreakdown(p: PplnsInput)
    requires Build(p).Success? && TotalWeight(p.members) > 0
    ensures var r, f := Build(p).value, FeesOf(p);
      var rem := Remainder(p.members, f.remaining, TotalWeight(p.members));
      && 0 <= rem < CountPositive(p.members)
      && SatsOf(r.outputs, DustBucket) == (if r.dust != [] then SumOwed(r.dust) + rem else 0)
      && SatsOf(r.outputs, OperatorFee) == (if r.dust != [] then f.operatorFee else f.operatorFee + rem)
      && SatsOf(r.outputs, Member) + SumOwed(r.dust) + rem == f.remaining
  {
    var f, total := FeesOf(p), TotalWeight(p.members);
    RemainderBound(p.members, f.remaining);
    KindTotals(p, DustBucket);
    KindTotals(p, OperatorFee);
    KindTotals(p, Member);
    MembersConserve(p.members, f.remaining, total, p.dustThreshold);
  }

  // ----- who is credited what -----

  function CreditOut(outs: seq<CoinbaseOutput>, pk: string): nat {
    if outs == [] then 0 else (if outs[0].pubkey == Some(pk) then outs[0].sats else 0) + CreditOut(outs[1..], pk)
  }

  function CreditOwed(dust: seq<DustEntry>, pk: string): nat {
    if dust == [] then 0 else (if dust[0].pubkey == pk then dust[0].owed else 0) + CreditOwed(dust[1..], pk)
  }

  /** Everything a member receives: coinbase outputs in their name and dust owed to them. */
  function Credit(r: PplnsResult, pk: string): nat {
    CreditOut(r.outputs, pk) + CreditOwed(r.dust, pk)
  }

  lemma CreditOutConcat(a: seq<CoinbaseOutput>, b: seq<CoinbaseOutput>, pk: string)
    ensures CreditOut(a + b, pk) == CreditOut(a, pk) + CreditOut(b, pk)
  {
    if a == [] {
      assert a + b == b;
    } else {
      assert (a + b)[1..] == a[1..] + b;
    }
  }

  lemma CreditOwedConcat(a: seq<DustEntry>, b: seq<DustEntry>, pk: string)
    ensures CreditOwed(a + b, pk) == CreditOwed(a, pk) + CreditOwed(b, pk)
  {
    if a == [] {
      assert a + b == b;
    } else {
      assert (a + b)[1..] == a[1..] + b;
    }
  }

  function SharesNamed(ms: seq<PplnsMember>, remaining: nat, total: int, pk: string): nat
    requires NonNegative(ms) && total > 0
  {
    if ms == [] then 0
    else
      (if ms[0].pubkey == pk then Share(remaining, ms[0].weight, total) else 0)
      + SharesNamed(ms[1..], remaining, total, pk)
  }

  lemma {:induction false} CreditIsNamedShares(ms: seq<PplnsMember>, remaining: nat, total: int, threshold: int,
                                               pk: string)
    requires NonNegative(ms) && total > 0 && threshold >= 0
    ensures CreditOut(MemberOutputs(ms, remaining, total, threshold), pk)
      + CreditOwed(DustEntries(ms, remaining, total, threshold), pk)
      == SharesNamed(ms, remaining, total, pk)
  {
    if ms != [] {
      var s := Share(remaining, ms[0].weight, total);
      CreditIsNamedShares(ms[1..], remaining, total, threshold, pk);
      CreditOutConcat(OwnOutput(ms[0], s, threshold), MemberOutputs(ms[1..], remaining, total, threshold), pk);
      CreditOwedConcat(OwnEntry(ms[0], s, threshold), DustEntries(ms[1..], remaining, total, threshold), pk);
    }
  }

  ghost predicate DistinctMembers(ms: seq<PplnsMember>) {
    forall i, j :: 0 <= i < j < |ms| ==> ms[i].pubkey != ms[j].pubkey
  }

  lemma {:induction false} AscendingDistinct(ms: seq<PplnsMember>)
    requires Ascending(ms)
    ensures DistinctMembers(ms)
  {
    forall i, j | 0 <= i < j < |ms| ensures ms[i].pubkey != ms[j].pubkey { AscendingPairs(ms, i, j); }
  }

  lemma {:induction false} NobodyNamed(ms: seq<PplnsMember>, remaining: nat, total: int, pk: string)
    requires NonNegative(ms) && total > 0 && forall m :: m in ms ==> m.pubkey != pk
    ensures SharesNamed(ms, remaining, total, pk) == 0
  {
    if ms != [] { NobodyNamed(ms[1..], remaining, total, pk); }
  }

  lemma {:induction false} OneNamed(ms: seq<PplnsMember>, remaining: nat, total: int, i: nat)
    requires NonNegative(ms) && total > 0 && DistinctMembers(ms) && i < |ms|
    ensures SharesNamed(ms, remaining, total, ms[i].pubkey) == Share(remaining, ms[i].weight, total)
  {
    if i == 0 {
      NobodyNamed(ms[1..], remaining, total, ms[0].pubkey);
    } else {
      OneNamed(ms[1..], remaining, total, i - 1);
    }
  }

  lemma {:induction false} TailCreditsNobody(p: PplnsInput, bucket: nat, operatorSats: nat, platformSats: nat,
                                             pk: string)
    ensures CreditOut(Tail(p, bucket, operatorSats, platformSats), pk) == 0
  {
    var a, b := Paid(p.operator, bucket, DustBucket), Paid(p.operator, operatorSats, OperatorFee);
    var c := Paid(p.platform, platformSats, PlatformFee);
    CreditOutConcat(a + b, c, pk);
    CreditOutConcat(a, b, pk);
  }

  /** Whether paid on chain or out of the bucket, a member's credit is their floored proportion. */
  lemma {:induction false} CreditIsShare(p: PplnsInput, m: PplnsMember)
    requires Build(p).Success? && m in p.members && TotalWeight(p.members) > 0
    ensures Credit(Build(p).value, m.pubkey) == Share(FeesOf(p).remaining, m.weight, TotalWeight(p.members))
  {
    var f, total, parts := FeesOf(p), TotalWeight(p.members), PartsOf(p, FeesOf(p));
    var i :| 0 <= i < |p.members| && p.members[i] == m;
    AscendingDistinct(p.members);
    OneNamed(p.members, f.remaining, total, i);
    CreditIsNamedShares(p.members, f.remaining, total, p.dustThreshold, m.pubkey);
    TailCreditsNobody(p, parts.bucket, parts.operatorSats, parts.platformSats, m.pubkey);
    CreditOutConcat(parts.members, Tail(p, parts.bucket, parts.operatorSats, parts.platformSats), m.pubkey);
  }

  /** A member is paid on chain or owed dust, never both. */
  lemma {:induction false} OnChainAndDustDisjoint(p: PplnsInput, o: CoinbaseOutput, d: DustEntry)
    requires Build(p).Success? && o in Build(p).value.outputs && d in Build(p).value.dust
    ensures o.pubkey != Some(d.pubkey)
    ensures 0 < d.owed < p.dustThreshold && (o.kind == Member ==> o.sats >= p.dustThreshold)
  {
    var f, total, parts := FeesOf(p), TotalWeight(p.members), PartsOf(p, FeesOf(p));
    TotalNonNegative(p.members);
    var j := DustEntryFrom(p.members, f.remaining, total, p.dustThreshold, d);
    if o in parts.members {
      var i := MemberOutputFrom(p.members, f.remaining, total, p.dustThreshold, o);
      AscendingDistinct(p.members);
    } else {
      assert o in Tail(p, parts.bucket, parts.operatorSats, parts.platformSats);
    }
  }

  lemma {:induction false} DustEntryFrom(ms: seq<PplnsMember>, remaining: nat, total: int, threshold: int, d: DustEntry)
    returns (i: nat)
    requires NonNegative(ms) && total > 0 && d in DustEntries(ms, remaining, total, threshold)
    ensures i < |ms| && d.pubkey == ms[i].pubkey && d.owed == Share(remaining, ms[i].weight, total)
      && 0 < d.owed < threshold
  {
    if d in OwnEntry(ms[0], Share(remaining, ms[0].weight, total), threshold) {
      i := 0;
    } else {
      i := DustEntryFrom(ms[1..], remaining, total, threshold, d);
      i := i + 1;
    }
  }

  lemma {:induction false} MemberOutputFrom(ms: seq<PplnsMember>, remaining: nat, total: int, threshold: int,
                                            o: CoinbaseOutput)
    returns (i: nat)
    requires NonNegative(ms) && total > 0 && o in MemberOutputs(ms, remaining, total, threshold)
    ensures i < |ms| && o.pubkey == Some(ms[i].pubkey) && o.address == ms[i].address && o.kind == Member
    ensures o.sats == Share(remaining, ms[i].weight, total) && o.sats >= threshold
  {
    if o in OwnOutput(ms[0], Share(remaining, ms[0].weight, total), threshold) {
      i := 0;
    } else {
      i := MemberOutputFrom(ms[1..], remaining, total, threshold, o);
      i := i + 1;
    }
  }

  // ----- fairness -----

  /** A heavier member is never credited less. */
  lemma {:induction false} HeavierIsCreditedMore(p: PplnsInput, a: PplnsMember, b: PplnsMember)
    requires Build(p).Success? && a in p.members && b in p.members && a.weight <= b.weight
    requires TotalWeight(p.members) > 0
    ensures Credit(Build(p).value, a.pubkey) <= Credit(Build(p).value, b.pubkey)
  {
    CreditIsShare(p, a);
    CreditIsShare(p, b);
    ShareMonotone(FeesOf(p).remaining, a.weight, b.weight, TotalWeight(p.members));
  }

  lemma {:induction false} ShareMonotone(remaining: nat, v: nat, w: nat, total: nat)
    requires total > 0 && v <= w
    ensures Share(remaining, v, total) <= Share(remaining, w, total)
  {
    assert remaining * v <= remaining * w;
    FloorMonotone(remaining * v, remaining * w, total);
  }

  function Scaled(ms: seq<PplnsMember>, c: int): seq<PplnsMember> {
    seq(|ms|, i requires 0 <= i < |ms| => ms[i].(weight := c * ms[i].weight))
  }

  lemma {:induction false} ScaledBounds(c: nat, a: nat, q: nat, total: nat)
    requires c > 0 && q * total <= a < q * total + total
    ensures q * (c * total) <= c * a < q * (c * total) + c * total
  {
    assert c * (q * total) == q * (c * total);
    assert c * (q * total + total) == c * (q * total) + c * total;
    assert c * (a - q * total) >= 0;
    assert c * (q * total + total - a) > 0;
  }

  lemma {:induction false} ShareScales(remaining: nat, w: nat, total: nat, c: nat)
    requires total > 0 && c > 0
    ensures c * w >= 0 && c * total > 0 && Share(remaining, c * w, c * total) == Share(remaining, w, total)
  {
    var a, q := remaining * w, Share(remaining, w, total);
    FloorBounds(a, total);
    assert c * w >= 0 && c * total > 0;
    assert remaining * (c * w) == c * a;
    ScaledBounds(c, a, q, total);
    FloorUnique(c * a, c * total, q);
  }

  lemma {:induction false} ScaledTotals(ms: seq<PplnsMember>, c: nat)
    ensures TotalWeight(Scaled(ms, c)) == c * TotalWeight(ms)
  {
    if ms != [] {
      assert Scaled(ms, c)[1..] == Scaled(ms[1..], c);
      ScaledTotals(ms[1..], c);
      assert c * (ms[0].weight + TotalWeight(ms[1..])) == c * ms[0].weight + c * TotalWeight(ms[1..]);
    }
  }

  lemma {:induction false} ScaledPieces(ms: seq<PplnsMember>, remaining: nat, total: nat, threshold: int, c: nat)
    requires NonNegative(ms) && total > 0 && c > 0
    ensures NonNegative(Scaled(ms, c)) && c * total > 0
    ensures MemberOutputs(Scaled(ms, c), remaining, c * total, threshold)
      == MemberOutputs(ms, remaining, total, threshold)
    ensures DustEntries(Scaled(ms, c), remaining, c * total, threshold) == DustEntries(ms, remaining, total, threshold)
    ensures SumShares(Scaled(ms, c), remaining, c * total) == SumShares(ms, remaining, total)
  {
    assert c * total > 0;
    assert forall m :: m in ms ==> c * m.weight >= 0;
    if ms != [] {
      assert Scaled(ms, c)[1..] == Scaled(ms[1..], c);
      ScaledPieces(ms[1..], remaining, total, threshold, c);
      ShareScales(remaining, ms[0].weight, total, c);
    }
  }

  lemma {:induction false} ScaledInputOk(p: PplnsInput, c: nat)
    requires InputOk(p) && c > 0
    ensures InputOk(p.(members := Scaled(p.members, c)))
  {
    var ms := p.members;
    assert forall i :: 1 <= i < |ms| ==> InOrder(ms, i) ==> InOrder(Scaled(ms, c), i);
    assert forall m :: m in ms ==> c * m.weight >= 0;
  }

  lemma {:induction false} ScaledParts(p: PplnsInput, c: nat, f: FeeSplit)
    requires InputOk(p) && c > 0
    ensures InputOk(p.(members := Scaled(p.members, c)))
    ensures PartsOf(p.(members := Scaled(p.members, c)), f) == PartsOf(p, f)
  {
    ScaledInputOk(p, c);
    ScaledTotals(p.members, c);
    TotalNonNegative(p.members);
    if TotalWeight(p.members) > 0 { ScaledPieces(p.members, f.remaining, TotalWeight(p.members), p.dustThreshold, c); }
  }

  /** Scaling every weight by the same positive factor leaves the whole result identical. */
  lemma {:induction false} ScalingChangesNothing(p: PplnsInput, c: nat)
    requires Build(p).Success? && c > 0
    ensures Build(p.(members := Scaled(p.members, c))) == Build(p)
  {
    ScaledParts(p, c, FeesOf(p));
  }

  lemma {:induction false} ShareOfSum(remaining: nat, a: nat, b: nat, total: nat)
    requires total > 0
    ensures var x, y, z := Share(remaining, a, total), Share(remaining, b, total), Share(remaining, a + b, total);
      x + y <= z <= x + y + 1
  {
    var u, v := remaining * a, remaining * b;
    assert remaining * (a + b) == u + v;
    FloorBounds(u, total);
    FloorBounds(v, total);
    FloorBounds(u + v, total);
    var x, y, z := u / total, v / total, (u + v) / total;
    assert (x + y - z) * total == x * total + y * total - z * total;
    FactorBelow(x + y - z, total);
    assert (z - x - y - 1) * total == z * total - x * total - y * total - total;
    FactorBelow(z - x - y - 1, total);
  }

  lemma {:induction false} SharesOfParts(parts: seq<PplnsMember>, remaining: nat, total: nat)
    requires NonNegative(parts) && total > 0 && parts != []
    ensures TotalWeight(parts) >= 0
    ensures var s := SumShares(parts, remaining, total);
      s <= Share(remaining, TotalWeight(parts), total) <= s + |parts| - 1
  {
    TotalNonNegative(parts[1..]);
    if |parts| == 1 {
      assert parts[1..] == [];
    } else {
      SharesOfParts(parts[1..], remaining, total);
      ShareOfSum(remaining, parts[0].weight, TotalWeight(parts[1..]), total);
    }
  }

  function SumCredits(r: PplnsResult, ms: seq<PplnsMember>): nat {
    if ms == [] then 0 else Credit(r, ms[0].pubkey) + SumCredits(r, ms[1..])
  }

  lemma {:induction false} CreditsAreShares(p: PplnsInput, ms: seq<PplnsMember>)
    requires Build(p).Success? && TotalWeight(p.members) > 0 && forall m :: m in ms ==> m in p.members
    ensures SumCredits(Build(p).value, ms) == SumShares(ms, FeesOf(p).remaining, TotalWeight(p.members))
  {
    if ms != [] {
      CreditIsShare(p, ms[0]);
      CreditsAreShares(p, ms[1..]);
    }
  }

  /** Splitting a member into k with the same total weight never raises their total credit, and
      lowers it by at most k - 1 sats; nobody else's credit moves. */
  lemma {:induction false} SplittingNeverPays(a: PplnsInput, b: PplnsInput, m: PplnsMember, parts: seq<PplnsMember>)
    requires Build(a).Success? && Build(b).Success? && a.fees == b.fees
    requires TotalWeight(a.members) == TotalWeight(b.members) > 0
    requires m in a.members && parts != [] && TotalWeight(parts) == m.weight
      && forall x :: x in parts ==> x in b.members
    ensures var whole, split := Credit(Build(a).value, m.pubkey), SumCredits(Build(b).value, parts);
      split <= whole <= split + |parts| - 1
    ensures forall x :: x in a.members && x in b.members ==>
      Credit(Build(a).value, x.pubkey) == Credit(Build(b).value, x.pubkey)
  {
    CreditIsShare(a, m);
    CreditsAreShares(b, parts);
    SharesOfParts(parts, FeesOf(a).remaining, TotalWeight(a.members));
    forall x | x in a.members && x in b.members
      ensures Credit(Build(a).value, x.pubkey) == Credit(Build(b).value, x.pubkey)
    {
      CreditIsShare(a, x);
      CreditIsShare(b, x);
    }
  }
}
