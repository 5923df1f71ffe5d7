/** computePplnsWindow: recent shares summed per member, joined to addresses, sorted. */
module PplnsWindow {
  import opened Shared
  import opened Strings
  import opened Pplns

  datatype ShareRow = ShareRow(pubkey: string, difficulty: real)

  /** Math.round(difficulty * 1e6): halves round up. */
  function ScaledDifficulty(d: real): int {
    (d * 1_000_000.0 + 0.5).Floor
  }

  /** A share's weight; shares that round to nothing are skipped. */
  function ShareWeight(s: ShareRow): nat {
    if ScaledDifficulty(s.difficulty) > 0 then ScaledDifficulty(s.difficulty) else 0
  }

  function WeightOf(shares: seq<ShareRow>, pk: string): nat {
    if shares == [] then 0
    else (if shares[0].pubkey == pk then ShareWeight(shares[0]) else 0) + WeightOf(shares[1..], pk)
  }

  predicate Resolves(addr: map<string, string>, pk: string) {
    pk in addr && addr[pk] != ""
  }

  ghost predicate Listed(shares: seq<ShareRow>, addr: map<string, string>, m: PplnsMember) {
    Resolves(addr, m.pubkey) && m.address == addr[m.pubkey] && m.weight == WeightOf(shares, m.pubkey) > 0
  }

  /** The window result: every member with weight and an address, once, by ascending pubkey. */
  ghost predicate IsWindow(shares: seq<ShareRow>, addr: map<string, string>, ms: seq<PplnsMember>) {
    Ascending(ms) && forall m :: m in ms <==> Listed(shares, addr, m)
  }

  // ----- the builder -----

  /** Where `m` goes in a list that is already in order. */
  function Inserted(ms: seq<PplnsMember>, m: PplnsMember): seq<PplnsMember> {
    if ms == [] || Less(m.pubkey, ms[0].pubkey) then [m] + ms else [ms[0]] + Inserted(ms[1..], m)
  }

  lemma {:induction false} AscendingTail(ms: seq<PplnsMember>)
    requires Ascending(ms) && ms != []
    ensures Ascending(ms[1..])
  {
    forall i | 1 <= i < |ms[1..]| ensures InOrder(ms[1..], i) { assert InOrder(ms, i + 1); }
  }

  lemma {:induction false} AscendingCons(m: PplnsMember, ms: seq<PplnsMember>)
    requires Ascending(ms) && (ms != [] ==> Less(m.pubkey, ms[0].pubkey))
    ensures Ascending([m] + ms)
  {
    forall i | 1 <= i < |[m] + ms| ensures InOrder([m] + ms, i) {
      if i > 1 { assert InOrder(ms, i - 1); }
    }
  }

  lemma {:induction false} InsertedAscending(ms: seq<PplnsMember>, m: PplnsMember)
    requires Ascending(ms) && forall x :: x in ms ==> x.pubkey != m.pubkey
    ensures Ascending(Inserted(ms, m))
    ensures forall x :: x in Inserted(ms, m) <==> x == m || x in ms
    ensures Inserted(ms, m)[0] == m || (ms != [] && Inserted(ms, m)[0] == ms[0])
  {
    if ms == [] || Less(m.pubkey, ms[0].pubkey) {
      AscendingCons(m, ms);
    } else {
      LessTotal(m.pubkey, ms[0].pubkey);
      AscendingTail(ms);
      InsertedAscending(ms[1..], m);
      if |ms| > 1 { assert InOrder(ms, 1); }
      AscendingCons(ms[0], Inserted(ms[1..], m));
      assert ms == [ms[0]] + ms[1..];
    }
  }

  method Sort(ms: seq<PplnsMember>) returns (sorted: seq<PplnsMember>)
    requires forall i, j :: 0 <= i < j < |ms| ==> ms[i].pubkey != ms[j].pubkey
    ensures Ascending(sorted) && forall m :: m in sorted <==> m in ms
  {
    sorted := [];
    for i := 0 to |ms|
      invariant Ascending(sorted) && forall m :: m in sorted <==> m in ms[..i]
    {
      InsertedAscending(sorted, ms[i]);
      sorted := Inserted(sorted, ms[i]);
    }
    assert ms[..|ms|] == ms;
  }

  lemma WeightOfSnoc(shares: seq<ShareRow>, s: ShareRow, pk: string)
    ensures WeightOf(shares + [s], pk) == WeightOf(shares, pk) + (if s.pubkey == pk then ShareWeight(s) else 0)
  {
    if shares == [] {
      assert [] + [s] == [s];
    } else {
      assert (shares + [s])[1..] == shares[1..] + [s];
    }
  }

  /** Sums the shares per member, keeping only members with weight. */
  method SumPerMember(shares: seq<ShareRow>) returns (weights: map<string, int>)
    ensures forall pk :: pk in weights <==> WeightOf(shares, pk) > 0
    ensures forall pk :: pk in weights ==> weights[pk] == WeightOf(shares, pk)
  {
    weights := map[];
    for i := 0 to |shares|
      invariant forall pk :: pk in weights <==> WeightOf(shares[..i], pk) > 0
      invariant forall pk :: pk in weights ==> weights[pk] == WeightOf(shares[..i], pk)
    {
      var s := shares[i];
      assert shares[..i + 1] == shares[..i] + [s];
      forall pk
        ensures WeightOf(shares[..i + 1], pk)
          == WeightOf(shares[..i], pk) + (if s.pubkey == pk then ShareWeight(s) else 0)
      {
        WeightOfSnoc(shares[..i], s, pk);
      }
      var scaled := ScaledDifficulty(s.difficulty);
      if scaled > 0 {
        weights := weights[s.pubkey := (if s.pubkey in weights then weights[s.pubkey] else 0) + scaled];
      }
    }
    assert shares[..|shares|] == shares;
  }

  /** Keeps the members whose address resolves; the map yields its keys in any order. */
  method JoinAddresses(weights: map<string, int>, addr: map<string, string>) returns (ms: seq<PplnsMember>)
    ensures forall m :: m in ms <==>
      && m.pubkey in weights && Resolves(addr, m.pubkey) && m.address == addr[m.pubkey]
      && m.weight == weights[m.pubkey]
    ensures forall i, j :: 0 <= i < j < |ms| ==> ms[i].pubkey != ms[j].pubkey
  {
    ms := [];
    var rest := weights.Keys;
    while rest != {}
      invariant rest <= weights.Keys
      invariant forall m :: m in ms <==>
        && m.pubkey in weights && m.pubkey !in rest && Resolves(addr, m.pubkey)
        && m.address == addr[m.pubkey] && m.weight == weights[m.pubkey]
      invariant forall i, j :: 0 <= i < j < |ms| ==> ms[i].pubkey != ms[j].pubkey
      decreases |rest|
    {
      var pk :| pk in rest;
      rest := rest - {pk};
      if Resolves(addr, pk) {
        assert forall m :: m in ms ==> m.pubkey != pk;
        ms := ms + [PplnsMember(pk, addr[pk], weights[pk])];
      }
    }
  }

  /** `shares` are the group's shares, newest first; `addr` is the group's member table. */
  method ComputePplnsWindow(groupId: string, windowSize: int, shares: seq<ShareRow>, addr: map<string, string>)
    returns (r: Result<seq<PplnsMember>>)
    ensures r.Success? <==> windowSize > 0 && groupId != ""
    ensures r.Success? ==> IsWindow(if |shares| <= windowSize then shares else shares[..windowSize], addr, r.value)
  {
    if windowSize <= 0 { return Failure("windowSize must be a positive integer"); }
    if groupId == "" { return Failure("groupId required"); }
    var window := if |shares| <= windowSize then shares else shares[..windowSize];
    if |window| == 0 { return Success([]); }
    var weights := SumPerMember(window);
    if |weights| == 0 {
      assert forall pk :: pk !in weights;
      return Success([]);
    }
    var joined := JoinAddresses(weights, addr);
    var sorted := Sort(joined);
    return Success(sorted);
  }

  // ----- what the window promises -----

  /** The builder's member checks never reject a window. */
  lemma {:induction false} WindowPassesValidation(shares: seq<ShareRow>, addr: map<string, string>,
                                                  ms: seq<PplnsMember>)
    requires IsWindow(shares, addr, ms)
    ensures MembersOk(ms) && forall m :: m in ms ==> m.weight > 0
  {}

  lemma {:induction false} FirstIsIn<T>(s: seq<T>)
    requires s != []
    ensures s[0] in s
  {}

  lemma {:induction false} SameElementsSameOrder(a: seq<PplnsMember>, b: seq<PplnsMember>)
    requires Ascending(a) && Ascending(b) && forall m :: m in a <==> m in b
    ensures a == b
  {
    if a == [] {
      if b != [] {
        FirstIsIn(b);
        assert false;
      }
    } else if b == [] {
      FirstIsIn(a);
      assert false;
    } else {
      FirstIsLeast(a, b[0]);
      FirstIsLeast(b, a[0]);
      AscendingTail(a);
      AscendingTail(b);
      forall m ensures m in a[1..] <==> m in b[1..] {
        TailDropsFirst(a, m);
        TailDropsFirst(b, m);
      }
      SameElementsSameOrder(a[1..], b[1..]);
    }
  }

  lemma {:induction false} FirstIsLeast(ms: seq<PplnsMember>, m: PplnsMember)
    requires Ascending(ms) && m in ms
    ensures m == ms[0] || (Less(ms[0].pubkey, m.pubkey) && !Less(m.pubkey, ms[0].pubkey))
  {
    var i :| 0 <= i < |ms| && ms[i] == m;
    if i > 0 {
      AscendingPairs(ms, 0, i);
      LessAsymmetric(ms[0].pubkey, m.pubkey);
    }
  }

  lemma {:induction false} TailDropsFirst(ms: seq<PplnsMember>, m: PplnsMember)
    requires Ascending(ms) && ms != []
    ensures m in ms[1..] <==> m in ms && m != ms[0]
  {
    if m in ms[1..] {
      var i :| 0 <= i < |ms[1..]| && ms[1..][i] == m;
      AscendingPairs(ms, 0, i + 1);
    }
  }

  lemma {:induction false} WeightOfRemove(shares: seq<ShareRow>, i: nat, pk: string)
    requires i < |shares|
    ensures WeightOf(shares, pk) == (if shares[i].pubkey == pk then ShareWeight(shares[i]) else 0)
      + WeightOf(shares[..i] + shares[i + 1..], pk)
  {
    var rest := shares[..i] + shares[i + 1..];
    if i == 0 {
      assert rest == shares[1..];
    } else {
      WeightOfRemove(shares[1..], i - 1, pk);
      assert rest[1..] == shares[1..][..i - 1] + shares[1..][i..];
    }
  }

  lemma {:induction false} RemovedMultiset<T>(s: seq<T>, i: nat)
    requires i < |s|
    ensures multiset(s[..i] + s[i + 1..]) == multiset(s) - multiset{s[i]}
  {
    assert s == s[..i] + [s[i]] + s[i + 1..];
  }

  lemma {:induction false} PermutedRest<T>(a: seq<T>, b: seq<T>, i: nat)
    requires multiset(a) == multiset(b) && a != [] && i < |b| && b[i] == a[0]
    ensures multiset(a[1..]) == multiset(b[..i] + b[i + 1..])
  {
    RemovedMultiset(a, 0);
    RemovedMultiset(b, i);
    assert a[..0] + a[1..] == a[1..];
  }

  lemma {:induction false} PermutedHas<T>(a: seq<T>, b: seq<T>) returns (i: nat)
    requires multiset(a) == multiset(b) && a != []
    ensures i < |b| && b[i] == a[0]
  {
    assert a[0] in multiset(b);
    i :| 0 <= i < |b| && b[i] == a[0];
  }

  lemma {:induction false} WeightOfPermuted(a: seq<ShareRow>, b: seq<ShareRow>, pk: string)
    requires multiset(a) == multiset(b)
    ensures WeightOf(a, pk) == WeightOf(b, pk)
  {
    if a == [] {
      assert |multiset(b)| == |b|;
    } else {
      var i := PermutedHas(a, b);
      WeightOfRemove(b, i, pk);
      PermutedRest(a, b, i);
      WeightOfPermuted(a[1..], b[..i] + b[i + 1..], pk);
    }
  }

  /** The window is determined by the shares in it, not by their order: two runs over permuted
      shares, whatever order their maps iterate in, hand the builder the same list. */
  lemma {:induction false} WindowIgnoresOrder(a: seq<ShareRow>, b: seq<ShareRow>, addr: map<string, string>,
                                              x: seq<PplnsMember>, y: seq<PplnsMember>)
    requires multiset(a) == multiset(b) && IsWindow(a, addr, x) && IsWindow(b, addr, y)
    ensures x == y
  {
    forall m ensures m in x <==> m in y { WeightOfPermuted(a, b, m.pubkey); }
    SameElementsSameOrder(x, y);
  }

  function ResolvedWeight(shares: seq<ShareRow>, addr: map<string, string>): nat {
    if shares == [] then 0
    else (if Resolves(addr, shares[0].pubkey) then ShareWeight(shares[0]) else 0) + ResolvedWeight(shares[1..], addr)
  }

  function SumWeightOf(ms: seq<PplnsMember>, shares: seq<ShareRow>): nat {
    if ms == [] then 0 else WeightOf(shares, ms[0].pubkey) + SumWeightOf(ms[1..], shares)
  }

  /** How much one share adds to the sum over a list of members. */
  function Adds(ms: seq<PplnsMember>, s: ShareRow): nat {
    if ms == [] then 0 else (if ms[0].pubkey == s.pubkey then ShareWeight(s) else 0) + Adds(ms[1..], s)
  }

  lemma {:induction false} AddsOnce(ms: seq<PplnsMember>, s: ShareRow)
    requires Ascending(ms)
    ensures Adds(ms, s) == if exists m :: m in ms && m.pubkey == s.pubkey then ShareWeight(s) else 0
  {
    if ms != [] {
      AscendingTail(ms);
      AddsOnce(ms[1..], s);
      if ms[0].pubkey == s.pubkey {
        forall m | m in ms[1..] ensures m.pubkey != s.pubkey {
          var i :| 0 <= i < |ms[1..]| && ms[1..][i] == m;
          AscendingPairs(ms, 0, i + 1);
        }
      } else {
        assert forall m :: m in ms <==> m == ms[0] || m in ms[1..];
      }
    }
  }

  lemma {:induction false} SumWeightOfStep(ms: seq<PplnsMember>, shares: seq<ShareRow>)
    requires shares != []
    ensures SumWeightOf(ms, shares) == Adds(ms, shares[0]) + SumWeightOf(ms, shares[1..])
  {
    if ms != [] { SumWeightOfStep(ms[1..], shares); }
  }

  lemma {:induction false} SumOverShares(ms: seq<PplnsMember>, shares: seq<ShareRow>, addr: map<string, string>)
    requires Ascending(ms) && forall m :: m in ms ==> Resolves(addr, m.pubkey)
    requires forall s :: s in shares && Resolves(addr, s.pubkey) && ShareWeight(s) > 0 ==>
      exists m :: m in ms && m.pubkey == s.pubkey
    ensures SumWeightOf(ms, shares) == ResolvedWeight(shares, addr)
  {
    if shares == [] {
      NoSharesNoWeight(ms);
    } else {
      SumWeightOfStep(ms, shares);
      AddsOnce(ms, shares[0]);
      assert shares[0] in shares;
      SumOverShares(ms, shares[1..], addr);
    }
  }

  lemma NoSharesNoWeight(ms: seq<PplnsMember>)
    ensures SumWeightOf(ms, []) == 0
  {}

  lemma {:induction false} ShareGivesWeight(shares: seq<ShareRow>, s: ShareRow)
    requires s in shares
    ensures WeightOf(shares, s.pubkey) >= ShareWeight(s)
  {
    if s != shares[0] { ShareGivesWeight(shares[1..], s); }
  }

  /** The total weight handed to the builder is the scaled difficulty of exactly those shares
      whose member still resolves; departed members' weight is dropped, not spread into it. */
  lemma {:induction false} TotalIsResolvedWeight(shares: seq<ShareRow>, addr: map<string, string>, ms: seq<PplnsMember>)
    requires IsWindow(shares, addr, ms)
    ensures TotalWeight(ms) == ResolvedWeight(shares, addr)
  {
    forall s | s in shares && Resolves(addr, s.pubkey) && ShareWeight(s) > 0
      ensures exists m :: m in ms && m.pubkey == s.pubkey
    {
      ShareGivesWeight(shares, s);
      assert Listed(shares, addr, PplnsMember(s.pubkey, addr[s.pubkey], WeightOf(shares, s.pubkey)));
    }
    SumOverShares(ms, shares, addr);
    TotalIsSumWeightOf(ms, shares, addr, ms);
  }

  lemma {:induction false} TotalIsSumWeightOf(ms: seq<PplnsMember>, shares: seq<ShareRow>, addr: map<string, string>,
                                              all: seq<PplnsMember>)
    requires IsWindow(shares, addr, all) && forall m :: m in ms ==> m in all
    ensures TotalWeight(ms) == SumWeightOf(ms, shares)
  {
    if ms != [] {
      assert ms[0] in all;
      TotalIsSumWeightOf(ms[1..], shares, addr, all);
    }
  }

  // ----- weights against plain sums of difficulties -----

  /** A member's difficulties, summed up as they are. */
  function SumDifficulty(shares: seq<ShareRow>, pk: string): real {
    if shares == [] then 0.0
    else (if shares[0].pubkey == pk then shares[0].difficulty else 0.0) + SumDifficulty(shares[1..], pk)
  }

  function CountShares(shares: seq<ShareRow>, pk: string): nat {
    if shares == [] then 0 else (if shares[0].pubkey == pk then 1 else 0) + CountShares(shares[1..], pk)
  }

  /** `weight` is a million times `difficulty`, up to half a unit for each of `n` shares. */
  predicate Scales(weight: int, difficulty: real, n: nat) {
    -(n as real) / 2.0 <= weight as real - 1_000_000.0 * difficulty <= n as real / 2.0
  }

  /** A share is skipped exactly when its difficulty is below half a millionth, and else weighs a million
      times its difficulty, rounded. */
  lemma {:induction false} ShareWeighs(s: ShareRow)
    ensures ShareWeight(s) == 0 <==> s.difficulty < 0.0000005
    ensures s.difficulty >= 0.0 ==> Scales(ShareWeight(s), s.difficulty, 1)
  {}

  lemma {:induction false} WeightIsScaledSum(shares: seq<ShareRow>, pk: string)
    requires forall s :: s in shares ==> s.difficulty >= 0.0
    ensures Scales(WeightOf(shares, pk), SumDifficulty(shares, pk), CountShares(shares, pk))
  {
    if shares != [] {
      ShareWeighs(shares[0]);
      WeightIsScaledSum(shares[1..], pk);
    }
  }

  /** A listed member weighs a million times their summed difficulty, up to half a unit a share. */
  lemma {:induction false} MemberWeighsTheirShares(shares: seq<ShareRow>, addr: map<string, string>,
                                                   ms: seq<PplnsMember>, m: PplnsMember)
    requires IsWindow(shares, addr, ms) && m in ms && forall s :: s in shares ==> s.difficulty >= 0.0
    ensures Scales(m.weight, SumDifficulty(shares, m.pubkey), CountShares(shares, m.pubkey))
  {
    WeightIsScaledSum(shares, m.pubkey);
  }

  lemma {:induction false} NobodySkipped(shares: seq<ShareRow>, i: nat)
    requires i < |shares| && shares[i].difficulty >= 0.0000005
    ensures WeightOf(shares, shares[i].pubkey) > 0
  {
    ShareWeighs(shares[i]);
    ShareGivesWeight(shares, shares[i]);
  }

  lemma {:induction false} NothingWeighs(shares: seq<ShareRow>, pk: string)
    requires forall s :: s in shares && s.pubkey == pk ==> s.difficulty < 0.0000005
    ensures WeightOf(shares, pk) == 0
  {
    if shares != [] {
      ShareWeighs(shares[0]);
      assert forall s :: s in shares[1..] ==> s in shares;
      NothingWeighs(shares[1..], pk);
    }
  }

  /** A member is listed exactly if their address resolves and one of their shares has a difficulty of at
      least half a millionth. */
  lemma {:induction false} ListedExactly(shares: seq<ShareRow>, addr: map<string, string>, ms: seq<PplnsMember>,
                                         pk: string)
    requires IsWindow(shares, addr, ms)
    ensures (exists m :: m in ms && m.pubkey == pk) <==>
      pk in addr && addr[pk] != "" && exists s :: s in shares && s.pubkey == pk && s.difficulty >= 0.0000005
  {
    if exists s :: s in shares && s.pubkey == pk && s.difficulty >= 0.0000005 {
      var i :| 0 <= i < |shares| && shares[i].pubkey == pk && shares[i].difficulty >= 0.0000005;
      NobodySkipped(shares, i);
      if Resolves(addr, pk) { assert Listed(shares, addr, PplnsMember(pk, addr[pk], WeightOf(shares, pk))); }
    } else {
      NothingWeighs(shares, pk);
    }
  }

  // ----- the total -----

  function ResolvedDifficulty(shares: seq<ShareRow>, addr: map<string, string>): real {
    if shares == [] then 0.0
    else
      (if shares[0].pubkey in addr && addr[shares[0].pubkey] != "" then shares[0].difficulty else 0.0)
      + ResolvedDifficulty(shares[1..], addr)
  }

  lemma {:induction false} ResolvedWeightScales(shares: seq<ShareRow>, addr: map<string, string>)
    requires forall s :: s in shares ==> s.difficulty >= 0.0
    ensures Scales(ResolvedWeight(shares, addr), ResolvedDifficulty(shares, addr), |shares|)
  {
    if shares != [] {
      ShareWeighs(shares[0]);
      ResolvedWeightScales(shares[1..], addr);
    }
  }

  /** The total weight is a million times the difficulty of the shares whose member resolves, up to half
      a unit a share. */
  lemma {:induction false} TotalWeighsTheWindow(shares: seq<ShareRow>, addr: map<string, string>, ms: seq<PplnsMember>)
    requires IsWindow(shares, addr, ms) && forall s :: s in shares ==> s.difficulty >= 0.0
    ensures Scales(TotalWeight(ms), ResolvedDifficulty(shares, addr), |shares|)
  {
    TotalIsResolvedWeight(shares, addr, ms);
    ResolvedWeightScales(shares, addr);
  }
}
