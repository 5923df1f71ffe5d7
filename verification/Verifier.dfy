/** The miner-side verifier: rebuild a job's coinbase, parse its outputs, and check that they pay
    the configured address. */
module Verifier {
  import opened Shared
  import opened Bytes
  import opened Transaction

  // ----- coinbase.ts -----

  function LowerChar(c: char): char {
    if 'A' <= c <= 'Z' then (c as int + 32) as char else c
  }

  function Lower(s: string): string { seq(|s|, i requires 0 <= i < |s| => LowerChar(s[i])) }

  function ZeroHex(n: nat): string { seq(2 * n, _ => '0') }

  function ReconstructCoinbaseHex(coinbase1: string, extranonce1: string, extranonce2Size: int,
                                  coinbase2: string): Result<string>
  {
    if extranonce2Size < 0 || extranonce2Size > 64 then Failure("Implausible extranonce2_size")
    else Success(Lower(coinbase1 + extranonce1 + ZeroHex(extranonce2Size) + coinbase2))
  }

  function ParseCoinbaseOutputs(coinbaseHex: string): Result<seq<TxOut>> {
    match Parse(FromHex(coinbaseHex))
    case None => Failure("not a legacy transaction")
    case Some(tx) => Success(tx.outs)
  }

  function ParseJobCoinbaseOutputs(coinbase1: string, extranonce1: string, extranonce2Size: int,
                                   coinbase2: string): Result<seq<TxOut>>
  {
    match ReconstructCoinbaseHex(coinbase1, extranonce1, extranonce2Size, coinbase2)
    case Failure(e) => Failure(e)
    case Success(hex) => ParseCoinbaseOutputs(hex)
  }

  lemma {:induction false} LowerKeepsHex(s: string)
    ensures FromHex(Lower(s)) == FromHex(s)
    decreases |s|
  {
    if |s| >= 2 {
      assert Lower(s)[2..] == Lower(s[2..]);
      LowerKeepsHex(s[2..]);
    }
  }

  lemma {:induction false} ZeroHexIsHex(n: nat)
    ensures IsHex(ZeroHex(n)) && |ZeroHex(n)| == 2 * n
  {}

  // ----- verify.ts -----

  datatype PayoutRule = SoloShowcaseRule | PplnsRule

  /** `myScript` is addressToScript of the configured address. */
  datatype VerifyConfig = VerifyConfig(myScript: seq<byte>, rule: PayoutRule, minRewardShare: real,
                                       minSats: Option<int>)

  datatype VerifyResult = VerifyResult(ok: bool, mySats: int, totalSats: int, sharePct: real, myOutputCount: nat,
                                       outputCount: nat)

  function MySats(outs: seq<TxOut>, mine: seq<byte>): int {
    if outs == [] then 0 else (if outs[0].script == mine then outs[0].value else 0) + MySats(outs[1..], mine)
  }

  function MyCount(outs: seq<TxOut>, mine: seq<byte>): nat {
    if outs == [] then 0 else (if outs[0].script == mine then 1 else 0) + MyCount(outs[1..], mine)
  }

  method ScriptsEqual(a: seq<byte>, b: seq<byte>) returns (eq: bool)
    ensures eq <==> a == b
  {
    if |a| != |b| { return false; }
    for i := 0 to |a|
      invariant a[..i] == b[..i]
    {
      if a[i] != b[i] { return false; }
    }
    assert a == a[..|a|] && b == b[..|b|];
    return true;
  }

  function SharePct(rnd: real -> real, my: int, total: int): real {
    if total > 0 then rnd(my as real / total as real) else 0.0
  }

  /** Accepted: my address is paid something, and enough of the reward (solo) or enough sats (PPLNS). */
  predicate Accepts(rnd: real -> real, outs: seq<TxOut>, cfg: VerifyConfig) {
    var my, total := MySats(outs, cfg.myScript), SumValues(outs);
    && MyCount(outs, cfg.myScript) > 0 && my != 0
    && match cfg.rule
       case SoloShowcaseRule => SharePct(rnd, my, total) >= cfg.minRewardShare
       case PplnsRule => my >= (if cfg.minSats.Some? then cfg.minSats.value else 1)
  }

  lemma {:induction false} CountMeansPresent(outs: seq<TxOut>, mine: seq<byte>)
    ensures MyCount(outs, mine) > 0 <==> exists o :: o in outs && o.script == mine
  {
    if outs != [] {
      CountMeansPresent(outs[1..], mine);
      assert forall o :: o in outs <==> o == outs[0] || o in outs[1..];
    }
  }

  /** The verdict, clause by clause: none of my outputs, or none with any sats, is a rejection, and so is
      a solo share below the minimum or a PPLNS payment below the floor; nothing else is. */
  method VerifyOutputs(rnd: real -> real, outs: seq<TxOut>, cfg: VerifyConfig) returns (r: VerifyResult)
    ensures r.ok <==> Accepts(rnd, outs, cfg)
    ensures (forall o :: o in outs ==> o.script != cfg.myScript) ==> !r.ok && r.mySats == 0
    ensures (forall o :: o in outs && o.script == cfg.myScript ==> o.value == 0) ==> !r.ok && r.mySats == 0
    ensures cfg.rule == SoloShowcaseRule ==>
      (r.ok <==> r.mySats != 0 && (exists o :: o in outs && o.script == cfg.myScript)
                 && r.sharePct >= cfg.minRewardShare)
    ensures cfg.rule == PplnsRule ==>
      (r.ok <==> r.mySats != 0 && (exists o :: o in outs && o.script == cfg.myScript)
                 && r.mySats >= (if cfg.minSats == None then 1 else cfg.minSats.value))
    ensures r.mySats == MySats(outs, cfg.myScript) && r.totalSats == SumValues(outs)
    ensures r.sharePct == if r.totalSats > 0 then rnd(r.mySats as real / r.totalSats as real) else 0.0
    ensures r.myOutputCount == MyCount(outs, cfg.myScript) && r.outputCount == |outs|
  {
    CountMeansPresent(outs, cfg.myScript);
    NothingMine(outs, cfg.myScript);
    var mySats, totalSats, count := 0, 0, 0;
    for i := 0 to |outs|
      invariant totalSats + SumValues(outs[i..]) == SumValues(outs)
      invariant mySats + MySats(outs[i..], cfg.myScript) == MySats(outs, cfg.myScript)
      invariant count + MyCount(outs[i..], cfg.myScript) == MyCount(outs, cfg.myScript)
    {
      assert outs[i..][0] == outs[i] && outs[i..][1..] == outs[i + 1..];
      totalSats := totalSats + outs[i].value;
      var mine := ScriptsEqual(outs[i].script, cfg.myScript);
      if mine { mySats, count := mySats + outs[i].value, count + 1; }
    }
    var sharePct := SharePct(rnd, mySats, totalSats);
    r := VerifyResult(false, mySats, totalSats, sharePct, count, |outs|);
    if count == 0 || mySats == 0 { return; }
    if cfg.rule == SoloShowcaseRule {
      if sharePct < cfg.minRewardShare { return; }
      return r.(ok := true);
    }
    var floor := if cfg.minSats.Some? then cfg.minSats.value else 1;
    if mySats < floor { return; }
    return r.(ok := true);
  }

  /** Outputs that pay my script nothing sum up to nothing. */
  lemma {:induction false} NothingMine(outs: seq<TxOut>, mine: seq<byte>)
    ensures (forall o :: o in outs && o.script == mine ==> o.value == 0) ==> MySats(outs, mine) == 0
  {
    if outs != [] {
      NothingMine(outs[1..], mine);
      assert forall o :: o in outs[1..] ==> o in outs;
    }
  }

  /** An address with one output is credited just that, and outputs to others count for nothing. */
  lemma {:induction false} SoleOutput(outs: seq<TxOut>, i: nat)
    requires i < |outs| && forall j :: 0 <= j < |outs| && j != i ==> outs[j].script != outs[i].script
    ensures MySats(outs, outs[i].script) == outs[i].value && MyCount(outs, outs[i].script) == 1
  {
    if i > 0 {
      SoleOutput(outs[1..], i - 1);
    } else {
      forall o | o in outs[1..] ensures o.script != outs[0].script {
        var j :| 0 <= j < |outs[1..]| && outs[1..][j] == o;
        assert outs[j + 1] == o;
      }
      NothingMine(outs[1..], outs[0].script);
      CountMeansPresent(outs[1..], outs[0].script);
    }
  }

  /** What is credited over two lists of outputs is the sum of both. */
  lemma {:induction false} MySatsConcat(a: seq<TxOut>, b: seq<TxOut>, mine: seq<byte>)
    ensures MySats(a + b, mine) == MySats(a, mine) + MySats(b, mine)
    ensures MyCount(a + b, mine) == MyCount(a, mine) + MyCount(b, mine)
  {
    if a == [] {
      assert a + b == b;
    } else {
      assert (a + b)[1..] == a[1..] + b;
      MySatsConcat(a[1..], b, mine);
    }
  }

  function Places(outs: seq<TxOut>, mine: seq<byte>): set<int> {
    set i | 0 <= i < |outs| && outs[i].script == mine
  }

  lemma {:induction false} OneMorePlace(outs: seq<TxOut>, o: TxOut, mine: seq<byte>)
    ensures |Places(outs + [o], mine)| == |Places(outs, mine)| + (if o.script == mine then 1 else 0)
  {
    assert Places(outs + [o], mine) == Places(outs, mine) + (if o.script == mine then {|outs|} else {});
  }

  /** The count is the number of places with my script. */
  lemma {:induction false} CountIsPlaces(outs: seq<TxOut>, mine: seq<byte>)
    ensures MyCount(outs, mine) == |Places(outs, mine)|
  {
    if outs != [] {
      var n := |outs| - 1;
      CountIsPlaces(outs[..n], mine);
      assert outs == outs[..n] + [outs[n]];
      MySatsConcat(outs[..n], [outs[n]], mine);
      OneMorePlace(outs[..n], outs[n], mine);
    }
  }

  lemma {:induction false} PaidAtLeast(outs: seq<TxOut>, i: nat)
    requires i < |outs| && forall o :: o in outs ==> o.value >= 0
    ensures outs[i].value <= MySats(outs, outs[i].script) <= SumValues(outs) && MyCount(outs, outs[i].script) > 0
  {
    if i > 0 {
      PaidAtLeast(outs[1..], i - 1);
    } else {
      MySatsNonNegative(outs[1..], outs[0].script);
    }
  }

  lemma {:induction false} MySatsNonNegative(outs: seq<TxOut>, mine: seq<byte>)
    requires forall o :: o in outs ==> o.value >= 0
    ensures 0 <= MySats(outs, mine) <= SumValues(outs)
  {
    if outs != [] { MySatsNonNegative(outs[1..], mine); }
  }
}
