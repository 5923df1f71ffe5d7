/** One solo job from the fee split to the miner's own check of it. */
module SoloEndToEnd {
  import opened Shared
  import opened Bytes
  import opened Transaction
  import opened Fees
  import opened SoloShowcase
  import opened Doubles
  import opened PercentHop
  import opened Verifier
  import J = MiningJob

  function Part1(head: seq<byte>, size: nat): string
    requires |head| + size <= J.MAX_SCRIPT_SIZE
  {
    ToHex(J.Prefix(|head| + size) + head)
  }

  function Part2(outs: seq<TxOut>): string
    requires J.OutsOk(outs)
  {
    ToHex(J.Suffix(outs))
  }

  lemma {:induction false} ParsedBack(hex: string, tx: Tx)
    requires TxOk(tx) && FromHex(hex) == Serialize(tx)
    ensures ParseCoinbaseOutputs(Lower(hex)) == Success(tx.outs)
  {
    LowerKeepsHex(hex);
    ParseOfSerialize(tx);
  }

  lemma {:induction false} SlotSize(nonces: string)
    requires IsHex(nonces)
    ensures |FromHex(nonces)| == |nonces| / 2
  {
    FromHexConcat(nonces, "");
  }

  /** Whatever extranonces the miner puts into the slot, parsing the coinbase gives back exactly
      the outputs the den put in, commitment included. */
  lemma {:induction false} SlotDoesNotMoveOutputs(head: seq<byte>, outs: seq<TxOut>, size: nat, extraNonce1: string,
                                                  extraNonce2: string)
    requires J.OutsOk(outs) && IsHex(extraNonce1 + extraNonce2) && |extraNonce1 + extraNonce2| == 2 * size
    requires |head| + size <= J.MAX_SCRIPT_SIZE
    ensures ParseCoinbaseOutputs(Lower(Part1(head, size) + extraNonce1 + extraNonce2 + Part2(outs))) == Success(outs)
  {
    var slot := FromHex(extraNonce1 + extraNonce2);
    SlotSize(extraNonce1 + extraNonce2);
    J.SplicedSerialization(head, slot, extraNonce1, extraNonce2, outs);
    ParsedBack(Part1(head, size) + extraNonce1 + extraNonce2 + Part2(outs), J.CoinbaseTx(head + slot, outs));
  }

  lemma {:induction false} ZeroFilled(extraNonce1: string, size: nat)
    requires IsHex(extraNonce1)
    ensures IsHex(extraNonce1 + ZeroHex(size)) && |extraNonce1 + ZeroHex(size)| == |extraNonce1| + 2 * size
  {
    ZeroHexIsHex(size);
  }

  lemma {:induction false} ParsesZeroFilled(part1: string, extraNonce1: string, size: nat, part2: string)
    requires size <= 64
    ensures ParseJobCoinbaseOutputs(part1, extraNonce1, size, part2)
      == ParseCoinbaseOutputs(Lower(part1 + extraNonce1 + ZeroHex(size) + part2))
  {}

  /** The verifier's zero filler is one such extranonce2. */
  lemma {:induction false} ReconstructionRecoversOutputs(head: seq<byte>, outs: seq<TxOut>, extraNonce1: string,
                                                         size: nat, slot: nat)
    requires J.OutsOk(outs) && IsHex(extraNonce1) && size <= 64 && |extraNonce1| + 2 * size == 2 * slot
    requires |head| + slot <= J.MAX_SCRIPT_SIZE
    ensures ParseJobCoinbaseOutputs(Part1(head, slot), extraNonce1, size, Part2(outs)) == Success(outs)
  {
    ZeroFilled(extraNonce1, size);
    SlotDoesNotMoveOutputs(head, outs, slot, extraNonce1, ZeroHex(size));
    ParsesZeroFilled(Part1(head, slot), extraNonce1, size, Part2(outs));
  }

  lemma {:induction false} ZeroHexReads(n: nat)
    ensures FromHex(ZeroHex(n)) == Zeros(n)
  {
    if n > 0 {
      assert ZeroHex(n)[2..] == ZeroHex(n - 1);
      ZeroHexReads(n - 1);
      assert Zeros(n) == [0] + Zeros(n - 1);
    }
  }

  /** The verifier's reconstruction is the den's coinbase with zeros for the miner's extranonce: byte for
      byte the serialization whose script ends with extranonce1 and `size` zeros. */
  lemma {:induction false} ReconstructionIsTheCoinbase(head: seq<byte>, outs: seq<TxOut>, extraNonce1: string,
                                                       size: nat, slot: nat)
    requires J.OutsOk(outs) && IsHex(extraNonce1) && size <= 64 && |extraNonce1| + 2 * size == 2 * slot
    requires |head| + slot <= J.MAX_SCRIPT_SIZE
    ensures TxOk(J.CoinbaseTx(head + (FromHex(extraNonce1) + Zeros(size)), outs))
    ensures var hex := ReconstructCoinbaseHex(Part1(head, slot), extraNonce1, size, Part2(outs));
      hex.Success?
      && FromHex(hex.value) == Serialize(J.CoinbaseTx(head + (FromHex(extraNonce1) + Zeros(size)), outs))
  {
    FilledWithZeros(extraNonce1, size, slot);
    SplicedParts(head, FromHex(extraNonce1) + Zeros(size), extraNonce1, ZeroHex(size), outs);
    ReadsZeroFilled(Part1(head, slot), extraNonce1, size, Part2(outs));
  }

  lemma {:induction false} SplicedParts(head: seq<byte>, slot: seq<byte>, extraNonce1: string, extraNonce2: string,
                                        outs: seq<TxOut>)
    requires J.OutsOk(outs) && |head| + |slot| <= J.MAX_SCRIPT_SIZE
    requires IsHex(extraNonce1 + extraNonce2) && slot == FromHex(extraNonce1 + extraNonce2)
    ensures TxOk(J.CoinbaseTx(head + slot, outs))
    ensures FromHex(Part1(head, |slot|) + extraNonce1 + extraNonce2 + Part2(outs))
      == Serialize(J.CoinbaseTx(head + slot, outs))
  {
    J.SplicedSerialization(head, slot, extraNonce1, extraNonce2, outs);
  }

  lemma {:induction false} FilledWithZeros(extraNonce1: string, size: nat, slot: nat)
    requires IsHex(extraNonce1) && |extraNonce1| + 2 * size == 2 * slot
    ensures IsHex(extraNonce1 + ZeroHex(size))
    ensures FromHex(extraNonce1 + ZeroHex(size)) == FromHex(extraNonce1) + Zeros(size)
    ensures |FromHex(extraNonce1) + Zeros(size)| == slot
  {
    ZeroFilled(extraNonce1, size);
    ZeroHexReads(size);
    FromHexConcat(extraNonce1, ZeroHex(size));
    SlotSize(extraNonce1 + ZeroHex(size));
  }

  lemma {:induction false} ReadsZeroFilled(part1: string, extraNonce1: string, size: nat, part2: string)
    requires size <= 64
    ensures var hex := ReconstructCoinbaseHex(part1, extraNonce1, size, part2);
      hex.Success? && FromHex(hex.value) == FromHex(part1 + extraNonce1 + ZeroHex(size) + part2)
  {
    LowerKeepsHex(part1 + extraNonce1 + ZeroHex(size) + part2);
  }

  // ----- the share of the reward -----

  /** Paid at least the fraction `m` of the total, the rounded quotient is at least the rounded `m`. */
  lemma {:induction false} RoundedShare(rnd: real -> real, my: int, total: int, m: real)
    requires IsRounding(rnd) && 0 <= my <= total && total > 0 && m > 0.0 && my as real >= m * total as real
    ensures SharePct(rnd, my, total) >= rnd(m)
  {
    QuotientAtLeast(my as real, total as real, m);
    AtMostOne(my as real, total as real);
    ModerateIsNormal(1.0);
    assert InOrder(rnd, m, my as real / total as real);
  }

  lemma {:induction false} QuotientAtLeast(a: real, b: real, m: real)
    requires b > 0.0 && a >= m * b
    ensures a / b >= m
  {
    assert (a / b - m) * b == a - m * b;
  }

  lemma {:induction false} AtMostOne(a: real, b: real)
    requires b > 0.0 && a <= b
    ensures a / b <= 1.0
  {
    assert (1.0 - a / b) * b == b - a;
  }

  lemma {:induction false} BpsAsFraction(sats: nat, reward: nat, kept: int, m: real)
    requires sats * BPS >= reward * kept && kept as real >= m * 10000.0
    ensures sats as real >= m * reward as real
  {
    var r, k := reward as real, kept as real;
    assert sats as real * 10000.0 >= r * k;
    assert r * k >= r * (m * 10000.0);
    assert r * (m * 10000.0) == m * r * 10000.0;
  }

  /** What the transaction pays the miner, next to its total. */
  lemma {:induction false} MinerIsPaid(tx: seq<TxOut>, commitment: TxOut, reward: nat)
    requires tx != [] && SumValues(tx) == reward && commitment.value == 0 && forall o :: o in tx ==> o.value >= 0
    ensures var all, mine := tx + [commitment], tx[0].script;
      SumValues(all) == reward && tx[0].value <= MySats(all, mine) <= reward && MyCount(all, mine) > 0
  {
    var all := tx + [commitment];
    SumValuesConcat(tx, [commitment]);
    assert SumValues([commitment]) == 0;
    assert all[0] == tx[0];
    PaidAtLeast(all, 0);
  }

  lemma {:induction false} EnoughIsAccepted(rnd: real -> real, p: SoloInput, first: nat, outs: seq<TxOut>,
                                            mine: seq<byte>, m: real)
    requires IsRounding(rnd) && p.fees.reward > 0 && SumValues(outs) == p.fees.reward && MyCount(outs, mine) > 0
    requires MySats(outs, mine) <= p.fees.reward
    requires first * BPS >= p.fees.reward * (BPS - p.fees.operatorBps - p.fees.platformBps)
      && first <= MySats(outs, mine)
    requires 0.0 < m && (p.fees.operatorBps + p.fees.platformBps) as real <= 10000.0 * (1.0 - m)
    ensures Accepts(rnd, outs, VerifyConfig(mine, SoloShowcaseRule, rnd(m), None))
  {
    BpsAsFraction(first, p.fees.reward, BPS - p.fees.operatorBps - p.fees.platformBps, m);
    PositiveProduct(m, p.fees.reward);
    RoundedShare(rnd, MySats(outs, mine), p.fees.reward, m);
  }

  /** A solo payout that went through the percentage hop, with the zero-value commitment behind
      it, is accepted at every minimum share the fee rates leave room for. */
  lemma {:induction false} SoloPayoutIsAccepted(rnd: real -> real, p: SoloInput, outs: seq<CoinbaseOutput>,
                                                scriptOf: string -> seq<byte>,
                             tx: seq<TxOut>, commitment: TxOut, m: real)
    requires IsRounding(rnd) && IsSoloPayout(p, outs) && p.fees.reward <= MAX_MONEY && commitment.value == 0
    requires IsPayout(rnd, ToUpstream(rnd, outs, p.fees.reward), p.fees.reward, scriptOf, tx)
    requires 0.0 < m && (p.fees.operatorBps + p.fees.platformBps) as real <= 10000.0 * (1.0 - m)
    ensures Accepts(rnd, tx + [commitment], VerifyConfig(scriptOf(p.miner), SoloShowcaseRule, rnd(m), None))
    ensures SumValues(tx + [commitment]) == p.fees.reward
  {
    HopIsExact(rnd, outs, p.fees.reward, scriptOf, tx);
    forall o | o in tx ensures o.value >= 0 { var i :| 0 <= i < |tx| && tx[i] == o; }
    MinerIsPaid(tx, commitment, p.fees.reward);
    EnoughIsAccepted(rnd, p, outs[0].sats, tx + [commitment], scriptOf(p.miner), m);
  }

  lemma {:induction false} PositiveProduct(m: real, n: int)
    requires m > 0.0 && n > 0
    ensures m * n as real > 0.0
  {}

  lemma {:induction false} PayoutFits(rnd: real -> real, p: SoloInput, outs: seq<CoinbaseOutput>,
                                      scriptOf: string -> seq<byte>, tx: seq<TxOut>)
    requires IsRounding(rnd) && IsSoloPayout(p, outs) && p.fees.reward <= MAX_MONEY
      && (forall a :: |scriptOf(a)| <= MAX_SAFE)
    requires IsPayout(rnd, ToUpstream(rnd, outs, p.fees.reward), p.fees.reward, scriptOf, tx)
    ensures J.OutsOk(tx) && |tx| <= 3
  {
    HopIsExact(rnd, outs, p.fees.reward, scriptOf, tx);
    forall o | o in outs ensures o.sats <= p.fees.reward { EachWithinSum(outs, o); }
    forall o | o in tx ensures OutOk(o) { var i :| 0 <= i < |tx| && tx[i] == o; }
  }

  /** The fee split and the hop to transaction outputs. */
  method CreateSoloPayout(rnd: real -> real, p: SoloInput, scriptOf: string -> seq<byte>)
    returns (ghost outs: seq<CoinbaseOutput>, tx: seq<TxOut>)
    requires IsRounding(rnd) && AddressError(p) == None && FeeError(p.fees) == None && p.fees.reward <= MAX_MONEY
    requires forall a :: |scriptOf(a)| <= MAX_SAFE
    ensures IsSoloPayout(p, outs) && IsPayout(rnd, ToUpstream(rnd, outs, p.fees.reward), p.fees.reward, scriptOf, tx)
    ensures J.OutsOk(tx) && |tx| <= 3
  {
    var built := BuildSoloShowcaseCoinbase(p);
    outs := built.value;
    var created := CreateOutputs(rnd, ToUpstream(rnd, built.value, p.fees.reward), p.fees.reward, scriptOf);
    tx := created.value;
    PayoutFits(rnd, p, outs, scriptOf, tx);
  }

  /** The job built on those outputs. */
  method SendJob(tx: seq<TxOut>, extranonce2: Option<int>, pool: Option<seq<byte>>, height: nat,
                 witnessCommit: seq<byte>,
                 blockWeight: nat) returns (part1: string, size: nat, part2: string, ghost head: seq<byte>)
    requires J.OutsOk(tx) && |tx| < MAX_SAFE && J.HeightOk(height) && |witnessCommit| == 32
    ensures J.OutsOk(tx + [J.Commitment(witnessCommit)])
    ensures size <= 16 && |head| + (J.EXTRANONCE1_SIZE + size) <= J.MAX_SCRIPT_SIZE
    ensures part1 == Part1(head, J.EXTRANONCE1_SIZE + size) && part2 == Part2(tx + [J.Commitment(witnessCommit)])
  {
    var job := new J.MiningJob(extranonce2, pool, height, tx, witnessCommit, blockWeight);
    size := J.GetExtranonce2SizeBytes(extranonce2);
    part1, part2, head := job.coinbasePart1, job.coinbasePart2, job.head;
  }

  /** The same job read back by the miner. */
  method ServeJob(tx: seq<TxOut>, extranonce2: Option<int>, pool: Option<seq<byte>>, height: nat,
                  witnessCommit: seq<byte>,
                  blockWeight: nat, extraNonce1: string) returns (parsed: Result<seq<TxOut>>)
    requires J.OutsOk(tx) && |tx| < MAX_SAFE
    requires J.HeightOk(height) && |witnessCommit| == 32 && IsHex(extraNonce1)
      && |extraNonce1| == 2 * J.EXTRANONCE1_SIZE
    ensures parsed == Success(tx + [J.Commitment(witnessCommit)])
  {
    var part1, size, part2;
    ghost var head;
    part1, size, part2, head := SendJob(tx, extranonce2, pool, height, witnessCommit, blockWeight);
    ReconstructionRecoversOutputs(head, tx + [J.Commitment(witnessCommit)], extraNonce1, size,
                                  J.EXTRANONCE1_SIZE + size);
    parsed := ParseJobCoinbaseOutputs(part1, extraNonce1, size, part2);
  }

  // ----- rejection -----

  ghost predicate PaysNothing(outs: seq<TxOut>, mine: seq<byte>) {
    forall o :: o in outs && o.script == mine ==> o.value == 0
  }

  /** Short of the fraction `m` of the total by more than both roundings. */
  ghost predicate Underpays(outs: seq<TxOut>, mine: seq<byte>, m: real) {
    MySats(outs, mine) as real * (1.0 + U) < m * (1.0 - U) * SumValues(outs) as real
  }

  lemma {:induction false} QuotientBelow(a: real, b: real, m: real)
    requires b > 0.0 && a * (1.0 + U) < m * b
    ensures a / b + a / b * U < m
  {
    assert (m - (a / b + a / b * U)) * b == m * b - a * (1.0 + U);
  }

  lemma {:induction false} ShareIsModerate(my: int, total: int)
    requires 0 <= my <= total && 0 < total <= MAX_MONEY
    ensures Moderate(my as real / total as real)
  {
    if my > 0 { QuotientInRange(my as real, total as real); }
  }

  /** A solo payout short of the minimum share by more than the rounding is rejected. */
  lemma {:induction false} UnderpaidIsRejected(rnd: real -> real, outs: seq<TxOut>, mine: seq<byte>, m: real)
    requires IsRounding(rnd) && (forall o :: o in outs ==> o.value >= 0) && 0 < SumValues(outs) <= MAX_MONEY
    requires 0.00000000000000000001 <= m <= 1.0 && Underpays(outs, mine, m)
    ensures !Accepts(rnd, outs, VerifyConfig(mine, SoloShowcaseRule, rnd(m), None))
  {
    var my, total := MySats(outs, mine), SumValues(outs);
    MySatsNonNegative(outs, mine);
    ShareIsModerate(my, total);
    Rounds(rnd, my as real / total as real);
    Rounds(rnd, m);
    QuotientBelow(my as real, total as real, m * (1.0 - U));
  }

  /** Whatever extranonces fill the slot of a coinbase whose outputs pay my script nothing, the outputs
      read out of it are rejected under either rule. */
  lemma {:induction false} TheftIsRejected(rnd: real -> real, head: seq<byte>, outs: seq<TxOut>, size: nat,
                                           extraNonce1: string, extraNonce2: string, cfg: VerifyConfig)
    requires J.OutsOk(outs) && IsHex(extraNonce1 + extraNonce2) && |extraNonce1 + extraNonce2| == 2 * size
    requires |head| + size <= J.MAX_SCRIPT_SIZE && PaysNothing(outs, cfg.myScript)
    ensures var parsed := ParseCoinbaseOutputs(Lower(Part1(head, size) + extraNonce1 + extraNonce2 + Part2(outs)));
      parsed.Success? && !Accepts(rnd, parsed.value, cfg)
  {
    SlotDoesNotMoveOutputs(head, outs, size, extraNonce1, extraNonce2);
    NothingMine(outs, cfg.myScript);
  }

  lemma {:induction false} CommitmentAddsNothing(tx: seq<TxOut>, commitment: TxOut, mine: seq<byte>)
    requires commitment.value == 0
    ensures MySats(tx + [commitment], mine) == MySats(tx, mine)
    ensures SumValues(tx + [commitment]) == SumValues(tx)
    ensures PaysNothing(tx, mine) ==> PaysNothing(tx + [commitment], mine)
    ensures (forall o :: o in tx ==> o.value >= 0) ==> forall o :: o in tx + [commitment] ==> o.value >= 0
  {
    MySatsConcat(tx, [commitment], mine);
    SumValuesConcat(tx, [commitment]);
    assert SumValues([commitment]) == 0;
  }

  lemma {:induction false} RejectedBehindCommitment(rnd: real -> real, tx: seq<TxOut>, commitment: TxOut,
                                                    mine: seq<byte>, rule: PayoutRule, m: real, minSats: Option<int>)
    requires IsRounding(rnd) && (forall o :: o in tx ==> o.value >= 0) && 0 < SumValues(tx) <= MAX_MONEY
    requires 0.00000000000000000001 <= m <= 1.0 && commitment.value == 0
    ensures var accepted := Accepts(rnd, tx + [commitment], VerifyConfig(mine, rule, rnd(m), minSats));
      && (PaysNothing(tx, mine) ==> !accepted)
      && (rule == SoloShowcaseRule && Underpays(tx, mine, m) ==> !accepted)
      && (rule == PplnsRule && MySats(tx, mine) < (if minSats == None then 1 else minSats.value) ==> !accepted)
  {
    CommitmentAddsNothing(tx, commitment, mine);
    NothingMine(tx, mine);
    if Underpays(tx, mine, m) { UnderpaidIsRejected(rnd, tx + [commitment], mine, m); }
  }

  /** A job that pays the wrong script, served and checked: rejected if it pays mine nothing, if a solo
      job pays it less than the minimum share by more than the rounding, or a PPLNS job less than the
      floor. */
  method ServeAndReject(rnd: real -> real, tx: seq<TxOut>, extranonce2: Option<int>, pool: Option<seq<byte>>,
                        height: nat, witnessCommit: seq<byte>, blockWeight: nat, extraNonce1: string,
                        mine: seq<byte>, rule: PayoutRule, m: real, minSats: Option<int>) returns (r: VerifyResult)
    requires IsRounding(rnd) && J.OutsOk(tx) && |tx| < MAX_SAFE && 0 < SumValues(tx) <= MAX_MONEY
    requires J.HeightOk(height) && |witnessCommit| == 32 && IsHex(extraNonce1)
      && |extraNonce1| == 2 * J.EXTRANONCE1_SIZE
    requires 0.00000000000000000001 <= m <= 1.0
    ensures PaysNothing(tx, mine) ==> !r.ok
    ensures rule == SoloShowcaseRule && Underpays(tx, mine, m) ==> !r.ok
    ensures rule == PplnsRule && MySats(tx, mine) < (if minSats == None then 1 else minSats.value) ==> !r.ok
  {
    var parsed := ServeJob(tx, extranonce2, pool, height, witnessCommit, blockWeight, extraNonce1);
    RejectedBehindCommitment(rnd, tx, J.Commitment(witnessCommit), mine, rule, m, minSats);
    r := VerifyOutputs(rnd, parsed.value, VerifyConfig(mine, rule, rnd(m), minSats));
  }

  // ----- the whole path -----

  /** The whole path: fee split, percentage hop, job construction, reconstruction by the miner's
      verifier, acceptance.  `m` is the minimum share before it became a double; 0.9 admits total
      fees up to 1000 bps. */
  method ServeAndVerifySolo(rnd: real -> real, p: SoloInput, scriptOf: string -> seq<byte>, extranonce2: Option<int>,
                            pool: Option<seq<byte>>, height: nat, witnessCommit: seq<byte>, blockWeight: nat,
                            extraNonce1: string, m: real) returns (r: VerifyResult)
    requires IsRounding(rnd) && AddressError(p) == None && FeeError(p.fees) == None && p.fees.reward <= MAX_MONEY
    requires J.HeightOk(height) && |witnessCommit| == 32 && IsHex(extraNonce1)
      && |extraNonce1| == 2 * J.EXTRANONCE1_SIZE
    requires forall a :: |scriptOf(a)| <= MAX_SAFE
    requires 0.0 < m && (p.fees.operatorBps + p.fees.platformBps) as real <= 10000.0 * (1.0 - m)
    ensures r.ok && r.totalSats == p.fees.reward && r.outputCount <= 4
  {
    ghost var outs;
    var tx;
    outs, tx := CreateSoloPayout(rnd, p, scriptOf);
    var parsed := ServeJob(tx, extranonce2, pool, height, witnessCommit, blockWeight, extraNonce1);
    SoloPayoutIsAccepted(rnd, p, outs, scriptOf, tx, J.Commitment(witnessCommit), m);
    r := VerifyOutputs(rnd, parsed.value, VerifyConfig(scriptOf(p.miner), SoloShowcaseRule, rnd(m), None));
  }
}
