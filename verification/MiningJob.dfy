/** A stratum mining job: the coinbase script with its extranonce slot, the split of the serialized
    coinbase around that slot by hex search, and the splice of a submitted share. */
module MiningJob {
  import opened Shared
  import opened Bytes
  import opened Transaction
  import opened Merkle

  // ----- extranonce sizes -----

  const EXTRANONCE1_SIZE := 4

  /** `raw` is parseInt of the environment value; None is NaN. */
  function GetExtranonce2SizeBytes(raw: Option<int>): (n: nat)
    ensures 1 <= n <= 16
    ensures raw == None || raw.value < 1 ==> n == 8
    ensures raw.Some? && raw.value >= 1 ==> n <= raw.value && (n == raw.value || n == 16)
  {
    if raw == None || raw.value < 1 then 8 else if raw.value < 16 then raw.value else 16
  }

  function ExtranonceRegionHexLen(extranonce2Size: nat): nat {
    (EXTRANONCE1_SIZE + extranonce2Size) * 2
  }

  // ----- the coinbase script -----

  const MAX_BLOCK_WEIGHT := 4_000_000
  const MAX_SCRIPT_SIZE := 100

  /** script.number.encode for non-negative integers: minimal little-endian with a clear sign bit. */
  function NumberSize(v: nat): nat {
    if v > 0x7fff_ffff then 5 else if v > 0x7f_ffff then 4 else if v > 0x7fff then 3
    else if v > 0x7f then 2 else if v > 0 then 1 else 0
  }

  function EncodeNumber(v: nat): seq<byte> { LE(NumberSize(v), v) }

  /** A template's height: positive, and a 32-bit signed integer in the node's interface. */
  predicate HeightOk(h: nat) { 0 < h <= 0x7fff_ffff }

  function BuildScript(height: nat, pool: seq<byte>, region: nat): seq<byte>
    requires HeightOk(height) && region >= 1
  {
    var enc := EncodeNumber(height);
    [|enc|] + (enc + (pool + Zeros(region + 3 - |enc|)))
  }

  /** The input script starts with a push of the height as BIP 34 (Specification) asks: a length
      byte, then that many little-endian bytes, no shorter form possible, sign bit clear. */
  predicate PushesHeight(script: seq<byte>, height: nat) {
    && script != [] && 1 <= script[0] < |script|
    && FromLE(script[1..1 + script[0]]) == height
    && script[script[0]] < 0x80
    && (script[script[0]] == 0 ==> script[0] > 1 && script[script[0] - 1] >= 0x80)
  }

  lemma {:induction false} EncodedHeight(height: nat)
    requires HeightOk(height)
    ensures var enc := EncodeNumber(height); var n := |enc|;
      && 1 <= n <= 4 && FromLE(enc) == height && enc[n - 1] < 0x80
      && (enc[n - 1] == 0 ==> n > 1 && enc[n - 2] >= 0x80)
  {
    var n := NumberSize(height);
    assert Pow256(1) == 256 && Pow256(2) == 0x1_0000 && Pow256(3) == 0x100_0000 && Pow256(4) == 0x1_0000_0000;
    FromLEOfLE(n, height);
    UnrollLE(height);
  }

  lemma UnrollLE(v: nat)
    ensures LE(1, v) == [v % 256] && LE(2, v) == [v % 256, v / 256 % 256]
    ensures LE(3, v) == [v % 256, v / 256 % 256, v / 256 / 256 % 256]
    ensures LE(4, v) == [v % 256, v / 256 % 256, v / 256 / 256 % 256, v / 256 / 256 / 256 % 256]
  {}

  lemma {:induction false} ScriptShape(height: nat, pool: seq<byte>, region: nat)
    requires HeightOk(height) && region >= 1
    ensures var s := BuildScript(height, pool, region); var n := NumberSize(height);
      && |s| == region + 4 + |pool| && s[0] == n && s[1..1 + n] == EncodeNumber(height) && 1 <= n <= 4
      && s[1 + n..1 + n + |pool|] == pool
  {
    EncodedHeight(height);
    var enc := EncodeNumber(height);
    var pad := Zeros(region + 3 - |enc|);
    Middle([|enc|], enc, pool + pad);
    ConcatAssociative([|enc|], enc, pool + pad);
    Middle([|enc|] + enc, pool, pad);
  }

  /** Behind the height push stands the identifier, and behind that nothing but zeros. */
  lemma {:induction false} ZerosBehindPool(height: nat, pool: seq<byte>, region: nat, i: nat)
    requires HeightOk(height) && region >= 1
    ensures var s := BuildScript(height, pool, region);
      && s[0] <= 4 && s[1 + s[0]..1 + s[0] + |pool|] == pool && |s| == region + 4 + |pool|
      && (1 + s[0] + |pool| <= i < |s| ==> s[i] == 0)
  {
    ScriptShape(height, pool, region);
    var enc := EncodeNumber(height);
    assert BuildScript(height, pool, region) == ([|enc|] + enc + pool) + Zeros(region + 3 - |enc|);
  }

  lemma {:induction false} BuiltScriptPushesHeight(height: nat, pool: seq<byte>, region: nat)
    requires HeightOk(height) && region >= 1
    ensures PushesHeight(BuildScript(height, pool, region), height)
  {
    ScriptShape(height, pool, region);
    EncodedHeight(height);
    var s, n := BuildScript(height, pool, region), NumberSize(height);
    assert s[n] == s[1..1 + n][n - 1];
    if n > 1 { assert s[n - 1] == s[1..1 + n][n - 2]; }
  }

  // ----- the coinbase transaction -----

  function Input(script: seq<byte>): TxIn { TxIn(Zeros(32), 0xffff_ffff, script, 0xffff_ffff) }

  /** The zero-value output of BIP 141 (Commitment structure): OP_RETURN and a 36-byte push. */
  function Commitment(witnessCommit: seq<byte>): TxOut {
    TxOut([0x6a, 0x24, 0xaa, 0x21, 0xa9, 0xed] + witnessCommit, 0)
  }

  function CoinbaseTx(script: seq<byte>, outs: seq<TxOut>): Tx { Tx(2, [Input(script)], outs, 0) }

  /** Behind OP_RETURN and a push of 36 bytes stand the commitment header of BIP 141 and the hash. */
  lemma {:induction false} CommitmentBytes(witnessCommit: seq<byte>)
    requires |witnessCommit| == 32
    ensures var o := Commitment(witnessCommit);
      && o.value == 0 && |o.script| == 2 + 36 && o.script[0] == 106 && o.script[1] == 36
      && o.script[2..6] == [170, 33, 169, 237] && o.script[6..] == witnessCommit
  {}

  predicate OutsOk(outs: seq<TxOut>) { |outs| <= MAX_SAFE && forall o :: o in outs ==> OutOk(o) }

  /** Everything serialized before the script when the script has `n` bytes, and after it. */
  function Prefix(n: byte): seq<byte> {
    [2, 0, 0, 0, 1] + Zeros(32) + [255, 255, 255, 255, n]
  }

  function Suffix(outs: seq<TxOut>): seq<byte>
    requires OutsOk(outs)
  {
    [255, 255, 255, 255] + (VarInt(|outs|) + (SerializeOuts(outs) + [0, 0, 0, 0]))
  }

  lemma {:induction false} FixedWords()
    ensures LE(4, 2) == [2, 0, 0, 0] && LE(4, 0) == [0, 0, 0, 0] && LE(4, 0xffff_ffff) == [255, 255, 255, 255]
  {
    UnrollLE(2);
    UnrollLE(0);
    UnrollLE(0xffff_ffff);
  }

  lemma {:induction false} AppendNothing<T>(s: seq<T>)
    ensures s + [] == s
  {}

  lemma {:induction false} SerializedInput(script: seq<byte>)
    requires |script| <= MAX_SCRIPT_SIZE
    ensures InOk(Input(script))
    ensures SerializeIns([Input(script)])
      == Zeros(32) + ([255, 255, 255, 255] + (([|script|] + script) + [255, 255, 255, 255]))
  {
    FixedWords();
    AppendNothing(SerializeIn(Input(script)));
    assert [Input(script)][1..] == [];
  }

  lemma {:induction false} SerializedCoinbase(script: seq<byte>, outs: seq<TxOut>)
    requires |script| <= MAX_SCRIPT_SIZE && OutsOk(outs)
    ensures TxOk(CoinbaseTx(script, outs))
    ensures Serialize(CoinbaseTx(script, outs)) == Prefix(|script|) + (script + Suffix(outs))
  {
    FixedWords();
    SerializedInput(script);
    var ff: seq<byte> := [255, 255, 255, 255];
    Reassociate([2, 0, 0, 0], [1], Zeros(32), ff, [|script|], script,
                VarInt(|outs|) + (SerializeOuts(outs) + [0, 0, 0, 0]));
    assert [2, 0, 0, 0] + [1] == [2, 0, 0, 0, 1] && ff + [|script|] == [255, 255, 255, 255, |script|];
  }

  lemma {:induction false} Reassociate(v: seq<byte>, one: seq<byte>, prev: seq<byte>, ff: seq<byte>, len: seq<byte>,
                                       script: seq<byte>, tail: seq<byte>)
    ensures v + (one + ((prev + (ff + ((len + script) + ff))) + tail))
      == ((v + one) + prev + (ff + len)) + (script + (ff + tail))
  {}

  /** The serialized coinbase: version 2, one input with the null outpoint, the script behind its length, a
      final sequence, the outputs behind their count, lock time 0. */
  lemma {:induction false} CoinbaseBytes(script: seq<byte>, outs: seq<TxOut>)
    requires |script| <= MAX_SCRIPT_SIZE && OutsOk(outs) && |outs| < 253
    ensures TxOk(CoinbaseTx(script, outs))
    ensures var s, n, b := Serialize(CoinbaseTx(script, outs)), |script|, SerializeOuts(outs);
      && |s| == 51 + n + |b| && s[..5] == [2, 0, 0, 0, 1] && (forall i :: 5 <= i < 37 ==> s[i] == 0)
      && s[37..41] == [255, 255, 255, 255] && s[41] == n && s[42..42 + n] == script
      && s[42 + n..46 + n] == [255, 255, 255, 255] && s[46 + n] == |outs| && s[47 + n..47 + n + |b|] == b
      && s[47 + n + |b|..] == [0, 0, 0, 0]
  {
    SerializedCoinbase(script, outs);
    SuffixBytes(outs);
    CoinbasePieces(Zeros(32), script, |script|, |outs|, SerializeOuts(outs));
  }

  lemma {:induction false} SuffixBytes(outs: seq<TxOut>)
    requires OutsOk(outs) && |outs| < 253
    ensures Suffix(outs) == [255, 255, 255, 255] + ([|outs|] + (SerializeOuts(outs) + [0, 0, 0, 0]))
  {}

  lemma {:induction false} FrontBytes(zeros: seq<byte>, n: byte, rest: seq<byte>)
    requires |zeros| == 32 && (forall x :: x in zeros ==> x == 0)
    ensures var s := ([2, 0, 0, 0, 1] + zeros + [255, 255, 255, 255, n]) + rest;
      && |s| == 42 + |rest| && s[..5] == [2, 0, 0, 0, 1] && (forall i :: 5 <= i < 37 ==> s[i] == 0)
      && s[37..41] == [255, 255, 255, 255] && s[41] == n && s[42..] == rest
  {
    forall i | 5 <= i < 37 ensures (([2, 0, 0, 0, 1] + zeros + [255, 255, 255, 255, n]) + rest)[i] == 0 {
      assert zeros[i - 5] in zeros;
    }
  }

  lemma {:induction false} BackBytes(script: seq<byte>, count: byte, b: seq<byte>)
    ensures var s, n := script + ([255, 255, 255, 255] + ([count] + (b + [0, 0, 0, 0]))), |script|;
      && |s| == 9 + n + |b| && s[..n] == script && s[n..4 + n] == [255, 255, 255, 255] && s[4 + n] == count
      && s[5 + n..5 + n + |b|] == b && s[5 + n + |b|..] == [0, 0, 0, 0]
  {}

  lemma {:induction false} Shifted(s: seq<byte>, rest: seq<byte>, i: nat, j: nat)
    requires |s| == 42 + |rest| && s[42..] == rest && i <= j <= |rest|
    ensures s[42 + i..42 + j] == rest[i..j] && (i < |rest| ==> s[42 + i] == rest[i]) && s[42 + i..] == rest[i..]
  {
    assert forall k :: 0 <= k < |rest| ==> s[42 + k] == s[42..][k];
  }

  lemma {:induction false} CoinbasePieces(zeros: seq<byte>, script: seq<byte>, n: byte, count: byte, b: seq<byte>)
    requires |zeros| == 32 && (forall x :: x in zeros ==> x == 0) && n == |script|
    ensures var s := ([2, 0, 0, 0, 1] + zeros + [255, 255, 255, 255, n])
                     + (script + ([255, 255, 255, 255] + ([count] + (b + [0, 0, 0, 0]))));
      && |s| == 51 + n + |b| && s[..5] == [2, 0, 0, 0, 1] && (forall i :: 5 <= i < 37 ==> s[i] == 0)
      && s[37..41] == [255, 255, 255, 255] && s[41] == n && s[42..42 + n] == script
      && s[42 + n..46 + n] == [255, 255, 255, 255] && s[46 + n] == count && s[47 + n..47 + n + |b|] == b
      && s[47 + n + |b|..] == [0, 0, 0, 0]
  {
    var rest := script + ([255, 255, 255, 255] + ([count] + (b + [0, 0, 0, 0])));
    var s := ([2, 0, 0, 0, 1] + zeros + [255, 255, 255, 255, n]) + rest;
    FrontBytes(zeros, n, rest);
    BackBytes(script, count, b);
    Shifted(s, rest, 0, n);
    Shifted(s, rest, n, 4 + n);
    Shifted(s, rest, 4 + n, 4 + n);
    Shifted(s, rest, 5 + n, 5 + n + |b|);
    Shifted(s, rest, 5 + n + |b|, |rest|);
    assert s[42 + 0..42 + n] == rest[0..n] == rest[..n];
  }

  // ----- finding the script in the serialized hex -----

  predicate MatchesAt(hay: string, needle: string, k: nat) {
    k + |needle| <= |hay| && hay[k..k + |needle|] == needle
  }

  /** String.indexOf: the first match at or after `from`, or -1. */
  function IndexOf(hay: string, needle: string, from: nat): int
    decreases |hay| - from
  {
    if from + |needle| > |hay| then -1
    else if MatchesAt(hay, needle, from) then from
    else IndexOf(hay, needle, from + 1)
  }

  lemma {:induction false} IndexOfFirst(hay: string, needle: string, from: nat, k: nat)
    requires from <= k && MatchesAt(hay, needle, k) && forall j :: from <= j < k ==> !MatchesAt(hay, needle, j)
    ensures IndexOf(hay, needle, from) == k
    decreases k - from
  {
    if from < k { IndexOfFirst(hay, needle, from + 1, k); }
  }

  const SCRIPT_OFFSET := 42

  lemma {:induction false} PrefixBytes(n: byte, m: nat)
    requires m < SCRIPT_OFFSET
    ensures Prefix(n)[m] == if m == 0 then 2 else if m == 4 then 1 else if m < 37 then 0 else if m < 41 then 255 else n
  {}

  /** The first two bytes of a height push, followed by anything: n in 1..4, and for n = 1 or 2
      the next n bytes are not all zero. */
  ghost predicate StartsLikeHeight(script: seq<byte>) {
    && |script| >= 5 && 1 <= script[0] <= 4
    && (script[0] == 1 ==> script[1] != 0)
    && (script[0] == 2 ==> script[1] != 0 || script[2] != 0)
  }

  lemma {:induction false} HexDigitInjective(a: nat, b: nat)
    requires a < 16 && b < 16 && HexDigit(a) == HexDigit(b)
    ensures a == b
  {
    HexDigitValue(a);
    HexDigitValue(b);
  }

  /** Text matching at an odd nibble shifts the bytes by half a byte. */
  lemma {:induction false} OddMatchMeans(all: seq<byte>, x: seq<byte>, m: nat)
    requires x != [] && MatchesAt(ToHex(all), ToHex(x), 2 * m + 1)
    ensures m + 1 < |all| && all[m] % 16 == x[0] / 16 && all[m + 1] / 16 == x[0] % 16
  {
    var hay, needle := ToHex(all), ToHex(x);
    assert hay[2 * m + 1] == hay[2 * m + 1..2 * m + 1 + |needle|][0] == needle[0];
    assert hay[2 * m + 2] == hay[2 * m + 1..2 * m + 1 + |needle|][1] == needle[1];
    ToHexAt(x, 0);
    ToHexAt(all, m);
    ToHexAt(all, m + 1);
    HexDigitInjective(all[m] % 16, x[0] / 16);
    HexDigitInjective(all[m + 1] / 16, x[0] % 16);
  }

  lemma {:induction false} PrefixIn(n: byte, m: nat, tail: seq<byte>)
    requires m < SCRIPT_OFFSET
    ensures (Prefix(n) + tail)[m]
      == if m == 0 then 2 else if m == 4 then 1 else if m < 37 then 0 else if m < 41 then 255 else n
  {
    PrefixBytes(n, m);
  }

  /** In front of the script no low nibble 0 is followed by a high nibble of 1 to 4. */
  lemma {:induction false} NoOddMatch(script: seq<byte>, rest: seq<byte>, m: nat)
    requires StartsLikeHeight(script) && 9 <= |script| <= MAX_SCRIPT_SIZE && m < SCRIPT_OFFSET
    ensures !MatchesAt(ToHex(Prefix(|script|) + (script + rest)), ToHex(script), 2 * m + 1)
  {
    var all := Prefix(|script|) + (script + rest);
    PrefixIn(|script|, m, script + rest);
    if m + 1 < SCRIPT_OFFSET { PrefixIn(|script|, m + 1, script + rest); }
    if MatchesAt(ToHex(all), ToHex(script), 2 * m + 1) {
      OddMatchMeans(all, script, m);
      assert false;
    }
  }

  lemma {:induction false} SliceText(all: seq<byte>, m: nat, n: nat)
    requires m + n <= |all|
    ensures ToHex(all)[2 * m..2 * m + 2 * n] == ToHex(all[m..m + n])
  {
    ToHexSlice(all, m, m + n);
    assert 2 * (m + n) == 2 * m + 2 * n;
  }

  lemma {:induction false} EvenMatchIsSlice(all: seq<byte>, x: seq<byte>, m: nat)
    ensures MatchesAt(ToHex(all), ToHex(x), 2 * m) <==> m + |x| <= |all| && all[m..m + |x|] == x
  {
    if m + |x| <= |all| {
      var slice := all[m..m + |x|];
      SliceText(all, m, |x|);
      if ToHex(slice) == ToHex(x) { ToHexInjective(slice, x); }
    }
  }

  /** A match at a byte boundary would make the bytes there spell a zero height. */
  lemma {:induction false} NoSliceBefore(script: seq<byte>, rest: seq<byte>, m: nat)
    requires StartsLikeHeight(script) && 9 <= |script| <= MAX_SCRIPT_SIZE && m < SCRIPT_OFFSET
    ensures var all := Prefix(|script|) + (script + rest); m + |script| <= |all| && all[m..m + |script|] != script
  {
    var all := Prefix(|script|) + (script + rest);
    PrefixIn(|script|, m, script + rest);
    assert all[m..m + |script|][0] == all[m];
    if m + 2 < SCRIPT_OFFSET {
      PrefixIn(|script|, m + 1, script + rest);
      PrefixIn(|script|, m + 2, script + rest);
      assert all[m..m + |script|][1] == all[m + 1] && all[m..m + |script|][2] == all[m + 2];
    }
  }

  lemma {:induction false} NoEvenMatch(script: seq<byte>, rest: seq<byte>, m: nat)
    requires StartsLikeHeight(script) && 9 <= |script| <= MAX_SCRIPT_SIZE && m < SCRIPT_OFFSET
    ensures !MatchesAt(ToHex(Prefix(|script|) + (script + rest)), ToHex(script), 2 * m)
  {
    NoSliceBefore(script, rest, m);
    EvenMatchIsSlice(Prefix(|script|) + (script + rest), script, m);
  }

  lemma {:induction false} NoEarlierMatch(script: seq<byte>, rest: seq<byte>, j: nat)
    requires StartsLikeHeight(script) && 9 <= |script| <= MAX_SCRIPT_SIZE && j < 2 * SCRIPT_OFFSET
    ensures !MatchesAt(ToHex(Prefix(|script|) + (script + rest)), ToHex(script), j)
  {
    var m := j / 2;
    if j == 2 * m { NoEvenMatch(script, rest, m); } else { NoOddMatch(script, rest, m); }
  }

  /** The hex search finds the script at its true position and nowhere earlier. */
  lemma {:induction false} SearchFindsScript(script: seq<byte>, rest: seq<byte>)
    requires StartsLikeHeight(script) && 9 <= |script| <= MAX_SCRIPT_SIZE
    ensures IndexOf(ToHex(Prefix(|script|) + (script + rest)), ToHex(script), 0) == 2 * SCRIPT_OFFSET
  {
    var all := Prefix(|script|) + (script + rest);
    forall j | 0 <= j < 2 * SCRIPT_OFFSET ensures !MatchesAt(ToHex(all), ToHex(script), j) {
      NoEarlierMatch(script, rest, j);
    }
    Middle(Prefix(|script|), script, rest);
    EvenMatchIsSlice(all, script, SCRIPT_OFFSET);
    IndexOfFirst(ToHex(all), ToHex(script), 0, 2 * SCRIPT_OFFSET);
  }

  lemma {:induction false} ScriptStartsLikeHeight(height: nat, pool: seq<byte>, region: nat)
    requires HeightOk(height) && region >= 5
    ensures StartsLikeHeight(BuildScript(height, pool, region))
  {
    var s, n := BuildScript(height, pool, region), NumberSize(height);
    ScriptShape(height, pool, region);
    EncodedHeight(height);
    var enc := s[1..1 + n];
    assert enc[0] == s[1];
    if n == 1 { assert enc == [s[1]]; }
    if n == 2 { assert enc[1] == s[2] && enc == [s[1], s[2]]; }
  }

  // ----- the job -----

  /** "Public-Pool" */
  const DEFAULT_POOL: seq<byte> := [0x50, 0x75, 0x62, 0x6c, 0x69, 0x63, 0x2d, 0x50, 0x6f, 0x6f, 0x6c]

  function PoolIdentifier(configured: Option<seq<byte>>): (p: seq<byte>)
    ensures p != []
  {
    if configured == None || configured.value == [] then DEFAULT_POOL else configured.value
  }

  /** A configured identifier is used as it is; without one, or with an empty one, it is "Public-Pool". */
  lemma {:induction false} PoolIdentifierText(configured: Option<seq<byte>>)
    ensures var p, text := PoolIdentifier(configured), "Public-Pool";
      if configured.Some? && |configured.value| > 0 then p == configured.value
      else |p| == |text| && forall i :: 0 <= i < |text| ==> p[i] == text[i] as int
  {}

  /** Four times the legacy size plus the witness: marker, flag, and one 32-byte item. */
  function Weight(tx: Tx): nat
    requires TxOk(tx)
  {
    4 * |Serialize(tx)| + 36
  }

  /** Neither the script nor the block gets too big with this identifier. */
  predicate Fits(pool: seq<byte>, height: nat, region: nat, outs: seq<TxOut>, blockWeight: nat)
    requires HeightOk(height) && region >= 1
  {
    var script := BuildScript(height, pool, region);
    var tx := CoinbaseTx(script, outs);
    |script| <= MAX_SCRIPT_SIZE && TxOk(tx) && Weight(tx) + blockWeight <= MAX_BLOCK_WEIGHT
  }

  /** The identifier that ends up in the script: dropped exactly when it does not fit. */
  function PoolUsed(pool: seq<byte>, height: nat, region: nat, outs: seq<TxOut>, blockWeight: nat): (used: seq<byte>)
    requires HeightOk(height) && 5 <= region <= 20 && OutsOk(outs)
    ensures used == pool || used == []
    ensures used == pool <==> pool == [] || Fits(pool, height, region, outs, blockWeight)
    ensures |BuildScript(height, used, region)| <= MAX_SCRIPT_SIZE
  {
    ScriptShape(height, pool, region);
    ScriptShape(height, [], region);
    var fits := if |BuildScript(height, pool, region)| > MAX_SCRIPT_SIZE then [] else pool;
    var script := BuildScript(height, fits, region);
    SerializedCoinbase(script, outs);
    if Weight(CoinbaseTx(script, outs)) + blockWeight > MAX_BLOCK_WEIGHT then [] else fits
  }

  /** The identifier is kept exactly if the script stays within 100 bytes and the block, with four times the
      serialized coinbase and the 36 bytes of its witness, within 4,000,000 weight units. */
  lemma {:induction false} PoolKeptExactly(pool: seq<byte>, height: nat, region: nat, outs: seq<TxOut>,
                                           blockWeight: nat)
    requires HeightOk(height) && 5 <= region <= 20 && OutsOk(outs) && pool != []
    ensures PoolUsed(pool, height, region, outs, blockWeight) == pool <==>
      && 4 + |pool| + region <= 100
      && var tx := CoinbaseTx(BuildScript(height, pool, region), outs);
         TxOk(tx) && 4 * |Serialize(tx)| + 36 + blockWeight <= 4_000_000
  {
    ScriptShape(height, pool, region);
  }

  datatype Header = Header(version: bv32, nonce: nat, timestamp: nat, merkleRoot: Hash)

  /** The two slices around the slot, in bytes. */
  lemma {:induction false} CutAround(script: seq<byte>, rest: seq<byte>, region: nat)
    requires region <= |script| <= MAX_SCRIPT_SIZE
    ensures var s := ToHex(Prefix(|script|) + (script + rest));
      var cut := 2 * SCRIPT_OFFSET + 2 * |script|;
      && cut <= |s|
      && s[..cut - 2 * region] == ToHex(Prefix(|script|) + script[..|script| - region])
      && s[cut..] == ToHex(rest)
  {
    var all := Prefix(|script|) + (script + rest);
    var n := SCRIPT_OFFSET + |script|;
    ToHexSlice(all, 0, n - region);
    ToHexSlice(all, n, |all|);
    assert all[0..n - region] == Prefix(|script|) + script[..|script| - region];
    assert all[n..|all|] == rest;
  }

  /** The two job parts, found by searching the serialized hex for the script's hex. */
  method SplitCoinbase(script: seq<byte>, outs: seq<TxOut>, regionHex: nat) returns (part1: string, part2: string)
    requires StartsLikeHeight(script) && 9 <= |script| <= MAX_SCRIPT_SIZE && OutsOk(outs)
    requires regionHex % 2 == 0 && regionHex / 2 <= |script|
    ensures part1 == ToHex(Prefix(|script|) + script[..|script| - regionHex / 2])
    ensures part2 == ToHex(Suffix(outs))
  {
    SerializedCoinbase(script, outs);
    SearchFindsScript(script, Suffix(outs));
    CutAround(script, Suffix(outs), regionHex / 2);
    var serialized := ToHex(Serialize(CoinbaseTx(script, outs)));
    var inputScript := ToHex(script);
    var partOneIndex := IndexOf(serialized, inputScript, 0) + |inputScript|;
    assert partOneIndex == 2 * SCRIPT_OFFSET + 2 * |script| && regionHex == 2 * (regionHex / 2);
    part1 := serialized[..partOneIndex - regionHex];
    part2 := serialized[partOneIndex..];
  }

  /** The coinbase has one input whose script is the head and a slot, and the parts are the hex
      in front of and behind the slot. */
  ghost predicate JobOk(tx: Tx, part1: string, part2: string, regionHex: nat, head: seq<byte>, outs: seq<TxOut>) {
    && OutsOk(outs) && regionHex % 2 == 0 && |tx.ins| == 1
    && head <= tx.ins[0].script && |tx.ins[0].script| == |head| + regionHex / 2 <= MAX_SCRIPT_SIZE
    && tx == CoinbaseTx(tx.ins[0].script, outs)
    && part1 == ToHex(Prefix(|head| + regionHex / 2) + head)
    && part2 == ToHex(Suffix(outs))
  }

  /** The script and the two parts around its last `region` bytes. */
  method BuildParts(pool: seq<byte>, height: nat, region: nat, outs: seq<TxOut>, blockWeight: nat)
    returns (script: seq<byte>, part1: string, part2: string)
    requires HeightOk(height) && 5 <= region <= 20 && OutsOk(outs)
    ensures script == BuildScript(height, PoolUsed(pool, height, region, outs, blockWeight), region)
      && region <= |script|
    ensures JobOk(CoinbaseTx(script, outs), part1, part2, 2 * region, script[..|script| - region], outs)
  {
    var used := PoolUsed(pool, height, region, outs, blockWeight);
    script := BuildScript(height, used, region);
    ScriptShape(height, used, region);
    ScriptStartsLikeHeight(height, used, region);
    part1, part2 := SplitCoinbase(script, outs, 2 * region);
    BuiltOk(script, region, outs, part1, part2);
  }

  class MiningJob {
    const extranonceRegionHex: nat
    var coinbaseTransaction: Tx
    var coinbasePart1: string
    var coinbasePart2: string
    ghost const head: seq<byte>   // the script in front of the extranonce slot
    ghost const outs: seq<TxOut>

    ghost predicate Valid()
      reads this
    {
      JobOk(coinbaseTransaction, coinbasePart1, coinbasePart2, extranonceRegionHex, head, outs)
    }

    function Script(): seq<byte>
      requires |coinbaseTransaction.ins| == 1
      reads this
    {
      coinbaseTransaction.ins[0].script
    }

    /** Builds the script, drops the pool identifier if it does not fit, and cuts the serialized
        coinbase around the slot by searching its hex for the script's hex. */
    constructor (extranonce2: Option<int>, pool: Option<seq<byte>>, height: nat, payouts: seq<TxOut>,
                 witnessCommit: seq<byte>, blockWeight: nat)
      requires HeightOk(height) && OutsOk(payouts) && |payouts| < MAX_SAFE && |witnessCommit| == 32
      ensures Valid()
      ensures outs == payouts + [Commitment(witnessCommit)]
      ensures var size := GetExtranonce2SizeBytes(extranonce2); var region := EXTRANONCE1_SIZE + size;
        var used := PoolUsed(PoolIdentifier(pool), height, region, outs, blockWeight);
        && extranonceRegionHex == ExtranonceRegionHexLen(size)
        && Script() == BuildScript(height, used, region)
    {
      var size := GetExtranonce2SizeBytes(extranonce2);
      var allOuts := payouts + [Commitment(witnessCommit)];
      var script, part1, part2 := BuildParts(PoolIdentifier(pool), height, EXTRANONCE1_SIZE + size,
                                            allOuts, blockWeight);
      extranonceRegionHex := ExtranonceRegionHexLen(size);
      coinbaseTransaction := CoinbaseTx(script, allOuts);
      coinbasePart1 := part1;
      coinbasePart2 := part2;
      head := script[..|script| - (EXTRANONCE1_SIZE + size)];
      outs := allOuts;
    }

    /** Rewrites the shared coinbase's script in place. */
    method FillSlot(extraNonce: string, extraNonce2: string)
      requires Valid() && IsHex(extraNonce + extraNonce2) && |extraNonce| + |extraNonce2| == extranonceRegionHex
      modifies this`coinbaseTransaction
      ensures Valid() && TxOk(coinbaseTransaction)
      ensures Script() == head + FromHex(extraNonce + extraNonce2)
      ensures Serialize(coinbaseTransaction) == FromHex(coinbasePart1 + extraNonce + extraNonce2 + coinbasePart2)
    {
      RewrittenIsFilled(coinbaseTransaction, coinbasePart1, coinbasePart2, extranonceRegionHex, head, outs, extraNonce,
        extraNonce2);
      Filled(coinbaseTransaction, coinbasePart1, coinbasePart2, extranonceRegionHex, head, outs, extraNonce,
        extraNonce2);
      var script := Rewritten(Script(), extranonceRegionHex, extraNonce, extraNonce2);
      coinbaseTransaction := coinbaseTransaction.(ins := [coinbaseTransaction.ins[0].(script := script)]);
    }

    /** copyAndUpdateBlock: fills the slot and derives the header. */
    method CopyAndUpdateBlock(H: seq<byte> -> Hash, t: Template, version: bv32, versionMask: bv32, nonce: nat,
                              extraNonce: string, extraNonce2: string, timestamp: nat) returns (header: Header)
      requires Valid() && IsHash(H) && IsHex(extraNonce + extraNonce2)
      requires |extraNonce| + |extraNonce2| == extranonceRegionHex
      requires forall b :: b in t.branch ==> |FromHex(b)| == 32
      modifies this`coinbaseTransaction
      ensures Valid()
      ensures Script() == head + FromHex(extraNonce + extraNonce2)
      ensures Serialize(coinbaseTransaction) == FromHex(coinbasePart1 + extraNonce + extraNonce2 + coinbasePart2)
      ensures header.merkleRoot
        == Fold(H, H(FromHex(coinbasePart1 + extraNonce + extraNonce2 + coinbasePart2)), DecodeAll(t.branch))
      ensures header.version == (if versionMask != 0 then version ^ versionMask else version)
      ensures header.nonce == nonce && header.timestamp == timestamp
    {
      FillSlot(extraNonce, extraNonce2);
      var root := CalculateMerkleRootHash(H, H(Serialize(coinbaseTransaction)), t.branch);
      header := Header(if versionMask != 0 then version ^ versionMask else version, nonce, timestamp, root);
    }
  }

  function WithScript(tx: Tx, script: seq<byte>): Tx
    requires |tx.ins| == 1
  {
    tx.(ins := [tx.ins[0].(script := script)])
  }

  lemma {:induction false} ScriptReplaced(tx: Tx, before: seq<byte>, after: seq<byte>, outs: seq<TxOut>)
    requires tx == CoinbaseTx(before, outs)
    ensures |tx.ins| == 1 && WithScript(tx, after) == CoinbaseTx(after, outs)
  {}

  lemma {:induction false} HeadKept<T>(head: seq<T>, slot: seq<T>)
    ensures head <= head + slot && |head + slot| == |head| + |slot|
  {}

  lemma {:induction false} SlotRewritten(tx: Tx, part1: string, part2: string, regionHex: nat, head: seq<byte>,
                                         outs: seq<TxOut>, slot: seq<byte>)
    requires JobOk(tx, part1, part2, regionHex, head, outs) && |slot| == regionHex / 2
    ensures JobOk(WithScript(tx, head + slot), part1, part2, regionHex, head, outs)
    ensures WithScript(tx, head + slot) == CoinbaseTx(head + slot, outs)
  {
    HeadKept(head, slot);
    ScriptReplaced(tx, tx.ins[0].script, head + slot, outs);
  }

  lemma {:induction false} Respliced(script: seq<byte>, head: seq<byte>, regionHex: nat, e1: string, e2: string)
    requires head <= script && regionHex % 2 == 0 && |script| == |head| + regionHex / 2 && IsHex(e1 + e2)
    ensures var hex := ToHex(script);
      regionHex <= |hex| && FromHex(hex[..|hex| - regionHex] + e1 + e2) == head + FromHex(e1 + e2)
    ensures 2 * |FromHex(e1 + e2)| == |e1 + e2|
  {
    var hex := ToHex(script);
    SpliceSlot(script, head, regionHex / 2, e1 + e2);
    ConcatAssociative(hex[..|hex| - regionHex], e1, e2);
  }

  /** Filling the slot keeps the job sound and serializes to the parts around the extranonces. */
  lemma {:induction false} Filled(tx: Tx, part1: string, part2: string, regionHex: nat, head: seq<byte>,
                                  outs: seq<TxOut>, e1: string, e2: string)
    requires JobOk(tx, part1, part2, regionHex, head, outs) && IsHex(e1 + e2)
    requires 2 * |FromHex(e1 + e2)| == regionHex
    ensures var tx' := WithScript(tx, head + FromHex(e1 + e2));
      JobOk(tx', part1, part2, regionHex, head, outs) && TxOk(tx') && Serialize(tx') == FromHex(part1 + e1 + e2 + part2)
  {
    SlotRewritten(tx, part1, part2, regionHex, head, outs, FromHex(e1 + e2));
    SplicedSerialization(head, FromHex(e1 + e2), e1, e2, outs);
  }

  /** The script as the source computes it: the hex cut off before the slot, the extranonces behind. */
  function Rewritten(script: seq<byte>, regionHex: nat, e1: string, e2: string): seq<byte>
    requires regionHex <= 2 * |script|
  {
    var nonceScript := ToHex(script);
    FromHex(nonceScript[..|nonceScript| - regionHex] + e1 + e2)
  }

  lemma {:induction false} RewrittenIsFilled(tx: Tx, part1: string, part2: string, regionHex: nat, head: seq<byte>,
                                             outs: seq<TxOut>, e1: string, e2: string)
    requires JobOk(tx, part1, part2, regionHex, head, outs) && IsHex(e1 + e2) && |e1| + |e2| == regionHex
    ensures regionHex <= 2 * |tx.ins[0].script|
    ensures Rewritten(tx.ins[0].script, regionHex, e1, e2) == head + FromHex(e1 + e2)
      && 2 * |FromHex(e1 + e2)| == regionHex
  {
    Respliced(tx.ins[0].script, head, regionHex, e1, e2);
  }

  lemma {:induction false} BuiltOk(script: seq<byte>, region: nat, outs: seq<TxOut>, part1: string, part2: string)
    requires OutsOk(outs) && region <= |script| <= MAX_SCRIPT_SIZE
    requires part1 == ToHex(Prefix(|script|) + script[..|script| - region]) && part2 == ToHex(Suffix(outs))
    ensures JobOk(CoinbaseTx(script, outs), part1, part2, 2 * region, script[..|script| - region], outs)
  {}

  /** Cutting the slot off the script's hex and appending the extranonces replaces the slot. */
  lemma {:induction false} SpliceSlot(script: seq<byte>, head: seq<byte>, region: nat, nonces: string)
    requires head <= script && |script| == |head| + region && IsHex(nonces)
    ensures var hex := ToHex(script);
      2 * region <= |hex| && FromHex(hex[..|hex| - 2 * region] + nonces) == head + FromHex(nonces)
    ensures 2 * |FromHex(nonces)| == |nonces|
  {
    ToHexSlice(script, 0, |head|);
    assert script[0..|head|] == head;
    ToHexIsHex(head);
    FromHexOfToHex(head);
    FromHexConcat(ToHex(head), nonces);
    FromHexConcat(nonces, "");
    AppendNothing(nonces);
  }

  /** The serialization with the slot filled is the two job parts with the extranonces between. */
  lemma {:induction false} SplicedSerialization(head: seq<byte>, slot: seq<byte>, extraNonce: string,
                                                extraNonce2: string, outs: seq<TxOut>)
    requires OutsOk(outs) && |head| + |slot| <= MAX_SCRIPT_SIZE
    requires IsHex(extraNonce + extraNonce2) && slot == FromHex(extraNonce + extraNonce2)
    ensures TxOk(CoinbaseTx(head + slot, outs))
    ensures Serialize(CoinbaseTx(head + slot, outs))
      == FromHex(ToHex(Prefix(|head + slot|) + head) + extraNonce + extraNonce2 + ToHex(Suffix(outs)))
  {
    var script := head + slot;
    var front, back := Prefix(|script|) + head, Suffix(outs);
    SerializedCoinbase(script, outs);
    ToHexIsHex(front);
    FromHexOfToHex(front);
    FromHexOfToHex(back);
    FromHexConcat(extraNonce + extraNonce2, ToHex(back));
    FromHexConcat(ToHex(front), extraNonce + extraNonce2 + ToHex(back));
    Four(ToHex(front), extraNonce, extraNonce2, ToHex(back));
    Four(Prefix(|script|), head, slot, back);
  }

  lemma {:induction false} Four<T>(a: seq<T>, b: seq<T>, c: seq<T>, d: seq<T>)
    ensures a + b + c + d == a + (b + c + d) == (a + b) + (c + d) == a + ((b + c) + d)
  {}

  // ----- the height push under submissions -----

  /** What a submission makes of a script: its last `region` bytes replaced. */
  function Splice(script: seq<byte>, region: nat, slot: seq<byte>): seq<byte>
    requires region <= |script|
  {
    script[..|script| - region] + slot
  }

  function AfterAll(script: seq<byte>, region: nat, slots: seq<seq<byte>>): seq<byte>
    requires region <= |script| && forall slot :: slot in slots ==> |slot| == region
    decreases |slots|
  {
    if slots == [] then script else AfterAll(Splice(script, region, slots[0]), region, slots[1..])
  }

  /** Submissions leave no trace: after any number of them only the last one's extranonces are in
      the script. */
  lemma {:induction false} OnlyLastSubmissionShows(script: seq<byte>, region: nat, slots: seq<seq<byte>>)
    requires region <= |script| && slots != [] && forall slot :: slot in slots ==> |slot| == region
    ensures AfterAll(script, region, slots) == Splice(script, region, slots[|slots| - 1])
    decreases |slots|
  {
    var spliced := Splice(script, region, slots[0]);
    if |slots| == 1 {
      assert AfterAll(spliced, region, slots[1..]) == spliced;
    } else {
      OnlyLastSubmissionShows(spliced, region, slots[1..]);
      assert spliced[..|spliced| - region] == script[..|script| - region];
    }
  }

  /** The height push outlives every submission if and only if the height needs at most three
      bytes or the pool identifier was kept: a four-byte height without an identifier has its
      last byte inside the extranonce slot. */
  lemma {:induction false} HeightPushSurvives(height: nat, used: seq<byte>, region: nat)
    requires HeightOk(height) && 5 <= region <= 20
    ensures var s := BuildScript(height, used, region);
      |s| >= region
      && ((forall slot :: |slot| == region ==> PushesHeight(Splice(s, region, slot), height)) <==>
         height <= 0x7f_ffff || used != [])
  {
    var s, n := BuildScript(height, used, region), NumberSize(height);
    ScriptShape(height, used, region);
    if height <= 0x7f_ffff || used != [] {
      BuiltScriptPushesHeight(height, used, region);
      forall slot: seq<byte> | |slot| == region ensures PushesHeight(Splice(s, region, slot), height) {
        var spliced := Splice(s, region, slot);
        assert spliced[1..1 + n] == s[1..1 + n];
        assert forall i :: 0 <= i <= n ==> spliced[i] == s[i];
      }
    } else {
      var slot: seq<byte> := [0x80] + Zeros(region - 1);
      var spliced := Splice(s, region, slot);
      assert spliced[0] == 4 && spliced[4] == 0x80;
      assert |slot| == region && !PushesHeight(spliced, height);
    }
  }
}
