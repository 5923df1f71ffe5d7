/** Legacy (non-witness) transaction serialization and its parser. */
module Transaction {
  import opened Shared
  import opened Bytes

  datatype TxIn = TxIn(prevHash: seq<byte>, index: nat, script: seq<byte>, sequence: nat)
  datatype TxOut = TxOut(script: seq<byte>, value: int)
  datatype Tx = Tx(version: nat, ins: seq<TxIn>, outs: seq<TxOut>, locktime: nat)

  /** The largest integer a JavaScript number holds exactly: 2^53 - 1. */
  const MAX_SAFE := 0x1f_ffff_ffff_ffff

  predicate InOk(i: TxIn) {
    |i.prevHash| == 32 && i.index <= 0xffff_ffff && |i.script| <= MAX_SAFE && i.sequence <= 0xffff_ffff
  }

  predicate OutOk(o: TxOut) { |o.script| <= MAX_SAFE && 0 <= o.value <= MAX_SAFE }

  predicate TxOk(tx: Tx) {
    && tx.version <= 0x7fff_ffff && tx.locktime <= 0xffff_ffff
    && 0 < |tx.ins| <= MAX_SAFE && |tx.outs| <= MAX_SAFE
    && (forall i :: i in tx.ins ==> InOk(i)) && (forall o :: o in tx.outs ==> OutOk(o))
  }

  function SumValues(outs: seq<TxOut>): int {
    if outs == [] then 0 else outs[0].value + SumValues(outs[1..])
  }

  lemma SumValuesConcat(a: seq<TxOut>, b: seq<TxOut>)
    ensures SumValues(a + b) == SumValues(a) + SumValues(b)
  {
    if a == [] {
      assert a + b == b;
    } else {
      assert (a + b)[1..] == a[1..] + b;
    }
  }

  // ----- serialization -----

  function VarInt(n: nat): seq<byte>
    requires n <= MAX_SAFE
  {
    if n < 0xfd then [n]
    else if n <= 0xffff then [0xfd] + LE(2, n)
    else if n <= 0xffff_ffff then [0xfe] + LE(4, n)
    else [0xff] + LE(8, n)
  }

  function VarSlice(b: seq<byte>): seq<byte>
    requires |b| <= MAX_SAFE
  {
    VarInt(|b|) + b
  }

  function SerializeIn(i: TxIn): seq<byte>
    requires InOk(i)
  {
    i.prevHash + (LE(4, i.index) + (VarSlice(i.script) + LE(4, i.sequence)))
  }

  function SerializeOut(o: TxOut): seq<byte>
    requires OutOk(o)
  {
    LE(8, o.value) + VarSlice(o.script)
  }

  function SerializeIns(ins: seq<TxIn>): seq<byte>
    requires forall i :: i in ins ==> InOk(i)
  {
    if ins == [] then [] else SerializeIn(ins[0]) + SerializeIns(ins[1..])
  }

  function SerializeOuts(outs: seq<TxOut>): seq<byte>
    requires forall o :: o in outs ==> OutOk(o)
  {
    if outs == [] then [] else SerializeOut(outs[0]) + SerializeOuts(outs[1..])
  }

  function Serialize(tx: Tx): seq<byte>
    requires TxOk(tx)
  {
    LE(4, tx.version)
    + (VarInt(|tx.ins|)
       + (SerializeIns(tx.ins) + (VarInt(|tx.outs|) + (SerializeOuts(tx.outs) + LE(4, tx.locktime)))))
  }

  // ----- parsing: each reader returns its value and the bytes left -----

  type Read<T> = Option<(T, seq<byte>)>

  function ReadSlice(n: nat, b: seq<byte>): Read<seq<byte>> {
    if n <= |b| then Some((b[..n], b[n..])) else None
  }

  function ReadLE(n: nat, b: seq<byte>): Read<nat> {
    match ReadSlice(n, b)
    case None => None
    case Some((x, rest)) => Some((FromLE(x), rest))
  }

  /** readUInt64 throws above 2^53 - 1. */
  function ReadLE8(b: seq<byte>): Read<nat> {
    match ReadLE(8, b)
    case None => None
    case Some((v, rest)) => if v <= MAX_SAFE then Some((v, rest)) else None
  }

  function ReadVarInt(b: seq<byte>): Read<nat> {
    if b == [] then None
    else if b[0] < 0xfd then Some((b[0], b[1..]))
    else if b[0] == 0xfd then ReadLE(2, b[1..])
    else if b[0] == 0xfe then ReadLE(4, b[1..])
    else ReadLE8(b[1..])
  }

  function ReadVarSlice(b: seq<byte>): Read<seq<byte>> {
    match ReadVarInt(b)
    case None => None
    case Some((n, rest)) => ReadSlice(n, rest)
  }

  function ReadIn(b: seq<byte>): Read<TxIn> {
    match ReadSlice(32, b)
    case None => None
    case Some((hash, b1)) =>
      match ReadLE(4, b1)
      case None => None
      case Some((index, b2)) =>
        match ReadVarSlice(b2)
        case None => None
        case Some((script, b3)) =>
          match ReadLE(4, b3)
          case None => None
          case Some((sequence, b4)) => Some((TxIn(hash, index, script, sequence), b4))
  }

  function ReadOut(b: seq<byte>): Read<TxOut> {
    match ReadLE8(b)
    case None => None
    case Some((value, b1)) =>
      match ReadVarSlice(b1)
      case None => None
      case Some((script, b2)) => Some((TxOut(script, value), b2))
  }

  function ReadIns(n: nat, b: seq<byte>): Read<seq<TxIn>> {
    if n == 0 then Some(([], b))
    else
      match ReadIn(b)
      case None => None
      case Some((i, rest)) =>
        match ReadIns(n - 1, rest)
        case None => None
        case Some((more, end)) => Some(([i] + more, end))
  }

  function ReadOuts(n: nat, b: seq<byte>): Read<seq<TxOut>> {
    if n == 0 then Some(([], b))
    else
      match ReadOut(b)
      case None => None
      case Some((o, rest)) =>
        match ReadOuts(n - 1, rest)
        case None => None
        case Some((os, end)) => Some(([o] + os, end))
  }

  /** Transaction.fromBuffer for transactions without the segwit marker; the marked form is
      None here.  Trailing bytes are an error. */
  function Parse(b: seq<byte>): Option<Tx> {
    match ReadLE(4, b)
    case None => None
    case Some((version, b1)) =>
      if |b1| < 2 || (b1[0] == 0 && b1[1] == 1) then None
      else
        match ReadVarInt(b1)
        case None => None
        case Some((nIns, b2)) =>
          match ReadIns(nIns, b2)
          case None => None
          case Some((ins, b3)) =>
            match ReadVarInt(b3)
            case None => None
            case Some((nOuts, b4)) =>
              match ReadOuts(nOuts, b4)
              case None => None
              case Some((outs, b5)) =>
                match ReadLE(4, b5)
                case None => None
                case Some((locktime, b6)) => if b6 == [] then Some(Tx(version, ins, outs, locktime)) else None
  }

  // ----- round trips: reading what was written gives it back and leaves the rest -----

  lemma {:induction false} SliceBack(x: seq<byte>, rest: seq<byte>)
    ensures ReadSlice(|x|, x + rest) == Some((x, rest))
  {}

  lemma {:induction false} LEBack(n: nat, v: nat, rest: seq<byte>)
    requires v < Pow256(n)
    ensures ReadLE(n, LE(n, v) + rest) == Some((v, rest))
  {
    SliceBack(LE(n, v), rest);
    FromLEOfLE(n, v);
  }

  lemma {:induction false} Powers()
    ensures Pow256(2) == 0x1_0000 && Pow256(4) == 0x1_0000_0000 && Pow256(8) == 0x1_0000_0000_0000_0000
  {}

  lemma {:induction false} TaggedBack(tag: byte, w: nat, n: nat, rest: seq<byte>)
    requires n < Pow256(w)
    ensures var b := [tag] + LE(w, n) + rest; b != [] && b[0] == tag && ReadLE(w, b[1..]) == Some((n, rest))
  {
    assert ([tag] + LE(w, n) + rest)[1..] == LE(w, n) + rest;
    LEBack(w, n, rest);
  }

  lemma {:induction false} WideVarIntBack(n: nat, rest: seq<byte>)
    requires 0xfd <= n <= MAX_SAFE
    ensures VarInt(n) != [] && ReadVarInt(VarInt(n) + rest) == Some((n, rest))
  {
    Powers();
    if n <= 0xffff {
      TaggedBack(0xfd, 2, n, rest);
    } else if n <= 0xffff_ffff {
      TaggedBack(0xfe, 4, n, rest);
    } else {
      TaggedBack(0xff, 8, n, rest);
    }
  }

  lemma {:induction false} VarIntBack(n: nat, rest: seq<byte>)
    requires n <= MAX_SAFE
    ensures VarInt(n) != [] && ReadVarInt(VarInt(n) + rest) == Some((n, rest))
  {
    if n < 0xfd {
      assert ([n] + rest)[1..] == rest;
    } else {
      WideVarIntBack(n, rest);
    }
  }

  lemma {:induction false} VarSliceBack(x: seq<byte>, rest: seq<byte>)
    requires |x| <= MAX_SAFE
    ensures ReadVarSlice(VarSlice(x) + rest) == Some((x, rest))
  {
    ConcatAssociative(VarInt(|x|), x, rest);
    VarIntBack(|x|, x + rest);
    SliceBack(x, rest);
  }

  lemma {:induction false} InBack(i: TxIn, rest: seq<byte>)
    requires InOk(i)
    ensures ReadIn(SerializeIn(i) + rest) == Some((i, rest))
  {
    Powers();
    var b3 := LE(4, i.sequence) + rest;
    var b2 := VarSlice(i.script) + b3;
    var b1 := LE(4, i.index) + b2;
    ConcatAssociative(i.prevHash, LE(4, i.index) + (VarSlice(i.script) + LE(4, i.sequence)), rest);
    ConcatAssociative(LE(4, i.index), VarSlice(i.script) + LE(4, i.sequence), rest);
    ConcatAssociative(VarSlice(i.script), LE(4, i.sequence), rest);
    SliceBack(i.prevHash, b1);
    LEBack(4, i.index, b2);
    VarSliceBack(i.script, b3);
    LEBack(4, i.sequence, rest);
  }

  lemma {:induction false} OutBack(o: TxOut, rest: seq<byte>)
    requires OutOk(o)
    ensures ReadOut(SerializeOut(o) + rest) == Some((o, rest))
  {
    Powers();
    var b1 := VarSlice(o.script) + rest;
    ConcatAssociative(LE(8, o.value), VarSlice(o.script), rest);
    LEBack(8, o.value, b1);
    VarSliceBack(o.script, rest);
  }

  lemma {:induction false} ReadInsStep(n: nat, b: seq<byte>, x: TxIn, tail: seq<byte>, more: seq<TxIn>, end: seq<byte>)
    requires n > 0 && ReadIn(b) == Some((x, tail)) && ReadIns(n - 1, tail) == Some((more, end))
    ensures ReadIns(n, b) == Some(([x] + more, end))
  {}

  lemma {:induction false} FirstIn(ins: seq<TxIn>, rest: seq<byte>)
    requires ins != [] && forall i :: i in ins ==> InOk(i)
    ensures SerializeIns(ins) + rest == SerializeIn(ins[0]) + (SerializeIns(ins[1..]) + rest)
  {
    ConcatAssociative(SerializeIn(ins[0]), SerializeIns(ins[1..]), rest);
  }

  lemma {:induction false} InsBack(ins: seq<TxIn>, rest: seq<byte>)
    requires forall i :: i in ins ==> InOk(i)
    ensures ReadIns(|ins|, SerializeIns(ins) + rest) == Some((ins, rest))
  {
    if ins == [] {
      assert SerializeIns(ins) + rest == rest;
    } else {
      var tail := SerializeIns(ins[1..]) + rest;
      FirstIn(ins, rest);
      InBack(ins[0], tail);
      InsBack(ins[1..], rest);
      ConsTail(ins);
      ReadInsStep(|ins|, SerializeIn(ins[0]) + tail, ins[0], tail, ins[1..], rest);
    }
  }

  lemma {:induction false} ReadOutsStep(n: nat, b: seq<byte>, x: TxOut, tail: seq<byte>, more: seq<TxOut>,
                                        end: seq<byte>)
    requires n > 0 && ReadOut(b) == Some((x, tail)) && ReadOuts(n - 1, tail) == Some((more, end))
    ensures ReadOuts(n, b) == Some(([x] + more, end))
  {}

  lemma {:induction false} OutsBack(outs: seq<TxOut>, rest: seq<byte>)
    requires forall o :: o in outs ==> OutOk(o)
    ensures ReadOuts(|outs|, SerializeOuts(outs) + rest) == Some((outs, rest))
  {
    if outs == [] {
      assert SerializeOuts(outs) + rest == rest;
    } else {
      ConcatAssociative(SerializeOut(outs[0]), SerializeOuts(outs[1..]), rest);
      OutBack(outs[0], SerializeOuts(outs[1..]) + rest);
      OutsBack(outs[1..], rest);
      ConsTail(outs);
      ReadOutsStep(|outs|, SerializeOuts(outs) + rest, outs[0], SerializeOuts(outs[1..]) + rest, outs[1..], rest);
    }
  }

  /** Parsing a serialized transaction gives the transaction back. */
  lemma {:induction false} ParseOfSerialize(tx: Tx)
    requires TxOk(tx)
    ensures Parse(Serialize(tx)) == Some(tx)
  {
    Powers();
    var b5 := LE(4, tx.locktime);
    var b4 := SerializeOuts(tx.outs) + b5;
    var b3 := VarInt(|tx.outs|) + b4;
    var b2 := SerializeIns(tx.ins) + b3;
    var b1 := VarInt(|tx.ins|) + b2;
    LEBack(4, tx.version, b1);
    VarIntBack(|tx.ins|, b2);
    InsBack(tx.ins, b3);
    VarIntBack(|tx.outs|, b4);
    OutsBack(tx.outs, b5);
    LEBack(4, tx.locktime, []);
    assert b5 + [] == b5;
    assert b1[0] == VarInt(|tx.ins|)[0] != 0;
  }

  // ----- the wire format, byte by byte -----

  /** A count below 253 is one byte; above that a marker says how many little-endian bytes follow. */
  lemma {:induction false} VarIntLayout(n: nat)
    requires n <= MAX_SAFE
    ensures var s := VarInt(n);
      && (n < 253 ==> s == [n])
      && (253 <= n < 0x1_0000 ==> |s| == 3 && s[0] == 253 && FromLE(s[1..]) == n)
      && (0x1_0000 <= n < 0x1_0000_0000 ==> |s| == 5 && s[0] == 254 && FromLE(s[1..]) == n)
      && (0x1_0000_0000 <= n ==> |s| == 9 && s[0] == 255 && FromLE(s[1..]) == n)
  {
    assert Pow256(1) == 0x100 && Pow256(2) == 0x1_0000 && Pow256(4) == 0x1_0000_0000;
    assert Pow256(8) == 0x1_0000_0000 * Pow256(4);
    if 253 <= n < 0x1_0000 { FromLEOfLE(2, n); }
    if 0x1_0000 <= n < 0x1_0000_0000 { FromLEOfLE(4, n); }
    if 0x1_0000_0000 <= n { FromLEOfLE(8, n); }
  }

  /** An output: eight little-endian bytes of value, the length of the script, the script. */
  lemma {:induction false} OutputLayout(o: TxOut, i: nat)
    requires OutOk(o) && |o.script| < 253 && i < 8
    ensures var s := SerializeOut(o);
      |s| == 9 + |o.script| && s[i] == o.value / Pow256(i) % 256 && s[8] == |o.script| && s[9..] == o.script
  {
    LEAt(8, o.value, i);
    assert SerializeOut(o) == LE(8, o.value) + ([|o.script|] + o.script);
  }

  /** An input: the previous transaction's hash, four bytes of index, the length of the script, the
      script, four bytes of sequence. */
  lemma {:induction false} InputLayout(x: TxIn, i: nat)
    requires InOk(x) && |x.script| < 253 && i < 4
    ensures var s, n := SerializeIn(x), |x.script|;
      && |s| == 41 + n && s[..32] == x.prevHash && s[32 + i] == x.index / Pow256(i) % 256
      && s[36] == n && s[37..37 + n] == x.script && s[37 + n + i] == x.sequence / Pow256(i) % 256
  {
    LEAt(4, x.index, i);
    LEAt(4, x.sequence, i);
    var n := |x.script|;
    assert SerializeIn(x) == x.prevHash + (LE(4, x.index) + (([n] + x.script) + LE(4, x.sequence)));
  }

  /** A transaction: four bytes of version, the inputs behind their count, the outputs behind theirs, four
      bytes of lock time. */
  lemma {:induction false} TransactionLayout(tx: Tx, i: nat)
    requires TxOk(tx) && |tx.ins| < 253 && |tx.outs| < 253 && i < 4
    ensures var s, a, b := Serialize(tx), SerializeIns(tx.ins), SerializeOuts(tx.outs);
      && |s| == 10 + |a| + |b| && s[i] == tx.version / Pow256(i) % 256 && s[4] == |tx.ins|
      && s[5..5 + |a|] == a && s[5 + |a|] == |tx.outs| && s[6 + |a|..6 + |a| + |b|] == b
      && s[6 + |a| + |b| + i] == tx.locktime / Pow256(i) % 256
  {
    LEAt(4, tx.version, i);
    LEAt(4, tx.locktime, i);
    Pieces(LE(4, tx.version), |tx.ins|, SerializeIns(tx.ins), |tx.outs|, SerializeOuts(tx.outs), LE(4, tx.locktime), i);
  }

  lemma {:induction false} Pieces(v: seq<byte>, x: byte, a: seq<byte>, y: byte, b: seq<byte>, z: seq<byte>, i: nat)
    requires |v| == 4 && |z| == 4 && i < 4
    ensures var s := v + ([x] + (a + ([y] + (b + z))));
      && |s| == 10 + |a| + |b| && s[i] == v[i] && s[4] == x && s[5..5 + |a|] == a && s[5 + |a|] == y
      && s[6 + |a|..6 + |a| + |b|] == b && s[6 + |a| + |b| + i] == z[i]
  {}
}
