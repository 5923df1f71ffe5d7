/** Byte strings, little-endian integers and hex text. */
module Bytes {

  type byte = x: int | 0 <= x < 256

  // ----- little-endian integers -----

  function Pow256(n: nat): (p: nat)
    ensures p > 0
  {
    if n == 0 then 1 else 256 * Pow256(n - 1)
  }

  function LE(n: nat, v: nat): (b: seq<byte>)
    ensures |b| == n
  {
    if n == 0 then [] else [v % 256] + LE(n - 1, v / 256)
  }

  function FromLE(b: seq<byte>): nat {
    if b == [] then 0 else b[0] + 256 * FromLE(b[1..])
  }

  lemma {:induction false} FromLEOfLE(n: nat, v: nat)
    requires v < Pow256(n)
    ensures FromLE(LE(n, v)) == v
  {
    if n > 0 {
      FromLEOfLE(n - 1, v / 256);
      assert LE(n, v)[1..] == LE(n - 1, v / 256);
    }
  }

  // ----- hex text -----

  function HexDigit(d: nat): char
    requires d < 16
  {
    "0123456789abcdef"[d]
  }

  function HexValue(c: char): int {
    if '0' <= c <= '9' then c as int - '0' as int
    else if 'a' <= c <= 'f' then c as int - 'a' as int + 10
    else if 'A' <= c <= 'F' then c as int - 'A' as int + 10
    else -1
  }

  function ToHex(b: seq<byte>): (s: string)
    ensures |s| == 2 * |b|
  {
    if b == [] then "" else [HexDigit(b[0] / 16), HexDigit(b[0] % 16)] + ToHex(b[1..])
  }

  /** Buffer.from(s, 'hex'): stops at the first pair that is not two hex digits. */
  function FromHex(s: string): seq<byte> {
    if |s| < 2 || HexValue(s[0]) < 0 || HexValue(s[1]) < 0 then []
    else [16 * HexValue(s[0]) + HexValue(s[1])] + FromHex(s[2..])
  }

  predicate IsHex(s: string) {
    |s| % 2 == 0 && forall i :: 0 <= i < |s| ==> HexValue(s[i]) >= 0
  }

  lemma {:induction false} FromHexOfToHex(b: seq<byte>)
    ensures FromHex(ToHex(b)) == b
  {
    if b != [] {
      FromHexOfToHex(b[1..]);
      assert ToHex(b)[2..] == ToHex(b[1..]);
      HexDigitValue(b[0] / 16);
      HexDigitValue(b[0] % 16);
    }
  }

  lemma {:induction false} ToHexIsHex(b: seq<byte>)
    ensures IsHex(ToHex(b))
  {
    if b != [] {
      ToHexIsHex(b[1..]);
      TwoDigitsMore(b[0] / 16, b[0] % 16, ToHex(b[1..]));
    }
  }

  lemma {:induction false} TwoDigitsMore(high: nat, low: nat, s: string)
    requires high < 16 && low < 16 && IsHex(s)
    ensures IsHex([HexDigit(high), HexDigit(low)] + s)
  {
    HexDigitValue(high);
    HexDigitValue(low);
  }

  lemma {:induction false} ToHexInjective(a: seq<byte>, b: seq<byte>)
    requires ToHex(a) == ToHex(b)
    ensures a == b
  {
    FromHexOfToHex(a);
    FromHexOfToHex(b);
  }

  lemma {:induction false} HexDigitValue(d: nat)
    requires d < 16
    ensures HexValue(HexDigit(d)) == d
  {}

  lemma {:induction false} ToHexConcat(a: seq<byte>, b: seq<byte>)
    ensures ToHex(a + b) == ToHex(a) + ToHex(b)
  {
    if a == [] {
      assert a + b == b;
    } else {
      assert (a + b)[1..] == a[1..] + b;
      ToHexConcat(a[1..], b);
    }
  }

  lemma {:induction false} FromHexConcat(s: string, t: string)
    requires IsHex(s)
    ensures FromHex(s + t) == FromHex(s) + FromHex(t) && 2 * |FromHex(s)| == |s|
  {
    if s == "" {
      assert s + t == t;
    } else {
      assert (s + t)[2..] == s[2..] + t;
      FromHexConcat(s[2..], t);
    }
  }

  lemma {:induction false} Middle<T>(x: seq<T>, y: seq<T>, z: seq<T>)
    ensures (x + (y + z))[|x|..|x| + |y|] == y
  {}

  lemma {:induction false} Cut<T>(b: seq<T>, i: nat, j: nat)
    requires i <= j <= |b|
    ensures b == b[..i] + (b[i..j] + b[j..])
  {}

  lemma {:induction false} ToHexMiddle(x: seq<byte>, y: seq<byte>, z: seq<byte>)
    ensures ToHex(x + (y + z))[2 * |x|..2 * |x| + 2 * |y|] == ToHex(y)
  {
    ToHexConcat(x, y + z);
    ToHexConcat(y, z);
    Middle(ToHex(x), ToHex(y), ToHex(z));
  }

  lemma {:induction false} ToHexSlice(b: seq<byte>, i: nat, j: nat)
    requires i <= j <= |b|
    ensures ToHex(b)[2 * i..2 * j] == ToHex(b[i..j])
  {
    Cut(b, i, j);
    ToHexMiddle(b[..i], b[i..j], b[j..]);
    assert 2 * |b[..i]| == 2 * i && 2 * |b[..i]| + 2 * |b[i..j]| == 2 * j;
  }

  lemma {:induction false} ToHexAt(b: seq<byte>, k: nat)
    requires k < |b|
    ensures ToHex(b)[2 * k] == HexDigit(b[k] / 16) && ToHex(b)[2 * k + 1] == HexDigit(b[k] % 16)
  {
    if k > 0 { ToHexAt(b[1..], k - 1); }
  }

  function Zeros(n: nat): (b: seq<byte>)
    ensures |b| == n && forall i :: 0 <= i < n ==> b[i] == 0
  {
    seq(n, _ => 0)
  }

  // ----- digit by digit -----

  /** Byte i of a little-endian integer is its i-th base-256 digit. */
  lemma {:induction false} LEAt(n: nat, v: nat, i: nat)
    requires i < n
    ensures LE(n, v)[i] == v / Pow256(i) % 256
  {
    if i > 0 {
      LEAt(n - 1, v / 256, i - 1);
      DivideTwice(v, Pow256(i - 1));
    }
  }

  lemma {:induction false} DivideTwice(v: nat, d: nat)
    requires d > 0
    ensures v / 256 / d == v / (256 * d)
  {
    var q := v / 256 / d;
    assert v / 256 == d * q + v / 256 % d;
    assert v == 256 * (v / 256) + v % 256;
    assert v == (256 * d) * q + (256 * (v / 256 % d) + v % 256);
    Quotient(v, 256 * d, q, 256 * (v / 256 % d) + v % 256);
  }

  lemma {:induction false} Quotient(v: nat, d: nat, q: nat, r: nat)
    requires d > 0 && v == d * q + r && r < d
    ensures v / d == q
  {
    assert v == d * (v / d) + v % d;
    assert (v / d - q) * d == r - v % d;
    assert (q - v / d) * d == v % d - r;
    FactorBelow(v / d - q, d);
    FactorBelow(q - v / d, d);
  }

  lemma {:induction false} FactorBelow(x: int, d: nat)
    requires d > 0 && x * d < d
    ensures x <= 0
  {}

  /** Two digits a byte, the high one first, in lower case. */
  lemma {:induction false} ToHexWrites(b: seq<byte>, i: nat)
    requires i < |b|
    ensures ToHex(b)[2 * i] == "0123456789abcdef"[b[i] / 16] && ToHex(b)[2 * i + 1] == "0123456789abcdef"[b[i] % 16]
  {
    if i > 0 { ToHexWrites(b[1..], i - 1); }
  }

  predicate IsDigit(c: char, d: nat)
    requires d < 16
  {
    c == "0123456789abcdef"[d] || c == "0123456789ABCDEF"[d]
  }

  lemma {:induction false} DigitReads(c: char, d: nat)
    requires d < 16 && IsDigit(c, d)
    ensures HexValue(c) == d
  {
    match d
    case 0 => case 1 => case 2 => case 3 => case 4 => case 5 => case 6 => case 7 =>
    case 8 => case 9 => case 10 => case 11 => case 12 => case 13 => case 14 => case 15 =>
  }

  lemma {:induction false} FirstPair(s: string)
    requires IsHex(s) && s != ""
    ensures IsHex(s[2..]) && |FromHex(s)| == 1 + |FromHex(s[2..])|
    ensures FromHex(s)[0] == 16 * HexValue(s[0]) + HexValue(s[1])
    ensures forall j :: 0 <= j < |FromHex(s[2..])| ==> FromHex(s)[j + 1] == FromHex(s[2..])[j]
  {}

  /** Reading takes them in the same order, in either case. */
  lemma {:induction false} FromHexReads(s: string, i: nat, high: nat, low: nat)
    requires IsHex(s) && 2 * i + 1 < |s| && high < 16 && low < 16
    requires IsDigit(s[2 * i], high) && IsDigit(s[2 * i + 1], low)
    ensures i < |FromHex(s)| && FromHex(s)[i] == 16 * high + low
  {
    FirstPair(s);
    if i > 0 {
      FromHexReads(s[2..], i - 1, high, low);
      assert FromHex(s)[(i - 1) + 1] == FromHex(s[2..])[i - 1];
    } else {
      DigitReads(s[0], high);
      DigitReads(s[1], low);
    }
  }
}
