/** Reading IPv4 and IPv6 address texts into numbers. */
module IpReader {
  import opened Shared
  import B = Bytes

  // ----- splitting and joining -----

  function SplitOn(s: string, c: char): (parts: seq<string>)
    ensures parts != []
  {
    if s == "" then [""]
    else if s[0] == c then [""] + SplitOn(s[1..], c)
    else var more := SplitOn(s[1..], c); [[s[0]] + more[0]] + more[1..]
  }

  /** String.split on "::". */
  function SplitDouble(s: string): (parts: seq<string>)
    ensures parts != []
    decreases |s|
  {
    if |s| < 2 then [s]
    else if s[0] == ':' && s[1] == ':' then [""] + SplitDouble(s[2..])
    else var more := SplitDouble(s[1..]); [[s[0]] + more[0]] + more[1..]
  }

  function Join(parts: seq<string>, c: char): string {
    if parts == [] then "" else if |parts| == 1 then parts[0] else parts[0] + ([c] + Join(parts[1..], c))
  }

  lemma {:induction false} SplitNothing(s: string, c: char)
    requires c !in s
    ensures SplitOn(s, c) == [s]
  {
    if s != "" {
      SplitNothing(s[1..], c);
      ConsTail(s);
    }
  }

  lemma {:induction false} SplitFirst(a: string, rest: string, c: char)
    requires c !in a
    ensures SplitOn(a + ([c] + rest), c) == [a] + SplitOn(rest, c)
  {
    if a == "" {
      assert "" + ([c] + rest) == [c] + rest && ([c] + rest)[1..] == rest;
    } else {
      assert (a + ([c] + rest))[1..] == a[1..] + ([c] + rest);
      SplitFirst(a[1..], rest, c);
      ConsTail(a);
    }
  }

  lemma {:induction false} SplitOfJoin(parts: seq<string>, c: char)
    requires parts != [] && forall p :: p in parts ==> c !in p
    ensures SplitOn(Join(parts, c), c) == parts
  {
    ConsTail(parts);
    if |parts| == 1 {
      SplitNothing(parts[0], c);
    } else {
      SplitFirst(parts[0], Join(parts[1..], c), c);
      SplitOfJoin(parts[1..], c);
    }
  }

  predicate NoDouble(s: string) { forall i :: 0 <= i < |s| - 1 ==> !(s[i] == ':' && s[i + 1] == ':') }

  lemma {:induction false} SplitNoDouble(s: string)
    requires NoDouble(s)
    ensures SplitDouble(s) == [s]
    decreases |s|
  {
    if |s| >= 2 {
      assert !(s[0] == ':' && s[0 + 1] == ':');
      NoDoubleTail(s);
      SplitNoDouble(s[1..]);
      ConsTail(s);
    }
  }

  lemma {:induction false} NoDoubleTail(s: string)
    requires NoDouble(s) && s != ""
    ensures NoDouble(s[1..])
  {
    forall i | 0 <= i < |s[1..]| - 1 ensures !(s[1..][i] == ':' && s[1..][i + 1] == ':') {
      assert !(s[i + 1] == ':' && s[i + 1 + 1] == ':');
    }
  }

  lemma {:induction false} SplitAtDouble(a: string, rest: string)
    requires NoDouble(a) && (a != "" ==> a[|a| - 1] != ':')
    ensures SplitDouble(a + ("::" + rest)) == [a] + SplitDouble(rest)
    decreases |a|
  {
    var s := a + ("::" + rest);
    if a == "" {
      assert s[2..] == rest;
    } else {
      assert s[1..] == a[1..] + ("::" + rest);
      assert |a| > 1 ==> !(a[0] == ':' && a[0 + 1] == ':');
      NoDoubleTail(a);
      SplitAtDouble(a[1..], rest);
      ConsTail(a);
    }
  }

  /** What stands in front of the parts that follow `parts`. */
  function Lead(parts: seq<string>, c: char): string {
    if parts == [] then "" else Join(parts, c) + [c]
  }

  lemma {:induction false} JoinLead(parts: seq<string>, rest: seq<string>, c: char)
    requires rest != []
    ensures Join(parts + rest, c) == Lead(parts, c) + Join(rest, c)
  {
    if parts == [] {
      assert parts + rest == rest;
    } else {
      assert (parts + rest)[1..] == parts[1..] + rest;
      JoinLead(parts[1..], rest, c);
      if |parts| == 1 {
        assert parts[1..] == [] && Lead([], c) + Join(rest, c) == Join(rest, c);
        ConcatAssociative(parts[0], [c], Join(rest, c));
      } else {
        Regroup(parts[0], [c], Join(parts[1..], c), Join(rest, c));
      }
    }
  }

  lemma {:induction false} Regroup(a: string, c: string, more: string, rest: string)
    ensures a + (c + ((more + c) + rest)) == ((a + (c + more)) + c) + rest
  {}

  // ----- groups and octets -----

  predicate IsLowerHex(c: char) { '0' <= c <= '9' || 'a' <= c <= 'f' }

  predicate IsGroup(t: string) { 1 <= |t| <= 4 && forall i :: 0 <= i < |t| ==> IsLowerHex(t[i]) }

  predicate IsDecimal(t: string) { 1 <= |t| <= 3 && forall i :: 0 <= i < |t| ==> '0' <= t[i] <= '9' }

  function Digit(c: char): nat { if B.HexValue(c) >= 0 then B.HexValue(c) else 0 }

  /** parseInt(t, 16) and Number(t) of a string of digits. */
  function Digits(t: string, base: nat): nat {
    if t == "" then 0 else Digits(t[..|t| - 1], base) * base + Digit(t[|t| - 1])
  }

  /** toString(16): no leading zeros. */
  function HexText(v: nat): string {
    if v < 16 then [B.HexDigit(v)] else HexText(v / 16) + [B.HexDigit(v % 16)]
  }

  /** The hexadecimal digits of a text of one to four weigh 1, 16, 256 and 4096 from the right. */
  lemma {:induction false} HexDigitsWeigh(t: string)
    requires 1 <= |t| <= 4
    ensures Digits(t, 16)
      == Digit(t[|t| - 1]) + (if |t| > 1 then 16 * Digit(t[|t| - 2]) else 0)
        + (if |t| > 2 then 256 * Digit(t[|t| - 3]) else 0) + (if |t| > 3 then 4096 * Digit(t[|t| - 4]) else 0)
  {
    DigitsOfFront(t, 16);
    if |t| > 1 { DigitsOfFront(t[..|t| - 1], 16); }
    if |t| > 2 { DigitsOfFront(t[..|t| - 2], 16); }
    if |t| > 3 { DigitsOfFront(t[..|t| - 3], 16); }
  }

  lemma {:induction false} DigitsOfFront(t: string, base: nat)
    requires t != ""
    ensures Digits(t, base) == Digits(t[..|t| - 1], base) * base + Digit(t[|t| - 1])
    ensures forall n: nat :: n <= |t| - 1 ==> t[..|t| - 1][..n] == t[..n]
  {}

  lemma {:induction false} DigitMeans(c: char, d: nat)
    requires d < 16 && c == "0123456789abcdef"[d]
    ensures Digit(c) == d
  {
    B.DigitReads(c, d);
  }

  lemma {:induction false} HexTextReads(v: nat, k: nat)
    requires v < Pow16(k) && k >= 1
    ensures var t := HexText(v); 1 <= |t| <= k && (forall i :: 0 <= i < |t| ==> IsLowerHex(t[i])) && Digits(t, 16) == v
    decreases k
  {
    if v >= 16 {
      HexTextReads(v / 16, k - 1);
      AppendDigit(HexText(v / 16), v % 16);
    } else {
      AppendDigit("", v);
      assert "" + [B.HexDigit(v)] == [B.HexDigit(v)];
    }
  }

  lemma {:induction false} AppendDigit(t: string, d: nat)
    requires d < 16
    ensures IsLowerHex(B.HexDigit(d)) && Digits(t + [B.HexDigit(d)], 16) == Digits(t, 16) * 16 + d
  {
    B.HexDigitValue(d);
    assert (t + [B.HexDigit(d)])[..|t|] == t;
  }

  function Pow16(n: nat): nat { if n == 0 then 1 else 16 * Pow16(n - 1) }

  lemma {:induction false} DigitsBelow(t: string)
    requires forall i :: 0 <= i < |t| ==> IsLowerHex(t[i])
    ensures Digits(t, 16) < Pow16(|t|)
  {
    if t != "" { DigitsBelow(t[..|t| - 1]); }
  }

  lemma {:induction false} GroupBelow(t: string)
    requires IsGroup(t)
    ensures Digits(t, 16) < 0x1_0000
  {
    DigitsBelow(t);
    assert Pow16(1) == 16 && Pow16(2) == 256 && Pow16(3) == 4096 && Pow16(4) == 65536;
  }

  // ----- IPv4 -----

  predicate IsOctet(t: string) { IsDecimal(t) && Digits(t, 10) <= 255 }

  predicate IsQuad(parts: seq<string>) { |parts| == 4 && forall p :: p in parts ==> IsOctet(p) }

  /** Octet texts as base-256 digits, most significant first. */
  function Accumulated(parts: seq<string>): nat {
    if parts == [] then 0 else Accumulated(parts[..|parts| - 1]) * 256 + Digits(parts[|parts| - 1], 10)
  }

  lemma {:induction false} AccumulatedBelow(parts: seq<string>)
    requires forall p :: p in parts ==> IsOctet(p)
    ensures Accumulated(parts) < B.Pow256(|parts|)
  {
    if parts != [] {
      AccumulatedBelow(parts[..|parts| - 1]);
      assert parts[|parts| - 1] in parts;
    }
  }

  /** The octets of a dotted quad weigh 2^24, 2^16, 2^8 and 1. */
  lemma {:induction false} QuadWeighs(parts: seq<string>)
    requires |parts| == 4
    ensures Accumulated(parts)
      == Digits(parts[0], 10) * 0x100_0000 + Digits(parts[1], 10) * 0x1_0000 + Digits(parts[2], 10) * 0x100
        + Digits(parts[3], 10)
  {
    assert parts[..3][..2] == parts[..2] && parts[..2][..1] == parts[..1] && parts[..1][..0] == [];
    assert Accumulated(parts[..1]) == Digits(parts[0], 10);
    assert Accumulated(parts[..2]) == Accumulated(parts[..1]) * 256 + Digits(parts[1], 10);
    assert Accumulated(parts[..3]) == Accumulated(parts[..2]) * 256 + Digits(parts[2], 10);
  }

  function DottedValue(ip: string): Option<nat> {
    if IsQuad(SplitOn(ip, '.')) then Some(Accumulated(SplitOn(ip, '.'))) else None
  }

  /** A 32-bit integer read as signed. */
  function Signed(x: int): int {
    var m := x % 0x1_0000_0000;
    if m >= 0x8000_0000 then m - 0x1_0000_0000 else m
  }

  /** ipv4ToInt: the accumulator wraps as a signed 32-bit integer and is read as unsigned at the
      end. */
  method Ipv4ToInt(ip: string) returns (r: Option<nat>)
    ensures r == DottedValue(ip)
    ensures r.Some? ==> r.value < 0x1_0000_0000
  {
    var parts := SplitOn(ip, '.');
    if |parts| != 4 { return None; }
    var n: int := 0;
    for i := 0 to |parts|
      invariant forall p :: p in parts[..i] ==> IsOctet(p)
      invariant n == Signed(Accumulated(parts[..i]))
    {
      assert parts[i] in parts;
      if !IsDecimal(parts[i]) { return None; }
      var octet := Digits(parts[i], 10);
      if octet > 255 { return None; }
      assert parts[..i + 1][..i] == parts[..i];
      WrapStep(Accumulated(parts[..i]), octet);
      n := Signed(n * 256 + octet);
    }
    assert parts[..4] == parts;
    QuadBelow(parts);
    return Some(n % 0x1_0000_0000);
  }

  lemma {:induction false} WrapStep(a: nat, octet: nat)
    ensures Signed(Signed(a) * 256 + octet) == Signed(a * 256 + octet)
  {
    var k := a / 0x1_0000_0000 + (if a % 0x1_0000_0000 >= 0x8000_0000 then 1 else 0);
    assert a == Signed(a) + k * 0x1_0000_0000;
    ShiftMod(Signed(a) * 256 + octet, k * 256);
  }

  lemma {:induction false} ShiftMod(x: int, k: int)
    ensures (x + k * 0x1_0000_0000) % 0x1_0000_0000 == x % 0x1_0000_0000
  {}

  lemma {:induction false} QuadBelow(parts: seq<string>)
    requires IsQuad(parts)
    ensures Accumulated(parts) < 0x1_0000_0000
  {
    AccumulatedBelow(parts);
    assert B.Pow256(2) == 0x1_0000 && B.Pow256(4) == 0x1_0000_0000;
  }

  lemma {:induction false} DottedReads(quad: seq<string>)
    requires IsQuad(quad)
    ensures DottedValue(Join(quad, '.')) == Some(Accumulated(quad))
  {
    SplitOfJoin(quad, '.');
  }

  // ----- IPv6 -----

  function FirstDot(s: string): int {
    if s == "" then -1 else if s[0] == '.' then 0 else var i := FirstDot(s[1..]); if i < 0 then -1 else i + 1
  }

  /** lastIndexOf(':', k) */
  function LastColon(s: string, k: nat): (i: int)
    requires k < |s|
    ensures -1 <= i <= k
  {
    if s[k] == ':' then k else if k == 0 then -1 else LastColon(s, k - 1)
  }

  lemma {:induction false} FirstDotBounds(s: string)
    ensures -1 <= FirstDot(s) < |s|
  {
    if s != "" { FirstDotBounds(s[1..]); }
  }

  /** A trailing embedded IPv4 address becomes two hex groups. */
  function FoldEmbedded(ip: string): Option<string> {
    FirstDotBounds(ip);
    var dot := FirstDot(ip);
    if dot < 0 then Some(ip)
    else
      var colon := LastColon(ip, dot);
      if colon < 0 then None
      else match DottedValue(ip[colon + 1..])
        case None => None
        case Some(v) => Some(ip[..colon + 1] + (HexText(v / 0x1_0000) + (":" + HexText(v % 0x1_0000))))
  }

  function Zeros(n: nat): seq<string> { seq(n, _ => "0") }

  /** The eight groups, with "::" filled up by at least one zero group. */
  function Expand(halves: seq<string>): Option<seq<string>>
    requires halves != []
  {
    var head := if halves[0] != "" then SplitOn(halves[0], ':') else [];
    var tail := if |halves| == 2 && halves[1] != "" then SplitOn(halves[1], ':') else [];
    if |halves| > 2 then None
    else if |halves| == 2 then (if |head| + |tail| > 7 then None else Some(head + (Zeros(8 - |head| - |tail|) + tail)))
    else if |head| == 8 then Some(head) else None
  }

  predicate AllGroups(ts: seq<string>) { forall t :: t in ts ==> IsGroup(t) }

  function Number(groups: seq<string>): nat {
    if groups == [] then 0 else Number(groups[..|groups| - 1]) * 0x1_0000 + Digits(groups[|groups| - 1], 16)
  }

  function Ipv6Value(ip: string): Option<nat> {
    match FoldEmbedded(SplitOn(ip, '%')[0])
    case None => None
    case Some(folded) =>
      match Expand(SplitDouble(folded))
      case None => None
      case Some(groups) => if AllGroups(groups) then Some(Number(groups)) else None
  }

  method Accumulate(groups: seq<string>) returns (r: Option<nat>)
    ensures r == if AllGroups(groups) then Some(Number(groups)) else None
  {
    var result := 0;
    for i := 0 to |groups|
      invariant AllGroups(groups[..i]) && result == Number(groups[..i])
    {
      assert groups[i] in groups && groups[..i + 1][..i] == groups[..i];
      if !IsGroup(groups[i]) { return None; }
      result := result * 0x1_0000 + Digits(groups[i], 16);
    }
    assert groups[..|groups|] == groups;
    return Some(result);
  }

  method Ipv6ToBigInt(ip: string) returns (r: Option<nat>)
    ensures r == Ipv6Value(ip)
  {
    var folded := FoldEmbedded(SplitOn(ip, '%')[0]);
    if folded == None { return None; }
    var groups := Expand(SplitDouble(folded.value));
    if groups == None { return None; }
    r := Accumulate(groups.value);
  }

  // ----- the textual forms of section 2.2 of RFC 4291 -----

  /** Groups in front of "::" and, if there is a "::", behind it; the last two groups may be
      written as an IPv4 address. */
  datatype Form = Form(head: seq<string>, tail: Option<seq<string>>, quad: Option<seq<string>>)

  predicate FormOk(f: Form) {
    && AllGroups(f.head) && (f.tail.Some? ==> AllGroups(f.tail.value)) && (f.quad.Some? ==> IsQuad(f.quad.value))
    && var low := if f.quad.Some? then 2 else 0;
       if f.tail.Some? then |f.head| + |f.tail.value| + low <= 7 else |f.head| + low == 8
  }

  function Text(f: Form): string {
    var last := if f.quad.Some? then [Join(f.quad.value, '.')] else [];
    match f.tail
    case None => Join(f.head + last, ':')
    case Some(t) => Join(f.head, ':') + ("::" + Join(t + last, ':'))
  }

  function Low(quad: Option<seq<string>>): seq<string>
    requires quad.Some? ==> IsQuad(quad.value)
  {
    if quad == None then []
    else [HexText(Accumulated(quad.value) / 0x1_0000), HexText(Accumulated(quad.value) % 0x1_0000)]
  }

  /** The eight groups a form stands for. */
  function GroupsOf(f: Form): seq<string>
    requires FormOk(f)
  {
    match f.tail
    case None => f.head + Low(f.quad)
    case Some(t) => f.head + (Zeros(8 - |f.head| - |t + Low(f.quad)|) + (t + Low(f.quad)))
  }

  function Plain(f: Form): Form
    requires FormOk(f)
  {
    match f.tail
    case None => Form(f.head + Low(f.quad), None, None)
    case Some(t) => Form(f.head, Some(t + Low(f.quad)), None)
  }

  lemma {:induction false} LowGroups(quad: Option<seq<string>>)
    requires quad.Some? ==> IsQuad(quad.value)
    ensures AllGroups(Low(quad))
    ensures quad.Some? ==> Number(Low(quad)) == Accumulated(quad.value)
  {
    if quad.Some? {
      QuadBelow(quad.value);
      var v := Accumulated(quad.value);
      assert Pow16(2) == 256 && Pow16(4) == 65536;
      HexTextReads(v / 0x1_0000, 4);
      HexTextReads(v % 0x1_0000, 4);
      NumberOfTwo(HexText(v / 0x1_0000), HexText(v % 0x1_0000));
    }
  }

  lemma {:induction false} NumberOfTwo(a: string, b: string)
    ensures Number([a, b]) == Digits(a, 16) * 0x1_0000 + Digits(b, 16)
  {
    assert [a, b][..1] == [a] && [a][..0] == [];
    assert Number([a]) == Number([]) * 0x1_0000 + Digits(a, 16);
  }

  lemma {:induction false} PlainOk(f: Form)
    requires FormOk(f)
    ensures FormOk(Plain(f)) && GroupsOf(Plain(f)) == GroupsOf(f) && AllGroups(GroupsOf(f)) && |GroupsOf(f)| == 8
  {
    LowGroups(f.quad);
    var p := Plain(f);
    assert Low(p.quad) == [];
    if f.tail.Some? {
      assert p.tail.value + [] == p.tail.value;
    } else {
      assert p.head + [] == p.head;
    }
  }

  lemma {:induction false} GroupChars(t: string, c: char)
    requires IsGroup(t) && !IsLowerHex(c)
    ensures c !in t
  {}

  lemma {:induction false} OctetChars(t: string, c: char)
    requires IsOctet(t) && !('0' <= c <= '9')
    ensures c !in t
  {}

  lemma {:induction false} JoinWithout(parts: seq<string>, sep: char, c: char)
    requires c != sep && forall p :: p in parts ==> c !in p
    ensures c !in Join(parts, sep)
  {
    if |parts| > 1 { JoinWithout(parts[1..], sep, c); }
  }

  predicate Inner(s: string) { s != "" && s[0] != ':' && s[|s| - 1] != ':' && NoDouble(s) }

  lemma {:induction false} JoinIsInner(parts: seq<string>)
    requires parts != [] && forall p :: p in parts ==> p != "" && ':' !in p
    ensures Inner(Join(parts, ':'))
  {
    assert parts[0] in parts;
    InnerOne(parts[0]);
    if |parts| > 1 {
      assert forall p :: p in parts[1..] ==> p in parts;
      JoinIsInner(parts[1..]);
      InnerCons(parts[0], Join(parts[1..], ':'));
    }
  }

  lemma {:induction false} InnerOne(a: string)
    requires a != "" && ':' !in a
    ensures Inner(a)
  {
    assert a[0] in a && a[|a| - 1] in a && forall i :: 0 <= i < |a| ==> a[i] in a;
  }

  lemma {:induction false} InnerCons(a: string, b: string)
    requires a != "" && ':' !in a && Inner(b)
    ensures Inner(a + ([':'] + b))
  {
    var s := a + ([':'] + b);
    assert a[0] in a && forall i :: 0 <= i < |a| ==> a[i] in a;
    forall i | 0 <= i < |s| - 1 ensures !(s[i] == ':' && s[i + 1] == ':') {
      if i > |a| {
        var j := i - |a| - 1;
        assert s[i] == b[j] && s[i + 1] == b[j + 1];
        assert !(b[j] == ':' && b[j + 1] == ':');
      }
    }
  }

  // ----- reading a form -----

  lemma {:induction false} GroupsJoin(ts: seq<string>)
    requires ts != [] && AllGroups(ts)
    ensures Inner(Join(ts, ':')) && SplitOn(Join(ts, ':'), ':') == ts
  {
    forall t | t in ts ensures t != "" && ':' !in t { GroupChars(t, ':'); }
    JoinIsInner(ts);
    SplitOfJoin(ts, ':');
  }

  lemma {:induction false} SplitAround(a: string, b: string)
    requires (a == "" || Inner(a)) && (b == "" || Inner(b))
    ensures SplitDouble(a + ("::" + b)) == [a, b]
  {
    SplitAtDouble(a, b);
    SplitNoDouble(b);
  }

  lemma {:induction false} ReadShortened(f: Form)
    requires FormOk(f) && f.quad == None && f.tail.Some?
    ensures Expand(SplitDouble(Text(f))) == Some(GroupsOf(f))
  {
    if f.head != [] { GroupsJoin(f.head); }
    if f.tail.value != [] { GroupsJoin(f.tail.value); }
    assert Low(f.quad) == [] && f.tail.value + [] == f.tail.value;
    SplitAround(Join(f.head, ':'), Join(f.tail.value, ':'));
  }

  lemma {:induction false} ReadFull(f: Form)
    requires FormOk(f) && f.quad == None && f.tail == None
    ensures Expand(SplitDouble(Text(f))) == Some(GroupsOf(f))
  {
    assert Low(f.quad) == [] && f.head + [] == f.head;
    GroupsJoin(f.head);
    SplitNoDouble(Join(f.head, ':'));
  }

  lemma {:induction false} ReadPlain(f: Form)
    requires FormOk(f) && f.quad == None
    ensures Expand(SplitDouble(Text(f))) == Some(GroupsOf(f))
  {
    if f.tail.Some? { ReadShortened(f); } else { ReadFull(f); }
  }

  lemma {:induction false} FirstDotOfConcat(pre: string, rest: string)
    requires '.' !in pre && FirstDot(rest) >= 0
    ensures FirstDot(pre + rest) == |pre| + FirstDot(rest)
  {
    if pre == "" {
      assert "" + rest == rest;
    } else {
      assert (pre + rest)[1..] == pre[1..] + rest;
      FirstDotOfConcat(pre[1..], rest);
    }
  }

  lemma {:induction false} NoDot(s: string)
    ensures FirstDot(s) < 0 <==> '.' !in s
  {
    if s != "" { NoDot(s[1..]); }
  }

  lemma {:induction false} LastColonBefore(pre: string, rest: string, k: nat)
    requires pre != "" && pre[|pre| - 1] == ':' && ':' !in rest && |pre| - 1 <= k < |pre| + |rest|
    ensures LastColon(pre + rest, k) == |pre| - 1
    decreases k
  {
    if k >= |pre| {
      assert (pre + rest)[k] == rest[k - |pre|];
      LastColonBefore(pre, rest, k - 1);
    }
  }

  /** Behind a colon, an IPv4 address is folded into the two groups of its value. */
  lemma {:induction false} FoldAt(pre: string, quad: seq<string>)
    requires pre != "" && pre[|pre| - 1] == ':' && '.' !in pre && IsQuad(quad)
    ensures FoldEmbedded(pre + Join(quad, '.')) == Some(pre + Join(Low(Some(quad)), ':'))
  {
    var rest := Join(quad, '.');
    QuadText(quad);
    NoDot(rest);
    FirstDotBounds(rest);
    FirstDotOfConcat(pre, rest);
    LastColonBefore(pre, rest, FirstDot(pre + rest));
    DottedReads(quad);
    assert (pre + rest)[|pre|..] == rest && (pre + rest)[..|pre|] == pre;
    JoinTwo(Low(Some(quad)), ':');
  }

  lemma {:induction false} JoinTwo(parts: seq<string>, c: char)
    requires |parts| == 2
    ensures Join(parts, c) == parts[0] + ([c] + parts[1])
  {
    assert parts[1..] == [parts[1]];
  }

  lemma {:induction false} QuadText(quad: seq<string>)
    requires IsQuad(quad)
    ensures ':' !in Join(quad, '.') && '%' !in Join(quad, '.') && '.' in Join(quad, '.')
  {
    forall p | p in quad ensures ':' !in p && '%' !in p { OctetChars(p, ':'); OctetChars(p, '%'); }
    JoinWithout(quad, '.', ':');
    JoinWithout(quad, '.', '%');
    assert Join(quad, '.')[|quad[0]|] == '.';
  }

  /** What stands in front of the low two groups of a form. */
  function Front(f: Form): string {
    if f.tail == None then Lead(f.head, ':') else Join(f.head, ':') + ("::" + Lead(f.tail.value, ':'))
  }

  lemma {:induction false} FrontThen(f: Form, rest: seq<string>)
    requires rest != []
    ensures (if f.tail == None then Join(f.head + rest, ':')
      else Join(f.head, ':') + ("::" + Join(f.tail.value + rest, ':')))
      == Front(f) + Join(rest, ':')
  {
    if f.tail == None {
      JoinLead(f.head, rest, ':');
    } else {
      JoinLead(f.tail.value, rest, ':');
      ConcatAssociative("::", Lead(f.tail.value, ':'), Join(rest, ':'));
      ConcatAssociative(Join(f.head, ':'), "::" + Lead(f.tail.value, ':'), Join(rest, ':'));
    }
  }

  lemma {:induction false} JoinChars(ts: seq<string>, c: char)
    requires AllGroups(ts) && !IsLowerHex(c) && c != ':'
    ensures c !in Join(ts, ':')
  {
    forall t | t in ts ensures c !in t { GroupChars(t, c); }
    JoinWithout(ts, ':', c);
  }

  lemma {:induction false} FrontChars(f: Form, c: char)
    requires FormOk(f) && !IsLowerHex(c) && c != ':'
    ensures c !in Front(f)
    ensures f.quad.Some? ==> Front(f) != "" && Front(f)[|Front(f)| - 1] == ':'
  {
    JoinChars(f.head, c);
    if f.tail.Some? { JoinChars(f.tail.value, c); }
  }

  lemma {:induction false} JoinOne(s: string, c: char)
    ensures Join([s], c) == s
  {}

  /** Folding turns a form into the one with hex groups throughout. */
  lemma {:induction false} FoldForm(f: Form)
    requires FormOk(f)
    ensures FoldEmbedded(Text(f)) == Some(Text(Plain(f)))
  {
    if f.quad.Some? {
      FrontThen(f, [Join(f.quad.value, '.')]);
      JoinOne(Join(f.quad.value, '.'), ':');
      FrontThen(f, Low(f.quad));
      FrontChars(f, '.');
      FoldAt(Front(f), f.quad.value);
      PlainText(f);
    } else {
      PlainIsSame(f);
      TextChars(f, '.');
      NoDot(Text(f));
    }
  }

  lemma {:induction false} PlainText(f: Form)
    requires FormOk(f) && f.quad.Some?
    ensures Text(Plain(f)) == if f.tail == None then Join(f.head + Low(f.quad), ':')
                              else Join(f.head, ':') + ("::" + Join(f.tail.value + Low(f.quad), ':'))
  {
    var p := Plain(f);
    assert p.head + [] == p.head;
    if p.tail.Some? { assert p.tail.value + [] == p.tail.value; }
  }

  lemma {:induction false} PlainIsSame(f: Form)
    requires FormOk(f) && f.quad == None
    ensures Plain(f) == f
  {
    assert f.head + [] == f.head;
    if f.tail.Some? { assert f.tail.value + [] == f.tail.value; }
  }

  lemma {:induction false} TextChars(f: Form, c: char)
    requires FormOk(f) && !IsLowerHex(c) && c != ':' && (f.quad == None || c == '%')
    ensures c !in Text(f)
  {
    if f.quad.Some? {
      FrontThen(f, [Join(f.quad.value, '.')]);
      JoinOne(Join(f.quad.value, '.'), ':');
      FrontChars(f, c);
      QuadText(f.quad.value);
    } else {
      JoinChars(f.head, c);
      assert f.head + [] == f.head;
      if f.tail.Some? {
        JoinChars(f.tail.value, c);
        assert f.tail.value + [] == f.tail.value;
      }
    }
  }

  /** Every form reads back to the number of its eight groups, with or without a zone behind it. */
  lemma {:induction false} FormReads(f: Form, zone: string)
    requires FormOk(f)
    ensures Ipv6Value(Text(f)) == Some(Number(GroupsOf(f)))
    ensures Ipv6Value(Text(f) + ("%" + zone)) == Some(Number(GroupsOf(f)))
  {
    TextChars(f, '%');
    SplitNothing(Text(f), '%');
    SplitFirst(Text(f), zone, '%');
    FoldForm(f);
    PlainOk(f);
    ReadPlain(Plain(f));
  }

  // ----- every address has a form -----

  function Pow65536(k: nat): (p: nat)
    ensures p >= 1
  { if k == 0 then 1 else 0x1_0000 * Pow65536(k - 1) }

  /** The low `k` groups of a number, written without leading zeros. */
  function HexGroups(n: nat, k: nat): (ts: seq<string>)
    ensures |ts| == k
  {
    if k == 0 then [] else HexGroups(n / 0x1_0000, k - 1) + [HexText(n % 0x1_0000)]
  }

  lemma {:induction false} HexGroupsRead(n: nat, k: nat)
    requires n < Pow65536(k)
    ensures AllGroups(HexGroups(n, k)) && Number(HexGroups(n, k)) == n
    decreases k
  {
    if k > 0 {
      HexGroupsRead(n / 0x1_0000, k - 1);
      assert Pow16(2) == 256 && Pow16(4) == 65536;
      HexTextReads(n % 0x1_0000, 4);
      assert HexGroups(n, k)[..k - 1] == HexGroups(n / 0x1_0000, k - 1);
    }
  }

  lemma {:induction false} NumberBelow(groups: seq<string>)
    requires AllGroups(groups)
    ensures Number(groups) < Pow65536(|groups|)
  {
    if groups != [] {
      NumberBelow(groups[..|groups| - 1]);
      assert groups[|groups| - 1] in groups;
      GroupBelow(groups[|groups| - 1]);
    }
  }

  /** Group `i` of a form is the 16 bits of its number at that place. */
  lemma {:induction false} GroupOfNumber(groups: seq<string>, i: nat)
    requires AllGroups(groups) && i < |groups|
    ensures Digits(groups[i], 16) == Number(groups) / Pow65536(|groups| - 1 - i) % 0x1_0000
    decreases |groups|
  {
    var k := |groups| - 1;
    assert groups[k] in groups;
    GroupBelow(groups[k]);
    if i < k {
      GroupOfNumber(groups[..k], i);
      DivideTwice(Number(groups[..k]), Digits(groups[k], 16), Pow65536(k - 1 - i));
      assert Number(groups) == Number(groups[..k]) * 0x1_0000 + Digits(groups[k], 16);
      assert Pow65536(k - i) == 0x1_0000 * Pow65536(k - 1 - i);
    } else {
      LastGroup(Number(groups[..k]), Digits(groups[k], 16));
      assert Pow65536(0) == 1;
    }
  }

  lemma {:induction false} LastGroup(n: nat, low: nat)
    requires low < 0x1_0000
    ensures (n * 0x1_0000 + low) / 1 % 0x1_0000 == low
  {}

  lemma {:induction false} DivideTwice(n: nat, low: nat, p: nat)
    requires low < 0x1_0000 && p >= 1
    ensures (n * 0x1_0000 + low) / (0x1_0000 * p) == n / p
  {
    var x, q := n * 0x1_0000 + low, n / p;
    assert n == q * p + n % p;
    assert q * (0x1_0000 * p) == (q * p) * 0x1_0000;
    assert x == q * (0x1_0000 * p) + ((n % p) * 0x1_0000 + low);
    QuotientOf(x, 0x1_0000 * p, q, (n % p) * 0x1_0000 + low);
  }

  lemma {:induction false} QuotientOf(x: nat, d: nat, q: nat, r: nat)
    requires d > 0 && x == q * d + r && r < d
    ensures x / d == q
  {
    assert x == (x / d) * d + x % d;
    assert (x / d - q) * d == r - x % d;
    Below(x / d - q, d);
    Below(q - x / d, d);
  }

  lemma {:induction false} Below(k: int, d: nat)
    requires d > 0 && k * d < d
    ensures k <= 0
  {}

  /** The texts that read as numbers below 2^128 and the numbers cover each other: each form is
      such a number, and each such number is what its full form reads as. */
  lemma {:induction false} EveryAddressReads(n: nat)
    requires n < Pow65536(8)
    ensures var f := Form(HexGroups(n, 8), None, None); FormOk(f) && Ipv6Value(Text(f)) == Some(n)
  {
    HexGroupsRead(n, 8);
    var f := Form(HexGroups(n, 8), None, None);
    assert f.head + [] == f.head;
    FormReads(f, "");
  }

  lemma {:induction false} EightGroups(ip: string)
    ensures Ipv6Value(ip).Some? ==> Ipv6Value(ip).value < Pow65536(8)
  {
    if Ipv6Value(ip).Some? {
      var groups := Expand(SplitDouble(FoldEmbedded(SplitOn(ip, '%')[0]).value)).value;
      NumberBelow(groups);
    }
  }
}
