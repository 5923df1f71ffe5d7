/** The shift-and-mask tests for addresses that are not public unicast, against the prefix
    ranges they stand for. */
module IpBlocks {
  import opened Shared
  import R = IpReader

  datatype Block = Block(base: bv32, prefix: bv6)  // a prefix length is at most 32
  datatype Range = Range(first: bv32, last: bv32)

  const BLOCKS := 15

  /** The table of excluded IPv4 blocks: base address and prefix length. */
  function V4Block(i: nat): (b: Block)
    requires i < BLOCKS
  {
    if i == 0 then Block(0x0000_0000, 8)
    else if i == 1 then Block(0x0a00_0000, 8)
    else if i == 2 then Block(0x6440_0000, 10)
    else if i == 3 then Block(0x7f00_0000, 8)
    else if i == 4 then Block(0xa9fe_0000, 16)
    else if i == 5 then Block(0xac10_0000, 12)
    else if i == 6 then Block(0xc000_0000, 24)
    else if i == 7 then Block(0xc000_0200, 24)
    else if i == 8 then Block(0xc058_6300, 24)
    else if i == 9 then Block(0xc0a8_0000, 16)
    else if i == 10 then Block(0xc612_0000, 15)
    else if i == 11 then Block(0xc633_6400, 24)
    else if i == 12 then Block(0xcb00_7100, 24)
    else if i == 13 then Block(0xe000_0000, 4)
    else Block(0xf000_0000, 4)
  }

  /** The addresses each block stands for. */
  function V4Range(i: nat): Range
    requires i < BLOCKS
  {
    if i == 0 then Range(0x0000_0000, 0x00ff_ffff)  // 0.0.0.0 - 0.255.255.255
    else if i == 1 then Range(0x0a00_0000, 0x0aff_ffff)  // 10.0.0.0 - 10.255.255.255
    else if i == 2 then Range(0x6440_0000, 0x647f_ffff)  // 100.64.0.0 - 100.127.255.255
    else if i == 3 then Range(0x7f00_0000, 0x7fff_ffff)  // 127.0.0.0 - 127.255.255.255
    else if i == 4 then Range(0xa9fe_0000, 0xa9fe_ffff)  // 169.254.0.0 - 169.254.255.255
    else if i == 5 then Range(0xac10_0000, 0xac1f_ffff)  // 172.16.0.0 - 172.31.255.255
    else if i == 6 then Range(0xc000_0000, 0xc000_00ff)  // 192.0.0.0 - 192.0.0.255
    else if i == 7 then Range(0xc000_0200, 0xc000_02ff)  // 192.0.2.0 - 192.0.2.255
    else if i == 8 then Range(0xc058_6300, 0xc058_63ff)  // 192.88.99.0 - 192.88.99.255
    else if i == 9 then Range(0xc0a8_0000, 0xc0a8_ffff)  // 192.168.0.0 - 192.168.255.255
    else if i == 10 then Range(0xc612_0000, 0xc613_ffff)  // 198.18.0.0 - 198.19.255.255
    else if i == 11 then Range(0xc633_6400, 0xc633_64ff)  // 198.51.100.0 - 198.51.100.255
    else if i == 12 then Range(0xcb00_7100, 0xcb00_71ff)  // 203.0.113.0 - 203.0.113.255
    else if i == 13 then Range(0xe000_0000, 0xefff_ffff)  // 224.0.0.0 - 239.255.255.255
    else Range(0xf000_0000, 0xffff_ffff)  // 240.0.0.0 - 255.255.255.255
  }

  function Mask(prefix: bv6): bv32
    requires prefix <= 32
  {
    if prefix == 0 then 0 else 0xffff_ffff << (32 - prefix)
  }

  predicate InBlock(b: Block, n: bv32)
    requires b.prefix <= 32
  {
    n & Mask(b.prefix) == b.base & Mask(b.prefix)
  }

  predicate InRange(r: Range, n: bv32) { r.first <= n <= r.last }

  ghost predicate NotPublic4(n: bv32) { exists i :: 0 <= i < BLOCKS && InRange(V4Range(i), n) }

  lemma {:induction false} MaskLiterals()
    ensures Mask(4) == 0xf000_0000 && Mask(8) == 0xff00_0000 && Mask(10) == 0xffc0_0000 && Mask(12) == 0xfff0_0000
    ensures Mask(15) == 0xfffe_0000 && Mask(16) == 0xffff_0000 && Mask(24) == 0xffff_ff00
  {}

  /** Masking `n` to the prefix of block `i` and comparing is asking whether it is in the range. */
  ghost predicate Agrees(i: nat, n: bv32)
    requires i < BLOCKS
  {
    V4Block(i).prefix <= 32 && (InBlock(V4Block(i), n) <==> InRange(V4Range(i), n))
  }

  // One lemma a block: the solver decides each by its bits, all of them together it does not.

  lemma {:induction false} ThisNetwork(n: bv32) ensures Agrees(0, n) { MaskLiterals(); }

  lemma {:induction false} PrivateTen(n: bv32) ensures Agrees(1, n) { MaskLiterals(); }

  lemma {:induction false} SharedSpace(n: bv32) ensures Agrees(2, n) { MaskLiterals(); }

  lemma {:induction false} Loopback(n: bv32) ensures Agrees(3, n) { MaskLiterals(); }

  lemma {:induction false} LinkLocal(n: bv32) ensures Agrees(4, n) { MaskLiterals(); }

  lemma {:induction false} PrivateTwelve(n: bv32) ensures Agrees(5, n) { MaskLiterals(); }

  lemma {:induction false} Protocols(n: bv32) ensures Agrees(6, n) { MaskLiterals(); }

  lemma {:induction false} TestNetOne(n: bv32) ensures Agrees(7, n) { MaskLiterals(); }

  lemma {:induction false} RelayAnycast(n: bv32) ensures Agrees(8, n) { MaskLiterals(); }

  lemma {:induction false} PrivateSixteen(n: bv32) ensures Agrees(9, n) { MaskLiterals(); }

  lemma {:induction false} Benchmarking(n: bv32) ensures Agrees(10, n) { MaskLiterals(); }

  lemma {:induction false} TestNetTwo(n: bv32) ensures Agrees(11, n) { MaskLiterals(); }

  lemma {:induction false} TestNetThree(n: bv32) ensures Agrees(12, n) { MaskLiterals(); }

  lemma {:induction false} Multicast(n: bv32) ensures Agrees(13, n) { MaskLiterals(); }

  lemma {:induction false} Reserved(n: bv32) ensures Agrees(14, n) { MaskLiterals(); }

  /** Masking to a prefix and comparing is asking for the range, block by block. */
  lemma {:induction false} BlockIsRange(i: nat, n: bv32)
    requires i < BLOCKS
    ensures Agrees(i, n)
  {
    match i
    case 0 => ThisNetwork(n);
    case 1 => PrivateTen(n);
    case 2 => SharedSpace(n);
    case 3 => Loopback(n);
    case 4 => LinkLocal(n);
    case 5 => PrivateTwelve(n);
    case 6 => Protocols(n);
    case 7 => TestNetOne(n);
    case 8 => RelayAnycast(n);
    case 9 => PrivateSixteen(n);
    case 10 => Benchmarking(n);
    case 11 => TestNetTwo(n);
    case 12 => TestNetThree(n);
    case 13 => Multicast(n);
    case 14 => Reserved(n);
  }

  method Hits(i: nat, n: bv32) returns (hit: bool)
    requires i < BLOCKS
    ensures hit == InRange(V4Range(i), n)
  {
    BlockIsRange(i, n);
    hit := InBlock(V4Block(i), n);
  }

  method IsDisallowedIpv4(n: bv32) returns (r: bool)
    ensures r <==> NotPublic4(n)
  {
    for i := 0 to BLOCKS
      invariant forall j :: 0 <= j < i ==> !InRange(V4Range(j), n)
    {
      var hit := Hits(i, n);
      if hit { return true; }
    }
    return false;
  }

  // ----- IPv6: `n >> k` on a big integer is the floor of n / 2^k -----

  const TWO_32: nat := 0x1_0000_0000
  const TWO_128: nat := 0x1_0000_0000_0000_0000_0000_0000_0000_0000

  /** The IPv4 address in the low 32 bits, and the one behind the first 16. */
  function LowV4(n: nat): bv32 { (n % TWO_32) as bv32 }

  function SixToFourV4(n: nat): bv32 { (n / 0x1_0000_0000_0000_0000_0000 % TWO_32) as bv32 }

  /** First to last address of each range; where an IPv4 address is embedded, that one decides. */
  ghost predicate NotPublic6(n: nat) {
    || n <= 0xffff_ffff                                                                           // ::/96
    || (0xffff_0000_0000 <= n <= 0xffff_ffff_ffff && NotPublic4(LowV4(n)))                         // ::ffff:0:0/96
    || (0x0064_ff9b_0000_0000_0000_0000_0000_0000 <= n <= 0x0064_ff9b_0000_0000_0000_0000_ffff_ffff
       && NotPublic4(LowV4(n)))
    || 0xfc00_0000_0000_0000_0000_0000_0000_0000 <= n <= 0xfdff_ffff_ffff_ffff_ffff_ffff_ffff_ffff  // fc00::/7
    || 0xfe80_0000_0000_0000_0000_0000_0000_0000 <= n <= 0xfebf_ffff_ffff_ffff_ffff_ffff_ffff_ffff  // fe80::/10
    || 0xff00_0000_0000_0000_0000_0000_0000_0000 <= n                                              // ff00::/8
    || (0x2002_0000_0000_0000_0000_0000_0000_0000 <= n <= 0x2002_ffff_ffff_ffff_ffff_ffff_ffff_ffff
       && NotPublic4(SixToFourV4(n)))
    || 0x2001_0db8_0000_0000_0000_0000_0000_0000 <= n <= 0x2001_0db8_ffff_ffff_ffff_ffff_ffff_ffff  // 2001:db8::/32
  }

  method IsDisallowedIpv6(n: nat) returns (r: bool)
    requires n < TWO_128
    ensures r <==> NotPublic6(n)
  {
    if n == 0 { return true; }
    if n == 1 { return true; }
    var top96 := n / TWO_32;
    if top96 == 0xffff { r := IsDisallowedIpv4(LowV4(n)); return; }
    if top96 == 0 { return true; }
    if top96 == 0x64_ff9b * 0x1_0000_0000_0000_0000 { r := IsDisallowedIpv4(LowV4(n)); return; }
    if n / 0x0200_0000_0000_0000_0000_0000_0000_0000 == 0x7e { return true; }
    if n / 0x0040_0000_0000_0000_0000_0000_0000_0000 == 0x3fa { return true; }
    if n / 0x0100_0000_0000_0000_0000_0000_0000_0000 == 0xff { return true; }
    if n / 0x0001_0000_0000_0000_0000_0000_0000_0000 == 0x2002 { r := IsDisallowedIpv4(SixToFourV4(n)); return; }
    if n / 0x0000_0001_0000_0000_0000_0000_0000_0000 == 0x2001_0db8 { return true; }
    return false;
  }

  lemma {:induction false} LowOfMapped(w: nat)
    requires w < TWO_32
    ensures LowV4(0xffff_0000_0000 + w) == w as bv32
  {
    assert (0xffff_0000_0000 + w) % TWO_32 == w;
  }

  lemma {:induction false} LowOfNat64(w: nat)
    requires w < TWO_32
    ensures LowV4(0x0064_ff9b_0000_0000_0000_0000_0000_0000 + w) == w as bv32
  {
    assert (0x0064_ff9b_0000_0000_0000_0000_0000_0000 + w) % TWO_32 == w;
  }

  /** An IPv4-mapped address, and one behind the prefix of RFC 6052, section 2.1, is judged by the IPv4
      address in its low 32 bits. */
  lemma {:induction false} LowAddressDecides(w: nat)
    requires w < TWO_32
    ensures NotPublic6(0xffff_0000_0000 + w) <==> NotPublic4(w as bv32)
    ensures NotPublic6(0x0064_ff9b_0000_0000_0000_0000_0000_0000 + w) <==> NotPublic4(w as bv32)
  {
    LowOfMapped(w);
    LowOfNat64(w);
  }

  /** 2002, then the IPv4 address, then the low 80 bits. */
  function SixToFour(w: nat, low: nat): nat {
    0x2002_0000_0000_0000_0000_0000_0000_0000 + w * 0x1_0000_0000_0000_0000_0000 + low
  }

  lemma {:induction false} MiddleOfSixToFour(w: nat, low: nat)
    requires w < TWO_32 && low < 0x1_0000_0000_0000_0000_0000
    ensures SixToFourV4(SixToFour(w, low)) == w as bv32
  {
    assert SixToFour(w, low) / 0x1_0000_0000_0000_0000_0000 == 0x2002_0000_0000 + w;
    assert (0x2002_0000_0000 + w) % TWO_32 == w;
  }

  lemma {:induction false} SixToFourRange(w: nat, low: nat)
    requires w < TWO_32 && low < 0x1_0000_0000_0000_0000_0000
    ensures 0x2002_0000_0000_0000_0000_0000_0000_0000 <= SixToFour(w, low)
      <= 0x2002_ffff_ffff_ffff_ffff_ffff_ffff_ffff
  {}

  lemma {:induction false} InSixToFourRange(n: nat)
    requires 0x2002_0000_0000_0000_0000_0000_0000_0000 <= n <= 0x2002_ffff_ffff_ffff_ffff_ffff_ffff_ffff
    ensures NotPublic6(n) <==> NotPublic4(SixToFourV4(n))
  {}

  /** A 6to4 address of RFC 3056, section 2, is judged by the IPv4 address behind its first 16 bits. */
  lemma {:induction false} SixToFourDecides(w: nat, low: nat)
    requires w < TWO_32 && low < 0x1_0000_0000_0000_0000_0000
    ensures NotPublic6(SixToFour(w, low)) <==> NotPublic4(w as bv32)
  {
    MiddleOfSixToFour(w, low);
    SixToFourRange(w, low);
    InSixToFourRange(SixToFour(w, low));
  }

  /** No number was read, or that of an address outside public unicast. */
  ghost predicate Rejected4(v: Option<nat>) { v == None || (v.value < TWO_32 && NotPublic4(v.value as bv32)) }

  ghost predicate Rejected6(v: Option<nat>) { v == None || (v.value < TWO_128 && NotPublic6(v.value)) }

  /** `version` is what net.isIPv4 and net.isIPv6 make of the text: 4, 6 or neither. */
  ghost predicate NotPublic(ip: string, version: int) {
    if version == 4 then Rejected4(R.DottedValue(ip)) else if version == 6 then Rejected6(R.Ipv6Value(ip)) else true
  }

  lemma {:induction false} Ipv6Below(ip: string)
    ensures R.Ipv6Value(ip).Some? ==> R.Ipv6Value(ip).value < TWO_128
  {
    R.EightGroups(ip);
    assert R.Pow65536(4) == 0x1_0000_0000_0000_0000 && R.Pow65536(8) == TWO_128;
  }

  method Reject4(v: Option<nat>) returns (r: bool)
    requires v.Some? ==> v.value < TWO_32
    ensures r <==> Rejected4(v)
  {
    if v == None { return true; }
    r := IsDisallowedIpv4(v.value as bv32);
  }

  method Reject6(v: Option<nat>) returns (r: bool)
    requires v.Some? ==> v.value < TWO_128
    ensures r <==> Rejected6(v)
  {
    if v == None { return true; }
    r := IsDisallowedIpv6(v.value);
  }

  method IsDisallowedIp(ip: string, version: int) returns (r: bool)
    ensures r <==> NotPublic(ip, version)
  {
    if version == 4 {
      var n := R.Ipv4ToInt(ip);
      r := Reject4(n);
    } else if version == 6 {
      var n := R.Ipv6ToBigInt(ip);
      Ipv6Below(ip);
      r := Reject6(n);
    } else {
      r := true;
    }
  }

  /** Every textual form of an IPv6 address, with or without a zone, is judged by its number. */
  lemma {:induction false} FormIsJudgedByItsNumber(f: R.Form, zone: string)
    requires R.FormOk(f)
    ensures NotPublic(R.Text(f), 6) <==> Rejected6(Some(R.Number(R.GroupsOf(f))))
    ensures NotPublic(R.Text(f) + ("%" + zone), 6) <==> Rejected6(Some(R.Number(R.GroupsOf(f))))
  {
    R.FormReads(f, zone);
  }
}
