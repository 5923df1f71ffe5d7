/** The address reader reads nothing but the textual forms: whatever it reads as a number is one of them,
    and the number is that of its groups. */
module IpForms {
  import opened Shared
  import opened IpReader

  // ----- splitting and joining -----

  lemma {:induction false} JoinCons(p: string, parts: seq<string>, c: char)
    requires parts != []
    ensures Join([p] + parts, c) == p + ([c] + Join(parts, c))
  {
    assert ([p] + parts)[1..] == parts;
  }

  lemma {:induction false} FirstGrows(x: char, parts: seq<string>, c: char)
    requires parts != []
    ensures Join([[x] + parts[0]] + parts[1..], c) == [x] + Join(parts, c)
  {
    var longer := [[x] + parts[0]] + parts[1..];
    assert longer[1..] == parts[1..];
    if |parts| > 1 { ConcatAssociative([x], parts[0], [c] + Join(parts[1..], c)); }
  }

  /** Joining what was split gives the text back. */
  lemma {:induction false} JoinOfSplit(s: string, c: char)
    ensures Join(SplitOn(s, c), c) == s
  {
    if s != "" {
      JoinOfSplit(s[1..], c);
      assert s == [s[0]] + s[1..];
      if s[0] == c {
        JoinCons("", SplitOn(s[1..], c), c);
        assert "" + ([c] + s[1..]) == [c] + s[1..];
      } else {
        FirstGrows(s[0], SplitOn(s[1..], c), c);
      }
    }
  }

  lemma {:induction false} SplitConcat(a: string, b: string, c: char)
    ensures SplitOn(a + ([c] + b), c) == SplitOn(a, c) + SplitOn(b, c)
  {
    var s := a + ([c] + b);
    if a == "" {
      assert s == [c] + b && s[1..] == b;
    } else {
      assert s[1..] == a[1..] + ([c] + b);
      SplitConcat(a[1..], b, c);
      var more := SplitOn(a[1..], c);
      if a[0] == c {
        ConcatAssociative([""], more, SplitOn(b, c));
      } else {
        assert (more + SplitOn(b, c))[0] == more[0] && (more + SplitOn(b, c))[1..] == more[1..] + SplitOn(b, c);
        ConcatAssociative([[a[0]] + more[0]], more[1..], SplitOn(b, c));
      }
    }
  }

  /** One or two halves are the text again. */
  lemma {:induction false} HalvesRejoin(s: string)
    ensures |SplitDouble(s)| == 1 ==> s == SplitDouble(s)[0]
    ensures |SplitDouble(s)| == 2 ==> s == SplitDouble(s)[0] + ("::" + SplitDouble(s)[1])
    decreases |s|
  {
    if |s| >= 2 {
      if s[0] == ':' && s[1] == ':' {
        HalvesRejoin(s[2..]);
        assert s == "::" + s[2..];
      } else {
        HalvesRejoin(s[1..]);
        var more := SplitDouble(s[1..]);
        assert s == [s[0]] + s[1..];
        if |more| == 2 { ConcatAssociative([s[0]], more[0], "::" + more[1]); }
      }
    }
  }

  // ----- hexadecimal throughout -----

  function Part(half: string): seq<string> { if half != "" then SplitOn(half, ':') else [] }

  lemma {:induction false} HalfRejoins(half: string)
    ensures Join(Part(half), ':') == half
  {
    JoinOfSplit(half, ':');
  }

  lemma {:induction false} PartsAreGroups(a: seq<string>, b: seq<string>, c: seq<string>)
    requires AllGroups(a + (b + c))
    ensures AllGroups(a) && AllGroups(c)
  {
    forall t | t in a || t in c ensures IsGroup(t) { assert t in a + (b + c); }
  }

  lemma {:induction false} FullForm(s: string) returns (f: Form)
    requires |Part(s)| == 8 && AllGroups(Part(s))
    ensures FormOk(f) && f.quad == None && Text(f) == s && GroupsOf(f) == Part(s)
  {
    HalfRejoins(s);
    f := Form(Part(s), None, None);
    assert Part(s) + [] == Part(s);
  }

  lemma {:induction false} ShortenedForm(a: string, b: string) returns (f: Form)
    requires |Part(a)| + |Part(b)| <= 7
    requires AllGroups(Part(a) + (Zeros(8 - |Part(a)| - |Part(b)|) + Part(b)))
    ensures FormOk(f) && f.quad == None && Text(f) == a + ("::" + b)
    ensures GroupsOf(f) == Part(a) + (Zeros(8 - |Part(a)| - |Part(b)|) + Part(b))
  {
    HalfRejoins(a);
    HalfRejoins(b);
    PartsAreGroups(Part(a), Zeros(8 - |Part(a)| - |Part(b)|), Part(b));
    f := Form(Part(a), Some(Part(b)), None);
    assert Part(b) + [] == Part(b);
  }

  /** A text that is read without folding is a form of eight groups, "::" or not. */
  lemma {:induction false} PlainForm(s: string) returns (f: Form)
    requires Expand(SplitDouble(s)).Some? && AllGroups(Expand(SplitDouble(s)).value)
    ensures FormOk(f) && f.quad == None && Text(f) == s && GroupsOf(f) == Expand(SplitDouble(s)).value
  {
    var halves := SplitDouble(s);
    HalvesRejoin(s);
    if |halves| == 1 { f := FullForm(s); } else { f := ShortenedForm(halves[0], halves[1]); }
  }

  // ----- an embedded IPv4 address -----

  /** The groups a form ends with. */
  function Ending(f: Form): seq<string> { if f.tail.Some? then f.tail.value else f.head }

  /** What stands in front of them when the text is split at single colons. */
  lemma {:induction false} SplitText(f: Form)
    requires FormOk(f) && f.quad == None
    ensures f.tail == None ==> SplitOn(Text(f), ':') == f.head
    ensures f.tail.Some? ==>
      SplitOn(Text(f), ':')
      == SplitOn(Join(f.head, ':'), ':') + ([""] + (if f.tail.value == [] then [""] else f.tail.value))
  {
    if f.tail == None {
      assert f.head + [] == f.head;
      GroupsJoin(f.head);
    } else {
      var a, b := Join(f.head, ':'), Join(f.tail.value, ':');
      assert f.tail.value + [] == f.tail.value;
      assert "::" + b == ":" + (":" + b);
      SplitConcat(a, ":" + b, ':');
      assert ":" + b == "" + (":" + b);
      SplitConcat("", b, ':');
      if f.tail.value != [] { GroupsJoin(f.tail.value); }
    }
  }

  lemma {:induction false} LastOfConcat<T>(a: seq<T>, b: seq<T>, x: T, y: T)
    requires |a + b| >= 2 && (a + b)[|a + b| - 2] == x && (a + b)[|a + b| - 1] == y
    ensures |b| >= 2 ==> b[|b| - 2] == x && b[|b| - 1] == y
    ensures |b| == 1 ==> b[0] == y && a != [] && a[|a| - 1] == x
  {}

  /** A form whose text ends with two groups behind a colon has them as its last two. */
  lemma {:induction false} EndsWithBoth(f: Form, pre: string, x: string, y: string)
    requires FormOk(f) && f.quad == None && x != "" && y != "" && ':' !in x && ':' !in y
    requires Text(f) == pre + (":" + (x + (":" + y)))
    ensures var ts := Ending(f); |ts| >= 2 && ts[|ts| - 2] == x && ts[|ts| - 1] == y
  {
    SplitConcat(pre, x + (":" + y), ':');
    SplitFirst(x, y, ':');
    SplitNothing(y, ':');
    var parts := SplitOn(Text(f), ':');
    assert parts == SplitOn(pre, ':') + ([x] + [y]);
    assert parts[|parts| - 2] == x && parts[|parts| - 1] == y;
    SplitText(f);
    if f.tail.Some? {
      var front, last := SplitOn(Join(f.head, ':'), ':') + [""], if f.tail.value == [] then [""] else f.tail.value;
      ConcatAssociative(SplitOn(Join(f.head, ':'), ':'), [""], last);
      LastOfConcat(front, last, x, y);
    }
  }

  /** The same form with its last two groups written as an IPv4 address. */
  function Embedded(f: Form, quad: seq<string>): Form
    requires |Ending(f)| >= 2
  {
    var ts := Ending(f)[..|Ending(f)| - 2];
    if f.tail.Some? then Form(f.head, Some(ts), Some(quad)) else Form(ts, None, Some(quad))
  }

  lemma {:induction false} EmbeddedOk(f: Form, quad: seq<string>)
    requires FormOk(f) && f.quad == None && IsQuad(quad) && |Ending(f)| >= 2
    requires Ending(f)[|Ending(f)| - 2..] == Low(Some(quad))
    ensures FormOk(Embedded(f, quad)) && Plain(Embedded(f, quad)) == f
  {
    var ts := Ending(f);
    assert ts[..|ts| - 2] + ts[|ts| - 2..] == ts;
    assert forall t :: t in ts[..|ts| - 2] ==> t in ts;
  }

  lemma {:induction false} SameFront(a: string, b: string, rest: string)
    requires a + rest == b + rest
    ensures a == b
  {
    assert |a| == |b|;
    assert a == (a + rest)[..|a|] && b == (b + rest)[..|b|];
  }

  /** Both texts share what stands in front of the address. */
  lemma {:induction false} EmbeddedText(f: Form, quad: seq<string>, pre: string)
    requires FormOk(f) && f.quad == None && IsQuad(quad) && |Ending(f)| >= 2
    requires Ending(f)[|Ending(f)| - 2..] == Low(Some(quad)) && Text(f) == pre + Join(Low(Some(quad)), ':')
    ensures Text(Embedded(f, quad)) == pre + Join(quad, '.')
  {
    var g := Embedded(f, quad);
    EmbeddedOk(f, quad);
    FrontThen(g, Low(g.quad));
    PlainText(g);
    SameFront(Front(g), pre, Join(Low(Some(quad)), ':'));
    FrontThen(g, [Join(quad, '.')]);
    JoinOne(Join(quad, '.'), ':');
  }

  lemma {:induction false} HexIsGroup(v: nat)
    requires v < 0x1_0000
    ensures HexText(v) != "" && ':' !in HexText(v)
  {
    assert Pow16(2) == 256 && Pow16(4) == 65536;
    HexTextReads(v, 4);
  }

  /** A folded text that is read was a form with an embedded IPv4 address. */
  lemma {:induction false} FoldedForm(pre: string, rest: string, folded: string) returns (f: Form)
    requires IsQuad(SplitOn(rest, '.')) && folded == pre + (":" + Join(Low(Some(SplitOn(rest, '.'))), ':'))
    requires Expand(SplitDouble(folded)).Some? && AllGroups(Expand(SplitDouble(folded)).value)
    ensures FormOk(f) && Text(f) == pre + (":" + rest) && GroupsOf(f) == Expand(SplitDouble(folded)).value
  {
    var quad := SplitOn(rest, '.');
    var low := Low(Some(quad));
    var g := PlainForm(folded);
    QuadBelow(quad);
    HexIsGroup(Accumulated(quad) / 0x1_0000);
    HexIsGroup(Accumulated(quad) % 0x1_0000);
    JoinTwo(low, ':');
    EndsWithBoth(g, pre, low[0], low[1]);
    assert Ending(g)[|Ending(g)| - 2..] == low;
    ConcatAssociative(pre, ":", Join(low, ':'));
    EmbeddedText(g, quad, pre + ":");
    EmbeddedOk(g, quad);
    f := Embedded(g, quad);
    PlainOk(f);
    JoinOfSplit(rest, '.');
    ConcatAssociative(pre, ":", rest);
  }

  lemma {:induction false} BaseForm(base: string) returns (f: Form)
    requires FoldEmbedded(base).Some? && Expand(SplitDouble(FoldEmbedded(base).value)).Some?
    requires AllGroups(Expand(SplitDouble(FoldEmbedded(base).value)).value)
    ensures FormOk(f) && Text(f) == base && GroupsOf(f) == Expand(SplitDouble(FoldEmbedded(base).value)).value
  {
    FirstDotBounds(base);
    var dot := FirstDot(base);
    if dot < 0 {
      f := PlainForm(base);
    } else {
      var colon := LastColon(base, dot);
      var pre, rest := base[..colon], base[colon + 1..];
      ColonThere(base, dot);
      assert base[..colon + 1] == pre + ":" && base == pre + (":" + rest);
      JoinTwo(Low(Some(SplitOn(rest, '.'))), ':');
      ConcatAssociative(pre, ":", Join(Low(Some(SplitOn(rest, '.'))), ':'));
      f := FoldedForm(pre, rest, FoldEmbedded(base).value);
    }
  }

  lemma {:induction false} ColonThere(s: string, k: nat)
    requires k < |s|
    ensures LastColon(s, k) >= 0 ==> s[LastColon(s, k)] == ':'
    decreases k
  {
    if s[k] != ':' && k > 0 { ColonThere(s, k - 1); }
  }

  lemma {:induction false} ZoneStripped(ip: string)
    ensures var base := SplitOn(ip, '%')[0];
      '%' !in base && base <= ip && (base == ip || ip[|base|] == '%')
  {
    if ip != "" && ip[0] != '%' {
      ZoneStripped(ip[1..]);
      assert ip == [ip[0]] + ip[1..];
    }
  }

  ghost predicate IsText(ip: string, f: Form) {
    FormOk(f) && Text(f) <= ip && (Text(f) == ip || ip[|Text(f)|] == '%')
  }

  lemma {:induction false} TextIsRead(ip: string, f: Form)
    requires IsText(ip, f)
    ensures Ipv6Value(ip) == Some(Number(GroupsOf(f)))
  {
    FormReads(f, if Text(f) == ip then "" else ip[|Text(f)| + 1..]);
    if Text(f) != ip { assert ip == Text(f) + ("%" + ip[|Text(f)| + 1..]); }
  }

  lemma {:induction false} ReadIsText(ip: string) returns (f: Form)
    requires Ipv6Value(ip).Some?
    ensures IsText(ip, f) && Ipv6Value(ip) == Some(Number(GroupsOf(f)))
  {
    ZoneStripped(ip);
    f := BaseForm(SplitOn(ip, '%')[0]);
  }

  ghost predicate Stands(ip: string, f: Form, n: nat) { IsText(ip, f) && n == Number(GroupsOf(f)) }

  /** A text is read as a number if and only if, up to a zone, it is one of the forms, and the number is
      that of its eight groups. */
  lemma {:induction false} FormsExactly(ip: string, n: nat)
    ensures Ipv6Value(ip) == Some(n) <==> exists f :: Stands(ip, f, n)
  {
    if Ipv6Value(ip) == Some(n) {
      var f := ReadIsText(ip);
      assert Stands(ip, f, n);
    }
    if f :| Stands(ip, f, n) { TextIsRead(ip, f); }
  }

  // ----- dotted quads -----

  ghost predicate Spells(ip: string, quad: seq<string>, n: nat) {
    && IsQuad(quad) && ip == Join(quad, '.')
    && n == Digits(quad[0], 10) * 0x100_0000 + Digits(quad[1], 10) * 0x1_0000 + Digits(quad[2], 10) * 0x100
            + Digits(quad[3], 10)
  }

  /** A text is read as an IPv4 number if and only if it is four decimal octets with dots between, and the
      number is theirs to the base 256. */
  lemma {:induction false} QuadsExactly(ip: string, n: nat)
    ensures DottedValue(ip) == Some(n) <==> exists quad :: Spells(ip, quad, n)
  {
    if DottedValue(ip) == Some(n) {
      JoinOfSplit(ip, '.');
      QuadWeighs(SplitOn(ip, '.'));
      assert Spells(ip, SplitOn(ip, '.'), n);
    }
    if quad :| Spells(ip, quad, n) {
      DottedReads(quad);
      QuadWeighs(quad);
    }
  }
}
