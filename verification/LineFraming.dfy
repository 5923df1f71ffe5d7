/** Cutting a character stream into lines: the stratum server's socket buffer and the verifier's
    line pump, against splitting the whole stream at once. */
module LineFraming {
  import opened Shared

  // ----- lines of a stream -----

  /** Where the first newline is, or -1. */
  function IndexOfNewline(s: string): int {
    if s == "" then -1
    else if s[0] == '\n' then 0
    else var i := IndexOfNewline(s[1..]); if i < 0 then -1 else i + 1
  }

  /** The complete lines of a stream, without their newlines. */
  function Lines(s: string): seq<string>
    decreases |s|
  {
    IndexBounds(s);
    var i := IndexOfNewline(s);
    if i < 0 then [] else [s[..i]] + Lines(s[i + 1..])
  }

  /** What follows the last newline. */
  function Rest(s: string): string
    decreases |s|
  {
    IndexBounds(s);
    var i := IndexOfNewline(s);
    if i < 0 then s else Rest(s[i + 1..])
  }

  lemma {:induction false} IndexBounds(s: string)
    ensures -1 <= IndexOfNewline(s) < |s|
    ensures IndexOfNewline(s) < 0 ==> '\n' !in s
    ensures IndexOfNewline(s) >= 0 ==> s[IndexOfNewline(s)] == '\n' && '\n' !in s[..IndexOfNewline(s)]
  {
    if s != "" && s[0] != '\n' { IndexBounds(s[1..]); }
  }

  lemma {:induction false} IndexOfConcat(s: string, t: string)
    ensures IndexOfNewline(s) >= 0 ==> IndexOfNewline(s + t) == IndexOfNewline(s)
    ensures IndexOfNewline(s) < 0 ==>
      IndexOfNewline(s + t) == if IndexOfNewline(t) < 0 then -1 else |s| + IndexOfNewline(t)
  {
    if s == "" {
      assert s + t == t;
    } else {
      assert (s + t)[1..] == s[1..] + t;
      IndexOfConcat(s[1..], t);
    }
  }

  /** Lines followed by newlines, put back together. */
  function Joined(lines: seq<string>): string {
    if lines == [] then "" else lines[0] + "\n" + Joined(lines[1..])
  }

  /** String.split on newlines: the complete lines, then what follows. */
  function Split(s: string): seq<string> { Lines(s) + [Rest(s)] }

  /** Lines and rest are the stream again, and neither holds a newline. */
  lemma {:induction false} LinesRejoin(s: string)
    ensures Joined(Lines(s)) + Rest(s) == s
    ensures '\n' !in Rest(s) && forall l :: l in Lines(s) ==> '\n' !in l
    decreases |s|
  {
    IndexBounds(s);
    var i := IndexOfNewline(s);
    if i >= 0 {
      LinesRejoin(s[i + 1..]);
      CutAtNewline(s, i, Joined(Lines(s[i + 1..])), Rest(s[i + 1..]));
      assert Lines(s)[1..] == Lines(s[i + 1..]);
    }
  }

  lemma {:induction false} CutAtNewline(s: string, i: nat, lines: string, rest: string)
    requires i < |s| && s[i] == '\n' && lines + rest == s[i + 1..]
    ensures (s[..i] + "\n" + lines) + rest == s
  {
    assert s[..i] + "\n" == s[..i + 1] && s == s[..i + 1] + s[i + 1..];
    ConcatAssociative(s[..i + 1], lines, rest);
  }

  /** More input extends the lines; only the rest has to be looked at again. */
  lemma {:induction false} LinesExtend(s: string, t: string)
    ensures Lines(s + t) == Lines(s) + Lines(Rest(s) + t) && Rest(s + t) == Rest(Rest(s) + t)
    decreases |s|
  {
    IndexBounds(s);
    IndexOfConcat(s, t);
    var i := IndexOfNewline(s);
    if i >= 0 {
      assert (s + t)[..i] == s[..i] && (s + t)[i + 1..] == s[i + 1..] + t;
      LinesExtend(s[i + 1..], t);
      ConcatAssociative([s[..i]], Lines(s[i + 1..]), Lines(Rest(s[i + 1..]) + t));
      assert Lines(s + t) == [s[..i]] + Lines(s[i + 1..] + t) && Rest(s + t) == Rest(s[i + 1..] + t);
    } else {
      assert Rest(s) == s;
    }
  }

  function NonEmpty(lines: seq<string>): seq<string> {
    if lines == [] then [] else (if lines[0] != "" then [lines[0]] else []) + NonEmpty(lines[1..])
  }

  lemma {:induction false} NonEmptyConcat(a: seq<string>, b: seq<string>)
    ensures NonEmpty(a + b) == NonEmpty(a) + NonEmpty(b)
  {
    if a == [] {
      assert a + b == b;
    } else {
      assert (a + b)[1..] == a[1..] + b;
      NonEmptyConcat(a[1..], b);
      ConcatAssociative(if a[0] != "" then [a[0]] else [], NonEmpty(a[1..]), NonEmpty(b));
    }
  }

  /** Exactly the empty lines are dropped. */
  lemma {:induction false} OnlyEmptyLinesDropped(lines: seq<string>)
    ensures "" !in NonEmpty(lines)
    ensures forall l :: l != "" ==> multiset(NonEmpty(lines))[l] == multiset(lines)[l]
  {
    if lines != [] {
      OnlyEmptyLinesDropped(lines[1..]);
      assert lines == [lines[0]] + lines[1..];
      FirstLineKept(lines[0], lines[1..]);
    }
  }

  /** The others keep their order. */
  lemma {:induction false} FirstLineKept(l: string, lines: seq<string>)
    ensures NonEmpty([l] + lines) == if l == "" then NonEmpty(lines) else [l] + NonEmpty(lines)
  {
    assert ([l] + lines)[1..] == lines && [] + NonEmpty(lines) == NonEmpty(lines);
  }

  // ----- any chunking -----

  function Flatten(chunks: seq<string>): string {
    if chunks == [] then "" else chunks[0] + Flatten(chunks[1..])
  }

  /** The lines the stratum server hands on when the chunks arrive one by one. */
  function Emitted(buffer: string, chunks: seq<string>): seq<string>
    decreases |chunks|
  {
    if chunks == [] then []
    else NonEmpty(Lines(buffer + chunks[0])) + Emitted(Rest(buffer + chunks[0]), chunks[1..])
  }

  /** However the stream is cut into chunks, the same non-empty lines come out as from the whole
      stream at once. */
  lemma {:induction false} ChunkingIsIrrelevant(buffer: string, chunks: seq<string>)
    requires '\n' !in buffer
    ensures Emitted(buffer, chunks) == NonEmpty(Lines(buffer + Flatten(chunks)))
    decreases |chunks|
  {
    if chunks == [] {
      NoLines(buffer);
      assert buffer + "" == buffer;
    } else {
      var s := buffer + chunks[0];
      LinesRejoin(s);
      ChunkingIsIrrelevant(Rest(s), chunks[1..]);
      LinesExtend(s, Flatten(chunks[1..]));
      NonEmptyConcat(Lines(s), Lines(Rest(s) + Flatten(chunks[1..])));
      ConcatAssociative(buffer, chunks[0], Flatten(chunks[1..]));
    }
  }

  lemma {:induction false} NoLines(s: string)
    requires '\n' !in s
    ensures Lines(s) == [] && Rest(s) == s
  {
    IndexBounds(s);
  }

  // ----- the stratum server's buffer -----

  class LineBuffer {
    var buffer: string
    ghost var received: string
    ghost var handed: seq<string>

    ghost predicate Valid()
      reads this
    {
      buffer == Rest(received) && '\n' !in buffer && handed == NonEmpty(Lines(received))
    }

    constructor ()
      ensures Valid() && received == "" && handed == []
    {
      buffer, received, handed := "", "", [];
    }

    /** The data handler: append, split, keep the last piece, drop the empty lines. */
    method OnData(chunk: string) returns (lines: seq<string>)
      requires Valid()
      modifies this
      ensures Valid() && received == old(received) + chunk
      ensures handed == old(handed) + lines
      ensures lines == NonEmpty(Lines(old(buffer) + chunk))
    {
      LinesExtend(received, chunk);
      NonEmptyConcat(Lines(received), Lines(buffer + chunk));
      LinesRejoin(buffer + chunk);
      buffer := buffer + chunk;
      var pieces := Split(buffer);
      buffer := pieces[|pieces| - 1];
      assert pieces[..|pieces| - 1] == Lines(old(buffer) + chunk);
      lines := NonEmpty(pieces[..|pieces| - 1]);
      received, handed := received + chunk, handed + lines;
    }
  }

  // ----- the verifier's pump -----

  /** How many of the first `n` lines are forwarded: those up to the first on which the observer closes
      the peer.  What it does on a line may depend on all lines before. */
  function Passed(closes: seq<string> -> bool, lines: seq<string>, n: nat): nat
    requires n <= |lines|
    ensures Passed(closes, lines, n) <= n
  {
    if n == 0 then 0
    else var m := Passed(closes, lines, n - 1); if m == n - 1 && !closes(lines[..n]) then n else m
  }

  ghost predicate NoneCloses(closes: seq<string> -> bool, lines: seq<string>, n: nat)
    requires n <= |lines|
  {
    forall i :: 0 < i <= n ==> !closes(lines[..i])
  }

  /** No line on which the observer closes the peer is ever among them, and the one behind them is. */
  lemma {:induction false} ClosingLineIsNotSent(closes: seq<string> -> bool, lines: seq<string>, n: nat)
    requires n <= |lines|
    ensures var m := Passed(closes, lines, n);
      NoneCloses(closes, lines, m) && (m < n ==> closes(lines[..m + 1]))
  {
    if n > 0 { ClosingLineIsNotSent(closes, lines, n - 1); }
  }

  lemma {:induction false} PassedLonger(closes: seq<string> -> bool, lines: seq<string>, more: seq<string>, n: nat)
    requires n <= |lines|
    ensures Passed(closes, lines + more, n) == Passed(closes, lines, n)
  {
    if n > 0 {
      assert (lines + more)[..n] == lines[..n];
      PassedLonger(closes, lines, more, n - 1);
    }
  }

  lemma {:induction false} JoinedConcat(a: seq<string>, l: string)
    ensures Joined(a + [l]) == Joined(a) + (l + "\n")
  {
    if a == [] {
      assert a + [l] == [l] && [l][1..] == [];
    } else {
      assert (a + [l])[1..] == a[1..] + [l];
      JoinedConcat(a[1..], l);
    }
  }

  /** Of how many lines it is the observer that decides: all, or those in front of `cut`, where the
      peer was closed from elsewhere. */
  function Deciding(lines: seq<string>, cut: Option<nat>): nat { if cut.Some? then cut.value else |lines| }

  ghost predicate PumpOk(closes: seq<string> -> bool, observed: seq<string>, destroyed: bool, sent: string,
                         cut: Option<nat>)
  {
    && Deciding(observed, cut) <= |observed|
    && var n := Passed(closes, observed, Deciding(observed, cut));
       sent == Joined(observed[..n]) && (destroyed <==> cut.Some? || n < |observed|)
  }

  lemma {:induction false} PumpLine(closes: seq<string> -> bool, observed: seq<string>, destroyed: bool, sent: string,
                                    cut: Option<nat>, line: string)
    requires PumpOk(closes, observed, destroyed, sent, cut)
    ensures var all := observed + [line]; var now := destroyed || closes(all);
      PumpOk(closes, all, now, if now then sent else sent + (line + "\n"), cut)
  {
    var all := observed + [line];
    var n := Passed(closes, observed, Deciding(observed, cut));
    PassedLonger(closes, observed, [line], Deciding(observed, cut));
    assert all[..n] == observed[..n] && all[..|all|] == all && observed[..|observed|] == observed;
    JoinedConcat(observed, line);
  }

  class LinePump {
    var buf: string
    var destroyed: bool            // the peer, closed by the observer or from elsewhere
    var observed: seq<string>
    var sent: string
    ghost var received: string
    ghost var cut: Option<nat>     // how many lines had been observed when something else closed the peer

    ghost predicate Valid(closes: seq<string> -> bool)
      reads this
    {
      && buf == Rest(received) && observed == Lines(received)
      && PumpOk(closes, observed, destroyed, sent, cut)
    }

    constructor ()
      ensures forall closes: seq<string> -> bool :: Valid(closes)
      ensures received == "" && sent == "" && cut == None
    {
      buf, destroyed, observed, sent, received, cut := "", false, [], "", "", None;
    }

    /** Something else closes the peer. */
    method PeerCloses(closes: seq<string> -> bool)
      requires Valid(closes)
      modifies this`destroyed, this`cut
      ensures Valid(closes) && destroyed && cut == if old(cut).Some? then old(cut) else Some(|observed|)
    {
      destroyed := true;
      if cut == None { cut := Some(|observed|); }
    }

    /** One line is observed, then forwarded unless the peer is closed by now. */
    method ForwardLine(line: string, closes: seq<string> -> bool)
      requires PumpOk(closes, observed, destroyed, sent, cut)
      modifies this`observed, this`destroyed, this`sent
      ensures PumpOk(closes, observed, destroyed, sent, cut) && observed == old(observed) + [line]
      ensures destroyed == (old(destroyed) || closes(observed))
      ensures sent == if destroyed then old(sent) else old(sent) + (line + "\n")
    {
      PumpLine(closes, observed, destroyed, sent, cut, line);
      observed := observed + [line];
      destroyed := destroyed || closes(observed);
      if !destroyed { sent := sent + (line + "\n"); }
    }

    /** The data handler: observe every complete line, forward it while the peer is open. */
    method OnData(chunk: string, closes: seq<string> -> bool)
      requires Valid(closes)
      modifies this`buf, this`destroyed, this`observed, this`sent, this`received
      ensures Valid(closes) && received == old(received) + chunk
    {
      received := received + chunk;
      LinesExtend(old(received), chunk);
      buf := buf + chunk;
      IndexBounds(buf);
      assert Taken(received, observed, buf);
      var nl := IndexOfNewline(buf);
      while nl != -1
        invariant nl == IndexOfNewline(buf) && received == old(received) + chunk
        invariant Taken(received, observed, buf) && PumpOk(closes, observed, destroyed, sent, cut)
        decreases |buf|
      {
        IndexBounds(buf);
        var line := buf[..nl];
        TakeLine(received, observed, buf);
        buf := buf[nl + 1..];
        ForwardLine(line, closes);
        nl := IndexOfNewline(buf);
        IndexBounds(buf);
      }
      AllTaken(received, observed, buf);
    }
  }

  /** The observed lines are those in front of the buffer. */
  ghost predicate Taken(received: string, observed: seq<string>, buf: string) {
    observed + Lines(buf) == Lines(received) && Rest(buf) == Rest(received)
  }

  lemma {:induction false} TakeLine(received: string, observed: seq<string>, buf: string)
    requires Taken(received, observed, buf) && IndexOfNewline(buf) >= 0
    ensures var i := IndexOfNewline(buf); i < |buf| && Taken(received, observed + [buf[..i]], buf[i + 1..])
  {
    IndexBounds(buf);
    var i := IndexOfNewline(buf);
    ConcatAssociative(observed, [buf[..i]], Lines(buf[i + 1..]));
  }

  lemma {:induction false} AllTaken(received: string, observed: seq<string>, buf: string)
    requires Taken(received, observed, buf) && IndexOfNewline(buf) == -1
    ensures observed == Lines(received) && buf == Rest(received)
  {
    assert observed + [] == observed;
  }

  /** While neither a line nor anything else closes the peer, the pump has forwarded exactly the input
      up to its last newline. */
  lemma {:induction false} PumpIsTransparent(closes: seq<string> -> bool, input: string, destroyed: bool, sent: string,
                                             cut: Option<nat>)
    requires PumpOk(closes, Lines(input), destroyed, sent, cut)
    ensures destroyed <==> cut.Some? || !NoneCloses(closes, Lines(input), |Lines(input)|)
    ensures !destroyed ==> sent + Rest(input) == input
    ensures sent <= input && '\n' !in Rest(input)
  {
    var lines := Lines(input);
    var n := Passed(closes, lines, Deciding(lines, cut));
    LinesRejoin(input);
    ClosingLineIsNotSent(closes, lines, Deciding(lines, cut));
    assert lines[..|lines|] == lines;
    JoinedPrefix(lines, n);
    ConcatAssociative(sent, Joined(lines[n..]), Rest(input));
  }

  lemma {:induction false} JoinedPrefix(lines: seq<string>, n: nat)
    requires n <= |lines|
    ensures Joined(lines) == Joined(lines[..n]) + Joined(lines[n..])
  {
    if n == 0 {
      assert lines[..0] == [] && lines[0..] == lines;
      assert Joined([]) == "" && "" + Joined(lines) == Joined(lines);
    } else {
      JoinedPrefix(lines[1..], n - 1);
      assert lines[..n][1..] == lines[1..][..n - 1] && lines[1..][n - 1..] == lines[n..];
      ConcatAssociative(lines[0] + "\n", Joined(lines[1..][..n - 1]), Joined(lines[n..]));
    }
  }

  /** Fed the same characters, cut in whatever ways, the stratum buffer hands on the lines the
      pump observed, without the empty ones, and both hold back the same unfinished line. */
  lemma {:induction false} BuffersAgree(server: LineBuffer, pump: LinePump, closes: seq<string> -> bool)
    requires server.Valid() && pump.Valid(closes) && server.received == pump.received
    ensures server.handed == NonEmpty(pump.observed) && server.buffer == pump.buf
  {}
}
