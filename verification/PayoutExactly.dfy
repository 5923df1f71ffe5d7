/** Every pending row of a matured block that is in reach can be called: first the blocks in front of
    it are matured by the writes under way, then the worker comes to it. */
module PayoutExactly {
  import opened PayoutTable
  import opened PayoutProtocol
  import opened PayoutSafety
  import opened PayoutDropped
  import opened PayoutLines
  import opened PayoutCalls
  import opened PayoutPaths
  import opened PayoutReach
  import C = PayoutClosing

  /** About to write ORPHANED out of the "Block not found" branch: only the loss of the write could
      prevent it, and would end the tick. */
  ghost predicate Condemns(m: Main) { m.Marking? && m.mark == Orphaned && m.caught }

  /** The block it condemns is MATURED, and one of `keep`. */
  ghost predicate Endangers(s: State, m: Main, keep: set<BlockId>) {
    Condemns(m) && m.block in keep && IsMatured(s.db, m.block)
  }

  ghost predicate MarkedSafely(s: State, y: BlockId, keep: set<BlockId>) {
    exists q :: q in s.mains && MayMark(s.mains[q], y) && !Endangers(s, s.mains[q], keep)
  }

  /** The block can be matured without orphaning a matured block of `keep` before. */
  ghost predicate Freely(s: State, y: BlockId, keep: set<BlockId>) {
    IsMatured(s.db, y) || SetStatus(y, Matured) in s.limbo || MarkedSafely(s, y, keep)
  }

  ghost predicate MarkedPlainly(s: State, y: BlockId) {
    exists q :: q in s.mains && MayMark(s.mains[q], y) && !Condemns(s.mains[q])
  }

  /** The block can be matured without orphaning any block before. */
  ghost predicate Plainly(s: State, y: BlockId) {
    IsMatured(s.db, y) || SetStatus(y, Matured) in s.limbo || MarkedPlainly(s, y)
  }

  ghost predicate Sound(s: State) {
    forall q :: q in s.mains && s.mains[q].Marking? ==> s.mains[q].mark in {Matured, Orphaned}
  }

  /** What making room for process `p` leaves as it was: rows, passes, the process itself, and what
      can be said of the blocks in `keep`. */
  ghost predicate Kept(s: State, t: State, p: Proc, keep: set<BlockId>) {
    && t.db.rows == s.db.rows && t.passes == s.passes
    && p in s.mains && p in t.mains && t.mains[p] == s.mains[p] && (Sound(s) ==> Sound(t))
    && (forall y :: y in keep && LeftFound(s.db, y) ==> LeftFound(t.db, y))
    && (forall y :: y in keep && IsMatured(s.db, y) ==> IsMatured(t.db, y))
    && (forall y :: y in keep && LeftFound(s.db, y) && Plainly(s, y) ==> Plainly(t, y))
  }

  lemma {:induction false} KeptTwice(s: State, t: State, u: State, p: Proc, keep: set<BlockId>)
    requires Kept(s, t, p, keep) && Kept(t, u, p, keep)
    ensures Kept(s, u, p, keep)
  {}

  /** Nothing is lost when another process goes on to look at its candidates and may still mark what
      it could, or has marked it. */
  lemma {:induction false} MoveKept(s: State, t: State, p: Proc, q: Proc, keep: set<BlockId>)
    requires p != q && p in s.mains && q in s.mains && q in t.mains && t.mains == s.mains[q := t.mains[q]]
    requires t.db.rows == s.db.rows && t.passes == s.passes && s.limbo <= t.limbo && t.mains[q].Watching?
    requires forall y :: y in keep && LeftFound(s.db, y) ==> LeftFound(t.db, y)
    requires forall y :: y in keep && IsMatured(s.db, y) ==> IsMatured(t.db, y)
    requires forall y :: y in keep && LeftFound(s.db, y) && MayMark(s.mains[q], y) ==>
      MayMark(t.mains[q], y) || IsMatured(t.db, y)
    ensures Kept(s, t, p, keep)
  {
    forall y | y in keep && LeftFound(s.db, y) && Plainly(s, y) ensures Plainly(t, y) {
      if IsMatured(s.db, y) {
        assert IsMatured(t.db, y);
      } else if MarkedPlainly(s, y) {
        var r :| r in s.mains && MayMark(s.mains[r], y) && !Condemns(s.mains[r]);
        if r == q { assert MayMark(t.mains[q], y) || IsMatured(t.db, y); } else { assert MayMark(t.mains[r], y); }
      }
    }
  }

  /** Process `q` leaves its marking. */
  lemma {:induction false} LeavesMarking(c: Config, s: State, p: Proc, q: Proc, keep: set<BlockId>) returns (t: State)
    requires p != q && p in s.mains && q in s.mains && s.mains[q].Marking? && Sound(s)
    requires !Endangers(s, s.mains[q], keep)
    ensures CanReach(c, s, t) && Kept(s, t, p, keep) && q in t.mains && t.mains == s.mains[q := t.mains[q]]
    ensures t.mains[q].Watching? && t.mains[q].cands == s.mains[q].cands && s.limbo <= t.limbo
    ensures forall y :: IsMatured(t.db, y) ==>
      IsMatured(s.db, y) || (s.mains[q].mark == Matured && y == s.mains[q].block)
    ensures s.mains[q].mark == Matured && s.mains[q].block in s.db.blocks ==> IsMatured(t.db, s.mains[q].block)
  {
    var m := s.mains[q];
    InPlace(s, q);
    var u := Marks(c, s, q, m.block, m.mark, m.caught, m.cands, m.matured);
    t := At(u, q, Watching(m.cands, if m.mark == Matured then m.matured + [m.block] else m.matured));
    MoveKept(s, t, p, q, keep);
  }

  /** Process `q` promotes its first candidate. */
  lemma {:induction false} PromotesOne(c: Config, s: State, p: Proc, q: Proc, keep: set<BlockId>) returns (t: State)
    requires p != q && p in s.mains && q in s.mains && s.mains[q].Watching? && s.mains[q].cands != []
    ensures CanReach(c, s, t) && Kept(s, t, p, keep) && q in t.mains && t.mains == s.mains[q := t.mains[q]]
    ensures t.mains[q].Watching? && t.mains[q].cands == s.mains[q].cands[1..]
    ensures s.mains[q].cands[0] in s.db.blocks ==> IsMatured(t.db, s.mains[q].cands[0])
  {
    var m := s.mains[q];
    InPlace(s, q);
    Promotes(c, s, q, m.cands, m.matured);
    t := At(Marked(s, m.cands[0]), q, Watching(m.cands[1..], m.matured + [m.cands[0]]));
    MoveKept(s, t, p, q, keep);
  }

  /** A worker that still has the block among its candidates promotes it. */
  lemma {:induction false} PromotesTo(c: Config, s: State, p: Proc, q: Proc, y: BlockId, keep: set<BlockId>)
    returns (t: State)
    requires p != q && p in s.mains && q in s.mains && s.mains[q].Watching? && y in s.mains[q].cands
    requires LeftFound(s.db, y) && y in keep
    ensures CanReach(c, s, t) && Kept(s, t, p, keep) && IsMatured(t.db, y)
    decreases |s.mains[q].cands|
  {
    var u := PromotesOne(c, s, p, q, keep);
    if s.mains[q].cands[0] == y {
      t := u;
    } else {
      t := PromotesTo(c, u, p, q, y, keep);
      Transitive(c, s, u, t);
      KeptTwice(s, u, t, p, keep);
    }
  }

  lemma {:induction false} Lands(c: Config, s: State, p: Proc, y: BlockId, keep: set<BlockId>) returns (t: State)
    requires SetStatus(y, Matured) in s.limbo && LeftFound(s.db, y) && p in s.mains
    ensures CanReach(c, s, t) && Kept(s, t, p, keep) && IsMatured(t.db, y)
  {
    var w := SetStatus(y, Matured);
    t := s.(db := Apply(s.db, w), limbo := s.limbo - {w});
    Reaches(c, s, t, Land(w));
    forall z | LeftFound(s.db, z) && Plainly(s, z) ensures Plainly(t, z) {
      if MarkedPlainly(s, z) {
        var q :| q in s.mains && MayMark(s.mains[q], z) && !Condemns(s.mains[q]);
        assert q in t.mains && MayMark(t.mains[q], z);
      }
    }
  }

  lemma {:induction false} MarkerMatures(c: Config, s: State, p: Proc, q: Proc, y: BlockId, keep: set<BlockId>)
    returns (t: State)
    requires p != q && p in s.mains && q in s.mains && MayMark(s.mains[q], y) && !Condemns(s.mains[q])
    requires LeftFound(s.db, y) && y in keep && Sound(s)
    ensures CanReach(c, s, t) && Kept(s, t, p, keep) && IsMatured(t.db, y)
  {
    if s.mains[q].Watching? {
      t := PromotesTo(c, s, p, q, y, keep);
    } else {
      var u := LeavesMarking(c, s, p, q, keep);
      if y in s.mains[q].cands {
        t := PromotesTo(c, u, p, q, y, keep);
        Transitive(c, s, u, t);
        KeptTwice(s, u, t, p, keep);
      } else {
        t := u;
      }
    }
  }

  /** A block that can be matured gets matured while process `p` waits. */
  lemma {:induction false} Matures(c: Config, s: State, p: Proc, y: BlockId, keep: set<BlockId>) returns (t: State)
    requires p in s.mains && Sound(s) && Plainly(s, y) && !MayMark(s.mains[p], y)
    requires LeftFound(s.db, y) && y in keep
    ensures CanReach(c, s, t) && Kept(s, t, p, keep) && IsMatured(t.db, y)
  {
    if IsMatured(s.db, y) {
      Stays(c, s);
      t := s;
    } else if SetStatus(y, Matured) in s.limbo {
      t := Lands(c, s, p, y, keep);
    } else {
      var q :| q in s.mains && MayMark(s.mains[q], y) && !Condemns(s.mains[q]);
      t := MarkerMatures(c, s, p, q, y, keep);
    }
  }

  /** And so do all of several. */
  lemma {:induction false} MaturesAll(c: Config, s: State, p: Proc, ys: seq<BlockId>, keep: set<BlockId>)
    returns (t: State)
    requires p in s.mains && Sound(s)
    requires forall y :: y in ys ==> LeftFound(s.db, y) && !MayMark(s.mains[p], y) && y in keep
    ensures CanReach(c, s, t) && Kept(s, t, p, keep)
    ensures forall y :: y in ys && Plainly(s, y) ==> IsMatured(t.db, y)
    decreases |ys|
  {
    if ys == [] {
      Stays(c, s);
      t := s;
    } else {
      assert ys[0] in ys && forall y :: y in ys[1..] ==> y in ys;
      var u := s;
      if Plainly(s, ys[0]) { u := Matures(c, s, p, ys[0], keep); } else { Stays(c, s); }
      t := MaturesAll(c, u, p, ys[1..], keep);
      Transitive(c, s, u, t);
      KeptTwice(s, u, t, p, keep);
      assert forall y :: y in ys ==> y == ys[0] || y in ys[1..];
    }
  }

  /** Another worker that condemns no matured block of `keep`. */
  ghost predicate MayGoFirst(s: State, p: Proc, q: Proc, keep: set<BlockId>) {
    q in s.mains && q != p && Condemns(s.mains[q]) && !Endangers(s, s.mains[q], keep)
  }

  /** Such workers write first. */
  lemma {:induction false} Readies(c: Config, s: State, p: Proc, qs: set<Proc>, keep: set<BlockId>) returns (t: State)
    requires p in s.mains && Sound(s) && forall q :: MayGoFirst(s, p, q, keep) ==> q in qs
    ensures CanReach(c, s, t) && Kept(s, t, p, keep)
    ensures forall y :: y in keep && !MayMark(s.mains[p], y) && Freely(s, y, keep) ==> Plainly(t, y)
    decreases |qs|
  {
    if q :| MayGoFirst(s, p, q, keep) {
      var u := LeavesMarking(c, s, p, q, keep);
      FreelyAfter(s, u, p, q, keep);
      t := Readies(c, u, p, qs - {q}, keep);
      Transitive(c, s, u, t);
      KeptTwice(s, u, t, p, keep);
    } else {
      Stays(c, s);
      t := s;
      forall y | y in keep && !MayMark(s.mains[p], y) && Freely(s, y, keep) ensures Plainly(s, y) {
        if MarkedSafely(s, y, keep) {
          var r :| r in s.mains && MayMark(s.mains[r], y) && !Endangers(s, s.mains[r], keep);
          assert r != p && !MayGoFirst(s, p, r, keep);
        }
      }
    }
  }

  lemma {:induction false} FreelyAfter(s: State, u: State, p: Proc, q: Proc, keep: set<BlockId>)
    requires Kept(s, u, p, keep) && MayGoFirst(s, p, q, keep) && s.limbo <= u.limbo
    requires q in u.mains && u.mains == s.mains[q := u.mains[q]]
    requires u.mains[q].Watching? && u.mains[q].cands == s.mains[q].cands
    requires forall y :: IsMatured(u.db, y) ==> IsMatured(s.db, y)
    ensures forall y :: y in keep && Freely(s, y, keep) ==> Freely(u, y, keep)
    ensures forall r :: MayGoFirst(u, p, r, keep) ==> MayGoFirst(s, p, r, keep) && r != q
  {
    forall y | y in keep && Freely(s, y, keep) ensures Freely(u, y, keep) {
      if MarkedSafely(s, y, keep) {
        var r :| r in s.mains && MayMark(s.mains[r], y) && !Endangers(s, s.mains[r], keep);
        assert r in u.mains && MayMark(u.mains[r], y) && !Endangers(u, u.mains[r], keep);
      }
    }
    forall r | MayGoFirst(u, p, r, keep) ensures MayGoFirst(s, p, r, keep) && r != q {
      assert u.mains[r] == s.mains[r];
    }
  }

  // ----- the way is clear -----

  /** The blocks of a line up to `b`. */
  function Front(ms: seq<BlockId>, b: BlockId): seq<BlockId> {
    if ms == [] then [] else [ms[0]] + if ms[0] == b then [] else Front(ms[1..], b)
  }

  lemma {:induction false} FrontIn(ms: seq<BlockId>, b: BlockId)
    ensures forall y :: y in Front(ms, b) ==> y in ms
    ensures b !in ms ==> Front(ms, b) == ms
  {
    if ms != [] {
      FrontIn(ms[1..], b);
      assert ms == [ms[0]] + ms[1..] && forall y :: y in ms[1..] ==> y in ms;
    }
  }

  /** The promoted blocks that have to be MATURED, each when it is its turn, for the main function to
      come to `b`. */
  function Way(m: Main, b: BlockId): seq<BlockId> {
    match m
    case Watching(_, ms) => Front(ms, b)
    case Marking(_, _, _, _, ms) => Front(ms, b)
    case Fanning(ms) => Front(ms, b)
    case Upserting(x, _, ms) => Front([x] + ms, b)
    case Starting(x, ms) => Front([x] + ms, b)
    case Dialing(x, ms) => if x == b then [] else Front(ms, b)
    case Reading(x, ms) => if x == b then [] else Front(ms, b)
    case FailingAll(_, ms) => Front(ms, b)
    case Awaiting(_, _, ms) => Front(ms, b)
    case Closing(_, ms) => Front(ms, b)
    case _ => []
  }

  lemma {:induction false} WayIsTidy(s: State, m: Main, b: BlockId, y: BlockId)
    requires Tidy(s.db, m) && y in Way(m, b)
    ensures LeftFound(s.db, y) && !MayMark(m, y)
  {
    FrontIn(m.matured, b);
    if m.Upserting? || m.Starting? { FrontIn([m.block] + m.matured, b); }
  }

  lemma {:induction false} UpToFrom(s: State, t: State, ms: seq<BlockId>, b: BlockId)
    requires Passable(s, ms, b) && forall y :: y in Front(ms, b) && CanMature(s, y) ==> IsMatured(t.db, y)
    ensures UpTo(t.db, ms, b)
  {
    assert Front(ms, b)[0] == ms[0];
    if ms[0] != b {
      assert forall y :: y in Front(ms[1..], b) ==> y in Front(ms, b);
      UpToFrom(s, t, ms[1..], b);
    }
  }

  lemma {:induction false} ClearFrom(s: State, t: State, m: Main, b: BlockId)
    requires ComesTo(s, m, b) && Tidy(s.db, m) && t.passes == s.passes
    requires forall y :: y in Way(m, b) && CanMature(s, y) ==> IsMatured(t.db, y)
    ensures Clear(t, m, b)
  {
    if m.Upserting? || m.Starting? {
      var line := [m.block] + m.matured;
      assert line[0] == m.block && line[1..] == m.matured;
      assert Passable(s, line, b);
      UpToFrom(s, t, line, b);
    } else if Passable(s, m.matured, b) && !((m.Dialing? || m.Reading?) && m.block == b) {
      UpToFrom(s, t, m.matured, b);
    } else {
      FrontIn(m.matured, b);
    }
  }

  /** The blocks that must stay MATURED for the main function to come to `b`. */
  function OnTheWay(m: Main, b: BlockId): set<BlockId> { {b} + set y | y in Way(m, b) }

  /** Every block on the way that can be matured can be without orphaning a matured one before. */
  ghost predicate FreeWay(s: State, m: Main, b: BlockId) {
    forall y :: y in Way(m, b) && CanMature(s, y) ==> Freely(s, y, OnTheWay(m, b))
  }

  lemma {:induction false} RoomFor(c: Config, s: State, p: Proc, b: BlockId) returns (t: State)
    requires Inv(s) && AllTidy(s) && p in s.mains && ComesTo(s, s.mains[p], b) && FreeWay(s, s.mains[p], b)
    ensures CanReach(c, s, t) && Kept(s, t, p, {b}) && Clear(t, s.mains[p], b)
  {
    var m := s.mains[p];
    var keep := OnTheWay(m, b);
    forall q | q in s.mains && s.mains[q].Marking? ensures s.mains[q].mark in {Matured, Orphaned} {
      assert MainOk(s.db, s.seen, s.mains[q]);
    }
    forall y | y in Way(m, b) ensures LeftFound(s.db, y) && !MayMark(m, y) { WayIsTidy(s, m, b, y); }
    var u := Readies(c, s, p, s.mains.Keys, keep);
    t := MaturesAll(c, u, p, Way(m, b), keep);
    Transitive(c, s, u, t);
    KeptTwice(s, u, t, p, keep);
    ClearFrom(s, t, m, b);
  }

  lemma {:induction false} RunOk(c: Config, run: seq<State>, n: nat)
    requires IsRun(c, run) && c.concurrency >= 1 && n < |run|
    ensures Inv(run[n]) && AllTidy(run[n]) && C.ClosingInv(c, run[n])
  {
    RunInv(c, run, n);
    RunTidy(c, run, n);
    C.RunClosing(c, run, n);
  }

  lemma {:induction false} ReachedOk(c: Config, run: seq<State>, t: State)
    requires IsRun(c, run) && c.concurrency >= 1 && CanReach(c, run[|run| - 1], t)
    ensures Inv(t) && AllTidy(t) && C.ClosingInv(c, t)
  {
    var longer := Continue(c, run, t);
    RunOk(c, longer, |longer| - 1);
  }

  lemma {:induction false} ClearedIsCalled(c: Config, run: seq<State>, t: State, p: Proc, k: Key)
    requires IsRun(c, run) && c.concurrency >= 1 && CanReach(c, run[|run| - 1], t)
    requires IsPending(t.db, k) && IsMatured(t.db, k.block) && p in t.mains && Clear(t, t.mains[p], k.block)
    ensures CanCall(c, t, k)
  {
    ReachedOk(c, run, t);
    ClearCalls(c, t, p, k);
  }

  lemma {:induction false} ComingIsCalled(c: Config, run: seq<State>, p: Proc, k: Key)
    requires IsRun(c, run) && c.concurrency >= 1
    requires var s := run[|run| - 1];
      && IsPending(s.db, k) && IsMatured(s.db, k.block)
      && p in s.mains && ComesTo(s, s.mains[p], k.block) && FreeWay(s, s.mains[p], k.block)
    ensures CanCall(c, run[|run| - 1], k)
  {
    var s := run[|run| - 1];
    RunInv(c, run, |run| - 1);
    RunTidy(c, run, |run| - 1);
    var t := RoomFor(c, s, p, k.block);
    ClearedIsCalled(c, run, t, p, k);
    CallsLater(c, s, t, k);
  }

  lemma {:induction false} HeldIsCalled(c: Config, run: seq<State>, k: Key)
    requires IsRun(c, run) && IsPending(run[|run| - 1].db, k) && InLoop(run[|run| - 1], k)
    ensures CanCall(c, run[|run| - 1], k)
  {
    var s := run[|run| - 1];
    RunInv(c, run, |run| - 1);
    var pid, i :| pid in s.passes && 0 <= i < |s.passes[pid].slots| && LoopHolds(s.passes[pid], i, k);
    LoopCalls(c, s, pid, i, k);
  }

  // ----- without loops nothing is called -----

  ghost predicate NoLoops(s: State) { s.log == [] && forall pid :: pid in s.passes ==> s.passes[pid].slots == [] }

  lemma {:induction false} NextNoLoops(c: Config, s: State, s': State)
    requires c.concurrency == 0 && NoLoops(s) && Next(c, s, s')
    ensures NoLoops(s')
  {
    var step :| StepTo(c, s, s', step);
    match step
    case MainAct(p, ev) => MainNoLoops(c, s, p, if p in s.mains then s.mains[p] else Down, ev);
    case SlotAct(_, _, _) =>
    case Crash(p, left) => CrashNoLoops(c, s, s', p, left);
    case Land(_) =>
    case FindBlock(_, _) =>
  }

  lemma {:induction false} CrashNoLoops(c: Config, s: State, s': State, p: Proc, left: set<Write>)
    requires NoLoops(s) && StepTo(c, s, s', Crash(p, left))
    ensures NoLoops(s')
  {}

  lemma {:induction false} MainNoLoops(c: Config, s: State, p: Proc, m: Main, ev: Event)
    requires c.concurrency == 0 && NoLoops(s) && MainStep(c, s, m, ev).Some?
    ensures NoLoops(AfterMain(s, p, MainStep(c, s, m, ev).value))
  {
    if MainStep(c, s, m, ev).value.started.Some? { MainOpens(c, s, m, ev); }
  }

  lemma {:induction false} RunNoLoops(c: Config, run: seq<State>, n: nat)
    requires c.concurrency == 0 && IsRun(c, run) && n < |run|
    ensures NoLoops(run[n])
  {
    if n > 0 {
      RunNoLoops(c, run, n - 1);
      assert StepAt(c, run, n);
      NextNoLoops(c, run[n - 1], run[n]);
    }
  }

  // ----- both directions -----

  lemma {:induction false} CalledWasInReach(c: Config, run: seq<State>, k: Key)
    requires IsRun(c, run) && IsPending(run[|run| - 1].db, k) && IsMatured(run[|run| - 1].db, k.block)
    requires CanCall(c, run[|run| - 1], k)
    ensures c.concurrency >= 1 && InReach(run[|run| - 1], k)
  {
    var n := |run| - 1;
    var t :| CanReach(c, run[n], t) && Called(t.log, k);
    var longer := Continue(c, run, t);
    RunInv(c, run, n);
    var call :| call in t.log && call.key == k;
    if c.concurrency == 0 { RunNoLoops(c, longer, |longer| - 1); }
    if c.concurrency >= 1 && !InReach(run[n], k) {
      assert longer[n] == run[n];
      OutOfReachIsNeverPaid(c, longer, n, |longer| - 1, k);
    }
  }

  ghost predicate ComesFreely(s: State, b: BlockId) {
    exists p :: p in s.mains && ComesTo(s, s.mains[p], b) && FreeWay(s, s.mains[p], b)
  }

  /** A loop holds the row, or a worker can come to its block whose way is free: no block on it waits
      for somebody who is about to orphan, out of the "Block not found" branch, a matured block of it. */
  ghost predicate FreelyInReach(s: State, k: Key) { ComesFreely(s, k.block) || InLoop(s, k) }

  lemma {:induction false} FreelyInReachIsCalled(c: Config, run: seq<State>, k: Key)
    requires IsRun(c, run) && IsPending(run[|run| - 1].db, k) && IsMatured(run[|run| - 1].db, k.block)
    requires c.concurrency >= 1 && FreelyInReach(run[|run| - 1], k)
    ensures CanCall(c, run[|run| - 1], k)
  {
    var s := run[|run| - 1];
    if InLoop(s, k) {
      HeldIsCalled(c, run, k);
    } else {
      var p :| p in s.mains && ComesTo(s, s.mains[p], k.block) && FreeWay(s, s.mains[p], k.block);
      ComingIsCalled(c, run, p, k);
    }
  }

  /** A pending dust row of a matured block can still be paid if loops run at all and it is freely in
      reach, and only if loops run and it is in reach: exactly then, where the two are the same. */
  lemma {:induction false} CanBePaidExactly(c: Config, run: seq<State>, k: Key)
    requires IsRun(c, run) && IsPending(run[|run| - 1].db, k) && IsMatured(run[|run| - 1].db, k.block)
    ensures c.concurrency >= 1 && FreelyInReach(run[|run| - 1], k) ==> CanCall(c, run[|run| - 1], k)
    ensures CanCall(c, run[|run| - 1], k) ==> c.concurrency >= 1 && InReach(run[|run| - 1], k)
    ensures (InReach(run[|run| - 1], k) ==> FreelyInReach(run[|run| - 1], k)) ==>
      (CanCall(c, run[|run| - 1], k) <==> c.concurrency >= 1 && InReach(run[|run| - 1], k))
  {
    var s := run[|run| - 1];
    if CanCall(c, s, k) { CalledWasInReach(c, run, k); }
    if c.concurrency >= 1 && FreelyInReach(s, k) { FreelyInReachIsCalled(c, run, k); }
  }
}
