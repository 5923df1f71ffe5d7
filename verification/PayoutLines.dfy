/** The line of blocks a worker has taken on: each block once, all of them stored, and none of the
    promoted ones FOUND any more. */
module PayoutLines {
  import opened PayoutTable
  import opened PayoutProtocol
  import opened PayoutSafety
  import opened PayoutRuns
  import opened PayoutDropped

  ghost predicate Stored(db: Db, bs: seq<BlockId>) { forall b :: b in bs ==> b in db.blocks }

  ghost predicate AllLeft(db: Db, bs: seq<BlockId>) { forall b :: b in bs ==> LeftFound(db, b) }

  /** Candidates still to be looked at and blocks promoted by now. */
  ghost predicate Lists(db: Db, cands: seq<BlockId>, ms: seq<BlockId>) {
    && Distinct(cands) && Distinct(ms) && (forall b :: b in cands ==> b !in ms)
    && Stored(db, cands) && AllLeft(db, ms)
  }

  /** A promoted block being worked on and those behind it. */
  ghost predicate OnBlock(db: Db, x: BlockId, ms: seq<BlockId>) { LeftFound(db, x) && x !in ms && Lists(db, [], ms) }

  ghost predicate Tidy(db: Db, m: Main) {
    match m
    case Watching(cands, ms) => Lists(db, cands, ms)
    case Marking(x, _, _, cands, ms) => x in db.blocks && x !in cands && x !in ms && Lists(db, cands, ms)
    case Fanning(ms) => Lists(db, [], ms)
    case Upserting(x, _, ms) => OnBlock(db, x, ms)
    case Starting(x, ms) => OnBlock(db, x, ms)
    case Dialing(x, ms) => OnBlock(db, x, ms)
    case FailingAll(x, ms) => OnBlock(db, x, ms)
    case Reading(x, ms) => OnBlock(db, x, ms)
    case Awaiting(_, x, ms) => OnBlock(db, x, ms)
    case Closing(x, ms) => OnBlock(db, x, ms)
    case _ => true
  }

  lemma {:induction false} NextCandidate(db: Db, cands: seq<BlockId>, ms: seq<BlockId>)
    requires Lists(db, cands, ms) && cands != []
    ensures Lists(db, cands[1..], ms) && cands[0] in db.blocks && cands[0] !in cands[1..] && cands[0] !in ms
  {}

  lemma {:induction false} OneMore(db: Db, cands: seq<BlockId>, ms: seq<BlockId>, x: BlockId)
    requires Lists(db, cands, ms) && x !in cands && x !in ms && LeftFound(db, x)
    ensures Lists(db, cands, ms + [x])
  {}

  lemma {:induction false} NextPromoted(db: Db, ms: seq<BlockId>)
    requires Lists(db, [], ms) && ms != []
    ensures OnBlock(db, ms[0], ms[1..])
  {}

  /** The database only gains blocks, and those that left FOUND stay so. */
  ghost predicate BlocksKept(db: Db, later: Db) {
    && (forall b :: b in db.blocks ==> b in later.blocks)
    && (forall b :: LeftFound(db, b) ==> LeftFound(later, b))
  }

  lemma {:induction false} ListsStable(db: Db, later: Db, cands: seq<BlockId>, ms: seq<BlockId>)
    requires BlocksKept(db, later) && Lists(db, cands, ms)
    ensures Lists(later, cands, ms)
  {}

  lemma {:induction false} TidyStable(db: Db, later: Db, m: Main)
    requires BlocksKept(db, later) && Tidy(db, m)
    ensures Tidy(later, m)
  {
    match m
    case Watching(cands, ms) => ListsStable(db, later, cands, ms);
    case Marking(_, _, _, cands, ms) => ListsStable(db, later, cands, ms);
    case Fanning(ms) => ListsStable(db, later, [], ms);
    case _ =>
  }

  lemma {:induction false} WatchingTidy(c: Config, s: State, m: Main, ev: Event)
    requires m.Watching? && Tidy(s.db, m) && MainStep(c, s, m, ev).Some?
    ensures Tidy(s.db, MainStep(c, s, m, ev).value.main)
  {
    if m.cands != [] { NextCandidate(s.db, m.cands, m.matured); }
  }

  lemma {:induction false} MarkingTidy(c: Config, s: State, p: Proc, m: Main, ev: Event)
    requires m.Marking? && Tidy(s.db, m) && MainStep(c, s, m, ev).Some?
    requires BlocksKept(s.db, AfterMain(s, p, MainStep(c, s, m, ev).value).db)
    ensures Tidy(AfterMain(s, p, MainStep(c, s, m, ev).value).db, MainStep(c, s, m, ev).value.main)
  {
    var later := AfterMain(s, p, MainStep(c, s, m, ev).value).db;
    ListsStable(s.db, later, m.cands, m.matured);
    if ev.Go? && m.mark == Matured { OneMore(later, m.cands, m.matured, m.block); }
  }

  lemma {:induction false} FanningTidy(c: Config, s: State, m: Main, ev: Event)
    requires !m.Watching? && !m.Marking? && Tidy(s.db, m) && MainStep(c, s, m, ev).Some?
    ensures Tidy(s.db, MainStep(c, s, m, ev).value.main)
  {
    if m.Fanning? && m.matured != [] { NextPromoted(s.db, m.matured); }
  }

  lemma {:induction false} MainTidy(c: Config, s: State, p: Proc, m: Main, ev: Event)
    requires Tidy(s.db, m) && MainStep(c, s, m, ev).Some?
    requires BlocksKept(s.db, AfterMain(s, p, MainStep(c, s, m, ev).value).db)
    ensures Tidy(AfterMain(s, p, MainStep(c, s, m, ev).value).db, MainStep(c, s, m, ev).value.main)
  {
    var o := MainStep(c, s, m, ev).value;
    if m.Marking? {
      MarkingTidy(c, s, p, m, ev);
    } else {
      if m.Watching? { WatchingTidy(c, s, m, ev); } else { FanningTidy(c, s, m, ev); }
      TidyStable(s.db, AfterMain(s, p, o).db, o.main);
    }
  }

  ghost predicate AllTidy(s: State) { forall p :: p in s.mains ==> Tidy(s.db, s.mains[p]) }

  lemma {:induction false} NextKeepsBlocks(c: Config, s: State, s': State)
    requires Inv(s) && Next(c, s, s')
    ensures BlocksKept(s.db, s'.db)
  {
    NextForward(c, s, s');
    forall b | LeftFound(s.db, b) ensures LeftFound(s'.db, b) { StaysLeft(c, s, s', b); }
  }

  lemma {:induction false} NextTidy(c: Config, s: State, s': State)
    requires Inv(s) && AllTidy(s) && Next(c, s, s')
    ensures AllTidy(s')
  {
    NextKeepsBlocks(c, s, s');
    var step :| StepTo(c, s, s', step);
    forall q | q in s'.mains ensures Tidy(s'.db, s'.mains[q]) {
      if step.MainAct? && step.proc == q {
        MainTidy(c, s, q, if q in s.mains then s.mains[q] else Down, step.ev);
      } else if !(step.Crash? && step.proc == q) {
        assert s'.mains[q] == s.mains[q];
        TidyStable(s.db, s'.db, s.mains[q]);
      }
    }
  }

  lemma {:induction false} StepTidy(c: Config, run: seq<State>, n: nat)
    requires IsRun(c, run) && 0 < n < |run| && AllTidy(run[n - 1])
    ensures AllTidy(run[n])
  {
    RunInv(c, run, n - 1);
    assert StepAt(c, run, n);
    NextTidy(c, run[n - 1], run[n]);
  }

  /** In every run every worker's line is tidy. */
  lemma {:induction false} RunTidy(c: Config, run: seq<State>, n: nat)
    requires IsRun(c, run) && n < |run|
    ensures AllTidy(run[n])
  {
    if n > 0 {
      RunTidy(c, run, n - 1);
      StepTidy(c, run, n);
    }
  }
}
