/** Exactly which pending rows can still get paid: those that a loop holds, and those of a block that
    a worker can come to because every block in front of it can be MATURED when it is its turn. */
module PayoutReach {
  import opened Shared
  import opened PayoutTable
  import opened FanoutPass
  import opened PayoutProtocol
  import opened PayoutSafety
  import opened PayoutDropped
  import C = PayoutClosing
  import D = FanoutDust

  // ----- in reach -----

  /** The main function may still write MATURED for the block. */
  ghost predicate MayMark(m: Main, y: BlockId) {
    match m
    case Watching(cands, _) => y in cands
    case Marking(x, mark, _, cands, _) => (y == x && mark == Matured) || y in cands
    case _ => false
  }

  ghost predicate MarkedBySome(s: State, y: BlockId) { exists q :: q in s.mains && MayMark(s.mains[q], y) }

  /** The block is MATURED, or not promoted yet, or a write that makes it MATURED is under way. */
  ghost predicate CanMature(s: State, y: BlockId) {
    || y !in s.db.blocks || s.db.blocks[y].status in {BlockStatus.Found, Matured}
    || SetStatus(y, Matured) in s.limbo || MarkedBySome(s, y)
  }

  ghost predicate AllCan(s: State, ms: seq<BlockId>) { forall y :: y in ms ==> CanMature(s, y) }

  /** The block is in the line, and it and all in front of it can be matured. */
  ghost predicate Passable(s: State, ms: seq<BlockId>, b: BlockId) {
    ms != [] && CanMature(s, ms[0]) && (ms[0] == b || Passable(s, ms[1..], b))
  }

  /** The main function can come to reading the pending rows of the block. */
  ghost predicate ComesTo(s: State, m: Main, b: BlockId) {
    match m
    case Watching(cands, ms) => Passable(s, ms, b) || (b in cands && AllCan(s, ms))
    case Marking(x, mark, _, cands, ms) =>
      Passable(s, ms, b) || ((b in cands || (b == x && mark == Matured)) && AllCan(s, ms))
    case Fanning(ms) => Passable(s, ms, b)
    case Upserting(x, _, ms) => CanMature(s, x) && (x == b || Passable(s, ms, b))
    case Starting(x, ms) => CanMature(s, x) && (x == b || Passable(s, ms, b))
    case Dialing(x, ms) => x == b || Passable(s, ms, b)
    case Reading(x, ms) => x == b || Passable(s, ms, b)
    case FailingAll(_, ms) => Passable(s, ms, b)
    case Awaiting(pid, _, ms) => pid in s.passes && !AnyBroken(s.passes[pid]) && Passable(s, ms, b)
    case Closing(_, ms) => Passable(s, ms, b)
    case _ => false
  }

  ghost predicate SomeComes(s: State, b: BlockId) { exists p :: p in s.mains && ComesTo(s, s.mains[p], b) }

  /** The row is in reach: a loop holds it, or a live worker can come to its block. */
  ghost predicate InReach(s: State, k: Key) { SomeComes(s, k.block) || InLoop(s, k) }

  lemma {:induction false} PassableHas(s: State, ms: seq<BlockId>, b: BlockId)
    requires Passable(s, ms, b)
    ensures b in ms
  {
    if ms[0] != b {
      PassableHas(s, ms[1..], b);
      assert forall y :: y in ms[1..] ==> y in ms;
    }
  }

  /** What is in reach is in hand. */
  lemma {:induction false} InReachIsInHand(s: State, k: Key)
    requires InReach(s, k)
    ensures InHand(s, k)
  {
    if !InLoop(s, k) {
      var p :| p in s.mains && ComesTo(s, s.mains[p], k.block);
      ComingHolds(s, s.mains[p], k.block);
    }
  }

  lemma {:induction false} ComingHolds(s: State, m: Main, b: BlockId)
    requires ComesTo(s, m, b)
    ensures Holds(m, b)
  {
    if !(m.Watching? && b in m.cands) && !(m.Marking? && (b in m.cands || b == m.block))
       && !((m.Upserting? || m.Starting? || m.Dialing? || m.Reading?) && b == m.block)
    {
      PassableHas(s, m.matured, b);
    } else if m.Marking? && Passable(s, m.matured, b) {
      PassableHas(s, m.matured, b);
    }
  }

  // ----- out of reach for good -----

  /** Nothing that could not be matured before can be matured now. */
  ghost predicate NoneMatures(s: State, s': State) { forall y :: CanMature(s', y) ==> CanMature(s, y) }

  lemma {:induction false} MayMarkKept(c: Config, s: State, m: Main, ev: Event, y: BlockId)
    requires MainStep(c, s, m, ev).Some? && LeftFound(s.db, y) && !MayMark(m, y)
    ensures !MayMark(MainStep(c, s, m, ev).value.main, y)
  {}

  lemma {:induction false} IssuesNoMark(db: Db, seen: set<BlockId>, m: Main, y: BlockId)
    requires MainOk(db, seen, m) && !MayMark(m, y)
    ensures MainWrite(m) != Some(SetStatus(y, Matured))
  {
    if m.Upserting? && m.writes != [] { assert m.writes[0] in m.writes; }
  }

  lemma {:induction false} NotMaturedBy(db: Db, w: Write, y: BlockId)
    requires y in db.blocks && db.blocks[y].status != Matured && w != SetStatus(y, Matured)
    ensures y in Apply(db, w).blocks && Apply(db, w).blocks[y].status != Matured
  {}

  /** No main function has issued a write that makes the block MATURED. */
  ghost predicate NoneIssues(s: State, y: BlockId) {
    forall p :: p in s.mains ==> MainWrite(s.mains[p]) != Some(SetStatus(y, Matured))
  }

  lemma {:induction false} UnmarkedNoneIssues(s: State, y: BlockId)
    requires Inv(s) && !MarkedBySome(s, y)
    ensures NoneIssues(s, y)
  {
    forall p | p in s.mains ensures MainWrite(s.mains[p]) != Some(SetStatus(y, Matured)) {
      assert !MayMark(s.mains[p], y) && MainOk(s.db, s.seen, s.mains[p]);
      IssuesNoMark(s.db, s.seen, s.mains[p], y);
    }
  }

  /** Not MATURED. */
  ghost predicate Unmatured(db: Db, y: BlockId) { y in db.blocks && db.blocks[y].status != Matured }

  /** No write under way in `s'` makes the block MATURED, and it is so only if it was before. */
  ghost predicate NoMarkLands(s: State, s': State, y: BlockId) {
    SetStatus(y, Matured) !in s'.limbo && (Unmatured(s.db, y) ==> Unmatured(s'.db, y))
  }

  lemma {:induction false} MainLandsNone(c: Config, s: State, p: Proc, m: Main, ev: Event, y: BlockId)
    requires MainStep(c, s, m, ev).Some? && MainWrite(m) != Some(SetStatus(y, Matured))
    requires SetStatus(y, Matured) !in s.limbo
    ensures NoMarkLands(s, AfterMain(s, p, MainStep(c, s, m, ev).value), y)
  {
    var o := MainStep(c, s, m, ev).value;
    if o.write.Some? {
      MainWrites(c, s, m, ev);
      if Unmatured(s.db, y) { NotMaturedBy(s.db, o.write.value, y); }
    }
  }

  lemma {:induction false} SlotLandsNone(s: State, pid: PassId, i: nat, r: Reply, y: BlockId)
    requires SetStatus(y, Matured) !in s.limbo && pid in s.passes && i < |s.passes[pid].slots|
    requires SlotStep(s.db, s.passes[pid].slots[i], r).Some?
    ensures NoMarkLands(s, AfterSlot(s, pid, i, SlotStep(s.db, s.passes[pid].slots[i], r).value), y)
  {
    C.LoopsNeverMark(s.db, s.passes[pid].slots[i], r);
  }

  lemma {:induction false} CrashLandsNone(c: Config, s: State, s': State, p: Proc, left: set<Write>, y: BlockId)
    requires StepTo(c, s, s', Crash(p, left)) && NoneIssues(s, y) && SetStatus(y, Matured) !in s.limbo
    ensures NoMarkLands(s, s', y)
  {
    forall w | w in left ensures w != SetStatus(y, Matured) {
      assert IssuedIn(s, p, w);
      if !(p in s.mains && MainWrite(s.mains[p]) == Some(w)) {
        var pid, i :| pid in s.passes && pid in s.owner && s.owner[pid] == p
                      && 0 <= i < |s.passes[pid].slots| && PhaseWrite(s.passes[pid].slots[i]) == Some(w);
        C.LoopIssuesNoMark(s.passes[pid].slots[i]);
      }
    }
  }

  lemma {:induction false} NextLandsNone(c: Config, s: State, s': State, y: BlockId)
    requires Next(c, s, s') && NoneIssues(s, y) && SetStatus(y, Matured) !in s.limbo
    ensures NoMarkLands(s, s', y)
  {
    var step :| StepTo(c, s, s', step);
    match step
    case MainAct(p, ev) => MainLandsNone(c, s, p, if p in s.mains then s.mains[p] else Down, ev, y);
    case SlotAct(pid, i, r) => SlotLandsNone(s, pid, i, r, y);
    case Crash(p, left) => CrashLandsNone(c, s, s', p, left, y);
    case Land(w) => if Unmatured(s.db, y) { NotMaturedBy(s.db, w, y); }
    case FindBlock(_, _) =>
  }

  lemma {:induction false} NextKeepsUnmarked(c: Config, s: State, s': State, y: BlockId)
    requires Next(c, s, s') && LeftFound(s.db, y) && !MarkedBySome(s, y)
    ensures !MarkedBySome(s', y)
  {
    var step :| StepTo(c, s, s', step);
    forall q | q in s'.mains ensures !MayMark(s'.mains[q], y) {
      if step.MainAct? && step.proc == q {
        MayMarkKept(c, s, if q in s.mains then s.mains[q] else Down, step.ev, y);
      } else if !(step.Crash? && step.proc == q) {
        assert s'.mains[q] == s.mains[q];
      }
    }
  }

  lemma {:induction false} NextMatures(c: Config, s: State, s': State)
    requires Inv(s) && Next(c, s, s')
    ensures NoneMatures(s, s')
  {
    forall y | !CanMature(s, y) ensures !CanMature(s', y) {
      StaysLeft(c, s, s', y);
      UnmarkedNoneIssues(s, y);
      NextLandsNone(c, s, s', y);
      NextKeepsUnmarked(c, s, s', y);
    }
  }

  lemma {:induction false} PassableBack(s: State, s': State, ms: seq<BlockId>, b: BlockId)
    requires NoneMatures(s, s') && Passable(s', ms, b)
    ensures Passable(s, ms, b)
  {
    if ms[0] != b { PassableBack(s, s', ms[1..], b); }
  }

  lemma {:induction false} PassableAppend(s: State, ms: seq<BlockId>, x: BlockId, b: BlockId)
    requires Passable(s, ms + [x], b)
    ensures Passable(s, ms, b) || (b == x && AllCan(s, ms))
  {
    if ms != [] {
      assert (ms + [x])[0] == ms[0] && (ms + [x])[1..] == ms[1..] + [x];
      if ms[0] != b { PassableAppend(s, ms[1..], x, b); }
    }
  }

  lemma {:induction false} WatchingBack(c: Config, s: State, s': State, m: Main, ev: Event, b: BlockId)
    requires m.Watching? && NoneMatures(s, s') && MainStep(c, s, m, ev).Some?
    requires ComesTo(s', MainStep(c, s, m, ev).value.main, b)
    ensures ComesTo(s, m, b)
  {
    if Passable(s', m.matured, b) { PassableBack(s, s', m.matured, b); }
  }

  lemma {:induction false} MarkingBack(c: Config, s: State, s': State, m: Main, ev: Event, b: BlockId)
    requires m.Marking? && NoneMatures(s, s') && MainStep(c, s, m, ev).Some?
    requires ComesTo(s', MainStep(c, s, m, ev).value.main, b)
    ensures ComesTo(s, m, b)
  {
    var ms := m.matured;
    if Passable(s', ms + [m.block], b) { PassableAppend(s', ms, m.block, b); }
    if Passable(s', ms, b) { PassableBack(s, s', ms, b); }
    assert forall y :: y in ms ==> y in ms + [m.block];
  }

  lemma {:induction false} FanningBack(c: Config, s: State, s': State, m: Main, ev: Event, b: BlockId)
    requires (m.Fanning? || m.Upserting?) && NoneMatures(s, s') && MainStep(c, s, m, ev).Some?
    requires ComesTo(s', MainStep(c, s, m, ev).value.main, b)
    ensures ComesTo(s, m, b)
  {
    var o := MainStep(c, s, m, ev).value.main;
    if Passable(s', o.matured, b) { PassableBack(s, s', o.matured, b); }
  }

  lemma {:induction false} WorkingBack(c: Config, s: State, s': State, m: Main, ev: Event, b: BlockId)
    requires m.Starting? || m.Dialing? || m.FailingAll? || m.Reading? || m.Awaiting? || m.Closing?
    requires NoneMatures(s, s') && MainStep(c, s, m, ev).Some?
    requires ComesTo(s', MainStep(c, s, m, ev).value.main, b)
    ensures ComesTo(s, m, b)
  {
    if Passable(s', m.matured, b) { PassableBack(s, s', m.matured, b); }
  }

  lemma {:induction false} IdleBack(c: Config, s: State, s': State, m: Main, ev: Event, b: BlockId)
    requires !m.Watching? && !m.Marking? && !m.Fanning? && !m.Upserting?
    requires !m.Starting? && !m.Dialing? && !m.FailingAll? && !m.Reading? && !m.Awaiting? && !m.Closing?
    requires MainStep(c, s, m, ev).Some? && LeftFound(s.db, b)
    ensures !ComesTo(s', MainStep(c, s, m, ev).value.main, b)
  {}

  /** A main function that steps comes to no block it could not come to before. */
  lemma {:induction false} OwnBack(c: Config, s: State, s': State, m: Main, ev: Event, b: BlockId)
    requires NoneMatures(s, s') && MainStep(c, s, m, ev).Some? && LeftFound(s.db, b)
    ensures ComesTo(s', MainStep(c, s, m, ev).value.main, b) ==> ComesTo(s, m, b)
  {
    if ComesTo(s', MainStep(c, s, m, ev).value.main, b) {
      if m.Watching? {
        WatchingBack(c, s, s', m, ev, b);
      } else if m.Marking? {
        MarkingBack(c, s, s', m, ev, b);
      } else if m.Fanning? || m.Upserting? {
        FanningBack(c, s, s', m, ev, b);
      } else if m.Starting? || m.Dialing? || m.FailingAll? || m.Reading? || m.Awaiting? || m.Closing? {
        WorkingBack(c, s, s', m, ev, b);
      } else {
        IdleBack(c, s, s', m, ev, b);
      }
    }
  }

  lemma {:induction false} BrokenStays(c: Config, s: State, s': State, pid: PassId)
    requires Next(c, s, s') && pid in s.passes && pid in s'.passes && AnyBroken(s.passes[pid])
    ensures AnyBroken(s'.passes[pid])
  {
    var step :| StepTo(c, s, s', step);
    match step
    case MainAct(p, ev) => BrokenKeptByMain(c, s, p, if p in s.mains then s.mains[p] else Down, ev, pid);
    case SlotAct(q, i, r) =>
      if q == pid {
        D.StepOutcome(s.db, s.passes[pid].slots[i], r);
        BrokenKeptBySlot(s.passes[pid], i, SlotStep(s.db, s.passes[pid].slots[i], r).value);
      }
    case Crash(_, _) => assert s'.passes[pid] == s.passes[pid];
    case Land(_) =>
    case FindBlock(_, _) =>
  }

  lemma {:induction false} BrokenKeptBySlot(pass: Pass, i: nat, o: SlotOut)
    requires i < |pass.slots| && D.Active(pass.slots[i]) && AnyBroken(pass)
    ensures AnyBroken(Settle(pass, i, o))
  {
    var j :| 0 <= j < |pass.slots| && pass.slots[j].Broken?;
    assert Settle(pass, i, o).slots[j].Broken?;
  }

  lemma {:induction false} BrokenKeptByMain(c: Config, s: State, p: Proc, m: Main, ev: Event, pid: PassId)
    requires MainStep(c, s, m, ev).Some? && pid in s.passes && AnyBroken(s.passes[pid])
    ensures var t := AfterMain(s, p, MainStep(c, s, m, ev).value); pid in t.passes && AnyBroken(t.passes[pid])
  {
    if MainStep(c, s, m, ev).value.started.Some? { MainStarts(c, s, m, ev); }
  }

  /** Nor does one that only looks on. */
  lemma {:induction false} OtherBack(c: Config, s: State, s': State, q: Proc, m: Main, b: BlockId)
    requires Next(c, s, s') && NoneMatures(s, s') && C.Owns(s, q, m)
    ensures ComesTo(s', m, b) ==> ComesTo(s, m, b)
  {
    if ComesTo(s', m, b) {
      if Passable(s', m.matured, b) { PassableBack(s, s', m.matured, b); }
      if m.Awaiting? && AnyBroken(s.passes[m.pass]) { BrokenStays(c, s, s', m.pass); }
    }
  }

  lemma {:induction false} NoneComes(c: Config, s: State, s': State, b: BlockId)
    requires Next(c, s, s') && NoneMatures(s, s') && LeftFound(s.db, b) && !SomeComes(s, b)
    requires forall q :: q in s.mains ==> C.Owns(s, q, s.mains[q])
    ensures !SomeComes(s', b)
  {
    var step :| StepTo(c, s, s', step);
    forall q | q in s'.mains ensures !ComesTo(s', s'.mains[q], b) {
      if step.MainAct? && step.proc == q {
        OwnBack(c, s, s', if q in s.mains then s.mains[q] else Down, step.ev, b);
      } else if !(step.Crash? && step.proc == q) {
        assert s'.mains[q] == s.mains[q];
        OtherBack(c, s, s', q, s.mains[q], b);
      }
    }
  }

  /** A row out of reach stays out of reach, and is not called. */
  lemma {:induction false} StaysOutOfReach(c: Config, s: State, s': State, k: Key)
    requires Inv(s) && C.ClosingInv(c, s) && Next(c, s, s') && LeftFound(s.db, k.block) && !InReach(s, k)
    ensures LeftFound(s'.db, k.block) && !InReach(s', k) && NoNewCall(s, s', k)
  {
    StaysLeft(c, s, s', k.block);
    NextMatures(c, s, s');
    NoneComes(c, s, s', k.block);
    forall p | p in s.mains && s.mains[p].Reading? ensures s.mains[p].block != k.block {
      assert !ComesTo(s, s.mains[p], k.block);
    }
    StaysAway(c, s, s', k);
  }

  lemma {:induction false} StepOutOfReach(c: Config, run: seq<State>, n: nat, k: Key)
    requires c.concurrency >= 1 && IsRun(c, run) && 0 < n < |run|
    requires LeftFound(run[n - 1].db, k.block) && !InReach(run[n - 1], k)
    ensures LeftFound(run[n].db, k.block) && !InReach(run[n], k) && NoNewCall(run[n - 1], run[n], k)
  {
    RunInv(c, run, n - 1);
    C.RunClosing(c, run, n - 1);
    assert StepAt(c, run, n);
    StaysOutOfReach(c, run[n - 1], run[n], k);
  }

  /** A row out of reach is never called again, whatever workers, crashes, restarts and late writes
      follow. */
  lemma {:induction false} OutOfReachIsNeverPaid(c: Config, run: seq<State>, i: nat, j: nat, k: Key)
    requires c.concurrency >= 1 && IsRun(c, run) && i <= j < |run|
    requires LeftFound(run[i].db, k.block) && !InReach(run[i], k)
    ensures LeftFound(run[j].db, k.block) && !InReach(run[j], k)
    ensures forall call :: call in run[j].log && call.key == k ==> call in run[i].log
    decreases j - i
  {
    if i < j {
      OutOfReachIsNeverPaid(c, run, i, j - 1, k);
      StepOutOfReach(c, run, j, k);
    }
  }
}
