/** Why a row that is in reach must be freely so: a run into a state in which a block in front can only
    be matured by a worker that orphans the row's own block first.  The row is never paid. */
module PayoutOpposed {
  import opened Shared
  import opened PayoutTable
  import opened PayoutProtocol
  import opened PayoutSafety
  import opened PayoutDropped
  import opened PayoutReach
  import opened PayoutCalls
  import opened PayoutPaths
  import opened PayoutScenarios
  import E = PayoutExactly

  // ----- stuck -----

  /** Process `p` has `y` and then `b` ahead of it, and has not read the status of `y` yet. */
  ghost predicate BeforeBoth(m: Main, y: BlockId, b: BlockId) {
    || m == Fanning([y, b])
    || (m.Upserting? && m.block == y && m.matured == [b])
    || m == Starting(y, [b])
  }

  ghost predicate CondemnsOnly(m: Main, b: BlockId) { E.Condemns(m) && m.block == b && !Holds(m, b) }

  /** Whoever is neither `p` nor `q` has nothing to do with the two blocks. */
  ghost predicate Aside(s: State, p: Proc, q: Proc, y: BlockId, b: BlockId) {
    forall r :: r in s.mains && r != p && r != q ==> !Holds(s.mains[r], b) && !MayMark(s.mains[r], y)
  }

  /** Nobody but a process `q` about to orphan the row's block may mature `y`, which is in front of it
      in the line of `p`, the only one that has the block in hand. */
  ghost predicate Stuck(s: State, p: Proc, q: Proc, y: BlockId, k: Key) {
    && p != q && p in s.mains && q in s.mains && y != k.block
    && BeforeBoth(s.mains[p], y, k.block) && CondemnsOnly(s.mains[q], k.block) && Aside(s, p, q, y, k.block)
    && LeftFound(s.db, y) && Unmatured(s.db, y) && SetStatus(y, Matured) !in s.limbo
    && LeftFound(s.db, k.block) && SetStatus(k.block, Matured) !in s.limbo && !InLoop(s, k)
  }

  ghost predicate OutNow(s: State, k: Key) { LeftFound(s.db, k.block) && !InReach(s, k) }

  lemma {:induction false} NobodyHoldsIt(s: State, k: Key)
    requires LeftFound(s.db, k.block) && !InLoop(s, k) && !HeldBySome(s, k.block)
    ensures OutNow(s, k)
  {
    forall p | p in s.mains ensures !ComesTo(s, s.mains[p], k.block) {
      if ComesTo(s, s.mains[p], k.block) { ComingHolds(s, s.mains[p], k.block); }
    }
  }

  lemma {:induction false} Blocked(s: State, m: Main, y: BlockId, b: BlockId)
    requires y != b && BeforeBoth(m, y, b) && (!CanMature(s, y) || !CanMature(s, b))
    ensures !ComesTo(s, m, b)
  {
    assert Passable(s, [y, b], b) <==> CanMature(s, y) && Passable(s, [y, b][1..], b);
    assert [y, b][1..] == [b] && (Passable(s, [b], b) ==> CanMature(s, b));
  }

  /** The only one that has the block in hand cannot get past the other one, or past it. */
  lemma {:induction false} BlockedOut(s: State, p: Proc, y: BlockId, k: Key)
    requires LeftFound(s.db, k.block) && !InLoop(s, k) && y != k.block
    requires p in s.mains && BeforeBoth(s.mains[p], y, k.block)
    requires forall r :: r in s.mains && r != p ==> !Holds(s.mains[r], k.block)
    requires !CanMature(s, y) || !CanMature(s, k.block)
    ensures OutNow(s, k)
  {
    forall r | r in s.mains ensures !ComesTo(s, s.mains[r], k.block) {
      if r == p {
        Blocked(s, s.mains[p], y, k.block);
      } else if ComesTo(s, s.mains[r], k.block) {
        ComingHolds(s, s.mains[r], k.block);
      }
    }
  }

  lemma {:induction false} StuckIssues(s: State, p: Proc, q: Proc, y: BlockId, k: Key)
    requires Inv(s) && Stuck(s, p, q, y, k)
    ensures NoneIssues(s, y) && NoneIssues(s, k.block)
  {
    forall r, x | r in s.mains && x in {y, k.block} ensures MainWrite(s.mains[r]) != Some(SetStatus(x, Matured)) {
      if r != q {
        assert !MayMark(s.mains[r], x) && MainOk(s.db, s.seen, s.mains[r]);
        IssuesNoMark(s.db, s.seen, s.mains[r], x);
      }
    }
  }

  /** The line of `p` ends at the block that is not MATURED. */
  lemma {:induction false} LineKept(c: Config, s: State, m: Main, ev: Event, y: BlockId, b: BlockId)
    requires MainStep(c, s, m, ev).Some? && BeforeBoth(m, y, b) && Unmatured(s.db, y)
    ensures var n := MainStep(c, s, m, ev).value.main; BeforeBoth(n, y, b) || !Holds(n, b)
  {
    assert [y, b][1..] == [b];
  }

  lemma {:induction false} CondemnedKept(c: Config, s: State, q: Proc, m: Main, ev: Event, y: BlockId, b: BlockId)
    requires MainStep(c, s, m, ev).Some? && CondemnsOnly(m, b) && b in s.db.blocks
    ensures var o := MainStep(c, s, m, ev).value;
      !Holds(o.main, b) && (!MayMark(o.main, y) || Unmatured(AfterMain(s, q, o).db, b))
  {}

  lemma {:induction false} AsideKept(c: Config, s: State, s': State, p: Proc, q: Proc, y: BlockId, b: BlockId)
    requires Next(c, s, s') && Aside(s, p, q, y, b) && LeftFound(s.db, y) && LeftFound(s.db, b)
    ensures Aside(s', p, q, y, b)
  {
    var step :| StepTo(c, s, s', step);
    forall r | r in s'.mains && r != p && r != q ensures !Holds(s'.mains[r], b) && !MayMark(s'.mains[r], y) {
      if step.MainAct? && step.proc == r {
        HoldsKept(c, s, if r in s.mains then s.mains[r] else Down, step.ev, b);
        MayMarkKept(c, s, if r in s.mains then s.mains[r] else Down, step.ev, y);
      } else if !(step.Crash? && step.proc == r) {
        assert s'.mains[r] == s.mains[r];
      }
    }
  }

  lemma {:induction false} BothKept(c: Config, s: State, s': State, p: Proc, q: Proc, y: BlockId, k: Key)
    requires Next(c, s, s') && Stuck(s, p, q, y, k)
    ensures p in s'.mains && (BeforeBoth(s'.mains[p], y, k.block) || !Holds(s'.mains[p], k.block))
    ensures q in s'.mains && !Holds(s'.mains[q], k.block)
    ensures s'.mains[q] == s.mains[q] || !MayMark(s'.mains[q], y) || Unmatured(s'.db, k.block)
  {
    var step :| StepTo(c, s, s', step);
    if step.MainAct? && step.proc == p {
      LineKept(c, s, s.mains[p], step.ev, y, k.block);
    } else if step.MainAct? && step.proc == q {
      CondemnedKept(c, s, q, s.mains[q], step.ev, y, k.block);
    }
  }

  /** A stuck row stays stuck or gets out of reach, and is not called. */
  lemma {:induction false} StuckStep(c: Config, s: State, s': State, p: Proc, q: Proc, y: BlockId, k: Key)
    requires Inv(s) && Next(c, s, s') && Stuck(s, p, q, y, k)
    ensures (Stuck(s', p, q, y, k) || OutNow(s', k)) && NoNewCall(s, s', k)
  {
    var b := k.block;
    StaysLeft(c, s, s', y);
    StaysLeft(c, s, s', b);
    StuckIssues(s, p, q, y, k);
    NextLandsNone(c, s, s', y);
    NextLandsNone(c, s, s', b);
    AsideKept(c, s, s', p, q, y, b);
    BothKept(c, s, s', p, q, y, k);
    assert forall r :: r in s.mains && s.mains[r].Reading? ==> !Holds(s.mains[r], b);
    StaysAway(c, s, s', k);
    if !BeforeBoth(s'.mains[p], y, b) {
      NobodyHoldsIt(s', k);
    } else if s'.mains[q] != s.mains[q] {
      StuckEnds(s', p, q, y, k);
    }
  }

  lemma {:induction false} StuckEnds(s: State, p: Proc, q: Proc, y: BlockId, k: Key)
    requires p != q && p in s.mains && q in s.mains && y != k.block && Aside(s, p, q, y, k.block)
    requires BeforeBoth(s.mains[p], y, k.block) && !Holds(s.mains[q], k.block)
    requires !MayMark(s.mains[q], y) || Unmatured(s.db, k.block)
    requires LeftFound(s.db, y) && Unmatured(s.db, y) && SetStatus(y, Matured) !in s.limbo
    requires LeftFound(s.db, k.block) && SetStatus(k.block, Matured) !in s.limbo && !InLoop(s, k)
    ensures OutNow(s, k)
  {
    if !MayMark(s.mains[q], y) {
      assert forall r :: r in s.mains ==> !MayMark(s.mains[r], y);
    } else {
      forall r | r in s.mains ensures !MayMark(s.mains[r], k.block) {
        if r != p { assert !Holds(s.mains[r], k.block); }
      }
    }
    BlockedOut(s, p, y, k);
  }

  /** No run in which the row got stuck ever calls it after that. */
  lemma {:induction false} StuckIsNeverPaid(c: Config, run: seq<State>, i: nat, j: nat, p: Proc, q: Proc, y: BlockId,
                                            k: Key)
    requires c.concurrency >= 1 && IsRun(c, run) && i <= j < |run| && Stuck(run[i], p, q, y, k)
    ensures Stuck(run[j], p, q, y, k) || OutNow(run[j], k)
    ensures NoNewCall(run[i], run[j], k)
    decreases j - i
  {
    if i < j {
      StuckIsNeverPaid(c, run, i, j - 1, p, q, y, k);
      StuckOrOut(c, run, j, p, q, y, k);
    }
  }

  lemma {:induction false} StuckOrOut(c: Config, run: seq<State>, n: nat, p: Proc, q: Proc, y: BlockId, k: Key)
    requires c.concurrency >= 1 && IsRun(c, run) && 0 < n < |run|
    requires Stuck(run[n - 1], p, q, y, k) || OutNow(run[n - 1], k)
    ensures (Stuck(run[n], p, q, y, k) || OutNow(run[n], k)) && NoNewCall(run[n - 1], run[n], k)
  {
    if OutNow(run[n - 1], k) {
      StepOutOfReach(c, run, n, k);
    } else {
      RunInv(c, run, n - 1);
      assert StepAt(c, run, n);
      StuckStep(c, run[n - 1], run[n], p, q, y, k);
    }
  }

  lemma {:induction false} StuckCannotBeCalled(c: Config, run: seq<State>, p: Proc, q: Proc, y: BlockId, k: Key)
    requires c.concurrency >= 1 && IsRun(c, run) && Stuck(run[|run| - 1], p, q, y, k) && run[|run| - 1].log == []
    ensures !CanCall(c, run[|run| - 1], k)
  {
    forall t | CanReach(c, run[|run| - 1], t) ensures !Called(t.log, k) {
      var longer := Continue(c, run, t);
      StuckIsNeverPaid(c, longer, |run| - 1, |longer| - 1, p, q, y, k);
    }
  }

  // ----- a run that gets stuck -----

  /** Two blocks were found, no worker has run. */
  function StartTwo(y: BlockId, b: BlockId, member: Pubkey, amount: nat): State {
    var found := Block(BlockStatus.Found, Owing(member, amount));
    State(Db(map[], map[y := found, b := found]), [], {}, map[], map[], map[], map[], {})
  }

  /** Three workers watch both blocks. */
  function Watched(y: BlockId, b: BlockId, member: Pubkey, amount: nat): State {
    StartTwo(y, b, member, amount).(mains := map[0 := Watching([y, b], []), 1 := Watching([b, y], []),
                                                 2 := Watching([y, b], [])])
  }

  lemma {:induction false} GetsWatched(c: Config, y: BlockId, b: BlockId, member: Pubkey, amount: nat)
    requires y != b
    ensures CanReach(c, StartTwo(y, b, member, amount), Watched(y, b, member, amount))
  {
    var s := StartTwo(y, b, member, amount);
    assert ListsInFlight(s.db.rows, []);
    Boots(c, s, 0, [y, b]);
    var t := At(s, 0, Watching([y, b], []));
    Boots(c, t, 1, [b, y]);
    var u := At(t, 1, Watching([b, y], []));
    Boots(c, u, 2, [y, b]);
    Transitive(c, s, t, u);
    Transitive(c, s, u, At(u, 2, Watching([y, b], [])));
    assert At(u, 2, Watching([y, b], [])).mains == Watched(y, b, member, amount).mains;
  }

  lemma {:induction false} PromotesBoth(c: Config, s: State, p: Proc, y: BlockId, b: BlockId)
    requires p in s.mains && s.mains[p] == Watching([y, b], [])
    ensures CanReach(c, s, At(Marked(Marked(s, y), b), p, Fanning([y, b])))
  {
    var t := Marked(s, y);
    InPlace(s, p);
    assert [y, b][1..] == [b] && [] + [y] == [y] && [y] + [b] == [y, b] && [b][1..] == [];
    Promotes(c, s, p, [y, b], []);
    Promotes(c, t, p, [b], [y]);
    Goes(c, Marked(t, b), p, Watching([], [y, b]), Go, Fanning([y, b]));
    Transitive(c, s, At(t, p, Watching([b], [y])), At(Marked(t, b), p, Watching([], [y, b])));
    Transitive(c, s, At(Marked(t, b), p, Watching([], [y, b])), At(Marked(t, b), p, Fanning([y, b])));
  }

  /** The node does not know the first candidate. */
  lemma {:induction false} Misses(c: Config, s: State, p: Proc, x: BlockId, z: BlockId)
    requires p in s.mains && s.mains[p] == Watching([x, z], [])
    ensures CanReach(c, s, At(s, p, Marking(x, Orphaned, true, [z], [])))
  {
    InPlace(s, p);
    assert [x, z][1..] == [z];
    Goes(c, s, p, Watching([x, z], []), NotFound, Marking(x, Orphaned, true, [z], []));
  }

  /** A worker that misses the first candidate promotes and records the second, and crashes. */
  lemma {:induction false} RecordsSecond(c: Config, s: State, p: Proc, y: BlockId, b: BlockId, member: Pubkey,
                                         amount: nat) returns (t: State)
    requires p in s.mains && s.mains[p] == Watching([y, b], []) && s.passes == map[] && s.db.rows == map[]
    requires y != b && y in s.db.blocks && b in s.db.blocks && s.db.blocks[b].snapshot == Owing(member, amount)
    ensures CanReach(c, s, t) && t.mains == s.mains[p := Down] && t.passes == map[] && t.log == s.log
    ensures t.limbo == s.limbo && t.db.rows == Rows1(b, member, amount, Pending)
    ensures y in t.db.blocks && t.db.blocks[y].status == Orphaned && IsMatured(t.db, b)
  {
    var s1 := s.(db := Apply(s.db, SetStatus(y, Orphaned)));
    var s2 := Marked(s1, b);
    var s3 := s2.(db := s2.db.(rows := Rows1(b, member, amount, Pending)));
    Misses(c, s, p, y, b);
    Writes(c, s, p, Marking(y, Orphaned, true, [b], []), SetStatus(y, Orphaned), Watching([b], []));
    Transitive(c, s, At(s, p, Marking(y, Orphaned, true, [b], [])), At(s1, p, Watching([b], [])));
    PromotesIt(c, s1, p, b);
    Transitive(c, s, At(s1, p, Watching([b], [])), At(s2, p, Fanning([b])));
    RecordedOnce(s2.db, b, member, amount);
    RecordsBlock(c, s2, p, b);
    Transitive(c, s, At(s2, p, Fanning([b])), At(s3, p, Starting(b, [])));
    CrashAlone(c, s3, p, Starting(b, []));
    t := At(s3.(passes := map[]), p, Down);
    Transitive(c, s, At(s3, p, Starting(b, [])), t);
  }

  lemma {:induction false} GetsStuck(c: Config, y: BlockId, b: BlockId, member: Pubkey, amount: nat) returns (t: State)
    requires y != b
    ensures CanReach(c, StartTwo(y, b, member, amount), t) && t.log == [] && t.limbo == {} && t.passes == map[]
    ensures t.mains == map[0 := Fanning([y, b]), 1 := Marking(b, Orphaned, true, [y], []), 2 := Down]
    ensures t.db.rows == Rows1(b, member, amount, Pending)
    ensures y in t.db.blocks && t.db.blocks[y].status == Orphaned && IsMatured(t.db, b)
  {
    var s0, s1 := StartTwo(y, b, member, amount), Watched(y, b, member, amount);
    GetsWatched(c, y, b, member, amount);
    PromotesBoth(c, s1, 0, y, b);
    var s2 := At(Marked(Marked(s1, y), b), 0, Fanning([y, b]));
    Transitive(c, s0, s1, s2);
    var s3 := RecordsSecond(c, s2, 2, y, b, member, amount);
    Transitive(c, s0, s2, s3);
    Misses(c, s3, 1, b, y);
    t := At(s3, 1, Marking(b, Orphaned, true, [y], []));
    Transitive(c, s0, s3, t);
  }

  /** A pending row of a matured block, in reach but not freely so, that is never paid. */
  lemma {:induction false} OpposedIsNotPaid(c: Config, y: BlockId, b: BlockId, member: Pubkey, amount: nat)
    returns (run: seq<State>)
    requires c.concurrency >= 1 && y != b
    ensures IsRun(c, run)
    ensures var s, k := run[|run| - 1], RowKey(b, member);
      && IsPending(s.db, k) && IsMatured(s.db, b) && !CanCall(c, s, k)
      && InReach(s, k) && !E.FreelyInReach(s, k)
  {
    var s := GetsStuck(c, y, b, member, amount);
    var k := RowKey(b, member);
    run := Continue(c, [StartTwo(y, b, member, amount)], s);
    assert [y, b][1..] == [b] && MayMark(s.mains[1], y);
    assert Passable(s, [b], b) && Passable(s, [y, b], b);
    assert ComesTo(s, s.mains[0], b);
    assert Stuck(s, 0, 1, y, k);
    StuckCannotBeCalled(c, run, 0, 1, y, k);
    E.CanBePaidExactly(c, run, k);
  }
}
