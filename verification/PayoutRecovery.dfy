/** What a restarted worker's reconciliation does to the rows a crash left in flight, in a run in
    which other workers go on. */
module PayoutRecovery {
  import opened Shared
  import opened PayoutTable
  import opened PayoutProtocol
  import opened PayoutSafety
  import opened PayoutRuns

  ghost predicate Final(db: Db, k: Key) { k in db.rows && Rank(db.rows[k].status) == 2 }

  lemma {:induction false} FinalStays(db: Db, later: Db, k: Key)
    requires Forward(db, later) && Final(db, k)
    ensures Final(later, k)
  {}

  ghost predicate Reconciles(s: State, p: Proc, fs: seq<Flight>) { p in s.mains && s.mains[p] == Reconciling(fs) }

  /** Reconciliation starts from exactly the rows in flight at its scan. */
  lemma {:induction false} ScanLists(c: Config, s: State, s': State, p: Proc, fs: seq<Flight>)
    requires Next(c, s, s') && p in s.mains && s.mains[p] == Scanning && Reconciles(s', p, fs)
    ensures ListsInFlight(s.db.rows, fs)
  {
    var step :| StepTo(c, s, s', step);
    if step.MainAct? && step.proc == p { ScanStep(c, s, step.ev); } else { OthersKeep(c, s, s', p, step); }
  }

  lemma {:induction false} ScanStep(c: Config, s: State, ev: Event)
    requires MainStep(c, s, Scanning, ev).Some?
    ensures var m := MainStep(c, s, Scanning, ev).value.main; m.Reconciling? ==> ListsInFlight(s.db.rows, m.flights)
  {}

  /** Only its own steps and its own crash change what a process waits for. */
  lemma {:induction false} OthersKeep(c: Config, s: State, s': State, p: Proc, step: Step)
    requires StepTo(c, s, s', step) && p in s.mains
    requires !(step.MainAct? && step.proc == p) && !(step.Crash? && step.proc == p)
    ensures p in s'.mains && s'.mains[p] == s.mains[p]
  {}

  lemma {:induction false} OwnStep(c: Config, s: State, fs: seq<Flight>, ev: Event)
    requires fs != [] && fs[0].hash == None && Settled(s.db, fs[0].key) && MainStep(c, s, Reconciling(fs), ev).Some?
    ensures var o := MainStep(c, s, Reconciling(fs), ev).value;
      o.main.Reconciling? ==>
        && o.main == Reconciling(fs[1..]) && !o.lost
        && o.write == Some(Finish(fs[0].key, Failed, None))
  {}

  /** `rest` is `now` or what is left of it once its first row is final. */
  ghost predicate OneDone(db: Db, now: seq<Flight>, rest: seq<Flight>) {
    rest == now || (now != [] && rest == now[1..] && Final(db, now[0].key))
  }

  /** While it lasts, reconciliation stays where it is or finishes the first row of its list. */
  lemma {:induction false} StepFinishes(c: Config, s: State, s': State, p: Proc, fs: seq<Flight>, rest: seq<Flight>)
    requires Inv(s) && Next(c, s, s') && Reconciles(s, p, fs) && Reconciles(s', p, rest)
    ensures OneDone(s'.db, fs, rest)
  {
    var step :| StepTo(c, s, s', step);
    if step.MainAct? && step.proc == p {
      assert MainOk(s.db, s.seen, s.mains[p]);
      if fs != [] { OwnStep(c, s, fs, step.ev); }
    } else if !(step.Crash? && step.proc == p) {
      OthersKeep(c, s, s', p, step);
    }
  }

  /** `rest` of the list is still to be done, what came before it is final. */
  ghost predicate DoneUpTo(db: Db, fs: seq<Flight>, rest: seq<Flight>) {
    |rest| <= |fs| && rest == fs[|fs| - |rest|..] && forall x :: 0 <= x < |fs| - |rest| ==> Final(db, fs[x].key)
  }

  lemma {:induction false} DoneFurther(db: Db, later: Db, fs: seq<Flight>, now: seq<Flight>, rest: seq<Flight>)
    requires Forward(db, later) && DoneUpTo(db, fs, now) && OneDone(later, now, rest)
    ensures DoneUpTo(later, fs, rest)
  {
    forall x | 0 <= x < |fs| - |rest| ensures Final(later, fs[x].key) {
      if x < |fs| - |now| { FinalStays(db, later, fs[x].key); } else { assert fs[x] == now[0]; }
    }
  }

  lemma {:induction false} Progress(c: Config, s: State, s': State, p: Proc, fs: seq<Flight>,
                                    now: seq<Flight>, rest: seq<Flight>)
    requires Inv(s) && Next(c, s, s') && Reconciles(s, p, now) && Reconciles(s', p, rest) && DoneUpTo(s.db, fs, now)
    ensures DoneUpTo(s'.db, fs, rest)
  {
    NextForward(c, s, s');
    StepFinishes(c, s, s', p, now, rest);
    DoneFurther(s.db, s'.db, fs, now, rest);
  }

  /** From `i` to `j` process `p` is in one reconciliation. */
  ghost predicate Lasts(run: seq<State>, i: nat, j: nat, p: Proc)
    requires i <= j < |run|
  {
    forall n :: i <= n <= j ==> StillIn(run[n], p)
  }

  ghost predicate StillIn(s: State, p: Proc) { p in s.mains && s.mains[p].Reconciling? }

  lemma {:induction false} RunProgress(c: Config, run: seq<State>, i: nat, j: nat, p: Proc)
    requires IsRun(c, run) && i <= j < |run| && Lasts(run, i, j, p)
    ensures StillIn(run[i], p) && StillIn(run[j], p)
    ensures DoneUpTo(run[j].db, run[i].mains[p].flights, run[j].mains[p].flights)
    decreases j - i
  {
    assert StillIn(run[i], p) && StillIn(run[j], p);
    if i < j {
      assert StillIn(run[j - 1], p);
      RunProgress(c, run, i, j - 1, p);
      RunInv(c, run, j - 1);
      assert StepAt(c, run, j);
      Progress(c, run[j - 1], run[j], p, run[i].mains[p].flights, run[j - 1].mains[p].flights, run[j].mains[p].flights);
    }
  }

  /** A reconciliation that scans at step `i` and gets through its list by step `j` without an
      error leaves every dust row that was in flight at its scan PAID or FAILED, whatever other
      workers and late writes do meanwhile. */
  lemma {:induction false} ReconciliationSettles(c: Config, run: seq<State>, i: nat, j: nat, p: Proc, k: Key)
    requires IsRun(c, run) && i < j < |run| && p in run[i].mains && run[i].mains[p] == Scanning
    requires Lasts(run, i + 1, j, p) && Reconciles(run[j], p, [])
    requires k in run[i].db.rows && k.kind == LnDust && run[i].db.rows[k].status == InFlight
    ensures Final(run[j].db, k)
  {
    assert StillIn(run[i + 1], p);
    assert StepAt(c, run, i + 1);
    var fs := run[i + 1].mains[p].flights;
    ScanLists(c, run[i], run[i + 1], p, fs);
    RunProgress(c, run, i + 1, j, p);
    var f := Flight(k, run[i].db.rows[k].hash);
    assert f in fs;
    var x :| 0 <= x < |fs| && fs[x] == f;
    assert Final(run[j].db, fs[x].key);
  }
}
