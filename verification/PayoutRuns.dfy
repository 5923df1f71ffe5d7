/** Safety of the payout protocol over whole runs: any number of workers, any interleaving,
    crashes at any await, restarts with reconciliation, and writes that land late. */
module PayoutRuns {
  import opened Shared
  import opened PayoutTable
  import opened FanoutPass
  import opened PayoutProtocol
  import opened PayoutSafety
  import W = PayoutWorker

  /** The Lightning client is never asked twice for the same row. */
  lemma {:induction false} PaidAtMostOnce(c: Config, run: seq<State>, n: nat)
    requires IsRun(c, run) && n < |run|
    ensures forall i, j :: 0 <= i < j < |run[n].log| ==> run[n].log[i].key != run[n].log[j].key
  {
    RunInv(c, run, n);
  }

  ghost predicate OnlyGrows(s: State, s': State) { Forward(s.db, s'.db) && s.log <= s'.log && s.seen <= s'.seen }

  lemma {:induction false} SlotForward(s: State, pid: PassId, i: nat, r: Reply)
    requires Inv(s) && pid in s.passes && i < |s.passes[pid].slots|
    requires SlotStep(s.db, s.passes[pid].slots[i], r).Some?
    ensures OnlyGrows(s, AfterSlot(s, pid, i, SlotStep(s.db, s.passes[pid].slots[i], r).value))
  {
    assert PhaseOk(s.db, s.passes[pid].block, s.passes[pid].slots[i]);
    SlotDbOk(s.db, s.seen, s.passes[pid].block, s.passes[pid].slots[i], r);
  }

  lemma {:induction false} MainForward(c: Config, s: State, p: Proc, m: Main, ev: Event)
    requires Inv(s) && MainOk(s.db, s.seen, m) && MainStep(c, s, m, ev).Some?
    ensures OnlyGrows(s, AfterMain(s, p, MainStep(c, s, m, ev).value))
  {
    MainDbOk(c, s, p, m, ev);
  }

  lemma {:induction false} FindForward(c: Config, s: State, s': State, found: BlockId, snap: Snapshot)
    requires StepTo(c, s, s', FindBlock(found, snap))
    ensures OnlyGrows(s, s')
  {}

  lemma {:induction false} CrashForward(c: Config, s: State, s': State, p: Proc, left: set<Write>)
    requires StepTo(c, s, s', Crash(p, left))
    ensures OnlyGrows(s, s')
  {}

  lemma {:induction false} NextForward(c: Config, s: State, s': State)
    requires Inv(s) && Next(c, s, s')
    ensures OnlyGrows(s, s')
  {
    var step :| StepTo(c, s, s', step);
    match step
    case MainAct(p, ev) => MainForward(c, s, p, if p in s.mains then s.mains[p] else Down, ev);
    case SlotAct(pid, i, r) => SlotForward(s, pid, i, r);
    case Land(w) => ApplyOk(s.db, s.seen, w);
    case FindBlock(found, snap) => FindForward(c, s, s', found, snap);
    case Crash(p, left) => CrashForward(c, s, s', p, left);
  }

  lemma {:induction false} StepForward(c: Config, run: seq<State>, n: nat)
    requires IsRun(c, run) && 0 < n < |run|
    ensures OnlyGrows(run[n - 1], run[n])
  {
    RunInv(c, run, n - 1);
    assert StepAt(c, run, n);
    NextForward(c, run[n - 1], run[n]);
  }

  /** Between any two moments of a run rows only move up in rank and keep their amount,
      snapshots stay put, and calls already made stay made. */
  lemma {:induction false} RunForward(c: Config, run: seq<State>, i: nat, j: nat)
    requires IsRun(c, run) && i <= j < |run|
    ensures Forward(run[i].db, run[j].db) && run[i].log <= run[j].log
    decreases j - i
  {
    if i < j {
      RunForward(c, run, i, j - 1);
      StepForward(c, run, j);
      ForwardTransitive(run[i].db, run[j - 1].db, run[j].db);
    }
  }

  // ----- reconciliation -----

  /** No reachable worker ever waits for a payment status, and no row awaiting one carries a
      hash: the hash is stored by the very update that marks the row PAID.  So the branch of
      reconcileInFlight that consults the wallet is never entered. */
  lemma {:induction false} WalletNeverConsulted(c: Config, run: seq<State>, n: nat, p: Proc)
    requires IsRun(c, run) && n < |run| && p in run[n].mains
    ensures !run[n].mains[p].Asking? && !run[n].mains[p].Resolving?
    ensures run[n].mains[p].Reconciling? ==> forall f :: f in run[n].mains[p].flights ==> f.hash == None
    ensures forall k :: k in run[n].db.rows && k.kind == LnDust && run[n].db.rows[k].status == InFlight ==>
      run[n].db.rows[k].hash == None
  {
    RunInv(c, run, n);
  }

  /** After any run, what reconciliation makes of an in-flight dust row does not depend on the
      wallet: the row is FAILED unless its update is rejected, also when its payment went through. */
  lemma {:induction false} ReconcileFailsEveryFlight(c: Config, run: seq<State>, n: nat, k: Key,
                                                     outside: W.Outside)
    requires IsRun(c, run) && n < |run| && k in run[n].db.rows && k.kind == LnDust
      && run[n].db.rows[k].status == InFlight
    ensures W.ReconciledRow(k, run[n].db.rows[k], outside).status == if outside.rejects(k) then InFlight else Failed
  {
    RunInv(c, run, n);
  }

  // ----- totals -----

  function Spent(log: seq<Call>, b: BlockId): nat {
    if log == [] then 0
    else (if log[0].key.block == b then log[0].amount else 0) + Spent(log[1..], b)
  }

  ghost predicate CallsFrom(log: seq<Call>, b: BlockId, owed: seq<DustEntry>) {
    && (forall c :: c in log && c.key.block == b ==> c.key.kind == LnDust && DustEntry(c.key.member, c.amount) in owed)
    && (forall i, j :: 0 <= i < j < |log| ==> log[i].key != log[j].key)
  }

  lemma {:induction false} SumOwedSplit(owed: seq<DustEntry>, i: nat)
    requires i < |owed|
    ensures SumOwed(owed) == owed[i].owed + SumOwed(owed[..i] + owed[i + 1..])
  {
    SumOwedConcat(owed[..i], owed[i..]);
    SumOwedConcat(owed[..i], owed[i + 1..]);
    assert owed == owed[..i] + owed[i..];
  }

  /** Distinct calls, each backed by an entry, cost no more than all the entries. */
  lemma {:induction false} SpentAtMostOwed(log: seq<Call>, b: BlockId, owed: seq<DustEntry>)
    requires CallsFrom(log, b, owed)
    ensures Spent(log, b) <= SumOwed(owed)
  {
    if log == [] {
    } else if log[0].key.block != b {
      assert forall c :: c in log[1..] ==> c in log;
      SpentAtMostOwed(log[1..], b, owed);
    } else {
      var i :| 0 <= i < |owed| && owed[i] == DustEntry(log[0].key.member, log[0].amount);
      var rest := owed[..i] + owed[i + 1..];
      forall c | c in log[1..] && c.key.block == b
        ensures c.key.kind == LnDust && DustEntry(c.key.member, c.amount) in rest
      {
        assert c in log;
        assert c.key != log[0].key;
        var j :| 0 <= j < |owed| && owed[j] == DustEntry(c.key.member, c.amount);
        assert j != i;
        assert owed[j] == if j < i then rest[j] else rest[j - 1];
      }
      SumOwedSplit(owed, i);
      SpentAtMostOwed(log[1..], b, rest);
    }
  }

  /** A block never costs the operator's wallet more than its stored breakdown owes. */
  lemma {:induction false} SpentWithinBreakdown(c: Config, run: seq<State>, n: nat, b: BlockId)
    requires IsRun(c, run) && n < |run| && b in run[n].db.blocks
    ensures Spent(run[n].log, b) <= SumOwed(Breakdown(run[n].db.blocks[b].snapshot))
  {
    RunInv(c, run, n);
    SpentAtMostOwed(run[n].log, b, Breakdown(run[n].db.blocks[b].snapshot));
  }

  // ----- maturity -----

  /** This step is a worker reading at least maturityConfs confirmations for `b`. */
  ghost predicate ReadsMaturity(c: Config, s: State, s': State, b: BlockId) {
    exists p, conf :: p in s.mains && conf >= c.maturityConfs && conf >= 0
      && s.mains[p].Watching? && s.mains[p].cands != [] && s.mains[p].cands[0] == b
      && StepTo(c, s, s', MainAct(p, Confirmations(conf)))
  }

  ghost predicate MaturityRead(c: Config, run: seq<State>, i: nat, b: BlockId)
    requires 0 < i < |run|
  {
    ReadsMaturity(c, run[i - 1], run[i], b)
  }

  lemma {:induction false} SawOnlyByReading(c: Config, s: State, m: Main, ev: Event)
    requires MainStep(c, s, m, ev).Some? && MainStep(c, s, m, ev).value.saw != {}
    ensures m.Watching? && m.cands != [] && ev.Confirmations? && ev.n >= c.maturityConfs && ev.n >= 0
    ensures MainStep(c, s, m, ev).value.saw == {m.cands[0]}
  {}

  lemma {:induction false} MainsSee(c: Config, s: State, s': State, step: Step, b: BlockId)
    requires StepTo(c, s, s', step) && b in s'.seen && b !in s.seen
    ensures step.MainAct?
    ensures b in MainStep(c, s, if step.proc in s.mains then s.mains[step.proc] else Down, step.ev).value.saw
  {}

  lemma {:induction false} SeenByRead(c: Config, s: State, s': State, b: BlockId)
    requires Next(c, s, s') && b in s'.seen && b !in s.seen
    ensures ReadsMaturity(c, s, s', b)
  {
    var step :| StepTo(c, s, s', step);
    MainsSee(c, s, s', step, b);
    SawOnlyByReading(c, s, if step.proc in s.mains then s.mains[step.proc] else Down, step.ev);
    assert step == MainAct(step.proc, Confirmations(step.ev.n));
  }

  lemma {:induction false} SeenWasRead(c: Config, run: seq<State>, n: nat, b: BlockId)
    requires IsRun(c, run) && n < |run| && b in run[n].seen
    ensures exists i :: 0 < i <= n && MaturityRead(c, run, i, b)
  {
    if n > 0 {
      if b in run[n - 1].seen {
        SeenWasRead(c, run, n - 1, b);
        var i :| 0 < i <= n - 1 && MaturityRead(c, run, i, b);
        assert 0 < i <= n && MaturityRead(c, run, i, b);
      } else {
        assert StepAt(c, run, n);
        SeenByRead(c, run[n - 1], run[n], b);
        assert MaturityRead(c, run, n, b);
      }
    }
  }

  /** Every call to the Lightning client was preceded by a worker reading enough
      confirmations for that block. */
  lemma {:induction false} PaidOnlyAfterMaturity(c: Config, run: seq<State>, n: nat, call: Call)
    requires IsRun(c, run) && n < |run| && call in run[n].log
    ensures exists i :: 0 < i <= n && MaturityRead(c, run, i, call.key.block)
  {
    RunInv(c, run, n);
    SeenWasRead(c, run, n, call.key.block);
  }
}
