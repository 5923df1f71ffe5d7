/** What stands behind a status over whole runs: a dust row is PAID with a hash only if the Lightning
    client answered that row's call with that hash, a block is promoted or orphaned only on the node's
    word, and marked as fanned out only behind a pass without failures. */
module PayoutAnswers {
  import opened Shared
  import opened PayoutTable
  import opened FanoutPass
  import opened PayoutProtocol
  import opened PayoutSafety
  import opened PayoutRuns

  // ----- the wallet's answers -----

  /** This step is the Lightning client answering a call for row `k` with `hash`. */
  ghost predicate Answers(c: Config, s: State, s': State, k: Key, hash: string) {
    exists pid, i: nat :: pid in s.passes && i < |s.passes[pid].slots|
      && s.passes[pid].slots[i].Paying? && s.passes[pid].slots[i].item.key == k
      && StepTo(c, s, s', SlotAct(pid, i, PaidWith(hash)))
  }

  ghost predicate AnsweredAt(c: Config, run: seq<State>, i: nat, k: Key, hash: string)
    requires 0 < i < |run|
  {
    Answers(c, run[i - 1], run[i], k, hash)
  }

  /** `told` is what the client answered so far. */
  ghost predicate RowTold(told: iset<(Key, string)>, k: Key, row: Row) {
    if k.kind == OnChain then row.status == Paid && row.hash == None
    else (row.status == Paid ==> row.hash.Some?) && (row.hash.Some? ==> (k, row.hash.value) in told)
  }

  ghost predicate WriteTold(told: iset<(Key, string)>, w: Write) {
    match w
    case Upsert(k, row) => RowTold(told, k, row)
    case Finish(k, st, hash) =>
      k.kind == LnDust && (st == Paid ==> hash.Some?) && (hash.Some? ==> (k, hash.value) in told)
    case _ => true
  }

  /** A loop behind its call was answered what it is about to record, and its call is in the log. */
  ghost predicate PhaseTold(told: iset<(Key, string)>, log: seq<Call>, p: Phase) {
    && (p.Recording? ==> (p.item.key, p.hash) in told)
    && (p.Paying? || p.Recording? || p.Zapping? ==> Call(p.item.key, p.item.amount) in log)
    && (p.Claiming? || p.Looking? || p.Missing? || p.Paying? || p.Failing? || p.Recording? || p.Zapping? ==>
          p.item.key.kind == LnDust)
  }

  ghost predicate MainTold(told: iset<(Key, string)>, m: Main) {
    && (m.Reconciling? ==> forall f :: f in m.flights ==> f.key.kind == LnDust && f.hash == None)
    && !m.Asking? && !m.Resolving?
    && (m.Upserting? ==> forall w :: w in m.writes ==> w.Upsert? && WriteTold(told, w))
  }

  ghost predicate Told(s: State, told: iset<(Key, string)>) {
    && RowsTold(told, s.db.rows) && PassesTold(told, s.log, s.passes)
    && (forall w :: w in s.limbo ==> WriteTold(told, w))
    && (forall p :: p in s.mains ==> MainTold(told, s.mains[p]))
    && (forall t :: t in told ==> Called(s.log, t.0))
  }

  ghost predicate RowsTold(told: iset<(Key, string)>, rows: map<Key, Row>) {
    forall k :: k in rows ==> RowTold(told, k, rows[k])
  }

  ghost predicate PassesTold(told: iset<(Key, string)>, log: seq<Call>, passes: map<PassId, Pass>) {
    forall pid :: pid in passes ==> PassTold(log, passes[pid], told)
  }

  ghost predicate PassTold(log: seq<Call>, pass: Pass, told: iset<(Key, string)>) {
    && (forall it :: it in pass.queue ==> it.key.kind == LnDust)
    && (forall i {:trigger pass.slots[i]} :: 0 <= i < |pass.slots| ==> PhaseTold(told, log, pass.slots[i]))
  }

  lemma {:induction false} ApplyTold(told: iset<(Key, string)>, db: Db, w: Write)
    requires RowsTold(told, db.rows) && WriteTold(told, w)
    ensures RowsTold(told, Apply(db, w).rows)
  {}

  // ----- steps -----

  lemma OnChainUpsertsPaid(b: BlockId, outs: seq<CoinbaseOutput>)
    ensures forall w :: w in OnChainUpserts(b, outs) ==> w.Upsert? && w.row.status == Paid && w.row.hash == None
  {}

  lemma {:induction false} UpsertsTold(told: iset<(Key, string)>, b: BlockId, snap: Snapshot)
    ensures forall w :: w in Upserts(b, snap) ==> w.Upsert? && WriteTold(told, w)
  {
    OnChainUpsertsAre(b, FlatOutputs(snap));
    OnChainUpsertsPaid(b, FlatOutputs(snap));
    DustUpsertsAre(b, Breakdown(snap));
  }

  lemma {:induction false} MainStepTold(c: Config, s: State, m: Main, ev: Event, told: iset<(Key, string)>)
    requires MainTold(told, m) && MainStep(c, s, m, ev).Some? && DbOk(s.db, s.seen)
    ensures MainTold(told, MainStep(c, s, m, ev).value.main)
  {
    if m.Fanning? && m.matured != [] && ev.Go? && m.matured[0] in s.db.blocks {
      UpsertsTold(told, m.matured[0], s.db.blocks[m.matured[0]].snapshot);
    }
  }

  lemma {:induction false} MainWriteTold(m: Main, told: iset<(Key, string)>)
    requires MainTold(told, m) && MainWrite(m).Some?
    ensures WriteTold(told, MainWrite(m).value)
  {}

  lemma {:induction false} StartTold(db: Db, b: BlockId, items: seq<Item>, concurrency: nat, log: seq<Call>,
                                     told: iset<(Key, string)>)
    requires ListsPending(db.rows, b, items)
    ensures PassTold(log, StartPass(b, items, concurrency), told)
  {
    var pass := StartPass(b, items, concurrency);
    forall it | it in pass.queue ensures it.key.kind == LnDust { assert it in items; }
    forall i {:trigger pass.slots[i]} | 0 <= i < |pass.slots| ensures PhaseTold(told, log, pass.slots[i]) {
      assert items[i] in items;
    }
  }

  lemma {:induction false} MainActTold(c: Config, s: State, p: Proc, m: Main, ev: Event, told: iset<(Key, string)>)
    requires DbOk(s.db, s.seen) && Told(s, told) && MainTold(told, m) && MainStep(c, s, m, ev).Some?
    ensures Told(AfterMain(s, p, MainStep(c, s, m, ev).value), told)
  {
    var o := MainStep(c, s, m, ev).value;
    MainStepTold(c, s, m, ev, told);
    if o.write.Some? {
      MainWrites(c, s, m, ev);
      MainWriteTold(m, told);
      ApplyTold(told, s.db, o.write.value);
    }
    if o.started.Some? { MainStartTold(c, s, m, ev, told); }
  }

  lemma {:induction false} MainStartTold(c: Config, s: State, m: Main, ev: Event, told: iset<(Key, string)>)
    requires MainStep(c, s, m, ev).Some? && MainStep(c, s, m, ev).value.started.Some?
    ensures PassTold(s.log, MainStep(c, s, m, ev).value.pass, told)
  {
    assert m.Reading? && ev.Items? && ListsPending(s.db.rows, m.block, ev.items);
    StartTold(s.db, m.block, ev.items, c.concurrency, s.log, told);
  }

  /** What the client answers in a step of loop `p`. */
  ghost function News(p: Phase, r: Reply): iset<(Key, string)> {
    if p.Paying? && r.PaidWith? then iset{(p.item.key, r.hash)} else iset{}
  }

  lemma {:induction false} SlotTold(db: Db, log: seq<Call>, p: Phase, r: Reply, told: iset<(Key, string)>)
    requires SlotStep(db, p, r).Some? && PhaseTold(told, log, p)
    ensures var o := SlotStep(db, p, r).value; var later := told + News(p, r);
      && (o.after.Stay? ==> PhaseTold(later, log + o.calls, o.after.phase))
      && (forall w :: w in o.limbo ==> WriteTold(later, w))
      && (PhaseWrite(p).Some? ==> WriteTold(later, PhaseWrite(p).value))
      && (News(p, r) != iset{} ==> Called(log, p.item.key))
  {
    var o := SlotStep(db, p, r).value;
    if o.calls != [] { assert (log + o.calls)[|log|] == o.calls[0]; }
  }

  lemma {:induction false} PhaseToldLater(told: iset<(Key, string)>, later: iset<(Key, string)>, log: seq<Call>,
                                          calls: seq<Call>, p: Phase)
    requires PhaseTold(told, log, p) && told <= later
    ensures PhaseTold(later, log + calls, p)
  {}

  lemma {:induction false} SettleTold(log: seq<Call>, calls: seq<Call>, pass: Pass, i: nat, o: SlotOut,
                                      told: iset<(Key, string)>, later: iset<(Key, string)>)
    requires PassTold(log, pass, told) && told <= later && i < |pass.slots|
    requires o.after.Stay? ==> PhaseTold(later, log + calls, o.after.phase)
    ensures PassTold(log + calls, Settle(pass, i, o), later)
  {
    var next := Settle(pass, i, o);
    if o.after.Free? && pass.queue != [] { assert pass.queue[0] in pass.queue; }
    forall it | it in next.queue ensures it.key.kind == LnDust { assert it in pass.queue; }
    forall j {:trigger next.slots[j]} | 0 <= j < |next.slots| ensures PhaseTold(later, log + calls, next.slots[j]) {
      if j != i { PhaseToldLater(told, later, log, calls, pass.slots[j]); }
    }
  }

  lemma {:induction false} PassToldLater(log: seq<Call>, calls: seq<Call>, pass: Pass, told: iset<(Key, string)>,
                                         later: iset<(Key, string)>)
    requires PassTold(log, pass, told) && told <= later
    ensures PassTold(log + calls, pass, later)
  {
    forall j {:trigger pass.slots[j]} | 0 <= j < |pass.slots| ensures PhaseTold(later, log + calls, pass.slots[j]) {
      PhaseToldLater(told, later, log, calls, pass.slots[j]);
    }
  }

  lemma {:induction false} CalledLater(log: seq<Call>, calls: seq<Call>, k: Key)
    requires Called(log, k)
    ensures Called(log + calls, k)
  {
    var call :| call in log && call.key == k;
    assert call in log + calls;
  }

  lemma {:induction false} SlotActTold(s: State, pid: PassId, i: nat, r: Reply, told: iset<(Key, string)>)
    requires Told(s, told) && pid in s.passes && i < |s.passes[pid].slots|
    requires SlotStep(s.db, s.passes[pid].slots[i], r).Some?
    ensures Told(AfterSlot(s, pid, i, SlotStep(s.db, s.passes[pid].slots[i], r).value),
                 told + News(s.passes[pid].slots[i], r))
  {
    var p := s.passes[pid].slots[i];
    var o := SlotStep(s.db, p, r).value;
    var t, later := AfterSlot(s, pid, i, o), told + News(p, r);
    assert PassTold(s.log, s.passes[pid], told);
    SlotTold(s.db, s.log, p, r, told);
    SlotEffect(s.db, p, r);
    if o.db != s.db { ApplyTold(later, s.db, PhaseWrite(p).value); }
    SettleTold(s.log, o.calls, s.passes[pid], i, o, told, later);
    forall q | q in t.passes ensures PassTold(t.log, t.passes[q], later) {
      if q != pid { PassToldLater(s.log, o.calls, s.passes[q], told, later); }
    }
    forall x | x in later ensures Called(t.log, x.0) { CalledLater(s.log, o.calls, x.0); }
  }

  lemma {:induction false} CrashTold(c: Config, s: State, s': State, p: Proc, left: set<Write>,
                                     told: iset<(Key, string)>)
    requires Told(s, told) && StepTo(c, s, s', Crash(p, left))
    ensures Told(s', told)
  {
    forall w | w in left ensures WriteTold(told, w) {
      assert IssuedIn(s, p, w);
      if p in s.mains && MainWrite(s.mains[p]) == Some(w) {
        MainWriteTold(s.mains[p], told);
      } else {
        var pid, i :| pid in s.passes && pid in s.owner && s.owner[pid] == p
                      && 0 <= i < |s.passes[pid].slots| && PhaseWrite(s.passes[pid].slots[i]) == Some(w);
        assert PassTold(s.log, s.passes[pid], told) && PhaseTold(told, s.log, s.passes[pid].slots[i]);
      }
    }
  }

  /** What the client answers in a step. */
  ghost function StepNews(s: State, step: Step): iset<(Key, string)> {
    if step.SlotAct? && step.pass in s.passes && step.slot < |s.passes[step.pass].slots|
    then News(s.passes[step.pass].slots[step.slot], step.reply) else iset{}
  }

  lemma {:induction false} StepTold(c: Config, s: State, s': State, step: Step, told: iset<(Key, string)>)
    requires Inv(s) && Told(s, told) && StepTo(c, s, s', step)
    ensures Told(s', told + StepNews(s, step))
  {
    assert told + iset{} == told;
    match step
    case FindBlock(_, _) =>
    case MainAct(p, ev) => MainActTold(c, s, p, if p in s.mains then s.mains[p] else Down, ev, told);
    case SlotAct(pid, i, r) => SlotActTold(s, pid, i, r, told);
    case Crash(p, left) => CrashTold(c, s, s', p, left, told);
    case Land(w) => ApplyTold(told, s.db, w);
  }

  // ----- runs -----

  lemma {:induction false} StepInRun(c: Config, run: seq<State>, n: nat) returns (step: Step)
    requires IsRun(c, run) && 0 < n < |run|
    ensures StepTo(c, run[n - 1], run[n], step)
  {
    assert StepAt(c, run, n);
    step :| StepTo(c, run[n - 1], run[n], step);
  }

  ghost predicate AnsweredBy(c: Config, run: seq<State>, n: nat, k: Key, hash: string)
    requires n < |run|
  {
    exists i :: 0 < i <= n && AnsweredAt(c, run, i, k, hash)
  }

  /** Everything the client answered up to the n-th state of a run. */
  ghost function ToldBy(c: Config, run: seq<State>, n: nat): iset<(Key, string)>
    requires n < |run|
  {
    iset k, hash | AnsweredBy(c, run, n, k, hash) :: (k, hash)
  }

  lemma {:induction false} MoreTold(told: iset<(Key, string)>, later: iset<(Key, string)>, s: State)
    requires Told(s, told) && told <= later && forall t :: t in later ==> Called(s.log, t.0)
    ensures Told(s, later)
  {
    forall pid | pid in s.passes ensures PassTold(s.log, s.passes[pid], later) {
      PassToldLater(s.log, [], s.passes[pid], told, later);
      assert s.log + [] == s.log;
    }
  }

  lemma {:induction false} NewsAnswered(c: Config, run: seq<State>, n: nat, step: Step)
    requires 0 < n < |run| && StepTo(c, run[n - 1], run[n], step)
    ensures ToldBy(c, run, n - 1) + StepNews(run[n - 1], step) <= ToldBy(c, run, n)
  {
    forall t | t in ToldBy(c, run, n - 1) ensures t in ToldBy(c, run, n) {
      var i :| 0 < i <= n - 1 && AnsweredAt(c, run, i, t.0, t.1);
      assert AnsweredBy(c, run, n, t.0, t.1);
    }
    forall t | t in StepNews(run[n - 1], step) ensures t in ToldBy(c, run, n) {
      assert AnsweredAt(c, run, n, t.0, t.1);
      assert AnsweredBy(c, run, n, t.0, t.1);
    }
  }

  /** Whoever is answered had been called. */
  lemma {:induction false} AnsweredWasCalled(c: Config, s: State, s': State, told: iset<(Key, string)>, k: Key,
                                             hash: string)
    requires Told(s, told) && Answers(c, s, s', k, hash)
    ensures Called(s'.log, k)
  {
    var pid, i: nat :| pid in s.passes && i < |s.passes[pid].slots|
      && s.passes[pid].slots[i].Paying? && s.passes[pid].slots[i].item.key == k
      && StepTo(c, s, s', SlotAct(pid, i, PaidWith(hash)));
    var p := s.passes[pid].slots[i];
    assert PassTold(s.log, s.passes[pid], told) && PhaseTold(told, s.log, p);
    assert Called(s.log, k);
    CalledLater(s.log, SlotStep(s.db, p, PaidWith(hash)).value.calls, k);
  }

  lemma {:induction false} RunTold(c: Config, run: seq<State>, n: nat)
    requires IsRun(c, run) && n < |run|
    ensures Told(run[n], ToldBy(c, run, n))
  {
    if n > 0 {
      RunTold(c, run, n - 1);
      RunInv(c, run, n - 1);
      var step := StepInRun(c, run, n);
      StepTold(c, run[n - 1], run[n], step, ToldBy(c, run, n - 1));
      NewsAnswered(c, run, n, step);
      forall t | t in ToldBy(c, run, n) ensures Called(run[n].log, t.0) { AnsweredStaysCalled(c, run, n, t.0, t.1); }
      MoreTold(ToldBy(c, run, n - 1) + StepNews(run[n - 1], step), ToldBy(c, run, n), run[n]);
    }
  }

  lemma {:induction false} AnsweredStaysCalled(c: Config, run: seq<State>, n: nat, k: Key, hash: string)
    requires IsRun(c, run) && 0 < n < |run| && Told(run[n - 1], ToldBy(c, run, n - 1))
    requires AnsweredBy(c, run, n, k, hash)
    ensures Called(run[n].log, k)
  {
    var i :| 0 < i <= n && AnsweredAt(c, run, i, k, hash);
    if i == n {
      AnsweredWasCalled(c, run[n - 1], run[n], ToldBy(c, run, n - 1), k, hash);
    } else {
      assert AnsweredBy(c, run, n - 1, k, hash) && (k, hash) in ToldBy(c, run, n - 1);
      StepForward(c, run, n);
      assert run[n].log == run[n - 1].log + run[n].log[|run[n - 1].log|..];
      CalledLater(run[n - 1].log, run[n].log[|run[n - 1].log|..], k);
    }
  }

  /** In every run, a dust row that is PAID carries a hash with which the Lightning client answered a
      call for that row, and the call is in the log with the row's amount; a row paid by the coinbase
      is PAID from the start and carries none. */
  lemma {:induction false} PaidWasAnswered(c: Config, run: seq<State>, n: nat, k: Key)
    requires IsRun(c, run) && n < |run| && k in run[n].db.rows
    ensures k.kind == OnChain ==> run[n].db.rows[k].status == Paid && run[n].db.rows[k].hash == None
    ensures k.kind == LnDust && run[n].db.rows[k].status == Paid ==>
      && run[n].db.rows[k].hash.Some?
      && (exists i :: 0 < i <= n && AnsweredAt(c, run, i, k, run[n].db.rows[k].hash.value))
      && Call(k, run[n].db.rows[k].amount) in run[n].log
  {
    RunTold(c, run, n);
    RunInv(c, run, n);
    if k.kind == LnDust && run[n].db.rows[k].status == Paid {
      var hash := run[n].db.rows[k].hash.value;
      assert (k, hash) in ToldBy(c, run, n) && AnsweredBy(c, run, n, k, hash);
      var call :| call in run[n].log && call.key == k;
      assert call == Call(k, run[n].db.rows[k].amount);
    }
  }

  // ----- what stands behind the status of a block -----

  /** What an await of a main function brings that lets it set a block to `st`: enough confirmations,
      word that the block is off the best chain or unknown, or drain loops that all ended normally and
      counted no failure. */
  ghost function Grounds(c: Config, s: State, m: Main, ev: Event, st: BlockStatus): iset<BlockId> {
    if m.Watching? && m.cands != [] && st == Matured && ev.Confirmations? && ev.n >= c.maturityConfs && ev.n >= 0
    then iset{m.cands[0]}
    else if m.Watching? && m.cands != [] && st == Orphaned && ((ev.Confirmations? && ev.n < 0) || ev == NotFound)
    then iset{m.cands[0]}
    else if m.Awaiting? && st == DustFannedOut && m.pass in s.passes && AllDone(s.passes[m.pass])
            && s.passes[m.pass].failed == 0
    then iset{m.block}
    else iset{}
  }

  ghost predicate GivesGrounds(c: Config, s: State, s': State, b: BlockId, st: BlockStatus) {
    exists p, ev :: p in s.mains && b in Grounds(c, s, s.mains[p], ev, st) && StepTo(c, s, s', MainAct(p, ev))
  }

  ghost predicate GroundsAt(c: Config, run: seq<State>, i: nat, b: BlockId, st: BlockStatus)
    requires 0 < i < |run|
  {
    GivesGrounds(c, run[i - 1], run[i], b, st)
  }

  ghost predicate GroundsBy(c: Config, run: seq<State>, n: nat, b: BlockId, st: BlockStatus)
    requires n < |run|
  {
    exists i :: 0 < i <= n && GroundsAt(c, run, i, b, st)
  }

  /** `known` are the blocks for which there were grounds so far. */
  ghost predicate WriteHas(known: iset<BlockId>, st: BlockStatus, w: Write) {
    w.SetStatus? && w.blockStatus == st ==> w.block in known
  }

  ghost predicate MainHas(known: iset<BlockId>, st: BlockStatus, m: Main) {
    MainWrite(m).Some? ==> WriteHas(known, st, MainWrite(m).value)
  }

  ghost predicate BlocksHave(known: iset<BlockId>, st: BlockStatus, blocks: map<BlockId, Block>) {
    forall b :: b in blocks && blocks[b].status == st ==> b in known
  }

  ghost predicate MainsHave(known: iset<BlockId>, st: BlockStatus, mains: map<Proc, Main>) {
    forall p :: p in mains ==> MainHas(known, st, mains[p])
  }

  ghost predicate WritesHave(known: iset<BlockId>, st: BlockStatus, ws: set<Write>) {
    forall w :: w in ws ==> WriteHas(known, st, w)
  }

  ghost predicate Grounded(s: State, known: iset<BlockId>, st: BlockStatus) {
    BlocksHave(known, st, s.db.blocks) && MainsHave(known, st, s.mains) && WritesHave(known, st, s.limbo)
  }

  lemma {:induction false} ApplyHas(known: iset<BlockId>, st: BlockStatus, db: Db, w: Write)
    requires BlocksHave(known, st, db.blocks) && WriteHas(known, st, w)
    ensures BlocksHave(known, st, Apply(db, w).blocks)
  {}

  lemma {:induction false} MainStepHas(c: Config, s: State, m: Main, ev: Event, known: iset<BlockId>, st: BlockStatus)
    requires DbOk(s.db, s.seen) && MainOk(s.db, s.seen, m) && MainHas(known, st, m) && MainStep(c, s, m, ev).Some?
    requires st in {Matured, Orphaned, DustFannedOut}
    ensures MainHas(known + Grounds(c, s, m, ev, st), st, MainStep(c, s, m, ev).value.main)
  {
    var next := MainStep(c, s, m, ev).value;
    MainStepOk(c, s, m, ev);
    if next.main.Upserting? {
      UpsertsNeverMark(s.db, s.seen + next.saw, next.main, known + Grounds(c, s, m, ev, st), st);
    }
  }

  lemma {:induction false} UpsertsNeverMark(db: Db, seen: set<BlockId>, m: Main, known: iset<BlockId>, st: BlockStatus)
    requires MainOk(db, seen, m) && m.Upserting?
    ensures MainHas(known, st, m)
  {
    if m.writes != [] { assert m.writes[0] in m.writes; }
  }

  lemma {:induction false} MoreKnown(s: State, known: iset<BlockId>, more: iset<BlockId>, st: BlockStatus)
    requires Grounded(s, known, st)
    ensures Grounded(s, known + more, st)
  {}

  lemma {:induction false} MainActHas(c: Config, s: State, p: Proc, m: Main, ev: Event, known: iset<BlockId>,
                                      st: BlockStatus)
    requires DbOk(s.db, s.seen) && Grounded(s, known, st) && MainHas(known, st, m) && MainOk(s.db, s.seen, m)
    requires MainStep(c, s, m, ev).Some? && st in {Matured, Orphaned, DustFannedOut}
    ensures Grounded(AfterMain(s, p, MainStep(c, s, m, ev).value), known + Grounds(c, s, m, ev, st), st)
  {
    var o := MainStep(c, s, m, ev).value;
    MainStepHas(c, s, m, ev, known, st);
    MoreKnown(s, known, Grounds(c, s, m, ev, st), st);
    if o.write.Some? {
      MainWrites(c, s, m, ev);
      ApplyHas(known + Grounds(c, s, m, ev, st), st, s.db, o.write.value);
    }
  }

  lemma {:induction false} PhaseWritesRows(p: Phase)
    ensures PhaseWrite(p).Some? ==> !PhaseWrite(p).value.SetStatus?
  {}

  lemma {:induction false} SlotActHas(s: State, pid: PassId, i: nat, r: Reply, known: iset<BlockId>, st: BlockStatus)
    requires Grounded(s, known, st) && pid in s.passes && i < |s.passes[pid].slots|
    requires SlotStep(s.db, s.passes[pid].slots[i], r).Some?
    ensures Grounded(AfterSlot(s, pid, i, SlotStep(s.db, s.passes[pid].slots[i], r).value), known, st)
  {
    var p := s.passes[pid].slots[i];
    SlotEffect(s.db, p, r);
    PhaseWritesRows(p);
    if SlotStep(s.db, p, r).value.db != s.db { ApplyHas(known, st, s.db, PhaseWrite(p).value); }
  }

  lemma {:induction false} CrashHas(c: Config, s: State, s': State, p: Proc, left: set<Write>, known: iset<BlockId>,
                                    st: BlockStatus)
    requires Grounded(s, known, st) && StepTo(c, s, s', Crash(p, left))
    ensures Grounded(s', known, st)
  {
    forall w | w in left ensures WriteHas(known, st, w) {
      assert IssuedIn(s, p, w);
      if !(p in s.mains && MainWrite(s.mains[p]) == Some(w)) {
        var pid, i :| pid in s.passes && pid in s.owner && s.owner[pid] == p
                      && 0 <= i < |s.passes[pid].slots| && PhaseWrite(s.passes[pid].slots[i]) == Some(w);
        PhaseWritesRows(s.passes[pid].slots[i]);
      }
    }
  }

  lemma {:induction false} FindHas(c: Config, s: State, s': State, b: BlockId, snap: Snapshot, known: iset<BlockId>,
                                   st: BlockStatus)
    requires Grounded(s, known, st) && StepTo(c, s, s', FindBlock(b, snap)) && st != BlockStatus.Found
    ensures Grounded(s', known, st)
  {}

  ghost function StepGrounds(c: Config, s: State, step: Step, st: BlockStatus): iset<BlockId> {
    if step.MainAct? && step.proc in s.mains then Grounds(c, s, s.mains[step.proc], step.ev, st) else iset{}
  }

  lemma {:induction false} StepHas(c: Config, s: State, s': State, step: Step, known: iset<BlockId>, st: BlockStatus)
    requires Inv(s) && Grounded(s, known, st) && StepTo(c, s, s', step) && st in {Matured, Orphaned, DustFannedOut}
    ensures Grounded(s', known + StepGrounds(c, s, step, st), st)
  {
    assert known + iset{} == known;
    match step
    case FindBlock(b, snap) => FindHas(c, s, s', b, snap, known, st);
    case MainAct(p, ev) => MainActHas(c, s, p, if p in s.mains then s.mains[p] else Down, ev, known, st);
    case SlotAct(pid, i, r) => SlotActHas(s, pid, i, r, known, st);
    case Crash(p, left) => CrashHas(c, s, s', p, left, known, st);
    case Land(w) => ApplyHas(known, st, s.db, w);
  }

  ghost function KnownBy(c: Config, run: seq<State>, n: nat, st: BlockStatus): iset<BlockId>
    requires n < |run|
  {
    iset b | GroundsBy(c, run, n, b, st)
  }

  lemma {:induction false} GroundsRead(c: Config, run: seq<State>, n: nat, step: Step, st: BlockStatus)
    requires 0 < n < |run| && StepTo(c, run[n - 1], run[n], step)
    ensures KnownBy(c, run, n - 1, st) + StepGrounds(c, run[n - 1], step, st) <= KnownBy(c, run, n, st)
  {
    forall b | b in KnownBy(c, run, n - 1, st) ensures b in KnownBy(c, run, n, st) {
      var i :| 0 < i <= n - 1 && GroundsAt(c, run, i, b, st);
      assert GroundsBy(c, run, n, b, st);
    }
    forall b | b in StepGrounds(c, run[n - 1], step, st) ensures b in KnownBy(c, run, n, st) {
      assert GroundsAt(c, run, n, b, st);
      assert GroundsBy(c, run, n, b, st);
    }
  }

  lemma {:induction false} RunHas(c: Config, run: seq<State>, n: nat, st: BlockStatus)
    requires IsRun(c, run) && n < |run| && st in {Matured, Orphaned, DustFannedOut}
    ensures Grounded(run[n], KnownBy(c, run, n, st), st)
  {
    if n > 0 {
      RunHas(c, run, n - 1, st);
      RunInv(c, run, n - 1);
      var step := StepInRun(c, run, n);
      StepHas(c, run[n - 1], run[n], step, KnownBy(c, run, n - 1, st), st);
      GroundsRead(c, run, n, step, st);
      var known := KnownBy(c, run, n - 1, st) + StepGrounds(c, run[n - 1], step, st);
      LargerKnown(run[n], known, KnownBy(c, run, n, st), st);
    }
  }

  lemma {:induction false} LargerKnown(s: State, known: iset<BlockId>, larger: iset<BlockId>, st: BlockStatus)
    requires Grounded(s, known, st) && known <= larger
    ensures Grounded(s, larger, st)
  {}

  /** In every run a block is MATURED only after a worker read enough confirmations for it, ORPHANED only
      after one was told that it is off the best chain or unknown, and DUST_FANNED_OUT only after all drain
      loops of a worker's pass over it ended normally with no failure counted. */
  lemma {:induction false} StatusHasGrounds(c: Config, run: seq<State>, n: nat, b: BlockId)
    requires IsRun(c, run) && n < |run| && b in run[n].db.blocks && run[n].db.blocks[b].status != BlockStatus.Found
    ensures exists i :: 0 < i <= n && GroundsAt(c, run, i, b, run[n].db.blocks[b].status)
  {
    RunHas(c, run, n, run[n].db.blocks[b].status);
    assert b in KnownBy(c, run, n, run[n].db.blocks[b].status);
  }
}
