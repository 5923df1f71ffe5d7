/** What every step of the payout protocol keeps. */
module PayoutSafety {
  import opened Shared
  import opened PayoutTable
  import opened FanoutPass
  import opened PayoutProtocol

  // ----- the invariant -----

  ghost predicate Owed(db: Db, k: Key, amount: nat) {
    k.block in db.blocks && DustEntry(k.member, amount) in Breakdown(db.blocks[k.block].snapshot)
  }

  ghost predicate Settled(db: Db, k: Key) {
    k in db.rows && Rank(db.rows[k].status) >= 1
  }

  ghost predicate DbOk(db: Db, seen: set<BlockId>) {
    && (forall k :: k in db.rows && k.kind == LnDust ==>
          && k.block in seen
          && Owed(db, k, db.rows[k].amount)
          && (Rank(db.rows[k].status) < 2 ==> db.rows[k].hash == None))
    && (forall b :: b in db.blocks && db.blocks[b].status in {Matured, DustFannedOut} ==> b in seen)
  }

  ghost predicate WriteOk(db: Db, seen: set<BlockId>, w: Write) {
    match w
    case Upsert(k, row) =>
      k.kind == LnDust ==> k.block in seen && Owed(db, k, row.amount) && row.status == Pending && row.hash == None
    case Finish(k, st, _) => Rank(st) == 2 && Settled(db, k)
    case SetStatus(b, st) => st != BlockStatus.Found && (st in {Matured, DustFannedOut} ==> b in seen)
    case _ => true
  }

  ghost predicate AllSeen(seen: set<BlockId>, bs: seq<BlockId>) {
    forall b :: b in bs ==> b in seen
  }

  /** A worker never waits for a payment status: reconcile only ever meets rows without a hash. */
  ghost predicate MainOk(db: Db, seen: set<BlockId>, m: Main) {
    match m
    case Down | Scanning | Polling | Sleeping => true
    case Reconciling(fs) => forall f :: f in fs ==> f.hash == None && Settled(db, f.key)
    case Asking(_, _) => false
    case Resolving(_, _, _) => false
    case Watching(_, matured) => AllSeen(seen, matured)
    case Marking(b, mark, _, _, matured) =>
      AllSeen(seen, matured) && mark in {Matured, Orphaned} && (mark == Matured ==> b in seen)
    case Fanning(matured) => AllSeen(seen, matured)
    case Upserting(b, ws, matured) =>
      AllSeen(seen, [b] + matured) && forall w :: w in ws ==> w.Upsert? && WriteOk(db, seen, w)
    case Starting(b, matured) => AllSeen(seen, [b] + matured)
    case Dialing(b, matured) => AllSeen(seen, [b] + matured)
    case FailingAll(b, matured) => AllSeen(seen, [b] + matured)
    case Reading(b, matured) => AllSeen(seen, [b] + matured)
    case Awaiting(_, b, matured) => AllSeen(seen, [b] + matured)
    case Closing(b, matured) => AllSeen(seen, [b] + matured)
  }

  ghost predicate ItemOk(db: Db, b: BlockId, it: Item) {
    it.key in db.rows && it.key.block == b && it.key.kind == LnDust && it.amount == db.rows[it.key].amount
  }

  ghost predicate PhaseOk(db: Db, b: BlockId, p: Phase) {
    !p.Done? && !p.Broken? ==> ItemOk(db, b, p.item) && (!p.Claiming? ==> Settled(db, p.item.key))
  }

  ghost predicate PassOk(db: Db, pass: Pass) {
    && (forall it :: it in pass.queue ==> ItemOk(db, pass.block, it))
    && (forall i {:trigger pass.slots[i]} :: 0 <= i < |pass.slots| ==> PhaseOk(db, pass.block, pass.slots[i]))
  }

  ghost predicate Called(log: seq<Call>, k: Key) {
    exists c :: c in log && c.key == k
  }

  ghost predicate LogOk(db: Db, log: seq<Call>) {
    && (forall c :: c in log ==> c.key.kind == LnDust && Settled(db, c.key) && db.rows[c.key].amount == c.amount)
    && (forall i, j :: 0 <= i < j < |log| ==> log[i].key != log[j].key)
  }

  /** A loop about to pay is the winner of its row's claim, and the row was never called. */
  ghost predicate TokenOk(s: State, pid: PassId, i: nat, p: Phase) {
    p.Looking? ==> p.item.key in s.winner && s.winner[p.item.key] == (pid, i) && !Called(s.log, p.item.key)
  }

  ghost predicate TokensOk(s: State) {
    forall pid, i {:trigger s.passes[pid].slots[i]} ::
      pid in s.passes && 0 <= i < |s.passes[pid].slots| ==> TokenOk(s, pid, i, s.passes[pid].slots[i])
  }

  ghost predicate WorkOk(s: State) {
    && (forall w :: w in s.limbo ==> WriteOk(s.db, s.seen, w))
    && (forall p :: p in s.mains ==> MainOk(s.db, s.seen, s.mains[p]))
    && (forall pid :: pid in s.passes ==> PassOk(s.db, s.passes[pid]))
  }

  ghost predicate Inv(s: State) {
    DbOk(s.db, s.seen) && WorkOk(s) && LogOk(s.db, s.log) && TokensOk(s)
  }

  // ----- stability under forward moves of the database -----

  lemma {:induction false} ApplyOk(db: Db, seen: set<BlockId>, w: Write)
    requires DbOk(db, seen) && WriteOk(db, seen, w)
    ensures DbOk(Apply(db, w), seen) && Forward(db, Apply(db, w))
  {
    ApplyMovesForward(db, w);
  }

  ghost predicate Later(db: Db, seen: set<BlockId>, db': Db, seen': set<BlockId>) {
    Forward(db, db') && seen <= seen'
  }

  lemma {:induction false} WriteStable(db: Db, seen: set<BlockId>, db': Db, seen': set<BlockId>, w: Write)
    requires Later(db, seen, db', seen') && WriteOk(db, seen, w)
    ensures WriteOk(db', seen', w)
  {}

  lemma {:induction false} MainStable(db: Db, seen: set<BlockId>, db': Db, seen': set<BlockId>, m: Main)
    requires Later(db, seen, db', seen') && MainOk(db, seen, m)
    ensures MainOk(db', seen', m)
  {
    if m.Upserting? {
      forall w | w in m.writes ensures WriteOk(db', seen', w) { WriteStable(db, seen, db', seen', w); }
    }
  }

  /** Everything that is waiting stays sound while the database moves forward. */
  lemma {:induction false} WorkStable(s: State, s': State)
    requires WorkOk(s) && LogOk(s.db, s.log) && Later(s.db, s.seen, s'.db, s'.seen)
    ensures forall w :: w in s.limbo ==> WriteOk(s'.db, s'.seen, w)
    ensures forall p :: p in s.mains ==> MainOk(s'.db, s'.seen, s.mains[p])
    ensures forall pid :: pid in s.passes ==> PassOk(s'.db, s.passes[pid])
    ensures LogOk(s'.db, s.log)
  {
    forall w | w in s.limbo ensures WriteOk(s'.db, s'.seen, w) { WriteStable(s.db, s.seen, s'.db, s'.seen, w); }
    forall p | p in s.mains ensures MainOk(s'.db, s'.seen, s.mains[p]) {
      MainStable(s.db, s.seen, s'.db, s'.seen, s.mains[p]);
    }
  }

  // ----- steps -----

  lemma {:induction false} InitInv(s: State)
    requires Init(s)
    ensures Inv(s)
  {}

  lemma {:induction false} MainWriteOk(db: Db, seen: set<BlockId>, m: Main)
    requires MainOk(db, seen, m) && MainWrite(m).Some?
    ensures WriteOk(db, seen, MainWrite(m).value)
  {
    if m.Closing? {
      assert ([m.block] + m.matured)[0] == m.block;
    }
  }

  lemma OnChainUpsertsAre(b: BlockId, outs: seq<CoinbaseOutput>)
    ensures forall w :: w in OnChainUpserts(b, outs) ==> w.Upsert? && w.key.kind == OnChain && w.key.block == b
  {}

  lemma DustUpsertsAre(b: BlockId, dust: seq<DustEntry>)
    ensures forall w :: w in DustUpserts(b, dust) ==>
      w.Upsert? && w.key.kind == LnDust && w.key.block == b && w.row.status == Pending && w.row.hash == None
      && DustEntry(w.key.member, w.row.amount) in dust
  {}

  lemma {:induction false} UpsertsOk(db: Db, seen: set<BlockId>, b: BlockId)
    requires b in db.blocks && b in seen
    ensures forall w :: w in Upserts(b, db.blocks[b].snapshot) ==> w.Upsert? && WriteOk(db, seen, w)
  {
    OnChainUpsertsAre(b, FlatOutputs(db.blocks[b].snapshot));
    DustUpsertsAre(b, Breakdown(db.blocks[b].snapshot));
  }

  /** A main function only ever hands over the write it had issued. */
  lemma {:induction false} MainWrites(c: Config, s: State, m: Main, ev: Event)
    requires MainStep(c, s, m, ev).Some? && MainStep(c, s, m, ev).value.write.Some?
    ensures MainStep(c, s, m, ev).value.write == MainWrite(m)
  {}

  /** A pass opens with a fresh name and every loop waiting on a claim of a pending row. */
  lemma {:induction false} MainStarts(c: Config, s: State, m: Main, ev: Event)
    requires MainStep(c, s, m, ev).Some? && MainStep(c, s, m, ev).value.started.Some?
    ensures var o := MainStep(c, s, m, ev).value;
      && o.started.value !in s.passes && PassOk(s.db, o.pass) && m.Reading? && o.pass.block == m.block
      && (forall i :: 0 <= i < |o.pass.slots| ==> o.pass.slots[i].Claiming?)
  {
    assert m.Reading? && ListsPending(s.db.rows, m.block, ev.items);
  }

  lemma {:induction false} WatchStepOk(c: Config, s: State, m: Main, ev: Event)
    requires MainOk(s.db, s.seen, m) && MainStep(c, s, m, ev).Some? && (m.Watching? || m.Marking?)
    ensures MainOk(s.db, s.seen + MainStep(c, s, m, ev).value.saw, MainStep(c, s, m, ev).value.main)
  {}

  lemma {:induction false} FanStepOk(c: Config, s: State, m: Main, ev: Event)
    requires MainOk(s.db, s.seen, m) && MainStep(c, s, m, ev).Some? && (m.Fanning? || m.Upserting?)
    ensures MainOk(s.db, s.seen + MainStep(c, s, m, ev).value.saw, MainStep(c, s, m, ev).value.main)
  {
    if m.Fanning? && m.matured != [] && ev.Go? && m.matured[0] in s.db.blocks {
      UpsertsOk(s.db, s.seen, m.matured[0]);
    }
  }

  /** What a main function waits for next is sound again. */
  lemma {:induction false} MainStepOk(c: Config, s: State, m: Main, ev: Event)
    requires DbOk(s.db, s.seen) && MainOk(s.db, s.seen, m) && MainStep(c, s, m, ev).Some?
    ensures MainOk(s.db, s.seen + MainStep(c, s, m, ev).value.saw, MainStep(c, s, m, ev).value.main)
  {
    if m.Watching? || m.Marking? {
      WatchStepOk(c, s, m, ev);
    } else if m.Fanning? || m.Upserting? {
      FanStepOk(c, s, m, ev);
    }
  }

  /** The database after a main function's step: unchanged, or one sound write further. */
  lemma {:induction false} MainDbOk(c: Config, s: State, p: Proc, m: Main, ev: Event)
    requires DbOk(s.db, s.seen) && MainOk(s.db, s.seen, m) && MainStep(c, s, m, ev).Some?
    ensures var o := MainStep(c, s, m, ev).value; var s' := AfterMain(s, p, o);
      && DbOk(s'.db, s'.seen) && Later(s.db, s.seen, s'.db, s'.seen)
      && (o.write.Some? ==> WriteOk(s.db, s.seen, o.write.value))
  {
    if MainStep(c, s, m, ev).value.write.Some? {
      MainWrites(c, s, m, ev);
      MainWriteOk(s.db, s.seen, m);
      ApplyOk(s.db, s.seen, MainWrite(m).value);
    }
  }

  lemma {:induction false} MainActOk(c: Config, s: State, p: Proc, ev: Event)
    requires Inv(s)
    requires MainStep(c, s, if p in s.mains then s.mains[p] else Down, ev).Some?
    ensures Inv(AfterMain(s, p, MainStep(c, s, if p in s.mains then s.mains[p] else Down, ev).value))
  {
    var m := if p in s.mains then s.mains[p] else Down;
    var o := MainStep(c, s, m, ev).value;
    var s' := AfterMain(s, p, o);
    MainStepOk(c, s, m, ev);
    MainDbOk(c, s, p, m, ev);
    WorkStable(s, s');
    MainStable(s.db, s.seen + o.saw, s'.db, s'.seen, o.main);
    if o.started.Some? { MainStarts(c, s, m, ev); }
    if o.write.Some? { WriteStable(s.db, s.seen, s'.db, s'.seen, o.write.value); }
  }

  lemma {:induction false} IssuedOk(s: State, p: Proc, w: Write)
    requires Inv(s) && IssuedIn(s, p, w)
    ensures WriteOk(s.db, s.seen, w)
  {
    if p in s.mains && MainWrite(s.mains[p]) == Some(w) {
      MainWriteOk(s.db, s.seen, s.mains[p]);
    } else {
      var pid, i :| pid in s.passes && pid in s.owner && s.owner[pid] == p
                    && 0 <= i < |s.passes[pid].slots| && PhaseWrite(s.passes[pid].slots[i]) == Some(w);
      assert PhaseOk(s.db, s.passes[pid].block, s.passes[pid].slots[i]);
    }
  }

  lemma {:induction false} CrashOk(c: Config, s: State, s': State, p: Proc, left: set<Write>)
    requires Inv(s) && StepTo(c, s, s', Crash(p, left))
    ensures Inv(s')
  {
    forall w | w in left ensures WriteOk(s.db, s.seen, w) { IssuedOk(s, p, w); }
  }

  /** A drain loop changes the database by the write it had issued or not at all, and calls the
      Lightning client only when a member was found. */
  lemma {:induction false} SlotEffect(db: Db, p: Phase, r: Reply)
    requires SlotStep(db, p, r).Some?
    ensures var o := SlotStep(db, p, r).value;
      && (o.db == db || (PhaseWrite(p).Some? && o.db == Apply(db, PhaseWrite(p).value)))
      && o.limbo <= IssuedBy(p)
      && o.calls == (if p.Looking? && r.Found? then [Call(p.item.key, p.item.amount)] else [])
  {}

  lemma {:induction false} PhaseWriteOk(db: Db, seen: set<BlockId>, b: BlockId, p: Phase)
    requires PhaseOk(db, b, p) && PhaseWrite(p).Some?
    ensures WriteOk(db, seen, PhaseWrite(p).value)
  {}

  /** One await of a drain loop moves the database by a sound write. */
  lemma {:induction false} SlotDbOk(db: Db, seen: set<BlockId>, b: BlockId, p: Phase, r: Reply)
    requires DbOk(db, seen) && PhaseOk(db, b, p) && SlotStep(db, p, r).Some?
    ensures var o := SlotStep(db, p, r).value;
      DbOk(o.db, seen) && Forward(db, o.db) && forall w :: w in o.limbo ==> WriteOk(db, seen, w)
  {
    SlotEffect(db, p, r);
    if PhaseWrite(p).Some? {
      PhaseWriteOk(db, seen, b, p);
      ApplyOk(db, seen, PhaseWrite(p).value);
    }
  }

  /** A loop comes to look up a member only by moving a PENDING row to IN_FLIGHT. */
  lemma {:induction false} SlotPhaseOk(db: Db, b: BlockId, p: Phase, r: Reply)
    requires PhaseOk(db, b, p) && SlotStep(db, p, r).Some?
    ensures var o := SlotStep(db, p, r).value;
      && (o.after.Stay? ==> PhaseOk(o.db, b, o.after.phase))
      && (o.won.Some? <==> o.after.Stay? && o.after.phase.Looking?)
      && (o.won.Some? ==>
            && p.Claiming? && o.won.value == p.item.key == o.after.phase.item.key
            && IsPendingDust(db.rows, p.item.key, b))
  {}

  lemma {:induction false} LogExtends(db: Db, log: seq<Call>, db': Db, calls: seq<Call>, it: Item)
    requires LogOk(db', log) && Forward(db, db')
    requires calls == [] || (calls == [Call(it.key, it.amount)] && !Called(log, it.key)
      && ItemOk(db, it.key.block, it) && Settled(db, it.key))
    ensures LogOk(db', log + calls)
  {
    if calls != [] {
      assert forall c :: c in log ==> c.key != it.key;
    }
  }

  lemma {:induction false} SettlePassOk(db: Db, db': Db, pass: Pass, i: nat, o: SlotOut)
    requires PassOk(db, pass) && Forward(db, db') && i < |pass.slots|
    requires o.after.Stay? ==> PhaseOk(db', pass.block, o.after.phase)
    ensures PassOk(db', Settle(pass, i, o))
  {
    var next := Settle(pass, i, o);
    assert forall it :: it in next.queue ==> it in pass.queue;
    assert o.after.Free? && pass.queue != [] ==> ItemOk(db, pass.block, pass.queue[0]);
    forall j | 0 <= j < |next.slots| ensures PhaseOk(db', pass.block, next.slots[j]) {
      assert PhaseOk(db, pass.block, pass.slots[j]);
    }
  }

  /** A loop other than the one that moved keeps its token. */
  lemma {:induction false} OtherTokenKept(s: State, pid: PassId, i: nat, r: Reply, q: PassId, j: nat, ph: Phase)
    requires Inv(s) && pid in s.passes && i < |s.passes[pid].slots|
    requires q in s.passes && j < |s.passes[q].slots| && ph == s.passes[q].slots[j] && (q, j) != (pid, i)
    requires SlotStep(s.db, s.passes[pid].slots[i], r).Some? && ph.Looking?
    ensures TokenOk(AfterSlot(s, pid, i, SlotStep(s.db, s.passes[pid].slots[i], r).value), q, j, ph)
  {
    var p := s.passes[pid].slots[i];
    var o := SlotStep(s.db, p, r).value;
    assert PhaseOk(s.db, s.passes[pid].block, p);
    SlotPhaseOk(s.db, s.passes[pid].block, p, r);
    SlotEffect(s.db, p, r);
    assert TokenOk(s, q, j, ph) && PhaseOk(s.db, s.passes[q].block, ph);
    assert o.won.Some? ==> o.won.value != ph.item.key;
    if o.calls != [] { assert TokenOk(s, pid, i, p); }
  }

  lemma {:induction false} TokensKept(s: State, pid: PassId, i: nat, r: Reply)
    requires Inv(s) && pid in s.passes && i < |s.passes[pid].slots|
    requires SlotStep(s.db, s.passes[pid].slots[i], r).Some?
    ensures TokensOk(AfterSlot(s, pid, i, SlotStep(s.db, s.passes[pid].slots[i], r).value))
  {
    var p := s.passes[pid].slots[i];
    var o := SlotStep(s.db, p, r).value;
    var s' := AfterSlot(s, pid, i, o);
    assert PhaseOk(s.db, s.passes[pid].block, p);
    SlotPhaseOk(s.db, s.passes[pid].block, p, r);
    SlotEffect(s.db, p, r);
    forall q, j {:trigger s'.passes[q].slots[j]} | q in s'.passes && 0 <= j < |s'.passes[q].slots|
      ensures TokenOk(s', q, j, s'.passes[q].slots[j])
    {
      var ph := s'.passes[q].slots[j];
      if ph.Looking? {
        if q == pid && j == i {
          assert o.won == Some(ph.item.key) && o.calls == [];
          assert !Called(s.log, ph.item.key);
        } else {
          OtherTokenKept(s, pid, i, r, q, j, ph);
        }
      }
    }
  }

  lemma {:induction false} SlotActOk(s: State, pid: PassId, i: nat, r: Reply)
    requires Inv(s) && pid in s.passes && i < |s.passes[pid].slots|
    requires SlotStep(s.db, s.passes[pid].slots[i], r).Some?
    ensures Inv(AfterSlot(s, pid, i, SlotStep(s.db, s.passes[pid].slots[i], r).value))
  {
    var pass := s.passes[pid];
    var p := pass.slots[i];
    var o := SlotStep(s.db, p, r).value;
    assert PhaseOk(s.db, pass.block, p);
    SlotDbOk(s.db, s.seen, pass.block, p, r);
    SlotPhaseOk(s.db, pass.block, p, r);
    SlotEffect(s.db, p, r);
    var s' := AfterSlot(s, pid, i, o);
    WorkStable(s, s');
    SettlePassOk(s.db, s'.db, pass, i, o);
    TokensKept(s, pid, i, r);
    assert LogOk(s'.db, s'.log) by {
      assert TokenOk(s, pid, i, p);
      if o.calls == [] { assert s'.log == s.log; } else { LogExtends(s.db, s.log, s'.db, o.calls, p.item); }
    }
    forall w | w in s'.limbo ensures WriteOk(s'.db, s'.seen, w) {
      if w in o.limbo { WriteStable(s.db, s.seen, s'.db, s'.seen, w); }
    }
  }

  lemma {:induction false} LandOk(s: State, w: Write)
    requires Inv(s) && w in s.limbo
    ensures Inv(s.(db := Apply(s.db, w), limbo := s.limbo - {w}))
  {
    ApplyOk(s.db, s.seen, w);
    WorkStable(s, s.(db := Apply(s.db, w), limbo := s.limbo - {w}));
  }

  lemma {:induction false} FindOk(c: Config, s: State, s': State, b: BlockId, snap: Snapshot)
    requires Inv(s) && StepTo(c, s, s', FindBlock(b, snap))
    ensures Inv(s')
  {
    WorkStable(s, s');
  }

  lemma {:induction false} NextInv(c: Config, s: State, s': State)
    requires Inv(s) && Next(c, s, s')
    ensures Inv(s')
  {
    var step :| StepTo(c, s, s', step);
    match step
    case FindBlock(b, snap) => FindOk(c, s, s', b, snap);
    case MainAct(p, ev) => MainActOk(c, s, p, ev);
    case SlotAct(pid, i, r) => SlotActOk(s, pid, i, r);
    case Crash(p, left) => CrashOk(c, s, s', p, left);
    case Land(w) => LandOk(s, w);
  }

  lemma {:induction false} RunInv(c: Config, run: seq<State>, n: nat)
    requires IsRun(c, run) && n < |run|
    ensures Inv(run[n])
  {
    if n == 0 {
      InitInv(run[0]);
    } else {
      RunInv(c, run, n - 1);
      assert StepAt(c, run, n);
      NextInv(c, run[n - 1], run[n]);
    }
  }
}
