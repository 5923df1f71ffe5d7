/** What DUST_FANNED_OUT does promise over all runs: no dust row of the block is pending. */
module PayoutClosing {
  import opened Shared
  import opened PayoutTable
  import opened FanoutPass
  import opened PayoutProtocol
  import opened PayoutSafety
  import opened PayoutRuns
  import D = FanoutDust

  function DustKey(b: BlockId, d: DustEntry): Key { Key(b, d.pubkey, LnDust) }

  /** Every dust row the block's snapshot lists is in the table. */
  ghost predicate Recorded(db: Db, b: BlockId) {
    b in db.blocks && forall d :: d in Breakdown(db.blocks[b].snapshot) ==> DustKey(b, d) in db.rows
  }

  /** And every one of them was claimed, paid or failed. */
  ghost predicate Drained(db: Db, b: BlockId) {
    b in db.blocks && forall d :: d in Breakdown(db.blocks[b].snapshot) ==> Settled(db, DustKey(b, d))
  }

  ghost predicate InQueue(pass: Pass, k: Key) { exists it :: it in pass.queue && it.key == k }

  ghost predicate BeingClaimed(pass: Pass, k: Key) {
    exists i :: 0 <= i < |pass.slots| && pass.slots[i].Claiming? && pass.slots[i].item.key == k
  }

  /** What a pass still has to claim, unless one of its loops broke. */
  ghost predicate Attended(db: Db, pass: Pass, k: Key) {
    Settled(db, k) || InQueue(pass, k) || BeingClaimed(pass, k) || AnyBroken(pass)
  }

  ghost predicate Covered(db: Db, pass: Pass) {
    && pass.block in db.blocks
    && forall d :: d in Breakdown(db.blocks[pass.block].snapshot) ==> Attended(db, pass, DustKey(pass.block, d))
  }

  ghost predicate Writes(ws: seq<Write>, k: Key) { exists w :: w in ws && w.Upsert? && w.key == k }

  ghost predicate ToRecord(db: Db, b: BlockId, ws: seq<Write>) {
    b in db.blocks && forall d :: d in Breakdown(db.blocks[b].snapshot) ==>
      DustKey(b, d) in db.rows || Writes(ws, DustKey(b, d))
  }

  ghost predicate OnTrack(db: Db, m: Main) {
    match m
    case Upserting(b, ws, _) => ToRecord(db, b, ws)
    case Starting(b, _) => Recorded(db, b)
    case Dialing(b, _) => Recorded(db, b)
    case Reading(b, _) => Recorded(db, b)
    case Closing(b, _) => Drained(db, b)
    case _ => true
  }

  /** A worker awaits its own pass over the block it works on. */
  ghost predicate Owns(s: State, p: Proc, m: Main) {
    m.Awaiting? ==> m.pass in s.passes && m.pass in s.owner && s.owner[m.pass] == p && s.passes[m.pass].block == m.block
  }

  ghost predicate MarkOk(db: Db, w: Write) { w.SetStatus? && w.blockStatus == DustFannedOut ==> Drained(db, w.block) }

  ghost predicate Marked(db: Db) {
    forall b :: b in db.blocks && db.blocks[b].status == DustFannedOut ==> Drained(db, b)
  }

  ghost predicate PassFine(c: Config, db: Db, pass: Pass) { D.Shape(pass, c.concurrency) && Covered(db, pass) }

  ghost predicate ClosingInv(c: Config, s: State) {
    && Marked(s.db)
    && (forall w :: w in s.limbo ==> MarkOk(s.db, w))
    && (forall p :: p in s.mains ==> OnTrack(s.db, s.mains[p]) && Owns(s, p, s.mains[p]))
    && (forall pid :: pid in s.passes ==> PassFine(c, s.db, s.passes[pid]))
  }

  // ----- stable while the database moves forward -----

  lemma {:induction false} DrainedStable(db: Db, later: Db, b: BlockId)
    requires Forward(db, later)
    ensures Drained(db, b) ==> Drained(later, b)
    ensures Recorded(db, b) ==> Recorded(later, b)
  {}

  lemma {:induction false} OnTrackStable(db: Db, later: Db, m: Main)
    requires Forward(db, later) && OnTrack(db, m)
    ensures OnTrack(later, m)
  {
    if m.Upserting? {
      assert later.blocks[m.block].snapshot == db.blocks[m.block].snapshot;
    } else if m.Starting? || m.Dialing? || m.Reading? || m.Closing? {
      DrainedStable(db, later, m.block);
    }
  }

  lemma {:induction false} CoveredStable(db: Db, later: Db, pass: Pass)
    requires Forward(db, later) && Covered(db, pass)
    ensures Covered(later, pass)
  {
    forall d | d in Breakdown(later.blocks[pass.block].snapshot) ensures Attended(later, pass, DustKey(pass.block, d)) {
      assert Attended(db, pass, DustKey(pass.block, d));
    }
  }

  /** The same processes and passes over a later database. */
  lemma {:induction false} ClosingStable(c: Config, s: State, later: Db)
    requires ClosingInv(c, s) && Forward(s.db, later)
    ensures forall w :: w in s.limbo ==> MarkOk(later, w)
    ensures forall p :: p in s.mains ==> OnTrack(later, s.mains[p])
    ensures forall pid :: pid in s.passes ==> PassFine(c, later, s.passes[pid])
  {
    forall w | w in s.limbo ensures MarkOk(later, w) { if w.SetStatus? { DrainedStable(s.db, later, w.block); } }
    forall p | p in s.mains ensures OnTrack(later, s.mains[p]) { OnTrackStable(s.db, later, s.mains[p]); }
    forall pid | pid in s.passes ensures PassFine(c, later, s.passes[pid]) {
      CoveredStable(s.db, later, s.passes[pid]);
    }
  }

  lemma {:induction false} ApplyMarked(db: Db, w: Write)
    requires Marked(db) && MarkOk(db, w) && Forward(db, Apply(db, w))
    ensures Marked(Apply(db, w))
  {
    var later := Apply(db, w);
    forall b | b in later.blocks && later.blocks[b].status == DustFannedOut ensures Drained(later, b) {
      DrainedStable(db, later, b);
    }
  }

  // ----- what a main function does -----

  lemma {:induction false} DustIsWritten(b: BlockId, dust: seq<DustEntry>, d: DustEntry)
    requires d in dust
    ensures Writes(DustUpserts(b, dust), DustKey(b, d))
  {
    var w := Upsert(DustKey(b, dust[0]), Row(Pending, dust[0].owed, None));
    var rest := DustUpserts(b, dust[1..]);
    assert DustUpserts(b, dust) == [w] + rest;
    if d == dust[0] {
      assert ([w] + rest)[0] == w;
    } else {
      DustIsWritten(b, dust[1..], d);
      var v :| v in rest && v.Upsert? && v.key == DustKey(b, d);
      assert v in [w] + rest;
    }
  }

  lemma {:induction false} UpsertsRecord(db: Db, b: BlockId)
    requires b in db.blocks
    ensures ToRecord(db, b, Upserts(b, db.blocks[b].snapshot))
  {
    var dust := Breakdown(db.blocks[b].snapshot);
    forall d | d in dust ensures Writes(Upserts(b, db.blocks[b].snapshot), DustKey(b, d)) {
      DustIsWritten(b, dust, d);
      var w :| w in DustUpserts(b, dust) && w.Upsert? && w.key == DustKey(b, d);
      assert w in Upserts(b, db.blocks[b].snapshot);
    }
  }

  lemma {:induction false} RecordStep(db: Db, b: BlockId, ws: seq<Write>)
    requires ToRecord(db, b, ws) && ws != [] && ws[0].Upsert?
    ensures ToRecord(Apply(db, ws[0]), b, ws[1..])
  {
    var later := Apply(db, ws[0]);
    forall d | d in Breakdown(later.blocks[b].snapshot)
      ensures DustKey(b, d) in later.rows || Writes(ws[1..], DustKey(b, d))
    {
      if DustKey(b, d) !in later.rows {
        var w :| w in ws && w.Upsert? && w.key == DustKey(b, d);
        assert w != ws[0];
        assert w in ws[1..];
      }
    }
  }

  lemma {:induction false} StartAttends(db: Db, b: BlockId, items: seq<Item>, concurrency: nat, i: nat)
    requires i < |items|
    ensures Attended(db, StartPass(b, items, concurrency), items[i].key)
  {
    var pass, k := StartPass(b, items, concurrency), items[i].key;
    if i < |pass.slots| { assert pass.slots[i].item.key == k; } else { assert pass.queue[i - |pass.slots|].key == k; }
  }

  /** A fresh pass attends to every row that is still pending. */
  lemma {:induction false} StartCovers(db: Db, b: BlockId, items: seq<Item>, concurrency: nat)
    requires Recorded(db, b) && ListsPending(db.rows, b, items)
    ensures Covered(db, StartPass(b, items, concurrency))
  {
    var pass := StartPass(b, items, concurrency);
    forall d | d in Breakdown(db.blocks[b].snapshot) ensures Attended(db, pass, DustKey(b, d)) {
      var k := DustKey(b, d);
      if !Settled(db, k) {
        assert IsPendingDust(db.rows, k, b);
        var i :| 0 <= i < |items| && items[i] == Item(k, db.rows[k].amount);
        StartAttends(db, b, items, concurrency, i);
      }
    }
  }

  /** A pass all of whose loops came to their end has drained its block. */
  lemma {:induction false} EndDrains(c: Config, db: Db, pass: Pass)
    requires c.concurrency >= 1 && PassFine(c, db, pass) && AllDone(pass)
    ensures Drained(db, pass.block)
  {
    D.AllDoneDrainsQueue(pass, c.concurrency);
    forall d | d in Breakdown(db.blocks[pass.block].snapshot) ensures Settled(db, DustKey(pass.block, d)) {
      assert Attended(db, pass, DustKey(pass.block, d));
    }
  }

  // ----- steps -----

  /** The write a main function has issued marks only drained blocks. */
  lemma {:induction false} IssuedMark(db: Db, seen: set<BlockId>, m: Main)
    requires OnTrack(db, m) && MainOk(db, seen, m) && MainWrite(m).Some?
    ensures MarkOk(db, MainWrite(m).value)
  {
    if m.Upserting? { assert m.writes[0] in m.writes; }
  }

  lemma {:induction false} FanningOnTrack(c: Config, s: State, p: Proc, m: Main, ev: Event)
    requires m.Fanning? && MainStep(c, s, m, ev).Some?
    ensures OnTrack(AfterMain(s, p, MainStep(c, s, m, ev).value).db, MainStep(c, s, m, ev).value.main)
  {
    if m.matured != [] && ev.Go? && m.matured[0] in s.db.blocks { UpsertsRecord(s.db, m.matured[0]); }
  }

  lemma {:induction false} FanOutOnTrack(c: Config, s: State, p: Proc, m: Main, ev: Event)
    requires m.Starting? || m.Dialing? || m.FailingAll? || m.Reading? || m.Closing?
    requires OnTrack(s.db, m) && MainStep(c, s, m, ev).Some?
    ensures OnTrack(AfterMain(s, p, MainStep(c, s, m, ev).value).db, MainStep(c, s, m, ev).value.main)
  {}

  lemma {:induction false} UpsertingOnTrack(c: Config, s: State, p: Proc, m: Main, ev: Event)
    requires m.Upserting? && OnTrack(s.db, m) && MainOk(s.db, s.seen, m) && MainStep(c, s, m, ev).Some?
    ensures OnTrack(AfterMain(s, p, MainStep(c, s, m, ev).value).db, MainStep(c, s, m, ev).value.main)
  {
    if m.writes != [] && ev.Go? {
      assert m.writes[0] in m.writes;
      RecordStep(s.db, m.block, m.writes);
    }
  }

  lemma {:induction false} AwaitingOnTrack(c: Config, s: State, p: Proc, m: Main, ev: Event)
    requires c.concurrency >= 1 && ClosingInv(c, s) && m.Awaiting? && Owns(s, p, m) && MainStep(c, s, m, ev).Some?
    ensures OnTrack(AfterMain(s, p, MainStep(c, s, m, ev).value).db, MainStep(c, s, m, ev).value.main)
  {
    var pass := s.passes[m.pass];
    if ev.Go? && !AnyBroken(pass) && AllDone(pass) { EndDrains(c, s.db, pass); }
  }

  /** A main function stays on track over the database its own step leaves behind. */
  lemma {:induction false} MainStaysOnTrack(c: Config, s: State, p: Proc, m: Main, ev: Event)
    requires c.concurrency >= 1 && ClosingInv(c, s) && OnTrack(s.db, m) && Owns(s, p, m) && MainOk(s.db, s.seen, m)
    requires MainStep(c, s, m, ev).Some? && Forward(s.db, AfterMain(s, p, MainStep(c, s, m, ev).value).db)
    ensures OnTrack(AfterMain(s, p, MainStep(c, s, m, ev).value).db, MainStep(c, s, m, ev).value.main)
  {
    if m.Fanning? {
      FanningOnTrack(c, s, p, m, ev);
    } else if m.Upserting? {
      UpsertingOnTrack(c, s, p, m, ev);
    } else if m.Awaiting? {
      AwaitingOnTrack(c, s, p, m, ev);
    } else if m.Starting? || m.Dialing? || m.FailingAll? || m.Reading? || m.Closing? {
      FanOutOnTrack(c, s, p, m, ev);
    }
  }

  lemma {:induction false} MainOwns(c: Config, s: State, p: Proc, m: Main, ev: Event)
    requires MainStep(c, s, m, ev).Some?
    ensures var o := MainStep(c, s, m, ev).value; Owns(AfterMain(s, p, o), p, o.main)
    ensures var o := MainStep(c, s, m, ev).value; o.started.Some? ==> o.started.value !in s.passes && m.Reading?
  {}

  lemma {:induction false} StartedFine(c: Config, s: State, m: Main, ev: Event)
    requires OnTrack(s.db, m) && MainStep(c, s, m, ev).Some? && MainStep(c, s, m, ev).value.started.Some?
    ensures PassFine(c, s.db, MainStep(c, s, m, ev).value.pass)
  {
    assert m.Reading? && ListsPending(s.db.rows, m.block, ev.items);
    StartCovers(s.db, m.block, ev.items, c.concurrency);
    D.StartShape(m.block, ev.items, c.concurrency);
  }

  lemma {:induction false} OthersOwn(s: State, p: Proc, o: MainOut)
    requires forall q :: q in s.mains ==> Owns(s, q, s.mains[q])
    requires o.started.Some? ==> o.started.value !in s.passes
    ensures forall q :: q in s.mains && q != p ==> Owns(AfterMain(s, p, o), q, s.mains[q])
  {}

  lemma {:induction false} MoveClosing(c: Config, s: State, p: Proc, o: MainOut)
    requires ClosingInv(c, s) && Forward(s.db, AfterMain(s, p, o).db)
    requires OnTrack(AfterMain(s, p, o).db, o.main) && Owns(AfterMain(s, p, o), p, o.main)
    requires o.write.Some? ==> MarkOk(s.db, o.write.value)
    requires o.started.Some? ==> o.started.value !in s.passes && PassFine(c, s.db, o.pass)
    ensures ClosingInv(c, AfterMain(s, p, o))
  {
    var s' := AfterMain(s, p, o);
    ClosingStable(c, s, s'.db);
    OthersOwn(s, p, o);
    if o.write.Some? {
      DrainedStable(s.db, s'.db, if o.write.value.SetStatus? then o.write.value.block else "");
      if !o.lost { ApplyMarked(s.db, o.write.value); }
    }
    if o.started.Some? { CoveredStable(s.db, s'.db, o.pass); }
  }

  lemma {:induction false} MainActClosing(c: Config, s: State, p: Proc, ev: Event)
    requires c.concurrency >= 1 && Inv(s) && ClosingInv(c, s)
    requires MainStep(c, s, if p in s.mains then s.mains[p] else Down, ev).Some?
    ensures ClosingInv(c, AfterMain(s, p, MainStep(c, s, if p in s.mains then s.mains[p] else Down, ev).value))
  {
    var m := if p in s.mains then s.mains[p] else Down;
    var o := MainStep(c, s, m, ev).value;
    MainDbOk(c, s, p, m, ev);
    MainStaysOnTrack(c, s, p, m, ev);
    MainOwns(c, s, p, m, ev);
    if o.write.Some? {
      MainWrites(c, s, m, ev);
      IssuedMark(s.db, s.seen, m);
    }
    if o.started.Some? { StartedFine(c, s, m, ev); }
    MoveClosing(c, s, p, o);
  }

  /** One await of a loop: the row it claimed is settled, or the loop broke. */
  lemma {:induction false} ClaimSettles(db: Db, b: BlockId, p: Phase, r: Reply)
    requires PhaseOk(db, b, p) && SlotStep(db, p, r).Some? && p.Claiming?
    ensures var o := SlotStep(db, p, r).value; Settled(o.db, p.item.key) || (o.after.Stay? && o.after.phase.Broken?)
  {}

  lemma {:induction false} CoverMoves(db: Db, later: Db, pass: Pass, i: nat, o: SlotOut)
    requires Covered(db, pass) && Forward(db, later) && i < |pass.slots| && D.Active(pass.slots[i])
    requires pass.slots[i].Claiming? ==>
      Settled(later, pass.slots[i].item.key) || (o.after.Stay? && o.after.phase.Broken?)
    ensures Covered(later, Settle(pass, i, o))
  {
    var next := Settle(pass, i, o);
    forall d | d in Breakdown(later.blocks[pass.block].snapshot) ensures Attended(later, next, DustKey(pass.block, d)) {
      var k := DustKey(pass.block, d);
      assert Attended(db, pass, k);
      AttentionMoves(db, later, pass, i, o, k);
    }
  }

  lemma {:induction false} AttentionMoves(db: Db, later: Db, pass: Pass, i: nat, o: SlotOut, k: Key)
    requires Attended(db, pass, k) && Forward(db, later) && i < |pass.slots| && D.Active(pass.slots[i])
    requires pass.slots[i].Claiming? ==>
      Settled(later, pass.slots[i].item.key) || (o.after.Stay? && o.after.phase.Broken?)
    ensures Attended(later, Settle(pass, i, o), k)
  {
    var next := Settle(pass, i, o);
    if !Settled(later, k) {
      if AnyBroken(pass) {
        var j :| 0 <= j < |pass.slots| && pass.slots[j].Broken?;
        assert next.slots[j].Broken?;
      } else if BeingClaimed(pass, k) {
        var j :| 0 <= j < |pass.slots| && pass.slots[j].Claiming? && pass.slots[j].item.key == k;
        assert next.slots[j] == if j == i then o.after.phase else pass.slots[j];
      } else {
        var it :| it in pass.queue && it.key == k;
        if o.after.Free? && it == pass.queue[0] {
          assert next.slots[i] == Claiming(it);
        } else {
          assert it in next.queue;
        }
      }
    }
  }

  lemma {:induction false} SlotPassFine(c: Config, s: State, pid: PassId, i: nat, r: Reply)
    requires Inv(s) && pid in s.passes && PassFine(c, s.db, s.passes[pid]) && i < |s.passes[pid].slots|
    requires SlotStep(s.db, s.passes[pid].slots[i], r).Some?
    ensures var o := SlotStep(s.db, s.passes[pid].slots[i], r).value;
      Forward(s.db, o.db) && PassFine(c, o.db, Settle(s.passes[pid], i, o))
  {
    var pass := s.passes[pid];
    var p := pass.slots[i];
    assert PhaseOk(s.db, pass.block, p);
    SlotDbOk(s.db, s.seen, pass.block, p, r);
    D.StepOutcome(s.db, p, r);
    D.ShapeKept(s.db, pass, c.concurrency, i, r);
    if p.Claiming? { ClaimSettles(s.db, pass.block, p, r); }
    CoverMoves(s.db, SlotStep(s.db, p, r).value.db, pass, i, SlotStep(s.db, p, r).value);
  }

  lemma {:induction false} LoopsNeverMark(db: Db, p: Phase, r: Reply)
    requires SlotStep(db, p, r).Some?
    ensures SlotStep(db, p, r).value.db.blocks == db.blocks
    ensures forall w :: w in SlotStep(db, p, r).value.limbo ==> !w.SetStatus?
  {}

  lemma {:induction false} SameMarks(db: Db, later: Db)
    requires Marked(db) && Forward(db, later) && later.blocks == db.blocks
    ensures Marked(later)
  {
    forall b | b in later.blocks && later.blocks[b].status == DustFannedOut ensures Drained(later, b) {
      DrainedStable(db, later, b);
    }
  }

  lemma {:induction false} SlotMoveClosing(c: Config, s: State, pid: PassId, i: nat, o: SlotOut)
    requires ClosingInv(c, s) && pid in s.passes && i < |s.passes[pid].slots|
    requires Forward(s.db, o.db) && o.db.blocks == s.db.blocks && PassFine(c, o.db, Settle(s.passes[pid], i, o))
    requires forall w :: w in o.limbo ==> !w.SetStatus?
    ensures ClosingInv(c, AfterSlot(s, pid, i, o))
  {
    SameMarks(s.db, o.db);
    ClosingStable(c, s, o.db);
  }

  lemma {:induction false} SlotActClosing(c: Config, s: State, pid: PassId, i: nat, r: Reply)
    requires Inv(s) && ClosingInv(c, s) && pid in s.passes && i < |s.passes[pid].slots|
    requires SlotStep(s.db, s.passes[pid].slots[i], r).Some?
    ensures ClosingInv(c, AfterSlot(s, pid, i, SlotStep(s.db, s.passes[pid].slots[i], r).value))
  {
    SlotPassFine(c, s, pid, i, r);
    LoopsNeverMark(s.db, s.passes[pid].slots[i], r);
    SlotMoveClosing(c, s, pid, i, SlotStep(s.db, s.passes[pid].slots[i], r).value);
  }

  lemma {:induction false} LoopIssuesNoMark(p: Phase)
    ensures PhaseWrite(p).Some? ==> !PhaseWrite(p).value.SetStatus?
  {}

  lemma {:induction false} CrashClosing(c: Config, s: State, s': State, p: Proc, left: set<Write>)
    requires Inv(s) && ClosingInv(c, s) && StepTo(c, s, s', Crash(p, left))
    ensures ClosingInv(c, s')
  {
    forall w | w in left ensures MarkOk(s.db, w) {
      assert IssuedIn(s, p, w);
      if p in s.mains && MainWrite(s.mains[p]) == Some(w) {
        IssuedMark(s.db, s.seen, s.mains[p]);
      } else {
        var pid, i :| pid in s.passes && pid in s.owner && s.owner[pid] == p
                      && 0 <= i < |s.passes[pid].slots| && PhaseWrite(s.passes[pid].slots[i]) == Some(w);
        LoopIssuesNoMark(s.passes[pid].slots[i]);
      }
    }
    forall q | q in s'.mains ensures OnTrack(s'.db, s'.mains[q]) && Owns(s', q, s'.mains[q]) {
      if q != p { assert s'.mains[q] == s.mains[q] && Owns(s, q, s.mains[q]); }
    }
  }

  lemma {:induction false} FindClosing(c: Config, s: State, s': State, b: BlockId, snap: Snapshot)
    requires Inv(s) && ClosingInv(c, s) && StepTo(c, s, s', FindBlock(b, snap)) && Forward(s.db, s'.db)
    ensures ClosingInv(c, s')
  {
    ClosingStable(c, s, s'.db);
    forall x | x in s'.db.blocks && s'.db.blocks[x].status == DustFannedOut ensures Drained(s'.db, x) {
      DrainedStable(s.db, s'.db, x);
    }
  }

  lemma {:induction false} LandClosing(c: Config, s: State, w: Write)
    requires Inv(s) && ClosingInv(c, s) && w in s.limbo
    ensures ClosingInv(c, s.(db := Apply(s.db, w), limbo := s.limbo - {w}))
  {
    ApplyOk(s.db, s.seen, w);
    ClosingStable(c, s, Apply(s.db, w));
    ApplyMarked(s.db, w);
  }

  lemma {:induction false} NextClosing(c: Config, s: State, s': State)
    requires c.concurrency >= 1 && Inv(s) && ClosingInv(c, s) && Next(c, s, s')
    ensures ClosingInv(c, s')
  {
    NextForward(c, s, s');
    var step :| StepTo(c, s, s', step);
    match step
    case FindBlock(b, snap) => FindClosing(c, s, s', b, snap);
    case MainAct(p, ev) => MainActClosing(c, s, p, ev);
    case SlotAct(pid, i, r) => SlotActClosing(c, s, pid, i, r);
    case Crash(p, left) => CrashClosing(c, s, s', p, left);
    case Land(w) => LandClosing(c, s, w);
  }

  lemma {:induction false} InitClosing(c: Config, s: State)
    requires Init(s)
    ensures ClosingInv(c, s)
  {}

  lemma {:induction false} StepClosing(c: Config, run: seq<State>, n: nat)
    requires c.concurrency >= 1 && IsRun(c, run) && 0 < n < |run| && Inv(run[n - 1]) && ClosingInv(c, run[n - 1])
    ensures ClosingInv(c, run[n])
  {
    assert StepAt(c, run, n);
    NextClosing(c, run[n - 1], run[n]);
  }

  lemma {:induction false} RunClosing(c: Config, run: seq<State>, n: nat)
    requires c.concurrency >= 1 && IsRun(c, run) && n < |run|
    ensures ClosingInv(c, run[n])
  {
    if n == 0 {
      InitClosing(c, run[0]);
    } else {
      RunClosing(c, run, n - 1);
      RunInv(c, run, n - 1);
      StepClosing(c, run, n);
    }
  }

  /** With concurrency at least 1, in every run: no dust row of a block marked as fanned out is
      still pending, and none it lists is missing. */
  lemma {:induction false} FannedOutIsNotPending(c: Config, run: seq<State>, n: nat, b: BlockId)
    requires c.concurrency >= 1 && IsRun(c, run) && n < |run|
    requires b in run[n].db.blocks && run[n].db.blocks[b].status == DustFannedOut
    ensures Drained(run[n].db, b)
    ensures forall k :: k in run[n].db.rows && k.block == b && k.kind == LnDust ==> run[n].db.rows[k].status != Pending
  {
    RunClosing(c, run, n);
    RunInv(c, run, n);
    var db := run[n].db;
    forall k | k in db.rows && k.block == b && k.kind == LnDust ensures db.rows[k].status != Pending {
      assert Owed(db, k, db.rows[k].amount);
      assert k == DustKey(b, DustEntry(k.member, db.rows[k].amount));
    }
  }
}
