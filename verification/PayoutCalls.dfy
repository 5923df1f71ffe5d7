/** The paths on which a pending row gets paid: by a loop that holds it, or by a worker that comes to
    its block. */
module PayoutCalls {
  import opened PayoutTable
  import opened FanoutPass
  import opened PayoutProtocol
  import opened PayoutSafety
  import opened PayoutDropped
  import opened PayoutLines
  import opened PayoutPaths
  import D = FanoutDust
  import W = PayoutWorker

  // ----- a pending row gets paid -----

  ghost predicate IsPending(db: Db, k: Key) { IsPendingDust(db.rows, k, k.block) }

  /** A call for `k` lies on some path. */
  ghost predicate CanCall(c: Config, s: State, k: Key) {
    exists t :: CanReach(c, s, t) && Called(t.log, k)
  }

  lemma {:induction false} CallsLater(c: Config, s: State, t: State, k: Key)
    requires CanReach(c, s, t) && CanCall(c, t, k)
    ensures CanCall(c, s, k)
  {
    var u :| CanReach(c, t, u) && Called(u.log, k);
    Transitive(c, s, t, u);
  }

  lemma {:induction false} LooksAndCalls(c: Config, s: State, pid: PassId, i: nat, it: Item)
    requires pid in s.passes && i < |s.passes[pid].slots| && s.passes[pid].slots[i] == Looking(it)
    ensures CanCall(c, s, it.key)
  {
    SlotMoves(c, s, pid, i, Reply.Found);
    var t := AfterSlot(s, pid, i, SlotStep(s.db, Looking(it), Reply.Found).value);
    var call := Call(it.key, it.amount);
    assert t.log == s.log + [call] && t.log[|s.log|] == call;
    assert Called(t.log, it.key);
  }

  /** A loop about to claim the row wins it, looks up the member, and calls. */
  lemma {:induction false} ClaimsAndCalls(c: Config, s: State, pid: PassId, i: nat, it: Item)
    requires pid in s.passes && i < |s.passes[pid].slots| && s.passes[pid].slots[i] == Claiming(it)
    requires IsPending(s.db, it.key)
    ensures CanCall(c, s, it.key)
  {
    SlotMoves(c, s, pid, i, Ok);
    var t := AfterSlot(s, pid, i, SlotStep(s.db, Claiming(it), Ok).value);
    assert t.passes[pid].slots[i] == Looking(it);
    LooksAndCalls(c, t, pid, i, it);
    CallsLater(c, s, t, it.key);
  }

  lemma {:induction false} FreshPass(used: set<PassId>) returns (pid: PassId)
    ensures forall q :: q in used ==> q < pid
  {
    if used == {} {
      pid := 0;
    } else {
      var q :| q in used;
      var above := FreshPass(used - {q});
      pid := if above <= q then q + 1 else above;
      forall x | x in used ensures x < pid { if x != q { assert x in used - {q}; } }
    }
  }

  /** The pending rows of a block in an order that starts with `k`. */
  lemma {:induction false} ListedFirst(rows: map<Key, Row>, k: Key) returns (items: seq<Item>)
    requires IsPendingDust(rows, k, k.block)
    ensures ListsPending(rows, k.block, items) && items != [] && items[0].key == k
  {
    var b := k.block;
    var rest := (set x | x in rows && IsPendingDust(rows, x, b)) - {k};
    items := [Item(k, rows[k].amount)];
    while rest != {}
      invariant items != [] && items[0].key == k
      invariant forall x :: x in rest ==> IsPendingDust(rows, x, b)
      invariant forall it :: it in items ==>
        IsPendingDust(rows, it.key, b) && it.amount == rows[it.key].amount && it.key !in rest
      invariant forall x :: IsPendingDust(rows, x, b) ==> x in rest || Item(x, rows[x].amount) in items
      invariant forall i, j :: 0 <= i < j < |items| ==> items[i].key != items[j].key
      decreases |rest|
    {
      var x :| x in rest;
      items, rest := items + [Item(x, rows[x].amount)], rest - {x};
    }
  }

  /** The state after a pass over `items` was opened. */
  function Opened(c: Config, s: State, p: Proc, b: BlockId, ms: seq<BlockId>, items: seq<Item>, pid: PassId): State {
    At(s.(passes := s.passes[pid := StartPass(b, items, c.concurrency)], owner := s.owner[pid := p]),
       p, Awaiting(pid, b, ms))
  }

  lemma {:induction false} Opens(c: Config, s: State, p: Proc, b: BlockId, ms: seq<BlockId>, items: seq<Item>,
                                 pid: PassId)
    requires pid !in s.passes && ListsPending(s.db.rows, b, items)
    ensures CanReach(c, At(s, p, Reading(b, ms)), Opened(c, s, p, b, ms, items, pid))
  {
    var from := At(s, p, Reading(b, ms));
    var o := MainStep(c, from, Reading(b, ms), Items(items, pid)).value;
    AtTwice(s, p, Reading(b, ms), Awaiting(pid, b, ms));
    assert from.seen + {} == from.seen;
    assert AfterMain(from, p, o) == Opened(c, s, p, b, ms, items, pid);
    Reaches(c, from, Opened(c, s, p, b, ms, items, pid), MainAct(p, Items(items, pid)));
  }

  lemma {:induction false} ReadingCalls(c: Config, s: State, p: Proc, ms: seq<BlockId>, k: Key)
    requires c.concurrency >= 1 && IsPending(s.db, k)
    ensures CanCall(c, At(s, p, Reading(k.block, ms)), k)
  {
    var items := ListedFirst(s.db.rows, k);
    var pid := FreshPass(s.passes.Keys);
    Opens(c, s, p, k.block, ms, items, pid);
    var t := Opened(c, s, p, k.block, ms, items, pid);
    assert t.passes[pid].slots[0] == Claiming(items[0]);
    ClaimsAndCalls(c, t, pid, 0, items[0]);
    CallsLater(c, At(s, p, Reading(k.block, ms)), t, k);
  }

  ghost predicate IsMatured(db: Db, b: BlockId) { b in db.blocks && db.blocks[b].status == Matured }

  lemma {:induction false} StartingCalls(c: Config, s: State, p: Proc, ms: seq<BlockId>, k: Key)
    requires c.concurrency >= 1 && IsPending(s.db, k) && IsMatured(s.db, k.block)
    ensures CanCall(c, At(s, p, Starting(k.block, ms)), k) && CanCall(c, At(s, p, Dialing(k.block, ms)), k)
  {
    Goes(c, s, p, Starting(k.block, ms), Go, Dialing(k.block, ms));
    Goes(c, s, p, Dialing(k.block, ms), Client(true), Reading(k.block, ms));
    ReadingCalls(c, s, p, ms, k);
    CallsLater(c, At(s, p, Dialing(k.block, ms)), At(s, p, Reading(k.block, ms)), k);
    CallsLater(c, At(s, p, Starting(k.block, ms)), At(s, p, Dialing(k.block, ms)), k);
  }

  lemma {:induction false} UpsertingCalls(c: Config, s: State, p: Proc, ws: seq<Write>, ms: seq<BlockId>, k: Key)
    requires c.concurrency >= 1 && IsPending(s.db, k) && IsMatured(s.db, k.block) && forall w :: w in ws ==> w.Upsert?
    ensures CanCall(c, At(s, p, Upserting(k.block, ws, ms)), k)
  {
    var t := s.(db := W.ApplyAll(s.db, ws));
    W.UpsertsAdd(s.db, ws);
    RecordsAll(c, s, p, k.block, ws, ms);
    StartingCalls(c, t, p, ms, k);
    CallsLater(c, At(s, p, Upserting(k.block, ws, ms)), At(t, p, Starting(k.block, ms)), k);
  }

  /** A block that is worked on can be got out of the way: without credentials its rows fail. */
  lemma {:induction false} Skips(c: Config, s: State, p: Proc, x: BlockId, ws: seq<Write>, ms: seq<BlockId>)
    requires IsMatured(s.db, x) && forall w :: w in ws ==> w.Upsert?
    ensures CanReach(c, At(s, p, Upserting(x, ws, ms)),
      At(s.(db := Apply(W.ApplyAll(s.db, ws), FailPending(x))), p, Fanning(ms)))
    ensures CanReach(c, At(s, p, Starting(x, ms)), At(s.(db := Apply(s.db, FailPending(x))), p, Fanning(ms)))
  {
    W.UpsertsAdd(s.db, ws);
    RecordsAll(c, s, p, x, ws, ms);
    SkipsStarted(c, s, p, x, ms);
    SkipsStarted(c, s.(db := W.ApplyAll(s.db, ws)), p, x, ms);
    Transitive(c, At(s, p, Upserting(x, ws, ms)), At(s.(db := W.ApplyAll(s.db, ws)), p, Starting(x, ms)),
               At(s.(db := Apply(W.ApplyAll(s.db, ws), FailPending(x))), p, Fanning(ms)));
  }

  lemma {:induction false} SkipsStarted(c: Config, s: State, p: Proc, x: BlockId, ms: seq<BlockId>)
    requires IsMatured(s.db, x)
    ensures CanReach(c, At(s, p, Starting(x, ms)), At(s.(db := Apply(s.db, FailPending(x))), p, Fanning(ms)))
    ensures CanReach(c, At(s, p, Dialing(x, ms)), At(s.(db := Apply(s.db, FailPending(x))), p, Fanning(ms)))
  {
    var t := At(s.(db := Apply(s.db, FailPending(x))), p, Fanning(ms));
    Goes(c, s, p, Starting(x, ms), Go, Dialing(x, ms));
    Goes(c, s, p, Dialing(x, ms), Client(false), FailingAll(x, ms));
    Writes(c, s, p, FailingAll(x, ms), FailPending(x), Fanning(ms));
    Transitive(c, At(s, p, Dialing(x, ms)), At(s, p, FailingAll(x, ms)), t);
    Transitive(c, At(s, p, Starting(x, ms)), At(s, p, Dialing(x, ms)), t);
  }

  /** The block is in the line, behind nothing but matured blocks. */
  ghost predicate UpTo(db: Db, ms: seq<BlockId>, b: BlockId) {
    ms != [] && IsMatured(db, ms[0]) && (ms[0] == b || UpTo(db, ms[1..], b))
  }

  lemma {:induction false} UpToStable(db: Db, later: Db, ms: seq<BlockId>, b: BlockId)
    requires UpTo(db, ms, b) && forall y :: y in ms && IsMatured(db, y) ==> IsMatured(later, y)
    ensures UpTo(later, ms, b)
  {
    assert ms[0] in ms;
    if ms[0] != b {
      assert forall y :: y in ms[1..] ==> y in ms;
      UpToStable(db, later, ms[1..], b);
    }
  }

  /** A worker with the block anywhere in its line of matured blocks. */
  lemma {:induction false} FanningCalls(c: Config, s: State, p: Proc, ms: seq<BlockId>, k: Key)
    requires c.concurrency >= 1 && IsPending(s.db, k) && UpTo(s.db, ms, k.block)
    ensures CanCall(c, At(s, p, Fanning(ms)), k)
    decreases |ms|, 0
  {
    var x := ms[0];
    var ws := Upserts(x, s.db.blocks[x].snapshot);
    UpsertsAre(x, s.db.blocks[x].snapshot);
    Goes(c, s, p, Fanning(ms), Go, Upserting(x, ws, ms[1..]));
    if x == k.block {
      UpsertingCalls(c, s, p, ws, ms[1..], k);
    } else {
      BehindCalls(c, s, p, x, ws, ms[1..], k);
    }
    CallsLater(c, At(s, p, Fanning(ms)), At(s, p, Upserting(x, ws, ms[1..])), k);
  }

  lemma {:induction false} UpsertsAre(b: BlockId, snap: Snapshot)
    ensures forall w :: w in Upserts(b, snap) ==> w.Upsert?
  {
    OnChainUpsertsAre(b, FlatOutputs(snap));
    DustUpsertsAre(b, Breakdown(snap));
  }

  /** Skipping another block leaves the row pending and the line matured. */
  lemma {:induction false} SkippingKeeps(db: Db, x: BlockId, ws: seq<Write>, ms: seq<BlockId>, k: Key)
    requires IsPending(db, k) && x != k.block && UpTo(db, ms, k.block) && forall w :: w in ws ==> w.Upsert?
    ensures var later := Apply(W.ApplyAll(db, ws), FailPending(x)); IsPending(later, k) && UpTo(later, ms, k.block)
  {
    W.UpsertsAdd(db, ws);
    UpToStable(db, Apply(W.ApplyAll(db, ws), FailPending(x)), ms, k.block);
  }

  lemma {:induction false} BehindCalls(c: Config, s: State, p: Proc, x: BlockId, ws: seq<Write>, ms: seq<BlockId>,
                                       k: Key)
    requires c.concurrency >= 1 && IsPending(s.db, k) && x != k.block && IsMatured(s.db, x)
    requires UpTo(s.db, ms, k.block) && forall w :: w in ws ==> w.Upsert?
    ensures CanCall(c, At(s, p, Upserting(x, ws, ms)), k)
    decreases |ms|, 1
  {
    var t := s.(db := Apply(W.ApplyAll(s.db, ws), FailPending(x)));
    Skips(c, s, p, x, ws, ms);
    SkippingKeeps(s.db, x, ws, ms, k);
    FanningCalls(c, t, p, ms, k);
    CallsLater(c, At(s, p, Upserting(x, ws, ms)), At(t, p, Fanning(ms)), k);
  }

  lemma {:induction false} FailingCalls(c: Config, s: State, p: Proc, x: BlockId, ms: seq<BlockId>, k: Key)
    requires c.concurrency >= 1 && IsPending(s.db, k) && x != k.block && UpTo(s.db, ms, k.block)
    ensures CanCall(c, At(s, p, FailingAll(x, ms)), k)
  {
    var t := s.(db := Apply(s.db, FailPending(x)));
    SkippingKeeps(s.db, x, [], ms, k);
    FanningCalls(c, t, p, ms, k);
    Writes(c, s, p, FailingAll(x, ms), FailPending(x), Fanning(ms));
    CallsLater(c, At(s, p, FailingAll(x, ms)), At(t, p, Fanning(ms)), k);
  }

  lemma {:induction false} BehindStartedCalls(c: Config, s: State, p: Proc, x: BlockId, ms: seq<BlockId>, k: Key)
    requires c.concurrency >= 1 && IsPending(s.db, k) && x != k.block && UpTo(s.db, ms, k.block)
    ensures CanCall(c, At(s, p, Dialing(x, ms)), k) && CanCall(c, At(s, p, FailingAll(x, ms)), k)
    ensures IsMatured(s.db, x) ==> CanCall(c, At(s, p, Starting(x, ms)), k)
  {
    FailingCalls(c, s, p, x, ms, k);
    Goes(c, s, p, Dialing(x, ms), Client(false), FailingAll(x, ms));
    CallsLater(c, At(s, p, Dialing(x, ms)), At(s, p, FailingAll(x, ms)), k);
    if IsMatured(s.db, x) {
      Goes(c, s, p, Starting(x, ms), Go, Dialing(x, ms));
      CallsLater(c, At(s, p, Starting(x, ms)), At(s, p, Dialing(x, ms)), k);
    }
  }

  lemma {:induction false} ClosingCalls(c: Config, s: State, p: Proc, x: BlockId, ms: seq<BlockId>, k: Key)
    requires c.concurrency >= 1 && IsPending(s.db, k) && x !in ms && UpTo(s.db, ms, k.block)
    ensures CanCall(c, At(s, p, Closing(x, ms)), k)
  {
    var t := s.(db := Apply(s.db, SetStatus(x, DustFannedOut)));
    Writes(c, s, p, Closing(x, ms), SetStatus(x, DustFannedOut), Fanning(ms));
    UpToStable(s.db, t.db, ms, k.block);
    FanningCalls(c, t, p, ms, k);
    CallsLater(c, At(s, p, Closing(x, ms)), At(t, p, Fanning(ms)), k);
  }

  lemma {:induction false} WatchingCalls(c: Config, s: State, p: Proc, cands: seq<BlockId>, ms: seq<BlockId>, k: Key)
    requires c.concurrency >= 1 && IsPending(s.db, k) && UpTo(s.db, ms, k.block)
    ensures CanCall(c, At(s, p, Watching(cands, ms)), k)
    decreases |cands|
  {
    if cands == [] {
      Goes(c, s, p, Watching(cands, ms), Go, Fanning(ms));
      FanningCalls(c, s, p, ms, k);
      CallsLater(c, At(s, p, Watching(cands, ms)), At(s, p, Fanning(ms)), k);
    } else {
      Goes(c, s, p, Watching(cands, ms), Error, Watching(cands[1..], ms));
      WatchingCalls(c, s, p, cands[1..], ms, k);
      CallsLater(c, At(s, p, Watching(cands, ms)), At(s, p, Watching(cands[1..], ms)), k);
    }
  }

  // ----- a drain loop works its way to the row -----

  /** A reply with which the loop gives its item up soonest. */
  function Quickest(p: Phase): Reply {
    match p
    case Looking(_) => Absent
    case Paying(_) => Refused
    case _ => Ok
  }

  lemma {:induction false} QuickestSteps(db: Db, p: Phase, k: Key)
    requires D.Active(p) && p.item.key != k && IsPending(db, k)
    ensures SlotStep(db, p, Quickest(p)).Some?
    ensures var o := SlotStep(db, p, Quickest(p)).value;
      IsPending(o.db, k) && (o.after.Stay? ==> D.Active(o.after.phase) && D.Weight(o.after.phase) < D.Weight(p))
  {}

  lemma {:induction false} AdvanceKeepsClaim(pass: Pass, i: nat, o: SlotOut, k: Key)
    requires i < |pass.slots| && LoopHolds(pass, i, k) && pass.slots[i].item.key != k
    requires o.after.Stay? ==> D.Active(o.after.phase)
    ensures LoopHolds(Settle(pass, i, o), i, k)
    ensures o.after.Free? ==> |Settle(pass, i, o).queue| < |pass.queue|
    ensures o.after.Stay? ==> Settle(pass, i, o).queue == pass.queue && Settle(pass, i, o).slots[i] == o.after.phase
  {}

  /** The row stays pending until the loop that holds it comes to it. */
  lemma {:induction false} LoopCalls(c: Config, s: State, pid: PassId, i: nat, k: Key)
    requires Inv(s) && IsPending(s.db, k) && pid in s.passes && i < |s.passes[pid].slots|
      && LoopHolds(s.passes[pid], i, k)
    ensures CanCall(c, s, k)
    decreases |s.passes[pid].queue|, D.Weight(s.passes[pid].slots[i])
  {
    var pass := s.passes[pid];
    var p := pass.slots[i];
    assert PhaseOk(s.db, pass.block, p);
    if p.item.key == k {
      ClaimsAndCalls(c, s, pid, i, p.item);
    } else {
      QuickestSteps(s.db, p, k);
      var o := SlotStep(s.db, p, Quickest(p)).value;
      AdvanceKeepsClaim(pass, i, o, k);
      SlotMoves(c, s, pid, i, Quickest(p));
      SlotActOk(s, pid, i, Quickest(p));
      LoopCalls(c, AfterSlot(s, pid, i, o), pid, i, k);
      CallsLater(c, s, AfterSlot(s, pid, i, o), k);
    }
  }

  // ----- a pass over another block runs to its end -----

  ghost predicate OfBlock(pass: Pass) {
    && (forall it :: it in pass.queue ==> it.key.block == pass.block)
    && (forall i :: 0 <= i < |pass.slots| && D.Active(pass.slots[i]) ==> pass.slots[i].item.key.block == pass.block)
  }

  lemma {:induction false} PassIsOfBlock(db: Db, pass: Pass)
    requires PassOk(db, pass)
    ensures OfBlock(pass)
  {
    forall i | 0 <= i < |pass.slots| && D.Active(pass.slots[i])
      ensures pass.slots[i].item.key.block == pass.block
    {
      assert PhaseOk(db, pass.block, pass.slots[i]);
    }
  }

  /** Only rows of the block may differ. */
  ghost predicate OnlyRowsOf(db: Db, later: Db, b: BlockId) {
    && later.blocks == db.blocks
    && forall k :: k in db.rows && k.block != b ==> k in later.rows && later.rows[k] == db.rows[k]
  }

  lemma {:induction false} QuickStep(db: Db, p: Phase)
    requires D.Active(p)
    ensures SlotStep(db, p, Quickest(p)).Some?
    ensures var o := SlotStep(db, p, Quickest(p)).value;
      OnlyRowsOf(db, o.db, p.item.key.block)
      && (o.after.Stay? ==> D.Active(o.after.phase) && o.after.phase.item == p.item)
  {}

  lemma {:induction false} SettleOfBlock(pass: Pass, i: nat, o: SlotOut)
    requires i < |pass.slots| && D.Active(pass.slots[i]) && OfBlock(pass) && !AnyBroken(pass)
    requires o.after.Stay? ==> D.Active(o.after.phase) && o.after.phase.item == pass.slots[i].item
    ensures OfBlock(Settle(pass, i, o)) && !AnyBroken(Settle(pass, i, o))
  {
    var next := Settle(pass, i, o);
    forall j | 0 <= j < |next.slots| ensures !next.slots[j].Broken? {
      if j != i { assert next.slots[j] == pass.slots[j]; }
    }
    forall j | 0 <= j < |next.slots| && D.Active(next.slots[j]) ensures next.slots[j].item.key.block == pass.block {
      if j != i { assert next.slots[j] == pass.slots[j]; }
    }
  }

  lemma {:induction false} RunsOut(c: Config, s: State, pid: PassId) returns (t: State)
    requires pid in s.passes && OfBlock(s.passes[pid]) && !AnyBroken(s.passes[pid])
    ensures CanReach(c, s, t) && t.mains == s.mains && OnlyRowsOf(s.db, t.db, s.passes[pid].block)
    ensures pid in t.passes && AllDone(t.passes[pid]) && !AnyBroken(t.passes[pid])
    decreases D.Work(s.passes[pid])
  {
    var pass := s.passes[pid];
    if AllDone(pass) {
      Stays(c, s);
      t := s;
    } else {
      var i :| 0 <= i < |pass.slots| && !pass.slots[i].Done?;
      var p := pass.slots[i];
      QuickStep(s.db, p);
      var o := SlotStep(s.db, p, Quickest(p)).value;
      SettleOfBlock(pass, i, o);
      D.EveryStepShrinksWork(s.db, pass, i, Quickest(p));
      SlotMoves(c, s, pid, i, Quickest(p));
      t := RunsOut(c, AfterSlot(s, pid, i, o), pid);
      Transitive(c, s, AfterSlot(s, pid, i, o), t);
    }
  }

  lemma {:induction false} AwaitingCalls(c: Config, s: State, p: Proc, pid: PassId, x: BlockId, ms: seq<BlockId>,
                                         k: Key)
    requires c.concurrency >= 1 && IsPending(s.db, k) && x !in ms && x != k.block && UpTo(s.db, ms, k.block)
    requires pid in s.passes && OfBlock(s.passes[pid]) && !AnyBroken(s.passes[pid]) && s.passes[pid].block == x
    ensures CanCall(c, At(s, p, Awaiting(pid, x, ms)), k)
  {
    var from := At(s, p, Awaiting(pid, x, ms));
    var t := RunsOut(c, from, pid);
    InPlace(t, p);
    UpToStable(s.db, t.db, ms, k.block);
    AwaitedCalls(c, t, p, pid, x, ms, k);
    CallsLater(c, from, t, k);
  }

  lemma {:induction false} AwaitedCalls(c: Config, s: State, p: Proc, pid: PassId, x: BlockId, ms: seq<BlockId>, k: Key)
    requires c.concurrency >= 1 && IsPending(s.db, k) && x !in ms && UpTo(s.db, ms, k.block)
    requires pid in s.passes && AllDone(s.passes[pid]) && !AnyBroken(s.passes[pid])
    ensures CanCall(c, At(s, p, Awaiting(pid, x, ms)), k)
  {
    var from := At(s, p, Awaiting(pid, x, ms));
    if s.passes[pid].failed == 0 {
      Goes(c, s, p, Awaiting(pid, x, ms), Go, Closing(x, ms));
      ClosingCalls(c, s, p, x, ms, k);
      CallsLater(c, from, At(s, p, Closing(x, ms)), k);
    } else {
      Goes(c, s, p, Awaiting(pid, x, ms), Go, Fanning(ms));
      FanningCalls(c, s, p, ms, k);
      CallsLater(c, from, At(s, p, Fanning(ms)), k);
    }
  }

  /** The pending rows of a block, in some order. */
  lemma {:induction false} Listed(rows: map<Key, Row>, b: BlockId) returns (items: seq<Item>)
    ensures ListsPending(rows, b, items)
  {
    if k :| IsPendingDust(rows, k, b) {
      items := ListedFirst(rows, k);
    } else {
      items := [];
    }
  }

  lemma {:induction false} FreshIsOfBlock(db: Db, b: BlockId, items: seq<Item>, concurrency: nat)
    requires ListsPending(db.rows, b, items)
    ensures var pass := StartPass(b, items, concurrency); OfBlock(pass) && !AnyBroken(pass) && pass.block == b
  {
    var pass := StartPass(b, items, concurrency);
    forall it | it in pass.queue ensures it.key.block == b { assert it in items; }
    forall i | 0 <= i < |pass.slots| ensures pass.slots[i].item.key.block == b { assert items[i] in items; }
  }

  lemma {:induction false} ReadingOnCalls(c: Config, s: State, p: Proc, x: BlockId, ms: seq<BlockId>, k: Key)
    requires c.concurrency >= 1 && IsPending(s.db, k) && x !in ms && x != k.block && UpTo(s.db, ms, k.block)
    ensures CanCall(c, At(s, p, Reading(x, ms)), k)
  {
    var items := Listed(s.db.rows, x);
    var pid := FreshPass(s.passes.Keys);
    var t := s.(passes := s.passes[pid := StartPass(x, items, c.concurrency)], owner := s.owner[pid := p]);
    Opens(c, s, p, x, ms, items, pid);
    FreshIsOfBlock(s.db, x, items, c.concurrency);
    AwaitingCalls(c, t, p, pid, x, ms, k);
    CallsLater(c, At(s, p, Reading(x, ms)), At(t, p, Awaiting(pid, x, ms)), k);
  }

  // ----- a worker comes to the block -----

  ghost predicate AllMatured(db: Db, ms: seq<BlockId>) { forall x :: x in ms ==> IsMatured(db, x) }

  lemma {:induction false} UpToLast(db: Db, ms: seq<BlockId>, b: BlockId)
    requires AllMatured(db, ms) && IsMatured(db, b)
    ensures UpTo(db, ms + [b], b)
  {
    if ms != [] {
      assert (ms + [b])[1..] == ms[1..] + [b];
      UpToLast(db, ms[1..], b);
    }
  }

  function Marked(s: State, b: BlockId): State { s.(db := Apply(s.db, SetStatus(b, Matured)), seen := s.seen + {b}) }

  /** The node reports the first candidate mature. */
  lemma {:induction false} Confirms(c: Config, s: State, p: Proc, cands: seq<BlockId>, ms: seq<BlockId>)
    requires cands != []
    ensures CanReach(c, At(s, p, Watching(cands, ms)),
                     At(s.(seen := s.seen + {cands[0]}), p, Marking(cands[0], Matured, false, cands[1..], ms)))
  {
    var from, m := At(s, p, Watching(cands, ms)), Marking(cands[0], Matured, false, cands[1..], ms);
    var n := if c.maturityConfs >= 0 then c.maturityConfs else 0;
    var o := MainStep(c, from, Watching(cands, ms), Confirmations(n)).value;
    AtTwice(s, p, Watching(cands, ms), m);
    assert AfterMain(from, p, o) == At(s.(seen := s.seen + {cands[0]}), p, m);
    Reaches(c, from, At(s.(seen := s.seen + {cands[0]}), p, m), MainAct(p, Confirmations(n)));
  }

  /** The first candidate is promoted. */
  lemma {:induction false} Promotes(c: Config, s: State, p: Proc, cands: seq<BlockId>, ms: seq<BlockId>)
    requires cands != []
    ensures CanReach(c, At(s, p, Watching(cands, ms)),
                     At(Marked(s, cands[0]), p, Watching(cands[1..], ms + [cands[0]])))
  {
    var b, t := cands[0], s.(seen := s.seen + {cands[0]});
    Confirms(c, s, p, cands, ms);
    Writes(c, t, p, Marking(b, Matured, false, cands[1..], ms), SetStatus(b, Matured), Watching(cands[1..], ms + [b]));
    Transitive(c, At(s, p, Watching(cands, ms)), At(t, p, Marking(b, Matured, false, cands[1..], ms)),
               At(Marked(s, b), p, Watching(cands[1..], ms + [b])));
  }

  /** A candidate that another worker has promoted already. */
  lemma {:induction false} CandidateCalls(c: Config, s: State, p: Proc, cands: seq<BlockId>, ms: seq<BlockId>, k: Key)
    requires c.concurrency >= 1 && IsPending(s.db, k) && IsMatured(s.db, k.block)
    requires k.block in cands && AllMatured(s.db, ms)
    ensures CanCall(c, At(s, p, Watching(cands, ms)), k)
    decreases |cands|
  {
    var from := At(s, p, Watching(cands, ms));
    if cands[0] == k.block {
      var t := Marked(s, k.block);
      Promotes(c, s, p, cands, ms);
      UpToLast(t.db, ms, k.block);
      WatchingCalls(c, t, p, cands[1..], ms + [k.block], k);
      CallsLater(c, from, At(t, p, Watching(cands[1..], ms + [k.block])), k);
    } else {
      Goes(c, s, p, Watching(cands, ms), Error, Watching(cands[1..], ms));
      CandidateCalls(c, s, p, cands[1..], ms, k);
      CallsLater(c, from, At(s, p, Watching(cands[1..], ms)), k);
    }
  }

  /** From a marking the worker gets back to its candidates: a promotion is written, an orphaning
      is lost unless it is the one whose loss ends the tick. */
  lemma {:induction false} Marks(c: Config, s: State, p: Proc, x: BlockId, mark: BlockStatus, caught: bool,
                                 cands: seq<BlockId>, ms: seq<BlockId>) returns (t: State)
    requires mark in {Matured, Orphaned}
    ensures CanReach(c, At(s, p, Marking(x, mark, caught, cands, ms)),
                     At(t, p, Watching(cands, if mark == Matured then ms + [x] else ms)))
    ensures t.mains == s.mains && t.passes == s.passes && t.log == s.log && s.limbo <= t.limbo
    ensures t.db == if mark == Orphaned && !caught then s.db else Apply(s.db, SetStatus(x, mark))
  {
    var m := Marking(x, mark, caught, cands, ms);
    if mark == Orphaned && !caught {
      Loses(c, s, p, m, SetStatus(x, mark), Watching(cands, ms));
      t := s.(limbo := s.limbo + {SetStatus(x, mark)});
    } else {
      Writes(c, s, p, m, SetStatus(x, mark), Watching(cands, if mark == Matured then ms + [x] else ms));
      t := s.(db := Apply(s.db, SetStatus(x, mark)));
    }
  }

  lemma {:induction false} UpToMore(db: Db, ms: seq<BlockId>, x: BlockId, b: BlockId)
    requires UpTo(db, ms, b)
    ensures UpTo(db, ms + [x], b)
  {
    assert (ms + [x])[1..] == ms[1..] + [x];
    if ms[0] != b { UpToMore(db, ms[1..], x, b); }
  }

  lemma {:induction false} MarkingCalls(c: Config, s: State, p: Proc, x: BlockId, mark: BlockStatus, caught: bool,
                                        cands: seq<BlockId>, ms: seq<BlockId>, k: Key)
    requires c.concurrency >= 1 && IsPending(s.db, k) && IsMatured(s.db, k.block) && mark in {Matured, Orphaned}
    requires x in s.db.blocks && x !in cands && x !in ms
    requires UpTo(s.db, ms, k.block)
      || ((k.block in cands || (k.block == x && mark == Matured)) && AllMatured(s.db, ms))
    ensures CanCall(c, At(s, p, Marking(x, mark, caught, cands, ms)), k)
  {
    var t := Marks(c, s, p, x, mark, caught, cands, ms);
    var line := if mark == Matured then ms + [x] else ms;
    if UpTo(s.db, ms, k.block) {
      UpToStable(s.db, t.db, ms, k.block);
      if mark == Matured { UpToMore(t.db, ms, x, k.block); }
      WatchingCalls(c, t, p, cands, line, k);
    } else if k.block in cands {
      CandidateCalls(c, t, p, cands, line, k);
    } else {
      UpToLast(t.db, ms, k.block);
      WatchingCalls(c, t, p, cands, line, k);
    }
    CallsLater(c, At(s, p, Marking(x, mark, caught, cands, ms)), At(t, p, Watching(cands, line)), k);
  }

  /** Nothing stands between the main function and the block. */
  ghost predicate Clear(s: State, m: Main, b: BlockId) {
    match m
    case Watching(cands, ms) => UpTo(s.db, ms, b) || (b in cands && AllMatured(s.db, ms))
    case Marking(x, mark, _, cands, ms) =>
      UpTo(s.db, ms, b) || ((b in cands || (b == x && mark == Matured)) && AllMatured(s.db, ms))
    case Fanning(ms) => UpTo(s.db, ms, b)
    case Upserting(x, _, ms) => IsMatured(s.db, x) && (x == b || UpTo(s.db, ms, b))
    case Starting(x, ms) => IsMatured(s.db, x) && (x == b || UpTo(s.db, ms, b))
    case Dialing(x, ms) => x == b || UpTo(s.db, ms, b)
    case Reading(x, ms) => x == b || UpTo(s.db, ms, b)
    case FailingAll(_, ms) => UpTo(s.db, ms, b)
    case Awaiting(pid, _, ms) => pid in s.passes && !AnyBroken(s.passes[pid]) && UpTo(s.db, ms, b)
    case Closing(_, ms) => UpTo(s.db, ms, b)
    case _ => false
  }

  lemma {:induction false} UpToHas(db: Db, ms: seq<BlockId>, b: BlockId)
    requires UpTo(db, ms, b)
    ensures b in ms
  {
    if ms[0] != b {
      UpToHas(db, ms[1..], b);
      assert forall y :: y in ms[1..] ==> y in ms;
    }
  }

  lemma {:induction false} ClearCalls(c: Config, s: State, p: Proc, k: Key)
    requires c.concurrency >= 1 && IsPending(s.db, k) && IsMatured(s.db, k.block) && Inv(s)
    requires p in s.mains && Tidy(s.db, s.mains[p]) && Clear(s, s.mains[p], k.block)
    requires s.mains[p].Awaiting? ==> s.mains[p].pass in s.passes && s.passes[s.mains[p].pass].block == s.mains[p].block
    ensures CanCall(c, s, k)
  {
    var m := s.mains[p];
    if m.Watching? || m.Marking? || m.Fanning? || m.Upserting? {
      assert MainOk(s.db, s.seen, m);
      ComingCalls(c, s, p, k);
    } else {
      WorkingCalls(c, s, p, k);
    }
  }

  lemma {:induction false} ComingCalls(c: Config, s: State, p: Proc, k: Key)
    requires c.concurrency >= 1 && IsPending(s.db, k) && IsMatured(s.db, k.block)
    requires p in s.mains && Tidy(s.db, s.mains[p]) && Clear(s, s.mains[p], k.block) && MainOk(s.db, s.seen, s.mains[p])
    requires var m := s.mains[p]; m.Watching? || m.Marking? || m.Fanning? || m.Upserting?
    ensures CanCall(c, s, k)
  {
    InPlace(s, p);
    match s.mains[p]
    case Watching(cands, ms) =>
      if UpTo(s.db, ms, k.block) {
        WatchingCalls(c, s, p, cands, ms, k);
      } else {
        CandidateCalls(c, s, p, cands, ms, k);
      }
    case Marking(x, mark, caught, cands, ms) => MarkingCalls(c, s, p, x, mark, caught, cands, ms, k);
    case Fanning(ms) => FanningCalls(c, s, p, ms, k);
    case Upserting(x, ws, ms) =>
      if x == k.block { UpsertingCalls(c, s, p, ws, ms, k); } else { BehindCalls(c, s, p, x, ws, ms, k); }
  }

  lemma {:induction false} WorkingCalls(c: Config, s: State, p: Proc, k: Key)
    requires c.concurrency >= 1 && IsPending(s.db, k) && IsMatured(s.db, k.block) && Inv(s)
    requires p in s.mains && Tidy(s.db, s.mains[p]) && Clear(s, s.mains[p], k.block)
    requires var m := s.mains[p];
      m.Starting? || m.Dialing? || m.Reading? || m.FailingAll? || m.Closing?
      || (m.Awaiting? && m.pass in s.passes && s.passes[m.pass].block == m.block)
    ensures CanCall(c, s, k)
  {
    InPlace(s, p);
    var m := s.mains[p];
    var x, ms := m.block, m.matured;
    if UpTo(s.db, ms, k.block) { UpToHas(s.db, ms, k.block); }
    match m
    case Starting(_, _) =>
      if x == k.block { StartingCalls(c, s, p, ms, k); } else { BehindStartedCalls(c, s, p, x, ms, k); }
    case Dialing(_, _) =>
      if x == k.block { StartingCalls(c, s, p, ms, k); } else { BehindStartedCalls(c, s, p, x, ms, k); }
    case Reading(_, _) => if x == k.block { ReadingCalls(c, s, p, ms, k); } else { ReadingOnCalls(c, s, p, x, ms, k); }
    case FailingAll(_, _) => BehindStartedCalls(c, s, p, x, ms, k);
    case Closing(_, _) => ClosingCalls(c, s, p, x, ms, k);
    case Awaiting(pid, _, _) =>
      PassIsOfBlock(s.db, s.passes[pid]);
      AwaitingCalls(c, s, p, pid, x, ms, k);
  }
}
