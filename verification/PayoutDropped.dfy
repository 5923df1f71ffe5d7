/** Blocks that no worker has in hand any more: when a tick that dies leaves one behind, and that it
    is never paid again. */
module PayoutDropped {
  import opened Shared
  import opened PayoutTable
  import opened FanoutPass
  import opened PayoutProtocol
  import opened PayoutSafety
  import D = FanoutDust

  // ----- in hand -----

  /** The main function has the fan-out of the block still ahead of it. */
  ghost predicate Holds(m: Main, b: BlockId) {
    match m
    case Watching(cands, ms) => b in cands || b in ms
    case Marking(x, mark, _, cands, ms) => (b == x && mark == Matured) || b in cands || b in ms
    case Fanning(ms) => b in ms
    case Upserting(x, _, ms) => b == x || b in ms
    case Starting(x, ms) => b == x || b in ms
    case Dialing(x, ms) => b == x || b in ms
    case Reading(x, ms) => b == x || b in ms
    case FailingAll(_, ms) => b in ms
    case Awaiting(_, _, ms) => b in ms
    case Closing(_, ms) => b in ms
    case _ => false
  }

  ghost predicate Queued(pass: Pass, k: Key) { exists it :: it in pass.queue && it.key == k }

  /** The loop has not ended and has the row's claim or call still ahead of it. */
  ghost predicate LoopHolds(pass: Pass, i: nat, k: Key)
    requires i < |pass.slots|
  {
    var p := pass.slots[i];
    D.Active(p) && (((p.Claiming? || p.Looking?) && p.item.key == k) || Queued(pass, k))
  }

  ghost predicate InLoop(s: State, k: Key) {
    exists pid, i :: pid in s.passes && 0 <= i < |s.passes[pid].slots| && LoopHolds(s.passes[pid], i, k)
  }

  /** A row is in hand while a live worker's main function holds its block or a loop holds the row. */
  ghost predicate InHand(s: State, k: Key) {
    (exists p :: p in s.mains && Holds(s.mains[p], k.block)) || InLoop(s, k)
  }

  ghost predicate LeftFound(db: Db, b: BlockId) { b in db.blocks && db.blocks[b].status != BlockStatus.Found }

  /** The block left FOUND and none of its rows is in hand. */
  ghost predicate Dropped(s: State, b: BlockId) {
    LeftFound(s.db, b) && forall k: Key :: k.block == b ==> !InHand(s, k)
  }

  // ----- loops -----

  lemma {:induction false} NotQueuedLater(pass: Pass, i: nat, o: SlotOut, k: Key)
    requires i < |pass.slots| && !Queued(pass, k)
    ensures !Queued(Settle(pass, i, o), k)
  {
    forall it | it in Settle(pass, i, o).queue ensures it.key != k { assert it in pass.queue; }
  }

  /** A loop that moves takes hold of no row that its pass did not hold before. */
  lemma {:induction false} SettleHolds(pass: Pass, i: nat, o: SlotOut, k: Key, j: nat)
    requires i < |pass.slots| && D.Outcome(pass.slots[i], o) && j < |Settle(pass, i, o).slots|
    requires forall n: nat :: n < |pass.slots| ==> !LoopHolds(pass, n, k)
    ensures !LoopHolds(Settle(pass, i, o), j, k)
  {
    assert !LoopHolds(pass, i, k) && !Queued(pass, k);
    NotQueuedLater(pass, i, o, k);
    if j != i { assert Settle(pass, i, o).slots[j] == pass.slots[j] && !LoopHolds(pass, j, k); }
    if o.after.Free? && pass.queue != [] { assert pass.queue[0] in pass.queue; }
  }

  lemma {:induction false} SlotKeepsAway(s: State, pid: PassId, i: nat, r: Reply, k: Key)
    requires !InLoop(s, k) && pid in s.passes && i < |s.passes[pid].slots|
    requires SlotStep(s.db, s.passes[pid].slots[i], r).Some?
    ensures var o := SlotStep(s.db, s.passes[pid].slots[i], r).value;
      !InLoop(AfterSlot(s, pid, i, o), k) && forall call :: call in o.calls ==> call.key != k
  {
    var pass := s.passes[pid];
    var o := SlotStep(s.db, pass.slots[i], r).value;
    var t := AfterSlot(s, pid, i, o);
    D.StepOutcome(s.db, pass.slots[i], r);
    assert !LoopHolds(pass, i, k);
    forall q, j | q in t.passes && 0 <= j < |t.passes[q].slots| ensures !LoopHolds(t.passes[q], j, k) {
      if q == pid { SettleHolds(pass, i, o, k, j); } else { assert t.passes[q] == s.passes[q]; }
    }
  }

  /** A fresh pass holds rows of its own block only. */
  lemma {:induction false} StartHolds(db: Db, b: BlockId, items: seq<Item>, concurrency: nat, i: nat, k: Key)
    requires ListsPending(db.rows, b, items) && i < |StartPass(b, items, concurrency).slots| && k.block != b
    ensures !LoopHolds(StartPass(b, items, concurrency), i, k)
  {
    forall it | it in StartPass(b, items, concurrency).queue ensures it.key != k { assert it in items; }
    assert items[i] in items;
  }

  lemma {:induction false} MainOpens(c: Config, s: State, m: Main, ev: Event)
    requires MainStep(c, s, m, ev).Some? && MainStep(c, s, m, ev).value.started.Some?
    ensures m.Reading? && ev.Items? && ListsPending(s.db.rows, m.block, ev.items)
    ensures MainStep(c, s, m, ev).value.pass == StartPass(m.block, ev.items, c.concurrency)
  {}

  lemma {:induction false} MainKeepsAway(c: Config, s: State, p: Proc, m: Main, ev: Event, k: Key)
    requires !InLoop(s, k) && MainStep(c, s, m, ev).Some? && (m.Reading? ==> m.block != k.block)
    ensures !InLoop(AfterMain(s, p, MainStep(c, s, m, ev).value), k)
  {
    var o := MainStep(c, s, m, ev).value;
    var t := AfterMain(s, p, o);
    forall q, j | q in t.passes && 0 <= j < |t.passes[q].slots| ensures !LoopHolds(t.passes[q], j, k) {
      if o.started == Some(q) {
        MainOpens(c, s, m, ev);
        StartHolds(s.db, m.block, ev.items, c.concurrency, j, k);
      } else {
        assert t.passes[q] == s.passes[q];
      }
    }
  }

  lemma {:induction false} CrashKeepsAway(c: Config, s: State, s': State, p: Proc, left: set<Write>, k: Key)
    requires StepTo(c, s, s', Crash(p, left)) && !InLoop(s, k)
    ensures !InLoop(s', k)
  {
    forall q, j | q in s'.passes && 0 <= j < |s'.passes[q].slots| ensures !LoopHolds(s'.passes[q], j, k) {
      assert s'.passes[q] == s.passes[q];
    }
  }

  ghost predicate NoNewCall(s: State, s': State, k: Key) {
    forall call :: call in s'.log && call.key == k ==> call in s.log
  }

  /** No loop takes hold of a row again unless a main function reads its block, and without a loop
      the row is not called. */
  lemma {:induction false} StaysAway(c: Config, s: State, s': State, k: Key)
    requires Next(c, s, s') && !InLoop(s, k)
    requires forall p :: p in s.mains && s.mains[p].Reading? ==> s.mains[p].block != k.block
    ensures !InLoop(s', k) && NoNewCall(s, s', k)
  {
    var step :| StepTo(c, s, s', step);
    match step
    case MainAct(p, ev) => MainKeepsAway(c, s, p, if p in s.mains then s.mains[p] else Down, ev, k);
    case SlotAct(pid, i, r) => SlotKeepsAway(s, pid, i, r, k);
    case Crash(p, left) => CrashKeepsAway(c, s, s', p, left, k);
    case Land(_) =>
    case FindBlock(_, _) =>
  }

  // ----- main functions -----

  lemma {:induction false} HoldsKept(c: Config, s: State, m: Main, ev: Event, b: BlockId)
    requires MainStep(c, s, m, ev).Some? && !Holds(m, b) && LeftFound(s.db, b)
    ensures !Holds(MainStep(c, s, m, ev).value.main, b)
  {}

  lemma {:induction false} WriteKeepsLeft(db: Db, seen: set<BlockId>, w: Write, b: BlockId)
    requires WriteOk(db, seen, w) && LeftFound(db, b)
    ensures LeftFound(Apply(db, w), b)
  {}

  lemma {:induction false} MainKeepsLeft(c: Config, s: State, p: Proc, m: Main, ev: Event, b: BlockId)
    requires Inv(s) && MainOk(s.db, s.seen, m) && MainStep(c, s, m, ev).Some? && LeftFound(s.db, b)
    ensures LeftFound(AfterMain(s, p, MainStep(c, s, m, ev).value).db, b)
  {
    if MainStep(c, s, m, ev).value.write.Some? {
      MainWrites(c, s, m, ev);
      MainWriteOk(s.db, s.seen, m);
      WriteKeepsLeft(s.db, s.seen, MainWrite(m).value, b);
    }
  }

  lemma {:induction false} SlotKeepsLeft(s: State, pid: PassId, i: nat, r: Reply, b: BlockId)
    requires Inv(s) && pid in s.passes && i < |s.passes[pid].slots| && LeftFound(s.db, b)
    requires SlotStep(s.db, s.passes[pid].slots[i], r).Some?
    ensures LeftFound(SlotStep(s.db, s.passes[pid].slots[i], r).value.db, b)
  {
    var p := s.passes[pid].slots[i];
    assert PhaseOk(s.db, s.passes[pid].block, p);
    SlotEffect(s.db, p, r);
    if PhaseWrite(p).Some? {
      PhaseWriteOk(s.db, s.seen, s.passes[pid].block, p);
      WriteKeepsLeft(s.db, s.seen, PhaseWrite(p).value, b);
    }
  }

  lemma {:induction false} StaysLeft(c: Config, s: State, s': State, b: BlockId)
    requires Inv(s) && Next(c, s, s') && LeftFound(s.db, b)
    ensures LeftFound(s'.db, b)
  {
    var step :| StepTo(c, s, s', step);
    match step
    case MainAct(p, ev) => MainKeepsLeft(c, s, p, if p in s.mains then s.mains[p] else Down, ev, b);
    case SlotAct(pid, i, r) => SlotKeepsLeft(s, pid, i, r, b);
    case Land(w) => WriteKeepsLeft(s.db, s.seen, w, b);
    case Crash(_, _) =>
    case FindBlock(_, _) =>
  }

  ghost predicate HeldBySome(s: State, b: BlockId) { exists p :: p in s.mains && Holds(s.mains[p], b) }

  lemma {:induction false} StaysUnheld(c: Config, s: State, s': State, b: BlockId)
    requires Next(c, s, s') && LeftFound(s.db, b) && !HeldBySome(s, b)
    ensures !HeldBySome(s', b)
  {
    var step :| StepTo(c, s, s', step);
    forall q | q in s'.mains ensures !Holds(s'.mains[q], b) {
      if step.MainAct? && step.proc == q {
        HoldsKept(c, s, if q in s.mains then s.mains[q] else Down, step.ev, b);
      } else if !(step.Crash? && step.proc == q) {
        assert s'.mains[q] == s.mains[q];
      }
    }
  }

  lemma {:induction false} DroppedStays(c: Config, s: State, s': State, b: BlockId)
    requires Inv(s) && Next(c, s, s') && Dropped(s, b)
    ensures Dropped(s', b)
    ensures forall k: Key :: k.block == b ==> NoNewCall(s, s', k)
  {
    var any := Key(b, "", LnDust);
    assert !InHand(s, any);
    StaysLeft(c, s, s', b);
    StaysUnheld(c, s, s', b);
    forall k: Key | k.block == b ensures !InHand(s', k) && NoNewCall(s, s', k) {
      assert !InHand(s, k);
      StaysAway(c, s, s', k);
    }
  }

  lemma {:induction false} StepDropped(c: Config, run: seq<State>, n: nat, b: BlockId)
    requires IsRun(c, run) && 0 < n < |run| && Dropped(run[n - 1], b)
    ensures Dropped(run[n], b)
    ensures forall k: Key :: k.block == b ==> NoNewCall(run[n - 1], run[n], k)
  {
    RunInv(c, run, n - 1);
    assert StepAt(c, run, n);
    DroppedStays(c, run[n - 1], run[n], b);
  }

  /** A dropped block is never paid again, by any worker, after any number of restarts: only the
      tick that promotes a block fans it out. */
  lemma {:induction false} DroppedIsNeverPaid(c: Config, run: seq<State>, i: nat, j: nat, b: BlockId)
    requires IsRun(c, run) && i <= j < |run| && Dropped(run[i], b)
    ensures Dropped(run[j], b)
    ensures forall call :: call in run[j].log && call.key.block == b ==> call in run[i].log
    decreases j - i
  {
    if i < j {
      DroppedIsNeverPaid(c, run, i, j - 1, b);
      StepDropped(c, run, j, b);
      forall call | call in run[j].log && call.key.block == b ensures call in run[i].log {
        assert NoNewCall(run[j - 1], run[j], call.key);
      }
    }
  }

  // ----- ticks that die -----

  /** Somebody but process `p` has the row in hand. */
  ghost predicate InOtherHands(s: State, p: Proc, k: Key) {
    || (exists q :: q in s.mains && q != p && Holds(s.mains[q], k.block))
    || (exists pid, i :: pid in s.passes && !(pid in s.owner && s.owner[pid] == p)
          && 0 <= i < |s.passes[pid].slots| && LoopHolds(s.passes[pid], i, k))
  }

  lemma {:induction false} CrashLeaves(c: Config, s: State, s': State, p: Proc, left: set<Write>, k: Key)
    requires StepTo(c, s, s', Crash(p, left))
    ensures InHand(s', k) <==> InOtherHands(s, p, k)
  {
    if InHand(s', k) {
      if q :| q in s'.mains && Holds(s'.mains[q], k.block) {
        assert q != p && s'.mains[q] == s.mains[q];
      } else {
        var pid, i :| pid in s'.passes && 0 <= i < |s'.passes[pid].slots| && LoopHolds(s'.passes[pid], i, k);
        assert s'.passes[pid] == s.passes[pid];
      }
    }
    if InOtherHands(s, p, k) {
      if q :| q in s.mains && q != p && Holds(s.mains[q], k.block) {
        assert s'.mains[q] == s.mains[q];
      } else {
        var pid, i :| pid in s.passes && !(pid in s.owner && s.owner[pid] == p)
                      && 0 <= i < |s.passes[pid].slots| && LoopHolds(s.passes[pid], i, k);
        assert s'.passes[pid] == s.passes[pid];
        assert InLoop(s', k);
      }
    }
  }

  /** A crash drops a block that left FOUND if and only if nobody else has one of its rows in hand. */
  lemma {:induction false} CrashDropsExactly(c: Config, s: State, s': State, p: Proc, left: set<Write>, b: BlockId)
    requires StepTo(c, s, s', Crash(p, left)) && LeftFound(s.db, b)
    ensures Dropped(s', b) <==> forall k: Key :: k.block == b ==> !InOtherHands(s, p, k)
  {
    forall k: Key | k.block == b ensures InHand(s', k) <==> InOtherHands(s, p, k) { CrashLeaves(c, s, s', p, left, k); }
  }

  /** A main function that goes to sleep has written nothing and started nothing. */
  lemma {:induction false} SleepWritesNothing(c: Config, s: State, m: Main, ev: Event)
    requires MainStep(c, s, m, ev).Some? && MainStep(c, s, m, ev).value.main == Sleeping
    ensures var o := MainStep(c, s, m, ev).value; o.started == None && (o.write.Some? ==> o.lost) && o.saw == {}
  {}

  /** Some other worker's main function or any loop has the row in hand. */
  ghost predicate InHandsBeside(s: State, p: Proc, k: Key) {
    (exists q :: q in s.mains && q != p && Holds(s.mains[q], k.block)) || InLoop(s, k)
  }

  lemma {:induction false} SleepLeaves(c: Config, s: State, s': State, p: Proc, ev: Event, k: Key)
    requires p in s.mains && StepTo(c, s, s', MainAct(p, ev)) && s'.mains[p] == Sleeping
    ensures s'.db == s.db && s'.passes == s.passes && s'.log == s.log
    ensures InHand(s', k) <==> InHandsBeside(s, p, k)
  {
    SleepWritesNothing(c, s, s.mains[p], ev);
    if InHandsBeside(s, p, k) && !InLoop(s, k) {
      var q :| q in s.mains && q != p && Holds(s.mains[q], k.block);
      assert s'.mains[q] == s.mains[q];
    }
    if InHand(s', k) && !InLoop(s', k) {
      var q :| q in s'.mains && Holds(s'.mains[q], k.block);
      assert q != p && s'.mains[q] == s.mains[q];
    }
  }

  /** Whatever ends a tick, a rejected await, a block that is no longer MATURED, or drain loops of
      which one broke, it drops a block that left FOUND if and only if no other worker has one of
      its rows in hand and no drain loop, the worker's own included, still holds one. */
  lemma {:induction false} TickEndDropsExactly(c: Config, s: State, s': State, p: Proc, ev: Event, b: BlockId)
    requires p in s.mains && StepTo(c, s, s', MainAct(p, ev)) && s'.mains[p] == Sleeping && LeftFound(s.db, b)
    ensures Dropped(s', b) <==> forall k: Key :: k.block == b ==> !InHandsBeside(s, p, k)
  {
    SleepLeaves(c, s, s', p, ev, Key(b, "", LnDust));
    forall k: Key | k.block == b ensures InHand(s', k) <==> InHandsBeside(s, p, k) { SleepLeaves(c, s, s', p, ev, k); }
  }
}
