/** fanoutDust as one worker runs it: the drain loops under every interleaving, first with any
    outside interference and any failures, then for a sole worker on a healthy database. */
module FanoutDust {
  import opened PayoutTable
  import opened FanoutPass
  import P = PayoutProtocol

  // ----- drain loops: any environment, any replies -----

  function Weight(p: Phase): nat {
    match p
    case Claiming(_) => 8
    case Looking(_) => 7
    case Paying(_) => 6
    case Recording(_, _) => 5
    case Zapping(_) => 4
    case Missing(_) => 3
    case Failing(_) => 3
    case _ => 0
  }

  function SlotsWork(slots: seq<Phase>): nat {
    if slots == [] then 0 else Weight(slots[0]) + SlotsWork(slots[1..])
  }

  function Work(pass: Pass): nat {
    9 * |pass.queue| + SlotsWork(pass.slots)
  }

  lemma {:induction false} SlotsWorkUpdate(slots: seq<Phase>, i: nat, p: Phase)
    requires i < |slots|
    ensures SlotsWork(slots[i := p]) == SlotsWork(slots) - Weight(slots[i]) + Weight(p)
  {
    if i == 0 {
      assert slots[i := p][1..] == slots[1..];
    } else {
      SlotsWorkUpdate(slots[1..], i - 1, p);
      assert slots[i := p][1..] == slots[1..][i - 1 := p];
    }
  }

  /** Whatever the database and the wallet answer, every await that resolves brings the pass
      closer to its end. */
  lemma {:induction false} EveryStepShrinksWork(db: Db, pass: Pass, i: nat, r: Reply)
    requires i < |pass.slots| && SlotStep(db, pass.slots[i], r).Some?
    ensures Work(Settle(pass, i, SlotStep(db, pass.slots[i], r).value)) < Work(pass)
  {
    var next := Settle(pass, i, SlotStep(db, pass.slots[i], r).value);
    SlotsWorkUpdate(pass.slots, i, next.slots[i]);
  }

  predicate Active(p: Phase) { !p.Done? && !p.Broken? }

  /** A loop that has not ended is waiting for something that can still resolve. */
  lemma {:induction false} ActiveCanStep(db: Db, p: Phase)
    ensures Active(p) <==> exists r :: SlotStep(db, p, r).Some?
  {
    if Active(p) {
      var r := if p.Looking? then Reply.Found else if p.Paying? then Refused else Ok;
      assert SlotStep(db, p, r).Some?;
    }
  }

  function Handed(pass: Pass): int { |pass.items| - |pass.queue| }

  /** Items leave the queue from the front, each to exactly one loop; loops end only on an
      empty queue; no more loops run than the cap allows. */
  ghost predicate Shape(pass: Pass, concurrency: nat) {
    && |pass.queue| <= |pass.items| && pass.queue == pass.items[Handed(pass)..]
    && |pass.slots| == (if concurrency < |pass.items| then concurrency else |pass.items|)
    && (concurrency == 0 ==> Handed(pass) == 0)
    && (pass.queue != [] ==> forall i :: 0 <= i < |pass.slots| ==> !pass.slots[i].Done?)
    && (forall i :: 0 <= i < |pass.slots| && Active(pass.slots[i]) ==> pass.slots[i].item in pass.items[..Handed(pass)])
  }

  lemma {:induction false} StartShape(b: BlockId, items: seq<Item>, concurrency: nat)
    ensures Shape(StartPass(b, items, concurrency), concurrency)
  {}

  /** What one resolved await of a loop comes to: the same item in a later phase, or a free loop;
      a call to the wallet only on the way from looking up the member to paying. */
  ghost predicate Outcome(p: Phase, o: SlotOut) {
    && Active(p)
    && (o.after.Stay? ==> !o.after.phase.Claiming? && !o.after.phase.Done? && (o.after.phase.Looking? ==> p.Claiming?))
    && (o.after.Stay? && Active(o.after.phase) ==> o.after.phase.item == p.item)
    && (o.calls == []
        || (p.Looking? && o.calls == [Call(p.item.key, p.item.amount)] && o.after.Stay? && o.after.phase.Paying?))
  }

  lemma {:induction false} StepOutcome(db: Db, p: Phase, r: Reply)
    requires SlotStep(db, p, r).Some?
    ensures Outcome(p, SlotStep(db, p, r).value)
  {}

  /** Inside the code's try-block a rejected await, and a refused payment, lead to the FAILED update;
      anywhere else a rejected await rejects the loop's promise.  An item counts as paid when its PAID
      update went through, and as failed when a FAILED one did. */
  lemma {:induction false} WhereRejectionsLead(db: Db, p: Phase, r: Reply)
    requires SlotStep(db, p, r).Some?
    ensures var o := SlotStep(db, p, r).value;
      && (o.after == Stay(Broken) <==> r == Lost && (p.Claiming? || p.Looking? || p.Missing? || p.Failing?))
      && (o.after.Stay? && o.after.phase.Failing? <==> r == Refused || (r == Lost && (p.Recording? || p.Zapping?)))
      && o.paid == (if p.Recording? && r == Reply.Ok then 1 else 0)
      && o.failed == (if (p.Missing? || p.Failing?) && r == Reply.Ok then 1 else 0)
  {}

  /** Nothing or the next item was handed out. */
  ghost predicate HandedOn(pass: Pass, next: Pass, i: nat) {
    && |pass.queue| <= |pass.items| == |next.items| && |next.queue| <= |next.items| && next.items == pass.items
    && i < |next.slots|
    && (Handed(next) == Handed(pass)
        || (Handed(next) == Handed(pass) + 1 && next.slots[i] == Claiming(pass.items[Handed(pass)])))
  }

  lemma {:induction false} ShapeMoves(pass: Pass, concurrency: nat, i: nat, o: SlotOut)
    requires Shape(pass, concurrency) && i < |pass.slots| && Outcome(pass.slots[i], o)
    ensures var next := Settle(pass, i, o); Shape(next, concurrency) && HandedOn(pass, next, i)
  {
    var next := Settle(pass, i, o);
    assert pass.items[..Handed(pass)] <= next.items[..Handed(next)];
    forall j | 0 <= j < |next.slots| && Active(next.slots[j])
      ensures next.slots[j].item in next.items[..Handed(next)]
    {
      if j != i { assert next.slots[j] == pass.slots[j]; }
    }
  }

  lemma {:induction false} ShapeKept(db: Db, pass: Pass, concurrency: nat, i: nat, r: Reply)
    requires Shape(pass, concurrency) && i < |pass.slots| && SlotStep(db, pass.slots[i], r).Some?
    ensures var next := Settle(pass, i, SlotStep(db, pass.slots[i], r).value);
      Shape(next, concurrency) && HandedOn(pass, next, i)
  {
    StepOutcome(db, pass.slots[i], r);
    ShapeMoves(pass, concurrency, i, SlotStep(db, pass.slots[i], r).value);
  }

  /** When every loop ended normally and at least one ran, every item was handed out. */
  lemma {:induction false} AllDoneDrainsQueue(pass: Pass, concurrency: nat)
    requires Shape(pass, concurrency) && concurrency >= 1 && P.AllDone(pass)
    ensures Handed(pass) == |pass.items|
  {
    assert pass.items != [] ==> pass.slots[0].Done?;
  }

  // ----- a sole worker, no database error -----

  function RowStatus(p: Phase): Status {
    match p
    case Claiming(_) => Pending
    case Zapping(_) => Paid
    case _ => InFlight
  }

  ghost predicate HasStatus(db: Db, k: Key, st: Status) { k in db.rows && db.rows[k].status == st }

  ghost predicate Held(pass: Pass, it: Item) {
    exists i :: 0 <= i < |pass.slots| && Active(pass.slots[i]) && pass.slots[i].item == it
  }

  ghost predicate Finished(db: Db, pass: Pass, it: Item) {
    HasStatus(db, it.key, Paid) || (HasStatus(db, it.key, Failed) && pass.failed > 0)
  }

  /** Loops whose item is not yet counted as paid or failed. */
  function Uncounted(slots: seq<Phase>): nat {
    if slots == [] then 0
    else (if Active(slots[0]) && !slots[0].Zapping? then 1 else 0) + Uncounted(slots[1..])
  }

  lemma {:induction false} UncountedUpdate(slots: seq<Phase>, i: nat, p: Phase)
    requires i < |slots|
    ensures Uncounted(slots[i := p]) == Uncounted(slots)
      - (if Active(slots[i]) && !slots[i].Zapping? then 1 else 0) + (if Active(p) && !p.Zapping? then 1 else 0)
  {
    if i == 0 {
      assert slots[i := p][1..] == slots[1..];
    } else {
      UncountedUpdate(slots[1..], i - 1, p);
      assert slots[i := p][1..] == slots[1..][i - 1 := p];
    }
  }

  ghost predicate DistinctItems(items: seq<Item>) {
    forall i, j :: 0 <= i < j < |items| ==> items[i].key != items[j].key
  }

  ghost predicate SlotsOk(db: Db, pass: Pass) {
    && (forall i :: 0 <= i < |pass.slots| ==>
          !pass.slots[i].Broken?
          && (Active(pass.slots[i]) ==> HasStatus(db, pass.slots[i].item.key, RowStatus(pass.slots[i]))))
    && (forall i, j :: 0 <= i < j < |pass.slots| && Active(pass.slots[i]) && Active(pass.slots[j]) ==>
          pass.slots[i].item.key != pass.slots[j].item.key)
  }

  ghost predicate ItemsOk(db: Db, pass: Pass) {
    && DistinctItems(pass.items) && |pass.queue| <= |pass.items|
    && (forall it :: it in pass.queue ==> HasStatus(db, it.key, Pending))
    && (forall it :: it in pass.items[..Handed(pass)] ==> Held(pass, it) || Finished(db, pass, it))
  }

  ghost predicate SoleInv(db: Db, pass: Pass, concurrency: nat) {
    && Shape(pass, concurrency) && SlotsOk(db, pass) && ItemsOk(db, pass)
    && |pass.items| == |pass.queue| + Uncounted(pass.slots) + pass.paid + pass.failed
  }

  /** Only the stepping loop's own row changes. */
  ghost predicate OwnRow(db: Db, p: Phase, o: SlotOut) {
    && Active(p) && p.item.key in db.rows
    && o.db.blocks == db.blocks && o.db.rows.Keys == db.rows.Keys
    && (forall k :: k in db.rows && k != p.item.key ==> o.db.rows[k] == db.rows[k])
    && o.db.rows[p.item.key].amount == db.rows[p.item.key].amount
    && (o.after.Stay? ==>
        Active(o.after.phase) && o.after.phase.item == p.item && HasStatus(o.db, p.item.key, RowStatus(o.after.phase)))
    && (o.after.Free? ==> HasStatus(o.db, p.item.key, Failed) || HasStatus(o.db, p.item.key, Paid))
    && (o.after.Free? && HasStatus(o.db, p.item.key, Failed) ==> o.failed == 1)
    && o.paid + o.failed + (if o.after.Stay? && !o.after.phase.Zapping? then 1 else 0) == (if p.Zapping? then 0 else 1)
  }

  lemma {:induction false} OwnRowOnly(db: Db, p: Phase, r: Reply)
    requires SlotStep(db, p, r).Some? && r != Lost && HasStatus(db, p.item.key, RowStatus(p))
    ensures OwnRow(db, p, SlotStep(db, p, r).value)
  {}

  lemma {:induction false} ItemKeysDistinct(pass: Pass, concurrency: nat, it: Item)
    requires Shape(pass, concurrency) && DistinctItems(pass.items) && it in pass.items[..Handed(pass)]
    ensures forall q :: q in pass.queue ==> q.key != it.key
    ensures forall other :: other in pass.items && other.key == it.key ==> other == it
  {
    var n :| 0 <= n < Handed(pass) && pass.items[n] == it;
    forall q | q in pass.queue ensures q.key != it.key {
      var m :| 0 <= m < |pass.queue| && pass.queue[m] == q;
      assert pass.items[Handed(pass) + m] == q;
    }
  }

  lemma {:induction false} SlotsMove(db: Db, pass: Pass, concurrency: nat, i: nat, o: SlotOut)
    requires SoleInv(db, pass, concurrency) && i < |pass.slots| && OwnRow(db, pass.slots[i], o)
    ensures SlotsOk(o.db, Settle(pass, i, o))
  {
    forall j | 0 <= j < |pass.slots| && Active(pass.slots[j])
      ensures pass.queue != [] ==> pass.slots[j].item.key != pass.queue[0].key
    {
      ItemKeysDistinct(pass, concurrency, pass.slots[j].item);
    }
  }

  lemma {:induction false} SlotsKept(db: Db, pass: Pass, concurrency: nat, i: nat, r: Reply)
    requires SoleInv(db, pass, concurrency) && i < |pass.slots| && r != Lost && SlotStep(db, pass.slots[i], r).Some?
    ensures var o := SlotStep(db, pass.slots[i], r).value; SlotsOk(o.db, Settle(pass, i, o))
  {
    OwnRowOnly(db, pass.slots[i], r);
    SlotsMove(db, pass, concurrency, i, SlotStep(db, pass.slots[i], r).value);
  }

  lemma {:induction false} ItemMoves(db: Db, pass: Pass, concurrency: nat, i: nat, o: SlotOut, it: Item)
    requires SoleInv(db, pass, concurrency) && i < |pass.slots| && OwnRow(db, pass.slots[i], o)
    requires it in pass.items[..Handed(pass)]
    ensures var next := Settle(pass, i, o); Held(next, it) || Finished(o.db, next, it)
  {
    var next := Settle(pass, i, o);
    if it == pass.slots[i].item {
      if o.after.Stay? { assert next.slots[i].item == it; }
    } else if Held(pass, it) {
      var j :| 0 <= j < |pass.slots| && Active(pass.slots[j]) && pass.slots[j].item == it;
      assert next.slots[j] == pass.slots[j];
    } else {
      ItemKeysDistinct(pass, concurrency, it);
      assert pass.slots[i].item in pass.items;
    }
  }

  lemma {:induction false} ItemKept(db: Db, pass: Pass, concurrency: nat, i: nat, r: Reply, it: Item)
    requires SoleInv(db, pass, concurrency) && i < |pass.slots| && r != Lost && SlotStep(db, pass.slots[i], r).Some?
    requires it in pass.items[..Handed(pass)]
    ensures var o := SlotStep(db, pass.slots[i], r).value; var next := Settle(pass, i, o);
      Held(next, it) || Finished(o.db, next, it)
  {
    OwnRowOnly(db, pass.slots[i], r);
    ItemMoves(db, pass, concurrency, i, SlotStep(db, pass.slots[i], r).value, it);
  }

  lemma {:induction false} ItemsKept(db: Db, pass: Pass, concurrency: nat, i: nat, r: Reply)
    requires SoleInv(db, pass, concurrency) && i < |pass.slots| && r != Lost && SlotStep(db, pass.slots[i], r).Some?
    ensures var o := SlotStep(db, pass.slots[i], r).value; ItemsOk(o.db, Settle(pass, i, o))
  {
    var o := SlotStep(db, pass.slots[i], r).value;
    var next := Settle(pass, i, o);
    ShapeKept(db, pass, concurrency, i, r);
    forall it | it in next.queue ensures HasStatus(o.db, it.key, Pending) {
      OwnRowOnly(db, pass.slots[i], r);
      ItemKeysDistinct(pass, concurrency, pass.slots[i].item);
      assert it in pass.queue;
    }
    forall it | it in next.items[..Handed(next)] ensures Held(next, it) || Finished(o.db, next, it) {
      if it in pass.items[..Handed(pass)] {
        ItemKept(db, pass, concurrency, i, r, it);
      } else {
        assert next.slots[i].item == it;
      }
    }
  }

  lemma {:induction false} SoleStep(db: Db, pass: Pass, concurrency: nat, i: nat, r: Reply)
    requires SoleInv(db, pass, concurrency) && i < |pass.slots| && r != Lost && SlotStep(db, pass.slots[i], r).Some?
    ensures var o := SlotStep(db, pass.slots[i], r).value; SoleInv(o.db, Settle(pass, i, o), concurrency)
  {
    var o := SlotStep(db, pass.slots[i], r).value;
    OwnRowOnly(db, pass.slots[i], r);
    ShapeKept(db, pass, concurrency, i, r);
    SlotsKept(db, pass, concurrency, i, r);
    ItemsKept(db, pass, concurrency, i, r);
    UncountedUpdate(pass.slots, i, Settle(pass, i, o).slots[i]);
  }

  lemma {:induction false} StartSole(db: Db, b: BlockId, items: seq<Item>, concurrency: nat)
    requires DistinctItems(items) && forall it :: it in items ==> HasStatus(db, it.key, Pending)
    ensures SoleInv(db, StartPass(b, items, concurrency), concurrency)
  {
    StartShape(b, items, concurrency);
    AllUncounted(StartPass(b, items, concurrency).slots);
    StartSlots(db, b, items, concurrency);
    StartItems(db, b, items, concurrency);
  }

  lemma {:induction false} StartSlots(db: Db, b: BlockId, items: seq<Item>, concurrency: nat)
    requires DistinctItems(items) && forall it :: it in items ==> HasStatus(db, it.key, Pending)
    ensures SlotsOk(db, StartPass(b, items, concurrency))
  {}

  lemma {:induction false} StartItems(db: Db, b: BlockId, items: seq<Item>, concurrency: nat)
    requires DistinctItems(items) && forall it :: it in items ==> HasStatus(db, it.key, Pending)
    ensures ItemsOk(db, StartPass(b, items, concurrency))
  {
    var pass := StartPass(b, items, concurrency);
    forall it | it in items[..Handed(pass)] ensures Held(pass, it) {
      var n :| 0 <= n < Handed(pass) && items[n] == it;
      assert pass.slots[n].item == it;
    }
  }

  lemma AllUncounted(slots: seq<Phase>)
    requires forall i :: 0 <= i < |slots| ==> slots[i].Claiming?
    ensures Uncounted(slots) == |slots|
  {}

  lemma NothingUncounted(slots: seq<Phase>)
    requires forall i :: 0 <= i < |slots| ==> !Active(slots[i])
    ensures Uncounted(slots) == 0
  {}

  /** A sole pass that has come to rest: it counted every item if any loop ran at all, and with
      nothing counted as failed every item is PAID; if no loop ran nothing is counted and every
      item is still PENDING. */
  lemma {:induction false} SoleEnd(db: Db, pass: Pass, concurrency: nat)
    requires SoleInv(db, pass, concurrency)
    requires forall i :: 0 <= i < |pass.slots| ==> !Active(pass.slots[i])
    ensures pass.paid + pass.failed == |pass.items| <==> concurrency >= 1 || pass.items == []
    ensures concurrency >= 1 ==> forall it :: it in pass.items ==> Finished(db, pass, it)
    ensures concurrency == 0 ==>
      pass.paid == 0 && pass.failed == 0 && forall it :: it in pass.items ==> HasStatus(db, it.key, Pending)
  {
    NothingUncounted(pass.slots);
    if concurrency >= 1 {
      AllDoneDrainsQueue(pass, concurrency);
      assert pass.items[..Handed(pass)] == pass.items;
    }
  }
}
