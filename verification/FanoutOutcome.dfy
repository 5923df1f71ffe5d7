/** What becomes of each row of a sole worker's pass: paid exactly if the member is registered and the
    wallet pays, with the hash the wallet answers, and failed otherwise. */
module FanoutOutcome {
  import opened Shared
  import opened PayoutTable
  import opened FanoutPass
  import opened FanoutDust

  /** How the outside answers: whether a member is found when looked up, and with which hash the wallet
      pays a row, if it does. */
  datatype Payer = Payer(registered: Pubkey -> bool, pays: Key -> Option<string>)

  /** Any answer but a database error or a rejected receipt. */
  function Replied(p: Phase, o: Payer): Reply {
    match p
    case Looking(it) => if o.registered(it.key.member) then Reply.Found else Absent
    case Paying(it) => if o.pays(it.key).Some? then PaidWith(o.pays(it.key).value) else Refused
    case _ => Reply.Ok
  }

  lemma {:induction false} RepliedFits(db: Db, p: Phase, o: Payer)
    requires Active(p)
    ensures Replied(p, o) != Lost && SlotStep(db, p, Replied(p, o)).Some?
  {}

  /** The hash with which a row is due to be paid; None if it is due to fail. */
  function Due(o: Payer, k: Key): Option<string> { if o.registered(k.member) then o.pays(k) else None }

  /** A row at the end of its pass. */
  function SettledRow(row: Row, k: Key, o: Payer): Row {
    if Due(o, k).Some? then row.(status := Paid, hash := Due(o, k)) else row.(status := Failed)
  }

  function RowDuring(row: Row, p: Phase, o: Payer): Row {
    match p
    case Claiming(_) => row
    case Zapping(it) => SettledRow(row, it.key, o)
    case _ => row.(status := InFlight)
  }

  // ----- one loop -----

  ghost predicate Asked(it: Item, calls: seq<Call>) { Call(it.key, it.amount) in calls }

  ghost predicate PhaseFits(p: Phase, o: Payer, calls: seq<Call>) {
    match p
    case Paying(it) => o.registered(it.key.member) && Asked(it, calls)
    case Recording(it, h) => Due(o, it.key) == Some(h) && Asked(it, calls)
    case Zapping(it) => Due(o, it.key).Some? && Asked(it, calls)
    case Missing(it) => !o.registered(it.key.member)
    case Failing(it) => o.registered(it.key.member) && o.pays(it.key) == None && Asked(it, calls)
    case _ => true
  }

  ghost predicate SlotFits(rows: map<Key, Row>, db: Db, p: Phase, o: Payer, calls: seq<Call>) {
    Active(p) ==>
      var k := p.item.key;
      k in rows && k in db.rows && db.rows[k] == RowDuring(rows[k], p, o) && PhaseFits(p, o, calls)
  }

  /** The item's row is settled, and the wallet was asked if and only if the member is registered. */
  ghost predicate ItemFits(rows: map<Key, Row>, db: Db, it: Item, o: Payer, calls: seq<Call>) {
    && it.key in rows && it.key in db.rows && db.rows[it.key] == SettledRow(rows[it.key], it.key, o)
    && (o.registered(it.key.member) ==> Asked(it, calls))
  }

  ghost predicate CallsFit(calls: seq<Call>, o: Payer) {
    forall call :: call in calls ==> o.registered(call.key.member)
  }

  /** A loop whose item is due to be paid and not counted yet. */
  function DueSlot(p: Phase, o: Payer): nat { if Active(p) && !p.Zapping? && Due(o, p.item.key).Some? then 1 else 0 }

  lemma {:induction false} SlotOutcome(rows: map<Key, Row>, db: Db, p: Phase, o: Payer, calls: seq<Call>)
    requires Active(p) && SlotFits(rows, db, p, o, calls) && rows[p.item.key].status == Pending
    ensures SlotStep(db, p, Replied(p, o)).Some?
    ensures var out := SlotStep(db, p, Replied(p, o)).value;
      && (out.after.Stay? ==> SlotFits(rows, out.db, out.after.phase, o, calls + out.calls))
      && (out.after.Free? ==> ItemFits(rows, out.db, p.item, o, calls + out.calls))
      && CallsFit(out.calls, o)
      && out.paid + (if out.after.Stay? then DueSlot(out.after.phase, o) else 0) == DueSlot(p, o)
  {
    var out := SlotStep(db, p, Replied(p, o)).value;
    if out.calls != [] { assert (calls + out.calls)[|calls|] == out.calls[0]; }
  }

  // ----- counting -----

  function DueItems(items: seq<Item>, o: Payer): nat {
    if items == [] then 0 else (if Due(o, items[0].key).Some? then 1 else 0) + DueItems(items[1..], o)
  }

  function DueSlots(slots: seq<Phase>, o: Payer): nat {
    if slots == [] then 0 else DueSlot(slots[0], o) + DueSlots(slots[1..], o)
  }

  lemma {:induction false} DueSlotsUpdate(slots: seq<Phase>, i: nat, p: Phase, o: Payer)
    requires i < |slots|
    ensures DueSlots(slots[i := p], o) == DueSlots(slots, o) - DueSlot(slots[i], o) + DueSlot(p, o)
  {
    if i == 0 {
      assert slots[i := p][1..] == slots[1..];
    } else {
      DueSlotsUpdate(slots[1..], i - 1, p, o);
      assert slots[i := p][1..] == slots[1..][i - 1 := p];
    }
  }

  lemma DueConcat(a: seq<Item>, b: seq<Item>, o: Payer)
    ensures DueItems(a + b, o) == DueItems(a, o) + DueItems(b, o)
  {
    if a == [] {
      assert a + b == b;
    } else {
      assert (a + b)[1..] == a[1..] + b;
    }
  }

  lemma {:induction false} StartDue(items: seq<Item>, slots: seq<Phase>, o: Payer)
    requires |slots| <= |items| && forall i :: 0 <= i < |slots| ==> slots[i] == Claiming(items[i])
    ensures DueSlots(slots, o) == DueItems(items[..|slots|], o)
  {
    if slots != [] {
      assert slots[0] == Claiming(items[0]) && items[..|slots|][1..] == items[1..][..|slots[1..]|];
      StartDue(items[1..], slots[1..], o);
    }
  }

  lemma NothingDue(slots: seq<Phase>, o: Payer)
    requires forall i :: 0 <= i < |slots| ==> !Active(slots[i])
    ensures DueSlots(slots, o) == 0
  {}

  ghost function DueKeys(keys: set<Key>, o: Payer): set<Key> { set k | k in keys && Due(o, k).Some? }

  ghost function ItemKeys(items: seq<Item>): set<Key> { set it | it in items :: it.key }

  lemma {:induction false} KeysOfFirst(items: seq<Item>)
    requires DistinctItems(items) && items != []
    ensures ItemKeys(items) == {items[0].key} + ItemKeys(items[1..]) && items[0].key !in ItemKeys(items[1..])
  {
    forall it ensures it in items <==> it == items[0] || it in items[1..] { ConsTail(items); }
    assert forall it :: it in items[1..] ==> it.key != items[0].key;
  }

  lemma {:induction false} DueOfFirst(k: Key, rest: set<Key>, o: Payer)
    requires k !in rest
    ensures |DueKeys({k} + rest, o)| == (if Due(o, k).Some? then 1 else 0) + |DueKeys(rest, o)|
  {
    assert DueKeys({k} + rest, o) == if Due(o, k).Some? then {k} + DueKeys(rest, o) else DueKeys(rest, o);
  }

  /** The items that are due to be paid, counted by their keys. */
  lemma {:induction false} DueCounted(items: seq<Item>, o: Payer)
    requires DistinctItems(items)
    ensures DueItems(items, o) == |DueKeys(ItemKeys(items), o)| && |items| == |ItemKeys(items)|
  {
    if items == [] {
      assert ItemKeys([]) == {} && DueKeys({}, o) == {};
    } else {
      DueCounted(items[1..], o);
      KeysOfFirst(items);
      DueOfFirst(items[0].key, ItemKeys(items[1..]), o);
    }
  }

  // ----- the pass -----

  ghost predicate WerePending(rows: map<Key, Row>, items: seq<Item>) {
    forall it :: it in items ==> it.key in rows && rows[it.key].status == Pending
  }

  ghost predicate LoopsFit(rows: map<Key, Row>, db: Db, slots: seq<Phase>, o: Payer, calls: seq<Call>) {
    forall i :: 0 <= i < |slots| ==> SlotFits(rows, db, slots[i], o, calls)
  }

  ghost predicate QueueFits(rows: map<Key, Row>, db: Db, queue: seq<Item>) {
    forall it :: it in queue ==> it.key in rows && it.key in db.rows && db.rows[it.key] == rows[it.key]
  }

  ghost predicate HandedFit(rows: map<Key, Row>, db: Db, pass: Pass, o: Payer, calls: seq<Call>)
    requires |pass.queue| <= |pass.items|
  {
    forall it :: it in pass.items[..Handed(pass)] ==> Held(pass, it) || ItemFits(rows, db, it, o, calls)
  }

  /** `rows` is the table at the start, `calls` what was asked since. */
  ghost predicate OutcomeInv(rows: map<Key, Row>, db: Db, pass: Pass, o: Payer, calls: seq<Call>) {
    && |pass.queue| <= |pass.items| && WerePending(rows, pass.items)
    && LoopsFit(rows, db, pass.slots, o, calls) && QueueFits(rows, db, pass.queue)
    && HandedFit(rows, db, pass, o, calls) && CallsFit(calls, o)
    && pass.paid + DueSlots(pass.slots, o) + DueItems(pass.queue, o) == DueItems(pass.items, o)
  }

  lemma {:induction false} StartOutcome(db: Db, b: BlockId, items: seq<Item>, concurrency: nat, o: Payer)
    requires DistinctItems(items) && forall it :: it in items ==> HasStatus(db, it.key, Pending)
    ensures OutcomeInv(db.rows, db, StartPass(b, items, concurrency), o, [])
  {
    var pass := StartPass(b, items, concurrency);
    StartCount(b, items, concurrency, o);
    forall it | it in items[..Handed(pass)] ensures Held(pass, it) {
      var n :| 0 <= n < Handed(pass) && items[n] == it;
      assert pass.slots[n].item == it;
    }
    forall i | 0 <= i < |pass.slots| ensures SlotFits(db.rows, db, pass.slots[i], o, []) { assert items[i] in items; }
    forall it | it in pass.queue ensures it.key in db.rows { assert it in items; }
  }

  lemma {:induction false} StartCount(b: BlockId, items: seq<Item>, concurrency: nat, o: Payer)
    ensures var pass := StartPass(b, items, concurrency);
      DueSlots(pass.slots, o) + DueItems(pass.queue, o) == DueItems(items, o)
  {
    var pass := StartPass(b, items, concurrency);
    StartDue(items, pass.slots, o);
    assert items == items[..|pass.slots|] + pass.queue;
    DueConcat(items[..|pass.slots|], pass.queue, o);
  }

  /** Another loop is untouched by a step that changes its own row only. */
  lemma {:induction false} OtherFits(rows: map<Key, Row>, db: Db, later: Db, p: Phase, o: Payer, calls: seq<Call>,
                                     more: seq<Call>)
    requires SlotFits(rows, db, p, o, calls)
    requires Active(p) && p.item.key in db.rows ==>
      p.item.key in later.rows && later.rows[p.item.key] == db.rows[p.item.key]
    ensures SlotFits(rows, later, p, o, calls + more)
  {}

  lemma {:induction false} SlotsFit(rows: map<Key, Row>, db: Db, pass: Pass, concurrency: nat, i: nat, out: SlotOut,
                                    o: Payer, calls: seq<Call>)
    requires SoleInv(db, pass, concurrency) && OutcomeInv(rows, db, pass, o, calls) && i < |pass.slots|
    requires OwnRow(db, pass.slots[i], out)
    requires out.after.Stay? ==> SlotFits(rows, out.db, out.after.phase, o, calls + out.calls)
    ensures LoopsFit(rows, out.db, Settle(pass, i, out).slots, o, calls + out.calls)
  {
    var next := Settle(pass, i, out);
    forall j | 0 <= j < |next.slots| ensures SlotFits(rows, out.db, next.slots[j], o, calls + out.calls) {
      if j != i {
        OtherFits(rows, db, out.db, pass.slots[j], o, calls, out.calls);
      } else if out.after.Free? && pass.queue != [] {
        ItemKeysDistinct(pass, concurrency, pass.slots[i].item);
        assert pass.queue[0] in pass.queue;
      }
    }
  }

  lemma {:induction false} ItemStaysFit(rows: map<Key, Row>, db: Db, later: Db, it: Item, k: Key, o: Payer,
                                        calls: seq<Call>, more: seq<Call>)
    requires ItemFits(rows, db, it, o, calls) && it.key != k
    requires it.key in later.rows && later.rows[it.key] == db.rows[it.key]
    ensures ItemFits(rows, later, it, o, calls + more)
  {}

  lemma {:induction false} ItemOutcome(rows: map<Key, Row>, db: Db, pass: Pass, concurrency: nat, i: nat, out: SlotOut,
                                       o: Payer, calls: seq<Call>, it: Item)
    requires SoleInv(db, pass, concurrency) && OutcomeInv(rows, db, pass, o, calls) && i < |pass.slots|
    requires OwnRow(db, pass.slots[i], out) && it in pass.items[..Handed(pass)]
    requires out.after.Free? ==> ItemFits(rows, out.db, pass.slots[i].item, o, calls + out.calls)
    ensures Held(Settle(pass, i, out), it) || ItemFits(rows, out.db, it, o, calls + out.calls)
  {
    var next := Settle(pass, i, out);
    if it == pass.slots[i].item {
      if out.after.Stay? { assert next.slots[i].item == it; }
    } else if Held(pass, it) {
      var j :| 0 <= j < |pass.slots| && Active(pass.slots[j]) && pass.slots[j].item == it;
      assert next.slots[j] == pass.slots[j];
    } else {
      ItemKeysDistinct(pass, concurrency, it);
      assert pass.slots[i].item in pass.items;
      ItemStaysFit(rows, db, out.db, it, pass.slots[i].item.key, o, calls, out.calls);
    }
  }

  lemma {:induction false} HandedOutcome(rows: map<Key, Row>, db: Db, pass: Pass, concurrency: nat, i: nat,
                                         out: SlotOut, o: Payer, calls: seq<Call>)
    requires SoleInv(db, pass, concurrency) && OutcomeInv(rows, db, pass, o, calls) && i < |pass.slots|
    requires OwnRow(db, pass.slots[i], out) && HandedOn(pass, Settle(pass, i, out), i)
    requires out.after.Free? ==> ItemFits(rows, out.db, pass.slots[i].item, o, calls + out.calls)
    ensures HandedFit(rows, out.db, Settle(pass, i, out), o, calls + out.calls)
  {
    var next := Settle(pass, i, out);
    forall it | it in next.items[..Handed(next)]
      ensures Held(next, it) || ItemFits(rows, out.db, it, o, calls + out.calls)
    {
      if it in pass.items[..Handed(pass)] {
        ItemOutcome(rows, db, pass, concurrency, i, out, o, calls, it);
      } else {
        assert next.slots[i].item == it;
      }
    }
  }

  lemma {:induction false} CountOutcome(pass: Pass, i: nat, out: SlotOut, o: Payer)
    requires i < |pass.slots|
    requires out.paid + (if out.after.Stay? then DueSlot(out.after.phase, o) else 0) == DueSlot(pass.slots[i], o)
    ensures var next := Settle(pass, i, out);
      next.paid + DueSlots(next.slots, o) + DueItems(next.queue, o)
      == pass.paid + DueSlots(pass.slots, o) + DueItems(pass.queue, o)
  {
    DueSlotsUpdate(pass.slots, i, Settle(pass, i, out).slots[i], o);
  }

  lemma {:induction false} QueueOutcome(rows: map<Key, Row>, db: Db, pass: Pass, concurrency: nat, i: nat,
                                        out: SlotOut, o: Payer, calls: seq<Call>)
    requires SoleInv(db, pass, concurrency) && OutcomeInv(rows, db, pass, o, calls) && i < |pass.slots|
    requires OwnRow(db, pass.slots[i], out)
    ensures QueueFits(rows, out.db, Settle(pass, i, out).queue)
  {
    ItemKeysDistinct(pass, concurrency, pass.slots[i].item);
    forall it | it in Settle(pass, i, out).queue
      ensures it.key in rows && it.key in out.db.rows && out.db.rows[it.key] == rows[it.key]
    {
      assert it in pass.queue;
    }
  }

  lemma {:induction false} OutcomeMoves(rows: map<Key, Row>, db: Db, pass: Pass, concurrency: nat, i: nat,
                                        out: SlotOut, o: Payer, calls: seq<Call>)
    requires SoleInv(db, pass, concurrency) && OutcomeInv(rows, db, pass, o, calls) && i < |pass.slots|
    requires OwnRow(db, pass.slots[i], out) && HandedOn(pass, Settle(pass, i, out), i)
    requires out.after.Stay? ==> SlotFits(rows, out.db, out.after.phase, o, calls + out.calls)
    requires out.after.Free? ==> ItemFits(rows, out.db, pass.slots[i].item, o, calls + out.calls)
    requires CallsFit(out.calls, o)
    requires out.paid + (if out.after.Stay? then DueSlot(out.after.phase, o) else 0) == DueSlot(pass.slots[i], o)
    ensures OutcomeInv(rows, out.db, Settle(pass, i, out), o, calls + out.calls)
  {
    SlotsFit(rows, db, pass, concurrency, i, out, o, calls);
    HandedOutcome(rows, db, pass, concurrency, i, out, o, calls);
    QueueOutcome(rows, db, pass, concurrency, i, out, o, calls);
    CountOutcome(pass, i, out, o);
  }

  /** Every await of a sole pass that resolves by what the outside answers keeps the account. */
  lemma {:induction false} OutcomeKept(rows: map<Key, Row>, db: Db, pass: Pass, concurrency: nat, i: nat, o: Payer,
                                       calls: seq<Call>)
    requires SoleInv(db, pass, concurrency) && OutcomeInv(rows, db, pass, o, calls)
    requires i < |pass.slots| && Active(pass.slots[i])
    ensures SlotStep(db, pass.slots[i], Replied(pass.slots[i], o)).Some?
    ensures var out := SlotStep(db, pass.slots[i], Replied(pass.slots[i], o)).value;
      OutcomeInv(rows, out.db, Settle(pass, i, out), o, calls + out.calls)
  {
    var p := pass.slots[i];
    RepliedFits(db, p, o);
    var out := SlotStep(db, p, Replied(p, o)).value;
    assert p.item in pass.items[..Handed(pass)] && p.item in pass.items;
    SlotOutcome(rows, db, p, o, calls);
    OwnRowOnly(db, p, Replied(p, o));
    ShapeKept(db, pass, concurrency, i, Replied(p, o));
    OutcomeMoves(rows, db, pass, concurrency, i, out, o, calls);
  }

  /** A sole pass at rest, if a loop ran at all: each row is PAID with the wallet's hash exactly if its
      member is registered and the wallet pays, and FAILED otherwise; the wallet was asked for exactly
      the rows of registered members; the counters are the numbers of both kinds. */
  lemma {:induction false} OutcomeEnd(rows: map<Key, Row>, db: Db, pass: Pass, concurrency: nat, o: Payer,
                                      calls: seq<Call>)
    requires SoleInv(db, pass, concurrency) && OutcomeInv(rows, db, pass, o, calls) && concurrency >= 1
    requires forall i :: 0 <= i < |pass.slots| ==> !Active(pass.slots[i])
    ensures forall it :: it in pass.items ==> ItemFits(rows, db, it, o, calls)
    ensures pass.paid == |DueKeys(ItemKeys(pass.items), o)|
    ensures pass.paid + pass.failed == |ItemKeys(pass.items)|
  {
    SoleEnd(db, pass, concurrency);
    AllDoneDrainsQueue(pass, concurrency);
    NothingDue(pass.slots, o);
    DueCounted(pass.items, o);
    assert pass.items[..Handed(pass)] == pass.items;
  }
}
