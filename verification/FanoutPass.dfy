/** One fan-out pass: the drain loops of runWithConcurrency and the worker body that
    claims a row, pays it and finalizes it, cut at every await. */
module FanoutPass {
  import opened Shared
  import opened PayoutTable

  datatype Item = Item(key: Key, amount: nat)

  /** One request to the Lightning client. */
  datatype Call = Call(key: Key, amount: nat)

  /** What a drain loop is waiting for. */
  datatype Phase =
    | Claiming(item: Item)                  // updateMany PENDING -> IN_FLIGHT issued
    | Looking(item: Item)                   // claim won, member lookup issued
    | Missing(item: Item)                   // member gone, update FAILED issued
    | Paying(item: Item)                    // payLightningAddress issued
    | Recording(item: Item, hash: string)   // update PAID issued
    | Zapping(item: Item)                   // zap receipt being read, published, stored
    | Failing(item: Item)                   // catch branch, update FAILED issued
    | Done                                  // queue was empty
    | Broken                                // the promise rejected

  /** How the awaited operation ended.  After Lost the caller sees an error, and the write it
      had issued may still land later, or never. */
  datatype Reply = Ok | Lost | Found | Absent | PaidWith(hash: string) | Refused

  datatype Pass = Pass(block: BlockId, items: seq<Item>, queue: seq<Item>, slots: seq<Phase>, paid: nat, failed: nat)

  /** The write a drain loop has issued and not yet seen confirmed. */
  function PhaseWrite(p: Phase): Option<Write> {
    match p
    case Claiming(it) => Some(Claim(it.key))
    case Missing(it) => Some(Finish(it.key, Failed, None))
    case Recording(it, h) => Some(Finish(it.key, Paid, Some(h)))
    case Failing(it) => Some(Finish(it.key, Failed, None))
    case _ => None
  }

  function IssuedBy(p: Phase): set<Write> {
    if PhaseWrite(p).Some? then {PhaseWrite(p).value} else {}
  }

  /** What the loop does next: await something else, or take the next item. */
  datatype After = Stay(phase: Phase) | Free

  datatype SlotOut = SlotOut(db: Db, calls: seq<Call>, after: After, won: Option<Key>, paid: nat, failed: nat,
                             limbo: set<Write>)

  function Move(db: Db, after: After): SlotOut {
    SlotOut(db, [], after, None, 0, 0, {})
  }

  /** One await of the worker body resolving; None when the reply does not fit. */
  function SlotStep(db: Db, p: Phase, r: Reply): Option<SlotOut> {
    match p
    case Claiming(it) =>
      if r.Ok? then
        var won := it.key in db.rows && db.rows[it.key].status == Pending;
        Some(Move(Apply(db, Claim(it.key)), if won then Stay(Looking(it)) else Free)
             .(won := if won then Some(it.key) else None))
      else if r.Lost? then Some(Move(db, Stay(Broken)).(limbo := IssuedBy(p)))
      else None
    case Looking(it) =>
      if r.Found? then Some(Move(db, Stay(Paying(it))).(calls := [Call(it.key, it.amount)]))
      else if r.Absent? then Some(Move(db, Stay(Missing(it))))
      else if r.Lost? then Some(Move(db, Stay(Broken)))
      else None
    case Paying(it) =>
      if r.PaidWith? then Some(Move(db, Stay(Recording(it, r.hash))))
      else if r.Refused? then Some(Move(db, Stay(Failing(it))))
      else None
    case Recording(it, h) =>
      if r.Ok? then Some(Move(Apply(db, PhaseWrite(p).value), Stay(Zapping(it))).(paid := 1))
      else if r.Lost? then Some(Move(db, Stay(Failing(it))).(limbo := IssuedBy(p)))
      else None
    case Zapping(it) =>
      if r.Ok? then Some(Move(db, Free))
      else if r.Lost? then Some(Move(db, Stay(Failing(it))))
      else None
    case Missing(it) => FinalUpdate(db, p, r)
    case Failing(it) => FinalUpdate(db, p, r)
    case _ => None
  }

  function FinalUpdate(db: Db, p: Phase, r: Reply): Option<SlotOut>
    requires p.Missing? || p.Failing?
  {
    if r.Ok? then Some(Move(Apply(db, PhaseWrite(p).value), Free).(failed := 1))
    else if r.Lost? then Some(Move(db, Stay(Broken)).(limbo := IssuedBy(p)))
    else None
  }

  /** The drain loops start synchronously, each taking one item off the queue. */
  function StartPass(b: BlockId, items: seq<Item>, concurrency: nat): Pass {
    var n := if concurrency < |items| then concurrency else |items|;
    Pass(b, items, items[n..], seq(n, i requires 0 <= i < n => Claiming(items[i])), 0, 0)
  }

  /** Loop `i` advances; a freed loop shifts the queue before its next await. */
  function Advance(pass: Pass, i: nat, after: After): Pass
    requires i < |pass.slots|
  {
    match after
    case Stay(phase) => pass.(slots := pass.slots[i := phase])
    case Free =>
      if pass.queue == [] then pass.(slots := pass.slots[i := Done])
      else pass.(slots := pass.slots[i := Claiming(pass.queue[0])], queue := pass.queue[1..])
  }

  function Settle(pass: Pass, i: nat, o: SlotOut): Pass
    requires i < |pass.slots|
  {
    var next := Advance(pass, i, o.after);
    next.(paid := pass.paid + o.paid, failed := pass.failed + o.failed)
  }
}
