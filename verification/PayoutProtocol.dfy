/** The payout worker protocol: any number of worker processes over one database, each
    running reconcile, maturity check, record and fan-out, cut at every await.  Processes may
    crash at any await; writes they had issued may land later or never. */
module PayoutProtocol {
  import opened Shared
  import opened PayoutTable
  import opened FanoutPass

  type Proc = nat
  type PassId = nat

  /** A row as reconcileInFlight selects it. */
  datatype Flight = Flight(key: Key, hash: Option<string>)

  /** What the main function of a worker is waiting for. */
  datatype Main =
    | Down
    | Scanning                                                       // findMany IN_FLIGHT
    | Reconciling(flights: seq<Flight>)                              // head: its update, or its buildLnClient
    | Asking(key: Key, flights: seq<Flight>)                         // getPaymentStatus
    | Resolving(key: Key, status: Status, flights: seq<Flight>)      // update PAID or FAILED
    | Polling                                                        // findMany FOUND
    | Watching(cands: seq<BlockId>, matured: seq<BlockId>)           // head: getblock
    | Marking(block: BlockId, mark: BlockStatus, caught: bool, cands: seq<BlockId>, matured: seq<BlockId>)
    | Fanning(matured: seq<BlockId>)                                 // head: snapshot read
    | Upserting(block: BlockId, writes: seq<Write>, matured: seq<BlockId>)
    | Starting(block: BlockId, matured: seq<BlockId>)                // block status read
    | Dialing(block: BlockId, matured: seq<BlockId>)                 // buildLnClient
    | FailingAll(block: BlockId, matured: seq<BlockId>)              // updateMany PENDING -> FAILED
    | Reading(block: BlockId, matured: seq<BlockId>)                 // findMany PENDING
    | Awaiting(pass: PassId, block: BlockId, matured: seq<BlockId>)  // Promise.all of the drain loops
    | Closing(block: BlockId, matured: seq<BlockId>)                 // update DUST_FANNED_OUT
    | Sleeping

  /** `log`, `seen` and `winner` are history: the calls made to the Lightning client, the blocks
      for which the node reported enough confirmations, and which loop won each row's claim. */
  datatype State = State(
    db: Db, log: seq<Call>, seen: set<BlockId>, winner: map<Key, (PassId, nat)>,
    mains: map<Proc, Main>, passes: map<PassId, Pass>, owner: map<PassId, Proc>, limbo: set<Write>)

  datatype Config = Config(maturityConfs: int, concurrency: nat)

  datatype Event =
    | Go
    | Error                        // the await rejected
    | Flights(flights: seq<Flight>)
    | Blocks(cands: seq<BlockId>)
    | Confirmations(n: int)
    | NotFound                     // "Block not found"
    | Client(present: bool)
    | Payment(paid: bool, pending: bool)
    | Items(items: seq<Item>, pass: PassId)

  datatype MainOut = MainOut(main: Main, write: Option<Write>, saw: set<BlockId>, started: Option<PassId>, pass: Pass,
                             lost: bool)

  const NO_PASS := Pass("", [], [], [], 0, 0)

  function Goto(m: Main): Option<MainOut> {
    Some(MainOut(m, None, {}, None, NO_PASS, false))
  }

  /** An issued write is confirmed, or its outcome is lost to the caller. */
  function Issue(w: Write, ev: Event, ok: Main, err: Main): Option<MainOut> {
    if ev.Go? then Some(MainOut(ok, Some(w), {}, None, NO_PASS, false))
    else if ev.Error? then Some(MainOut(err, Some(w), {}, None, NO_PASS, true))
    else None
  }

  /** The write a main function has issued and not yet seen confirmed. */
  function MainWrite(m: Main): Option<Write> {
    match m
    case Reconciling(fs) => if fs != [] && fs[0].hash.None? then Some(Finish(fs[0].key, Failed, None)) else None
    case Resolving(k, st, _) => Some(Finish(k, st, None))
    case Marking(b, st, _, _, _) => Some(SetStatus(b, st))
    case Upserting(_, ws, _) => if ws != [] then Some(ws[0]) else None
    case FailingAll(b, _) => Some(FailPending(b))
    case Closing(b, _) => Some(SetStatus(b, DustFannedOut))
    case _ => None
  }

  /** recordOnChainPayouts: one PAID row per member output, one PENDING row per dust entry. */
  function OnChainUpserts(b: BlockId, outs: seq<CoinbaseOutput>): seq<Write> {
    if outs == [] then []
    else
      var o := outs[0];
      (if o.kind == Member && o.pubkey.Some? && o.pubkey.value != ""
       then [Upsert(Key(b, o.pubkey.value, OnChain), Row(Paid, o.sats, None))] else [])
      + OnChainUpserts(b, outs[1..])
  }

  function DustUpserts(b: BlockId, dust: seq<DustEntry>): seq<Write> {
    if dust == [] then []
    else [Upsert(Key(b, dust[0].pubkey, LnDust), Row(Pending, dust[0].owed, None))] + DustUpserts(b, dust[1..])
  }

  function Upserts(b: BlockId, s: Snapshot): seq<Write> {
    OnChainUpserts(b, FlatOutputs(s)) + DustUpserts(b, Breakdown(s))
  }

  ghost predicate ListsInFlight(rows: map<Key, Row>, fs: seq<Flight>) {
    && (forall f :: f in fs ==>
          && f.key in rows && f.key.kind == LnDust && rows[f.key].status == InFlight
          && f.hash == rows[f.key].hash)
    && (forall k :: k in rows && k.kind == LnDust && rows[k].status == InFlight ==> Flight(k, rows[k].hash) in fs)
  }

  ghost predicate ListsPending(rows: map<Key, Row>, b: BlockId, items: seq<Item>) {
    && (forall it :: it in items ==> IsPendingDust(rows, it.key, b) && it.amount == rows[it.key].amount)
    && (forall k :: IsPendingDust(rows, k, b) ==> Item(k, rows[k].amount) in items)
    && (forall i, j :: 0 <= i < j < |items| ==> items[i].key != items[j].key)
  }

  predicate Distinct(bs: seq<BlockId>) { forall i, j :: 0 <= i < j < |bs| ==> bs[i] != bs[j] }

  predicate AllDone(p: Pass) { forall i :: 0 <= i < |p.slots| ==> p.slots[i].Done? }

  predicate AnyBroken(p: Pass) { exists i :: 0 <= i < |p.slots| && p.slots[i].Broken? }

  /** One await of a main function resolving; None when the event does not fit. */
  ghost function MainStep(c: Config, s: State, m: Main, ev: Event): Option<MainOut> {
    match m
    case Down => if ev.Go? then Goto(Scanning) else None
    case Scanning =>
      if ev.Flights? && ListsInFlight(s.db.rows, ev.flights) then Goto(Reconciling(ev.flights))
      else if ev.Error? then Goto(Polling) else None
    case Reconciling(fs) =>
      if fs == [] then (if ev.Go? then Goto(Polling) else None)
      else if fs[0].hash.None? then Issue(MainWrite(m).value, ev, Reconciling(fs[1..]), Polling)
      else if ev.Client? then Goto(if ev.present then Asking(fs[0].key, fs[1..]) else Reconciling(fs[1..]))
      else if ev.Error? then Goto(Polling) else None
    case Asking(k, fs) =>
      if ev.Payment? then
        Goto(if ev.paid then Resolving(k, Paid, fs)
             else if ev.pending then Reconciling(fs) else Resolving(k, Failed, fs))
      else if ev.Error? then Goto(Reconciling(fs)) else None
    case Resolving(k, st, fs) => Issue(MainWrite(m).value, ev, Reconciling(fs), Reconciling(fs))
    case Polling =>
      if ev.Blocks? && |ev.cands| <= 200
         && Distinct(ev.cands)
         && (forall b :: b in ev.cands ==> b in s.db.blocks && s.db.blocks[b].status == BlockStatus.Found)
      then Goto(Watching(ev.cands, []))
      else if ev.Error? then Goto(Sleeping) else None
    case Watching(cands, matured) =>
      if cands == [] then (if ev.Go? then Goto(Fanning(matured)) else None)
      else if ev.Confirmations? then
        if ev.n < 0 then Goto(Marking(cands[0], Orphaned, false, cands[1..], matured))
        else if ev.n >= c.maturityConfs then
          Some(Goto(Marking(cands[0], Matured, false, cands[1..], matured)).value.(saw := {cands[0]}))
        else Goto(Watching(cands[1..], matured))
      else if ev.NotFound? then Goto(Marking(cands[0], Orphaned, true, cands[1..], matured))
      else if ev.Error? then Goto(Watching(cands[1..], matured)) else None
    case Marking(b, st, caught, cands, matured) =>
      Issue(MainWrite(m).value, ev,
            Watching(cands, if st == Matured then matured + [b] else matured),
            if caught then Sleeping else Watching(cands, matured))
    case Fanning(matured) =>
      if matured == [] then (if ev.Go? then Goto(Sleeping) else None)
      else if ev.Go? && matured[0] in s.db.blocks then
        Goto(Upserting(matured[0], Upserts(matured[0], s.db.blocks[matured[0]].snapshot), matured[1..]))
      else if ev.Error? || ev.Go? then Goto(Sleeping) else None
    case Upserting(b, ws, matured) =>
      if ws == [] then (if ev.Go? then Goto(Starting(b, matured)) else None)
      else Issue(ws[0], ev, Upserting(b, ws[1..], matured), Sleeping)
    case Starting(b, matured) =>
      if ev.Go? then
        Goto(if b in s.db.blocks && s.db.blocks[b].status == Matured then Dialing(b, matured) else Sleeping)
      else if ev.Error? then Goto(Sleeping) else None
    case Dialing(b, matured) =>
      if ev.Client? then Goto(if ev.present then Reading(b, matured) else FailingAll(b, matured))
      else if ev.Error? then Goto(Sleeping) else None
    case FailingAll(b, matured) => Issue(MainWrite(m).value, ev, Fanning(matured), Sleeping)
    case Reading(b, matured) =>
      if ev.Items? && ev.pass !in s.passes && ListsPending(s.db.rows, b, ev.items) then
        Some(MainOut(Awaiting(ev.pass, b, matured), None, {},
                     Some(ev.pass), StartPass(b, ev.items, c.concurrency), false))
      else if ev.Error? then Goto(Sleeping) else None
    case Awaiting(pid, b, matured) =>
      if !ev.Go? || pid !in s.passes then None
      else if AnyBroken(s.passes[pid]) then Goto(Sleeping)
      else if !AllDone(s.passes[pid]) then None
      else Goto(if s.passes[pid].failed == 0 then Closing(b, matured) else Fanning(matured))
    case Closing(b, matured) => Issue(MainWrite(m).value, ev, Fanning(matured), Sleeping)
    case Sleeping => if ev.Go? then Goto(Polling) else None
  }

  /** The state after a main function took a step. */
  function AfterMain(s: State, p: Proc, o: MainOut): State {
    s.(mains := s.mains[p := o.main],
       db := if o.write.Some? && !o.lost then Apply(s.db, o.write.value) else s.db,
       limbo := if o.write.Some? && o.lost then s.limbo + {o.write.value} else s.limbo,
       seen := s.seen + o.saw,
       passes := if o.started.Some? then s.passes[o.started.value := o.pass] else s.passes,
       owner := if o.started.Some? then s.owner[o.started.value := p] else s.owner)
  }

  /** The state after drain loop `i` of pass `pid` took a step. */
  function AfterSlot(s: State, pid: PassId, i: nat, o: SlotOut): State
    requires pid in s.passes && i < |s.passes[pid].slots|
  {
    var pass := s.passes[pid];
    s.(db := o.db, log := s.log + o.calls, limbo := s.limbo + o.limbo,
       winner := if o.won.Some? then s.winner[o.won.value := (pid, i)] else s.winner,
       passes := s.passes[pid := Settle(pass, i, o)])
  }

  /** The writes a process has issued: its main function's and its drain loops'. */
  ghost predicate IssuedIn(s: State, p: Proc, w: Write) {
    || (p in s.mains && MainWrite(s.mains[p]) == Some(w))
    || (exists pid, i :: pid in s.passes && pid in s.owner && s.owner[pid] == p
          && 0 <= i < |s.passes[pid].slots| && PhaseWrite(s.passes[pid].slots[i]) == Some(w))
  }

  datatype Step =
    | FindBlock(block: BlockId, snapshot: Snapshot)  // stratum stores a found block
    | MainAct(proc: Proc, ev: Event)
    | SlotAct(pass: PassId, slot: nat, reply: Reply)
    | Crash(proc: Proc, left: set<Write>)
    | Land(write: Write)                             // an orphaned write reaches the database

  ghost predicate StepTo(c: Config, s: State, s': State, step: Step) {
    match step
    case FindBlock(b, snap) =>
      b !in s.db.blocks && s' == s.(db := s.db.(blocks := s.db.blocks[b := Block(BlockStatus.Found, snap)]))
    case MainAct(p, ev) =>
      var o := MainStep(c, s, if p in s.mains then s.mains[p] else Down, ev);
      o.Some? && s' == AfterMain(s, p, o.value)
    case SlotAct(pid, i, r) =>
      && pid in s.passes && i < |s.passes[pid].slots|
      && var o := SlotStep(s.db, s.passes[pid].slots[i], r);
         o.Some? && s' == AfterSlot(s, pid, i, o.value)
    case Crash(p, left) =>
      && (forall w :: w in left ==> IssuedIn(s, p, w))
      && s' == s.(mains := s.mains[p := Down], limbo := s.limbo + left,
                  passes := map pid | pid in s.passes && !(pid in s.owner && s.owner[pid] == p) :: s.passes[pid])
    case Land(w) =>
      w in s.limbo && s' == s.(db := Apply(s.db, w), limbo := s.limbo - {w})
  }

  ghost predicate Next(c: Config, s: State, s': State) {
    exists step :: StepTo(c, s, s', step)
  }

  /** Before any worker ran: no rows, no calls, no processes. */
  ghost predicate Init(s: State) {
    && s.db.rows == map[] && s.log == [] && s.seen == {} && s.winner == map[]
    && s.mains == map[] && s.passes == map[] && s.owner == map[] && s.limbo == {}
    && (forall b :: b in s.db.blocks ==> s.db.blocks[b].status == BlockStatus.Found)
  }

  ghost predicate StepAt(c: Config, run: seq<State>, i: nat)
    requires 0 < i < |run|
  {
    Next(c, run[i - 1], run[i])
  }

  ghost predicate IsRun(c: Config, run: seq<State>) {
    |run| > 0 && Init(run[0]) && forall i :: 0 < i < |run| ==> StepAt(c, run, i)
  }
}
