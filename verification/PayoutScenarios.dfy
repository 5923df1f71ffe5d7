/** Runs that show what the payout protocol does not promise. */
module PayoutScenarios {
  import opened Shared
  import opened PayoutTable
  import opened FanoutPass
  import opened PayoutProtocol
  import opened PayoutDropped
  import opened PayoutCalls
  import opened PayoutPaths
  import C = PayoutClosing
  import W = PayoutWorker

  // ----- one block, one member owed dust -----

  function Owing(member: Pubkey, amount: nat): Snapshot { Snapshot.Split([], [DustEntry(member, amount)]) }

  function RowKey(b: BlockId, member: Pubkey): Key { Key(b, member, LnDust) }

  function Blocks1(b: BlockId, member: Pubkey, amount: nat, st: BlockStatus): map<BlockId, Block> {
    map[b := Block(st, Owing(member, amount))]
  }

  function Rows1(b: BlockId, member: Pubkey, amount: nat, st: Status): map<Key, Row> {
    map[RowKey(b, member) := Row(st, amount, None)]
  }

  /** The block was found, no worker has run. */
  function Start(b: BlockId, member: Pubkey, amount: nat): State {
    State(Db(map[], Blocks1(b, member, amount, BlockStatus.Found)), [], {}, map[], map[], map[], map[], {})
  }

  /** The block is matured and its row recorded and pending. */
  function Recorded1(b: BlockId, member: Pubkey, amount: nat): Db {
    Db(Rows1(b, member, amount, Pending), Blocks1(b, member, amount, Matured))
  }

  // ----- what a worker does up to the fan-out -----

  lemma {:induction false} Boots(c: Config, s: State, p: Proc, cands: seq<BlockId>)
    requires p !in s.mains && |cands| <= 200 && Distinct(cands) && ListsInFlight(s.db.rows, [])
    requires forall b :: b in cands ==> b in s.db.blocks && s.db.blocks[b].status == BlockStatus.Found
    ensures CanReach(c, s, At(s, p, Watching(cands, [])))
  {
    assert s.seen + {} == s.seen;
    assert AfterMain(s, p, Goto(Scanning).value) == At(s, p, Scanning);
    Reaches(c, s, At(s, p, Scanning), MainAct(p, Go));
    Goes(c, s, p, Scanning, Flights([]), Reconciling([]));
    Goes(c, s, p, Reconciling([]), Go, Polling);
    Goes(c, s, p, Polling, Blocks(cands), Watching(cands, []));
    Transitive(c, s, At(s, p, Scanning), At(s, p, Reconciling([])));
    Transitive(c, s, At(s, p, Reconciling([])), At(s, p, Polling));
    Transitive(c, s, At(s, p, Polling), At(s, p, Watching(cands, [])));
  }

  lemma {:induction false} PromotesIt(c: Config, s: State, p: Proc, b: BlockId)
    ensures CanReach(c, At(s, p, Watching([b], [])), At(Marked(s, b), p, Fanning([b])))
  {
    assert [] + [b] == [b] && [b][1..] == [];
    Promotes(c, s, p, [b], []);
    Goes(c, Marked(s, b), p, Watching([], [b]), Go, Fanning([b]));
    Transitive(c, At(s, p, Watching([b], [])), At(Marked(s, b), p, Watching([], [b])),
               At(Marked(s, b), p, Fanning([b])));
  }

  lemma {:induction false} RecordsBlock(c: Config, s: State, p: Proc, b: BlockId)
    requires b in s.db.blocks
    ensures CanReach(c, At(s, p, Fanning([b])),
      At(s.(db := W.ApplyAll(s.db, Upserts(b, s.db.blocks[b].snapshot))), p, Starting(b, [])))
  {
    var ws := Upserts(b, s.db.blocks[b].snapshot);
    UpsertsAre(b, s.db.blocks[b].snapshot);
    assert [b][1..] == [];
    Goes(c, s, p, Fanning([b]), Go, Upserting(b, ws, []));
    RecordsAll(c, s, p, b, ws, []);
    Transitive(c, At(s, p, Fanning([b])), At(s, p, Upserting(b, ws, [])),
      At(s.(db := W.ApplyAll(s.db, ws)), p, Starting(b, [])));
  }

  lemma {:induction false} RecordedOnce(db: Db, b: BlockId, member: Pubkey, amount: nat)
    requires db.rows == map[] || db.rows == Rows1(b, member, amount, Pending)
    ensures W.ApplyAll(db, Upserts(b, Owing(member, amount))) == db.(rows := Rows1(b, member, amount, Pending))
  {
    var w := Upsert(RowKey(b, member), Row(Pending, amount, None));
    assert [DustEntry(member, amount)][1..] == [];
    assert DustUpserts(b, []) == [] && DustUpserts(b, [DustEntry(member, amount)]) == [w];
    assert Upserts(b, Owing(member, amount)) == [w] && [w][1..] == [];
    assert W.ApplyAll(Apply(db, w), []) == Apply(db, w);
  }

  /** A worker that watches the block, matured or not, gets to the point of starting its fan-out. */
  lemma {:induction false} GetsToStarting(c: Config, s: State, p: Proc, b: BlockId, member: Pubkey, amount: nat)
    requires s.db == Start(b, member, amount).db || s.db == Recorded1(b, member, amount)
    ensures CanReach(c, At(s, p, Watching([b], [])),
                     At(s.(db := Recorded1(b, member, amount), seen := s.seen + {b}), p, Starting(b, [])))
  {
    var t := Marked(s, b);
    PromotesIt(c, s, p, b);
    assert t.db.blocks == Blocks1(b, member, amount, Matured);
    RecordedOnce(t.db, b, member, amount);
    RecordsBlock(c, t, p, b);
    Transitive(c, At(s, p, Watching([b], [])), At(t, p, Fanning([b])),
      At(t.(db := Recorded1(b, member, amount)), p, Starting(b, [])));
  }

  lemma {:induction false} OneStateRun(c: Config, b: BlockId, member: Pubkey, amount: nat)
    ensures IsRun(c, [Start(b, member, amount)])
  {}

  lemma {:induction false} NothingKept(s: State, p: Proc)
    ensures var kept := map pid | pid in s.passes && !(pid in s.owner && s.owner[pid] == p) :: s.passes[pid];
      (forall pid :: pid in s.passes ==> pid in s.owner && s.owner[pid] == p) ==> kept == map[]
  {}

  /** Everything of the one process that ran is gone. */
  lemma {:induction false} CrashAlone(c: Config, s: State, p: Proc, m: Main)
    requires forall pid :: pid in s.passes ==> pid in s.owner && s.owner[pid] == p
    ensures CanReach(c, At(s, p, m), At(s.(passes := map[]), p, Down))
  {
    var from, to := At(s, p, m), At(s.(passes := map[]), p, Down);
    AtTwice(s, p, m, Down);
    assert from.limbo + {} == from.limbo;
    NothingKept(from, p);
    Reaches(c, from, to, Crash(p, {}));
  }

  // ----- a tick that dies -----

  /** The one worker that promoted the block crashes before it pays: the block is dropped with its
      row pending, so it is never paid. */
  lemma {:induction false} TickDies(c: Config, b: BlockId, member: Pubkey, amount: nat) returns (run: seq<State>)
    ensures IsRun(c, run)
    ensures var s := run[|run| - 1];
      Dropped(s, b) && IsMatured(s.db, b) && IsPending(s.db, RowKey(b, member)) && s.log == []
  {
    var s0 := Start(b, member, amount);
    var s1 := s0.(db := Recorded1(b, member, amount), seen := s0.seen + {b});
    OneStateRun(c, b, member, amount);
    Boots(c, s0, 0, [b]);
    GetsToStarting(c, s0, 0, b, member, amount);
    CrashAlone(c, s1, 0, Starting(b, []));
    Transitive(c, s0, At(s0, 0, Watching([b], [])), At(s1, 0, Starting(b, [])));
    Transitive(c, s0, At(s1, 0, Starting(b, [])), At(s1.(passes := map[]), 0, Down));
    run := Continue(c, [s0], At(s1.(passes := map[]), 0, Down));
  }

  // ----- a payment that reconciliation writes off -----

  lemma {:induction false} OneListed(b: BlockId, member: Pubkey, amount: nat)
    ensures ListsPending(Rows1(b, member, amount, Pending), b, [Item(RowKey(b, member), amount)])
  {
    var rows, it := Rows1(b, member, amount, Pending), Item(RowKey(b, member), amount);
    assert [it][0] == it;
    assert forall k :: IsPendingDust(rows, k, b) ==> k == it.key;
  }

  lemma {:induction false} Dials(c: Config, s: State, p: Proc, b: BlockId)
    requires IsMatured(s.db, b)
    ensures CanReach(c, At(s, p, Starting(b, [])), At(s, p, Reading(b, [])))
  {
    Goes(c, s, p, Starting(b, []), Go, Dialing(b, []));
    Goes(c, s, p, Dialing(b, []), Client(true), Reading(b, []));
    Transitive(c, At(s, p, Starting(b, [])), At(s, p, Dialing(b, [])), At(s, p, Reading(b, [])));
  }

  /** The fan-out opens a pass whose one loop claims the one row. */
  lemma {:induction false} GetsToClaiming(c: Config, s: State, p: Proc, b: BlockId, member: Pubkey, amount: nat,
                                          pid: PassId)
    requires c.concurrency >= 1 && s.db == Recorded1(b, member, amount) && pid !in s.passes
    ensures var it := Item(RowKey(b, member), amount); var t := Opened(c, s, p, b, [], [it], pid);
      CanReach(c, At(s, p, Starting(b, [])), t) && t.passes[pid] == Pass(b, [it], [], [Claiming(it)], 0, 0)
  {
    var it := Item(RowKey(b, member), amount);
    OneListed(b, member, amount);
    assert StartPass(b, [it], c.concurrency) == Pass(b, [it], [], [Claiming(it)], 0, 0);
    Dials(c, s, p, b);
    Opens(c, s, p, b, [], [it], pid);
    Transitive(c, At(s, p, Starting(b, [])), At(s, p, Reading(b, [])), Opened(c, s, p, b, [], [it], pid));
  }

  /** A sole worker has opened its pass over the block's one row. */
  lemma {:induction false} ReachesClaiming(c: Config, b: BlockId, member: Pubkey, amount: nat) returns (t: State)
    requires c.concurrency >= 1
    ensures CanReach(c, Start(b, member, amount), t)
    ensures var it := Item(RowKey(b, member), amount);
      && t.db == Recorded1(b, member, amount) && t.log == [] && t.limbo == {} && t.owner == map[0 := 0]
      && t.mains == map[0 := Awaiting(0, b, [])] && t.passes == map[0 := Pass(b, [it], [], [Claiming(it)], 0, 0)]
  {
    var s0 := Start(b, member, amount);
    var s1 := s0.(db := Recorded1(b, member, amount), seen := s0.seen + {b});
    Boots(c, s0, 0, [b]);
    GetsToStarting(c, s0, 0, b, member, amount);
    GetsToClaiming(c, s1, 0, b, member, amount, 0);
    t := Opened(c, s1, 0, b, [], [Item(RowKey(b, member), amount)], 0);
    Transitive(c, s0, At(s0, 0, Watching([b], [])), At(s1, 0, Starting(b, [])));
    Transitive(c, s0, At(s1, 0, Starting(b, [])), t);
  }

  /** Slot 0 of a pass over one item moves on, nothing else but the rows changes. */
  function Moved(s: State, pid: PassId, b: BlockId, it: Item, phase: Phase, rows: map<Key, Row>): State {
    s.(db := s.db.(rows := rows), passes := s.passes[pid := Pass(b, [it], [], [phase], 0, 0)])
  }

  lemma {:induction false} WinsClaim(c: Config, s: State, b: BlockId, member: Pubkey, amount: nat, pid: PassId)
    requires s.db == Recorded1(b, member, amount) && pid in s.passes
    requires s.passes[pid]
      == Pass(b, [Item(RowKey(b, member), amount)], [], [Claiming(Item(RowKey(b, member), amount))], 0, 0)
    ensures var it := Item(RowKey(b, member), amount);
      CanReach(c, s, Moved(s, pid, b, it, Looking(it), Rows1(b, member, amount, InFlight))
                     .(winner := s.winner[it.key := (pid, 0)]))
  {
    SlotMoves(c, s, pid, 0, Ok);
    ClaimWon(s, b, member, amount, pid);
  }

  lemma {:induction false} ClaimWon(s: State, b: BlockId, member: Pubkey, amount: nat, pid: PassId)
    requires s.db == Recorded1(b, member, amount) && pid in s.passes
    requires s.passes[pid]
      == Pass(b, [Item(RowKey(b, member), amount)], [], [Claiming(Item(RowKey(b, member), amount))], 0, 0)
    ensures var it := Item(RowKey(b, member), amount);
      && SlotStep(s.db, Claiming(it), Ok).Some?
      && AfterSlot(s, pid, 0, SlotStep(s.db, Claiming(it), Ok).value)
        == Moved(s, pid, b, it, Looking(it), Rows1(b, member, amount, InFlight))
           .(winner := s.winner[it.key := (pid, 0)])
  {
    var it := Item(RowKey(b, member), amount);
    var u := AfterSlot(s, pid, 0, SlotStep(s.db, Claiming(it), Ok).value);
    assert u.passes[pid].slots == [Looking(it)] && s.log + [] == s.log && s.limbo + {} == s.limbo;
    assert u.db.rows == Rows1(b, member, amount, InFlight);
  }

  lemma {:induction false} FindsMember(c: Config, s: State, b: BlockId, it: Item, pid: PassId)
    requires pid in s.passes && s.passes[pid] == Pass(b, [it], [], [Looking(it)], 0, 0)
    ensures CanReach(c, s, Moved(s, pid, b, it, Paying(it), s.db.rows).(log := s.log + [Call(it.key, it.amount)]))
  {
    SlotMoves(c, s, pid, 0, Reply.Found);
    var t := AfterSlot(s, pid, 0, SlotStep(s.db, Looking(it), Reply.Found).value);
    assert t.passes[pid].slots == [Paying(it)] && s.limbo + {} == s.limbo;
  }

  /** The claim wins, the member is found, the wallet is asked. */
  lemma {:induction false} ClaimsAndPays(c: Config, s: State, b: BlockId, member: Pubkey, amount: nat, pid: PassId)
    returns (t: State)
    requires s.db == Recorded1(b, member, amount) && pid in s.passes
    requires s.passes[pid]
      == Pass(b, [Item(RowKey(b, member), amount)], [], [Claiming(Item(RowKey(b, member), amount))], 0, 0)
    ensures var it := Item(RowKey(b, member), amount);
      && CanReach(c, s, t) && t.mains == s.mains && t.owner == s.owner && t.limbo == s.limbo && t.seen == s.seen
      && t.db == s.db.(rows := Rows1(b, member, amount, InFlight))
      && t.passes == s.passes[pid := Pass(b, [it], [], [Paying(it)], 0, 0)]
      && t.log == s.log + [Call(it.key, amount)]
  {
    var it := Item(RowKey(b, member), amount);
    WinsClaim(c, s, b, member, amount, pid);
    var u := Moved(s, pid, b, it, Looking(it), Rows1(b, member, amount, InFlight))
             .(winner := s.winner[it.key := (pid, 0)]);
    FindsMember(c, u, b, it, pid);
    t := Moved(u, pid, b, it, Paying(it), u.db.rows).(log := u.log + [Call(it.key, it.amount)]);
    Transitive(c, s, u, t);
    assert t.passes == s.passes[pid := Pass(b, [it], [], [Paying(it)], 0, 0)];
  }

  /** The wallet has been asked to pay, the worker crashes before it records the answer, restarts
      and reconciles: the row is FAILED, whatever the wallet did. */
  lemma {:induction false} PaidRowIsWrittenOff(c: Config, b: BlockId, member: Pubkey, amount: nat)
    returns (run: seq<State>)
    requires c.concurrency >= 1
    ensures IsRun(c, run)
    ensures var s, k := run[|run| - 1], RowKey(b, member);
      s.log == [Call(k, amount)] && k in s.db.rows && s.db.rows[k].status == Failed && s.limbo == {}
  {
    var s0, it := Start(b, member, amount), Item(RowKey(b, member), amount);
    OneStateRun(c, b, member, amount);
    var s2 := ReachesClaiming(c, b, member, amount);
    var s3 := ClaimsAndPays(c, s2, b, member, amount, 0);
    Transitive(c, s0, s2, s3);
    InPlace(s3, 0);
    CrashAlone(c, s3, 0, s3.mains[0]);
    var s4 := s3.(passes := map[]);
    Transitive(c, s0, s3, At(s4, 0, Down));
    var s5 := Recovers(c, s4, b, member, amount);
    Transitive(c, s0, At(s4, 0, Down), s5);
    run := Continue(c, [s0], s5);
  }

  lemma {:induction false} FlightListed(b: BlockId, member: Pubkey, amount: nat)
    ensures ListsInFlight(Rows1(b, member, amount, InFlight), [Flight(RowKey(b, member), None)])
  {
    var flight := Flight(RowKey(b, member), None);
    assert [flight][0] == flight;
  }

  lemma {:induction false} Rescans(c: Config, s: State, flights: seq<Flight>)
    requires ListsInFlight(s.db.rows, flights)
    ensures CanReach(c, At(s, 0, Down), At(s, 0, Reconciling(flights)))
  {
    Goes(c, s, 0, Down, Go, Scanning);
    Goes(c, s, 0, Scanning, Flights(flights), Reconciling(flights));
    Transitive(c, At(s, 0, Down), At(s, 0, Scanning), At(s, 0, Reconciling(flights)));
  }

  lemma {:induction false} Recovers(c: Config, s: State, b: BlockId, member: Pubkey, amount: nat) returns (t: State)
    requires s.db.rows == Rows1(b, member, amount, InFlight)
    ensures CanReach(c, At(s, 0, Down), t) && t.log == s.log && t.limbo == s.limbo
    ensures t.db.rows == Rows1(b, member, amount, Failed)
  {
    var k := RowKey(b, member);
    var flight := Flight(k, None);
    FlightListed(b, member, amount);
    Rescans(c, s, [flight]);
    t := WritesOff(c, s, flight);
    assert t.db.rows == Rows1(b, member, amount, Failed);
    Transitive(c, At(s, 0, Down), At(s, 0, Reconciling([flight])), t);
  }

  lemma {:induction false} WritesOff(c: Config, s: State, flight: Flight) returns (t: State)
    requires flight.hash == None
    ensures CanReach(c, At(s, 0, Reconciling([flight])), t) && t.log == s.log && t.limbo == s.limbo
    ensures t.db == Apply(s.db, Finish(flight.key, Failed, None))
  {
    var w := Finish(flight.key, Failed, None);
    assert [flight][1..] == [];
    Writes(c, s, 0, Reconciling([flight]), w, Reconciling([]));
    t := At(s.(db := Apply(s.db, w)), 0, Reconciling([]));
  }

  // ----- a payment whose records fail -----

  /** The one loop moves on, and the row with it. */
  lemma {:induction false} LoopMoves(c: Config, s: State, pid: PassId, b: BlockId, it: Item, p: Phase, r: Reply,
                                     paid: nat) returns (t: State)
    requires pid in s.passes && s.passes[pid] == Pass(b, [it], [], [p], paid, 0) && SlotStep(s.db, p, r).Some?
    requires SlotStep(s.db, p, r).value.after.Stay? && SlotStep(s.db, p, r).value.failed == 0
    ensures var o := SlotStep(s.db, p, r).value;
      && CanReach(c, s, t) && t.mains == s.mains && t.db == o.db && t.log == s.log + o.calls
      && t.limbo == s.limbo + o.limbo
      && t.passes == s.passes[pid := Pass(b, [it], [], [o.after.phase], paid + o.paid, 0)]
  {
    var o := SlotStep(s.db, p, r).value;
    SlotMoves(c, s, pid, 0, r);
    t := AfterSlot(s, pid, 0, o);
    assert t.passes[pid].slots == [o.after.phase];
  }

  lemma {:induction false} FailsRow(c: Config, s: State, pid: PassId, b: BlockId, it: Item, paid: nat)
    returns (t: State)
    requires pid in s.passes && s.passes[pid] == Pass(b, [it], [], [Failing(it)], paid, 0) && it.key in s.db.rows
    ensures CanReach(c, s, t) && t.mains == s.mains && t.log == s.log && t.limbo == s.limbo
    ensures t.db == s.db.(rows := s.db.rows[it.key := s.db.rows[it.key].(status := Failed)])
    ensures t.passes == s.passes[pid := Pass(b, [it], [], [Done], paid, 1)]
  {
    SlotMoves(c, s, pid, 0, Ok);
    t := AfterSlot(s, pid, 0, SlotStep(s.db, Failing(it), Ok).value);
    assert t.passes[pid].slots == [Done] && s.log + [] == s.log && s.limbo + {} == s.limbo;
  }

  lemma {:induction false} GetsAnswer(c: Config, b: BlockId, member: Pubkey, amount: nat, hash: string)
    returns (t: State)
    requires c.concurrency >= 1
    ensures var it := Item(RowKey(b, member), amount);
      && CanReach(c, Start(b, member, amount), t) && t.limbo == {} && t.log == [Call(it.key, amount)]
      && t.db.rows == Rows1(b, member, amount, InFlight) && IsMatured(t.db, b)
      && t.passes == map[0 := Pass(b, [it], [], [Recording(it, hash)], 0, 0)]
  {
    var s0, it := Start(b, member, amount), Item(RowKey(b, member), amount);
    var s2 := ReachesClaiming(c, b, member, amount);
    var s3 := ClaimsAndPays(c, s2, b, member, amount, 0);
    t := LoopMoves(c, s3, 0, b, it, Paying(it), PaidWith(hash), 0);
    Transitive(c, s0, s2, s3);
    Transitive(c, s0, s3, t);
    assert s3.log + [] == s3.log;
  }

  /** The wallet paid and the row was recorded as PAID, but its receipt could not be stored: the row ends
      FAILED with the hash of its payment, counted both as paid and as failed, and the block stays MATURED. */
  lemma {:induction false} LostReceiptFailsRow(c: Config, b: BlockId, member: Pubkey, amount: nat, hash: string)
    returns (run: seq<State>)
    requires c.concurrency >= 1
    ensures IsRun(c, run)
    ensures var s, k := run[|run| - 1], RowKey(b, member);
      && s.log == [Call(k, amount)] && s.db.rows == map[k := Row(Failed, amount, Some(hash))] && IsMatured(s.db, b)
      && s.passes == map[0 := Pass(b, [Item(k, amount)], [], [Done], 1, 1)]
  {
    var s0, it := Start(b, member, amount), Item(RowKey(b, member), amount);
    OneStateRun(c, b, member, amount);
    var s1 := GetsAnswer(c, b, member, amount, hash);
    var s2 := LoopMoves(c, s1, 0, b, it, Recording(it, hash), Reply.Ok, 0);
    var s3 := LoopMoves(c, s2, 0, b, it, Zapping(it), Lost, 1);
    var s4 := FailsRow(c, s3, 0, b, it, 1);
    Transitive(c, s0, s1, s2);
    Transitive(c, s0, s2, s3);
    Transitive(c, s0, s3, s4);
    run := Continue(c, [s0], s4);
    assert s4.log == s1.log;
  }

  /** The wallet paid but the PAID update was rejected: the row ends FAILED without a hash, and the update
      may still land. */
  lemma {:induction false} LostRecordFailsRow(c: Config, b: BlockId, member: Pubkey, amount: nat, hash: string)
    returns (run: seq<State>)
    requires c.concurrency >= 1
    ensures IsRun(c, run)
    ensures var s, k := run[|run| - 1], RowKey(b, member);
      && s.log == [Call(k, amount)] && s.db.rows == map[k := Row(Failed, amount, None)] && IsMatured(s.db, b)
      && s.limbo == {Finish(k, Paid, Some(hash))}
  {
    var s0, it := Start(b, member, amount), Item(RowKey(b, member), amount);
    OneStateRun(c, b, member, amount);
    var s1 := GetsAnswer(c, b, member, amount, hash);
    var s2 := LoopMoves(c, s1, 0, b, it, Recording(it, hash), Lost, 0);
    var s3 := FailsRow(c, s2, 0, b, it, 0);
    Transitive(c, s0, s1, s2);
    Transitive(c, s0, s2, s3);
    run := Continue(c, [s0], s3);
    assert s3.log == s1.log;
  }

  // ----- a tick that ends on a rejected claim -----

  lemma {:induction false} BreaksClaim(c: Config, s: State, b: BlockId, it: Item, pid: PassId) returns (t: State)
    requires pid in s.passes && s.passes[pid] == Pass(b, [it], [], [Claiming(it)], 0, 0)
    ensures CanReach(c, s, t) && t.mains == s.mains && t.db == s.db && t.log == s.log
    ensures t.passes == s.passes[pid := Pass(b, [it], [], [Broken], 0, 0)]
  {
    SlotMoves(c, s, pid, 0, Lost);
    t := AfterSlot(s, pid, 0, SlotStep(s.db, Claiming(it), Lost).value);
    assert t.passes[pid].slots == [Broken] && s.log + [] == s.log;
  }

  /** Awaiting loops of which one broke ends the tick. */
  lemma {:induction false} BrokenEndsTick(c: Config, s: State, p: Proc, pid: PassId, b: BlockId)
    requires p in s.mains && s.mains[p] == Awaiting(pid, b, []) && pid in s.passes && AnyBroken(s.passes[pid])
    ensures CanReach(c, s, At(s, p, Sleeping))
  {
    InPlace(s, p);
    Goes(c, s, p, Awaiting(pid, b, []), Go, Sleeping);
  }

  /** The one worker that promoted the block sees its one claim rejected: it goes to sleep with the
      block matured and dropped, and the row is never paid. */
  lemma {:induction false} RejectedClaimDrops(c: Config, b: BlockId, member: Pubkey, amount: nat)
    returns (run: seq<State>)
    requires c.concurrency >= 1
    ensures IsRun(c, run)
    ensures var s := run[|run| - 1];
      && Dropped(s, b) && IsMatured(s.db, b) && IsPending(s.db, RowKey(b, member)) && s.log == []
      && s.mains == map[0 := Sleeping]
  {
    var s0, it := Start(b, member, amount), Item(RowKey(b, member), amount);
    OneStateRun(c, b, member, amount);
    var s2 := ReachesClaiming(c, b, member, amount);
    var s3 := BreaksClaim(c, s2, b, it, 0);
    assert s3.passes[0].slots[0].Broken?;
    BrokenEndsTick(c, s3, 0, 0, b);
    var s4 := At(s3, 0, Sleeping);
    Transitive(c, s0, s2, s3);
    Transitive(c, s0, s3, s4);
    run := Continue(c, [s0], s4);
    NobodyHolds(s4, b);
  }

  /** Every main function is asleep or down and every loop has ended. */
  lemma {:induction false} NobodyHolds(s: State, b: BlockId)
    requires LeftFound(s.db, b) && forall p :: p in s.mains ==> s.mains[p].Sleeping? || s.mains[p].Down?
    requires forall pid, i :: pid in s.passes && 0 <= i < |s.passes[pid].slots| ==>
      s.passes[pid].slots[i].Done? || s.passes[pid].slots[i].Broken?
    ensures Dropped(s, b)
  {}

  // ----- a block marked as fanned out whose dust is not paid -----

  lemma {:induction false} Commutes(s: State, p: Proc, m: Main, q: Proc, n: Main)
    requires p != q
    ensures At(At(s, p, m), q, n) == At(At(s, q, n), p, m)
  {
    assert s.mains[p := m][q := n] == s.mains[q := n][p := m];
  }

  /** A worker whose loops ended without a failure marks the block. */
  lemma {:induction false} Closes(c: Config, s: State, p: Proc, b: BlockId, pid: PassId)
    requires pid in s.passes && s.passes[pid].failed == 0 && AllDone(s.passes[pid])
    ensures CanReach(c, At(s, p, Awaiting(pid, b, [])),
      At(s.(db := Apply(s.db, SetStatus(b, DustFannedOut))), p, Fanning([])))
  {
    Goes(c, s, p, Awaiting(pid, b, []), Go, Closing(b, []));
    Writes(c, s, p, Closing(b, []), SetStatus(b, DustFannedOut), Fanning([]));
    Transitive(c, At(s, p, Awaiting(pid, b, [])), At(s, p, Closing(b, [])),
               At(s.(db := Apply(s.db, SetStatus(b, DustFannedOut))), p, Fanning([])));
  }

  lemma {:induction false} LosesClaim(c: Config, s: State, b: BlockId, it: Item, pid: PassId) returns (t: State)
    requires pid in s.passes && s.passes[pid] == Pass(b, [it], [], [Claiming(it)], 0, 0)
    requires it.key in s.db.rows && s.db.rows[it.key].status != Pending
    ensures CanReach(c, s, t) && t == s.(passes := s.passes[pid := Pass(b, [it], [], [Done], 0, 0)])
  {
    SlotMoves(c, s, pid, 0, Ok);
    t := AfterSlot(s, pid, 0, SlotStep(s.db, Claiming(it), Ok).value);
    assert t.passes[pid].slots == [Done] && s.log + [] == s.log && s.limbo + {} == s.limbo;
  }

  lemma {:induction false} IsRefused(c: Config, s: State, b: BlockId, it: Item, pid: PassId) returns (t: State)
    requires pid in s.passes && s.passes[pid] == Pass(b, [it], [], [Paying(it)], 0, 0) && it.key in s.db.rows
    ensures CanReach(c, s, t) && t.db == Apply(s.db, Finish(it.key, Failed, None))
  {
    SlotMoves(c, s, pid, 0, Refused);
    var u := AfterSlot(s, pid, 0, SlotStep(s.db, Paying(it), Refused).value);
    assert u.passes[pid].slots == [Failing(it)];
    SlotMoves(c, u, pid, 0, Ok);
    t := AfterSlot(u, pid, 0, SlotStep(u.db, Failing(it), Ok).value);
    Transitive(c, s, u, t);
  }

  /** Two workers promote the block and read its row; each holds a loop about to claim it. */
  lemma {:induction false} TwoWorkersClaim(c: Config, b: BlockId, member: Pubkey, amount: nat) returns (t: State)
    requires c.concurrency >= 1
    ensures CanReach(c, Start(b, member, amount), t)
    ensures var it := Item(RowKey(b, member), amount); var pass := Pass(b, [it], [], [Claiming(it)], 0, 0);
      && t.db == Recorded1(b, member, amount) && t.passes == map[0 := pass, 1 := pass]
      && 1 in t.mains && t.mains[1] == Awaiting(1, b, [])
  {
    var s0, w := Start(b, member, amount), Watching([b], []);
    var it := Item(RowKey(b, member), amount);
    Boots(c, s0, 0, [b]);
    Boots(c, At(s0, 0, w), 1, [b]);
    Transitive(c, s0, At(s0, 0, w), At(At(s0, 0, w), 1, w));
    Commutes(s0, 0, w, 1, w);
    var x := At(s0, 1, w);
    GetsToStarting(c, x, 0, b, member, amount);
    var x1 := x.(db := Recorded1(b, member, amount), seen := x.seen + {b});
    Transitive(c, s0, At(x, 0, w), At(x1, 0, Starting(b, [])));
    GetsToClaiming(c, x1, 0, b, member, amount, 0);
    var y := Opened(c, x1, 0, b, [], [it], 0);
    Transitive(c, s0, At(x1, 0, Starting(b, [])), y);
    t := SecondWorkerClaims(c, y, b, member, amount);
    Transitive(c, s0, y, t);
  }

  lemma {:induction false} SecondWorkerClaims(c: Config, y: State, b: BlockId, member: Pubkey, amount: nat)
    returns (t: State)
    requires c.concurrency >= 1 && y.db == Recorded1(b, member, amount) && 1 !in y.passes
    requires 1 in y.mains && y.mains[1] == Watching([b], [])
    ensures CanReach(c, y, t) && t.db == y.db && 1 in t.mains && t.mains[1] == Awaiting(1, b, [])
    ensures var it := Item(RowKey(b, member), amount);
      t.passes == y.passes[1 := Pass(b, [it], [], [Claiming(it)], 0, 0)]
  {
    var it := Item(RowKey(b, member), amount);
    InPlace(y, 1);
    GetsToStarting(c, y, 1, b, member, amount);
    var y1 := y.(db := Recorded1(b, member, amount), seen := y.seen + {b});
    GetsToClaiming(c, y1, 1, b, member, amount, 1);
    t := Opened(c, y1, 1, b, [], [it], 1);
    Transitive(c, y, At(y1, 1, Starting(b, [])), t);
  }

  /** With two workers a block can be marked as fanned out by the one that paid nothing, while the
      row that the other one claimed ends FAILED. */
  lemma {:induction false} MarkedWithoutPaying(c: Config, b: BlockId, member: Pubkey, amount: nat)
    returns (run: seq<State>)
    requires c.concurrency >= 1
    ensures IsRun(c, run)
    ensures var s, k := run[|run| - 1], RowKey(b, member);
      && b in s.db.blocks && s.db.blocks[b].status == DustFannedOut
      && k in s.db.rows && s.db.rows[k].status == Failed
  {
    var s0, it := Start(b, member, amount), Item(RowKey(b, member), amount);
    OneStateRun(c, b, member, amount);
    var s1 := TwoWorkersClaim(c, b, member, amount);
    var s2 := ClaimsAndPays(c, s1, b, member, amount, 0);
    var s3 := LosesClaim(c, s2, b, it, 1);
    InPlace(s3, 1);
    Closes(c, s3, 1, b, 1);
    var s4 := At(s3.(db := Apply(s3.db, SetStatus(b, DustFannedOut))), 1, Fanning([]));
    var s5 := IsRefused(c, s4, b, it, 0);
    Transitive(c, s0, s1, s2);
    Transitive(c, s0, s2, s3);
    Transitive(c, s0, s3, s4);
    Transitive(c, s0, s4, s5);
    run := Continue(c, [s0], s5);
  }

  /** Without concurrency a block is marked as fanned out with its rows still pending. */
  lemma {:induction false} MarkedWhilePending(c: Config, b: BlockId, member: Pubkey, amount: nat)
    returns (run: seq<State>)
    requires c.concurrency == 0
    ensures IsRun(c, run)
    ensures var s, k := run[|run| - 1], RowKey(b, member);
      b in s.db.blocks && s.db.blocks[b].status == DustFannedOut && IsPending(s.db, k) && s.log == []
  {
    var s0, it := Start(b, member, amount), Item(RowKey(b, member), amount);
    OneStateRun(c, b, member, amount);
    Boots(c, s0, 0, [b]);
    GetsToStarting(c, s0, 0, b, member, amount);
    var s1 := s0.(db := Recorded1(b, member, amount), seen := s0.seen + {b});
    Transitive(c, s0, At(s0, 0, Watching([b], [])), At(s1, 0, Starting(b, [])));
    var s2 := PassesOver(c, s1, b, member, amount);
    Transitive(c, s0, At(s1, 0, Starting(b, [])), s2);
    run := Continue(c, [s0], s2);
  }

  lemma {:induction false} PassesOver(c: Config, s: State, b: BlockId, member: Pubkey, amount: nat) returns (t: State)
    requires c.concurrency == 0 && s.db == Recorded1(b, member, amount) && s.passes == map[] && s.log == []
    ensures CanReach(c, At(s, 0, Starting(b, [])), t) && t.log == []
    ensures t.db == Apply(s.db, SetStatus(b, DustFannedOut))
  {
    var it := Item(RowKey(b, member), amount);
    var from := At(s, 0, Starting(b, []));
    OneListed(b, member, amount);
    Dials(c, s, 0, b);
    Opens(c, s, 0, b, [], [it], 0);
    var u := Opened(c, s, 0, b, [], [it], 0);
    InPlace(u, 0);
    Closes(c, u, 0, b, 0);
    t := At(u.(db := Apply(u.db, SetStatus(b, DustFannedOut))), 0, Fanning([]));
    Transitive(c, from, At(s, 0, Reading(b, [])), u);
    Transitive(c, from, u, t);
  }

  // ----- what the mark means -----

  ghost predicate MarkedNotPending(c: Config, run: seq<State>, n: nat, k: Key)
    requires n < |run|
  {
    var db := run[n].db;
    IsRun(c, run) && k.kind == LnDust && k in db.rows
    && k.block in db.blocks && db.blocks[k.block].status == DustFannedOut ==>
    db.rows[k].status != Pending
  }

  /** "No dust row of a block marked as fanned out is pending" holds over all runs if and only if
      the configured concurrency is at least 1. */
  lemma {:induction false} MarkMeansNotPendingExactly(c: Config)
    ensures (forall run: seq<State>, n: nat, k: Key :: n < |run| ==> MarkedNotPending(c, run, n, k)) <==>
      c.concurrency >= 1
  {
    if c.concurrency >= 1 {
      forall run: seq<State>, n: nat, k: Key | n < |run| ensures MarkedNotPending(c, run, n, k) {
        if IsRun(c, run) && k.block in run[n].db.blocks && run[n].db.blocks[k.block].status == DustFannedOut {
          C.FannedOutIsNotPending(c, run, n, k.block);
        }
      }
    } else {
      var run := MarkedWhilePending(c, "", "", 0);
      assert !MarkedNotPending(c, run, |run| - 1, RowKey("", ""));
    }
  }
}
