/** One block's reward followed from the coinbase to the last Lightning payment: what the payout
    table may hold for a PPLNS block, and what the worker may send out for it. */
module BlockReward {
  import opened Shared
  import opened Fees
  import opened Pplns
  import opened PplnsLaws
  import opened PayoutTable
  import opened FanoutPass
  import opened PayoutProtocol
  import opened PayoutSafety
  import opened PayoutRuns
  import F = Doubles
  import H = PercentHop
  import T = Transaction
  import B = Bytes
  import W = PplnsWindow

  // ----- rows come from the snapshot of their block -----

  ghost predicate ListedWrite(db: Db, w: Write) {
    w.Upsert? ==> w.key.block in db.blocks && w in Upserts(w.key.block, db.blocks[w.key.block].snapshot)
  }

  ghost predicate ListedKey(db: Db, k: Key, amount: nat) {
    k.block in db.blocks && exists w :: w in Upserts(k.block, db.blocks[k.block].snapshot) && Lists(w, k, amount)
  }

  predicate Lists(w: Write, k: Key, amount: nat) { w.Upsert? && w.key == k && w.row.amount == amount }

  ghost predicate ListedRows(db: Db) { forall k :: k in db.rows ==> ListedKey(db, k, db.rows[k].amount) }

  ghost predicate ListedMain(db: Db, m: Main) { m.Upserting? ==> forall w :: w in m.writes ==> ListedWrite(db, w) }

  ghost predicate Listed(s: State) {
    && ListedRows(s.db)
    && (forall w :: w in s.limbo ==> ListedWrite(s.db, w))
    && (forall p :: p in s.mains ==> ListedMain(s.db, s.mains[p]))
  }

  lemma {:induction false} ListedLater(db: Db, later: Db, k: Key, amount: nat)
    requires Forward(db, later) && ListedKey(db, k, amount)
    ensures ListedKey(later, k, amount)
  {}

  lemma {:induction false} ApplyListed(db: Db, w: Write)
    requires ListedRows(db) && ListedWrite(db, w) && Forward(db, Apply(db, w))
    ensures ListedRows(Apply(db, w))
  {
    var later := Apply(db, w);
    forall k | k in later.rows ensures ListedKey(later, k, later.rows[k].amount) {
      if k in db.rows {
        ListedLater(db, later, k, db.rows[k].amount);
      } else {
        assert Lists(w, k, w.row.amount);
      }
    }
  }

  lemma {:induction false} ListedStable(s: State, later: Db)
    requires Listed(s) && Forward(s.db, later)
    ensures forall w :: w in s.limbo ==> ListedWrite(later, w)
    ensures forall p :: p in s.mains ==> ListedMain(later, s.mains[p])
  {}

  lemma {:induction false} UpsertsListed(db: Db, b: BlockId)
    requires b in db.blocks
    ensures forall w :: w in Upserts(b, db.blocks[b].snapshot) ==> ListedWrite(db, w)
  {
    OnChainUpsertsAre(b, FlatOutputs(db.blocks[b].snapshot));
    DustUpsertsAre(b, Breakdown(db.blocks[b].snapshot));
  }

  lemma {:induction false} MainKeepsListed(c: Config, s: State, m: Main, ev: Event)
    requires ListedMain(s.db, m) && MainStep(c, s, m, ev).Some?
    ensures ListedMain(s.db, MainStep(c, s, m, ev).value.main)
    ensures MainWrite(m).Some? ==> ListedWrite(s.db, MainWrite(m).value)
  {
    if m.Fanning? && m.matured != [] && m.matured[0] in s.db.blocks { UpsertsListed(s.db, m.matured[0]); }
  }

  lemma {:induction false} NextListed(c: Config, s: State, s': State)
    requires Inv(s) && Listed(s) && Next(c, s, s')
    ensures Listed(s')
  {
    NextForward(c, s, s');
    var step :| StepTo(c, s, s', step);
    match step
    case FindBlock(b, snap) => FindListed(c, s, s', b, snap);
    case MainAct(p, ev) => MainActListed(c, s, p, ev);
    case SlotAct(pid, i, r) => SlotActListed(s, pid, i, r);
    case Crash(p, left) => CrashListed(c, s, s', p, left);
    case Land(w) => LandListed(s, w);
  }

  lemma {:induction false} FindListed(c: Config, s: State, s': State, b: BlockId, snap: Snapshot)
    requires Listed(s) && StepTo(c, s, s', FindBlock(b, snap)) && Forward(s.db, s'.db)
    ensures Listed(s')
  {
    ListedStable(s, s'.db);
    forall k | k in s.db.rows ensures ListedKey(s'.db, k, s.db.rows[k].amount) {
      ListedLater(s.db, s'.db, k, s.db.rows[k].amount);
    }
  }

  lemma {:induction false} LandListed(s: State, w: Write)
    requires Listed(s) && w in s.limbo && Forward(s.db, Apply(s.db, w))
    ensures Listed(s.(db := Apply(s.db, w), limbo := s.limbo - {w}))
  {
    ListedStable(s, Apply(s.db, w));
    ApplyListed(s.db, w);
  }

  lemma {:induction false} MainActListed(c: Config, s: State, p: Proc, ev: Event)
    requires Inv(s) && Listed(s) && MainStep(c, s, if p in s.mains then s.mains[p] else Down, ev).Some?
    requires Forward(s.db, AfterMain(s, p, MainStep(c, s, if p in s.mains then s.mains[p] else Down, ev).value).db)
    ensures Listed(AfterMain(s, p, MainStep(c, s, if p in s.mains then s.mains[p] else Down, ev).value))
  {
    var m := if p in s.mains then s.mains[p] else Down;
    var o := MainStep(c, s, m, ev).value;
    var s' := AfterMain(s, p, o);
    MainKeepsListed(c, s, m, ev);
    ListedStable(s, s'.db);
    if o.write.Some? {
      MainWrites(c, s, m, ev);
      if !o.lost { ApplyListed(s.db, o.write.value); }
    }
  }

  lemma {:induction false} LoopsNeverUpsert(p: Phase)
    ensures forall w :: w in IssuedBy(p) ==> !w.Upsert?
  {}

  lemma {:induction false} OneWriteListed(db: Db, later: Db, p: Phase)
    requires ListedRows(db) && Forward(db, later)
    requires later == db || (PhaseWrite(p).Some? && later == Apply(db, PhaseWrite(p).value))
    ensures ListedRows(later)
  {
    LoopsNeverUpsert(p);
    if later != db {
      assert PhaseWrite(p).value in IssuedBy(p);
      ApplyListed(db, PhaseWrite(p).value);
    }
  }

  lemma {:induction false} SlotListed(db: Db, seen: set<BlockId>, b: BlockId, p: Phase, r: Reply)
    requires DbOk(db, seen) && PhaseOk(db, b, p) && ListedRows(db) && SlotStep(db, p, r).Some?
    ensures var o := SlotStep(db, p, r).value;
      ListedRows(o.db) && Forward(db, o.db) && forall w :: w in o.limbo ==> !w.Upsert?
  {
    SlotEffect(db, p, r);
    SlotDbOk(db, seen, b, p, r);
    LoopsNeverUpsert(p);
    OneWriteListed(db, SlotStep(db, p, r).value.db, p);
  }

  lemma {:induction false} SlotActListed(s: State, pid: PassId, i: nat, r: Reply)
    requires Inv(s) && Listed(s) && pid in s.passes && i < |s.passes[pid].slots|
      && SlotStep(s.db, s.passes[pid].slots[i], r).Some?
    ensures Listed(AfterSlot(s, pid, i, SlotStep(s.db, s.passes[pid].slots[i], r).value))
  {
    var p := s.passes[pid].slots[i];
    assert PhaseOk(s.db, s.passes[pid].block, p);
    SlotListed(s.db, s.seen, s.passes[pid].block, p, r);
    ListedStable(s, SlotStep(s.db, p, r).value.db);
  }

  lemma {:induction false} CrashListed(c: Config, s: State, s': State, p: Proc, left: set<Write>)
    requires Listed(s) && StepTo(c, s, s', Crash(p, left))
    ensures Listed(s')
  {
    forall w | w in left ensures ListedWrite(s.db, w) {
      assert IssuedIn(s, p, w);
      if p in s.mains && MainWrite(s.mains[p]) == Some(w) { assert ListedMain(s.db, s.mains[p]); }
    }
  }

  /** In every run, every row of a block is one its snapshot lists, with the listed amount. */
  lemma {:induction false} RunListed(c: Config, run: seq<State>, n: nat)
    requires IsRun(c, run) && n < |run|
    ensures Listed(run[n])
  {
    if n > 0 {
      RunListed(c, run, n - 1);
      RunInv(c, run, n - 1);
      assert StepAt(c, run, n);
      NextListed(c, run[n - 1], run[n]);
    }
  }

  // ----- the rows of a PPLNS block add up to the reward -----

  function AmountOf(ws: seq<Write>): nat {
    if ws == [] then 0 else (if ws[0].Upsert? then ws[0].row.amount else 0) + AmountOf(ws[1..])
  }

  /** What the table holds for the listed keys. */
  function Recorded(rows: map<Key, Row>, ws: seq<Write>): nat {
    if ws == [] then 0
    else (if ws[0].Upsert? && ws[0].key in rows then rows[ws[0].key].amount else 0) + Recorded(rows, ws[1..])
  }

  ghost predicate DistinctKeys(ws: seq<Write>) {
    && (forall w :: w in ws ==> w.Upsert?)
    && (forall i, j :: 0 <= i < j < |ws| ==> ws[i].key != ws[j].key)
  }

  lemma {:induction false} AmountOfConcat(a: seq<Write>, b: seq<Write>)
    ensures AmountOf(a + b) == AmountOf(a) + AmountOf(b)
  {
    if a == [] {
      assert a + b == b;
    } else {
      assert (a + b)[1..] == a[1..] + b;
      AmountOfConcat(a[1..], b);
    }
  }

  lemma {:induction false} DistinctConcat(a: seq<Write>, b: seq<Write>)
    requires DistinctKeys(a) && DistinctKeys(b) && forall v, w :: v in a && w in b ==> v.key != w.key
    ensures DistinctKeys(a + b)
  {}

  /** Member outputs whose pubkey is the empty string get no row. */
  lemma {:induction false} OnChainAmount(b: BlockId, outs: seq<CoinbaseOutput>)
    requires forall o :: o in outs ==> (o.kind == Member <==> o.pubkey.Some?)
    ensures AmountOf(OnChainUpserts(b, outs)) + CreditOut(outs, "") == SatsOf(outs, Member)
  {
    if outs != [] {
      OnChainAmount(b, outs[1..]);
      var o := outs[0];
      AmountOfConcat(if o.kind == Member && o.pubkey.Some? && o.pubkey.value != ""
                     then [Upsert(Key(b, o.pubkey.value, OnChain), Row(PayoutTable.Paid, o.sats, None))] else [],
                     OnChainUpserts(b, outs[1..]));
    }
  }

  lemma {:induction false} DustAmount(b: BlockId, dust: seq<DustEntry>)
    ensures AmountOf(DustUpserts(b, dust)) == SumOwed(dust)
  {
    if dust != [] {
      DustAmount(b, dust[1..]);
      AmountOfConcat([Upsert(Key(b, dust[0].pubkey, LnDust), Row(Pending, dust[0].owed, None))],
        DustUpserts(b, dust[1..]));
    }
  }

  lemma {:induction false} OnChainConcat(b: BlockId, x: seq<CoinbaseOutput>, y: seq<CoinbaseOutput>)
    ensures OnChainUpserts(b, x + y) == OnChainUpserts(b, x) + OnChainUpserts(b, y)
  {
    if x == [] {
      assert x + y == y;
    } else {
      assert (x + y)[1..] == x[1..] + y;
      OnChainConcat(b, x[1..], y);
    }
  }

  lemma {:induction false} DustConcat(b: BlockId, x: seq<DustEntry>, y: seq<DustEntry>)
    ensures DustUpserts(b, x + y) == DustUpserts(b, x) + DustUpserts(b, y)
  {
    if x == [] {
      assert x + y == y;
    } else {
      assert (x + y)[1..] == x[1..] + y;
      DustConcat(b, x[1..], y);
    }
  }

  ghost predicate NamesOf(ws: seq<Write>, ms: seq<PplnsMember>) {
    forall w :: w in ws ==> w.Upsert? && exists m :: m in ms && m.pubkey == w.key.member
  }

  lemma {:induction false} MemberRowsDistinct(b: BlockId, ms: seq<PplnsMember>, remaining: nat, total: int,
                                              threshold: int)
    requires NonNegative(ms) && total > 0 && DistinctMembers(ms)
    ensures var ws := OnChainUpserts(b, MemberOutputs(ms, remaining, total, threshold));
      DistinctKeys(ws) && NamesOf(ws, ms)
  {
    if ms != [] {
      var own := OwnOutput(ms[0], Share(remaining, ms[0].weight, total), threshold);
      MemberRowsDistinct(b, ms[1..], remaining, total, threshold);
      OnChainConcat(b, own, MemberOutputs(ms[1..], remaining, total, threshold));
      OneOwn(b, ms, own, OnChainUpserts(b, MemberOutputs(ms[1..], remaining, total, threshold)));
    }
  }

  lemma {:induction false} OneOwn(b: BlockId, ms: seq<PplnsMember>, own: seq<CoinbaseOutput>, rest: seq<Write>)
    requires ms != [] && DistinctMembers(ms) && (own == [] || (|own| == 1 && own[0].pubkey == Some(ms[0].pubkey)))
    requires DistinctKeys(rest) && NamesOf(rest, ms[1..])
    ensures DistinctKeys(OnChainUpserts(b, own) + rest) && NamesOf(OnChainUpserts(b, own) + rest, ms)
  {
    if own != [] { assert own[1..] == [] && OnChainUpserts(b, []) == []; }
    Prepend(ms, OnChainUpserts(b, own), rest);
  }

  lemma {:induction false} Prepend(ms: seq<PplnsMember>, first: seq<Write>, rest: seq<Write>)
    requires ms != [] && DistinctMembers(ms) && DistinctKeys(rest) && NamesOf(rest, ms[1..])
    requires first == [] || (|first| == 1 && first[0].Upsert? && first[0].key.member == ms[0].pubkey)
    ensures DistinctKeys(first + rest) && NamesOf(first + rest, ms)
  {
    if first == [] {
      assert first + rest == rest;
    } else {
      forall w | w in rest ensures w.key.member != ms[0].pubkey {
        var m :| m in ms[1..] && m.pubkey == w.key.member;
      }
      DistinctConcat(first, rest);
      assert ms[0] in ms;
    }
  }

  lemma {:induction false} DustRowsDistinct(b: BlockId, ms: seq<PplnsMember>, remaining: nat, total: int,
                                            threshold: int)
    requires NonNegative(ms) && total > 0 && DistinctMembers(ms)
    ensures var ws := DustUpserts(b, DustEntries(ms, remaining, total, threshold)); DistinctKeys(ws) && NamesOf(ws, ms)
  {
    if ms != [] {
      var own := OwnEntry(ms[0], Share(remaining, ms[0].weight, total), threshold);
      DustRowsDistinct(b, ms[1..], remaining, total, threshold);
      DustConcat(b, own, DustEntries(ms[1..], remaining, total, threshold));
      assert DustUpserts(b, []) == [];
      Prepend(ms, DustUpserts(b, own), DustUpserts(b, DustEntries(ms[1..], remaining, total, threshold)));
    }
  }

  lemma {:induction false} TailHasNoRows(b: BlockId, p: PplnsInput, bucket: nat, operatorSats: nat, platformSats: nat)
    ensures OnChainUpserts(b, Tail(p, bucket, operatorSats, platformSats)) == []
  {
    var x, y := Pplns.Paid(p.operator, bucket, DustBucket), Pplns.Paid(p.operator, operatorSats, OperatorFee);
    var z := Pplns.Paid(p.platform, platformSats, PlatformFee);
    OnChainConcat(b, x + y, z);
    OnChainConcat(b, x, y);
  }

  /** The stored snapshot holds a PPLNS result, in either of its two shapes. */
  predicate Records(snap: Snapshot, r: PplnsResult) { FlatOutputs(snap) == r.outputs && Breakdown(snap) == r.dust }

  /** The result as it is, and its outputs alone with the breakdown attached to the dust bucket. */
  function AsResult(r: PplnsResult): Snapshot { Snapshot.Split(r.outputs, r.dust) }

  function AsOutputs(r: PplnsResult): Snapshot {
    Flat(seq(|r.outputs|, i requires 0 <= i < |r.outputs| =>
      SnapshotOutput(r.outputs[i], if r.outputs[i].kind == DustBucket then Some(r.dust) else None)))
  }

  /** The rows recorded for a result. */
  function RowsOf(b: BlockId, r: PplnsResult): seq<Write> { OnChainUpserts(b, r.outputs) + DustUpserts(b, r.dust) }

  /** No two rows recorded for a PPLNS block share a key. */
  lemma {:induction false} RowsAreDistinct(b: BlockId, p: PplnsInput)
    requires Build(p).Success?
    ensures DistinctKeys(RowsOf(b, Build(p).value))
  {
    var r, f, total := Build(p).value, FeesOf(p), TotalWeight(p.members);
    var parts := PartsOf(p, f);
    TotalNonNegative(p.members);
    AscendingDistinct(p.members);
    OnChainConcat(b, parts.members, Tail(p, parts.bucket, parts.operatorSats, parts.platformSats));
    TailHasNoRows(b, p, parts.bucket, parts.operatorSats, parts.platformSats);
    if total > 0 {
      MemberRowsDistinct(b, p.members, f.remaining, total, p.dustThreshold);
      DustRowsDistinct(b, p.members, f.remaining, total, p.dustThreshold);
    }
    OnChainUpsertsAre(b, r.outputs);
    DustUpsertsAre(b, r.dust);
    DistinctConcat(OnChainUpserts(b, r.outputs), DustUpserts(b, r.dust));
  }

  lemma {:induction false} PubkeysAreMembers(p: PplnsInput, o: CoinbaseOutput)
    requires Build(p).Success? && o in Build(p).value.outputs
    ensures o.kind == Member <==> o.pubkey.Some?
  {
    var f, total, parts := FeesOf(p), TotalWeight(p.members), PartsOf(p, FeesOf(p));
    TotalNonNegative(p.members);
    if o in parts.members {
      var i := MemberOutputFrom(p.members, f.remaining, total, p.dustThreshold, o);
    } else {
      assert o in Tail(p, parts.bucket, parts.operatorSats, parts.platformSats);
    }
  }

  /** The rows recorded for a PPLNS block, the two fees and the rounding remainder add up to the
      reward; a member named by the empty string is paid on chain but gets no row. */
  lemma {:induction false} RowsAccountForReward(b: BlockId, p: PplnsInput)
    requires Build(p).Success? && TotalWeight(p.members) > 0
    ensures var r, f := Build(p).value, FeesOf(p);
      AmountOf(RowsOf(b, r)) + CreditOut(r.outputs, "") + f.operatorFee + f.platformFee
      + Remainder(p.members, f.remaining, TotalWeight(p.members)) == p.fees.reward
  {
    var r := Build(p).value;
    forall o | o in r.outputs ensures o.kind == Member <==> o.pubkey.Some? { PubkeysAreMembers(p, o); }
    OnChainAmount(b, r.outputs);
    DustAmount(b, r.dust);
    AmountOfConcat(OnChainUpserts(b, r.outputs), DustUpserts(b, r.dust));
    BucketHoldsBreakdown(p);
  }

  lemma {:induction false} RecordedIsListed(db: Db, b: BlockId, ws: seq<Write>, all: seq<Write>)
    requires ListedRows(db) && b in db.blocks && all == Upserts(b, db.blocks[b].snapshot) && DistinctKeys(all)
    requires forall w :: w in ws ==> w in all && w.Upsert? && w.key.block == b
    ensures Recorded(db.rows, ws) <= AmountOf(ws)
    ensures (forall w :: w in ws ==> w.key in db.rows) ==> Recorded(db.rows, ws) == AmountOf(ws)
  {
    if ws != [] {
      RecordedIsListed(db, b, ws[1..], all);
      if ws[0].key in db.rows { RowIsListed(db, b, ws[0], all); }
    }
  }

  lemma {:induction false} RowIsListed(db: Db, b: BlockId, w: Write, all: seq<Write>)
    requires ListedRows(db) && b in db.blocks && all == Upserts(b, db.blocks[b].snapshot) && DistinctKeys(all)
    requires w in all && w.Upsert? && w.key.block == b && w.key in db.rows
    ensures db.rows[w.key].amount == w.row.amount
  {
    assert ListedKey(db, w.key, db.rows[w.key].amount);
    var v :| v in all && Lists(v, w.key, db.rows[w.key].amount);
    assert v == w;
  }

  /** The rows of block `b` are among the listed ones, with the listed amounts; they never total
      more than the list, and exactly that once all are there. */
  ghost predicate HoldsJust(rows: map<Key, Row>, b: BlockId, ws: seq<Write>) {
    && (forall k :: k in rows && k.block == b ==> exists w :: w in ws && Lists(w, k, rows[k].amount))
    && (forall w :: w in ws ==> w.Upsert?)
    && Recorded(rows, ws) <= AmountOf(ws)
    && ((forall w :: w in ws ==> w.key in rows) ==> Recorded(rows, ws) == AmountOf(ws))
  }

  /** In every run the table holds just the recorded rows of a PPLNS block, whatever happened to
      their statuses since. */
  lemma {:induction false} TableHoldsTheReward(c: Config, run: seq<State>, n: nat, b: BlockId, p: PplnsInput)
    requires IsRun(c, run) && n < |run| && Build(p).Success?
    requires b in run[n].db.blocks && Records(run[n].db.blocks[b].snapshot, Build(p).value)
    ensures HoldsJust(run[n].db.rows, b, RowsOf(b, Build(p).value))
  {
    RunListed(c, run, n);
    RowsAreDistinct(b, p);
    ListedHoldsJust(run[n].db, b);
  }

  lemma {:induction false} ListedHoldsJust(db: Db, b: BlockId)
    requires ListedRows(db) && b in db.blocks && DistinctKeys(Upserts(b, db.blocks[b].snapshot))
    ensures HoldsJust(db.rows, b, Upserts(b, db.blocks[b].snapshot))
  {
    var ws := Upserts(b, db.blocks[b].snapshot);
    UpsertsListed(db, b);
    OnChainUpsertsAre(b, FlatOutputs(db.blocks[b].snapshot));
    DustUpsertsAre(b, Breakdown(db.blocks[b].snapshot));
    RecordedIsListed(db, b, ws, ws);
    forall k | k in db.rows && k.block == b ensures exists w :: w in ws && Lists(w, k, db.rows[k].amount) {
      assert ListedKey(db, k, db.rows[k].amount);
    }
  }

  /** From shares to outputs: the builder accepts every window as long as the fees and the two
      operator-side addresses are in order, pays out exactly the reward, and permuting the shares
      inside the window changes nothing. */
  lemma {:induction false} WindowIsPaidOut(a: seq<W.ShareRow>, b: seq<W.ShareRow>, addr: map<string, string>,
                                           p: PplnsInput, q: PplnsInput)
    requires W.IsWindow(a, addr, p.members) && W.IsWindow(b, addr, q.members) && multiset(a) == multiset(b)
    requires q == p.(members := q.members)
    requires FeeError(p.fees) == None && p.operator != "" && p.platform != "" && p.dustThreshold >= 0
    ensures Build(p).Success? && SumSats(Build(p).value.outputs) == p.fees.reward
    ensures Build(p) == Build(q)
  {
    W.WindowPassesValidation(a, addr, p.members);
    OutputsConserveReward(p);
    W.WindowIgnoresOrder(a, b, addr, p.members, q.members);
  }

  // ----- what is sent out -----

  /** In every run, what the Lightning client is asked to pay for a PPLNS block is covered by its
      dust bucket output, and is nothing until a worker read enough confirmations. */
  lemma {:induction false} SpentWithinBucket(c: Config, run: seq<State>, n: nat, b: BlockId, p: PplnsInput)
    requires IsRun(c, run) && n < |run| && Build(p).Success?
    requires b in run[n].db.blocks && Records(run[n].db.blocks[b].snapshot, Build(p).value)
    ensures Spent(run[n].log, b) <= SatsOf(Build(p).value.outputs, DustBucket)
    ensures Spent(run[n].log, b) > 0 ==> exists i :: 0 < i <= n && MaturityRead(c, run, i, b)
  {
    var r := Build(p).value;
    SpentWithinBreakdown(c, run, n, b);
    TotalNonNegative(p.members);
    if TotalWeight(p.members) > 0 { BucketHoldsBreakdown(p); }
    if Spent(run[n].log, b) > 0 {
      var call := SomeCall(run[n].log, b);
      PaidOnlyAfterMaturity(c, run, n, call);
    }
  }

  lemma {:induction false} SomeCall(log: seq<Call>, b: BlockId) returns (call: Call)
    requires Spent(log, b) > 0
    ensures call in log && call.key.block == b
  {
    if log[0].key.block == b {
      call := log[0];
    } else {
      call := SomeCall(log[1..], b);
    }
  }

  /** Both shapes hold the result: where anyone is owed dust there is a bucket to carry the list. */
  lemma {:induction false} BothShapesRecord(p: PplnsInput)
    requires Build(p).Success?
    ensures Records(AsResult(Build(p).value), Build(p).value) && Records(AsOutputs(Build(p).value), Build(p).value)
  {
    var r := Build(p).value;
    TotalNonNegative(p.members);
    if r.dust != [] {
      BucketHoldsBreakdown(p);
      EntriesOwe(p);
      if forall o :: o in r.outputs ==> o.kind != DustBucket { NoneOfKind(r.outputs, DustBucket); }
    }
    FindAttached(AsOutputs(r).flat, r.dust);
  }

  lemma {:induction false} EntriesOwe(p: PplnsInput)
    requires Build(p).Success? && Build(p).value.dust != []
    ensures SumOwed(Build(p).value.dust) > 0
  {
    var d := Build(p).value.dust[0];
    TotalNonNegative(p.members);
    assert TotalWeight(p.members) > 0;
    var i := DustEntryFrom(p.members, FeesOf(p).remaining, TotalWeight(p.members), p.dustThreshold, d);
  }

  lemma {:induction false} FindAttached(flat: seq<SnapshotOutput>, dust: seq<DustEntry>)
    requires forall s :: s in flat ==> s.breakdown == if s.out.kind == DustBucket then Some(dust) else None
    ensures FindDustBreakdown(flat) == if exists s :: s in flat && s.out.kind == DustBucket then dust else []
  {
    if flat != [] { FindAttached(flat[1..], dust); }
  }

  /** The builder's outputs alone, with nothing attached. */
  function BareOutputs(r: PplnsResult): Snapshot {
    Flat(seq(|r.outputs|, i requires 0 <= i < |r.outputs| => SnapshotOutput(r.outputs[i], None)))
  }

  lemma {:induction false} FindNothing(flat: seq<SnapshotOutput>)
    requires forall s :: s in flat ==> s.breakdown == None
    ensures FindDustBreakdown(flat) == []
  {
    if flat != [] { FindNothing(flat[1..]); }
  }

  /** Stored without its breakdown a PPLNS result records its members' outputs and no dust row at
      all, and in no run is anything sent for it. */
  lemma {:induction false} BareOutputsRecordNoDust(c: Config, run: seq<State>, n: nat, b: BlockId, r: PplnsResult)
    requires IsRun(c, run) && n < |run| && b in run[n].db.blocks && run[n].db.blocks[b].snapshot == BareOutputs(r)
    ensures Upserts(b, BareOutputs(r)) == OnChainUpserts(b, r.outputs)
    ensures Spent(run[n].log, b) == 0
  {
    FindNothing(BareOutputs(r).flat);
    assert FlatOutputs(BareOutputs(r)) == r.outputs;
    assert OnChainUpserts(b, r.outputs) + [] == OnChainUpserts(b, r.outputs);
    SpentWithinBreakdown(c, run, n, b);
  }

  lemma {:induction false} OneOfKind(outs: seq<CoinbaseOutput>, i: nat, kind: OutputKind)
    requires i < |outs| && outs[i].kind == kind && forall j :: 0 <= j < |outs| && j != i ==> outs[j].kind != kind
    ensures SatsOf(outs, kind) == outs[i].sats
  {
    if i > 0 {
      OneOfKind(outs[1..], i - 1, kind);
    } else {
      NoneOfKind(outs[1..], kind);
    }
  }

  lemma {:induction false} NoneOfKind(outs: seq<CoinbaseOutput>, kind: OutputKind)
    requires forall o :: o in outs ==> o.kind != kind
    ensures SatsOf(outs, kind) == 0
  {
    if outs != [] { NoneOfKind(outs[1..], kind); }
  }

  lemma {:induction false} OneBucket(p: PplnsInput, i: nat, j: nat)
    requires Build(p).Success? && i < |Build(p).value.outputs| && j < |Build(p).value.outputs|
    requires Build(p).value.outputs[i].kind == Build(p).value.outputs[j].kind == DustBucket
    ensures i == j
  {
    var outs, parts := Build(p).value.outputs, PartsOf(p, FeesOf(p));
    TotalNonNegative(p.members);
    BucketComesFirst(p, i);
    BucketComesFirst(p, j);
  }

  lemma {:induction false} BucketComesFirst(p: PplnsInput, i: nat)
    requires Build(p).Success? && i < |Build(p).value.outputs| && Build(p).value.outputs[i].kind == DustBucket
    ensures i == |PartsOf(p, FeesOf(p)).members|
  {
    var f, total, parts := FeesOf(p), TotalWeight(p.members), PartsOf(p, FeesOf(p));
    TotalNonNegative(p.members);
    if i < |parts.members| {
      var k := MemberOutputFrom(p.members, f.remaining, total, p.dustThreshold, Build(p).value.outputs[i]);
    }
  }

  /** The bucket output of the actual coinbase went through the percentage hop, which may have
      shaved one sat off it: the payouts of a block cost at most one sat more than that output
      holds, and no more than it holds when it is the first output or the remainder is positive. */
  lemma {:induction false} SpentCoveredByCoinbase(c: Config, run: seq<State>, n: nat, b: BlockId, p: PplnsInput,
                                                  rnd: real -> real, scriptOf: string -> seq<B.byte>,
                                                  tx: seq<T.TxOut>, i: nat)
    requires IsRun(c, run) && n < |run| && Build(p).Success? && F.IsRounding(rnd) && p.fees.reward <= H.MAX_MONEY
    requires b in run[n].db.blocks && Records(run[n].db.blocks[b].snapshot, Build(p).value)
    requires H.IsPayout(rnd, H.ToUpstream(rnd, Build(p).value.outputs, p.fees.reward), p.fees.reward, scriptOf, tx)
    requires i < |Build(p).value.outputs| && Build(p).value.outputs[i].kind == DustBucket
    ensures i < |tx| && Spent(run[n].log, b) <= tx[i].value + 1
    ensures (i == 0
             || (TotalWeight(p.members) > 0
                 && Remainder(p.members, FeesOf(p).remaining, TotalWeight(p.members)) > 0)) ==>
      Spent(run[n].log, b) <= tx[i].value
  {
    var outs := Build(p).value.outputs;
    SpentWithinBucket(c, run, n, b, p);
    forall j | 0 <= j < |outs| && j != i ensures outs[j].kind != DustBucket {
      if outs[j].kind == DustBucket { OneBucket(p, i, j); }
    }
    OneOfKind(outs, i, DustBucket);
    OutputsConserveReward(p);
    H.HopIsExact(rnd, outs, p.fees.reward, scriptOf, tx);
    if TotalWeight(p.members) > 0 {
      BucketHoldsBreakdown(p);
      SpentWithinBreakdown(c, run, n, b);
    }
  }
}
