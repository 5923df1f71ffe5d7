/** What the worker's procedures decide, case by case, and that the protocol's steps decide the same. */
module PayoutDecisions {
  import opened Shared
  import opened PayoutTable
  import opened PayoutWorker
  import P = PayoutProtocol

  // ----- what is recorded -----

  lemma {:induction false} OnChainFrom(b: BlockId, outs: seq<CoinbaseOutput>, w: Write)
    ensures w in P.OnChainUpserts(b, outs) <==> exists o :: o in outs && w in MemberUpserts(b, o)
  {
    if outs != [] {
      OnChainFrom(b, outs[1..], w);
      assert P.OnChainUpserts(b, outs) == MemberUpserts(b, outs[0]) + P.OnChainUpserts(b, outs[1..]);
      assert forall o :: o in outs <==> o == outs[0] || o in outs[1..];
    }
  }

  lemma {:induction false} DustFrom(b: BlockId, dust: seq<DustEntry>, w: Write)
    ensures w in P.DustUpserts(b, dust) <==> exists d :: d in dust && w == DustUpsert(b, d)
  {
    if dust != [] {
      DustFrom(b, dust[1..], w);
      assert P.DustUpserts(b, dust) == [DustUpsert(b, dust[0])] + P.DustUpserts(b, dust[1..]);
      assert forall d :: d in dust <==> d == dust[0] || d in dust[1..];
    }
  }

  /** The row is one of a named member's output, paid by the coinbase. */
  ghost predicate FromOutput(k: Key, row: Row, outs: seq<CoinbaseOutput>) {
    exists o :: o in outs && o.kind == Member && o.pubkey == Some(k.member) && k.member != ""
      && row == Row(Paid, o.sats, None)
  }

  /** The row is one of a dust entry, still to be paid. */
  ghost predicate FromEntry(k: Key, row: Row, dust: seq<DustEntry>) {
    exists d :: d in dust && d.pubkey == k.member && row == Row(Pending, d.owed, None)
  }

  lemma {:induction false} NewRowFrom(b: BlockId, s: Snapshot, k: Key, row: Row)
    requires Upsert(k, row) in P.Upserts(b, s)
    ensures k.block == b
    ensures if k.kind == OnChain then FromOutput(k, row, FlatOutputs(s)) else FromEntry(k, row, Breakdown(s))
  {
    OnChainFrom(b, FlatOutputs(s), Upsert(k, row));
    DustFrom(b, Breakdown(s), Upsert(k, row));
    if Upsert(k, row) in P.OnChainUpserts(b, FlatOutputs(s)) {
      var o :| o in FlatOutputs(s) && Upsert(k, row) in MemberUpserts(b, o);
      assert o.kind == Member;
    }
  }

  /** Recording a block leaves every row that was there, adds a PAID row for each named member's
      output and a PENDING row for each dust entry that had none, and no other row. */
  lemma {:induction false} RecordedExactly(db: Db, b: BlockId, s: Snapshot)
    ensures var later := ApplyAll(db, P.Upserts(b, s));
      && later.blocks == db.blocks
      && (forall k :: k in db.rows ==> k in later.rows && later.rows[k] == db.rows[k])
      && (forall o :: o in FlatOutputs(s) && o.kind == Member && o.pubkey.Some? && o.pubkey.value != "" ==>
            Key(b, o.pubkey.value, OnChain) in later.rows)
      && (forall d :: d in Breakdown(s) ==> Key(b, d.pubkey, LnDust) in later.rows)
      && (forall k :: k in later.rows && k !in db.rows ==>
            k.block == b && if k.kind == OnChain then FromOutput(k, later.rows[k], FlatOutputs(s))
                            else FromEntry(k, later.rows[k], Breakdown(s)))
  {
    var later := ApplyAll(db, P.Upserts(b, s));
    UpsertsAreUpserts(b, FlatOutputs(s), Breakdown(s));
    UpsertsAdd(db, P.Upserts(b, s));
    forall o | o in FlatOutputs(s) && IsMemberOutput(o) ensures Key(b, o.pubkey.value, OnChain) in later.rows {
      OnChainFrom(b, FlatOutputs(s), MemberUpsert(b, o));
      assert MemberUpsert(b, o) in MemberUpserts(b, o);
    }
    forall d | d in Breakdown(s) ensures Key(b, d.pubkey, LnDust) in later.rows {
      DustFrom(b, Breakdown(s), DustUpsert(b, d));
    }
    forall k | k in later.rows && k !in db.rows
      ensures k.block == b
      ensures if k.kind == OnChain then FromOutput(k, later.rows[k], FlatOutputs(s))
        else FromEntry(k, later.rows[k], Breakdown(s))
    {
      NewRowFrom(b, s, k, later.rows[k]);
    }
  }

  /** As many rows are recorded as there are outputs of named members. */
  lemma {:induction false} RecordedCount(b: BlockId, outs: seq<CoinbaseOutput>)
    ensures |P.OnChainUpserts(b, outs)| == |NamedOutputs(outs)|
  {
    if outs != [] {
      var n := |outs| - 1;
      RecordedCount(b, outs[..n]);
      OneMoreMember(b, outs[..n], outs[n]);
      assert outs[..n] + [outs[n]] == outs;
      OneMoreNamed(outs);
    }
  }

  lemma {:induction false} OneMoreNamed(outs: seq<CoinbaseOutput>)
    requires outs != []
    ensures var n := |outs| - 1;
      |NamedOutputs(outs)| == |NamedOutputs(outs[..n])| + (if IsMemberOutput(outs[n]) then 1 else 0)
  {
    var n := |outs| - 1;
    assert NamedOutputs(outs) == NamedOutputs(outs[..n]) + (if IsMemberOutput(outs[n]) then {n} else {});
  }

  ghost function NamedOutputs(outs: seq<CoinbaseOutput>): set<int> {
    set i | 0 <= i < |outs| && outs[i].kind == Member && outs[i].pubkey.Some? && outs[i].pubkey.value != ""
  }

  /** A row gets a receipt if and only if it is a named member's and storing the receipt succeeds. */
  lemma {:induction false} ReceiptsExactly(b: BlockId, outs: seq<CoinbaseOutput>, rec: Recorder, k: Key)
    ensures k in ZapKeys(b, outs, rec) <==>
      k.block == b && k.kind == OnChain && rec.receipt(k.member) == Stored && k.member != ""
      && exists o :: o in outs && o.kind == Member && o.pubkey == Some(k.member)
  {
    if outs != [] {
      var n := |outs| - 1;
      ReceiptsExactly(b, outs[..n], rec, k);
      assert forall o :: o in outs <==> o == outs[n] || o in outs[..n];
    }
  }

  /** The breakdown of a flat snapshot is the one on the first dust bucket that carries one. */
  lemma {:induction false} BreakdownIsFirst(flat: seq<SnapshotOutput>, i: nat)
    requires i < |flat| && flat[i].out.kind == DustBucket && flat[i].breakdown.Some?
    requires forall j :: 0 <= j < i ==> flat[j].out.kind != DustBucket || flat[j].breakdown == None
    ensures Breakdown(Flat(flat)) == flat[i].breakdown.value
  {
    if i > 0 { BreakdownIsFirst(flat[1..], i - 1); }
  }

  lemma {:induction false} NoBreakdown(flat: seq<SnapshotOutput>)
    requires forall s :: s in flat ==> s.out.kind != DustBucket || s.breakdown == None
    ensures Breakdown(Flat(flat)) == []
  {
    if flat != [] {
      assert forall s :: s in flat[1..] ==> s in flat;
      NoBreakdown(flat[1..]);
    }
  }

  // ----- what reconciliation decides -----

  /** A row in flight without a hash is FAILED; one with a hash is PAID if the wallet says paid, stays if
      it says pending or says nothing, and is FAILED if it says neither; a rejected update leaves it. */
  lemma {:induction false} ReconciledByCase(k: Key, row: Row, o: Outside)
    requires k.kind == LnDust && row.status == InFlight
    ensures var after := ReconciledRow(k, row, o);
      && after.amount == row.amount && after.hash == row.hash
      && (o.rejects(k) ==> after == row)
      && (row.hash == None || row.hash.value == "" ==> o.rejects(k) || after.status == Failed)
      && (row.hash.Some? && row.hash.value != "" && !o.rejects(k) ==>
            match o.wallet(row.hash.value)
            case Status(true, _) => after.status == Paid
            case Status(false, true) => after == row
            case Status(false, false) => after.status == Failed
            case _ => after == row)
  {}

  /** The protocol's step on a wallet's answer resolves the row as the procedure does. */
  lemma {:induction false} AskingAgrees(c: P.Config, s: P.State, k: Key, fs: seq<P.Flight>, hash: string, paid: bool,
                                        pending: bool, o: Outside, row: Row)
    requires hash != "" && o.wallet(hash) == Wallet.Status(paid, pending) && !o.rejects(k)
    requires k.kind == LnDust && row.status == InFlight && row.hash == Some(hash)
    ensures var step := P.MainStep(c, s, P.Asking(k, fs), P.Payment(paid, pending));
      var after := ReconciledRow(k, row, o);
      && step.Some?
      && step.value.main == if after == row then P.Reconciling(fs) else P.Resolving(k, after.status, fs)
  {}

  // ----- what a missing wallet decides -----

  /** Without credentials the protocol's step goes on to fail every pending dust row of the block, and no
      other row. */
  lemma {:induction false} DialingAgrees(c: P.Config, s: P.State, b: BlockId, ms: seq<BlockId>)
    ensures var step := P.MainStep(c, s, P.Dialing(b, ms), P.Client(false));
      && step.Some? && P.MainWrite(step.value.main).Some?
      && var later := Apply(s.db, P.MainWrite(step.value.main).value);
         && later.blocks == s.db.blocks && later.rows.Keys == s.db.rows.Keys
         && forall k :: k in later.rows ==>
              later.rows[k] == if k.block == b && k.kind == LnDust && s.db.rows[k].status == Pending
                then s.db.rows[k].(status := Failed) else s.db.rows[k]
  {}

  // ----- what the maturity watcher decides -----

  /** Fewer than no confirmations or an unknown hash orphan a block, enough of them mature it, and
      anything else leaves it FOUND. */
  lemma {:induction false} WatchedByCase(b: BlockId, o: Chain, maturityConfs: int)
    ensures var a, st := o.answer(b), PayoutWorker.Watched(b, o, maturityConfs);
      && (st == Orphaned <==> !o.rejects(b) && (a == BlockNotFound || (a.Confs? && a.n < 0)))
      && (st == Matured <==> !o.rejects(b) && a.Confs? && a.n >= 0 && a.n >= maturityConfs)
      && (st == Orphaned || st == Matured || st == BlockStatus.Found)
  {}

  function EventOf(a: NodeAnswer): P.Event {
    match a
    case Confs(n) => P.Confirmations(n)
    case BlockNotFound => P.NotFound
    case RpcError => P.Error
  }

  /** The protocol's step on the node's answer goes on to write what the procedure wants. */
  lemma {:induction false} WatchingAgrees(c: P.Config, s: P.State, cands: seq<BlockId>, ms: seq<BlockId>, a: NodeAnswer)
    requires cands != []
    ensures var step := P.MainStep(c, s, P.Watching(cands, ms), EventOf(a));
      var wanted := Wanted(a, c.maturityConfs);
      && step.Some?
      && step.value.main == if wanted == BlockStatus.Found then P.Watching(cands[1..], ms)
           else P.Marking(cands[0], wanted, a == BlockNotFound, cands[1..], ms)
  {}
}
