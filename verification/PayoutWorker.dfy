/** The worker's own procedures, each run from start to end by one process: record, fan out,
    reconcile, and the maturity watcher. */
module PayoutWorker {
  import opened Shared
  import opened PayoutTable
  import opened FanoutPass
  import opened FanoutDust
  import opened FanoutOutcome
  import P = PayoutProtocol

  // ----- recordOnChainPayouts -----

  function ApplyAll(db: Db, ws: seq<Write>): Db
    decreases |ws|
  {
    if ws == [] then db else ApplyAll(Apply(db, ws[0]), ws[1..])
  }

  lemma {:induction false} ApplyAllConcat(db: Db, a: seq<Write>, b: seq<Write>)
    ensures ApplyAll(db, a + b) == ApplyAll(ApplyAll(db, a), b)
    decreases |a|
  {
    if a == [] {
      assert a + b == b;
    } else {
      assert (a + b)[1..] == a[1..] + b;
      ApplyAllConcat(Apply(db, a[0]), a[1..], b);
    }
  }

  ghost predicate AllUpserts(ws: seq<Write>) { forall w :: w in ws ==> w.Upsert? }

  /** Upserting keeps every row there was, and leaves a row under every key it names. */
  lemma {:induction false} UpsertsAdd(db: Db, ws: seq<Write>)
    requires AllUpserts(ws)
    ensures ApplyAll(db, ws).blocks == db.blocks
    ensures forall k :: k in db.rows ==> k in ApplyAll(db, ws).rows && ApplyAll(db, ws).rows[k] == db.rows[k]
    ensures forall w :: w in ws ==> w.key in ApplyAll(db, ws).rows
    ensures forall k :: k in ApplyAll(db, ws).rows && k !in db.rows ==> Upsert(k, ApplyAll(db, ws).rows[k]) in ws
    decreases |ws|
  {
    if ws != [] {
      var db1 := Apply(db, ws[0]);
      UpsertsAdd(db1, ws[1..]);
      forall k | k in ApplyAll(db, ws).rows && k !in db.rows ensures Upsert(k, ApplyAll(db, ws).rows[k]) in ws {
        if k in db1.rows { assert ws[0] == Upsert(k, db1.rows[k]); }
      }
    }
  }

  lemma {:induction false} UpsertsOnPresentRows(db: Db, ws: seq<Write>)
    requires AllUpserts(ws) && forall w :: w in ws ==> w.key in db.rows
    ensures ApplyAll(db, ws) == db
    decreases |ws|
  {
    if ws != [] {
      assert Apply(db, ws[0]) == db;
      UpsertsOnPresentRows(db, ws[1..]);
    }
  }

  lemma UpsertsAreUpserts(b: BlockId, outs: seq<CoinbaseOutput>, dust: seq<DustEntry>)
    ensures AllUpserts(P.OnChainUpserts(b, outs)) && AllUpserts(P.DustUpserts(b, dust))
  {}

  /** Recording a block a second time, even after rows were claimed, paid or failed in between,
      changes nothing. */
  lemma {:induction false} RecordingIsIdempotent(db: Db, later: Db, b: BlockId, s: Snapshot)
    requires Forward(ApplyAll(db, P.Upserts(b, s)), later)
    ensures ApplyAll(later, P.Upserts(b, s)) == later
  {
    UpsertsAreUpserts(b, FlatOutputs(s), Breakdown(s));
    UpsertsAdd(db, P.Upserts(b, s));
    UpsertsOnPresentRows(later, P.Upserts(b, s));
  }

  predicate IsMemberOutput(o: CoinbaseOutput) { o.kind == Member && o.pubkey.Some? && o.pubkey.value != "" }

  function MemberUpsert(b: BlockId, o: CoinbaseOutput): Write
    requires IsMemberOutput(o)
  {
    Upsert(Key(b, o.pubkey.value, OnChain), Row(Paid, o.sats, None))
  }

  /** The write for one output, if it is a named member's. */
  function MemberUpserts(b: BlockId, o: CoinbaseOutput): seq<Write> {
    if IsMemberOutput(o) then [MemberUpsert(b, o)] else []
  }

  lemma {:induction false} OneMoreMember(b: BlockId, outs: seq<CoinbaseOutput>, o: CoinbaseOutput)
    ensures P.OnChainUpserts(b, outs + [o]) == P.OnChainUpserts(b, outs) + MemberUpserts(b, o)
  {
    if outs == [] {
      assert outs + [o] == [o] && [o][1..] == [];
      assert P.OnChainUpserts(b, [o]) == MemberUpserts(b, o) + P.OnChainUpserts(b, []);
    } else {
      assert (outs + [o])[1..] == outs[1..] + [o];
      OneMoreMember(b, outs[1..], o);
      ConcatAssociative(MemberUpserts(b, outs[0]), P.OnChainUpserts(b, outs[1..]), MemberUpserts(b, o));
    }
  }

  function DustUpsert(b: BlockId, d: DustEntry): Write { Upsert(Key(b, d.pubkey, LnDust), Row(Pending, d.owed, None)) }

  lemma {:induction false} OneMoreDust(b: BlockId, dust: seq<DustEntry>, d: DustEntry)
    ensures P.DustUpserts(b, dust + [d]) == P.DustUpserts(b, dust) + [DustUpsert(b, d)]
  {
    if dust == [] {
      assert dust + [d] == [d] && [d][1..] == [];
      assert P.DustUpserts(b, [d]) == [DustUpsert(b, d)] + P.DustUpserts(b, []);
    } else {
      assert (dust + [d])[1..] == dust[1..] + [d];
      OneMoreDust(b, dust[1..], d);
      ConcatAssociative([DustUpsert(b, dust[0])], P.DustUpserts(b, dust[1..]), [DustUpsert(b, d)]);
    }
  }

  lemma {:induction false} ApplyOneMore(db: Db, ws: seq<Write>, w: Write)
    ensures ApplyAll(db, ws + [w]) == Apply(ApplyAll(db, ws), w)
  {
    ApplyAllConcat(db, ws, [w]);
    assert ApplyAll(Apply(ApplyAll(db, ws), w), []) == Apply(ApplyAll(db, ws), w) && [w][1..] == [];
  }

  /** What becomes of a receipt: no relay takes it, or its event id is stored, or storing it is rejected. */
  datatype Receipt = Untaken | Stored | NotStored

  /** How the outside answers: the relays about a member's receipt, and whether a row's upsert is
      rejected.  Without a publisher every receipt is Untaken. */
  datatype Recorder = Recorder(receipt: Pubkey -> Receipt, rejects: Key -> bool)

  function ZapKey(b: BlockId, o: CoinbaseOutput, rec: Recorder): set<Key> {
    if IsMemberOutput(o) && rec.receipt(o.pubkey.value) == Stored then {Key(b, o.pubkey.value, OnChain)} else {}
  }

  /** The on-chain rows that have a receipt once all outputs were gone through. */
  function ZapKeys(b: BlockId, outs: seq<CoinbaseOutput>, rec: Recorder): set<Key> {
    if outs == [] then {} else ZapKeys(b, outs[..|outs| - 1], rec) + ZapKey(b, outs[|outs| - 1], rec)
  }

  /** Recording ends on this output: its upsert is rejected, or the row needs a receipt and storing
      the event id is. */
  predicate Stops(zapped: set<Key>, b: BlockId, o: CoinbaseOutput, rec: Recorder) {
    && IsMemberOutput(o)
    && var k := Key(b, o.pubkey.value, OnChain);
       rec.rejects(k) || (k !in zapped && rec.receipt(k.member) == NotStored)
  }

  /** Receipts stored on the way do not matter to that. */
  lemma {:induction false} StopsStays(zapped: set<Key>, b: BlockId, outs: seq<CoinbaseOutput>, o: CoinbaseOutput,
                                      rec: Recorder)
    ensures Stops(zapped + ZapKeys(b, outs, rec), b, o, rec) <==> Stops(zapped, b, o, rec)
  {
    if IsMemberOutput(o) && rec.receipt(o.pubkey.value) == NotStored {
      OnlyStored(b, outs, rec, Key(b, o.pubkey.value, OnChain));
    }
  }

  lemma {:induction false} OnlyStored(b: BlockId, outs: seq<CoinbaseOutput>, rec: Recorder, k: Key)
    requires rec.receipt(k.member) != Stored
    ensures k !in ZapKeys(b, outs, rec)
  {
    if outs != [] { OnlyStored(b, outs[..|outs| - 1], rec, k); }
  }

  /** The outputs were gone through, and none of them ended it. */
  ghost predicate MembersDone(before: Db, after: Db, zapped: set<Key>, now: set<Key>, b: BlockId,
                              outs: seq<CoinbaseOutput>, rec: Recorder)
  {
    && after == ApplyAll(before, P.OnChainUpserts(b, outs)) && now == zapped + ZapKeys(b, outs, rec)
    && forall o :: o in outs ==> !Stops(zapped, b, o, rec)
  }

  lemma {:induction false} OneMoreOutput(b: BlockId, outs: seq<CoinbaseOutput>, n: nat, rec: Recorder)
    requires n < |outs|
    ensures P.OnChainUpserts(b, outs[..n + 1]) == P.OnChainUpserts(b, outs[..n]) + MemberUpserts(b, outs[n])
    ensures ZapKeys(b, outs[..n + 1], rec) == ZapKeys(b, outs[..n], rec) + ZapKey(b, outs[n], rec)
  {
    assert outs[..n + 1] == outs[..n] + [outs[n]] && outs[..n + 1][..n] == outs[..n];
    OneMoreMember(b, outs[..n], outs[n]);
  }

  lemma {:induction false} OneMoreDone(before: Db, mid: Db, after: Db, zapped: set<Key>, between: set<Key>,
                                       now: set<Key>, b: BlockId, outs: seq<CoinbaseOutput>, n: nat, rec: Recorder)
    requires n < |outs| && MembersDone(before, mid, zapped, between, b, outs[..n], rec)
    requires after == ApplyAll(mid, MemberUpserts(b, outs[n])) && now == between + ZapKey(b, outs[n], rec)
    requires !Stops(between, b, outs[n], rec)
    ensures MembersDone(before, after, zapped, now, b, outs[..n + 1], rec)
    ensures |P.OnChainUpserts(b, outs[..n + 1])| == |P.OnChainUpserts(b, outs[..n])| + |MemberUpserts(b, outs[n])|
  {
    OneMoreOutput(b, outs, n, rec);
    ApplyAllConcat(before, P.OnChainUpserts(b, outs[..n]), MemberUpserts(b, outs[n]));
    StopsStays(zapped, b, outs[..n], outs[n], rec);
    forall o | o in outs[..n + 1] ensures !Stops(zapped, b, o, rec) { if o != outs[n] { assert o in outs[..n]; } }
  }

  ghost predicate AnyStops(zapped: set<Key>, b: BlockId, outs: seq<CoinbaseOutput>, rec: Recorder) {
    exists o :: o in outs && Stops(zapped, b, o, rec)
  }

  lemma {:induction false} WholeDone(before: Db, after: Db, zapped: set<Key>, now: set<Key>, b: BlockId,
                                     outs: seq<CoinbaseOutput>, rec: Recorder)
    requires MembersDone(before, after, zapped, now, b, outs[..|outs|], rec)
    ensures MembersDone(before, after, zapped, now, b, outs, rec) && outs[..|outs|] == outs
    ensures !AnyStops(zapped, b, outs, rec)
  {
    assert outs[..|outs|] == outs;
  }

  /** Some of the receipts are stored. */
  ghost predicate PartlyZapped(zapped: set<Key>, now: set<Key>, b: BlockId, outs: seq<CoinbaseOutput>, rec: Recorder) {
    exists n: nat :: n <= |outs| && now == zapped + ZapKeys(b, outs[..n], rec)
  }

  lemma {:induction false} StoppedAt(before: Db, mid: Db, after: Db, zapped: set<Key>, now: set<Key>, b: BlockId,
                                     outs: seq<CoinbaseOutput>, n: nat, rec: Recorder)
    requires n < |outs| && MembersDone(before, mid, zapped, now, b, outs[..n], rec) && Stops(now, b, outs[n], rec)
    requires after == mid || after == ApplyAll(mid, MemberUpserts(b, outs[n]))
    ensures PartlyRecorded(before, after, P.OnChainUpserts(b, outs)) && PartlyZapped(zapped, now, b, outs, rec)
    ensures AnyStops(zapped, b, outs, rec)
  {
    assert outs[..n + 1] == outs[..n] + [outs[n]];
    OneMoreMember(b, outs[..n], outs[n]);
    ApplyAllConcat(before, P.OnChainUpserts(b, outs[..n]), MemberUpserts(b, outs[n]));
    StopsStays(zapped, b, outs[..n], outs[n], rec);
    PrefixOfMembers(before, after, b, outs, n);
  }

  /** What is recorded after a failure: a prefix of the writes. */
  ghost predicate PartlyRecorded(before: Db, after: Db, ws: seq<Write>) {
    exists n: nat :: n <= |ws| && after == ApplyAll(before, ws[..n])
  }

  lemma {:induction false} PrefixRecorded(before: Db, after: Db, done: seq<Write>, ws: seq<Write>)
    requires done <= ws && after == ApplyAll(before, done)
    ensures PartlyRecorded(before, after, ws)
  {
    assert ws[..|done|] == done;
  }

  lemma {:induction false} OnChainPrefix(b: BlockId, outs: seq<CoinbaseOutput>, n: nat)
    requires n <= |outs|
    ensures P.OnChainUpserts(b, outs[..n]) <= P.OnChainUpserts(b, outs)
    decreases |outs| - n
  {
    if n < |outs| {
      assert outs[..n + 1] == outs[..n] + [outs[n]];
      OneMoreMember(b, outs[..n], outs[n]);
      OnChainPrefix(b, outs, n + 1);
    } else {
      assert outs[..n] == outs;
    }
  }

  lemma {:induction false} DustPrefix(b: BlockId, dust: seq<DustEntry>, n: nat)
    requires n <= |dust|
    ensures P.DustUpserts(b, dust[..n]) <= P.DustUpserts(b, dust)
    decreases |dust| - n
  {
    if n < |dust| {
      assert dust[..n + 1] == dust[..n] + [dust[n]];
      OneMoreDust(b, dust[..n], dust[n]);
      DustPrefix(b, dust, n + 1);
    } else {
      assert dust[..n] == dust;
    }
  }

  /** After a failed attempt a second one that gets through leaves the table that one attempt would
      have left. */
  lemma {:induction false} RetryCompletes(db: Db, failed: Db, b: BlockId, s: Snapshot)
    requires PartlyRecorded(db, failed, P.Upserts(b, s))
    ensures ApplyAll(failed, P.Upserts(b, s)) == ApplyAll(db, P.Upserts(b, s))
  {
    var ws := P.Upserts(b, s);
    var n: nat :| n <= |ws| && failed == ApplyAll(db, ws[..n]);
    UpsertsAreUpserts(b, FlatOutputs(s), Breakdown(s));
    assert ws == ws[..n] + ws[n..];
    UpsertsAdd(db, ws[..n]);
    UpsertsOnPresentRows(failed, ws[..n]);
    ApplyAllConcat(failed, ws[..n], ws[n..]);
    ApplyAllConcat(db, ws[..n], ws[n..]);
  }

  // ----- reconcileInFlight -----

  /** What asking about a payment hash brings; BuildFails is buildLnClient rejecting. */
  datatype Wallet = NoClient | BuildFails | Unreachable | Status(paid: bool, pending: bool)

  /** How the outside answers: the wallet, and whether a row's update is rejected. */
  datatype Outside = Outside(wallet: string -> Wallet, rejects: Key -> bool)

  /** What reconciliation decides for a row, by its hash; Abort ends the whole pass. */
  datatype Verdict = Blind | Promote | Fail | Leave | Abort

  /** Only an update behind a wallet's answer may be rejected without ending the pass. */
  function Judge(k: Key, hash: Option<string>, o: Outside): Verdict {
    if hash.None? || hash.value == "" then (if o.rejects(k) then Abort else Blind)
    else match o.wallet(hash.value)
      case NoClient => Leave
      case BuildFails => Abort
      case Unreachable => Leave
      case Status(paid, pending) =>
        if !paid && pending then Leave else if o.rejects(k) then Leave else if paid then Promote else Fail
  }

  function Verdicted(st: Status, v: Verdict): Status {
    match v
    case Promote => Paid
    case Leave => st
    case Abort => st
    case _ => Failed
  }

  function ReconciledRow(k: Key, row: Row, o: Outside): Row {
    if k.kind != LnDust || row.status != InFlight then row
    else row.(status := Verdicted(InFlight, Judge(k, row.hash, o)))
  }

  /** The rows of `done` are decided, the others as before. */
  ghost predicate PartlyReconciled(before: Db, after: Db, done: seq<Key>, o: Outside) {
    && after.blocks == before.blocks && after.rows.Keys == before.rows.Keys
    && forall k :: k in after.rows ==>
         after.rows[k] == if k in done then ReconciledRow(k, before.rows[k], o) else before.rows[k]
  }

  lemma {:induction false} OneMoreReconciled(before: Db, mid: Db, after: Db, done: seq<Key>, k: Key, o: Outside)
    requires PartlyReconciled(before, mid, done, o) && k !in done && k in mid.rows
    requires after.blocks == mid.blocks && after.rows == mid.rows[k := ReconciledRow(k, mid.rows[k], o)]
    ensures PartlyReconciled(before, after, done + [k], o)
  {}

  /** A row in flight on which the pass ends. */
  ghost predicate Aborts(rows: map<Key, Row>, k: Key, o: Outside) {
    IsInFlightDust(rows, k) && Judge(k, rows[k].hash, o) == Abort
  }

  datatype ReconcileResult =
    ReconcileResult(scanned: nat, promotedPaid: nat, markedFailed: nat, stillInFlight: nat, unrecoverable: nat)

  function Tally(r: ReconcileResult, v: Verdict): ReconcileResult {
    match v
    case Blind => r.(markedFailed := r.markedFailed + 1, unrecoverable := r.unrecoverable + 1)
    case Promote => r.(promotedPaid := r.promotedPaid + 1)
    case Fail => r.(markedFailed := r.markedFailed + 1)
    case Leave => r.(stillInFlight := r.stillInFlight + 1)
    case Abort => r
  }

  /** The counters after the rows of `keys`. */
  ghost function Tallied(rows: map<Key, Row>, keys: seq<Key>, scanned: nat, o: Outside): ReconcileResult
    requires forall k :: k in keys ==> k in rows
  {
    if keys == [] then ReconcileResult(scanned, 0, 0, 0, 0)
    else
      var k := keys[|keys| - 1];
      Tally(Tallied(rows, keys[..|keys| - 1], scanned, o), Judge(k, rows[k].hash, o))
  }

  ghost function Judged(rows: map<Key, Row>, keys: set<Key>, o: Outside, v: Verdict): set<Key>
    requires forall k :: k in keys ==> k in rows
  {
    set k | k in keys && Judge(k, rows[k].hash, o) == v
  }

  /** Each counter is the number of rows with that verdict. */
  ghost predicate Counts(r: ReconcileResult, rows: map<Key, Row>, keys: set<Key>, o: Outside)
    requires forall k :: k in keys ==> k in rows
  {
    && r.promotedPaid == |Judged(rows, keys, o, Promote)|
    && r.unrecoverable == |Judged(rows, keys, o, Blind)|
    && r.markedFailed == |Judged(rows, keys, o, Blind)| + |Judged(rows, keys, o, Fail)|
    && r.stillInFlight == |Judged(rows, keys, o, Leave)|
  }

  lemma {:induction false} OneMoreJudged(rows: map<Key, Row>, keys: set<Key>, k: Key, o: Outside, v: Verdict)
    requires k in rows && k !in keys && forall x :: x in keys ==> x in rows
    ensures |Judged(rows, keys + {k}, o, v)|
      == |Judged(rows, keys, o, v)| + (if Judge(k, rows[k].hash, o) == v then 1 else 0)
  {
    var before, after := Judged(rows, keys, o, v), Judged(rows, keys + {k}, o, v);
    assert after == if Judge(k, rows[k].hash, o) == v then before + {k} else before;
  }

  lemma {:induction false} OneMoreCounted(r: ReconcileResult, rows: map<Key, Row>, keys: set<Key>, k: Key, o: Outside)
    requires k in rows && k !in keys && (forall x :: x in keys ==> x in rows) && Counts(r, rows, keys, o)
    ensures Counts(Tally(r, Judge(k, rows[k].hash, o)), rows, keys + {k}, o)
  {
    OneMoreJudged(rows, keys, k, o, Promote);
    OneMoreJudged(rows, keys, k, o, Blind);
    OneMoreJudged(rows, keys, k, o, Fail);
    OneMoreJudged(rows, keys, k, o, Leave);
  }

  lemma {:induction false} NoneCounted(rows: map<Key, Row>, scanned: nat, o: Outside)
    ensures Counts(ReconcileResult(scanned, 0, 0, 0, 0), rows, {}, o)
  {
    assert Judged(rows, {}, o, Promote) == {} && Judged(rows, {}, o, Blind) == {};
    assert Judged(rows, {}, o, Fail) == {} && Judged(rows, {}, o, Leave) == {};
  }

  /** The keys of a list without duplicates, one by one. */
  ghost function KeySet(keys: seq<Key>): set<Key> {
    if keys == [] then {} else KeySet(keys[..|keys| - 1]) + {keys[|keys| - 1]}
  }

  lemma {:induction false} KeySetHas(keys: seq<Key>, k: Key)
    ensures k in KeySet(keys) <==> k in keys
  {
    if keys != [] { KeySetHas(keys[..|keys| - 1], k); }
  }

  lemma {:induction false} KeySetCounted(keys: seq<Key>)
    requires forall i, j :: 0 <= i < j < |keys| ==> keys[i] != keys[j]
    ensures |KeySet(keys)| == |keys|
  {
    if keys != [] {
      KeySetCounted(keys[..|keys| - 1]);
      KeySetHas(keys[..|keys| - 1], keys[|keys| - 1]);
    }
  }

  ghost predicate AllIn(keys: set<Key>, rows: map<Key, Row>) { forall k :: k in keys ==> k in rows }

  lemma {:induction false} TalliedCounts(rows: map<Key, Row>, keys: seq<Key>, scanned: nat, o: Outside)
    requires forall k :: k in keys ==> k in rows
    requires forall i, j :: 0 <= i < j < |keys| ==> keys[i] != keys[j]
    ensures AllIn(KeySet(keys), rows) && Counts(Tallied(rows, keys, scanned, o), rows, KeySet(keys), o)
  {
    forall k | k in KeySet(keys) ensures k in rows { KeySetHas(keys, k); }
    if keys == [] {
      NoneCounted(rows, scanned, o);
    } else {
      var rest, k := keys[..|keys| - 1], keys[|keys| - 1];
      TalliedCounts(rows, rest, scanned, o);
      KeySetHas(rest, k);
      OneMoreCounted(Tallied(rows, rest, scanned, o), rows, KeySet(rest), k, o);
    }
  }

  lemma {:induction false} TalliedSum(rows: map<Key, Row>, keys: seq<Key>, scanned: nat, o: Outside)
    requires forall k :: k in keys ==> k in rows && Judge(k, rows[k].hash, o) != Abort
    ensures var n := Tallied(rows, keys, scanned, o);
      && n.scanned == scanned && n.promotedPaid + n.markedFailed + n.stillInFlight == |keys|
      && n.unrecoverable <= n.markedFailed
      && ((forall k :: k in keys ==> rows[k].hash == None) ==> n.unrecoverable == |keys|)
  {
    if keys != [] { TalliedSum(rows, keys[..|keys| - 1], scanned, o); }
  }

  ghost function InFlightKeys(rows: map<Key, Row>): (keys: set<Key>)
    ensures forall k :: k in keys ==> k in rows
  {
    set k | k in rows && IsInFlightDust(rows, k)
  }

  ghost function PendingKeys(rows: map<Key, Row>, b: BlockId): set<Key> {
    set k | k in rows && IsPendingDust(rows, k, b)
  }

  lemma {:induction false} InFlightCounted(rows: map<Key, Row>, keys: seq<Key>)
    requires forall k :: k in keys <==> IsInFlightDust(rows, k)
    requires forall i, j :: 0 <= i < j < |keys| ==> keys[i] != keys[j]
    ensures KeySet(keys) == InFlightKeys(rows) && |InFlightKeys(rows)| == |keys|
  {
    forall k ensures k in KeySet(keys) <==> k in InFlightKeys(rows) { KeySetHas(keys, k); }
    KeySetCounted(keys);
  }

  function KeysOf(items: seq<Item>): seq<Key> { seq(|items|, i requires 0 <= i < |items| => items[i].key) }

  lemma {:induction false} ListedCounted(rows: map<Key, Row>, b: BlockId, items: seq<Item>)
    requires P.ListsPending(rows, b, items)
    ensures |items| == |PendingKeys(rows, b)|
  {
    var keys := KeysOf(items);
    KeySetCounted(keys);
    forall k ensures k in KeySet(keys) <==> k in PendingKeys(rows, b) {
      KeySetHas(keys, k);
      if k in keys {
        var i :| 0 <= i < |keys| && keys[i] == k;
        assert items[i] in items;
      }
      if k in PendingKeys(rows, b) {
        var i :| 0 <= i < |items| && items[i] == Item(k, rows[k].amount);
        assert keys[i] == k;
      }
    }
    assert KeySet(keys) == PendingKeys(rows, b);
  }

  predicate IsInFlightDust(rows: map<Key, Row>, k: Key) {
    k in rows && k.kind == LnDust && rows[k].status == InFlight
  }

  // ----- checkMaturity -----

  function FoundBlocks(db: Db): set<BlockId> {
    set b | b in db.blocks && db.blocks[b].status == BlockStatus.Found
  }

  datatype NodeAnswer = Confs(n: int) | BlockNotFound | RpcError

  /** How the outside answers: the node about a block, and whether a block's update is rejected. */
  datatype Chain = Chain(answer: BlockId -> NodeAnswer, rejects: BlockId -> bool)

  /** What a FOUND block is to become by the node's answer. */
  function Wanted(a: NodeAnswer, maturityConfs: int): BlockStatus {
    match a
    case Confs(n) => if n < 0 then Orphaned else if n >= maturityConfs then Matured else BlockStatus.Found
    case BlockNotFound => Orphaned
    case RpcError => BlockStatus.Found
  }

  /** What it is afterwards. */
  function Watched(b: BlockId, o: Chain, maturityConfs: int): BlockStatus {
    if o.rejects(b) then BlockStatus.Found else Wanted(o.answer(b), maturityConfs)
  }

  /** The update behind "Block not found" is rejected, which ends the pass. */
  predicate EndsPass(b: BlockId, o: Chain) { o.answer(b).BlockNotFound? && o.rejects(b) }

  /** The node's error, or a rejected update, is noted. */
  predicate IsErrored(b: BlockId, o: Chain, maturityConfs: int) {
    var a := o.answer(b);
    a.RpcError? || (a.Confs? && o.rejects(b) && !Wanted(a, maturityConfs).Found?)
  }

  datatype MaturityResult = MaturityResult(matured: seq<BlockId>, orphaned: seq<BlockId>, errored: seq<BlockId>)

  /** The blocks of `done` are as the answers say, all else as before. */
  ghost predicate PartlyWatched(before: Db, after: Db, done: seq<BlockId>, o: Chain, maturityConfs: int) {
    && after.rows == before.rows && after.blocks.Keys == before.blocks.Keys
    && forall b :: b in after.blocks ==>
         after.blocks[b] == if b in done
           then before.blocks[b].(status := Watched(b, o, maturityConfs)) else before.blocks[b]
  }

  /** The three lists name exactly the promoted, the orphaned and the errored blocks of `done`. */
  ghost predicate Reports(r: MaturityResult, done: seq<BlockId>, o: Chain, maturityConfs: int) {
    && (forall b :: b in r.matured <==> b in done && Watched(b, o, maturityConfs) == Matured)
    && (forall b :: b in r.orphaned <==> b in done && Watched(b, o, maturityConfs) == Orphaned)
    && (forall b :: b in r.errored <==> b in done && IsErrored(b, o, maturityConfs))
    && P.Distinct(r.matured) && P.Distinct(r.orphaned) && P.Distinct(r.errored)
  }

  /** The list with one more block, if it belongs there. */
  function Noted(list: seq<BlockId>, b: BlockId, belongs: bool): seq<BlockId> { if belongs then list + [b] else list }

  function Report(r: MaturityResult, b: BlockId, o: Chain, maturityConfs: int): MaturityResult {
    MaturityResult(Noted(r.matured, b, Watched(b, o, maturityConfs) == Matured),
                   Noted(r.orphaned, b, Watched(b, o, maturityConfs) == Orphaned),
                   Noted(r.errored, b, IsErrored(b, o, maturityConfs)))
  }

  lemma {:induction false} OneMoreReported(r: MaturityResult, done: seq<BlockId>, b: BlockId, o: Chain,
                                           maturityConfs: int)
    requires Reports(r, done, o, maturityConfs) && b !in done
    ensures Reports(Report(r, b, o, maturityConfs), done + [b], o, maturityConfs)
  {}

  lemma {:induction false} OneMoreWatched(before: Db, mid: Db, after: Db, done: seq<BlockId>, b: BlockId, o: Chain,
                                          maturityConfs: int)
    requires PartlyWatched(before, mid, done, o, maturityConfs) && b !in done && b in mid.blocks
    requires after.rows == mid.rows
    requires after.blocks == mid.blocks[b := mid.blocks[b].(status := Watched(b, o, maturityConfs))]
    ensures PartlyWatched(before, after, done + [b], o, maturityConfs)
  {}

  datatype RecordResult = RecordResult(recorded: nat, pending: nat, zapsPublished: nat)

  datatype FanoutResult = FanoutResult(pending: nat, paid: nat, failed: nat)

  ghost predicate CallsOk(calls: seq<Call>, pass: Pass)
    requires |pass.queue| <= |pass.items|
  {
    && (forall c :: c in calls ==> Item(c.key, c.amount) in pass.items[..Handed(pass)])
    && (forall i, j :: 0 <= i < j < |calls| ==> calls[i].key != calls[j].key)
    && (forall i :: 0 <= i < |pass.slots| && (pass.slots[i].Claiming? || pass.slots[i].Looking?) ==>
          forall c :: c in calls ==> c.key != pass.slots[i].item.key)
  }

  lemma {:induction false} CallsMove(pass: Pass, concurrency: nat, calls: seq<Call>, i: nat, o: SlotOut)
    requires Shape(pass, concurrency) && DistinctItems(pass.items) && CallsOk(calls, pass)
    requires i < |pass.slots| && Outcome(pass.slots[i], o) && HandedOn(pass, Settle(pass, i, o), i)
    requires forall j, k :: 0 <= j < k < |pass.slots| && Active(pass.slots[j]) && Active(pass.slots[k]) ==>
      pass.slots[j].item.key != pass.slots[k].item.key
    ensures CallsOk(calls + o.calls, Settle(pass, i, o))
  {
    var next := Settle(pass, i, o);
    assert pass.items[..Handed(pass)] <= next.items[..Handed(next)];
    forall j | 0 <= j < |next.slots| && (next.slots[j].Claiming? || next.slots[j].Looking?)
      ensures forall c :: c in calls + o.calls ==> c.key != next.slots[j].item.key
    {
      if j == i && o.after.Free? {
        forall c | c in calls ensures c.key != next.slots[j].item.key {
          ItemKeysDistinct(pass, concurrency, Item(c.key, c.amount));
        }
      }
    }
  }

  lemma {:induction false} CallsKept(db: Db, pass: Pass, concurrency: nat, calls: seq<Call>, i: nat, r: Reply)
    requires SoleInv(db, pass, concurrency) && i < |pass.slots| && r != Lost && SlotStep(db, pass.slots[i], r).Some?
    requires CallsOk(calls, pass)
    ensures var o := SlotStep(db, pass.slots[i], r).value;
      |Settle(pass, i, o).queue| <= |Settle(pass, i, o).items| && CallsOk(calls + o.calls, Settle(pass, i, o))
  {
    ShapeKept(db, pass, concurrency, i, r);
    StepOutcome(db, pass.slots[i], r);
    CallsMove(pass, concurrency, calls, i, SlotStep(db, pass.slots[i], r).value);
  }

  /** Only rows of the given items may differ. */
  ghost predicate SameElsewhere(a: Db, b: Db, items: seq<Item>) {
    && a.blocks == b.blocks && a.rows.Keys == b.rows.Keys
    && (forall k :: k in a.rows ==> a.rows[k] == b.rows[k] || exists it :: it in items && it.key == k)
  }

  /** The wallet is asked at most once per item, for its amount. */
  ghost predicate AskedOnce(calls: seq<Call>, items: seq<Item>) {
    && (forall c :: c in calls ==> Item(c.key, c.amount) in items)
    && (forall i, j :: 0 <= i < j < |calls| ==> calls[i].key != calls[j].key)
  }

  ghost predicate LoopOk(db0: Db, db: Db, pass: Pass, concurrency: nat, calls: seq<Call>, items: seq<Item>) {
    && SoleInv(db, pass, concurrency) && pass.items == items
    && SameElsewhere(db0, db, items) && CallsOk(calls, pass)
  }

  lemma {:induction false} StartLoop(db: Db, b: BlockId, items: seq<Item>, concurrency: nat)
    requires DistinctItems(items) && forall it :: it in items ==> HasStatus(db, it.key, Pending)
    ensures LoopOk(db, db, StartPass(b, items, concurrency), concurrency, [], items)
  {
    StartSole(db, b, items, concurrency);
  }

  lemma {:induction false} RowMoves(db0: Db, db: Db, p: Phase, o: SlotOut, items: seq<Item>)
    requires SameElsewhere(db0, db, items) && OwnRow(db, p, o) && p.item in items
    ensures SameElsewhere(db0, o.db, items)
  {}

  lemma {:induction false} LoopKept(db0: Db, db: Db, pass: Pass, concurrency: nat, calls: seq<Call>, items: seq<Item>,
                                    i: nat, r: Reply)
    requires LoopOk(db0, db, pass, concurrency, calls, items)
    requires i < |pass.slots| && r != Lost && SlotStep(db, pass.slots[i], r).Some?
    ensures var o := SlotStep(db, pass.slots[i], r).value;
      LoopOk(db0, o.db, Settle(pass, i, o), concurrency, calls + o.calls, items)
  {
    var p := pass.slots[i];
    SoleStep(db, pass, concurrency, i, r);
    CallsKept(db, pass, concurrency, calls, i, r);
    OwnRowOnly(db, p, r);
    assert p.item in items;
    RowMoves(db0, db, p, SlotStep(db, p, r).value, items);
  }

  /** The account of a sole pass: how it came about, what was asked, and what became of each row. */
  ghost predicate Account(db0: Db, db: Db, pass: Pass, concurrency: nat, o: Payer, calls: seq<Call>, items: seq<Item>) {
    LoopOk(db0, db, pass, concurrency, calls, items) && OutcomeInv(db0.rows, db, pass, o, calls)
  }

  lemma {:induction false} AccountKept(db0: Db, db: Db, pass: Pass, concurrency: nat, o: Payer, calls: seq<Call>,
                                       items: seq<Item>, i: nat)
    requires Account(db0, db, pass, concurrency, o, calls, items) && i < |pass.slots| && Active(pass.slots[i])
    ensures SlotStep(db, pass.slots[i], Replied(pass.slots[i], o)).Some?
    ensures var out := SlotStep(db, pass.slots[i], Replied(pass.slots[i], o)).value;
      Account(db0, out.db, Settle(pass, i, out), concurrency, o, calls + out.calls, items)
  {
    RepliedFits(db, pass.slots[i], o);
    LoopKept(db0, db, pass, concurrency, calls, items, i, Replied(pass.slots[i], o));
    OutcomeKept(db0.rows, db, pass, concurrency, i, o, calls);
  }

  lemma {:induction false} PrefixOfMembers(before: Db, after: Db, b: BlockId, outs: seq<CoinbaseOutput>, n: nat)
    requires n < |outs|
    requires || after == ApplyAll(before, P.OnChainUpserts(b, outs[..n]))
             || after == ApplyAll(before, P.OnChainUpserts(b, outs[..n + 1]))
    ensures PartlyRecorded(before, after, P.OnChainUpserts(b, outs))
  {
    var m := if after == ApplyAll(before, P.OnChainUpserts(b, outs[..n])) then n else n + 1;
    OnChainPrefix(b, outs, m);
    PrefixRecorded(before, after, P.OnChainUpserts(b, outs[..m]), P.OnChainUpserts(b, outs));
  }

  lemma {:induction false} MembersRecorded(before: Db, after: Db, b: BlockId, s: Snapshot)
    requires PartlyRecorded(before, after, P.OnChainUpserts(b, FlatOutputs(s)))
    ensures PartlyRecorded(before, after, P.Upserts(b, s))
  {
    var ws := P.OnChainUpserts(b, FlatOutputs(s));
    var n: nat :| n <= |ws| && after == ApplyAll(before, ws[..n]);
    PrefixRecorded(before, after, ws[..n], P.Upserts(b, s));
  }

  lemma {:induction false} DustUpsertsWhole(before: Db, after: Db, b: BlockId, dust: seq<DustEntry>)
    requires after == ApplyAll(before, P.DustUpserts(b, dust))
    ensures PartlyRecorded(before, after, P.DustUpserts(b, dust))
  {
    PrefixRecorded(before, after, P.DustUpserts(b, dust), P.DustUpserts(b, dust));
  }

  lemma {:induction false} DustRecorded(before: Db, mid: Db, after: Db, b: BlockId, s: Snapshot)
    requires mid == ApplyAll(before, P.OnChainUpserts(b, FlatOutputs(s)))
    requires PartlyRecorded(mid, after, P.DustUpserts(b, Breakdown(s)))
    ensures PartlyRecorded(before, after, P.Upserts(b, s))
  {
    var ws, ds := P.OnChainUpserts(b, FlatOutputs(s)), P.DustUpserts(b, Breakdown(s));
    var n: nat :| n <= |ds| && after == ApplyAll(mid, ds[..n]);
    ApplyAllConcat(before, ws, ds[..n]);
    assert ws + ds[..n] <= ws + ds;
    PrefixRecorded(before, after, ws + ds[..n], P.Upserts(b, s));
  }

  /** What a pass with credentials leaves: with a loop running, each pending row is PAID with the hash
      the wallet answers if its member is registered and the wallet pays, and FAILED otherwise; the
      wallet is asked once for each row of a registered member, with its amount, and for nothing else;
      both counters are the numbers of such rows, and the block is marked if none failed.  Without a
      loop nothing happens but the mark. */
  ghost predicate PaidOut(before: Db, after: Db, calls: seq<Call>, b: BlockId, concurrency: nat, o: Payer,
                          r: FanoutResult)
  {
    && RowsPaid(before.rows, after.rows, calls, PendingKeys(before.rows, b), concurrency, o, r.paid, r.failed)
    && Marks(before, after, b, r.failed == 0)
  }

  ghost predicate RowsPaid(before: map<Key, Row>, after: map<Key, Row>, calls: seq<Call>, pending: set<Key>,
                           concurrency: nat, o: Payer, paid: nat, failed: nat)
  {
    var worked := if concurrency >= 1 then pending else {};
    && RowsAre(before, after, worked, o) && AskedFor(before, calls, worked, o)
    && paid == |DueKeys(worked, o)| && failed == |worked| - |DueKeys(worked, o)|
  }

  /** The block is marked as fanned out, or no block is touched. */
  ghost predicate Marks(before: Db, after: Db, b: BlockId, marked: bool) {
    && after.blocks.Keys == before.blocks.Keys
    && forall x :: x in after.blocks ==>
         after.blocks[x]
         == if x == b && marked then before.blocks[x].(status := DustFannedOut) else before.blocks[x]
  }

  /** The mark that closes a pass without failures. */
  function Closed(db: Db, b: BlockId, failed: nat): Db {
    if failed == 0 then Apply(db, SetStatus(b, DustFannedOut)) else db
  }

  lemma {:induction false} ClosedPaysOut(before: Db, after: Db, calls: seq<Call>, b: BlockId, concurrency: nat,
                                         o: Payer, pending: nat, paid: nat, failed: nat)
    requires before.blocks == after.blocks
    requires RowsPaid(before.rows, after.rows, calls, PendingKeys(before.rows, b), concurrency, o, paid, failed)
    ensures PaidOut(before, Closed(after, b, failed), calls, b, concurrency, o, FanoutResult(pending, paid, failed))
  {}

  /** The rows of `keys` are settled by the outside's answers, all others as before. */
  ghost predicate RowsAre(before: map<Key, Row>, after: map<Key, Row>, keys: set<Key>, o: Payer) {
    && after.Keys == before.Keys
    && forall k :: k in after ==>
         after[k] == if k !in keys then before[k]
           else if o.registered(k.member) && o.pays(k).Some? then before[k].(status := Paid, hash := o.pays(k))
           else before[k].(status := Failed)
  }

  ghost predicate AskedFor(before: map<Key, Row>, calls: seq<Call>, keys: set<Key>, o: Payer) {
    && (forall call :: call in calls ==>
          call.key in keys && call.key in before && o.registered(call.key.member)
          && call.amount == before[call.key].amount)
    && (forall k :: k in keys && k in before && o.registered(k.member) ==> Call(k, before[k].amount) in calls)
    && (forall i, j :: 0 <= i < j < |calls| ==> calls[i].key != calls[j].key)
  }

  lemma {:induction false} WholeIsEqual<T>(part: set<T>, whole: set<T>)
    requires part <= whole && |part| == |whole|
    ensures part == whole
  {
    assert |whole - part| == 0;
  }

  /** The counters add up, and a marked block has all its rows PAID, exactly if a loop ran or nothing
      was pending. */
  lemma {:induction false} MarkMeansPaidExactly(before: Db, after: Db, calls: seq<Call>, b: BlockId, concurrency: nat,
                                                o: Payer, r: FanoutResult)
    requires PaidOut(before, after, calls, b, concurrency, o, r)
    ensures r.paid + r.failed == |PendingKeys(before.rows, b)| <==>
      concurrency >= 1 || PendingKeys(before.rows, b) == {}
    ensures r.failed == 0 ==>
      ((forall k :: k in PendingKeys(before.rows, b) ==> HasStatus(after, k, Paid)) <==>
        concurrency >= 1 || PendingKeys(before.rows, b) == {})
  {
    var pending := PendingKeys(before.rows, b);
    if concurrency >= 1 {
      if r.failed == 0 { WholeIsEqual(DueKeys(pending, o), pending); }
    } else if pending != {} {
      assert DueKeys({}, o) == {};
      var k :| k in pending;
      assert after.rows[k] == before.rows[k];
    }
  }

  lemma {:induction false} ListedKeys(rows: map<Key, Row>, b: BlockId, items: seq<Item>)
    requires P.ListsPending(rows, b, items)
    ensures ItemKeys(items) == PendingKeys(rows, b)
    ensures forall k :: k in PendingKeys(rows, b) ==> k in rows && Item(k, rows[k].amount) in items
  {
    forall k ensures k in ItemKeys(items) <==> k in PendingKeys(rows, b) {
      if k in PendingKeys(rows, b) { assert Item(k, rows[k].amount) in items; }
    }
  }

  lemma {:induction false} RowsPaidOut(before: Db, after: Db, items: seq<Item>, pass: Pass, b: BlockId,
                                       concurrency: nat, o: Payer, calls: seq<Call>)
    requires P.ListsPending(before.rows, b, items) && SoleInv(after, pass, concurrency) && pass.items == items
    requires forall i :: 0 <= i < |pass.slots| ==> !Active(pass.slots[i])
    requires SameElsewhere(before, after, items) && AskedOnce(calls, items)
    requires OutcomeInv(before.rows, after, pass, o, calls)
    requires concurrency == 0 ==> after == before && calls == []
    ensures RowsPaid(before.rows, after.rows, calls, PendingKeys(before.rows, b), concurrency, o, pass.paid,
                     pass.failed)
  {
    if concurrency == 0 {
      SoleEnd(after, pass, concurrency);
      assert DueKeys({}, o) == {};
    } else {
      ListedKeys(before.rows, b, items);
      OutcomeEnd(before.rows, after, pass, concurrency, o, calls);
      SettledRows(before, after, items, b, o, calls);
      AllAsked(before.rows, after, items, b, o, calls);
    }
  }

  lemma {:induction false} SettledRows(before: Db, after: Db, items: seq<Item>, b: BlockId, o: Payer, calls: seq<Call>)
    requires P.ListsPending(before.rows, b, items) && SameElsewhere(before, after, items)
    requires forall it :: it in items ==> ItemFits(before.rows, after, it, o, calls)
    ensures RowsAre(before.rows, after.rows, PendingKeys(before.rows, b), o)
  {
    forall k | k in PendingKeys(before.rows, b) ensures after.rows[k] == SettledRow(before.rows[k], k, o) {
      assert ItemFits(before.rows, after, Item(k, before.rows[k].amount), o, calls);
    }
  }

  lemma {:induction false} AllAsked(rows: map<Key, Row>, after: Db, items: seq<Item>, b: BlockId, o: Payer,
                                    calls: seq<Call>)
    requires P.ListsPending(rows, b, items) && AskedOnce(calls, items) && CallsFit(calls, o)
    requires forall it :: it in items ==> ItemFits(rows, after, it, o, calls)
    ensures AskedFor(rows, calls, PendingKeys(rows, b), o)
  {
    forall k | k in PendingKeys(rows, b) && o.registered(k.member) ensures Call(k, rows[k].amount) in calls {
      assert Item(k, rows[k].amount) in items;
      assert ItemFits(rows, after, Item(k, rows[k].amount), o, calls);
    }
  }

  class Worker {
    var db: Db
    var log: seq<Call>
    var zapped: set<Key>  // the rows with a zapEventId

    constructor (db: Db)
      ensures this.db == db && log == [] && zapped == {}
    {
      this.db := db;
      log, zapped := [], {};
    }

    /** A receipt for a row that has none yet. */
    method PublishZap(k: Key, receipt: Receipt) returns (r: Result<nat>)
      modifies this`zapped
      ensures r.Failure? <==> k !in old(zapped) && receipt == NotStored
      ensures r.Failure? ==> zapped == old(zapped)
      ensures r.Success? ==>
        zapped == old(zapped) + (if receipt == Stored then {k} else {}) && r.value == |zapped| - |old(zapped)|
    {
      if k in zapped || receipt == Untaken { return Success(0); }
      if receipt == NotStored { return Failure("event id not stored"); }
      zapped := zapped + {k};
      return Success(1);
    }

    /** A PAID row for a member output, unless the row exists, and a receipt for it. */
    method RecordMember(b: BlockId, o: CoinbaseOutput, rec: Recorder) returns (r: Result<nat>)
      modifies this`db, this`zapped
      ensures r.Failure? <==> Stops(old(zapped), b, o, rec)
      ensures r.Failure? ==> zapped == old(zapped) && (db == old(db) || db == ApplyAll(old(db), MemberUpserts(b, o)))
      ensures r.Success? ==>
        && db == ApplyAll(old(db), MemberUpserts(b, o)) && zapped == old(zapped) + ZapKey(b, o, rec)
        && r.value == |zapped| - |old(zapped)|
    {
      if !IsMemberOutput(o) { return Success(0); }
      var k := Key(b, o.pubkey.value, OnChain);
      if rec.rejects(k) { return Failure("upsert rejected"); }
      ApplyOneMore(db, [], MemberUpsert(b, o));
      db := Apply(db, MemberUpsert(b, o));
      r := PublishZap(k, rec.receipt(k.member));
    }

    /** The same for every member output of a block, up to the first on which recording ends. */
    method RecordMembers(b: BlockId, outs: seq<CoinbaseOutput>, rec: Recorder) returns (r: Result<RecordResult>)
      modifies this`db, this`zapped
      ensures r.Failure? <==> AnyStops(old(zapped), b, outs, rec)
      ensures r.Failure? ==>
        PartlyRecorded(old(db), db, P.OnChainUpserts(b, outs)) && PartlyZapped(old(zapped), zapped, b, outs, rec)
      ensures r.Success? ==>
        && db == ApplyAll(old(db), P.OnChainUpserts(b, outs)) && zapped == old(zapped) + ZapKeys(b, outs, rec)
        && r.value.recorded == |P.OnChainUpserts(b, outs)| && r.value.pending == 0
        && r.value.zapsPublished == |zapped| - |old(zapped)|
    {
      var recorded, zapsPublished := 0, 0;
      for i := 0 to |outs|
        invariant MembersDone(old(db), db, old(zapped), zapped, b, outs[..i], rec)
        invariant recorded == |P.OnChainUpserts(b, outs[..i])| && zapsPublished == |zapped| - |old(zapped)|
      {
        ghost var mid, between := db, zapped;
        var one := RecordMember(b, outs[i], rec);
        if one.Failure? {
          StoppedAt(old(db), mid, db, old(zapped), zapped, b, outs, i, rec);
          return Failure(one.error);
        }
        OneMoreDone(old(db), mid, db, old(zapped), between, zapped, b, outs, i, rec);
        recorded, zapsPublished := recorded + |MemberUpserts(b, outs[i])|, zapsPublished + one.value;
      }
      WholeDone(old(db), db, old(zapped), zapped, b, outs, rec);
      return Success(RecordResult(recorded, 0, zapsPublished));
    }

    /** One PENDING row per dust entry, unless the row exists, up to the first rejected one. */
    method RecordDust(b: BlockId, dust: seq<DustEntry>, rec: Recorder) returns (r: Result<nat>)
      modifies this`db
      ensures r.Failure? <==> exists d :: d in dust && rec.rejects(Key(b, d.pubkey, LnDust))
      ensures r.Failure? ==> PartlyRecorded(old(db), db, P.DustUpserts(b, dust))
      ensures r.Success? ==> db == ApplyAll(old(db), P.DustUpserts(b, dust)) && r.value == |dust|
    {
      for i := 0 to |dust|
        invariant db == ApplyAll(old(db), P.DustUpserts(b, dust[..i]))
        invariant forall d :: d in dust[..i] ==> !rec.rejects(Key(b, d.pubkey, LnDust))
      {
        assert dust[..i + 1] == dust[..i] + [dust[i]];
        if rec.rejects(Key(b, dust[i].pubkey, LnDust)) {
          DustPrefix(b, dust, i);
          PrefixRecorded(old(db), db, P.DustUpserts(b, dust[..i]), P.DustUpserts(b, dust));
          return Failure("upsert rejected");
        }
        OneMoreDust(b, dust[..i], dust[i]);
        ApplyOneMore(old(db), P.DustUpserts(b, dust[..i]), DustUpsert(b, dust[i]));
        db := Apply(db, DustUpsert(b, dust[i]));
      }
      assert dust[..|dust|] == dust;
      return Success(|dust|);
    }

    /** Writes one PAID row per member output and one PENDING row per dust entry, unless the row
        exists, and publishes the receipts that are missing; ends on the first rejected write. */
    method RecordOnChainPayouts(b: BlockId, rec: Recorder) returns (r: Result<RecordResult>)
      modifies this`db, this`zapped
      ensures r.Success? <==>
        && b in old(db).blocks
        && var s := old(db).blocks[b].snapshot;
           && !AnyStops(old(zapped), b, FlatOutputs(s), rec)
           && (forall d :: d in Breakdown(s) ==> !rec.rejects(Key(b, d.pubkey, LnDust)))
      ensures r.Success? ==>
        var s := old(db).blocks[b].snapshot;
        && db == ApplyAll(old(db), P.Upserts(b, s))
        && zapped == old(zapped) + ZapKeys(b, FlatOutputs(s), rec)
        && r.value == RecordResult(|P.OnChainUpserts(b, FlatOutputs(s))|, |Breakdown(s)|, |zapped - old(zapped)|)
      ensures b !in old(db).blocks ==> db == old(db) && zapped == old(zapped)
      ensures b in old(db).blocks ==>
        var s := old(db).blocks[b].snapshot;
        && PartlyRecorded(old(db), db, P.Upserts(b, s))
        && PartlyZapped(old(zapped), zapped, b, FlatOutputs(s), rec)
    {
      if b !in db.blocks { return Failure("block not found"); }
      var s := db.blocks[b].snapshot;
      ghost var ws, outs := P.OnChainUpserts(b, FlatOutputs(s)), FlatOutputs(s);
      var members := RecordMembers(b, FlatOutputs(s), rec);
      if members.Failure? {
        MembersRecorded(old(db), db, b, s);
        return Failure(members.error);
      }
      assert outs[..|outs|] == outs;
      ghost var mid := db;
      var dust := RecordDust(b, Breakdown(s), rec);
      if dust.Success? { DustUpsertsWhole(mid, db, b, Breakdown(s)); }
      DustRecorded(old(db), mid, db, b, s);
      if dust.Failure? { return Failure(dust.error); }
      ApplyAllConcat(old(db), ws, P.DustUpserts(b, Breakdown(s)));
      assert zapped == old(zapped) + (zapped - old(zapped));
      return Success(members.value.(pending := dust.value));
    }

    /** The rows findMany returns for a block, in some order. */
    method ReadPending(b: BlockId) returns (items: seq<Item>)
      ensures P.ListsPending(db.rows, b, items)
    {
      var rest := set k | k in db.rows && IsPendingDust(db.rows, k, b);
      items := [];
      while rest != {}
        invariant forall k :: k in rest ==> IsPendingDust(db.rows, k, b)
        invariant forall it :: it in items ==>
          IsPendingDust(db.rows, it.key, b) && it.amount == db.rows[it.key].amount && it.key !in rest
        invariant forall k :: IsPendingDust(db.rows, k, b) ==> k in rest || Item(k, db.rows[k].amount) in items
        invariant forall i, j :: 0 <= i < j < |items| ==> items[i].key != items[j].key
        decreases |rest|
      {
        var k :| k in rest;
        items, rest := items + [Item(k, db.rows[k].amount)], rest - {k};
      }
    }

    /** One await of loop `i` resolves. */
    method Resolve(pass: Pass, i: nat, o: Payer, ghost db0: Db, ghost calls: seq<Call>, ghost items: seq<Item>,
                   ghost concurrency: nat, ghost log0: seq<Call>)
      returns (ghost calls': seq<Call>, pass': Pass)
      requires i < |pass.slots| && Active(pass.slots[i])
      requires Account(db0, db, pass, concurrency, o, calls, items) && log == log0 + calls
      modifies this`db, this`log
      ensures Account(db0, db, pass', concurrency, o, calls', items) && log == log0 + calls'
      ensures Work(pass') < Work(pass)
    {
      AccountKept(db0, db, pass, concurrency, o, calls, items, i);
      var reply := Replied(pass.slots[i], o);
      var out := SlotStep(db, pass.slots[i], reply).value;
      EveryStepShrinksWork(db, pass, i, reply);
      ConcatAssociative(log0, calls, out.calls);
      db, log := out.db, log + out.calls;
      calls', pass' := calls + out.calls, Settle(pass, i, out);
    }

    /** runWithConcurrency over the fan-out body.  The scheduler picks any loop that can proceed. */
    method RunWithConcurrency(b: BlockId, items: seq<Item>, concurrency: nat, o: Payer) returns (pass: Pass)
      requires DistinctItems(items) && forall it :: it in items ==> HasStatus(db, it.key, Pending)
      modifies this`db, this`log
      ensures SoleInv(db, pass, concurrency) && pass.items == items
      ensures forall i :: 0 <= i < |pass.slots| ==> !Active(pass.slots[i])
      ensures SameElsewhere(old(db), db, items)
      ensures old(log) <= log && AskedOnce(log[|old(log)|..], items)
      ensures OutcomeInv(old(db).rows, db, pass, o, log[|old(log)|..])
      ensures concurrency == 0 ==> db == old(db) && log == old(log)
    {
      pass := StartPass(b, items, concurrency);
      ghost var calls: seq<Call> := [];
      StartLoop(db, b, items, concurrency);
      StartOutcome(db, b, items, concurrency, o);
      while exists i :: 0 <= i < |pass.slots| && Active(pass.slots[i])
        invariant log == old(log) + calls
        invariant Account(old(db), db, pass, concurrency, o, calls, items)
        invariant concurrency == 0 ==> db == old(db) && log == old(log)
        decreases Work(pass)
      {
        var i :| 0 <= i < |pass.slots| && Active(pass.slots[i]);
        calls, pass := Resolve(pass, i, o, old(db), calls, items, concurrency, old(log));
      }
      assert log[|old(log)|..] == calls;
    }

    /** The pass over a matured block's pending rows. */
    method PayPending(b: BlockId, concurrency: nat, o: Payer) returns (r: FanoutResult)
      requires b in db.blocks && db.blocks[b].status == Matured
      modifies this`db, this`log
      ensures r.pending == |PendingKeys(old(db).rows, b)| && old(log) <= log
      ensures PaidOut(old(db), db, log[|old(log)|..], b, concurrency, o, r)
    {
      var items := ReadPending(b);
      ListedCounted(db.rows, b, items);
      var pass := RunWithConcurrency(b, items, concurrency, o);
      RowsPaidOut(old(db), db, items, pass, b, concurrency, o, log[|old(log)|..]);
      ClosedPaysOut(old(db), db, log[|old(log)|..], b, concurrency, o, |items|, pass.paid, pass.failed);
      db := Closed(db, b, pass.failed);
      r := FanoutResult(|items|, pass.paid, pass.failed);
    }

    /** One pass over a matured block. */
    method FanoutDust(b: BlockId, concurrency: nat, credentials: bool, o: Payer) returns (r: Result<FanoutResult>)
      modifies this`db, this`log
      ensures r.Success? <==> b in old(db).blocks && old(db).blocks[b].status == Matured
      ensures r.Failure? ==> db == old(db) && log == old(log)
      // without credentials every pending row is failed and counted as such
      ensures r.Success? && !credentials ==>
        && r.value == FanoutResult(0, 0, |PendingKeys(old(db).rows, b)|) && log == old(log)
        && db.blocks == old(db).blocks && db.rows.Keys == old(db).rows.Keys
        && forall k :: k in db.rows ==>
             db.rows[k]
             == if k in PendingKeys(old(db).rows, b) then old(db).rows[k].(status := Failed) else old(db).rows[k]
      ensures r.Success? && credentials ==>
        && r.value.pending == |PendingKeys(old(db).rows, b)| && old(log) <= log
        && PaidOut(old(db), db, log[|old(log)|..], b, concurrency, o, r.value)
    {
      if b !in db.blocks { return Failure("block not found"); }
      if db.blocks[b].status != Matured { return Failure("not matured"); }
      if !credentials {
        var pending := ReadPending(b);
        ListedCounted(db.rows, b, pending);
        db := Apply(db, FailPending(b));
        return Success(FanoutResult(0, 0, |pending|));
      }
      var result := PayPending(b, concurrency, o);
      return Success(result);
    }

    /** The IN_FLIGHT dust rows findMany returns, in some order. */
    method ReadInFlight() returns (keys: seq<Key>)
      ensures forall k :: k in keys <==> IsInFlightDust(db.rows, k)
      ensures forall i, j :: 0 <= i < j < |keys| ==> keys[i] != keys[j]
    {
      var rest := set k | k in db.rows && IsInFlightDust(db.rows, k);
      keys := [];
      while rest != {}
        invariant forall k :: k in rest ==> IsInFlightDust(db.rows, k) && k !in keys
        invariant forall k :: k in keys ==> IsInFlightDust(db.rows, k)
        invariant forall k :: IsInFlightDust(db.rows, k) ==> k in rest || k in keys
        invariant forall i, j :: 0 <= i < j < |keys| ==> keys[i] != keys[j]
        decreases |rest|
      {
        var k :| k in rest;
        keys, rest := keys + [k], rest - {k};
      }
    }

    /** Finalizes one row by its stored hash, or as FAILED without one. */
    method ReconcileOne(k: Key, o: Outside) returns (verdict: Verdict)
      requires IsInFlightDust(db.rows, k)
      modifies this`db
      ensures verdict == Judge(k, old(db).rows[k].hash, o)
      ensures db.blocks == old(db).blocks && db.rows == old(db).rows[k := ReconciledRow(k, old(db).rows[k], o)]
    {
      verdict := Judge(k, db.rows[k].hash, o);
      if !verdict.Leave? && !verdict.Abort? {
        db := Apply(db, Finish(k, Verdicted(InFlight, verdict), None));
      }
    }

    /** Finalizes the listed rows one by one, up to the first on which the pass ends. */
    method ReconcileAll(keys: seq<Key>, o: Outside) returns (r: Result<ReconcileResult>)
      requires forall k :: k in keys ==> IsInFlightDust(db.rows, k)
      requires forall i, j :: 0 <= i < j < |keys| ==> keys[i] != keys[j]
      modifies this`db
      ensures r.Success? <==> forall k :: k in keys ==> !Aborts(old(db).rows, k, o)
      ensures exists done: nat :: done <= |keys| && PartlyReconciled(old(db), db, keys[..done], o)
      ensures r.Success? ==>
        PartlyReconciled(old(db), db, keys, o) && r.value == Tallied(old(db).rows, keys, |keys|, o)
    {
      var n := ReconcileResult(|keys|, 0, 0, 0, 0);
      for i := 0 to |keys|
        invariant PartlyReconciled(old(db), db, keys[..i], o)
        invariant forall k :: k in keys[..i] ==> !Aborts(old(db).rows, k, o)
        invariant forall k :: k in keys[..i] ==> k in old(db).rows
        invariant n == Tallied(old(db).rows, keys[..i], |keys|, o)
      {
        assert keys[i] in keys && keys[i] !in keys[..i] && keys[..i + 1] == keys[..i] + [keys[i]];
        ghost var before := db;
        var verdict := ReconcileOne(keys[i], o);
        OneMoreReconciled(old(db), before, db, keys[..i], keys[i], o);
        if verdict.Abort? {
          assert Aborts(old(db).rows, keys[i], o);
          return Failure("rejected");
        }
        n := Tally(n, verdict);
      }
      assert keys[..|keys|] == keys;
      return Success(n);
    }

    /** Finalizes every IN_FLIGHT dust row; each counter is the number of rows with that verdict. */
    method ReconcileInFlight(o: Outside) returns (r: Result<ReconcileResult>)
      modifies this`db
      ensures db.blocks == old(db).blocks && db.rows.Keys == old(db).rows.Keys
      ensures r.Success? <==> forall k :: !Aborts(old(db).rows, k, o)
      ensures r.Success? ==> forall k :: k in db.rows ==> db.rows[k] == ReconciledRow(k, old(db).rows[k], o)
      ensures forall k :: k in db.rows && db.rows[k] != old(db).rows[k] ==>
        db.rows[k] == ReconciledRow(k, old(db).rows[k], o)
      ensures r.Success? ==>
        var n := r.value;
        n.promotedPaid + n.markedFailed + n.stillInFlight == n.scanned && n.unrecoverable <= n.markedFailed
      ensures r.Success? ==>
        && r.value.scanned == |InFlightKeys(old(db).rows)|
        && Counts(r.value, old(db).rows, InFlightKeys(old(db).rows), o)
      ensures r.Success? && (forall k :: IsInFlightDust(old(db).rows, k) ==> old(db).rows[k].hash == None) ==>
        r.value.unrecoverable == r.value.scanned
    {
      var keys := ReadInFlight();
      InFlightCounted(db.rows, keys);
      TalliedCounts(db.rows, keys, |keys|, o);
      r := ReconcileAll(keys, o);
      if r.Success? { TalliedSum(old(db).rows, keys, |keys|, o); }
    }

    /** Moves one FOUND block by the node's answer, unless its update is rejected. */
    method WatchOne(b: BlockId, o: Chain, maturityConfs: int, r: MaturityResult) returns (next: Result<MaturityResult>)
      requires b in db.blocks && db.blocks[b].status == BlockStatus.Found
      modifies this`db
      ensures db.rows == old(db).rows
      ensures db.blocks == old(db).blocks[b := old(db).blocks[b].(status := Watched(b, o, maturityConfs))]
      ensures next.Failure? <==> EndsPass(b, o)
      ensures next.Success? ==> next.value == Report(r, b, o, maturityConfs)
    {
      var wanted := Wanted(o.answer(b), maturityConfs);
      var rejected := o.rejects(b);
      if wanted != BlockStatus.Found && !rejected { db := Apply(db, SetStatus(b, wanted)); }
      if o.answer(b).RpcError? || (rejected && o.answer(b).Confs? && wanted != BlockStatus.Found) {
        next := Success(r.(errored := r.errored + [b]));
      } else if rejected && o.answer(b).BlockNotFound? {
        next := Failure("rejected");
      } else if wanted == Matured {
        next := Success(r.(matured := r.matured + [b]));
      } else if wanted == Orphaned {
        next := Success(r.(orphaned := r.orphaned + [b]));
      } else {
        next := Success(r);
      }
    }

    /** Up to 200 FOUND blocks, in some order. */
    method ReadFound() returns (cands: seq<BlockId>)
      ensures |cands| <= 200 && forall b :: b in cands ==> b in FoundBlocks(db)
      ensures |cands| < 200 ==> forall b :: b in FoundBlocks(db) ==> b in cands
      ensures P.Distinct(cands)
    {
      var rest := FoundBlocks(db);
      cands := [];
      while rest != {} && |cands| < 200
        invariant |cands| <= 200 && rest <= FoundBlocks(db)
        invariant forall b :: b in cands ==> b in FoundBlocks(db) && b !in rest
        invariant forall b :: b in FoundBlocks(db) ==> b in rest || b in cands
        invariant forall i, j :: 0 <= i < j < |cands| ==> cands[i] != cands[j]
        decreases |rest|
      {
        var b :| b in rest;
        cands, rest := cands + [b], rest - {b};
      }
    }

    /** Asks the node about up to 200 FOUND blocks and moves each by its answer, up to the first on
        which the pass ends. */
    method CheckMaturity(o: Chain, maturityConfs: int) returns (r: Result<MaturityResult>, ghost cands: seq<BlockId>)
      modifies this`db
      ensures |cands| <= 200 && P.Distinct(cands) && forall b :: b in cands ==> b in FoundBlocks(old(db))
      ensures |cands| < 200 ==> forall b :: b in FoundBlocks(old(db)) ==> b in cands
      ensures r.Success? <==> forall b :: b in cands ==> !EndsPass(b, o)
      ensures r.Success? ==>
        PartlyWatched(old(db), db, cands, o, maturityConfs) && Reports(r.value, cands, o, maturityConfs)
      ensures r.Failure? ==>
        exists n: nat :: n < |cands| && EndsPass(cands[n], o)
                         && PartlyWatched(old(db), db, cands[..n], o, maturityConfs)
    {
      var found := ReadFound();
      cands := found;
      var result := MaturityResult([], [], []);
      for i := 0 to |found|
        invariant PartlyWatched(old(db), db, found[..i], o, maturityConfs)
        invariant Reports(result, found[..i], o, maturityConfs)
        invariant forall b :: b in found[..i] ==> !EndsPass(b, o)
      {
        assert found[i] in found && found[i] !in found[..i] && found[..i + 1] == found[..i] + [found[i]];
        ghost var before := db;
        var next := WatchOne(found[i], o, maturityConfs, result);
        if next.Failure? {
          assert db.blocks == before.blocks;
          return Failure(next.error), cands;
        }
        OneMoreWatched(old(db), before, db, found[..i], found[i], o, maturityConfs);
        OneMoreReported(result, found[..i], found[i], o, maturityConfs);
        result := next.value;
      }
      assert found[..|found|] == found;
      return Success(result), cands;
    }
  }
}
