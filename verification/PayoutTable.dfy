/** The payout-attempt table, the block table, and the single-row writes the worker issues. */
module PayoutTable {
  import opened Shared

  type BlockId = string
  type Pubkey = string

  datatype Status = Pending | InFlight | Paid | Failed
  datatype Kind = OnChain | LnDust

  /** UNIQUE(blockId, memberPubkey, kind). */
  datatype Key = Key(block: BlockId, member: Pubkey, kind: Kind)

  datatype Row = Row(status: Status, amount: nat, hash: Option<string>)

  datatype BlockStatus = Found | Orphaned | Matured | DustFannedOut

  /** A flat output of the stored snapshot, with the dust breakdown it may carry. */
  datatype SnapshotOutput = SnapshotOutput(out: CoinbaseOutput, breakdown: Option<seq<DustEntry>>)

  /** The two persisted shapes of Block.coinbaseOutputs. */
  datatype Snapshot =
    | Flat(flat: seq<SnapshotOutput>)
    | Split(outs: seq<CoinbaseOutput>, dust: seq<DustEntry>)

  datatype Block = Block(status: BlockStatus, snapshot: Snapshot)

  datatype Db = Db(rows: map<Key, Row>, blocks: map<BlockId, Block>)

  /** findDustBreakdown: the first DUST_BUCKET output that carries an array. */
  function FindDustBreakdown(flat: seq<SnapshotOutput>): seq<DustEntry> {
    if flat == [] then []
    else if flat[0].out.kind == DustBucket && flat[0].breakdown.Some? then flat[0].breakdown.value
    else FindDustBreakdown(flat[1..])
  }

  function Breakdown(s: Snapshot): seq<DustEntry> {
    match s
    case Flat(flat) => FindDustBreakdown(flat)
    case Split(_, dust) => dust
  }

  function FlatOutputs(s: Snapshot): seq<CoinbaseOutput> {
    match s
    case Flat(flat) => seq(|flat|, i requires 0 <= i < |flat| => flat[i].out)
    case Split(outs, _) => outs
  }

  function Rank(s: Status): nat {
    match s
    case Pending => 0
    case InFlight => 1
    case _ => 2
  }

  /** A write as the database sees it.  Each is atomic on its own. */
  datatype Write =
    | Upsert(key: Key, row: Row)                                    // upsert with update: {}
    | Claim(key: Key)                                               // updateMany where status = PENDING
    | Finish(key: Key, status: Status, hash: Option<string>)        // update, no status guard
    | FailPending(block: BlockId)                                   // updateMany of the block's PENDING dust rows
    | SetStatus(block: BlockId, blockStatus: BlockStatus)

  function Apply(db: Db, w: Write): Db {
    match w
    case Upsert(k, row) =>
      if k in db.rows then db else db.(rows := db.rows[k := row])
    case Claim(k) =>
      if k in db.rows && db.rows[k].status == Pending
      then db.(rows := db.rows[k := db.rows[k].(status := InFlight)]) else db
    case Finish(k, st, hash) =>
      if k in db.rows
      then db.(rows := db.rows[k := db.rows[k].(status := st, hash := if hash.Some? then hash else db.rows[k].hash)])
      else db
    case FailPending(b) =>
      db.(rows := map k | k in db.rows ::
        if IsPendingDust(db.rows, k, b) then db.rows[k].(status := Failed) else db.rows[k])
    case SetStatus(b, st) =>
      if b in db.blocks then db.(blocks := db.blocks[b := db.blocks[b].(status := st)]) else db
  }

  predicate IsPendingDust(rows: map<Key, Row>, k: Key, b: BlockId) {
    k in rows && k.block == b && k.kind == LnDust && rows[k].status == Pending
  }

  /** Rows never vanish, never change amount, and never fall back in rank;
      blocks never vanish and never change snapshot. */
  ghost predicate Forward(a: Db, b: Db) {
    && (forall k :: k in a.rows ==>
          k in b.rows && b.rows[k].amount == a.rows[k].amount && Rank(a.rows[k].status) <= Rank(b.rows[k].status))
    && (forall x :: x in a.blocks ==> x in b.blocks && b.blocks[x].snapshot == a.blocks[x].snapshot)
  }

  lemma {:induction false} ForwardTransitive(a: Db, b: Db, c: Db)
    requires Forward(a, b) && Forward(b, c)
    ensures Forward(a, c)
  {}

  /** The finishing writes of the code carry PAID or FAILED; that is all it takes
      for every write to move rows forward only. */
  lemma {:induction false} ApplyMovesForward(db: Db, w: Write)
    requires w.Finish? ==> Rank(w.status) == 2
    ensures Forward(db, Apply(db, w))
  {}
}
