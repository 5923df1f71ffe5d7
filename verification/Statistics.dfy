/** Per-session share statistics: shares are added up in memory per ten-minute slot and written
    back to the table now and then, and the last ones are kept for the difficulty suggestion. */
module Statistics {
  import opened Shared
  import opened PowerOfTwo
  import opened Vardiff

  const SLOT_MS := 600_000
  const SAVE_MS := 60_000
  const CACHE_SIZE := 30

  function Slot(time: int): int { time / SLOT_MS * SLOT_MS }

  /** A row of the statistics table, of the one client and session the object serves. */
  datatype Row = Row(time: int, shares: real, accepted: nat)

  /** The service's update: every row of that time. */
  function Update(rows: seq<Row>, row: Row): seq<Row> {
    seq(|rows|, i requires 0 <= i < |rows| => if rows[i].time == row.time then row else rows[i])
  }

  // ----- what was credited in a slot -----

  function SlotSum(credited: seq<Submission>, slot: int): real {
    if credited == [] then 0.0
    else
      var n := |credited| - 1;
      SlotSum(credited[..n], slot) + (if Slot(credited[n].time) == slot then credited[n].difficulty else 0.0)
  }

  function SlotCount(credited: seq<Submission>, slot: int): nat {
    if credited == [] then 0
    else
      var n := |credited| - 1;
      SlotCount(credited[..n], slot) + (if Slot(credited[n].time) == slot then 1 else 0)
  }

  /** The count of a slot is the number of its shares. */
  lemma {:induction false} CountIsShares(credited: seq<Submission>, slot: int)
    ensures SlotCount(credited, slot) == |SharesIn(credited, slot)|
  {
    if credited != [] {
      var n := |credited| - 1;
      CountIsShares(credited[..n], slot);
      assert SharesIn(credited, slot)
        == SharesIn(credited[..n], slot) + (if Slot(credited[n].time) == slot then {n} else {});
    }
  }

  function SharesIn(credited: seq<Submission>, slot: int): set<int> {
    set i | 0 <= i < |credited| && Slot(credited[i].time) == slot
  }

  function Exact(credited: seq<Submission>, slot: int): Row {
    Row(slot, SlotSum(credited, slot), SlotCount(credited, slot))
  }

  lemma {:induction false} ExactAppend(credited: seq<Submission>, c: Submission, slot: int)
    ensures Exact(credited + [c], slot)
      == if Slot(c.time) == slot then Row(slot, SlotSum(credited, slot) + c.difficulty, SlotCount(credited, slot) + 1)
        else Exact(credited, slot)
  {
    assert (credited + [c])[..|credited|] == credited;
  }

  lemma {:induction false} PrefixAtMost(credited: seq<Submission>, n: nat, slot: int)
    requires n <= |credited| && forall c :: c in credited ==> c.difficulty >= 0.0
    ensures SlotSum(credited[..n], slot) <= SlotSum(credited, slot)
      && SlotCount(credited[..n], slot) <= SlotCount(credited, slot)
    decreases |credited|
  {
    if n == |credited| {
      assert credited[..n] == credited;
    } else {
      var front := credited[..|credited| - 1];
      PrefixAtMost(front, n, slot);
      assert front[..n] == credited[..n];
    }
  }

  lemma {:induction false} NothingCredited(credited: seq<Submission>, slot: int)
    requires forall c :: c in credited ==> Slot(c.time) != slot
    ensures Exact(credited, slot) == Row(slot, 0.0, 0)
  {
    if credited != [] { NothingCredited(credited[..|credited| - 1], slot); }
  }

  // ----- the table against the credits -----

  ghost predicate Ascending(rows: seq<Row>) { forall i, j :: 0 <= i < j < |rows| ==> rows[i].time < rows[j].time }

  ghost predicate HasRow(rows: seq<Row>, slot: int) { exists i :: 0 <= i < |rows| && rows[i].time == slot }

  /** One row per slot with a credit, the current slot's last; the rows of closed slots are exact. */
  ghost predicate RowsOk(rows: seq<Row>, credited: seq<Submission>, current: int) {
    && rows != [] && rows[|rows| - 1].time == current && Ascending(rows)
    && (forall i :: 0 <= i < |rows| - 1 ==> rows[i] == Exact(credited, rows[i].time))
    && (forall c :: c in credited ==> Slot(c.time) <= current && HasRow(rows, Slot(c.time)))
  }

  /** The current slot's row holds the first `saved` credits; every later credit came within a
      minute of the last save. */
  ghost predicate LagOk(row: Row, credited: seq<Submission>, current: int, saved: nat, lastSave: int) {
    && saved <= |credited| && row == Exact(credited[..saved], current)
    && (forall i :: saved <= i < |credited| ==>
       Slot(credited[i].time) == current && credited[i].time - SAVE_MS <= lastSave)
  }

  ghost predicate TableOk(rows: seq<Row>, credited: seq<Submission>, current: int, saved: nat, lastSave: int) {
    RowsOk(rows, credited, current) && LagOk(rows[|rows| - 1], credited, current, saved, lastSave)
  }

  lemma {:induction false} UpdateLast(rows: seq<Row>, row: Row)
    requires rows != [] && Ascending(rows) && rows[|rows| - 1].time == row.time
    ensures Update(rows, row) == rows[..|rows| - 1] + [row]
  {}

  lemma {:induction false} HasRowKept(rows: seq<Row>, later: seq<Row>, slot: int)
    requires HasRow(rows, slot) && |rows| <= |later| && forall i :: 0 <= i < |rows| ==> later[i].time == rows[i].time
    ensures HasRow(later, slot)
  {
    var i :| 0 <= i < |rows| && rows[i].time == slot;
    assert later[i].time == slot;
  }

  /** Writing the memory totals makes the current row exact too. */
  lemma {:induction false} SaveOk(rows: seq<Row>, credited: seq<Submission>, current: int, later: int)
    requires RowsOk(rows, credited, current)
    ensures TableOk(Update(rows, Exact(credited, current)), credited, current, |credited|, later)
  {
    var rows' := Update(rows, Exact(credited, current));
    UpdateLast(rows, Exact(credited, current));
    assert credited[..|credited|] == credited;
    forall c | c in credited ensures HasRow(rows', Slot(c.time)) { HasRowKept(rows, rows', Slot(c.time)); }
  }

  lemma {:induction false} SameSlotOk(rows: seq<Row>, credited: seq<Submission>, current: int, c: Submission)
    requires RowsOk(rows, credited, current) && Slot(c.time) == current
    ensures RowsOk(rows, credited + [c], current)
  {
    forall i | 0 <= i < |rows| - 1 ensures rows[i] == Exact(credited + [c], rows[i].time) {
      ExactAppend(credited, c, rows[i].time);
    }
    assert HasRow(rows, current);
  }

  /** A credit of the current slot that is not written yet. */
  lemma {:induction false} KeepOk(rows: seq<Row>, credited: seq<Submission>, current: int, saved: nat, lastSave: int,
                                  c: Submission)
    requires TableOk(rows, credited, current, saved, lastSave) && Slot(c.time) == current
      && c.time - SAVE_MS <= lastSave
    ensures TableOk(rows, credited + [c], current, saved, lastSave)
  {
    SameSlotOk(rows, credited, current, c);
    assert (credited + [c])[..saved] == credited[..saved];
  }

  /** The first credit of a later slot, written at once. */
  lemma {:induction false} NextSlotOk(rows: seq<Row>, credited: seq<Submission>, current: int, lastSave: int,
                                      c: Submission, later: int)
    requires TableOk(rows, credited, current, |credited|, lastSave) && Slot(c.time) > current
    ensures TableOk(rows + [Row(Slot(c.time), c.difficulty, 1)], credited + [c], Slot(c.time), |credited| + 1, later)
  {
    var rows' := rows + [Row(Slot(c.time), c.difficulty, 1)];
    assert credited[..|credited|] == credited && (credited + [c])[..|credited| + 1] == credited + [c];
    forall i | 0 <= i < |rows| ensures rows'[i] == Exact(credited + [c], rows'[i].time) {
      ExactAppend(credited, c, rows[i].time);
    }
    NothingCredited(credited, Slot(c.time));
    ExactAppend(credited, c, Slot(c.time));
    forall x | x in credited + [c] ensures HasRow(rows', Slot(x.time)) {
      if x in credited { HasRowKept(rows, rows', Slot(x.time)); } else { assert rows'[|rows|].time == Slot(x.time); }
    }
  }

  /** The old slot's row brought up to date, then the new slot's row. */
  lemma {:induction false} RollsOver(rows: seq<Row>, credited: seq<Submission>, current: int, c: Submission, later: int)
    requires RowsOk(rows, credited, current) && Slot(c.time) > current
    ensures TableOk(Update(rows, Exact(credited, current)) + [Row(Slot(c.time), c.difficulty, 1)], credited + [c],
                    Slot(c.time), |credited| + 1, later)
    ensures Row(Slot(c.time), c.difficulty, 1) == Exact(credited + [c], Slot(c.time))
  {
    SaveOk(rows, credited, current, later);
    NextSlotOk(Update(rows, Exact(credited, current)), credited, current, later, c, later);
    NothingCredited(credited, Slot(c.time));
    ExactAppend(credited, c, Slot(c.time));
  }

  lemma {:induction false} FirstOk(c: Submission, later: int)
    ensures TableOk([Row(Slot(c.time), c.difficulty, 1)], [c], Slot(c.time), 1, later)
  {
    var rows := [Row(Slot(c.time), c.difficulty, 1)];
    assert [c][..1] == [] + [c];
    ExactAppend([], c, Slot(c.time));
    assert rows[0].time == Slot(c.time);
  }

  /** The table never runs ahead of the memory. */
  lemma {:induction false} CurrentRowAtMostMemory(rows: seq<Row>, credited: seq<Submission>, current: int, saved: nat,
                                                  lastSave: int)
    requires TableOk(rows, credited, current, saved, lastSave) && forall c :: c in credited ==> c.difficulty >= 0.0
    ensures rows[|rows| - 1].shares <= SlotSum(credited, current)
      && rows[|rows| - 1].accepted <= SlotCount(credited, current)
  {
    PrefixAtMost(credited, saved, current);
  }

  // ----- nothing is lost or counted twice -----

  function SumShares(rows: seq<Row>): real {
    if rows == [] then 0.0 else rows[0].shares + SumShares(rows[1..])
  }

  function SumSlots(rows: seq<Row>, credited: seq<Submission>): real {
    if rows == [] then 0.0 else SlotSum(credited, rows[0].time) + SumSlots(rows[1..], credited)
  }

  /** One more credit adds its difficulty to exactly one slot. */
  lemma {:induction false} SumSlotsAppend(rows: seq<Row>, credited: seq<Submission>, c: Submission)
    requires Ascending(rows)
    ensures SumSlots(rows, credited + [c])
      == SumSlots(rows, credited) + (if HasRow(rows, Slot(c.time)) then c.difficulty else 0.0)
  {
    if rows != [] {
      SumSlotsAppend(rows[1..], credited, c);
      ExactAppend(credited, c, rows[0].time);
      assert HasRow(rows, Slot(c.time)) <==> rows[0].time == Slot(c.time) || HasRow(rows[1..], Slot(c.time)) by {
        if HasRow(rows, Slot(c.time)) {
          var i :| 0 <= i < |rows| && rows[i].time == Slot(c.time);
          if i > 0 { assert rows[1..][i - 1].time == Slot(c.time); }
        }
        if HasRow(rows[1..], Slot(c.time)) {
          var i :| 0 <= i < |rows[1..]| && rows[1..][i].time == Slot(c.time);
          assert rows[i + 1].time == Slot(c.time);
        }
      }
    }
  }

  lemma {:induction false} SumSlotsIsTotal(rows: seq<Row>, credited: seq<Submission>)
    requires Ascending(rows) && forall c :: c in credited ==> HasRow(rows, Slot(c.time))
    ensures SumSlots(rows, credited) == TotalDifficulty(credited)
    decreases |credited|
  {
    if credited == [] {
      NoCredits(rows);
    } else {
      var n := |credited| - 1;
      SumSlotsIsTotal(rows, credited[..n]);
      assert credited == credited[..n] + [credited[n]];
      SumSlotsAppend(rows, credited[..n], credited[n]);
    }
  }

  lemma {:induction false} NoCredits(rows: seq<Row>)
    ensures SumSlots(rows, []) == 0.0
  {
    if rows != [] { NoCredits(rows[1..]); }
  }

  function TotalDifficulty(credited: seq<Submission>): real {
    if credited == [] then 0.0 else TotalDifficulty(credited[..|credited| - 1]) + credited[|credited| - 1].difficulty
  }

  /** All rows together hold everything credited, short of what the current slot has in memory
      but not yet in its row. */
  lemma {:induction false} TableHoldsAllCredits(rows: seq<Row>, credited: seq<Submission>, current: int, saved: nat,
                                                lastSave: int)
    requires TableOk(rows, credited, current, saved, lastSave)
    ensures SumShares(rows) == TotalDifficulty(credited) - (SlotSum(credited, current) - rows[|rows| - 1].shares)
  {
    SumSlotsIsTotal(rows, credited);
    RowsAgainstSlots(rows, credited);
  }

  lemma {:induction false} RowsAgainstSlots(rows: seq<Row>, credited: seq<Submission>)
    requires rows != [] && forall i :: 0 <= i < |rows| - 1 ==> rows[i] == Exact(credited, rows[i].time)
    ensures SumShares(rows) - rows[|rows| - 1].shares
      == SumSlots(rows, credited) - SlotSum(credited, rows[|rows| - 1].time)
  {
    if |rows| == 1 {
      assert rows[1..] == [];
    } else {
      RowsAgainstSlots(rows[1..], credited);
    }
  }

  // ----- the object -----

  ghost predicate Timed(credited: seq<Submission>, clock: int) {
    forall c :: c in credited ==> c.time <= clock && c.difficulty >= 0.0
  }

  function LastOf(credited: seq<Submission>, n: nat): seq<Submission> {
    if |credited| <= n then credited else credited[|credited| - n..]
  }

  class StratumV1ClientStatistics {
    var shares: real
    var acceptedCount: nat
    var currentTimeSlot: Option<int>
    var lastSave: int
    var submissionCache: seq<Submission>
    const submissionCacheStart: int
    const targetSecondsPerShare: real
    var rows: seq<Row>                   // the table
    ghost var credited: seq<Submission>  // everything ever added
    ghost var saved: nat
    ghost var clock: int                 // when the last call ended

    ghost predicate Valid()
      reads this
    {
      && submissionCache == LastOf(credited, CACHE_SIZE + 1)
      && Timed(credited, clock)
      && (currentTimeSlot == None ==> credited == [] && rows == [] && shares == 0.0 && acceptedCount == 0)
      && (currentTimeSlot.Some? ==> InSlot(currentTimeSlot.value))
    }

    /** Table and memory agree with what was credited, the last of it in slot `current`. */
    ghost predicate InSlot(current: int)
      reads this
    {
      && TableOk(rows, credited, current, saved, lastSave)
      && credited != [] && Slot(credited[|credited| - 1].time) == current
      && Row(current, shares, acceptedCount) == Exact(credited, current)
    }

    constructor (start: int, secondsPerShare: real)
      ensures Valid() && credited == [] && rows == []
      ensures submissionCacheStart == start && targetSecondsPerShare == secondsPerShare
    {
      shares, acceptedCount, currentTimeSlot, lastSave, submissionCache := 0.0, 0, None, 0, [];
      submissionCacheStart, targetSecondsPerShare, rows := start, secondsPerShare, [];
      credited, saved, clock := [], 0, start;
    }

    method PushCache(c: Submission)
      requires submissionCache == LastOf(credited, CACHE_SIZE + 1)
      modifies this`submissionCache
      ensures submissionCache == LastOf(credited + [c], CACHE_SIZE + 1)
    {
      CacheShift(credited, c);
      if |submissionCache| > CACHE_SIZE { submissionCache := submissionCache[1..]; }
      submissionCache := submissionCache + [c];
    }

    method First(c: Submission, later: int)
      requires credited == [] && rows == [] && shares == 0.0 && acceptedCount == 0
      modifies this`shares, this`acceptedCount, this`currentTimeSlot, this`rows, this`lastSave, this`saved,
               this`credited
      ensures currentTimeSlot == Some(Slot(c.time)) && InSlot(Slot(c.time)) && credited == old(credited) + [c]
    {
      FirstOk(c, later);
      ExactAppend([], c, Slot(c.time));
      currentTimeSlot := Some(Slot(c.time));
      shares := shares + c.difficulty;
      acceptedCount := acceptedCount + 1;
      rows := rows + [Row(Slot(c.time), shares, acceptedCount)];
      lastSave := later;
      credited, saved := credited + [c], 1;
    }

    /** The old slot's row is brought up to date, then the new slot starts. */
    method NextSlot(c: Submission, later: int)
      requires currentTimeSlot.Some? && InSlot(currentTimeSlot.value) && Slot(c.time) > currentTimeSlot.value
      modifies this`shares, this`acceptedCount, this`currentTimeSlot, this`rows, this`lastSave, this`saved,
               this`credited
      ensures currentTimeSlot == Some(Slot(c.time)) && InSlot(Slot(c.time)) && credited == old(credited) + [c]
    {
      RollsOver(rows, credited, currentTimeSlot.value, c, later);
      rows := Update(rows, Row(currentTimeSlot.value, shares, acceptedCount));
      currentTimeSlot := Some(Slot(c.time));
      shares := c.difficulty;
      acceptedCount := 1;
      rows := rows + [Row(Slot(c.time), shares, acceptedCount)];
      lastSave := later;
      saved := |credited| + 1;
      credited := credited + [c];
    }

    /** Added to the memory and written. */
    method Save(c: Submission, later: int)
      requires currentTimeSlot.Some? && InSlot(currentTimeSlot.value) && Slot(c.time) == currentTimeSlot.value
      modifies this`shares, this`acceptedCount, this`rows, this`lastSave, this`saved, this`credited
      ensures InSlot(currentTimeSlot.value) && credited == old(credited) + [c]
    {
      ExactAppend(credited, c, Slot(c.time));
      SameSlotOk(rows, credited, currentTimeSlot.value, c);
      SaveOk(rows, credited + [c], currentTimeSlot.value, later);
      shares := shares + c.difficulty;
      acceptedCount := acceptedCount + 1;
      rows := Update(rows, Row(currentTimeSlot.value, shares, acceptedCount));
      lastSave := later;
      saved := |credited| + 1;
      credited := credited + [c];
    }

    /** Added to the memory only. */
    method Keep(c: Submission)
      requires currentTimeSlot.Some? && InSlot(currentTimeSlot.value) && Slot(c.time) == currentTimeSlot.value
      requires c.time - SAVE_MS <= lastSave
      modifies this`shares, this`acceptedCount, this`credited
      ensures InSlot(currentTimeSlot.value) && credited == old(credited) + [c]
    {
      ExactAppend(credited, c, Slot(c.time));
      KeepOk(rows, credited, currentTimeSlot.value, saved, lastSave, c);
      shares := shares + c.difficulty;
      acceptedCount := acceptedCount + 1;
      credited := credited + [c];
    }

    /** The four branches: first share ever, new slot, save due, save not due. */
    method Credit(c: Submission, later: int)
      requires currentTimeSlot == None ==> credited == [] && rows == [] && shares == 0.0 && acceptedCount == 0
      requires currentTimeSlot.Some? ==> InSlot(currentTimeSlot.value) && currentTimeSlot.value <= Slot(c.time)
      modifies this`shares, this`acceptedCount, this`currentTimeSlot, this`rows, this`lastSave, this`saved,
               this`credited
      ensures currentTimeSlot == Some(Slot(c.time)) && InSlot(Slot(c.time)) && credited == old(credited) + [c]
    {
      if currentTimeSlot == None {
        First(c, later);
      } else if currentTimeSlot.value != Slot(c.time) {
        NextSlot(c, later);
      } else if c.time - SAVE_MS > lastSave {
        Save(c, later);
      } else {
        Keep(c);
      }
    }

    /** `now` is read at the start of the call, `later` when the write has been awaited. */
    method AddShares(difficulty: real, now: int, later: int)
      requires Valid() && clock <= now <= later && difficulty >= 0.0
      modifies this
      ensures Valid() && credited == old(credited) + [Submission(now, difficulty)] && clock == later
    {
      var c := Submission(now, difficulty);
      TimedGrows(credited, clock, c, later);
      PushCache(c);
      if currentTimeSlot.Some? { SlotMonotone(credited[|credited| - 1].time, now); }
      Credit(c, later);
      clock := later;
    }

    /** The difficulty suggested from the cached submissions. */
    function GetSuggestedDifficulty(rnd: real -> real, client: real, now: int, depth: nat): Suggestion
      reads this
    {
      Suggest(rnd, submissionCache, submissionCacheStart, now, targetSecondsPerShare, client, depth)
    }
  }

  /** Slots are the ten-minute intervals that begin at multiples of ten minutes. */
  lemma {:induction false} SlotHoldsTime(time: int)
    ensures Slot(time) <= time < Slot(time) + 600_000 && Slot(time) % 600_000 == 0
  {}

  lemma {:induction false} SlotMonotone(a: int, b: int)
    requires a <= b
    ensures Slot(a) <= Slot(b)
  {}

  lemma {:induction false} TimedGrows(credited: seq<Submission>, clock: int, c: Submission, later: int)
    requires Timed(credited, clock) && clock <= c.time <= later && c.difficulty >= 0.0
    ensures Timed(credited + [c], later)
  {}

  lemma {:induction false} CacheShift(credited: seq<Submission>, c: Submission)
    ensures var cache := LastOf(credited, CACHE_SIZE + 1);
      LastOf(credited + [c], CACHE_SIZE + 1) == (if |cache| > CACHE_SIZE then cache[1..] else cache) + [c]
  {}
}
