/** Which difficulty a submitted share is credited at while targets change: the list of recent
    targets, pruned when a new one is set, against the full history of targets. */
module Regimes {
  import opened Shared

  /** Times are in milliseconds. */
  datatype Regime = Regime(difficulty: real, since: int)

  const DEFAULT_DIFFICULTY: real := 16384.0

  function Within(rs: seq<Regime>, now: int, grace: int): seq<Regime> {
    if rs == [] then []
    else (if now - rs[0].since <= grace then [rs[0]] else []) + Within(rs[1..], now, grace)
  }

  /** The last target is live; an earlier one counts while its age is within the grace. */
  ghost predicate Active(rs: seq<Regime>, now: int, grace: int, r: Regime) {
    r in rs && (r == rs[|rs| - 1] || now - r.since <= grace)
  }

  ghost predicate Clears(rs: seq<Regime>, now: int, grace: int, proven: real, r: Regime) {
    Active(rs, now, grace, r) && r.difficulty <= proven
  }

  /** The credit a share that proved `proven` is due: the largest active target it clears. */
  ghost predicate IsCredit(rs: seq<Regime>, now: int, grace: int, proven: real, credit: Option<real>) {
    && (credit == None <==> forall r :: !Clears(rs, now, grace, proven, r))
    && (credit.Some? ==>
          && (exists r :: Clears(rs, now, grace, proven, r) && r.difficulty == credit.value)
          && (forall r :: Clears(rs, now, grace, proven, r) ==> r.difficulty <= credit.value))
  }

  lemma {:induction false} CreditIsUnique(rs: seq<Regime>, now: int, grace: int, proven: real, a: Option<real>,
                                          b: Option<real>)
    requires IsCredit(rs, now, grace, proven, a) && IsCredit(rs, now, grace, proven, b)
    ensures a == b
  {}

  /** A share is never credited above what it proved, and one that clears the live target is
      credited at no less than it. */
  lemma {:induction false} CreditBounds(rs: seq<Regime>, now: int, grace: int, proven: real, credit: Option<real>)
    requires IsCredit(rs, now, grace, proven, credit)
    ensures credit.Some? ==> credit.value <= proven
    ensures rs != [] && rs[|rs| - 1].difficulty <= proven ==> credit.Some? && credit.value >= rs[|rs| - 1].difficulty
  {
    if rs != [] && rs[|rs| - 1].difficulty <= proven { assert Clears(rs, now, grace, proven, rs[|rs| - 1]); }
  }

  /** `r` began at most `grace` ago and is cleared. */
  predicate InGrace(r: Regime, now: int, grace: int, proven: real) {
    r.difficulty <= proven && now - r.since <= grace
  }

  /** The grace of a superseded target is counted from when that target began, not from when it
      was superseded: a share that misses the live target is credited if and only if it clears one
      that began at most `grace` ago, and then at the largest such. */
  lemma {:induction false} GraceCountsFromTheStart(rs: seq<Regime>, now: int, grace: int, proven: real,
                                                   credit: Option<real>)
    requires rs != [] && proven < rs[|rs| - 1].difficulty && IsCredit(rs, now, grace, proven, credit)
    ensures credit.Some? <==> exists r :: r in rs && InGrace(r, now, grace, proven)
    ensures credit.Some? ==> exists r :: r in rs && InGrace(r, now, grace, proven) && r.difficulty == credit.value
    ensures credit.Some? ==> forall r :: r in rs && InGrace(r, now, grace, proven) ==> r.difficulty <= credit.value
  {
    forall r ensures Clears(rs, now, grace, proven, r) <==> r in rs && InGrace(r, now, grace, proven) {}
  }

  /** So a target older than the grace when it is superseded is lost at once: at the very moment
      of the change a share that clears it and not the new one is credited nothing. */
  lemma {:induction false} NoGraceAfterALongRegime(older: Regime, live: Regime, grace: int, proven: real,
                                                   credit: Option<real>)
    requires older.difficulty <= proven < live.difficulty && live.since - older.since > grace
    requires IsCredit([older, live], live.since, grace, proven, credit)
    ensures credit == None
  {
    GraceCountsFromTheStart([older, live], live.since, grace, proven, credit);
  }

  lemma {:induction false} WithinHas(rs: seq<Regime>, now: int, grace: int, r: Regime)
    ensures r in Within(rs, now, grace) <==> r in rs && now - r.since <= grace
  {
    if rs != [] { WithinHas(rs[1..], now, grace, r); }
  }

  /** What pruning may have left out: nothing, or targets too old at time `asOf`. */
  ghost predicate Covers(recent: seq<Regime>, history: seq<Regime>, asOf: int, grace: int) {
    && (recent == [] <==> history == [])
    && (recent != [] ==> recent[|recent| - 1] == history[|history| - 1])
    && (forall r :: r in recent ==> r in history)
    && (forall r :: r in history && asOf - r.since <= grace ==> r in recent)
  }

  /** From then on the pruned list and the full history answer alike. */
  lemma {:induction false} SameCredit(recent: seq<Regime>, history: seq<Regime>, asOf: int, now: int, grace: int,
                                      proven: real, credit: Option<real>)
    requires Covers(recent, history, asOf, grace) && asOf <= now
    ensures IsCredit(recent, now, grace, proven, credit) <==> IsCredit(history, now, grace, proven, credit)
  {
    forall r ensures Clears(recent, now, grace, proven, r) <==> Clears(history, now, grace, proven, r) {}
  }

  lemma {:induction false} PruningCovers(recent: seq<Regime>, history: seq<Regime>, asOf: int, now: int, grace: int,
                                         next: Regime)
    requires Covers(recent, history, asOf, grace) && (history != [] ==> asOf <= now)
    ensures Covers(Within(recent, now, grace) + [next], history + [next], now, grace)
  {
    forall r ensures r in Within(recent, now, grace) <==> r in recent && now - r.since <= grace {
      WithinHas(recent, now, grace, r);
    }
  }

  class StratumV1Client {
    var recentDifficulties: seq<Regime>
    var sessionDifficulty: real
    const vardiffGraceMs: int
    ghost var history: seq<Regime>   // every target ever set
    ghost var lastSet: int           // when the last one was

    ghost predicate Valid()
      reads this
    {
      && Covers(recentDifficulties, history, lastSet, vardiffGraceMs)
      && (history != [] ==> sessionDifficulty == history[|history| - 1].difficulty)
    }

    constructor (graceMs: int)
      ensures Valid() && history == [] && vardiffGraceMs == graceMs && sessionDifficulty == DEFAULT_DIFFICULTY
    {
      recentDifficulties, sessionDifficulty, vardiffGraceMs := [], DEFAULT_DIFFICULTY, graceMs;
      history, lastSet := [], 0;
    }

    /** filter and push. */
    method SetSessionDifficulty(difficulty: real, now: int)
      requires Valid() && (history != [] ==> lastSet <= now)
      modifies this
      ensures Valid()
      ensures history == old(history) + [Regime(difficulty, now)] && lastSet == now
      ensures sessionDifficulty == difficulty
      ensures recentDifficulties == Within(old(recentDifficulties), now, vardiffGraceMs) + [Regime(difficulty, now)]
    {
      var recent := recentDifficulties;
      var kept: seq<Regime> := [];
      for i := 0 to |recent|
        invariant unchanged(this) && kept + Within(recent[i..], now, vardiffGraceMs)
          == Within(recent, now, vardiffGraceMs)
      {
        var r := recent[i];
        assert recent[i..][0] == r && recent[i..][1..] == recent[i + 1..];
        ConcatAssociative(kept, if now - r.since <= vardiffGraceMs then [r] else [],
                          Within(recent[i + 1..], now, vardiffGraceMs));
        if now - r.since <= vardiffGraceMs { kept := kept + [r]; } else { assert kept + [] == kept; }
      }
      assert recent[|recent|..] == [] && kept + [] == kept;
      PruningCovers(recent, history, lastSet, now, vardiffGraceMs, Regime(difficulty, now));
      recentDifficulties := kept + [Regime(difficulty, now)];
      sessionDifficulty := difficulty;
      history := history + [Regime(difficulty, now)];
      lastSet := now;
    }

    /** The credit is the one the unpruned history would give; before any target was set the
        session difficulty decides. */
    method AcceptableTarget(proven: real, now: int) returns (credit: Option<real>)
      requires Valid() && (history != [] ==> lastSet <= now)
      ensures history != [] ==> IsCredit(history, now, vardiffGraceMs, proven, credit)
      ensures history == [] ==> credit == if proven >= sessionDifficulty then Some(sessionDifficulty) else None
    {
      var lastIndex := |recentDifficulties| - 1;
      var cleared: Option<real> := None;
      for i := 0 to |recentDifficulties|
        invariant BestSoFar(recentDifficulties, now, vardiffGraceMs, proven, cleared, i)
      {
        var regime := recentDifficulties[i];
        var isLive := i == lastIndex;
        if !isLive && now - regime.since > vardiffGraceMs {
          continue;
        }
        if proven >= regime.difficulty && (cleared == None || regime.difficulty > cleared.value) {
          cleared := Some(regime.difficulty);
        }
      }
      if lastIndex < 0 {
        return if proven >= sessionDifficulty then Some(sessionDifficulty) else None;
      }
      ListCredit(recentDifficulties, now, vardiffGraceMs, proven, cleared);
      SameCredit(recentDifficulties, history, lastSet, now, vardiffGraceMs, proven, cleared);
      return cleared;
    }
  }

  predicate ClearsAt(rs: seq<Regime>, now: int, grace: int, proven: real, i: int)
    requires 0 <= i < |rs|
  {
    (i == |rs| - 1 || now - rs[i].since <= grace) && rs[i].difficulty <= proven
  }

  /** `best` is the largest active target cleared among the first `n`. */
  ghost predicate BestSoFar(rs: seq<Regime>, now: int, grace: int, proven: real, best: Option<real>, n: nat)
    requires n <= |rs|
  {
    match best
    case None => forall j :: 0 <= j < n ==> !ClearsAt(rs, now, grace, proven, j)
    case Some(d) =>
      && (exists j :: 0 <= j < n && ClearsAt(rs, now, grace, proven, j) && rs[j].difficulty == d)
      && (forall j :: 0 <= j < n && ClearsAt(rs, now, grace, proven, j) ==> rs[j].difficulty <= d)
  }

  lemma {:induction false} ListCredit(rs: seq<Regime>, now: int, grace: int, proven: real, credit: Option<real>)
    requires rs != [] && BestSoFar(rs, now, grace, proven, credit, |rs|)
    ensures IsCredit(rs, now, grace, proven, credit)
  {
    forall r | Clears(rs, now, grace, proven, r)
      ensures exists j :: 0 <= j < |rs| && ClearsAt(rs, now, grace, proven, j) && rs[j] == r
    {
      var j :| 0 <= j < |rs| && rs[j] == r;
      assert ClearsAt(rs, now, grace, proven, if r == rs[|rs| - 1] then |rs| - 1 else j);
    }
    if credit.Some? {
      var j :| 0 <= j < |rs| && ClearsAt(rs, now, grace, proven, j) && rs[j].difficulty == credit.value;
      assert Clears(rs, now, grace, proven, rs[j]);
    }
  }
}
