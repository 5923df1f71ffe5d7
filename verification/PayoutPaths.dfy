/** What the payout protocol can still do: paths of steps out of a state. */
module PayoutPaths {
  import opened PayoutTable
  import opened FanoutPass
  import opened PayoutProtocol
  import W = PayoutWorker

  // ----- paths -----

  ghost predicate IsPath(c: Config, path: seq<State>) {
    |path| > 0 && forall i :: 0 < i < |path| ==> StepAt(c, path, i)
  }

  ghost predicate CanReach(c: Config, s: State, t: State) {
    exists path :: IsPath(c, path) && path[0] == s && path[|path| - 1] == t
  }

  lemma {:induction false} Stays(c: Config, s: State)
    ensures CanReach(c, s, s)
  {
    assert IsPath(c, [s]);
  }

  lemma {:induction false} Then(c: Config, s: State, t: State, u: State, step: Step)
    requires CanReach(c, s, t) && StepTo(c, t, u, step)
    ensures CanReach(c, s, u)
  {
    var path :| IsPath(c, path) && path[0] == s && path[|path| - 1] == t;
    var longer := path + [u];
    assert Next(c, t, u);
    forall i | 0 < i < |longer| ensures StepAt(c, longer, i) { if i < |path| { assert StepAt(c, path, i); } }
    assert IsPath(c, longer) && longer[0] == s && longer[|longer| - 1] == u;
  }

  lemma {:induction false} Reaches(c: Config, s: State, t: State, step: Step)
    requires StepTo(c, s, t, step)
    ensures CanReach(c, s, t)
  {
    Stays(c, s);
    Then(c, s, s, t, step);
  }

  lemma {:induction false} Transitive(c: Config, s: State, t: State, u: State)
    requires CanReach(c, s, t) && CanReach(c, t, u)
    ensures CanReach(c, s, u)
  {
    var a :| IsPath(c, a) && a[0] == s && a[|a| - 1] == t;
    var b :| IsPath(c, b) && b[0] == t && b[|b| - 1] == u;
    var longer := a + b[1..];
    forall i | 0 < i < |longer| ensures StepAt(c, longer, i) {
      if i < |a| {
        assert StepAt(c, a, i);
      } else {
        assert longer[i] == b[i - |a| + 1] && longer[i - 1] == b[i - |a|];
        assert StepAt(c, b, i - |a| + 1);
      }
    }
    assert IsPath(c, longer) && longer[0] == s && longer[|longer| - 1] == u;
  }

  /** A run goes on along every path out of its last state. */
  lemma {:induction false} Continue(c: Config, run: seq<State>, t: State) returns (longer: seq<State>)
    requires IsRun(c, run) && CanReach(c, run[|run| - 1], t)
    ensures IsRun(c, longer) && run <= longer && longer[|longer| - 1] == t
  {
    var path :| IsPath(c, path) && path[0] == run[|run| - 1] && path[|path| - 1] == t;
    longer := run + path[1..];
    forall i | 0 < i < |longer| ensures StepAt(c, longer, i) {
      if i < |run| {
        assert StepAt(c, run, i);
      } else {
        assert longer[i] == path[i - |run| + 1] && longer[i - 1] == path[i - |run|];
        assert StepAt(c, path, i - |run| + 1);
      }
    }
  }

  // ----- moves of one main function -----

  /** Process `p` waits for `m`, all else as in `s`. */
  function At(s: State, p: Proc, m: Main): State { s.(mains := s.mains[p := m]) }

  lemma {:induction false} AtTwice(s: State, p: Proc, m: Main, n: Main)
    ensures At(At(s, p, m), p, n) == At(s, p, n)
  {
    assert s.mains[p := m][p := n] == s.mains[p := n];
  }

  /** A step that only changes what the main function waits for. */
  lemma {:induction false} Goes(c: Config, s: State, p: Proc, m: Main, ev: Event, n: Main)
    requires MainStep(c, At(s, p, m), m, ev) == Goto(n)
    ensures CanReach(c, At(s, p, m), At(s, p, n))
  {
    var from := At(s, p, m);
    AtTwice(s, p, m, n);
    assert from.seen + {} == from.seen;
    assert AfterMain(from, p, Goto(n).value) == At(s, p, n);
    Reaches(c, from, At(s, p, n), MainAct(p, ev));
  }

  /** A step that gets its write through. */
  lemma {:induction false} Writes(c: Config, s: State, p: Proc, m: Main, w: Write, n: Main)
    requires MainStep(c, At(s, p, m), m, Go) == Issue(w, Go, n, n)
    ensures CanReach(c, At(s, p, m), At(s.(db := Apply(s.db, w)), p, n))
  {
    var from := At(s, p, m);
    AtTwice(s, p, m, n);
    assert from.seen + {} == from.seen;
    assert AfterMain(from, p, Issue(w, Go, n, n).value) == At(s.(db := Apply(s.db, w)), p, n);
    Reaches(c, from, At(s.(db := Apply(s.db, w)), p, n), MainAct(p, Go));
  }

  lemma {:induction false} InPlace(s: State, p: Proc)
    requires p in s.mains
    ensures At(s, p, s.mains[p]) == s
  {
    assert s.mains[p := s.mains[p]] == s.mains;
  }

  /** The write of a main function is lost. */
  lemma {:induction false} Loses(c: Config, s: State, p: Proc, m: Main, w: Write, n: Main)
    requires MainStep(c, At(s, p, m), m, Error) == Issue(w, Error, n, n)
    ensures CanReach(c, At(s, p, m), At(s.(limbo := s.limbo + {w}), p, n))
  {
    var from := At(s, p, m);
    AtTwice(s, p, m, n);
    assert from.seen + {} == from.seen;
    assert AfterMain(from, p, Issue(w, Error, n, n).value) == At(s.(limbo := s.limbo + {w}), p, n);
    Reaches(c, from, At(s.(limbo := s.limbo + {w}), p, n), MainAct(p, Error));
  }

  lemma {:induction false} RecordsAll(c: Config, s: State, p: Proc, b: BlockId, ws: seq<Write>, ms: seq<BlockId>)
    requires forall w :: w in ws ==> w.Upsert?
    ensures CanReach(c, At(s, p, Upserting(b, ws, ms)), At(s.(db := W.ApplyAll(s.db, ws)), p, Starting(b, ms)))
    decreases |ws|
  {
    if ws == [] {
      Goes(c, s, p, Upserting(b, ws, ms), Go, Starting(b, ms));
      assert s.(db := s.db) == s;
    } else {
      var t := s.(db := Apply(s.db, ws[0]));
      Writes(c, s, p, Upserting(b, ws, ms), ws[0], Upserting(b, ws[1..], ms));
      RecordsAll(c, t, p, b, ws[1..], ms);
      Transitive(c, At(s, p, Upserting(b, ws, ms)), At(t, p, Upserting(b, ws[1..], ms)),
                 At(s.(db := W.ApplyAll(s.db, ws)), p, Starting(b, ms)));
    }
  }

  lemma {:induction false} SlotMoves(c: Config, s: State, pid: PassId, i: nat, r: Reply)
    requires pid in s.passes && i < |s.passes[pid].slots| && SlotStep(s.db, s.passes[pid].slots[i], r).Some?
    ensures CanReach(c, s, AfterSlot(s, pid, i, SlotStep(s.db, s.passes[pid].slots[i], r).value))
  {
    Reaches(c, s, AfterSlot(s, pid, i, SlotStep(s.db, s.passes[pid].slots[i], r).value), SlotAct(pid, i, r));
  }
}
