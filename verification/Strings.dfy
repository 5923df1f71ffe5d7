/** The order in which JavaScript compares strings, code unit by code unit. */
module Strings {

  predicate Less(a: string, b: string) {
    if b == "" then false
    else if a == "" then true
    else a[0] < b[0] || (a[0] == b[0] && Less(a[1..], b[1..]))
  }

  lemma LessIrreflexive(a: string)
    ensures !Less(a, a)
  {}

  lemma LessTransitive(a: string, b: string, c: string)
    requires Less(a, b) && Less(b, c)
    ensures Less(a, c)
  {}

  lemma {:induction false} LessTotal(a: string, b: string)
    ensures a == b || Less(a, b) || Less(b, a)
  {
    if a != "" && b != "" {
      LessTotal(a[1..], b[1..]);
      assert a == [a[0]] + a[1..] && b == [b[0]] + b[1..];
    }
  }

  lemma {:induction false} LessAsymmetric(a: string, b: string)
    requires Less(a, b)
    ensures !Less(b, a) && a != b
  {
    LessIrreflexive(a);
    if Less(b, a) { LessTransitive(a, b, a); }
  }

  /** The two agree up to `i`, where the first ends or goes on with a smaller character. */
  predicate PartsAt(a: string, b: string, i: nat) {
    i <= |a| && i < |b| && a[..i] == b[..i] && (i == |a| || a[i] < b[i])
  }

  lemma {:induction false} PartsBehindFirst(a: string, b: string, i: nat)
    requires a != "" && b != ""
    ensures PartsAt(a, b, i + 1) <==> a[0] == b[0] && PartsAt(a[1..], b[1..], i)
  {
    if i + 1 <= |a| && i + 1 <= |b| {
      assert a[..i + 1] == [a[0]] + a[1..][..i] && b[..i + 1] == [b[0]] + b[1..][..i];
    }
  }

  /** One string is in front of another exactly if, behind some common beginning, it ends first or goes on
      with a smaller character. */
  lemma {:induction false} LessExactly(a: string, b: string)
    ensures Less(a, b) <==> exists i: nat :: PartsAt(a, b, i)
  {
    if a != "" && b != "" {
      LessExactly(a[1..], b[1..]);
      forall i: nat | PartsAt(a, b, i) ensures Less(a, b) { if i > 0 { PartsBehindFirst(a, b, i - 1); } }
      if Less(a, b) && a[0] == b[0] {
        var i: nat :| PartsAt(a[1..], b[1..], i);
        PartsBehindFirst(a, b, i);
      } else if Less(a, b) {
        assert PartsAt(a, b, 0);
      }
    } else if b != "" {
      assert PartsAt(a, b, 0);
    }
  }
}
