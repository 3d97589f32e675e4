/**
The rule "a grace period can only decrease", over every run of termination
requests and terminal syncs. The code spells "unset" as zero, which is where the
rule fails; NeverIncreasesExactly says when it holds.
*/
module GracePeriods {
  import opened Wrappers
  import opened ProcTypes
  import opened Backoff
  import opened ManagerProtocol
  import opened RecordLife
  import opened ManagerSafety
  import opened ManagerTheorems
  import opened ManagerProgress
  import NoLostWork

  /** Once set, the grace period stays set and never increases. */
  ghost predicate NeverIncreases(qs: seq<GraceRequest>) {
    forall i, j | 0 <= i <= j <= |qs| && GraceAfter(qs[..i]) != 0 ::
      GraceAfter(qs[..j]) != 0 && GraceAfter(qs[..j]) <= GraceAfter(qs[..i])
  }

  /** An explicit zero meets a positive grace period: it is smaller, so it is stored, and reads as unset. */
  ghost predicate ZeroUnsets(qs: seq<GraceRequest>, i: nat) {
    i < |qs| && qs[i] == Explicit(0) && GraceAfter(qs[..i]) > 0
  }

  lemma OneMore(qs: seq<GraceRequest>, i: nat)
    requires i < |qs|
    ensures GraceAfter(qs[..i + 1]) == StoreGrace(GraceAfter(qs[..i]), qs[i])
  {
    assert qs[..i + 1] == qs[..i] + [qs[i]];
    GraceAfterAppend(qs[..i], qs[i]);
  }

  lemma {:induction false} StaysBelow(qs: seq<GraceRequest>, i: nat, j: nat)
    requires i <= j <= |qs| && GraceAfter(qs[..i]) != 0
    requires forall k: nat :: !ZeroUnsets(qs, k)
    ensures GraceAfter(qs[..j]) != 0 && GraceAfter(qs[..j]) <= GraceAfter(qs[..i])
    decreases j - i
  {
    if i < j {
      StaysBelow(qs, i, j - 1);
      OneMore(qs, j - 1);
      assert !ZeroUnsets(qs, j - 1);
    }
  }

  /** The rule holds exactly as long as no explicit zero arrives while a positive grace period is stored. */
  lemma NeverIncreasesExactly(qs: seq<GraceRequest>)
    ensures NeverIncreases(qs) <==> forall i: nat :: !ZeroUnsets(qs, i)
  {
    if i: nat :| ZeroUnsets(qs, i) {
      OneMore(qs, i);
      assert GraceAfter(qs[..i]) != 0 && GraceAfter(qs[..i + 1]) == 0;
    } else {
      forall i, j | 0 <= i <= j <= |qs| && GraceAfter(qs[..i]) != 0
        ensures GraceAfter(qs[..j]) != 0 && GraceAfter(qs[..j]) <= GraceAfter(qs[..i])
      {
        StaysBelow(qs, i, j);
      }
    }
  }

  /** Ten seconds, then zero, then an hour: the hour sticks. */
  lemma ZeroLetsItGrow()
    ensures var qs := [Explicit(10), Explicit(0), Explicit(3600)];
      GraceAfter(qs[..1]) == 10 && GraceAfter(qs) == 3600 && !NeverIncreases(qs)
  {
    var qs := [Explicit(10), Explicit(0), Explicit(3600)];
    OneMore(qs, 0);
    OneMore(qs, 1);
    OneMore(qs, 2);
    assert qs[..3] == qs && qs[..0] == [];
    assert ZeroUnsets(qs, 1);
    NeverIncreasesExactly(qs);
  }

  /** The values that count: explicit ones, and the default only when it came first. */
  ghost predicate TookEffect(qs: seq<GraceRequest>, v: int) {
    Explicit(v) in qs || (qs != [] && qs[0] == Default && v == DEFAULT_GRACE)
  }

  /** Without explicit zeros, the stored grace period is the least value that took effect. */
  lemma {:induction false} GraceIsMinimum(qs: seq<GraceRequest>)
    requires qs != [] && Explicit(0) !in qs
    ensures TookEffect(qs, GraceAfter(qs))
    ensures forall v | TookEffect(qs, v) :: GraceAfter(qs) <= v
    ensures GraceAfter(qs) != 0
  {
    var n := |qs| - 1;
    assert qs == qs[..n] + [qs[n]];
    if n == 0 {
      assert qs[..0] == [];
    } else {
      GraceIsMinimum(qs[..n]);
      assert forall v :: TookEffect(qs, v) <==> TookEffect(qs[..n], v) || qs[n] == Explicit(v);
    }
  }

  /** A history without explicit zeros, and what it was earlier. */
  lemma LaterGrace(earlier: seq<GraceRequest>, qs: seq<GraceRequest>)
    requires earlier <= qs && Explicit(0) !in qs && GraceAfter(earlier) != 0
    ensures 0 != GraceAfter(qs) <= GraceAfter(earlier)
  {
    assert qs[..|earlier|] == earlier && qs[..|qs|] == qs;
    StaysBelow(qs, |earlier|, |qs|);
  }

  /**
  Over any run of the manager and any continuation: unless some request asked for an explicit
  zero, the grace period of a record only decreases once set, and is the least of the values
  that took effect.
  */
  lemma {:induction false} GraceOverRuns(c: Settings, start: Time, es: seq<Event>, more: seq<Event>, r: nat)
    requires IsDisciplinedRun(c, Init(start), es) && r in After(c, start, es).recs
    requires IsDisciplinedRun(c, After(c, start, es), more)
    ensures var s := After(c, start, es);
      IsRun(c, s, more) &&
      var t := Exec(c, s, more);
      && r in t.recs
      && var qs := At0(t.grace, r);
         Explicit(0) !in qs ==>
           && (s.recs[r].gracePeriod != 0 ==> 0 != t.recs[r].gracePeriod <= s.recs[r].gracePeriod)
           && (qs != [] ==> TookEffect(qs, t.recs[r].gracePeriod))
           && (forall v | TookEffect(qs, v) :: t.recs[r].gracePeriod <= v)
  {
    AfterIsSafe(c, start, es);
    var s := After(c, start, es);
    RunSafe(c, s, more);
    RunLater(c, s, more, r);
    var t := Exec(c, s, more);
    assert s.recs[r].gracePeriod == GraceAfter(At0(s.grace, r)) by { var pc := RecordOk(c, s, r); }
    assert t.recs[r].gracePeriod == GraceAfter(At0(t.grace, r)) by { var pc := RecordOk(c, t, r); }
    var qs := At0(t.grace, r);
    if Explicit(0) !in qs {
      if qs != [] { GraceIsMinimum(qs); }
      if s.recs[r].gracePeriod != 0 { LaterGrace(At0(s.grace, r), qs); }
    }
  }
}
