/**
The duplicate filter under concurrent publishers. Nothing is locked between the duplicate check and the
record, so the accesses of several publishes to the store interleave. Each access is one step here, as a store
with atomic accesses has it; MemStoreRace takes the accesses of the in-memory store apart.
*/
module DedupRace {
  import opened Wrappers
  import opened Dedup

  /** One access to the store. A publish is named by the position of its check in the run. */
  datatype Event =
    | Sweep(at: int)
    | Check(id: string, at: int, readOk: bool)
    | Write(check: nat, id: string, ts: int, at: int, writeOk: bool)

  function Update(window: int, store: Store, e: Event): Store {
    match e
    case Sweep(at) => Swept(store, Some(at))
    case Check(id, at, readOk) => if readOk then Purged(store, id, at) else store
    case Write(_, id, ts, at, writeOk) => if writeOk then store[id := Record(ts, Expiry(window, at))] else store
  }

  function StoreOf(window: int, run: seq<Event>): Store {
    if run == [] then map[]
    else Update(window, StoreOf(window, run[..|run| - 1]), run[|run| - 1])
  }

  /** Access j looks an id up and finds a duplicate. */
  predicate Skips(window: int, run: seq<Event>, j: nat)
    requires j < |run|
  {
    && run[j].Check? && run[j].readOk
    && IsDuplicate(window, StoreOf(window, run[..j]), run[j].id, run[j].at)
  }

  /** Access j looks an id up and finds none; the message goes to the sink. */
  predicate Goes(window: int, run: seq<Event>, j: nat)
    requires j < |run|
  {
    run[j].Check? && run[j].readOk && !Skips(window, run, j)
  }

  ghost predicate Ordered(run: seq<Event>) {
    forall i, j | 0 <= i < j < |run| :: run[i].at <= run[j].at
  }

  /** A record follows the check of its publish, and is stamped in between. */
  ghost predicate Fits(window: int, run: seq<Event>, k: nat)
    requires k < |run| && run[k].Write?
  {
    var c := run[k].check;
    c < k && Goes(window, run, c) && run[c].id == run[k].id && run[c].at <= run[k].ts <= run[k].at
  }

  /** What concurrent publishes can do: the clock does not go back, and a publish writes at most one record. */
  ghost predicate Legal(window: int, run: seq<Event>) {
    && Ordered(run)
    && (forall k: nat | k < |run| && run[k].Write? :: Fits(window, run, k))
    && (forall i, k | 0 <= i < k < |run| && run[i].Write? && run[k].Write? :: run[i].check != run[k].check)
  }

  predicate Wrote(run: seq<Event>, i: nat, id: string) {
    i < |run| && run[i].Write? && run[i].writeOk && run[i].id == id
  }

  /** Of the records of the id before position j, the one at i was written last. */
  ghost predicate LastWrite(run: seq<Event>, j: nat, id: string, i: nat) {
    i < j <= |run| && Wrote(run, i, id) && forall k | i < k < j :: !Wrote(run, k, id)
  }

  function RecordOf(window: int, e: Event): Record
    requires e.Write?
  {
    Record(e.ts, Expiry(window, e.at))
  }

  lemma {:induction false} NeverWrittenIsAbsent(window: int, run: seq<Event>, id: string)
    requires forall k: nat | k < |run| :: !Wrote(run, k, id)
    ensures id !in StoreOf(window, run)
  {
    if run != [] {
      var n := |run| - 1;
      assert forall k: nat | k < n :: Wrote(run[..n], k, id) == Wrote(run, k, id);
      NeverWrittenIsAbsent(window, run[..n], id);
      assert !Wrote(run, n, id);
    }
  }

  /** The last record is in the store, or has expired by the time of some later access. */
  lemma {:induction false} LastWriteStays(window: int, run: seq<Event>, id: string, i: nat)
    requires LastWrite(run, |run|, id, i)
    ensures var store := StoreOf(window, run);
      if id in store then store[id] == RecordOf(window, run[i])
      else exists k :: i < k < |run| && Expired(RecordOf(window, run[i]), run[k].at)
  {
    var n := |run| - 1;
    if i < n {
      var before := run[..n];
      assert forall k: nat | k < n :: Wrote(before, k, id) == Wrote(run, k, id);
      LastWriteStays(window, before, id, i);
      assert !Wrote(run, n, id);
      if id !in StoreOf(window, before) {
        var k :| i < k < n && Expired(RecordOf(window, before[i]), before[k].at);
        assert Expired(RecordOf(window, run[i]), run[k].at);
      } else if id !in StoreOf(window, run) {
        assert Expired(RecordOf(window, run[i]), run[n].at);
      }
    }
  }

  lemma {:induction false} LastOrNone(run: seq<Event>, j: nat, id: string)
    requires j <= |run|
    ensures (forall k: nat | k < j :: !Wrote(run, k, id)) || exists i: nat :: LastWrite(run, j, id, i)
  {
    if j > 0 {
      var n := j - 1;
      LastOrNone(run, n, id);
      if Wrote(run, n, id) {
        assert LastWrite(run, j, id, n);
      } else if i: nat :| LastWrite(run, n, id, i) {
        assert LastWrite(run, j, id, i);
      }
    }
  }

  lemma SeesLast(window: int, run: seq<Event>, j: nat, i: nat)
    requires Ordered(run) && j < |run| && run[j].Check? && LastWrite(run, j, run[j].id, i)
    ensures Skips(window, run, j) <==>
            run[j].readOk && !Expired(RecordOf(window, run[i]), run[j].at) && run[j].at - run[i].ts < window
  {
    var before, id := run[..j], run[j].id;
    assert forall k: nat | k < j :: Wrote(before, k, id) == Wrote(run, k, id);
    LastWriteStays(window, before, id, i);
    if id !in StoreOf(window, before) {
      var k :| i < k < j && Expired(RecordOf(window, before[i]), before[k].at);
      assert run[k].at <= run[j].at;
    }
  }

  /** For a window the store honours, a check finds a duplicate exactly if the record last written is recent. */
  lemma SkipsExactly(window: int, run: seq<Event>, j: nat)
    requires Honoured(window) && Legal(window, run) && j < |run| && run[j].Check?
    ensures Skips(window, run, j) <==>
            run[j].readOk && exists i: nat :: LastWrite(run, j, run[j].id, i) && run[j].at - run[i].ts < window
  {
    var id := run[j].id;
    LastOrNone(run, j, id);
    if i: nat :| LastWrite(run, j, id, i) {
      assert Fits(window, run, i);
      SeesLast(window, run, j, i);
      if run[j].at - run[i].ts < window { RecentIsKept(window, run[i].ts, run[i].at, run[j].at); }
      forall m: nat | LastWrite(run, j, id, m) ensures m == i { }
    } else {
      assert forall k: nat | k < j :: Wrote(run[..j], k, id) == Wrote(run, k, id);
      NeverWrittenIsAbsent(window, run[..j], id);
    }
  }

  /** Of two publishes of an id, the second goes on if it is checked before the first is recorded, or a window later. */
  lemma SecondGoesExactly(window: int, run: seq<Event>, i: nat, j: nat)
    requires Honoured(window) && Legal(window, run) && j < |run| && run[j].Check? && run[j].readOk
    requires Wrote(run, i, run[j].id) && forall k: nat | k < j && k != i :: !Wrote(run, k, run[j].id)
    ensures Goes(window, run, j) <==> j < i || run[j].at - run[i].ts >= window
  {
    SkipsExactly(window, run, j);
    if i < j { assert LastWrite(run, j, run[j].id, i); }
  }

  /** The publish checked at c has not written its record, at w, when another publish of the id is checked, at d. */
  ghost predicate Overlap(window: int, run: seq<Event>, id: string, c: nat, d: nat, w: nat) {
    && c < d < w < |run| && Goes(window, run, c) && Goes(window, run, d) && run[c].id == id && run[d].id == id
    && run[w].Write? && run[w].check == c
  }

  ghost predicate Overlapping(window: int, run: seq<Event>, id: string) {
    exists c: nat, d: nat, w: nat :: Overlap(window, run, id, c, d, w)
  }

  /**
  A message goes to the sink within a window of a record of an earlier one with its id only if two publishes of the
  id overlap.
  */
  lemma DuplicatesOverlap(window: int, run: seq<Event>, i: nat, j: nat)
    requires Honoured(window) && Legal(window, run) && j < |run| && Goes(window, run, j)
    requires Wrote(run, i, run[j].id) && run[i].check < j && run[j].at - run[i].ts < window
    ensures Overlapping(window, run, run[j].id)
  {
    var id := run[j].id;
    assert Fits(window, run, i);
    if j < i {
      assert Overlap(window, run, id, run[i].check, j, i);
    } else {
      LastOrNone(run, j, id);
      var m: nat :| LastWrite(run, j, id, m);
      SkipsExactly(window, run, j);
      LateWriteOverlaps(window, run, id, i, m);
    }
  }

  /** A record written after one with a later stamp belongs to a publish that overlaps with the other. */
  lemma LateWriteOverlaps(window: int, run: seq<Event>, id: string, i: nat, m: nat)
    requires Legal(window, run) && Wrote(run, i, id) && Wrote(run, m, id) && i < m && run[m].ts < run[i].ts
    ensures Overlapping(window, run, id)
  {
    assert Fits(window, run, i) && Fits(window, run, m);
    var c, d := run[i].check, run[m].check;
    assert d < i;
    if d < c { assert Overlap(window, run, id, d, c, m); } else { assert Overlap(window, run, id, c, d, i); }
  }

  /** Two publishes of one message, both checked before either is recorded. */
  function Twins(): seq<Event> {
    [Check("m", 0, true), Check("m", 0, true), Write(0, "m", 0, 0, true), Write(1, "m", 0, 0, true)]
  }

  /** Both reach the sink, however long the window is. */
  lemma TwinsBothGo(window: int)
    ensures Legal(window, Twins()) && Goes(window, Twins(), 0) && Goes(window, Twins(), 1)
  {
    var run := Twins();
    assert run[..0] == [];
    assert run[..1] == [run[0]] && run[..1][..0] == [];
    assert StoreOf(window, run[..1]) == map[];
    assert Fits(window, run, 2) && Fits(window, run, 3);
  }

  // ----- Publishes one after another -----

  function SweepOf(a: Attempt): seq<Event> {
    if a.sweep.Some? then [Sweep(a.sweep.value)] else []
  }

  function WriteOf(window: int, store: Store, a: Attempt, check: nat): seq<Event> {
    if Passes(window, store, a) then [Write(check, a.id, a.ts, a.stored, a.writeOk)] else []
  }

  /** The accesses of attempts that do not overlap. */
  function AccessesOf(window: int, run: seq<Attempt>): seq<Event> {
    if run == [] then []
    else
      var k := |run| - 1;
      var before := AccessesOf(window, run[..k]) + SweepOf(run[k]);
      before + [Check(run[k].id, run[k].check, run[k].readOk)] +
      WriteOf(window, StoreAt(window, run, k), run[k], |before|)
  }

  lemma UpdateLast(window: int, run: seq<Event>, e: Event)
    ensures StoreOf(window, run + [e]) == Update(window, StoreOf(window, run), e)
  {
    assert (run + [e])[..|run|] == run;
  }

  lemma SweepOfIs(window: int, run: seq<Event>, a: Attempt)
    ensures StoreOf(window, run + SweepOf(a)) == Swept(StoreOf(window, run), a.sweep)
  {
    if a.sweep.Some? { UpdateLast(window, run, Sweep(a.sweep.value)); } else { assert run + [] == run; }
  }

  lemma AttemptIs(window: int, run: seq<Event>, a: Attempt)
    ensures var store := StoreOf(window, run);
      StoreOf(window, run + [Check(a.id, a.check, a.readOk)] + WriteOf(window, store, a, |run|)) ==
      Attempted(window, store, a)
  {
    var store := StoreOf(window, run);
    var checked := run + [Check(a.id, a.check, a.readOk)];
    UpdateLast(window, run, Check(a.id, a.check, a.readOk));
    if Passes(window, store, a) {
      UpdateLast(window, checked, Write(|run|, a.id, a.ts, a.stored, a.writeOk));
    } else {
      assert checked + [] == checked;
    }
  }

  /** One after another, publishes leave the store as the sequential filter does. */
  lemma {:induction false} SequentialIs(window: int, run: seq<Attempt>)
    ensures StoreOf(window, AccessesOf(window, run)) == StoreAfter(window, run)
  {
    if run != [] {
      var k := |run| - 1;
      SequentialIs(window, run[..k]);
      SweepOfIs(window, AccessesOf(window, run[..k]), run[k]);
      AttemptIs(window, AccessesOf(window, run[..k]) + SweepOf(run[k]), run[k]);
    }
  }
}
