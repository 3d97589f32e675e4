/**
The producer's duplicate filter over an expiring key-value store. Times are nanoseconds;
the store's time-to-live is in whole seconds.
*/
module Dedup {
  import opened Wrappers

  const SECOND := 1_000_000_000

  /** When the id was last published, and when the store forgets it. */
  datatype Record = Record(ts: int, expires: Option<int>)

  type Store = map<string, Record>

  /** The time-to-live handed to the store: the window's whole seconds. */
  function TtlSeconds(window: int): int {
    if window >= 0 then window / SECOND else -(-window / SECOND)
  }

  /** A time-to-live that is not positive means none. */
  function Expiry(window: int, at: int): Option<int> {
    if TtlSeconds(window) > 0 then Some(at + TtlSeconds(window) * SECOND) else None
  }

  predicate Expired(r: Record, now: int) {
    r.expires.Some? && now > r.expires.value
  }

  /** Reading an expired key removes it. */
  function Purged(store: Store, id: string, now: int): Store {
    if id in store && Expired(store[id], now) then store - {id} else store
  }

  predicate IsDuplicate(window: int, store: Store, id: string, now: int) {
    id in store && !Expired(store[id], now) && now - store[id].ts < window
  }

  /** The store's background sweep: every expired key goes. */
  function Swept(store: Store, at: Option<int>): Store {
    if at.None? then store else map id | id in store && !Expired(store[id], at.value) :: store[id]
  }

  /**
  One publish with an id: the last sweep before it, if there was one; the time of the duplicate check; whether
  the store can be read; whether the sink takes the message; and, if so, the time written into the record, the
  time at which the store gets it, and whether it takes it.
  */
  datatype Attempt = Attempt(
    id: string, sweep: Option<int>, check: int, readOk: bool, delivered: bool, ts: int, stored: int, writeOk: bool)

  function Recorded(window: int, a: Attempt): Record {
    Record(a.ts, Expiry(window, a.stored))
  }

  /** The attempt finds its id in the store, and skips the message. */
  predicate Finds(window: int, store: Store, a: Attempt) {
    a.readOk && IsDuplicate(window, store, a.id, a.check)
  }

  /** The message reaches the sink; a failing read keeps it from being tried. */
  predicate Passes(window: int, store: Store, a: Attempt) {
    a.readOk && !IsDuplicate(window, store, a.id, a.check) && a.delivered
  }

  /** What the attempt itself does to the store. */
  function Attempted(window: int, store: Store, a: Attempt): Store {
    var read := if a.readOk then Purged(store, a.id, a.check) else store;
    if Passes(window, store, a) && a.writeOk then read[a.id := Recorded(window, a)] else read
  }

  function StoreAfter(window: int, run: seq<Attempt>): Store {
    if run == [] then map[]
    else
      var k := |run| - 1;
      Attempted(window, Swept(StoreAfter(window, run[..k]), run[k].sweep), run[k])
  }

  /** The store as attempt j finds it. */
  function StoreAt(window: int, run: seq<Attempt>, j: nat): Store
    requires j < |run|
  {
    Swept(StoreAfter(window, run[..j]), run[j].sweep)
  }

  lemma StoreNext(window: int, run: seq<Attempt>, i: nat)
    requires i < |run|
    ensures StoreAfter(window, run[..i + 1]) == Attempted(window, StoreAt(window, run, i), run[i])
  {
    assert run[..i + 1][..i] == run[..i];
  }

  predicate Skipped(window: int, run: seq<Attempt>, j: nat)
    requires j < |run|
  {
    Finds(window, StoreAt(window, run, j), run[j])
  }

  /** The message reaches the sink. */
  predicate Sends(window: int, run: seq<Attempt>, j: nat)
    requires j < |run|
  {
    Passes(window, StoreAt(window, run, j), run[j])
  }

  /** ... and the store takes the record of it. */
  predicate Records(window: int, run: seq<Attempt>, j: nat)
    requires j < |run|
  {
    Sends(window, run, j) && run[j].writeOk
  }

  /** Publishes happen one after another and clocks do not go back. */
  ghost predicate Timed(run: seq<Attempt>) {
    && (forall i | 0 <= i < |run| :: run[i].check <= run[i].ts <= run[i].stored)
    && (forall i | 0 <= i < |run| :: run[i].sweep.Some? ==> run[i].sweep.value <= run[i].check)
    && (forall i, j | 0 <= i < j < |run| :: run[i].stored <= run[j].check)
  }

  // ----- The store remembers the last message recorded -----

  ghost predicate IsLast(window: int, run: seq<Attempt>, id: string, i: nat) {
    && i < |run| && run[i].id == id && Records(window, run, i)
    && forall k: nat :: i < k < |run| && run[k].id == id ==> !Records(window, run, k)
  }

  ghost predicate NeverSent(window: int, run: seq<Attempt>, id: string) {
    forall k: nat :: k < |run| && run[k].id == id ==> !Records(window, run, k)
  }

  /** The last record is in the store, or has expired by the time of some later attempt. */
  ghost predicate Remembers(window: int, run: seq<Attempt>, id: string, i: nat)
    requires i < |run|
  {
    var store := StoreAfter(window, run);
    if id in store then store[id] == Recorded(window, run[i])
    else exists k :: i < k < |run| && Expired(Recorded(window, run[i]), run[k].check)
  }

  lemma PrefixRecords(window: int, run: seq<Attempt>, j: nat, i: nat)
    requires i < j <= |run|
    ensures Records(window, run[..j], i) == Records(window, run, i)
  {
    assert run[..j][..i] == run[..i];
  }

  lemma {:induction false} NeverSentIsAbsent(window: int, run: seq<Attempt>, id: string)
    requires NeverSent(window, run, id)
    ensures id !in StoreAfter(window, run)
  {
    if run != [] {
      var n := |run| - 1;
      forall k: nat | k < n && run[k].id == id ensures !Records(window, run[..n], k) {
        PrefixRecords(window, run, n, k);
      }
      NeverSentIsAbsent(window, run[..n], id);
      assert !(run[n].id == id && Records(window, run, n));
    }
  }

  /** An attempt that does not record under the id leaves its record alone, unless it has expired. */
  lemma KeepsRecord(window: int, store: Store, a: Attempt, id: string)
    requires a.sweep.Some? ==> a.sweep.value <= a.check
    requires id in store && !(a.id == id && Passes(window, Swept(store, a.sweep), a) && a.writeOk)
    ensures var next := Attempted(window, Swept(store, a.sweep), a);
            if id in next then next[id] == store[id] else Expired(store[id], a.check)
  {
  }

  lemma {:induction false} LastIsRemembered(window: int, run: seq<Attempt>, id: string, i: nat)
    requires Timed(run) && IsLast(window, run, id, i)
    ensures Remembers(window, run, id, i)
  {
    var n := |run| - 1;
    if i < n {
      var before := run[..n];
      forall k: nat | i <= k < n ensures Records(window, before, k) == Records(window, run, k) {
        PrefixRecords(window, run, n, k);
      }
      assert IsLast(window, before, id, i);
      LastIsRemembered(window, before, id, i);
      assert run[n].id == id ==> !Records(window, run, n);
      if id in StoreAfter(window, before) {
        KeepsRecord(window, StoreAfter(window, before), run[n], id);
      } else {
        var k :| i < k < n && Expired(Recorded(window, before[i]), before[k].check);
        assert Expired(Recorded(window, run[i]), run[k].check);
        assert id !in StoreAfter(window, run);
      }
    }
  }

  // ----- The window -----

  lemma {:induction false} SentOrNot(window: int, run: seq<Attempt>, id: string, n: nat)
    requires n <= |run|
    ensures (forall k: nat :: n <= k < |run| && run[k].id == id ==> !Records(window, run, k)) ||
            exists i: nat :: n <= i && IsLast(window, run, id, i)
    decreases |run| - n
  {
    if n < |run| {
      SentOrNot(window, run, id, n + 1);
      if run[n].id == id && Records(window, run, n) {
        if forall k: nat :: n + 1 <= k < |run| && run[k].id == id ==> !Records(window, run, k) {
          assert IsLast(window, run, id, n);
        }
      }
    }
  }

  /** A message with the same id was sent and recorded less than a window before the duplicate check. */
  ghost predicate Recent(window: int, run: seq<Attempt>, j: nat)
    requires j < |run|
  {
    exists i: nat :: i < j && RecentAs(window, run, i, j)
  }

  ghost predicate RecentAs(window: int, run: seq<Attempt>, i: nat, j: nat)
    requires i < j < |run|
  {
    run[i].id == run[j].id && Records(window, run, i) && run[j].check - run[i].ts < window
  }

  /** The store keeps a record for as long as the window needs it. */
  predicate Honoured(window: int) {
    window < SECOND || window % SECOND <= 1
  }

  lemma RecentIsKept(window: int, ts: int, stored: int, now: int)
    requires Honoured(window) && ts <= stored && now - ts < window
    ensures !Expired(Record(ts, Expiry(window, stored)), now)
  {
  }

  /** The last record before attempt j, if any, is what attempt j is compared with. */
  lemma CheckSeesLast(window: int, run: seq<Attempt>, j: nat, i: nat)
    requires Timed(run) && j < |run| && IsLast(window, run[..j], run[j].id, i)
    ensures Skipped(window, run, j) <==>
            run[j].readOk && !Expired(Recorded(window, run[i]), run[j].check) && run[j].check - run[i].ts < window
  {
    var before := run[..j];
    LastIsRemembered(window, before, run[j].id, i);
    if run[j].id !in StoreAfter(window, before) {
      var k :| i < k < j && Expired(Recorded(window, before[i]), before[k].check);
      assert run[k].check <= run[j].check;
    }
  }

  /** Whatever the window, a message is skipped only because its id was published within the window. */
  lemma SkippedIsRecent(window: int, run: seq<Attempt>, j: nat)
    requires Timed(run) && j < |run| && Skipped(window, run, j)
    ensures Recent(window, run, j)
  {
    var before := run[..j];
    SentOrNot(window, before, run[j].id, 0);
    if NeverSent(window, before, run[j].id) {
      NeverSentIsAbsent(window, before, run[j].id);
      assert false;
    }
    var i: nat :| IsLast(window, before, run[j].id, i);
    CheckSeesLast(window, run, j, i);
    PrefixRecords(window, run, j, i);
    assert RecentAs(window, run, i, j);
  }

  /** Of the records of one id before attempt j the last is no earlier than any. */
  lemma LastRecord(window: int, run: seq<Attempt>, j: nat, i: nat) returns (last: nat)
    requires Timed(run) && i < j < |run| && run[i].id == run[j].id && Records(window, run, i)
    ensures IsLast(window, run[..j], run[j].id, last) && run[i].ts <= run[last].ts
  {
    var before := run[..j];
    PrefixRecords(window, run, j, i);
    SentOrNot(window, before, run[j].id, 0);
    assert before[i].id == run[j].id && Records(window, before, i);
    last :| IsLast(window, before, run[j].id, last);
    assert i <= last;
  }

  /** For a window the store honours, a recent message is skipped, unless the store cannot be read. */
  lemma RecentIsSkipped(window: int, run: seq<Attempt>, j: nat)
    requires Honoured(window) && Timed(run) && j < |run| && Recent(window, run, j) && run[j].readOk
    ensures Skipped(window, run, j)
  {
    var i: nat :| i < j && RecentAs(window, run, i, j);
    var last := LastRecord(window, run, j, i);
    CheckSeesLast(window, run, j, last);
    RecentIsKept(window, run[last].ts, run[last].stored, run[j].check);
  }

  /** Two messages with one id reach the sink only with a full window between the first record and the second check. */
  lemma DuplicatesAreApart(window: int, run: seq<Attempt>, i: nat, j: nat)
    requires Honoured(window) && Timed(run) && i < j < |run| && run[i].id == run[j].id
    requires Records(window, run, i) && Sends(window, run, j)
    ensures run[j].check - run[i].ts >= window
  {
    if run[j].check - run[i].ts < window {
      assert RecentAs(window, run, i, j);
      RecentIsSkipped(window, run, j);
    }
  }

  /** The same message twice, the second just after the store has forgotten the first. */
  function Leak(window: int): seq<Attempt> {
    var t := TtlSeconds(window) * SECOND + 1;
    [Attempt("m", None, 0, true, true, 0, 0, true), Attempt("m", None, t, true, true, t, t, true)]
  }

  /** Any other window lets a duplicate through before it is over. */
  lemma FractionalWindowLeaks(window: int)
    requires !Honoured(window)
    ensures Timed(Leak(window)) && Records(window, Leak(window), 0) && Sends(window, Leak(window), 1)
    ensures Recent(window, Leak(window), 1)
  {
    var run := Leak(window);
    assert run[..0] == [];
    assert run[..1] == [run[0]] && run[..1][..0] == [];
    assert StoreAfter(window, run[..1]) == map["m" := Recorded(window, run[0])];
    assert RecentAs(window, run, 0, 1);
  }

  lemma SkippedExactly(window: int, run: seq<Attempt>, j: nat)
    requires Honoured(window) && Timed(run) && j < |run|
    ensures Skipped(window, run, j) <==> run[j].readOk && Recent(window, run, j)
  {
    if Skipped(window, run, j) {
      SkippedIsRecent(window, run, j);
    } else if Recent(window, run, j) && run[j].readOk {
      RecentIsSkipped(window, run, j);
    }
  }

  /** Skipping agrees with the window on every run, failing stores included, exactly for the honoured windows. */
  lemma WindowHonouredExactly(window: int)
    ensures Honoured(window) <==>
            forall run: seq<Attempt>, j: nat :: Timed(run) && j < |run| ==>
              (Skipped(window, run, j) <==> run[j].readOk && Recent(window, run, j))
  {
    if Honoured(window) {
      forall run: seq<Attempt>, j: nat | Timed(run) && j < |run|
        ensures Skipped(window, run, j) <==> run[j].readOk && Recent(window, run, j)
      {
        SkippedExactly(window, run, j);
      }
    } else {
      FractionalWindowLeaks(window);
    }
  }
}
