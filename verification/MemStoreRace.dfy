/**
The duplicate filter over the in-memory store, whose accesses are not atomic. Payloads and expiry times are in two
concurrent maps. A read looks at the expiry time first, and then either loads the payload or deletes both entries; a
write stores one and then the other; the background sweep looks and deletes. Only a single operation on a single map
is one step here.
*/
module MemStoreRace {
  import opened Wrappers
  import opened Dedup

  /**
  An operation on one of the maps. A publish and a visit of the sweep to a key are named by the position of the Look
  they begin with.
  */
  datatype Event =
    | Look(id: string, at: int, sweep: bool)
    | Read(visit: nat, id: string, at: int)
    | DropData(visit: nat, id: string, at: int)
    | DropTtl(visit: nat, id: string, at: int)
    | PutData(visit: nat, id: string, ts: int, at: int)
    | PutTtl(visit: nat, id: string, at: int)

  /** When each id was published, and when its entry expires. */
  datatype Cells = Cells(data: map<string, int>, ttl: map<string, int>)

  function Update(window: int, c: Cells, e: Event): Cells {
    match e
    case DropData(_, id, _) => c.(data := c.data - {id})
    case DropTtl(_, id, _) => c.(ttl := c.ttl - {id})
    case PutData(_, id, ts, _) => c.(data := c.data[id := ts])
    case PutTtl(_, id, at) =>
      var x := Expiry(window, at);
      c.(ttl := if x.Some? then c.ttl[id := x.value] else c.ttl - {id})
    case _ => c
  }

  function CellsOf(window: int, run: seq<Event>): Cells {
    if run == [] then Cells(map[], map[])
    else Update(window, CellsOf(window, run[..|run| - 1]), run[|run| - 1])
  }

  predicate PastExpiry(c: Cells, id: string, at: int) {
    id in c.ttl && at > c.ttl[id]
  }

  predicate Fresh(window: int, c: Cells, id: string, at: int) {
    id in c.data && at - c.data[id] < window
  }

  predicate SeesExpired(window: int, run: seq<Event>, v: nat)
    requires v < |run|
  {
    run[v].Look? && PastExpiry(CellsOf(window, run[..v]), run[v].id, run[v].at)
  }

  predicate SeesDuplicate(window: int, run: seq<Event>, k: nat)
    requires k < |run|
  {
    run[k].Read? && Fresh(window, CellsOf(window, run[..k]), run[k].id, run[k].at)
  }

  /** The step at which a publish finds out whether to go on. */
  predicate Decides(window: int, run: seq<Event>, d: nat)
    requires d < |run|
  {
    run[d].Read? || (SeesExpired(window, run, d) && !run[d].sweep)
  }

  /** ... and the message goes to the sink. */
  predicate Goes(window: int, run: seq<Event>, d: nat)
    requires d < |run|
  {
    Decides(window, run, d) && !SeesDuplicate(window, run, d)
  }

  function VisitOf(run: seq<Event>, k: nat): nat
    requires k < |run|
  {
    if run[k].Look? then k else run[k].visit
  }

  // ----- What the code can do -----

  ghost predicate Ordered(run: seq<Event>) {
    forall i, j | 0 <= i < j < |run| :: run[i].at <= run[j].at
  }

  ghost predicate Earlier(run: seq<Event>, k: nat, v: nat, a: nat)
    requires k <= |run|
  {
    a < k && !run[a].Look? && run[a].visit == v
  }

  /** The operation is the next one of its visit. */
  ghost predicate Follows(window: int, run: seq<Event>, k: nat)
    requires k < |run| && !run[k].Look?
  {
    var v := run[k].visit;
    && v < k && run[v].Look? && run[v].id == run[k].id
    && match run[k]
       case Read(_, _, _) => !run[v].sweep && !SeesExpired(window, run, v)
       case DropData(_, _, _) => SeesExpired(window, run, v)
       case DropTtl(_, _, _) => exists a: nat :: Earlier(run, k, v, a) && run[a].DropData?
       case PutData(_, _, ts, at) =>
         && !run[v].sweep && run[v].at <= ts <= at
         && (if SeesExpired(window, run, v) then exists a: nat :: Earlier(run, k, v, a) && run[a].DropTtl?
             else exists a: nat :: Earlier(run, k, v, a) && Goes(window, run, a))
       case PutTtl(_, _, _) => exists a: nat :: Earlier(run, k, v, a) && run[a].PutData?
       case Look(_, _, _) => true
  }

  /** A publish stores one payload, and deletes nothing after that. */
  ghost predicate PutsOnce(run: seq<Event>) {
    forall i, k | 0 <= i < k < |run| && run[i].PutData? && (run[k].PutData? || run[k].DropData?) ::
      run[i].visit != run[k].visit
  }

  ghost predicate Legal(window: int, run: seq<Event>) {
    && Ordered(run) && PutsOnce(run)
    && forall k: nat {:trigger Follows(window, run, k)} | k < |run| && !run[k].Look? :: Follows(window, run, k)
  }

  // ----- The maps hold what was stored last -----

  predicate DataOp(run: seq<Event>, k: nat, id: string) {
    k < |run| && (run[k].PutData? || run[k].DropData?) && run[k].id == id
  }

  predicate TtlOp(run: seq<Event>, k: nat, id: string) {
    k < |run| && (run[k].PutTtl? || run[k].DropTtl?) && run[k].id == id
  }

  predicate Put(run: seq<Event>, k: nat, id: string) {
    DataOp(run, k, id) && run[k].PutData?
  }

  ghost predicate LastData(run: seq<Event>, j: nat, id: string, i: nat) {
    i < j <= |run| && DataOp(run, i, id) && forall k | i < k < j :: !DataOp(run, k, id)
  }

  ghost predicate LastTtl(run: seq<Event>, j: nat, id: string, i: nat) {
    i < j <= |run| && TtlOp(run, i, id) && forall k | i < k < j :: !TtlOp(run, k, id)
  }

  lemma NextCells(window: int, run: seq<Event>, j: nat)
    requires j < |run|
    ensures CellsOf(window, run[..j + 1]) == Update(window, CellsOf(window, run[..j]), run[j])
  {
    assert run[..j + 1][..j] == run[..j];
  }

  /** The payload at position j, if any, is that of the last operation on it. */
  lemma {:induction false} DataAt(window: int, run: seq<Event>, j: nat, id: string) returns (i: Option<nat>)
    requires j <= |run|
    ensures var c := CellsOf(window, run[..j]);
      if i.Some? then LastData(run, j, id, i.value) && (id in c.data <==> run[i.value].PutData?)
                      && (id in c.data ==> c.data[id] == run[i.value].ts)
      else id !in c.data && forall k: nat | k < j :: !DataOp(run, k, id)
  {
    if j == 0 {
      i := None;
    } else {
      var n := j - 1;
      i := DataAt(window, run, n, id);
      NextCells(window, run, n);
      if DataOp(run, n, id) { i := Some(n); }
    }
  }

  lemma {:induction false} TtlAt(window: int, run: seq<Event>, j: nat, id: string) returns (i: Option<nat>)
    requires j <= |run|
    ensures var c := CellsOf(window, run[..j]);
      if i.Some? then LastTtl(run, j, id, i.value)
                      && (id in c.ttl ==> run[i.value].PutTtl? && Expiry(window, run[i.value].at) == Some(c.ttl[id]))
      else id !in c.ttl
  {
    if j == 0 {
      i := None;
    } else {
      var n := j - 1;
      i := TtlAt(window, run, n, id);
      NextCells(window, run, n);
      if TtlOp(run, n, id) { i := Some(n); }
    }
  }

  /** A load finds a duplicate exactly if the last operation on the payload stored one, less than a window ago. */
  lemma FoundExactly(window: int, run: seq<Event>, k: nat)
    requires k < |run| && run[k].Read?
    ensures SeesDuplicate(window, run, k) <==>
            exists i: nat :: LastData(run, k, run[k].id, i) && run[i].PutData? && run[k].at - run[i].ts < window
  {
    var last := DataAt(window, run, k, run[k].id);
    if last.Some? {
      forall i: nat | LastData(run, k, run[k].id, i) ensures i == last.value { }
    }
  }

  // ----- Two publishes -----

  lemma ExpiredIsOld(window: int, stored: int, now: int)
    requires Honoured(window) && Expiry(window, stored).Some? && now > Expiry(window, stored).value
    ensures now - stored >= window
  {
  }

  /** Who sees an expired entry sees one that was stored at least a window ago. */
  lemma ExpiredPut(window: int, run: seq<Event>, v: nat) returns (m: nat)
    requires Honoured(window) && v < |run| && SeesExpired(window, run, v)
    ensures LastTtl(run, v, run[v].id, m) && run[m].PutTtl? && run[v].at - run[m].at >= window
  {
    var last := TtlAt(window, run, v, run[v].id);
    m := last.value;
    ExpiredIsOld(window, run[m].at, run[v].at);
  }

  /** The payload that goes with an expiry time. */
  lemma PutBefore(window: int, run: seq<Event>, m: nat) returns (a: nat)
    requires Legal(window, run) && m < |run| && run[m].PutTtl?
    ensures a < m && Put(run, a, run[m].id) && run[a].visit == run[m].visit
  {
    assert Follows(window, run, m);
    a :| Earlier(run, m, run[m].visit, a) && run[a].PutData?;
    assert Follows(window, run, a);
  }

  lemma OnlyPutExpires(window: int, run: seq<Event>, i: nat, d: nat, v: nat)
    requires Honoured(window) && Legal(window, run) && v <= d < |run| && SeesExpired(window, run, v)
    requires Put(run, i, run[v].id) && forall k: nat | k < d && k != i :: !Put(run, k, run[v].id)
    ensures i < v && run[v].at - run[i].ts >= window
  {
    var m := ExpiredPut(window, run, v);
    var a := PutBefore(window, run, m);
    assert a == i;
    assert Follows(window, run, i);
  }

  lemma DropIsOld(window: int, run: seq<Event>, i: nat, d: nat, k: nat)
    requires Honoured(window) && Legal(window, run) && k < d < |run| && run[k].DropData?
    requires Put(run, i, run[k].id) && forall j: nat | j < d && j != i :: !Put(run, j, run[k].id)
    ensures i < k && run[d].at - run[i].ts >= window
  {
    assert Follows(window, run, k);
    OnlyPutExpires(window, run, i, d, run[k].visit);
  }

  /**
  Of two publishes of an id, the second goes on exactly if it comes to a decision before the first has stored its
  payload, or a window later.
  */
  lemma SecondGoesExactly(window: int, run: seq<Event>, i: nat, d: nat)
    requires Honoured(window) && Legal(window, run) && d < |run| && Decides(window, run, d)
    requires Put(run, i, run[d].id) && forall k: nat | k < d && k != i :: !Put(run, k, run[d].id)
    ensures Goes(window, run, d) <==> d < i || run[d].at - run[i].ts >= window
  {
    if run[d].Read? {
      ReadGoesExactly(window, run, i, d);
    } else {
      OnlyPutExpires(window, run, i, d, d);
    }
  }

  lemma ReadGoesExactly(window: int, run: seq<Event>, i: nat, d: nat)
    requires Honoured(window) && Legal(window, run) && d < |run| && run[d].Read?
    requires Put(run, i, run[d].id) && forall k: nat | k < d && k != i :: !Put(run, k, run[d].id)
    ensures SeesDuplicate(window, run, d) <==> i < d && run[d].at - run[i].ts < window
  {
    var id := run[d].id;
    var last := DataAt(window, run, d, id);
    if last.Some? {
      if last.value != i {
        assert !Put(run, last.value, id);
        DropIsOld(window, run, i, d, last.value);
      }
    } else {
      assert i < d ==> !DataOp(run, i, id);
    }
  }

  // ----- Many publishes -----

  /** Visit v is not over when visit x of the same key begins; at least one of them is a publish. */
  ghost predicate Overlap(run: seq<Event>, id: string, v: nat, x: nat, w: nat) {
    && v < x < w < |run| && run[v].Look? && run[x].Look? && run[v].id == id && run[x].id == id
    && !run[w].Look? && run[w].visit == v && !(run[v].sweep && run[x].sweep)
  }

  ghost predicate Overlapping(run: seq<Event>, id: string) {
    exists v: nat, x: nat, w: nat :: Overlap(run, id, v, x, w)
  }

  /** Two visits, an operation of each at or after the beginning of the other. */
  lemma Overlaps(run: seq<Event>, id: string, v: nat, a: nat, x: nat, b: nat)
    requires v < a < |run| && x < b < |run| && v != x && x < a && v < b && run[v].Look? && run[x].Look?
    requires run[v].id == id && run[x].id == id && !(run[v].sweep && run[x].sweep)
    requires !run[a].Look? && run[a].visit == v && !run[b].Look? && run[b].visit == x
    ensures Overlapping(run, id)
  {
    if v < x { assert Overlap(run, id, v, x, a); } else { assert Overlap(run, id, x, v, b); }
  }

  /** Every write comes to its end within the run. */
  ghost predicate Complete(run: seq<Event>) {
    forall k: nat {:trigger Finishes(run, k)} | k < |run| && run[k].PutData? :: Finishes(run, k)
  }

  ghost predicate Finishes(run: seq<Event>, k: nat)
    requires k < |run| && run[k].PutData?
  {
    exists q: nat :: q < |run| && run[q].PutTtl? && run[q].visit == run[k].visit
  }

  lemma TtlAfter(window: int, run: seq<Event>, i: nat) returns (q: nat)
    requires Legal(window, run) && Complete(run) && i < |run| && run[i].PutData?
    ensures i < q < |run| && TtlOp(run, q, run[i].id) && run[q].PutTtl? && run[q].visit == run[i].visit
  {
    assert Finishes(run, i);
    q :| q < |run| && run[q].PutTtl? && run[q].visit == run[i].visit;
    var a := PutBefore(window, run, q);
    assert Follows(window, run, i) && Follows(window, run, q);
  }

  lemma InTime(run: seq<Event>, i: nat, j: nat)
    requires Ordered(run) && i < |run| && j < |run|
    ensures i < j ==> run[i].at <= run[j].at
  {
  }

  lemma LastIsLast(run: seq<Event>, j: nat, id: string, i: nat, q: nat)
    requires LastTtl(run, j, id, i) && TtlOp(run, q, id) && i < q
    ensures j <= q
  {
  }

  /**
  Somebody who begins at g sees an expired entry within a window of the payload that was stored at i: its expiry time
  has not been stored yet.
  */
  lemma ExpiredOverlaps(window: int, run: seq<Event>, i: nat, g: nat)
    requires Honoured(window) && Legal(window, run) && Complete(run) && g < |run| && SeesExpired(window, run, g)
    requires Put(run, i, run[g].id) && i < g && run[g].at - run[i].ts < window
    ensures Overlapping(run, run[g].id)
  {
    assert Follows(window, run, i);
    var m := ExpiredPut(window, run, g);
    InTime(run, i, m);
    assert m < i;
    var q := TtlAfter(window, run, i);
    LastIsLast(run, g, run[g].id, m, q);
    assert Overlap(run, run[g].id, run[i].visit, g, q);
  }

  /** The payload stored at i is deleted within a window. */
  lemma DropOverlaps(window: int, run: seq<Event>, i: nat, k: nat)
    requires Honoured(window) && Legal(window, run) && Complete(run) && i < k < |run| && run[k].DropData?
    requires Put(run, i, run[k].id) && run[k].at - run[i].ts < window
    ensures Overlapping(run, run[k].id)
  {
    assert Follows(window, run, i) && Follows(window, run, k);
    var g := run[k].visit;
    if i < g {
      assert run[g].at <= run[k].at;
      ExpiredOverlaps(window, run, i, g);
    } else {
      Overlaps(run, run[k].id, run[i].visit, i, g, k);
    }
  }

  /** A payload stored after one with a later stamp. */
  lemma LateOverlaps(window: int, run: seq<Event>, id: string, i: nat, k: nat)
    requires Legal(window, run) && Put(run, i, id) && Put(run, k, id) && i < k && run[k].ts < run[i].ts
    ensures Overlapping(run, id)
  {
    assert Follows(window, run, i) && Follows(window, run, k);
    var c, f := run[i].visit, run[k].visit;
    InTime(run, i, f);
    assert f < i;
    Overlaps(run, id, c, i, f, k);
  }

  /**
  A message goes to the sink within a window of the stored payload of another one with its id, which it did not
  precede, only if two visits to the key overlap: two publishes, or a publish and a visit of the sweep.
  */
  lemma DuplicatesOverlap(window: int, run: seq<Event>, i: nat, d: nat)
    requires Honoured(window) && Legal(window, run) && Complete(run) && d < |run| && Goes(window, run, d)
    requires Put(run, i, run[d].id) && run[i].visit < d && run[i].visit != VisitOf(run, d)
    requires run[d].at - run[i].ts < window
    ensures Overlapping(run, run[d].id)
  {
    var id := run[d].id;
    assert Follows(window, run, i);
    if d < i {
      DecidesFirst(window, run, i, d);
    } else if run[d].Look? {
      ExpiredOverlaps(window, run, i, d);
    } else {
      ReadOverlaps(window, run, i, d);
    }
  }

  /** The payload has been replaced or deleted since. */
  lemma ReadOverlaps(window: int, run: seq<Event>, i: nat, d: nat)
    requires Honoured(window) && Legal(window, run) && Complete(run) && i < d < |run| && run[d].Read?
    requires !SeesDuplicate(window, run, d) && Put(run, i, run[d].id) && run[d].at - run[i].ts < window
    ensures Overlapping(run, run[d].id)
  {
    var id := run[d].id;
    var last := DataAt(window, run, d, id);
    assert DataOp(run, i, id);
    var k := last.value;
    assert i <= k;
    InTime(run, k, d);
    if run[k].PutData? { LateOverlaps(window, run, id, i, k); } else { DropOverlaps(window, run, i, k); }
  }

  /** The other publish has not stored its payload yet. */
  lemma DecidesFirst(window: int, run: seq<Event>, i: nat, d: nat)
    requires Legal(window, run) && d < i < |run| && Goes(window, run, d)
    requires Put(run, i, run[d].id) && run[i].visit < d && run[i].visit != VisitOf(run, d)
    ensures Overlapping(run, run[d].id)
  {
    assert Follows(window, run, i);
    if run[d].Look? {
      assert Overlap(run, run[d].id, run[i].visit, d, i);
    } else {
      assert Follows(window, run, d);
      Overlaps(run, run[d].id, run[i].visit, i, run[d].visit, d);
    }
  }

  // ----- Accesses that nobody interrupts -----

  /** The two maps hold the records of the store. */
  ghost predicate Represents(c: Cells, store: Store) {
    && (forall id :: id in c.data <==> id in store) && (forall id | id in c.ttl :: id in store)
    && forall id | id in store ::
         store[id] == Record(c.data[id], if id in c.ttl then Some(c.ttl[id]) else None)
  }

  /** A read gives the store's answer, and has its effect. */
  lemma ReadIs(window: int, c: Cells, store: Store, id: string, at: int)
    requires Represents(c, store)
    ensures IsDuplicate(window, store, id, at) <==> !PastExpiry(c, id, at) && Fresh(window, c, id, at)
    ensures Represents(if PastExpiry(c, id, at) then Cells(c.data - {id}, c.ttl - {id}) else c, Purged(store, id, at))
  {
  }

  /** So does a write. */
  lemma WriteIs(window: int, c: Cells, store: Store, v: nat, id: string, ts: int, at: int)
    requires Represents(c, store)
    ensures Represents(Update(window, Update(window, c, PutData(v, id, ts, at)), PutTtl(v, id, at)),
                       store[id := Record(ts, Expiry(window, at))])
  {
  }

  // ----- The sweep deletes a payload that has just been stored -----

  const LATER := SECOND + 1

  /**
  With a window of one second: a publish; a second later the sweep looks at the key, and a second publish runs from
  beginning to end before the sweep deletes what it has seen; then a third publish.
  */
  const SweepRace: seq<Event> := [
    Look("m", 0, false), Read(0, "m", 0), PutData(0, "m", 0, 0), PutTtl(0, "m", 0),
    Look("m", LATER, true),
    Look("m", LATER, false), DropData(5, "m", LATER), DropTtl(5, "m", LATER),
    PutData(5, "m", LATER, LATER), PutTtl(5, "m", LATER),
    DropData(4, "m", LATER), DropTtl(4, "m", LATER),
    Look("m", LATER, false), Read(12, "m", LATER)]

  lemma FirstCells()
    ensures CellsOf(SECOND, SweepRace[..0]) == CellsOf(SECOND, SweepRace[..1]) == Cells(map[], map[])
    ensures forall j | 4 <= j <= 6 :: CellsOf(SECOND, SweepRace[..j]) == Cells(map["m" := 0], map["m" := SECOND])
  {
    assert SweepRace[..0] == [];
    NextCells(SECOND, SweepRace, 0);
    NextCells(SECOND, SweepRace, 1);
    NextCells(SECOND, SweepRace, 2);
    NextCells(SECOND, SweepRace, 3);
    assert Expiry(SECOND, 0) == Some(SECOND);
    NextCells(SECOND, SweepRace, 4);
    NextCells(SECOND, SweepRace, 5);
  }

  lemma MiddleCells()
    ensures CellsOf(SECOND, SweepRace[..8]) == Cells(map[], map[])
  {
    FirstCells();
    NextCells(SECOND, SweepRace, 6);
    NextCells(SECOND, SweepRace, 7);
    var c := CellsOf(SECOND, SweepRace[..8]);
    assert c.data == map[] && c.ttl == map[];
  }

  lemma LastCells()
    ensures CellsOf(SECOND, SweepRace[..12]) == CellsOf(SECOND, SweepRace[..13]) == Cells(map[], map[])
  {
    MiddleCells();
    NextCells(SECOND, SweepRace, 8);
    NextCells(SECOND, SweepRace, 9);
    NextCells(SECOND, SweepRace, 10);
    NextCells(SECOND, SweepRace, 11);
    var c := CellsOf(SECOND, SweepRace[..12]);
    assert c.data == map[] && c.ttl == map[];
    NextCells(SECOND, SweepRace, 12);
  }

  lemma FirstFollows()
    ensures forall k | k == 1 || k == 2 || k == 3 :: Follows(SECOND, SweepRace, k)
  {
    FirstCells();
    assert Earlier(SweepRace, 2, 0, 1) && Goes(SECOND, SweepRace, 1);
    assert Earlier(SweepRace, 3, 0, 2) && SweepRace[2].PutData?;
  }

  lemma SecondFollows()
    ensures forall k | 6 <= k <= 9 :: Follows(SECOND, SweepRace, k)
  {
    FirstCells();
    assert SeesExpired(SECOND, SweepRace, 5);
    assert Earlier(SweepRace, 7, 5, 6) && SweepRace[6].DropData?;
    assert Earlier(SweepRace, 8, 5, 7) && SweepRace[7].DropTtl?;
    assert Earlier(SweepRace, 9, 5, 8) && SweepRace[8].PutData?;
    assert Follows(SECOND, SweepRace, 6) && Follows(SECOND, SweepRace, 7);
    assert Follows(SECOND, SweepRace, 8) && Follows(SECOND, SweepRace, 9);
  }

  lemma LastFollows()
    ensures Follows(SECOND, SweepRace, 10) && Follows(SECOND, SweepRace, 11) && Follows(SECOND, SweepRace, 13)
  {
    FirstCells();
    LastCells();
    assert SeesExpired(SECOND, SweepRace, 4);
    assert Earlier(SweepRace, 11, 4, 10) && SweepRace[10].DropData?;
  }

  lemma SweepRaceInOrder()
    ensures Ordered(SweepRace) && PutsOnce(SweepRace)
  {
  }

  lemma SweepRaceCompletes()
    ensures Complete(SweepRace)
  {
    assert SweepRace[3].PutTtl? && SweepRace[3].visit == SweepRace[2].visit;
    assert SweepRace[9].PutTtl? && SweepRace[9].visit == SweepRace[8].visit;
    assert Finishes(SweepRace, 2) && Finishes(SweepRace, 8);
  }

  lemma SweepRaceIsLegal()
    ensures Legal(SECOND, SweepRace)
  {
    SweepRaceInOrder();
    FirstFollows();
    SecondFollows();
    LastFollows();
  }

  /** No two publishes overlap, and yet the third goes to the sink at the moment at which the second was recorded. */
  lemma SweepLetsThrough()
    ensures Legal(SECOND, SweepRace) && Complete(SweepRace)
    ensures Goes(SECOND, SweepRace, 13) && Put(SweepRace, 8, "m") && SweepRace[13].at - SweepRace[8].ts == 0
    ensures forall w | 0 <= w < |SweepRace| && !SweepRace[w].Look? && SweepRace[w].visit == 5 :: w < 12
  {
    SweepRaceIsLegal();
    SweepRaceCompletes();
    LastCells();
  }
}
