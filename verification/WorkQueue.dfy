/**
Binary heaps as sequences of ready times: what one swap of sift-up or sift-down
repairs. A heap may be broken at a single place; `RaisedAt` and `SunkAt` say how.
*/
module HeapOrder {
  import opened ProcTypes

  function Parent(k: nat): nat
    requires k > 0
  {
    (k - 1) / 2
  }

  function Swapped<T>(s: seq<T>, i: nat, j: nat): seq<T>
    requires i < |s| && j < |s|
  {
    s[i := s[j]][j := s[i]]
  }

  ghost predicate HeapUpTo(ts: seq<Time>, n: nat) {
    n <= |ts| && forall k: nat | 0 < k < n :: ts[Parent(k)] <= ts[k]
  }

  ghost predicate IsHeap(ts: seq<Time>) { HeapUpTo(ts, |ts|) }

  /** In order but for position j, which may be smaller than its parent. */
  ghost predicate RaisedAt(ts: seq<Time>, j: nat) {
    && (forall k: nat | 0 < k < |ts| && k != j :: ts[Parent(k)] <= ts[k])
    && (forall k: nat | 0 < k < |ts| && Parent(k) == j && 0 < j < |ts| :: ts[Parent(j)] <= ts[k])
  }

  /** In order below n but for position i, which may be larger than its children. */
  ghost predicate SunkAt(ts: seq<Time>, i: nat, n: nat) {
    && n <= |ts|
    && (forall k: nat | 0 < k < n && Parent(k) != i :: ts[Parent(k)] <= ts[k])
    && (forall k: nat | 0 < k < n && Parent(k) == i && 0 < i < n :: ts[Parent(i)] <= ts[k])
  }

  lemma SwapUp(ts: seq<Time>, j: nat)
    requires RaisedAt(ts, j) && 0 < j < |ts| && ts[j] < ts[Parent(j)]
    ensures RaisedAt(Swapped(ts, Parent(j), j), Parent(j))
  {
    var i := Parent(j);
    var us := Swapped(ts, i, j);
    forall k: nat | 0 < k < |us| && k != i ensures us[Parent(k)] <= us[k] {
      if Parent(k) != i && Parent(k) != j && k != j { assert us[k] == ts[k]; }
    }
    forall k: nat | 0 < k < |us| && Parent(k) == i && 0 < i ensures us[Parent(i)] <= us[k] {
      assert ts[Parent(i)] <= ts[i];
    }
  }

  lemma RaisedDone(ts: seq<Time>, j: nat)
    requires RaisedAt(ts, j) && j < |ts| && (0 < j ==> ts[Parent(j)] <= ts[j])
    ensures IsHeap(ts)
  {
  }

  lemma SwapDown(ts: seq<Time>, i: nat, j: nat, n: nat)
    requires SunkAt(ts, i, n) && 0 < j < n && Parent(j) == i && ts[j] < ts[i]
    requires forall k: nat | 0 < k < n && Parent(k) == i :: ts[j] <= ts[k]
    ensures SunkAt(Swapped(ts, i, j), j, n)
  {
    var us := Swapped(ts, i, j);
    forall k: nat | 0 < k < n && Parent(k) != j ensures us[Parent(k)] <= us[k] {
      if Parent(k) == i { assert us[i] == ts[j]; }
      else if k == i { assert ts[Parent(i)] <= ts[j]; }
    }
    forall k: nat | 0 < k < n && Parent(k) == j ensures us[Parent(j)] <= us[k] {
      assert us[k] == ts[k];
    }
  }

  lemma SunkDone(ts: seq<Time>, i: nat, n: nat)
    requires SunkAt(ts, i, n) && NoSmallerChild(ts, i, n)
    ensures HeapUpTo(ts, n)
  {
  }

  /** The children of i below n. */
  lemma ChildrenOf(i: nat, k: nat)
    requires k > 0
    ensures Parent(k) == i <==> k == 2 * i + 1 || k == 2 * i + 2
  {
  }

  ghost predicate NoSmallerChild(ts: seq<Time>, i: nat, n: nat) {
    n <= |ts| && forall k: nat | 0 < k < n && Parent(k) == i :: ts[i] <= ts[k]
  }

  /** The root is a minimum. */
  lemma {:induction false} RootIsLeast(ts: seq<Time>, n: nat, k: nat)
    requires HeapUpTo(ts, n) && k < n
    ensures ts[0] <= ts[k]
  {
    if k > 0 {
      RootIsLeast(ts, n, Parent(k));
    }
  }

  lemma HeapPrefix(ts: seq<Time>, n: nat)
    requires HeapUpTo(ts, n)
    ensures IsHeap(ts[..n])
  {
    forall k: nat | 0 < k < n ensures ts[..n][Parent(k)] <= ts[..n][k] { assert ts[Parent(k)] <= ts[k]; }
  }

  /** Lowering one entry of a heap breaks it only there. */
  lemma LoweredIsRaised(ts: seq<Time>, i: nat, t: Time)
    requires IsHeap(ts) && i < |ts| && t < ts[i]
    ensures RaisedAt(ts[i := t], i)
    ensures NoSmallerChild(ts[i := t], i, |ts|)
  {
    var us := ts[i := t];
    forall k: nat | 0 < k < |us| && Parent(k) == i && 0 < i ensures us[Parent(i)] <= us[k] {
      assert ts[Parent(i)] <= ts[i] && ts[i] <= ts[k];
    }
  }

  /** Appending an entry breaks a heap only at the end. */
  lemma AppendedIsRaised(ts: seq<Time>, t: Time)
    requires IsHeap(ts)
    ensures RaisedAt(ts + [t], |ts|)
  {
  }

  /** Exchanging the root with the last entry leaves the rest broken only at the root. */
  lemma ExchangedIsSunk(ts: seq<Time>)
    requires IsHeap(ts) && |ts| > 0
    ensures SunkAt(Swapped(ts, 0, |ts| - 1), 0, |ts| - 1)
  {
    var n := |ts| - 1;
    var us := Swapped(ts, 0, n);
    forall k: nat | 0 < k < n && Parent(k) != 0 ensures us[Parent(k)] <= us[k] {
      assert us[k] == ts[k] && us[Parent(k)] == ts[Parent(k)];
    }
  }
}

/**
The delay queue: a heap of items kept in a slice, each item holding its own
position, with de-duplication and decrease-key.
*/
module WorkQueue {
  import opened Wrappers
  import opened ProcTypes
  import opened HeapOrder
  import Protocol = ManagerProtocol

  class WorkItem {
    const id: ProcessID
    var readyAt: Time
    var index: int

    constructor (id: ProcessID, readyAt: Time)
      ensures this.id == id && this.readyAt == readyAt && index == 0
    {
      this.id := id;
      this.readyAt := readyAt;
      index := 0;
    }
  }

  /** time.Now().Add(delay) */
  function DueAt(now: Time, delay: int): Time { now + delay }

  /** The items are the entries of the map, one for each identifier. */
  ghost predicate Entries(items: seq<WorkItem>, m: map<ProcessID, Time>)
    reads items`readyAt
  {
    && (forall x, y | x in items && y in items && x.id == y.id :: x == y)
    && (forall x | x in items :: x.id in m && m[x.id] == x.readyAt)
    && (forall id | id in m :: exists x :: x in items && x.id == id)
  }

  lemma EntriesWith(before: seq<WorkItem>, after: seq<WorkItem>, m: map<ProcessID, Time>, item: WorkItem)
    requires Entries(before, m) && item.id !in m
    requires forall x :: x in after <==> x in before || x == item
    ensures Entries(after, m[item.id := item.readyAt])
  {
    forall id | id in m ensures exists x :: x in after && x.id == id {
      var x :| x in before && x.id == id;
      assert x in after;
    }
    assert item in after;
  }

  lemma EntriesWithout(before: seq<WorkItem>, after: seq<WorkItem>, m: map<ProcessID, Time>, item: WorkItem)
    requires Entries(before, m) && item in before
    requires forall x :: x in after <==> x in before && x != item
    ensures Entries(after, m - {item.id})
  {
    forall id | id in m - {item.id} ensures exists x :: x in after && x.id == id {
      var x :| x in before && x.id == id;
      assert x in after;
    }
  }

  class WorkQueue {
    var items: seq<WorkItem>
    var notified: bool  // the one-slot notification channel is full

    /** What the queue is for: identifiers with their ready times. */
    ghost var contents: map<ProcessID, Time>

    /** Every item knows its position; so no item is in the slice twice. */
    ghost predicate Indexed()
      reads `items, items
    {
      forall i | 0 <= i < |items| :: items[i].index == i
    }

    ghost predicate TimesAre(ts: seq<Time>)
      reads `items, items
    {
      |ts| == |items| && forall i | 0 <= i < |items| :: items[i].readyAt == ts[i]
    }

    ghost function Times(): (ts: seq<Time>)
      reads `items, items
      ensures TimesAre(ts)
    {
      var its := items;
      seq(|its|, i requires 0 <= i < |its| reads its => its[i].readyAt)
    }

    ghost predicate Represents(m: map<ProcessID, Time>)
      reads `items, items`readyAt
    {
      Entries(items, m)
    }

    ghost predicate Valid()
      reads `items, `contents, items
    {
      Indexed() && IsHeap(Times()) && Represents(contents)
    }

    constructor ()
      ensures Valid() && contents == map[] && !notified && items == []
    {
      items := [];
      contents := map[];
      notified := false;
    }

    /** workItemHeap.Swap */
    method Swap(i: nat, j: nat)
      requires i < |items| && j < |items| && Indexed()
      modifies this`items, items`index
      ensures items == Swapped(old(items), i, j) && Indexed()
      ensures forall x :: x in items <==> x in old(items)
      ensures Times() == Swapped(old(Times()), i, j)
    {
      ghost var before := items;
      items := Swapped(items, i, j);
      items[i].index := i;
      items[j].index := j;
      assert items[i] == before[j] && items[j] == before[i];
      assert forall k | 0 <= k < |before| && k != i && k != j :: items[k] == before[k];
    }

    /** One round of up: the position the item at j moves to. */
    method RiseOnce(j: nat) returns (i: nat)
      requires j < |items| && Indexed() && RaisedAt(Times(), j)
      modifies this`items, items`index
      ensures Indexed() && i <= j < |items| == old(|items|)
      ensures forall x :: x in items <==> x in old(items)
      ensures if i == j then items == old(items) && IsHeap(Times()) else RaisedAt(Times(), i)
    {
      i := if j == 0 then 0 else (j - 1) / 2;
      if i == j || !(items[j].readyAt < items[i].readyAt) {
        RaisedDone(Times(), j);
        i := j;
      } else {
        SwapUp(Times(), j);
        Swap(i, j);
      }
    }

    /** container/heap's up */
    method Up(start: nat)
      requires start < |items| && Indexed() && RaisedAt(Times(), start)
      modifies this`items, items`index
      ensures Indexed() && |items| == old(|items|) && IsHeap(Times())
      ensures forall x :: x in items <==> x in old(items)
    {
      var j := start;
      while true
        invariant 0 <= j < |items| == old(|items|) && Indexed() && RaisedAt(Times(), j)
        invariant forall x :: x in items <==> x in old(items)
        invariant forall k | 0 <= k < |items| :: items[k] in old(items)
        decreases j
      {
        var i := RiseOnce(j);
        if i == j {
          break;
        }
        j := i;
      }
    }

    /** The child down compares with: the smaller one, the left one on a tie. */
    method LeastChild(i: nat, n: nat) returns (j: nat)
      requires 2 * i + 1 < n <= |items|
      ensures i < j < n && Parent(j) == i
      ensures forall k: nat | 0 < k < n && Parent(k) == i :: Times()[j] <= Times()[k]
    {
      j := 2 * i + 1;
      if j + 1 < n && items[j + 1].readyAt < items[j].readyAt {
        j := j + 1;
      }
      forall k: nat | 0 < k < n && Parent(k) == i ensures Times()[j] <= Times()[k] { ChildrenOf(i, k); }
    }

    /** One round of down: the position the item at i moves to. */
    method SinkOnce(i: nat, n: nat) returns (j: nat)
      requires n <= |items| && Indexed()
      modifies this`items, items`index
      ensures Indexed() && |items| == old(|items|)
      ensures forall x :: x in items <==> x in old(items)
      ensures old(NoSmallerChild(Times(), i, n)) ==> j == i
      ensures j == i ==> items == old(items) && NoSmallerChild(Times(), i, n)
      ensures j != i ==> i < j < n && items[n..] == old(items[n..])
      ensures old(SunkAt(Times(), i, n)) ==> SunkAt(Times(), j, n)
    {
      j := i;
      if 2 * i + 1 < n {
        var k := LeastChild(i, n);
        if items[k].readyAt < items[i].readyAt {
          j := k;
          if SunkAt(Times(), i, n) { SwapDown(Times(), i, j, n); }
          Swap(i, j);
          assert old(SunkAt(Times(), i, n)) ==> SunkAt(Times(), j, n);
        }
      }
    }

    /** container/heap's down, on the first n items */
    method Down(start: nat, n: nat) returns (moved: bool)
      requires n <= |items| && Indexed()
      modifies this`items, items`index
      ensures Indexed() && |items| == old(|items|) && items[n..] == old(items[n..])
      ensures forall x :: x in items <==> x in old(items)
      ensures old(SunkAt(Times(), start, n)) ==> HeapUpTo(Times(), n)
      ensures old(NoSmallerChild(Times(), start, n)) ==> !moved && items == old(items)
    {
      ghost var sunk := SunkAt(Times(), start, n);
      ghost var settled := NoSmallerChild(Times(), start, n);
      var i := start;
      while true
        invariant Indexed() && |items| == old(|items|) && items[n..] == old(items[n..]) && start <= i
        invariant forall x :: x in items <==> x in old(items)
        invariant forall k | 0 <= k < |items| :: items[k] in old(items)
        invariant sunk ==> SunkAt(Times(), i, n)
        invariant settled ==> i == start && items == old(items)
        decreases n - i
      {
        var j := SinkOnce(i, n);
        if j == i {
          break;
        }
        i := j;
      }
      if sunk { SunkDone(Times(), i, n); }
      moved := i > start;
    }

    /** container/heap's Fix, after the item at i has been made due earlier */
    method Fix(i: nat)
      requires i < |items| && Indexed()
      requires RaisedAt(Times(), i) && NoSmallerChild(Times(), i, |items|)
      modifies this`items, items`index
      ensures Indexed() && |items| == old(|items|) && IsHeap(Times())
      ensures forall x :: x in items <==> x in old(items)
    {
      var moved := Down(i, |items|);
      if !moved {
        Up(i);
      }
    }

    /** container/heap's Push */
    method Push(item: WorkItem)
      requires Indexed() && IsHeap(Times()) && item !in items
      modifies this`items, items`index, item`index
      ensures Indexed() && IsHeap(Times()) && |items| == old(|items|) + 1
      ensures forall x :: x in items <==> x in old(items) || x == item
    {
      AppendedIsRaised(Times(), item.readyAt);
      ghost var ts := Times() + [item.readyAt];
      item.index := |items|;
      items := items + [item];
      assert Times() == ts;
      Up(|items| - 1);
    }

    /** workItemHeap.Pop */
    method PopLast() returns (item: WorkItem)
      requires Indexed() && |items| > 0
      modifies this`items, items[|items| - 1..]`index
      ensures item == old(items[|items| - 1]) && item.index == -1
      ensures Indexed() && Times() == old(Times()[..|items| - 1])
      ensures forall x :: x in items <==> x in old(items) && x != item
    {
      var n := |items| - 1;
      item := items[n];
      assert items == items[..n] + [item];
      assert item !in items[..n];
      item.index := -1;
      items := items[..n];
    }

    /** container/heap's Pop */
    method Pop() returns (item: WorkItem)
      requires Indexed() && IsHeap(Times()) && |items| > 0
      modifies this`items, items`index
      ensures item == old(items[0]) && item.index == -1
      ensures Indexed() && IsHeap(Times())
      ensures forall x :: x in items <==> x in old(items) && x != item
    {
      var n := |items| - 1;
      ExchangedIsSunk(Times());
      Swap(0, n);
      var _ := Down(0, n);
      assert items[n..][0] == old(items[0]);
      HeapPrefix(Times(), n);
      item := PopLast();
    }

    /** Where an identifier is queued. */
    method Find(id: ProcessID) returns (k: Option<nat>)
      requires Valid()
      ensures k.Some? <==> id in contents
      ensures k.Some? ==> k.value < |items| && items[k.value].id == id && items[k.value].readyAt == contents[id]
    {
      for i := 0 to |items|
        invariant forall j | 0 <= j < i :: items[j].id != id
      {
        if items[i].id == id {
          return Some(i);
        }
      }
      return None;
    }

    /** The decrease-key branch of Enqueue. */
    method LowerAt(k: nat, t: Time)
      requires Valid() && k < |items| && t < items[k].readyAt
      modifies this`items, this`contents, items
      ensures Valid() && contents == old(contents)[old(items[k].id) := t]
      ensures forall x :: x in items <==> x in old(items)
    {
      var item := items[k];
      MoveForward(item, k, t);
      label lowered:
      Fix(item.index);
      StillRepresents@lowered(contents);
    }

    /** Lowers a time, which may leave the heap broken there. */
    method MoveForward(item: WorkItem, k: nat, t: Time)
      requires Valid() && k < |items| && items[k] == item && t < item.readyAt
      modifies this`contents, item`readyAt
      ensures Indexed() && RaisedAt(Times(), k) && NoSmallerChild(Times(), k, |items|) && Represents(contents)
      ensures contents == old(contents)[item.id := t]
    {
      LoweredIsRaised(Times(), k, t);
      ghost var ts := Times()[k := t];
      contents := contents[item.id := t];
      item.readyAt := t;
      assert Times() == ts;
    }

    /** Reordering the items does not change what they represent. */
    twostate lemma StillRepresents(m: map<ProcessID, Time>)
      requires old(Represents(m))
      requires forall x :: x in items <==> x in old(items)
      requires forall x | x in old(items) :: x.readyAt == old(x.readyAt)
      ensures Represents(m)
    {
    }

    method Insert(id: ProcessID, t: Time)
      requires Valid() && id !in contents
      modifies this`items, this`contents, items`index
      ensures Valid() && contents == old(contents)[id := t]
      ensures forall x | x in items && x !in old(items) :: fresh(x)
    {
      ghost var before := items;
      var item := new WorkItem(id, t);
      contents := contents[id := t];
      Push(item);
      EntriesWith(before, items, old(contents), item);
    }

    /** workQueue.notify */
    method Notify()
      modifies this`notified
      ensures notified
    {
      notified := true;
    }

    /** Schedules an identifier, or moves it forward. */
    method Schedule(id: ProcessID, readyAt: Time)
      requires Valid()
      modifies this`items, this`contents, items
      ensures Valid() && contents == Protocol.EnqueueAt(old(contents), id, readyAt)
      ensures forall x | x in items && x !in old(items) :: fresh(x)
    {
      var k := Find(id);
      if k.None? {
        Insert(id, readyAt);
        assert contents == Protocol.EnqueueAt(old(contents), id, readyAt);
      } else if readyAt < items[k.value].readyAt {
        LowerAt(k.value, readyAt);
        assert contents == Protocol.EnqueueAt(old(contents), id, readyAt);
      }
    }

    /** workQueue.Enqueue: of two ready times for an identifier the earlier one stays. */
    method Enqueue(id: ProcessID, delay: int, now: Time)
      requires Valid()
      modifies this`items, this`contents, this`notified, items
      ensures Valid() && notified
      ensures contents == Protocol.EnqueueAt(old(contents), id, DueAt(now, delay))
      ensures Protocol.Scheduled(old(contents), contents, id, now + delay)
      ensures forall x | x in items && x !in old(items) :: fresh(x)
    {
      Protocol.EnqueueSchedules(contents, id, DueAt(now, delay));
      Schedule(id, DueAt(now, delay));
      Notify();
    }

    /** Removes the first item. */
    method TakeFirst() returns (id: ProcessID)
      requires Valid() && |items| > 0
      modifies this`items, this`contents, items`index
      ensures Valid() && forall x | x in items :: x in old(items)
      ensures id == old(items[0].id) && id in old(contents) && contents == old(contents) - {id}
    {
      ghost var before := items;
      contents := contents - {items[0].id};
      var item := Pop();
      id := item.id;
      EntriesWithout(before, items, old(contents), item);
    }

    /** workQueue.Dequeue: an identifier with the least ready time, exactly when that time has come. */
    method Dequeue(now: Time) returns (id: Option<ProcessID>)
      requires Valid()
      modifies this`items, this`contents, items`index
      ensures Valid() && forall x | x in items :: x in old(items)
      ensures id.Some? <==> exists j :: j in old(contents) && old(contents)[j] <= now
      ensures id.None? ==> items == old(items) && contents == old(contents)
      ensures id.Some? ==> id.value in old(contents) && old(contents)[id.value] <= now
      ensures id.Some? ==> forall j | j in old(contents) :: old(contents)[id.value] <= old(contents)[j]
      ensures id.Some? ==> contents == old(contents) - {id.value}
    {
      if |items| == 0 {
        return None;
      }
      var item := items[0];
      LeastReady();
      if now < item.readyAt {
        return None;
      }
      var first := TakeFirst();
      id := Some(first);
    }

    /** The first item is due no later than any other. */
    lemma LeastReady()
      requires Valid() && |items| > 0
      ensures forall j | j in contents :: items[0].readyAt <= contents[j]
    {
      forall j | j in contents ensures items[0].readyAt <= contents[j] {
        var x :| x in items && x.id == j;
        var k :| 0 <= k < |items| && items[k] == x;
        RootIsLeast(Times(), |items|, k);
      }
    }
  }
}
