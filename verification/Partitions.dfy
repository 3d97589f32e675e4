/** Strings in the order that sort.Strings uses, and what makes the sorted slice unique. */
module SortedStrings {
  predicate LessEq(a: string, b: string) {
    a == "" || (b != "" && (a[0] < b[0] || (a[0] == b[0] && LessEq(a[1..], b[1..]))))
  }

  lemma {:induction false} Total(a: string, b: string)
    ensures LessEq(a, b) || LessEq(b, a)
  {
    if a != "" && b != "" && a[0] == b[0] {
      Total(a[1..], b[1..]);
    }
  }

  lemma {:induction false} Antisymmetric(a: string, b: string)
    requires LessEq(a, b) && LessEq(b, a)
    ensures a == b
  {
    if a != "" {
      Antisymmetric(a[1..], b[1..]);
      assert a == [a[0]] + a[1..] && b == [b[0]] + b[1..];
    }
  }

  lemma {:induction false} Transitive(a: string, b: string, c: string)
    requires LessEq(a, b) && LessEq(b, c)
    ensures LessEq(a, c)
  {
    if a != "" && a[0] == b[0] == c[0] {
      Transitive(a[1..], b[1..], c[1..]);
    }
  }

  predicate Sorted(s: seq<string>) {
    forall i, j :: 0 <= i < j < |s| ==> LessEq(s[i], s[j])
  }

  function Insert(x: string, s: seq<string>): (r: seq<string>)
    requires Sorted(s)
    ensures Sorted(r) && multiset(r) == multiset(s) + multiset{x}
  {
    if s == [] then [x]
    else
      Total(x, s[0]);
      assert s == [s[0]] + s[1..];
      if LessEq(x, s[0]) then AtFront(x, s); [x] + s
      else
        var rest := Insert(x, s[1..]);
        AllAbove(s[0], rest, s[1..], x);
        [s[0]] + rest
  }

  lemma AtFront(x: string, s: seq<string>)
    requires Sorted(s) && s != [] && LessEq(x, s[0])
    ensures Sorted([x] + s)
  {
    forall j | 0 < j < |s| ensures LessEq(x, s[j]) {
      Transitive(x, s[0], s[j]);
    }
  }

  lemma AllAbove(h: string, rest: seq<string>, tail: seq<string>, x: string)
    requires Sorted(rest) && multiset(rest) == multiset(tail) + multiset{x}
    requires LessEq(h, x) && forall j :: 0 <= j < |tail| ==> LessEq(h, tail[j])
    ensures Sorted([h] + rest)
  {
    forall j | 0 <= j < |rest| ensures LessEq(h, rest[j]) {
      assert rest[j] in multiset(rest);
      assert rest[j] == x || rest[j] in tail;
    }
  }

  /** sort.Strings. */
  function Sort(s: seq<string>): (r: seq<string>)
    ensures Sorted(r) && multiset(r) == multiset(s) && |r| == |s|
  {
    if s == [] then []
    else
      assert s == [s[0]] + s[1..];
      var r := Insert(s[0], Sort(s[1..]));
      assert |multiset(r)| == |multiset(s)|;
      r
  }

  lemma SameHead(a: seq<string>, b: seq<string>)
    requires Sorted(a) && Sorted(b) && multiset(a) == multiset(b) && a != [] && b != []
    ensures a[0] == b[0]
  {
    assert a[0] in multiset(b);
    assert b[0] in multiset(a);
    HeadIsLeast(a, b[0]);
    HeadIsLeast(b, a[0]);
    Antisymmetric(a[0], b[0]);
  }

  lemma TailMultiset(s: seq<string>)
    requires s != []
    ensures multiset(s[1..]) == multiset(s) - multiset{s[0]}
  {
    assert s == [s[0]] + s[1..];
  }

  /** Any correct sort returns this very slice. */
  lemma {:induction false} SortedIsUnique(a: seq<string>, b: seq<string>)
    requires Sorted(a) && Sorted(b) && multiset(a) == multiset(b)
    ensures a == b
  {
    assert |a| == |multiset(a)| == |multiset(b)| == |b|;
    if a != [] {
      SameHead(a, b);
      TailMultiset(a);
      TailMultiset(b);
      SortedIsUnique(a[1..], b[1..]);
      assert a == [a[0]] + a[1..];
      assert b == [b[0]] + b[1..];
    }
  }

  lemma HeadIsLeast(s: seq<string>, x: string)
    requires Sorted(s) && x in s
    ensures LessEq(s[0], x)
  {
    Total(x, x);
  }

  predicate Distinct(s: seq<string>) {
    forall i, j :: 0 <= i < j < |s| ==> s[i] != s[j]
  }

  /** Distinctness is a property of the multiset, so sorting keeps it. */
  lemma {:induction false} DistinctIsOnce(s: seq<string>)
    ensures Distinct(s) <==> forall x :: x in s ==> multiset(s)[x] == 1
  {
    if s != [] {
      var t := s[..|s| - 1];
      var x := s[|s| - 1];
      assert s == t + [x];
      DistinctIsOnce(t);
      assert multiset(s) == multiset(t) + multiset{x};
      if x in t {
        assert multiset(s)[x] >= 2;
        assert x in s;
      } else if !Distinct(t) {
        var y :| y in t && multiset(t)[y] != 1;
        assert y in s && multiset(s)[y] != 1;
      } else {
        forall y | y in s ensures multiset(s)[y] == 1 {
          assert y == x || y in t;
        }
      }
    }
  }

  lemma SortKeepsDistinct(s: seq<string>)
    ensures Distinct(s) <==> Distinct(Sort(s))
  {
    DistinctIsOnce(s);
    DistinctIsOnce(Sort(s));
    SortKeepsMembers(s);
  }

  lemma SortKeepsMembers(s: seq<string>)
    ensures forall x :: x in s <==> x in Sort(s)
  {
    forall x ensures x in s <==> x in Sort(s) {
      assert x in s <==> x in multiset(s);
      assert x in Sort(s) <==> x in multiset(Sort(s));
    }
  }

  /** Distinct ids in any order sort to the same slice. */
  lemma SortOfSameSet(a: seq<string>, b: seq<string>)
    requires Distinct(a) && Distinct(b) && forall x :: x in a <==> x in b
    ensures Sort(a) == Sort(b)
  {
    DistinctIsOnce(a);
    DistinctIsOnce(b);
    forall x ensures multiset(a)[x] == multiset(b)[x] {
      assert x in a <==> x in multiset(a);
      assert x in b <==> x in multiset(b);
    }
    assert multiset(a) == multiset(b);
    SortedIsUnique(Sort(a), Sort(b));
  }
}

/** The partition assigner: 256 partitions shared out over the sorted proxy ids, on demand. */
module Partitions {
  import opened Wrappers
  import opened SortedStrings
  import opened AdminState

  const PARTITIONS := 256

  datatype Range = Range(start: int, end: int)

  predicate InRange(p: int, r: Range) {
    r.start <= p <= r.end
  }

  predicate IsPartition(p: int) {
    0 <= p < PARTITIONS
  }

  /** HashNamespace, over an abstract CRC32. */
  function HashNamespace(crc: string -> nat, namespace: string): (p: int)
    ensures IsPartition(p)
  {
    crc(namespace) % 256
  }

  /** Two names share a partition exactly if their checksums differ by a multiple of 256. */
  lemma SamePartitionExactly(crc: string -> nat, a: string, b: string)
    ensures HashNamespace(crc, a) == HashNamespace(crc, b) <==> exists k: int :: crc(a) - crc(b) == 256 * k
    ensures crc(a) < 256 ==> HashNamespace(crc, a) == crc(a)
  {
    var x: int, y: int := crc(a), crc(b);
    assert x == 256 * (x / 256) + x % 256 && y == 256 * (y / 256) + y % 256;
    if x % 256 == y % 256 {
      assert x - y == 256 * (x / 256 - y / 256);
    }
  }

  /** 256 / n in integers: zero once there are more proxies than partitions. */
  function RangeSize(n: nat): (size: nat)
    requires n >= 1
    ensures size == 0 <==> n > PARTITIONS
  {
    256 / n
  }

  /** The range of the i-th of n sorted proxies; the last one takes the remainder. */
  function RangeOf(i: nat, n: nat): Range
    requires i < n
  {
    var size := RangeSize(n);
    Range(i * size, if i == n - 1 then 255 else i * size + size - 1)
  }

  /** The position in the sorted ids that the lookup computes. */
  function OwnerIndex(p: int, n: nat): (i: nat)
    requires IsPartition(p) && 1 <= n && RangeSize(n) != 0
    ensures i < n
  {
    var i := p / RangeSize(n);
    if i >= n then n - 1 else i
  }

  // ----- The arithmetic inverse -----

  lemma Quotient(p: int, size: int, i: int)
    requires 0 <= p && 1 <= size
    ensures p / size == i <==> i * size <= p < i * size + size
  {
    var q := p / size;
    Divides(p, size);
    if q < i {
      OneMore(q, size);
      Grows(q + 1, i, size);
    } else if q > i {
      OneMore(i, size);
      Grows(i + 1, q, size);
    }
  }

  lemma Divides(p: int, size: int)
    requires 0 <= p && 1 <= size
    ensures (p / size) * size <= p < (p / size) * size + size
  {
  }

  lemma OneMore(i: int, size: int)
    ensures (i + 1) * size == i * size + size
  {
  }

  lemma Grows(i: int, j: int, size: int)
    requires i <= j && 0 <= size
    ensures i * size <= j * size
  {
  }

  lemma LastRange(p: int, n: nat, size: int)
    requires 0 <= p && 1 <= n && 1 <= size
    ensures (n - 1) * size <= p <==> p / size >= n - 1
  {
    Quotient(p, size, p / size);
    if p / size < n - 1 {
      Grows(p / size + 1, n - 1, size);
      assert (p / size + 1) * size == (p / size) * size + size;
    } else {
      Grows(n - 1, p / size, size);
    }
  }

  /** With at most 256 proxies, a partition lies in a proxy's range iff the lookup computes that proxy. */
  lemma RangeInvertsLookup(p: int, i: nat, n: nat)
    requires IsPartition(p) && i < n <= PARTITIONS
    ensures InRange(p, RangeOf(i, n)) <==> i == OwnerIndex(p, n)
  {
    var size := RangeSize(n);
    if i < n - 1 {
      Quotient(p, size, i);
    } else {
      LastRange(p, n, size);
    }
  }

  /** The one position that holds a partition; beyond 256 proxies all ranges but the last are empty. */
  function Holder(p: int, n: nat): (i: nat)
    requires IsPartition(p) && n >= 1
    ensures i < n
  {
    if n <= PARTITIONS then OwnerIndex(p, n) else n - 1
  }

  /** However many proxies there are, every partition lies in the range of exactly one position. */
  lemma OnePosition(p: int, i: nat, n: nat)
    requires IsPartition(p) && i < n
    ensures InRange(p, RangeOf(i, n)) <==> i == Holder(p, n)
  {
    if n <= PARTITIONS {
      RangeInvertsLookup(p, i, n);
    }
  }

  lemma RangeWithin(i: nat, n: nat)
    requires i < n
    ensures 0 <= RangeOf(i, n).start && RangeOf(i, n).end < PARTITIONS
    ensures n <= PARTITIONS ==> RangeOf(i, n).start <= RangeOf(i, n).end
  {
    var size := RangeSize(n);
    assert n * size <= 256;
    Grows(i + 1, n, size);
    Grows(0, i, size);
  }

  // ----- What the three computations return, as functions of the id slice -----

  function Ids(proxies: seq<ProxyEntry>): (ids: seq<string>)
    ensures |ids| == |proxies| && forall i :: 0 <= i < |proxies| ==> ids[i] == proxies[i].proxyId
  {
    seq(|proxies|, i requires 0 <= i < |proxies| => proxies[i].proxyId)
  }

  /** The first position of x, or the length. */
  function IndexOf(s: seq<string>, x: string): (i: nat)
    ensures i <= |s| && (i < |s| <==> x in s) && (i < |s| ==> s[i] == x)
    ensures forall j :: 0 <= j < i ==> s[j] != x
  {
    if s == [] then 0
    else if s[0] == x then 0
    else
      var i := IndexOf(s[1..], x);
      assert forall j :: 0 < j < i + 1 ==> s[j] == s[1..][j - 1];
      i + 1
  }

  function RangesFor(target: string, ids: seq<string>): seq<Range> {
    var i := IndexOf(Sort(ids), target);
    if i < |ids| then [RangeOf(i, |ids|)] else []
  }

  datatype LookupResult = Owner(id: string) | NoProxies | InvalidPartition | DivisionByZero

  function ProxyFor(p: int, ids: seq<string>): LookupResult {
    if ids == [] then NoProxies
    else if !IsPartition(p) then InvalidPartition
    else if RangeSize(|ids|) == 0 then DivisionByZero
    else Owner(Sort(ids)[OwnerIndex(p, |ids|)])
  }

  type RangeMap = map<string, seq<Range>>

  /** The map after the first k sorted ids: a repeated id keeps its last range. */
  function RangesUpTo(sorted: seq<string>, k: nat): RangeMap
    requires k <= |sorted|
  {
    if k == 0 then map[] else RangesUpTo(sorted, k - 1)[sorted[k - 1] := [RangeOf(k - 1, |sorted|)]]
  }

  function AllRanges(ids: seq<string>): RangeMap {
    RangesUpTo(Sort(ids), |ids|)
  }

  /** Position i holds the last of the first k occurrences of its id. */
  ghost predicate LastOf(sorted: seq<string>, i: nat, k: nat) {
    i < k <= |sorted| && forall j :: i < j < k ==> sorted[j] != sorted[i]
  }

  lemma {:induction false} KeysUpTo(sorted: seq<string>, k: nat, id: string)
    requires k <= |sorted|
    ensures id in RangesUpTo(sorted, k) <==> id in sorted[..k]
  {
    if k > 0 {
      KeysUpTo(sorted, k - 1, id);
      assert sorted[..k] == sorted[..k - 1] + [sorted[k - 1]];
    }
  }

  /** Each id has the range of its last position. */
  lemma {:induction false} RangeUpTo(sorted: seq<string>, k: nat, i: nat)
    requires LastOf(sorted, i, k)
    ensures sorted[i] in RangesUpTo(sorted, k)
    ensures RangesUpTo(sorted, k)[sorted[i]] == [RangeOf(i, |sorted|)]
  {
    if i < k - 1 {
      assert sorted[k - 1] != sorted[i];
      RangeUpTo(sorted, k - 1, i);
    }
  }

  lemma {:induction false} HasLast(sorted: seq<string>, k: nat, id: string) returns (i: nat)
    requires k <= |sorted| && id in sorted[..k]
    ensures LastOf(sorted, i, k) && sorted[i] == id
  {
    if sorted[k - 1] == id {
      i := k - 1;
    } else {
      assert sorted[..k] == sorted[..k - 1] + [sorted[k - 1]];
      i := HasLast(sorted, k - 1, id);
    }
  }

  // ----- Distinct ids -----

  lemma DistinctIndex(s: seq<string>, i: nat)
    requires Distinct(s) && i < |s|
    ensures IndexOf(s, s[i]) == i
  {
    var j := IndexOf(s, s[i]);
    assert s[j] == s[i];
  }

  /** With distinct ids, the sorted position of an id fixes both its own range and its entry in the map. */
  lemma DistinctRanges(ids: seq<string>, i: nat)
    requires Distinct(ids) && i < |ids|
    ensures Sort(ids)[i] in AllRanges(ids) && AllRanges(ids)[Sort(ids)[i]] == [RangeOf(i, |ids|)]
    ensures RangesFor(Sort(ids)[i], ids) == [RangeOf(i, |ids|)]
  {
    SortKeepsDistinct(ids);
    var s := Sort(ids);
    RangeUpTo(s, |s|, i);
    DistinctIndex(s, i);
  }

  lemma AllRangesKeys(ids: seq<string>, id: string)
    ensures id in AllRanges(ids) <==> id in ids
  {
    var s := Sort(ids);
    KeysUpTo(s, |s|, id);
    assert s[..|s|] == s;
    SortKeepsMembers(ids);
  }

  /**
  For 1 to 256 distinct ids in any order: every proxy has one range, a partition lies in it iff the lookup
  names that proxy, and what the two range computations say is the same.
  */
  lemma RangesMatchLookup(ids: seq<string>, id: string, p: int)
    requires Distinct(ids) && 1 <= |ids| <= PARTITIONS && id in ids && IsPartition(p)
    ensures |RangesFor(id, ids)| == 1
    ensures InRange(p, RangesFor(id, ids)[0]) <==> ProxyFor(p, ids) == Owner(id)
    ensures id in AllRanges(ids) && AllRanges(ids)[id] == RangesFor(id, ids)
  {
    SortKeepsMembers(ids);
    SortKeepsDistinct(ids);
    var s := Sort(ids);
    var i := IndexOf(s, id);
    DistinctRanges(ids, i);
    RangeInvertsLookup(p, i, |ids|);
  }

  /** The lookup names a registered proxy, except that over 256 proxies make it divide by zero. */
  lemma LookupOutcomes(p: int, ids: seq<string>)
    ensures ProxyFor(p, ids).Owner? <==> IsPartition(p) && 1 <= |ids| <= PARTITIONS
    ensures ProxyFor(p, ids).DivisionByZero? <==> IsPartition(p) && |ids| > PARTITIONS
    ensures ProxyFor(p, ids).Owner? ==> ProxyFor(p, ids).id in ids
  {
    SortKeepsMembers(ids);
  }

  /** The proxy whose range holds a partition, however many proxies there are. */
  function HolderOf(p: int, ids: seq<string>): Option<string>
    requires IsPartition(p)
  {
    if ids == [] then None else Some(Sort(ids)[Holder(p, |ids|)])
  }

  /** For any number of distinct ids: a partition is in a proxy's range iff that proxy is its holder. */
  lemma RangesMatchHolder(ids: seq<string>, id: string, p: int)
    requires Distinct(ids) && IsPartition(p)
    ensures (RangesFor(id, ids) != [] && InRange(p, RangesFor(id, ids)[0])) <==> HolderOf(p, ids) == Some(id)
    ensures |RangesFor(id, ids)| <= 1
  {
    SortKeepsMembers(ids);
    SortKeepsDistinct(ids);
    if id in ids {
      var i := IndexOf(Sort(ids), id);
      DistinctRanges(ids, i);
      OnePosition(p, i, |ids|);
    }
  }

  /** The holder is a registered proxy, and the one the lookup names if it names any. */
  lemma HolderIsOwner(ids: seq<string>, p: int)
    requires IsPartition(p) && ids != []
    ensures HolderOf(p, ids).Some? && HolderOf(p, ids).value in ids
    ensures |ids| <= PARTITIONS ==> ProxyFor(p, ids) == Owner(HolderOf(p, ids).value)
  {
    SortKeepsMembers(ids);
  }

  /** Nothing depends on the order the proxies are listed in. */
  lemma OnlyTheSetMatters(a: seq<string>, b: seq<string>, target: string, p: int)
    requires Distinct(a) && Distinct(b) && forall x :: x in a <==> x in b
    ensures AllRanges(a) == AllRanges(b) && RangesFor(target, a) == RangesFor(target, b)
    ensures ProxyFor(p, a) == ProxyFor(p, b) && (IsPartition(p) ==> HolderOf(p, a) == HolderOf(p, b))
  {
    SortOfSameSet(a, b);
    assert |a| == |Sort(a)| == |Sort(b)| == |b|;
  }

  // ----- Coverage -----

  /** Partition p lies in the range that the map gives to id. */
  predicate Holds(m: RangeMap, id: string, p: int) {
    id in m && |m[id]| == 1 && InRange(p, m[id][0])
  }

  ghost predicate Covered(m: RangeMap, p: int) {
    exists id :: Holds(m, id, p)
  }

  ghost predicate CoversAll(m: RangeMap) {
    forall p :: IsPartition(p) ==> Covered(m, p)
  }

  ghost predicate NoOverlap(m: RangeMap) {
    forall p, a, b :: IsPartition(p) && Holds(m, a, p) && Holds(m, b, p) ==> a == b
  }

  /** Every list in the map is a single range within the partitions. */
  ghost predicate WellFormed(m: RangeMap) {
    forall id | id in m :: |m[id]| == 1 && 0 <= m[id][0].start && m[id][0].end < PARTITIONS
  }

  /** An id holds a partition only from the position that holds it. */
  lemma HoldsFromPosition(ids: seq<string>, id: string, p: int)
    requires IsPartition(p) && Holds(AllRanges(ids), id, p)
    ensures LastOf(Sort(ids), Holder(p, |ids|), |ids|) && Sort(ids)[Holder(p, |ids|)] == id
  {
    var s := Sort(ids);
    KeysUpTo(s, |s|, id);
    var i := HasLast(s, |s|, id);
    RangeUpTo(s, |s|, i);
    OnePosition(p, i, |s|);
  }

  lemma PositionHolds(ids: seq<string>, p: int)
    requires IsPartition(p) && ids != [] && LastOf(Sort(ids), Holder(p, |ids|), |ids|)
    ensures Holds(AllRanges(ids), Sort(ids)[Holder(p, |ids|)], p)
  {
    var s, i := Sort(ids), Holder(p, |ids|);
    RangeUpTo(s, |s|, i);
    OnePosition(p, i, |s|);
  }

  lemma RangesAreWellFormed(ids: seq<string>)
    ensures WellFormed(AllRanges(ids))
  {
    var s := Sort(ids);
    var m: RangeMap := AllRanges(ids);
    forall id | id in m ensures |m[id]| == 1 && 0 <= m[id][0].start && m[id][0].end < PARTITIONS {
      KeysUpTo(s, |s|, id);
      var i := HasLast(s, |s|, id);
      RangeUpTo(s, |s|, i);
      RangeWithin(i, |s|);
    }
  }

  /** Computed ranges never overlap, repeated ids or not. */
  lemma RangesNeverOverlap(ids: seq<string>)
    ensures NoOverlap(AllRanges(ids))
  {
    var m := AllRanges(ids);
    forall p, a, b | IsPartition(p) && Holds(m, a, p) && Holds(m, b, p) ensures a == b {
      HoldsFromPosition(ids, a, p);
      HoldsFromPosition(ids, b, p);
    }
  }

  /** A repeated id loses the range of its earlier position, and nobody else has it. */
  lemma RepeatLeavesGap(ids: seq<string>, i: nat, j: nat)
    requires i < j < |ids| <= PARTITIONS && Sort(ids)[i] == Sort(ids)[j]
    ensures IsPartition(RangeOf(i, |ids|).start) && !Covered(AllRanges(ids), RangeOf(i, |ids|).start)
  {
    var p := RangeOf(i, |ids|).start;
    RangeWithin(i, |ids|);
    OnePosition(p, i, |ids|);
    forall id ensures !Holds(AllRanges(ids), id, p) {
      if Holds(AllRanges(ids), id, p) {
        HoldsFromPosition(ids, id, p);
      }
    }
  }

  /** All partitions are covered exactly when there are proxies and no id is repeated, or there are over 256. */
  lemma CoverageExactly(ids: seq<string>)
    ensures CoversAll(AllRanges(ids)) <==> ids != [] && (|ids| > PARTITIONS || Distinct(ids))
  {
    var s := Sort(ids);
    SortKeepsDistinct(ids);
    if ids == [] {
      assert !Covered(AllRanges(ids), 0);
    } else if |ids| > PARTITIONS || Distinct(ids) {
      forall p | IsPartition(p) ensures Covered(AllRanges(ids), p) {
        PositionHolds(ids, p);
      }
    } else {
      var i, j :| 0 <= i < j < |s| && s[i] == s[j];
      RepeatLeavesGap(ids, i, j);
    }
  }

  // ----- Joining and leaving -----

  function Without(ids: seq<string>, x: string): (r: seq<string>)
    ensures x !in r && forall y :: y in r <==> y in ids && y != x
  {
    if ids == [] then []
    else
      var rest := Without(ids[..|ids| - 1], x);
      if ids[|ids| - 1] == x then rest else rest + [ids[|ids| - 1]]
  }

  lemma {:induction false} WithoutAbsent(ids: seq<string>, x: string)
    requires x !in ids
    ensures Without(ids, x) == ids
  {
    if ids != [] {
      WithoutAbsent(ids[..|ids| - 1], x);
      assert ids == ids[..|ids| - 1] + [ids[|ids| - 1]];
    }
  }

  /** A join followed by a leave of the same id restores every range exactly when the id was new. */
  lemma JoinThenLeaveExactly(ids: seq<string>, x: string)
    ensures AllRanges(Without(ids + [x], x)) == AllRanges(ids) <==> x !in ids
  {
    var joined := ids + [x];
    assert joined[..|joined| - 1] == ids;
    if x !in ids {
      WithoutAbsent(ids, x);
    } else {
      AllRangesKeys(ids, x);
      AllRangesKeys(Without(joined, x), x);
    }
  }
}
