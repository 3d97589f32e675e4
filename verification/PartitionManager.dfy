/** The assigner's loops, proved against the functions of Partitions. */
module PartitionManager {
  import opened Wrappers
  import opened SortedStrings
  import opened AdminState
  import opened Partitions

  method SortedIds(proxies: seq<ProxyEntry>) returns (ids: seq<string>)
    ensures ids == Sort(Ids(proxies))
  {
    ids := [];
    for i := 0 to |proxies|
      invariant ids == Ids(proxies)[..i]
    {
      ids := ids + [proxies[i].proxyId];
    }
    assert ids == Ids(proxies);
    ids := Sort(ids);
  }

  method ComputeRangesFromProxySet(target: string, proxies: seq<ProxyEntry>) returns (ranges: seq<Range>)
    ensures ranges == RangesFor(target, Ids(proxies))
  {
    if |proxies| == 0 {
      return [];
    }
    var ids := SortedIds(proxies);
    var index := FindIndex(ids, target);
    if index == -1 {
      return [];
    }
    ranges := [RangeOf(index, |ids|)];
  }

  /** The first position of the target, or -1. */
  method FindIndex(ids: seq<string>, target: string) returns (index: int)
    ensures index == if target in ids then IndexOf(ids, target) else -1
  {
    for i := 0 to |ids|
      invariant forall j | 0 <= j < i :: ids[j] != target
    {
      if ids[i] == target {
        return i;
      }
    }
    index := -1;
  }

  method GetProxyForPartitionFromSet(p: int, proxies: seq<ProxyEntry>) returns (r: LookupResult)
    ensures r == ProxyFor(p, Ids(proxies))
  {
    if |proxies| == 0 {
      return NoProxies;
    }
    if p < 0 || p > 255 {
      return InvalidPartition;
    }
    var ids := SortedIds(proxies);
    if RangeSize(|ids|) == 0 {
      return DivisionByZero;
    }
    r := Owner(ids[OwnerIndex(p, |ids|)]);
  }

  method FillRanges(ids: seq<string>) returns (m: RangeMap)
    ensures m == RangesUpTo(ids, |ids|)
  {
    m := map[];
    for i := 0 to |ids|
      invariant m == RangesUpTo(ids, i)
    {
      m := m[ids[i] := [RangeOf(i, |ids|)]];
    }
  }

  method ComputeAllRanges(proxies: seq<ProxyEntry>) returns (m: RangeMap)
    ensures m == AllRanges(Ids(proxies))
  {
    if |proxies| == 0 {
      return map[];
    }
    var ids := SortedIds(proxies);
    m := FillRanges(ids);
  }

  method RebalanceOnProxyJoin(existing: seq<ProxyEntry>, newProxy: ProxyEntry)
    returns (before: RangeMap, after: RangeMap)
    ensures before == AllRanges(Ids(existing)) && after == AllRanges(Ids(existing) + [newProxy.proxyId])
  {
    before := ComputeAllRanges(existing);
    after := ComputeAllRanges(existing + [newProxy]);
    assert Ids(existing + [newProxy]) == Ids(existing) + [newProxy.proxyId];
  }

  method RebalanceOnProxyLeave(proxies: seq<ProxyEntry>, leaving: string)
    returns (before: RangeMap, after: RangeMap)
    ensures before == AllRanges(Ids(proxies)) && after == AllRanges(Without(Ids(proxies), leaving))
  {
    before := ComputeAllRanges(proxies);
    var remaining := Remaining(proxies, leaving);
    after := ComputeAllRanges(remaining);
  }

  method Remaining(proxies: seq<ProxyEntry>, leaving: string) returns (remaining: seq<ProxyEntry>)
    ensures Ids(remaining) == Without(Ids(proxies), leaving)
  {
    remaining := [];
    for i := 0 to |proxies|
      invariant Ids(remaining) == Without(Ids(proxies)[..i], leaving)
    {
      NextWithout(Ids(proxies), leaving, i);
      if proxies[i].proxyId != leaving {
        OneMoreId(remaining, proxies[i]);
        remaining := remaining + [proxies[i]];
      }
    }
    assert Ids(proxies)[..|proxies|] == Ids(proxies);
  }

  lemma NextWithout(ids: seq<string>, x: string, i: nat)
    requires i < |ids|
    ensures Without(ids[..i + 1], x) == if ids[i] == x then Without(ids[..i], x) else Without(ids[..i], x) + [ids[i]]
  {
    assert ids[..i + 1][..i] == ids[..i];
  }

  lemma OneMoreId(proxies: seq<ProxyEntry>, p: ProxyEntry)
    ensures Ids(proxies + [p]) == Ids(proxies) + [p.proxyId]
  {
  }

  datatype CoverageError = NoProxiesAvailable | Overlap(p: int, id: string) | NotCovered(p: int)

  /** Marks a range, stopping at the first partition that is marked already. */
  method Mark(covered: array<bool>, r: Range) returns (clash: Option<int>)
    requires covered.Length == PARTITIONS && 0 <= r.start && r.end < PARTITIONS
    modifies covered
    ensures clash.Some? ==> InRange(clash.value, r) && old(covered[clash.value])
    ensures clash.None? ==>
              forall q | IsPartition(q) :: covered[q] == (old(covered[q]) || InRange(q, r))
    ensures clash.None? ==> forall q | IsPartition(q) :: !(old(covered[q]) && InRange(q, r))
  {
    clash := None;
    var i := r.start;
    while i <= r.end
      invariant r.start <= i
      invariant i <= r.end + 1 || i == r.start
      invariant forall q | IsPartition(q) :: covered[q] == (old(covered[q]) || (InRange(q, r) && q < i))
      invariant forall q | IsPartition(q) && InRange(q, r) && q < i :: !old(covered[q])
    {
      if covered[i] {
        return Some(i);
      }
      covered[i] := true;
      i := i + 1;
    }
  }

  /** p is in the range of one of the ids already visited. */
  ghost predicate Visited(m: RangeMap, todo: set<string>, p: int) {
    exists id :: id !in todo && Holds(m, id, p)
  }

  ghost predicate Marked(covered: seq<bool>, m: RangeMap, todo: set<string>) {
    |covered| == PARTITIONS && forall q | 0 <= q < PARTITIONS :: covered[q] <==> Visited(m, todo, q)
  }

  ghost predicate Apart(m: RangeMap, todo: set<string>) {
    forall q, a, b :: IsPartition(q) && a !in todo && b !in todo && Holds(m, a, q) && Holds(m, b, q) ==> a == b
  }

  lemma MarkedNext(before: seq<bool>, after: seq<bool>, m: RangeMap, todo: set<string>, id: string)
    requires WellFormed(m) && Marked(before, m, todo) && Apart(m, todo) && id in todo && id in m
    requires |after| == PARTITIONS
    requires forall q | 0 <= q < PARTITIONS :: after[q] == (before[q] || InRange(q, m[id][0]))
    requires forall q | 0 <= q < PARTITIONS :: !(before[q] && InRange(q, m[id][0]))
    ensures Marked(after, m, todo - {id}) && Apart(m, todo - {id})
  {
    forall q | 0 <= q < PARTITIONS ensures after[q] <==> Visited(m, todo - {id}, q) {
      assert InRange(q, m[id][0]) <==> Holds(m, id, q);
    }
    forall q, a, b | IsPartition(q) && a !in todo - {id} && b !in todo - {id} && Holds(m, a, q) && Holds(m, b, q)
      ensures a == b
    {
      assert before[q] <==> Visited(m, todo, q);
    }
  }

  /** The bitmap check: succeeds exactly when every partition is in exactly one range. */
  method CheckCoverage(m: RangeMap) returns (err: Option<CoverageError>)
    requires WellFormed(m)
    ensures err.None? <==> CoversAll(m) && NoOverlap(m)
    ensures err.Some? ==> !err.value.NoProxiesAvailable?
    ensures err.Some? && err.value.NotCovered? ==> IsPartition(err.value.p) && !Covered(m, err.value.p) && NoOverlap(m)
    ensures err.Some? && err.value.Overlap? ==> !NoOverlap(m) && Holds(m, err.value.id, err.value.p)
  {
    var covered := new bool[256](_ => false);
    var todo := m.Keys;
    while todo != {}
      invariant todo <= m.Keys && Marked(covered[..], m, todo) && Apart(m, todo)
      decreases todo
    {
      var id :| id in todo;
      ghost var before := covered[..];
      var clash := Mark(covered, m[id][0]);
      if clash.Some? {
        assert Visited(m, todo, clash.value) && Holds(m, id, clash.value);
        return Some(Overlap(clash.value, id));
      }
      MarkedNext(before, covered[..], m, todo, id);
      todo := todo - {id};
    }
    for i := 0 to 256
      invariant forall q | 0 <= q < i :: covered[q]
    {
      if !covered[i] {
        assert !covered[..][i] && !Visited(m, {}, i);
        assert IsPartition(i) && !Covered(m, i);
        return Some(NotCovered(i));
      }
    }
    forall q | IsPartition(q) ensures Covered(m, q) {
      assert covered[..][q] && Visited(m, {}, q);
    }
    err := None;
  }

  /**
  Validation succeeds exactly for distinct ids, or for more than 256 proxies whatever their ids,
  and never reports an overlap.
  */
  method ValidatePartitionCoverage(proxies: seq<ProxyEntry>) returns (err: Option<CoverageError>)
    ensures err.None? <==> proxies != [] && (|proxies| > PARTITIONS || Distinct(Ids(proxies)))
    ensures err == Some(NoProxiesAvailable) <==> proxies == []
    ensures err.Some? && proxies != [] ==> err.value.NotCovered? && !Covered(AllRanges(Ids(proxies)), err.value.p)
  {
    if |proxies| == 0 {
      return Some(NoProxiesAvailable);
    }
    var ranges := ComputeAllRanges(proxies);
    CoverageExactly(Ids(proxies));
    RangesNeverOverlap(Ids(proxies));
    RangesAreWellFormed(Ids(proxies));
    err := CheckCoverage(ranges);
  }
}
