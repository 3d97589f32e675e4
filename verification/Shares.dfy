/** How the 256 partitions are shared out: how many each proxy gets, and in which order. */
module Shares {
  import opened Wrappers
  import opened SortedStrings
  import opened Partitions

  /** The partitions that a proxy holds. */
  function Share(ids: seq<string>, id: string): set<int> {
    set p: int | 0 <= p < 256 && HolderOf(p, ids) == Some(id)
  }

  predicate Within(lo: int, p: int, hi: int) {
    lo <= p < hi
  }

  function Interval(lo: int, hi: int): set<int> {
    set p: int | lo <= p < hi && Within(lo, p, hi)
  }

  lemma {:induction false} IntervalSize(lo: int, hi: int)
    requires lo <= hi
    ensures |Interval(lo, hi)| == hi - lo
    decreases hi - lo
  {
    if lo < hi {
      IntervalSize(lo, hi - 1);
      assert Interval(lo, hi) == Interval(lo, hi - 1) + {hi - 1};
    } else {
      assert Interval(lo, hi) == {};
    }
  }

  lemma SizeIs(n: nat, k: nat)
    requires 1 <= n && k * n <= 256 < (k + 1) * n
    ensures RangeSize(n) == k
  {
    OneMore(k, n);
    Quotient(256, n, k);
  }

  /** The range of position i, where lo is i times the size. */
  lemma RangeIs(i: nat, n: nat, k: nat, lo: int)
    requires i < n && RangeSize(n) == k && lo == i * k
    ensures RangeOf(i, n) == Range(lo, (if i == n - 1 then 256 else lo + k) - 1)
  {
  }

  lemma HeldAt(ids: seq<string>, i: nat, p: int)
    requires Distinct(ids) && i < |ids|
    ensures p in Share(ids, Sort(ids)[i]) <==> 0 <= p < 256 && InRange(p, RangeOf(i, |ids|))
  {
    SortKeepsDistinct(ids);
    if 0 <= p < 256 { OnePosition(p, i, |ids|); }
  }

  /** Where the share of position i begins and ends when all but the last get k partitions. */
  lemma ShareIsInterval(ids: seq<string>, i: nat, k: nat, lo: int)
    requires Distinct(ids) && i < |ids| && RangeSize(|ids|) == k && lo == i * k
    ensures Share(ids, Sort(ids)[i]) == Interval(lo, if i == |ids| - 1 then 256 else lo + k)
  {
    RangeIs(i, |ids|, k, lo);
    ShareIsRange(ids, i);
  }

  lemma ShareIsRange(ids: seq<string>, i: nat)
    requires Distinct(ids) && i < |ids|
    ensures Share(ids, Sort(ids)[i]) == Interval(RangeOf(i, |ids|).start, RangeOf(i, |ids|).end + 1)
  {
    var r, share := RangeOf(i, |ids|), Share(ids, Sort(ids)[i]);
    RangeWithin(i, |ids|);
    forall p ensures p in share <==> 0 <= p < 256 && InRange(p, r) { HeldAt(ids, i, p); }
    RangeAsInterval(share, r);
  }

  lemma RangeAsInterval(share: set<int>, r: Range)
    requires 0 <= r.start && r.end < 256 && forall p :: p in share <==> 0 <= p < 256 && InRange(p, r)
    ensures share == Interval(r.start, r.end + 1)
  {
    forall p ensures p in share <==> p in Interval(r.start, r.end + 1) {
      assert Within(r.start, p, r.end + 1) <==> InRange(p, r);
    }
  }

  predicate LastSorted(ids: seq<string>, id: string) {
    forall x | x in ids :: LessEq(x, id)
  }

  lemma LastIsLast(ids: seq<string>, i: nat)
    requires Distinct(ids) && i < |ids|
    ensures LastSorted(ids, Sort(ids)[i]) <==> i == |ids| - 1
  {
    var s := Sort(ids);
    SortKeepsMembers(ids);
    SortKeepsDistinct(ids);
    if i == |s| - 1 {
      forall x | x in ids ensures LessEq(x, s[i]) {
        assert x in s;
        var j :| 0 <= j < |s| && s[j] == x;
        Total(x, x);
      }
    } else {
      var last := s[|s| - 1];
      assert last in s && LessEq(s[i], last);
      if LessEq(last, s[i]) { Antisymmetric(s[i], last); }
    }
  }

  lemma Position(ids: seq<string>, id: string) returns (i: nat)
    requires id in ids
    ensures i < |ids| && Sort(ids)[i] == id
  {
    SortKeepsMembers(ids);
    i := IndexOf(Sort(ids), id);
  }

  lemma ShareCount(share: set<int>, lo: int, k: nat, last: bool)
    requires share == Interval(lo, if last then 256 else lo + k) && lo <= 256
    ensures |share| == if last then 256 - lo else k
  {
    IntervalSize(lo, if last then 256 else lo + k);
  }

  lemma Fits(i: nat, n: nat, k: nat)
    requires i < n && k * n <= 256
    ensures i * k <= 256
  {
    Grows(i, n, k);
  }

  /**
  With 1 to 256 distinct ids, everybody but the last in sorted order gets the same number of partitions, the largest
  that fits for all, and the last gets the rest.
  */
  lemma SharesExactly(ids: seq<string>, id: string, k: nat)
    requires Distinct(ids) && id in ids && |ids| <= 256 && k * |ids| <= 256 < (k + 1) * |ids|
    ensures |Share(ids, id)| == if LastSorted(ids, id) then 256 - (|ids| - 1) * k else k
  {
    var i := Position(ids, id);
    SizeIs(|ids|, k);
    ShareIsInterval(ids, i, k, i * k);
    LastIsLast(ids, i);
    Fits(i, |ids|, k);
    ShareCount(Share(ids, id), i * k, k, i == |ids| - 1);
  }

  lemma PositionsInOrder(ids: seq<string>, i: nat, j: nat)
    requires i < |ids| && j < |ids| && Sort(ids)[i] != Sort(ids)[j] && LessEq(Sort(ids)[i], Sort(ids)[j])
    ensures i < j
  {
    if j < i { Antisymmetric(Sort(ids)[i], Sort(ids)[j]); }
  }

  lemma RangesInOrder(i: nat, j: nat, n: nat, p: int, q: int)
    requires i < j < n && InRange(p, RangeOf(i, n)) && InRange(q, RangeOf(j, n))
    ensures p < q
  {
    OneMore(i, RangeSize(n));
    Grows(i + 1, j, RangeSize(n));
  }

  lemma ShareRange(ids: seq<string>, i: nat, p: int)
    requires Distinct(ids) && i < |ids| && p in Share(ids, Sort(ids)[i])
    ensures InRange(p, RangeOf(i, |ids|))
  {
    SortKeepsDistinct(ids);
    OnePosition(p, i, |ids|);
  }

  /** Who sorts earlier holds smaller partitions. */
  lemma SharesInOrder(ids: seq<string>, a: string, b: string, p: int, q: int)
    requires Distinct(ids) && a in ids && b in ids && a != b && LessEq(a, b)
    requires p in Share(ids, a) && q in Share(ids, b)
    ensures p < q
  {
    var i := Position(ids, a);
    var j := Position(ids, b);
    PositionsInOrder(ids, i, j);
    ShareRange(ids, i, p);
    ShareRange(ids, j, q);
    RangesInOrder(i, j, |ids|, p, q);
  }
}
