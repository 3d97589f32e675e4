/**
The proxy stored with a namespace against the proxy that serves it. The first is looked up when the namespace is
created and stays; the second is computed from the proxies registered at the time.
*/
module StaleOwners {
  import opened Wrappers
  import opened SortedStrings
  import opened AdminState
  import opened Partitions
  import opened ControlPlane
  import AdminHistory

  // ----- Positions in the sorted ids -----

  predicate Before(a: string, b: string) {
    a != b && LessEq(a, b)
  }

  /** The ids that sort before x. */
  function Below(ids: seq<string>, x: string): set<string> {
    set y | y in ids && Before(y, x)
  }

  function Members(s: seq<string>): set<string> {
    set y | y in s
  }

  lemma {:induction false} DistinctSize(s: seq<string>)
    requires Distinct(s)
    ensures |Members(s)| == |s|
  {
    if s != [] {
      var t, x := s[..|s| - 1], s[|s| - 1];
      assert s == t + [x];
      DistinctSize(t);
      assert Members(s) == Members(t) + {x};
    }
  }

  /** In a sorted sequence without repeats, what sorts before an element is what precedes it. */
  lemma BelowIsPrefix(s: seq<string>, i: nat, y: string)
    requires Sorted(s) && Distinct(s) && i < |s|
    ensures y in s && Before(y, s[i]) <==> y in s[..i]
  {
    if y in s && Before(y, s[i]) {
      var k :| 0 <= k < |s| && s[k] == y;
      if k > i { Antisymmetric(y, s[i]); }
      assert s[..i][k] == y;
    }
    if y in s[..i] {
      var k :| 0 <= k < i && s[k] == y;
      assert LessEq(s[k], s[i]);
    }
  }

  lemma BelowIsMembers(s: seq<string>, i: nat)
    requires Sorted(s) && Distinct(s) && i < |s|
    ensures Below(s, s[i]) == Members(s[..i])
  {
    forall y ensures y in Below(s, s[i]) <==> y in Members(s[..i]) { BelowIsPrefix(s, i, y); }
  }

  lemma SameBelow(a: seq<string>, b: seq<string>, x: string)
    requires forall y :: y in a <==> y in b
    ensures Below(a, x) == Below(b, x)
  {
  }

  /** An id's position in the sorted ids is the number of ids before it. */
  lemma RankIsPosition(ids: seq<string>, i: nat)
    requires Distinct(ids) && i < |ids|
    ensures |Below(ids, Sort(ids)[i])| == i
  {
    var s := Sort(ids);
    SortKeepsMembers(ids);
    SortKeepsDistinct(ids);
    SameBelow(ids, s, s[i]);
    BelowIsMembers(s, i);
    PrefixDistinct(s, i);
    DistinctSize(s[..i]);
  }

  lemma PrefixDistinct(s: seq<string>, i: nat)
    requires Distinct(s) && i <= |s|
    ensures Distinct(s[..i])
  {
  }

  /** The ids of b that a lacks and that sort before x. */
  function Newcomers(a: seq<string>, b: seq<string>, x: string): set<string> {
    set y | y in b && y !in a && Before(y, x)
  }

  lemma NewcomersCount(a: seq<string>, b: seq<string>, x: string)
    requires forall y :: y in a ==> y in b
    ensures |Below(b, x)| == |Below(a, x)| + |Newcomers(a, b, x)|
  {
    assert Below(b, x) == Below(a, x) + Newcomers(a, b, x);
    assert Below(a, x) !! Newcomers(a, b, x);
  }

  /** Position of an id in a larger set. */
  lemma PositionMoves(a: seq<string>, b: seq<string>, i: nat, j: nat)
    requires Distinct(a) && Distinct(b) && (forall y :: y in a ==> y in b) && i < |a| && j < |b|
    ensures Sort(b)[j] == Sort(a)[i] <==> j == i + |Newcomers(a, b, Sort(a)[i])|
  {
    var x := Sort(a)[i];
    RankIsPosition(a, i);
    NewcomersCount(a, b, x);
    RankIsPosition(b, j);
    if j == i + |Newcomers(a, b, x)| {
      SortKeepsMembers(a);
      SortKeepsMembers(b);
      assert x in Sort(b);
      var k: nat :| k < |Sort(b)| && Sort(b)[k] == x;
      RankIsPosition(b, k);
    }
  }

  /**
  When proxies join, a partition keeps its holder exactly if its position moves up by the number of newcomers that sort
  before the holder.
  */
  lemma HolderKeptExactly(a: seq<string>, b: seq<string>, p: int)
    requires Distinct(a) && Distinct(b) && (forall y :: y in a ==> y in b) && a != [] && b != [] && IsPartition(p)
    ensures var x := HolderOf(p, a).value;
      HolderOf(p, b) == Some(x) <==> Holder(p, |b|) == Holder(p, |a|) + |Newcomers(a, b, x)|
  {
    PositionMoves(a, b, Holder(p, |a|), Holder(p, |b|));
  }

  /** Every join, up to the 256th proxy, moves some partition to the newcomer. */
  lemma JoinMovesSome(ids: seq<string>, x: string) returns (p: int)
    requires Distinct(ids) && x !in ids && |ids| < PARTITIONS
    ensures IsPartition(p) && HolderOf(p, ids + [x]) == Some(x)
    ensures ids != [] ==> HolderOf(p, ids) != Some(x)
  {
    var joined := ids + [x];
    SortKeepsMembers(joined);
    SortKeepsMembers(ids);
    assert x in joined;
    var i: nat :| i < |Sort(joined)| && Sort(joined)[i] == x;
    p := RangeOf(i, |joined|).start;
    RangeWithin(i, |joined|);
    OnePosition(p, i, |joined|);
  }

  // ----- Over the log -----

  /**
  Entry i creates the namespace, with the proxy that the service looked up when it had applied the first m entries;
  `ids` are the proxies it saw.
  */
  ghost predicate CreatedAt(crc: Hash, log: seq<Entry>, clock: nat -> int, namespace: string, i: nat, m: nat,
                            ids: seq<string>) {
    && m <= i < |log| && AdminHistory.Last(log, AdminHistory.Creates(namespace)) == Some(i)
    && Lists(ids, Replay(Initial, log[..m], clock))
    && log[i].data.Some? && exists req :: CreateCommand(crc, ids, req) == Success(log[i].data.value)
  }

  lemma StoredIs(crc: Hash, log: seq<Entry>, clock: nat -> int, namespace: string, i: nat, m: nat, ids: seq<string>)
    requires CreatedAt(crc, log, clock, namespace, i, m, ids)
    ensures ids != [] && namespace in Replay(Initial, log, clock).namespaces
    ensures Some(Replay(Initial, log, clock).namespaces[namespace].assignedProxy) ==
            HolderOf(HashNamespace(crc, namespace), ids)
  {
    AdminHistory.NamespaceHistory(log, clock, namespace);
    var req :| CreateCommand(crc, ids, req) == Success(log[i].data.value);
    HolderIsOwner(ids, HashNamespace(crc, namespace));
  }

  /** Proxies do not leave the state. */
  lemma {:induction false} ProxiesStay(log: seq<Entry>, clock: nat -> int, m: nat, id: string)
    requires m <= |log| && id in Replay(Initial, log[..m], clock).proxies
    ensures id in Replay(Initial, log, clock).proxies
  {
    if m < |log| {
      var k := |log| - 1;
      assert log[..k][..m] == log[..m];
      ProxiesStay(log[..k], clock, m, id);
      AdminHistory.ProxyStep(Replay(Initial, log[..k], clock), log[k], clock(k), id);
    } else {
      assert log[..m] == log;
    }
  }

  /**
  For every log and every namespace: the stored proxy is the one that serves it exactly if the partition's position has
  moved up, since the lookup, by the number of newcomers that sort before the stored proxy.
  */
  lemma StoredServesExactly(crc: Hash, log: seq<Entry>, clock: nat -> int, namespace: string, i: nat, m: nat,
                            seen: seq<string>, ids: seq<string>)
    requires CreatedAt(crc, log, clock, namespace, i, m, seen) && Lists(ids, Replay(Initial, log, clock))
    ensures namespace in Replay(Initial, log, clock).namespaces && seen != [] && ids != []
    ensures var p := HashNamespace(crc, namespace);
      var stored := Replay(Initial, log, clock).namespaces[namespace].assignedProxy;
      HolderOf(p, ids) == Some(stored) <==> Holder(p, |ids|) == Holder(p, |seen|) + |Newcomers(seen, ids, stored)|
  {
    StoredIs(crc, log, clock, namespace, i, m, seen);
    forall y | y in seen ensures y in ids { ProxiesStay(log, clock, m, y); }
    assert seen[0] in ids;
    HolderKeptExactly(seen, ids, HashNamespace(crc, namespace));
  }

  function Registration(id: string): Entry {
    Entry(1, 1, Some(RegisterProxy(id, "", "", "", [], map[])))
  }

  function Creation(crc: Hash, namespace: string, proxy: string): Entry {
    Entry(1, 1, Some(Command.CreateNamespace(namespace, HashNamespace(crc, namespace), proxy, map[], "")))
  }

  lemma SortTwo()
    ensures Sort(["a"]) == ["a"] && Sort(["a", "b"]) == ["a", "b"]
  {
    assert LessEq("a", "b");
    SortedIsUnique(Sort(["a", "b"]), ["a", "b"]);
    SortedIsUnique(Sort(["a"]), ["a"]);
  }

  lemma RegistrationAdds(s: State, id: string, now: int)
    ensures Apply(s, Registration(id), now).proxies.Keys == s.proxies.Keys + {id}
  {
  }

  lemma CreationKeepsProxies(crc: Hash, s: State, namespace: string, proxy: string, now: int)
    ensures Apply(s, Creation(crc, namespace, proxy), now).proxies == s.proxies
  {
  }

  /** Which proxies are registered in the course of the log below. */
  lemma TwoProxies(crc: Hash, clock: nat -> int, namespace: string)
    ensures var log := [Registration("a"), Creation(crc, namespace, "a"), Registration("b")];
      && Replay(Initial, log[..1], clock).proxies.Keys == {"a"}
      && Replay(Initial, log, clock).proxies.Keys == {"a", "b"}
  {
    var log := [Registration("a"), Creation(crc, namespace, "a"), Registration("b")];
    var s1, s2 := Replay(Initial, log[..1], clock), Replay(Initial, log[..2], clock);
    assert log[..1][..0] == [] && log[..2][..1] == log[..1] && log[..3] == log;
    RegistrationAdds(Initial, "a", clock(0));
    CreationKeepsProxies(crc, s1, namespace, "a", clock(1));
    RegistrationAdds(s2, "b", clock(2));
  }

  /** One proxy, a namespace in the upper half of the partitions, a second proxy: what is stored is the first. */
  lemma SecondProxyTakesOver(crc: Hash, clock: nat -> int, namespace: string)
    requires HashNamespace(crc, namespace) >= 128
    ensures var log := [Registration("a"), Creation(crc, namespace, "a"), Registration("b")];
      var s := Replay(Initial, log, clock);
      && CreatedAt(crc, log, clock, namespace, 1, 1, ["a"]) && Lists(["a", "b"], s)
      && namespace in s.namespaces && s.namespaces[namespace].assignedProxy == "a"
      && HolderOf(HashNamespace(crc, namespace), ["a", "b"]) == Some("b")
  {
    var log := [Registration("a"), Creation(crc, namespace, "a"), Registration("b")];
    SortTwo();
    TwoProxies(crc, clock, namespace);
    assert CreateCommand(crc, ["a"], CreateRequest(namespace, "", None)) == Success(log[1].data.value);
    assert log[..2] == [log[0], log[1]];
    assert AdminHistory.Last(log, AdminHistory.Creates(namespace)) == Some(1);
    assert CreatedAt(crc, log, clock, namespace, 1, 1, ["a"]);
    StoredIs(crc, log, clock, namespace, 1, 1, ["a"]);
  }

  // ----- What the serving proxy is told -----

  /**
  What a proxy is told about a namespace: the configuration of the last request to create it, the hash of its name as
  partition, and version one.
  */
  lemma ToldExactly(crc: Hash, log: seq<Entry>, clock: nat -> int, i: nat, ids: seq<string>, req: CreateRequest)
    requires (forall k | 0 <= k < |log| :: Issued(crc, log[k])) && i < |log|
    requires log[i].data.Some? && CreateCommand(crc, ids, req) == Success(log[i].data.value)
    requires AdminHistory.Last(log, AdminHistory.Creates(req.namespace)) == Some(i)
    ensures req.namespace in Replay(Initial, log, clock).namespaces
    ensures AssignmentOf(Replay(Initial, log, clock).namespaces[req.namespace]) ==
            Assignment(req.namespace, HashNamespace(crc, req.namespace),
                       if req.config.Some? then req.config.value else map[], 1)
  {
    AdminHistory.NamespaceHistory(log, clock, req.namespace);
    ReachableIsFiled(crc, log, clock);
    assert NamespaceFiled(crc, Replay(Initial, log, clock), req.namespace);
  }
}
