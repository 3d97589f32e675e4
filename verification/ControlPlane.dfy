/**
The control plane service on top of the replicated state: which commands it issues, and
which namespaces it hands to which proxy.
*/
module ControlPlane {
  import opened Wrappers
  import opened SortedStrings
  import opened AdminState
  import opened Partitions
  import opened PartitionManager

  type Hash = string -> nat

  ghost predicate ProxyFiled(s: State, k: string) {
    k in s.proxies ==> s.proxies[k].proxyId == k
  }

  ghost predicate NamespaceFiled(crc: Hash, s: State, k: string) {
    k in s.namespaces ==> s.namespaces[k].name == k && s.namespaces[k].partitionId == HashNamespace(crc, k)
  }

  /** Entries are filed under their own names, and a namespace's partition is the hash of its name. */
  ghost predicate Filed(crc: Hash, s: State) {
    forall k :: ProxyFiled(s, k) && NamespaceFiled(crc, s, k)
  }

  /** The listing names each key of the map once. */
  ghost predicate Enumerates(keys: seq<string>, domain: set<string>) {
    Distinct(keys) && forall k :: k in keys <==> k in domain
  }

  /** The ids are those of the registered proxies, each once, in whatever order the map yields them. */
  ghost predicate Lists(ids: seq<string>, s: State) {
    Enumerates(ids, s.proxies.Keys)
  }

  // ----- Creating namespaces -----

  datatype CreateRequest = CreateRequest(namespace: string, principal: string, config: Option<Bag>)

  /** What CreateNamespace proposes, given the ids it read from the state machine. */
  function CreateCommand(crc: Hash, ids: seq<string>, req: CreateRequest): Result<Command, LookupResult> {
    var p := HashNamespace(crc, req.namespace);
    match ProxyFor(p, ids)
    case Owner(id) =>
      Success(Command.CreateNamespace(req.namespace, p, id, if req.config.Some? then req.config.value else map[],
                                      req.principal))
    case failure => Failure(failure)
  }

  /** A log entry that the service put there: its namespace commands come from CreateNamespace on some replica. */
  ghost predicate Issued(crc: Hash, e: Entry) {
    e.data.Some? && e.data.value.CreateNamespace? ==>
      exists ids, req :: CreateCommand(crc, ids, req) == Success(e.data.value)
  }

  lemma IssuedHash(crc: Hash, e: Entry)
    requires Issued(crc, e) && e.data.Some? && e.data.value.CreateNamespace?
    ensures e.data.value.partitionId == HashNamespace(crc, e.data.value.namespace)
  {
    var ids, req :| CreateCommand(crc, ids, req) == Success(e.data.value);
  }

  lemma DispatchKeepsFiled(crc: Hash, s: State, c: Command, now: int, k: string)
    requires ProxyFiled(s, k) && NamespaceFiled(crc, s, k)
    requires c.CreateNamespace? ==> c.partitionId == HashNamespace(crc, c.namespace)
    ensures ProxyFiled(Dispatch(s, c, now), k) && NamespaceFiled(crc, Dispatch(s, c, now), k)
  {
  }

  lemma ApplyKeepsFiled(crc: Hash, s: State, e: Entry, now: int)
    requires Filed(crc, s) && Issued(crc, e)
    ensures Filed(crc, Apply(s, e, now))
  {
    if e.data.Some? {
      if e.data.value.CreateNamespace? {
        IssuedHash(crc, e);
      }
      forall k ensures ProxyFiled(Apply(s, e, now), k) && NamespaceFiled(crc, Apply(s, e, now), k) {
        assert ProxyFiled(s, k);
        DispatchKeepsFiled(crc, Stamp(s, e, now), e.data.value, now, k);
      }
    }
  }

  /** In every reachable state, a namespace's stored partition is the hash of its name. */
  lemma {:induction false} ReachableIsFiled(crc: Hash, log: seq<Entry>, clock: nat -> int)
    requires forall i | 0 <= i < |log| :: Issued(crc, log[i])
    ensures Filed(crc, Replay(Initial, log, clock))
  {
    if log != [] {
      var k := |log| - 1;
      ReachableIsFiled(crc, log[..k], clock);
      ApplyKeepsFiled(crc, Replay(Initial, log[..k], clock), log[k], clock(k));
    }
  }

  // ----- Reading the state machine -----

  /** The list holds the entries of the map in the order of the keys. */
  ghost predicate InOrderOf(list: seq<ProxyEntry>, proxies: map<string, ProxyEntry>, keys: seq<string>) {
    && Enumerates(keys, proxies.Keys) && |list| == |keys|
    && forall i | 0 <= i < |keys| :: list[i] == proxies[keys[i]]
  }

  method GetAllProxies(proxies: map<string, ProxyEntry>) returns (list: seq<ProxyEntry>)
    ensures exists keys :: InOrderOf(list, proxies, keys)
  {
    list := [];
    ghost var keys: seq<string> := [];
    var todo := proxies.Keys;
    while todo != {}
      invariant todo <= proxies.Keys && Enumerates(keys, proxies.Keys - todo) && |list| == |keys|
      invariant forall i | 0 <= i < |keys| :: keys[i] in proxies && list[i] == proxies[keys[i]]
      decreases todo
    {
      var k :| k in todo;
      list, keys := list + [proxies[k]], keys + [k];
      todo := todo - {k};
    }
    assert InOrderOf(list, proxies, keys);
  }

  /** A listing of the map's entries lists the registered ids. */
  lemma FiledIds(crc: Hash, s: State, list: seq<ProxyEntry>, keys: seq<string>)
    requires Filed(crc, s) && InOrderOf(list, s.proxies, keys)
    ensures Ids(list) == keys && Lists(keys, s)
  {
    forall i | 0 <= i < |keys| ensures Ids(list)[i] == keys[i] {
      assert ProxyFiled(s, keys[i]);
    }
  }

  lemma {:induction false} ListingLength(keys: seq<string>, domain: set<string>)
    requires Enumerates(keys, domain)
    ensures |keys| == |domain|
  {
    if keys == [] {
      assert domain == {};
    } else {
      var k := keys[|keys| - 1];
      var rest := keys[..|keys| - 1];
      assert keys == rest + [k];
      ListingLength(rest, domain - {k});
    }
  }

  /** The command does not depend on the order in which the map was read. */
  method CreateNamespace(crc: Hash, s: State, req: CreateRequest) returns (r: Result<Command, LookupResult>)
    requires Filed(crc, s)
    ensures forall ids | Lists(ids, s) :: r == CreateCommand(crc, ids, req)
    ensures r.Success? <==> 1 <= |s.proxies| <= PARTITIONS
  {
    var p := HashNamespace(crc, req.namespace);
    var list := GetAllProxies(s.proxies);
    ghost var keys :| InOrderOf(list, s.proxies, keys);
    var owner := GetProxyForPartitionFromSet(p, list);
    FiledIds(crc, s, list, keys);
    ListingLength(keys, s.proxies.Keys);
    LookupOutcomes(p, keys);
    forall ids | Lists(ids, s) ensures ProxyFor(p, ids) == ProxyFor(p, keys) {
      OnlyTheSetMatters(ids, keys, "", p);
    }
    match owner {
      case Owner(id) =>
        var config := if req.config.Some? then req.config.value else map[];
        r := Success(Command.CreateNamespace(req.namespace, p, id, config, req.principal));
      case _ => r := Failure(owner);
    }
  }

  // ----- Handing namespaces to proxies -----

  datatype Assignment = Assignment(namespace: string, partitionId: int, config: Bag, version: int)

  function AssignmentOf(e: NamespaceEntry): Assignment {
    Assignment(e.name, e.partitionId, e.config, 1)
  }

  predicate InSome(p: int, ranges: seq<Range>) {
    exists i :: 0 <= i < |ranges| && InRange(p, ranges[i])
  }

  method FallsInto(p: int, ranges: seq<Range>) returns (found: bool)
    ensures found <==> InSome(p, ranges)
  {
    for i := 0 to |ranges|
      invariant forall j | 0 <= j < i :: !InRange(p, ranges[j])
    {
      if p >= ranges[i].start && p <= ranges[i].end {
        assert InRange(p, ranges[i]);
        return true;
      }
    }
    found := false;
  }

  ghost predicate Selects(keys: seq<string>, namespaces: map<string, NamespaceEntry>, ranges: seq<Range>,
                          todo: set<string>) {
    && Distinct(keys)
    && forall k :: k in keys <==> k in namespaces && k !in todo && InSome(namespaces[k].partitionId, ranges)
  }

  /** The list assigns the namespaces that fall into the ranges, each once. */
  ghost predicate AssignsFor(list: seq<Assignment>, namespaces: map<string, NamespaceEntry>, ranges: seq<Range>,
                             keys: seq<string>) {
    && Selects(keys, namespaces, ranges, {}) && |list| == |keys|
    && forall i | 0 <= i < |keys| :: keys[i] in namespaces && list[i] == AssignmentOf(namespaces[keys[i]])
  }

  /** One assignment for each namespace whose partition falls into one of the ranges. */
  method GetNamespacesForRanges(namespaces: map<string, NamespaceEntry>, ranges: seq<Range>)
    returns (list: seq<Assignment>)
    ensures exists keys :: AssignsFor(list, namespaces, ranges, keys)
  {
    list := [];
    ghost var keys: seq<string> := [];
    var todo := namespaces.Keys;
    while todo != {}
      invariant todo <= namespaces.Keys && Selects(keys, namespaces, ranges, todo) && |list| == |keys|
      invariant forall i | 0 <= i < |keys| :: keys[i] in namespaces && list[i] == AssignmentOf(namespaces[keys[i]])
      decreases todo
    {
      var k :| k in todo;
      var found := FallsInto(namespaces[k].partitionId, ranges);
      if found {
        list, keys := list + [AssignmentOf(namespaces[k])], keys + [k];
      }
      todo := todo - {k};
    }
    assert AssignsFor(list, namespaces, ranges, keys);
  }

  lemma InSomeIs(p: int, ranges: seq<Range>)
    requires |ranges| <= 1
    ensures InSome(p, ranges) <==> ranges != [] && InRange(p, ranges[0])
  {
  }

  /**
  However many proxies are registered, exactly one of them is handed a namespace: the one whose range holds the
  hash of its name, which for up to 256 proxies is the one the lookup names.
  */
  lemma OneProxyServes(crc: Hash, s: State, ids: seq<string>, namespace: string)
    requires Filed(crc, s) && Lists(ids, s) && s.proxies != map[] && namespace in s.namespaces
    ensures var holder := HolderOf(HashNamespace(crc, namespace), ids);
      && holder.Some? && holder.value in s.proxies
      && (forall id :: InSome(s.namespaces[namespace].partitionId, RangesFor(id, ids)) <==> holder == Some(id))
      && (|s.proxies| <= PARTITIONS ==> ProxyFor(HashNamespace(crc, namespace), ids) == Owner(holder.value))
  {
    var p := HashNamespace(crc, namespace);
    ListingLength(ids, s.proxies.Keys);
    assert NamespaceFiled(crc, s, namespace);
    var some :| some in s.proxies;
    assert some in ids;
    HolderIsOwner(ids, p);
    forall id ensures InSome(p, RangesFor(id, ids)) <==> HolderOf(p, ids) == Some(id) {
      RangesMatchHolder(ids, id, p);
      InSomeIs(p, RangesFor(id, ids));
    }
  }

  /**
  What a proxy, registered or not, is told about its namespaces: all those whose partition it holds, and no others,
  each once.
  */
  method InitialNamespaces(crc: Hash, s: State, proxyId: string) returns (list: seq<Assignment>, ranges: seq<Range>)
    requires Filed(crc, s)
    ensures forall ids | Lists(ids, s) :: ranges == RangesFor(proxyId, ids)
    ensures forall ids, k | Lists(ids, s) && k in s.namespaces ::
              Names(list, k) <==> HolderOf(HashNamespace(crc, k), ids) == Some(proxyId)
    ensures forall i, j | 0 <= i < j < |list| :: list[i].namespace != list[j].namespace
    ensures forall i | 0 <= i < |list| ::
              list[i].namespace in s.namespaces && list[i] == AssignmentOf(s.namespaces[list[i].namespace])
  {
    var proxies := GetAllProxies(s.proxies);
    ghost var order :| InOrderOf(proxies, s.proxies, order);
    FiledIds(crc, s, proxies, order);
    ranges := ComputeRangesFromProxySet(proxyId, proxies);
    list := GetNamespacesForRanges(s.namespaces, ranges);
    ghost var keys :| AssignsFor(list, s.namespaces, ranges, keys);
    forall ids | Lists(ids, s) ensures ranges == RangesFor(proxyId, ids) {
      OnlyTheSetMatters(ids, order, proxyId, 0);
    }
    forall ids | Lists(ids, s)
      ensures forall k | k in s.namespaces ::
                Names(list, k) <==> HolderOf(HashNamespace(crc, k), ids) == Some(proxyId)
    {
      ServedExactly(crc, s, ids, proxyId, list, keys);
    }
    ServedExactly(crc, s, order, proxyId, list, keys);
  }

  ghost predicate Names(list: seq<Assignment>, k: string) {
    exists i :: 0 <= i < |list| && list[i].namespace == k
  }

  lemma ServedExactly(crc: Hash, s: State, ids: seq<string>, proxyId: string, list: seq<Assignment>, keys: seq<string>)
    requires Filed(crc, s) && Lists(ids, s)
    requires AssignsFor(list, s.namespaces, RangesFor(proxyId, ids), keys)
    ensures forall i | 0 <= i < |list| :: list[i].namespace == keys[i]
    ensures forall k | k in s.namespaces ::
              Names(list, k) <==> HolderOf(HashNamespace(crc, k), ids) == Some(proxyId)
  {
    forall i | 0 <= i < |list| ensures list[i].namespace == keys[i] {
      assert NamespaceFiled(crc, s, keys[i]);
    }
    forall k | k in s.namespaces
      ensures Names(list, k) <==> HolderOf(HashNamespace(crc, k), ids) == Some(proxyId)
    {
      assert NamespaceFiled(crc, s, k);
      RangesMatchHolder(ids, proxyId, HashNamespace(crc, k));
      InSomeIs(HashNamespace(crc, k), RangesFor(proxyId, ids));
      if k in keys {
        var i :| 0 <= i < |keys| && keys[i] == k;
        assert list[i].namespace == k;
      }
    }
  }
}
