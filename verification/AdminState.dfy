/**
The admin cluster's replicated state and what a committed command does to it.

`now` is the replica's own clock, read while applying; every field it reaches is
a wall-clock field (see AdminReplication.Agree).
*/
module AdminState {
  import opened Wrappers

  type Bag = map<string, string>

  datatype NamespaceEntry = NamespaceEntry(
    name: string, description: string, partitionId: int, assignedProxy: string, config: Bag, createdBy: string,
    createdAt: int, updatedAt: int)

  datatype ProxyEntry = ProxyEntry(
    proxyId: string, address: string, region: string, version: string, capabilities: seq<string>, metadata: Bag,
    status: string, registeredAt: int, lastSeen: int, resources: Option<string>)

  datatype LauncherEntry = LauncherEntry(
    launcherId: string, address: string, region: string, version: string, capabilities: seq<string>,
    processTypes: seq<string>, maxProcesses: int, metadata: Bag, status: string, registeredAt: int, lastSeen: int,
    availableSlots: int, resources: Option<string>)

  datatype PatternEntry = PatternEntry(
    patternId: string, namespace: string, patternType: string, launcherId: string, config: Bag, status: string,
    assignedAt: int, updatedAt: int)

  datatype State = State(
    version: int,
    namespaces: map<string, NamespaceEntry>,
    proxies: map<string, ProxyEntry>,
    launchers: map<string, LauncherEntry>,
    patterns: map<string, PatternEntry>,
    lastAppliedIndex: int,
    lastAppliedTerm: int,
    stateUpdatedAt: int)

  const Initial: State := State(1, map[], map[], map[], map[], 0, 0, 0)

  datatype Command =
    | CreateNamespace(namespace: string, partitionId: int, assignedProxy: string, config: Bag, principal: string)
    | RegisterProxy(proxyId: string, address: string, region: string, version: string, capabilities: seq<string>,
                    metadata: Bag)
    | RegisterLauncher(launcherId: string, address: string, region: string, version: string, capabilities: seq<string>,
                       processTypes: seq<string>, maxProcesses: int, metadata: Bag)
    | AssignPattern(patternId: string, namespace: string, patternType: string, launcherId: string, config: Bag)
    | UpdateProxyStatus(proxyId: string, status: string, lastSeen: int, resources: Option<string>)
    | UpdateLauncherStatus(launcherId: string, status: string, lastSeen: int, availableSlots: int,
                           resources: Option<string>)
    | UnknownType

  /** A committed log entry; data that does not unmarshal carries no command. */
  datatype Entry = Entry(index: int, term: int, data: Option<Command>)

  datatype ApplyError = BadData | UnknownCommand | ProxyNotRegistered(id: string) | LauncherNotRegistered(id: string)

  // ----- The six handlers, on values -----

  function NamespaceAfter(old_: Option<NamespaceEntry>, c: Command, now: int): NamespaceEntry
    requires c.CreateNamespace?
  {
    match old_
    case Some(e) => e.(config := c.config, assignedProxy := c.assignedProxy, updatedAt := now)
    case None => NamespaceEntry(c.namespace, "Created by " + c.principal, c.partitionId, c.assignedProxy, c.config,
                                c.principal, now, now)
  }

  function ProxyAfter(old_: Option<ProxyEntry>, c: Command, now: int): ProxyEntry
    requires c.RegisterProxy?
  {
    match old_
    case Some(e) => e.(address := c.address, version := c.version, capabilities := c.capabilities,
                       metadata := c.metadata, status := "healthy", lastSeen := now)
    case None => ProxyEntry(c.proxyId, c.address, c.region, c.version, c.capabilities, c.metadata, "healthy", now, now,
                            None)
  }

  function LauncherAfter(old_: Option<LauncherEntry>, c: Command, now: int): LauncherEntry
    requires c.RegisterLauncher?
  {
    match old_
    case Some(e) => e.(address := c.address, version := c.version, capabilities := c.capabilities,
                       processTypes := c.processTypes, maxProcesses := c.maxProcesses, metadata := c.metadata,
                       status := "healthy", lastSeen := now, availableSlots := c.maxProcesses)
    case None => LauncherEntry(c.launcherId, c.address, c.region, c.version, c.capabilities, c.processTypes,
                               c.maxProcesses, c.metadata, "healthy", now, now, c.maxProcesses, None)
  }

  function PatternAfter(old_: Option<PatternEntry>, c: Command, now: int): PatternEntry
    requires c.AssignPattern?
  {
    match old_
    case Some(e) => e.(launcherId := c.launcherId, config := c.config, updatedAt := now)
    case None => PatternEntry(c.patternId, c.namespace, c.patternType, c.launcherId, c.config, "running", now, now)
  }

  function ProxyBeat(e: ProxyEntry, c: Command): ProxyEntry
    requires c.UpdateProxyStatus?
  {
    e.(status := c.status, lastSeen := c.lastSeen, resources := if c.resources.Some? then c.resources else e.resources)
  }

  function LauncherBeat(e: LauncherEntry, c: Command): LauncherEntry
    requires c.UpdateLauncherStatus?
  {
    e.(status := c.status, lastSeen := c.lastSeen, availableSlots := c.availableSlots,
       resources := if c.resources.Some? then c.resources else e.resources)
  }

  function Decremented(slots: int): int {
    if slots > 0 then slots - 1 else slots
  }

  function TakeSlot(e: LauncherEntry): LauncherEntry {
    e.(availableSlots := Decremented(e.availableSlots))
  }

  function Lookup<K, V>(m: map<K, V>, k: K): Option<V> {
    if k in m then Some(m[k]) else None
  }

  function WithPattern(s: State, c: Command, now: int): State
    requires c.AssignPattern?
  {
    s.(patterns := s.patterns[c.patternId := PatternAfter(Lookup(s.patterns, c.patternId), c, now)],
       launchers := if c.patternId !in s.patterns && c.launcherId in s.launchers
                    then s.launchers[c.launcherId := TakeSlot(s.launchers[c.launcherId])]
                    else s.launchers)
  }

  function Dispatch(s: State, c: Command, now: int): State {
    match c
    case CreateNamespace(ns, _, _, _, _) =>
      s.(namespaces := s.namespaces[ns := NamespaceAfter(Lookup(s.namespaces, ns), c, now)])
    case RegisterProxy(id, _, _, _, _, _) => s.(proxies := s.proxies[id := ProxyAfter(Lookup(s.proxies, id), c, now)])
    case RegisterLauncher(id, _, _, _, _, _, _, _) =>
      s.(launchers := s.launchers[id := LauncherAfter(Lookup(s.launchers, id), c, now)])
    case AssignPattern(_, _, _, _, _) => WithPattern(s, c, now)
    case UpdateProxyStatus(id, _, _, _) =>
      if id in s.proxies then s.(proxies := s.proxies[id := ProxyBeat(s.proxies[id], c)]) else s
    case UpdateLauncherStatus(id, _, _, _, _) =>
      if id in s.launchers then s.(launchers := s.launchers[id := LauncherBeat(s.launchers[id], c)]) else s
    case UnknownType => s
  }

  function DispatchError(s: State, c: Command): Option<ApplyError> {
    match c
    case UpdateProxyStatus(id, _, _, _) => if id in s.proxies then None else Some(ProxyNotRegistered(id))
    case UpdateLauncherStatus(id, _, _, _, _) => if id in s.launchers then None else Some(LauncherNotRegistered(id))
    case UnknownType => Some(UnknownCommand)
    case _ => None
  }

  function Stamp(s: State, e: Entry, now: int): State {
    s.(lastAppliedIndex := e.index, lastAppliedTerm := e.term, stateUpdatedAt := now)
  }

  /** AdminStateMachine.Apply; the metadata moves on even when the handler reports an error. */
  function Apply(s: State, e: Entry, now: int): State {
    if e.data.None? then s else Dispatch(Stamp(s, e, now), e.data.value, now)
  }

  /** A replica applies a log, reading its clock once for each entry. */
  function Replay(s: State, log: seq<Entry>, clock: nat -> int): State {
    if log == [] then s
    else Apply(Replay(s, log[..|log| - 1], clock), log[|log| - 1], clock(|log| - 1))
  }
}

/** What all replicas agree on, however their clocks run, and how snapshots fit in. */
module AdminReplication {
  import opened Wrappers
  import opened AdminState

  // ----- Everything but the wall clock -----

  /** Proxies and launchers whose last contact was a heartbeat: its time comes from the log. */
  datatype Beats = Beats(proxies: set<string>, launchers: set<string>)

  predicate NamespaceAlike(x: NamespaceEntry, y: NamespaceEntry) {
    x.(createdAt := 0, updatedAt := 0) == y.(createdAt := 0, updatedAt := 0)
  }

  predicate ProxyAlike(x: ProxyEntry, y: ProxyEntry, beat: bool) {
    x.(registeredAt := 0, lastSeen := 0) == y.(registeredAt := 0, lastSeen := 0) && (beat ==> x.lastSeen == y.lastSeen)
  }

  predicate LauncherAlike(x: LauncherEntry, y: LauncherEntry, beat: bool) {
    x.(registeredAt := 0, lastSeen := 0) == y.(registeredAt := 0, lastSeen := 0) && (beat ==> x.lastSeen == y.lastSeen)
  }

  predicate PatternAlike(x: PatternEntry, y: PatternEntry) {
    x.(assignedAt := 0, updatedAt := 0) == y.(assignedAt := 0, updatedAt := 0)
  }

  predicate NamespaceAgrees(s: State, t: State, k: string) {
    && (k in s.namespaces <==> k in t.namespaces)
    && (k in s.namespaces ==> NamespaceAlike(s.namespaces[k], t.namespaces[k]))
  }

  predicate ProxyAgrees(s: State, t: State, b: Beats, k: string) {
    && (k in s.proxies <==> k in t.proxies)
    && (k in s.proxies ==> ProxyAlike(s.proxies[k], t.proxies[k], k in b.proxies))
  }

  predicate LauncherAgrees(s: State, t: State, b: Beats, k: string) {
    && (k in s.launchers <==> k in t.launchers)
    && (k in s.launchers ==> LauncherAlike(s.launchers[k], t.launchers[k], k in b.launchers))
  }

  predicate PatternAgrees(s: State, t: State, k: string) {
    && (k in s.patterns <==> k in t.patterns)
    && (k in s.patterns ==> PatternAlike(s.patterns[k], t.patterns[k]))
  }

  predicate HeaderAgrees(s: State, t: State) {
    s.version == t.version && s.lastAppliedIndex == t.lastAppliedIndex && s.lastAppliedTerm == t.lastAppliedTerm
  }

  /** The two states differ at most in fields that were read from a clock while applying. */
  ghost predicate Agree(s: State, t: State, b: Beats) {
    && HeaderAgrees(s, t)
    && (forall k :: NamespaceAgrees(s, t, k)) && (forall k :: ProxyAgrees(s, t, b, k))
    && (forall k :: LauncherAgrees(s, t, b, k)) && (forall k :: PatternAgrees(s, t, k))
  }

  /** A registration reads the clock; a heartbeat brings its time along. */
  function BeatsAfter(b: Beats, c: Command): Beats {
    match c
    case RegisterProxy(id, _, _, _, _, _) => b.(proxies := b.proxies - {id})
    case UpdateProxyStatus(id, _, _, _) => b.(proxies := b.proxies + {id})
    case RegisterLauncher(id, _, _, _, _, _, _, _) => b.(launchers := b.launchers - {id})
    case UpdateLauncherStatus(id, _, _, _, _) => b.(launchers := b.launchers + {id})
    case _ => b
  }

  function BeatsOver(b: Beats, log: seq<Entry>): Beats {
    if log == [] then b
    else
      var before := BeatsOver(b, log[..|log| - 1]);
      var e := log[|log| - 1];
      if e.data.None? then before else BeatsAfter(before, e.data.value)
  }

  lemma NamespaceStep(s: State, t: State, b: Beats, c: Command, m: int, n: int, k: string)
    requires Agree(s, t, b)
    ensures NamespaceAgrees(Dispatch(s, c, m), Dispatch(t, c, n), k)
  {
    assert NamespaceAgrees(s, t, k);
  }

  /** What a command makes of one proxy's entry. */
  function ProxyNext(o: Option<ProxyEntry>, c: Command, now: int, k: string): Option<ProxyEntry> {
    if c.RegisterProxy? && c.proxyId == k then Some(ProxyAfter(o, c, now))
    else if c.UpdateProxyStatus? && c.proxyId == k && o.Some? then Some(ProxyBeat(o.value, c))
    else o
  }

  lemma ProxyNextIs(s: State, c: Command, now: int, k: string)
    ensures Lookup(Dispatch(s, c, now).proxies, k) == ProxyNext(Lookup(s.proxies, k), c, now, k)
  {
    match c
    case RegisterProxy(_, _, _, _, _, _) =>
    case UpdateProxyStatus(_, _, _, _) =>
    case _ => assert Dispatch(s, c, now).proxies == s.proxies;
  }

  lemma ProxyNextAlike(x: ProxyEntry, y: ProxyEntry, b: Beats, c: Command, m: int, n: int, k: string)
    requires ProxyAlike(x, y, k in b.proxies)
    ensures ProxyAlike(ProxyNext(Some(x), c, m, k).value, ProxyNext(Some(y), c, n, k).value,
                       k in BeatsAfter(b, c).proxies)
  {
  }

  lemma ProxyStep(s: State, t: State, b: Beats, c: Command, m: int, n: int, k: string)
    requires Agree(s, t, b)
    ensures ProxyAgrees(Dispatch(s, c, m), Dispatch(t, c, n), BeatsAfter(b, c), k)
  {
    assert ProxyAgrees(s, t, b, k);
    ProxyNextIs(s, c, m, k);
    ProxyNextIs(t, c, n, k);
    if k in s.proxies { ProxyNextAlike(s.proxies[k], t.proxies[k], b, c, m, n, k); }
  }

  /** The command takes a slot of launcher k: it assigns a pattern that had not been assigned. */
  predicate TakesSlot(s: State, c: Command, k: string) {
    c.AssignPattern? && c.launcherId == k && c.patternId !in s.patterns
  }

  /** What a command makes of one launcher's entry. */
  function LauncherNext(o: Option<LauncherEntry>, takes: bool, c: Command, now: int, k: string): Option<LauncherEntry> {
    if c.RegisterLauncher? && c.launcherId == k then Some(LauncherAfter(o, c, now))
    else if o.None? then None
    else if c.UpdateLauncherStatus? && c.launcherId == k then Some(LauncherBeat(o.value, c))
    else if takes then Some(TakeSlot(o.value))
    else o
  }

  lemma LauncherNextIs(s: State, c: Command, now: int, k: string)
    ensures Lookup(Dispatch(s, c, now).launchers, k) ==
            LauncherNext(Lookup(s.launchers, k), TakesSlot(s, c, k), c, now, k)
  {
    match c
    case RegisterLauncher(_, _, _, _, _, _, _, _) =>
    case UpdateLauncherStatus(_, _, _, _, _) =>
    case AssignPattern(_, _, _, _, _) =>
    case _ => assert Dispatch(s, c, now).launchers == s.launchers;
  }

  lemma LauncherNextAlike(x: LauncherEntry, y: LauncherEntry, takes: bool, b: Beats, c: Command, m: int, n: int,
                          k: string)
    requires LauncherAlike(x, y, k in b.launchers) && (takes ==> c.AssignPattern?)
    ensures LauncherAlike(LauncherNext(Some(x), takes, c, m, k).value, LauncherNext(Some(y), takes, c, n, k).value,
                          k in BeatsAfter(b, c).launchers)
  {
  }

  lemma LauncherStep(s: State, t: State, b: Beats, c: Command, m: int, n: int, k: string)
    requires Agree(s, t, b)
    ensures LauncherAgrees(Dispatch(s, c, m), Dispatch(t, c, n), BeatsAfter(b, c), k)
  {
    assert LauncherAgrees(s, t, b, k);
    if c.AssignPattern? { assert PatternAgrees(s, t, c.patternId); }
    LauncherNextIs(s, c, m, k);
    LauncherNextIs(t, c, n, k);
    if k in s.launchers { LauncherNextAlike(s.launchers[k], t.launchers[k], TakesSlot(s, c, k), b, c, m, n, k); }
  }

  lemma PatternStep(s: State, t: State, b: Beats, c: Command, m: int, n: int, k: string)
    requires Agree(s, t, b)
    ensures PatternAgrees(Dispatch(s, c, m), Dispatch(t, c, n), k)
  {
    assert PatternAgrees(s, t, k);
  }

  lemma DispatchAgrees(s: State, t: State, b: Beats, c: Command, m: int, n: int)
    requires Agree(s, t, b)
    ensures Agree(Dispatch(s, c, m), Dispatch(t, c, n), BeatsAfter(b, c))
  {
    var s1, t1 := Dispatch(s, c, m), Dispatch(t, c, n);
    forall k ensures NamespaceAgrees(s1, t1, k) { NamespaceStep(s, t, b, c, m, n, k); }
    forall k ensures ProxyAgrees(s1, t1, BeatsAfter(b, c), k) { ProxyStep(s, t, b, c, m, n, k); }
    forall k ensures LauncherAgrees(s1, t1, BeatsAfter(b, c), k) { LauncherStep(s, t, b, c, m, n, k); }
    forall k ensures PatternAgrees(s1, t1, k) { PatternStep(s, t, b, c, m, n, k); }
  }

  lemma StampAgrees(s: State, t: State, b: Beats, e: Entry, m: int, n: int)
    requires Agree(s, t, b)
    ensures Agree(Stamp(s, e, m), Stamp(t, e, n), b)
  {
    var s1, t1 := Stamp(s, e, m), Stamp(t, e, n);
    forall k ensures NamespaceAgrees(s1, t1, k) { assert NamespaceAgrees(s, t, k); }
    forall k ensures ProxyAgrees(s1, t1, b, k) { assert ProxyAgrees(s, t, b, k); }
    forall k ensures LauncherAgrees(s1, t1, b, k) { assert LauncherAgrees(s, t, b, k); }
    forall k ensures PatternAgrees(s1, t1, k) { assert PatternAgrees(s, t, k); }
  }

  lemma ApplyAgrees(s: State, t: State, b: Beats, e: Entry, m: int, n: int)
    requires Agree(s, t, b)
    ensures Agree(Apply(s, e, m), Apply(t, e, n), if e.data.None? then b else BeatsAfter(b, e.data.value))
  {
    if e.data.Some? {
      StampAgrees(s, t, b, e, m, n);
      DispatchAgrees(Stamp(s, e, m), Stamp(t, e, n), b, e.data.value, m, n);
    }
  }

  /**
  Replicas that start in agreement and apply the same log stay in agreement, whatever their clocks show; they agree
  even on the time of last contact of every proxy and launcher that was last heard of by a heartbeat.
  */
  lemma {:induction false} ReplicasAgree(s: State, t: State, b: Beats, log: seq<Entry>, clock: nat -> int,
                                         other: nat -> int)
    requires Agree(s, t, b)
    ensures Agree(Replay(s, log, clock), Replay(t, log, other), BeatsOver(b, log))
  {
    if log != [] {
      var k := |log| - 1;
      ReplicasAgree(s, t, b, log[..k], clock, other);
      ApplyAgrees(Replay(s, log[..k], clock), Replay(t, log[..k], other), BeatsOver(b, log[..k]), log[k], clock(k),
        other(k));
    }
  }

  // ----- Snapshots -----

  /** The clock as seen by a replica that begins at entry k. */
  function Later(clock: nat -> int, k: nat): nat -> int {
    (i: nat) => clock(i + k)
  }

  /** Replay is compositional: a log can be cut anywhere. */
  lemma {:induction false} ReplaySplit(s: State, prefix: seq<Entry>, suffix: seq<Entry>, clock: nat -> int)
    ensures Replay(s, prefix + suffix, clock) ==
            Replay(Replay(s, prefix, clock), suffix, Later(clock, |prefix|))
    decreases |suffix|
  {
    if suffix == [] {
      assert prefix + suffix == prefix;
    } else {
      var k := |suffix| - 1;
      ReplaySplit(s, prefix, suffix[..k], clock);
      assert (prefix + suffix)[..|prefix| + k] == prefix + suffix[..k];
      assert (prefix + suffix)[|prefix| + k] == suffix[k];
    }
  }

  lemma {:induction false} BeatsSplit(b: Beats, prefix: seq<Entry>, suffix: seq<Entry>)
    ensures BeatsOver(b, prefix + suffix) == BeatsOver(BeatsOver(b, prefix), suffix)
    decreases |suffix|
  {
    if suffix == [] {
      assert prefix + suffix == prefix;
    } else {
      var k := |suffix| - 1;
      BeatsSplit(b, prefix, suffix[..k]);
      assert (prefix + suffix)[..|prefix| + k] == prefix + suffix[..k];
    }
  }

  const NoBeats := Beats({}, {})

  /** The values of a snapshot taken at any point of the log, replayed over the rest, agree with the whole log. */
  lemma ValuesAgree(prefix: seq<Entry>, suffix: seq<Entry>, taker: nat -> int, restorer: nat -> int, whole: nat -> int)
    ensures Agree(Replay(Replay(Initial, prefix, taker), suffix, restorer), Replay(Initial, prefix + suffix, whole),
                  BeatsOver(NoBeats, prefix + suffix))
  {
    ReplaySplit(Initial, prefix, suffix, whole);
    BeatsSplit(NoBeats, prefix, suffix);
    var b := BeatsOver(NoBeats, prefix);
    ReplicasAgree(Initial, Initial, NoBeats, prefix, taker, whole);
    ReplicasAgree(Replay(Initial, prefix, taker), Replay(Initial, prefix, whole), b, suffix, restorer,
      Later(whole, |prefix|));
  }

  // ----- Applying a command twice -----

  /** Agreement that also leaves out the applied index and term. */
  ghost predicate AgreeButIndex(s: State, t: State, b: Beats) {
    Agree(s.(lastAppliedIndex := 0, lastAppliedTerm := 0), t.(lastAppliedIndex := 0, lastAppliedTerm := 0), b)
  }

  /** Every time of last contact but that of an entry the command registers. */
  function AllBeatsBut(t: State, c: Command): Beats {
    BeatsAfter(Beats(t.proxies.Keys, t.launchers.Keys), c)
  }

  lemma TwiceAt(s: State, c: Command, m: int, n: int, k: string)
    ensures var t := Dispatch(s, c, m); var u := Dispatch(t, c, n);
      NamespaceAgrees(t, u, k) && PatternAgrees(t, u, k)
  {
  }

  lemma ProxyTwice(s: State, c: Command, m: int, n: int, k: string)
    ensures var t := Dispatch(s, c, m); ProxyAgrees(t, Dispatch(t, c, n), AllBeatsBut(t, c), k)
  {
    ProxyNextIs(s, c, m, k);
    ProxyNextIs(Dispatch(s, c, m), c, n, k);
  }

  lemma LauncherTwice(s: State, c: Command, m: int, n: int, k: string)
    ensures var t := Dispatch(s, c, m); LauncherAgrees(t, Dispatch(t, c, n), AllBeatsBut(t, c), k)
  {
    LauncherNextIs(s, c, m, k);
    LauncherNextIs(Dispatch(s, c, m), c, n, k);
    assert !TakesSlot(Dispatch(s, c, m), c, k);
  }

  lemma DispatchTwice(s: State, c: Command, m: int, n: int)
    ensures var t := Dispatch(s, c, m); Agree(t, Dispatch(t, c, n), AllBeatsBut(t, c))
  {
    var t := Dispatch(s, c, m);
    var u, b := Dispatch(t, c, n), AllBeatsBut(t, c);
    forall k ensures NamespaceAgrees(t, u, k) { TwiceAt(s, c, m, n, k); }
    forall k ensures ProxyAgrees(t, u, b, k) { ProxyTwice(s, c, m, n, k); }
    forall k ensures LauncherAgrees(t, u, b, k) { LauncherTwice(s, c, m, n, k); }
    forall k ensures PatternAgrees(t, u, k) { TwiceAt(s, c, m, n, k); }
  }

  /** Handlers neither read nor write the applied index. */
  lemma DispatchStamped(s: State, c: Command, f: Entry, n: int)
    ensures Dispatch(Stamp(s, f, n), c, n) == Stamp(Dispatch(s, c, n), f, n)
  {
  }

  /** Applying a command twice in a row is applying it once, clocks and applied index apart. */
  lemma ApplyTwice(s: State, e: Entry, f: Entry, m: int, n: int)
    requires e.data == f.data
    ensures var t := Apply(s, e, m);
      if e.data.None? then Apply(t, f, n) == t
      else AgreeButIndex(t, Apply(t, f, n), AllBeatsBut(t, e.data.value))
  {
    if e.data.Some? {
      var t, c := Apply(s, e, m), e.data.value;
      DispatchTwice(Stamp(s, e, m), c, m, n);
      DispatchStamped(t, c, f, n);
      IndexErased(t, Dispatch(t, c, n), AllBeatsBut(t, c), f, n);
    }
  }

  lemma IndexErased(t: State, u: State, b: Beats, f: Entry, n: int)
    requires Agree(t, u, b)
    ensures AgreeButIndex(t, Stamp(u, f, n), b)
  {
    var t1, u1 := t.(lastAppliedIndex := 0, lastAppliedTerm := 0),
                  Stamp(u, f, n).(lastAppliedIndex := 0, lastAppliedTerm := 0);
    forall k ensures NamespaceAgrees(t1, u1, k) { assert NamespaceAgrees(t, u, k); }
    forall k ensures ProxyAgrees(t1, u1, b, k) { assert ProxyAgrees(t, u, b, k); }
    forall k ensures LauncherAgrees(t1, u1, b, k) { assert LauncherAgrees(t, u, b, k); }
    forall k ensures PatternAgrees(t1, u1, k) { assert PatternAgrees(t, u, k); }
  }
}

/** Slot accounting: what a launcher's AvailableSlots means in terms of the log alone. */
module AdminSlots {
  import opened Wrappers
  import opened AdminState

  predicate RegistersLauncher(e: Entry, l: string) {
    e.data.Some? && e.data.value.RegisterLauncher? && e.data.value.launcherId == l
  }

  predicate Heartbeat(e: Entry, l: string) {
    e.data.Some? && e.data.value.UpdateLauncherStatus? && e.data.value.launcherId == l
  }

  predicate Assigns(e: Entry, p: string) {
    e.data.Some? && e.data.value.AssignPattern? && e.data.value.patternId == p
  }

  ghost predicate Registered(log: seq<Entry>, l: string) {
    exists i :: 0 <= i < |log| && RegistersLauncher(log[i], l)
  }

  ghost predicate Assigned(log: seq<Entry>, p: string) {
    exists i :: 0 <= i < |log| && Assigns(log[i], p)
  }

  /** Entry k reports `v` free slots for launcher l, and the report counts. */
  ghost predicate ReportAt(log: seq<Entry>, k: nat, l: string, v: int) {
    && k < |log|
    && ((RegistersLauncher(log[k], l) && v == log[k].data.value.maxProcesses)
        || (Heartbeat(log[k], l) && Registered(log[..k], l) && v == log[k].data.value.availableSlots))
  }

  /** Entry k assigns a pattern to l that no earlier entry assigned. */
  ghost predicate FirstAssignment(log: seq<Entry>, k: nat, l: string) {
    && k < |log| && log[k].data.Some? && log[k].data.value.AssignPattern? && log[k].data.value.launcherId == l
    && !Assigned(log[..k], log[k].data.value.patternId)
  }

  /** First assignments to l from entry k on. */
  ghost function FirstAssignments(log: seq<Entry>, k: nat, l: string): nat {
    if |log| <= k then 0
    else FirstAssignments(log[..|log| - 1], k, l) + if FirstAssignment(log, |log| - 1, l) then 1 else 0
  }

  /** What n decrements leave of v slots. */
  function Remaining(v: int, n: nat): int {
    if v < 0 then v else if n <= v then v - n else 0
  }

  lemma {:induction false} PatternsAreAssigned(log: seq<Entry>, clock: nat -> int, p: string)
    ensures p in Replay(Initial, log, clock).patterns <==> Assigned(log, p)
  {
    if log != [] {
      var n := |log| - 1;
      PatternsAreAssigned(log[..n], clock, p);
      assert Assigned(log, p) <==> Assigned(log[..n], p) || Assigns(log[n], p);
    }
  }

  lemma {:induction false} LaunchersAreRegistered(log: seq<Entry>, clock: nat -> int, l: string)
    ensures l in Replay(Initial, log, clock).launchers <==> Registered(log, l)
  {
    if log != [] {
      var n := |log| - 1;
      LaunchersAreRegistered(log[..n], clock, l);
      assert Registered(log, l) <==> Registered(log[..n], l) || RegistersLauncher(log[n], l);
    }
  }

  /**
  The free slots of a launcher are those of its last report less the first-time assignments
  since, but not below zero; a negative report stays as it is.
  */
  lemma {:induction false} SlotsAccounted(log: seq<Entry>, clock: nat -> int, k: nat, l: string, v: int)
    requires ReportAt(log, k, l, v)
    requires forall j | k < j < |log| :: !RegistersLauncher(log[j], l) && !Heartbeat(log[j], l)
    ensures l in Replay(Initial, log, clock).launchers
    ensures Replay(Initial, log, clock).launchers[l].availableSlots == Remaining(v, FirstAssignments(log, k + 1, l))
    decreases |log|
  {
    var n := |log| - 1;
    var s := Replay(Initial, log[..n], clock);
    LaunchersAreRegistered(log[..n], clock, l);
    if k < n {
      assert log[..n][..k] == log[..k];
      SlotsAccounted(log[..n], clock, k, l, v);
      if log[n].data.Some? && log[n].data.value.AssignPattern? {
        PatternsAreAssigned(log[..n], clock, log[n].data.value.patternId);
      }
    }
  }
}
