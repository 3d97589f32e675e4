/** What the stored entries mean in terms of the log alone: which command each field comes from. */
module AdminHistory {
  import opened Wrappers
  import opened AdminState
  import opened AdminSlots
  import Replication = AdminReplication

  function First(log: seq<Entry>, p: Entry -> bool): (i: Option<nat>)
    ensures i.Some? ==> i.value < |log| && p(log[i.value])
    ensures i.None? ==> forall k | 0 <= k < |log| :: !p(log[k])
  {
    if log == [] then None
    else
      var k := |log| - 1;
      var before := First(log[..k], p);
      if before.Some? then before else if p(log[k]) then Some(k) else None
  }

  function Last(log: seq<Entry>, p: Entry -> bool): (i: Option<nat>)
    ensures i.Some? ==> i.value < |log| && p(log[i.value])
    ensures i.None? ==> forall k | 0 <= k < |log| :: !p(log[k])
  {
    if log == [] then None
    else
      var k := |log| - 1;
      if p(log[k]) then Some(k) else Last(log[..k], p)
  }

  // ----- Namespaces -----

  predicate CreatesNamespace(e: Entry, name: string) {
    e.data.Some? && e.data.value.CreateNamespace? && e.data.value.namespace == name
  }

  function Creates(name: string): Entry -> bool {
    (e: Entry) => CreatesNamespace(e, name)
  }

  /** Identity, partition and creator come from the first creation; configuration and proxy from the last. */
  function NamespaceOf(log: seq<Entry>, clock: nat -> int, name: string): Option<NamespaceEntry> {
    var first, last := First(log, Creates(name)), Last(log, Creates(name));
    if first.None? || last.None? then None
    else
      var f, l := log[first.value].data.value, log[last.value].data.value;
      Some(NamespaceEntry(name, "Created by " + f.principal, f.partitionId, l.assignedProxy, l.config, f.principal,
                          clock(first.value), clock(last.value)))
  }

  lemma NamespaceStep(s: State, e: Entry, now: int, name: string)
    ensures Lookup(Apply(s, e, now).namespaces, name) ==
            if CreatesNamespace(e, name) then Some(NamespaceAfter(Lookup(s.namespaces, name), e.data.value, now))
            else Lookup(s.namespaces, name)
  {
  }

  lemma {:induction false} NamespaceHistory(log: seq<Entry>, clock: nat -> int, name: string)
    ensures Lookup(Replay(Initial, log, clock).namespaces, name) == NamespaceOf(log, clock, name)
  {
    if log != [] {
      var k := |log| - 1;
      NamespaceHistory(log[..k], clock, name);
      NamespaceStep(Replay(Initial, log[..k], clock), log[k], clock(k), name);
    }
  }

  // ----- Patterns -----

  function Assigning(id: string): Entry -> bool {
    (e: Entry) => Assigns(e, id)
  }

  /** Namespace and type come from the first assignment; launcher and configuration from the last. */
  function PatternOf(log: seq<Entry>, clock: nat -> int, id: string): Option<PatternEntry> {
    var first, last := First(log, Assigning(id)), Last(log, Assigning(id));
    if first.None? || last.None? then None
    else
      var f, l := log[first.value].data.value, log[last.value].data.value;
      Some(PatternEntry(id, f.namespace, f.patternType, l.launcherId, l.config, "running", clock(first.value),
                        clock(last.value)))
  }

  lemma PatternStep(s: State, e: Entry, now: int, id: string)
    ensures Lookup(Apply(s, e, now).patterns, id) ==
            if Assigns(e, id) then Some(PatternAfter(Lookup(s.patterns, id), e.data.value, now))
            else Lookup(s.patterns, id)
  {
  }

  lemma {:induction false} PatternHistory(log: seq<Entry>, clock: nat -> int, id: string)
    ensures Lookup(Replay(Initial, log, clock).patterns, id) == PatternOf(log, clock, id)
  {
    if log != [] {
      var k := |log| - 1;
      PatternHistory(log[..k], clock, id);
      PatternStep(Replay(Initial, log[..k], clock), log[k], clock(k), id);
    }
  }

  // ----- Proxies -----

  predicate RegistersProxy(e: Entry, id: string) {
    e.data.Some? && e.data.value.RegisterProxy? && e.data.value.proxyId == id
  }

  predicate ProxyHeartbeat(e: Entry, id: string) {
    e.data.Some? && e.data.value.UpdateProxyStatus? && e.data.value.proxyId == id
  }

  function ProxyRegistrations(id: string): Entry -> bool {
    (e: Entry) => RegistersProxy(e, id)
  }

  function ProxySightings(id: string): Entry -> bool {
    (e: Entry) => RegistersProxy(e, id) || ProxyHeartbeat(e, id)
  }

  function ProxyReports(id: string): Entry -> bool {
    (e: Entry) => ProxyHeartbeat(e, id) && e.data.value.resources.Some?
  }

  /** A report counts from the first registration on. */
  function ReportFrom(log: seq<Entry>, first: nat, p: Entry -> bool): Option<nat> {
    var r := Last(log, p);
    if r.Some? && r.value > first then r else None
  }

  /**
  Region and registration time come from the first registration, the address and what goes with it from the last
  one, health and last contact from the last registration or heartbeat, resources from the last heartbeat that
  carried any.
  */
  function ProxyOf(log: seq<Entry>, clock: nat -> int, id: string): Option<ProxyEntry> {
    var first, last := First(log, ProxyRegistrations(id)), Last(log, ProxyRegistrations(id));
    var seen := Last(log, ProxySightings(id));
    if first.None? || last.None? || seen.None? then None
    else
      var f, l, s := log[first.value].data.value, log[last.value].data.value, log[seen.value].data.value;
      var report := ReportFrom(log, first.value, ProxyReports(id));
      Some(ProxyEntry(id, l.address, f.region, l.version, l.capabilities, l.metadata,
                      if s.RegisterProxy? then "healthy" else s.status, clock(first.value),
                      if s.RegisterProxy? then clock(seen.value) else s.lastSeen,
                      if report.Some? then log[report.value].data.value.resources else None))
  }

  lemma ProxyStep(s: State, e: Entry, now: int, id: string)
    ensures Lookup(Apply(s, e, now).proxies, id) ==
            if RegistersProxy(e, id) then Some(ProxyAfter(Lookup(s.proxies, id), e.data.value, now))
            else if ProxyHeartbeat(e, id) && id in s.proxies then Some(ProxyBeat(s.proxies[id], e.data.value))
            else Lookup(s.proxies, id)
  {
    if e.data.Some? { Replication.ProxyNextIs(Stamp(s, e, now), e.data.value, now, id); }
  }

  lemma {:induction false} ProxyHistory(log: seq<Entry>, clock: nat -> int, id: string)
    ensures Lookup(Replay(Initial, log, clock).proxies, id) == ProxyOf(log, clock, id)
  {
    if log != [] {
      var k := |log| - 1;
      ProxyHistory(log[..k], clock, id);
      ProxyStep(Replay(Initial, log[..k], clock), log[k], clock(k), id);
    }
  }

  // ----- Launchers -----

  function LauncherRegistrations(id: string): Entry -> bool {
    (e: Entry) => RegistersLauncher(e, id)
  }

  function LauncherSightings(id: string): Entry -> bool {
    (e: Entry) => RegistersLauncher(e, id) || Heartbeat(e, id)
  }

  function LauncherReports(id: string): Entry -> bool {
    (e: Entry) => Heartbeat(e, id) && e.data.value.resources.Some?
  }

  /** The entry but for its free slots, which AdminSlots accounts for. */
  function SlotsErased(e: Option<LauncherEntry>): Option<LauncherEntry> {
    if e.Some? then Some(e.value.(availableSlots := 0)) else None
  }

  /** As for proxies; process types and limit come from the last registration. */
  function LauncherOf(log: seq<Entry>, clock: nat -> int, id: string): Option<LauncherEntry> {
    var first, last := First(log, LauncherRegistrations(id)), Last(log, LauncherRegistrations(id));
    var seen := Last(log, LauncherSightings(id));
    if first.None? || last.None? || seen.None? then None
    else
      var f, l, s := log[first.value].data.value, log[last.value].data.value, log[seen.value].data.value;
      var report := ReportFrom(log, first.value, LauncherReports(id));
      Some(LauncherEntry(id, l.address, f.region, l.version, l.capabilities, l.processTypes, l.maxProcesses, l.metadata,
                         if s.RegisterLauncher? then "healthy" else s.status, clock(first.value),
                         if s.RegisterLauncher? then clock(seen.value) else s.lastSeen, 0,
                         if report.Some? then log[report.value].data.value.resources else None))
  }

  lemma LauncherStep(s: State, e: Entry, now: int, id: string)
    ensures SlotsErased(Lookup(Apply(s, e, now).launchers, id)) ==
            if RegistersLauncher(e, id)
            then SlotsErased(Some(LauncherAfter(SlotsErased(Lookup(s.launchers, id)), e.data.value, now)))
            else if Heartbeat(e, id) && id in s.launchers
            then SlotsErased(Some(LauncherBeat(s.launchers[id].(availableSlots := 0), e.data.value)))
            else SlotsErased(Lookup(s.launchers, id))
  {
    if e.data.Some? { Replication.LauncherNextIs(Stamp(s, e, now), e.data.value, now, id); }
  }

  lemma {:induction false} LauncherHistory(log: seq<Entry>, clock: nat -> int, id: string)
    ensures SlotsErased(Lookup(Replay(Initial, log, clock).launchers, id)) == LauncherOf(log, clock, id)
  {
    if log != [] {
      var k := |log| - 1;
      LauncherHistory(log[..k], clock, id);
      LauncherStep(Replay(Initial, log[..k], clock), log[k], clock(k), id);
    }
  }

  // ----- Header and errors -----

  function Decodable(): Entry -> bool {
    (e: Entry) => e.data.Some?
  }

  /** The applied index and term are those of the last entry that could be decoded, failing or not. */
  lemma {:induction false} HeaderHistory(log: seq<Entry>, clock: nat -> int)
    ensures var s, last := Replay(Initial, log, clock), Last(log, Decodable());
      && s.version == 1
      && (if last.Some? then s.lastAppliedIndex == log[last.value].index && s.lastAppliedTerm == log[last.value].term
                             && s.stateUpdatedAt == clock(last.value)
          else s.lastAppliedIndex == 0 && s.lastAppliedTerm == 0 && s.stateUpdatedAt == 0)
  {
    if log != [] {
      var k := |log| - 1;
      HeaderHistory(log[..k], clock);
      HeaderStep(Replay(Initial, log[..k], clock), log[k], clock(k));
    }
  }

  lemma HeaderStep(s: State, e: Entry, now: int)
    ensures var t := Apply(s, e, now);
      && t.version == s.version
      && t.lastAppliedIndex == (if e.data.Some? then e.index else s.lastAppliedIndex)
      && t.lastAppliedTerm == (if e.data.Some? then e.term else s.lastAppliedTerm)
      && t.stateUpdatedAt == (if e.data.Some? then now else s.stateUpdatedAt)
  {
  }

  /** A command fails exactly if it is a heartbeat of somebody who has not registered, or of an unknown type. */
  lemma {:induction false} ErrorsExactly(log: seq<Entry>, clock: nat -> int, c: Command)
    ensures DispatchError(Replay(Initial, log, clock), c) ==
            match c
            case UpdateProxyStatus(id, _, _, _) =>
              if exists k :: 0 <= k < |log| && RegistersProxy(log[k], id) then None else Some(ProxyNotRegistered(id))
            case UpdateLauncherStatus(id, _, _, _, _) =>
              if exists k :: 0 <= k < |log| && RegistersLauncher(log[k], id) then None
              else Some(LauncherNotRegistered(id))
            case UnknownType => Some(UnknownCommand)
            case _ => None
  {
    match c
    case UpdateProxyStatus(id, _, _, _) => ProxyIsRegistered(log, clock, id);
    case UpdateLauncherStatus(id, _, _, _, _) => LaunchersAreRegistered(log, clock, id);
    case _ =>
  }

  lemma {:induction false} ProxyIsRegistered(log: seq<Entry>, clock: nat -> int, id: string)
    ensures id in Replay(Initial, log, clock).proxies <==> exists k :: 0 <= k < |log| && RegistersProxy(log[k], id)
  {
    if log != [] {
      var n := |log| - 1;
      ProxyIsRegistered(log[..n], clock, id);
      ProxyStep(Replay(Initial, log[..n], clock), log[n], clock(n), id);
      if k :| 0 <= k < n && RegistersProxy(log[..n][k], id) { assert RegistersProxy(log[k], id); }
      if k :| 0 <= k < |log| && RegistersProxy(log[k], id) { assert k == n || RegistersProxy(log[..n][k], id); }
    }
  }
}
