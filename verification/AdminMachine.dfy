/**
The state machine as the code has it: maps of references to entries that the
handlers mutate in place, a snapshot that copies deeply, and a restore that swaps
the whole state. Proved against the value-level semantics of AdminState.
*/
module EntryTable {
  import opened Wrappers
  import AdminState

  class Ref<V> {
    var v: V

    constructor (v: V)
      ensures this.v == v
    {
      this.v := v;
    }
  }

  /** A Go map from names to entries held by reference; `contents` is its meaning, `repr` the map and entries. */
  class Table<V> {
    var refs: map<string, Ref<V>>
    var isNil: bool
    ghost var contents: map<string, V>
    ghost var repr: set<object>

    ghost predicate Valid()
      reads this, repr
    {
      && this in repr && (isNil ==> refs == map[])
      && (forall j, k | j in refs && k in refs && j != k :: refs[j] != refs[k])
      && (forall k :: k in refs <==> k in contents)
      && (forall k | k in refs :: refs[k] in repr && refs[k].v == contents[k])
    }

    constructor ()
      ensures Valid() && contents == map[] && repr == {this} && !isNil
    {
      refs, contents, repr, isNil := map[], map[], {this}, false;
    }

    method Get(k: string) returns (v: Option<V>)
      requires Valid()
      ensures v == AdminState.Lookup(contents, k)
    {
      if k in refs {
        v := Some(refs[k].v);
      } else {
        v := None;
      }
    }

    /** Mutates the entry in place if there is one, and inserts a new one otherwise, which panics if the map is nil. */
    method Put(k: string, v: V) returns (ok: bool)
      requires Valid()
      modifies repr
      ensures Valid() && isNil == old(isNil) && (ok <==> !isNil || k in old(contents))
      ensures contents == if ok then old(contents)[k := v] else old(contents)
      ensures old(repr) <= repr && fresh(repr - old(repr))
    {
      ok := true;
      if k in refs {
        refs[k].v := v;
      } else if isNil {
        return false;
      } else {
        var r := new Ref(v);
        refs, repr := refs[k := r], repr + {r};
      }
      contents := contents[k := v];
    }

    /**
    A deep copy: no entry is shared. Merging, as protobuf clones, makes no map where there are no entries; gob
    keeps what there is.
    */
    method Clone(merge: bool) returns (t: Table<V>)
      requires Valid()
      ensures t.Valid() && t.contents == contents && fresh(t.repr)
      ensures t.isNil == if merge then contents == map[] else isNil
    {
      t := new Table();
      var todo := refs.Keys;
      while todo != {}
        invariant todo <= refs.Keys && t.Valid() && fresh(t.repr) && !t.isNil
        invariant forall k :: k in t.contents <==> k in contents && k !in todo
        invariant forall k | k in t.contents :: t.contents[k] == contents[k]
        decreases todo
      {
        var k :| k in todo;
        var _ := t.Put(k, refs[k].v);
        todo := todo - {k};
      }
      assert t.contents == contents;
      t.isNil := if merge then refs == map[] else isNil;
    }
  }

  method ClonePair<A, B>(a: Table<A>, b: Table<B>, merge: bool) returns (x: Table<A>, y: Table<B>)
    requires a.Valid() && b.Valid()
    ensures x.Valid() && x.contents == a.contents && y.Valid() && y.contents == b.contents
    ensures x.isNil == (if merge then a.contents == map[] else a.isNil)
    ensures y.isNil == (if merge then b.contents == map[] else b.isNil)
    ensures x.repr !! y.repr && fresh(x.repr) && fresh(y.repr)
  {
    x := a.Clone(merge);
    y := b.Clone(merge);
  }
}

module AdminMachine {
  import opened Wrappers
  import opened EntryTable
  import opened AdminState
  import opened AdminRestore
  import Replication = AdminReplication

  function WithSlotTaken(launchers: map<string, LauncherEntry>, id: string): map<string, LauncherEntry> {
    if id in launchers then launchers[id := TakeSlot(launchers[id])] else launchers
  }

  /** How a handler ends. */
  datatype ApplyResult = Returned(err: Option<ApplyError>) | Panicked

  /** Four footprints have no object in common, and none of them holds x. */
  ghost predicate Apart(x: object, a: set<object>, b: set<object>, c: set<object>, d: set<object>) {
    && x !in a && x !in b && x !in c && x !in d
    && (forall o | o in a :: o !in b && o !in c && o !in d)
    && (forall o | o in b :: o !in c && o !in d)
    && (forall o | o in c :: o !in d)
  }

  /** The AdminState message: a header and four tables that share nothing. */
  class StateObject {
    var version: int
    var lastAppliedIndex: int
    var lastAppliedTerm: int
    var stateUpdatedAt: int
    const namespaces: Table<NamespaceEntry>
    const proxies: Table<ProxyEntry>
    const launchers: Table<LauncherEntry>
    const patterns: Table<PatternEntry>
    ghost var value: State
    ghost var nils: Nils
    ghost var repr: set<object>

    ghost predicate Valid()
      reads this, repr
    {
      && this in repr && namespaces in repr && proxies in repr && launchers in repr && patterns in repr
      && namespaces.repr <= repr && proxies.repr <= repr && launchers.repr <= repr && patterns.repr <= repr
      && Apart(this, namespaces.repr, proxies.repr, launchers.repr, patterns.repr)
      && namespaces.Valid() && proxies.Valid() && launchers.Valid() && patterns.Valid()
      && value == State(version, namespaces.contents, proxies.contents, launchers.contents, patterns.contents,
                        lastAppliedIndex, lastAppliedTerm, stateUpdatedAt)
      && nils == Nils(namespaces.isNil, proxies.isNil, launchers.isNil, patterns.isNil)
    }

    constructor ()
      ensures Valid() && value == Initial && nils == NONE_NIL && fresh(repr)
    {
      version, lastAppliedIndex, lastAppliedTerm, stateUpdatedAt := 1, 0, 0, 0;
      namespaces := new Table();
      proxies := new Table();
      launchers := new Table();
      patterns := new Table();
      new;
      value, nils, repr := Initial, NONE_NIL, {this, namespaces, proxies, launchers, patterns};
    }

    constructor From(version: int, index: int, term: int, updatedAt: int, namespaces: Table<NamespaceEntry>,
                     proxies: Table<ProxyEntry>, launchers: Table<LauncherEntry>, patterns: Table<PatternEntry>)
      requires namespaces.Valid() && proxies.Valid() && launchers.Valid() && patterns.Valid()
      requires namespaces.repr !! proxies.repr && launchers.repr !! patterns.repr
      requires forall o | o in namespaces.repr || o in proxies.repr :: o !in launchers.repr && o !in patterns.repr
      ensures Valid()
      ensures forall o | o in repr ::
                o == this || o in namespaces.repr || o in proxies.repr || o in launchers.repr || o in patterns.repr
      ensures value == State(version, namespaces.contents, proxies.contents, launchers.contents, patterns.contents,
                             index, term, updatedAt)
      ensures nils == Nils(namespaces.isNil, proxies.isNil, launchers.isNil, patterns.isNil)
    {
      this.version, lastAppliedIndex, lastAppliedTerm, stateUpdatedAt := version, index, term, updatedAt;
      this.namespaces, this.proxies, this.launchers, this.patterns := namespaces, proxies, launchers, patterns;
      repr := {this} + namespaces.repr + proxies.repr + launchers.repr + patterns.repr;
      value := State(version, namespaces.contents, proxies.contents, launchers.contents, patterns.contents, index, term,
                     updatedAt);
      nils := Nils(namespaces.isNil, proxies.isNil, launchers.isNil, patterns.isNil);
    }

    /** proto.Clone, which merges into a new message, or what encoding and decoding give. */
    method Clone(merge: bool) returns (s: StateObject)
      requires Valid()
      ensures s.Valid() && s.value == value && fresh(s.repr)
      ensures s.nils == if merge then Empties(value) else nils
    {
      var n, p := ClonePair(namespaces, proxies, merge);
      var l, q := ClonePair(launchers, patterns, merge);
      assert forall o | o in n.repr || o in p.repr :: o !in l.repr && o !in q.repr;
      s := new StateObject.From(version, lastAppliedIndex, lastAppliedTerm, stateUpdatedAt, n, p, l, q);
    }

    method Stamped(e: Entry, now: int)
      requires Valid()
      modifies this
      ensures Valid() && repr == old(repr) && value == Stamp(old(value), e, now) && nils == old(nils)
    {
      lastAppliedIndex, lastAppliedTerm, stateUpdatedAt, value := e.index, e.term, now, Stamp(value, e, now);
    }

    method PutNamespace(id: string, n: NamespaceEntry) returns (ok: bool)
      requires Valid()
      modifies repr
      ensures Valid() && fresh(repr - old(repr)) && nils == old(nils)
      ensures ok <==> !nils.namespaces || id in old(value).namespaces
      ensures value == if ok then old(value).(namespaces := old(value).namespaces[id := n]) else old(value)
    {
      ok := namespaces.Put(id, n);
      value, repr := value.(namespaces := namespaces.contents), repr + namespaces.repr;
    }

    method PutProxy(id: string, p: ProxyEntry) returns (ok: bool)
      requires Valid()
      modifies repr
      ensures Valid() && fresh(repr - old(repr)) && nils == old(nils)
      ensures ok <==> !nils.proxies || id in old(value).proxies
      ensures value == if ok then old(value).(proxies := old(value).proxies[id := p]) else old(value)
    {
      ok := proxies.Put(id, p);
      value, repr := value.(proxies := proxies.contents), repr + proxies.repr;
    }

    method CreateNamespace(c: Command, now: int) returns (ok: bool)
      requires Valid() && c.CreateNamespace?
      modifies repr
      ensures Valid() && fresh(repr - old(repr)) && nils == old(nils)
      ensures ok <==> !Panics(old(value), nils, c)
      ensures value == if ok then Dispatch(old(value), c, now) else old(value)
    {
      var existing := namespaces.Get(c.namespace);
      ok := PutNamespace(c.namespace, NamespaceAfter(existing, c, now));
    }

    method RegisterProxy(c: Command, now: int) returns (ok: bool)
      requires Valid() && c.RegisterProxy?
      modifies repr
      ensures Valid() && fresh(repr - old(repr)) && nils == old(nils)
      ensures ok <==> !Panics(old(value), nils, c)
      ensures value == if ok then Dispatch(old(value), c, now) else old(value)
    {
      var existing := proxies.Get(c.proxyId);
      ok := PutProxy(c.proxyId, ProxyAfter(existing, c, now));
    }

    method RegisterLauncher(c: Command, now: int) returns (ok: bool)
      requires Valid() && c.RegisterLauncher?
      modifies repr
      ensures Valid() && fresh(repr - old(repr)) && nils == old(nils)
      ensures ok <==> !Panics(old(value), nils, c)
      ensures value == if ok then Dispatch(old(value), c, now) else old(value)
    {
      var existing := launchers.Get(c.launcherId);
      ok := PutLauncher(c.launcherId, LauncherAfter(existing, c, now));
    }

    method PutLauncher(id: string, l: LauncherEntry) returns (ok: bool)
      requires Valid()
      modifies repr
      ensures Valid() && fresh(repr - old(repr)) && nils == old(nils)
      ensures ok <==> !nils.launchers || id in old(value).launchers
      ensures value == if ok then old(value).(launchers := old(value).launchers[id := l]) else old(value)
    {
      ok := launchers.Put(id, l);
      value, repr := value.(launchers := launchers.contents), repr + launchers.repr;
    }

    /** Decrements the free slots of a launcher, if it is registered and has any. */
    method TakeLauncherSlot(id: string)
      requires Valid()
      modifies repr
      ensures Valid() && fresh(repr - old(repr)) && nils == old(nils)
      ensures value == old(value).(launchers := WithSlotTaken(old(value).launchers, id))
    {
      var launcher := launchers.Get(id);
      if launcher.Some? && launcher.value.availableSlots > 0 {
        var _ := PutLauncher(id, TakeSlot(launcher.value));
      } else {
        assert WithSlotTaken(launchers.contents, id) == launchers.contents;
      }
    }

    method PutPattern(id: string, p: PatternEntry) returns (ok: bool)
      requires Valid()
      modifies repr
      ensures Valid() && fresh(repr - old(repr)) && nils == old(nils)
      ensures ok <==> !nils.patterns || id in old(value).patterns
      ensures value == if ok then old(value).(patterns := old(value).patterns[id := p]) else old(value)
    {
      ok := patterns.Put(id, p);
      value, repr := value.(patterns := patterns.contents), repr + patterns.repr;
    }

    method AssignPattern(c: Command, now: int) returns (ok: bool)
      requires Valid() && c.AssignPattern?
      modifies repr
      ensures Valid() && fresh(repr - old(repr)) && nils == old(nils)
      ensures ok <==> !Panics(old(value), nils, c)
      ensures value == if ok then Dispatch(old(value), c, now) else old(value)
    {
      var existing := patterns.Get(c.patternId);
      ok := PutPattern(c.patternId, PatternAfter(existing, c, now));
      if ok && existing.None? {
        TakeLauncherSlot(c.launcherId);
      }
    }

    method UpdateProxyStatus(c: Command) returns (err: Option<ApplyError>)
      requires Valid() && c.UpdateProxyStatus?
      modifies repr
      ensures Valid() && fresh(repr - old(repr)) && nils == old(nils)
      ensures value == Dispatch(old(value), c, 0) && err == DispatchError(old(value), c)
    {
      var proxy := proxies.Get(c.proxyId);
      if proxy.None? {
        return Some(ProxyNotRegistered(c.proxyId));
      }
      var _ := PutProxy(c.proxyId, ProxyBeat(proxy.value, c));
      err := None;
    }

    method UpdateLauncherStatus(c: Command) returns (err: Option<ApplyError>)
      requires Valid() && c.UpdateLauncherStatus?
      modifies repr
      ensures Valid() && fresh(repr - old(repr)) && nils == old(nils)
      ensures value == Dispatch(old(value), c, 0) && err == DispatchError(old(value), c)
    {
      var launcher := launchers.Get(c.launcherId);
      if launcher.None? {
        return Some(LauncherNotRegistered(c.launcherId));
      }
      var _ := PutLauncher(c.launcherId, LauncherBeat(launcher.value, c));
      err := None;
    }

    method Dispatched(c: Command, now: int) returns (r: ApplyResult)
      requires Valid()
      modifies repr
      ensures Valid() && fresh(repr - old(repr)) && nils == old(nils)
      ensures r == if Panics(old(value), nils, c) then Panicked else Returned(DispatchError(old(value), c))
      ensures value == if r == Panicked then old(value) else Dispatch(old(value), c, now)
    {
      var ok, err := true, None;
      match c {
        case CreateNamespace(_, _, _, _, _) => ok := CreateNamespace(c, now);
        case RegisterProxy(_, _, _, _, _, _) => ok := RegisterProxy(c, now);
        case RegisterLauncher(_, _, _, _, _, _, _, _) => ok := RegisterLauncher(c, now);
        case AssignPattern(_, _, _, _, _) => ok := AssignPattern(c, now);
        case UpdateProxyStatus(_, _, _, _) => err := UpdateProxyStatus(c);
        case UpdateLauncherStatus(_, _, _, _, _) => err := UpdateLauncherStatus(c);
        case UnknownType => err := Some(UnknownCommand);
      }
      r := if ok then Returned(err) else Panicked;
    }

    method Applied(e: Entry, now: int) returns (r: ApplyResult)
      requires Valid() && e.data.Some?
      modifies repr
      ensures Valid() && fresh(repr - old(repr)) && nils == old(nils)
      ensures r == if Panics(old(value), nils, e.data.value) then Panicked
                   else Returned(DispatchError(old(value), e.data.value))
      ensures r != Panicked ==> value == AdminState.Apply(old(value), e, now)
      ensures lastAppliedIndex == e.index && lastAppliedTerm == e.term
    {
      Stamped(e, now);
      r := Dispatched(e.data.value, now);
    }
  }

  /** What Snapshot hands to raft. */
  class SnapshotObject {
    const lastAppliedIndex: int
    const lastAppliedTerm: int
    const snapshotTime: int
    const state: StateObject

    constructor (index: int, term: int, time: int, state: StateObject)
      ensures lastAppliedIndex == index && lastAppliedTerm == term && snapshotTime == time && this.state == state
    {
      lastAppliedIndex, lastAppliedTerm, snapshotTime, this.state := index, term, time, state;
    }

    ghost predicate Valid()
      reads state, state.repr
    {
      state.Valid() && lastAppliedIndex == state.lastAppliedIndex && lastAppliedTerm == state.lastAppliedTerm
    }
  }

  class AdminStateMachine {
    var state: StateObject
    var lastAppliedIndex: int
    var lastAppliedTerm: int
    var crashed: bool

    /** The machine's own applied index and term are those of its state. */
    ghost predicate Valid()
      reads this, state, state.repr
    {
      && this !in state.repr && state.Valid()
      && lastAppliedIndex == state.lastAppliedIndex && lastAppliedTerm == state.lastAppliedTerm
    }

    ghost function Value(): State
      reads this, state
    {
      state.value
    }

    ghost function Now(): Replica
      reads this, state
    {
      if crashed then Crashed else Running(state.value, state.nils)
    }

    constructor ()
      ensures Valid() && Now() == Started && fresh(state.repr)
    {
      state := new StateObject();
      lastAppliedIndex, lastAppliedTerm, crashed := 0, 0, false;
    }

    /** A machine whose process has crashed does nothing more. */
    method Apply(e: Entry, now: int) returns (r: ApplyResult)
      requires Valid()
      modifies this, state.repr
      ensures Valid() && state == old(state) && fresh(state.repr - old(state.repr))
      ensures Now() == ApplyAt(old(Now()), e, now)
      ensures Now().Running? ==>
                r == Returned(if e.data.None? then Some(BadData) else DispatchError(old(Value()), e.data.value))
    {
      if crashed {
        return Panicked;
      }
      if e.data.None? {
        return Returned(Some(BadData));
      }
      r := ApplyDecoded(e, now);
    }

    method ApplyDecoded(e: Entry, now: int) returns (r: ApplyResult)
      requires Valid() && !crashed && e.data.Some?
      modifies this, state.repr
      ensures Valid() && state == old(state) && fresh(state.repr - old(state.repr))
      ensures Now() == ApplyAt(old(Now()), e, now)
      ensures r == if crashed then Panicked else Returned(DispatchError(old(Value()), e.data.value))
    {
      lastAppliedIndex, lastAppliedTerm := e.index, e.term;
      r := state.Applied(e, now);
      if r == Panicked {
        Crash();
      }
    }

    method Crash()
      requires Valid()
      modifies `crashed
      ensures Valid() && Now() == Crashed
    {
      crashed := true;
    }

    method Snapshot(now: int) returns (snap: SnapshotObject)
      requires Valid()
      ensures snap.Valid() && fresh(snap) && fresh(snap.state.repr)
      ensures snap.state.value == Value() && snap.state.nils == Empties(Value())
    {
      var copy := state.Clone(true);
      snap := new SnapshotObject(lastAppliedIndex, lastAppliedTerm, now, copy);
    }

    /** The snapshot is decoded into objects of its own; the whole state is swapped. */
    method Restore(snap: SnapshotObject)
      requires snap.Valid()
      modifies this
      ensures Valid() && fresh(state.repr)
      ensures Now() == old(Running(snap.state.value, snap.state.nils))
    {
      var decoded := snap.state.Clone(false);
      state, lastAppliedIndex, lastAppliedTerm, crashed :=
        decoded, snap.lastAppliedIndex, snap.lastAppliedTerm, false;
    }

    /** Applies committed entries in log order. */
    method ApplyAll(log: seq<Entry>, clock: nat -> int)
      requires Valid()
      modifies this, state.repr
      ensures Valid() && state == old(state) && fresh(state.repr - old(state.repr))
      ensures Now() == ReplayAt(old(Now()), log, clock)
    {
      for i := 0 to |log|
        invariant Valid() && state == old(state) && fresh(state.repr - old(state.repr))
        invariant Now() == ReplayAt(old(Now()), log[..i], clock)
      {
        assert log[..i + 1][..i] == log[..i];
        var _ := Apply(log[i], clock(i));
      }
      assert log[..|log|] == log;
    }
  }

  /** A snapshot is not affected by what the machine applies later, in place. */
  method SnapshotThenApply(m: AdminStateMachine, log: seq<Entry>, now: int, clock: nat -> int)
    returns (snap: SnapshotObject)
    requires m.Valid()
    modifies m, m.state.repr
    ensures m.Valid() && m.Now() == ReplayAt(old(m.Now()), log, clock)
    ensures snap.Valid() && snap.state.value == old(m.Value()) && snap.state.nils == Empties(old(m.Value()))
  {
    snap := m.Snapshot(now);
    assert forall o | o in snap.state.repr :: o != m && o !in m.state.repr;
    m.ApplyAll(log, clock);
  }

  /** A new replica starts from a snapshot and applies what came after it. */
  method RestoreThenApply(snap: SnapshotObject, log: seq<Entry>, clock: nat -> int) returns (m: AdminStateMachine)
    requires snap.Valid()
    ensures m.Valid() && fresh(m) && fresh(m.state.repr)
    ensures m.Now() == ReplayAt(Running(snap.state.value, snap.state.nils), log, clock)
  {
    m := new AdminStateMachine();
    m.Restore(snap);
    m.ApplyAll(log, clock);
  }

  /** Every time of last contact in the snapshot is common, and so is every later one that a heartbeat brings. */
  function BeatsSince(s: State, suffix: seq<Entry>): Replication.Beats {
    Replication.BeatsOver(Replication.Beats(s.proxies.Keys, s.launchers.Keys), suffix)
  }

  /**
  One replica applies a whole log and snapshots in the middle; another restores the snapshot and applies
  the rest by its own clock. They end up in agreement, or the second one has crashed; the latter exactly if
  something in the rest goes into a table that was empty in the snapshot.
  */
  method Recover(prefix: seq<Entry>, suffix: seq<Entry>, now: int, before: nat -> int, after: nat -> int,
                 restorer: nat -> int) returns (first: AdminStateMachine, second: AdminStateMachine)
    ensures first.Valid() && second.Valid()
    ensures first.Now() == Running(Replay(Replay(Initial, prefix, before), suffix, after), NONE_NIL)
    ensures second.Now().Crashed? <==> FillsAny(Empties(Replay(Initial, prefix, before)), suffix)
    ensures second.Now().Running? ==>
              Replication.Agree(first.Value(), second.Value(), BeatsSince(Replay(Initial, prefix, before), suffix))
  {
    var snap;
    first, snap := SnapshotMidway(prefix, suffix, now, before, after);
    second := RestoreThenApply(snap, suffix, restorer);
    RecoveredAgree(Replay(Initial, prefix, before), prefix, suffix, before, after, restorer);
  }

  method SnapshotMidway(prefix: seq<Entry>, suffix: seq<Entry>, now: int, before: nat -> int, after: nat -> int)
    returns (m: AdminStateMachine, snap: SnapshotObject)
    ensures m.Valid() && m.Now() == ReplayAt(ReplayAt(Started, prefix, before), suffix, after)
    ensures snap.Valid() && snap.state.value == Replay(Initial, prefix, before)
    ensures snap.state.nils == Empties(snap.state.value)
  {
    m := new AdminStateMachine();
    m.ApplyAll(prefix, before);
    MadeNeverPanics(Initial, prefix, before);
    snap := SnapshotThenApply(m, suffix, now, after);
  }

  lemma RecoveredAgree(s: State, prefix: seq<Entry>, suffix: seq<Entry>, before: nat -> int, after: nat -> int,
                       restorer: nat -> int)
    requires s == Replay(Initial, prefix, before)
    ensures ReplayAt(Started, prefix, before) == Running(s, NONE_NIL)
    ensures ReplayAt(Running(s, NONE_NIL), suffix, after) == Running(Replay(s, suffix, after), NONE_NIL)
    ensures ReplayAt(Restored(s), suffix, restorer) ==
            if FillsAny(Empties(s), suffix) then Crashed else Running(Replay(s, suffix, restorer), Empties(s))
    ensures Replication.Agree(Replay(s, suffix, after), Replay(s, suffix, restorer), BeatsSince(s, suffix))
  {
    MadeNeverPanics(Initial, prefix, before);
    MadeNeverPanics(s, suffix, after);
    SurvivesExactly(s, Empties(s), suffix, restorer);
    Replication.ReplicasAgree(s, s, Replication.Beats(s.proxies.Keys, s.launchers.Keys), suffix, after, restorer);
  }
}
