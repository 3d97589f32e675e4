/**
The multicast registry: identities tracked by the coordinator and by a backend that
expires them by its own clock. Backend calls may fail, without effect.
*/
module Registry {
  import opened Wrappers

  type Attributes = map<string, string>

  datatype Identity = Identity(metadata: Attributes, registeredAt: int, ttl: int, expiresAt: Option<int>)

  datatype BackendRecord = BackendRecord(metadata: Attributes, expiresAt: Option<int>)

  datatype State = State(identities: map<string, Identity>, backend: map<string, BackendRecord>)

  const Empty := State(map[], map[])

  /** A limit of zero or less means none. */
  datatype Settings = Settings(maxIdentities: int)

  function ExpiryOf(now: int, ttl: int): Option<int> {
    if ttl > 0 then Some(now + ttl) else None
  }

  predicate After(now: int, expiresAt: Option<int>) {
    expiresAt.Some? && now > expiresAt.value
  }

  // ----- The operations -----

  datatype RegisterError = AlreadyRegistered | LimitReached | SetFailed

  predicate Full(c: Settings, s: State) {
    c.maxIdentities > 0 && |s.identities| >= c.maxIdentities
  }

  /** Whether Register is refused before it gets to the backend. */
  function Refusal(c: Settings, s: State, id: string): Option<RegisterError> {
    if id in s.identities then Some(AlreadyRegistered)
    else if Full(c, s) then Some(LimitReached)
    else None
  }

  /** `now` is the coordinator's clock, `setAt` the backend's a moment later. */
  function Register(c: Settings, s: State, id: string, metadata: Attributes, ttl: int, now: int, setAt: int,
                    setOk: bool): State {
    if Refusal(c, s, id).Some? || !setOk then s
    else State(s.identities[id := Identity(metadata, now, ttl, ExpiryOf(now, ttl))],
               s.backend[id := BackendRecord(metadata, ExpiryOf(setAt, ttl))])
  }

  function Unregister(s: State, id: string, deleteOk: bool): State {
    if id !in s.identities || !deleteOk then s else State(s.identities - {id}, s.backend - {id})
  }

  function ExpiredIds(s: State, now: int): set<string> {
    set id | id in s.identities && After(now, s.identities[id].expiresAt)
  }

  /** Expired identities go; the backend loses those whose deletion succeeds, and errors are ignored. */
  function Cleanup(s: State, now: int, deleted: set<string>): State {
    State(s.identities - ExpiredIds(s, now), s.backend - (ExpiredIds(s, now) * deleted))
  }

  datatype Event =
    | RegisterEvent(id: string, metadata: Attributes, ttl: int, now: int, setAt: int, setOk: bool)
    | UnregisterEvent(id: string, now: int, deleteOk: bool)
    | CleanupEvent(now: int, deleted: set<string>)
    | BackendExpires(id: string, now: int)   // the backend drops a record whose time is over

  function Step(c: Settings, s: State, e: Event): State {
    match e
    case RegisterEvent(id, metadata, ttl, now, setAt, setOk) => Register(c, s, id, metadata, ttl, now, setAt, setOk)
    case UnregisterEvent(id, _, deleteOk) => Unregister(s, id, deleteOk)
    case CleanupEvent(now, deleted) => Cleanup(s, now, deleted)
    case BackendExpires(id, _) => s.(backend := s.backend - {id})
  }

  /** When the step is over. */
  function Time(e: Event): int {
    if e.RegisterEvent? then e.setAt else e.now
  }

  /** Clocks do not go back, and the two readings of a registration are at most `skew` apart. */
  predicate Enabled(skew: nat, s: State, t: int, e: Event) {
    && t <= e.now
    && (e.RegisterEvent? ==> e.now <= e.setAt <= e.now + skew)
    && (e.BackendExpires? ==> e.id in s.backend && After(e.now, s.backend[e.id].expiresAt))
  }

  // ----- Agreement -----

  /** The backend's record of a registration: same metadata, and an expiry at most the skew later. */
  predicate Matches(skew: nat, l: Identity, b: BackendRecord) {
    && l.metadata == b.metadata
    && l.expiresAt.Some? == b.expiresAt.Some?
    && (l.expiresAt.Some? ==> l.expiresAt.value <= b.expiresAt.value <= l.expiresAt.value + skew)
  }

  /** By the coordinator's reckoning the record's time is over. */
  predicate Stale(skew: nat, b: BackendRecord, t: int) {
    b.expiresAt.Some? && t > b.expiresAt.value - skew
  }

  ghost predicate IdAgrees(skew: nat, s: State, t: int, id: string) {
    && (id in s.identities && id in s.backend ==> Matches(skew, s.identities[id], s.backend[id]))
    && (id in s.identities && id !in s.backend ==> After(t, s.identities[id].expiresAt))
    && (id !in s.identities && id in s.backend ==> Stale(skew, s.backend[id], t))
  }

  ghost predicate Inv(c: Settings, skew: nat, s: State, t: int) {
    && (forall id :: IdAgrees(skew, s, t, id))
    && (c.maxIdentities > 0 ==> |s.identities| <= c.maxIdentities)
  }

  lemma StepAgrees(c: Settings, skew: nat, s: State, t: int, e: Event, id: string)
    requires IdAgrees(skew, s, t, id) && Enabled(skew, s, t, e)
    ensures IdAgrees(skew, Step(c, s, e), Time(e), id)
  {
  }

  lemma SubsetSize(a: set<string>, b: set<string>)
    requires a <= b
    ensures |a| <= |b|
  {
    if a != b {
      assert b == a + (b - a);
    }
  }

  lemma StepSize(c: Settings, s: State, e: Event)
    requires c.maxIdentities > 0 ==> |s.identities| <= c.maxIdentities
    ensures c.maxIdentities > 0 ==> |Step(c, s, e).identities| <= c.maxIdentities
  {
    var next := Step(c, s, e);
    if e.RegisterEvent? {
      assert next.identities == s.identities || next.identities.Keys == s.identities.Keys + {e.id};
    } else {
      SubsetSize(next.identities.Keys, s.identities.Keys);
    }
  }

  lemma StepKeeps(c: Settings, skew: nat, s: State, t: int, e: Event)
    requires Inv(c, skew, s, t) && Enabled(skew, s, t, e)
    ensures Inv(c, skew, Step(c, s, e), Time(e))
  {
    StepSize(c, s, e);
    forall id ensures IdAgrees(skew, Step(c, s, e), Time(e), id) {
      StepAgrees(c, skew, s, t, e, id);
    }
  }

  // ----- Runs -----

  datatype Moment = Moment(state: State, time: int)

  ghost predicate IsRun(c: Settings, skew: nat, start: int, es: seq<Event>)
    decreases |es|, 0
  {
    es == [] ||
    (var k := |es| - 1;
     && IsRun(c, skew, start, es[..k])
     && Enabled(skew, Exec(c, skew, start, es[..k]).state, Exec(c, skew, start, es[..k]).time, es[k]))
  }

  ghost function Exec(c: Settings, skew: nat, start: int, es: seq<Event>): Moment
    requires IsRun(c, skew, start, es)
    decreases |es|, 1
  {
    if es == [] then Moment(Empty, start)
    else
      var k := |es| - 1;
      Moment(Step(c, Exec(c, skew, start, es[..k]).state, es[k]), Time(es[k]))
  }

  lemma {:induction false} RunKeeps(c: Settings, skew: nat, start: int, es: seq<Event>)
    requires IsRun(c, skew, start, es)
    ensures Inv(c, skew, Exec(c, skew, start, es).state, Exec(c, skew, start, es).time)
  {
    if es != [] {
      var k := |es| - 1;
      RunKeeps(c, skew, start, es[..k]);
      var m := Exec(c, skew, start, es[..k]);
      StepKeeps(c, skew, m.state, m.time, es[k]);
    }
  }

  predicate Unexpired(s: State, id: string, t: int) {
    id in s.identities && !After(t, s.identities[id].expiresAt)
  }

  predicate BackendUnexpired(s: State, id: string, t: int) {
    id in s.backend && !After(t, s.backend[id].expiresAt)
  }

  /**
  Across every run, backend failures included, the limit holds, an unexpired identity is in the backend,
  unexpired and with its metadata, and a backend record that is unexpired even when the skew is counted against
  it belongs to an unexpired identity. With no skew, the two agree exactly.
  */
  lemma {:induction false} RecordsAgree(c: Settings, skew: nat, start: int, es: seq<Event>, t: int, id: string)
    requires IsRun(c, skew, start, es) && t >= Exec(c, skew, start, es).time
    ensures var s := Exec(c, skew, start, es).state;
            && (c.maxIdentities > 0 ==> |s.identities| <= c.maxIdentities)
            && (Unexpired(s, id, t) ==> BackendUnexpired(s, id, t))
            && (BackendUnexpired(s, id, t + skew) ==> Unexpired(s, id, t))
            && (Unexpired(s, id, t) ==> s.identities[id].metadata == s.backend[id].metadata)
  {
    RunKeeps(c, skew, start, es);
    assert IdAgrees(skew, Exec(c, skew, start, es).state, Exec(c, skew, start, es).time, id);
  }

  /** What the client-side filter lists. */
  predicate Selected(s: State, id: string, t: int, filter: Attributes -> bool) {
    Unexpired(s, id, t) && filter(s.identities[id].metadata)
  }

  /** What a backend that filters by its own records lists. */
  predicate BackendSelected(s: State, id: string, t: int, filter: Attributes -> bool) {
    BackendUnexpired(s, id, t) && filter(s.backend[id].metadata)
  }

  /**
  The two ways to enumerate agree: what the client-side filter lists, a filtering backend lists too, and what the
  backend still lists the skew later, the client-side filter lists now.
  */
  lemma {:induction false} FiltersAgree(c: Settings, skew: nat, start: int, es: seq<Event>, t: int, id: string,
                                        filter: Attributes -> bool)
    requires IsRun(c, skew, start, es) && t >= Exec(c, skew, start, es).time
    ensures var s := Exec(c, skew, start, es).state;
            && (Selected(s, id, t, filter) ==> BackendSelected(s, id, t, filter))
            && (BackendSelected(s, id, t + skew, filter) ==> Selected(s, id, t, filter))
  {
    RecordsAgree(c, skew, start, es, t, id);
  }
}

/** The coordinator object. */
module RegistryCoordinator {
  import opened Wrappers
  import opened Registry

  class Coordinator {
    const settings: Settings
    var identities: map<string, Identity>
    var backend: map<string, BackendRecord>

    constructor (settings: Settings)
      ensures this.settings == settings && Value() == Empty
    {
      this.settings, identities, backend := settings, map[], map[];
    }

    ghost function Value(): State
      reads this
    {
      State(identities, backend)
    }

    method Register(id: string, metadata: Attributes, ttl: int, now: int, setAt: int, setOk: bool)
      returns (err: Option<RegisterError>)
      modifies this
      ensures Value() == Registry.Register(settings, old(Value()), id, metadata, ttl, now, setAt, setOk)
      ensures err == if Refusal(settings, old(Value()), id).Some? then Refusal(settings, old(Value()), id)
                     else if setOk then None else Some(SetFailed)
    {
      if id in identities {
        return Some(AlreadyRegistered);
      }
      if settings.maxIdentities > 0 && |identities| >= settings.maxIdentities {
        return Some(LimitReached);
      }
      var expiresAt := if ttl > 0 then Some(now + ttl) else None;
      if !setOk {
        return Some(SetFailed);
      }
      backend := backend[id := BackendRecord(metadata, ExpiryOf(setAt, ttl))];
      identities := identities[id := Identity(metadata, now, ttl, expiresAt)];
      err := None;
    }

    /** Succeeds for an unknown identity too. */
    method Unregister(id: string, deleteOk: bool) returns (ok: bool)
      modifies this
      ensures Value() == Registry.Unregister(old(Value()), id, deleteOk)
      ensures ok <==> id !in old(identities) || deleteOk
    {
      if id !in identities {
        return true;
      }
      if !deleteOk {
        return false;
      }
      backend := backend - {id};
      identities := identities - {id};
      ok := true;
    }

    method PerformCleanup(now: int, deleted: set<string>)
      modifies this
      ensures Value() == Cleanup(old(Value()), now, deleted)
    {
      var expired: set<string> := {};
      var todo := identities.Keys;
      while todo != {}
        invariant todo <= identities.Keys && Value() == old(Value())
        invariant expired == ExpiredIds(Value(), now) - todo
        decreases todo
      {
        var id :| id in todo;
        if After(now, identities[id].expiresAt) {
          expired := expired + {id};
        }
        todo := todo - {id};
      }
      while expired != {}
        invariant expired <= ExpiredIds(old(Value()), now)
        invariant identities == old(identities) - (ExpiredIds(old(Value()), now) - expired)
        invariant backend == old(backend) - ((ExpiredIds(old(Value()), now) - expired) * deleted)
        decreases expired
      {
        var id :| id in expired;
        expired := expired - {id};
        if id in deleted {
          backend := backend - {id};
        }
        identities := identities - {id};
      }
    }

    /**
    The backend's own answer if it has one (`native`), and otherwise the client-side filter: every unexpired identity
    that the filter accepts, once.
    */
    method Enumerate(native: Option<seq<string>>, filter: Attributes -> bool, now: int) returns (ids: seq<string>)
      ensures native.Some? ==> ids == native.value
      ensures native.None? ==> forall i, j | 0 <= i < j < |ids| :: ids[i] != ids[j]
      ensures native.None? ==> forall id :: id in ids <==> Selected(Value(), id, now, filter)
    {
      if native.Some? {
        return native.value;
      }
      ids := [];
      var todo := identities.Keys;
      while todo != {}
        invariant todo <= identities.Keys
        invariant forall i, j | 0 <= i < j < |ids| :: ids[i] != ids[j]
        invariant forall id :: id in ids <==> id !in todo && Selected(Value(), id, now, filter)
        decreases todo
      {
        var id :| id in todo;
        if !After(now, identities[id].expiresAt) && filter(identities[id].metadata) {
          ids := ids + [id];
        }
        todo := todo - {id};
      }
    }
  }
}
