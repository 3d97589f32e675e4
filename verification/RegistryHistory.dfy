/** Who is registered, in terms of the calls alone: which registrations have succeeded, and what has ended them. */
module RegistryHistory {
  import opened Wrappers
  import opened Registry

  /** The event ends a registration: the identity is unregistered, or a cleanup finds its time over. */
  predicate Ends(reg: Event, e: Event) {
    && reg.RegisterEvent?
    && (|| (e.UnregisterEvent? && e.id == reg.id && e.deleteOk)
        || (e.CleanupEvent? && reg.ttl > 0 && e.now > reg.now + reg.ttl))
  }

  /** Call k registers: the identity was not registered, the limit was not reached, and the backend took it. */
  predicate Registers(c: Settings, es: seq<Event>, k: nat)
    requires k < |es|
    decreases k, 1
  {
    && es[k].RegisterEvent? && es[k].setOk && es[k].id !in Registered(c, es[..k])
    && (c.maxIdentities > 0 ==> |Registered(c, es[..k])| < c.maxIdentities)
  }

  /** Call k registered, and nothing has ended that. */
  predicate Stands(c: Settings, es: seq<Event>, k: nat)
    requires k < |es|
    decreases k, 2
  {
    Registers(c, es, k) && forall j | k < j < |es| :: !Ends(es[k], es[j])
  }

  /** The identities registered after the calls. */
  function Registered(c: Settings, es: seq<Event>): set<string>
    decreases |es|, 0
  {
    set k | 0 <= k < |es| && es[k].RegisterEvent? && Stands(c, es, k) :: es[k].id
  }

  /** What is kept of a registration. */
  function Entry(reg: Event): Identity
    requires reg.RegisterEvent?
  {
    Identity(reg.metadata, reg.now, reg.ttl, if reg.ttl > 0 then Some(reg.now + reg.ttl) else None)
  }

  lemma StandsBefore(c: Settings, es: seq<Event>, k: nat)
    requires k + 1 < |es|
    ensures Stands(c, es, k) <==> Stands(c, es[..|es| - 1], k) && !Ends(es[k], es[|es| - 1])
  {
    var rest := es[..|es| - 1];
    assert rest[..k] == es[..k];
    assert forall j | k < j < |rest| :: rest[j] == es[j];
  }

  lemma RegisteredBefore(c: Settings, es: seq<Event>, id: string)
    requires es != []
    ensures var n := |es| - 1;
      id in Registered(c, es) <==>
        || (exists k :: 0 <= k < n && es[k].RegisterEvent? && es[k].id == id
                        && Stands(c, es[..n], k) && !Ends(es[k], es[n]))
        || (es[n].RegisterEvent? && es[n].id == id && Registers(c, es, n))
  {
    var n := |es| - 1;
    forall k | 0 <= k < n ensures Stands(c, es, k) <==> Stands(c, es[..n], k) && !Ends(es[k], es[n]) {
      StandsBefore(c, es, k);
    }
    if id in Registered(c, es) {
      var k :| 0 <= k < |es| && es[k].RegisterEvent? && Stands(c, es, k) && es[k].id == id;
      assert k < n ==> Stands(c, es[..n], k);
    }
    if es[n].RegisterEvent? && es[n].id == id && Registers(c, es, n) { assert Stands(c, es, n); }
  }

  /** The identity's entry is that of the registration that stands, if one does. */
  ghost predicate HoldsFor(c: Settings, es: seq<Event>, m: map<string, Identity>, id: string) {
    && (id in m <==> id in Registered(c, es))
    && (forall k | 0 <= k < |es| && es[k].RegisterEvent? && es[k].id == id && Stands(c, es, k) ::
          id in m && m[id] == Entry(es[k]))
  }

  ghost predicate Holds(c: Settings, es: seq<Event>, m: map<string, Identity>) {
    forall id :: HoldsFor(c, es, m, id)
  }

  lemma HoldsKeys(c: Settings, es: seq<Event>, m: map<string, Identity>)
    requires Holds(c, es, m)
    ensures m.Keys == Registered(c, es)
  {
    forall id ensures id in m.Keys <==> id in Registered(c, es) { assert HoldsFor(c, es, m, id); }
  }

  /** Register succeeds exactly if the history says so. */
  lemma RegistersExactly(c: Settings, es: seq<Event>, s: State, n: nat)
    requires n < |es| && es[n].RegisterEvent? && Holds(c, es[..n], s.identities)
    ensures Registers(c, es, n) <==> Refusal(c, s, es[n].id).None? && es[n].setOk
  {
    HoldsKeys(c, es[..n], s.identities);
  }

  lemma SomeStands(c: Settings, es: seq<Event>, id: string) returns (k: nat)
    requires id in Registered(c, es)
    ensures k < |es| && es[k].RegisterEvent? && es[k].id == id && Stands(c, es, k)
  {
    k :| 0 <= k < |es| && es[k].RegisterEvent? && Stands(c, es, k) && es[k].id == id;
  }

  lemma RegisterHolds(c: Settings, es: seq<Event>, s: State, id: string)
    requires es != [] && es[|es| - 1].RegisterEvent? && Holds(c, es[..|es| - 1], s.identities)
    ensures HoldsFor(c, es, Step(c, s, es[|es| - 1]).identities, id)
  {
    var n := |es| - 1;
    assert HoldsFor(c, es[..n], s.identities, id);
    RegistersExactly(c, es, s, n);
    RegisteredBefore(c, es, id);
    forall k | 0 <= k < |es| && es[k].RegisterEvent? && es[k].id == id && Stands(c, es, k)
      ensures id in Step(c, s, es[n]).identities && Step(c, s, es[n]).identities[id] == Entry(es[k])
    {
      if k < n {
        StandsBefore(c, es, k);
        assert es[..n][k] == es[k] && id in Registered(c, es[..n]);
      }
    }
    if id in Registered(c, es[..n]) {
      var k := SomeStands(c, es[..n], id);
    }
  }

  lemma OtherHolds(c: Settings, es: seq<Event>, s: State, id: string)
    requires es != [] && !es[|es| - 1].RegisterEvent? && HoldsFor(c, es[..|es| - 1], s.identities, id)
    ensures HoldsFor(c, es, Step(c, s, es[|es| - 1]).identities, id)
  {
    var n := |es| - 1;
    RegisteredBefore(c, es, id);
    forall k | 0 <= k < n && es[k].RegisterEvent? && es[k].id == id && Stands(c, es[..n], k)
      ensures id in Step(c, s, es[n]).identities <==> !Ends(es[k], es[n])
      ensures id in Step(c, s, es[n]).identities ==> Step(c, s, es[n]).identities[id] == Entry(es[k])
    {
      assert es[..n][k] == es[k];
      EndsExactly(c, s, es[k], es[n]);
    }
    forall k | 0 <= k < n ensures Stands(c, es, k) <==> Stands(c, es[..n], k) && !Ends(es[k], es[n]) {
      StandsBefore(c, es, k);
    }
    if id in Registered(c, es[..n]) {
      var k := SomeStands(c, es[..n], id);
      assert es[..n][k] == es[k];
    }
  }

  /** An identity goes exactly if the event ends its registration. */
  lemma EndsExactly(c: Settings, s: State, reg: Event, e: Event)
    requires reg.RegisterEvent? && !e.RegisterEvent? && reg.id in s.identities && s.identities[reg.id] == Entry(reg)
    ensures reg.id in Step(c, s, e).identities <==> !Ends(reg, e)
    ensures reg.id in Step(c, s, e).identities ==> Step(c, s, e).identities[reg.id] == Entry(reg)
  {
  }

  /**
  After every run an identity is tracked exactly if some registration of it has succeeded and nothing has ended it; its
  metadata, registration time and expiry are those of that registration.
  */
  lemma {:induction false} TrackedExactly(c: Settings, skew: nat, start: int, es: seq<Event>)
    requires IsRun(c, skew, start, es)
    ensures Holds(c, es, Exec(c, skew, start, es).state.identities)
  {
    if es != [] {
      var n := |es| - 1;
      TrackedExactly(c, skew, start, es[..n]);
      var s := Exec(c, skew, start, es[..n]).state;
      forall id ensures HoldsFor(c, es, Step(c, s, es[n]).identities, id) {
        assert HoldsFor(c, es[..n], s.identities, id);
        if es[n].RegisterEvent? { RegisterHolds(c, es, s, id); } else { OtherHolds(c, es, s, id); }
      }
    }
  }

  /** A registration succeeds if the identity was not registered, the limit was not reached, and the backend took it. */
  lemma {:induction false} AcceptedExactly(c: Settings, skew: nat, start: int, es: seq<Event>, e: Event)
    requires IsRun(c, skew, start, es) && e.RegisterEvent?
    ensures var s := Exec(c, skew, start, es).state;
      Refusal(c, s, e.id).None? && e.setOk <==>
        && e.id !in Registered(c, es) && (c.maxIdentities > 0 ==> |Registered(c, es)| < c.maxIdentities) && e.setOk
    ensures Refusal(c, Exec(c, skew, start, es).state, e.id) == Some(AlreadyRegistered) <==> e.id in Registered(c, es)
  {
    TrackedExactly(c, skew, start, es);
    HoldsKeys(c, es, Exec(c, skew, start, es).state.identities);
  }

  /** The client-side filter lists those whose registration stands, has not expired, and has metadata it accepts. */
  lemma {:induction false} ListedExactly(c: Settings, skew: nat, start: int, es: seq<Event>, id: string, now: int,
                                         filter: Attributes -> bool)
    requires IsRun(c, skew, start, es)
    ensures Selected(Exec(c, skew, start, es).state, id, now, filter) <==>
            exists k :: && 0 <= k < |es| && es[k].RegisterEvent? && es[k].id == id && Stands(c, es, k)
                        && (es[k].ttl > 0 ==> now <= es[k].now + es[k].ttl) && filter(es[k].metadata)
  {
    TrackedExactly(c, skew, start, es);
    assert HoldsFor(c, es, Exec(c, skew, start, es).state.identities, id);
    if id in Registered(c, es) {
      var k := SomeStands(c, es, id);
    }
  }

  // ----- The backend -----

  /** Event j takes the backend's record of registration k: it expires there, or is deleted as the registration ends. */
  predicate Drops(c: Settings, es: seq<Event>, k: nat, j: nat)
    requires k < j < |es| && es[k].RegisterEvent?
  {
    || (es[j].BackendExpires? && es[j].id == es[k].id)
    || (Stands(c, es[..j], k) && Ends(es[k], es[j]) && (es[j].CleanupEvent? ==> es[k].id in es[j].deleted))
  }

  /** Call k is the last that registered the identity, and the backend still has the record. */
  ghost predicate Kept(c: Settings, es: seq<Event>, id: string, k: nat) {
    && k < |es| && Registers(c, es, k) && es[k].id == id
    && (forall j | k < j < |es| :: !Drops(c, es, k, j) && !RegistersAs(c, es, j, id))
  }

  predicate RegistersAs(c: Settings, es: seq<Event>, j: nat, id: string)
    requires j < |es|
  {
    es[j].RegisterEvent? && es[j].id == id && Registers(c, es, j)
  }

  function BackendEntry(reg: Event): BackendRecord
    requires reg.RegisterEvent?
  {
    BackendRecord(reg.metadata, if reg.ttl > 0 then Some(reg.setAt + reg.ttl) else None)
  }

  ghost predicate BackendHolds(c: Settings, es: seq<Event>, b: map<string, BackendRecord>, id: string) {
    && (id in b <==> exists k: nat :: Kept(c, es, id, k))
    && (forall k: nat | Kept(c, es, id, k) :: id in b && b[id] == BackendEntry(es[k]))
  }

  lemma RegistersBefore(c: Settings, es: seq<Event>, n: nat, k: nat)
    requires k < n <= |es|
    ensures Registers(c, es[..n], k) <==> Registers(c, es, k)
  {
    assert es[..n][..k] == es[..k];
  }

  lemma DropsBefore(c: Settings, es: seq<Event>, n: nat, k: nat, j: nat)
    requires k < j < n <= |es| && es[k].RegisterEvent?
    ensures Drops(c, es[..n], k, j) <==> Drops(c, es, k, j)
  {
    assert es[..n][..j] == es[..j];
  }

  lemma KeptBefore(c: Settings, es: seq<Event>, id: string, k: nat)
    requires k + 1 < |es|
    ensures var n := |es| - 1;
      Kept(c, es, id, k) <==>
        Kept(c, es[..n], id, k) && !Drops(c, es, k, n) && !RegistersAs(c, es, n, id)
  {
    var n := |es| - 1;
    RegistersBefore(c, es, n, k);
    if Registers(c, es, k) {
      forall j | k < j < n
        ensures Drops(c, es[..n], k, j) <==> Drops(c, es, k, j)
        ensures RegistersAs(c, es[..n], j, id) <==> RegistersAs(c, es, j, id)
      {
        DropsBefore(c, es, n, k, j);
        RegistersBefore(c, es, n, j);
      }
    }
  }

  /** What one event does to the record of registration k, which is the last of its identity. */
  lemma DropsExactly(c: Settings, es: seq<Event>, s: State, k: nat)
    requires k + 1 < |es| && es[k].RegisterEvent? && Holds(c, es[..|es| - 1], s.identities) && es[k].id in s.backend
    requires !RegistersAs(c, es, |es| - 1, es[k].id)
    requires Kept(c, es[..|es| - 1], es[k].id, k)
    ensures var n := |es| - 1;
      && (es[k].id in Step(c, s, es[n]).backend <==> !Drops(c, es, k, n))
      && (es[k].id in Step(c, s, es[n]).backend ==> Step(c, s, es[n]).backend[es[k].id] == s.backend[es[k].id])
  {
    var n, id := |es| - 1, es[k].id;
    assert HoldsFor(c, es[..n], s.identities, id);
    if es[n].RegisterEvent? { RegistersExactly(c, es, s, n); }
    if id in Registered(c, es[..n]) {
      var j := SomeStands(c, es[..n], id);
      StandsIsLast(c, es[..n], id, k, j);
    }
  }

  lemma StoodThen(c: Settings, es: seq<Event>, j: nat, k: nat)
    requires j < k <= |es| && es[j].RegisterEvent? && Stands(c, es, j)
    ensures es[j].id in Registered(c, es[..k])
  {
    assert es[..k][..j] == es[..j];
    assert Stands(c, es[..k], j) && es[..k][j] == es[j];
  }

  /** The registration that stands is the last one. */
  lemma StandsIsLast(c: Settings, es: seq<Event>, id: string, k: nat, j: nat)
    requires Kept(c, es, id, k) && j < |es| && es[j].RegisterEvent? && es[j].id == id && Stands(c, es, j)
    ensures j == k
  {
    if j < k {
      StoodThen(c, es, j, k);
    } else if k < j {
      assert RegistersAs(c, es, j, id);
    }
  }

  lemma BackendStep(c: Settings, es: seq<Event>, s: State, id: string)
    requires es != [] && Holds(c, es[..|es| - 1], s.identities) && BackendHolds(c, es[..|es| - 1], s.backend, id)
    ensures BackendHolds(c, es, Step(c, s, es[|es| - 1]).backend, id)
  {
    var n := |es| - 1;
    if RegistersAs(c, es, n, id) {
      RegistersExactly(c, es, s, n);
      assert Kept(c, es, id, n);
      forall k: nat | Kept(c, es, id, k) ensures k == n { }
    } else {
      forall k: nat | k < n ensures Kept(c, es, id, k) <==> Kept(c, es[..n], id, k) && !Drops(c, es, k, n) {
        if k < n { KeptBefore(c, es, id, k); }
      }
      if k: nat :| Kept(c, es[..n], id, k) {
        DropsExactly(c, es, s, k);
        forall j: nat | Kept(c, es[..n], id, j) ensures j == k { KeptIsOne(c, es[..n], id, j, k); }
      } else {
        NotAdded(c, es, s, id);
      }
    }
  }

  lemma KeptIsOne(c: Settings, es: seq<Event>, id: string, j: nat, k: nat)
    requires Kept(c, es, id, j) && Kept(c, es, id, k)
    ensures j == k
  {
    assert RegistersAs(c, es, j, id) && RegistersAs(c, es, k, id);
  }

  lemma NotAdded(c: Settings, es: seq<Event>, s: State, id: string)
    requires es != [] && Holds(c, es[..|es| - 1], s.identities) && id !in s.backend && !RegistersAs(c, es, |es| - 1, id)
    ensures id !in Step(c, s, es[|es| - 1]).backend
  {
    var n := |es| - 1;
    if es[n].RegisterEvent? { RegistersExactly(c, es, s, n); }
  }

  /**
  After every run the backend has a record of an identity exactly if the last registration of it that succeeded has
  neither expired there nor been deleted when it ended; and it is that registration's.
  */
  lemma {:induction false} BackendExactly(c: Settings, skew: nat, start: int, es: seq<Event>, id: string)
    requires IsRun(c, skew, start, es)
    ensures BackendHolds(c, es, Exec(c, skew, start, es).state.backend, id)
  {
    if es != [] {
      var n := |es| - 1;
      BackendExactly(c, skew, start, es[..n], id);
      TrackedExactly(c, skew, start, es[..n]);
      BackendStep(c, es, Exec(c, skew, start, es[..n]).state, id);
    }
  }
}
