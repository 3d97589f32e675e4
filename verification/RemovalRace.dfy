/**
What SyncKnownProcesses can break: it removes a finished record while the worker
that finished it has yet to run completeWork. If the identifier is created anew
in between, completeWork clears the working mark of the new record, and another
worker of the identifier may begin a second call while the first is in flight.

RaceExactly says when removing a record can lead there: exactly when a worker is
still in a turn on it. RaceAtOnceExactly says when it can do so without
any further removal, and RaceIsReachable gives a run from a fresh manager.
*/
module RemovalRace {
  import opened Wrappers
  import opened ProcTypes
  import opened Backoff
  import opened ManagerProtocol
  import opened ManagerSafety
  import opened Reachability
  import ManagerTheorems
  import NoLostWork
  import RecordLife

  // ----- The calls of one turn -----

  /** Two hook calls are in flight for one process. */
  ghost predicate TwoCalls(s: Sys, id: ProcessID) {
    exists v, w | v in s.workers && w in s.workers && v != w ::
      s.workers[v].id == id == s.workers[w].id && s.workers[v].pc.InCall? && s.workers[w].pc.InCall?
  }

  /** Only the workers vs may have moved; nobody else has lost a signal. */
  ghost predicate Beside(s: Sys, t: Sys, vs: set<nat>) {
    && (forall x | x in s.workers && x !in vs :: x in t.workers && t.workers[x] == s.workers[x])
    && (forall x | x in s.signals && x !in vs :: x in t.signals)
    && t.consumer == s.consumer && s.next <= t.next
  }

  lemma BesideOn(s: Sys, t: Sys, u: Sys, vs: set<nat>, ws: set<nat>)
    requires Beside(s, t, vs) && Beside(t, u, ws)
    ensures Beside(s, u, vs + ws)
  {
  }

  lemma BesideAgain(s: Sys, t: Sys, u: Sys, v: nat)
    requires Beside(s, t, {v}) && Beside(t, u, {v})
    ensures Beside(s, u, {v})
  {
  }

  /** Worker v is about to look and finds work on record r. */
  ghost predicate Roused(s: Sys, v: nat, r: nat) {
    && v in s.workers && s.workers[v].pc.Woken?
    && s.workers[v].id in s.statuses && s.statuses[s.workers[v].id] == r
    && r in s.recs && !s.recs[r].IsFinished() && !s.recs[r].working && s.recs[r].pending.Some?
  }

  /** Worker v is in a call on record r, which is tracked under its identifier. */
  ghost predicate InCallOn(s: Sys, v: nat, r: nat, id: ProcessID) {
    && v in s.workers && s.workers[v].id == id && s.workers[v].pc.InCall? && s.workers[v].pc.rec == r
    && id in s.statuses && s.statuses[id] == r && r in s.recs
  }

  /** What a turn leaves alone. */
  ghost predicate SameMaps(s: Sys, t: Sys) {
    t.statuses == s.statuses && t.updates == s.updates
  }

  /** The state once v has called its hook. */
  ghost function InTheCall(c: Settings, s: Sys, v: nat, r: nat): Sys
    requires Roused(s, v, r) && c.hasSyncer
  {
    var s1 := BeginWork(s, v);
    CallHook(PickHook(c, s1, v), v)
  }

  lemma TurnStarts(c: Settings, s: Sys, v: nat, r: nat)
    requires Roused(s, v, r) && c.hasSyncer
    ensures Reaches(c, s, InTheCall(c, s, v, r))
  {
    var s1 := BeginWork(s, v);
    Steps(c, s, Begin(v));
    ThenStep(c, s, s1, Recheck(v));
    ThenStep(c, s, PickHook(c, s1, v), StartCall(v));
  }

  lemma TurnStarted(c: Settings, s: Sys, v: nat, r: nat)
    requires Roused(s, v, r) && c.hasSyncer
    ensures var t := InTheCall(c, s, v, r);
      && InCallOn(t, v, r, s.workers[v].id) && SameMaps(s, t) && Beside(s, t, {v})
      && t.signals == s.signals
      && t.recs[r].State() == s.recs[r].State() && t.recs[r].working && t.recs[r].pending.None?
      && t.workers[v].pc.kind ==
           (match s.recs[r].State()
            case Starting => SyncCall
            case Syncing => SyncCall
            case Terminating => TerminatingCall
            case _ => TerminatedCall)
  {
  }

  // ----- Workers that can be woken -----

  /** A worker of the identifier that has not exited is going to be woken. */
  ghost predicate Rousable(s: Sys, u: nat, id: ProcessID) {
    Due(s, u) && s.workers[u].id == id && !s.workers[u].pc.Exited?
  }

  // ----- The race -----

  function Creation(id: ProcessID): ProcessUpdate {
    ProcessUpdate(id, TypeCreate, Some(0), None, None)
  }

  function Termination(id: ProcessID): ProcessUpdate {
    ProcessUpdate(id, TypeTerminate, Some(0), None, None)
  }

  /** The identifier is not tracked; worker numbers are in use up to `next`. */
  ghost predicate Gone(s: Sys, id: ProcessID) {
    id !in s.statuses && id !in s.updates && forall x | x in s.workers :: x < s.next
  }

  /** What an update for an untracked identifier comes to. */
  lemma CreatedIs(s: Sys, u: ProcessUpdate)
    requires Gone(s, u.id)
    ensures var t := Submit(s, u);
      && t.next == s.next + 2 && t.statuses == s.statuses[u.id := s.next] && t.updates == s.updates[u.id := s.next + 1]
      && t.workers == s.workers[s.next + 1 := Worker(u.id, Waiting)] && t.signals == s.signals + {s.next + 1}
      && t.consumer == s.consumer && s.next in t.recs && t.recs[s.next] == AcceptUpdate(NewStatus, u, s.now)
  {
  }

  /** An update for an untracked identifier starts a new worker on a new channel. */
  lemma Created(c: Settings, s: Sys, u: ProcessUpdate)
    requires Gone(s, u.id)
    ensures var t := Submit(s, u);
      && Reaches(c, s, t) && Beside(s, t, {})
      && t.next == s.next + 2 && u.id in t.statuses && t.statuses[u.id] == s.next
      && u.id in t.updates && t.updates[u.id] == s.next + 1
      && s.next + 1 in t.workers && t.workers[s.next + 1] == Worker(u.id, Waiting) && s.next + 1 in t.signals
      && s.next in t.recs && !t.recs[s.next].working && t.recs[s.next].pending.Some? && !t.recs[s.next].IsFinished()
      && t.recs[s.next].State() == (if u.updateType == TypeTerminate then Terminating else Starting)
  {
    CreatedIs(s, u);
    Steps(c, s, UpdateProcess(u));
  }

  /** ... and that worker calls its hook. */
  lemma CreatedCalls(c: Settings, s: Sys, u: ProcessUpdate) returns (t: Sys)
    requires Gone(s, u.id) && c.hasSyncer
    ensures Reaches(c, s, t) && Beside(s, t, {s.next + 1}) && InCallOn(t, s.next + 1, s.next, u.id)
    ensures t.next >= s.next + 2 && u.id in t.updates && t.updates[u.id] == s.next + 1
    ensures t.recs[s.next].pending.None? && t.recs[s.next].working
    ensures t.recs[s.next].State() == (if u.updateType == TypeTerminate then Terminating else Starting)
    ensures t.workers[s.next + 1].pc.kind == (if u.updateType == TypeTerminate then TerminatingCall else SyncCall)
  {
    var r, v := s.next, s.next + 1;
    Created(c, s, u);
    var s1 := Submit(s, u);
    var s2 := TakeSignal(s1, v);
    ThenStep(c, s, s1, Receive(v));
    TurnStarts(c, s2, v, r);
    TurnStarted(c, s2, v, r);
    t := InTheCall(c, s2, v, r);
    ReachesOn(c, s, s2, t);
    BesideOn(s, s1, s2, {}, {v});
    BesideAgain(s, s2, t, v);
  }

  /** Record q is up for grabs, while v is in a call on it. */
  ghost predicate Unguarded(s: Sys, v: nat, q: nat, id: ProcessID) {
    && InCallOn(s, v, q, id)
    && !s.recs[q].working && !s.recs[q].IsFinished() && s.recs[q].pending.Some?
  }

  /** completeWork of an old worker clears the new record's mark ... */
  lemma MarkCleared(c: Settings, s: Sys, w: nat, v: nat, q: nat, id: ProcessID)
    requires w in s.workers && s.workers[w].id == id && s.workers[w].pc.Ended?
    requires v != w && InCallOn(s, v, q, id) && s.recs[q].State() == Starting && s.recs[q].pending.None?
    ensures var t := CompleteWork(s, w, DelayOf(c, s, w, 0.0));
      && Reaches(c, s, t) && Beside(s, t, {w}) && SameMaps(s, t) && t.signals == s.signals && t.next == s.next
      && InCallOn(t, v, q, id) && !t.recs[q].working && t.recs[q].State() == Starting
      && w in t.workers && t.workers[w] == Worker(id, Waiting)
  {
    Steps(c, s, Complete(w, 0.0));
  }

  lemma SubmitFills(s: Sys, q: nat, id: ProcessID)
    requires id in s.statuses && s.statuses[id] == q && q in s.recs && id in s.updates
    requires !s.recs[q].working && s.recs[q].State() == Starting
    ensures var t := Submit(s, Creation(id));
      && t.workers == s.workers && t.statuses == s.statuses && t.consumer == s.consumer && t.next == s.next
      && s.signals <= t.signals && q in t.recs
      && !t.recs[q].working && !t.recs[q].IsFinished() && t.recs[q].pending.Some?
  {
    assert Live(s, id);
    assert Submit(s, Creation(id)) == WakeWorker(Accept(s, Creation(id)), id);
  }

  /** ... and an update gives the next worker something to do. */
  lemma Refilled(c: Settings, s: Sys, v: nat, q: nat, id: ProcessID)
    requires InCallOn(s, v, q, id) && !s.recs[q].working && s.recs[q].State() == Starting && id in s.updates
    ensures var t := Submit(s, Creation(id));
      Reaches(c, s, t) && Beside(s, t, {}) && Unguarded(t, v, q, id) && t.workers == s.workers
  {
    SubmitFills(s, q, id);
    Steps(c, s, UpdateProcess(Creation(id)));
  }

  lemma Unmarked(c: Settings, s: Sys, w: nat, v: nat, q: nat, id: ProcessID) returns (t: Sys)
    requires w in s.workers && s.workers[w].id == id && s.workers[w].pc.Ended?
    requires v != w && InCallOn(s, v, q, id) && s.recs[q].State() == Starting && s.recs[q].pending.None?
    requires id in s.updates
    ensures Reaches(c, s, t) && Beside(s, t, {w}) && Unguarded(t, v, q, id)
    ensures w in t.workers && t.workers[w] == Worker(id, Waiting) && (w in s.signals ==> w in t.signals)
  {
    var s1 := CompleteWork(s, w, DelayOf(c, s, w, 0.0));
    MarkCleared(c, s, w, v, q, id);
    t := Submit(s1, Creation(id));
    Refilled(c, s1, v, q, id);
    ReachesOn(c, s, s1, t);
    BesideOn(s, s1, t, {w}, {});
  }

  /** A worker that is due stays so while a new worker v and the closing worker w move. */
  lemma StillDue(s: Sys, t: Sys, w: nat, v: nat, u: nat)
    requires Due(s, u) && Beside(s, t, {v, w}) && v !in s.workers
    requires w in s.workers && s.workers[w].pc.Ended? && w in t.workers && (w in s.signals ==> w in t.signals)
    ensures Due(t, u)
  {
    if !s.workers[u].pc.Woken? && u !in s.signals && s.consumer != Signalling(u) {
      var x :| NoLostWork.AboutToSignal(s, x, u);
      assert x != w && NoLostWork.AboutToSignal(t, x, u);
    }
  }

  lemma SecondCall(c: Settings, s: Sys, v: nat, u: nat, q: nat, id: ProcessID) returns (t: Sys)
    requires Unguarded(s, v, q, id) && c.hasSyncer && u != v && Rousable(s, u, id)
    requires Unoccupied(s, u) || s.workers[u].pc.Woken?
    ensures Reaches(c, s, t) && TwoCalls(t, id)
  {
    var s1 := Wakes(c, s, u);
    ProceedsReaches(c, s, s1);
    TurnStarts(c, s1, u, q);
    TurnStarted(c, s1, u, q);
    t := InTheCall(c, s1, u, q);
    ReachesOn(c, s, s1, t);
    assert t.workers[v] == s1.workers[v] == s.workers[v];
    assert t.workers[u].pc.InCall? && t.workers[v].pc.InCall?;
  }

  /** The identifier has gone while w has yet to run completeWork, and some worker u of it is going to be woken. */
  lemma RaceFrom(c: Settings, s: Sys, w: nat, u: nat, id: ProcessID) returns (t: Sys)
    requires c.hasSyncer && Gone(s, id)
    requires w in s.workers && s.workers[w].id == id && s.workers[w].pc.Ended?
    requires Rousable(s, u, id) && (u == w || !InTurn(s.workers[u].pc))
    ensures Reaches(c, s, t) && TwoCalls(t, id)
  {
    var q, v := s.next, s.next + 1;
    var s1 := CreatedCalls(c, s, Creation(id));
    var s2 := Unmarked(c, s1, w, v, q, id);
    ReachesOn(c, s, s1, s2);
    BesideOn(s, s1, s2, {v}, {w});
    assert {v} + {w} == {v, w};
    StillDue(s, s2, w, v, u);
    t := SecondCall(c, s2, v, u, q, id);
    ReachesOn(c, s, s2, t);
  }

  // ----- A worker left behind with a signal in its channel -----

  const OK := Outcome(false, None)

  lemma {:induction false} ReachesKeeps(c: Settings, s: Sys, t: Sys)
    requires NoLostWork.Inv(s) && Reaches(c, s, t)
    ensures NoLostWork.Inv(t)
  {
    var es :| NoRemoval(es) && Leads(c, s, es, t);
    NoLostWork.RunKeeps(c, s, es);
  }

  /** SyncTerminatingProcess succeeds. */
  lemma Stopped(c: Settings, s: Sys, v: nat, q: nat, id: ProcessID) returns (t: Sys)
    requires InCallOn(s, v, q, id) && s.workers[v].pc.kind == TerminatingCall && s.recs[q].State() == Terminating
    requires id in s.updates && s.updates[id] == v
    ensures Reaches(c, s, t) && Beside(s, t, {v}) && SameMaps(s, t)
    ensures v in t.workers && t.workers[v] == Worker(id, LateSignal(Some(v)))
    ensures q in t.recs && t.recs[q].State() == Terminated && !t.recs[q].working && t.recs[q].pending.Some?
  {
    var s1 := ReturnFromHook(s, v, OK);
    Steps(c, s, EndCall(v, OK));
    t := CompleteWork(s1, v, DelayOf(c, s1, v, 0.0));
    ThenStep(c, s, s1, Complete(v, 0.0));
  }

  /** The worker signals itself and begins the clean-up. */
  lemma CleaningUp(c: Settings, s: Sys, v: nat, q: nat, id: ProcessID) returns (t: Sys)
    requires c.hasSyncer && v in s.workers && s.workers[v] == Worker(id, LateSignal(Some(v)))
    requires id in s.statuses && s.statuses[id] == q && q in s.recs && s.recs[q].State() == Terminated
    requires !s.recs[q].working && s.recs[q].pending.Some?
    ensures Reaches(c, s, t) && Beside(s, t, {v}) && SameMaps(s, t)
    ensures InCallOn(t, v, q, id) && t.workers[v].pc.kind == TerminatedCall && t.recs[q].State() == Terminated
    ensures t.recs[q].working
  {
    var s1 := SendLateSignal(s, v);
    Steps(c, s, SendLate(v));
    var s2 := TakeSignal(s1, v);
    ThenStep(c, s, s1, Receive(v));
    TurnStarts(c, s2, v, q);
    TurnStarted(c, s2, v, q);
    t := InTheCall(c, s2, v, q);
    ReachesOn(c, s, s2, t);
    assert Beside(s, s2, {v});
    BesideAgain(s, s2, t, v);
  }

  /** An update arrives during the clean-up call, which then succeeds. */
  lemma Cleaned(c: Settings, s: Sys, v: nat, q: nat, id: ProcessID) returns (t: Sys)
    requires InCallOn(s, v, q, id) && s.workers[v].pc.kind == TerminatedCall && s.recs[q].State() == Terminated
    requires id in s.updates && s.updates[id] == v && s.recs[q].working
    ensures Reaches(c, s, t) && Beside(s, t, {v}) && SameMaps(s, t)
    ensures v in t.workers && t.workers[v] == Worker(id, Ended(q, None)) && v in t.signals
    ensures q in t.recs && t.recs[q].IsFinished() && t.recs[q].working
  {
    var s1 := Submit(s, Creation(id));
    Steps(c, s, UpdateProcess(Creation(id)));
    t := ReturnFromHook(s1, v, OK);
    ThenStep(c, s, s1, EndCall(v, OK));
  }

  /** A process is started and stopped; its worker is left before completeWork with a signal in its channel. */
  lemma LeftBehind(c: Settings, s: Sys, id: ProcessID) returns (t: Sys)
    requires c.hasSyncer && Gone(s, id)
    ensures Reaches(c, s, t) && Beside(s, t, {s.next + 1})
    ensures id in t.statuses && t.statuses[id] == s.next && id in t.updates && t.updates[id] == s.next + 1
    ensures s.next + 1 in t.workers && t.workers[s.next + 1] == Worker(id, Ended(s.next, None))
    ensures s.next + 1 in t.signals
    ensures s.next in t.recs && t.recs[s.next].IsFinished() && t.recs[s.next].working
  {
    var q, v := s.next, s.next + 1;
    var s1 := CreatedCalls(c, s, Termination(id));
    var s2 := Stopped(c, s1, v, q, id);
    ReachesOn(c, s, s1, s2);
    BesideAgain(s, s1, s2, v);
    var s3 := CleaningUp(c, s2, v, q, id);
    ReachesOn(c, s, s2, s3);
    BesideAgain(s, s2, s3, v);
    t := Cleaned(c, s3, v, q, id);
    ReachesOn(c, s, s3, t);
    BesideAgain(s, s3, t, v);
  }

  /** Such a worker may well complete first; then the record's removal is in order. */
  lemma PutAside(c: Settings, s: Sys, v: nat, q: nat, id: ProcessID)
    requires id in s.statuses && s.statuses[id] == q && q in s.recs && s.recs[q].IsFinished()
    requires v in s.workers && s.workers[v] == Worker(id, Ended(q, None)) && v in s.signals
    ensures var t := CompleteWork(s, v, DelayOf(c, s, v, 0.0));
      && Reaches(c, s, t) && Beside(s, t, {v}) && SameMaps(s, t)
      && v in t.workers && t.workers[v] == Worker(id, Waiting) && v in t.signals
      && q in t.recs && t.recs[q].IsFinished() && !t.recs[q].working
  {
    Steps(c, s, Complete(v, 0.0));
  }

  /** With the removal of that record in between, w races without a signal of its own. */
  lemma RaceAfterDetour(c: Settings, s: Sys, w: nat, id: ProcessID) returns (m: Sys, t: Sys)
    requires c.hasSyncer && NoLostWork.Inv(s) && Gone(s, id)
    requires w in s.workers && s.workers[w].id == id && s.workers[w].pc.Ended?
    ensures Reaches(c, s, m) && Enabled(c, m, RemoveFinished(id)) && !m.recs[m.statuses[id]].working
    ensures Reaches(c, Removed(m, id), t) && TwoCalls(t, id)
  {
    var q, v := s.next, s.next + 1;
    var s1 := LeftBehind(c, s, id);
    m := CompleteWork(s1, v, DelayOf(c, s1, v, 0.0));
    PutAside(c, s1, v, q, id);
    ReachesOn(c, s, s1, m);
    BesideAgain(s, s1, m, v);
    ReachesKeeps(c, s, m);
    assert Due(Removed(m, id), v);
    t := RaceFrom(c, Removed(m, id), w, v, id);
  }

  // ----- Exactly when -----

  /** Two stretches without removals, and a disciplined removal in between, make a disciplined run. */
  lemma DisciplinedDetour(c: Settings, s: Sys, m: Sys, id: ProcessID, t: Sys) returns (es: seq<Event>)
    requires Reaches(c, s, m) && Enabled(c, m, RemoveFinished(id)) && !m.recs[m.statuses[id]].working
    requires Reaches(c, Removed(m, id), t)
    ensures DisciplinedLeads(c, s, es, t)
  {
    var as_ :| NoRemoval(as_) && Leads(c, s, as_, m);
    var bs :| NoRemoval(bs) && Leads(c, Removed(m, id), bs, t);
    var rest := [RemoveFinished(id)] + bs;
    QuietIsDisciplined(c, Removed(m, id), bs);
    assert rest[1..] == bs;
    QuietIsDisciplined(c, s, as_);
    DisciplinedOn(c, s, as_, m, rest);
    es := as_ + rest;
    LeadsOn(c, s, as_, m, rest, t);
  }

  /** In a safe state no two calls are in flight for one process. */
  lemma SafeHasOneCall(c: Settings, s: Sys, id: ProcessID)
    requires Safe(c, s)
    ensures !TwoCalls(s, id)
  {
    forall v, w | v in s.workers && w in s.workers && s.workers[v].id == id == s.workers[w].id
                  && s.workers[v].pc.InCall? && s.workers[w].pc.InCall?
      ensures v == w
    {
      assert TurnOn(s, v, s.workers[v].pc.rec) && TurnOn(s, w, s.workers[w].pc.rec);
    }
  }

  /** A worker still in a turn on a finished record has only completeWork left to run. */
  lemma ClosingWorker(c: Settings, s: Sys, id: ProcessID) returns (w: nat)
    requires Safe(c, s) && Enabled(c, s, RemoveFinished(id)) && s.recs[s.statuses[id]].working
    ensures w in s.workers && s.workers[w].id == id && s.workers[w].pc.Ended?
    ensures forall u | u in s.workers && s.workers[u].id == id && InTurn(s.workers[u].pc) :: u == w
  {
    var r := s.statuses[id];
    w :| TurnOn(s, w, r);
    assert RecordLife.Ok(c, ViewOf(s, r, s.workers[w].pc));
    assert s.statuses[s.workers[w].id] == s.statuses[id];
    forall u | u in s.workers && s.workers[u].id == id && InTurn(s.workers[u].pc) ensures u == w {
      assert TurnOn(s, u, r);
    }
  }

  lemma RemovedIsGone(c: Settings, s: Sys, id: ProcessID)
    requires NoLostWork.Inv(s) && Enabled(c, s, RemoveFinished(id))
    ensures NoLostWork.Inv(Removed(s, id)) && Gone(Removed(s, id), id)
  {
    NoLostWork.RemovalKeeps(s, id);
  }

  /** Some continuation of the removal, disciplined from then on, has two calls in flight for the process. */
  ghost predicate CanRace(c: Settings, s: Sys, id: ProcessID) {
    exists es, t :: DisciplinedLeads(c, Removed(s, id), es, t) && TwoCalls(t, id)
  }

  lemma WorkingRaces(c: Settings, s: Sys, id: ProcessID)
    requires Safe(c, s) && Enabled(c, s, RemoveFinished(id)) && s.recs[s.statuses[id]].working && c.hasSyncer
    ensures CanRace(c, s, id)
  {
    RemovedIsGone(c, s, id);
    var w := ClosingWorker(c, s, id);
    var m, t := RaceAfterDetour(c, Removed(s, id), w, id);
    var es := DisciplinedDetour(c, Removed(s, id), m, id, t);
  }

  lemma RestingIsSafe(c: Settings, s: Sys, id: ProcessID)
    requires Safe(c, s) && Enabled(c, s, RemoveFinished(id)) && !s.recs[s.statuses[id]].working
    ensures Safe(c, Removed(s, id))
  {
    RemovalSafe(c, s, id);
    NoLostWork.StepKeeps(c, s, RemoveFinished(id));
    StepHeld(c, s, RemoveFinished(id));
  }

  lemma RestingNeverRaces(c: Settings, s: Sys, id: ProcessID)
    requires Safe(c, s) && Enabled(c, s, RemoveFinished(id)) && !s.recs[s.statuses[id]].working
    ensures !CanRace(c, s, id)
  {
    RestingIsSafe(c, s, id);
    forall es, t | DisciplinedLeads(c, Removed(s, id), es, t) ensures !TwoCalls(t, id) {
      ManagerTheorems.RunSafe(c, Removed(s, id), es);
      SafeHasOneCall(c, t, id);
    }
  }

  // ----- Without a syncer -----

  ghost predicate Callless(s: Sys) {
    forall w | w in s.workers :: !s.workers[w].pc.Calling? && !s.workers[w].pc.InCall?
  }

  /** The worker that an event moves. */
  function Mover(e: Event): Option<nat> {
    match e
    case Receive(w) => Some(w)
    case Begin(w) => Some(w)
    case Recheck(w) => Some(w)
    case StartCall(w) => Some(w)
    case EndCall(w, _) => Some(w)
    case Complete(w, _) => Some(w)
    case SendLate(w) => Some(w)
    case _ => None
  }

  /** All other workers stay where they are, and a new one waits. */
  ghost predicate OthersStay(s: Sys, t: Sys, mover: Option<nat>) {
    && (forall x | x in s.workers :: x in t.workers && t.workers[x].id == s.workers[x].id)
    && (forall x | x in s.workers && mover != Some(x) :: t.workers[x] == s.workers[x])
    && (forall x | x in t.workers && x !in s.workers :: x >= s.next && t.workers[x].pc.Waiting?)
  }

  /** Everything but the records. */
  ghost predicate SameButRecords(s: Sys, t: Sys) {
    && t.workers == s.workers && t.updates == s.updates && t.signals == s.signals && t.consumer == s.consumer
    && s.next <= t.next
  }

  lemma TouchKeepsRest(s: Sys, r: nat, st: Status, cancel: bool, g: seq<GraceRequest>)
    requires r in s.recs
    ensures SameButRecords(s, Touch(s, r, st, cancel, g))
  {
  }

  lemma OrphanedKeepsRest(s: Sys, id: ProcessID)
    requires id in s.statuses && s.statuses[id] in s.recs
    ensures SameButRecords(s, Orphaned(s, id))
  {
  }

  lemma ConsumerLockKeepsRest(s: Sys)
    requires s.consumer.Holding?
    ensures SameButRecords(s, ConsumerLockStep(s).(consumer := s.consumer))
  {
    var id := s.consumer.id;
    if id in s.statuses && s.statuses[id] in s.recs && id in s.updates {
      assert ConsumerLockStep(s).(consumer := s.consumer) == Filled(s, id);
    } else {
      assert ConsumerLockStep(s).(consumer := s.consumer) == s;
    }
  }

  lemma AcceptKeepsRest(s: Sys, u: ProcessUpdate)
    requires u.id in s.statuses && s.statuses[u.id] in s.recs
    ensures SameButRecords(s, Accept(s, u))
  {
    var r := s.statuses[u.id];
    var terminate := u.updateType == TypeTerminate;
    TouchKeepsRest(s, r, AcceptUpdate(s.recs[r], u, s.now), terminate && CancelsContext(s.recs[r]),
      if terminate then [GraceOf(u.terminateOptions)] else []);
  }

  /** A worker is started at most, and the identifier's channel signalled at most. */
  ghost predicate Submitted(s: Sys, t: Sys, id: ProcessID) {
    && s.next <= t.next && t.consumer == s.consumer
    && (|| (t.workers == s.workers && t.updates == s.updates)
        || (id !in s.updates && id in t.updates && s.next <= t.updates[id] < t.next
            && t.updates == s.updates[id := t.updates[id]]
            && t.workers == s.workers[t.updates[id] := Worker(id, Waiting)]))
    && (t.signals == s.signals || (id in t.updates && t.signals == s.signals + {t.updates[id]}))
  }

  lemma WakeSubmits(s0: Sys, s: Sys, id: ProcessID)
    requires SameButRecords(s0, s)
    ensures Submitted(s0, WakeWorker(s, id), id)
  {
  }

  lemma SubmitIs(s: Sys, u: ProcessUpdate)
    ensures Submitted(s, Submit(s, u), u.id)
  {
    var s1 := WithRecord(s, u.id);
    assert SameButRecords(s, s1);
    if Live(s1, u.id) {
      AcceptKeepsRest(s1, u);
      WakeSubmits(s, Accept(s1, u), u.id);
    }
  }

  lemma SubmitStays(s: Sys, u: ProcessUpdate)
    requires forall x | x in s.workers :: x < s.next
    ensures OthersStay(s, Submit(s, u), None)
  {
    SubmitIs(s, u);
  }

  /** Only worker w, and what is not a worker, differ. */
  ghost predicate MovesOnly(s: Sys, t: Sys, w: nat) {
    w in s.workers && w in t.workers && t.workers == s.workers[w := Worker(s.workers[w].id, t.workers[w].pc)]
  }

  lemma BeginMoves(s: Sys, w: nat)
    requires w in s.workers
    ensures MovesOnly(s, BeginWork(s, w), w)
  {
  }

  lemma CompleteMoves(s: Sys, w: nat, delay: int)
    requires w in s.workers && s.workers[w].pc.Ended?
    ensures MovesOnly(s, CompleteWork(s, w, delay), w)
  {
  }

  lemma MoverMoves(c: Settings, s: Sys, e: Event)
    requires Enabled(c, s, e) && Mover(e).Some?
    ensures MovesOnly(s, Step(c, s, e), Mover(e).value)
  {
    match e
    case Begin(w) => BeginMoves(s, w);
    case EndCall(w, out) => assert MovesOnly(s, ReturnFromHook(s, w, out), w);
    case Complete(w, draw) => CompleteMoves(s, w, DelayOf(c, s, w, draw));
    case _ =>
  }

  lemma MoverStays(c: Settings, s: Sys, e: Event)
    requires Enabled(c, s, e) && Mover(e).Some?
    ensures OthersStay(s, Step(c, s, e), Mover(e))
  {
    MoverMoves(c, s, e);
  }

  lemma StepStays(c: Settings, s: Sys, e: Event)
    requires Enabled(c, s, e) && forall x | x in s.workers :: x < s.next
    ensures OthersStay(s, Step(c, s, e), Mover(e))
  {
    if e.UpdateProcess? {
      SubmitStays(s, e.u);
    } else if Mover(e).Some? {
      MoverStays(c, s, e);
    } else if e.TerminateOrphan? {
      OrphanedKeepsRest(s, e.id);
    } else if e.ConsumerLock? {
      ConsumerLockKeepsRest(s);
    }
  }

  /** Without a syncer the moving worker never gets as far as a call. */
  lemma MoverCallless(c: Settings, s: Sys, e: Event)
    requires Callless(s) && Enabled(c, s, e) && Mover(e).Some? && !c.hasSyncer
    ensures var w := Mover(e).value; var t := Step(c, s, e);
      w in t.workers && !t.workers[w].pc.Calling? && !t.workers[w].pc.InCall?
  {
    match e
    case Begin(w) => BeginPlace(s, w);
    case Complete(w, draw) => CompletePlace(s, w, DelayOf(c, s, w, draw));
    case _ =>
  }

  /** Where the opening section leaves its worker. */
  lemma BeginPlace(s: Sys, w: nat)
    requires w in s.workers
    ensures var t := BeginWork(s, w);
      w in t.workers && (t.workers[w].pc.Exited? || t.workers[w].pc.Waiting? || t.workers[w].pc.Chosen?)
  {
  }

  /** Where completeWork leaves its worker. */
  lemma CompletePlace(s: Sys, w: nat, delay: int)
    requires w in s.workers && s.workers[w].pc.Ended?
    ensures var t := CompleteWork(s, w, delay);
      w in t.workers && (t.workers[w].pc.Waiting? || t.workers[w].pc.LateSignal?)
  {
  }

  lemma CalllessStep(c: Settings, s: Sys, e: Event)
    requires NoLostWork.Inv(s) && Callless(s) && Enabled(c, s, e) && !c.hasSyncer
    ensures Callless(Step(c, s, e))
  {
    StepStays(c, s, e);
    if Mover(e).Some? {
      MoverCallless(c, s, e);
    }
    var t := Step(c, s, e);
    forall w | w in t.workers ensures !t.workers[w].pc.Calling? && !t.workers[w].pc.InCall? {
      if w in s.workers && Mover(e) != Some(w) {
        assert t.workers[w] == s.workers[w];
      }
    }
  }

  /** A manager without a syncer calls no hook. */
  lemma {:induction false} CalllessRun(c: Settings, s: Sys, es: seq<Event>)
    requires NoLostWork.Inv(s) && Callless(s) && IsRun(c, s, es) && !c.hasSyncer
    ensures Callless(Exec(c, s, es))
    decreases |es|
  {
    if es != [] {
      CalllessStep(c, s, es[0]);
      NoLostWork.StepKeeps(c, s, es[0]);
      CalllessRun(c, Step(c, s, es[0]), es[1..]);
    }
  }

  lemma ReachableIsCallless(c: Settings, s: Sys)
    requires Reachable(c, s) && !c.hasSyncer
    ensures Callless(s)
  {
    var start, es :| DisciplinedLeads(c, Init(start), es, s);
    CalllessRun(c, Init(start), es);
  }

  lemma CalllessNeverRaces(c: Settings, s: Sys, id: ProcessID)
    requires NoLostWork.Inv(Removed(s, id)) && Callless(s) && !c.hasSyncer
    ensures !CanRace(c, s, id)
  {
    forall es, t | DisciplinedLeads(c, Removed(s, id), es, t) ensures !TwoCalls(t, id) {
      CalllessRun(c, Removed(s, id), es);
    }
  }

  /**
  In every reachable state: removing a finished record can lead to two calls in flight for its process,
  although every later removal is disciplined again, exactly if a worker is still in a turn on the record.
  */
  lemma RaceExactly(c: Settings, s: Sys, id: ProcessID)
    requires Reachable(c, s) && Enabled(c, s, RemoveFinished(id))
    ensures CanRace(c, s, id) <==> c.hasSyncer && s.recs[s.statuses[id]].working
  {
    ReachableIsSafe(c, s);
    if !c.hasSyncer {
      ReachableIsCallless(c, s);
      RemovedIsGone(c, s, id);
      CalllessNeverRaces(c, s, id);
    } else if s.recs[s.statuses[id]].working {
      WorkingRaces(c, s, id);
    } else {
      RestingNeverRaces(c, s, id);
    }
  }

  // ----- Without any further removal -----

  /** The old workers of the identifier have nothing coming, and there is at most one new one. */
  ghost predicate Settled(s: Sys, id: ProcessID, n: nat) {
    && n <= s.next
    && (forall u | u in s.workers && u < n && s.workers[u].id == id :: AtRest(s, u))
    && (forall u | u in s.workers && u >= n && s.workers[u].id == id :: id in s.updates && s.updates[id] == u)
    && (id in s.updates ==> s.updates[id] >= n)
  }

  ghost predicate AtRest(s: Sys, u: nat)
    requires u in s.workers
  {
    s.workers[u].pc.Exited? || (!Due(s, u) && (Unoccupied(s, u) || s.workers[u].pc.Ended?))
  }

  lemma SettledHasOneCall(s: Sys, id: ProcessID, n: nat)
    requires Settled(s, id, n)
    ensures !TwoCalls(s, id)
  {
    forall v, w | v in s.workers && w in s.workers && s.workers[v].id == id == s.workers[w].id
                  && s.workers[v].pc.InCall? && s.workers[w].pc.InCall?
      ensures v == w
    {
      assert v >= n && w >= n;
    }
  }

  /** Nothing is sent to channel u: it is not anybody's current channel. */
  ghost predicate Unused(s: Sys, u: nat) {
    u in s.workers && forall id | id in s.updates :: s.updates[id] != u
  }

  lemma SubmitSends(s: Sys, x: ProcessUpdate, u: nat)
    requires NoLostWork.Shape(s, {}) && Unused(s, u) && !Due(s, u)
    ensures u in Submit(s, x).workers && !Due(Submit(s, x), u)
  {
    SubmitIs(s, x);
    SubmittedSends(s, Submit(s, x), x.id, u);
  }

  lemma SubmittedSends(s: Sys, t: Sys, id: ProcessID, u: nat)
    requires Submitted(s, t, id) && u in s.workers && u < s.next && Unused(s, u) && !Due(s, u)
    ensures u in t.workers && !Due(t, u)
  {
    forall y ensures !NoLostWork.AboutToSignal(t, y, u) {
      assert !NoLostWork.AboutToSignal(s, y, u);
    }
  }

  lemma CompleteSends(c: Settings, s: Sys, w: nat, delay: int, u: nat)
    requires Unused(s, u) && !Due(s, u) && w in s.workers && s.workers[w].pc.Ended?
    ensures var t := CompleteWork(s, w, delay); u in t.workers && !Due(t, u)
  {
    var t := CompleteWork(s, w, delay);
    forall y ensures !NoLostWork.AboutToSignal(t, y, u) {
      assert !NoLostWork.AboutToSignal(s, y, u);
    }
  }

  lemma LateSends(s: Sys, w: nat, u: nat)
    requires u in s.workers && !Due(s, u) && w in s.workers && s.workers[w].pc.LateSignal?
    ensures var t := SendLateSignal(s, w); u in t.workers && !Due(t, u)
  {
    var t := SendLateSignal(s, w);
    assert !NoLostWork.AboutToSignal(s, w, u);
    forall y ensures !NoLostWork.AboutToSignal(t, y, u) {
      assert !NoLostWork.AboutToSignal(s, y, u);
    }
  }

  /** The other steps of a worker send nothing. */
  lemma MoveSends(c: Settings, s: Sys, e: Event, u: nat)
    requires u in s.workers && !Due(s, u) && Enabled(c, s, e)
    requires e.Receive? || e.Begin? || e.Recheck? || e.StartCall? || e.EndCall?
    ensures var t := Step(c, s, e); u in t.workers && !Due(t, u)
  {
    MoverStays(c, s, e);
    var t := Step(c, s, e);
    assert t.signals <= s.signals && t.consumer == s.consumer;
    forall y ensures !NoLostWork.AboutToSignal(t, y, u) {
      assert !NoLostWork.AboutToSignal(s, y, u);
    }
  }

  lemma OtherSends(c: Settings, s: Sys, e: Event, u: nat)
    requires Unused(s, u) && !Due(s, u) && Enabled(c, s, e) && !e.RemoveFinished?
    requires e.Dequeue? || e.ConsumerLock? || e.ConsumerSend? || e.TerminateOrphan? || e.Tick?
    ensures var t := Step(c, s, e); u in t.workers && !Due(t, u)
  {
    var t := Step(c, s, e);
    OtherUpdates(c, s, e);
    forall y ensures !NoLostWork.AboutToSignal(t, y, u) {
      assert !NoLostWork.AboutToSignal(s, y, u);
    }
  }

  /** Nobody starts waking the worker of a channel that is not in use. */
  lemma NothingDue(c: Settings, s: Sys, e: Event, u: nat)
    requires NoLostWork.Shape(s, {}) && Unused(s, u) && !Due(s, u) && Enabled(c, s, e) && !e.RemoveFinished?
    ensures var t := Step(c, s, e); u in t.workers && !Due(t, u)
  {
    match e
    case UpdateProcess(x) => SubmitSends(s, x, u);
    case Complete(w, draw) => CompleteSends(c, s, w, DelayOf(c, s, w, draw), u);
    case SendLate(w) => LateSends(s, w, u);
    case _ => if Mover(e).Some? { MoveSends(c, s, e, u); } else { OtherSends(c, s, e, u); }
  }

  /** Channels change hands only when an identifier gets its first. */
  ghost predicate ChannelsKept(s: Sys, t: Sys, id: ProcessID) {
    && s.next <= t.next
    && (id in s.updates ==> id in t.updates && t.updates[id] == s.updates[id])
    && (id in t.updates && id !in s.updates ==> t.updates[id] >= s.next)
    && (forall u | u in t.workers && u !in s.workers && t.workers[u].id == id :: id in t.updates && t.updates[id] == u)
  }

  lemma SubmittedKeeps(s: Sys, t: Sys, x: ProcessID, id: ProcessID)
    requires Submitted(s, t, x)
    ensures ChannelsKept(s, t, id)
  {
  }

  lemma MovedKeeps(s: Sys, t: Sys, w: nat, id: ProcessID)
    requires MovesOnly(s, t, w) && t.updates == s.updates && s.next <= t.next
    ensures ChannelsKept(s, t, id)
  {
  }

  lemma UpdatesStay(c: Settings, s: Sys, e: Event, id: ProcessID)
    requires Enabled(c, s, e) && !e.RemoveFinished?
    ensures ChannelsKept(s, Step(c, s, e), id)
  {
    var t := Step(c, s, e);
    if e.UpdateProcess? {
      SubmitIs(s, e.u);
      SubmittedKeeps(s, t, e.u.id, id);
    } else if Mover(e).Some? {
      MoverMoves(c, s, e);
      MoverUpdates(c, s, e);
      MovedKeeps(s, t, Mover(e).value, id);
    } else {
      OtherUpdates(c, s, e);
    }
  }

  lemma OtherUpdates(c: Settings, s: Sys, e: Event)
    requires Enabled(c, s, e) && Mover(e).None? && !e.UpdateProcess? && !e.RemoveFinished?
    ensures var t := Step(c, s, e); t.workers == s.workers && t.updates == s.updates && s.next <= t.next
  {
    match e
    case TerminateOrphan(id) => OrphanedKeepsRest(s, id);
    case ConsumerLock => ConsumerLockKeepsRest(s);
    case _ =>
  }

  lemma MoverUpdates(c: Settings, s: Sys, e: Event)
    requires Enabled(c, s, e) && Mover(e).Some?
    ensures Step(c, s, e).updates == s.updates && s.next <= Step(c, s, e).next
  {
  }

  lemma RestStays(c: Settings, s: Sys, e: Event, u: nat)
    requires NoLostWork.Shape(s, {}) && Unused(s, u) && Enabled(c, s, e) && !e.RemoveFinished? && AtRest(s, u)
    ensures u in Step(c, s, e).workers && AtRest(Step(c, s, e), u)
  {
    StepStays(c, s, e);
    if !s.workers[u].pc.Exited? {
      NothingDue(c, s, e, u);
      if Mover(e) == Some(u) {
        assert e.Complete? || e.SendLate?;
      }
    }
  }

  lemma SettledStep(c: Settings, s: Sys, e: Event, id: ProcessID, n: nat)
    requires NoLostWork.Shape(s, {}) && Settled(s, id, n) && Enabled(c, s, e) && !e.RemoveFinished?
    ensures Settled(Step(c, s, e), id, n)
  {
    var t := Step(c, s, e);
    StepStays(c, s, e);
    UpdatesStay(c, s, e, id);
    forall u | u in t.workers && u < n && t.workers[u].id == id ensures AtRest(t, u) {
      assert u in s.workers && s.workers[u].id == id;
      RestStays(c, s, e, u);
    }
  }

  lemma {:induction false} SettledRun(c: Settings, s: Sys, es: seq<Event>, id: ProcessID, n: nat)
    requires NoLostWork.Inv(s) && Settled(s, id, n) && IsRun(c, s, es) && NoRemoval(es)
    ensures Settled(Exec(c, s, es), id, n)
    decreases |es|
  {
    if es != [] {
      assert es[0] in es && NoRemoval(es[1..]);
      SettledStep(c, s, es[0], id, n);
      NoLostWork.StepKeeps(c, s, es[0]);
      SettledRun(c, Step(c, s, es[0]), es[1..], id, n);
    }
  }

  /** Some continuation of the removal without another one has two calls in flight for the process. */
  ghost predicate CanRaceAtOnce(c: Settings, s: Sys, id: ProcessID) {
    exists t :: Reaches(c, Removed(s, id), t) && TwoCalls(t, id)
  }

  /** If no worker of the identifier is going to be woken, the old ones stay where they are. */
  lemma SleepingNeverRaces(c: Settings, s: Sys, id: ProcessID)
    requires Safe(c, s) && Enabled(c, s, RemoveFinished(id)) && s.recs[s.statuses[id]].working
    requires forall u :: !Rousable(s, u, id)
    ensures !CanRaceAtOnce(c, s, id)
  {
    var s0 := Removed(s, id);
    RemovedIsGone(c, s, id);
    var w := ClosingWorker(c, s, id);
    forall u | u in s0.workers && u < s.next && s0.workers[u].id == id ensures AtRest(s0, u) {
      assert !Rousable(s, u, id);
      assert forall x :: NoLostWork.AboutToSignal(s0, x, u) <==> NoLostWork.AboutToSignal(s, x, u);
      assert InTurn(s.workers[u].pc) ==> u == w;
    }
    forall t | Reaches(c, s0, t) ensures !TwoCalls(t, id) {
      var es :| NoRemoval(es) && Leads(c, s0, es, t);
      SettledRun(c, s0, es, id, s.next);
      SettledHasOneCall(t, id, s.next);
    }
  }

  lemma RousableRaces(c: Settings, s: Sys, id: ProcessID, u: nat)
    requires Safe(c, s) && Enabled(c, s, RemoveFinished(id)) && s.recs[s.statuses[id]].working && c.hasSyncer
    requires Rousable(s, u, id)
    ensures CanRaceAtOnce(c, s, id)
  {
    var s0 := Removed(s, id);
    RemovedIsGone(c, s, id);
    var w := ClosingWorker(c, s, id);
    if x :| NoLostWork.AboutToSignal(s, x, u) { assert NoLostWork.AboutToSignal(s0, x, u); }
    var t := RaceFrom(c, s0, w, u, id);
  }

  lemma AtOnceIsRace(c: Settings, s: Sys, id: ProcessID)
    requires CanRaceAtOnce(c, s, id)
    ensures CanRace(c, s, id)
  {
    var t :| Reaches(c, Removed(s, id), t) && TwoCalls(t, id);
    var es :| NoRemoval(es) && Leads(c, Removed(s, id), es, t);
    QuietIsDisciplined(c, Removed(s, id), es);
    assert DisciplinedLeads(c, Removed(s, id), es, t);
  }

  /**
  ... and it can do so without any further removal exactly if, besides, some worker of the identifier that has not
  exited is going to be woken: it has been, a signal is buffered for it, or one is about to be sent.
  */
  lemma RaceAtOnceExactly(c: Settings, s: Sys, id: ProcessID)
    requires Reachable(c, s) && Enabled(c, s, RemoveFinished(id))
    ensures CanRaceAtOnce(c, s, id) <==>
            c.hasSyncer && s.recs[s.statuses[id]].working && exists u :: Rousable(s, u, id)
  {
    ReachableIsSafe(c, s);
    RaceExactly(c, s, id);
    if CanRaceAtOnce(c, s, id) {
      AtOnceIsRace(c, s, id);
      if forall u :: !Rousable(s, u, id) {
        SleepingNeverRaces(c, s, id);
      }
    } else if c.hasSyncer && s.recs[s.statuses[id]].working {
      forall u ensures !Rousable(s, u, id) {
        if Rousable(s, u, id) { RousableRaces(c, s, id, u); }
      }
    }
  }

  /** A fresh manager can get to where one early removal, and no other, leads to two calls. */
  lemma RaceIsReachable(c: Settings, start: Time, id: ProcessID) returns (s: Sys)
    requires c.hasSyncer
    ensures Reachable(c, s) && Enabled(c, s, RemoveFinished(id)) && CanRaceAtOnce(c, s, id)
  {
    s := LeftBehind(c, Init(start), id);
    var es :| NoRemoval(es) && Leads(c, Init(start), es, s);
    QuietIsDisciplined(c, Init(start), es);
    assert DisciplinedLeads(c, Init(start), es, s);
    ReachableIsSafe(c, s);
    assert Rousable(s, 1, id);
    RousableRaces(c, s, id, 1);
  }
}
