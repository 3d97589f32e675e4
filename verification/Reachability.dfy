/** Runs as a relation between states, and what it takes to wake a worker. */
module Reachability {
  import opened Wrappers
  import opened ProcTypes
  import opened Backoff
  import opened ManagerProtocol
  import opened ManagerSafety
  import ManagerTheorems
  import NoLostWork

  /** A run from s to t. */
  ghost predicate Leads(c: Settings, s: Sys, es: seq<Event>, t: Sys) {
    IsRun(c, s, es) && Exec(c, s, es) == t
  }

  lemma {:induction false} LeadsOn(c: Settings, s: Sys, es: seq<Event>, t: Sys, fs: seq<Event>, u: Sys)
    requires Leads(c, s, es, t) && Leads(c, t, fs, u)
    ensures Leads(c, s, es + fs, u)
    decreases |fs|
  {
    if fs == [] {
      assert es + fs == es;
    } else {
      ExecAppend(c, s, es, fs[0]);
      LeadsOn(c, s, es + [fs[0]], Step(c, t, fs[0]), fs[1..], u);
      ConcatAssoc(es, fs);
    }
  }

  lemma ConcatAssoc<T>(a: seq<T>, b: seq<T>)
    requires b != []
    ensures a + b == (a + [b[0]]) + b[1..]
  {
  }

  lemma OneStep(c: Settings, s: Sys, e: Event)
    requires Enabled(c, s, e)
    ensures Leads(c, s, [e], Step(c, s, e))
  {
    assert [e][1..] == [];
  }

  // ----- Without removals -----

  ghost predicate NoRemoval(es: seq<Event>) {
    forall e | e in es :: !e.RemoveFinished?
  }

  /** Some run without removals leads from s to t. */
  ghost predicate Reaches(c: Settings, s: Sys, t: Sys) {
    exists es :: NoRemoval(es) && Leads(c, s, es, t)
  }

  lemma Steps(c: Settings, s: Sys, e: Event)
    requires Enabled(c, s, e) && !e.RemoveFinished?
    ensures Reaches(c, s, Step(c, s, e))
  {
    OneStep(c, s, e);
    assert NoRemoval([e]);
  }

  lemma ReachesOn(c: Settings, s: Sys, t: Sys, u: Sys)
    requires Reaches(c, s, t) && Reaches(c, t, u)
    ensures Reaches(c, s, u)
  {
    var es :| NoRemoval(es) && Leads(c, s, es, t);
    var fs :| NoRemoval(fs) && Leads(c, t, fs, u);
    LeadsOn(c, s, es, t, fs, u);
    assert NoRemoval(es + fs);
  }

  lemma ThenStep(c: Settings, s: Sys, t: Sys, e: Event)
    requires Reaches(c, s, t) && Enabled(c, t, e) && !e.RemoveFinished?
    ensures Reaches(c, s, Step(c, t, e))
  {
    Steps(c, t, e);
    ReachesOn(c, s, t, Step(c, t, e));
  }

  /** Every event but a removal is disciplined. */
  lemma {:induction false} QuietIsDisciplined(c: Settings, s: Sys, es: seq<Event>)
    requires NoRemoval(es) && IsRun(c, s, es)
    ensures IsDisciplinedRun(c, s, es)
    decreases |es|
  {
    if es != [] {
      assert es[0] in es && NoRemoval(es[1..]);
      QuietIsDisciplined(c, Step(c, s, es[0]), es[1..]);
    }
  }

  // ----- Left to itself -----

  /** A step that the manager makes with nobody calling it, and with hooks that succeed. */
  predicate Own(e: Event) {
    !e.UpdateProcess? && !e.TerminateOrphan? && !e.RemoveFinished? && (e.EndCall? ==> e.out.err.None?)
  }

  ghost predicate OwnOnly(es: seq<Event>) {
    forall e | e in es :: Own(e)
  }

  /** Left to itself, and to time, the manager can get from s to t. */
  ghost predicate Proceeds(c: Settings, s: Sys, t: Sys) {
    exists es :: OwnOnly(es) && Leads(c, s, es, t)
  }

  lemma Proceed(c: Settings, s: Sys, e: Event)
    requires Enabled(c, s, e) && Own(e)
    ensures Proceeds(c, s, Step(c, s, e))
  {
    OneStep(c, s, e);
    assert OwnOnly([e]);
  }

  lemma Rests(c: Settings, s: Sys)
    ensures Proceeds(c, s, s)
  {
    assert OwnOnly([]) && Leads(c, s, [], s);
  }

  lemma ProceedsOn(c: Settings, s: Sys, t: Sys, u: Sys)
    requires Proceeds(c, s, t) && Proceeds(c, t, u)
    ensures Proceeds(c, s, u)
  {
    var es :| OwnOnly(es) && Leads(c, s, es, t);
    var fs :| OwnOnly(fs) && Leads(c, t, fs, u);
    LeadsOn(c, s, es, t, fs, u);
    assert OwnOnly(es + fs);
  }

  lemma ThenProceed(c: Settings, s: Sys, t: Sys, e: Event)
    requires Proceeds(c, s, t) && Enabled(c, t, e) && Own(e)
    ensures Proceeds(c, s, Step(c, t, e))
  {
    Proceed(c, t, e);
    ProceedsOn(c, s, t, Step(c, t, e));
  }

  lemma ProceedsReaches(c: Settings, s: Sys, t: Sys)
    requires Proceeds(c, s, t)
    ensures Reaches(c, s, t)
  {
    var es :| OwnOnly(es) && Leads(c, s, es, t);
    assert NoRemoval(es);
  }

  // ----- Reachable states -----

  /** A disciplined run from s to t. */
  ghost predicate DisciplinedLeads(c: Settings, s: Sys, es: seq<Event>, t: Sys) {
    IsDisciplinedRun(c, s, es) && Leads(c, s, es, t)
  }

  lemma {:induction false} DisciplinedOn(c: Settings, s: Sys, es: seq<Event>, t: Sys, fs: seq<Event>)
    requires IsDisciplinedRun(c, s, es) && Leads(c, s, es, t) && IsDisciplinedRun(c, t, fs)
    ensures IsDisciplinedRun(c, s, es + fs)
    decreases |es|
  {
    if es == [] {
      assert es + fs == fs;
    } else {
      DisciplinedOn(c, Step(c, s, es[0]), es[1..], t, fs);
      HeadTail(es, fs);
    }
  }

  lemma HeadTail<T>(a: seq<T>, b: seq<T>)
    requires a != []
    ensures (a + b)[0] == a[0] && (a + b)[1..] == a[1..] + b
  {
  }

  /** The state of some disciplined run of a fresh manager. */
  ghost predicate Reachable(c: Settings, s: Sys) {
    exists start, es :: DisciplinedLeads(c, Init(start), es, s)
  }

  lemma ReachableIsSafe(c: Settings, s: Sys)
    requires Reachable(c, s)
    ensures Safe(c, s)
  {
    var start, es :| DisciplinedLeads(c, Init(start), es, s);
    ManagerTheorems.AfterIsSafe(c, start, es);
  }

  lemma ReachableOn(c: Settings, s: Sys, t: Sys)
    requires Reachable(c, s) && Proceeds(c, s, t)
    ensures Reachable(c, t)
  {
    var start, es :| DisciplinedLeads(c, Init(start), es, s);
    var fs :| OwnOnly(fs) && Leads(c, s, fs, t);
    assert NoRemoval(fs);
    QuietIsDisciplined(c, s, fs);
    DisciplinedOn(c, Init(start), es, s, fs);
    LeadsOn(c, Init(start), es, s, fs, t);
    assert DisciplinedLeads(c, Init(start), es + fs, t);
  }

  lemma ReachableStep(c: Settings, s: Sys, e: Event)
    requires Reachable(c, s) && Enabled(c, s, e) && !e.RemoveFinished?
    ensures Reachable(c, Step(c, s, e))
  {
    var start, es :| DisciplinedLeads(c, Init(start), es, s);
    OneStep(c, s, e);
    QuietIsDisciplined(c, s, [e]);
    DisciplinedOn(c, Init(start), es, s, [e]);
    LeadsOn(c, Init(start), es, s, [e], Step(c, s, e));
    assert DisciplinedLeads(c, Init(start), es + [e], Step(c, s, e));
  }

  lemma InitIsReachable(c: Settings, start: Time)
    ensures Reachable(c, Init(start))
  {
    assert DisciplinedLeads(c, Init(start), [], Init(start));
  }

  // ----- Waking a worker -----

  /** Somebody is going to wake the worker of channel u, or has. */
  ghost predicate Due(s: Sys, u: nat) {
    && u in s.workers
    && (|| s.workers[u].pc.Woken?
        || u in s.signals
        || s.consumer == Signalling(u)
        || exists x :: NoLostWork.AboutToSignal(s, x, u))
  }

  /** Worker u is not in a turn and can be woken. */
  ghost predicate Unoccupied(s: Sys, u: nat) {
    u in s.workers && (s.workers[u].pc.Waiting? || s.workers[u].pc.LateSignal?)
  }

  /** Records, maps and workers in a turn are as they were. */
  ghost predicate RecordsKept(s: Sys, t: Sys) {
    && t.statuses == s.statuses && t.updates == s.updates && t.recs == s.recs && t.next == s.next
    && t.calls == s.calls && t.queue == s.queue && t.now == s.now
    && (forall y | y in s.workers && InTurn(s.workers[y].pc) :: y in t.workers && t.workers[y] == s.workers[y])
  }

  lemma KeptOn(s: Sys, t: Sys, u: Sys)
    requires RecordsKept(s, t) && RecordsKept(t, u)
    ensures RecordsKept(s, u)
  {
  }

  lemma TakesSignal(c: Settings, s: Sys, u: nat)
    requires u in s.workers && s.workers[u].pc.Waiting? && u in s.signals
    ensures var t := TakeSignal(s, u);
      Proceeds(c, s, t) && RecordsKept(s, t) && t.workers[u] == Worker(s.workers[u].id, Woken)
  {
    Proceed(c, s, Receive(u));
  }

  /** A pending late signal is sent; it may be somebody else's. */
  lemma SendsLate(c: Settings, s: Sys, x: nat)
    requires x in s.workers && s.workers[x].pc.LateSignal?
    ensures var t := SendLateSignal(s, x);
      && Proceeds(c, s, t) && RecordsKept(s, t) && s.signals <= t.signals
      && (s.workers[x].pc.ch.Some? ==> s.workers[x].pc.ch.value in t.signals)
      && t.workers == s.workers[x := Worker(s.workers[x].id, Waiting)]
  {
    Proceed(c, s, SendLate(x));
  }

  lemma LateWakes(c: Settings, s: Sys, u: nat) returns (t: Sys)
    requires u in s.workers && s.workers[u].pc.LateSignal? && u in s.signals
    ensures Proceeds(c, s, t) && RecordsKept(s, t) && u in t.workers && t.workers[u] == Worker(s.workers[u].id, Woken)
  {
    var s1 := SendLateSignal(s, u);
    SendsLate(c, s, u);
    TakesSignal(c, s1, u);
    t := TakeSignal(s1, u);
    ProceedsOn(c, s, s1, t);
    KeptOn(s, s1, t);
  }

  /** A signal in its channel wakes a worker that is not in a turn. */
  lemma SignalWakes(c: Settings, s: Sys, u: nat) returns (t: Sys)
    requires Unoccupied(s, u) && u in s.signals
    ensures Proceeds(c, s, t) && RecordsKept(s, t) && u in t.workers && t.workers[u] == Worker(s.workers[u].id, Woken)
  {
    if s.workers[u].pc.LateSignal? {
      t := LateWakes(c, s, u);
    } else {
      TakesSignal(c, s, u);
      t := TakeSignal(s, u);
    }
  }

  /** A signal that is on its way arrives. */
  lemma SignalArrives(c: Settings, s: Sys, u: nat) returns (t: Sys)
    requires Due(s, u) && Unoccupied(s, u)
    ensures Proceeds(c, s, t) && RecordsKept(s, t) && Unoccupied(t, u) && u in t.signals
    ensures t.workers[u].id == s.workers[u].id
  {
    if u in s.signals {
      t := s;
      Rests(c, s);
    } else if s.consumer == Signalling(u) {
      t := ConsumerSignal(s);
      Proceed(c, s, ConsumerSend);
    } else {
      var x :| NoLostWork.AboutToSignal(s, x, u);
      t := SendLateSignal(s, x);
      SendsLate(c, s, x);
    }
  }

  /** Whatever is due, the worker wakes. */
  lemma Wakes(c: Settings, s: Sys, u: nat) returns (t: Sys)
    requires Due(s, u) && (Unoccupied(s, u) || s.workers[u].pc.Woken?)
    ensures Proceeds(c, s, t) && RecordsKept(s, t) && u in t.workers && t.workers[u] == Worker(s.workers[u].id, Woken)
  {
    if s.workers[u].pc.Woken? {
      t := s;
      Rests(c, s);
    } else {
      var s1 := SignalArrives(c, s, u);
      t := SignalWakes(c, s1, u);
      ProceedsOn(c, s, s1, t);
      KeptOn(s, s1, t);
    }
  }
}
