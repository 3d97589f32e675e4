/**
SyncKnownProcesses: one pass over the tracked processes, in whatever order the
map yields them, that forgets finished orphans and terminates the others.

The pass is a run of the protocol's orphan steps, so everything proved about runs
covers it, and its outcome does not depend on the order.
*/
module KnownProcesses {
  import opened Wrappers
  import opened ProcTypes
  import opened Backoff
  import opened ManagerProtocol
  import NoLostWork

  datatype Report = Report(
    state: ProcessState, healthy: bool, lastSync: Option<Time>, errorCount: int, lastError: Option<SyncError>,
    restartCount: int)

  /** Nothing in the manager ever changes a restart count. */
  function ReportOn(st: Status): Report {
    Report(st.State(), st.Healthy(), st.syncedAt, st.errorCount, st.lastError, 0)
  }

  // ----- The outcome, for each identifier on its own -----

  predicate Forgotten(s: Sys, desired: set<ProcessID>, id: ProcessID) {
    id in s.statuses && s.statuses[id] in s.recs && s.recs[s.statuses[id]].IsFinished() && id !in desired
  }

  predicate Stopped(s: Sys, desired: set<ProcessID>, id: ProcessID) {
    Live(s, id) && !s.recs[s.statuses[id]].IsTerminating() && id !in desired
  }

  /** The record of `id` after the pass. */
  function RecordAfter(s: Sys, desired: set<ProcessID>, id: ProcessID): Status
    requires id in s.statuses && s.statuses[id] in s.recs
  {
    var st := s.recs[s.statuses[id]];
    if Stopped(s, desired, id) then RequestTermination(st, None, s.now) else st
  }

  /** How `id` stands in t when the identifiers in `todo` are still to be visited. */
  ghost predicate PassedAt(s: Sys, desired: set<ProcessID>, todo: set<ProcessID>, t: Sys, id: ProcessID)
    requires id in s.statuses && s.statuses[id] in s.recs
  {
    && s.statuses[id] in t.recs
    && t.recs[s.statuses[id]] == (if id in todo then s.recs[s.statuses[id]] else RecordAfter(s, desired, id))
    && (id in t.statuses <==> id in todo || !Forgotten(s, desired, id))
    && (id in t.updates <==> id in t.statuses)
    && (id in t.statuses ==> t.statuses[id] == s.statuses[id])
    && (id in t.updates && id in s.updates ==> t.updates[id] == s.updates[id])
  }

  /** The pass cancels context x: it belongs to a process that the visits so far have stopped. */
  ghost predicate Cut(s: Sys, desired: set<ProcessID>, todo: set<ProcessID>, x: nat) {
    exists id :: Stopped(s, desired, id) && id !in todo && s.recs[s.statuses[id]].ctx == Some(x)
  }

  /** t is s with the pass made over the identifiers outside `todo`. */
  ghost predicate PassedBut(s: Sys, desired: set<ProcessID>, todo: set<ProcessID>, t: Sys) {
    && (forall id | id in s.statuses :: s.statuses[id] in s.recs && PassedAt(s, desired, todo, t, id))
    && (forall id | id in t.statuses :: id in s.statuses)
    && t.now == s.now && t.queue == s.queue && t.workers == s.workers && t.signals == s.signals
    && t.consumer == s.consumer && t.calls == s.calls && t.closed == s.closed
    && (forall x :: x in t.cancelled <==> x in s.cancelled || Cut(s, desired, todo, x))
  }

  // ----- One identifier's visit -----

  function Visit(t: Sys, desired: set<ProcessID>, id: ProcessID): Sys {
    if Forgotten(t, desired, id) then Removed(t, id)
    else if Stopped(t, desired, id) then Orphaned(t, id)
    else t
  }

  lemma VisitHere(s: Sys, desired: set<ProcessID>, todo: set<ProcessID>, t: Sys, id: ProcessID)
    requires id in s.statuses && s.statuses[id] in s.recs && id in todo && t.now == s.now
    requires PassedAt(s, desired, todo, t, id)
    ensures PassedAt(s, desired, todo - {id}, Visit(t, desired, id), id)
  {
  }

  /** Another identifier's maplets and record are untouched. */
  ghost predicate SameAt(t: Sys, u: Sys, r: nat, jd: ProcessID) {
    && (r in t.recs ==> r in u.recs && u.recs[r] == t.recs[r])
    && (jd in u.statuses <==> jd in t.statuses) && (jd in u.statuses ==> u.statuses[jd] == t.statuses[jd])
    && (jd in u.updates <==> jd in t.updates) && (jd in u.updates ==> u.updates[jd] == t.updates[jd])
  }

  lemma VisitSame(t: Sys, desired: set<ProcessID>, id: ProcessID, r: nat, jd: ProcessID)
    requires jd != id && (id in t.statuses ==> t.statuses[id] != r)
    ensures SameAt(t, Visit(t, desired, id), r, jd)
  {
    if Forgotten(t, desired, id) {
      assert SameAt(t, Removed(t, id), r, jd);
    } else if Stopped(t, desired, id) {
      assert SameAt(t, Orphaned(t, id), r, jd);
    }
  }

  lemma VisitElsewhere(s: Sys, desired: set<ProcessID>, todo: set<ProcessID>, t: Sys, id: ProcessID, jd: ProcessID)
    requires jd in s.statuses && s.statuses[jd] in s.recs && jd != id
    requires id in t.statuses ==> t.statuses[id] != s.statuses[jd]
    requires PassedAt(s, desired, todo, t, jd)
    ensures PassedAt(s, desired, todo - {id}, Visit(t, desired, id), jd)
  {
    VisitSame(t, desired, id, s.statuses[jd], jd);
  }

  lemma VisitFrame(t: Sys, desired: set<ProcessID>, id: ProcessID)
    ensures var u := Visit(t, desired, id);
      && u.now == t.now && u.queue == t.queue && u.workers == t.workers && u.signals == t.signals
      && u.consumer == t.consumer && u.calls == t.calls && u.closed == t.closed
  {
    if Forgotten(t, desired, id) {
      assert Removed(t, id).workers == t.workers;
    } else if Stopped(t, desired, id) {
      assert Orphaned(t, id).workers == t.workers;
    }
  }

  /** A visit cancels the context of the process it stops, if it has one, and no other. */
  lemma VisitCuts(s: Sys, desired: set<ProcessID>, todo: set<ProcessID>, t: Sys, id: ProcessID, x: nat)
    requires id in todo && id in s.statuses && s.statuses[id] in s.recs && PassedAt(s, desired, todo, t, id)
    requires x in t.cancelled <==> x in s.cancelled || Cut(s, desired, todo, x)
    ensures x in Visit(t, desired, id).cancelled <==> x in s.cancelled || Cut(s, desired, todo - {id}, x)
  {
    VisitCancels(t, desired, id, x);
    assert Stopped(t, desired, id) <==> Stopped(s, desired, id);
    if Cut(s, desired, todo - {id}, x) {
      var jd :| Stopped(s, desired, jd) && jd !in todo - {id} && s.recs[s.statuses[jd]].ctx == Some(x);
      if jd != id { assert Cut(s, desired, todo, x); }
    }
  }

  lemma VisitCancels(t: Sys, desired: set<ProcessID>, id: ProcessID, x: nat)
    ensures x in Visit(t, desired, id).cancelled <==>
            x in t.cancelled || (Stopped(t, desired, id) && t.recs[t.statuses[id]].ctx == Some(x))
  {
  }

  lemma VisitKeys(t: Sys, desired: set<ProcessID>, id: ProcessID)
    ensures forall jd | jd in Visit(t, desired, id).statuses :: jd in t.statuses
  {
  }

  lemma VisitPasses(s: Sys, desired: set<ProcessID>, todo: set<ProcessID>, t: Sys, id: ProcessID)
    requires NoLostWork.Shape(s, {}) && PassedBut(s, desired, todo, t) && id in todo && id in s.statuses
    ensures PassedBut(s, desired, todo - {id}, Visit(t, desired, id))
  {
    VisitFrame(t, desired, id);
    VisitKeys(t, desired, id);
    assert PassedAt(s, desired, todo, t, id);
    forall x: nat
      ensures x in Visit(t, desired, id).cancelled <==> x in s.cancelled || Cut(s, desired, todo - {id}, x)
    {
      VisitCuts(s, desired, todo, t, id, x);
    }
    forall jd | jd in s.statuses ensures PassedAt(s, desired, todo - {id}, Visit(t, desired, id), jd) {
      assert PassedAt(s, desired, todo, t, id);
      if jd == id { VisitHere(s, desired, todo, t, id); } else { VisitElsewhere(s, desired, todo, t, id, jd); }
    }
  }

  ghost predicate OrphanRun(c: Settings, s: Sys, desired: set<ProcessID>, es: seq<Event>, t: Sys) {
    && (forall e | e in es :: (e.TerminateOrphan? || e.RemoveFinished?) && e.id !in desired)
    && IsRun(c, s, es) && Exec(c, s, es) == t
  }

  lemma VisitRuns(c: Settings, s: Sys, desired: set<ProcessID>, es: seq<Event>, t: Sys, id: ProcessID)
    returns (es1: seq<Event>)
    requires OrphanRun(c, s, desired, es, t)
    ensures OrphanRun(c, s, desired, es1, Visit(t, desired, id))
  {
    es1 := es;
    if Forgotten(t, desired, id) {
      ExecAppend(c, s, es, RemoveFinished(id));
      es1 := es + [RemoveFinished(id)];
    } else if Stopped(t, desired, id) {
      ExecAppend(c, s, es, TerminateOrphan(id));
      es1 := es + [TerminateOrphan(id)];
    }
  }

  ghost predicate Reports(s: Sys, desired: set<ProcessID>, todo: set<ProcessID>, result: map<ProcessID, Report>) {
    && (forall id :: id in result <==> Live(s, id) && id !in todo)
    && (forall id | id in result :: result[id] == ReportOn(RecordAfter(s, desired, id)))
  }

  lemma ReportsStep(s: Sys, desired: set<ProcessID>, todo: set<ProcessID>, result: map<ProcessID, Report>,
                    id: ProcessID, st: Status)
    requires Reports(s, desired, todo, result) && id in todo
    requires id in s.statuses && s.statuses[id] in s.recs && st == RecordAfter(s, desired, id)
    ensures Reports(s, desired, todo - {id}, if st.IsFinished() then result else result[id := ReportOn(st)])
  {
  }

  method SyncKnownProcesses(c: Settings, s: Sys, desiredIDs: seq<ProcessID>)
    returns (t: Sys, result: map<ProcessID, Report>)
    requires NoLostWork.Shape(s, {})
    ensures var desired := set id | id in desiredIDs;
      && PassedBut(s, desired, {}, t) && Reports(s, desired, {}, result)
      && exists es :: OrphanRun(c, s, desired, es, t)
  {
    var desired := set id | id in desiredIDs;
    var todo := s.statuses.Keys;
    t, result := s, map[];
    ghost var es: seq<Event> := [];
    while todo != {}
      invariant todo <= s.statuses.Keys
      invariant PassedBut(s, desired, todo, t)
      invariant OrphanRun(c, s, desired, es, t)
      invariant Reports(s, desired, todo, result)
      decreases todo
    {
      var id :| id in todo;
      assert PassedAt(s, desired, todo, t, id);
      VisitPasses(s, desired, todo, t, id);
      es := VisitRuns(c, s, desired, es, t, id);
      t := Visit(t, desired, id);
      assert PassedAt(s, desired, todo - {id}, t, id);
      ReportsStep(s, desired, todo, result, id, t.recs[s.statuses[id]]);
      if !t.recs[s.statuses[id]].IsFinished() {
        result := result[id := ReportOn(t.recs[s.statuses[id]])];
      }
      todo := todo - {id};
    }
  }
}
