/**
What the process manager guarantees in every state of every disciplined run: the
order and exclusiveness of hook calls, cancellation, nested timestamps, error
counts, what the grace period stands for, and retry delays.
*/
module ManagerTheorems {
  import opened Wrappers
  import opened ProcTypes
  import opened Backoff
  import opened ManagerProtocol
  import opened RecordLife
  import opened ManagerSafety
  import NoLostWork

  lemma InitSafe(c: Settings, start: Time)
    ensures Safe(c, Init(start))
  {
  }

  lemma {:induction false} RunSafe(c: Settings, s: Sys, es: seq<Event>)
    requires Safe(c, s) && IsDisciplinedRun(c, s, es)
    ensures IsRun(c, s, es) && Safe(c, Exec(c, s, es))
    decreases |es|
  {
    DisciplinedRunIsRun(c, s, es);
    if es != [] {
      NoLostWork.StepKeeps(c, s, es[0]);
      StepSafe(c, s, es[0]);
      StepHeld(c, s, es[0]);
      RunSafe(c, Step(c, s, es[0]), es[1..]);
    }
  }

  /** The state a disciplined run from a fresh manager ends in. */
  ghost function After(c: Settings, start: Time, es: seq<Event>): Sys
    requires IsDisciplinedRun(c, Init(start), es)
  {
    DisciplinedRunIsRun(c, Init(start), es);
    Exec(c, Init(start), es)
  }

  lemma AfterIsSafe(c: Settings, start: Time, es: seq<Event>)
    requires IsDisciplinedRun(c, Init(start), es)
    ensures Safe(c, After(c, start, es))
  {
    InitSafe(c, start);
    RunSafe(c, Init(start), es);
  }

  /** At most one hook call is in flight for a record, and only for the record tracked under its identifier. */
  lemma {:induction false} OneCallAtATime(c: Settings, start: Time, es: seq<Event>, v: nat, w: nat)
    requires IsDisciplinedRun(c, Init(start), es)
    requires var s := After(c, start, es);
      v in s.workers && w in s.workers && s.workers[v].pc.InCall? && s.workers[w].pc.InCall?
      && s.workers[v].id == s.workers[w].id
    ensures v == w
  {
    AfterIsSafe(c, start, es);
    var s := After(c, start, es);
    assert TurnOn(s, v, s.workers[v].pc.rec) && TurnOn(s, w, s.workers[w].pc.rec);
  }

  /** Every record is in an Ok view, in or out of a turn. */
  lemma RecordOk(c: Settings, s: Sys, r: nat) returns (pc: PC)
    requires Safe(c, s) && r in s.recs
    ensures Ok(c, ViewOf(s, r, pc))
    ensures pc == Waiting || exists w :: TurnOn(s, w, r) && s.workers[w].pc == pc
  {
    if s.recs[r].working {
      var w :| TurnOn(s, w, r);
      pc := s.workers[w].pc;
    } else {
      pc := Waiting;
    }
  }

  /** The calls made for a record come in the promised order. */
  lemma {:induction false} CallsInOrder(c: Settings, start: Time, es: seq<Event>, r: nat)
    requires IsDisciplinedRun(c, Init(start), es) && r in After(c, start, es).recs
    ensures exists a, b :: InOrder(At0(After(c, start, es).calls, r), a, b)
  {
    AfterIsSafe(c, start, es);
    var s := After(c, start, es);
    var pc := RecordOk(c, s, r);
    LegalIsInOrder(At0(s.calls, r));
  }

  /** ... and so they do with the call in flight counted, however it is going to end. */
  lemma {:induction false} CallInFlightInOrder(c: Settings, start: Time, es: seq<Event>, w: nat, ok: bool)
    requires IsDisciplinedRun(c, Init(start), es)
    requires var s := After(c, start, es); w in s.workers && s.workers[w].pc.InCall?
    ensures var s := After(c, start, es);
      exists a, b :: InOrder(At0(s.calls, s.workers[w].pc.rec) + [CallEnd(s.workers[w].pc.kind, ok)], a, b)
  {
    AfterIsSafe(c, start, es);
    var s := After(c, start, es);
    InFlightIsLegal(c, s, w, ok);
    LegalIsInOrder(At0(s.calls, s.workers[w].pc.rec) + [CallEnd(s.workers[w].pc.kind, ok)]);
  }

  lemma InFlightIsLegal(c: Settings, s: Sys, w: nat, ok: bool)
    requires Safe(c, s) && w in s.workers && s.workers[w].pc.InCall?
    ensures PhaseOf(At0(s.calls, s.workers[w].pc.rec) + [CallEnd(s.workers[w].pc.kind, ok)]) != Illegal
  {
    var r := s.workers[w].pc.rec;
    assert Ok(c, ViewOf(s, r, s.workers[w].pc));
    PhaseOfAppend(At0(s.calls, r), CallEnd(s.workers[w].pc.kind, ok));
  }

  /** A record closes at most one completion channel, at most once, and only once its process has stopped. */
  lemma {:induction false} CompletionClosedOnce(c: Settings, start: Time, es: seq<Event>, r: nat)
    requires IsDisciplinedRun(c, Init(start), es) && r in After(c, start, es).recs
    ensures var s := After(c, start, es);
      |At0(s.closed, r)| <= 1 && (At0(s.closed, r) != [] ==> s.recs[r].IsTerminated())
  {
    AfterIsSafe(c, start, es);
    var pc := RecordOk(c, After(c, start, es), r);
  }

  /**
  Once executeSync has decided on SyncProcess, the context the call has or is going to get
  is cancelled exactly if termination has been requested, wherever the request landed.
  */
  lemma {:induction false} SyncContextCancelled(c: Settings, start: Time, es: seq<Event>, w: nat)
    requires IsDisciplinedRun(c, Init(start), es)
    requires var s := After(c, start, es);
      w in s.workers && (s.workers[w].pc.Calling? || s.workers[w].pc.InCall?) && s.workers[w].pc.kind == SyncCall
    ensures var s := After(c, start, es);
      s.workers[w].pc.rec in s.recs &&
      var st := s.recs[s.workers[w].pc.rec];
      && st.ctx.Some?
      && (s.workers[w].pc.InCall? ==> s.workers[w].pc.ctx == st.ctx)
      && (st.IsTerminating() <==> st.ctx.value in s.cancelled)
  {
    AfterIsSafe(c, start, es);
    var s := After(c, start, es);
    assert Ok(c, ViewOf(s, s.workers[w].pc.rec, s.workers[w].pc));
  }

  lemma {:induction false} TimestampsNested(c: Settings, start: Time, es: seq<Event>, r: nat)
    requires IsDisciplinedRun(c, Init(start), es) && r in After(c, start, es).recs
    ensures Lifecycle(After(c, start, es).recs[r])
  {
    AfterIsSafe(c, start, es);
    var pc := RecordOk(c, After(c, start, es), r);
  }

  /** Out of a turn, both failure counters equal the number of failed calls since the last success. */
  lemma {:induction false} CountersAgree(c: Settings, start: Time, es: seq<Event>, r: nat)
    requires IsDisciplinedRun(c, Init(start), es) && r in After(c, start, es).recs
    requires var st := After(c, start, es).recs[r]; c.hasSyncer && !st.IsFinished() && !st.working
    ensures var s := After(c, start, es);
      s.recs[r].errorCount == s.recs[r].consecutiveFails == TrailingFailures(At0(s.calls, r))
  {
    AfterIsSafe(c, start, es);
    assert Ok(c, ViewOf(After(c, start, es), r, Waiting));
  }

  /** The stored grace period is what the record's termination requests, in order, leave behind. */
  lemma {:induction false} GraceIsHistory(c: Settings, start: Time, es: seq<Event>, r: nat)
    requires IsDisciplinedRun(c, Init(start), es) && r in After(c, start, es).recs
    ensures var s := After(c, start, es); s.recs[r].gracePeriod == GraceAfter(At0(s.grace, r))
  {
    AfterIsSafe(c, start, es);
    var pc := RecordOk(c, After(c, start, es), r);
  }

  lemma Requeued(s: Sys, w: nat, delay: int)
    requires w in s.workers && s.workers[w].pc.Ended? && Live(s, s.workers[w].id)
    ensures Scheduled(s.queue, CompleteWork(s, w, delay).queue, s.workers[w].id, s.now + delay)
  {
    var id := s.workers[w].id;
    assert Live(FinishRecord(s, w), id);
    EnqueueSchedules(s.queue, id, s.now + delay);
  }

  /** Worker w is about to run completeWork for record r, which has not finished. */
  ghost predicate Closing(s: Sys, w: nat, r: nat) {
    && w in s.workers && s.workers[w].pc.Ended? && s.workers[w].pc.rec == r && r in s.recs && !s.recs[r].IsFinished()
  }

  /** What completeWork finds. */
  lemma ClosingIs(c: Settings, s: Sys, w: nat, r: nat)
    requires Safe(c, s) && Closing(s, w, r)
    ensures s.workers[w].id in s.statuses && s.statuses[s.workers[w].id] == r && 0 <= s.recs[r].consecutiveFails
    ensures c.hasSyncer && s.workers[w].pc.err.Some? ==>
              s.recs[r].consecutiveFails + 1 == TrailingFailures(At0(s.calls, r))
  {
    assert Ok(c, ViewOf(s, r, s.workers[w].pc));
  }

  lemma DelayIs(c: Settings, s: Sys, w: nat, r: nat, draw: real)
    requires SaneSettings(c) && 0.0 <= draw < 1.0 && Closing(s, w, r) && 0 <= s.recs[r].consecutiveFails
    requires s.workers[w].id in s.statuses && s.statuses[s.workers[w].id] == r
    requires s.workers[w].pc.err.Some? && s.workers[w].pc.err.value.OtherError? ==> s.recs[r].consecutiveFails < 33
    ensures var x := DelayOf(c, s, w, draw);
      && DelayWithinBounds(c, x)
      && DelayFits(c, s.recs[r].State(), s.recs[r].consecutiveFails + 1, s.workers[w].pc.err, x)
  {
    RequeueDelayBounds(c, FinishTurn(s.recs[r], s.workers[w].pc.err), s.workers[w].pc.err, draw);
  }

  /**
  What completeWork does to the queue: the delay is within the bounds of its case, counting the failures in a row, this
  turn included; with a syncer, those are the failed calls since the last success. The process is due that much later,
  or at the time it had in the queue, whichever is earlier.
  */
  ghost predicate Requeues(c: Settings, s: Sys, w: nat, r: nat, draw: real)
    requires Closing(s, w, r) && 0.0 <= draw < 1.0
  {
    var x, st, err := DelayOf(c, s, w, draw), s.recs[r], s.workers[w].pc.err;
    && 0 <= st.consecutiveFails
    && (c.hasSyncer && err.Some? ==> st.consecutiveFails + 1 == TrailingFailures(At0(s.calls, r)))
    && DelayWithinBounds(c, x) && DelayFits(c, st.State(), st.consecutiveFails + 1, err, x)
    && Scheduled(s.queue, Step(c, s, Complete(w, draw)).queue, s.workers[w].id, s.now + x)
  }

  lemma ClosingRequeues(c: Settings, s: Sys, w: nat, r: nat, draw: real)
    requires SaneSettings(c) && 0.0 <= draw < 1.0 && Closing(s, w, r) && 0 <= s.recs[r].consecutiveFails
    requires s.workers[w].id in s.statuses && s.statuses[s.workers[w].id] == r
    requires c.hasSyncer && s.workers[w].pc.err.Some? ==>
               s.recs[r].consecutiveFails + 1 == TrailingFailures(At0(s.calls, r))
    requires s.workers[w].pc.err.Some? && s.workers[w].pc.err.value.OtherError? ==> s.recs[r].consecutiveFails < 33
    ensures Requeues(c, s, w, r, draw)
  {
    DelayIs(c, s, w, r, draw);
    Requeued(s, w, DelayOf(c, s, w, draw));
  }

  /** So every delay enqueued along a run is as documented, unless the record has failed 34 times in a row. */
  lemma {:induction false} EnqueuedDelays(c: Settings, start: Time, es: seq<Event>, w: nat, r: nat, draw: real)
    requires SaneSettings(c) && 0.0 <= draw < 1.0
    requires IsDisciplinedRun(c, Init(start), es) && Closing(After(c, start, es), w, r)
    requires var s := After(c, start, es);
      s.workers[w].pc.err.Some? && s.workers[w].pc.err.value.OtherError? ==> s.recs[r].consecutiveFails < 33
    ensures Requeues(c, After(c, start, es), w, r, draw)
  {
    AfterIsSafe(c, start, es);
    ClosingIs(c, After(c, start, es), w, r);
    ClosingRequeues(c, After(c, start, es), w, r, draw);
  }
}
