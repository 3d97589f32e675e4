/**
How records evolve along a run: states are one-way, histories only grow, and a
requested termination is through after at most three successful hook calls.
*/
module ManagerProgress {
  import opened Wrappers
  import opened ProcTypes
  import opened Backoff
  import opened ManagerProtocol
  import opened RecordLife
  import opened ManagerSafety
  import opened ManagerTheorems
  import NoLostWork

  /** No lifecycle timestamp is ever taken back. */
  ghost predicate Grows(st: Status, st1: Status) {
    && (st.syncedAt.Some? ==> st1.syncedAt.Some?)
    && (st.terminatingAt.Some? ==> st1.terminatingAt.Some?)
    && (st.terminatedAt.Some? ==> st1.terminatedAt.Some?)
    && (st.finishedAt.Some? ==> st1.finishedAt.Some?)
  }

  lemma GrowingRank(st: Status, st1: Status)
    requires Grows(st, st1)
    ensures Rank(st.State()) <= Rank(st1.State())
  {
  }

  /** Record r is still there, further on. */
  ghost predicate Later(s: Sys, t: Sys, r: nat) {
    && r in s.recs && r in t.recs && Grows(s.recs[r], t.recs[r])
    && At0(s.calls, r) <= At0(t.calls, r)
    && At0(s.grace, r) <= At0(t.grace, r)
  }

  lemma TouchLater(s: Sys, q: nat, st: Status, cancel: bool, g: seq<GraceRequest>, r: nat)
    requires q in s.recs && Grows(s.recs[q], st) && r in s.recs
    ensures Later(s, Touch(s, q, st, cancel, g), r)
  {
  }

  lemma AcceptGrows(st: Status, u: ProcessUpdate, now: Time)
    ensures Grows(st, AcceptUpdate(st, u, now))
  {
  }

  lemma AcceptLater(s: Sys, u: ProcessUpdate, r: nat)
    requires Live(s, u.id) && r in s.recs
    ensures Later(s, Accept(s, u), r)
  {
    var q := s.statuses[u.id];
    var terminate := u.updateType == TypeTerminate;
    AcceptGrows(s.recs[q], u, s.now);
    TouchLater(s, q, AcceptUpdate(s.recs[q], u, s.now), terminate && CancelsContext(s.recs[q]),
      if terminate then [GraceOf(u.terminateOptions)] else [], r);
  }

  lemma DeliverLater(s: Sys, u: ProcessUpdate, r: nat)
    requires Live(s, u.id) && r in s.recs
    ensures Later(s, Deliver(s, u), r)
  {
    AcceptLater(s, u, r);
    assert Later(Accept(s, u), Deliver(s, u), r);
  }

  lemma UpdateLater(s: Sys, u: ProcessUpdate, r: nat)
    requires r in s.recs && r < s.next
    ensures Later(s, Submit(s, u), r)
  {
    var s1 := WithRecord(s, u.id);
    assert Later(s, s1, r);
    if Live(s1, u.id) { DeliverLater(s1, u, r); }
  }

  /** Moving a worker leaves the records as they are. */
  lemma MoveLater(s: Sys, w: nat, pc: PC, r: nat)
    requires w in s.workers && r in s.recs
    ensures Later(s, SetPC(s, w, pc), r)
  {
  }

  lemma BeginLater(s: Sys, w: nat, r: nat)
    requires w in s.workers && s.workers[w].pc.Woken? && r in s.recs
    ensures Later(s, BeginWork(s, w), r)
  {
    if !CanBegin(s, w) {
      MoveLater(s, w, if Live(s, s.workers[w].id) then Waiting else Exited, r);
    }
  }

  lemma SyncGrows(st: Status, out: Outcome, now: Time)
    ensures Grows(st, EndSync(st, out, now))
  {
  }

  lemma TerminatingGrows(st: Status, id: ProcessID, u: ProcessUpdate, err: Option<SyncError>, now: Time)
    ensures Grows(st, EndTerminating(st, id, u, err, now))
  {
  }

  lemma TerminatedGrows(st: Status, err: Option<SyncError>, now: Time)
    ensures Grows(st, EndTerminated(st, err, now))
  {
  }

  lemma CallGrows(st: Status, id: ProcessID, u: ProcessUpdate, kind: Kind, out: Outcome, now: Time)
    ensures Grows(st, AfterCall(st, id, u, kind, out, now))
  {
    match kind
    case SyncCall => SyncGrows(st, out, now);
    case TerminatingCall => TerminatingGrows(st, id, u, out.err, now);
    case TerminatedCall => TerminatedGrows(st, out.err, now);
  }

  lemma ReturnLater(s: Sys, w: nat, out: Outcome, r: nat)
    requires w in s.workers && s.workers[w].pc.InCall? && s.workers[w].pc.rec in s.recs && r in s.recs
    ensures Later(s, ReturnFromHook(s, w, out), r)
  {
    var InCall(q, u, kind, _) := s.workers[w].pc;
    CallGrows(s.recs[q], s.workers[w].id, u, kind, out, s.now);
  }

  lemma CompleteLater(s: Sys, w: nat, delay: int, r: nat)
    requires w in s.workers && s.workers[w].pc.Ended? && r in s.recs
    ensures Later(s, CompleteWork(s, w, delay), r)
  {
  }

  lemma SendLateLater(s: Sys, w: nat, r: nat)
    requires w in s.workers && s.workers[w].pc.LateSignal? && r in s.recs
    ensures Later(s, SendLateSignal(s, w), r)
  {
  }

  lemma ConsumerLockLater(s: Sys, r: nat)
    requires s.consumer.Holding? && r in s.recs
    ensures Later(s, ConsumerLockStep(s), r)
  {
    var id := s.consumer.id;
    if id in s.statuses && s.statuses[id] in s.recs && id in s.updates {
      var q := s.statuses[id];
      TouchLater(s, q, EnsurePending(s.recs[q], id, s.now), false, [], r);
    }
  }

  lemma OtherLater(c: Settings, s: Sys, e: Event, r: nat)
    requires r in s.recs && Enabled(c, s, e)
    requires e.Receive? || e.Dequeue? || e.ConsumerSend? || e.RemoveFinished? || e.Tick?
    ensures Later(s, Step(c, s, e), r)
  {
  }

  lemma StepLater(c: Settings, s: Sys, e: Event, r: nat)
    requires r in s.recs && r < s.next && Enabled(c, s, e)
    ensures Later(s, Step(c, s, e), r)
  {
    match e
    case UpdateProcess(u) => UpdateLater(s, u, r);
    case Begin(w) => BeginLater(s, w, r);
    case EndCall(w, out) => ReturnLater(s, w, out, r);
    case Complete(w, draw) => CompleteLater(s, w, DelayOf(c, s, w, draw), r);
    case Recheck(w) => MoveLater(s, w, PickHook(c, s, w).workers[w].pc, r);
    case StartCall(w) => MoveLater(s, w, CallHook(s, w).workers[w].pc, r);
    case TerminateOrphan(id) =>
      var q := s.statuses[id];
      TouchLater(s, q, RequestTermination(s.recs[q], None, s.now), CancelsContext(s.recs[q]), [Default], r);
    case SendLate(w) => SendLateLater(s, w, r);
    case ConsumerLock => ConsumerLockLater(s, r);
    case _ => OtherLater(c, s, e, r);
  }

  lemma LaterTransitive(s: Sys, t: Sys, u: Sys, r: nat)
    requires Later(s, t, r) && Later(t, u, r)
    ensures Later(s, u, r)
  {
  }

  /** Along any run whatsoever, a record's state only moves forward and its history only grows. */
  lemma {:induction false} RunLater(c: Settings, s: Sys, es: seq<Event>, r: nat)
    requires NoLostWork.Inv(s) && IsRun(c, s, es) && r in s.recs
    ensures Later(s, Exec(c, s, es), r)
    ensures Rank(s.recs[r].State()) <= Rank(Exec(c, s, es).recs[r].State())
    decreases |es|
  {
    if es != [] {
      var t := Step(c, s, es[0]);
      StepLater(c, s, es[0], r);
      NoLostWork.StepKeeps(c, s, es[0]);
      RunLater(c, t, es[1..], r);
      LaterTransitive(s, t, Exec(c, s, es), r);
    }
    GrowingRank(s.recs[r], Exec(c, s, es).recs[r]);
  }

  // ----- How soon a termination is through -----

  function Successes(c: seq<CallEnd>): nat {
    if c == [] then 0 else Successes(c[..|c| - 1]) + if c[|c| - 1].ok then 1 else 0
  }

  function Failures(c: seq<CallEnd>): nat {
    if c == [] then 0 else Failures(c[..|c| - 1]) + if c[|c| - 1].ok then 0 else 1
  }

  /** Calls of SyncProcess. */
  function Syncs(c: seq<CallEnd>): nat {
    if c == [] then 0 else Syncs(c[..|c| - 1]) + if c[|c| - 1].kind == SyncCall then 1 else 0
  }

  lemma SyncsAppend(c: seq<CallEnd>, x: CallEnd)
    ensures Syncs(c + [x]) == Syncs(c) + if x.kind == SyncCall then 1 else 0
  {
    assert (c + [x])[..|c|] == c;
  }

  lemma {:induction false} SuccessesAndFailures(c: seq<CallEnd>)
    ensures Successes(c) + Failures(c) == |c|
  {
    if c != [] { SuccessesAndFailures(c[..|c| - 1]); }
  }

  /** How many of the two shutdown hooks have succeeded. */
  function Level(p: Phase): nat {
    match p
    case CleaningUp => 1
    case Done => 2
    case _ => 0
  }

  /** From `base` on, every success is a SyncProcess or moves the shutdown one level up. */
  lemma {:induction false} SuccessesSince(base: seq<CallEnd>, c: seq<CallEnd>)
    requires base <= c && PhaseOf(c) != Illegal
    ensures PhaseOf(base) != Illegal
    ensures Syncs(base) <= Syncs(c)
    ensures Successes(c[|base|..]) + Level(PhaseOf(base)) <= Syncs(c) - Syncs(base) + Level(PhaseOf(c))
  {
    if |c| > |base| {
      var d := c[..|c| - 1];
      SuccessesSince(base, d);
      assert c[|base|..][..|c| - 1 - |base|] == d[|base|..];
    } else {
      assert base == c;
    }
  }

  /** Worker w has decided to call, or is calling, SyncProcess for r. */
  ghost predicate SyncsFor(s: Sys, w: nat, r: nat) {
    TurnOn(s, w, r) && (s.workers[w].pc.Calling? || s.workers[w].pc.InCall?) && s.workers[w].pc.kind == SyncCall
  }

  /** Termination of r was requested when its calls were `base`: since then at most one SyncProcess has ended. */
  ghost predicate Since(base: seq<CallEnd>, s: Sys, r: nat) {
    && r in s.recs && s.recs[r].IsTerminating()
    && base <= At0(s.calls, r)
    && Syncs(At0(s.calls, r)) <= Syncs(base) + 1
    && (forall w | SyncsFor(s, w, r) :: Syncs(At0(s.calls, r)) == Syncs(base))
  }

  predicate AtHook(pc: PC) { pc.Calling? || pc.InCall? }

  /** Worker v, if it has reached a hook, was already there. */
  ghost predicate HookOld(s: Sys, t: Sys, v: nat) {
    v in t.workers && AtHook(t.workers[v].pc) ==> v in s.workers && s.workers[v] == t.workers[v]
  }

  lemma UpdateHooks(s: Sys, u: ProcessUpdate, v: nat)
    ensures HookOld(s, Submit(s, u), v)
  {
    var s1 := WithRecord(s, u.id);
    if Live(s1, u.id) { assert HookOld(Accept(s1, u), Deliver(s1, u), v); }
  }

  lemma BeginHooks(s: Sys, w: nat, v: nat)
    requires w in s.workers
    ensures HookOld(s, BeginWork(s, w), v)
  {
  }

  lemma OtherHooks(c: Settings, s: Sys, e: Event, v: nat)
    requires Enabled(c, s, e)
    requires !e.UpdateProcess? && !e.Begin? && !e.Recheck? && !e.StartCall?
    ensures HookOld(s, Step(c, s, e), v)
  {
  }

  /** No further SyncProcess call is decided on once a record is terminating. */
  lemma NoNewSync(c: Settings, s: Sys, e: Event, w: nat, r: nat)
    requires Enabled(c, s, e) && r in s.recs && s.recs[r].IsTerminating()
    requires SyncsFor(Step(c, s, e), w, r)
    ensures SyncsFor(s, w, r)
  {
    match e
    case UpdateProcess(u) => UpdateHooks(s, u, w);
    case Begin(v) => BeginHooks(s, v, w);
    case Recheck(v) =>
    case StartCall(v) =>
    case _ => OtherHooks(c, s, e, w);
  }

  lemma DeliverCalls(s: Sys, u: ProcessUpdate)
    requires Live(s, u.id)
    ensures Deliver(s, u).calls == s.calls
  {
  }

  lemma UpdateCalls(s: Sys, u: ProcessUpdate, r: nat)
    requires r in s.recs && r < s.next
    ensures At0(Submit(s, u).calls, r) == At0(s.calls, r)
  {
    var s1 := WithRecord(s, u.id);
    if Live(s1, u.id) { DeliverCalls(s1, u); }
  }

  /** Only a returning hook adds to a record's calls. */
  lemma StepCalls(c: Settings, s: Sys, e: Event, r: nat)
    requires Enabled(c, s, e) && r in s.recs && r < s.next
    requires e.EndCall? ==> s.workers[e.w].pc.rec != r
    ensures At0(Step(c, s, e).calls, r) == At0(s.calls, r)
  {
    match e
    case UpdateProcess(u) => UpdateCalls(s, u, r);
    case Begin(w) => assert Step(c, s, e).calls == s.calls;
    case Complete(w, draw) => assert CompleteWork(s, w, DelayOf(c, s, w, draw)).calls == s.calls;
    case EndCall(w, out) => assert At0(Step(c, s, e).calls, r) == At0(s.calls, r);
    case _ => assert Step(c, s, e).calls == s.calls;
  }

  lemma ReturnSince(base: seq<CallEnd>, s: Sys, w: nat, out: Outcome)
    requires w in s.workers && s.workers[w].pc.InCall? && s.workers[w].pc.rec in s.recs
    requires Exclusive(s) && Since(base, s, s.workers[w].pc.rec)
    ensures Since(base, ReturnFromHook(s, w, out), s.workers[w].pc.rec)
  {
    var t := ReturnFromHook(s, w, out);
    var r := s.workers[w].pc.rec;
    SyncsAppend(At0(s.calls, r), CallEnd(s.workers[w].pc.kind, out.err.None?));
    assert s.workers[w].pc.kind == SyncCall ==> SyncsFor(s, w, r);
    assert TurnOn(s, w, r);
    forall v ensures !SyncsFor(t, v, r) { assert SyncsFor(t, v, r) ==> TurnOn(s, v, r) && v != w; }
  }

  /** Steps that add no call. */
  lemma SilentSince(base: seq<CallEnd>, s: Sys, t: Sys, r: nat)
    requires Since(base, s, r) && Later(s, t, r) && At0(t.calls, r) == At0(s.calls, r)
    requires forall w | SyncsFor(t, w, r) :: SyncsFor(s, w, r)
    ensures Since(base, t, r)
  {
  }

  lemma StepSince(c: Settings, base: seq<CallEnd>, s: Sys, e: Event, r: nat)
    requires Exclusive(s) && Enabled(c, s, e) && Since(base, s, r) && r < s.next
    ensures Since(base, Step(c, s, e), r)
  {
    if e.EndCall? && s.workers[e.w].pc.rec == r {
      ReturnSince(base, s, e.w, e.out);
    } else {
      StepLater(c, s, e, r);
      forall w | SyncsFor(Step(c, s, e), w, r) ensures SyncsFor(s, w, r) { NoNewSync(c, s, e, w, r); }
      StepCalls(c, s, e, r);
      SilentSince(base, s, Step(c, s, e), r);
    }
  }

  lemma {:induction false} RunSince(c: Settings, base: seq<CallEnd>, s: Sys, es: seq<Event>, r: nat)
    requires Safe(c, s) && IsDisciplinedRun(c, s, es) && Since(base, s, r)
    ensures IsRun(c, s, es) && Safe(c, Exec(c, s, es)) && Since(base, Exec(c, s, es), r)
    decreases |es|
  {
    RunSafe(c, s, es);
    if es != [] {
      StepSince(c, base, s, es[0], r);
      NoLostWork.StepKeeps(c, s, es[0]);
      StepSafe(c, s, es[0]);
      StepHeld(c, s, es[0]);
      RunSince(c, base, Step(c, s, es[0]), es[1..], r);
    }
  }

  lemma FinishedSince(c: Settings, base: seq<CallEnd>, s: Sys, r: nat)
    requires Safe(c, s) && Since(base, s, r)
    ensures var since := At0(s.calls, r)[|base|..];
      |since| >= Failures(since) + 3 ==> s.recs[r].IsFinished()
  {
    var pc := RecordOk(c, s, r);
    SuccessesSince(base, At0(s.calls, r));
    SuccessesAndFailures(At0(s.calls, r)[|base|..]);
    assert PhaseOf(At0(s.calls, r)) == Done <==> s.recs[r].IsFinished();
  }

  /**
  From any reachable state in which the termination of record r has been requested, along any
  continuation: once k calls have failed and k + 3 have ended, the process has finished. The
  one spare success is a SyncProcess that was already under way when the request came.
  */
  lemma {:induction false} TerminationIsBounded(c: Settings, start: Time, es: seq<Event>, more: seq<Event>, r: nat)
    requires IsDisciplinedRun(c, Init(start), es)
    requires r in After(c, start, es).recs && After(c, start, es).recs[r].IsTerminating()
    requires IsDisciplinedRun(c, After(c, start, es), more)
    ensures var s := After(c, start, es);
      IsRun(c, s, more) &&
      var t := Exec(c, s, more);
      && At0(s.calls, r) <= At0(t.calls, r)
      && r in t.recs
      && var since := At0(t.calls, r)[|At0(s.calls, r)|..];
         |since| >= Failures(since) + 3 ==> t.recs[r].IsFinished()
  {
    AfterIsSafe(c, start, es);
    var s := After(c, start, es);
    var base := At0(s.calls, r);
    RunSince(c, base, s, more, r);
    FinishedSince(c, base, Exec(c, s, more), r);
  }
}
