/**
Safety of the process manager over every interleaving.

Runs are disciplined: SyncKnownProcesses removes a finished record only when no
worker is still in a turn on it. (Module RemovalRace shows that this is exactly
what the manager needs.)
*/
module ManagerSafety {
  import opened Wrappers
  import opened ProcTypes
  import opened Backoff
  import opened ManagerProtocol
  import opened RecordLife
  import NoLostWork

  ghost predicate Disciplined(s: Sys, e: Event) {
    e.RemoveFinished? && e.id in s.statuses && s.statuses[e.id] in s.recs ==> !s.recs[s.statuses[e.id]].working
  }

  ghost predicate IsDisciplinedRun(c: Settings, s: Sys, es: seq<Event>)
    decreases |es|
  {
    es == [] || (Enabled(c, s, es[0]) && Disciplined(s, es[0]) && IsDisciplinedRun(c, Step(c, s, es[0]), es[1..]))
  }

  lemma {:induction false} DisciplinedRunIsRun(c: Settings, s: Sys, es: seq<Event>)
    requires IsDisciplinedRun(c, s, es)
    ensures IsRun(c, s, es)
    decreases |es|
  {
    if es != [] { DisciplinedRunIsRun(c, Step(c, s, es[0]), es[1..]); }
  }

  /** Record r as the worker place `pc` sees it. */
  ghost function ViewOf(s: Sys, r: nat, pc: PC): View
    requires r in s.recs
  {
    View(s.recs[r], pc, At0(s.calls, r), At0(s.closed, r), At0(s.grace, r),
         s.recs[r].ctx.Some? && s.recs[r].ctx.value in s.cancelled)
  }

  ghost predicate TurnOn(s: Sys, w: nat, r: nat) {
    w in s.workers && InTurn(s.workers[w].pc) && s.workers[w].pc.rec == r
  }

  /** A worker in a turn works on the record tracked under its identifier, and has marked it. */
  ghost predicate Owned(s: Sys) {
    forall w | w in s.workers && InTurn(s.workers[w].pc) ::
      && s.workers[w].id in s.statuses
      && s.statuses[s.workers[w].id] == s.workers[w].pc.rec
      && s.workers[w].pc.rec in s.recs
      && s.recs[s.workers[w].pc.rec].working
  }

  /** No two workers are in a turn on the same record. */
  ghost predicate Exclusive(s: Sys) {
    forall v, w, r | TurnOn(s, v, r) && TurnOn(s, w, r) :: v == w
  }

  ghost predicate ContextsDistinct(s: Sys) {
    && (forall r | r in s.recs && s.recs[r].ctx.Some? :: s.recs[r].ctx.value < s.next)
    && (forall x | x in s.cancelled :: x < s.next)
    && (forall q, r | q in s.recs && r in s.recs && q != r && s.recs[q].ctx.Some? :: s.recs[q].ctx != s.recs[r].ctx)
  }

  ghost predicate IdleOk(c: Settings, s: Sys) {
    forall r | r in s.recs :: !s.recs[r].working ==> Ok(c, ViewOf(s, r, Waiting))
  }

  ghost predicate BusyOk(c: Settings, s: Sys) {
    forall w | w in s.workers && InTurn(s.workers[w].pc) && s.workers[w].pc.rec in s.recs ::
      Ok(c, ViewOf(s, s.workers[w].pc.rec, s.workers[w].pc))
  }

  /** Every record is fine, and workers do not meet on one. */
  ghost predicate TurnsOk(c: Settings, s: Sys) {
    && Owned(s) && Exclusive(s) && ContextsDistinct(s)
    && IdleOk(c, s) && BusyOk(c, s)
  }

  ghost predicate Core(c: Settings, s: Sys) {
    NoLostWork.Shape(s, {}) && TurnsOk(c, s)
  }

  /** A record is marked as worked on only while some worker is in a turn on it. */
  ghost predicate Held(s: Sys) {
    forall r | r in s.recs && s.recs[r].working :: exists w :: TurnOn(s, w, r)
  }

  ghost predicate Safe(c: Settings, s: Sys) {
    NoLostWork.Inv(s) && TurnsOk(c, s) && Held(s)
  }

  /** Only record r0 and worker w0 may differ between s and t. */
  ghost predicate ElsewhereSame(s: Sys, t: Sys, r0: nat, w0: nat) {
    && (forall r | r in t.recs && r != r0 :: r in s.recs && t.recs[r] == s.recs[r])
    && (forall r | r in t.recs && r != r0 ::
          && At0(t.calls, r) == At0(s.calls, r)
          && At0(t.closed, r) == At0(s.closed, r)
          && At0(t.grace, r) == At0(s.grace, r))
    && (forall w | w in t.workers && w != w0 :: w in s.workers && t.workers[w] == s.workers[w])
    && (forall x | x in t.cancelled && x !in s.cancelled :: r0 in s.recs && s.recs[r0].ctx == Some(x))
    && s.cancelled <= t.cancelled
  }

  lemma ViewCarries(s: Sys, t: Sys, r0: nat, w0: nat, r: nat, pc: PC)
    requires ContextsDistinct(s) && ElsewhereSame(s, t, r0, w0)
    requires r in t.recs && r != r0
    ensures ViewOf(t, r, pc) == ViewOf(s, r, pc)
  {
  }

  /** If the changed record is fine, all records are. */
  lemma RecordsCarry(c: Settings, s: Sys, t: Sys, r0: nat, w0: nat)
    requires ContextsDistinct(s) && IdleOk(c, s) && BusyOk(c, s)
    requires ElsewhereSame(s, t, r0, w0)
    requires w0 in t.workers && InTurn(t.workers[w0].pc) ==> t.workers[w0].pc.rec == r0
    requires r0 in t.recs && !t.recs[r0].working ==> Ok(c, ViewOf(t, r0, Waiting))
    requires forall w | TurnOn(t, w, r0) && r0 in t.recs :: Ok(c, ViewOf(t, r0, t.workers[w].pc))
    ensures IdleOk(c, t) && BusyOk(c, t)
  {
    forall r | r in t.recs ensures !t.recs[r].working ==> Ok(c, ViewOf(t, r, Waiting)) {
      if r != r0 { ViewCarries(s, t, r0, w0, r, Waiting); }
    }
    forall w | w in t.workers && InTurn(t.workers[w].pc) && t.workers[w].pc.rec in t.recs
      ensures Ok(c, ViewOf(t, t.workers[w].pc.rec, t.workers[w].pc))
    {
      var r := t.workers[w].pc.rec;
      if r == r0 { assert TurnOn(t, w, r0); }
      else { ViewCarries(s, t, r0, w0, r, t.workers[w].pc); }
    }
  }

  /** Ownership survives when turns neither begin nor end. */
  lemma OwnershipCarries(s: Sys, t: Sys, w0: nat)
    requires Owned(s) && Exclusive(s)
    requires forall id | id in s.statuses :: id in t.statuses && t.statuses[id] == s.statuses[id]
    requires forall w | w in t.workers && w != w0 && InTurn(t.workers[w].pc) ::
               w in s.workers && t.workers[w] == s.workers[w]
    requires forall r | r in s.recs :: r in t.recs && (s.recs[r].working ==> t.recs[r].working)
    requires w0 in t.workers && InTurn(t.workers[w0].pc) ==>
               TurnOn(s, w0, t.workers[w0].pc.rec) && s.workers[w0].id == t.workers[w0].id
    ensures Owned(t) && Exclusive(t)
  {
    forall v, w, r | TurnOn(t, v, r) && TurnOn(t, w, r) ensures v == w {
      assert TurnOn(s, v, r) && TurnOn(s, w, r);
    }
  }

  // ----- Steps of a worker in its turn -----

  /** The worker of record r moves on within its turn, and the record with it. */
  ghost predicate TurnStep(s: Sys, t: Sys, w: nat, r: nat) {
    && TurnOn(s, w, r) && TurnOn(t, w, r) && t.workers[w].id == s.workers[w].id
    && ElsewhereSame(s, t, r, w) && t.cancelled == s.cancelled && t.next == s.next
    && t.statuses == s.statuses && r in s.recs && (forall q | q in s.recs :: q in t.recs)
    && t.recs[r].working && t.recs[r].ctx == s.recs[r].ctx
  }

  lemma TurnStepOwned(s: Sys, t: Sys, w: nat, r: nat)
    requires Owned(s) && Exclusive(s) && ContextsDistinct(s) && TurnStep(s, t, w, r)
    ensures Owned(t) && Exclusive(t) && ContextsDistinct(t)
  {
    OwnershipCarries(s, t, w);
  }

  lemma TurnStepSafe(c: Settings, s: Sys, t: Sys, w: nat, r: nat)
    requires TurnsOk(c, s) && TurnStep(s, t, w, r)
    requires Ok(c, ViewOf(t, r, t.workers[w].pc))
    ensures TurnsOk(c, t)
  {
    TurnStepOwned(s, t, w, r);
    RecordsCarry(c, s, t, r, w);
  }

  lemma PickSafe(c: Settings, s: Sys, w: nat)
    requires Core(c, s) && w in s.workers && s.workers[w].pc.Chosen?
    ensures TurnsOk(c, PickHook(c, s, w))
  {
    var r := s.workers[w].pc.rec;
    var t := PickHook(c, s, w);
    PickedOk(c, ViewOf(s, r, s.workers[w].pc));
    assert ViewOf(t, r, t.workers[w].pc) == Picked(c, ViewOf(s, r, s.workers[w].pc));
    TurnStepSafe(c, s, t, w, r);
  }

  lemma CallSafe(c: Settings, s: Sys, w: nat)
    requires Core(c, s) && w in s.workers && s.workers[w].pc.Calling?
    ensures TurnsOk(c, CallHook(s, w))
  {
    var r := s.workers[w].pc.rec;
    var t := CallHook(s, w);
    CalledOk(c, ViewOf(s, r, s.workers[w].pc));
    assert ViewOf(t, r, t.workers[w].pc) == Called(ViewOf(s, r, s.workers[w].pc));
    TurnStepSafe(c, s, t, w, r);
  }

  lemma RewriteFrame(s: Sys, r: nat, st: Status, calls: seq<CallEnd>, closed: seq<nat>, grace: seq<GraceRequest>,
                     w: nat, pc: PC)
    requires w in s.workers
    ensures ElsewhereSame(s, SetPC(Rewrite(s, r, st, calls, closed, grace), w, pc), r, w)
  {
    RewriteHistories(s, r, st, calls, closed, grace);
    var t := Rewrite(s, r, st, calls, closed, grace);
    assert t.workers == s.workers && t.cancelled == s.cancelled;
  }

  lemma RewriteHistories(s: Sys, r: nat, st: Status, calls: seq<CallEnd>, closed: seq<nat>, grace: seq<GraceRequest>)
    ensures var t := Rewrite(s, r, st, calls, closed, grace);
      forall q | q != r ::
        At0(t.calls, q) == At0(s.calls, q) && At0(t.closed, q) == At0(s.closed, q) && At0(t.grace, q) == At0(s.grace, q)
  {
  }

  lemma RewriteIsTurnStep(s: Sys, w: nat, st: Status, calls: seq<CallEnd>, closed: seq<nat>, grace: seq<GraceRequest>,
                          pc: PC)
    requires w in s.workers && InTurn(s.workers[w].pc) && InTurn(pc)
    requires pc.rec == s.workers[w].pc.rec && pc.rec in s.recs
    requires st.working && st.ctx == s.recs[pc.rec].ctx
    ensures TurnStep(s, SetPC(Rewrite(s, pc.rec, st, calls, closed, grace), w, pc), w, pc.rec)
  {
    RewriteFrame(s, pc.rec, st, calls, closed, grace, w, pc);
  }

  lemma ReturnView(s: Sys, w: nat, out: Outcome)
    requires w in s.workers && s.workers[w].pc.InCall? && s.workers[w].pc.rec in s.recs
    ensures var r, t := s.workers[w].pc.rec, ReturnFromHook(s, w, out);
      ViewOf(t, r, t.workers[w].pc) == Returned(ViewOf(s, r, s.workers[w].pc), s.workers[w].id, out, s.now)
  {
  }

  lemma ReturnSafe(c: Settings, s: Sys, w: nat, out: Outcome)
    requires Core(c, s) && w in s.workers && s.workers[w].pc.InCall?
    ensures TurnsOk(c, ReturnFromHook(s, w, out))
  {
    var InCall(r, u, kind, _) := s.workers[w].pc;
    ReturnedOk(c, ViewOf(s, r, s.workers[w].pc), s.workers[w].id, out, s.now);
    ReturnView(s, w, out);
    RewriteIsTurnStep(s, w, AfterCall(s.recs[r], s.workers[w].id, u, kind, out, s.now),
      [CallEnd(kind, out.err.None?)], ClosedBy(u, kind, out), GraceBy(kind, out), Ended(r, out.err));
    TurnStepSafe(c, s, ReturnFromHook(s, w, out), w, r);
  }

  // ----- Steps that touch no record -----

  /** Records, histories and turns are as before. */
  ghost predicate Quiet(s: Sys, t: Sys) {
    && t.recs == s.recs && t.calls == s.calls && t.closed == s.closed && t.grace == s.grace
    && t.cancelled == s.cancelled && t.statuses == s.statuses && s.next <= t.next
    && (forall w | w in t.workers && InTurn(t.workers[w].pc) :: w in s.workers && t.workers[w] == s.workers[w])
  }

  lemma QuietSafe(c: Settings, s: Sys, t: Sys)
    requires TurnsOk(c, s) && Quiet(s, t)
    ensures TurnsOk(c, t)
  {
    OwnershipCarries(s, t, t.next);
    forall w | w in t.workers && InTurn(t.workers[w].pc) && t.workers[w].pc.rec in t.recs
      ensures Ok(c, ViewOf(t, t.workers[w].pc.rec, t.workers[w].pc))
    {
      assert ViewOf(t, t.workers[w].pc.rec, t.workers[w].pc) == ViewOf(s, s.workers[w].pc.rec, s.workers[w].pc);
    }
    forall r | r in t.recs ensures !t.recs[r].working ==> Ok(c, ViewOf(t, r, Waiting)) {
      assert ViewOf(t, r, Waiting) == ViewOf(s, r, Waiting);
    }
  }

  // ----- Steps that change one record but no turn -----

  ghost predicate RecordStep(s: Sys, t: Sys, r: nat) {
    && ElsewhereSame(s, t, r, s.next) && t.workers == s.workers && t.statuses == s.statuses && t.next == s.next
    && r in s.recs && (forall q | q in s.recs :: q in t.recs)
    && t.recs[r].working == s.recs[r].working && t.recs[r].ctx == s.recs[r].ctx
    && (forall w | w in s.workers :: w < s.next)
  }

  lemma RecordStepOwned(s: Sys, t: Sys, r: nat)
    requires Owned(s) && Exclusive(s) && ContextsDistinct(s) && RecordStep(s, t, r)
    ensures Owned(t) && Exclusive(t) && ContextsDistinct(t)
  {
    OwnershipCarries(s, t, s.next);
  }

  lemma RecordStepSafe(c: Settings, s: Sys, t: Sys, r: nat)
    requires TurnsOk(c, s) && RecordStep(s, t, r)
    requires !t.recs[r].working ==> Ok(c, ViewOf(t, r, Waiting))
    requires forall w | TurnOn(s, w, r) :: Ok(c, ViewOf(t, r, s.workers[w].pc))
    ensures TurnsOk(c, t)
  {
    RecordStepOwned(s, t, r);
    forall w | TurnOn(t, w, r) ensures Ok(c, ViewOf(t, r, t.workers[w].pc)) { assert TurnOn(s, w, r); }
    RecordsCarry(c, s, t, r, s.next);
  }

  // ----- A turn begins or ends -----

  ghost predicate CanBegin(s: Sys, w: nat) {
    && w in s.workers && s.workers[w].pc.Woken?
    && var id := s.workers[w].id; Live(s, id) && !s.recs[s.statuses[id]].working && s.recs[s.statuses[id]].pending.Some?
  }

  lemma BeginOwned(s: Sys, w: nat)
    requires NoLostWork.Shape(s, {}) && Owned(s) && Exclusive(s) && ContextsDistinct(s) && CanBegin(s, w)
    ensures var t := BeginWork(s, w); Owned(t) && Exclusive(t) && ContextsDistinct(t)
  {
    var t := BeginWork(s, w);
    forall u, v, r | TurnOn(t, u, r) && TurnOn(t, v, r) ensures u == v {
      assert u == w || TurnOn(s, u, r);
      assert v == w || TurnOn(s, v, r);
    }
  }

  lemma BeginSafe(c: Settings, s: Sys, w: nat)
    requires Core(c, s) && CanBegin(s, w)
    ensures TurnsOk(c, BeginWork(s, w))
  {
    var t := BeginWork(s, w);
    var r := s.statuses[s.workers[w].id];
    BeginOwned(s, w);
    BegunOk(c, ViewOf(s, r, Waiting), r, s.cancelled, s.next);
    assert ViewOf(t, r, t.workers[w].pc) == Begun(ViewOf(s, r, Waiting), r, s.cancelled, s.next);
    assert TurnOn(t, w, r);
    RecordsCarry(c, s, t, r, w);
  }

  ghost predicate TurnEnd(s: Sys, t: Sys, w: nat, r: nat) {
    && TurnOn(s, w, r) && w in t.workers && !InTurn(t.workers[w].pc)
    && ElsewhereSame(s, t, r, w) && t.cancelled == s.cancelled && t.next == s.next
    && t.statuses == s.statuses && r in s.recs && (forall q | q in s.recs :: q in t.recs)
    && !t.recs[r].working && t.recs[r].ctx == s.recs[r].ctx
  }

  lemma TurnEndOwned(s: Sys, t: Sys, w: nat, r: nat)
    requires Owned(s) && Exclusive(s) && ContextsDistinct(s) && TurnEnd(s, t, w, r)
    ensures Owned(t) && Exclusive(t) && ContextsDistinct(t)
  {
    forall u, v, q | TurnOn(t, u, q) && TurnOn(t, v, q) ensures u == v { assert TurnOn(s, u, q) && TurnOn(s, v, q); }
    forall v | v in t.workers && InTurn(t.workers[v].pc) ensures v in s.workers && t.workers[v].pc.rec != r {
      assert TurnOn(s, v, s.workers[v].pc.rec);
    }
  }

  lemma TurnEndSafe(c: Settings, s: Sys, t: Sys, w: nat, r: nat)
    requires TurnsOk(c, s) && TurnEnd(s, t, w, r) && Ok(c, ViewOf(t, r, Waiting))
    ensures TurnsOk(c, t)
  {
    TurnEndOwned(s, t, w, r);
    RecordsCarry(c, s, t, r, w);
  }

  lemma CompleteIsTurnEnd(s: Sys, w: nat, delay: int)
    requires NoLostWork.Shape(s, {}) && Owned(s) && w in s.workers && s.workers[w].pc.Ended?
    ensures TurnEnd(s, CompleteWork(s, w, delay), w, s.workers[w].pc.rec)
  {
  }

  lemma CompleteSafe(c: Settings, s: Sys, w: nat, delay: int)
    requires Core(c, s) && w in s.workers && s.workers[w].pc.Ended?
    ensures TurnsOk(c, CompleteWork(s, w, delay))
  {
    var t := CompleteWork(s, w, delay);
    var r := s.workers[w].pc.rec;
    CompleteIsTurnEnd(s, w, delay);
    ClosedOk(c, ViewOf(s, r, s.workers[w].pc));
    assert ViewOf(t, r, Waiting) == Closed(ViewOf(s, r, s.workers[w].pc));
    TurnEndSafe(c, s, t, w, r);
  }

  // ----- Callers and the consumer -----

  lemma NewRecordOwned(s: Sys, id: ProcessID)
    requires NoLostWork.Shape(s, {}) && Owned(s) && Exclusive(s) && ContextsDistinct(s) && id !in s.statuses
    ensures var t := WithRecord(s, id); Owned(t) && Exclusive(t) && ContextsDistinct(t)
  {
    OwnershipCarries(s, WithRecord(s, id), s.next + 1);
  }

  lemma NewRecordFrame(s: Sys, id: ProcessID)
    requires id !in s.statuses
    ensures ElsewhereSame(s, WithRecord(s, id), s.next, s.next + 1)
  {
  }

  lemma NewRecordView(s: Sys, id: ProcessID)
    requires id !in s.statuses
    ensures ViewOf(WithRecord(s, id), s.next, Waiting) == NewView
  {
  }

  lemma NewRecordSafe(c: Settings, s: Sys, id: ProcessID)
    requires Core(c, s) && id !in s.statuses
    ensures TurnsOk(c, WithRecord(s, id))
  {
    var t := WithRecord(s, id);
    NewRecordOwned(s, id);
    NewRecordFrame(s, id);
    NewRecordView(s, id);
    NewViewOk(c);
    RecordsCarry(c, s, t, s.next, t.next);
  }

  lemma TouchIsRecordStep(s: Sys, r: nat, st: Status, cancel: bool, g: seq<GraceRequest>)
    requires r in s.recs && st.working == s.recs[r].working && st.ctx == s.recs[r].ctx
    requires forall w | w in s.workers :: w < s.next
    ensures RecordStep(s, Touch(s, r, st, cancel, g), r)
  {
  }

  /** What a touched record looks like. */
  lemma TouchView(s: Sys, r: nat, st: Status, cancel: bool, g: seq<GraceRequest>, pc: PC)
    requires r in s.recs && st.ctx == s.recs[r].ctx && (cancel ==> st.ctx.Some?)
    ensures var v := ViewOf(s, r, pc);
      ViewOf(Touch(s, r, st, cancel, g), r, pc) == v.(st := st, cut := v.cut || cancel, grace := v.grace + g)
  {
  }

  lemma AcceptSafe(c: Settings, s: Sys, u: ProcessUpdate)
    requires TurnsOk(c, s) && Live(s, u.id) && (forall w | w in s.workers :: w < s.next)
    ensures TurnsOk(c, Accept(s, u))
  {
    var r := s.statuses[u.id];
    var t := Accept(s, u);
    forall pc: PC | Ok(c, ViewOf(s, r, pc)) ensures Ok(c, ViewOf(t, r, pc)) { AcceptedView(c, s, u, pc); }
    AcceptFrame(s, u);
    RecordStepSafe(c, s, t, r);
  }

  lemma AcceptFrame(s: Sys, u: ProcessUpdate)
    requires Live(s, u.id) && (forall w | w in s.workers :: w < s.next)
    ensures RecordStep(s, Accept(s, u), s.statuses[u.id])
  {
    var r := s.statuses[u.id];
    var terminate := u.updateType == TypeTerminate;
    TouchIsRecordStep(s, r, AcceptUpdate(s.recs[r], u, s.now), terminate && CancelsContext(s.recs[r]),
      if terminate then [GraceOf(u.terminateOptions)] else []);
  }

  lemma TerminatedViewIs(s: Sys, u: ProcessUpdate, pc: PC)
    requires Live(s, u.id) && u.updateType == TypeTerminate
    ensures ViewOf(Accept(s, u), s.statuses[u.id], pc) == Accepted(ViewOf(s, s.statuses[u.id], pc), u, s.now)
  {
    var r := s.statuses[u.id];
    TouchView(s, r, AcceptUpdate(s.recs[r], u, s.now), CancelsContext(s.recs[r]), [GraceOf(u.terminateOptions)], pc);
  }

  lemma UpdatedViewIs(s: Sys, u: ProcessUpdate, pc: PC)
    requires Live(s, u.id) && u.updateType != TypeTerminate
    ensures ViewOf(Accept(s, u), s.statuses[u.id], pc) == Accepted(ViewOf(s, s.statuses[u.id], pc), u, s.now)
  {
    var r := s.statuses[u.id];
    TouchView(s, r, AcceptUpdate(s.recs[r], u, s.now), false, [], pc);
    assert ViewOf(s, r, pc).grace + [] == ViewOf(s, r, pc).grace;
  }

  lemma AcceptedView(c: Settings, s: Sys, u: ProcessUpdate, pc: PC)
    requires Live(s, u.id) && Ok(c, ViewOf(s, s.statuses[u.id], pc))
    ensures Ok(c, ViewOf(Accept(s, u), s.statuses[u.id], pc))
  {
    if u.updateType == TypeTerminate { TerminatedViewIs(s, u, pc); } else { UpdatedViewIs(s, u, pc); }
    AcceptedOk(c, ViewOf(s, s.statuses[u.id], pc), u, s.now);
  }

  lemma DeliverSafe(c: Settings, s: Sys, u: ProcessUpdate)
    requires TurnsOk(c, s) && Live(s, u.id) && (forall w | w in s.workers :: w < s.next)
    ensures TurnsOk(c, Deliver(s, u))
  {
    AcceptSafe(c, s, u);
    QuietSafe(c, Accept(s, u), Deliver(s, u));
  }

  lemma UpdateSafe(c: Settings, s: Sys, u: ProcessUpdate)
    requires Core(c, s)
    ensures TurnsOk(c, Submit(s, u))
  {
    if u.id !in s.statuses {
      NewRecordSafe(c, s, u.id);
      DeliverSafe(c, WithRecord(s, u.id), u);
    } else if Live(s, u.id) {
      DeliverSafe(c, s, u);
    }
  }

  lemma OrphanView(c: Settings, s: Sys, id: ProcessID, pc: PC)
    requires Live(s, id) && Ok(c, ViewOf(s, s.statuses[id], pc))
    ensures Ok(c, ViewOf(Orphaned(s, id), s.statuses[id], pc))
  {
    var r := s.statuses[id];
    TouchView(s, r, RequestTermination(s.recs[r], None, s.now), CancelsContext(s.recs[r]), [Default], pc);
    RequestedOk(c, ViewOf(s, r, pc), None, s.now);
  }

  lemma OrphanSafe(c: Settings, s: Sys, id: ProcessID)
    requires Core(c, s) && Live(s, id)
    ensures TurnsOk(c, Orphaned(s, id))
  {
    var r := s.statuses[id];
    var t := Orphaned(s, id);
    forall pc: PC | Ok(c, ViewOf(s, r, pc)) ensures Ok(c, ViewOf(t, r, pc)) { OrphanView(c, s, id, pc); }
    TouchIsRecordStep(s, r, RequestTermination(s.recs[r], None, s.now), CancelsContext(s.recs[r]), [Default]);
    RecordStepSafe(c, s, t, r);
  }

  lemma PendingView(c: Settings, s: Sys, r: nat, id: ProcessID, pc: PC)
    requires id in s.statuses && s.statuses[id] == r && r in s.recs && Ok(c, ViewOf(s, r, pc))
    ensures Ok(c, ViewOf(Filled(s, id), r, pc))
  {
    TouchView(s, r, EnsurePending(s.recs[r], id, s.now), false, [], pc);
    PendingOk(c, ViewOf(s, r, pc), id, s.now);
    assert ViewOf(s, r, pc).grace + [] == ViewOf(s, r, pc).grace;
  }

  lemma PendingSafe(c: Settings, s: Sys, id: ProcessID)
    requires Core(c, s) && id in s.statuses
    ensures TurnsOk(c, Filled(s, id))
  {
    var r, t := s.statuses[id], Filled(s, id);
    forall pc: PC | Ok(c, ViewOf(s, r, pc)) ensures Ok(c, ViewOf(t, r, pc)) { PendingView(c, s, r, id, pc); }
    TouchIsRecordStep(s, r, EnsurePending(s.recs[r], id, s.now), false, []);
    RecordStepSafe(c, s, t, r);
  }

  lemma ConsumerLockSafe(c: Settings, s: Sys)
    requires Core(c, s) && s.consumer.Holding?
    ensures TurnsOk(c, ConsumerLockStep(s))
  {
    var id := s.consumer.id;
    if id in s.statuses {
      PendingSafe(c, s, id);
      ConsumerMoves(c, Filled(s, id), Signalling(s.updates[id]));
    } else {
      ConsumerMoves(c, s, Idle);
    }
  }

  lemma ConsumerMoves(c: Settings, s: Sys, to: Consumer)
    requires TurnsOk(c, s)
    ensures TurnsOk(c, s.(consumer := to))
  {
    QuietSafe(c, s, s.(consumer := to));
  }

  lemma RemovalOwned(s: Sys, id: ProcessID)
    requires NoLostWork.Shape(s, {}) && Owned(s) && Exclusive(s) && ContextsDistinct(s)
    requires id in s.statuses && !s.recs[s.statuses[id]].working
    ensures var t := Removed(s, id); Owned(t) && Exclusive(t) && ContextsDistinct(t)
  {
    var t := Removed(s, id);
    forall v, w, r | TurnOn(t, v, r) && TurnOn(t, w, r) ensures v == w { assert TurnOn(s, v, r) && TurnOn(s, w, r); }
  }

  lemma RemovalSafe(c: Settings, s: Sys, id: ProcessID)
    requires Core(c, s) && id in s.statuses && !s.recs[s.statuses[id]].working
    ensures TurnsOk(c, Removed(s, id))
  {
    RemovalOwned(s, id);
    RecordsCarry(c, s, Removed(s, id), s.next, s.next);
  }

  lemma ReceiveSafe(c: Settings, s: Sys, w: nat)
    requires Core(c, s) && w in s.workers
    ensures TurnsOk(c, TakeSignal(s, w))
  {
    QuietSafe(c, s, TakeSignal(s, w));
  }

  lemma RestSafe(c: Settings, s: Sys, w: nat, pc: PC)
    requires TurnsOk(c, s) && w in s.workers && !InTurn(pc)
    ensures TurnsOk(c, SetPC(s, w, pc))
  {
    QuietSafe(c, s, SetPC(s, w, pc));
  }

  lemma SendLateSafe(c: Settings, s: Sys, w: nat)
    requires Core(c, s) && w in s.workers && s.workers[w].pc.LateSignal?
    ensures TurnsOk(c, SendLateSignal(s, w))
  {
    var ch := s.workers[w].pc.ch;
    if ch.Some? {
      QuietSafe(c, s, Signal(s, ch.value));
      RestSafe(c, Signal(s, ch.value), w, Waiting);
    } else {
      RestSafe(c, s, w, Waiting);
    }
  }

  lemma StandDownSafe(c: Settings, s: Sys, w: nat)
    requires Core(c, s) && w in s.workers && s.workers[w].pc.Woken? && !CanBegin(s, w)
    ensures TurnsOk(c, BeginWork(s, w))
  {
    var pc := if Live(s, s.workers[w].id) then Waiting else Exited;
    RestSafe(c, s, w, pc);
    assert BeginWork(s, w) == SetPC(s, w, pc);
  }

  lemma BystanderSafe(c: Settings, s: Sys, e: Event)
    requires Core(c, s) && Enabled(c, s, e)
    requires e.Dequeue? || e.ConsumerSend? || e.Tick?
    ensures TurnsOk(c, Step(c, s, e))
  {
    QuietSafe(c, s, Step(c, s, e));
  }

  lemma StepSafe(c: Settings, s: Sys, e: Event)
    requires Core(c, s) && Enabled(c, s, e) && Disciplined(s, e)
    ensures TurnsOk(c, Step(c, s, e))
  {
    match e
    case UpdateProcess(u) => UpdateSafe(c, s, u);
    case Begin(w) => if CanBegin(s, w) { BeginSafe(c, s, w); } else { StandDownSafe(c, s, w); }
    case Recheck(w) => PickSafe(c, s, w);
    case StartCall(w) => CallSafe(c, s, w);
    case EndCall(w, out) => ReturnSafe(c, s, w, out);
    case Complete(w, draw) => CompleteSafe(c, s, w, DelayOf(c, s, w, draw));
    case ConsumerLock => ConsumerLockSafe(c, s);
    case TerminateOrphan(id) => OrphanSafe(c, s, id);
    case RemoveFinished(id) => RemovalSafe(c, s, id);
    case Receive(w) => ReceiveSafe(c, s, w);
    case SendLate(w) => SendLateSafe(c, s, w);
    case _ => BystanderSafe(c, s, e);
  }

  // ----- Marked records are held -----

  lemma HeldCarries(s: Sys, t: Sys, w0: nat)
    requires Held(s) && NoLostWork.OthersRest(s, t, w0)
    requires forall r | r in t.recs && t.recs[r].working ::
               TurnOn(t, w0, r) || (r in s.recs && s.recs[r].working && !TurnOn(s, w0, r))
    ensures Held(t)
  {
    forall r | r in t.recs && t.recs[r].working ensures exists w :: TurnOn(t, w, r) {
      if !TurnOn(t, w0, r) {
        var w :| TurnOn(s, w, r);
        assert TurnOn(t, w, r);
      }
    }
  }

  lemma UpdateHeld(s: Sys, u: ProcessUpdate)
    requires NoLostWork.Shape(s, {}) && Held(s)
    ensures Held(Submit(s, u))
  {
    var s1 := WithRecord(s, u.id);
    HeldCarries(s, s1, s.next);
    if Live(s1, u.id) { DeliverHeld(s1, u); }
  }

  lemma DeliverHeld(s: Sys, u: ProcessUpdate)
    requires Live(s, u.id) && Held(s) && (forall w | w in s.workers :: w < s.next)
    ensures Held(Deliver(s, u))
  {
    HeldCarries(s, Accept(s, u), s.next);
    HeldCarries(Accept(s, u), Deliver(s, u), s.next);
  }

  /** A worker moves within its turn, or outside one. */
  lemma MoveHeld(s: Sys, w: nat, pc: PC)
    requires Held(s) && w in s.workers
    requires InTurn(s.workers[w].pc) ==> InTurn(pc) && pc.rec == s.workers[w].pc.rec
    ensures Held(SetPC(s, w, pc))
  {
    HeldCarries(s, SetPC(s, w, pc), w);
  }

  lemma ReceiveHeld(s: Sys, w: nat)
    requires Held(s) && w in s.workers && s.workers[w].pc.Waiting?
    ensures Held(TakeSignal(s, w))
  {
    HeldCarries(s, TakeSignal(s, w), w);
  }

  lemma SendLateHeld(s: Sys, w: nat)
    requires Held(s) && w in s.workers && s.workers[w].pc.LateSignal?
    ensures Held(SendLateSignal(s, w))
  {
    if s.workers[w].pc.ch.Some? {
      var s1 := Signal(s, s.workers[w].pc.ch.value);
      HeldCarries(s, s1, s.next);
      MoveHeld(s1, w, Waiting);
    } else {
      MoveHeld(s, w, Waiting);
    }
  }

  lemma BeginHeld(s: Sys, w: nat)
    requires NoLostWork.Shape(s, {}) && Held(s) && w in s.workers && s.workers[w].pc.Woken?
    ensures Held(BeginWork(s, w))
  {
    if CanBegin(s, w) { HeldCarries(s, BeginWork(s, w), w); }
    else { MoveHeld(s, w, if Live(s, s.workers[w].id) then Waiting else Exited); }
  }

  lemma ReturnHeld(s: Sys, w: nat, out: Outcome)
    requires Held(s) && w in s.workers && s.workers[w].pc.InCall? && s.workers[w].pc.rec in s.recs
    ensures Held(ReturnFromHook(s, w, out))
  {
    HeldCarries(s, ReturnFromHook(s, w, out), w);
  }

  lemma CompleteHeld(s: Sys, w: nat, delay: int)
    requires NoLostWork.Shape(s, {}) && Owned(s) && Held(s) && w in s.workers && s.workers[w].pc.Ended?
    ensures Held(CompleteWork(s, w, delay))
  {
    HeldCarries(s, CompleteWork(s, w, delay), w);
  }

  lemma PendingHeld(s: Sys, id: ProcessID)
    requires NoLostWork.Shape(s, {}) && Held(s) && id in s.statuses
    ensures Held(Filled(s, id))
  {
    HeldCarries(s, Filled(s, id), s.next);
  }

  lemma ConsumerLockHeld(s: Sys)
    requires NoLostWork.Shape(s, {}) && Held(s) && s.consumer.Holding?
    ensures Held(ConsumerLockStep(s))
  {
    var id := s.consumer.id;
    if id in s.statuses {
      var s1 := Filled(s, id);
      PendingHeld(s, id);
      HeldCarries(s1, s1.(consumer := Signalling(s.updates[id])), s.next);
    } else {
      HeldCarries(s, s.(consumer := Idle), s.next);
    }
  }

  lemma OrphanHeld(s: Sys, id: ProcessID)
    requires Held(s) && Live(s, id)
    ensures Held(Orphaned(s, id))
  {
    HeldCarries(s, Orphaned(s, id), s.next);
  }

  lemma BystanderHeld(c: Settings, s: Sys, e: Event)
    requires Held(s) && Enabled(c, s, e)
    requires e.Dequeue? || e.ConsumerSend? || e.RemoveFinished? || e.Tick?
    ensures Held(Step(c, s, e))
  {
    HeldCarries(s, Step(c, s, e), s.next);
  }

  lemma HookHeld(c: Settings, s: Sys, e: Event)
    requires NoLostWork.Shape(s, {}) && Owned(s) && Held(s) && Enabled(c, s, e) && (e.Recheck? || e.StartCall?)
    ensures Held(Step(c, s, e))
  {
    if e.Recheck? {
      MoveHeld(s, e.w, PickHook(c, s, e.w).workers[e.w].pc);
    } else {
      MoveHeld(s, e.w, CallHook(s, e.w).workers[e.w].pc);
    }
  }

  lemma StepHeld(c: Settings, s: Sys, e: Event)
    requires NoLostWork.Shape(s, {}) && Owned(s) && Held(s) && Enabled(c, s, e)
    ensures Held(Step(c, s, e))
  {
    match e
    case UpdateProcess(u) => UpdateHeld(s, u);
    case Receive(w) => ReceiveHeld(s, w);
    case Begin(w) => BeginHeld(s, w);
    case Recheck(w) => HookHeld(c, s, e);
    case StartCall(w) => HookHeld(c, s, e);
    case EndCall(w, out) => ReturnHeld(s, w, out);
    case Complete(w, draw) => CompleteHeld(s, w, DelayOf(c, s, w, draw));
    case SendLate(w) => SendLateHeld(s, w);
    case ConsumerLock => ConsumerLockHeld(s);
    case TerminateOrphan(id) => OrphanHeld(s, id);
    case _ => BystanderHeld(c, s, e);
  }
}
