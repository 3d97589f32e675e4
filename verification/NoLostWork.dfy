/**
No lost work: in every state of every run, a tracked process that has not
finished is being served, or has an update pending that a worker is going to
see, or sits in the work queue, or is held by the queue's consumer.

Nothing is assumed about when SyncKnownProcesses removes finished records.
*/
module NoLostWork {
  import opened Wrappers
  import opened ProcTypes
  import opened Backoff
  import opened ManagerProtocol

  ghost predicate Serving(s: Sys, w: nat, id: ProcessID) {
    w in s.workers && s.workers[w].id == id && InTurn(s.workers[w].pc)
  }

  ghost predicate AboutToLook(s: Sys, w: nat, id: ProcessID) {
    w in s.workers && s.workers[w].id == id && s.workers[w].pc.Woken?
  }

  ghost predicate AboutToSignal(s: Sys, w: nat, ch: nat) {
    w in s.workers && s.workers[w].pc == LateSignal(Some(ch))
  }

  /** A signal for the identifier is buffered, has been taken, or is about to be sent. */
  ghost predicate WakeUpDue(s: Sys, id: ProcessID)
    requires id in s.updates
  {
    || s.updates[id] in s.signals
    || (exists w :: AboutToLook(s, w, id))
    || (exists w :: AboutToSignal(s, w, s.updates[id]))
    || s.consumer == Signalling(s.updates[id])
  }

  ghost predicate Covered(s: Sys, id: ProcessID)
    requires Live(s, id)
  {
    || (exists w :: Serving(s, w, id))
    || (s.recs[s.statuses[id]].pending.Some? && id in s.updates && WakeUpDue(s, id))
    || id in s.queue
    || s.consumer == Holding(id)
  }

  /**
  The maps agree with each other, and the worker listening for a live process
  has not exited. Inside UpdateProcess the identifiers in `unlistened` have a
  record but no channel yet.
  */
  ghost predicate Shape(s: Sys, unlistened: set<ProcessID>) {
    && (forall id :: id in s.statuses <==> id in s.updates || id in unlistened)
    && (forall id | id in s.statuses :: s.statuses[id] in s.recs)
    && (forall id, jd | id in s.statuses && jd in s.statuses && s.statuses[id] == s.statuses[jd] :: id == jd)
    && (forall id | id in s.updates :: s.updates[id] in s.workers && s.workers[s.updates[id]].id == id)
    && (forall r | r in s.recs :: r < s.next)
    && (forall w | w in s.workers :: w < s.next)
    && (forall w | w in s.workers && InTurn(s.workers[w].pc) :: s.workers[w].pc.rec in s.recs)
    && (forall id | id in s.updates :: Live(s, id) ==> !s.workers[s.updates[id]].pc.Exited?)
  }

  ghost predicate WorkingIsServed(s: Sys) {
    forall id | id in s.statuses :: Live(s, id) && s.recs[s.statuses[id]].working ==> exists w :: Serving(s, w, id)
  }

  ghost predicate NothingLost(s: Sys, exempt: set<ProcessID>) {
    forall id | id in s.statuses :: Live(s, id) && id !in exempt ==> Covered(s, id)
  }

  ghost predicate InvBut(s: Sys, unlistened: set<ProcessID>, exempt: set<ProcessID>) {
    Shape(s, unlistened) && WorkingIsServed(s) && NothingLost(s, exempt)
  }

  ghost predicate Inv(s: Sys) {
    InvBut(s, {}, {})
  }

  /** Only worker w may have moved. */
  ghost predicate OthersRest(s: Sys, t: Sys, w: nat) {
    forall v | v in s.workers && v != w :: v in t.workers && t.workers[v] == s.workers[v]
  }

  /** A witness of coverage survives a step, unless it was the moving worker w itself. */
  lemma CoverageCarries(s: Sys, t: Sys, id: ProcessID, w: nat)
    requires Live(s, id) && Live(t, id) && Covered(s, id)
    requires id in s.updates ==> id in t.updates && t.updates[id] == s.updates[id]
    requires OthersRest(s, t, w)
    requires Serving(s, w, id) || AboutToLook(s, w, id) ==> Covered(t, id)
    requires id in s.updates && AboutToSignal(s, w, s.updates[id]) ==> s.updates[id] in t.signals
    requires id in s.updates && s.updates[id] in s.signals ==> s.updates[id] in t.signals || AboutToLook(t, w, id)
    requires s.consumer == Holding(id) ==> t.consumer == s.consumer || Covered(t, id)
    requires id in s.updates && s.consumer == Signalling(s.updates[id]) ==>
               t.consumer == s.consumer || s.updates[id] in t.signals
    requires id in s.queue ==> id in t.queue || Covered(t, id)
    requires s.recs[s.statuses[id]].pending.Some? ==> t.recs[t.statuses[id]].pending.Some? || Covered(t, id)
    ensures Covered(t, id)
  {
    if v :| Serving(s, v, id) { assert Serving(t, v, id) || v == w; }
    else if id in s.queue || s.consumer == Holding(id) {}
    else if v :| AboutToLook(s, v, id) { assert AboutToLook(t, v, id) || v == w; }
    else if v :| AboutToSignal(s, v, s.updates[id]) { assert AboutToSignal(t, v, t.updates[id]) || v == w; }
  }

  /** ... and so does a witness that a working record is served. */
  lemma ServiceCarries(s: Sys, t: Sys, w: nat)
    requires WorkingIsServed(s)
    requires OthersRest(s, t, w)
    requires forall id | Live(t, id) && t.recs[t.statuses[id]].working ::
               || Serving(t, w, id)
               || (Live(s, id) && s.recs[s.statuses[id]].working && !Serving(s, w, id))
    ensures WorkingIsServed(t)
  {
    forall id | Live(t, id) && t.recs[t.statuses[id]].working
      ensures exists v :: Serving(t, v, id)
    {
      if !Serving(t, w, id) {
        var v :| Serving(s, v, id);
        assert Serving(t, v, id);
      }
    }
  }

  lemma NewRecordShape(s: Sys, id: ProcessID)
    requires Shape(s, {}) && id !in s.statuses
    ensures Shape(WithRecord(s, id), {id})
  {
    NewRecordWorkers(s, id);
  }

  lemma NewRecordWorkers(s: Sys, id: ProcessID)
    requires Shape(s, {}) && id !in s.statuses
    ensures var t := WithRecord(s, id);
      && (forall w | w in t.workers && InTurn(t.workers[w].pc) :: t.workers[w].pc.rec in t.recs)
      && (forall jd | jd in t.updates :: Live(t, jd) ==> !t.workers[t.updates[jd]].pc.Exited?)
  {
    var t := WithRecord(s, id);
    forall jd | jd in t.updates && Live(t, jd) ensures !t.workers[t.updates[jd]].pc.Exited? {
      assert Live(s, jd);
    }
  }

  lemma NewRecordKeeps(s: Sys, id: ProcessID)
    requires Inv(s) && id !in s.statuses
    ensures InvBut(WithRecord(s, id), {id}, {id})
  {
    var t := WithRecord(s, id);
    NewRecordShape(s, id);
    ServiceCarries(s, t, s.next);
    forall jd | Live(t, jd) && jd != id ensures Covered(t, jd) { CoverageCarries(s, t, jd, s.next); }
  }

  /** Rewriting a record without dropping its pending update or reviving it. */
  lemma TouchKeeps(s: Sys, r: nat, st: Status, cancel: bool, g: seq<GraceRequest>, us: set<ProcessID>,
                   ex: set<ProcessID>)
    requires InvBut(s, us, ex) && r in s.recs
    requires s.recs[r].IsFinished() ==> st.IsFinished()
    requires s.recs[r].pending.Some? ==> st.pending.Some?
    requires st.working ==> s.recs[r].working
    ensures InvBut(Touch(s, r, st, cancel, g), us, ex)
  {
    var t := Touch(s, r, st, cancel, g);
    ServiceCarries(s, t, s.next);
    forall jd | Live(t, jd) && jd !in ex ensures Covered(t, jd) { CoverageCarries(s, t, jd, s.next); }
  }

  lemma NewWorkerShape(s: Sys, id: ProcessID, us: set<ProcessID>)
    requires Shape(s, us) && us <= {id} && id in s.statuses && id !in s.updates
    ensures Shape(WithWorker(s, id), {})
  {
  }

  lemma NewWorkerKeeps(s: Sys, id: ProcessID, us: set<ProcessID>, ex: set<ProcessID>)
    requires InvBut(s, us, ex) && us <= {id} && id in s.statuses
    ensures InvBut(WithWorker(s, id), {}, ex)
  {
    if id !in s.updates {
      var t := WithWorker(s, id);
      NewWorkerShape(s, id, us);
      ServiceCarries(s, t, s.next);
      forall jd | Live(t, jd) && jd !in ex ensures Covered(t, jd) { CoverageCarries(s, t, jd, s.next); }
    }
  }

  lemma SignalKeeps(s: Sys, id: ProcessID, ex: set<ProcessID>)
    requires InvBut(s, {}, ex) && ex <= {id}
    requires id in s.statuses && s.recs[s.statuses[id]].pending.Some?
    ensures Inv(Signal(s, s.updates[id]))
  {
    var t := Signal(s, s.updates[id]);
    ServiceCarries(s, t, s.next);
    forall jd | Live(t, jd) ensures Covered(t, jd) {
      if jd == id { assert WakeUpDue(t, id); } else { CoverageCarries(s, t, jd, s.next); }
    }
  }

  lemma WakeWorkerKeeps(s: Sys, id: ProcessID, isNew: set<ProcessID>)
    requires InvBut(s, isNew, isNew) && isNew <= {id}
    requires id in s.statuses && s.recs[s.statuses[id]].pending.Some?
    ensures Inv(WakeWorker(s, id))
  {
    NewWorkerKeeps(s, id, isNew, isNew);
    SignalKeeps(WithWorker(s, id), id, isNew);
  }

  lemma AcceptKeeps(s: Sys, u: ProcessUpdate, isNew: set<ProcessID>)
    requires InvBut(s, isNew, isNew) && Live(s, u.id)
    ensures InvBut(Accept(s, u), isNew, isNew)
  {
    var r := s.statuses[u.id];
    var terminate := u.updateType == TypeTerminate;
    TouchKeeps(s, r, AcceptUpdate(s.recs[r], u, s.now), terminate && CancelsContext(s.recs[r]),
      if terminate then [GraceOf(u.terminateOptions)] else [], isNew, isNew);
  }

  lemma DeliverKeeps(s: Sys, u: ProcessUpdate, isNew: set<ProcessID>)
    requires InvBut(s, isNew, isNew) && isNew <= {u.id} && Live(s, u.id)
    ensures Inv(Deliver(s, u))
  {
    AcceptKeeps(s, u, isNew);
    WakeWorkerKeeps(Accept(s, u), u.id, isNew);
  }

  lemma UpdateKeeps(s: Sys, u: ProcessUpdate)
    requires Inv(s)
    ensures Inv(Submit(s, u))
  {
    if u.id !in s.statuses {
      NewRecordKeeps(s, u.id);
      DeliverKeeps(WithRecord(s, u.id), u, {u.id});
    } else if Live(s, u.id) {
      DeliverKeeps(s, u, {});
    }
  }

  /** A worker moving to a place where it still serves, or still does not serve, its identifier. */
  lemma MoveKeeps(s: Sys, w: nat, pc: PC)
    requires Inv(s) && w in s.workers
    requires InTurn(s.workers[w].pc) && InTurn(pc) && pc.rec in s.recs
    ensures Inv(SetPC(s, w, pc))
  {
    var t := SetPC(s, w, pc);
    assert Serving(t, w, s.workers[w].id);
    ServiceCarries(s, t, w);
    forall id | Live(t, id) ensures Covered(t, id) { CoverageCarries(s, t, id, w); }
  }

  lemma ReceiveKeeps(s: Sys, w: nat)
    requires Inv(s) && w in s.workers && s.workers[w].pc.Waiting?
    ensures Inv(TakeSignal(s, w))
  {
    var t := TakeSignal(s, w);
    assert AboutToLook(t, w, s.workers[w].id);
    ServiceCarries(s, t, w);
    forall id | Live(t, id) ensures Covered(t, id) { CoverageCarries(s, t, id, w); }
  }

  /** A worker that looked and found nothing to do, or no process to do it for. */
  lemma StandDownShape(s: Sys, w: nat, pc: PC)
    requires Shape(s, {}) && w in s.workers && !InTurn(pc)
    requires pc.Exited? ==> !Live(s, s.workers[w].id)
    ensures Shape(SetPC(s, w, pc), {})
  {
  }

  lemma StandDownKeeps(s: Sys, w: nat, pc: PC)
    requires Inv(s) && w in s.workers && s.workers[w].pc.Woken?
    requires var id := s.workers[w].id;
      if Live(s, id) then pc == Waiting && (s.recs[s.statuses[id]].working || s.recs[s.statuses[id]].pending.None?)
      else pc == Exited
    ensures Inv(SetPC(s, w, pc))
  {
    var t := SetPC(s, w, pc);
    var id := s.workers[w].id;
    StandDownShape(s, w, pc);
    ServiceCarries(s, t, w);
    assert Live(s, id) ==> Covered(t, id) by {
      if v :| Serving(s, v, id) { assert Serving(t, v, id); }
    }
    forall jd | Live(t, jd) ensures Covered(t, jd) { CoverageCarries(s, t, jd, w); }
  }

  lemma TurnStartShape(s: Sys, w: nat)
    requires Shape(s, {}) && w in s.workers && s.workers[w].pc.Woken?
    requires StartsTurn(s, s.workers[w].id)
    ensures Shape(BeginWork(s, w), {})
  {
  }

  lemma TurnStartKeeps(s: Sys, w: nat)
    requires Inv(s) && w in s.workers && s.workers[w].pc.Woken?
    requires StartsTurn(s, s.workers[w].id)
    ensures Inv(BeginWork(s, w))
  {
    var t := BeginWork(s, w);
    TurnStartShape(s, w);
    assert Serving(t, w, s.workers[w].id);
    ServiceCarries(s, t, w);
    forall id | Live(t, id) ensures Covered(t, id) { CoverageCarries(s, t, id, w); }
  }

  lemma BeginKeeps(s: Sys, w: nat)
    requires Inv(s) && w in s.workers && s.workers[w].pc.Woken?
    ensures Inv(BeginWork(s, w))
  {
    var id := s.workers[w].id;
    if !Live(s, id) { StandDownKeeps(s, w, Exited); }
    else if s.recs[s.statuses[id]].working || s.recs[s.statuses[id]].pending.None? { StandDownKeeps(s, w, Waiting); }
    else { TurnStartKeeps(s, w); }
  }

  lemma EndCallKeeps(s: Sys, w: nat, out: Outcome)
    requires Inv(s) && w in s.workers && s.workers[w].pc.InCall?
    ensures Inv(ReturnFromHook(s, w, out))
  {
    var t := ReturnFromHook(s, w, out);
    assert Serving(t, w, s.workers[w].id);
    ServiceCarries(s, t, w);
    forall id | Live(t, id) ensures Covered(t, id) { CoverageCarries(s, t, id, w); }
  }

  /** A worker leaves a turn, or has delivered its late signal. */
  lemma LeaveKeeps(s: Sys, w: nat, pc: PC)
    requires Inv(s) && w in s.workers && (pc.Waiting? || pc.LateSignal?)
    requires var id := s.workers[w].id;
      if InTurn(s.workers[w].pc) then Live(s, id) ==> !s.recs[s.statuses[id]].working && id in s.queue
      else s.workers[w].pc.LateSignal? && (s.workers[w].pc.ch.Some? ==> s.workers[w].pc.ch.value in s.signals)
    ensures Inv(SetPC(s, w, pc))
  {
    var t := SetPC(s, w, pc);
    ServiceCarries(s, t, w);
    forall id | Live(t, id) ensures Covered(t, id) { CoverageCarries(s, t, id, w); }
  }

  lemma CompleteShape(s: Sys, w: nat, delay: int)
    requires Shape(s, {}) && w in s.workers && s.workers[w].pc.Ended?
    ensures Shape(CompleteWork(s, w, delay), {})
  {
  }

  lemma CompleteKeeps(s: Sys, w: nat, delay: int)
    requires Inv(s) && w in s.workers && s.workers[w].pc.Ended?
    ensures Inv(CompleteWork(s, w, delay))
  {
    var t := CompleteWork(s, w, delay);
    CompleteShape(s, w, delay);
    ServiceCarries(s, t, w);
    forall id | Live(t, id) ensures Covered(t, id) { CoverageCarries(s, t, id, w); }
  }

  lemma AnySignalKeeps(s: Sys, ch: nat)
    requires Inv(s)
    ensures Inv(Signal(s, ch))
  {
    var t := Signal(s, ch);
    ServiceCarries(s, t, s.next);
    forall id | Live(t, id) ensures Covered(t, id) { CoverageCarries(s, t, id, s.next); }
  }

  lemma SendLateKeeps(s: Sys, w: nat)
    requires Inv(s) && w in s.workers && s.workers[w].pc.LateSignal?
    ensures Inv(SendLateSignal(s, w))
  {
    var ch := s.workers[w].pc.ch;
    if ch.Some? { AnySignalKeeps(s, ch.value); }
    LeaveKeeps(if ch.Some? then Signal(s, ch.value) else s, w, Waiting);
  }

  lemma DequeueKeeps(s: Sys, id: ProcessID)
    requires Inv(s) && s.consumer.Idle?
    ensures Inv(TakeFromQueue(s, id))
  {
    var t := TakeFromQueue(s, id);
    ServiceCarries(s, t, s.next);
    forall jd | Live(t, jd) ensures Covered(t, jd) { CoverageCarries(s, t, jd, s.next); }
  }

  /** The consumer lets go of an identifier or of a channel. */
  lemma ConsumerMoveKeeps(s: Sys, k: Consumer)
    requires Inv(s)
    requires s.consumer.Holding? && Live(s, s.consumer.id) ==>
      s.recs[s.statuses[s.consumer.id]].pending.Some? && k == Signalling(s.updates[s.consumer.id])
    requires s.consumer.Signalling? ==> s.consumer.ch in s.signals
    ensures Inv(s.(consumer := k))
  {
    var t := s.(consumer := k);
    ServiceCarries(s, t, s.next);
    forall id | Live(t, id) ensures Covered(t, id) {
      if s.consumer == Holding(id) { assert WakeUpDue(t, id); }
      CoverageCarries(s, t, id, s.next);
    }
  }

  lemma ConsumerLockKeeps(s: Sys)
    requires Inv(s) && s.consumer.Holding?
    ensures Inv(ConsumerLockStep(s))
  {
    var id := s.consumer.id;
    if id in s.statuses {
      var st := EnsurePending(s.recs[s.statuses[id]], id, s.now);
      TouchKeeps(s, s.statuses[id], st, false, [], {}, {});
      ConsumerMoveKeeps(Filled(s, id), Signalling(s.updates[id]));
    } else {
      ConsumerMoveKeeps(s, Idle);
    }
  }

  lemma ConsumerSendKeeps(s: Sys)
    requires Inv(s) && s.consumer.Signalling?
    ensures Inv(ConsumerSignal(s))
  {
    AnySignalKeeps(s, s.consumer.ch);
    ConsumerMoveKeeps(Signal(s, s.consumer.ch), Idle);
  }

  lemma OrphanKeeps(s: Sys, id: ProcessID)
    requires Inv(s) && Live(s, id)
    ensures Inv(Orphaned(s, id))
  {
    var r := s.statuses[id];
    TouchKeeps(s, r, RequestTermination(s.recs[r], None, s.now), CancelsContext(s.recs[r]), [Default], {}, {});
  }

  lemma RemovalKeeps(s: Sys, id: ProcessID)
    requires Inv(s) && id in s.statuses
    ensures Inv(Removed(s, id))
  {
    var t := Removed(s, id);
    ServiceCarries(s, t, s.next);
    forall jd | Live(t, jd) ensures Covered(t, jd) { CoverageCarries(s, t, jd, s.next); }
  }

  lemma TickKeeps(s: Sys, to: Time)
    requires Inv(s)
    ensures Inv(s.(now := to))
  {
    var t := s.(now := to);
    ServiceCarries(s, t, s.next);
    forall id | Live(t, id) ensures Covered(t, id) { CoverageCarries(s, t, id, s.next); }
  }

  lemma StepKeeps(c: Settings, s: Sys, e: Event)
    requires Inv(s) && Enabled(c, s, e)
    ensures Inv(Step(c, s, e))
  {
    match e
    case UpdateProcess(u) => UpdateKeeps(s, u);
    case Receive(w) => ReceiveKeeps(s, w);
    case Begin(w) => BeginKeeps(s, w);
    case Recheck(w) => MoveKeeps(s, w, PickHook(c, s, w).workers[w].pc);
    case StartCall(w) => MoveKeeps(s, w, CallHook(s, w).workers[w].pc);
    case EndCall(w, out) => EndCallKeeps(s, w, out);
    case Complete(w, draw) => CompleteKeeps(s, w, DelayOf(c, s, w, draw));
    case SendLate(w) => SendLateKeeps(s, w);
    case Dequeue(id) => DequeueKeeps(s, id);
    case ConsumerLock => ConsumerLockKeeps(s);
    case ConsumerSend => ConsumerSendKeeps(s);
    case TerminateOrphan(id) => OrphanKeeps(s, id);
    case RemoveFinished(id) => RemovalKeeps(s, id);
    case Tick(to) => TickKeeps(s, to);
  }

  lemma {:induction false} RunKeeps(c: Settings, s: Sys, es: seq<Event>)
    requires Inv(s) && IsRun(c, s, es)
    ensures Inv(Exec(c, s, es))
    decreases |es|
  {
    if es != [] {
      StepKeeps(c, s, es[0]);
      RunKeeps(c, Step(c, s, es[0]), es[1..]);
    }
  }

  /** No lost work, over every run and with no assumption on removals. */
  lemma {:induction false} NoWorkIsLost(c: Settings, start: Time, es: seq<Event>, id: ProcessID)
    requires IsRun(c, Init(start), es)
    requires Live(Exec(c, Init(start), es), id)
    ensures Covered(Exec(c, Init(start), es), id)
    ensures var s := Exec(c, Init(start), es);
      id in s.updates && s.updates[id] in s.workers && !s.workers[s.updates[id]].pc.Exited?
  {
    RunKeeps(c, Init(start), es);
  }
}
