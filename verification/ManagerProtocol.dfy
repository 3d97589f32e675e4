/**
The process manager as a protocol: one worker goroutine per update channel, one
work-queue consumer, and callers, all interleaving at lock-section granularity.

`Step(c, s, e)` is the effect of one atomic step; a run is any sequence of
enabled events from `Init`. Syncer results, clock readings and random draws are
part of the events, so a theorem about all runs covers all of them.

Records, channels and contexts are named by numbers from one counter, so that a
reference kept across lock sections stays meaningful after its record has been
removed from the manager's maps.
*/
module ManagerProtocol {
  import opened Wrappers
  import opened ProcTypes
  import opened Backoff

  datatype Kind = SyncCall | TerminatingCall | TerminatedCall

  /** Where a worker is between two lock sections. */
  datatype PC =
    | Waiting                                                // blocked on its update channel
    | Woken                                                  // took a signal, processUpdate not yet begun
    | Chosen(rec: nat, update: ProcessUpdate, state: ProcessState)  // processUpdate released the lock
    | Calling(rec: nat, update: ProcessUpdate, kind: Kind)   // executeSync has picked the hook
    | InCall(rec: nat, update: ProcessUpdate, kind: Kind, ctx: Option<nat>)
    | Ended(rec: nat, err: Option<SyncError>)                // completeWork not yet begun
    | LateSignal(ch: Option<nat>)                            // completeWork released the lock, has to signal
    | Exited

  datatype Worker = Worker(id: ProcessID, pc: PC)

  datatype Consumer = Idle | Holding(id: ProcessID) | Signalling(ch: nat)

  /** A finished call of one of the three syncer hooks. */
  datatype CallEnd = CallEnd(kind: Kind, ok: bool)

  /** What touched a record's grace period. */
  datatype GraceRequest = Explicit(secs: int) | Default

  datatype Sys = Sys(
    recs: map<nat, Status>,
    statuses: map<ProcessID, nat>,
    updates: map<ProcessID, nat>,
    signals: set<nat>,                 // channels whose single slot is full
    workers: map<nat, Worker>,         // keyed by the channel a worker listens on
    consumer: Consumer,
    queue: map<ProcessID, Time>,
    cancelled: set<nat>,
    next: nat,
    now: Time,
    calls: map<nat, seq<CallEnd>>,     // history per record
    closed: map<nat, seq<nat>>,        // completion channels closed on behalf of a record
    grace: map<nat, seq<GraceRequest>>)

  function Init(now: Time): Sys {
    Sys(map[], map[], map[], {}, map[], Idle, map[], {}, 0, now, map[], map[], map[])
  }

  datatype Event =
    | UpdateProcess(u: ProcessUpdate)
    | Receive(w: nat)
    | Begin(w: nat)
    | Recheck(w: nat)
    | StartCall(w: nat)
    | EndCall(w: nat, out: Outcome)
    | Complete(w: nat, draw: real)
    | SendLate(w: nat)
    | Dequeue(id: ProcessID)
    | ConsumerLock
    | ConsumerSend
    | TerminateOrphan(id: ProcessID)   // SyncKnownProcesses' treatment of one identifier
    | RemoveFinished(id: ProcessID)
    | Tick(to: Time)

  predicate InTurn(pc: PC) { pc.Chosen? || pc.Calling? || pc.InCall? || pc.Ended? }

  predicate Live(s: Sys, id: ProcessID) {
    id in s.statuses && s.statuses[id] in s.recs && !s.recs[s.statuses[id]].IsFinished()
  }

  ghost predicate Enabled(c: Settings, s: Sys, e: Event) {
    match e
    case UpdateProcess(_) => true
    case Receive(w) => w in s.workers && s.workers[w].pc.Waiting? && w in s.signals
    case Begin(w) => w in s.workers && s.workers[w].pc.Woken?
    case Recheck(w) => w in s.workers && s.workers[w].pc.Chosen? && s.workers[w].pc.rec in s.recs
    case StartCall(w) => w in s.workers && s.workers[w].pc.Calling? && s.workers[w].pc.rec in s.recs
    case EndCall(w, _) => w in s.workers && s.workers[w].pc.InCall? && s.workers[w].pc.rec in s.recs
    case Complete(w, draw) => w in s.workers && s.workers[w].pc.Ended? && 0.0 <= draw < 1.0
    case SendLate(w) => w in s.workers && s.workers[w].pc.LateSignal?
    case Dequeue(id) =>
      s.consumer.Idle? && id in s.queue && s.queue[id] <= s.now
      && forall j | j in s.queue :: s.queue[id] <= s.queue[j]
    case ConsumerLock => s.consumer.Holding?
    case ConsumerSend => s.consumer.Signalling?
    case TerminateOrphan(id) => Live(s, id) && !s.recs[s.statuses[id]].IsTerminating()
    case RemoveFinished(id) => id in s.statuses && s.statuses[id] in s.recs && s.recs[s.statuses[id]].IsFinished()
    case Tick(to) => s.now <= to
  }

  function SetPC(s: Sys, w: nat, pc: PC): Sys
    requires w in s.workers
  {
    s.(workers := s.workers[w := s.workers[w].(pc := pc)])
  }

  function At0<T>(m: map<nat, seq<T>>, r: nat): seq<T> {
    if r in m then m[r] else []
  }

  /** Replaces the record `r` and adds to its history. */
  function Rewrite(s: Sys, r: nat, st: Status, calls: seq<CallEnd>, closed: seq<nat>, grace: seq<GraceRequest>): Sys {
    s.(recs := s.recs[r := st],
       calls := s.calls[r := At0(s.calls, r) + calls],
       closed := s.closed[r := At0(s.closed, r) + closed],
       grace := s.grace[r := At0(s.grace, r) + grace])
  }

  function GraceOf(opts: Option<TerminateOptions>): GraceRequest {
    if opts.Some? && opts.value.gracePeriodSecs.Some? then Explicit(opts.value.gracePeriodSecs.value) else Default
  }

  /** A lock section outside the record's turn replaces it by `st`, and may cancel its context. */
  function Touch(s: Sys, r: nat, st: Status, cancel: bool, grace: seq<GraceRequest>): Sys
    requires r in s.recs
  {
    s.(recs := s.recs[r := st],
       cancelled := s.cancelled + (if cancel && s.recs[r].ctx.Some? then {s.recs[r].ctx.value} else {}),
       grace := s.grace[r := At0(s.grace, r) + grace])
  }

  /** Allocates the record of an identifier that has none. */
  function WithRecord(s: Sys, id: ProcessID): Sys {
    if id in s.statuses then s
    else s.(recs := s.recs[s.next := NewStatus], statuses := s.statuses[id := s.next], next := s.next + 1,
            calls := s.calls[s.next := []], closed := s.closed[s.next := []], grace := s.grace[s.next := []])
  }

  /** Allocates the update channel and starts its worker. */
  function WithWorker(s: Sys, id: ProcessID): Sys {
    if id in s.updates then s
    else s.(updates := s.updates[id := s.next], workers := s.workers[s.next := Worker(id, Waiting)],
            next := s.next + 1)
  }

  function Signal(s: Sys, ch: nat): Sys {
    s.(signals := s.signals + {ch})
  }

  /** UpdateProcess on the unfinished record of u.id. */
  function Accept(s: Sys, u: ProcessUpdate): Sys
    requires u.id in s.statuses && s.statuses[u.id] in s.recs
  {
    var r := s.statuses[u.id];
    var terminate := u.updateType == TypeTerminate;
    Touch(s, r, AcceptUpdate(s.recs[r], u, s.now), terminate && CancelsContext(s.recs[r]),
          if terminate then [GraceOf(u.terminateOptions)] else [])
  }

  /** ... and the signal to its worker, which may have to be started first. */
  function WakeWorker(s: Sys, id: ProcessID): Sys {
    var s1 := WithWorker(s, id);
    Signal(s1, s1.updates[id])
  }

  function Deliver(s: Sys, u: ProcessUpdate): Sys
    requires u.id in s.statuses && s.statuses[u.id] in s.recs
  {
    WakeWorker(Accept(s, u), u.id)
  }

  function Submit(s: Sys, u: ProcessUpdate): Sys {
    var s1 := WithRecord(s, u.id);
    if Live(s1, u.id) then Deliver(s1, u) else s1
  }

  /** There is work on the identifier's record, and nobody is at it. */
  predicate StartsTurn(s: Sys, id: ProcessID) {
    Live(s, id) && !s.recs[s.statuses[id]].working && s.recs[s.statuses[id]].pending.Some?
  }

  /** Where processUpdate's opening section leaves the worker. */
  function AfterLook(s: Sys, id: ProcessID): PC {
    if !Live(s, id) then Exited
    else if !StartsTurn(s, id) then Waiting
    else
      var st := s.recs[s.statuses[id]];
      Chosen(s.statuses[id], st.pending.value, BeginTurn(st, s.cancelled, s.next).State())
  }

  /** processUpdate's opening section, run by worker w. */
  function BeginWork(s: Sys, w: nat): Sys
    requires w in s.workers
  {
    var id := s.workers[w].id;
    SetPC(s.(recs := if StartsTurn(s, id)
                     then s.recs[s.statuses[id] := BeginTurn(s.recs[s.statuses[id]], s.cancelled, s.next)]
                     else s.recs,
             next := if StartsTurn(s, id) then s.next + 1 else s.next),
          w, AfterLook(s, id))
  }

  /** The hook executeSync picks, from the state read under the lock and a fresh look at the record. */
  function HookFor(c: Settings, st: Status, pc: PC): PC
    requires pc.Chosen?
  {
    if !c.hasSyncer then Ended(pc.rec, Some(OtherError("no syncer configured")))
    else match pc.state
      case Starting => Calling(pc.rec, pc.update, if st.IsTerminating() then TerminatingCall else SyncCall)
      case Syncing => Calling(pc.rec, pc.update, if st.IsTerminating() then TerminatingCall else SyncCall)
      case Terminating => Calling(pc.rec, pc.update, TerminatingCall)
      case Terminated => Calling(pc.rec, pc.update, TerminatedCall)
      case Finished => Ended(pc.rec, None)
  }

  function PickHook(c: Settings, s: Sys, w: nat): Sys
    requires w in s.workers && s.workers[w].pc.Chosen? && s.workers[w].pc.rec in s.recs
  {
    SetPC(s, w, HookFor(c, s.recs[s.workers[w].pc.rec], s.workers[w].pc))
  }

  /** The record after a hook has returned `out`. */
  function AfterCall(st: Status, id: ProcessID, u: ProcessUpdate, kind: Kind, out: Outcome, now: Time): (st1: Status)
    ensures st1.working == st.working && st1.ctx == st.ctx
    ensures st.IsFinished() ==> st1.IsFinished()
    ensures st.pending.Some? ==> st1.pending.Some?
  {
    match kind
    case SyncCall => EndSync(st, out, now)
    case TerminatingCall => EndTerminating(st, id, u, out.err, now)
    case TerminatedCall => EndTerminated(st, out.err, now)
  }

  /** The completion channel a returning hook closes. */
  function ClosedBy(u: ProcessUpdate, kind: Kind, out: Outcome): seq<nat> {
    if kind.TerminatingCall? && out.err.None? && CompletionChannel(u).Some? then [CompletionChannel(u).value] else []
  }

  /** A terminal SyncProcess result asks for the default grace period. */
  function GraceBy(kind: Kind, out: Outcome): seq<GraceRequest> {
    if kind.SyncCall? && out.terminal then [Default] else []
  }

  function ReturnFromHook(s: Sys, w: nat, out: Outcome): Sys
    requires w in s.workers && s.workers[w].pc.InCall? && s.workers[w].pc.rec in s.recs
  {
    var InCall(r, u, kind, _) := s.workers[w].pc;
    SetPC(Rewrite(s, r, AfterCall(s.recs[r], s.workers[w].id, u, kind, out, s.now),
                  [CallEnd(kind, out.err.None?)], ClosedBy(u, kind, out), GraceBy(kind, out)),
          w, Ended(r, out.err))
  }

  /** Enqueue keeps the earlier of two ready times. */
  function EnqueueAt(q: map<ProcessID, Time>, id: ProcessID, t: Time): map<ProcessID, Time> {
    if id in q && q[id] <= t then q else q[id := t]
  }

  /** In q, as against `was`, the identifier is due at t or when it was due, if that is earlier; nothing else moves. */
  ghost predicate Scheduled(was: map<ProcessID, Time>, q: map<ProcessID, Time>, id: ProcessID, t: Time) {
    && id in q && q[id] <= t && (id in was ==> q[id] <= was[id]) && (q[id] == t || (id in was && q[id] == was[id]))
    && (forall j | j != id :: j in q <==> j in was) && (forall j | j != id && j in was :: q[j] == was[j])
  }

  lemma EnqueueSchedules(was: map<ProcessID, Time>, id: ProcessID, t: Time)
    ensures Scheduled(was, EnqueueAt(was, id, t), id, t)
  {
  }

  /** The delay completeWork computes for worker w. */
  function DelayOf(c: Settings, s: Sys, w: nat, draw: real): int
    requires w in s.workers && s.workers[w].pc.Ended?
  {
    var id := s.workers[w].id;
    var err := s.workers[w].pc.err;
    if id in s.statuses && s.statuses[id] in s.recs
    then RequeueDelay(c, FinishTurn(s.recs[s.statuses[id]], err), err, draw)
    else 0
  }

  /** Where completeWork leaves its worker: it signals if an update has arrived meanwhile. */
  function AfterTurn(s: Sys, id: ProcessID): PC {
    if Live(s, id) && s.recs[s.statuses[id]].pending.Some?
    then LateSignal(if id in s.updates then Some(s.updates[id]) else None)
    else Waiting
  }

  /** completeWork's tail: enqueue unless the process has finished. */
  function CloseTurn(s: Sys, w: nat, t: Time): Sys
    requires w in s.workers
  {
    var id := s.workers[w].id;
    SetPC(s.(queue := if Live(s, id) then EnqueueAt(s.queue, id, t) else s.queue), w, AfterTurn(s, id))
  }

  /** completeWork finds the record by identifier again; it need not be the one the turn began with. */
  function FinishRecord(s: Sys, w: nat): Sys
    requires w in s.workers && s.workers[w].pc.Ended?
  {
    var id := s.workers[w].id;
    s.(recs := if id in s.statuses && s.statuses[id] in s.recs
               then s.recs[s.statuses[id] := FinishTurn(s.recs[s.statuses[id]], s.workers[w].pc.err)]
               else s.recs)
  }

  function CompleteWork(s: Sys, w: nat, delay: int): Sys
    requires w in s.workers && s.workers[w].pc.Ended?
  {
    CloseTurn(FinishRecord(s, w), w, s.now + delay)
  }

  function TakeSignal(s: Sys, w: nat): Sys
    requires w in s.workers
  {
    SetPC(s, w, Woken).(signals := s.signals - {w})
  }

  function SendLateSignal(s: Sys, w: nat): Sys
    requires w in s.workers && s.workers[w].pc.LateSignal?
  {
    var ch := s.workers[w].pc.ch;
    SetPC(if ch.Some? then Signal(s, ch.value) else s, w, Waiting)
  }

  function CallHook(s: Sys, w: nat): Sys
    requires w in s.workers && s.workers[w].pc.Calling? && s.workers[w].pc.rec in s.recs
  {
    var Calling(r, u, kind) := s.workers[w].pc;
    SetPC(s, w, InCall(r, u, kind, s.recs[r].ctx))
  }

  function TakeFromQueue(s: Sys, id: ProcessID): Sys {
    s.(consumer := Holding(id), queue := s.queue - {id})
  }

  /** The consumer's lock section for the identifier it has just dequeued. */
  function ConsumerLockStep(s: Sys): Sys
    requires s.consumer.Holding?
  {
    var id := s.consumer.id;
    if id in s.statuses && s.statuses[id] in s.recs && id in s.updates
    then Filled(s, id).(consumer := Signalling(s.updates[id]))
    else s.(consumer := Idle)
  }

  /** The record has a pending update, one made up if need be. */
  function Filled(s: Sys, id: ProcessID): Sys
    requires id in s.statuses && s.statuses[id] in s.recs
  {
    var r := s.statuses[id];
    Touch(s, r, EnsurePending(s.recs[r], id, s.now), false, [])
  }

  function ConsumerSignal(s: Sys): Sys
    requires s.consumer.Signalling?
  {
    Signal(s, s.consumer.ch).(consumer := Idle)
  }

  function Orphaned(s: Sys, id: ProcessID): Sys
    requires id in s.statuses && s.statuses[id] in s.recs
  {
    var r := s.statuses[id];
    Touch(s, r, RequestTermination(s.recs[r], None, s.now), CancelsContext(s.recs[r]), [Default])
  }

  function Removed(s: Sys, id: ProcessID): Sys {
    s.(statuses := s.statuses - {id}, updates := s.updates - {id})
  }

  function Step(c: Settings, s: Sys, e: Event): Sys
    requires Enabled(c, s, e)
  {
    match e
    case UpdateProcess(u) => Submit(s, u)
    case Receive(w) => TakeSignal(s, w)
    case Begin(w) => BeginWork(s, w)
    case Recheck(w) => PickHook(c, s, w)
    case StartCall(w) => CallHook(s, w)
    case EndCall(w, out) => ReturnFromHook(s, w, out)
    case Complete(w, draw) => CompleteWork(s, w, DelayOf(c, s, w, draw))
    case SendLate(w) => SendLateSignal(s, w)
    case Dequeue(id) => TakeFromQueue(s, id)
    case ConsumerLock => ConsumerLockStep(s)
    case ConsumerSend => ConsumerSignal(s)
    case TerminateOrphan(id) => Orphaned(s, id)
    case RemoveFinished(id) => Removed(s, id)
    case Tick(to) => s.(now := to)
  }

  /** A run: every event is enabled where it happens. */
  ghost predicate IsRun(c: Settings, s: Sys, es: seq<Event>)
    decreases |es|
  {
    es == [] || (Enabled(c, s, es[0]) && IsRun(c, Step(c, s, es[0]), es[1..]))
  }

  ghost function Exec(c: Settings, s: Sys, es: seq<Event>): Sys
    requires IsRun(c, s, es)
    decreases |es|
  {
    if es == [] then s else Exec(c, Step(c, s, es[0]), es[1..])
  }

  lemma {:induction false} ExecAppend(c: Settings, s: Sys, es: seq<Event>, e: Event)
    requires IsRun(c, s, es) && Enabled(c, Exec(c, s, es), e)
    ensures IsRun(c, s, es + [e]) && Exec(c, s, es + [e]) == Step(c, Exec(c, s, es), e)
    decreases |es|
  {
    if es == [] {
      assert (es + [e])[1..] == [];
    } else {
      ExecAppend(c, Step(c, s, es[0]), es[1..], e);
      assert (es + [e])[1..] == es[1..] + [e];
    }
  }
}
