/**
What the fields of a process record mean: for every run, each of them in terms of what has happened to the record,
and the update that a worker carries in terms of the updates that were accepted.
*/
module RecordHistory {
  import opened Wrappers
  import opened ProcTypes
  import opened Backoff
  import opened ManagerProtocol
  import opened Completion
  import KnownProcesses

  /** What can happen to a record. */
  datatype Happening =
    | Accepted(u: ProcessUpdate, at: Time)
    | Abandoned(at: Time)                  // SyncKnownProcesses requests termination
    | Started(w: nat, at: Time)
    | Returned(w: nat, kind: Kind, out: Outcome, at: Time)
    | Completed(err: Option<SyncError>, at: Time)

  type History = seq<Happening>

  // ----- Kinds of happenings -----

  predicate Succeeded(h: Happening, kind: Kind) {
    h.Returned? && h.kind == kind && h.out.err.None?
  }

  predicate SyncOk(h: Happening) { Succeeded(h, SyncCall) }

  predicate StopOk(h: Happening) { Succeeded(h, TerminatingCall) }

  predicate CleanOk(h: Happening) { Succeeded(h, TerminatedCall) }

  /** SyncProcess says that the process has come to its end. */
  predicate Terminal(h: Happening) {
    h.Returned? && h.kind == SyncCall && h.out.terminal
  }

  predicate Requests(h: Happening) {
    h.Abandoned? || (h.Accepted? && h.u.updateType == TypeTerminate)
  }

  /** A termination request that says it is an eviction; it counts only together with a grace period. */
  predicate Evicts(h: Happening) {
    && h.Accepted? && h.u.updateType == TypeTerminate && h.u.terminateOptions.Some?
    && h.u.terminateOptions.value.gracePeriodSecs.Some? && h.u.terminateOptions.value.evict
  }

  function FirstTime(hs: History, p: Happening -> bool): Option<Time> {
    if hs == [] then None
    else
      var before, h := FirstTime(hs[..|hs| - 1], p), hs[|hs| - 1];
      if before.Some? then before else if p(h) then Some(h.at) else None
  }

  function LastTime(hs: History, p: Happening -> bool): Option<Time> {
    if hs == [] then None
    else if p(hs[|hs| - 1]) then Some(hs[|hs| - 1].at)
    else LastTime(hs[..|hs| - 1], p)
  }

  /** Failed calls since the last success. */
  function FailedCalls(hs: History): nat {
    if hs == [] then 0
    else
      var before, h := FailedCalls(hs[..|hs| - 1]), hs[|hs| - 1];
      if !h.Returned? then before else if h.out.err.None? then 0 else before + 1
  }

  /** The error of the last call, if it failed. */
  function LastError(hs: History): Option<SyncError> {
    if hs == [] then None
    else if hs[|hs| - 1].Returned? then hs[|hs| - 1].out.err
    else LastError(hs[..|hs| - 1])
  }

  /** A turn has begun since the last completeWork. */
  predicate InProgress(hs: History) {
    hs != [] && (hs[|hs| - 1].Started? || (!hs[|hs| - 1].Completed? && InProgress(hs[..|hs| - 1])))
  }

  /** Failed turns since the last one that succeeded; none are counted once the process has finished. */
  function FailedTurns(hs: History): nat {
    if hs == [] then 0
    else
      var rest, h := hs[..|hs| - 1], hs[|hs| - 1];
      if !h.Completed? || LastTime(rest, CleanOk).Some? then FailedTurns(rest)
      else if h.err.None? then 0 else FailedTurns(rest) + 1
  }

  ghost predicate Fits(hs: History, st: Status) {
    && st.startedAt == FirstTime(hs, SyncOk)
    && st.syncedAt == LastTime(hs, SyncOk)
    && st.terminatingAt == (if LastTime(hs, Terminal).Some? then LastTime(hs, Terminal) else FirstTime(hs, Requests))
    && st.terminatedAt == LastTime(hs, StopOk)
    && st.finishedAt == LastTime(hs, CleanOk)
    && st.finished == LastTime(hs, CleanOk).Some?
    && st.evicted == LastTime(hs, Evicts).Some?
    && st.lastError == LastError(hs)
    && st.errorCount == FailedCalls(hs)
    && st.consecutiveFails == FailedTurns(hs)
    && st.working == InProgress(hs)
  }

  lemma NewFits()
    ensures Fits([], NewStatus)
  {
  }

  lemma Snoc(hs: History, h: Happening)
    ensures (hs + [h])[..|hs + [h]| - 1] == hs && (hs + [h])[|hs + [h]| - 1] == h
  {
  }

  lemma PlainFits(hs: History, st: Status, u: ProcessUpdate, now: Time)
    requires Fits(hs, st) && u.updateType != TypeTerminate
    ensures Fits(hs + [Accepted(u, now)], AcceptUpdate(st, u, now))
  {
    Snoc(hs, Accepted(u, now));
  }

  lemma RequestFits(hs: History, st: Status, u: ProcessUpdate, now: Time)
    requires Fits(hs, st) && u.updateType == TypeTerminate
    ensures Fits(hs + [Accepted(u, now)], RequestTermination(st, u.terminateOptions, now))
  {
    Snoc(hs, Accepted(u, now));
  }

  lemma AcceptFits(hs: History, st: Status, u: ProcessUpdate, now: Time)
    requires Fits(hs, st)
    ensures Fits(hs + [Accepted(u, now)], AcceptUpdate(st, u, now))
  {
    if u.updateType == TypeTerminate { RequestFits(hs, st, u, now); } else { PlainFits(hs, st, u, now); }
  }

  lemma AbandonFits(hs: History, st: Status, now: Time)
    requires Fits(hs, st)
    ensures Fits(hs + [Abandoned(now)], RequestTermination(st, None, now))
  {
    Snoc(hs, Abandoned(now));
  }

  lemma StartFits(hs: History, st: Status, w: nat, cancelled: set<nat>, unused: nat, now: Time)
    requires Fits(hs, st)
    ensures Fits(hs + [Started(w, now)], BeginTurn(st, cancelled, unused))
  {
    Snoc(hs, Started(w, now));
  }

  lemma SyncedFits(hs: History, st: Status, w: nat, out: Outcome, now: Time)
    requires Fits(hs, st) && out.err.None?
    ensures Fits(hs + [Returned(w, SyncCall, out, now)], EndSync(st, out, now))
  {
    Snoc(hs, Returned(w, SyncCall, out, now));
  }

  lemma UnsyncedFits(hs: History, st: Status, w: nat, out: Outcome, now: Time)
    requires Fits(hs, st) && out.err.Some?
    ensures Fits(hs + [Returned(w, SyncCall, out, now)], EndSync(st, out, now))
  {
    Snoc(hs, Returned(w, SyncCall, out, now));
  }

  lemma SyncFits(hs: History, st: Status, w: nat, out: Outcome, now: Time)
    requires Fits(hs, st)
    ensures Fits(hs + [Returned(w, SyncCall, out, now)], EndSync(st, out, now))
  {
    if out.err.None? { SyncedFits(hs, st, w, out, now); } else { UnsyncedFits(hs, st, w, out, now); }
  }

  lemma StopFits(hs: History, st: Status, w: nat, id: ProcessID, u: ProcessUpdate, out: Outcome, now: Time)
    requires Fits(hs, st)
    ensures Fits(hs + [Returned(w, TerminatingCall, out, now)], EndTerminating(st, id, u, out.err, now))
  {
    Snoc(hs, Returned(w, TerminatingCall, out, now));
  }

  lemma CleanFits(hs: History, st: Status, w: nat, out: Outcome, now: Time)
    requires Fits(hs, st)
    ensures Fits(hs + [Returned(w, TerminatedCall, out, now)], EndTerminated(st, out.err, now))
  {
    Snoc(hs, Returned(w, TerminatedCall, out, now));
  }

  lemma ReturnFits(hs: History, st: Status, w: nat, id: ProcessID, u: ProcessUpdate, kind: Kind, out: Outcome,
                   now: Time)
    requires Fits(hs, st)
    ensures Fits(hs + [Returned(w, kind, out, now)], AfterCall(st, id, u, kind, out, now))
  {
    match kind
    case SyncCall => SyncFits(hs, st, w, out, now);
    case TerminatingCall => StopFits(hs, st, w, id, u, out, now);
    case TerminatedCall => CleanFits(hs, st, w, out, now);
  }

  lemma CompleteFits(hs: History, st: Status, err: Option<SyncError>, now: Time)
    requires Fits(hs, st)
    ensures Fits(hs + [Completed(err, now)], FinishTurn(st, err))
  {
    Snoc(hs, Completed(err, now));
  }

  // ----- Orders -----

  /** The part of an update that reaches the hooks. */
  datatype Order = Order(updateType: UpdateType, config: Option<Config>)

  function OrderOf(u: ProcessUpdate): Order {
    Order(u.updateType, u.config)
  }

  /**
  What the next turn on the record is going to carry: the update accepted since the last turn, if any; otherwise a
  sync with the configuration of that turn. A SyncTerminatingProcess that succeeds replaces an update accepted while
  it was under way by a sync with its own configuration.
  */
  function NextOrder(hs: History): Order {
    if hs == [] then Order(TypeSync, None)
    else
      var rest, h := hs[..|hs| - 1], hs[|hs| - 1];
      if h.Accepted? then OrderOf(h.u)
      else if h.Started? then Order(TypeSync, NextOrder(rest).config)
      else if StopOk(h) then Order(TypeSync, TurnOrder(rest, h.w).config)
      else NextOrder(rest)
  }

  /** What the last turn that worker w began on the record carries. */
  function TurnOrder(hs: History, w: nat): Order {
    if hs == [] then Order(TypeSync, None)
    else
      var rest, h := hs[..|hs| - 1], hs[|hs| - 1];
      if h.Started? && h.w == w then NextOrder(rest) else TurnOrder(rest, w)
  }

  /** Pending is what the next turn carries; with nothing pending, a sync would be made up. */
  predicate PendingFits(hs: History, st: Status) {
    if st.pending.Some? then OrderOf(st.pending.value) == NextOrder(hs)
    else NextOrder(hs) == Order(TypeSync, if st.active.Some? then st.active.value.config else None)
  }

  lemma AcceptPending(hs: History, st: Status, u: ProcessUpdate, now: Time)
    ensures PendingFits(hs + [Accepted(u, now)], AcceptUpdate(st, u, now))
  {
    Snoc(hs, Accepted(u, now));
  }

  lemma AbandonPending(hs: History, st: Status, now: Time)
    requires PendingFits(hs, st)
    ensures PendingFits(hs + [Abandoned(now)], RequestTermination(st, None, now))
  {
    Snoc(hs, Abandoned(now));
  }

  lemma StartPending(hs: History, st: Status, w: nat, cancelled: set<nat>, unused: nat, now: Time)
    requires PendingFits(hs, st) && st.pending.Some?
    ensures PendingFits(hs + [Started(w, now)], BeginTurn(st, cancelled, unused))
  {
    Snoc(hs, Started(w, now));
  }

  lemma StopPending(hs: History, st: Status, w: nat, id: ProcessID, u: ProcessUpdate, out: Outcome, now: Time)
    requires OrderOf(u) == TurnOrder(hs, w) && out.err.None?
    ensures PendingFits(hs + [Returned(w, TerminatingCall, out, now)], EndTerminating(st, id, u, out.err, now))
  {
    Snoc(hs, Returned(w, TerminatingCall, out, now));
  }

  /** A call that does not stop the process leaves pending and active alone. */
  lemma OtherPending(hs: History, st: Status, t: Status, h: Happening)
    requires PendingFits(hs, st) && t.pending == st.pending && t.active == st.active && h.Returned? && !StopOk(h)
    ensures PendingFits(hs + [h], t)
  {
    Snoc(hs, h);
  }

  lemma ReturnPending(hs: History, st: Status, w: nat, id: ProcessID, u: ProcessUpdate, kind: Kind, out: Outcome,
                      now: Time)
    requires PendingFits(hs, st) && OrderOf(u) == TurnOrder(hs, w)
    ensures PendingFits(hs + [Returned(w, kind, out, now)], AfterCall(st, id, u, kind, out, now))
  {
    if kind == TerminatingCall && out.err.None? {
      StopPending(hs, st, w, id, u, out, now);
    } else {
      OtherPending(hs, st, AfterCall(st, id, u, kind, out, now), Returned(w, kind, out, now));
    }
  }

  lemma CompletePending(hs: History, st: Status, err: Option<SyncError>, now: Time)
    requires PendingFits(hs, st)
    ensures PendingFits(hs + [Completed(err, now)], FinishTurn(st, err))
  {
    Snoc(hs, Completed(err, now));
  }

  lemma FillPending(hs: History, st: Status, id: ProcessID, now: Time)
    requires PendingFits(hs, st)
    ensures PendingFits(hs, EnsurePending(st, id, now))
  {
  }

  lemma FillFits(hs: History, st: Status, id: ProcessID, now: Time)
    requires Fits(hs, st)
    ensures Fits(hs, EnsurePending(st, id, now))
  {
  }

  // ----- The order in terms of the updates accepted -----

  /** Something that decides on the next order. */
  predicate Decides(h: Happening) {
    h.Accepted? || h.Started? || StopOk(h)
  }

  lemma {:induction false} NextOrderIs(hs: History, j: nat)
    requires j < |hs| && Decides(hs[j]) && forall k | j < k < |hs| :: !Decides(hs[k])
    ensures NextOrder(hs) == NextOrder(hs[..j + 1])
  {
    if j + 1 < |hs| {
      NextOrderIs(hs[..|hs| - 1], j);
      assert hs[..|hs| - 1][..j + 1] == hs[..j + 1];
    } else {
      assert hs[..j + 1] == hs;
    }
  }

  lemma {:induction false} TurnOrderIs(hs: History, w: nat, b: nat)
    requires b < |hs| && hs[b].Started? && hs[b].w == w
    requires forall k | b < k < |hs| :: !(hs[k].Started? && hs[k].w == w)
    ensures TurnOrder(hs, w) == NextOrder(hs[..b])
  {
    if b + 1 < |hs| {
      TurnOrderIs(hs[..|hs| - 1], w, b);
      assert hs[..|hs| - 1][..b] == hs[..b];
    }
  }

  /** A turn carries the update that was accepted last before it began, if no turn began and none was stopped since. */
  lemma CarriesAccepted(hs: History, w: nat, j: nat, b: nat)
    requires j < b < |hs| && hs[j].Accepted? && hs[b].Started? && hs[b].w == w
    requires forall k | j < k < b :: !Decides(hs[k])
    requires forall k | b < k < |hs| :: !(hs[k].Started? && hs[k].w == w)
    ensures TurnOrder(hs, w) == Order(hs[j].u.updateType, hs[j].u.config)
  {
    TurnOrderIs(hs, w, b);
    NextOrderIs(hs[..b], j);
    assert hs[..b][..j + 1] == hs[..j + 1];
    assert hs[..j + 1][|hs[..j + 1]| - 1] == hs[j];
  }

  /** With no update accepted since turn a began, turn b is a sync with the configuration of turn a. */
  lemma CarriesOn(hs: History, v: nat, w: nat, a: nat, b: nat)
    requires a < b < |hs| && hs[a].Started? && hs[a].w == v && hs[b].Started? && hs[b].w == w
    requires forall k | a < k < b :: !Decides(hs[k])
    requires forall k | b < k < |hs| :: !(hs[k].Started? && hs[k].w == w)
    ensures TurnOrder(hs, w) == Order(TypeSync, TurnOrder(hs[..a + 1], v).config)
  {
    TurnOrderIs(hs, w, b);
    NextOrderIs(hs[..b], a);
    assert hs[..b][..a + 1] == hs[..a + 1];
    assert hs[..a + 1][..a] == hs[..a] && hs[..a + 1][|hs[..a + 1]| - 1] == hs[a];
  }

  /** After worker v has stopped the process, whatever was accepted before, the next turn has v's configuration. */
  lemma CarriesStopped(hs: History, v: nat, w: nat, a: nat, b: nat)
    requires a < b < |hs| && StopOk(hs[a]) && hs[a].w == v && hs[b].Started? && hs[b].w == w
    requires forall k | a < k < b :: !Decides(hs[k])
    requires forall k | b < k < |hs| :: !(hs[k].Started? && hs[k].w == w)
    ensures TurnOrder(hs, w) == Order(TypeSync, TurnOrder(hs[..a], v).config)
  {
    TurnOrderIs(hs, w, b);
    NextOrderIs(hs[..b], a);
    assert hs[..b][..a + 1] == hs[..a + 1];
    assert hs[..a + 1][..a] == hs[..a] && hs[..a + 1][|hs[..a + 1]| - 1] == hs[a];
  }

  // ----- In the protocol -----

  /** A record that does not exist yet is as new. */
  function StatusAt(s: Sys, r: nat): Status {
    if r in s.recs then s.recs[r] else NewStatus
  }

  datatype Turn = Turn(rec: nat, update: ProcessUpdate)

  /** The turn that a worker is in, up to the return of its hook. */
  function TurnAt(s: Sys, w: nat): Option<Turn> {
    if w !in s.workers then None
    else match s.workers[w].pc
      case Chosen(r, u, _) => Some(Turn(r, u))
      case Calling(r, u, _) => Some(Turn(r, u))
      case InCall(r, u, _, _) => Some(Turn(r, u))
      case _ => None
  }

  /** The manager takes an update of record r. */
  predicate AcceptsOn(s: Sys, id: ProcessID, r: nat) {
    if id in s.statuses then Live(s, id) && s.statuses[id] == r else r == s.next
  }

  /** What an event does to record r, if anything. */
  function HappensTo(s: Sys, e: Event, r: nat): Option<Happening> {
    match e
    case UpdateProcess(u) => if AcceptsOn(s, u.id, r) then Some(Accepted(u, s.now)) else None
    case TerminateOrphan(id) => if id in s.statuses && s.statuses[id] == r then Some(Abandoned(s.now)) else None
    case Begin(w) => if StartsOn(s, w, r) then Some(Started(w, s.now)) else None
    case EndCall(w, out) =>
      if w in s.workers && s.workers[w].pc.InCall? && s.workers[w].pc.rec == r
      then Some(Returned(w, s.workers[w].pc.kind, out, s.now)) else None
    case Complete(w, _) =>
      if w in s.workers && s.workers[w].pc.Ended? && s.workers[w].id in s.statuses && s.statuses[s.workers[w].id] == r
      then Some(Completed(s.workers[w].pc.err, s.now)) else None
    case _ => None
  }

  function Extended(hs: History, h: Option<Happening>): History {
    if h.Some? then hs + [h.value] else hs
  }

  ghost predicate TurnsFit(s: Sys, r: nat, hs: History) {
    forall w | TurnAt(s, w).Some? && TurnAt(s, w).value.rec == r ::
      OrderOf(TurnAt(s, w).value.update) == TurnOrder(hs, w)
  }

  /** Numbers not handed out yet name nothing. */
  ghost predicate Numbered(s: Sys) {
    && (forall r | r in s.recs :: r < s.next) && (forall w | w in s.workers :: w < s.next)
    && (forall id | id in s.statuses :: s.statuses[id] in s.recs)
    && (forall w | TurnAt(s, w).Some? :: TurnAt(s, w).value.rec in s.recs)
  }

  /** The history explains the record and the workers on it. */
  ghost predicate Explains(s: Sys, r: nat, hs: History) {
    Numbered(s) && Fits(hs, StatusAt(s, r)) && PendingFits(hs, StatusAt(s, r)) && TurnsFit(s, r, hs)
  }

  /** Records and turns are as before. */
  ghost predicate Unmoved(s: Sys, t: Sys) {
    t.recs == s.recs && (forall w :: TurnAt(t, w) == TurnAt(s, w))
  }

  lemma UnmovedExplains(s: Sys, t: Sys, r: nat, hs: History)
    requires Explains(s, r, hs) && Unmoved(s, t) && Numbered(t)
    ensures Explains(t, r, hs)
  {
  }

  lemma MoveUnmoved(s: Sys, w: nat, pc: PC, signals: set<nat>)
    requires Numbered(s) && w in s.workers && TurnAt(SetPC(s, w, pc), w) == TurnAt(s, w)
    ensures var t := SetPC(s, w, pc).(signals := signals); Unmoved(s, t) && Numbered(t)
  {
  }

  lemma ReceiveUnmoved(s: Sys, w: nat)
    requires Numbered(s) && w in s.workers && s.workers[w].pc.Waiting?
    ensures Unmoved(s, TakeSignal(s, w)) && Numbered(TakeSignal(s, w))
  {
    MoveUnmoved(s, w, Woken, s.signals - {w});
  }

  lemma PickUnmoved(c: Settings, s: Sys, w: nat, r: nat, hs: History)
    requires Explains(s, r, hs) && w in s.workers && s.workers[w].pc.Chosen? && s.workers[w].pc.rec in s.recs
    ensures Explains(PickHook(c, s, w), r, hs)
  {
    var t := PickHook(c, s, w);
    assert t.recs == s.recs;
    assert forall v | v != w :: TurnAt(t, v) == TurnAt(s, v);
    assert TurnAt(t, w) == TurnAt(s, w) || TurnAt(t, w) == None;
  }

  lemma CallUnmoved(s: Sys, w: nat)
    requires Numbered(s) && w in s.workers && s.workers[w].pc.Calling? && s.workers[w].pc.rec in s.recs
    ensures Unmoved(s, CallHook(s, w)) && Numbered(CallHook(s, w))
  {
    MoveUnmoved(s, w, CallHook(s, w).workers[w].pc, s.signals);
  }

  lemma LateUnmoved(s: Sys, w: nat)
    requires Numbered(s) && w in s.workers && s.workers[w].pc.LateSignal?
    ensures Unmoved(s, SendLateSignal(s, w)) && Numbered(SendLateSignal(s, w))
  {
    var to := s.workers[w].pc.ch;
    MoveUnmoved(s, w, Waiting, if to.Some? then s.signals + {to.value} else s.signals);
  }

  lemma OtherUnmoved(c: Settings, s: Sys, e: Event)
    requires Numbered(s) && Enabled(c, s, e) && (e.Dequeue? || e.ConsumerSend? || e.RemoveFinished? || e.Tick?)
    ensures Unmoved(s, Step(c, s, e)) && Numbered(Step(c, s, e))
  {
    var t := Step(c, s, e);
    assert t.recs == s.recs && t.workers == s.workers && t.next == s.next;
    assert forall id | id in t.statuses :: id in s.statuses && t.statuses[id] == s.statuses[id];
  }

  // ----- One record is replaced -----

  /** Only record q differs, and turns are as before. */
  ghost predicate Replaced(s: Sys, t: Sys, q: nat, st: Status) {
    t.recs == s.recs[q := st] && (forall w :: TurnAt(t, w) == TurnAt(s, w)) && Numbered(t)
  }

  lemma ReplacedExplains(s: Sys, t: Sys, q: nat, st: Status, r: nat, hs: History, ks: History)
    requires Explains(s, r, hs) && Replaced(s, t, q, st)
    requires if r == q then Fits(ks, st) && PendingFits(ks, st) && TurnsFit(s, r, ks) else ks == hs
    ensures Explains(t, r, ks)
  {
  }

  lemma TouchReplaces(s: Sys, q: nat, st: Status, cancel: bool, g: seq<GraceRequest>)
    requires Numbered(s) && q in s.recs
    ensures Replaced(s, Touch(s, q, st, cancel, g), q, st)
  {
  }

  lemma OrphanExplains(s: Sys, id: ProcessID, r: nat, hs: History)
    requires Explains(s, r, hs) && Live(s, id)
    ensures Explains(Orphaned(s, id), r, Extended(hs, HappensTo(s, TerminateOrphan(id), r)))
  {
    var q := s.statuses[id];
    var st := RequestTermination(s.recs[q], None, s.now);
    TouchReplaces(s, q, st, CancelsContext(s.recs[q]), [Default]);
    if r == q {
      AbandonFits(hs, s.recs[q], s.now);
      AbandonPending(hs, s.recs[q], s.now);
      Snoc(hs, Abandoned(s.now));
    }
    ReplacedExplains(s, Orphaned(s, id), q, st, r, hs, Extended(hs, HappensTo(s, TerminateOrphan(id), r)));
  }

  lemma FillExplains(s: Sys, id: ProcessID, r: nat, hs: History)
    requires Explains(s, r, hs) && id in s.statuses && s.statuses[id] in s.recs
    ensures Explains(Filled(s, id), r, hs)
  {
    var q := s.statuses[id];
    var st := EnsurePending(s.recs[q], id, s.now);
    TouchReplaces(s, q, st, false, []);
    if r == q {
      FillFits(hs, s.recs[q], id, s.now);
      FillPending(hs, s.recs[q], id, s.now);
    }
    ReplacedExplains(s, Filled(s, id), q, st, r, hs, hs);
  }

  lemma ConsumerExplains(s: Sys, r: nat, hs: History)
    requires Explains(s, r, hs) && s.consumer.Holding?
    ensures Explains(ConsumerLockStep(s), r, hs)
  {
    var id := s.consumer.id;
    if id in s.statuses && s.statuses[id] in s.recs && id in s.updates {
      FillExplains(s, id, r, hs);
      MoveConsumer(Filled(s, id), Signalling(s.updates[id]), r, hs);
    } else {
      MoveConsumer(s, Idle, r, hs);
    }
  }

  lemma MoveConsumer(s: Sys, to: Consumer, r: nat, hs: History)
    requires Explains(s, r, hs)
    ensures Explains(s.(consumer := to), r, hs)
  {
    UnmovedExplains(s, s.(consumer := to), r, hs);
  }

  // ----- Updates, turns and returns -----

  lemma NewRecordExplains(s: Sys, id: ProcessID, r: nat, hs: History)
    requires Explains(s, r, hs)
    ensures Explains(WithRecord(s, id), r, hs)
  {
    NewRecordNumbered(s, id);
    var t := WithRecord(s, id);
    assert StatusAt(t, r) == StatusAt(s, r);
  }

  lemma NewRecordNumbered(s: Sys, id: ProcessID)
    requires Numbered(s)
    ensures Numbered(WithRecord(s, id)) && forall w :: TurnAt(WithRecord(s, id), w) == TurnAt(s, w)
  {
    var t := WithRecord(s, id);
    assert t.workers == s.workers;
    forall w ensures TurnAt(t, w) == TurnAt(s, w) { }
    forall w | TurnAt(t, w).Some? ensures TurnAt(t, w).value.rec in t.recs {
      assert TurnAt(s, w).value.rec in s.recs;
    }
  }

  lemma WakeUnmoved(s: Sys, id: ProcessID)
    requires Numbered(s)
    ensures Unmoved(s, WakeWorker(s, id)) && Numbered(WakeWorker(s, id))
  {
    NewWorkerUnmoved(s, id);
    var s1 := WithWorker(s, id);
    SignalUnmoved(s1, s1.updates[id]);
  }

  lemma NewWorkerUnmoved(s: Sys, id: ProcessID)
    requires Numbered(s)
    ensures Unmoved(s, WithWorker(s, id)) && Numbered(WithWorker(s, id))
  {
  }

  lemma SignalUnmoved(s: Sys, ch: nat)
    requires Numbered(s)
    ensures Unmoved(s, Signal(s, ch)) && Numbered(Signal(s, ch))
  {
    var t := Signal(s, ch);
    assert t.recs == s.recs && t.workers == s.workers && t.statuses == s.statuses && t.next == s.next;
  }

  lemma AcceptExplains(s: Sys, u: ProcessUpdate, r: nat, hs: History)
    requires Explains(s, r, hs) && Live(s, u.id)
    ensures Explains(Accept(s, u), r, if r == s.statuses[u.id] then hs + [Accepted(u, s.now)] else hs)
  {
    var q := s.statuses[u.id];
    var st := AcceptUpdate(s.recs[q], u, s.now);
    var terminate := u.updateType == TypeTerminate;
    TouchReplaces(s, q, st, terminate && CancelsContext(s.recs[q]),
      if terminate then [GraceOf(u.terminateOptions)] else []);
    if r == q {
      AcceptFits(hs, s.recs[q], u, s.now);
      AcceptPending(hs, s.recs[q], u, s.now);
      Snoc(hs, Accepted(u, s.now));
    }
    ReplacedExplains(s, Accept(s, u), q, st, r, hs, if r == q then hs + [Accepted(u, s.now)] else hs);
  }

  lemma SubmitExplains(s: Sys, u: ProcessUpdate, r: nat, hs: History)
    requires Explains(s, r, hs)
    ensures Explains(Submit(s, u), r, Extended(hs, HappensTo(s, UpdateProcess(u), r)))
  {
    var s1 := WithRecord(s, u.id);
    NewRecordExplains(s, u.id, r, hs);
    if Live(s1, u.id) {
      DeliverExplains(s1, u, r, hs);
      assert AcceptsOn(s, u.id, r) <==> r == s1.statuses[u.id];
    }
  }

  lemma DeliverExplains(s: Sys, u: ProcessUpdate, r: nat, hs: History)
    requires Explains(s, r, hs) && Live(s, u.id)
    ensures Explains(Deliver(s, u), r, if r == s.statuses[u.id] then hs + [Accepted(u, s.now)] else hs)
  {
    AcceptExplains(s, u, r, hs);
    WakeUnmoved(Accept(s, u), u.id);
    UnmovedExplains(Accept(s, u), Deliver(s, u), r, if r == s.statuses[u.id] then hs + [Accepted(u, s.now)] else hs);
  }

  lemma BeginIs(s: Sys, w: nat)
    requires Numbered(s) && w in s.workers && s.workers[w].pc.Woken? && StartsTurn(s, s.workers[w].id)
    ensures var t, q := BeginWork(s, w), s.statuses[s.workers[w].id];
      && t.recs == s.recs[q := BeginTurn(s.recs[q], s.cancelled, s.next)]
      && TurnAt(t, w) == Some(Turn(q, s.recs[q].pending.value))
      && (forall v | v != w :: TurnAt(t, v) == TurnAt(s, v))
      && Numbered(t)
  {
  }

  lemma BeginExplains(s: Sys, w: nat, r: nat, hs: History)
    requires Explains(s, r, hs) && w in s.workers && s.workers[w].pc.Woken? && StartsTurn(s, s.workers[w].id)
    ensures Explains(BeginWork(s, w), r, Extended(hs, HappensTo(s, Begin(w), r)))
  {
    var q := s.statuses[s.workers[w].id];
    BeginIs(s, w);
    if r == q {
      StartFits(hs, s.recs[q], w, s.cancelled, s.next, s.now);
      StartPending(hs, s.recs[q], w, s.cancelled, s.next, s.now);
      Snoc(hs, Started(w, s.now));
      assert TurnOrder(hs + [Started(w, s.now)], w) == NextOrder(hs);
    }
  }

  lemma IdleExplains(s: Sys, w: nat, r: nat, hs: History)
    requires Explains(s, r, hs) && w in s.workers && s.workers[w].pc.Woken? && !StartsTurn(s, s.workers[w].id)
    ensures Explains(BeginWork(s, w), r, hs)
  {
    var pc := AfterLook(s, s.workers[w].id);
    MoveUnmoved(s, w, pc, s.signals);
    assert BeginWork(s, w) == SetPC(s, w, pc);
    UnmovedExplains(s, BeginWork(s, w), r, hs);
  }

  lemma ReturnIs(s: Sys, w: nat, out: Outcome)
    requires Numbered(s) && w in s.workers && s.workers[w].pc.InCall? && s.workers[w].pc.rec in s.recs
    ensures var t, InCall(q, u, kind, _) := ReturnFromHook(s, w, out), s.workers[w].pc;
      && t.recs == s.recs[q := AfterCall(s.recs[q], s.workers[w].id, u, kind, out, s.now)]
      && TurnAt(t, w) == None && (forall v | v != w :: TurnAt(t, v) == TurnAt(s, v))
      && Numbered(t)
  {
  }

  lemma ReturnExplains(s: Sys, w: nat, out: Outcome, r: nat, hs: History)
    requires Explains(s, r, hs) && w in s.workers && s.workers[w].pc.InCall? && s.workers[w].pc.rec in s.recs
    ensures Explains(ReturnFromHook(s, w, out), r, Extended(hs, HappensTo(s, EndCall(w, out), r)))
  {
    var InCall(q, u, kind, _) := s.workers[w].pc;
    ReturnIs(s, w, out);
    if r == q {
      assert TurnAt(s, w) == Some(Turn(q, u));
      ReturnFits(hs, s.recs[q], w, s.workers[w].id, u, kind, out, s.now);
      ReturnPending(hs, s.recs[q], w, s.workers[w].id, u, kind, out, s.now);
      Snoc(hs, Returned(w, kind, out, s.now));
    }
  }

  lemma CompleteExplains(s: Sys, w: nat, delay: int, draw: real, r: nat, hs: History)
    requires Explains(s, r, hs) && w in s.workers && s.workers[w].pc.Ended?
    ensures Explains(CompleteWork(s, w, delay), r, Extended(hs, HappensTo(s, Complete(w, draw), r)))
  {
    var id, err, t := s.workers[w].id, s.workers[w].pc.err, CompleteWork(s, w, delay);
    assert forall v :: TurnAt(t, v) == TurnAt(s, v);
    if id in s.statuses {
      var q := s.statuses[id];
      assert Replaced(s, t, q, FinishTurn(s.recs[q], err));
      if r == q {
        CompleteFits(hs, s.recs[q], err, s.now);
        CompletePending(hs, s.recs[q], err, s.now);
        Snoc(hs, Completed(err, s.now));
      }
      ReplacedExplains(s, t, q, FinishTurn(s.recs[q], err), r, hs, Extended(hs, HappensTo(s, Complete(w, draw), r)));
    } else {
      UnmovedExplains(s, t, r, hs);
    }
  }

  /** Every step keeps every record explained. */
  lemma StepExplains(c: Settings, s: Sys, e: Event, r: nat, hs: History)
    requires Explains(s, r, hs) && Enabled(c, s, e)
    ensures Explains(Step(c, s, e), r, Extended(hs, HappensTo(s, e, r)))
  {
    match e
    case UpdateProcess(u) => SubmitExplains(s, u, r, hs);
    case Begin(w) =>
      if StartsTurn(s, s.workers[w].id) { BeginExplains(s, w, r, hs); } else { IdleExplains(s, w, r, hs); }
    case Recheck(w) => PickUnmoved(c, s, w, r, hs);
    case EndCall(w, out) => ReturnExplains(s, w, out, r, hs);
    case Complete(w, draw) => CompleteExplains(s, w, DelayOf(c, s, w, draw), draw, r, hs);
    case TerminateOrphan(id) => OrphanExplains(s, id, r, hs);
    case ConsumerLock => ConsumerExplains(s, r, hs);
    case _ => QuietExplains(c, s, e, r, hs);
  }

  lemma QuietExplains(c: Settings, s: Sys, e: Event, r: nat, hs: History)
    requires Explains(s, r, hs) && Enabled(c, s, e)
    requires e.Receive? || e.StartCall? || e.SendLate? || e.Dequeue? || e.ConsumerSend? || e.RemoveFinished? || e.Tick?
    ensures Explains(Step(c, s, e), r, hs)
  {
    match e {
      case Receive(w) => ReceiveUnmoved(s, w);
      case StartCall(w) => CallUnmoved(s, w);
      case SendLate(w) => LateUnmoved(s, w);
      case _ => OtherUnmoved(c, s, e);
    }
    UnmovedExplains(s, Step(c, s, e), r, hs);
  }

  // ----- Whole runs -----

  /** What happens to record r in a run. */
  ghost function HistoryOf(c: Settings, s: Sys, es: seq<Event>, r: nat): History
    requires IsRun(c, s, es)
    decreases |es|
  {
    if es == [] then []
    else Extended([], HappensTo(s, es[0], r)) + HistoryOf(c, Step(c, s, es[0]), es[1..], r)
  }

  lemma ExtendedThen(hs: History, h: Option<Happening>, rest: History)
    ensures Extended(hs, h) + rest == hs + (Extended([], h) + rest)
  {
  }

  lemma {:induction false} RunExplains(c: Settings, s: Sys, es: seq<Event>, r: nat, hs: History)
    requires Explains(s, r, hs) && IsRun(c, s, es)
    ensures Explains(Exec(c, s, es), r, hs + HistoryOf(c, s, es, r))
    decreases |es|
  {
    if es == [] {
      assert hs + [] == hs;
    } else {
      var t, h := Step(c, s, es[0]), HappensTo(s, es[0], r);
      StepExplains(c, s, es[0], r, hs);
      RunExplains(c, t, es[1..], r, Extended(hs, h));
      ExtendedThen(hs, h, HistoryOf(c, t, es[1..], r));
    }
  }

  lemma RunIsExplained(c: Settings, start: Time, es: seq<Event>, r: nat)
    requires IsRun(c, Init(start), es)
    ensures Explains(Exec(c, Init(start), es), r, HistoryOf(c, Init(start), es, r))
  {
    NewFits();
    assert Explains(Init(start), r, []);
    RunExplains(c, Init(start), es, r, []);
    assert [] + HistoryOf(c, Init(start), es, r) == HistoryOf(c, Init(start), es, r);
  }

  /**
  After every run of a fresh manager, removals unrestricted: the timestamps of a record are those of the calls and
  requests they are named after, its error is that of the last call, and its counters count the failures since the last
  success.
  */
  lemma {:induction false} FieldsAreHistory(c: Settings, start: Time, es: seq<Event>, r: nat)
    requires IsRun(c, Init(start), es) && r in Exec(c, Init(start), es).recs
    ensures Fits(HistoryOf(c, Init(start), es, r), Exec(c, Init(start), es).recs[r])
  {
    RunIsExplained(c, start, es, r);
  }

  /** ... and a worker on its way to a hook, or in it, carries the configuration and the type that the history says. */
  lemma {:induction false} CallsCarry(c: Settings, start: Time, es: seq<Event>, w: nat)
    requires IsRun(c, Init(start), es) && TurnAt(Exec(c, Init(start), es), w).Some?
    ensures var Turn(r, u) := TurnAt(Exec(c, Init(start), es), w).value;
      Order(u.updateType, u.config) == TurnOrder(HistoryOf(c, Init(start), es, r), w)
  {
    RunIsExplained(c, start, es, TurnAt(Exec(c, Init(start), es), w).value.rec);
  }

  /**
  A process is reported healthy exactly if a SyncProcess has succeeded, nothing has asked it to stop, and fewer than
  five calls have failed since the last success.
  */
  lemma {:induction false} HealthyExactly(c: Settings, start: Time, es: seq<Event>, r: nat)
    requires IsRun(c, Init(start), es) && r in Exec(c, Init(start), es).recs
    ensures var hs := HistoryOf(c, Init(start), es, r);
      Exec(c, Init(start), es).recs[r].Healthy() <==>
        && LastTime(hs, SyncOk).Some? && FailedCalls(hs) < 5
        && LastTime(hs, Terminal).None? && FirstTime(hs, Requests).None?
        && LastTime(hs, StopOk).None? && LastTime(hs, CleanOk).None?
  {
    FieldsAreHistory(c, start, es, r);
  }

  /** The state that a history leaves a process in. */
  function StateAfter(hs: History): ProcessState {
    if LastTime(hs, CleanOk).Some? then Finished
    else if LastTime(hs, StopOk).Some? then Terminated
    else if LastTime(hs, Terminal).Some? || FirstTime(hs, Requests).Some? then Terminating
    else if LastTime(hs, SyncOk).Some? then Syncing
    else Starting
  }

  /** What SyncKnownProcesses reports about a process, in terms of its history. */
  lemma {:induction false} ReportIsHistory(c: Settings, start: Time, es: seq<Event>, r: nat)
    requires IsRun(c, Init(start), es) && r in Exec(c, Init(start), es).recs
    ensures var hs := HistoryOf(c, Init(start), es, r);
      KnownProcesses.ReportOn(Exec(c, Init(start), es).recs[r]) ==
      KnownProcesses.Report(StateAfter(hs), StateAfter(hs) == Syncing && FailedCalls(hs) < 5, LastTime(hs, SyncOk),
                            FailedCalls(hs), LastError(hs), 0)
  {
    FieldsAreHistory(c, start, es, r);
  }
}
