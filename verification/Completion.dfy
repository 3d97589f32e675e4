/**
Completion channels: which of the channels that callers hand in with a termination request are closed. A channel
travels with its update: it waits in the record, goes to the worker that begins a turn, and is closed if that turn's
SyncTerminatingProcess succeeds. An update that is replaced while it waits, or whose turn fails, takes its channel
along.
*/
module Completion {
  import opened Wrappers
  import opened ProcTypes
  import opened Backoff
  import opened ManagerProtocol
  import opened Reachability
  import ManagerLiveness
  import ManagerSafety
  import RecordLife

  predicate Carries(u: Option<ProcessUpdate>, ch: nat) {
    u.Some? && CompletionChannel(u.value) == Some(ch)
  }

  function PendingOf(s: Sys, r: nat): Option<ProcessUpdate> {
    if r in s.recs then s.recs[r].pending else None
  }

  /** The update a worker has picked up and not yet finished with. */
  function UpdateOf(s: Sys, w: nat): Option<ProcessUpdate> {
    if w !in s.workers then None
    else match s.workers[w].pc
      case Chosen(_, u, _) => Some(u)
      case Calling(_, u, _) => Some(u)
      case InCall(_, u, _, _) => Some(u)
      case _ => None
  }

  ghost predicate IsClosed(s: Sys, ch: nat) {
    exists r :: ch in At0(s.closed, r)
  }

  // ----- What happens to a channel -----

  /** Where a channel is. */
  datatype Fate = Awaits(rec: nat) | With(worker: nat) | Done | Dropped

  ghost predicate Tracks(s: Sys, f: Fate, ch: nat) {
    && (forall r :: Carries(PendingOf(s, r), ch) <==> f == Awaits(r))
    && (forall w :: Carries(UpdateOf(s, w), ch) <==> f == With(w))
    && (IsClosed(s, ch) <==> f == Done)
    && Bounded(s)
  }

  /** Numbers not handed out yet name nothing. */
  ghost predicate Bounded(s: Sys) {
    && (forall r | r in s.recs :: r < s.next) && (forall w | w in s.workers :: w < s.next)
    && (forall r | r in s.closed :: r < s.next)
  }

  /** Worker w, if it begins now, begins a turn on record r. */
  predicate StartsOn(s: Sys, w: nat, r: nat) {
    w in s.workers && StartsTurn(s, s.workers[w].id) && s.statuses[s.workers[w].id] == r
  }

  /** The event takes away what is pending on record r: an update to replace it, the end of a turn, or a new turn. */
  predicate Disturbs(s: Sys, e: Event, r: nat) {
    match e
    case UpdateProcess(u) => Live(s, u.id) && s.statuses[u.id] == r
    case Begin(w) => StartsOn(s, w, r)
    case EndCall(w, out) => StopsProcess(s, w, out) && s.workers[w].pc.rec == r
    case _ => false
  }

  /** A SyncTerminatingProcess call of worker w returns successfully. */
  predicate StopsProcess(s: Sys, w: nat, out: Outcome) {
    w in s.workers && s.workers[w].pc.InCall? && s.workers[w].pc.kind.TerminatingCall? && out.err.None?
  }

  /** Worker w is through with its update: its call returns, or there is no hook to call. */
  predicate LeavesHook(c: Settings, s: Sys, e: Event, w: nat) {
    match e
    case Recheck(v) =>
      && v == w && w in s.workers && s.workers[w].pc.Chosen? && s.workers[w].pc.rec in s.recs
      && HookFor(c, s.recs[s.workers[w].pc.rec], s.workers[w].pc).Ended?
    case EndCall(v, _) => v == w
    case _ => false
  }

  function FateStep(c: Settings, s: Sys, f: Fate, e: Event): Fate {
    match f
    case Awaits(r) => if !Disturbs(s, e, r) then f else if e.Begin? then With(e.w) else Dropped
    case With(w) =>
      if !LeavesHook(c, s, e, w) then f else if e.EndCall? && StopsProcess(s, w, e.out) then Done else Dropped
    case _ => f
  }

  /** The event does not hand in the channel. */
  predicate Without(e: Event, ch: nat) {
    e.UpdateProcess? ==> !Carries(Some(e.u), ch)
  }

  // ----- One step -----

  /** The step leaves every channel where it is. */
  ghost predicate Alike(s: Sys, t: Sys, ch: nat) {
    && (forall r :: Carries(PendingOf(t, r), ch) == Carries(PendingOf(s, r), ch))
    && (forall w :: UpdateOf(t, w) == UpdateOf(s, w))
    && (forall r :: At0(t.closed, r) == At0(s.closed, r))
    && Bounded(t)
  }

  lemma AlikeTracks(s: Sys, t: Sys, f: Fate, ch: nat)
    requires Tracks(s, f, ch) && Alike(s, t, ch)
    ensures Tracks(t, f, ch)
  {
    assert IsClosed(t, ch) == IsClosed(s, ch);
  }

  lemma AlikeOn(s: Sys, t: Sys, u: Sys, ch: nat)
    requires Alike(s, t, ch) && Alike(t, u, ch)
    ensures Alike(s, u, ch)
  {
  }

  lemma TouchAlike(s: Sys, r: nat, st: Status, cancel: bool, g: seq<GraceRequest>, ch: nat)
    requires Bounded(s) && r in s.recs && Carries(st.pending, ch) == Carries(s.recs[r].pending, ch)
    ensures Alike(s, Touch(s, r, st, cancel, g), ch)
  {
  }

  lemma FilledAlike(s: Sys, id: ProcessID, ch: nat)
    requires Bounded(s) && id in s.statuses && s.statuses[id] in s.recs
    ensures Alike(s, Filled(s, id), ch)
  {
    var r := s.statuses[id];
    TouchAlike(s, r, EnsurePending(s.recs[r], id, s.now), false, [], ch);
  }

  lemma ConsumerAlike(s: Sys, to: Consumer, ch: nat)
    requires Bounded(s)
    ensures Alike(s, s.(consumer := to), ch)
  {
  }

  lemma ConsumerLockAlike(s: Sys, ch: nat)
    requires Bounded(s) && s.consumer.Holding?
    ensures Alike(s, ConsumerLockStep(s), ch)
  {
    var id := s.consumer.id;
    if id in s.statuses && s.statuses[id] in s.recs && id in s.updates {
      FilledAlike(s, id, ch);
      ConsumerAlike(Filled(s, id), Signalling(s.updates[id]), ch);
      AlikeOn(s, Filled(s, id), ConsumerLockStep(s), ch);
    } else {
      ConsumerAlike(s, Idle, ch);
    }
  }

  lemma CompleteAlike(s: Sys, w: nat, delay: int, ch: nat)
    requires Bounded(s) && w in s.workers && s.workers[w].pc.Ended?
    ensures Alike(s, CompleteWork(s, w, delay), ch)
  {
  }

  lemma MoveAlike(s: Sys, w: nat, pc: PC, signals: set<nat>, ch: nat)
    requires Bounded(s) && w in s.workers && UpdateOf(SetPC(s, w, pc), w) == UpdateOf(s, w)
    ensures Alike(s, SetPC(s, w, pc).(signals := signals), ch)
  {
  }

  lemma ReceiveAlike(s: Sys, w: nat, ch: nat)
    requires Bounded(s) && w in s.workers && s.workers[w].pc.Waiting?
    ensures Alike(s, TakeSignal(s, w), ch)
  {
    MoveAlike(s, w, Woken, s.signals - {w}, ch);
  }

  lemma CallAlike(s: Sys, w: nat, ch: nat)
    requires Bounded(s) && w in s.workers && s.workers[w].pc.Calling? && s.workers[w].pc.rec in s.recs
    ensures Alike(s, CallHook(s, w), ch)
  {
    MoveAlike(s, w, CallHook(s, w).workers[w].pc, s.signals, ch);
  }

  lemma LateAlike(s: Sys, w: nat, ch: nat)
    requires Bounded(s) && w in s.workers && s.workers[w].pc.LateSignal?
    ensures Alike(s, SendLateSignal(s, w), ch)
  {
    var to := s.workers[w].pc.ch;
    MoveAlike(s, w, Waiting, if to.Some? then s.signals + {to.value} else s.signals, ch);
  }

  lemma OtherAlike(c: Settings, s: Sys, e: Event, ch: nat)
    requires Bounded(s) && Enabled(c, s, e) && (e.Dequeue? || e.ConsumerSend? || e.RemoveFinished? || e.Tick?)
    ensures Alike(s, Step(c, s, e), ch)
  {
    var t := Step(c, s, e);
    assert t.recs == s.recs && t.workers == s.workers && t.closed == s.closed && t.next == s.next;
  }

  lemma OrphanAlike(s: Sys, id: ProcessID, ch: nat)
    requires Bounded(s) && Live(s, id)
    ensures Alike(s, Orphaned(s, id), ch)
  {
    var r := s.statuses[id];
    TouchAlike(s, r, RequestTermination(s.recs[r], None, s.now), CancelsContext(s.recs[r]), [Default], ch);
  }

  /** Steps that do not touch a channel. */
  lemma QuietAlike(c: Settings, s: Sys, e: Event, ch: nat)
    requires Bounded(s) && Enabled(c, s, e) && !e.UpdateProcess? && !e.Begin? && !e.Recheck? && !e.EndCall?
    ensures Alike(s, Step(c, s, e), ch)
  {
    match e
    case Complete(w, draw) => CompleteAlike(s, w, DelayOf(c, s, w, draw), ch);
    case ConsumerLock => ConsumerLockAlike(s, ch);
    case TerminateOrphan(id) => OrphanAlike(s, id, ch);
    case Receive(w) => ReceiveAlike(s, w, ch);
    case StartCall(w) => CallAlike(s, w, ch);
    case SendLate(w) => LateAlike(s, w, ch);
    case _ => OtherAlike(c, s, e, ch);
  }

  // ----- The steps that move a channel -----

  lemma NewRecordAlike(s: Sys, id: ProcessID, ch: nat)
    requires Bounded(s)
    ensures Alike(s, WithRecord(s, id), ch)
  {
  }

  lemma WakeAlike(s: Sys, id: ProcessID, ch: nat)
    requires Bounded(s)
    ensures Alike(s, WakeWorker(s, id), ch)
  {
    NewWorkerAlike(s, id, ch);
    var s1 := WithWorker(s, id);
    assert WakeWorker(s, id).recs == s1.recs && WakeWorker(s, id).workers == s1.workers;
  }

  lemma NewWorkerAlike(s: Sys, id: ProcessID, ch: nat)
    requires Bounded(s)
    ensures Alike(s, WithWorker(s, id), ch)
  {
  }

  lemma AcceptMoves(s: Sys, u: ProcessUpdate, f: Fate, ch: nat)
    requires Tracks(s, f, ch) && Live(s, u.id) && !Carries(Some(u), ch)
    ensures Tracks(Accept(s, u), if f == Awaits(s.statuses[u.id]) then Dropped else f, ch)
  {
    var t := Accept(s, u);
    assert forall r :: At0(t.closed, r) == At0(s.closed, r);
    assert IsClosed(t, ch) == IsClosed(s, ch);
  }

  lemma SubmitMoves(c: Settings, s: Sys, u: ProcessUpdate, f: Fate, ch: nat)
    requires Tracks(s, f, ch) && !Carries(Some(u), ch)
    ensures Tracks(Submit(s, u), FateStep(c, s, f, UpdateProcess(u)), ch)
  {
    var s1 := WithRecord(s, u.id);
    NewRecordAlike(s, u.id, ch);
    AlikeTracks(s, s1, f, ch);
    if Live(s1, u.id) {
      var f1 := if f == Awaits(s1.statuses[u.id]) then Dropped else f;
      AcceptMoves(s1, u, f, ch);
      WakeAlike(Accept(s1, u), u.id, ch);
      AlikeTracks(Accept(s1, u), Submit(s, u), f1, ch);
    }
  }

  /** A worker that begins a turn takes the pending update. */
  lemma BeginTakes(s: Sys, w: nat)
    requires w in s.workers && s.workers[w].pc.Woken? && StartsTurn(s, s.workers[w].id)
    ensures var t, r := BeginWork(s, w), s.statuses[s.workers[w].id];
      && PendingOf(t, r) == None && UpdateOf(t, w) == PendingOf(s, r)
      && (forall q | q != r :: PendingOf(t, q) == PendingOf(s, q))
      && (forall v | v != w :: UpdateOf(t, v) == UpdateOf(s, v))
      && t.closed == s.closed && (Bounded(s) ==> Bounded(t))
  {
  }

  lemma BeginStays(s: Sys, w: nat, ch: nat)
    requires Bounded(s) && w in s.workers && s.workers[w].pc.Woken? && !StartsTurn(s, s.workers[w].id)
    ensures Alike(s, BeginWork(s, w), ch)
  {
    MoveAlike(s, w, AfterLook(s, s.workers[w].id), s.signals, ch);
    assert BeginWork(s, w) == SetPC(s, w, AfterLook(s, s.workers[w].id));
  }

  lemma BeginMoves(c: Settings, s: Sys, w: nat, f: Fate, ch: nat)
    requires Tracks(s, f, ch) && w in s.workers && s.workers[w].pc.Woken?
    ensures Tracks(BeginWork(s, w), FateStep(c, s, f, Begin(w)), ch)
  {
    var t := BeginWork(s, w);
    if StartsTurn(s, s.workers[w].id) {
      BeginTakes(s, w);
      var r := s.statuses[s.workers[w].id];
      assert StartsOn(s, w, r);
      assert Carries(PendingOf(s, r), ch) <==> f == Awaits(r);
      assert UpdateOf(s, w) == None;
      assert IsClosed(t, ch) == IsClosed(s, ch);
    } else {
      BeginStays(s, w, ch);
      AlikeTracks(s, t, f, ch);
    }
  }

  lemma PickMoves(c: Settings, s: Sys, w: nat, f: Fate, ch: nat)
    requires Tracks(s, f, ch) && w in s.workers && s.workers[w].pc.Chosen? && s.workers[w].pc.rec in s.recs
    ensures Tracks(PickHook(c, s, w), FateStep(c, s, f, Recheck(w)), ch)
  {
    var t := PickHook(c, s, w);
    assert IsClosed(t, ch) == IsClosed(s, ch);
  }

  lemma ReturnCloses(s: Sys, w: nat, out: Outcome, ch: nat)
    requires w in s.workers && s.workers[w].pc.InCall? && s.workers[w].pc.rec in s.recs
    ensures IsClosed(ReturnFromHook(s, w, out), ch) <==>
            IsClosed(s, ch) || (Carries(UpdateOf(s, w), ch) && StopsProcess(s, w, out))
  {
    var t := ReturnFromHook(s, w, out);
    var q := s.workers[w].pc.rec;
    assert forall r | r != q :: At0(t.closed, r) == At0(s.closed, r);
    assert At0(t.closed, q) == At0(s.closed, q) + ClosedBy(s.workers[w].pc.update, s.workers[w].pc.kind, out);
    if IsClosed(s, ch) {
      var r :| ch in At0(s.closed, r);
      assert ch in At0(t.closed, r);
    }
  }

  lemma ReturnMoves(c: Settings, s: Sys, w: nat, out: Outcome, f: Fate, ch: nat)
    requires Tracks(s, f, ch) && w in s.workers && s.workers[w].pc.InCall? && s.workers[w].pc.rec in s.recs
    ensures Tracks(ReturnFromHook(s, w, out), FateStep(c, s, f, EndCall(w, out)), ch)
  {
    ReturnCloses(s, w, out, ch);
    ReturnLeaves(s, w, out);
  }

  /** The worker is through with its update; a process that has stopped gets a synthetic one. */
  lemma ReturnLeaves(s: Sys, w: nat, out: Outcome)
    requires w in s.workers && s.workers[w].pc.InCall? && s.workers[w].pc.rec in s.recs
    ensures var t, r := ReturnFromHook(s, w, out), s.workers[w].pc.rec;
      && UpdateOf(t, w) == None && (forall v | v != w :: UpdateOf(t, v) == UpdateOf(s, v))
      && (forall q | q != r :: PendingOf(t, q) == PendingOf(s, q))
      && (if StopsProcess(s, w, out) then PendingOf(t, r).Some? && CompletionChannel(PendingOf(t, r).value) == None
          else PendingOf(t, r) == PendingOf(s, r))
      && (Bounded(s) ==> Bounded(t))
  {
  }

  lemma StepMoves(c: Settings, s: Sys, e: Event, f: Fate, ch: nat)
    requires Tracks(s, f, ch) && Enabled(c, s, e) && Without(e, ch)
    ensures Tracks(Step(c, s, e), FateStep(c, s, f, e), ch)
  {
    match e
    case UpdateProcess(u) => SubmitMoves(c, s, u, f, ch);
    case Begin(w) => BeginMoves(c, s, w, f, ch);
    case Recheck(w) => PickMoves(c, s, w, f, ch);
    case EndCall(w, out) => ReturnMoves(c, s, w, out, f, ch);
    case _ =>
      QuietAlike(c, s, e, ch);
      AlikeTracks(s, Step(c, s, e), f, ch);
  }

  // ----- Whole runs -----

  /** The state in which event i of a run happens. */
  ghost function At(c: Settings, s: Sys, es: seq<Event>, i: nat): Sys
    decreases i
  {
    if i == 0 || es == [] || !Enabled(c, s, es[0]) then s else At(c, Step(c, s, es[0]), es[1..], i - 1)
  }

  ghost function FateAfter(c: Settings, s: Sys, f: Fate, es: seq<Event>): Fate
    requires IsRun(c, s, es)
    decreases |es|
  {
    if es == [] then f else FateAfter(c, Step(c, s, es[0]), FateStep(c, s, f, es[0]), es[1..])
  }

  ghost predicate NotAgain(es: seq<Event>, ch: nat) {
    forall e | e in es :: Without(e, ch)
  }

  lemma {:induction false} RunMoves(c: Settings, s: Sys, f: Fate, es: seq<Event>, ch: nat)
    requires Tracks(s, f, ch) && IsRun(c, s, es) && NotAgain(es, ch)
    ensures Tracks(Exec(c, s, es), FateAfter(c, s, f, es), ch)
    decreases |es|
  {
    if es != [] {
      assert es[0] in es && NotAgain(es[1..], ch);
      StepMoves(c, s, es[0], f, ch);
      RunMoves(c, Step(c, s, es[0]), FateStep(c, s, f, es[0]), es[1..], ch);
    }
  }

  lemma {:induction false} SettledFate(c: Settings, s: Sys, f: Fate, es: seq<Event>)
    requires IsRun(c, s, es) && (f == Done || f == Dropped)
    ensures FateAfter(c, s, f, es) == f
    decreases |es|
  {
    if es != [] { SettledFate(c, Step(c, s, es[0]), f, es[1..]); }
  }

  /** Event n is the successful return of the call for which worker w has its update. */
  ghost predicate Succeeds(c: Settings, s: Sys, es: seq<Event>, w: nat, n: nat) {
    && n < |es| && es[n].EndCall? && es[n].w == w && StopsProcess(At(c, s, es, n), w, es[n].out)
    && forall j: nat | j < n :: !LeavesHook(c, At(c, s, es, j), es[j], w)
  }

  lemma SucceedsShift(c: Settings, s: Sys, es: seq<Event>, w: nat, n: nat)
    requires es != [] && Enabled(c, s, es[0]) && !LeavesHook(c, s, es[0], w)
    ensures Succeeds(c, s, es, w, n + 1) <==> Succeeds(c, Step(c, s, es[0]), es[1..], w, n)
  {
    var t := Step(c, s, es[0]);
    assert forall j: nat | j + 1 < |es| :: At(c, s, es, j + 1) == At(c, t, es[1..], j) && es[1..][j] == es[j + 1];
    if Succeeds(c, t, es[1..], w, n) {
      forall j: nat | j < n + 1 ensures !LeavesHook(c, At(c, s, es, j), es[j], w) {
        if j > 0 { assert !LeavesHook(c, At(c, t, es[1..], j - 1), es[1..][j - 1], w); }
      }
    }
    if Succeeds(c, s, es, w, n + 1) {
      forall j: nat | j < n ensures !LeavesHook(c, At(c, t, es[1..], j), es[1..][j], w) {
        assert !LeavesHook(c, At(c, s, es, j + 1), es[j + 1], w);
      }
    }
  }

  lemma {:induction false} DoneWith(c: Settings, s: Sys, es: seq<Event>, w: nat)
    requires IsRun(c, s, es)
    ensures FateAfter(c, s, With(w), es) == Done <==> exists n: nat :: Succeeds(c, s, es, w, n)
    decreases |es|
  {
    if es != [] {
      var t := Step(c, s, es[0]);
      if LeavesHook(c, s, es[0], w) {
        SettledFate(c, t, FateStep(c, s, With(w), es[0]), es[1..]);
        assert Succeeds(c, s, es, w, 0) <==> es[0].EndCall? && StopsProcess(s, w, es[0].out);
        assert forall n: nat | Succeeds(c, s, es, w, n) :: n == 0;
      } else {
        DoneWith(c, t, es[1..], w);
        if n: nat :| Succeeds(c, s, es, w, n) {
          assert n > 0;
          SucceedsShift(c, s, es, w, n - 1);
        }
        if n: nat :| Succeeds(c, t, es[1..], w, n) {
          SucceedsShift(c, s, es, w, n);
        }
      }
    }
  }

  /** Event b begins the turn that picks up what is pending on record r: nothing has taken it away before. */
  ghost predicate PickedUp(c: Settings, s: Sys, es: seq<Event>, r: nat, b: nat) {
    && b < |es| && es[b].Begin? && StartsOn(At(c, s, es, b), es[b].w, r)
    && forall j: nat | j < b :: !Disturbs(At(c, s, es, j), es[j], r)
  }

  lemma PickedShift(c: Settings, s: Sys, es: seq<Event>, r: nat, b: nat)
    requires es != [] && Enabled(c, s, es[0]) && !Disturbs(s, es[0], r)
    ensures PickedUp(c, s, es, r, b + 1) <==> PickedUp(c, Step(c, s, es[0]), es[1..], r, b)
  {
    var t := Step(c, s, es[0]);
    assert forall j: nat | j + 1 < |es| :: At(c, s, es, j + 1) == At(c, t, es[1..], j) && es[1..][j] == es[j + 1];
    if PickedUp(c, t, es[1..], r, b) {
      forall j: nat | j < b + 1 ensures !Disturbs(At(c, s, es, j), es[j], r) {
        if j > 0 { assert !Disturbs(At(c, t, es[1..], j - 1), es[1..][j - 1], r); }
      }
    }
    if PickedUp(c, s, es, r, b + 1) {
      forall j: nat | j < b ensures !Disturbs(At(c, t, es[1..], j), es[1..][j], r) {
        assert !Disturbs(At(c, s, es, j + 1), es[j + 1], r);
      }
    }
  }

  /** The turn that event b begins picks up what is pending on record r, and stops the process n events later. */
  ghost predicate Stops(c: Settings, s: Sys, es: seq<Event>, r: nat, b: nat, n: nat) {
    PickedUp(c, s, es, r, b) && Succeeds(c, At(c, s, es, b + 1), es[b + 1..], es[b].w, n)
  }

  lemma StopsShift(c: Settings, s: Sys, es: seq<Event>, r: nat, b: nat, n: nat)
    requires es != [] && Enabled(c, s, es[0]) && !Disturbs(s, es[0], r)
    ensures Stops(c, s, es, r, b + 1, n) <==> Stops(c, Step(c, s, es[0]), es[1..], r, b, n)
  {
    PickedShift(c, s, es, r, b);
    if b + 1 < |es| { assert es[b + 2..] == es[1..][b + 1..]; }
  }

  /** The first event takes away what is pending. */
  lemma DoneAtOnce(c: Settings, s: Sys, es: seq<Event>, r: nat)
    requires IsRun(c, s, es) && es != [] && Disturbs(s, es[0], r)
    ensures FateAfter(c, s, Awaits(r), es) == Done <==> exists b: nat, n: nat :: Stops(c, s, es, r, b, n)
  {
    var t := Step(c, s, es[0]);
    assert At(c, s, es, 0) == s;
    forall b: nat, n: nat | Stops(c, s, es, r, b, n) ensures b == 0 { }
    if es[0].Begin? {
      DoneWith(c, t, es[1..], es[0].w);
      assert PickedUp(c, s, es, r, 0) && At(c, s, es, 1) == t;
      forall n: nat ensures Stops(c, s, es, r, 0, n) <==> Succeeds(c, t, es[1..], es[0].w, n) { }
    } else {
      SettledFate(c, t, Dropped, es[1..]);
    }
  }

  lemma {:induction false} DoneAwaiting(c: Settings, s: Sys, es: seq<Event>, r: nat)
    requires IsRun(c, s, es)
    ensures FateAfter(c, s, Awaits(r), es) == Done <==> exists b: nat, n: nat :: Stops(c, s, es, r, b, n)
    decreases |es|
  {
    if es != [] {
      var t := Step(c, s, es[0]);
      if Disturbs(s, es[0], r) {
        DoneAtOnce(c, s, es, r);
      } else {
        DoneAwaiting(c, t, es[1..], r);
        if b: nat, n: nat :| Stops(c, s, es, r, b, n) {
          assert b > 0;
          StopsShift(c, s, es, r, b - 1, n);
        }
        if b: nat, n: nat :| Stops(c, t, es[1..], r, b, n) {
          StopsShift(c, s, es, r, b, n);
        }
      }
    }
  }

  // ----- Which channels are closed -----

  /** Nobody has handed the channel in. */
  ghost predicate Unseen(s: Sys, ch: nat) {
    Tracks(s, Dropped, ch)
  }

  /** The process is not finished, so that the manager takes the update. */
  predicate Accepts(s: Sys, id: ProcessID) {
    Live(WithRecord(s, id), id)
  }

  lemma AcceptHandsIn(s: Sys, u: ProcessUpdate, ch: nat)
    requires Tracks(s, Dropped, ch) && Live(s, u.id) && Carries(Some(u), ch)
    ensures Tracks(Accept(s, u), Awaits(s.statuses[u.id]), ch)
  {
    var t := Accept(s, u);
    assert forall r :: At0(t.closed, r) == At0(s.closed, r);
    assert IsClosed(t, ch) == IsClosed(s, ch);
    assert Carries(PendingOf(t, s.statuses[u.id]), ch);
  }

  lemma HandedIn(s: Sys, u: ProcessUpdate, ch: nat)
    requires Unseen(s, ch) && Carries(Some(u), ch)
    ensures u.id in Submit(s, u).statuses
    ensures Tracks(Submit(s, u), if Accepts(s, u.id) then Awaits(Submit(s, u).statuses[u.id]) else Dropped, ch)
  {
    var s1 := WithRecord(s, u.id);
    NewRecordAlike(s, u.id, ch);
    AlikeTracks(s, s1, Dropped, ch);
    if Live(s1, u.id) {
      AcceptHandsIn(s1, u, ch);
      WakeAlike(Accept(s1, u), u.id, ch);
      AlikeTracks(Accept(s1, u), Submit(s, u), Awaits(s1.statuses[u.id]), ch);
    }
  }

  /** A channel that is not handed in is not closed. */
  lemma {:induction false} UnseenStays(c: Settings, s: Sys, es: seq<Event>, ch: nat)
    requires Unseen(s, ch) && IsRun(c, s, es) && NotAgain(es, ch)
    ensures Unseen(Exec(c, s, es), ch)
  {
    RunMoves(c, s, Dropped, es, ch);
    SettledFate(c, s, Dropped, es);
  }

  lemma InitIsUnseen(start: Time, ch: nat)
    ensures Unseen(Init(start), ch)
  {
  }

  /**
  A channel that is handed in once has been closed, after any run whatever, exactly if the manager took the update, the
  turn that began next on its record began before anything replaced it, and the hook call of that very turn was a
  successful SyncTerminatingProcess.
  */
  lemma {:induction false} ClosedExactly(c: Settings, s: Sys, u: ProcessUpdate, es: seq<Event>, ch: nat)
    requires Unseen(s, ch) && Carries(Some(u), ch) && IsRun(c, Submit(s, u), es) && NotAgain(es, ch)
    ensures u.id in Submit(s, u).statuses
    ensures IsClosed(Exec(c, Submit(s, u), es), ch) <==>
            && Accepts(s, u.id)
            && exists b: nat, n: nat :: Stops(c, Submit(s, u), es, Submit(s, u).statuses[u.id], b, n)
  {
    var t := Submit(s, u);
    HandedIn(s, u, ch);
    if Accepts(s, u.id) {
      RunMoves(c, t, Awaits(t.statuses[u.id]), es, ch);
      DoneAwaiting(c, t, es, t.statuses[u.id]);
    } else {
      RunMoves(c, t, Dropped, es, ch);
      SettledFate(c, t, Dropped, es);
    }
  }

  // ----- Channels that are never closed -----

  function Request(id: ProcessID, ch: Option<nat>): ProcessUpdate {
    ProcessUpdate(id, TypeTerminate, Some(0), None, Some(TerminateOptions(ch, false, None)))
  }

  /** The manager finishes the process, left to itself, and does not close the channel. */
  ghost predicate FinishesWithout(c: Settings, s: Sys, id: ProcessID, ch: nat) {
    exists es, t :: OwnOnly(es) && Leads(c, s, es, t) && id in s.statuses && s.statuses[id] in t.recs
                    && t.recs[s.statuses[id]].IsFinished() && !IsClosed(t, ch)
  }

  lemma DroppedFinishes(c: Settings, s: Sys, id: ProcessID, ch: nat)
    requires Reachable(c, s) && c.hasSyncer && Live(s, id) && s.recs[s.statuses[id]].IsTerminating()
    requires Tracks(s, Dropped, ch)
    ensures FinishesWithout(c, s, id, ch)
  {
    var t := ManagerLiveness.TerminationCanFinish(c, s, id);
    var es :| OwnOnly(es) && Leads(c, s, es, t);
    assert NotAgain(es, ch);
    UnseenStays(c, s, es, ch);
  }

  /** A second request before a worker gets to the first: the process stops, and the first caller waits for ever. */
  lemma ReplacedIsNotClosed(c: Settings, start: Time, id: ProcessID, ch: nat)
    requires c.hasSyncer
    ensures FinishesWithout(c, Submit(Submit(Init(start), Request(id, Some(ch))), Request(id, None)), id, ch)
  {
    var s := Init(start);
    var s1 := Submit(s, Request(id, Some(ch)));
    var s2 := Submit(s1, Request(id, None));
    InitIsUnseen(start, ch);
    HandedIn(s, Request(id, Some(ch)), ch);
    SubmitMoves(c, s1, Request(id, None), Awaits(s1.statuses[id]), ch);
    InitIsReachable(c, start);
    ReachableStep(c, s, UpdateProcess(Request(id, Some(ch))));
    ReachableStep(c, s1, UpdateProcess(Request(id, None)));
    DroppedFinishes(c, s2, id, ch);
  }

  /** Worker w is in the SyncTerminatingProcess call for the request with the channel. */
  ghost predicate Called(c: Settings, s: Sys, w: nat, id: ProcessID, ch: nat) {
    && Reachable(c, s) && Tracks(s, With(w), ch) && w in s.workers && s.workers[w].id == id
    && s.workers[w].pc.InCall? && s.workers[w].pc.kind.TerminatingCall? && s.workers[w].pc.rec in s.recs
  }

  /** A single failure of SyncTerminatingProcess: the retry stops the process, and the caller waits for ever. */
  lemma FailureIsNotClosed(c: Settings, s: Sys, w: nat, id: ProcessID, err: SyncError, ch: nat)
    requires c.hasSyncer && Called(c, s, w, id, ch)
    ensures FinishesWithout(c, ReturnFromHook(s, w, Outcome(false, Some(err))), id, ch)
  {
    var out := Outcome(false, Some(err));
    ReachableIsSafe(c, s);
    assert RecordLife.Ok(c, ManagerSafety.ViewOf(s, s.workers[w].pc.rec, s.workers[w].pc));
    ReturnMoves(c, s, w, out, With(w), ch);
    ReachableStep(c, s, EndCall(w, out));
    DroppedFinishes(c, ReturnFromHook(s, w, out), id, ch);
  }

  /** Record 0 has the request pending, and worker 1 has been woken. */
  lemma RequestWakes(c: Settings, start: Time, id: ProcessID, ch: nat) returns (s: Sys)
    ensures Reachable(c, s) && Tracks(s, Awaits(0), ch) && StartsOn(s, 1, 0)
    ensures s.workers[1] == Worker(id, Woken) && s.recs[0].IsTerminating() && s.recs[0].State() == Terminating
  {
    var u := Request(id, Some(ch));
    var s0 := Init(start);
    var s1 := Submit(s0, u);
    InitIsUnseen(start, ch);
    HandedIn(s0, u, ch);
    InitIsReachable(c, start);
    ReachableStep(c, s0, UpdateProcess(u));
    s := TakeSignal(s1, 1);
    StepMoves(c, s1, Receive(1), Awaits(0), ch);
    ReachableStep(c, s1, Receive(1));
  }

  /** A fresh manager gets to such a call. */
  lemma RequestIsCalled(c: Settings, start: Time, id: ProcessID, ch: nat) returns (s: Sys)
    requires c.hasSyncer
    ensures Called(c, s, 1, id, ch)
  {
    var s2 := RequestWakes(c, start, id, ch);
    var s3 := BeginWork(s2, 1);
    StepMoves(c, s2, Begin(1), Awaits(0), ch);
    ReachableStep(c, s2, Begin(1));
    s := CalledFrom(c, s3, 1, id, ch);
  }

  lemma CalledFrom(c: Settings, s: Sys, w: nat, id: ProcessID, ch: nat) returns (t: Sys)
    requires c.hasSyncer && Reachable(c, s) && Tracks(s, With(w), ch) && w in s.workers && s.workers[w].id == id
    requires s.workers[w].pc.Chosen? && s.workers[w].pc.rec in s.recs && s.workers[w].pc.state == Terminating
    ensures Called(c, t, w, id, ch)
  {
    var s1 := PickHook(c, s, w);
    StepMoves(c, s, Recheck(w), With(w), ch);
    ReachableStep(c, s, Recheck(w));
    t := CallHook(s1, w);
    StepMoves(c, s1, StartCall(w), With(w), ch);
    ReachableStep(c, s1, StartCall(w));
  }
}
