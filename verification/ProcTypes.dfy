/**
The record a process manager keeps for one process, and what each critical
section does to it.

Every function below is the effect of one lock section of the manager on one
record. The record as an object (module StatusRecord) and the interleaving model
(module ManagerProtocol) are both proved against or built from them.
*/
module ProcTypes {
  import opened Wrappers

  type ProcessID = string

  /** Nanoseconds. Each lock section reads the clock once. */
  type Time = int

  /** Process-specific configuration is carried around unread. */
  type Config = string

  const SECOND: Time := 1_000_000_000
  const DEFAULT_GRACE := 10

  datatype ProcessState = Starting | Syncing | Terminating | Terminated | Finished

  function Rank(s: ProcessState): nat {
    match s
    case Starting => 0
    case Syncing => 1
    case Terminating => 2
    case Terminated => 3
    case Finished => 4
  }

  datatype UpdateType = TypeCreate | TypeUpdate | TypeSync | TypeTerminate

  datatype TerminateOptions = TerminateOptions(
    completedCh: Option<nat>,
    evict: bool,
    gracePeriodSecs: Option<int>)

  datatype ProcessUpdate = ProcessUpdate(
    id: ProcessID,
    updateType: UpdateType,
    startTime: Option<Time>,
    config: Option<Config>,
    terminateOptions: Option<TerminateOptions>)

  datatype SyncError = Canceled | DeadlineExceeded | OtherError(msg: string)

  /** What the syncer's SyncProcess returns; the other two hooks return only the error. */
  datatype Outcome = Outcome(terminal: bool, err: Option<SyncError>)

  datatype Status = Status(
    ctx: Option<nat>,          // handle of the context; its cancel function is set with it
    working: bool,
    pending: Option<ProcessUpdate>,
    active: Option<ProcessUpdate>,
    syncedAt: Option<Time>,
    startedAt: Option<Time>,
    terminatingAt: Option<Time>,
    terminatedAt: Option<Time>,
    finishedAt: Option<Time>,
    gracePeriod: int,          // 0 means unset
    evicted: bool,
    finished: bool,
    errorCount: int,
    lastError: Option<SyncError>,
    consecutiveFails: int)
  {
    function State(): ProcessState {
      if finishedAt.Some? then Finished
      else if terminatedAt.Some? then Terminated
      else if terminatingAt.Some? then Terminating
      else if syncedAt.Some? then Syncing
      else Starting
    }

    predicate IsTerminating() { terminatingAt.Some? }

    predicate IsTerminated() { terminatedAt.Some? }

    predicate IsFinished() { finishedAt.Some? }

    predicate Healthy() { errorCount < 5 && State() == Syncing }
  }

  /** A record as UpdateProcess allocates it: every field at its zero value. */
  const NewStatus: Status :=
    Status(None, false, None, None, None, None, None, None, None, 0, false, false, 0, None, 0)

  /** The grace period an explicit request for `g` seconds leaves behind. */
  function ExplicitGrace(stored: int, g: int): int {
    if stored == 0 || g < stored then g else stored
  }

  function DefaultGrace(stored: int): int {
    if stored == 0 then DEFAULT_GRACE else stored
  }

  /** handleTerminationRequest, apart from the cancellation (see CancelsContext). */
  function RequestTermination(s: Status, opts: Option<TerminateOptions>, now: Time): Status {
    var s1 := if s.terminatingAt.None? then s.(terminatingAt := Some(now)) else s;
    if opts.Some? && opts.value.gracePeriodSecs.Some? then
      s1.(gracePeriod := ExplicitGrace(s1.gracePeriod, opts.value.gracePeriodSecs.value),
          evicted := s1.evicted || opts.value.evict)
    else
      s1.(gracePeriod := DefaultGrace(s1.gracePeriod))
  }

  /** A termination request cancels the record's context exactly when it is the first one. */
  predicate CancelsContext(s: Status) {
    !s.IsTerminating() && s.ctx.Some?
  }

  /** UpdateProcess fills in a missing start time. */
  function Stamped(u: ProcessUpdate, now: Time): ProcessUpdate {
    if u.startTime.None? then u.(startTime := Some(now)) else u
  }

  /** UpdateProcess on an unfinished record. */
  function AcceptUpdate(s: Status, u: ProcessUpdate, now: Time): Status {
    var s1 := if u.updateType == TypeTerminate then RequestTermination(s, u.terminateOptions, now) else s;
    s1.(pending := Some(Stamped(u, now)))
  }

  /** The opening section of processUpdate hands pending over to active. */
  function BeginTurn(s: Status, cancelled: set<nat>, unused: nat): Status {
    s.(active := s.pending,
       pending := None,
       working := true,
       ctx := if s.ctx.None? || s.ctx.value in cancelled then Some(unused) else s.ctx)
  }

  /** The closing section of syncProcess. */
  function EndSync(s: Status, out: Outcome, now: Time): Status {
    var s1 :=
      if out.err.Some? then
        s.(errorCount := s.errorCount + 1, lastError := out.err)
      else
        s.(errorCount := 0, lastError := None, syncedAt := Some(now),
           startedAt := if s.startedAt.None? then Some(now) else s.startedAt);
    if out.terminal then
      s1.(terminatingAt := Some(now), gracePeriod := DefaultGrace(s1.gracePeriod))
    else s1
  }

  function SyntheticSync(id: ProcessID, config: Option<Config>, now: Time): ProcessUpdate {
    ProcessUpdate(id, TypeSync, Some(now), config, None)
  }

  /** The closing section of syncTerminating. */
  function EndTerminating(s: Status, id: ProcessID, u: ProcessUpdate, err: Option<SyncError>, now: Time): Status {
    if err.Some? then
      s.(errorCount := s.errorCount + 1, lastError := err)
    else
      s.(terminatedAt := Some(now), errorCount := 0, lastError := None,
         pending := Some(SyntheticSync(id, u.config, now)))
  }

  /** The completion channel a successful syncTerminating closes, if any. */
  function CompletionChannel(u: ProcessUpdate): Option<nat> {
    if u.terminateOptions.Some? then u.terminateOptions.value.completedCh else None
  }

  /** The closing section of syncTerminated. */
  function EndTerminated(s: Status, err: Option<SyncError>, now: Time): Status {
    if err.Some? then
      s.(errorCount := s.errorCount + 1, lastError := err)
    else
      s.(finishedAt := Some(now), finished := true, errorCount := 0, lastError := None)
  }

  /** completeWork's effect on the record. */
  function FinishTurn(s: Status, err: Option<SyncError>): Status {
    var s1 := s.(working := false);
    if s1.IsFinished() then s1
    else s1.(consecutiveFails := if err.Some? then s1.consecutiveFails + 1 else 0)
  }

  /** The queue consumer makes sure there is something to work on. */
  function EnsurePending(s: Status, id: ProcessID, now: Time): Status {
    if s.pending.Some? then s
    else s.(pending := Some(SyntheticSync(id, if s.active.Some? then s.active.value.config else None, now)))
  }
}
