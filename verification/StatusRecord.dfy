/**
The record as the code has it: an object whose fields each lock section updates
in place. Every method is one lock section of the manager, statement by
statement, proved to have the effect ProcTypes gives it.
*/
module StatusRecord {
  import opened Wrappers
  import opened ProcTypes

  class Context {
    const handle: nat
    var cancelled: bool

    constructor (handle: nat)
      ensures this.handle == handle && !cancelled
    {
      this.handle := handle;
      cancelled := false;
    }
  }

  class ProcessStatus {
    var ctx: Context?
    var working: bool
    var pending: Option<ProcessUpdate>
    var active: Option<ProcessUpdate>
    var syncedAt: Option<Time>
    var startedAt: Option<Time>
    var terminatingAt: Option<Time>
    var terminatedAt: Option<Time>
    var finishedAt: Option<Time>
    var gracePeriod: int
    var evicted: bool
    var finished: bool
    var errorCount: int
    var lastError: Option<SyncError>
    var consecutiveFails: int

    function Value(): Status
      reads this
    {
      Status(if ctx == null then None else Some(ctx.handle), working, pending, active, syncedAt, startedAt,
             terminatingAt, terminatedAt, finishedAt, gracePeriod, evicted, finished, errorCount, lastError,
             consecutiveFails)
    }

    constructor ()
      ensures Value() == NewStatus
    {
      ctx := null;
      working, pending, active := false, None, None;
      syncedAt, startedAt, terminatingAt, terminatedAt, finishedAt := None, None, None, None, None;
      gracePeriod, evicted, finished := 0, false, false;
      errorCount, lastError, consecutiveFails := 0, None, 0;
    }

    /** handleTerminationRequest. The context may be cancelled twice; the second time has no effect. */
    method HandleTerminationRequest(opts: Option<TerminateOptions>, now: Time)
      modifies this`terminatingAt, this`gracePeriod, this`evicted, ctx
      ensures Value() == RequestTermination(old(Value()), opts, now)
      ensures ctx != null ==> ctx.cancelled == (old(ctx.cancelled) || old(CancelsContext(Value())))
    {
      var alreadyTerminating := terminatingAt.Some?;
      if terminatingAt.None? {
        terminatingAt := Some(now);
      }
      if opts.Some? && opts.value.gracePeriodSecs.Some? {
        var g := opts.value.gracePeriodSecs.value;
        if gracePeriod == 0 || g < gracePeriod {
          gracePeriod := g;
          if !alreadyTerminating && ctx != null {
            ctx.cancelled := true;
          }
        }
        if opts.value.evict {
          evicted := true;
        }
      } else if gracePeriod == 0 {
        gracePeriod := DEFAULT_GRACE;
      }
      if !alreadyTerminating && ctx != null {
        ctx.cancelled := true;
      }
    }

    /** UpdateProcess, between finding the record and signalling its worker; `ok` says whether it signals. */
    method SubmitUpdate(u: ProcessUpdate, now: Time) returns (ok: bool)
      modifies this`terminatingAt, this`gracePeriod, this`evicted, this`pending, ctx
      ensures ok == !old(Value()).IsFinished()
      ensures Value() == if ok then AcceptUpdate(old(Value()), u, now) else old(Value())
      ensures ctx != null ==>
                (ctx.cancelled <==>
                   old(ctx.cancelled) || (ok && u.updateType == TypeTerminate && old(CancelsContext(Value()))))
    {
      var update := u;
      if update.startTime.None? {
        update := update.(startTime := Some(now));
      }
      if finishedAt.Some? {
        return false;
      }
      if update.updateType == TypeTerminate {
        HandleTerminationRequest(update.terminateOptions, now);
      }
      pending := Some(update);
      return true;
    }

    /** processUpdate's opening section; `chosen` is what it hands to executeSync, if it does. */
    method Begin(unused: nat) returns (chosen: Option<(ProcessUpdate, ProcessState)>)
      modifies this`active, this`pending, this`working, this`ctx
      ensures chosen.Some? <==> old(!Value().IsFinished() && !working && pending.Some?)
      ensures chosen.None? ==> Value() == old(Value()) && ctx == old(ctx)
      ensures chosen.Some? ==>
                Value() ==
                BeginTurn(old(Value()), old(if ctx != null && ctx.cancelled then {ctx.handle} else {}), unused)
                && chosen.value == (old(pending).value, Value().State())
      ensures chosen.Some? ==> ctx != null && !ctx.cancelled
    {
      if finishedAt.Some? || working || pending.None? {
        return None;
      }
      active := pending;
      pending := None;
      working := true;
      if ctx == null || ctx.cancelled {
        ctx := new Context(unused);
      }
      return Some((active.value, Value().State()));
    }

    /** syncProcess' closing section */
    method FinishSync(out: Outcome, now: Time)
      modifies this`errorCount, this`lastError, this`syncedAt, this`startedAt, this`terminatingAt, this`gracePeriod
      ensures Value() == EndSync(old(Value()), out, now)
    {
      if out.err.Some? {
        errorCount := errorCount + 1;
        lastError := out.err;
      } else {
        errorCount := 0;
        lastError := None;
        syncedAt := Some(now);
        if startedAt.None? {
          startedAt := Some(now);
        }
      }
      if out.terminal {
        terminatingAt := Some(now);
        if gracePeriod == 0 {
          gracePeriod := DEFAULT_GRACE;
        }
      }
    }

    /** syncTerminating's closing section; `close` is the completion channel it closes. */
    method FinishTerminating(id: ProcessID, u: ProcessUpdate, err: Option<SyncError>, now: Time)
      returns (close: Option<nat>)
      modifies this`errorCount, this`lastError, this`terminatedAt, this`pending
      ensures Value() == EndTerminating(old(Value()), id, u, err, now)
      ensures close == if err.None? then CompletionChannel(u) else None
    {
      close := None;
      if err.Some? {
        errorCount := errorCount + 1;
        lastError := err;
      } else {
        terminatedAt := Some(now);
        errorCount := 0;
        lastError := None;
        if u.terminateOptions.Some? && u.terminateOptions.value.completedCh.Some? {
          close := u.terminateOptions.value.completedCh;
        }
        pending := Some(ProcessUpdate(id, TypeSync, Some(now), u.config, None));
      }
    }

    /** syncTerminated's closing section */
    method FinishTerminated(err: Option<SyncError>, now: Time)
      modifies this`errorCount, this`lastError, this`finishedAt, this`finished
      ensures Value() == EndTerminated(old(Value()), err, now)
    {
      if err.Some? {
        errorCount := errorCount + 1;
        lastError := err;
      } else {
        finishedAt := Some(now);
        finished := true;
        errorCount := 0;
        lastError := None;
      }
    }

    /** completeWork; `requeue` says whether it goes on to enqueue, `signal` whether an update is waiting. */
    method CompleteWork(err: Option<SyncError>) returns (requeue: bool, signal: bool)
      modifies this`working, this`consecutiveFails
      ensures Value() == FinishTurn(old(Value()), err)
      ensures requeue == !Value().IsFinished() && signal == (requeue && Value().pending.Some?)
    {
      working := false;
      if finishedAt.Some? {
        return false, false;
      }
      if err.Some? {
        consecutiveFails := consecutiveFails + 1;
      } else {
        consecutiveFails := 0;
      }
      return true, pending.Some?;
    }

    /** The queue consumer's section */
    method MakePending(id: ProcessID, now: Time)
      modifies this`pending
      ensures Value() == EnsurePending(old(Value()), id, now)
    {
      if pending.None? {
        var config := None;
        if active.Some? {
          config := active.value.config;
        }
        pending := Some(ProcessUpdate(id, TypeSync, Some(now), config, None));
      }
    }
  }
}
