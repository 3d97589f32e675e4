/**
The life of one process record, seen through the worker that holds it.

A View is a record together with the place of the worker working on it, the
record's history, and whether its context has been cancelled. `Ok` is what
every view keeps; the lemmas show that each thing that can happen to a record
keeps it. Module ManagerSafety shows that in the full protocol nothing else
ever happens to a record.
*/
module RecordLife {
  import opened Wrappers
  import opened ProcTypes
  import opened Backoff
  import opened ManagerProtocol

  // ----- The order of hook calls -----

  /** How far the calls made for a record have come. */
  datatype Phase = Running | Stopping | CleaningUp | Done | Illegal

  function Advance(p: Phase, x: CallEnd): Phase {
    match (p, x.kind)
    case (Running, SyncCall) => Running
    case (Running, TerminatingCall) => if x.ok then CleaningUp else Stopping
    case (Stopping, TerminatingCall) => if x.ok then CleaningUp else Stopping
    case (CleaningUp, TerminatedCall) => if x.ok then Done else CleaningUp
    case _ => Illegal
  }

  function PhaseOf(c: seq<CallEnd>): Phase {
    if c == [] then Running else Advance(PhaseOf(c[..|c| - 1]), c[|c| - 1])
  }

  lemma PhaseOfAppend(c: seq<CallEnd>, x: CallEnd)
    ensures PhaseOf(c + [x]) == Advance(PhaseOf(c), x)
  {
    assert (c + [x])[..|c|] == c;
  }

  /**
  The promised order, said without the automaton: calls up to `a` are SyncProcess, from
  `a` to `b` SyncTerminating of which only the last may have succeeded, and from `b` on
  SyncTerminated of which only the last may have succeeded; SyncTerminated begins only
  after a SyncTerminating has succeeded.
  */
  ghost predicate InOrder(c: seq<CallEnd>, a: nat, b: nat) {
    && a <= b <= |c|
    && (forall k | 0 <= k < a :: c[k].kind == SyncCall)
    && (forall k | a <= k < b :: c[k].kind == TerminatingCall && (c[k].ok ==> k == b - 1))
    && (forall k | b <= k < |c| :: c[k].kind == TerminatedCall && (c[k].ok ==> k == |c| - 1))
    && (b < |c| ==> a < b && c[b - 1].ok)
  }

  /** The automaton accepts exactly the call sequences in the promised order. */
  lemma {:induction false} LegalIsInOrder(c: seq<CallEnd>)
    ensures PhaseOf(c) != Illegal <==> exists a, b :: InOrder(c, a, b)
  {
    if PhaseOf(c) != Illegal {
      var a, b := OrderOf(c);
    }
    if a, b :| InOrder(c, a, b) { InOrderIsLegal(c, a, b); }
  }

  /** What the phase says about the split. */
  ghost predicate SplitFits(c: seq<CallEnd>, a: nat, b: nat) {
    && InOrder(c, a, b)
    && match PhaseOf(c)
       case Running => a == b == |c|
       case Stopping => a < b == |c| && !c[b - 1].ok
       case CleaningUp => a < b && c[b - 1].ok && (b < |c| ==> !c[|c| - 1].ok)
       case Done => b < |c| && c[|c| - 1].ok
       case Illegal => false
  }

  lemma {:induction false} OrderOf(c: seq<CallEnd>) returns (a: nat, b: nat)
    requires PhaseOf(c) != Illegal
    ensures SplitFits(c, a, b)
  {
    if c == [] { a, b := 0, 0; }
    else {
      var d, x := c[..|c| - 1], c[|c| - 1];
      a, b := OrderOf(d);
      match x.kind
      case SyncCall => a, b := |c|, |c|;
      case TerminatingCall => b := |c|;
      case TerminatedCall =>
    }
  }

  lemma {:induction false} InOrderIsLegal(c: seq<CallEnd>, a: nat, b: nat)
    requires InOrder(c, a, b)
    ensures PhaseOf(c) != Illegal && SplitFits(c, a, b)
  {
    if c != [] {
      var d := c[..|c| - 1];
      var a', b' := if a == |c| then |d| else a, if b == |c| then |d| else b;
      assert InOrder(d, a', b');
      InOrderIsLegal(d, a', b');
    }
  }

  // ----- Failures and grace periods -----

  /** Failed calls since the last success. */
  function TrailingFailures(c: seq<CallEnd>): nat {
    if c == [] || c[|c| - 1].ok then 0 else 1 + TrailingFailures(c[..|c| - 1])
  }

  lemma TrailingFailuresAppend(c: seq<CallEnd>, x: CallEnd)
    ensures TrailingFailures(c + [x]) == if x.ok then 0 else 1 + TrailingFailures(c)
  {
    assert (c + [x])[..|c|] == c;
  }

  function StoreGrace(stored: int, q: GraceRequest): int {
    match q
    case Explicit(g) => ExplicitGrace(stored, g)
    case Default => DefaultGrace(stored)
  }

  function GraceAfter(qs: seq<GraceRequest>): int {
    if qs == [] then 0 else StoreGrace(GraceAfter(qs[..|qs| - 1]), qs[|qs| - 1])
  }

  lemma GraceAfterAppend(qs: seq<GraceRequest>, q: GraceRequest)
    ensures GraceAfter(qs + [q]) == StoreGrace(GraceAfter(qs), q)
  {
    assert (qs + [q])[..|qs|] == qs;
  }

  // ----- Views -----

  datatype View = View(
    st: Status,
    pc: PC,                       // Waiting when no worker is in a turn on the record
    calls: seq<CallEnd>,
    closed: seq<nat>,
    grace: seq<GraceRequest>,
    cut: bool)                    // the record's context has been cancelled

  predicate Lifecycle(st: Status) {
    && (st.finished <==> st.finishedAt.Some?)
    && (st.IsFinished() ==> st.IsTerminated())
    && (st.IsTerminated() ==> st.IsTerminating())
  }

  predicate PhaseFits(st: Status, p: Phase) {
    && p != Illegal
    && (p == Done <==> st.IsFinished())
    && (p == CleaningUp <==> st.IsTerminated() && !st.IsFinished())
    && (p == Stopping ==> st.IsTerminating())
  }

  predicate HeadingForSync(pc: PC) {
    || (pc.Chosen? && (pc.state == Starting || pc.state == Syncing))
    || (pc.Calling? && pc.kind == SyncCall)
    || (pc.InCall? && pc.kind == SyncCall)
  }

  /** The worker is where the record's state sends it. */
  predicate PcFits(v: View) {
    && (InTurn(v.pc) <==> v.st.working)
    && (v.pc.Chosen? || v.pc.Calling? || v.pc.InCall? ==> !v.st.IsFinished())
    && (HeadingForSync(v.pc) ==> !v.st.IsTerminated() && PhaseOf(v.calls) == Running)
    && (v.pc.Chosen? ==> match v.pc.state
          case Starting => true
          case Syncing => true
          case Terminating => v.st.IsTerminating() && !v.st.IsTerminated()
          case Terminated => v.st.IsTerminated()
          case Finished => false)
    && (v.pc.Calling? || v.pc.InCall? ==> match v.pc.kind
          case SyncCall => true
          case TerminatingCall => v.st.IsTerminating() && !v.st.IsTerminated()
          case TerminatedCall => v.st.IsTerminated())
    && (v.pc.InCall? ==> v.pc.ctx == v.st.ctx)
  }

  /** A SyncProcess call, begun or about to begin, has its context cancelled exactly if termination was requested. */
  predicate ContextFits(v: View) {
    HeadingForSync(v.pc) ==> v.st.ctx.Some? && (v.cut <==> v.st.IsTerminating())
  }

  /** errorCount and consecutiveFails both count the failures since the last success. */
  predicate ErrorsFit(c: Settings, v: View) {
    && 0 <= v.st.consecutiveFails
    && (c.hasSyncer && !v.st.IsFinished() ==>
      && v.st.errorCount == TrailingFailures(v.calls)
      && (if v.pc.Ended? then
            if v.pc.err.Some? then v.st.errorCount == v.st.consecutiveFails + 1 else v.st.errorCount == 0
          else v.st.errorCount == v.st.consecutiveFails))
  }

  predicate HistoryFits(v: View) {
    && |v.closed| <= 1
    && (v.closed != [] ==> v.st.IsTerminated())
    && v.st.gracePeriod == GraceAfter(v.grace)
  }

  predicate Ok(c: Settings, v: View) {
    && Lifecycle(v.st)
    && PhaseFits(v.st, PhaseOf(v.calls))
    && PcFits(v)
    && ContextFits(v)
    && ErrorsFit(c, v)
    && HistoryFits(v)
  }

  // ----- What can happen to a view -----

  const NewView: View := View(NewStatus, Waiting, [], [], [], false)

  /** A termination request, from a caller or from orphan detection. */
  function Requested(v: View, opts: Option<TerminateOptions>, now: Time): View {
    v.(st := RequestTermination(v.st, opts, now),
       cut := v.cut || CancelsContext(v.st),
       grace := v.grace + [GraceOf(opts)])
  }

  function Accepted(v: View, u: ProcessUpdate, now: Time): View {
    var v1 := if u.updateType == TypeTerminate then Requested(v, u.terminateOptions, now) else v;
    v1.(st := AcceptUpdate(v.st, u, now))
  }

  /** `cancelled` decides whether the record's context has to be replaced. */
  function Begun(v: View, r: nat, cancelled: set<nat>, unused: nat): View
    requires v.st.pending.Some?
  {
    var st := BeginTurn(v.st, cancelled, unused);
    v.(st := st, pc := Chosen(r, v.st.pending.value, st.State()), cut := false)
  }

  function Picked(c: Settings, v: View): View
    requires v.pc.Chosen?
  {
    v.(pc := HookFor(c, v.st, v.pc))
  }

  function Called(v: View): View
    requires v.pc.Calling?
  {
    v.(pc := InCall(v.pc.rec, v.pc.update, v.pc.kind, v.st.ctx))
  }

  function Returned(v: View, id: ProcessID, out: Outcome, now: Time): View
    requires v.pc.InCall?
  {
    v.(st := AfterCall(v.st, id, v.pc.update, v.pc.kind, out, now),
       calls := v.calls + [CallEnd(v.pc.kind, out.err.None?)],
       closed := v.closed + ClosedBy(v.pc.update, v.pc.kind, out),
       grace := v.grace + GraceBy(v.pc.kind, out),
       pc := Ended(v.pc.rec, out.err))
  }

  function Closed(v: View): View
    requires v.pc.Ended?
  {
    v.(st := FinishTurn(v.st, v.pc.err), pc := Waiting)
  }

  lemma NewViewOk(c: Settings)
    ensures Ok(c, NewView)
  {
  }

  lemma RequestedOk(c: Settings, v: View, opts: Option<TerminateOptions>, now: Time)
    requires Ok(c, v) && !v.st.IsFinished()
    ensures Ok(c, Requested(v, opts, now))
  {
    GraceAfterAppend(v.grace, GraceOf(opts));
  }

  lemma AcceptedOk(c: Settings, v: View, u: ProcessUpdate, now: Time)
    requires Ok(c, v) && !v.st.IsFinished()
    ensures Ok(c, Accepted(v, u, now))
  {
    if u.updateType == TypeTerminate { RequestedOk(c, v, u.terminateOptions, now); }
  }

  lemma BegunOk(c: Settings, v: View, r: nat, cancelled: set<nat>, unused: nat)
    requires Ok(c, v) && !v.st.working && !v.st.IsFinished() && v.st.pending.Some?
    ensures Ok(c, Begun(v, r, cancelled, unused))
  {
  }

  lemma PickedOk(c: Settings, v: View)
    requires Ok(c, v) && v.pc.Chosen?
    ensures Ok(c, Picked(c, v))
  {
  }

  lemma CalledOk(c: Settings, v: View)
    requires Ok(c, v) && v.pc.Calling?
    ensures Ok(c, Called(v))
  {
  }

  lemma ReturnedHistoryOk(c: Settings, v: View, id: ProcessID, out: Outcome, now: Time)
    requires Ok(c, v) && v.pc.InCall?
    ensures ErrorsFit(c, Returned(v, id, out, now)) && HistoryFits(Returned(v, id, out, now))
  {
    TrailingFailuresAppend(v.calls, CallEnd(v.pc.kind, out.err.None?));
    GraceAfterAppend(v.grace, Default);
    PhaseOfAppend(v.calls, CallEnd(v.pc.kind, out.err.None?));
    assert v.grace + [] == v.grace;
  }

  lemma ReturnedOk(c: Settings, v: View, id: ProcessID, out: Outcome, now: Time)
    requires Ok(c, v) && v.pc.InCall?
    ensures Ok(c, Returned(v, id, out, now))
  {
    ReturnedHistoryOk(c, v, id, out, now);
    PhaseOfAppend(v.calls, CallEnd(v.pc.kind, out.err.None?));
  }

  lemma ClosedOk(c: Settings, v: View)
    requires Ok(c, v) && v.pc.Ended?
    ensures Ok(c, Closed(v))
  {
  }

  lemma PendingOk(c: Settings, v: View, id: ProcessID, now: Time)
    requires Ok(c, v)
    ensures Ok(c, v.(st := EnsurePending(v.st, id, now)))
  {
  }
}
