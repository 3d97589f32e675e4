/**
What the manager can still do when it is left to itself: from every reachable state it can begin a turn on each
unfinished process, and finish each process whose termination has been requested, if its hooks succeed.
*/
module ManagerLiveness {
  import opened Wrappers
  import opened ProcTypes
  import opened Backoff
  import opened ManagerProtocol
  import opened ManagerSafety
  import opened Reachability
  import ManagerTheorems
  import NoLostWork
  import RecordLife

  // ----- A turn begins -----

  /** Worker w has just begun a turn on record r, which is in the given state. */
  ghost predicate Begun(s: Sys, w: nat, r: nat, state: ProcessState) {
    TurnOn(s, w, r) && s.workers[w].pc.Chosen? && s.workers[w].pc.state == state
  }

  /** The identifier's record is the same one and in the same state. */
  ghost predicate SameStage(s: Sys, t: Sys, id: ProcessID) {
    && Live(s, id) && Live(t, id) && t.statuses[id] == s.statuses[id]
    && t.recs[s.statuses[id]].State() == s.recs[s.statuses[id]].State()
  }

  /** The manager can get to where a turn on the process has just begun. */
  ghost predicate TurnComes(c: Settings, s: Sys, id: ProcessID)
    requires Live(s, id)
  {
    var r := s.statuses[id];
    exists t, w :: Proceeds(c, s, t) && SameStage(s, t, id) && Begun(t, w, r, s.recs[r].State())
  }

  lemma TurnComesOn(c: Settings, s: Sys, t: Sys, id: ProcessID)
    requires Proceeds(c, s, t) && SameStage(s, t, id) && TurnComes(c, t, id)
    ensures TurnComes(c, s, id)
  {
    var u, w :| Proceeds(c, t, u) && SameStage(t, u, id) && Begun(u, w, t.statuses[id], t.recs[t.statuses[id]].State());
    ProceedsOn(c, s, t, u);
  }

  /** A worker that is about to look finds the work. */
  lemma LookingBegins(c: Settings, s: Sys, w: nat, id: ProcessID)
    requires w in s.workers && s.workers[w] == Worker(id, Woken) && StartsTurn(s, id)
    ensures TurnComes(c, s, id)
  {
    var t := BeginWork(s, w);
    Proceed(c, s, Begin(w));
    assert SameStage(s, t, id) && Begun(t, w, s.statuses[id], s.recs[s.statuses[id]].State());
  }

  /** A worker that serves the identifier is not in a turn while its record rests. */
  lemma ListenerIsFree(c: Settings, s: Sys, id: ProcessID)
    requires Reachable(c, s) && Live(s, id) && !s.recs[s.statuses[id]].working
    ensures id in s.updates && s.updates[id] in s.workers && s.workers[s.updates[id]].id == id
    ensures Unoccupied(s, s.updates[id]) || s.workers[s.updates[id]].pc.Woken?
  {
    ReachableIsSafe(c, s);
  }

  lemma DueBegins(c: Settings, s: Sys, id: ProcessID)
    requires Reachable(c, s) && StartsTurn(s, id) && id in s.updates && NoLostWork.WakeUpDue(s, id)
    ensures TurnComes(c, s, id)
  {
    if w :| NoLostWork.AboutToLook(s, w, id) {
      LookingBegins(c, s, w, id);
    } else {
      ListenerIsFree(c, s, id);
      var v := s.updates[id];
      if x :| NoLostWork.AboutToSignal(s, x, v) { assert Due(s, v); }
      var t := Wakes(c, s, v);
      LookingBegins(c, t, v, id);
      TurnComesOn(c, s, t, id);
    }
  }

  /** The consumer's lock section, for an identifier it holds. */
  lemma LockArms(s: Sys, id: ProcessID)
    requires Live(s, id) && !s.recs[s.statuses[id]].working && id in s.updates && s.consumer == Holding(id)
    ensures var t := ConsumerLockStep(s);
      && SameStage(s, t, id) && StartsTurn(t, id)
      && t.updates == s.updates && t.consumer == Signalling(s.updates[id])
  {
  }

  /** What the consumer has dequeued gets its worker signalled. */
  lemma HeldBegins(c: Settings, s: Sys, id: ProcessID)
    requires Reachable(c, s) && Live(s, id) && !s.recs[s.statuses[id]].working && s.consumer == Holding(id)
    ensures TurnComes(c, s, id)
  {
    ListenerIsFree(c, s, id);
    var t := ConsumerLockStep(s);
    Proceed(c, s, ConsumerLock);
    ReachableOn(c, s, t);
    LockArms(s, id);
    DueBegins(c, t, id);
    TurnComesOn(c, s, t, id);
  }

  // ----- The queue is drained -----

  /** The record of the identifier rests, and is queued. */
  ghost predicate Queued(s: Sys, id: ProcessID) {
    Live(s, id) && !s.recs[s.statuses[id]].working && id in s.queue
  }

  lemma FilledElsewhere(s: Sys, j: ProcessID, id: ProcessID)
    requires Queued(s, id) && j in s.statuses && s.statuses[j] in s.recs && s.statuses[j] != s.statuses[id]
    ensures var t := Filled(s, j); Queued(t, id) && SameStage(s, t, id) && t.queue == s.queue
  {
  }

  lemma LockElsewhere(s: Sys, j: ProcessID, id: ProcessID)
    requires Queued(s, id) && s.consumer == Holding(j) && j != id
    requires j in s.statuses ==> s.statuses[j] != s.statuses[id]
    ensures var t := ConsumerLockStep(s);
      && Queued(t, id) && SameStage(s, t, id) && t.queue == s.queue && !t.consumer.Holding?
  {
    if j in s.statuses && s.statuses[j] in s.recs { FilledElsewhere(s, j, id); }
  }

  /** The consumer gets done with what it is at. */
  lemma ConsumerSettles(c: Settings, s: Sys, id: ProcessID) returns (t: Sys)
    requires Reachable(c, s) && Queued(s, id) && s.consumer != Holding(id)
    ensures Proceeds(c, s, t) && SameStage(s, t, id) && Queued(t, id) && t.queue == s.queue && t.consumer.Idle?
  {
    var s1 := s;
    Rests(c, s);
    if s.consumer.Holding? {
      s1 := ConsumerLockStep(s);
      ReachableIsSafe(c, s);
      LockElsewhere(s, s.consumer.id, id);
      Proceed(c, s, ConsumerLock);
    }
    t := s1;
    if s1.consumer.Signalling? {
      t := ConsumerSignal(s1);
      ThenProceed(c, s, s1, ConsumerSend);
    }
  }

  /** Some queued identifier has the least ready time. */
  lemma LeastQueued(q: map<ProcessID, Time>) returns (m: ProcessID)
    requires q != map[]
    ensures m in q && forall j | j in q :: q[m] <= q[j]
    decreases |q|
  {
    var k :| k in q;
    m := k;
    if j :| j in q && q[j] < q[k] {
      var rest := q - {k};
      assert j in rest && rest != map[];
      assert |rest| < |q| by { assert q.Keys == rest.Keys + {k}; }
      m := LeastQueued(rest);
      forall i | i in q ensures q[m] <= q[i] { assert i == k || i in rest; }
    }
  }

  lemma TimePasses(c: Settings, s: Sys, to: Time)
    requires s.now <= to
    ensures Proceeds(c, s, s.(now := to))
  {
    Proceed(c, s, Tick(to));
  }

  lemma TakesDue(c: Settings, s: Sys, m: ProcessID) returns (t: Sys)
    requires s.consumer.Idle? && m in s.queue && s.queue[m] <= s.now
    requires forall j | j in s.queue :: s.queue[m] <= s.queue[j]
    ensures Proceeds(c, s, t) && t.consumer == Holding(m) && t.queue == s.queue - {m}
    ensures t.recs == s.recs && t.statuses == s.statuses
  {
    t := TakeFromQueue(s, m);
    Proceed(c, s, Dequeue(m));
  }

  /** In time the consumer takes the first entry. */
  lemma TakesFirst(c: Settings, s: Sys, m: ProcessID) returns (t: Sys)
    requires s.consumer.Idle? && m in s.queue && forall j | j in s.queue :: s.queue[m] <= s.queue[j]
    ensures Proceeds(c, s, t) && t.consumer == Holding(m) && t.queue == s.queue - {m}
    ensures t.recs == s.recs && t.statuses == s.statuses
  {
    var due := if s.now <= s.queue[m] then s.queue[m] else s.now;
    TimePasses(c, s, due);
    t := TakesDue(c, s.(now := due), m);
    ProceedsOn(c, s, s.(now := due), t);
  }

  /** The consumer takes one entry off the queue, which may be the identifier's. */
  lemma OneLess(c: Settings, s: Sys, id: ProcessID) returns (t: Sys)
    requires Reachable(c, s) && Queued(s, id) && s.consumer != Holding(id)
    ensures Proceeds(c, s, t) && SameStage(s, t, id) && !t.recs[t.statuses[id]].working && |t.queue| < |s.queue|
    ensures t.consumer == Holding(id) || Queued(t, id)
  {
    var s1 := ConsumerSettles(c, s, id);
    t := FirstLess(c, s1, id);
    ProceedsOn(c, s, s1, t);
  }

  lemma FirstLess(c: Settings, s: Sys, id: ProcessID) returns (t: Sys)
    requires Queued(s, id) && s.consumer.Idle?
    ensures Proceeds(c, s, t) && SameStage(s, t, id) && !t.recs[t.statuses[id]].working && |t.queue| < |s.queue|
    ensures t.consumer == Holding(id) || Queued(t, id)
  {
    var m := LeastQueued(s.queue);
    t := TakesFirst(c, s, m);
    assert s.queue.Keys == t.queue.Keys + {m};
  }

  /** Entry after entry, the consumer comes to the identifier. */
  lemma {:induction false} QueuedBegins(c: Settings, s: Sys, id: ProcessID)
    requires Reachable(c, s) && Queued(s, id) && s.consumer != Holding(id)
    ensures TurnComes(c, s, id)
    decreases |s.queue|
  {
    var t := OneLess(c, s, id);
    ReachableOn(c, s, t);
    if t.consumer == Holding(id) { HeldBegins(c, t, id); } else { QueuedBegins(c, t, id); }
    TurnComesOn(c, s, t, id);
  }

  /** Nothing is lost, and nobody is serving a record that rests. */
  lemma RestingIsCovered(c: Settings, s: Sys, id: ProcessID)
    requires Reachable(c, s) && Live(s, id) && !s.recs[s.statuses[id]].working
    ensures || id in s.queue || s.consumer == Holding(id)
            || (s.recs[s.statuses[id]].pending.Some? && id in s.updates && NoLostWork.WakeUpDue(s, id))
  {
    ReachableIsSafe(c, s);
    assert NoLostWork.Covered(s, id);
    assert forall w :: !NoLostWork.Serving(s, w, id);
  }

  /** If no turn on an unfinished process is under way, the manager can begin one on its own. */
  lemma RestingBegins(c: Settings, s: Sys, id: ProcessID)
    requires Reachable(c, s) && Live(s, id) && !s.recs[s.statuses[id]].working
    ensures TurnComes(c, s, id)
  {
    RestingIsCovered(c, s, id);
    if s.consumer == Holding(id) {
      HeldBegins(c, s, id);
    } else if id in s.queue {
      QueuedBegins(c, s, id);
    } else {
      DueBegins(c, s, id);
    }
  }

  /**
  In every reachable state, for every unfinished process: a worker is in a turn on it, or the manager, left to itself,
  can get to where one has just begun.
  */
  lemma AlwaysATurn(c: Settings, s: Sys, id: ProcessID)
    requires Reachable(c, s) && Live(s, id)
    ensures (exists w :: TurnOn(s, w, s.statuses[id])) || TurnComes(c, s, id)
  {
    if s.recs[s.statuses[id]].working {
      ReachableIsSafe(c, s);
    } else {
      RestingBegins(c, s, id);
    }
  }

  // ----- A termination is carried through -----

  /** Phases still to go. */
  function ToGo(st: Status): nat {
    if st.IsFinished() then 0 else if st.IsTerminated() then 1 else 2
  }

  /** A SyncProcess that was begun before still has to return. */
  predicate Detour(pc: PC) {
    RecordLife.HeadingForSync(pc)
  }

  /** How far a turn has got; the end of one comes before the beginning of the next. */
  function Place(pc: PC): nat {
    match pc
    case Ended(_, _) => 5
    case Chosen(_, _, _) => 3
    case Calling(_, _, _) => 2
    case InCall(_, _, _, _) => 1
    case _ => 4
  }

  /** The process is terminating and its record is r. */
  ghost predicate Terminating(s: Sys, id: ProcessID, r: nat) {
    id in s.statuses && s.statuses[id] == r && r in s.recs && s.recs[r].IsTerminating()
  }

  const OK := Outcome(false, None)

  /** Fewer phases to go, or a detour less, or further in the turn. */
  ghost predicate Closer(s: Sys, t: Sys, w: nat, r: nat) {
    && TurnOn(s, w, r) && TurnOn(t, w, r) && r in s.recs && r in t.recs
    && (|| ToGo(t.recs[r]) < ToGo(s.recs[r])
        || (ToGo(t.recs[r]) == ToGo(s.recs[r]) && Detour(s.workers[w].pc) && !Detour(t.workers[w].pc))
        || (ToGo(t.recs[r]) == ToGo(s.recs[r]) && Detour(s.workers[w].pc) == Detour(t.workers[w].pc)
            && Place(t.workers[w].pc) < Place(s.workers[w].pc)))
  }

  /** Worker w of the terminating process is in a turn on its record. */
  ghost predicate Busy(c: Settings, s: Sys, w: nat, id: ProcessID, r: nat) {
    Reachable(c, s) && TurnOn(s, w, r) && s.workers[w].id == id && Terminating(s, id, r) && !s.recs[r].IsFinished()
  }

  lemma BusyIsOk(c: Settings, s: Sys, w: nat, id: ProcessID, r: nat)
    requires Busy(c, s, w, id, r)
    ensures RecordLife.Ok(c, ViewOf(s, r, s.workers[w].pc))
  {
    ReachableIsSafe(c, s);
  }

  lemma PickMoves(c: Settings, s: Sys, w: nat, id: ProcessID, r: nat)
    requires Busy(c, s, w, id, r) && s.workers[w].pc.Chosen? && c.hasSyncer
    ensures var t := PickHook(c, s, w); Terminating(t, id, r) && t.workers[w].id == id && Closer(s, t, w, r)
  {
    BusyIsOk(c, s, w, id, r);
  }

  lemma CallMoves(c: Settings, s: Sys, w: nat, id: ProcessID, r: nat)
    requires Busy(c, s, w, id, r) && s.workers[w].pc.Calling?
    ensures var t := CallHook(s, w); Terminating(t, id, r) && t.workers[w].id == id && Closer(s, t, w, r)
  {
  }

  lemma ReturnMoves(c: Settings, s: Sys, w: nat, id: ProcessID, r: nat)
    requires Busy(c, s, w, id, r) && s.workers[w].pc.InCall?
    ensures var t := ReturnFromHook(s, w, OK); Terminating(t, id, r) && t.workers[w].id == id && Closer(s, t, w, r)
  {
    BusyIsOk(c, s, w, id, r);
  }

  lemma CompleteMoves(c: Settings, s: Sys, w: nat, id: ProcessID, r: nat)
    requires Busy(c, s, w, id, r) && s.workers[w].pc.Ended?
    ensures var t := CompleteWork(s, w, DelayOf(c, s, w, 0.0));
      Terminating(t, id, r) && !t.recs[r].working && ToGo(t.recs[r]) == ToGo(s.recs[r])
  {
  }

  /** The turn moves on, or is over. */
  lemma TurnMoves(c: Settings, s: Sys, w: nat, id: ProcessID, r: nat) returns (t: Sys)
    requires Busy(c, s, w, id, r) && c.hasSyncer
    ensures Proceeds(c, s, t) && Terminating(t, id, r)
    ensures if s.workers[w].pc.Ended? then !t.recs[r].working && ToGo(t.recs[r]) == ToGo(s.recs[r])
            else Closer(s, t, w, r) && t.workers[w].id == id
  {
    match s.workers[w].pc {
      case Chosen(_, _, _) =>
        t := PickHook(c, s, w);
        Proceed(c, s, Recheck(w));
        PickMoves(c, s, w, id, r);
      case Calling(_, _, _) =>
        t := CallHook(s, w);
        Proceed(c, s, StartCall(w));
        CallMoves(c, s, w, id, r);
      case InCall(_, _, _, _) =>
        t := ReturnFromHook(s, w, OK);
        Proceed(c, s, EndCall(w, OK));
        ReturnMoves(c, s, w, id, r);
      case Ended(_, _) =>
        t := CompleteWork(s, w, DelayOf(c, s, w, 0.0));
        Proceed(c, s, Complete(w, 0.0));
        CompleteMoves(c, s, w, id, r);
    }
  }

  /** A turn on a terminating process, and what follows, finishes it. */
  lemma {:induction false} BusyFinishes(c: Settings, s: Sys, w: nat, id: ProcessID, r: nat) returns (t: Sys)
    requires Busy(c, s, w, id, r) && c.hasSyncer
    ensures Proceeds(c, s, t) && r in t.recs && t.recs[r].IsFinished()
    decreases ToGo(s.recs[r]), if Detour(s.workers[w].pc) then 1 else 0, Place(s.workers[w].pc)
  {
    var s1 := TurnMoves(c, s, w, id, r);
    ReachableOn(c, s, s1);
    if s1.recs[r].IsFinished() {
      t := s1;
    } else if s.workers[w].pc.Ended? {
      t := RestingFinishes(c, s1, id, r);
      ProceedsOn(c, s, s1, t);
    } else {
      t := BusyFinishes(c, s1, w, id, r);
      ProceedsOn(c, s, s1, t);
    }
  }

  lemma {:induction false} RestingFinishes(c: Settings, s: Sys, id: ProcessID, r: nat) returns (t: Sys)
    requires Reachable(c, s) && c.hasSyncer && Terminating(s, id, r) && !s.recs[r].IsFinished() && !s.recs[r].working
    ensures Proceeds(c, s, t) && r in t.recs && t.recs[r].IsFinished()
    decreases ToGo(s.recs[r]), 0, 4
  {
    RestingBegins(c, s, id);
    var s1, w := TurnCame(c, s, id);
    ReachableOn(c, s, s1);
    BegunIsBusy(c, s, s1, w, id, r);
    t := BusyFinishes(c, s1, w, id, r);
    ProceedsOn(c, s, s1, t);
  }

  lemma TurnCame(c: Settings, s: Sys, id: ProcessID) returns (t: Sys, w: nat)
    requires Live(s, id) && TurnComes(c, s, id)
    ensures Proceeds(c, s, t) && SameStage(s, t, id) && Begun(t, w, s.statuses[id], s.recs[s.statuses[id]].State())
  {
    t, w :| Proceeds(c, s, t) && SameStage(s, t, id) && Begun(t, w, s.statuses[id], s.recs[s.statuses[id]].State());
  }

  /** Records in the same state are as far in their lifecycle. */
  lemma StageTells(x: Status, y: Status)
    requires RecordLife.Lifecycle(x) && RecordLife.Lifecycle(y) && x.State() == y.State()
    ensures x.IsTerminating() == y.IsTerminating() && x.IsFinished() == y.IsFinished() && ToGo(x) == ToGo(y)
    ensures x.IsTerminating() ==> x.State() != Starting && x.State() != Syncing
  {
  }

  lemma StageKept(c: Settings, s: Sys, t: Sys, w: nat, id: ProcessID, r: nat)
    requires Reachable(c, s) && Reachable(c, t)
    requires Terminating(s, id, r) && !s.recs[r].IsFinished() && !s.recs[r].working
    requires SameStage(s, t, id) && TurnOn(t, w, r)
    ensures Terminating(t, id, r) && !t.recs[r].IsFinished() && ToGo(t.recs[r]) == ToGo(s.recs[r])
    ensures s.recs[r].State() != Starting && s.recs[r].State() != Syncing
  {
    RestingLifecycle(c, s, r);
    BusyLifecycle(c, t, w, r);
    StageTells(s.recs[r], t.recs[r]);
  }

  /** The turn that has begun on a terminating process is no detour. */
  lemma BegunIsBusy(c: Settings, s: Sys, t: Sys, w: nat, id: ProcessID, r: nat)
    requires Reachable(c, s) && Reachable(c, t)
    requires Terminating(s, id, r) && !s.recs[r].IsFinished() && !s.recs[r].working
    requires SameStage(s, t, id) && Begun(t, w, r, s.recs[r].State())
    ensures Busy(c, t, w, id, r) && ToGo(t.recs[r]) == ToGo(s.recs[r]) && !Detour(t.workers[w].pc)
  {
    WorkerOf(c, t, w, id, r);
    StageKept(c, s, t, w, id, r);
  }

  lemma WorkerOf(c: Settings, s: Sys, w: nat, id: ProcessID, r: nat)
    requires Reachable(c, s) && TurnOn(s, w, r) && id in s.statuses && s.statuses[id] == r
    ensures s.workers[w].id == id
  {
    ReachableIsSafe(c, s);
  }

  lemma RestingLifecycle(c: Settings, s: Sys, r: nat)
    requires Reachable(c, s) && r in s.recs && !s.recs[r].working
    ensures RecordLife.Lifecycle(s.recs[r])
  {
    ReachableIsSafe(c, s);
    assert RecordLife.Ok(c, ViewOf(s, r, Waiting));
  }

  lemma BusyLifecycle(c: Settings, s: Sys, w: nat, r: nat)
    requires Reachable(c, s) && TurnOn(s, w, r)
    ensures r in s.recs && RecordLife.Lifecycle(s.recs[r])
  {
    ReachableIsSafe(c, s);
    assert RecordLife.Ok(c, ViewOf(s, r, s.workers[w].pc));
  }

  /**
  In every reachable state, a process whose termination has been requested can be finished by the manager left to
  itself, if its hooks succeed.
  */
  lemma TerminationCanFinish(c: Settings, s: Sys, id: ProcessID) returns (t: Sys)
    requires Reachable(c, s) && c.hasSyncer && Live(s, id) && s.recs[s.statuses[id]].IsTerminating()
    ensures Proceeds(c, s, t) && s.statuses[id] in t.recs && t.recs[s.statuses[id]].IsFinished()
  {
    var r := s.statuses[id];
    if s.recs[r].working {
      var w := WorkerOn(c, s, r);
      WorkerOf(c, s, w, id, r);
      t := BusyFinishes(c, s, w, id, r);
    } else {
      t := RestingFinishes(c, s, id, r);
    }
  }

  lemma WorkerOn(c: Settings, s: Sys, r: nat) returns (w: nat)
    requires Reachable(c, s) && r in s.recs && s.recs[r].working
    ensures TurnOn(s, w, r)
  {
    ReachableIsSafe(c, s);
    w :| TurnOn(s, w, r);
  }
}
