# Prism data layer: a verified model

Dafny models of four parts of the Prism data layer, with proofs of what they promise.

1. The process manager (`pkg/procmgr`): a reconciler with one worker per process, a one-slot signal channel, a
   pending/active handover, a delay queue with its own consumer, cancellation contexts and a five-phase lifecycle.
   Every section under the manager's lock is one step of a state machine (`ManagerProtocol.dfy`); what the syncer
   hooks return, when time passes and who moves next are choices of the environment. `NoLostWork.dfy`,
   `ManagerSafety.dfy` and `ManagerTheorems.dfy` hold what is true in every reachable state, `ManagerProgress.dfy` and
   `ManagerLiveness.dfy` what every process comes to or can come to, `RecordHistory.dfy` what each field of a record and
   each update that reaches a hook come from, `Completion.dfy` which completion channels are closed, `RemovalRace.dfy`
   when two calls for a process can be in flight after all. The work queue is modelled on its own as an in-place binary
   heap with back-pointers (`WorkQueue.dfy`), the status record as an object updated in place (`StatusRecord.dfy`).
2. The admin control plane (`cmd/prism-admin`): the replicated state machine on values (`AdminState.dfy`,
   `AdminHistory.dfy`, `AdminRestore.dfy`) and as objects mutated in place, with snapshots (`AdminMachine.dfy`); the
   partition assigner (`Partitions.dfy`, `Shares.dfy`, `PartitionManager.dfy`); and how the two fit together
   (`ControlPlane.dfy`, `StaleOwners.dfy`).
3. The producer and the consumer (`patterns/producer`, `patterns/consumer`): claim checks (`ClaimCheck.dfy`,
   `Placement.dfy`), de-duplication by one publisher (`Dedup.dfy`) and by several at once, over a store with atomic
   accesses (`DedupRace.dfy`) and over the in-memory store (`MemStoreRace.dfy`), retry accounting (`Retry.dfy`), and the
   objects that do it (`Messaging.dfy`).
4. Two small protocols: correlation of responses with commands (`pkg/plugin`, `Correlation.dfy`) and the multicast
   registry (`patterns/multicast_registry`, `Registry.dfy`, `RegistryHistory.dfy` and `FanOut.dfy`).

`dafny verify dfyconfig.toml` takes in the whole project.

## How to read it

Pure code is a function, a step of a concurrent protocol is a function on states, and code that updates fields or
loops is a method of a class or a method with loop invariants. Each such method is proved equal to a function on
values, and the theorems are about those functions. Theorems about runs quantify over every sequence of enabled
events, so over every interleaving.

What is taken as given:

- Runs of the process manager end before `Shutdown`. Time is an input that does not go back. "Disciplined" runs, which
  the theorems on single calls, phases and counters speak of, are those in which `SyncKnownProcesses` removes a finished
  record only when no worker is in a turn on it; `RaceExactly` shows that a single removal of the other kind is enough
  to break them, and `NoWorkIsLost` does without the restriction.
- The replicated log is committed in one order, and a command's payload matches its type.
- CRC32, SHA-256, UTF-8, gzip and JSON are parameters: any hash, a decompressor that undoes the compressor, a codec
  that decodes what it encoded. UUIDs are strings of one length, never drawn twice.
- `proto.Clone` copies a message by merging it into a new one, which makes no map where there are no entries; gob does
  not transmit a nil map. Neither library is part of this model; `Table.Clone` states what is taken from them.
- In `DedupRace` a read or a write of the state store is one step. In `MemStoreRace` only a single operation on one of
  the store's two `sync.Map`s is, together with the reading of the clock that goes with it.
- float64 arithmetic on delays is over `real`; the conversion back to a 64-bit duration keeps its overflow.
- Backends either do what they are asked or fail without effect. `Filter.Matches` is any predicate.

## Where the code and its promises differ

- `ExponentialBackoff` leaves the int64 range from the 34th consecutive failure on; the cap does not catch a negative
  duration, so the retry becomes immediate (`BackoffNonNegativeExactly`).
- A grace period "can only decrease", but zero is stored as a smaller value and then reads as unset, so that a later
  request may raise it (`NeverIncreasesExactly`, `ZeroLetsItGrow`).
- `SyncKnownProcesses` may remove a finished record before its worker has run `completeWork`. If the identifier is then
  created anew, two hook calls can be in flight for it. That is so exactly if a worker is still in a turn on the record
  when it is removed, even if every later removal waits for the worker (`RaceExactly`). Without any later removal it
  also takes a worker of the identifier that is going to be woken (`RaceAtOnceExactly`, `RaceIsReachable`).
- `ValidatePartitionCoverage` fails for a repeated id with up to 256 proxies but passes any list with more than 256, for
  which `GetProxyForPartitionFromSet` divides by zero (`CoverageExactly`, `LookupOutcomes`).
- A join followed by a leave restores the ranges only if the id was new: the leave drops every entry with that id
  (`JoinThenLeaveExactly`).
- The store's time-to-live is the window's whole seconds, so a window of 1.5 s lets a duplicate through after one
  second. Windows under a second have no time-to-live and are kept (`WindowHonouredExactly`).
- The reserved metadata key `prism-claim-check` is not protected: a message that carries it is delivered changed
  (`DeliveredExactly`, `RoundTrip`).
- A replica restored from a snapshot crashes on the first entry that inserts into a table which was empty in the
  snapshot: the table comes back as a nil map. Restoring and replaying agrees with applying the whole log exactly if the
  rest of the log inserts into no such table (`RestoreAndReplayExactly`, `FirstNamespaceCrashes`).
- De-duplication takes no lock between looking an id up and recording it. Of two publishes of an id, the second goes to
  the sink exactly if it looks before the first has recorded, or a window later (`SecondGoesExactly`, `TwinsBothGo`).
- The reset of the retry count after a dead letter is not saved. With auto-commit and a state store that works, the saved
  state is the one in memory exactly if the last outcome was not a dead letter or there was no count to reset
  (`SavedExactly`, `LetterIsNotSaved`). A consumer that restarts then gives up on the very next failure
  (`RestartAfterLetter`).
- "Retrying" a failed message only counts: the loop goes on to the next message. And a letter is dropped when there is no
  dead-letter queue or the queue refuses it. So a failed message is lost exactly if the failures in a row up to it are
  not a multiple of `MaxRetries` + 1, or there is no queue, or the queue refuses it (`LostExactly`). Nothing is ever lost
  exactly if `MaxRetries` is zero and there is a queue that takes every letter (`NothingLostExactly`,
  `LostWithoutQueue`).
- A `CompletedCh` handed in with a termination request may never be closed although the process stops: another update
  replaces the request before a worker gets to it, or the one SyncTerminatingProcess call that is made for it fails, and
  the retry has no options. `ClosedExactly` says which channels are closed; `ReplacedIsNotClosed` and
  `FailureIsNotClosed` show both ways to lose one.
- The proxy stored with a namespace is not updated when proxies join, while the ranges are. It is the one that serves the
  namespace exactly if the partition's position has moved up by the number of newcomers that sort before it
  (`StoredServesExactly`, `SecondProxyTakesOver`); every join moves some partition (`JoinMovesSome`).
- The in-memory store deletes an expired entry some time after it has looked at it, and may delete a record that was
  stored in between. The background sweep can thereby let a duplicate through although no two publishes overlap
  (`SweepLetsThrough`). For a window the store honours nothing else can, but overlapping publishes
  (`MemStoreRace.DuplicatesOverlap`).
- A message without an id is known by the hash of its topic followed by its payload, with nothing in between: topic "ab"
  with payload "c" is a duplicate of topic "a" with payload "bc" (`TopicRunsIntoPayload`).
- A claim redeemed with delete-after-read cannot be redeemed again, so a message that is delivered twice fails the second
  time (`RoundTripWithDeletes`).

## Model

| member | source | states |
|---|---|---|
| `NoLostWork.StepKeeps` | pkg/procmgr/manager.go:37-290 | every step of the protocol, removals included, keeps: a tracked unfinished process is being served, or has an update pending with a signal buffered, taken or about to be sent, or is queued, or is held by the queue consumer; and the worker listening for it has not exited |
| `NoLostWork.RunKeeps` | pkg/procmgr/manager.go:158-290 | the same over any run from any state that satisfies it |
| `NoLostWork.NoWorkIsLost` | pkg/procmgr/manager.go:63-83 | no lost work in any state of any run of a fresh manager, with no assumption on when records are removed |
| `RecordLife.LegalIsInOrder` | pkg/procmgr/manager.go:293-466 | the phase automaton of a record accepts exactly the call sequences SyncProcess*, failed Terminating*, one successful Terminating, failed Terminated*, one successful Terminated, and their prefixes |
| `RecordLife.InOrderIsLegal` | pkg/procmgr/manager.go:293-466 | the converse direction: every sequence of that form is legal |
| `RecordLife.AcceptedOk` | pkg/procmgr/manager.go:53-64 | accepting an update or termination request keeps the record consistent with its history of calls, grace requests, counters and context |
| `RecordLife.BegunOk` | pkg/procmgr/manager.go:262-281 | so does starting a turn, whether the context is reused or replaced |
| `RecordLife.PickedOk` | pkg/procmgr/manager.go:293-325 | so does the IsTerminating re-check and the choice of hook |
| `RecordLife.CalledOk` | pkg/procmgr/manager.go:328-331 | so does the hook call, which takes the record's context as it then is |
| `RecordLife.ReturnedOk` | pkg/procmgr/manager.go:339-466 | so does the return of any hook with any outcome: timestamps, counters, completion channel and default grace move as the phase demands |
| `RecordLife.ClosedOk` | pkg/procmgr/manager.go:469-510 | so does the end of the turn in completeWork |
| `RecordLife.PendingOk` | pkg/procmgr/manager.go:188-202 | so does the queue consumer re-arming a pending update |
| `ManagerSafety.StepSafe` | pkg/procmgr/manager.go:37-290 | every disciplined step keeps: a record has at most one worker in a turn on it, is marked working exactly then, and is consistent with its history; contexts are not shared |
| `ManagerSafety.StepHeld` | pkg/procmgr/manager.go:241-290 | every step keeps: a record is marked working only while some worker is in a turn on it |
| `ManagerSafety.RemovalSafe` | pkg/procmgr/manager.go:653-661 | removing a record that no worker is in a turn on keeps all of that |
| `ManagerTheorems.RunSafe` | pkg/procmgr/manager.go:37-548 | the invariants hold along every disciplined run |
| `ManagerTheorems.OneCallAtATime` | pkg/procmgr/manager.go:241-290 | in every reachable state at most one hook call is in flight for a process |
| `ManagerTheorems.CallsInOrder` | pkg/procmgr/manager.go:293-466 | in every reachable state the calls made for a record have the promised order |
| `ManagerTheorems.CallInFlightInOrder` | pkg/procmgr/manager.go:293-466 | the call in flight fits that order too, however it ends |
| `ManagerTheorems.CompletionClosedOnce` | pkg/procmgr/manager.go:377-431 | a record closes at most one completion channel, once, and only after its process has terminated |
| `Completion.StepMoves` | pkg/procmgr/manager.go:37-510 | every step moves a completion channel as its update goes: from the record to the worker that begins a turn, to closed or dropped when the worker is through, to dropped when the update is replaced; nothing else touches it |
| `Completion.ClosedExactly` | pkg/procmgr/manager.go:377-431 | over every run, removals unrestricted: a channel handed in once is closed iff the manager takes the update, a turn picks it up before anything replaces it, and the hook call of that very turn is a successful SyncTerminatingProcess |
| `Completion.UnseenStays` | pkg/procmgr/manager.go:409-412 | a channel that nobody hands in is never closed |
| `Completion.ReplacedIsNotClosed` | pkg/procmgr/manager.go:57-64 | two requests in a row: the process finishes, and the channel of the first is not closed |
| `Completion.FailureIsNotClosed` | pkg/procmgr/manager.go:395-412 | one failure of SyncTerminatingProcess, in any reachable state: the process finishes on a retry, and the channel is not closed |
| `Completion.RequestIsCalled` | pkg/procmgr/manager.go:377-390 | a fresh manager gets to such a call |
| `ManagerTheorems.SyncContextCancelled` | pkg/procmgr/manager.go:87-127 | once SyncProcess is chosen, the context the call has or will get is cancelled if and only if termination has been requested, also when the request lands between the re-check and the call |
| `ManagerTheorems.TimestampsNested` | pkg/procmgr/types.go:169-198 | finished implies terminated implies terminating, in every reachable state |
| `ManagerTheorems.CountersAgree` | pkg/procmgr/manager.go:469-510 | for an idle unfinished record, errorCount and consecutiveFails both equal the failed calls since the last success |
| `ManagerTheorems.GraceIsHistory` | pkg/procmgr/manager.go:87-120 | the stored grace period is what the record's termination requests leave behind in order |
| `ManagerTheorems.EnqueuedDelays` | pkg/procmgr/manager.go:486-528 | over every disciplined run, with a syncer or without, completeWork makes an unfinished process due after a delay in the bounds of its case, or when it was due before if that is earlier: a tenth around the resync interval after a success, at once when the terminated phase is due, half a second around one second after an interruption, a quarter around min(2^n s, backOffPeriod) after the n-th failure in a row, n up to 33; with a syncer n is the trailing failed calls |
| `RecordHistory.StepExplains` | pkg/procmgr/manager.go:37-510 | every step, removals unrestricted, keeps each record and each worker on it explained by what has happened to the record |
| `RecordHistory.FieldsAreHistory` | pkg/procmgr/manager.go:87-466 | after every run: started and synced are the times of the first and the last successful SyncProcess, terminating that of the last terminal result or else of the first request, terminated and finished those of the hooks that succeeded; evicted, last error, error count, consecutive failures and the working mark are what the history of requests, calls and turns says |
| `RecordHistory.CallsCarry` | pkg/procmgr/manager.go:262-331 | over every run, the type and configuration that a worker carries to its hook are those that the history of the record gives its turn |
| `RecordHistory.CarriesAccepted` | pkg/procmgr/manager.go:53-64 | which are those of the update accepted last before the turn began, if no turn began and none stopped the process since |
| `RecordHistory.CarriesOn` | pkg/procmgr/manager.go:188-202 | a sync with the configuration of the turn before, if no update was accepted since that began |
| `RecordHistory.CarriesStopped` | pkg/procmgr/manager.go:414-422 | and, after a SyncTerminatingProcess has succeeded, a sync with its configuration, whatever was accepted while it was under way |
| `RecordHistory.HealthyExactly` | pkg/procmgr/types.go:200-203 | a process is healthy iff a SyncProcess has succeeded, nothing has asked it to stop, and fewer than five calls have failed since the last success |
| `RecordHistory.ReportIsHistory` | pkg/procmgr/manager.go:664-678 | every field that SyncKnownProcesses reports, in terms of the history |
| `ManagerProgress.StepLater` | pkg/procmgr/types.go:169-183 | no step lowers the State() rank of a record or drops anything from its histories |
| `ManagerProgress.RunLater` | pkg/procmgr/types.go:169-183 | nor does any run |
| `ManagerProgress.TerminationIsBounded` | pkg/procmgr/manager.go:377-466 | from any reachable state in which termination is requested, along any continuation: once k calls have failed and k + 3 have ended, the process has finished |
| `ManagerLiveness.AlwaysATurn` | pkg/procmgr/manager.go:158-290 | in every reachable state, for every unfinished process, a worker is in a turn on it, or worker, consumer and clock steps alone lead to the beginning of one, on the same record in the same state |
| `ManagerLiveness.TerminationCanFinish` | pkg/procmgr/manager.go:377-510 | from every reachable state a process whose termination has been requested can be finished by worker, consumer and clock steps alone, if its hooks succeed |
| `GracePeriods.NeverIncreasesExactly` | pkg/procmgr/manager.go:87-120 | a grace period that has been set stays set and never increases, if and only if no explicit zero meets a positive stored value |
| `GracePeriods.ZeroLetsItGrow` | pkg/procmgr/manager.go:97-110 | a concrete run of requests that raises a grace period |
| `GracePeriods.GraceIsMinimum` | pkg/procmgr/manager.go:359-365 | without explicit zeros the stored value is the least of those that took effect, the default counting only when it came first |
| `GracePeriods.GraceOverRuns` | pkg/procmgr/manager.go:87-120 | the same for every record over every run and continuation |
| `RemovalRace.RaceExactly` | pkg/procmgr/manager.go:638-681 | in every reachable state, removing a finished record can lead to two calls in flight for its process, all later removals being disciplined, if and only if a worker is still in a turn on the record (and the manager has a syncer) |
| `RemovalRace.RaceAtOnceExactly` | pkg/procmgr/manager.go:638-681 | it can do so without any later removal if and only if, besides, some worker of the identifier that has not exited has been woken, has a signal buffered or is about to be sent one |
| `RemovalRace.RaceIsReachable` | pkg/procmgr/manager.go:638-681 | a fresh manager gets to a state in which one such removal, and no other, leads to two calls in flight |
| `KnownProcesses.SyncKnownProcesses` | pkg/procmgr/manager.go:638-681 | the loop, in whatever order the map yields, removes exactly the finished undesired records, requests termination of exactly the live undesired ones and cancels exactly their contexts, reports every other live process with state, health, last sync, errors and restart count as they then are, and is a sequence of protocol steps |
| `Backoff.CappedDelayIsMin` | pkg/procmgr/workqueue.go:183-195 | while base * 2^attempt is below 2^63 the unjittered delay is the minimum of it and the cap |
| `Backoff.JitterBounds` | pkg/procmgr/workqueue.go:161-176 | a jittered duration is non-negative and within the fraction, clamped to one, on either side, truncation included |
| `Backoff.OneSecondFits` | pkg/procmgr/workqueue.go:183-199 | one second times 2^n fits an int64 exactly up to n = 33 |
| `Backoff.RequeueDelayBounds` | pkg/procmgr/manager.go:486-528 | the delay of each case lies within the bounds of that case on both sides, truncation included, and every delay between 0 and max(1.5 s, 1.25 backOffPeriod, 1.1 resyncInterval), up to 33 consecutive failures |
| `Backoff.BackoffNonNegativeExactly` | pkg/procmgr/workqueue.go:183-199 | the backoff is non-negative for every draw and platform if and only if there were at most 33 failures |
| `HeapOrder.SwapUp` | pkg/procmgr/workqueue.go:46-73 | one round of sifting up moves the only place where the heap order can fail to the parent |
| `HeapOrder.SwapDown` | pkg/procmgr/workqueue.go:46-73 | one round of sifting down moves it to the least child |
| `HeapOrder.RootIsLeast` | pkg/procmgr/workqueue.go:46-57 | in a heap no time is before the first |
| `WorkQueue.WorkQueue.Swap` | pkg/procmgr/workqueue.go:53-57 | exchanges two items and keeps every back-pointer right |
| `WorkQueue.WorkQueue.Up` | pkg/procmgr/workqueue.go:46-73 | sifting up restores the heap order and keeps items and back-pointers |
| `WorkQueue.WorkQueue.Down` | pkg/procmgr/workqueue.go:46-73 | sifting down does so for a prefix, leaves the rest alone, and reports whether anything moved |
| `WorkQueue.WorkQueue.Fix` | pkg/procmgr/workqueue.go:88-114 | restores the heap order after one item's time was lowered |
| `WorkQueue.WorkQueue.Push` | pkg/procmgr/workqueue.go:59-63 | adds an item, keeping heap order and back-pointers |
| `WorkQueue.WorkQueue.Pop` | pkg/procmgr/workqueue.go:65-73 | removes the first item, clears its back-pointer, keeps heap order and the other back-pointers |
| `WorkQueue.WorkQueue.Enqueue` | pkg/procmgr/workqueue.go:88-114 | makes the identifier due at now + delay, or when it was due if that is earlier, and moves nothing else; heap order, back-pointers and unique identifiers are kept; the notification is left pending |
| `WorkQueue.WorkQueue.Dequeue` | pkg/procmgr/workqueue.go:117-136 | returns an identifier with the least ready time if and only if some ready time has come, and removes just that entry of the map |
| `StatusRecord.ProcessStatus.HandleTerminationRequest` | pkg/procmgr/manager.go:87-127 | in-place update of the record and cancellation of its context, equal to the step the protocol makes |
| `StatusRecord.ProcessStatus.SubmitUpdate` | pkg/procmgr/manager.go:53-64 | the same for an accepted update |
| `StatusRecord.ProcessStatus.Begin` | pkg/procmgr/manager.go:262-279 | the same for starting a turn: pending becomes active, and a cancelled context is replaced by a fresh one |
| `StatusRecord.ProcessStatus.FinishSync` | pkg/procmgr/manager.go:328-374 | the same for a returned SyncProcess, terminal or not |
| `StatusRecord.ProcessStatus.FinishTerminating` | pkg/procmgr/manager.go:377-431 | the same for a returned SyncTerminatingProcess |
| `StatusRecord.ProcessStatus.FinishTerminated` | pkg/procmgr/manager.go:434-466 | the same for a returned SyncTerminatedProcess |
| `StatusRecord.ProcessStatus.CompleteWork` | pkg/procmgr/manager.go:469-510 | the same for the end of a turn |
| `StatusRecord.ProcessStatus.MakePending` | pkg/procmgr/manager.go:188-202 | the same for the consumer re-arming an update |
| `AdminReplication.ApplyAgrees` | cmd/prism-admin/fsm.go:71-135 | one committed entry, applied to states that differ only in fields read from a clock while applying, leaves them so; times of last contact that a heartbeat brought are equal |
| `AdminReplication.ReplicasAgree` | cmd/prism-admin/fsm.go:71-135 | replicas applying the same log agree on everything but such fields, whatever their clocks show |
| `AdminReplication.ReplaySplit` | cmd/prism-admin/fsm.go:71-135 | a log can be cut anywhere |
| `AdminReplication.ValuesAgree` | cmd/prism-admin/fsm.go:140-202 | the value of a snapshot of any prefix, replayed over the rest, agrees with applying the whole log |
| `AdminRestore.MadeNeverPanics` | cmd/prism-admin/fsm.go:47-61 | a machine that starts with all its maps made applies any log without a panic |
| `AdminRestore.SurvivesExactly` | cmd/prism-admin/fsm.go:225-237 | a machine some of whose empty maps are nil crashes iff some entry of the log inserts into one of them, and otherwise applies the log as usual |
| `AdminRestore.RestoreAndReplayExactly` | cmd/prism-admin/fsm.go:140-202 | restoring a snapshot of any prefix and replaying the rest agrees with applying the whole log iff the rest inserts into no table that was empty in the snapshot; otherwise the replica crashes |
| `AdminRestore.FirstNamespaceCrashes` | cmd/prism-admin/fsm.go:211-237 | a concrete log: one proxy, a snapshot, and the first namespace |
| `AdminReplication.ApplyTwice` | cmd/prism-admin/fsm.go:71-135 | applying a command twice in a row is applying it once, applied index and clock-read fields of the entries it writes apart |
| `AdminHistory.NamespaceHistory` | cmd/prism-admin/fsm.go:211-266 | for every log, a namespace exists iff it was created, takes name, partition, creator and creation time from its first creation, and configuration and proxy from its last |
| `AdminHistory.ProxyHistory` | cmd/prism-admin/fsm.go:271-340 | a proxy takes region and registration time from its first registration, address, version, capabilities and metadata from its last, health and last contact from the last registration or heartbeat, resources from the last heartbeat that carried any |
| `AdminHistory.LauncherHistory` | cmd/prism-admin/fsm.go:345-424 | the same for launchers, but for free slots |
| `AdminHistory.PatternHistory` | cmd/prism-admin/fsm.go:428-469 | a pattern takes namespace and type from its first assignment, launcher and configuration from its last |
| `AdminHistory.HeaderHistory` | cmd/prism-admin/fsm.go:71-100 | applied index, term and time are those of the last entry that could be decoded, failing or not |
| `AdminHistory.ErrorsExactly` | cmd/prism-admin/fsm.go:472-518 | after any log a command fails iff it is a heartbeat of a proxy or launcher that no entry registered, or of an unknown type |
| `AdminSlots.PatternsAreAssigned` | cmd/prism-admin/fsm.go:428-469 | exactly the patterns that some command assigned are stored |
| `AdminSlots.LaunchersAreRegistered` | cmd/prism-admin/fsm.go:345-424 | exactly the launchers that some command registered are stored |
| `AdminSlots.SlotsAccounted` | cmd/prism-admin/fsm.go:428-518 | free slots are those of the last registration or heartbeat less the first-time assignments since, not below zero; a negative report stays |
| `EntryTable.Table.Put` | cmd/prism-admin/fsm.go:211-266 | mutates the entry a name points to, or inserts one, which fails if the map is nil; no other entry changes |
| `EntryTable.Table.Clone` | cmd/prism-admin/fsm.go:145-151 | a copy with the same contents that shares no entry; merged as by protobuf it is nil iff there is nothing in it, encoded as by gob iff the original is |
| `AdminMachine.StateObject.CreateNamespace` | cmd/prism-admin/fsm.go:211-266 | the handler, in place, is the value-level one, or panics without effect on a nil map |
| `AdminMachine.StateObject.RegisterProxy` | cmd/prism-admin/fsm.go:271-340 | the handler, in place, is the value-level one, or panics without effect on a nil map |
| `AdminMachine.StateObject.RegisterLauncher` | cmd/prism-admin/fsm.go:345-424 | the handler, in place, is the value-level one, or panics without effect on a nil map |
| `AdminMachine.StateObject.AssignPattern` | cmd/prism-admin/fsm.go:428-469 | the handler, in place on two tables, is the value-level one, or panics without effect on a nil map |
| `AdminMachine.StateObject.UpdateProxyStatus` | cmd/prism-admin/fsm.go:472-493 | the handler, in place, is the value-level one; fails without effect for an unregistered proxy |
| `AdminMachine.StateObject.UpdateLauncherStatus` | cmd/prism-admin/fsm.go:496-518 | the handler, in place, is the value-level one; fails without effect for an unregistered launcher |
| `AdminMachine.StateObject.Clone` | cmd/prism-admin/fsm.go:145-151 | a deep copy: equal value, no shared object; which of its maps are nil is what merging or encoding makes of them |
| `AdminMachine.AdminStateMachine.Apply` | cmd/prism-admin/fsm.go:71-135 | in place, the value-level Apply, with its error or panic; undecodable data changes nothing, a failing handler still moves the applied index |
| `AdminMachine.AdminStateMachine.Snapshot` | cmd/prism-admin/fsm.go:140-166 | a snapshot with the machine's value, index and term, made of new objects only, with empty maps nil |
| `AdminMachine.AdminStateMachine.Restore` | cmd/prism-admin/fsm.go:170-202 | the machine takes over the snapshot's value in objects of its own, nil maps staying nil |
| `AdminMachine.AdminStateMachine.ApplyAll` | cmd/prism-admin/fsm.go:71-135 | applying entries one by one is the value-level replay, up to the first panic |
| `AdminMachine.SnapshotThenApply` | cmd/prism-admin/fsm.go:140-166 | a snapshot keeps its value while the machine goes on applying entries in place |
| `AdminMachine.RestoreThenApply` | cmd/prism-admin/fsm.go:170-202 | a new machine restored from a snapshot continues from its value, up to the first panic |
| `AdminMachine.Recover` | cmd/prism-admin/fsm.go:140-202 | a replica that restores a mid-log snapshot and replays the rest by its own clock has crashed iff the rest inserts into a table that was empty, and otherwise agrees with the replica that took the snapshot |
| `SortedStrings.SortedIsUnique` | cmd/prism-admin/partition_manager.go:57-62 | there is one sorted slice of given ids, so the sort used does not matter |
| `SortedStrings.SortOfSameSet` | cmd/prism-admin/partition_manager.go:57-62 | distinct ids in any order sort to the same slice |
| `Partitions.HashNamespace` | cmd/prism-admin/partition_manager.go:31-34 | the hash is a partition |
| `Partitions.SamePartitionExactly` | cmd/prism-admin/partition_manager.go:31-34 | two names share a partition iff their checksums differ by a multiple of 256, and a checksum below 256 is the partition |
| `Partitions.RangeInvertsLookup` | cmd/prism-admin/partition_manager.go:78-94 | with at most 256 proxies a partition is in the range of the i-th iff the lookup computes i |
| `Partitions.OnePosition` | cmd/prism-admin/partition_manager.go:78-94 | for any number of proxies every partition is in the range of exactly one position |
| `Shares.SharesExactly` | cmd/prism-admin/partition_manager.go:78-94 | with n distinct ids, 1 to 256, and k the largest number with k * n <= 256, every proxy but the last in sorted order holds k partitions and the last the other 256 - (n - 1) * k, counted by who holds them |
| `Shares.SharesInOrder` | cmd/prism-admin/partition_manager.go:57-94 | a proxy that sorts earlier holds only smaller partitions |
| `Partitions.RangesMatchLookup` | cmd/prism-admin/partition_manager.go:102-137 | for 1 to 256 distinct ids in any order: a partition is in a proxy's range iff the lookup names that proxy, and both range computations agree |
| `Partitions.RangesMatchHolder` | cmd/prism-admin/partition_manager.go:46-95 | for any number of distinct ids: a partition is in a proxy's range iff that proxy is the one holder of it |
| `Partitions.HolderIsOwner` | cmd/prism-admin/partition_manager.go:102-137 | the holder is a registered proxy, and with at most 256 ids it is the one the lookup names |
| `Partitions.LookupOutcomes` | cmd/prism-admin/partition_manager.go:102-137 | the lookup names a registered proxy iff there are 1 to 256 ids and the partition is valid; it divides by zero iff there are more |
| `Partitions.OnlyTheSetMatters` | cmd/prism-admin/partition_manager.go:46-182 | ranges and lookups of distinct ids do not depend on their order |
| `Partitions.RangesNeverOverlap` | cmd/prism-admin/partition_manager.go:143-182 | computed ranges never overlap, repeated ids or not |
| `Partitions.RepeatLeavesGap` | cmd/prism-admin/partition_manager.go:166-179 | a repeated id leaves a partition uncovered |
| `Partitions.CoverageExactly` | cmd/prism-admin/partition_manager.go:143-182 | all partitions are covered iff there are proxies and either no id is repeated or there are more than 256 |
| `Partitions.JoinThenLeaveExactly` | cmd/prism-admin/partition_manager.go:189-230 | a join followed by a leave of the same id restores all ranges iff the id was new |
| `PartitionManager.ComputeRangesFromProxySet` | cmd/prism-admin/partition_manager.go:46-95 | the loops compute the range of the target's position in the sorted ids, or none |
| `PartitionManager.GetProxyForPartitionFromSet` | cmd/prism-admin/partition_manager.go:102-137 | computes the owner, or the error, or the division by zero |
| `PartitionManager.ComputeAllRanges` | cmd/prism-admin/partition_manager.go:143-182 | computes the map from id to range |
| `PartitionManager.RebalanceOnProxyJoin` | cmd/prism-admin/partition_manager.go:189-207 | returns the ranges without and with the new id |
| `PartitionManager.RebalanceOnProxyLeave` | cmd/prism-admin/partition_manager.go:211-230 | returns the ranges with and without every entry of the leaving id |
| `PartitionManager.CheckCoverage` | cmd/prism-admin/partition_manager.go:267-289 | the bitmap loop succeeds iff every partition is in exactly one range, and its error names a real overlap or gap |
| `PartitionManager.ValidatePartitionCoverage` | cmd/prism-admin/partition_manager.go:258-290 | succeeds iff there are proxies and either the ids are distinct or there are more than 256; never reports an overlap |
| `ControlPlane.ApplyKeepsFiled` | cmd/prism-admin/fsm.go:211-237 | an entry issued by the service keeps every namespace filed under its name with the hash of its name as partition |
| `ControlPlane.ReachableIsFiled` | cmd/prism-admin/control_plane_raft.go:162-194 | so in every reachable state PartitionId is the hash of the name |
| `ControlPlane.GetAllProxies` | cmd/prism-admin/fsm.go:543-552 | lists each entry of the map once |
| `ControlPlane.CreateNamespace` | cmd/prism-admin/control_plane_raft.go:147-194 | builds the same command whatever order the map was read in, and succeeds iff there are 1 to 256 proxies |
| `ControlPlane.GetNamespacesForRanges` | cmd/prism-admin/control_plane_raft.go:502-529 | one assignment for each namespace whose partition falls into one of the ranges, and no other |
| `ControlPlane.OneProxyServes` | cmd/prism-admin/control_plane_raft.go:487-529 | however many proxies there are, every namespace is handed to exactly one registered proxy, which with at most 256 is the one getProxyForPartition names |
| `ControlPlane.InitialNamespaces` | cmd/prism-admin/control_plane_raft.go:132-143 | a proxy, registered or not, with any number of proxies, is told its ranges and exactly the namespaces whose partition it holds, each once |
| `StaleOwners.HolderKeptExactly` | cmd/prism-admin/partition_manager.go:46-95 | when proxies join, a partition keeps its holder iff its position moves up by the number of newcomers that sort before the holder |
| `StaleOwners.JoinMovesSome` | cmd/prism-admin/partition_manager.go:189-207 | every join, up to the 256th proxy, moves some partition to the newcomer |
| `StaleOwners.ProxiesStay` | cmd/prism-admin/fsm.go:271-340 | no log entry takes a proxy out of the state |
| `StaleOwners.StoredServesExactly` | cmd/prism-admin/control_plane_raft.go:147-194 | for every log and namespace, whatever the delay between lookup and commit: the stored proxy is the one whose range holds the namespace iff, since the lookup, the position has moved up by the number of newcomers that sort before it |
| `StaleOwners.SecondProxyTakesOver` | cmd/prism-admin/fsm.go:211-237 | a concrete log: a proxy, a namespace in the upper half, a second proxy |
| `StaleOwners.ToldExactly` | cmd/prism-admin/control_plane_raft.go:502-529 | what a proxy is told about a namespace is the configuration of the last request to create it, the hash of its name, and version one |
| `ClaimCheck.UnpackInvertsPack` | patterns/producer/producer.go:443-454 | whatever the configured algorithm, supported or not, the consumer unpacks what the producer packed |
| `ClaimCheck.KeysDiffer` | patterns/producer/producer.go:457-458 | two claims never share an object key, whatever slashes topics hold |
| `ClaimCheck.DeliveredExactly` | patterns/consumer/consumer.go:238-292 | a message whose object is in place reaches the processor with its payload and metadata iff it does not misuse the reserved key; a claim is always redeemed with the right payload |
| `ClaimCheck.ObjectsStay` | patterns/producer/producer.go:436-463 | after any sequence of publishes every stored payload is still there |
| `ClaimCheck.SinkIs` | patterns/producer/producer.go:343-400 | the sink holds exactly one message for each publish that succeeded, in order |
| `ClaimCheck.RoundTrip` | patterns/producer/producer.go:343-511 | after any sequence of publishes, with failing uploads and sinks, each message in the sink is delivered as it was published iff it does not misuse the reserved key; inline, compressed or uncompressed |
| `Placement.ObjectsExactly` | patterns/producer/producer.go:418-463 | after any sequence of publishes the object store holds an object exactly for each payload over the threshold that it took, named by bucket, producer, topic and claim id |
| `Placement.ContentsExactly` | patterns/producer/producer.go:443-463 | and what it holds is the payload, gzipped iff that is asked for and works |
| `Placement.CarriedExactly` | patterns/producer/producer.go:343-511 | a message in the sink carries its payload and metadata if it is not over the threshold, and otherwise a claim with its place, size, checksum, compression, content type and expiry |
| `Placement.OnlyThePublished` | patterns/consumer/consumer.go:253-292 | whatever the object store holds by then, a claim is redeemed only for a payload with the published hash |
| `Placement.RejectedExactly` | patterns/consumer/consumer.go:253-292 | a published claim is redeemed, or rejected as missing, not decompressible or mismatched, exactly as what is found in its place says |
| `Placement.RetriesExactly` | patterns/producer/producer.go:362-389 | a sink that refuses k times and then accepts gets the message iff MaxRetries is at least k |
| `Placement.CountersExactly` | patterns/producer/producer.go:343-420 | published, failed and refused by the object store add up to the publishes, and published is the length of the sink |
| `ClaimCheck.RoundTripWithDeletes` | patterns/consumer/consumer.go:253-292 | the same when any of the stored objects have been read and deleted: delivered as published iff, besides, its own object has not been; a claim on a deleted object fails as missing |
| `ClaimCheck.ClaimedIsOwn` | patterns/consumer/consumer.go:253-292 | what redeeming a claim deletes is the object its own publish uploaded |
| `Dedup.LastIsRemembered` | pkg/drivers/memstore/memstore.go:143-193 | the store holds the last record written under an id, unless it has expired by the time of a later attempt, whether a read or the background sweep removed it |
| `Dedup.SkippedIsRecent` | patterns/producer/producer.go:587-612 | whatever the window, the sweeps and the failures of the store, a message is skipped only if its id was recorded within the window |
| `Dedup.RecentIsSkipped` | patterns/producer/producer.go:587-631 | for a window the store honours, a message whose id was recorded within the window is skipped, if the store can be read |
| `Dedup.DuplicatesAreApart` | patterns/producer/producer.go:189-231 | two messages with one id reach the sink only if a full window lies between the earlier record and the later duplicate check |
| `Dedup.FractionalWindowLeaks` | patterns/producer/producer.go:628-630 | every window over a second that is not whole seconds (or one nanosecond more) lets a duplicate through early |
| `Dedup.WindowHonouredExactly` | patterns/producer/producer.go:587-631 | skipping agrees with the window on every run, with sweeps and failing reads and writes, iff the window is under a second, whole seconds, or one nanosecond more |
| `DedupRace.SkipsExactly` | patterns/producer/producer.go:587-612 | for a store with atomic accesses, over every interleaving of the accesses of concurrent publishers, sweeps and failures included, a check finds a duplicate iff the store can be read and the record last written under the id is less than a window old |
| `DedupRace.SecondGoesExactly` | patterns/producer/producer.go:189-232 | for such a store, of two publishes of an id the second goes to the sink iff it is checked before the first is recorded, or a window later |
| `DedupRace.DuplicatesOverlap` | patterns/producer/producer.go:189-232 | a message goes to the sink within a window of the record of an earlier one with its id only if two publishes of the id overlap |
| `DedupRace.TwinsBothGo` | patterns/producer/producer.go:189-232 | two concurrent publishes of one message that both reach the sink, whatever the window |
| `DedupRace.SequentialIs` | patterns/producer/producer.go:587-631 | publishes one after another leave the store as Dedup has it |
| `MemStoreRace.FoundExactly` | pkg/drivers/memstore/memstore.go:177-193 | over every interleaving of single map operations, a load finds a duplicate iff the last operation on the payload stored one, less than a window ago |
| `MemStoreRace.SecondGoesExactly` | pkg/drivers/memstore/memstore.go:143-193 | of two publishes of an id the second goes on iff it decides before the first has stored its payload, or a window later; the deletions of reads and of the sweep make no difference |
| `MemStoreRace.DuplicatesOverlap` | pkg/drivers/memstore/memstore.go:143-193 | a message goes to the sink within a window of the stored payload of another with its id only if two visits to the key overlap, two publishes or a publish and the sweep |
| `MemStoreRace.SweepLetsThrough` | pkg/drivers/memstore/memstore.go:218-247 | a run in which no two publishes overlap and the sweep deletes a record just stored, so that a duplicate goes through at once |
| `MemStoreRace.ReadIs` | pkg/drivers/memstore/memstore.go:177-193 | a read that nobody interrupts gives the answer and has the effect that Dedup has it give and have |
| `MemStoreRace.WriteIs` | pkg/drivers/memstore/memstore.go:143-173 | so does a write |
| `Retry.OffsetCounts` | patterns/consumer/consumer.go:220-225 | the offset grows by exactly the number of successes |
| `Retry.LastMessageIs` | patterns/consumer/consumer.go:220-225 | the last message is the one that succeeded last, or the one carried in |
| `Retry.RetryCountIs` | patterns/consumer/consumer.go:202-226 | the retry count is the trailing failures, the carried-in count included, modulo MaxRetries + 1; a carried-in count above the limit acts as the limit |
| `Retry.DeadLettersExactly` | patterns/consumer/consumer.go:330-343 | a dead letter is attempted exactly at each (MaxRetries + 1)-th consecutive failure |
| `Retry.SavedKeepsUp` | patterns/consumer/consumer.go:193-233 | with auto-commit and a store that works the saved offset and last message are those in memory, and so is the whole state unless the last outcome was a dead letter |
| `Retry.SavedIsLastCommitted` | patterns/consumer/consumer.go:202-232 | whatever the settings and the failures of the store, the saved state is the one in memory as it was after the last outcome that was committed: a success with auto-commit or a failure with retries left, taken by the store |
| `Retry.NothingCommitted` | patterns/consumer/consumer.go:202-232 | and unchanged if none was |
| `Retry.SavedExactly` | patterns/consumer/consumer.go:193-233 | with auto-commit and a store that works, the saved state is the one in memory iff the last outcome was not a dead letter, or there are no retries and the count carried in was zero or something has succeeded |
| `Retry.RestartAfterLetter` | patterns/consumer/consumer.go:202-219 | with auto-commit, a store that works and retries configured, a consumer restarted after a dead letter sends the very next failure to the dead letters, where one that went on would not |
| `Retry.LetterIsNotSaved` | patterns/consumer/consumer.go:202-219 | one retry and two failures: the count is zero in memory and one in the store |
| `Retry.LettersAreFew` | patterns/consumer/consumer.go:202-219 | of every MaxRetries + 1 failures at most one is given up on, and so offered to the dead letters |
| `Messaging.Producer.CreateClaimCheck` | patterns/producer/producer.go:436-511 | uploads the packed payload and returns the claim, or fails without effect |
| `Messaging.Producer.Send` | patterns/producer/producer.go:362-389 | the retry loop puts the message into the sink exactly once iff one of MaxRetries + 1 attempts is accepted |
| `Messaging.Producer.PublishMessage` | patterns/producer/producer.go:343-420 | object store, sink and counters change as the value-level publish says |
| `Messaging.Producer.IsDuplicate` | patterns/producer/producer.go:587-612 | the duplicate check, with the store's purge of an expired record; no answer if the store cannot be read |
| `Messaging.Producer.PublishWithID` | patterns/producer/producer.go:189-232 | a duplicate changes nothing but a counter, a failing check nothing; anything else is published, and recorded only if it reached the sink and the store takes the record |
| `Messaging.SameIdExactly` | patterns/producer/producer.go:581-584 | for a hash that tells them apart, the filter takes two calls for one message iff their explicit ids are equal or, without ids, topic followed by payload is the same |
| `Messaging.TopicRunsIntoPayload` | patterns/producer/producer.go:581-584 | a topic that runs into the payload: two different messages with one id |
| `Messaging.PublishAll` | patterns/producer/producer.go:189-232 | over any sequence of calls on a fresh filter, with sweeps and failing reads and writes, exactly the attempts that Dedup skips are reported as duplicates and exactly those it sends are published; for a window the store honours, a call is a duplicate iff the store can be read and an earlier call with the same message was recorded within the window |
| `Messaging.Consumer.ResolveClaimCheck` | patterns/consumer/consumer.go:253-292 | rewrites the message in place to what the claim stands for and, if so configured, has the object deleted; or leaves everything alone and returns the error |
| `Messaging.Consumer.ProcessMessage` | patterns/consumer/consumer.go:238-250 | succeeds iff the claim, if any, resolves and the processor accepts this message |
| `Messaging.Consumer.Handle` | patterns/consumer/consumer.go:202-232 | state, saved state, dead-letter queue and deletions after one message, whether or not the state store and the queue take what they are given |
| `Messaging.Consumer.Consume` | patterns/consumer/consumer.go:193-235 | the loop folds the outcomes of all messages into state, saved state, dead letters and deletions |
| `Messaging.Consumer.QueueHolds` | patterns/consumer/consumer.go:335-343 | over any sequence of messages the dead-letter queue gets exactly the messages given up on that it takes, in order, as they are after the attempt |
| `Messaging.Consumer.LettersExactly` | patterns/consumer/consumer.go:335-343 | a letter holds what the processor was given, or the message as it came if its claim could not be redeemed |
| `Messaging.Consumer.LostExactly` | patterns/consumer/consumer.go:202-219 | a failed message is in no queue and not tried again iff the failures in a row up to it are not a multiple of MaxRetries + 1, or there is no dead-letter queue, or the queue refuses it |
| `Messaging.Consumer.NothingLostExactly` | patterns/consumer/consumer.go:202-219 | over all sequences of messages no failed message is lost iff MaxRetries is zero, there is a dead-letter queue, and it takes every letter |
| `Messaging.Consumer.LostWithoutQueue` | patterns/consumer/consumer.go:335-343 | with MaxRetries zero and no queue, or one that refuses, a single failure is lost |
| `Correlation.IdsNeverRepeat` | pkg/plugin/proxy_control_plane_server.go:222-226 | two calls on one connection never get the same correlation id |
| `Correlation.RoutingNeverBlocks` | pkg/plugin/proxy_control_plane_server.go:163-167 | routing into a response channel never blocks in a state that satisfies the invariant |
| `Correlation.StepKeeps` | pkg/plugin/proxy_control_plane_server.go:150-178 | every step keeps: a caller has its own id and at most one message, bearing that id, and is pending exactly until it is routed |
| `Correlation.RunKeeps` | pkg/plugin/proxy_control_plane_server.go:150-239 | the same over every interleaving |
| `Correlation.ArrivalsNeverBlock` | pkg/plugin/proxy_control_plane_server.go:150-178 | in every reachable state the receive loop can take any message |
| `Correlation.CallersGetTheirFirst` | pkg/plugin/proxy_control_plane_server.go:213-239 | over every interleaving each caller gets the first message bearing its id that arrives after its call, and nothing else |
| `PatternConnections.PatternConnection.Register` | pkg/plugin/proxy_control_plane_server.go:223-231 | the locked section of SendCommand on the shared objects is that step |
| `PatternConnections.PatternConnection.Route` | pkg/plugin/proxy_control_plane_server.go:163-176 | the locked section of the receive loop on the shared objects is that step |
| `PatternConnections.PatternConnection.Receive` | pkg/plugin/proxy_control_plane_server.go:236-238 | the caller takes a message bearing its id |
| `Registry.StepKeeps` | patterns/multicast_registry/coordinator.go:62-99 | every operation, with any backend failure, keeps the limit and the agreement of local and backend records |
| `Registry.RunKeeps` | patterns/multicast_registry/coordinator.go:207-226 | the same over every run |
| `RegistryHistory.TrackedExactly` | patterns/multicast_registry/coordinator.go:62-99 | after every run an identity is tracked iff some registration of it succeeded and since then no unregistration of it succeeded and no cleanup came later than its registration time plus a positive ttl; metadata, registration time, ttl and expiry are those of that registration |
| `RegistryHistory.BackendExactly` | patterns/multicast_registry/coordinator.go:285-303 | after every run the backend has a record of an identity iff the last registration of it that succeeded has neither expired there nor been deleted when it ended, and it is that registration's |
| `RegistryHistory.AcceptedExactly` | patterns/multicast_registry/coordinator.go:67-94 | a registration succeeds iff the identity is not registered, the limit, if positive, is not reached, and the backend takes it; it is refused as already registered iff it is |
| `RegistryHistory.ListedExactly` | patterns/multicast_registry/coordinator.go:113-128 | the client-side filter lists an identity iff its registration stands, has not expired, and has metadata that the filter accepts |
| `Registry.RecordsAgree` | patterns/multicast_registry/coordinator.go:285-309 | in every reachable state the limit holds, an unexpired identity is unexpired in the backend with its metadata, and a backend record unexpired by more than the clock skew belongs to an unexpired identity |
| `Registry.FiltersAgree` | patterns/multicast_registry/coordinator.go:113-128 | in every reachable state the two ways to enumerate agree: what the client-side filter lists a filtering backend lists, and what the backend still lists the skew later the filter lists now |
| `RegistryCoordinator.Coordinator.Register` | patterns/multicast_registry/coordinator.go:62-99 | registers in both places, or in neither with the reason |
| `RegistryCoordinator.Coordinator.Unregister` | patterns/multicast_registry/coordinator.go:207-226 | removes from both places or, when the backend fails, from neither; an unknown identity is no error |
| `RegistryCoordinator.Coordinator.PerformCleanup` | patterns/multicast_registry/coordinator.go:285-303 | removes exactly the expired identities, and from the backend those whose deletion succeeds |
| `RegistryCoordinator.Coordinator.Enumerate` | patterns/multicast_registry/coordinator.go:113-128 | the backend's own answer if it filters natively; otherwise each unexpired identity the filter accepts once, and no other |
| `FanOut.StepKeeps` | patterns/multicast_registry/coordinator.go:152-186 | every step of every worker keeps finished workers and results in one-to-one correspondence |
| `FanOut.SendingNeverBlocks` | patterns/multicast_registry/coordinator.go:149-150 | a worker that has a result finds room in the channel |
| `FanOut.OneResultPerTarget` | patterns/multicast_registry/coordinator.go:148-203 | whatever the interleaving, there is exactly one result per target, Delivered iff one of the allowed attempts succeeds, and the counts add up to the targets |
| `FanOut.RunsEnd` | patterns/multicast_registry/coordinator.go:162-177 | no schedule exceeds a fixed number of steps |
| `FanOut.Aggregate` | patterns/multicast_registry/coordinator.go:193-203 | counts delivered and failed results and keeps them in channel order |

## Left out

- Raft, transport, BoltDB, leader forwarding, connection pooling and the SQLite copy of the state: library and I/O code; a
  committed log is the starting point.
- `Shutdown` of the process manager and what its workers do afterwards.
- Producer batching, `Flush` and `Stop`: a sink error in the middle of a batch drops the rest of it.
- Object expiry (`SetTTL`): `RoundTripWithDeletes` covers any objects that are gone, but not when they go.
- The batch path of de-duplication.
- The command channel of a pattern connection and its sender goroutine: any message may arrive at any time in the model,
  which is more than a pattern can cause.
- Reconnection of a pattern under the same instance id: one connection is modelled.
- Native filtering inside a registry backend: a correct one is what `FiltersAgree` compares with.
- The JSON, gob and protobuf formats.
- Metrics, logging, latencies, health reports, isolation, launcher syncer, the Kubernetes operator, the command line tools
  and the Rust proxy.
- AdminMachine.StateObject.CreateNamespace: an entry is replaced as a whole in its cell, where the code assigns its fields
  one by one under the lock; nobody can see the difference.
- Messaging.Producer.PublishWithID: calls on the object are sequential; the interleaved accesses of concurrent
  publishers to the state store are modelled in `DedupRace`, on values.
- Registry.RecordsAgree: the backend's clock is read at most `skew` after the coordinator's; with a skew of zero the
  agreement is exact.
- ManagerTheorems.EnqueuedDelays: speaks of up to 33 consecutive failures, which `BackoffNonNegativeExactly` shows to be
  exact.
- ManagerLiveness.AlwaysATurn: says that a turn can come, not that a fair scheduler brings it about.
