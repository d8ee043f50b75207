# Run lifecycle, scheduling, approvals, quotes and stores: a verified model

This Dafny project models the parts of the trading-agents web service that hold real state, and proves what they keep.

* **Runs** (`Runs`, `RunInvariants`, `ManagerModel`, `ManagerInvariants`, `ManagerTraces`, `ManagerRestart`, `ManagerLoops`,
  `RunManagers`, `Leases`, `Readings`, `Endings`, `Admissions`). A run is a record with a status machine, a bounded event ring with numbers, a deadline, a
  token-guarded heartbeat and a durable copy; the manager adds the active set, capacity, asset exclusion and two tables.
  `ManagerModel` says what each lock-protected call makes of the whole state. `RunManagers.RunManager` is the class that
  changes records, rings and tables in place; every method is proved to have exactly the effect `ManagerModel` gives, so all
  results about `ManagerModel.Do` hold of the class. Histories are arbitrary sequences of starts, retries, calls of workers,
  cancellers and lease threads, watchdog sweeps, tidying, reconfigurations and restarts. `Readings`, `Endings` and `Admissions`
  say what records, endings and admissions mean in terms of events, times and requests alone.
* **Streaming**. Any number of polls, connections dropped between batches or within one, and restarts interleaved with manager
  calls; the subscriber's view is the fold of what was delivered.
* **Publication** (`CrashRecovery`, `Publication`, `ReportWorker`, `CrashResults`). Workers write a temporary directory, mark it, rename it and
  report; the process may die between any two steps, those of the recovery included, and recovery decides by the publication
  gate.
* **PTC scheduling** (`PtcWaves`, `PtcExecution`, `Ordering`). Kahn layering with duplicate edges, self-loops and cycles.
* **Approvals** (`AuditProtocol`, `AuditRows`, `AuditStores`, `ApprovalCache`). Concurrent confirm requests race through a compare-and-set
  beside sweepers and retries; a memory cache stands in front of a durable approvals table.
* **Quotes** (`ProviderChain`, `CircuitBreaker`, `Singleflight`).
* **Stores** (`Watchlist`, `ReportIndex`) and the checkpoint signature (`Signature`).

Conventions. Time is an integer on one monotone clock, and each call reads it once. Generated run ids, item ids and tokens
are parameters. What the environment decides (tool results, file faults, provider replies, database faults, the order in
which rows come back) is a parameter of the step, and the results hold for all of them. Text functions are the ASCII ones.

## What the code does that its description does not say

* `cleanup` deletes the `web_runs` row but not the rows in `web_run_events`. A later run under the same explicit id is
  sound for the durable log exactly when no event rows are left (`ManagerRestart.StartSoundIffNoEventRows`), and otherwise
  loses its events silently (`ManagerRestart.ReusedNumberIsLost`, `ManagerRestart.ReuseHappens`).
* `can_retry` ignores the parent's expiry, which `retry_run` applies first (`ManagerRestart.VerdictDecidesRetry`).
* A snapshot is sent without an SSE id, so a reconnecting browser goes back to the last event before it; that cursor is
  always behind the ring, and the next poll sends another snapshot (`Streaming.PollOk`, `Streaming.ReconnectOk`).
* The worker publishes under `_safe_run_id_component(run_id)`, recovery looks under the raw id. The two agree exactly for
  ids that are safe path components (`Publication.FoundIffSafeId`); under any other id a run that has published its report is
  FAILED by a crash (`Publication.UnsafeIdIsLost`, at the id "a b" for instance).
* A worker whose step raises after the rename leaves a FAILED run with a directory that passes the gate
  (`ReportWorker.AloneEnds`).
* The sweeper's verdict "confirmed but never executed" does not follow. It is true of a swept row exactly when its tool has
  not been invoked and no process that won the row has it still ahead (`AuditProtocol.VerdictIff`). Two histories from an empty
  table make it false: a slow confirmation is expired under way and still runs its tool (`AuditProtocol.ExpiredThenInvoked`),
  and a process dies after the tool and before its outcome is stored (`AuditProtocol.InvokedThenExpired`).
* Granting a consumed key again is not recorded in the table: the key is approved until the process restarts, and then is not
  (`ApprovalCache.RegrantIsLost`); the agreement breaks exactly there (`ApprovalCache.StepAgreesIff`, `ApprovalCache.RegrantIsUsedUp`).
* `reset_circuit` for one symbol forgets its failures only once they have tripped the circuit
  (`CircuitBreaker.ResetForgetsIffTripped`).
* A waiter on a fetch that meets an open circuit fails an assertion, and one on a fetch that crashes waits for its timeout
  (`Singleflight.WaitersGetThePublished`, `Singleflight.CrashIsSilent`).
* `update_item` with a position keeps the positions a sequence exactly when it does not move the item
  (`Watchlist.UpdateKeepsOrderIff`); a reorder restores it from any state (`Watchlist.ReorderInstalls`).
* `retry_outbox` deletes by id alone. An enqueue that falls between its read and its delete is lost
  (`ReportIndex.RemoveKeepsViewIff`, `ReportIndex.EnqueueDuringRetryIsLost`, and over whole histories
  `ReportIndex.RetryInHistory`); without one nothing is (`ReportIndex.QuietRetryLosesNothing`). A retried row keeps `index_status` "pending".
* A report whose path is a lone "." is accepted by the report index (`ReportIndex.AcceptedIff`).
* A failure reported with the reason "completed" leaves a FAILED run with full progress that may not be retried
  (`Endings.EndingCarries`).
* Different requests can have one signature (`Signature.BarCollides`). A request shares its signature with one for another graph
  exactly when (`Signature.SharedIff`) the text on either side of a boundary between two free fields contains `|` and the label
  at that boundary once more; or a text beside the ticker or the depth contains a whole such field, both labels included; or its
  sorted, joined analyst names can be cut at a comma so that the first part does not sort after the rest. The label may be that
  of the field itself, not only of a later one: provider "y|provider=z" collides. A bar that is followed by no such label, and a
  label of a boundary further away, do no harm.

## Model

| member | source | states |
|---|---|---|
| `RunInvariants.StepKeepsRunOk` | web/manager.py:555-599 | every call on a run keeps its log numbered 1, 2, ..., its ring the newest part of the log, its phase/agent/progress the fold of the log while it lives, and one final terminal event naming the status once it has ended; it logs at most one event, with the next number |
| `RunInvariants.TerminalAbsorbs` | web/manager.py:892-895 | no call moves the status, counter, ring, log or progress of an ended run |
| `RunInvariants.StepMoves` | web/manager.py:334-427 | every call follows the status diagram from the status that the expiry check left, keeps the run's identity and deadline, clears the lease at the end, and loses no progress |
| `RunInvariants.StepFacts` | web/manager.py:839-873 | PUBLISHING exits only to COMPLETED or FAILED; a run past its deadline leaves QUEUED or RUNNING only to TIMED_OUT; INTERRUPTED means a heartbeat gap of at least the timeout before the deadline |
| `RunInvariants.CheckedFacts` | web/manager.py:839-873 | the expiry check ends a run exactly when it waits and is late or lapsed, the deadline having priority |
| `RunInvariants.HeartbeatMoves` | web/manager.py:456-478 | the heartbeat moves exactly for the holder of the current token, or a lease that starts, on a waiting run |
| `RunInvariants.PublishOk` | web/manager.py:555-584 | a publication that is not dropped gets the next number and keeps record, ring and log in step |
| `RunInvariants.FinishOk` | web/manager.py:875-945 | a terminal transition adds exactly the one terminal event of its status |
| `RunInvariants.ReplayedNewest` | web/manager.py:1285-1293 | replaying all event rows through the bounded ring leaves the newest `event_limit` of them |
| `RunInvariants.MaxNextNumbered` | web/manager.py:1291-1291 | the counter read back is one more than the number of logged events |
| `RunInvariants.RestartedOk` | web/manager.py:1297-1323 | a stored run comes back ended, with the newest part of its log and its counter, and with exactly the missing terminal event appended |
| `RunInvariants.NormalizedOk` | web/manager.py:1325-1350 | normalizing a well-formed ended run changes nothing a reader of its events sees, and it needs no repair |
| `Readings.FoldSays` | web/manager.py:587-599 | a log folds to its last word on each field: the phase of the last phase change or progress event, the agent last reported in progress or in a progress event, the progress of the last progress event, and none, none and 0 without any |
| `Readings.SaysOneThing` | web/manager.py:587-599 | and a log has only one such reading |
| `Readings.LiveAfterHistory` | web/manager.py:587-599 | after every history a live record says what its durable log says last |
| `Readings.SubscriberSays` | web/app.py:2677-2704 | and so does the view of a subscriber at the end of a live run's log, however its stream was interrupted |
| `Readings.PublicationLogs` | web/manager.py:555-584 | a publication on a live run logs the event as it came, progress moved to the nearest value within 0 and 1; only progress that would go back is dropped, and changes nothing |
| `Endings.EndingCarries` | web/manager.py:875-945 | every ending, cause by cause: status, reason, whether it may be retried, signal, report id, progress, times and the one event; a completion carries the signal and report id it was given |
| `Endings.ExpiryCarries` | web/manager.py:839-873 | the expiry check times out a late waiting run, interrupts a lapsed one, and else does nothing |
| `Endings.LiveCallDoes` | web/manager.py:334-478 | a call that leaves a run alive sets start time, checkpoint, cancel flag, activity, lease and heartbeat exactly when the source does, and nothing of an ending |
| `Endings.AnswerIs` | web/manager.py:334-478 | what each call answers: whether it was granted, took effect, or found the run expired |
| `Endings.ReloadCarries` | web/manager.py:1206-1350 | a reload keeps checkpoint and start of every run, no lease of an unfinished one, and status, result and retry permission of an ended one; an interrupted one may be retried, a found publication carries its result |
| `Endings.InterruptedCanRetry` | web/manager.py:1303-1320 | every run that waited when the process died and had a checkpoint may be retried by the next process |
| `Endings.EndedStaysRetryable` | web/manager.py:1062-1086 | and so may every ended run that could be retried before |
| `ManagerModel.Cap` | web/manager.py:207-222 | whatever the setting, the cap lies between 1 and 10 |
| `Basics.SameNameIff` | web/manager.py:247-255 | stripped and upper-cased texts are equal exactly when they agree up to outer blanks and the case of letters, character by character |
| `Admissions.AdmissionIff` | web/manager.py:242-255 | at the cap a request is refused for capacity; below it, exactly when some active run has its asset type and its ticker up to blanks and case |
| `Admissions.NeverSameAssetInHistory` | web/manager.py:242-255 | after every history from an empty installation no two active runs have the same asset type and ticker up to blanks and case |
| `Admissions.TickersCollide` | web/manager.py:247-255 | "aapl " and "AAPL" are one ticker, "MSFT" and "AAP" are others |
| `Admissions.CapIs` | web/manager.py:207-222 | the cap is the allowed number nearest to the setting, and three without a number |
| `Admissions.ConfigureIs` | web/manager.py:185-206 | lifecycle values are taken over exactly when all lie in their ranges |
| `Admissions.StartIs` | web/manager.py:257-311 | a granted start adds one queued run with a fresh deadline and heartbeat and nothing of any other; a refused one has only tidied |
| `Admissions.RetryIs` | web/manager.py:1118-1175 | a retry is granted exactly to a FAILED, TIMED_OUT or INTERRUPTED run that may be retried and has a checkpoint, and begins with that checkpoint and one more attempt |
| `Admissions.VerdictIs` | web/manager.py:1062-1086 | `can_retry` says yes under exactly these conditions |
| `Admissions.TidyIs` | web/manager.py:758-768 | tidying drops exactly the ended runs whose time is up |
| `Admissions.DeadlineStands` | web/manager.py:839-856 | the deadline of a retained run never changes, restarts included |
| `Admissions.StartedTimesOut` | web/manager.py:835-856 | whatever happened in between, the first sweep at or after its deadline finds a started run publishing or ended, or times it out |
| `ManagerInvariants.DoKeepsInv` | web/manager.py:242-311 | every call and every restart keeps: well-formed runs, rows that mirror the records, an active set that is exactly the unfinished runs, at most ten of them and no two of one asset, and retry lineage |
| `ManagerInvariants.StartKeepsInv` | web/manager.py:257-311 | starting a run, granted or refused, keeps the whole invariant |
| `ManagerInvariants.RetryKeepsInv` | web/manager.py:1118-1175 | retrying a run, granted or refused, keeps the whole invariant, lineage included |
| `ManagerInvariants.CleanupKeepsInv` | web/manager.py:758-768 | tidying removes ended runs only: the active set and the event rows stay |
| `ManagerInvariants.CheckAllKeepsInv` | web/manager.py:835-837 | the watchdog's sweep keeps the invariant and extends each log by at most its terminal event |
| `ManagerInvariants.RestartKeepsInv` | web/manager.py:1206-1323 | a restart from fit tables yields a state that satisfies the whole invariant |
| `ManagerTraces.ExecKeepsInv` | web/manager.py:81-86 | the invariant holds after every history |
| `ManagerTraces.EndedForever` | web/manager.py:892-895 | once a run has ended, its event log never changes again in any history, restarts included, and its retained record shows that status, counter and ring |
| `ManagerTraces.RunMoves` | web/manager.py:839-945 | in every history, each call of the running manager follows the diagram, never lowers progress, and obeys the deadline and lease rules |
| `ManagerTraces.RenewedIsNotInterrupted` | web/manager.py:857-872 | a run with a heartbeat at `t0` is not interrupted before `t0` plus its heartbeat timeout, whatever else happens |
| `ManagerTraces.RenewalProtects` | web/manager.py:456-478 | an accepted renewal protects its run for the length of the heartbeat timeout |
| `ManagerTraces.AdmissionWithinCap` | web/manager.py:242-255 | whatever grows the active set grows it by the one new run and leaves it within the cap then in force |
| `ManagerTraces.RefusalsOnlyTidy` | web/manager.py:257-275 | a refused start or retry has only tidied, whatever id it came with, so histories with refusals reach no other states |
| `ManagerTraces.StaysGone` | web/manager.py:758-768 | an ended run that was tidied away never comes back while the process lives |
| `ManagerRestart.RestartRefines` | web/manager.py:1206-1323 | a restart leaves every run ended and nothing active, each log the durable one plus at most its missing end, numbered without a gap |
| `ManagerRestart.RestartAfterOperation` | web/manager.py:1427-1432 | after any completed call the tables are fit for such a restart |
| `ManagerRestart.CrashBetweenWrites` | web/manager.py:578-584 | and so they are between the row write and the event write of a publication |
| `ManagerRestart.StartSoundIffNoEventRows` | web/manager.py:1560-1566 | reusing an id is sound exactly when no event rows are left under it |
| `ManagerRestart.ReusedNumberIsLost` | web/manager.py:601-609 | an event whose number is already in the table is not stored |
| `ManagerRestart.InsertIsOrdered` | web/manager.py:601-609 | the event rows of a run stay in the order of their numbers; one is added exactly if its number was free |
| `ManagerRestart.MaxNextIs` | web/manager.py:1291-1291 | the counter read back is one more than the largest number among the event rows |
| `ManagerRestart.ReuseHappens` | web/manager.py:758-768 | run, fail, tidy and run again under the same id breaks the durable log |
| `ManagerRestart.VerdictDecidesRetry` | web/manager.py:1062-1086 | `retry_run` with the parent's own request is granted exactly when `can_retry` says yes and the parent has not expired |
| `ManagerRestart.LineageAcyclic` | web/manager.py:1158-1160 | along retained parents the attempt number drops by one each time, so no run is its own ancestor |
| `ManagerLoops.OverMoves` | web/manager.py:835-837 | one more run's turn in a loop over the table is exactly one store of its outcome |
| `ManagerLoops.RepairedOnce` | web/manager.py:1384-1399 | a run whose recovery logged its end is not repaired as well |
| `RunManagers.RunManager.PublishLocked` | web/manager.py:555-584 | in place: a dropped progress changes nothing; otherwise snapshot, row, counter, ring and event row change as specified |
| `RunManagers.RunManager.FinishLocked` | web/manager.py:875-945 | in place: record, active set, both tables, counter and ring change exactly as one terminal transition |
| `RunManagers.RunManager.CheckExpiredLocked` | web/manager.py:839-873 | in place: the expiry check has exactly its specified effect and tells whether it ended the run |
| `RunManagers.RunManager.BeginRun` | web/manager.py:334-359 | the new state of the whole manager is the specified one; other runs, rows and logs stay |
| `RunManagers.RunManager.BeginPublishing` | web/manager.py:361-372 | as specified, refused unless running or already publishing |
| `RunManagers.RunManager.CompletePublishing` | web/manager.py:393-427 | COMPLETED if the gate passes, FAILED with publish_incomplete if not, an error unless publishing, nothing once ended |
| `RunManagers.RunManager.CompleteRun` | web/manager.py:631-645 | as specified, without a gate; no web code calls it |
| `RunManagers.RunManager.FailRun` | web/manager.py:647-680 | ends an unfinished run as FAILED, after the expiry check |
| `RunManagers.RunManager.CancelRun` | web/manager.py:688-708 | cancels a waiting run only |
| `RunManagers.RunManager.RequestCancel` | web/manager.py:611-623 | sets the cancel flag of a waiting run only |
| `RunManagers.RunManager.PublishEvent` | web/manager.py:547-584 | publishes after the expiry check |
| `RunManagers.RunManager.Heartbeat` | web/manager.py:429-454 | records activity at most once an interval and never refreshes a worker heartbeat that is there |
| `RunManagers.RunManager.RenewWorkerLease` | web/manager.py:456-478 | accepts the current token on a waiting run, and otherwise changes nothing |
| `RunManagers.RunManager.StartLease` | web/manager.py:800-810 | installs the new token and makes the first renewal |
| `RunManagers.RunManager.CheckExpired` | web/manager.py:541-545 | the expiry check as a call |
| `RunManagers.RunManager.SetCheckpoint` | web/manager.py:1088-1116 | stores the signature when one is given |
| `RunManagers.RunManager.ReadEvents` | web/manager.py:710-714 | checks the deadline, then returns the batch past the cursor, negative cursors counting as 0 |
| `RunManagers.RunManager.Cleanup` | web/manager.py:758-768 | the loop removes exactly the expired runs and their rows |
| `RunManagers.RunManager.CheckAllExpired` | web/manager.py:835-837 | the loop has the effect of checking every run at once |
| `RunManagers.RunManager.CheckAdmission` | web/manager.py:242-255 | refuses for capacity first, then exactly when some active run has the asset |
| `RunManagers.RunManager.StartRun` | web/manager.py:257-311 | tidies, then admits the new run or says why not |
| `RunManagers.RunManager.RetryRun` | web/manager.py:1118-1175 | tidies, tests admission before the parent, then admits the child or says why not |
| `RunManagers.RunManager.CanRetry` | web/manager.py:1062-1086 | gives the specified verdict and changes nothing |
| `RunManagers.RunManager.ConfigureConcurrency` | web/manager.py:224-227 | replaces the setting and nothing else |
| `RunManagers.RunManager.ConfigureLifecycle` | web/manager.py:185-206 | replaces the lifecycle values exactly when all lie in their ranges |
| `RunManagers.RunManager.ReplayEvents` | web/manager.py:1285-1293 | the loop over event rows leaves the ring and counter of the log |
| `RunManagers.RunManager.RecoverLocked` | web/manager.py:1297-1320 | recovers one unfinished run: by the gate when publishing, else INTERRUPTED |
| `RunManagers.RunManager.RepairLocked` | web/manager.py:1384-1399 | normalizes an ended run and appends its terminal event if the ring lacks it |
| `RunManagers.RunManager.LoadPersistedRuns` | web/manager.py:1206-1323 | the three loops of a load make of empty memory and any column-only tables exactly the restarted manager |
| `Leases.LeaseKeepsAlive` | web/lease.py:92-108 | a lease renewed in time keeps its run from INTERRUPTED through any history of other calls |
| `Leases.LoopKeepsAlive` | web/lease.py:71-100 | a worker that starts its lease on a waiting run, and whose loop renews so that no two renewals lie the heartbeat timeout apart, keeps the run from INTERRUPTED whatever else is called in between |
| `Leases.StartHolds` | web/manager.py:800-810 | a lease that starts on a waiting run is held from then on |
| `Leases.RenewalsAreTrace` | web/lease.py:92-108 | what the loop does on its own is the history of its renewals, at the times of its ticks |
| `Leases.TokenStays` | web/manager.py:786-798 | only a lease that starts changes the token of a run that goes on waiting |
| `Leases.WorkerLease.Loop` | web/lease.py:92-100 | the loop renews at every tick until the worker has settled, and counts exactly the accepted renewals |
| `Streaming.ReadLocked` | web/manager.py:730-756 | the batch of a cursor: the retained events past it, or a snapshot of the record when the ring no longer reaches back to it |
| `Streaming.SendBatch` | web/app.py:2688-2697 | the loop over a batch sends every item and leaves cursor and end as specified |
| `Streaming.ReadOnTime` | web/manager.py:733-756 | a cursor the ring still reaches gets exactly the missing part of the log |
| `Streaming.ReadLate` | web/manager.py:736-753 | a cursor the ring has lost gets exactly one snapshot that covers the whole log |
| `Streaming.PollOk` | web/app.py:2681-2704 | after a poll the subscriber has reached `next_seq - 1`; on a live run its view is the record, on an ended one its last item is the terminal event or a terminal snapshot and it stops |
| `Streaming.PolledOk` | web/manager.py:716-728 | the same at any moment of any history, deadline check included |
| `Streaming.ReconnectOk` | web/app.py:167-186 | a connection resumed at the last event id is well formed, even after snapshots |
| `Streaming.PlayOk` | web/app.py:2677-2704 | over every interleaving of manager calls, polls, polls cut off after any item, reconnects and restarts, what one connection has been sent reads the log from its start without a gap |
| `Streaming.PlayInTurn` | web/app.py:2681-2704 | a history of the stream is its moves in turn |
| `Streaming.FreshReads` | web/app.py:2677-2704 | so it does for a client that starts with nothing, and whenever that client is at the end of a live run's log it shows the record |
| `Streaming.RejoinedReads` | web/app.py:167-186 | and for one that comes back with any number of the log and the view it had there |
| `Streaming.ConnectionsRestart` | web/app.py:167-186 | a reconnect, or a restart of the process, starts a new connection behind the last event id with the view the client had; no manager call touches the stream otherwise |
| `Streaming.CutOk` | web/app.py:2688-2697 | a connection lost after any item of a batch leaves a subscriber that can resume |
| `Streaming.NumbersIncrease` | web/app.py:2692-2695 | the numbers sent on one connection strictly increase and lie past its start |
| `Streaming.CaughtUp` | web/manager.py:587-599 | a connected subscriber at the end of a live run's log shows exactly the record |
| `Streaming.LogGrows` | web/manager.py:601-609 | no call and no restart changes a number already given out |
| `CrashRecovery.RecoverPublishing` | web/manager.py:1352-1382 | the loop over the publishing rows moves and finds exactly what recovering them in turn does |
| `CrashRecovery.FoundIsUpFront` | web/manager.py:1352-1358 | each run's gate is decided as if nothing had been recovered before it: the order of rows does not matter |
| `CrashRecovery.RecoveryKeepsReady` | web/manager.py:1371-1374 | recovery moves no directory that passes a gate and creates none |
| `CrashRecovery.NothingLost` | web/manager.py:1419-1425 | a directory that recovery moves away is an orphan with its content |
| `CrashRecovery.TurnIsSteps` | web/manager.py:1371-1376 | the turn of a failed publication is its two moves, and leaves neither of its directories |
| `CrashRecovery.DidAllKeeps` | web/manager.py:1297-1382 | recoveries cut off between any two of their file moves and transitions keep the tables fit, every run's verdict and final log, and every directory that passes a gate |
| `CrashRecovery.InterruptedRecovery` | web/manager.py:1297-1382 | after any of them, a recovery that completes gives every run the verdict, the log and the gate that an undisturbed one gives it, and clears the directories of failed publications |
| `CrashRecovery.StepsLoseNothing` | web/manager.py:1419-1425 | and whatever they move away is an orphan with its content |
| `Publication.CrashConsistent` | web/manager.py:1352-1382 | after a crash between any two steps, and recoveries that may be cut off themselves, nothing is PUBLISHING; a publishing run is COMPLETED exactly when its final directory passes the gate, and else FAILED with both directories moved away; every unfinished log gets its one missing end |
| `Publication.PlayedKeepsPublished` | web/runner.py:247-329 | every step of workers, failing runs, crashes and other calls keeps: each COMPLETED run has its own directory, that of its worker or of its id, and it passes the gate |
| `Publication.CompletedHaveReports` | web/repositories.py:1676-1684 | so it holds after every history |
| `Publication.OwnReportIsWorkers` | web/runner.py:497-501 | for a safe id the directory of the worker and of the id are one |
| `Publication.PlayedKeepsWorkers` | web/runner.py:251-325 | on safe ids with no report in the way, how far each worker has come is exactly what is on the disk, whatever the others do, failing runs included |
| `Publication.PlayKeepsWorkers` | web/runner.py:251-325 | and so after every such history |
| `Publication.CompletedIffRenamed` | web/runner.py:311-325 | a run that crashes while publishing is COMPLETED exactly when its rename had happened |
| `Publication.FoundIffSafeId` | web/runner.py:497-501 | a report that was already published is found again after a crash exactly for ids that are safe path components |
| `Publication.UnsafeIdIsLost` | web/manager.py:1352-1382 | for every unsafe id and digest: from an empty installation a run publishes its report, the directory passes the gate, and a crash leaves the run FAILED |
| `Publication.UnsafeIdsExist` | web/runner.py:497-501 | there are such ids and digests |
| `Publication.PublishingHappens` | web/runner.py:247-250 | from an empty installation a run is started, begun and published under the protocol invariant, so the results above are about states that occur |
| `ReportWorker.AloneEnds` | web/runner.py:247-357 | a worker left alone completes its run exactly when no step raises, and the published directory is in place exactly when none raises up to the rename |
| `ReportWorker.ReportSite.FileStep` | web/runner.py:252-316 | one file step in place: it raises on a fault, a missing directory or a report in the way, and otherwise has its effect |
| `ReportWorker.ReportSite.Publish` | web/runner.py:247-357 | the worker as a sequence of statements, with the manager's class, has the effect of its protocol steps |
| `CrashResults.FileStepIs` | web/runner.py:252-316 | what each file step needs and does, file by file: directory, report, run.json, marker, rename; no other directory changes |
| `CrashResults.CrashDecides` | web/repositories.py:1676-1684 | after a crash a publishing run is COMPLETED exactly if the directory under its id holds the report, the marker and a run.json that says completed; it then carries the signal and report id written there |
| `CrashResults.StepsInTurn` | web/manager.py:1297-1382 | recoveries that were cut off have taken their steps in turn |
| `CrashResults.CrashKeepsResult` | web/manager.py:1352-1382 | whatever recoveries are cut off, every run ends with the result its row and the disk had |
| `CrashResults.RenamedKeepsResult` | web/runner.py:311-325 | a worker that had renamed its directory leaves a COMPLETED run with its signal and id |
| `CrashResults.ReportedKeepsResult` | web/runner.py:326-345 | and so does one that reports its completion itself |
| `CrashResults.FoundIffPlainName` | web/runner.py:497-501 | a published report is found after a crash exactly for ids of 1 to 128 letters, digits, points, underlines and dashes that start with a letter or digit |
| `PtcWaves.TopoWaves` | tradingagents/agent_harness/ptc.py:228-275 | duplicate ids, unknown dependencies with the exact list, a complete layering, or the ids on or behind a cycle, sorted |
| `PtcWaves.LongestPath` | tradingagents/agent_harness/ptc.py:257-275 | a group's wave index is the length of the longest dependency path that ends in it |
| `PtcWaves.Minimal` | tradingagents/agent_harness/ptc.py:257-275 | no schedule that respects the dependencies runs any group in an earlier round |
| `PtcWaves.CycleIffBlocked` | tradingagents/agent_harness/ptc.py:259-262 | the cycle error is raised if and only if the relation has a cycle |
| `PtcWaves.StuckIds` | tradingagents/agent_harness/ptc.py:259-262 | when nothing is ready, the ids left are exactly those on or behind a cycle |
| `PtcWaves.MissingExact` | tradingagents/agent_harness/ptc.py:240-246 | the unknown dependencies reported are exactly those that name no group |
| `PtcWaves.UnmetFinish` | tradingagents/agent_harness/ptc.py:264-273 | with repeated entries in `depends_on`, finishing a group lowers a counter by its multiplicity |
| `PtcExecution.Execute` | tradingagents/agent_harness/ptc.py:110-162 | the results are those of the waves in turn, each wave in the order of its groups; every group is heard exactly once, its results as one piece, its error as one entry; an empty program runs nothing |
| `PtcExecution.DependenciesFirst` | tradingagents/agent_harness/ptc.py:126-162 | all results of a dependency stand before all results of its dependent |
| `PtcExecution.EveryGroupIsHeard` | tradingagents/agent_harness/ptc.py:126-162 | the list holds, as a multiset, the results of every group that returned and one error entry for every group that raised, nothing else, each returned list as one piece in its own order |
| `PtcExecution.ResultsInOrder` | tradingagents/agent_harness/ptc.py:126-162 | the piece of a dependency ends before that of its dependent starts |
| `AuditProtocol.AtMostOnce` | web/app.py:896-1125 | over every interleaving of requests, sweepers, retries, backfills and restarts a tool is invoked at most once per audit id, only after a winning confirmed claim, never after a winning rejected one |
| `AuditProtocol.RunKeepsOk` | tradingagents/agent_harness/audit.py:230-290 | the protocol invariant holds in every reachable state and no row that left pending is pending again |
| `AuditProtocol.NeverPendingAgain` | tradingagents/agent_harness/audit_sweeper.py:68-208 | no step of anyone returns a row to pending or removes one |
| `AuditProtocol.WonForever` | tradingagents/agent_harness/audit.py:280-287 | an id is won at most once, and with what decision never changes |
| `AuditProtocol.MarkIsKept` | web/app.py:1072-1119 | after an update the outcome is in the table or waits in the queue, even when the statement failed |
| `AuditProtocol.RetryDecides` | tradingagents/agent_harness/audit_sweeper.py:158-208 | the last successful retried update on a row decides it |
| `AuditProtocol.VerdictIff` | tradingagents/agent_harness/audit_sweeper.py:113-155 | in every reachable state, sweeping an old confirmed row marks it as never executed, and no continuation makes that false if and only if its tool has not run and no process that won it has it still ahead |
| `AuditProtocol.ExpiredThenInvoked` | web/app.py:985-1075 | from an empty table: a row is swept just before its tool runs |
| `AuditProtocol.InvokedThenExpired` | tradingagents/agent_harness/audit_sweeper.py:113-155 | from an empty table: the process dies after the tool ran, and the row is swept with nothing left to correct it |
| `AuditRows.ClaimDecides` | tradingagents/agent_harness/audit.py:280-287 | a won claim makes the pending row confirmed or rejected, as asked, by that name, and changes nothing else |
| `AuditRows.RejectionsStand` | tradingagents/agent_harness/audit.py:230-290 | over every history a row won by a rejection reads rejected by the user, unless a backfill has updated it since |
| `AuditRows.MarkStores` | web/app.py:1072-1119 | the update after the tool makes the row executed, or failed with the tool's error; when the statement fails an entry for that row and kind of outcome is queued |
| `AuditRows.RetryTells` | tradingagents/agent_harness/audit_sweeper.py:158-208 | the last successful entry of a row makes it executed, or failed with its error |
| `AuditRows.RetryKeeps` | tradingagents/agent_harness/audit_sweeper.py:158-208 | after a retry the queue holds exactly the entries that failed for the first or second time |
| `AuditRows.ThreeTries` | tradingagents/agent_harness/audit_sweeper.py:158-208 | an entry that keeps failing is tried three times and dropped |
| `AuditRows.RunCoalesced` | tradingagents/agent_harness/audit_sweeper.py:50-65 | over every history no two entries are for one row and kind of outcome |
| `AuditRows.OlderIsTextual` | tradingagents/agent_harness/audit_sweeper.py:87-97 | old means that the written stamp sorts before the written cutoff |
| `AuditRows.SweepsExpire` | tradingagents/agent_harness/audit_sweeper.py:68-155 | a sweep expires exactly the rows of its status whose stamp sorts before the cutoff, with its message, and leaves all others |
| `AuditRows.BackgroundIs` | tradingagents/agent_harness/audit_sweeper.py:68-208 | what sweeps, backfills, retries, restarts and new rows do to a row, the queue and everything else |
| `AuditStores.AuditStore.LogWrite` | tradingagents/agent_harness/audit.py:35-93 | inserts one pending row under a new id |
| `AuditStores.AuditStore.ClaimWriteAudit` | tradingagents/agent_harness/audit.py:230-290 | the compare-and-set is won exactly by a caller that finds the row pending; other actions are an error |
| `AuditStores.AuditStore.UpdateWriteStatus` | tradingagents/agent_harness/audit.py:165-205 | sets status and, when given, error; says whether the row exists |
| `AuditStores.AuditStore.ExpireStalePending` | tradingagents/agent_harness/audit_sweeper.py:68-110 | expires exactly the pending rows older than the cutoff and counts them |
| `AuditStores.AuditStore.ExpireStaleConfirmed` | tradingagents/agent_harness/audit_sweeper.py:113-155 | expires exactly the confirmed rows older than the cutoff and counts them |
| `AuditStores.AuditStore.QueueFailedUpdate` | tradingagents/agent_harness/audit_sweeper.py:50-65 | the loop coalesces entries of the same row and status |
| `AuditStores.AuditStore.RetryFailedUpdates` | tradingagents/agent_harness/audit_sweeper.py:158-208 | the drained queue is applied in order, and what failed again with attempts left is queued again |
| `AuditStores.AuditStore.HarnessConfirm` | web/app.py:896-1125 | one request left alone does what the steps of the protocol do: it runs the tool exactly when it approves, wins and nothing before the tool fails; then the outcome is in the table or queued; a won rejection leaves the row rejected by the user, a lost claim changes nothing, and no other row changes |
| `ApprovalCache.AnswersAreLive` | tradingagents/agent_harness/hitl.py:126-161 | over every history without a re-grant of a used-up key, is_approved says exactly which grants are live, memory holds only unconsumed rows, and neither asking nor a restart changes an answer |
| `ApprovalCache.StepAgreesIff` | tradingagents/agent_harness/hitl.py:188-199 | an operation keeps cache, table and live grants in agreement exactly when it is not a re-grant of a consumed row |
| `ApprovalCache.RegrantIsUsedUp` | tradingagents/agent_harness/hitl.py:210-242 | such a key is one consumed while live and not revoked with its session since |
| `ApprovalCache.RegrantIsLost` | tradingagents/agent_harness/hitl.py:164-207 | a second grant of a used-up key holds until the process restarts, and not after |
| `ApprovalCache.AskPrimes` | tradingagents/agent_harness/hitl.py:126-161 | asking primes memory with the asked key if it is approved and with the unconsumed rows of a session not loaded before, and changes nothing else |
| `ApprovalCache.MemoryFollows` | tradingagents/agent_harness/hitl.py:164-346 | what every other call leaves in memory |
| `ApprovalCache.ApprovalRegistry.LoadSessionIntoCache` | tradingagents/agent_harness/hitl.py:89-123 | the loop adds exactly the session's unconsumed rows, once |
| `ApprovalCache.ApprovalRegistry.IsApproved` | tradingagents/agent_harness/hitl.py:126-161 | answers from cache or table and primes the cache |
| `ApprovalCache.ApprovalRegistry.GrantApproval` | tradingagents/agent_harness/hitl.py:164-207 | memory gets the key, the table only if it has no row for it |
| `ApprovalCache.ApprovalRegistry.ConsumeApproval` | tradingagents/agent_harness/hitl.py:210-242 | the key leaves memory and its row is marked, not deleted |
| `ApprovalCache.ApprovalRegistry.RevokeSession` | tradingagents/agent_harness/hitl.py:245-264 | everything of the session goes, consumed rows included, and of no other |
| `ApprovalCache.ApprovalRegistry.ExpirePending` | tradingagents/agent_harness/hitl.py:315-346 | deletes an unconsumed row and says whether there was one |
| `ApprovalCache.ApprovalRegistry.RestartProcess` | tradingagents/agent_harness/hitl.py:39-49 | a new process starts with empty memory over the same table |
| `ProviderChain.Call` | web/market_data.py:98-192 | the nested loops give the reply and the health records of the declarative chain |
| `ProviderChain.TryProvider` | web/market_data.py:150-184 | the attempt loop stops at the first success, the first error that may not be retried, or the last attempt |
| `ProviderChain.AnswersIff` | web/market_data.py:112-192 | there is an answer exactly when some provider answers after transient failures only |
| `ProviderChain.AnswerIsFirst` | web/market_data.py:150-158 | the answer is that of the first such provider, and no later one is asked |
| `ProviderChain.ErrorIs` | web/market_data.py:184-192 | without an answer the caller gets the first error that is not transient, or the last one |
| `ProviderChain.AnswerCodes` | web/market_data.py:34-40 | the call answers exactly if a ready provider has a good attempt within retries + 1 whose earlier ones timed out or were refused with one of the five passing codes, and no provider before it answers or rejects the symbol |
| `ProviderChain.BreaksOffIff` | web/market_data.py:175-187 | the chain breaks off with an error exactly for INVALID_SYMBOL; any other error is raised after all providers were asked |
| `ProviderChain.LastErrorIs` | web/market_data.py:112-192 | that error is the last provider's: not configured, its own refusal, the timeout of its last attempt, or its crash |
| `ProviderChain.TurnRecords` | web/market_data.py:194-223 | a provider's health records tell attempt by attempt how it went, or its one skip |
| `ProviderChain.HealthInTurn` | web/market_data.py:194-223 | the records of a call are those of the providers asked, in turn |
| `ProviderChain.TurnHealth` | web/market_data.py:194-223 | one health record for every submission or skipped provider, at most retries + 1 of them, the last telling the outcome |
| `ProviderChain.HealthBounded` | web/market_data.py:150-150 | a call that asks n providers makes at most n * (retries + 1) records |
| `CircuitBreaker.OpenIffHistory` | web/market_data.py:572-602 | over every history a circuit reads open exactly when, since it was last seen closing or reset, some failure less than a cooldown old ended a window with enough failures |
| `CircuitBreaker.StepSimulates` | web/market_data.py:572-621 | the pruned list and the one deadline keep simulating the full history under failures, looks and resets |
| `CircuitBreaker.FailureTail` | web/market_data.py:577-583 | a failure trips the circuit exactly when the pruned list is long enough |
| `CircuitBreaker.ResetForgetsIffTripped` | web/market_data.py:604-621 | a reset for one symbol forgets its failures exactly when they have tripped the circuit |
| `CircuitBreaker.SharedCircuit` | web/market_data.py:575-575 | symbols share a circuit exactly when they differ in case only and are of one asset type |
| `CircuitBreaker.ResetCloses` | web/market_data.py:604-621 | a reset closes everything, or exactly the circuits with a deadline whose symbol and asset type are the given ones, and leaves the others as they were |
| `CircuitBreaker.DefaultsTrip` | web/market_data.py:328-336 | by default three failures within 60 seconds open a circuit for 300 seconds from the third, and nothing less does |
| `CircuitBreaker.Breaker.RecordFailure` | web/market_data.py:572-588 | the pruning loop leaves exactly the failures inside the window and sets the deadline when there are enough |
| `CircuitBreaker.Breaker.CircuitStatus` | web/market_data.py:590-602 | says open and for how long, and closes an elapsed circuit on the way |
| `CircuitBreaker.Breaker.ResetCircuit` | web/market_data.py:604-621 | clears everything, or exactly the matching keys with a deadline, and counts them |
| `Singleflight.OneFetcher` | web/market_data.py:522-544 | in every well-formed state at most one thread fetches for a key |
| `Singleflight.RunOk` | web/market_data.py:415-517 | every interleaving of arrivals, fetches, cooldowns, crashes, wakes and timeouts keeps the state well formed |
| `Singleflight.UnregisterRemovesOwn` | web/market_data.py:623-631 | a finishing fetcher removes its own entry and no other, and its test for that is never false |
| `Singleflight.EntryStep` | web/market_data.py:560-570 | only its own fetcher publishes in an entry, and once |
| `Singleflight.PublishedStays` | web/market_data.py:560-570 | what was published in an entry never changes |
| `Singleflight.EndedIff` | web/market_data.py:454-515 | how an entry's turn is recorded to have ended is exactly the cooldown or fetch step its fetcher has taken |
| `Singleflight.WaitersGetThePublished` | web/market_data.py:546-558 | in every reachable state a waiter that was woken got exactly what its fetcher's turn ended with; it failed an assertion exactly when that thread took the cooldown step, and no crashed fetch woke it |
| `Singleflight.CrashIsSilent` | web/market_data.py:516-517 | after a fetcher has left without publishing nobody ever publishes in its entry |
| `Singleflight.FetcherAndWaitersAgree` | web/market_data.py:454-515 | in every reachable state a returned fetcher and a woken waiter of one entry have the same quote, or the provider's error and the fallback error, or after a cooldown a cached quote and a failed assertion |
| `Singleflight.FetcherReturnsItsOwn` | web/market_data.py:454-515 | a fetcher returns and publishes the quote it fetched or fell back on, raises its error, answers from the cache during a cooldown, or crashes without publishing |
| `Singleflight.WaiterReads` | web/market_data.py:546-558 | a woken waiter has the published quote, the published error, or a failed assertion when neither was published |
| `Singleflight.SharedFetch` | web/market_data.py:415-517 | it does happen that two requests share one fetch and both get its quote |
| `Singleflight.SharedKey` | web/market_data.py:519-520 | requests are for one key exactly when they differ in the case of the symbol only |
| `Singleflight.Flights.RegisterInflight` | web/market_data.py:522-544 | the caller fetches exactly when nobody is registered under the key |
| `Singleflight.Flights.PublishInflight` | web/market_data.py:560-570 | the entry holds the payload and is done |
| `Singleflight.Flights.UnregisterInflight` | web/market_data.py:623-631 | removes the entry under the key only if it is the caller's |
| `Singleflight.Flights.WaitInflight` | web/market_data.py:546-558 | a waiter raises the published error, returns the quote, fails its assertion, or times out |
| `Singleflight.Flights.GetQuote` | web/market_data.py:443-517 | one caller behind the cache check: a waiter gets what the entry holds; a fetcher leaves the table as it was, answers by its own ending, and publishes exactly what that ending publishes |
| `Watchlist.AddIsCons` | web/repositories.py:75-97 | an accepted add puts the new item in front of the sequence |
| `Watchlist.DeleteIsRemoval` | web/repositories.py:129-148 | an accepted delete removes the item from the sequence and closes the gap |
| `Watchlist.ReorderInstalls` | web/repositories.py:150-163 | an accepted reorder installs the given order, from any positions |
| `Watchlist.UpdateKeepsOrderIff` | web/repositories.py:99-127 | after an accepted update the positions are a sequence exactly when it did not move the item |
| `Watchlist.ListingIsOrder` | web/repositories.py:54-58 | a listing by position and id of a dense list is its sequence |
| `Watchlist.OthersStay` | web/repositories.py:83-88 | an accepted call touches no other list and no other version |
| `Watchlist.VersionCounts` | web/repositories.py:96-96 | an accepted call raises the version of its list by one, a new list starting from 1 |
| `Watchlist.AcceptedIff` | web/repositories.py:75-163 | exactly when an add, delete, reorder or update is accepted: known item or list, the version the list has, a permutation, a valid asset type and position, a symbol the list does not hold |
| `Watchlist.AcceptedStores` | web/repositories.py:75-163 | what an accepted call stores and takes away, and that it changes nothing else but positions |
| `Watchlist.SecondIsRefused` | web/repositories.py:83-96 | of two changes made with one version of a list the second is refused |
| `Watchlist.RunKeepsApart` | web/repositories.py:75-127 | over every history no list holds a symbol twice |
| `Watchlist.RunIsEditing` | web/repositories.py:54-163 | over every such history a list is the sequence that its accepted calls have edited: no other order fits its positions, and every listing returns it |
| `Watchlist.RunKeepsDense` | web/repositories.py:75-163 | over every history of calls, accepted or refused, that move no item by update, the positions of every list stay exactly 0..n-1 |
| `Watchlist.WatchlistRepository.AddItem` | web/repositories.py:75-97 | the statements of the transaction have the specified effect, and a duplicate rolls everything back |
| `Watchlist.WatchlistRepository.UpdateItem` | web/repositories.py:99-127 | as specified; a duplicate found after the version was raised takes the raise back |
| `Watchlist.WatchlistRepository.DeleteItem` | web/repositories.py:129-148 | as specified, scheduled jobs of the asset included |
| `Watchlist.WatchlistRepository.ReorderItems` | web/repositories.py:150-163 | the loop places every item; an order that is no permutation of the list rolls back the version |
| `ReportIndex.PreviewTwice` | web/repositories.py:1369-1369 | normalizing a cut preview again takes at most the blank at its end, and changes it exactly when the cut left one |
| `ReportIndex.NormalizeTwice` | web/repositories.py:1326-1405 | a normalized record, queued and normalized again, is the same up to that blank |
| `ReportIndex.AcceptedIff` | web/repositories.py:1326-1365 | exactly which metadata is accepted: a non-blank id, a known root, a clean relative path, and known or missing status, source, index status, path state and asset type |
| `ReportIndex.StoredIs` | web/repositories.py:1366-1405 | what is stored of it, defaults included |
| `ReportIndex.StepDoes` | web/repositories.py:1110-1178 | what each operation does to the row, the entry and the open retries of a report |
| `ReportIndex.ListedOnce` | web/repositories.py:1306-1323 | the combined view lists every report id once, with the outbox entry over the index row |
| `ReportIndex.CrashBetween` | web/repositories.py:1160-1169 | a crash between a retry's upsert and its delete leaves the view as it was |
| `ReportIndex.RetryKeepsView` | web/repositories.py:1160-1170 | a whole retry keeps every id and every field of every row up to that blank |
| `ReportIndex.RemoveKeepsViewIff` | web/repositories.py:1164-1168 | the delete leaves the view in place exactly when the index holds what the entry shows |
| `ReportIndex.EnqueueDuringRetryIsLost` | web/repositories.py:1150-1170 | an enqueue between a retry's read and its delete is lost |
| `ReportIndex.NothingLeaves` | web/repositories.py:1110-1178 | over every history of upserts, enqueues, the steps of any number of retries, failures and crashes no report leaves the view, and every row keeps its id |
| `ReportIndex.RetryInHistory` | web/repositories.py:1150-1178 | within any history: at its delete a retry makes the view show what it had read, where before it showed what was last queued since; nothing else in the view changes |
| `ReportIndex.QuietRetryLosesNothing` | web/repositories.py:1150-1178 | with no enqueue of the report between its read and its delete, a retry keeps the record up to that blank |
| `ReportIndex.ReportIndexRepository.EnqueueReport` | web/repositories.py:1116-1148 | queues the normalized record as pending; a newer entry keeps the attempts of the older |
| `ReportIndex.ReportIndexRepository.RetryOutbox` | web/repositories.py:1150-1178 | over the entries read, those that succeed leave the outbox with their row settled, those that fail count an attempt, and every other row of the view is as it was |
| `Signature.SharedIff` | web/checkpoint_resume.py:29-56 | for every request: there is a request for another graph with the same signature if and only if a boundary label is repeated beside its boundary, a ticker or depth field is written once more with both labels beside it, or the names are ambiguous |
| `Signature.SoundUnlessConfusable` | web/checkpoint_resume.py:29-56 | with comma-free names, a request outside the first two cases has the signature of exactly the requests for its graph |
| `Signature.SignatureIff` | web/checkpoint_resume.py:29-56 | requests without separators in their texts have equal signatures exactly when they agree up to ticker case, analyst order, and absent versus empty |
| `Signature.BarCollides` | web/checkpoint_resume.py:29-56 | with a bar in a text different requests can share a signature |
| `Signature.SplitJoin` | web/checkpoint_resume.py:56-56 | splitting undoes joining unless a part contains the separator |
| `Signature.NumberInjective` | web/checkpoint_resume.py:50-50 | different depths are written differently |
| `Signature.NumberReads` | web/checkpoint_resume.py:50-50 | a depth is written with digits that read back as it, without leading zeros, and with a minus sign only below zero |
| `Ordering.SortCanonical` | web/checkpoint_resume.py:49-49 | sorted lists are equal exactly for equal multisets |

## Left out

- Record columns that decide nothing: failed_* and active_* fields, data metadata, artifact counts, messages, event timestamps and payload validation.
- The clock is read once per call; the source reads it a few times within one locked call.
- `_stop_lease_locked` joins the lease thread and `_resize_executor` replaces the pool; threads and pools are not modelled.
- `wait_for_events` is one poll, or two polls with anything between them; its timeout and the heartbeat comment are not modelled.
- Streaming cursors that no client ever reached are outside the invariant; so are events published under terminal names.
- Publication: directories are a report flag, a marker and a run.json; the executive summary, the data snapshot and the history index do not affect the gate. A run.json that is valid JSON but no object is not modelled.
- `set_report_root` is taken to have been called before recovery, and ids with path separators are opaque names here.
- Publication histories contain no `complete_run` on an unfinished run: it completes without a gate, and no web code calls it.
- `_publish_chunk`, `_publish_analyst_statuses` and the checkpoint helpers around the signature: they only call out.
- `_run_group`, tool calls and argument coercion: a group is a function from the group to its results; the list of duplicate ids in the error text is not modelled.
- `grant_session_all`, `list_pending` and `count_pending`; database failures inside the approval registry and interleavings inside one of its functions.
- Audit rows keep status, stamp, confirmer and error; tool names, arguments and notes decide nothing.
- `get_quote`'s cache test before registration, the drain window, ages and freshness, candles and identities; latencies in health records.
- The provider chain is given by its names: an unknown strategy is an error before any provider is asked.
- `retry_outbox` takes the entries its select returned; limit and age order only choose which.
- ReportIndex: `rebuild`, which marks the rows of a root missing and upserts the records found, and the filters of its readers.
- ReportIndex: plain text columns are one list; JSON encoding of lists is the identity.
- Unicode case and blanks beyond ASCII, floating-point rounding of progress, and SQL beyond the statements cited.
- Routes, settings pages, alerts, the scheduler, the command line and all network and model clients.
