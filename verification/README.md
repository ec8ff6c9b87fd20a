# RunScope: the run scheduling protocol in Dafny

This project models how RunScope hands machine-learning runs to workers and proves what its
users rely on. One database holds runs, workers, allocations (leases), the audit log and the
outbox. A scheduler recovers expired leases and places queued runs; workers start, execute and
end runs; an API submits, cancels, retries and annotates them; messages to workers arrive any
number of times and in any order. Two smaller parts stand beside it: the dispatcher of the
transactional outbox, and the server-sent events of a run with the browser's incremental
parser.

The guarantees come from four mechanisms that live in different files: the transition table,
the version column of a run, the unique index on active allocations and the lease token. A
worker reads a run, works for a long time and commits against the version it read, so every
guarantee is proved over interleavings. `Protocol` cuts the program into atomic actions
(committed transactions, the waits of a worker session, crashes, clock ticks); `Exec` runs any
sequence of them; the main theorems quantify over all such sequences.

| file | content |
|---|---|
| `Options` | values that may be absent |
| `Lifecycle` | transition table, audit log, the language of life stories |
| `Tables`, `Consistency` | rows and writes; the invariant of the tables and how they evolve |
| `Ordering` | WHERE, ORDER BY and LIMIT of the queries |
| `Scheduler`, `Greedy` | recovery and placement; what a pass guarantees |
| `Protocol`, `Safety` | the transition system; every action keeps the invariant |
| `Effects`, `Steps`, `Pace` | what single actions write, column by column; when session steps take effect; how many steps a run takes |
| `Guarantees`, `Fencing`, `Timing`, `Success`, `Conservation`, `Capacity`, `Lineage`, `Summary` | theorems about all executions |
| `Witness` | executions that reach the states the theorems speak about |
| `Platform`, `SlowRun` | the operations in place, with loops, refining the transition system |
| `Outbox` | ordered publication with bounded attempts |
| `RunStream` | frames, chunks, parsing and duplicates |

## Assumptions

- A committed transaction is one atomic step. An API call that loses a race on the version of
  a run is rejected and is no step. Transactions on worker rows are serialised; the program
  reads the row without a lock in `heartbeat_worker`
  (services/api/runscope_api/worker_registry.py:65).
- One monotone clock and one pair of stale and lease settings are shared by all processes. A
  transition is stamped with the time of its commit. A scheduling pass recovers at one time
  and places at the same or a later one.
- There is one scheduler and one dispatcher, and no row is locked by others during a pass, so
  `skip_locked` skips nothing.
- Random ids and lease tokens are serial numbers; only their uniqueness is used. Ties between
  runs of equal priority and age are therefore broken by submission; ties between messages of
  equal age are broken in any way, differently in every batch.
- CPU is counted in thousandths of a core; float rounding is not modelled. Progress, success
  rate and average duration are reals.
- Any assignment in the outbox may be delivered any number of times, whether or not the
  dispatcher has recorded its publication.
- Executing a template, storing artifacts and decoding JSON are outcomes or parameters.
- Session objects keep their values over a commit
  (services/api/runscope_api/db.py:15). Where a session reads its run again after a rollback,
  the model lets it succeed or crash; `Fencing.EditLosesSuccess` and `Witness.LostSuccess`
  follow a session that succeeds, the theorems of `Success` cover both.

## Where the program and its documentation disagree

The model follows the program.

- docs/OPERATIONS.md:33-34 lets the lease of a restarted worker run out. Heartbeats renew
  every active allocation of the worker, executed or not, so the lease does not run out while
  passes find recent heartbeats (`Timing.OrphanOutlivesRestart`, with the execution
  `Witness.OrphanOutlivesLease`); exactly when an orphan ends is `Timing.OrphanStaysIff`. No
  claim is made that every run ends.
- docs/EVENT_CONTRACTS.md:44-45 records a message as processed before its side effects; the
  worker does so afterwards (services/worker/runscope_worker/main.py:76-90). A run still
  starts at most once, because of the status, version and token checks.
- docs/DATA_MODEL.md:55-56 shows FAILED leading to RETRYING. Nothing enters RETRYING; a retry
  is a new run.
- A metadata edit raises the version of a run, so a run edited after its executor last read it
  never becomes SUCCEEDED although its work was done (`Success.EditForfeitsSuccess`, with the
  execution `Witness.LostSuccess`); exactly when a success is still possible is
  `Success.SuccessPossibleIff`.
- Carriage returns are replaced chunk by chunk, so a cut inside a CR LF pair changes the text
  (`RunStream.CutMatters`); exactly when chunks do not matter is
  `RunStream.ReadsAsWholeIff`. The server prints no carriage return.
- The outbox is ordered by a time stamp taken before commit, so a late commit can fall behind
  messages already published (`Outbox.LateCommitBreaksOrder`); exactly when the order survives
  a history is `Outbox.OrderSurvivesIff`. Messages of one transaction share a stamp and have no
  order among themselves (`Outbox.EqualStampsHaveNoOrder`); exactly when insertion order
  survives every batch is `Outbox.PrefixSurvivesIff`.

## Model

| member | source | states |
|---|---|---|
| `Guarantees.Always` | services/api/runscope_api/run_execution.py:132-172 | Every state reachable from the empty tables by any sequence of actions (API calls, passes, heartbeats, deliveries, session moves, crashes, clock ticks) satisfies the whole invariant. |
| `Guarantees.Onwards` | services/api/runscope_api/models.py:142-203 | Over any sequence of actions rows are only added, logs only grow, versions never fall, and a lease is given up only together with a write to its run that does not leave a started run going. |
| `Guarantees.OneLease` | services/api/runscope_api/models.py:355-384 | In every reachable state a run has exactly one active allocation while SCHEDULING, RUNNING or CANCELLING, and none otherwise. |
| `Guarantees.EveryRunTellsAStory` | services/api/runscope_api/state_machine.py:34-59 | The status events of every run form an unbroken chain from DRAFT to its status, in the language DRAFT QUEUED (SCHEDULING QUEUED)* followed by a prefix of SCHEDULING RUNNING (SUCCEEDED or FAILED or CANCELLING CANCELLED). |
| `Guarantees.Final` | services/api/runscope_api/state_machine.py:9-19 | SUCCEEDED, FAILED and CANCELLED are absorbing over every continuation, completion time and failure code included; a committed CANCELLING can only become CANCELLED; no audit row is lost. |
| `Guarantees.StartsOnce` | services/api/runscope_api/run_execution.py:140-172 | No execution takes a run into RUNNING twice, however its assignments are duplicated, reordered, lost by crashes, requeued and handed out again. |
| `Guarantees.HolderIsLeaseWorker` | services/scheduler/runscope_scheduler/service.py:98-163 | In every reachable state a run that holds a lease is assigned to the worker of the lease, and a queued run to nobody. |
| `Guarantees.TimesOrdered` | services/api/runscope_api/state_machine.py:43-50 | In every reachable state queued <= started <= completed <= now, a start time is set exactly for started runs and a completion time exactly for ended ones. |
| `Effects.TimesAreMoments` | services/api/runscope_api/state_machine.py:43-50 | In every execution the step that starts a run writes the time of that step as its start, the step that ends it as its completion, and the step that adds it as its creation and queueing; no other step changes these. |
| `Effects.SubmitWrites` | services/api/runscope_api/run_execution.py:89-127 | A request within the bounds on CPU, memory and priority adds exactly one queued row with what it asked for and one message; any other changes nothing. |
| `Effects.RetryWrites` | services/api/runscope_api/api/runs.py:279-334 | A retry of a FAILED run adds exactly one queued row with the same request and notes and one attempt more, and one message; any other changes nothing. |
| `Effects.CancelWrites` | services/api/runscope_api/api/runs.py:251-265 | A RUNNING run becomes CANCELLING with one audit row, one version more and one message, and nothing else changes; any other run is left alone. |
| `Effects.EditWrites` | services/api/runscope_api/api/runs.py:348-360 | An edit writes the notes given and one audit row, and raises the version if and only if the notes differ. |
| `Effects.RegisterAgainWrites` | services/api/runscope_api/worker_registry.py:31-36 | A known name comes back ONLINE with the totals given and a fresh heartbeat; leases, runs and other workers are left alone. |
| `Effects.RegisterNewWrites` | services/api/runscope_api/worker_registry.py:18-30 | A new name adds an empty ONLINE worker with the totals given. |
| `Effects.HeartbeatWrites` | services/api/runscope_api/worker_registry.py:66-84 | A heartbeat brings a known worker ONLINE, fresh, and lets each of its active leases run exactly the lease time from now; nothing else changes. |
| `Effects.PassHandsOut` | services/scheduler/runscope_scheduler/service.py:154-174 | Every lease a pass adds is for a queued run, for what it asks, held by a fresh ONLINE worker, and runs exactly the lease time from the placement. |
| `Guarantees.LeaseCount` | services/api/runscope_api/models.py:360-366 | The lease invariant bounds the set of active allocations of a run to one or none, by its status. |
| `Fencing.OnlyStartStarts` | services/api/runscope_api/run_execution.py:165-172 | The only action that takes a run into RUNNING is the start commit of a session that passed the lease check and still holds the current version. |
| `Fencing.FencedStart` | services/api/runscope_api/run_execution.py:143-172 | When a run enters RUNNING, the committing worker owns its active allocation, acts on an assignment message of the outbox, and the token of that message is the token of the allocation. |
| `Fencing.SupersededTokenIsHarmless` | services/api/runscope_api/run_execution.py:143-154 | A session whose token is not the token of the current lease changes no status, version, allocation, worker or message, whatever it does; at most it goes on logging. |
| `Fencing.StaleSnapshotIsHarmless` | services/api/runscope_api/models.py:201-203 | A session that holds an outdated version changes nothing, audit rows and messages included, except that a step whose checkpoint saw no cancellation still adds its log rows. |
| `Fencing.SingleExecutor` | services/api/runscope_api/run_execution.py:140-172 | At no time do two sessions execute the same run, and while the run holds a lease it is the lease of its executor. |
| `Conservation.EveryLeaseAnnouncedOnce` | services/scheduler/runscope_scheduler/service.py:34-46 | In every reachable state the assignments in the outbox, in order, are exactly one per allocation ever made, with its run, worker and token: none twice, none missing, none made up. |
| `Conservation.MessagesConserved` | services/scheduler/runscope_scheduler/service.py:154-175 | For every run: one submission, as many assignments as allocations and as SCHEDULING entries, as many cancel messages as CANCELLING entries (at most one). Over all runs: assignments at different positions carry different tokens, every allocation has its assignment, and every assignment names an allocation of the same run and worker. |
| `Fencing.LogsAreNumbered` | services/api/runscope_api/run_execution.py:278-347 | Log lines are numbered 1 to n and progress steps 1 to m at all times, and the unique index never rejects a line of an executing session. |
| `Fencing.StepwiseRecord` | services/api/runscope_api/run_execution.py:293-347 | A checkpointed run that succeeds has exactly total metrics and total + 1 log lines; one that acknowledges a cancellation in step k has k + 1 lines and k - 1 metrics. |
| `Fencing.ProgressIncreases` | services/api/runscope_api/run_execution.py:320-332 | The recorded progress values lie in (0, 1] and strictly increase. |
| `Fencing.SuccessCommitsIffUntouched` | services/api/runscope_api/run_execution.py:217-225 | Successful work is committed as SUCCEEDED if and only if the version of the run is still the one the start commit wrote; otherwise nothing is written. |
| `Fencing.EditLosesSuccess` | services/api/runscope_api/run_execution.py:241-257 | If a metadata edit comes before the final commit of a direct execution and the session then rereads the run and records the failure, the run ends FAILED with template_execution_failed, although without the edit it would have succeeded. |
| `Steps.StartsIffCurrent` | services/api/runscope_api/run_execution.py:140-172 | A freshly delivered assignment that meets no interference starts its run, at that moment, if and only if the run is SCHEDULING and the message carries the token of its active lease; the session is then set to the steps of its plan. Otherwise nothing is written. |
| `Steps.DeliverOpens` | services/worker/runscope_worker/main.py:29-62 | A message opens a session if and only if it is an assignment to this worker that the worker has not recorded as processed. |
| `Steps.AcknowledgedOnce` | services/worker/runscope_worker/main.py:55-62 | A message recorded as processed opens no session of that worker in any continuation. |
| `Steps.WarmNow` | services/api/runscope_api/run_execution.py:278-286 | The first log line is written and the session sleeps before its first step. |
| `Steps.CheckNow` | services/api/runscope_api/run_execution.py:295 | A checkpoint takes down the present status and version and writes nothing. |
| `Steps.RecordNow` | services/api/runscope_api/run_execution.py:296-334 | Without a cancellation seen, a step adds exactly its line and metric and goes on; with one, the run is CANCELLED now with one more line and its lease released, unless its row was written since, and then nothing is written. |
| `Steps.FinishNow` | services/api/runscope_api/run_execution.py:349-419 | Against a current RUNNING snapshot the run ends as the outcome says, now, with its failure code and with its lease released; the trouble of a direct execution is rolled back first; against any other snapshot nothing is written. |
| `Steps.RereadNow` | services/api/runscope_api/run_execution.py:246 | The read after a rollback takes down the present status and version and writes nothing. |
| `Steps.RescueNow` | services/api/runscope_api/run_execution.py:249-257 | The failure commit fails the run with the code of the trouble if and only if it was RUNNING when read again and has not been written since. |
| `Pace.PlanIsKept` | services/api/runscope_api/run_execution.py:278-293 | A run started in n steps has, whenever it is found SUCCEEDED in any continuation, exactly max(1, n) metrics and one line more, and its session never has another number of steps before it. |
| `Pace.UndisturbedSucceeds` | services/api/runscope_api/run_execution.py:293-419 | When nobody interferes, a checkpointed run takes all its steps and succeeds. |
| `Pace.CancellationIsAcknowledged` | services/api/runscope_api/run_execution.py:294-318 | A cancellation that comes while the executor sleeps is acknowledged at the next checkpoint, with one line and no further metric. |
| `Success.OnlyFinishSucceeds` | services/api/runscope_api/run_execution.py:217-225 | The only action that takes a run into SUCCEEDED is the final commit of a session whose snapshot is current and RUNNING. |
| `Success.OutdatedNeverSucceeds` | services/api/runscope_api/run_execution.py:217-257 | Once the snapshot of a session that is about to finish is outdated, or was not RUNNING, no continuation of any kind ever takes the run into SUCCEEDED; this does not depend on what the session reads after a rollback. |
| `Success.SuccessPossibleIff` | services/api/runscope_api/run_execution.py:411-419 | A run whose work is done can still come to SUCCEEDED, by some continuation, if and only if its row has the version the session read and that read said RUNNING. |
| `Success.EditForfeitsSuccess` | services/api/runscope_api/api/runs.py:348-360 | A metadata edit that changes something before the final commit rules out SUCCEEDED in every continuation, although the commit would have succeeded without it. |
| `Timing.HeartbeatProtects` | services/api/runscope_api/worker_registry.py:60-84 | After a heartbeat at H, and whatever happens in between, no pass up to H + min(stale seconds, lease seconds) changes any active allocation of the worker or the run behind it. |
| `Timing.FloorHolds` | services/api/runscope_api/worker_registry.py:68-80 | The invariant behind it: no action of anybody lets a heartbeat column fall below H or a lease of the worker below H + lease seconds. |
| `Timing.StaleHoldsNothing` | services/scheduler/runscope_scheduler/service.py:54-120 | In every reachable state a STALE worker has no active allocation. |
| `Timing.DeadWorkerLosesAll` | services/scheduler/runscope_scheduler/service.py:54-120 | One pass after heartbeat + stale seconds the worker, with or without leases, is STALE and holds nothing; its RUNNING runs are FAILED with the lease code, its CANCELLING runs CANCELLED, its SCHEDULING runs QUEUED or given to another worker. |
| `Timing.TakenBackIff` | services/scheduler/runscope_scheduler/service.py:72-117 | In every reachable state a pass takes back an active lease, at its own time, if and only if the lease time is over or the worker is ONLINE with a heartbeat older than the stale time; its run is then FAILED with the lease code, CANCELLED, or QUEUED again (perhaps with a new lease at once), by prior status. Otherwise lease and run are untouched. |
| `Timing.OrphanEndsOnlyByRecovery` | services/scheduler/runscope_scheduler/service.py:72-117 | A started run that no session works on ends in a step if and only if that step is a pass that finds its lease expired or its worker silent. |
| `Timing.OrphanOutlivesRestart` | services/api/runscope_api/worker_registry.py:71-80 | While every pass comes within the stale and the lease time of a heartbeat of the worker, and whatever else anybody does, an orphaned run stays an orphan and keeps its lease. |
| `Timing.OrphanStaysIff` | services/scheduler/runscope_scheduler/service.py:72-117 | Over any sequence of actions an orphan stays an orphan with the same lease if and only if no pass finds that lease expired or its worker silent, and otherwise it ends. |
| `Witness.StartReached` | services/api/runscope_api/run_execution.py:140-172 | An execution of seven actions that takes a run into RUNNING and its session to a certain success. |
| `Witness.SlowSuccess` | services/api/runscope_api/run_execution.py:271-423 | For every number of steps an execution that starts a run with that plan, takes all steps and succeeds. |
| `Witness.LostSuccess` | services/api/runscope_api/run_execution.py:217-257 | An execution in which the work of a run succeeds, its notes are edited before the commit, and the run ends FAILED. |
| `Witness.OrphanReached` | services/scheduler/runscope_scheduler/service.py:72-117 | An execution that ends with a started run without executor and with an active lease. |
| `Witness.OrphanOutlivesLease` | services/api/runscope_api/worker_registry.py:71-80 | For every length of time after the crash, an execution in which a heartbeat keeps the orphan and its lease over the next pass. |
| `Capacity.CachedCapacityIsExact` | services/api/runscope_api/worker_registry.py:42-57 | In every reachable state the cached CPU, memory and run count of every worker equal the values recomputed from active allocations, clamp included. |
| `Capacity.OvercommitOnlyByRegistering` | services/api/runscope_api/worker_registry.py:31-36 | A worker whose leases fit its totals stops fitting in one step only if that step re-registers it, by name, with smaller totals. |
| `Lineage.RetriesFormAForest` | services/api/runscope_api/api/runs.py:277-336 | The attempt number is the length of the parent chain, the chain goes strictly back in time to a first attempt, every proper ancestor is FAILED and all members share experiment, template, priority and request. |
| `Summary.SummaryAddsUp` | services/api/runscope_api/api/health.py:163-208 | In every reachable state the run and worker figures are the sizes of the sets they name; active + queued + ended is all runs; active runs equal active allocations; one non-negative duration per ended run; success rate in [0, 1] and times ended runs equal to succeeded ones; average times ended runs equal to the time they took; capacity in use among online workers never exceeds what all leases add up to, and equals it exactly when no online worker is overcommitted. |
| `Summary.ActiveRunsAreLeases` | services/api/runscope_api/api/health.py:188-191 | The active-run figure equals the number of active allocations. |
| `Summary.LoadsAddUp` | services/api/runscope_api/api/health.py:175-185 | Summing loads worker by worker gives the sum over all active allocations. |
| `Lifecycle.Fate` | services/api/runscope_api/state_machine.py:9-19 | What an extended chained log may become: ended stays ended, cancelling ends cancelled, started stays started, no entry is lost. |
| `Lifecycle.StartedOnce` | services/api/runscope_api/state_machine.py:9-19 | A chained log enters RUNNING exactly once if its status is a started one and never otherwise, and enters CANCELLING at most once. |
| `Lifecycle.WalksAreStories` | services/api/runscope_api/state_machine.py:9-19 | A path of at least two statuses follows the table without RETRYING if and only if it is a sentence of the life-story language. |
| `Lifecycle.RetryingInTable` | services/api/runscope_api/state_machine.py:15-18 | RETRYING is entered from FAILED only and left to QUEUED only; the other ends allow nothing. |
| `Lifecycle.PathWalks` | services/api/runscope_api/state_machine.py:51-58 | The statuses recorded by a chained log are a walk through the table that ends in the current status. |
| `Tables.LeaseOf` | services/api/runscope_api/worker_registry.py:88-95 | Finds an active allocation of the run if there is one and reports none otherwise. |
| `Consistency.MoveOk` | services/api/runscope_api/state_machine.py:34-59 | A permitted transition keeps the log chained, the times ordered (queued, started, completed) and present exactly when due, and adds one entry. |
| `Consistency.EvolvesTransitive` | services/api/runscope_api/models.py:201-203 | Evolution of the tables composes: what holds of each committed step holds of their sequence. |
| `Consistency.ConcludeOk` | services/api/runscope_api/worker_registry.py:87-103 | Ending or requeueing a run together with the release of its lease keeps all tables consistent. |
| `Consistency.AssignOk` | services/scheduler/runscope_scheduler/service.py:154-174 | An assignment to a worker with room keeps all tables consistent, message counts and cached columns included. |
| `Consistency.CapacityAssigned` | services/scheduler/runscope_scheduler/service.py:171-173 | After the incremental update of the cached columns they equal the recomputed ones, and the sums stay within the totals of the worker. |
| `Consistency.InsertOk` | services/api/runscope_api/run_execution.py:89-127 | Adding a first attempt or a retry keeps all tables consistent. |
| `Consistency.CancelOk` | services/api/runscope_api/api/runs.py:258-265 | A committed cancellation keeps all tables consistent and is matched by one message. |
| `Ordering.QueryMatches` | services/scheduler/runscope_scheduler/service.py:127-137 | A filtered, ordered and limited query returns matching rows only, in strict order, within the limit. |
| `Ordering.QueryPrefix` | services/scheduler/runscope_scheduler/service.py:132-133 | Matching rows in order, ranked before all other matching rows, come first in the result. |
| `Ordering.QueryCounts` | services/scheduler/runscope_scheduler/service.py:127-137 | A query returns all matching rows, or as many as the limit allows. |
| `Ordering.QueryOmits` | services/scheduler/runscope_scheduler/service.py:132-133 | It leaves out a matching row only when the limit is filled by rows before it. |
| `Scheduler.RecoverOk` | services/scheduler/runscope_scheduler/service.py:49-120 | A recovery pass keeps the tables consistent, releases exactly the allocations that expired or belong to silent workers, recovers exactly their runs by status, and marks exactly the silent workers. |
| `Scheduler.RecoverExactly` | services/scheduler/runscope_scheduler/service.py:55-86 | Row by row: released now are exactly the active leases that have expired or belong to an ONLINE worker silent for longer than the stale time; STALE become exactly those workers. |
| `Scheduler.RecoverAllReclaims` | services/scheduler/runscope_scheduler/service.py:87-117 | The loop over allocations does to all of them what one turn does to one, and to no other row. |
| `Scheduler.RecoverOnLease` | services/scheduler/runscope_scheduler/service.py:87-117 | One active allocation and its run: recovered by prior status if doomed, untouched otherwise. |
| `Scheduler.FinalRefresh` | services/scheduler/runscope_scheduler/service.py:118-119 | The refresh of stale workers at the end of recovery finds nothing to correct. |
| `Scheduler.DeadWorkerReclaimed` | services/scheduler/runscope_scheduler/service.py:54-120 | Recovery after heartbeat + stale seconds leaves the worker STALE and empty, its runs QUEUED, FAILED or CANCELLED by prior status. |
| `Scheduler.RecoverIdempotent` | services/scheduler/runscope_scheduler/service.py:72-120 | A second recovery at the same instant finds no allocation and changes nothing. |
| `Scheduler.PickWorker` | services/scheduler/runscope_scheduler/service.py:140-151 | Picks a worker that is ONLINE, has a heartbeat within the stale time and enough free CPU and memory, with the fewest runs and among those the smallest name; none only if nobody qualifies. |
| `Scheduler.ScheduleOk` | services/scheduler/runscope_scheduler/service.py:123-177 | A whole pass keeps the tables consistent and only lets them evolve. |
| `Greedy.EarlierRunsUnaffected` | services/scheduler/runscope_scheduler/service.py:139-175 | Two systems that agree on workers, allocations and the rows of the first runs, and differ in the other rows and in the queue behind, give the first runs the same leases and the same new rows. |
| `Greedy.PassDecidesInOrder` | services/scheduler/runscope_scheduler/service.py:123-177 | The same for whole passes: what is decided about the foremost queued runs does not depend on what is queued behind them. |
| `Greedy.WaitingRunsFitNowhere` | services/scheduler/runscope_scheduler/service.py:140-153 | Every examined run still queued at the end of the loop fits on no fresh online worker. |
| `Greedy.PassLeavesNoRoom` | services/scheduler/runscope_scheduler/service.py:123-177 | A run still queued after a whole pass fits on no fresh online worker, or stands behind a full batch of better ranked runs. |
| `Greedy.OvertakenOnlyBySmaller` | services/scheduler/runscope_scheduler/service.py:139-153 | A run is overtaken by a later one of the queue only if that one asked for less CPU or less memory. |
| `Greedy.PriorityHonoured` | services/scheduler/runscope_scheduler/service.py:123-177 | The same for a whole pass, where earlier means higher priority, then older, then lower id. |
| `Greedy.QueueOk` | services/scheduler/runscope_scheduler/service.py:127-137 | The queue holds queued runs only, each once, highest priority first, then oldest, then lowest id, at most 100, and leaves one out only behind 100 that come before it. |
| `Greedy.PassOnLease` | services/scheduler/runscope_scheduler/service.py:123-177 | A whole pass leaves an active allocation and its run exactly as they were, unless the allocation is doomed, and then a started run ends. |
| `Safety.NextOk` | services/api/runscope_api/run_execution.py:132-268 | Every single action keeps the invariant and only lets the tables evolve. |
| `Safety.SessionStepOk` | services/api/runscope_api/run_execution.py:140-257 | The same for every move of a worker session, however old its snapshot. |
| `Safety.SubmitOk` | services/api/runscope_api/run_execution.py:82-129 | Submitting a run keeps the invariant. |
| `Safety.RetryOk` | services/api/runscope_api/api/runs.py:270-336 | Retrying a run keeps the invariant. |
| `Safety.CancelRunOk` | services/api/runscope_api/api/runs.py:243-267 | Cancelling a run keeps the invariant. |
| `Safety.EditOk` | services/api/runscope_api/api/runs.py:339-362 | Editing metadata keeps the invariant. |
| `Safety.RegisterOk` | services/api/runscope_api/worker_registry.py:10-39 | Registering a worker, for the first time or again, keeps the invariant. |
| `Safety.HeartbeatOk` | services/api/runscope_api/worker_registry.py:60-84 | A heartbeat keeps the invariant. |
| `Safety.PassOk` | services/scheduler/runscope_scheduler/service.py:123-177 | A scheduling pass keeps the invariant. |
| `Safety.DeliverOk` | services/worker/runscope_worker/main.py:54-62 | Delivering any assignment of the outbox, any number of times, keeps the invariant. |
| `Safety.StartOk` | services/api/runscope_api/run_execution.py:165-172 | The start commit keeps the invariant. |
| `Safety.RecordOk` | services/api/runscope_api/run_execution.py:296-334 | Recording a step or acknowledging a cancellation keeps the invariant. |
| `Safety.FinishOk` | services/api/runscope_api/run_execution.py:217-225 | Committing the end of an execution keeps the invariant. |
| `Safety.RescueOk` | services/api/runscope_api/run_execution.py:245-257 | Recording a failure after a rollback keeps the invariant. |
| `Platform.Database.RefreshWorkerCapacity` | services/api/runscope_api/worker_registry.py:42-57 | The loop sums the active allocations of one worker; its columns are written and nothing else. |
| `Platform.Database.ReleaseAllocation` | services/api/runscope_api/worker_registry.py:87-103 | Releases the active allocation of the run and refreshes its worker, or changes nothing. |
| `Platform.Database.Register` | services/api/runscope_api/worker_registry.py:10-39 | Refines the Register action; valid before and after. |
| `Platform.Database.RenewLeases` | services/api/runscope_api/worker_registry.py:79-80 | The loop renews every active allocation of the worker and no other. |
| `Platform.Database.Heartbeat` | services/api/runscope_api/worker_registry.py:60-84 | Refines the Heartbeat action; reports an unknown worker. |
| `Platform.Database.MarkStaleWorkers` | services/scheduler/runscope_scheduler/service.py:56-70 | The loop marks exactly the silent online workers and returns their ids. |
| `Platform.Database.FindDoomed` | services/scheduler/runscope_scheduler/service.py:72-86 | The recovery query selects exactly the doomed allocations. |
| `Platform.Database.RecoverRun` | services/scheduler/runscope_scheduler/service.py:88-117 | One turn of the recovery loop. |
| `Platform.Database.RecoverExpiredAllocations` | services/scheduler/runscope_scheduler/service.py:49-120 | Refines recovery; returns the number of doomed allocations. |
| `Platform.Database.PlaceRuns` | services/scheduler/runscope_scheduler/service.py:138-175 | The loop refines the greedy function; returns the number of leases handed out. |
| `Platform.Database.ScheduleOnce` | services/scheduler/runscope_scheduler/service.py:123-177 | Refines the Pass action; returns the number of leases handed out. |
| `Platform.Database.CreateQueuedRun` | services/api/runscope_api/run_execution.py:82-129 | Refines Submit; returns the new id exactly for acceptable requests. |
| `Platform.Database.RetryRun` | services/api/runscope_api/api/runs.py:270-336 | Refines Retry; accepted exactly for FAILED runs. |
| `Platform.Database.CancelRun` | services/api/runscope_api/api/runs.py:243-267 | Refines Cancel; accepted exactly for RUNNING runs, which are then CANCELLING with one message more, and without effect otherwise. |
| `Platform.Database.UpdateRunMetadata` | services/api/runscope_api/api/runs.py:339-362 | Refines EditNotes; found exactly for existing runs. |
| `Platform.Database.Receive` | services/worker/runscope_worker/main.py:29-62 | Refines Deliver: messages of other types, for other workers or already processed open no session. |
| `Platform.Database.LoadRun` | services/api/runscope_api/run_execution.py:140-142 | Refines the read of the run. |
| `Platform.Database.CheckLease` | services/api/runscope_api/run_execution.py:143-154 | Refines the read of the lease. |
| `Platform.Database.CommitStart` | services/api/runscope_api/run_execution.py:165-172 | Refines the start commit; a checkpointed plan is set to max(1, n) steps. |
| `Platform.Database.WriteStartLine` | services/api/runscope_api/run_execution.py:278-286 | Refines the first log line. |
| `Platform.Database.ReadCheckpoint` | services/api/runscope_api/run_execution.py:295 | Refines the read at a checkpoint. |
| `Platform.Database.RecordProgress` | services/api/runscope_api/run_execution.py:296-334 | Refines a step: acknowledge or record. |
| `Platform.Database.CommitFinish` | services/api/runscope_api/run_execution.py:349-419 | Refines the final commit, direct or checkpointed. |
| `Platform.Database.RereadRun` | services/api/runscope_api/run_execution.py:245-248 | Refines the read after a rollback. |
| `Platform.Database.CommitFailure` | services/api/runscope_api/run_execution.py:249-257 | Refines the failure commit. |
| `Platform.Database.AcknowledgeMessage` | services/worker/runscope_worker/main.py:84-90 | Refines the record of a processed message. |
| `SlowRun.ExecuteSlowRun` | services/api/runscope_api/run_execution.py:271-423 | The whole loop under arbitrary interference is exactly one sequence of actions; when it ends the run has the status, log lines and metrics its result says, refused commits included. |
| `SlowRun.TakeTurn` | services/api/runscope_api/run_execution.py:293-334 | One turn of the loop under interference moves to the next step, to the end, to an acknowledged cancellation or to a refused commit, with the matching record. |
| `Outbox.SendWorks` | services/api/runscope_api/outbox.py:37-58 | The messages before the first failure are published, that one counts one attempt more, nothing else changes. |
| `Outbox.DispatchCounts` | services/api/runscope_api/outbox.py:31-60 | A batch publishes at most limit messages, and with a working broker as many as are eligible within the limit. |
| `Outbox.DispatchKeepsOrder` | services/api/runscope_api/outbox.py:22-59 | If no settled message (published or out of attempts) is stamped later than an eligible one, this holds after a batch, whatever the broker does and however the database orders equal stamps. |
| `Outbox.OldestFirst` | services/api/runscope_api/outbox.py:24-49 | When a batch publishes a message, it publishes every eligible message with an earlier stamp as well. |
| `Outbox.AppendKeepsOrderIff` | services/api/runscope_api/models.py:397-401 | A new message keeps that order if and only if no settled message is younger than its time stamp. |
| `Outbox.AlwaysInOrder` | services/api/runscope_api/outbox.py:22-59 | In every history of appends, stamped in order, and batches, messages are settled in the order of their stamps, for every order of equal stamps. |
| `Outbox.AlwaysPrefix` | services/api/runscope_api/outbox.py:22-59 | If no two messages share a stamp, the settled messages are a prefix of the table in every history. |
| `Outbox.PrefixSurvivesIff` | services/api/runscope_api/outbox.py:24-34 | Every batch, for every limit, order of equal stamps and broker, leaves the settled messages a prefix of the table, if and only if the eligible messages are stamped in table order without ties. |
| `Outbox.EqualStampsHaveNoOrder` | services/api/runscope_api/outbox.py:30 | A history in which two messages with one stamp, as one transaction writes them, are published second before first. |
| `Outbox.OrderSurvivesIff` | services/api/runscope_api/models.py:397-401 | At all times of a history of appends and batches messages are settled in the order of their stamps, if and only if no message is added with a stamp earlier than that of a message already settled. |
| `Outbox.LateCommitBreaksOrder` | services/api/runscope_api/models.py:397-401 | A history that breaks the order: a message stamped 10 is added and published, then one stamped 9 is added. |
| `Outbox.DispatchDrains` | services/api/runscope_api/outbox.py:24-59 | A batch never raises the attempts left, lowers them if any message is eligible, and never lets attempts exceed the maximum. |
| `Outbox.OutboxDrains` | services/api/runscope_api/outbox.py:24-59 | A fixed outbox is settled after as many batches as it has attempts left, whatever the broker does. |
| `Outbox.Dispatcher.DispatchBatch` | services/api/runscope_api/outbox.py:16-60 | The loop refines the dispatch function for every order of equal stamps, returns the number published and keeps the order. |
| `RunStream.Boundary` | apps/web/src/hooks/useRunStream.ts:69 | Finds the first blank line, or reports that there is none. |
| `RunStream.CutInTurns` | apps/web/src/hooks/useRunStream.ts:68-73 | Cutting a text into blocks can be done in instalments with the rest carried over. |
| `RunStream.ChunkwiseNormalizeIff` | apps/web/src/hooks/useRunStream.ts:68 | Replacing CR LF chunk by chunk equals replacing it in the whole text if and only if no cut falls inside a CR LF pair. |
| `RunStream.ReadsAsWholeIff` | apps/web/src/hooks/useRunStream.ts:65-73 | The reader finds in the chunks what it would find in the normalised whole text, blocks and rest, if and only if no cut falls inside a CR LF pair. |
| `RunStream.CutMatters` | apps/web/src/hooks/useRunStream.ts:68 | Two ways to cut the same four characters, one a blank line and one not. |
| `RunStream.ParseUndoesPrint` | services/api/runscope_api/api/runs.py:380-384 | In a printed frame the id, event and data lines carry exactly the id, type and JSON text of the event. |
| `RunStream.PreambleIgnored` | services/api/runscope_api/api/runs.py:376 | The preamble asks for reconnection after 2000 ms and carries no data. |
| `RunStream.DecodedIffData` | apps/web/src/hooks/useRunStream.ts:13-24 | A block is decoded if and only if its first data line is there and not empty. |
| `RunStream.ChunksDoNotMatter` | apps/web/src/hooks/useRunStream.ts:62-80 | However the stream of the server is cut into chunks, the reader finds the preamble and exactly the printed frames, with nothing left over. |
| `RunStream.EventsArriveAsPrinted` | services/api/runscope_api/api/runs.py:375-384 | The parsed events are the printed events, in order, and the preamble parses to nothing. |
| `RunStream.InterruptedStream` | apps/web/src/hooks/useRunStream.ts:65-67 | A connection that breaks at any character has delivered a prefix of the printed frames. |
| `RunStream.NoticeAllOk` | apps/web/src/hooks/useRunStream.ts:74-78 | The seen set is the last 500 announced ids, and no id causes two refreshes unless 500 others came between. |
| `RunStream.EveryNewIdRefreshes` | apps/web/src/hooks/useRunStream.ts:74-78 | Ids that arrive for the first time cause one refresh each, in order. |
| `RunStream.StreamReader.Connect` | apps/web/src/hooks/useRunStream.ts:62-80 | The read loop over the chunks of a connection refines cutting, parsing and noticing the joined text; the seen set stays within 500. |
| `RunStream.StreamReader.Read` | apps/web/src/hooks/useRunStream.ts:68-79 | The same for one chunk. |

## Left out

- Liveness: no run is claimed to end eventually; heartbeats alone can keep an orphan alive, and the direct executor has no cancellation checkpoint.
- Concurrent schedulers or dispatchers, row locks and `skip_locked`.
- Authentication, roles, ownership checks and log redaction.
- Template registry and parameter validation; only the bounds on requested CPU, memory and priority are kept.
- Training code, artifact bytes, checksums and storage retries; an execution is an outcome.
- Metrics and artifacts of direct executions; their log lines are numbered, their contents are not modelled.
- Event types, metadata and correlation ids of audit rows and messages, beyond what a consumer looks at.
- Tags: part of the notes in the model; the tag-length rejection writes nothing and is not an action.
- Live publication to connected browsers during an execution; its failures never reach the database.
- Broker, Redis, S3 and HTTP clients; publishing may fail, and messages may arrive repeatedly.
- Polling delays and back-off of the endless loops.
- The unpublished-message figure of the platform summary; publication state is modelled in `Outbox` only.
- Projects, experiments, search, pagination, run comparison, migrations, deployment and the user interface.
