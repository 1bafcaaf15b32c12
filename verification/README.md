# Treeweft: schedulers, protocols and refinements

A Dafny model of the parts of Treeweft whose logic decides what may run, what may be written
and what is reported, with proofs of what that logic promises.
`dafny verify dfyconfig.toml` verifies the whole project.

## What is modelled

**Admission slots** (`SlotQueue`, `PrioritySlots`). `SlotQueue` is the reference model: two plain
queues of pending callers, granted and running calls, and five events. `PrioritySlots.Slots` is the
class of `domain/priority_slots.py`, with its counters and its deques of futures that cancelled
callers leave behind. Each method is one atomic step of the event loop, and cancelling a future is
a step apart from the caller's own cancellation. Every method is proved equal to one step of the
reference model; limits, work conservation, order and bounded starvation are proved of that model.

**Refresh preemption** (`Jobs`, `JobTable`, `RefreshPreemption`, `RefreshOrder`, `LostWakeups`,
`JobRun`, `JobStore`). The jobs and queue tables, the requests that preempt a refresh, the workers with their
hook and retries, exceptions that are only logged, crashes, and the recovery loops that run beside
the workers, as a state machine with one label for each database step. The guarantee that no waiting
job is forgotten is stated with its exact condition, because five kinds of step can break it (see
"Findings"); order, at most one worker for a job, and what lost wakeups lead to are proved beside
it. `JobStore.Store` is the imperative form of the transactions and of the recovery loops, each
proved to be steps of the machine, and `RefreshPlanning` is the plan that creates refreshes.

**Rebuild against dispatch** (`RebuildProtocol`, `RebuildDispatch`, `RebuildRun`,
`WorkerRun`, `IndexGuard`). A worker announces its job and then
probes the lock; a rebuild takes the lock and then looks for active jobs. Each read and write is a
step of its own, with any number of workers and rebuilds, and a crash possible between any two.
Proved over whole runs: mutual exclusion, what is reported of a rebuild that has left, and which jobs
are refused after it. `IndexGuard.Guard` holds the cached status and the refusals of one process; its
methods equal the events of a guard state, and the properties are proved over runs of those events
with index jobs, rebuilds and other processes' checks between them.

**Index stamps** (`IndexStamp`). The decision table for one store, the aggregate, and runs of checks.

**Refresh marker** (`SummaryVectors`, `SummaryRefresh`). The job that rewrites a source's summary
vectors, with every await a point where it may raise, crash, be preempted, or find the source
deleted. A row is "at a version" when its vector is the embedding of its settled summary at that
version. `Await` requires the source to be consistent, so that every point at which another party
can read it is covered.

**Retrieval** (`HitMerging`, `MergeHits`, `MergeFidelity`, `TailSummaries`). Merging adjacent hits,
what it keeps of hits from several sources, and the summaries of the tail of a result list.
**Reranking** (`Reranker`, `Bucketing`). Batched scoring, and what sorting by length saves.
**Markdown** (`Markdown`, `Text`). The chunk part of the printer and a reader by sections 2.1 and
4.5 of the CommonMark Spec (0.31.2), with the exact condition of the round trip
(`MarkdownRoundTrip`, `MarkdownListing`). **Encodings** (`SharedKeys`), the **circuit breaker**
(`CircuitBreaker`) against the history of its calls, and the **rotating window** of the fleet
refresh (`FleetWindow`).

## Findings

Each is a lemma, with the exact condition where there is one.

* Cancelling a queued refresh strands jobs that the promotion hook has linked behind it
  (`src/treeweft/adapters/postgresql/job_store.py:206-231` leaves them waiting on a finished job;
  `CancelledRefreshStrandsWaiter`). A refresh resumed after a restart reads `running` while it sits in
  the queue (`src/treeweft/application/lifecycle.py:580-595`), so the same cancel leaves it active with
  nobody to run it (`ResumedRefreshIsLost`). A write that makes a job active again, by a retry or by
  the announcement of a job queued twice, is refused by the unique index if another job has its source,
  and the worker's hook does not run (`src/treeweft/adapters/queue/postgres_queue.py:132-202`;
  `LostRetryStrandsWaiter`). An exception in the hook is swallowed, one in a worker is logged after the
  queue row is gone, and one in a request leaves what it had in hand, all without the restart that
  would recover it (`src/treeweft/adapters/queue/postgres_queue.py:261-268`, `:322-326`;
  `RaisingHookStrandsWaiter`, `RaisingWorkerAbandons`, `RaisingPushStrandsItself`,
  `RaisingRequestAbandons`). `NoLostWakeup` shows that in this model these five kinds of step are the
  only ways to lose a wakeup, given that `promote_next_waiting` is one step.
* It is one step only if its transaction is serializable: as written, the active job it reads can finish,
  with a hook that finds nobody waiting, before the relink commits (`StaleRelinkStrandsWaiter`).
* The engineering notes (`docs/engineering-notes.md:376`) say a job is not run twice. Recovery runs
  beside the workers of its own and of other processes (`src/treeweft/application/lifecycle.py:537-603`)
  and queues jobs they hold, so two workers can run one job (`JobRunsTwice`); that is the only way
  (`NoDoubleRun`). It also writes running jobs as done, which lets two jobs of one source run at once
  (`TwoJobsOfOneSource`).
* The same two steps break the rebuild's exclusion: a row written as done under a live job, and the
  end of one of two workers on one job, hide a job that indexes from the rebuild's check
  (`LiveSupersedeBreaksExclusion`, `SecondRunBreaksExclusion`). One process is enough, because it starts
  its workers before its own recovery.
* A rebuild that dies with its group made, and before its job check ends, does not stop a worker that
  had read the groups before: it indexes while "interrupted" is reported (`EarlyReaderIsLetThrough`,
  on a run from nothing by `EarlyReader`). `DispatchJudged` says how every worker is judged by what it
  read, `DispatchAfterRebuild` how those that read the rebuild's group are, and
  `DispatchAfterCheck` that nobody else is left once the job check came back empty.
* A rebuild that raises in its second, third or fifth step does not release the lock
  (`src/treeweft/application/index_guard.py:555-595`): as long as its lock connection lives no other rebuild
  begins and no stamp is written (`AbandonKeepsTheLock`).
* Hits are merged by path alone (`src/treeweft/application/retrieval.py:529-531`), so two sources with one
  path get one merged hit: it has the source of one and the text of the other, whose line is lost
  (`TwoSourcesOnePath`). Incremental jobs store paths relative to their repository
  (`src/treeweft/application/indexer_runners.py:1770`), so such paths occur. Faithful hits stay faithful
  exactly if every merged line is a line that the named source's hits have (`FaithfulExactly`); and no
  source loses or gains a line exactly if each merged run is of one source, as long as no line of a path
  is in two runs (`CoverageExactly`).
* Data that arrives between a check's look at an empty store and its stamp write is stamped unverified,
  and no other is (`ArrivalIsStamped`).
* A check that stamps the vector store and then cannot stamp the graph store leaves the index short
  of "ok" until a rebuild: verification only runs for an unstamped vector store
  (`HalfAdoptionSticks`).
* The periodic refresh does soften "reindex_required" to "unverified" before the retry interval has
  passed, which its docstring denies: exactly if nothing but a verification calls for the reindex
  (`RefreshSoftens`). The re-check before a dispatch does so at any time (`DispatchSoftens`).
* A status published while a rebuild held the lock outlives a rebuild that is then refused, and lets a
  job through with no look at the stamps (`src/treeweft/application/index_guard.py:444-455`;
  `PreparingLetsThrough`); `OutsideAllowedExactly` says exactly when a job is let through.
* A path with a line break in it, of any kind, opens a fenced block in the printed list: the handle is printed
  unchanged (`src/treeweft/application/mcp_server.py:396-397`), although the heading puts the same path on
  one line (`HandleOpensBlock`). The list reads back exactly if no line that a handle or the source id
  runs on to opens a fence (`RoundTrip`).
* An index job stores "done" before it records its summary version
  (`src/treeweft/application/indexer_runners.py:981-1052`), so it can take the mark of a refresh away that
  has begun meanwhile; the source stays consistent exactly if the refresh has rewritten no row
  (`RecordLateUnderRefresh`, `LateRecordHidesRefresh`).
* Sorting by length is optimal only if all batches are full or there is one batch
  (`BucketingOptimal`).
* A hit handle with a negative start line does not read back (`HitIdRoundTrip`); the docstring calls
  the round trip safe.

## Assumptions

* The event loop runs one step at a time; asyncio futures are a table keyed by their task.
* A rebuild's group id is fresh and is attached to jobs in its fifth step only; the lock connection
  dies with its process; job rows are not deleted.
* In the preemption protocol a process dies with any of the workers and calls, and at most one process
  at a time is starting; `start_time` decides between waiting jobs, and ties are broken in any way;
  `promote_next_waiting` is one step.
* No job indexes between a rebuild's clearing of the stores and its stamps (proved as
  `MutualExclusion`): `IndexGuard` takes it as the condition of those two events.
* While a refresh job runs no other job adds rows to its source (one active job for a source);
  the embedder answers for each text what it answers for it alone; a cached summary is settled.
* The clock of the circuit breaker never runs back. Its lock makes each call atomic.
* Padding does not change a model score. No text has the empty text's SHA-1.
* Language tags have no backtick or line break; line numbers and scores are printed on one line; chunk
  headers start with the comment marker they are built with
  (`src/treeweft/application/retrieval.py:615-616`). A snippet's line ends count as line feeds.

## Model

| member | source | states |
|---|---|---|
| SlotQueue.StepKeepsInvariant | src/treeweft/domain/priority_slots.py:70-136 | every arrival, withdrawal, resumption, cancellation and release keeps the slot limits, the reservation and work conservation |
| SlotQueue.GiveBack | src/treeweft/domain/priority_slots.py:111-119 | after one slot is given back the whole hand-over loop grants at most one call, and restores the invariant |
| SlotQueue.ReleaseGrantsAtMostOne | src/treeweft/domain/priority_slots.py:90-119 | a release, or a cancellation after a grant, serves at most one caller, the head of its queue |
| SlotQueue.LaneStep | src/treeweft/domain/priority_slots.py:70-119 | each step serves callers of one priority from the front only, and a newcomer never overtakes a pending one |
| SlotQueue.FirstComeFirstServed | src/treeweft/domain/priority_slots.py:70-119 | over any run the callers of one priority that did not withdraw are served in arrival order, and those not served are exactly the queue |
| SlotQueue.FirstComeFirstServedFromEmpty | src/treeweft/domain/priority_slots.py:47-119 | the same for every run from a new object of any legal capacity and reservation |
| SlotQueue.ShareStep | src/treeweft/domain/priority_slots.py:121-136 | while background work waits, interactive calls that hold at most capacity - 1 slots stay there, and a slot given back takes them there |
| SlotQueue.FullHouseGivesToBackground | src/treeweft/domain/priority_slots.py:121-136 | if interactive calls hold every slot, the next slot given back goes to the first background caller |
| SlotQueue.ServedByPriority | src/treeweft/domain/priority_slots.py:96-136 | a slot that comes back goes to the first background call exactly if one may take it and no interactive call waits or interactive calls hold max(1, capacity - 1) slots; otherwise to the first interactive call, if there is one |
| SlotQueue.ServedAtOnce | src/treeweft/domain/priority_slots.py:70-80 | an arrival takes a slot exactly if one is free to its priority, and otherwise becomes the last of its queue |
| SlotQueue.SlotIsKept | src/treeweft/domain/priority_slots.py:70-94 | no step takes a slot from a call that neither gives it up nor releases it, and a call holds one exactly from its resumption or its arrival on |
| SlotQueue.BackgroundIsNotStarved | src/treeweft/domain/priority_slots.py:9-16 | over any run in which background work waits, a background call holds a slot once interactive calls were below capacity or one slot came back |
| SlotQueue.WaitingDoesNotBoundInteractive | src/treeweft/domain/priority_slots.py:121-136 | a run in which background work waits and interactive calls hold every slot: the plain state claim is no invariant |
| PrioritySlots.Slots.Create | src/treeweft/domain/priority_slots.py:47-60 | construction succeeds exactly for capacity >= 1 and 0 <= reserved < capacity, and gives the empty model |
| PrioritySlots.Slots.Waiting | src/treeweft/domain/priority_slots.py:65-68 | counts the pending callers of a priority, not the cancelled futures still in its deque |
| PrioritySlots.Slots.WaitingAtAll | src/treeweft/domain/priority_slots.py:65-68 | without a priority, counts the pending callers of both |
| PrioritySlots.Slots.Acquire | src/treeweft/domain/priority_slots.py:70-80 | takes a slot or queues a future exactly as the arrival in the reference model does |
| PrioritySlots.Slots.CancelFuture | src/treeweft/domain/priority_slots.py:78-88 | a future cancelled in the deque is a withdrawal in the reference model, though its entry stays |
| PrioritySlots.Slots.Resume | src/treeweft/domain/priority_slots.py:80-82 | the granted caller that wakes up holds its slot, and nothing else changes |
| PrioritySlots.Slots.Cancelled | src/treeweft/domain/priority_slots.py:81-88 | a cancelled caller leaves its deque, or gives the slot back that was granted to it: no slot leaks |
| PrioritySlots.Slots.Release | src/treeweft/domain/priority_slots.py:90-94 | a release is the reference model's release with its hand-over |
| PrioritySlots.Slots.HandOverNow | src/treeweft/domain/priority_slots.py:111-119 | the loop over lazily cleaned deques is the hand-over over plain queues, and never resolves a finished future |
| PrioritySlots.Slots.NextPriority | src/treeweft/domain/priority_slots.py:121-136 | cleans finished futures off both heads and picks the priority the reference model picks |
| RefreshPreemption.PromoteWorks | src/treeweft/adapters/postgresql/job_store.py:233-315 | promoting empties the wait behind a job, puts at most one job in the queue, and keeps one active job for a source |
| RefreshPreemption.CancelStep | src/treeweft/adapters/postgresql/job_store.py:206-231 | cancelling a refresh in the queue loses no wakeup exactly if somebody else sees to it where it reads `running`, and where it reads `queued` no job waits behind it or somebody else will promote those that do |
| RefreshPreemption.RefusedWriteStep | src/treeweft/adapters/queue/postgres_queue.py:132-202 | re-queueing a failed incremental job, and announcing a fetched one, loses no wakeup exactly if its source is free, or no job waits behind it, or somebody else will promote those that do |
| RefreshPreemption.OwnedStep | src/treeweft/application/lifecycle.py:537-603 | every safe step of workers, calls, crashes and the first recovery loop, interleaved in any way, leaves every active job to somebody who will run or end it |
| RefreshPreemption.AttendedStep | src/treeweft/application/lifecycle.py:605-630 | every safe step, those of the second recovery loop included, leaves every finished job others wait on to somebody who will promote them |
| RefreshPreemption.AtRest | src/treeweft/application/lifecycle.py:537-630 | once workers, calls and recovery have nothing left to do, every active job is in the queue and every waiting job waits on one of them |
| RefreshPreemption.WorkerRaisesStep | src/treeweft/adapters/queue/postgres_queue.py:261-326 | an exception in a worker or its hook, after which the process lives on, loses no wakeup exactly if its job is somebody else's, or over with no job behind it or somebody else to promote those |
| RefreshPreemption.CallRaisesStep | src/treeweft/application/prompt_refresh.py:315-351 | an exception in a request loses no wakeup exactly if the job it persisted is somebody else's, and somebody else will read again the refresh it waits on |
| RefreshPreemption.StepIsSafeExactly | src/treeweft/application/prompt_refresh.py:298-376 | every step keeps at most one active job for a source and well-formed waits, and keeps nothing stuck exactly if it is safe |
| RefreshPreemption.NoLostWakeup | src/treeweft/application/prompt_refresh.py:298-376 | over any run, with crashes and exceptions at any point and recovery beside the workers, nothing is ever stuck if and only if every step is safe |
| JobRun.JobGoesThrough | src/treeweft/adapters/queue/postgres_queue.py:113-230 | from any state a worker that takes up an active job nobody waits on ends it as its runner does, and nothing else changes |
| JobRun.OverIsDropped | src/treeweft/adapters/queue/postgres_queue.py:129-141 | a claimed job that is already over is dropped and stays as it was |
| JobRun.RetryGoesRound | src/treeweft/adapters/queue/postgres_queue.py:178-202 | an incremental job that raised and may try again is queued, with its row in the queue |
| JobRun.RetryIsGivenUp | src/treeweft/adapters/queue/postgres_queue.py:203-216 | one that may not try again is dead-lettered |
| JobRun.PushTakesOver | src/treeweft/application/prompt_refresh.py:298-335 | a push that finds a queued refresh of its source ends it as done and is queued in its place |
| JobRun.PushGetsItsTurn | src/treeweft/application/prompt_refresh.py:336-376 | a push that finds a refresh running waits behind it, nothing else changing, and is queued when it ends, however it ends |
| JobRun.LatePushIsQueued | src/treeweft/application/prompt_refresh.py:339-353 | a push whose refresh ends before it is persisted as waiting reads that afterwards, and is queued at once |
| JobRun.RequestFails | src/treeweft/adapters/postgresql/job_store.py:85-137 | a request that meets another active job of its source fails and leaves nothing |
| JobRun.ChecksExactly | src/treeweft/application/lifecycle.py:605-630 | the second recovery loop promotes behind a predecessor exactly if it has not looked at it before and it is over or missing |
| RefreshOrder.PromotedInOrder | src/treeweft/adapters/postgresql/job_store.py:233-315 | over any run with any crashes, of two jobs waiting on one job the one built first is promoted first |
| RefreshOrder.PromotedOnce | src/treeweft/application/prompt_refresh.py:356-376 | over any run with any crashes a job leaves the wait at most once, and by entering the queue |
| RefreshOrder.WaitsWhileActive | src/treeweft/adapters/postgresql/job_store.py:233-315 | under every step, a job waiting on an active job keeps waiting on it |
| RefreshOrder.ClaimedAgain | src/treeweft/application/prompt_refresh.py:356-376 | over any run with any crashes, between two claims of a job its own call, a retry or recovery has put it in the queue, and no promotion |
| RefreshOrder.RunsInTurn | src/treeweft/application/prompt_refresh.py:356-376 | over any run with any crashes and retries, a worker takes a job that waited only after every job it ever waited on has been over |
| RefreshOrder.RunsOnce | src/treeweft/application/prompt_refresh.py:356-376 | from the empty tables, without crashes and retries, a worker takes each job at most once |
| RefreshOrder.ExclusiveStep | src/treeweft/application/lifecycle.py:555-603 | a job stays in one pair of hands exactly if recovery does not queue a job that a worker or a call holds |
| RefreshOrder.NoDoubleRun | docs/engineering-notes.md:376 | over any run no job is in two pairs of hands if and only if recovery never queues a job that somebody holds |
| LostWakeups.StrandedForever | src/treeweft/application/prompt_refresh.py:356-376 | a stranded job stays stranded under every step but a new start |
| LostWakeups.AbandonedForever | src/treeweft/application/lifecycle.py:580-595 | an active job that is nobody's stays active and nobody's under every step but a new start |
| LostWakeups.CancelledRefreshStrandsWaiter | src/treeweft/application/prompt_refresh.py:325-335 | a run from the empty tables whose cancel strands a job that waits |
| LostWakeups.LostRetryStrandsWaiter | src/treeweft/adapters/queue/postgres_queue.py:183-202 | a run from the empty tables in which a retry loses its source and strands a job that waits |
| LostWakeups.StaleRelinkStrandsWaiter | src/treeweft/adapters/postgresql/job_store.py:272-287 | a run from the empty tables between whose two states a promotion that is not one step strands a job |
| LostWakeups.ResumedRefreshIsLost | src/treeweft/application/lifecycle.py:580-595 | a run from the empty tables in which a push cancels a resumed refresh, which is then active and nobody's |
| LostWakeups.RaisingHookStrandsWaiter | src/treeweft/adapters/queue/postgres_queue.py:261-268 | a run from the empty tables in which a hook raises and a job is stranded |
| LostWakeups.RaisingPushStrandsItself | src/treeweft/application/prompt_refresh.py:342-351 | a run from the empty tables in which a push raises before it reads the refresh again, and its own job is stranded |
| LostWakeups.RaisingWorkerAbandons | src/treeweft/adapters/queue/postgres_queue.py:322-326 | a run from the empty tables in which a worker raises and its job is active and nobody's |
| LostWakeups.RaisingRequestAbandons | src/treeweft/application/prompt_refresh.py:318-319 | a run from the empty tables in which a request raises before its job is queued, which is then nobody's |
| LostWakeups.JobRunsTwice | src/treeweft/application/lifecycle.py:537-595 | a run from the empty tables in which recovery queues a job a worker has taken, and two workers run it |
| LostWakeups.TwoJobsOfOneSource | src/treeweft/application/lifecycle.py:556-577 | a run from the empty tables in which recovery supersedes a running job, and a second job of its source runs beside it |
| JobStore.Store.CancelIfQueued | src/treeweft/adapters/postgresql/job_store.py:206-231 | wins exactly if the queue row is still there, and then takes it and marks the job done unless it is over |
| JobStore.Store.PromoteNextWaiting | src/treeweft/adapters/postgresql/job_store.py:233-315 | whichever of the oldest waiters it picks, the transaction is the promotion of that pick, and answers with the job promoted, if any |
| JobStore.Store.ResumeIncomplete | src/treeweft/application/lifecycle.py:555-603 | the loop is one recovery step for each listed job, in the order listed |
| JobStore.Store.PromoteOrphaned | src/treeweft/application/lifecycle.py:609-630 | the loop looks at each predecessor once, and promotes behind it unless it is queued, running or waiting |
| JobStore.FirstLoopIsRun | src/treeweft/application/lifecycle.py:555-603 | the first loop on its own is a run of the protocol's recovery steps |
| JobStore.SecondLoopIsRun | src/treeweft/application/lifecycle.py:609-630 | so is the second loop, whatever it picks |
| JobStore.Store.Startup | src/treeweft/application/lifecycle.py:540-630 | startup with nobody beside it writes an unfinished job done exactly if a row of its source was done and it is no refresh, failed exactly if it is otherwise not dispatchable, and else queues it with its row unchanged; it is a run of recovery steps, after which every active job is in the queue and every waiting job waits on one |
| RefreshPlanning.SortingConserves | src/treeweft/application/prompt_refresh.py:131-152 | the sources and chunk counts of the enqueued and the deferred list add up to those of the stale sources |
| RefreshPlanning.EnqueueConserves | src/treeweft/application/prompt_refresh.py:220-233 | turning a plan into jobs keeps every source and the chunk total, whichever candidates lose the race for their source |
| RefreshPlanning.StaleExactly | src/treeweft/application/prompt_refresh.py:118-138 | the planned items are exactly those of the sources with a target version that are marked or recorded at another version |
| RefreshPlanning.SortedExactly | src/treeweft/application/prompt_refresh.py:140-151 | which of them are enqueued as they are, deferred with the blocking job, or refused |
| RefreshPlanning.RacedExactly | src/treeweft/application/prompt_refresh.py:223-231 | which candidates get their job's id, and which the winner's |
| RefreshPlanning.RefreshPlan.Plan | src/treeweft/application/prompt_refresh.py:106-152 | every stale source is in exactly one list, by the gate and by whether it has an active job, in order, and none else is |
| RefreshPlanning.RefreshPlan.Enqueue | src/treeweft/application/prompt_refresh.py:200-233 | a candidate that loses its race moves to the deferred list with the winner's id; two or more candidates share a group |
| RebuildProtocol.RowsStep | src/treeweft/adapters/queue/postgres_queue.py:141-160 | a worker past its announcement has a row reading `running`: kept by a step if and only if it neither supersedes a job somebody works on nor ends one of two workers on one job |
| RebuildProtocol.StepKeepsInv | src/treeweft/application/index_guard.py:427-455 | every step keeps the lock, the rows, the groups, and that every worker is harmless once the job check came back empty |
| RebuildProtocol.MutualExclusion | src/treeweft/application/index_guard.py:546-599 | in every safe run: no job indexes and no stamp is written while a rebuild recreates the stores, at most one rebuild runs, and afterwards only its own jobs index until it ends |
| RebuildProtocol.LiveSupersedeBreaksExclusion | src/treeweft/application/lifecycle.py:560-577 | from every state with one live job, of a source that was done before and not a summary refresh, superseding it lets a rebuild recreate the stores while it indexes |
| RebuildProtocol.SecondRunBreaksExclusion | src/treeweft/application/lifecycle.py:580-595 | from every state with two workers on the one active job, the end of one lets a rebuild recreate the stores while the other indexes |
| RebuildProtocol.IdleRowsPassTheCheck | src/treeweft/application/index_guard.py:545-567 | a rebuild that meets no active row and no lock holder gets to recreate the stores |
| RebuildProtocol.RebuildSettles | src/treeweft/application/index_guard.py:546-599 | however a rebuild leaves its group, the group keeps the jobs persisted so far; a finished one has them all |
| RebuildProtocol.SettledStep | src/treeweft/application/index_guard.py:134-163 | no worker, request, crash or other rebuild changes how many jobs a left group has |
| RebuildRun.FinishedInFull | src/treeweft/application/index_guard.py:588-599 | over any run, a rebuild that leaves its group without a failed recreate, a stop or a crash leaves `taskCount` jobs in it, and no later step changes that |
| RebuildRun.FailedLeavesNone | src/treeweft/application/index_guard.py:577-585 | over any run, a rebuild whose recreate failed leaves no job in its group for good |
| RebuildRun.RebuildGoesThrough | src/treeweft/application/index_guard.py:551-599 | from every idle state, and with any sources, there is a run that ends with the lock free, one queued job for each source in the group, and all else unchanged |
| RebuildRun.RebuildStandsBack | src/treeweft/application/index_guard.py:562-566 | while a job is queued or running there is a run that takes the lock, finds it, and leaves everything as it was |
| RebuildRun.AbandonKeepsTheLock | src/treeweft/application/index_guard.py:555-595 | over any run, a rebuild that raised outside its recreate step keeps the lock until its process dies: no rebuild begins and no stamp is written |
| RebuildRun.SharerKeepsRebuildsOut | src/treeweft/application/index_guard.py:551-553 | over any run, no rebuild begins while a process holds the lock in shared mode |
| WorkerRun.RowMoves | src/treeweft/adapters/queue/postgres_queue.py:143-200 | which step of a worker, a request or recovery changes a row's status, and to what; a refused job is written failed, and a row keeps its group and source |
| WorkerRun.FinishedIsHistory | src/treeweft/application/lifecycle.py:540-549 | over any run the sources recovery takes for finished are exactly those that have had a done row |
| WorkerRun.WorkerGoesThrough | src/treeweft/adapters/queue/postgres_queue.py:143-230 | from any state a worker that nobody disturbs ends its job failed exactly if it has to be refused, by the lock, the latest group and the stamps, and otherwise as its runner does |
| WorkerRun.ProgressAddsUp | src/treeweft/application/index_guard.py:134-163 | the reported total is the rebuild's number of sources, and the jobs reported done, the active and the waiting ones add up to its group |
| RebuildProtocol.LatestStays | src/treeweft/application/index_guard.py:134-163 | the group a rebuild leaves stays the latest one until another rebuild makes its own |
| RebuildProtocol.RebuildIsReported | src/treeweft/application/index_guard.py:134-163 | from three reads in three later states: "interrupted" exactly if the rebuild stopped short and its jobs are over, "complete" exactly if it did not and they are over, "rebuilding" while any is active, and none never, until another rebuild makes its group |
| RebuildDispatch.DispatchJudged | src/treeweft/application/index_guard.py:427-455 | whatever group a worker has read and whenever, it is refused exactly if its job is not of that group and the lock was held, or that group stopped short and its jobs are over, or the stamps are wrong |
| RebuildDispatch.DispatchAfterRebuild | src/treeweft/application/index_guard.py:427-455 | however far a rebuild came before it left its group, a worker that has read this group is refused exactly if its job is not one of the rebuild's and the lock was held, or the rebuild stopped short and its jobs are over, or the stamps are wrong |
| RebuildDispatch.ReadsNewGroup | src/treeweft/application/index_guard.py:134-163 | every worker that reads the groups after a rebuild made its own, and before another is made, has read this one when it decides |
| RebuildDispatch.DispatchAfterCheck | src/treeweft/application/index_guard.py:546-599 | after a rebuild that got past its job check, until another makes its group, the same holds of every dispatch |
| RebuildDispatch.EarlyReaderIsLetThrough | src/treeweft/application/index_guard.py:552-567 | from every state with a worker that read no group, a rebuild that dies with its group made lets that worker index while an interrupted rebuild is reported |
| RebuildDispatch.EarlyReader | src/treeweft/application/index_guard.py:427-431 | a run from nothing to such a worker |
| IndexGuard.Guard.ComputeStatus | src/treeweft/application/index_guard.py:189-223 | observes, verifies only an unstamped vector store with data, stamps under the lock, aggregates: one check of the model |
| IndexGuard.Guard.RunCheck | src/treeweft/application/index_guard.py:226-238 | is the event of a full check, over whose runs the lemmas below are proved |
| IndexGuard.Guard.Refresh | src/treeweft/application/index_guard.py:241-274 | is the event of a periodic refresh, with the two readings of the rebuild state and of the clock apart |
| IndexGuard.Guard.DispatchAllowed | src/treeweft/application/index_guard.py:427-455 | is the event of a dispatch, the re-check reading the rebuild state again, and answers by whether it is refused |
| IndexGuard.RefreshExactly | src/treeweft/application/index_guard.py:258-279 | a refresh does nothing exactly if the index is ok and no rebuild is under way, verifies exactly if the status is in doubt and the interval has passed, and counts only that as an attempt |
| IndexGuard.RetryInterval | src/treeweft/application/index_guard.py:262-279 | over any run, after a full check the next verification comes exactly with a refresh of a doubtful status after the interval |
| IndexGuard.DispatchExactly | src/treeweft/application/index_guard.py:427-460 | why a job is refused, from what the reads returned, and when its check publishes a status |
| IndexGuard.RecreatedIsOk | src/treeweft/application/index_guard.py:568-576 | the four writes of a rebuild leave both stores empty and stamped, whatever they held, and the next check that reaches them says ok |
| IndexGuard.FailureIsReported | src/treeweft/application/index_guard.py:577-585 | a rebuild that raises in its recreate step is reported until the next status is published |
| IndexGuard.RefusalOnRecord | src/treeweft/application/index_guard.py:427-461 | over any run a refusal is on record exactly if the job's last dispatch was refused for that reason and nobody has read it since |
| IndexGuard.NoStampUnverified | src/treeweft/application/index_guard.py:166-209 | over any run with other processes' checks and rebuilds, a store with data and no stamp stays so unless a verification passed or a rebuild dropped the data |
| IndexGuard.StatusExactly | src/treeweft/application/index_guard.py:189-274 | over any run the cached status is neither "reindex_required" nor "unverified" exactly if the last check that published one found both stores in order, or a rebuild preparing |
| IndexGuard.OutsideAllowedExactly | src/treeweft/application/index_guard.py:427-455 | over any run a job that the rebuild state does not decide is allowed exactly if the last check published, its own included, found both stores in order, or a rebuild preparing |
| IndexGuard.PreparingLetsThrough | src/treeweft/application/index_guard.py:444-455 | from every doubtful status and stale vector stamp, a refresh during a rebuild and a dispatch after it let a job through |
| IndexGuard.RefreshSoftens | src/treeweft/application/index_guard.py:241-274 | before the retry interval has passed, a refresh keeps a confirmed "reindex_required" exactly if a rebuild was interrupted, a reachable store's stamp is wrong, or a graph has data beside a vector store without; otherwise it publishes "unverified" |
| IndexGuard.DispatchSoftens | src/treeweft/application/index_guard.py:415-455 | the re-check before a dispatch publishes the same, and the job is refused either way |
| IndexGuard.FailureIsForgotten | src/treeweft/application/index_guard.py:262-271 | a full check that confirms a failed verification, and the refresh after it that publishes "unverified" |
| IndexGuard.CheapCheckSoftens | src/treeweft/application/index_guard.py:262-271 | a check without verification keeps "reindex_required" under exactly that condition |
| IndexStamp.CompareIsEquality | src/treeweft/domain/index_stamp.py:152-162 | the mismatch list is empty exactly for equal stamps |
| IndexStamp.DecidedExactly | src/treeweft/domain/index_stamp.py:165-235 | exactly when a store is ok, to be rebuilt, or to be stamped; an absent store is ok and not stamped |
| IndexStamp.ReasonsExactly | src/treeweft/domain/index_stamp.py:165-235 | exactly the stores that are not ok have reasons, and each reason is given exactly for what it says |
| IndexStamp.AggregateState | src/treeweft/domain/index_stamp.py:238-262 | the aggregate state by precedence, from which store states occur |
| IndexStamp.AggregateReasons | src/treeweft/domain/index_stamp.py:238-262 | the reasons are those of the stores the state is about, and "preparing" is said exactly while a rebuild prepares |
| IndexStamp.AggregateOrder | src/treeweft/domain/index_stamp.py:238-262 | the aggregate state does not depend on the order of the checks |
| IndexStamp.AdoptedOnlyVerified | src/treeweft/domain/index_stamp.py:205-235 | data without a stamp is stamped only in a check whose vector verification ran and passed, the graph only beside a vector store with unstamped data |
| IndexStamp.ArrivalIsStamped | src/treeweft/application/index_guard.py:193-209 | data that no verification looked at is stamped exactly if it arrives between the look at an empty store and the stamp write |
| IndexStamp.SettledForGood | src/treeweft/domain/index_stamp.py:193-203 | once both stores are stamped, no later run changes them, and every check that reaches both says ok |
| IndexStamp.AdoptionExactly | src/treeweft/domain/index_stamp.py:205-221 | one check adopts two legacy stores exactly if it verifies, passes, reaches the graph and gets the lock twice |
| IndexStamp.PartialAdoptionSticks | src/treeweft/application/index_guard.py:197-209 | an unstamped graph with data beside a stamped vector store is never stamped, and the index is never ok, in any later run |
| IndexStamp.HalfAdoptionSticks | src/treeweft/application/index_guard.py:173-209 | a check that adopts the vector store but not the graph leads there |
| IndexStamp.AdoptedExactly | src/treeweft/domain/index_stamp.py:205-235 | over any run, a legacy vector store is adopted exactly if some check verified it, passed and got the lock, and the graph exactly if such a check stamped it no later than the vector store; else they stay as they are |
| IndexStamp.DataExactly | src/treeweft/application/index_guard.py:173-209 | over any run no check removes data or makes a store, and data is there exactly if it was or a job added it |
| IndexStamp.GraphNeedsVectors | src/treeweft/domain/index_stamp.py:205-221 | an unstamped graph with data is to be rebuilt for lack of vector data exactly if the vector store is out of reach or empty |
| SummaryVectors.SummariesForChunks | src/treeweft/application/indexer_runners.py:592-647 | cache hits, cached rejections and generated outcomes end up at their own chunk's index |
| SummaryVectors.RowGetsItsVector | src/treeweft/application/indexer_runners.py:592-647 | a row gets the vector of its own text's summary, from cache or model, rejections included, and keeps its old one exactly if the text is not cached and the call failed |
| SummaryVectors.ExpandVectors | src/treeweft/application/indexer_runners.py:1205-1212 | the iterator gives each row the embedding of its own summary and never runs dry |
| SummaryVectors.BatchVectors | src/treeweft/application/indexer_runners.py:1205-1229 | each row's new vector by its own outcome, a failed one keeping the old vector, and the exact error count |
| SummaryRefresh.Source.MarkSummaryRefresh | src/treeweft/adapters/sources/repository.py:233-247 | the target is set exactly if the database takes the write and the source is registered; if it does not, the call raises |
| SummaryRefresh.Source.RecordSummaryVersion | src/treeweft/adapters/sources/repository.py:249-269 | if the database takes the write it advances the version and clears the target together, and otherwise, the error being swallowed, neither |
| SummaryRefresh.Source.WriteSummaryVectors | src/treeweft/adapters/milvus/vector_store.py:659-683 | a batch write that may stop half way and may re-key rows leaves the source consistent and loses no row, and when it ends has rewritten every fetched row; it is only begun on a registered source and after a look for waiters |
| SummaryRefresh.Source.LookForWaiters | src/treeweft/application/indexer_runners.py:1179-1187 | the job goes on exactly if no job waits behind it |
| SummaryRefresh.Source.RefreshBatch | src/treeweft/application/indexer_runners.py:1174-1253 | an error-free round leaves every row of the batch at the job's version, and no row of the source is anything but its old self or its refreshed self |
| SummaryRefresh.Source.RefreshBatches | src/treeweft/application/indexer_runners.py:1172-1253 | the loop leaves every row at the version if no summary failed, although rows may vanish or get new keys meanwhile |
| SummaryRefresh.Source.RunResummarize | src/treeweft/application/indexer_runners.py:1115-1292 | however the job ends, the source is consistent: marked as under refresh, or unchanged, or recorded with every row at the recorded version. Only an unsupported source ends disabled, unmarked and unwritten, and only one that is current ends so; any other that is left by no exception has been marked or recorded; a failed job has changed no vector, a partial one has fewer errors than rows, a preempted one a waiter, and one raises exactly if an awaited call or write did |
| SummaryRefresh.Source.RefreshJobs | src/treeweft/application/indexer_runners.py:1115-1292 | any number of jobs with pin changes and crashes keep the source consistent |
| SummaryRefresh.Source.RecordLate | src/treeweft/application/indexer_runners.py:1028-1057 | the late write takes the mark away, and staleness then depends on the recorded version alone |
| SummaryRefresh.Source.RecordLateUnderRefresh | src/treeweft/application/indexer_runners.py:981-1057 | from a source an index job left at its version, with a refresh that came as far as it may, the late write keeps the source consistent exactly if the refresh rewrote no row that is left |
| SummaryRefresh.Source.LateRecordHidesRefresh | src/treeweft/application/indexer_runners.py:981-1057 | from every consistent source with a row that differs between two versions, a late write under a refresh ends in a source reported current that is not |
| SummaryRefresh.NotStaleIsCurrent | src/treeweft/domain/prompt_pins.py:48-69 | a consistent, summarized source that is not stale has every row at the effective version |
| HitMerging.GroupsAreMaximal | src/treeweft/application/retrieval.py:535-544 | neighbours in a file's line order are in one run exactly when the second starts at most one line behind the first one's end |
| HitMerging.FileOrderIs | src/treeweft/application/retrieval.py:532-535 | a file's hits are taken by first line, then last line, then rank, each once |
| HitMerging.ChainCovers | src/treeweft/application/retrieval.py:506-515 | the splice knows every line from the first start to the greatest end of a run, and no other |
| HitMerging.CoverageUnchanged | src/treeweft/application/retrieval.py:518-563 | the lines covered under every path are the same before and after merging, for all inputs |
| MergeFidelity.SourceCoverage | src/treeweft/application/retrieval.py:518-563 | if the hits of each merged run are of one source, the lines covered of each source's files are the same before and after |
| MergeFidelity.CoverageExactly | src/treeweft/application/retrieval.py:518-563 | and only then, as long as no line of a path is in two runs |
| MergeFidelity.TwoSourcesOnePath | src/treeweft/application/retrieval.py:529-531 | for every two one-line hits of one path and line in two sources, the merged hit has the source of the first and the text of the second, whose line is covered no more |
| MergeFidelity.FaithfulExactly | src/treeweft/application/retrieval.py:498-515 | faithful hits stay faithful, whatever the files of all sources hold, if and only if every line of a merged run is a line that a hit of the named source has |
| MergeFidelity.MergeIsFaithful | src/treeweft/application/retrieval.py:498-515 | if every snippet is exactly its source's file's lines and merged runs are of one source, so is every merged one for its range; and every run of two or more is merged |
| HitMerging.MergedExactly | src/treeweft/application/retrieval.py:545-563 | a run is merged exactly if it has two or more members and every snippet has as many lines as its range; then only its best-ranked member survives, and otherwise all do, unchanged |
| HitMerging.RanksKept | src/treeweft/application/retrieval.py:551-563 | survivors keep rank order at their best member's place and other fields, and every hit is in one at its rank or better with at least its score |
| HitMerging.FieldsGiven | src/treeweft/application/retrieval.py:545-560 | a survivor's score, first and last line are those of hits that went into it, and it is graph-enhanced exactly if one of them is |
| MergeHits.CutRuns | src/treeweft/application/retrieval.py:536-544 | the loop cuts a file's order into the runs |
| MergeHits.SpliceSnippets | src/treeweft/application/retrieval.py:498-515 | the loop is the splice of the run, and every line number it reads is present |
| MergeHits.MergeAdjacentHits | src/treeweft/application/retrieval.py:518-563 | the dictionaries and loops, files in any order, build the merged list |
| TailSummaries.ResolveTailSummaries | src/treeweft/application/retrieval.py:770-856 | the version-grouped reads answer every entry as its own rule does, stored rejections included, and keep sources apart |
| TailSummaries.ApplySummaryTail | src/treeweft/application/retrieval.py:684-748 | the first two bodies stay, each tail body is its own summary or its own text, and no body becomes empty |
| TailSummaries.SummaryTail | src/treeweft/application/retrieval.py:1126-1148 | the whole path: each tail chunk gets its own rule's answer, or its text when the cache cannot be read |
| TailSummaries.BodyExactly | src/treeweft/application/retrieval.py:770-856 | a tail body is the summary at its source's recorded version, a rejection there leaving its text, and only without an entry there the one at the effective version |
| TailSummaries.ExplicitBodyExactly | src/treeweft/application/retrieval.py:800-810 | with an explicit version it is the summary at that version or its text |
| Reranker.Rerank | services/qwen3_reranker/app.py:147-179 | for every batch size >= 1 the score at each index is its own text's, each index is written once, in ascending length order if bucketing is on and else in the given order, and the padded size is the sum over the batches |
| Reranker.SortedOrder | services/qwen3_reranker/app.py:162-165 | the order by length is a permutation, ascending and stable |
| Bucketing.AscendingIsTight | services/qwen3_reranker/app.py:159-172 | in ascending order fewer than a batch of texts shorter than a threshold share a batch that reaches it |
| Bucketing.FullBatchesOptimal | services/qwen3_reranker/app.py:159-172 | with full batches, sorting by length has the least padded size of all orders |
| Bucketing.PartialBatchLoses | services/qwen3_reranker/app.py:159-172 | with a partly filled batch after a full one, some request of texts of `base` and `base + 1` tokens, for any `base`, is cheaper in another order |
| Bucketing.BucketingOptimal | services/qwen3_reranker/app.py:42-49 | whatever two lengths the shortest and the longest text may have, sorting is optimal for all requests of n texts if and only if the batch size divides n or exceeds it |
| Markdown.FenceIsShortest | src/treeweft/application/mcp_server.py:354-357 | the fence is the shortest of at least three backticks that exceeds every run in the text |
| Markdown.CannotClose | src/treeweft/application/mcp_server.py:354-357 | no stretch of the text, however lines are cut, closes its fence |
| Markdown.MdOneLineIsOneLine | src/treeweft/application/mcp_server.py:360-362 | the result has no line break, keeps the first character, and is the value itself if that has none |
| Markdown.HeadingReads | src/treeweft/application/mcp_server.py:376-381 | a heading has one reading: the path on one line, the two line numbers, the score and the citation |
| Markdown.ShownInOrder | src/treeweft/application/mcp_server.py:383-400 | a result shows its snippet, or its header on one line and its handle, in this order and exactly if it has them, behind its heading |
| Markdown.SearchResponseToMarkdown | src/treeweft/application/mcp_server.py:365-400 | the loop over the results prints their parts in order |
| MarkdownRoundTrip.ReadsBackExactly | src/treeweft/application/mcp_server.py:398-400 | printed parts with line feeds and sound language tags read back as exactly the fenced snippets if and only if no line of the prose opens a fence |
| MarkdownListing.ReadsBackAnyEnds | src/treeweft/application/mcp_server.py:398-400 | the same for parts whose lines end with line feeds, carriage returns or both, the snippets' own line ends counting as line feeds |
| MarkdownListing.RoundTrip | src/treeweft/application/mcp_server.py:365-400 | reading the printed list gives back exactly the snippets, in order and whatever they contain, if and only if no line that the source id or a printed handle runs on to opens a fence |
| MarkdownListing.HandleOpensBlock | src/treeweft/application/mcp_server.py:396-397 | for every result without a snippet whose path runs on, after any kind of line end, to a line that opens a fence, the reader finds a block in a list that has none |
| CircuitBreaker.Breaker.IsOpen | src/treeweft/domain/circuit_breaker.py:68-93 | the answer is the one the history of calls determines, and an admitted probe is counted |
| CircuitBreaker.Breaker.RecordFailure | src/treeweft/domain/circuit_breaker.py:105-121 | with its two clock readings, one more failure in the history |
| CircuitBreaker.Breaker.RecordSuccess | src/treeweft/domain/circuit_breaker.py:95-103 | one success in the history, from any state |
| CircuitBreaker.Breaker.AbandonProbe | src/treeweft/domain/circuit_breaker.py:123-136 | gives a probe back in the half-open state, and only there |
| CircuitBreaker.TrippedExactly | src/treeweft/domain/circuit_breaker.py:95-121 | not closed exactly if the failures since the last success or reset number at least the threshold and one |
| CircuitBreaker.StateExactly | src/treeweft/domain/circuit_breaker.py:147-155 | over every legal history, closed, open or half-open by the uninterrupted failures and the time since the latest one |
| CircuitBreaker.AnswerExactly | src/treeweft/domain/circuit_breaker.py:68-93 | over every legal history, a call is admitted exactly if no uninterrupted stretch holds the threshold of failures, or the recovery time has passed and the episode's outstanding probes are below the maximum |
| CircuitBreaker.NoEarlyAdmission | src/treeweft/domain/circuit_breaker.py:147-155 | while not closed, no call is admitted within the recovery time of any earlier failure |
| CircuitBreaker.EpisodeCapped | src/treeweft/domain/circuit_breaker.py:84-93 | in each half-open episode the admitted probes less those given back never exceed the maximum |
| SharedKeys.JoinedKeyReadsBack | src/treeweft/domain/shared.py:43-49 | the escaped join of a non-empty list of parts reads back as that list |
| SharedKeys.SourceKeyInjective | src/treeweft/domain/shared.py:43-49 | two lists have one key exactly if they are equal or both fall back to the anonymous key |
| SharedKeys.PlainKeysUnchanged | src/treeweft/domain/shared.py:38-42 | parts without separator or backslash keep the key they had before escaping |
| SharedKeys.HitIdRoundTrip | src/treeweft/domain/shared.py:185-203 | a handle reads back for every path and end exactly if its start is not negative, and otherwise reads as malformed |
| FleetWindow.Fleet.Tick | src/treeweft/application/lifecycle.py:57-72 | the window holds the `cap` positions from the cursor on, around the end, none of them twice, and the cursor moves past them |
| FleetWindow.Fleet.Sweep | src/treeweft/application/lifecycle.py:57-72 | consecutive ticks whose windows add up to the number of sources check them all |
| FleetWindow.FleetCovered | src/treeweft/application/lifecycle.py:57-72 | from any cursor, that many ticks check every source if and only if the windows add up to them |
| FleetWindow.LeastTicks | src/treeweft/application/lifecycle.py:57-72 | the least number of ticks that check every source is the quotient rounded up |

## Left out

* I/O and foreign calls (Postgres, Neo4j, Milvus, LanceDB, TEI, the language model, git): atomic steps or
  parameters here.
* HTTP routes, auth, metrics, tracing, logging, the UI, benchmarks and command-line scripts.
* Floating-point detail: cosine, fusion, rounding of scores, jitter; the embedding verification itself is a
  parameter of a check.
* `enqueue_if_stale` and the overtaken check of the hook: when a refresh is created is not modelled, only that it
  arrives. `seed_version` and `resolve` would add easy members.
* The other writers of the recorded version (full, directory and file index jobs, incremental jobs), but for
  the late write of an index job.
* Step 0 of a rebuild, which can only refuse earlier.
* The source upsert an index job makes after it starts persisting `done`: outside its indexing phase here.
* The texts of reasons and refusals and their truncation; `parse_stamp`; `require_searchable` and
  `require_writable`.
* The admin retry endpoint, and progress writes that are not awaited.
* `sha1` and its truncation, the path and url normalisation in `make_source_id`, and whitespace, underscores and
  non-ASCII digits in `int()`.
* Disjointness of merged hits: nested ranges of one file can leave two overlapping results.
* The neighbours, communities and provenance parts of the markdown printer.
* `_apply_response_budget` and `TokenBudget`, the facet and full response modes, and the adaptive cut.
- RefreshOrder.PromotedOnce: a promoted job is queued once; that it then runs is not claimed, because recovery may mark it as superseded.
- CircuitBreaker.EpisodeCapped: a probe of an earlier episode that is abandoned later counts as given back, as the code does.
- SummaryRefresh.Source.RunResummarize: does not model the job row itself (status text, counters) beyond how the job ends.
