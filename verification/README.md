# Reflowfy, verified

A Dafny model of the parts of Reflowfy that are hardest to get right: the distributed job protocol
between planners, dispatch loops, workers and operators over one database; per-record deduplication;
cutting an Elasticsearch result set into jobs; the token bucket and the send loop behind it; the
re-resolving transformation runner and the record worker pool; and the dead letter queue.
`dafny verify dfyconfig.toml` checks everything.

## How it is modelled

- **The protocol** (`Cluster`) is a state machine over the `jobs` and `executions` tables, the set of
  jobs a message was ever sent for, the attempts still running, the actors (planners, dispatch loops,
  recovering managers) and a clock. Every conditional `UPDATE`, commit and send is one step, and any
  actor may crash between two of its own. A message may be lost, duplicated or redelivered any number of
  times. A statement carries the clock reading it was issued with, which may be old when it lands. The
  worker's final write and the planner's first write are unguarded, as in the code, and a pause, resume
  or cancellation checks the state in one step and writes in a later one, so no state is absorbing.
  `ClusterLeases`, `ClusterStates`, `ClusterPlans`, `ClusterJobs` and `ClusterWindow` prove what holds in
  every state of every run; `ClusterRuns` and `ClusterCompletion` build runs step by step, `ClusterEffects`
  says what single steps come to, and `ClusterProgress` that nobody is ever stuck.
- **Two more protocols** are state machines of their own: attempts over the record ledger, chunk by chunk
  and with several attempts of a job alive at once (`DedupProtocol`, `DedupExactly`, `DedupRuns`), and
  transactions on the dead letter queue with the unlocked reads and writes between them (`Dlq`, `DlqRuns`).
  `DedupLeases` ties the first to the protocol's leases. Sessions sharing a bucket are in `RateSessions`.
- **The tables** (`JobTable`, `ExecutionTable`) are classes whose methods run the SQL statements. A
  statement is also a function of the table; the methods are proved equal to those functions, and the
  protocol steps use the same functions.
- **Loops and objects** keep their form: the planner's buffer (`PlanSaving`), counting and finalizing
  (`Completion`), the ledger (`ContentDedup`), the planning scan and paging (`ElasticWindows`), the
  bucket row and its waiting loop (`RateLimiter`), the send loop (`Dispatcher`), the runner's `while`
  (`TransformationRunner`), the pool that writes its results in place (`RecordPool`, `RecordResults`),
  and the scheduler's transactions (`DlqScheduler` over `Dlq` and `Grouping`).
- **What becomes a parameter**: the clock, the answers of Kafka, Elasticsearch and the database, user
  code (a step, a per-record function, a pipeline's list of steps), and every random id.

Assumptions of the protocol: one actor's clock readings never go back and never run ahead of the shared
clock; driver ids are unique; a host's drivers are freed only when none of that host is alive; a worker's
claim or heartbeat and the loop's mark land within the running lease of their reading.

## What the code does that its documentation does not say

Where the two disagree the model follows the code. Each point has a lemma giving the case, and one that
says exactly when it happens.

- *A recovering manager can fail a whole plan.* It reads `plan_complete` and then claims the lease, and
  never reads it again (pipeline_runner.py:1000-1023). If the planner finishes and frees its lease in
  between, the execution is marked failed as abandoned, with every lease fresh:
  `RecoveryCanFailAWholePlan`, and from every such moment `LookedTooEarly`. `WhenRecoveryFailsAWholePlan`
  shows that reading again under the lease closes this, except for a planner that completes on an
  expired lease.
- *Settled states are not final.* execution.py:153 calls them states an execution never leaves on its
  own. The planner's first write is unconditional (pipeline_runner.py:544), and a pause or resume writes
  unconditionally after its check (execution.py:136-150, 84-97), so either undoes a settlement that falls
  in between: `StartOverwritesCancellation`, `ResumeOverwritesCancellation`. `WhenASettledStateIsLeft`
  shows that nothing else does, `SettledForGood` and `SettledCanBeLeft` when a settlement lasts.
- *Finalization reads two snapshots.* It takes `failed` from one query and `finished` from the next
  (pipeline_runner.py:1064-1085), so an unguarded late write in between can end an execution `completed`
  with a failed row, or `failed` with every job done: `TwoSnapshotsCanLie`, `TwoSnapshotsCanDeny`,
  `WhenTwoSnapshotsAgree`, and for both a run of the whole protocol, `LateReportFoolsFinalization`.
- *A late failure releases what a later attempt sent.* Release is by job id only (executor.py:463-484), so
  an attempt that outlives its lease can free records that the next one has sent, for another job to send
  again: `SentTwice`, and `WhenSentHashesStayHeld` says exactly when not. If the release falls between a
  chunk's insert and its look at what the job held already (content_dedup.py:236-252), records are sent by
  nobody although every job is done: `SentByNobody`, and `WhenNothingIsLost` says exactly when not. An
  attempt that goes on after its job is done can also keep a record without sending it: `OwnedAndUnsent`,
  `WhenOwnersHaveSent`. `WhenDeliveredOnce` shows that these three are all that can go wrong, and
  `NeverStaleNeverFails` that none of them does where no attempt inserts, succeeds, releases or reports
  once a newer one of its job has begun.
- *A manual run of a dead-letter job can lose a failure, or run a completed job again.* On an error it
  rolls back, which unlocks the row, and then writes an absolute `retry_count` and a status from an
  unlocked read (dlq_scheduler.py:354-368): `ThreeFailuresOfTwo`, `CompletedThenPending`,
  `WhenFailuresAreCounted`, `WhenACompletedJobIsUndone`.
- *A poll that is rolled back forgets its failures.* The failures of all its groups are counted in the one
  transaction that is rolled back (dlq_scheduler.py:140-153), so a job stays due with no failure on record
  and no delay, however often it has failed: `RolledBackEachTime`, `WhenFailuresAreCounted`.
- *Raising a rate credits it for time already past*, as the row is retuned without a refill
  (rate_limiter.py:65-70): `WhenARateChangeIsFair`, `WhenARateChangeIsSafe`, and
  `RaisingTheRateBreaksTheBound` for a run that takes 20 tokens where 10.5 were due.
- *Two sessions can spend one token.* The row is loaded before it is locked, and the locking query keeps
  what was loaded (rate_limiter.py:129-137), so each decides on what it saw before the lock:
  `SessionsSpendOneToken`, `WhenAGrantIsPaidFor`, `RateBoundForSessions`.
- *`docs_per_job=1` can plan an empty job and jobs of two documents* when `max_slices` binds, against
  elastic.py:645: `OneDocPerJobCanPlanAnEmptyJob`, `WhenOneDocPerJob`, `WhichWindowIsEmpty`.
- *A per-record step with `concurrency` below one drops every record and reports success.* Only the
  decorator checks the value; a subclass attribute reaches the pool as it is (base.py:260-262, 317-320):
  `StepEqualsMap`.
- *`total_batches` is one too many whenever the number of jobs is a multiple of the batch size*
  (pipeline_runner.py:641-656): `WhenTotalBatchesIsRight`.
- *Marking a job dispatched also refreshes `updated_at`* of a job already running or finished, as the
  column refreshes itself on every update (job_manager.py:77-91): `JobTable.JobTable.MarkJobDispatched`.

## Model

| member | source | states |
|---|---|---|
| JobTable.SweepOrderMatters | reflowfy/reflow_manager/job_manager.py:163-207 | Failing the exhausted jobs before requeueing the stale ones is what keeps an exhausted job from running again; in the other order it is requeued |
| JobTable.SweepOutcome | reflowfy/reflow_manager/job_manager.py:163-207 | The three statements of the sweep together take one decision for each row, and the three counts are the numbers of rows that took each branch |
| JobTable.JobTable.CreateJobs | reflowfy/reflow_manager/job_manager.py:16-37 | New jobs are pending with no attempts; existing rows are untouched; an empty list does nothing |
| JobTable.JobTable.MarkJobDispatched | reflowfy/reflow_manager/job_manager.py:77-91 | Only a pending job becomes dispatched, so a mark that lands after the worker's claim or finish does not move the state |
| JobTable.JobTable.CancelUnstartedJobs | reflowfy/reflow_manager/job_manager.py:93-112 | Exactly the pending and dispatched jobs of the execution are cancelled, and the count is the number of rows changed |
| JobTable.JobTable.RequeueFailed | reflowfy/reflow_manager/job_manager.py:114-140 | Exactly the failed jobs (with a given text in the error, if asked) go back to pending with all attempts and no error, and the count is the number of rows changed |
| JobTable.JobTable.ReclaimExpiredLeases | reflowfy/reflow_manager/job_manager.py:142-207 | A running job silent since before its cutoff is failed when out of attempts and requeued otherwise, a dispatched one sent before its cutoff is requeued, every other row stays as it is, and the counts say how many rows took each branch |
| JobTable.JobTable.UpdateJobState | reflowfy/reflow_manager/job_manager.py:209-245 | Writes the state whatever it was; completion time only for completed and failed; an empty error keeps the old one |
| JobTable.JobTable.ClaimJob | reflowfy/worker/executor.py:594-628 | A delivery runs the job if it moved it from pending or dispatched to running, counting an attempt, or if there is no row; otherwise it learns the blocking state and changes nothing |
| JobTable.JobTable.HeartbeatJob | reflowfy/worker/executor.py:567-592 | A beat moves no state and no attempt count, and a running job that has beaten is left alone by every sweep that looks back no further than the beat |
| JobTable.JobTable.UpdateJobInDb | reflowfy/worker/executor.py:630-688 | After the final write, whatever state the row had, no delivery starts the job and no sweep moves it, and it can be retried exactly if it failed |
| JobTable.UnclaimedIsRequeued | reflowfy/reflow_manager/job_manager.py:142-207 | The dispatch lease, over mark and sweep: a job marked at t that nobody has claimed is requeued by a sweep at t' if and only if t + lease < t' |
| JobTable.SilentIsReclaimed | reflowfy/reflow_manager/job_manager.py:142-207 | The running lease, over claim and sweep: a job claimed at t without a beat since is left alone until t + lease, and then requeued, or failed if the claim used its last attempt |
| JobTable.CancelledStaysUnstarted | reflowfy/reflow_manager/job_manager.py:93-112 | A cancelled job is started by no later delivery, and a job that had started is not cancelled |
| JobTable.RetriedIsAsNew | reflowfy/reflow_manager/job_manager.py:114-140 | Only a failed job is retried, with a filter exactly if the text occurs somewhere in its error; the next claim is its first attempt |
| JobTable.OldestGoFirst | reflowfy/reflow_manager/job_manager.py:43-51 | No job on a page goes before an older one left out, and a job is left out only of a full page |
| ExecutionTable.ExecutionTable.CreateExecution | reflowfy/reflow_manager/execution.py:16-48 | An existing execution is not replaced; a new one can be claimed by any driver, paused or cancelled but not resumed, and has no whole plan |
| ExecutionTable.ExecutionTable.UpdateExecutionState | reflowfy/reflow_manager/execution.py:68-99 | Unguarded write of the state; a completion time for settled states only; other executions untouched |
| ExecutionTable.ExecutionTable.PauseExecution | reflowfy/reflow_manager/execution.py:136-142 | Succeeds exactly for a pending or running execution |
| ExecutionTable.ExecutionTable.ResumeExecution | reflowfy/reflow_manager/execution.py:144-150 | Succeeds exactly for a paused execution |
| ExecutionTable.ExecutionTable.CancelExecution | reflowfy/reflow_manager/execution.py:156-166 | Succeeds exactly for an execution that is not settled |
| ExecutionTable.ExecutionTable.ReopenExecution | reflowfy/reflow_manager/execution.py:175-185 | A reopened execution can be paused and cancelled again and not resumed, and every driver's claim and the plan stand as they did |
| ExecutionTable.ExecutionTable.MarkPlanComplete | reflowfy/reflow_manager/execution.py:168-173 | The plan is whole, and every request and every driver's claim is answered as before |
| ExecutionTable.ExecutionTable.ClaimDriver | reflowfy/reflow_manager/execution.py:187-214 | The claim succeeds exactly if the row is unowned, already the caller's, or its owner's heartbeat is older than the lease, and then keeps every other driver out until a lease has passed |
| ExecutionTable.ExecutionTable.HeartbeatDriver | reflowfy/reflow_manager/execution.py:216-225 | The driver the row names keeps every other one out until a lease has passed since the beat; any other learns that it has lost the lease and changes nothing |
| ExecutionTable.ExecutionTable.ReleaseDriver | reflowfy/reflow_manager/execution.py:242-247 | After its owner's release any driver can claim the execution; a former owner's late release changes no claim |
| ExecutionTable.ExecutionTable.ReleaseDriversOnHost | reflowfy/reflow_manager/execution.py:227-240 | Exactly the rows named by a dispatch loop of that host become anyone's to claim; every other row, of planners, recoveries and other hosts' loops, stays as it is |
| ExecutionTable.RequestsLeave | reflowfy/reflow_manager/execution.py:136-185 | The state and completion time every request leaves behind, and exactly which requests are allowed next |
| ClusterLeases.LeaseInvAlways | reflowfy/reflow_manager/execution.py:187-247 | In every reachable state, an actor whose last claim or heartbeat is no older than the lease is the one its execution's row names |
| ClusterLeases.SingleDriver | reflowfy/reflow_manager/execution.py:187-247 | Two actors with fresh leases on one execution are the same actor |
| ClusterLeases.FreshOwnerKeepsLease | reflowfy/reflow_manager/execution.py:227-247 | No late release, rival claim or host restart takes a fresh lease from its owner |
| ClusterLeases.RecoverySparesLivePlanner | reflowfy/reflow_manager/pipeline_runner.py:983-1037 | A recovery that writes its verdict within its lease finds no live planner on the execution |
| ClusterLeases.PlanCompleteBetween | reflowfy/reflow_manager/pipeline_runner.py:653-656 | Between two states of a run `plan_complete` turns true exactly if the execution's planner completed in between |
| ClusterLeases.WhenRecoveryFailsAWholePlan | reflowfy/reflow_manager/pipeline_runner.py:1000-1026 | The plan a recovery fails within its lease is whole if and only if it was whole when the recovery claimed the lease, which is if and only if its planner completed between the look and the claim, or a planner completed after the claim on an expired lease; so reading again under the lease closes the race exactly if no planner completes late |
| ClusterRuns.LookedTooEarly | reflowfy/reflow_manager/pipeline_runner.py:1000-1026 | From any reachable state in which a recovery has looked and a planner with its whole plan saved has yet to complete, four steps lead to that failure, the recovery's lease fresh |
| ClusterRuns.RecoveryCanFailAWholePlan | reflowfy/reflow_manager/pipeline_runner.py:1000-1026 | Under every configuration there is such a run, with the one job of the plan still pending and the dispatch loop standing by |
| ClusterStates.WhenASettledStateIsLeft | reflowfy/reflow_manager/execution.py:136-166 | A step that is not a reopening takes an execution out of a settled state if and only if it is its planner's first write, or the write of a pause or resume |
| ClusterStates.AskedEarlier | reflowfy/reflow_manager/execution.py:136-150 | A pause, resume or cancellation that is still to be written passed its check in an earlier state of the run, which allowed it |
| ClusterStates.LeftByWhatWasUnderWay | reflowfy/reflow_manager/pipeline_runner.py:543-544 | While an execution stays settled no planner appears for it and no pause or resume passes its check, so what undoes a settlement was under way before it |
| ClusterStates.SettledForGood | reflowfy/reflow_manager/execution.py:152-166 | If at a settlement no planner has yet to start and no pause or resume is still to be written, the execution stays settled until it is reopened, in every run |
| ClusterStates.SettledCanBeLeft | reflowfy/reflow_manager/execution.py:136-150 | Otherwise every run that has come so far can go on, without a reopening, to a state in which the execution is not settled |
| ClusterStates.StartOverwritesCancellation | reflowfy/reflow_manager/pipeline_runner.py:543-544 | In every run in which a planner is about to start, a cancellation before its first write is undone by it |
| ClusterStates.ResumeOverwritesCancellation | reflowfy/reflow_manager/execution.py:144-166 | In every run that has paused an execution, a cancellation between a resume's check and its write is undone by it |
| ClusterPlans.PlanInvAlways | reflowfy/reflow_manager/pipeline_runner.py:568-667 | In every reachable state each planner knows which of its jobs are unsaved, and executions with a whole plan have all their jobs saved |
| ClusterPlans.PlanFragmentsAreNeverDispatched | reflowfy/reflow_manager/pipeline_runner.py:389-391 | While `plan_complete` is false, the execution's jobs are pending or cancelled, never started, and no message for them was ever sent |
| ClusterPlans.OnlyWholePlansAreSent | reflowfy/reflow_manager/pipeline_runner.py:645-656 | A message for a job is only ever sent once every job of its execution's plan is saved |
| ClusterJobs.NoRestartWithoutRequeue | reflowfy/worker/executor.py:606-621 | Between two successful claims of one job there is a running-lease reclaim or a retry-failed of it, in every run |
| ClusterJobs.AttemptBound | reflowfy/reflow_manager/job_manager.py:163-207 | No job has more than `max_attempts` attempts, and a pending or dispatched one has an attempt left |
| ClusterJobs.AttemptsCountClaims | reflowfy/worker/executor.py:609-616 | While a job is not retried, its `attempts` column grows by exactly the number of its successful claims |
| ClusterJobs.ClaimsBetweenRetries | reflowfy/reflow_manager/job_manager.py:114-140 | Between two retries of a job, workers start it at most `max_attempts` times |
| ClusterJobs.ClaimsOfAllJobs | reflowfy/reflow_manager/job_manager.py:114-140 | Claims of a list of jobs since their last retry total at most jobs times `max_attempts` |
| ClusterWindow.WindowInvAlways | reflowfy/reflow_manager/pipeline_runner.py:856-892 | With one dispatch loop at a time, accounted jobs in flight plus the sends a loop may still make never exceed the cap |
| ClusterWindow.PromptLoopsAreOne | reflowfy/reflow_manager/pipeline_runner.py:833-838 | Dispatch loops that act within their lease are one loop |
| ClusterWindow.InFlightWindow | reflowfy/reflow_manager/pipeline_runner.py:856-892 | Dispatched, running and sent-but-unmarked jobs exceed the cap by at most the jobs running on a claim the send loop had not accounted for |
| ClusterWindow.InStepUntilStale | reflowfy/reflow_manager/pipeline_runner.py:935-944 | As long as nothing leaves a stale message for a job, its sent message always has its mark still to come, and no claim of it is unaccounted for |
| ClusterWindow.InFlightCap | reflowfy/reflow_manager/pipeline_runner.py:881-892 | With loops within their leases and no stale message, the cap is never exceeded, however workers interleave with the send loop |
| ClusterEffects.AbortLeavesNothing | reflowfy/reflow_manager/pipeline_runner.py:586-600 | A planner stops half-way only for a cancelled or failed execution, and then no delivery can start a job of it and the lease is no longer the planner's |
| ClusterEffects.CancelledJobsNeverStart | reflowfy/reflow_manager/job_manager.py:93-112 | Once an execution's jobs are cancelled none of them can be started, and every job that had started is as it was |
| ClusterEffects.LoopStopsWhenNotRunning | reflowfy/reflow_manager/pipeline_runner.py:841-851 | A dispatch loop stops by itself exactly if its execution is not running, and leaves the state and all jobs alone |
| ClusterEffects.RoomForAPage | reflowfy/reflow_manager/pipeline_runner.py:857-890 | A loop fetches only with fewer jobs in flight than allowed and no more than there is room for, and a page that is short of both limits holds every pending job |
| ClusterEffects.SweepDecides | reflowfy/reflow_manager/pipeline_runner.py:955-981 | What each of the sweep's three statements, with the cutoffs it carries over, makes of any job of the execution |
| ClusterEffects.ResumeSettlesByTheJobs | reflowfy/reflow_manager/pipeline_runner.py:389-402 | A resume settles an execution only when its plan is whole and none of its jobs is unfinished, and as completed exactly if every job succeeded |
| ClusterEffects.StartUpFreesDeadLoops | reflowfy/reflow_manager/execution.py:227-240 | At start-up a host frees the leases its loops left behind, and no other row changes |
| ClusterProgress.NobodyIsStuck | reflowfy/reflow_manager/pipeline_runner.py:823-900 | In every state of every run each planner, loop and recovering manager can take a step of its own; only a recovery may have to wait, for the execution to be a lease old |
| ClusterProgress.PageExists | reflowfy/reflow_manager/job_manager.py:43-51 | For every table and limit there is a page of oldest pending jobs |
| ClusterProgress.MessagesStartJobs | reflowfy/worker/executor.py:594-628 | A delivered message can always be claimed; it starts its job exactly if the job is waiting, and counts one attempt |
| PlanSaving.SavePlan | reflowfy/reflow_manager/pipeline_runner.py:568-656 | Either every job is saved, once, pending and in its batch, or the execution was seen stopped, whole batches were saved and their jobs cancelled; no job is planned more than a second after a look that found the execution not stopped |
| PlanSaving.FlushBuffer | reflowfy/reflow_manager/pipeline_runner.py:641-648 | A flush adds exactly the buffered jobs to the saved prefix of the plan |
| PlanSaving.JobsOfABatch | reflowfy/reflow_manager/pipeline_runner.py:600-645 | The k-th batch holds the planned jobs from (k - 1) times the batch size up to k times it, and a size below one works like one |
| PlanSaving.WhenTotalBatchesIsRight | reflowfy/reflow_manager/pipeline_runner.py:641-656 | The reported number of batches is that of the last batch used if and only if the number of jobs is not a multiple of the batch size |
| Completion.CountsAddUp | reflowfy/reflow_manager/job_manager.py:269-304 | The counts of the seven states sum to the number of job rows |
| Completion.GetJobCounts | reflowfy/reflow_manager/job_manager.py:269-304 | From the groups of the count query, in any order, the loop computes the true count of every state and the total |
| Completion.TruthfulCompletion | reflowfy/reflow_manager/pipeline_runner.py:1078-1089 | On one snapshot finalization says completed if and only if every job row is completed or deduplicated, and failed otherwise |
| Completion.TwoSnapshotsCanLie | reflowfy/reflow_manager/pipeline_runner.py:1064-1079 | A late failure between the two queries: the execution ends `completed` with a failed row |
| Completion.TwoSnapshotsCanDeny | reflowfy/reflow_manager/pipeline_runner.py:1064-1079 | A late success between the two queries: the execution ends `failed` with every job done |
| Completion.WhenTwoSnapshotsAgree | reflowfy/reflow_manager/pipeline_runner.py:1064-1079 | The verdict from two snapshots of the same jobs is the true one for the second if and only if, unless jobs are unfinished there anyway, both snapshots have a failed row or neither has |
| ClusterCompletion.LateReportFoolsFinalization | reflowfy/reflow_manager/pipeline_runner.py:1064-1079 | Runs of the whole protocol, in both directions, in which a job is reclaimed and run again, nothing is unfinished at the first query, the attempt that was given up reports before the second, and the verdict is the opposite of the truth |
| ClusterCompletion.FinalizationTells | reflowfy/reflow_manager/pipeline_runner.py:1046-1111 | In the protocol, where finalization is one look, its verdict is completed exactly if every job of the execution succeeded, and the lease is no longer the loop's |
| ClusterCompletion.ExecutionIsSettled | reflowfy/reflow_manager/pipeline_runner.py:823-900 | A run of the whole protocol from an empty database to the settled execution, with either outcome |
| Completion.PipelineRunner.SyncCountsFromDb | reflowfy/reflow_manager/pipeline_runner.py:1138-1169 | Synced counters satisfy dispatched = total - pending - cancelled and completed + failed <= dispatched, and only the counters of this execution change |
| Completion.PipelineRunner.CurrentTotals | reflowfy/reflow_manager/pipeline_runner.py:1064-1080 | When either count query fails the caller's totals are used for both answers |
| Completion.PipelineRunner.FinalizeExecutionState | reflowfy/reflow_manager/pipeline_runner.py:1046-1111 | Settles the execution; if both queries see one snapshot and the expected total is its size, the state is the truthful one |
| ContentDedup.ClaimInTwo | reflowfy/execution/content_dedup.py:221-254 | Claiming two sets of hashes one after the other is claiming their union, and the hashes held split accordingly |
| ContentDedup.RecordLedger.InsertMissing | reflowfy/execution/content_dedup.py:232-241 | An insert that ignores conflicts adds exactly the missing hashes for the job and moves no existing entry |
| ContentDedup.RecordLedger.ClaimChunk | reflowfy/execution/content_dedup.py:230-253 | One chunk claims like a set, and answers what it inserted or held already |
| ContentDedup.RecordLedger.ClaimRecordHashes | reflowfy/execution/content_dedup.py:221-254 | For any chunk size and repeats, the answer is exactly what the job owns afterwards of what it asked for, every hash asked for has an owner, and no other entry moved |
| ContentDedup.RecordLedger.ReleaseRecordHashes | reflowfy/execution/content_dedup.py:257-266 | The rows that go are those of the given hashes that this very job owns; all others stay with their owners |
| ContentDedup.RecordLedger.ClaimRecords | reflowfy/worker/executor.py:548-565 | The records kept are, in input order, the first of each hash won and no other; nothing is kept if and only if nothing was won |
| DedupProtocol.WhenSentHashesStayHeld | reflowfy/worker/executor.py:447-484 | However attempts of a job overlap, every record hash sent by a successful attempt stays its job's throughout a run if and only if no attempt that stops frees a hash that a successful attempt of its job has sent, and none succeeds with a hash that is no longer its job's |
| DedupProtocol.SentByOneJob | reflowfy/worker/executor.py:447-484 | In such a run no hash is ever sent by successful attempts of two jobs |
| DedupProtocol.FreesWhatIsReleased | reflowfy/worker/executor.py:463-484 | What a sending attempt frees in the protocol is exactly what the release statement deletes: of the rows it can see, those of its own job |
| DedupProtocol.UncommittedRowsGo | reflowfy/execution/content_dedup.py:236-254 | An attempt that stops before its commit leaves no row of its own, and every other row with its owner |
| DedupExactly.WhenAStepLoses | reflowfy/execution/content_dedup.py:221-266 | One step keeps every hash owned or owed by a job that is not done, if and only if it is neither a success of a job with an unowned hash that nobody else is still to claim, nor an end without a report that frees a hash all of whose jobs are done |
| DedupExactly.WhenNothingIsLost | reflowfy/execution/content_dedup.py:221-266 | However attempts overlap, every hash of every job is owned or owed throughout a run if and only if no step of the run is one of these two |
| DedupExactly.WhenOwnersHaveSent | reflowfy/execution/content_dedup.py:221-254 | Jobs that are done have sent all they own throughout a run if and only if no attempt of a done job inserts a hash the job has not sent, and no job succeeds while it owns a hash that neither it nor the attempt has sent |
| DedupExactly.WhenDeliveredOnce | reflowfy/worker/executor.py:447-484 | Where every job of a run is done, each hash has been sent by successful attempts of exactly the one job that owns it, or by none if it was held before, if and only if every sent hash is held, every hash is owned or owed, and every owned one is sent |
| DedupExactly.ExactlyOnceDespiteOverlap | reflowfy/worker/executor.py:447-484 | So a run that never exposes, loses or strands a hash delivers each exactly once, whatever attempts overlap |
| DedupExactly.NeverStaleNeverFails | reflowfy/worker/executor.py:447-484 | A run in which no attempt inserts, succeeds, releases or reports once a newer one of its job has begun is such a run |
| DedupProtocol.InvAlways | reflowfy/execution/content_dedup.py:221-266 | In every run in which no attempt inserts, succeeds, releases or reports once a newer one of its job has begun: after every statement, what a job's latest attempt has won is what the job owns of what that attempt is through with, a job that is done owns exactly what it sent, and every hash is owned or some job has yet to insert it |
| DedupProtocol.NothingLost | reflowfy/worker/executor.py:447-484 | At every moment of such a run each hash of each job has an owner or belongs to a job that is not done |
| DedupProtocol.ExactlyOnce | reflowfy/worker/executor.py:447-484 | Once every job of such a run is done, each record hash has one owner, the one job a successful attempt of which has sent it, or a holder from before and then no job has sent it |
| DedupProtocol.OneAttemptIsEnough | reflowfy/worker/executor.py:594-628 | One live attempt per job at a time is enough for a run to be such a one |
| DedupLeases.OneLiveAttempt | reflowfy/worker/executor.py:594-628 | In every run of the job protocol, a job that is never requeued or retried while an attempt of it is alive has at most one, and is begun while it has |
| DedupLeases.LeasesKeepAttemptsApart | reflowfy/worker/executor.py:237-261 | Where that holds of all jobs, any run over the ledger whose attempts begin with the protocol's claims and end no later than its attempts is such a one |
| DedupRuns.ClaimsInOneGo | reflowfy/execution/content_dedup.py:221-254 | From any state in which nobody else is claiming, the insert, look and commit of a claim amount to one set claim |
| DedupRuns.SentTwice | reflowfy/worker/executor.py:463-472 | A run in which the first attempt of a job fails after the second has succeeded, and another job sends every common record again |
| DedupRuns.SentByNobody | reflowfy/execution/content_dedup.py:236-252 | A run in which such a release falls between a chunk's insert and its look, so that both jobs are done and nobody has sent the records; with no other job it is one in which a step loses them |
| DedupRuns.OwnedAndUnsent | reflowfy/execution/content_dedup.py:236-252 | A run in which an attempt of a done job takes records that another job has just released and dies, so that both jobs are done and nobody has sent them |
| ElasticWindows.BeyondKey | reflowfy/sources/elastic.py:262-276 | Searching after the n-th document's key in a strict sort order finds exactly the documents after the n-th |
| ElasticWindows.ScanWindowCursors | reflowfy/sources/elastic.py:726-765 | For any page size the scan ends, with the key before each window's first document as its cursor, and as many windows as asked for unless the documents end earlier |
| ElasticWindows.ScanPage | reflowfy/sources/elastic.py:760-764 | One page extends the recorded cursors by exactly those of the window boundaries it crosses |
| ElasticWindows.FetchWindow | reflowfy/sources/elastic.py:251-279 | For any page size a worker reads exactly the documents of its window, or the first `limit` of them |
| ElasticWindows.NextPage | reflowfy/sources/elastic.py:262-274 | One search continues exactly where the last one ended, and is empty only at the end |
| ElasticWindows.WindowsCoverPrefix | reflowfy/sources/elastic.py:251-279 | Concatenated, the planned windows are a prefix of the snapshot: in order, without overlap or gap |
| ElasticWindows.Split | reflowfy/sources/elastic.py:679-696 | No documents, no job; one window, the whole query; otherwise the jobs together read the first windows times size documents of the snapshot, hence all of them unless it grew |
| ElasticWindows.CeilDivLeast | reflowfy/sources/elastic.py:684-689 | The rounded-up quotient is the least number of jobs of the given size that covers the count |
| ElasticWindows.UncappedWindowsFit | reflowfy/sources/elastic.py:679-696 | When the cap does not bind and the count is right, every window asked for is planned and holds between one and `docs_per_job` documents |
| ElasticWindows.WhichWindowIsEmpty | reflowfy/sources/elastic.py:748-765 | A planned window is empty if and only if it is the last, the window size divides the documents, and fewer full windows exist than were asked for |
| ElasticWindows.OneDocPerJobCanPlanAnEmptyJob | reflowfy/sources/elastic.py:642-648 | 2000 documents at one per job under the default cap: a first job of two and an empty last one |
| ElasticWindows.WhenOneDocPerJob | reflowfy/sources/elastic.py:642-648 | With `docs_per_job` of one, every job holds exactly one document if and only if the count is within the cap |
| ElasticWindows.ExactlyOneWindow | reflowfy/sources/elastic.py:73-80 | With strictly monotone boundaries every value, of whatever document, matches the range filter of exactly one window |
| ElasticWindows.DropRepeats | reflowfy/sources/elastic.py:616-620 | From a sorted scan with ties come strictly monotone boundaries: the values of exactly those documents that end a window, each once |
| ElasticWindows.SplitRangeWindows | reflowfy/sources/elastic.py:587-635 | In either order, every value falls in exactly one planned window, and there are at most as many windows as asked for |
| ElasticWindows.RangesAreAsLarge | reflowfy/sources/elastic.py:590-600 | Of two documents a window size apart the later one falls in a later range window, unless its value is a boundary; so a range window exceeds the window size only by documents that share its boundary value |
| RateLimiter.LazyRefillIsSound | reflowfy/reflow_manager/rate_limiter.py:74-84 | Refilling on the way changes no later amount |
| RateLimiter.WhenARateChangeIsSafe | reflowfy/reflow_manager/rate_limiter.py:54-72 | A change of rate leaves no more available than before if and only if the rate does not rise, no time has passed since the last update, or the bucket is full and keeps its size |
| RateLimiter.WhenARateChangeIsFair | reflowfy/reflow_manager/rate_limiter.py:54-72 | After a change the bucket holds at every later time what the two rates earned, each in its own time, if and only if what was credited is what the old rate had earned or both fill the bucket; below the size the former means that the rate is the same or no time has passed |
| RateLimiter.Conservation | reflowfy/reflow_manager/rate_limiter.py:139-179 | Over any run with safe changes of rate, tokens taken plus tokens left are at most tokens held plus what each rate earned while in force |
| RateLimiter.RateBound | reflowfy/reflow_manager/rate_limiter.py:139-179 | At a fixed rate, tokens taken in any interval of any run are at most the bucket's size plus the rate times its length |
| RateLimiter.GrantsWithin | reflowfy/reflow_manager/rate_limiter.py:139-179 | So are the single tokens granted in an interval, wherever in the run it begins and ends |
| RateLimiter.RateBoundPerMinute | reflowfy/reflow_manager/rate_limiter.py:36-72 | With a limit given per minute, no minute of any run grants more than the limit and one full bucket, the larger of one and a second's worth |
| RateLimiter.RateBoundWithSafeChanges | reflowfy/reflow_manager/rate_limiter.py:54-72 | With safe changes they are at most the size at the start plus what each rate earned while in force |
| RateLimiter.RaisingTheRateBreaksTheBound | reflowfy/reflow_manager/rate_limiter.py:65-70 | With an unsafe change that fails: a run that takes 20 tokens where the bound is 10.5 |
| RateLimiter.RateBoundAtHighestRate | reflowfy/reflow_manager/rate_limiter.py:54-72 | Whatever the changes, they are at most what the highest of the rates would have allowed |
| RateSessions.WhenAGrantIsPaidFor | reflowfy/reflow_manager/rate_limiter.py:129-179 | A grant decided on a loaded row takes from the bucket what it hands out if and only if the loaded row comes to the current amount; any difference is handed out twice |
| RateSessions.LoadedOnce | reflowfy/reflow_manager/rate_limiter.py:111-179 | What a session has loaded is the row of its last load, serves one decision and no more, and is not touched by other sessions |
| RateSessions.RateBoundForSessions | reflowfy/reflow_manager/rate_limiter.py:129-179 | If every grant is decided on the row as it is, any number of sessions together keep the rate bound |
| RateSessions.SessionsSpendOneToken | reflowfy/reflow_manager/rate_limiter.py:129-179 | Any number of sessions that load the row before any of them locks it can all take the one token it holds |
| RateLimiter.RateBoundSinceCreation | reflowfy/reflow_manager/rate_limiter.py:39-72 | From creation on they are at most one plus what the rate earned, and stored tokens stay between zero and the size |
| RateLimiter.RefusedPollsChangeNothing | reflowfy/reflow_manager/rate_limiter.py:166-179 | Any number of refused polls leaves the bucket, and so every later answer, unchanged |
| RateLimiter.CreditAccumulates | reflowfy/reflow_manager/rate_limiter.py:181-222 | However often it was refused, a sole consumer is served one token interval after the last change |
| RateLimiter.RateLimiter.GetOrCreateState | reflowfy/reflow_manager/rate_limiter.py:39-72 | A new bucket starts with one token; an existing row only changes when the rate does |
| RateLimiter.RateLimiter.ConsumeTokens | reflowfy/reflow_manager/rate_limiter.py:139-179 | Grants exactly if the refilled amount suffices; the row becomes the bucket after that poll, and a refusal leaves the stored tokens and their time alone |
| RateLimiter.RateLimiter.CanDispatch | reflowfy/reflow_manager/rate_limiter.py:86-109 | Looks without taking: later answers are unchanged |
| RateLimiter.RateLimiter.AcquireToken | reflowfy/reflow_manager/rate_limiter.py:181-222 | On an ideal clock a sole consumer that may wait one token interval gets its token, by the second attempt, and one token is all it takes |
| Dispatcher.SendLoop.ShouldStop | reflowfy/reflow_manager/pipeline_runner.py:919-933 | "Go on" means that less than a second ago the lease could be renewed and the execution was running; the chunk limit stops only while no token is spent |
| Dispatcher.SendLoop.AcquireToken | reflowfy/reflow_manager/rate_limiter.py:181-222 | A token is granted if and only if one of the polls the wait has room for finds one in the bucket; a refusal leaves bucket and log as they were |
| Dispatcher.WhenNoPollFinds | reflowfy/reflow_manager/rate_limiter.py:181-222 | The polls of a wait find no token if and only if the bucket has not earned one by the last of them |
| Dispatcher.SendLoop.TakeTurn | reflowfy/reflow_manager/dispatcher.py:199-255 | One turn: what it adds to the log, that it goes on only with two recent looks, and why it ended the batch if it did |
| Dispatcher.SendLoop.DispatchBatch | reflowfy/reflow_manager/dispatcher.py:185-257 | After any earlier batches, messages go out in order up to the turn that ends the batch, each with a token of its own, and at most one more token is spent; a batch ends early only because its chunk is over, a look of the last second failed, no poll of the turn finds a token, or the message cannot be sent or the broker fails |
| Dispatcher.SendLoop.EachLookedFirst | reflowfy/reflow_manager/pipeline_runner.py:919-933 | Every turn a batch went through looked at lease and state at most a second before its token wait and again before its send |
| Dispatcher.SendsFollowTokens | reflowfy/reflow_manager/dispatcher.py:199-223 | In any interval at most one message goes out on a token from before it |
| Dispatcher.SendLoop.MessagesWithinRate | reflowfy/reflow_manager/dispatcher.py:199-223 | Over any number of batches, the messages sent in any interval are at most the bucket's size plus what its rate earns in it, and one; every token is a poll the bucket granted |
| TransformationRunner.ApplyIteratively | reflowfy/execution/transformation_runner.py:196-309 | The loop's ending and log are those of the one trail of moments in which step i is position i of the list resolved at moment i; never more than `max_steps` steps are applied |
| TransformationRunner.TrailIsDetermined | reflowfy/execution/transformation_runner.py:196-309 | A pipeline, records and parameters have only one such trail |
| TransformationRunner.EndingIsDetermined | reflowfy/execution/transformation_runner.py:196-309 | A run of the loop can have only one ending and one log |
| TransformationRunner.EndingTells | reflowfy/execution/transformation_runner.py:196-309 | What each ending says: all listed steps applied, the step limit reached with steps left, a problem that passes through, or a failure with the step's name, place and input count |
| TransformationRunner.CountsFitTogether | reflowfy/execution/transformation_runner.py:41-72 | `records_out` of a step is `records_in` of the next, from the original records to the final ones |
| TransformationRunner.MomentIsFold | reflowfy/execution/transformation_runner.py:176-182 | At every moment of an append-only run the records are the fold of the steps listed so far |
| TransformationRunner.AppendOnlyRunIsAFold | reflowfy/execution/transformation_runner.py:176-182 | If the list only grew, a completed run applied every step of the final list once, in order, to the original records and parameters, a failed one is the fold up to the failing step, and one that exceeds the limit fails after exactly `max_steps` steps |
| TransformationRunner.PrependedStepIsMissed | reflowfy/execution/transformation_runner.py:176-182 | Without append-only lists this fails: a run that applies one step twice and the new one never |
| RecordPool.InvAlways | reflowfy/transformations/base.py:306-328 | Under every schedule, taken records are a prefix, and each is either in flight with one worker or has its result |
| RecordPool.TakenInOrder | reflowfy/transformations/base.py:308-315 | Records are handed out in input order, none twice and none skipped |
| RecordPool.NeverStuck | reflowfy/core/async_utils.py:48-61 | A pool that has neither finished nor failed always has a worker that can go on |
| RecordPool.SchedulesEnd | reflowfy/core/async_utils.py:48-61 | Every schedule has at most two events a record and one more a worker |
| RecordPool.PoolEqualsMap | reflowfy/core/async_utils.py:48-61 | A schedule that ends without failure leaves f(records[i]) in slot i for every i if and only if the pool has a worker or there are no records |
| RecordPool.StepEqualsMap | reflowfy/transformations/base.py:306-328 | The per-record step equals a sequential map if and only if its concurrency is at least one; below that it calls nothing and reports nothing |
| RecordPool.HelperEqualsMap | reflowfy/core/async_utils.py:32-61 | The shared helper equals a sequential map whatever its concurrency |
| RecordPool.FlyingBound | reflowfy/transformations/base.py:317-320 | At no moment of a step are more records in flight than its concurrency, or than there are records |
| RecordPool.HelperFlyingBound | reflowfy/core/async_utils.py:32-61 | At no moment does the shared helper have more in flight than the records, or than its concurrency, or one if that is lower |
| RecordPool.AllAtOnce | reflowfy/transformations/base.py:317-320 | The bound is reached: for every k up to the concurrency and the number of records some schedule has the first k in flight at once |
| RecordPool.FirstFailureIsReported | reflowfy/transformations/base.py:321-328 | Whatever happens after the first call that raised, the failure reported is its record |
| RecordPool.RecordStep.TakeNext | reflowfy/transformations/base.py:311-315 | A worker's turn at the iterator is the pool's step, in place |
| RecordPool.RecordStep.Return | reflowfy/transformations/base.py:313-315 | A call that returns writes its own record's slot and no other |
| RecordPool.RecordStep.Fail | reflowfy/transformations/base.py:313-327 | A call that raises ends its own worker and leaves the others at work, and the pool reports the first failure and not a later one |
| RecordPool.RecordStep.Cancel | reflowfy/transformations/base.py:321-327 | A cancellation stops one worker and leaves all results and the other workers as they are |
| RecordResults.SkipReasons.Count | reflowfy/transformations/base.py:183-188 | Counts a trimmed reason under its own key while there is room, and under the catch-all after that |
| RecordResults.TallyAddsUp | reflowfy/transformations/base.py:183-188 | The counts add up to the number of skips |
| RecordResults.TallyIsBounded | reflowfy/transformations/base.py:177-188 | The table never has more than `MAX_SKIP_REASONS` + 1 keys |
| RecordResults.TallyIsExact | reflowfy/transformations/base.py:183-188 | A reason with its own key has all its skips counted there, and only a full table leaves a reason without one |
| RecordResults.Collect | reflowfy/transformations/base.py:297-304 | Kept plus skipped plus dropped records are all records, and the skip table is that of the skips |
| RecordResults.KeptInOrder | reflowfy/transformations/base.py:297-304 | The kept records are the replies that are records, in input order |
| RecordResults.ReasonsInOrder | reflowfy/transformations/base.py:297-304 | The reasons counted are those of the replies that are skips, one for each, in input order |
| Grouping.GroupBy | reflowfy/reflow_manager/dlq_scheduler.py:445-451 | One group for each key, in first-seen order, with the items of that key in order |
| Grouping.KeysInOrder | reflowfy/reflow_manager/dlq_scheduler.py:445-451 | The keys of the groups come in the order of their first items |
| Grouping.SelectedInOrder | reflowfy/reflow_manager/dlq_scheduler.py:445-451 | A group holds the items of its key, and those only, in the order they are listed |
| Grouping.EachInItsGroup | reflowfy/reflow_manager/dlq_scheduler.py:445-451 | Every item is in the group of its key and in no other, and no group is empty |
| Grouping.GroupingConserves | reflowfy/reflow_manager/dlq_scheduler.py:445-451 | Together the groups hold every item exactly as often as it was listed |
| Dlq.BatchKeepsValid | reflowfy/reflow_manager/dlq_scheduler.py:157-213 | A batch keeps every job in exactly one table, with fewer failures than allowed while live, and every completed job tied to an execution with its own payload |
| Dlq.ValidAlways | reflowfy/reflow_manager/dlq_scheduler.py:249-368 | In every run, with manual failures and cancellations writing late, every id ever given out is in exactly one of the two tables, live jobs have `retry_count` below `max_retries`, archived ones equal to it, and each completed job's execution ran with that job's own payload |
| DlqRuns.AfterABatch | reflowfy/reflow_manager/dlq_scheduler.py:157-213 | After a batch each of its jobs is completed by an execution with its own payload, due again later, or archived by its last failure; none is left processing |
| DlqRuns.TriedUntilArchived | reflowfy/reflow_manager/dlq_scheduler.py:249-311 | Through any number of batches in a row in which a job fails it can be taken again after each, with one more failure on record, until the `max_retries`-th archives it |
| DlqRuns.WhenAFailureIsLost | reflowfy/reflow_manager/dlq_scheduler.py:140-155 | In every step the failures on record and in flight grow by exactly the failure of that step, unless it is in a batch that is rolled back, its handler ends without a write, or a manual failure finds its row gone or is written over a count that has moved on since it was read; then they do not |
| DlqRuns.WhenFailuresAreCounted | reflowfy/reflow_manager/dlq_scheduler.py:249-295 | Throughout a run the failed dispatches of a job, in whatever transaction, are those on record and in flight if and only if the run has no such step for it |
| DlqRuns.RetryBound | reflowfy/reflow_manager/dlq_scheduler.py:249-295 | Without such a step, a live job with no failure in flight has failed less often than `max_retries`, an archived one exactly so often |
| DlqRuns.UndisturbedBound | reflowfy/reflow_manager/dlq_scheduler.py:354-368 | In every run in which no dispatch of the job fails between a manual run's rollback and its failure write, none fails in a batch that is rolled back, and no handler ends without its write, the job fails at most `max_retries` times, and exactly so often once archived |
| DlqRuns.DelaysFollowTheCount | reflowfy/reflow_manager/dlq_scheduler.py:289-295 | If no failure is lost, a job's delays total 5 * (2^n - 1) minutes after n failures, 5 * (2^(max_retries - 1) - 1) for an archived one |
| DlqRuns.ThreeFailuresOfTwo | reflowfy/reflow_manager/dlq_scheduler.py:354-368 | A run in which a job with `max_retries` of two fails three times |
| DlqRuns.RolledBackEachTime | reflowfy/reflow_manager/dlq_scheduler.py:140-153 | Runs in which polls are rolled back any number of times: the job stays pending, due and with no failure on record, after as many failures, or with as many executions created for it |
| DlqRuns.WhenACompletedJobIsUndone | reflowfy/reflow_manager/dlq_scheduler.py:354-368 | A step takes a completed job out of that status if and only if it is a late cancellation, or a late failure that read another status than pending or archives the job |
| DlqRuns.CompletedForGood | reflowfy/reflow_manager/dlq_scheduler.py:313-368 | In every run in which no batch takes the job while a manual failure or a cancellation of it is under way, it stays completed once it is |
| DlqRuns.CompletedThenPending | reflowfy/reflow_manager/dlq_scheduler.py:354-368 | A run in which a completed job goes back to pending |
| DlqScheduler.Scheduler.HandleJobFailure | reflowfy/reflow_manager/dlq_scheduler.py:249-311 | One more failure: before its last try the job is pending again, due after the next delay, so that a poll takes it; at its last it moves to the archive with its payload and error; no other job changes |
| DlqScheduler.Scheduler.RunGroups | reflowfy/reflow_manager/dlq_scheduler.py:157-213 | Every job of the batch has run in an execution with its own payload or failed once, according to its payload's dispatch; one execution for each payload dispatched; all other jobs untouched |
| DlqScheduler.ReportsOnJobs | reflowfy/reflow_manager/dlq_scheduler.py:399-442 | No execution is created exactly if every job's dispatch fails, and there is no error exactly if none does |
| DlqScheduler.Scheduler.ProcessPipelineImmediately | reflowfy/reflow_manager/dlq_scheduler.py:371-442 | Raises exactly if there were jobs and no group ran, with the error of the payload first seen last; otherwise reports how many of the jobs are completed, each once, and their executions |
| DlqScheduler.Scheduler.ProcessJobImmediately | reflowfy/reflow_manager/dlq_scheduler.py:313-355 | A missing or non-pending job is refused without a change; a run that works out is a batch of one; one that fails leaves the queue as it was, the row unlocked and the failure in flight |
| DlqScheduler.Scheduler.ReadFailedJob | reflowfy/reflow_manager/dlq_scheduler.py:362-367 | The failure handler reads the row as it is by then, or finds it gone and records nothing |
| DlqScheduler.Scheduler.WriteFailure | reflowfy/reflow_manager/dlq_scheduler.py:367-368 | The handler writes count and due time from what it read, the status only if it read another than pending, or moves the job as it was read to the archive |
| DlqScheduler.Scheduler.PollAndProcess | reflowfy/reflow_manager/dlq_scheduler.py:101-155 | A poll amounts to one batch for each pipeline, in the order the pipelines are first seen |
| DlqScheduler.Scheduler.CancelJob | reflowfy/reflow_manager/dlq_routes.py:139-166 | The check of a cancellation passes exactly for a job read as pending |
| DlqScheduler.Scheduler.WriteCancellation | reflowfy/reflow_manager/dlq_routes.py:169-170 | Its write cancels the job whatever its status is by then, if it is still there |
| DlqScheduler.Scheduler.ScheduleJob | reflowfy/reflow_manager/dlq_routes.py:66-80 | A new job is pending under a fresh id, due after its delay, with no failures |

## Left out

- Claims that fail open: when the database is unreachable a worker runs the job without a claim (executor.py:622-628); the protocol assumes claims reach it.
- Local dispatch mode and its requeue of orphans, which skips the attempts check (pipeline_runner.py:415-424).
- Executions from before `plan_complete` existed, where the column is NULL and counts as whole.
- The legacy job-level hash guard (executor.py:524-546) and the sweep that ages out ledger rows: the ledger of a run is never swept.
- Kafka consumer offsets: a message may be redelivered any number of times or lost, and no delivery guarantee is stated.
- Cluster: finalization and the sweep's statements read the tables at one moment each; what a second query changes is `ClusterCompletion.LateReportFoolsFinalization`.
- ClusterJobs.NoRestartWithoutRequeue: for claims that reach the database, as above.
- DedupProtocol.ExactlyOnce: with the same hashes on every attempt of a job and no ledger sweep; a release is one step, and hashing itself is taken as injective.
- DedupProtocol.SentByOneJob: counts what successful attempts send; an attempt whose send raises part-way may have written records that it then releases and another job writes again.
- RateLimiter.RateBound: for one session on the bucket, as several are `RateSessions.RateBoundForSessions`, and for clock readings that do not go back.
- RateLimiter.RateLimiter.AcquireToken: on a clock that advances by exactly the time slept.
- Rounding of floating point in the bucket and in `ceil(count / size)`: amounts are reals, quotients exact.
- ElasticWindows.Split: one snapshot under a point in time with a strict total sort order; composite aggregations, slices, `search_after` queries of the user's own and range paging are not modelled.
- ElasticWindows.SplitRangeWindows: the sort field is present on every document, and its values are modelled as integers.
- Dispatcher.SendLoop.MessagesWithinRate: for one loop on its bucket at a fixed rate; counts acknowledged messages, as a send that raised may still have reached the broker.
- TransformationRunner.ApplyIteratively: step durations, modes and the guessed culprit record of a plain exception are not recorded; `define_transformations` is a function of records and parameters, and does not raise or change them.
- RecordPool.PoolEqualsMap: user code is a function of its record; `setup`, `teardown` and per-record timeouts are part of the call that returns or raises.
- Dlq.ValidAlways: for `max_retries` of at least one, with each batch one transaction on locked rows.
- DlqScheduler.Scheduler.RunGroups: an execution runs with the group's payload; the two bookkeeping keys added to it are left out, and so are executions left behind by a manual dispatch that raised or whose commit failed.
- Job columns that only report (`processed_records`, `stats`, `error_traceback`), job payloads and their parameters, and the text matching of `LIKE` wildcards and of host names that are prefixes of others.
- Hashing, JSON, templates, cron, registries, id ranges, HTTP routes, the command line, deployment, logging and metrics: plumbing, or true but easy.
