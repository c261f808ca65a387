# Emby-Auto workflow model

A Dafny model of the state machines behind Emby-Auto's download and import workflow, with proofs of what
they promise. The system is a set of Go workers and services that share one PostgreSQL database. Almost every
rule lives in an SQL statement whose `WHERE` clause guards one state change, so the model treats a statement, or
a transaction of several statements, as one atomic step and proves properties of all sequences of steps.

## Layout

| file | what it models |
|---|---|
| `Common.dfy` | optional values, identifiers, time |
| `Fulfilment.dfy` | target fulfilment rows and the denormalised columns of RSS entries |
| `RealtimeChecks.dfy` | real-time catalogue checks and when one of them is authoritative |
| `Operations.dfy` | operations and their attempts, cancellation, and the drain before a deletion |
| `Recovery.dfy` | the `recover-stale-operations` command |
| `EpisodeTasks.dfy` | an episode task from its two media branches to the import |
| `Downloads.dfy` | a download from enqueueing to materialization |
| `Projections.dfy` | the two cached list projections, their triggers and their reconciliation |
| `Subscriptions.dfy` | a subscription's lifecycle, its fenced mapping scopes, and the completion condition |
| `Occupancy.dfy` | the two occupancy queries |
| `SharedTorrents.dfy` | torrents in the client, the workers that add and remove them, and the downloads that record them |
| `TorrentWitnesses.dfy` | concrete runs in which a torrent is lost or forgotten |
| `Paging.dfy` | keyset pagination over a strict total order |
| `SortedListing.dfy` | the sorted subscription list |
| `Reconciliation.dfy` | windowed paging over mapping candidates while the database changes |

Each state machine has the same shape. Records stand for rows, pure functions for statements, a `Step` datatype
for transactions, `Next` (or `Apply`) for the effect of one step, and `Run` for a sequence of steps. Classes hold
the rows in fields and perform the transactions statement by statement; their postconditions say that the new state
is the one `Next` gives. The main theorems are about `Run`.

## Results that differ from the obvious expectation

- Attempt rows are numbered by the queue's own attempt counter, not by `attempt_count`. They are 1..`attempt_count`
  exactly when every start was handed `attempt_count` + 1 (`NumberedRunIff`). The stale-operation recovery refunds
  only one of the two counters, so the next start breaks the numbering (`RecoveryBreaksNumbering`).
- The recovery command counts jobs, not operations. It still recovers every eligible operation, because no two
  operations ever share a job (`JobsStayDistinct`). It reads the clock again for every transaction, so it may recover
  more operations than it announced, never fewer (`RecoverStaleOperations`).
- Marking an imported task whose file has no mapping, such as a movie, sets the columns of its RSS entry without a
  fulfilment row (`UnmappedImportBreaksColumns`, exact condition in `ImportConsistentIff`).
- Reports with equal timestamps are decided by arrival order. The verdict of a history is order-independent exactly
  when no such tie is left open (`OrderFreeIffDecisive`). The verification time of an invalid row depends on the order
  even then (`InvalidVerificationDependsOnOrder`).
- The projection triggers merge repeated writes of one transaction without raising the revision. A calculation that
  is waiting at that revision can then be stored, outdated, as a clean row (`CoalescedWriteIsLost`), and nothing else
  can bring that about (`RobustIffNeverCoalesced`). Row locks and the order of work in a transaction, which stores what
  it calculated before it writes again, rule it out in every run of interleaved transactions
  (`DisciplinedNeverCoalesces`).
- A retry right after a cancel is always refused: the cancel queues an operation of its own, and the task or download
  stays stopped until that has ended (`CancelledUntilSettled`).
- A failed or stopped task is not always recoverable: a retry is also refused while another acquisition occupies the
  target. The exact conditions are `ImportableUnaidedIff`, while only the task and its own operations move, and
  `ImportableIff`; for downloads `MaterializableUnaidedIff` and `MaterializableIff`.
- The state changes of tasks and downloads follow the transition tables the services validate against, with exact
  exceptions (`TransitionsIff` in both modules). A branch of a task that was already stopped can still fail it, and a
  rejected task is stopped with its acquisition; neither is in the table.
- The two occupancy queries differ only for a busy task whose acquisition is being deleted (`OccupanciesAgree`).
- Cancelling the downloads of a deleted acquisition leaves those whose files are still being chosen running
  (`DeletionMissesFileResolution`).
- An owner can lose its torrent in seven ways, and in no other (`OwnersKeepTorrentsIff`). Four workers delete torrents
  without asking who needs them by then: the one of a cancel, a rejection or a removal (`CancelLosesTorrent`), a clean-up
  after its download was removed (`CleanUpLosesTorrent`), a failed enqueue that added the torrent itself
  (`CompensationLosesTorrent`), and a deletion that works on an older listing (`StaleListingLosesTorrent`). And a download
  whose torrent is already gone can become an owner: when its enqueue commits (`EnqueueRecordsMissingTorrent`), when its
  refused manifest is accepted (`RevivalLosesTorrent`), or when its archived subscription comes back
  (`ReactivationLosesTorrent`).
- A torrent can be left in the client without a record: by an enqueue worker that dies (`CrashForgetsTorrent`), or by
  retrying a stopped download on whose behalf the deletion of another acquisition kept it (`RetryForgetsTorrent`). The
  exact condition is `TorrentsAccountedIff`.
- A completion condition survives every later fulfilment step exactly when managed imports alone meet it
  (`CompletionIsStableIff`).

## Assumptions

- A statement, and a transaction that locks the rows it touches, is atomic. All parts of one data-modifying `WITH`
  read the state before it.
- Clock values passed to a step do not run backwards where a statement depends on it.
- Identifiers are generated fresh. A real-time check id is used once per target.
- Integers are unbounded; version, attempt and revision columns do not overflow.
- A cached list value is represented by the inputs it was calculated from, so equal views mean equal values for any
  calculation.
- Text order is an arbitrary strict total order. Only the zero-padded season key uses a concrete one, the C collation.
- In `Reconciliation.dfy` the snapshots read by successive pages are a finite history that stays at its last value;
  every run reads finitely many pages.
- In `SharedTorrents.dfy` nobody but the four workers adds or deletes torrents, and one call to the client is atomic.
  The model admits some runs the code does not: a removal may be requested in every status with a hash, the stopping of
  downloads may come later than the deletion mark it shares a transaction with, and a retry there does not ask about
  occupied targets. The results hold for those runs as well.
- A download is an owner while it is neither stopped, removed (or asked to be), rejected nor cleaned up and its
  acquisition is neither being deleted nor archived.
- Whether a task's or download's own operations refuse a retry is the flag `stopping`. A cancel, a removal and a
  rejection set it, and the operations may set or clear it at any time. What everything else says about a retry is one
  value, `Hold`. It may change at any time, except that another acquisition's import of the target is not given up; only
  deleting that acquisition would do so.
- In `Projections.dfy` row locks are held until a transaction ends, and a transaction that rolls back leaves no trace.
  Readers of the lists see committed rows.

## Model

| member | source | states |
|---|---|---|
| `Fulfilment.Store.ClearCatalogFulfilment` | backend/db/sqlc/rss.sql.go:138-181 | deletes the catalogue row and recomputes the entry from the rows before the delete; the result is the clearing step |
| `Fulfilment.Store.MarkImportedForTask` | backend/db/sqlc/rss.sql.go:3620-3660 | records a managed import for the task's entry and target; reports exactly when an entry was updated |
| `Fulfilment.Store.MarkTargetOccupied` | backend/db/sqlc/rss.sql.go:3788-3866 | rejects the entry, upserts the fulfilment and drops obsolete catalogue rows; reports exactly when the guard held |
| `Fulfilment.Store.RefreshForRealtimeTarget` | backend/db/sqlc/rss.sql.go:4118-4145 | the row-by-row refresh equals the one-statement refresh of all catalogue rows of the target |
| `Fulfilment.ClearSnapshotIsPostState` | backend/db/sqlc/rss.sql.go:138-181 | the columns computed on the snapshot before the delete are those recomputed from the rows after it |
| `Fulfilment.ExpectedLocal` | backend/db/sqlc/rss.sql.go:138-181 | an entry's columns depend on its own rows only |
| `Fulfilment.ImportConsistentIff` | backend/db/sqlc/rss.sql.go:3620-3660 | an import keeps columns and rows in agreement exactly when the task is mapped, the entry already has a managed row, or nothing changes |
| `Fulfilment.OccupyConsistent` | backend/db/sqlc/rss.sql.go:3788-3866 | marking a target occupied keeps columns and rows in agreement |
| `Fulfilment.RefreshConsistent` | backend/db/sqlc/rss.sql.go:4118-4145 | a refresh keeps columns and rows in agreement |
| `Fulfilment.ClearConsistent` | backend/db/sqlc/rss.sql.go:138-181 | clearing keeps columns and rows in agreement |
| `Fulfilment.RunsStayConsistent` | backend/db/sqlc/rss.sql.go:3620-3660 | over every run on mapped tasks an entry is imported iff it has a row, and its source is the strongest one recorded |
| `Fulfilment.UnmappedImportBreaksColumns` | backend/db/sqlc/rss.sql.go:3620-3660 | a concrete unmapped import after which columns and rows disagree |
| `Fulfilment.LastOpinionStands` | backend/db/sqlc/rss.sql.go:3788-3866 | after every run an entry says what the last statement that reached it said; an occupied target forbids the download, with its reason alone, until another statement allows it |
| `Fulfilment.DiscoveredIff` | backend/db/sqlc/rss.sql.go:1339-1380 | an entry exists exactly from its discovery on |
| `Fulfilment.ImportTimeIsFirst` | backend/db/sqlc/rss.sql.go:3620-3660 | the time of the first fulfilment is kept until the entry is cleared |
| `Fulfilment.ManagedRowNamesTask` | backend/db/sqlc/rss.sql.go:3620-3660 | an import leaves a managed row naming its task, and no other statement changes that |
| `Fulfilment.LatestGoverns` | backend/db/sqlc/rss.sql.go:4118-4145 | the row built from any sequence of reports has the validity and times of the latest one |
| `Fulfilment.RunFollowsHistory` | backend/db/sqlc/rss.sql.go:3839-3864 | in every run a catalogue row exists exactly while it has a report history, and is the row that history builds |
| `Fulfilment.LatestReportDecides` | backend/db/sqlc/rss.sql.go:4118-4145 | after every run a catalogue row is valid iff its latest report says present, and carries that report's time |
| `Fulfilment.DecisiveIsOrderFree` | backend/db/sqlc/rss.sql.go:4118-4145 | reordering the reports of a decisive history changes neither validity nor the invalidation time nor, while valid, the verification time |
| `Fulfilment.InvalidVerificationDependsOnOrder` | backend/db/sqlc/rss.sql.go:4118-4145 | two orders of the same decisive reports after which an invalid row has different verification times |
| `Fulfilment.PostponedWins` | backend/db/sqlc/rss.sql.go:4118-4145 | among reports of equal latest time the one that arrives last governs |
| `Fulfilment.OrderFreeIffDecisive` | backend/db/sqlc/rss.sql.go:4118-4145 | a history is independent of arrival order exactly when it is decisive |
| `RealtimeChecks.CheckTable.DeleteExpired` | backend/db/sqlc/rss.sql.go:571-573 | keeps exactly the checks of the last ten minutes |
| `RealtimeChecks.AuthorityIsUnanimousLatest` | backend/db/sqlc/rss.sql.go:1482-1503 | a check is authoritative iff it is at most thirty seconds old, latest for its target, and every latest check says present |
| `RealtimeChecks.AuthoritiesAgree` | backend/db/sqlc/rss.sql.go:1482-1503 | two authoritative checks have equal times and both say present; every absent check is strictly older |
| `RealtimeChecks.ExpiryTrims` | backend/db/sqlc/rss.sql.go:571-573 | a run with expiry differs from the run without it only by checks older than the retention |
| `RealtimeChecks.ExpiryIsInvisible` | backend/db/sqlc/rss.sql.go:932-954 | deleting expired checks changes no later authority, occupancy or stale-fulfilment answer |
| `RealtimeChecks.StaleIff` | backend/db/sqlc/rss.sql.go:2799-2815 | a check lists a catalogue fulfilment as stale iff it is at most thirty seconds old and says absent |
| `RealtimeChecks.MovesKeepExplained` | backend/db/sqlc/rss.sql.go:4814-4832 | every invalidation stays explained by an absent check on record or is older than the retention |
| `RealtimeChecks.AbsenceInvalidatesStale` | backend/db/sqlc/rss.sql.go:4118-4145 | what a fresh report of absence lists as stale it has itself invalidated, unless a later presence is on the row |
| `RealtimeChecks.AuthoritativeWriteIsValid` | backend/internal/service/rss_target_occupancy.go:248-282 | in every run, writes without a check included, a fulfilment recorded under an authoritative check leaves its row valid at the check's time or later |
| `Operations.OperationStore.Schedule` | backend/internal/service/operations.go:101-208 | operation, new job and their attachment in one transaction, exactly when the attempt budget is valid and neither id nor job exists; kind, resource and budget are those asked for |
| `Operations.EvolveKeepsJobs` | backend/internal/service/operations.go:177-186 | scheduling, lifecycle steps and queue moves keep one job per operation |
| `Operations.JobsStayDistinct` | backend/internal/service/operations.go:177-186 | over all runs from an empty database no two operations share a job, and every ledger holds |
| `Operations.OperationStore.Begin` | backend/internal/repository/operation_lifecycle.go:27-75 | abandon, start and create in one transaction have the effect of the start step; a refused start changes nothing |
| `Operations.OperationStore.Succeed` | backend/internal/repository/operation_lifecycle.go:99-118 | completes attempt and operation together or changes nothing |
| `Operations.OperationStore.FailOrRetry` | backend/internal/repository/operation_lifecycle.go:120-222 | finishes the attempt; without a cancellation request the operation is queued again iff the failure is retryable and budget is left, and failed otherwise; with one it is cancelled |
| `Operations.OperationStore.CancelRunning` | backend/internal/repository/operation_lifecycle.go:224-246 | cancels attempt and operation together or changes nothing |
| `Operations.OperationStore.SnoozeRunning` | backend/internal/repository/operation_lifecycle.go:248-269 | deletes the running attempt and refunds it; commits exactly when both statements find their row |
| `Operations.OperationStore.RequestAcquisitionCancellations` | backend/db/sqlc/deletions.sql.go:521-547 | asks exactly the pending operations in scope to cancel, except the excluded one and deletions, and keeps earlier requests |
| `Operations.AbandonKeepsCount` | backend/db/sqlc/operations.sql.go:14-23 | abandoning leaves the number of attempt rows and no running one |
| `Operations.StartKeepsLedger` | backend/db/sqlc/operations.sql.go:700-712 | a start keeps the attempt ledger |
| `Operations.SnoozeKeepsLedger` | backend/db/sqlc/operations.sql.go:660-670 | a snooze keeps the attempt ledger |
| `Operations.FinishKeepsLedger` | backend/db/sqlc/operations.sql.go:339-349 | finishing the running attempt and leaving the running status keeps the ledger |
| `Operations.NextKeepsLedger` | backend/internal/repository/operation_lifecycle.go:27-269 | every transaction keeps it: budget respected, rows and counter agree, one running row iff running, finished iff terminal |
| `Operations.SpentMovesCounter` | backend/db/sqlc/operations.sql.go:660-712 | the counter moves by one for each committed start, back by one for each committed snooze, and otherwise not |
| `Operations.LedgerOverRuns` | backend/db/sqlc/operations.sql.go:613-712 | in every run starts minus snoozes equals `attempt_count`, within 0..`max_attempts` |
| `Operations.StartNumberedIff` | backend/db/sqlc/operations.sql.go:226-240 | a start keeps the rows numbered 1..`attempt_count` iff it was handed the next number |
| `Operations.OtherStepsKeepNumbered` | backend/db/sqlc/operations.sql.go:273-277 | no other transaction disturbs the numbering |
| `Operations.NumberedStepIff` | backend/db/sqlc/operations.sql.go:226-277 | the two facts above for every transaction |
| `Operations.NumberedRunIff` | backend/db/sqlc/operations.sql.go:226-277 | rows are numbered 1..`attempt_count` throughout a run iff every start was handed `attempt_count` + 1 |
| `Operations.GrowingNumbersRunLast` | backend/db/sqlc/operations.sql.go:226-240 | with growing numbers the running attempt is the highest numbered one, in every run |
| `Operations.RecoveryBreaksNumbering` | backend/cmd/recover-stale-operations/main.go:89-146 | for every fresh operation a recovered start breaks the numbering |
| `Operations.TerminalIsFrozen` | backend/db/sqlc/operations.sql.go:75-122 | no transaction changes a terminal operation |
| `Operations.CancelledIsTheOnlyWayOut` | backend/db/sqlc/operations.sql.go:577-712 | after a cancellation request, over every run, the status stays or becomes cancelled and no attempt is spent |
| `Operations.InactiveStaysInactive` | backend/db/sqlc/deletions.sql.go:57-84 | an operation the deletion does not wait for never becomes one it waits for |
| `Operations.StartIff` | backend/internal/repository/operation_lifecycle.go:27-75 | an attempt starts iff the operation is pending, not asked to cancel, within budget and handed a new positive number; an attempt left running has failed; nothing else makes an operation run |
| `Operations.ReportOutcome` | backend/internal/repository/operation_lifecycle.go:99-269 | what a failure, a success or a snooze of the running attempt makes of operation, row and counter |
| `Operations.GiveUpOutcome` | backend/internal/repository/operation_lifecycle.go:224-246 | a worker that gives up cancels attempt and operation |
| `Operations.ReportAfterRequest` | backend/internal/repository/operation_lifecycle.go:130-152 | a failure reported after a cancellation request cancels; a success or snooze is refused |
| `Operations.EndsNow` | backend/db/sqlc/operations.sql.go:75-122 | exactly which transactions end a pending operation, and how |
| `Operations.EndingIff` | backend/internal/repository/operation_lifecycle.go:27-269 | over every run: failed iff a failure came that was not retryable or found the budget spent, succeeded iff a success came without a request, cancelled iff a worker gave up or the request was noticed |
| `Operations.RetryableFailsLast` | backend/internal/repository/operation_lifecycle.go:161-175 | an operation whose failures are all retryable fails only with its whole budget on record |
| `Operations.ApplyKeepsSound` | backend/db/sqlc/deletions.sql.go:521-547 | lifecycle and bulk steps keep the ledger of every operation |
| `Operations.BlockingNeverGrows` | backend/db/sqlc/deletions.sql.go:57-84 | with no operation created, the set a deletion waits for never grows under any interleaving |
| `Operations.QuietForGood` | backend/db/sqlc/deletions.sql.go:57-84 | a deletion waits for nothing iff every other operation in scope is over or queued and asked to cancel, and then none of them ever runs again |
| `Operations.RequestStartsDrain` | backend/db/sqlc/deletions.sql.go:521-547 | after the bulk request everything still waited for is running and asked to cancel |
| `Operations.DrainCompletes` | backend/db/sqlc/deletions.sql.go:57-84 | cancelling the running attempts, one step each, brings the count to zero |
| `Recovery.CandidateIff` | backend/cmd/recover-stale-operations/main.go:168-196 | the candidate rows are exactly the running attempts of stale operations |
| `Recovery.EligibleIff` | backend/cmd/recover-stale-operations/main.go:149-166 | the distinct operations of those rows are the eligible ones |
| `Recovery.LockCandidate` | backend/cmd/recover-stale-operations/main.go:168-196 | the candidate silent for longest, the smaller id deciding a tie, its latest attempt; none iff there is none |
| `Recovery.CountEligible` | backend/cmd/recover-stale-operations/main.go:149-166 | counts the eligible operations |
| `Recovery.RecoverOne` | backend/cmd/recover-stale-operations/main.go:89-146 | rescues the job and snoozes the operation of the first candidate; cannot fail when the ledger holds |
| `Recovery.NothingLeft` | backend/cmd/recover-stale-operations/main.go:89-146 | when no candidate is left the rescued jobs are those of all initially eligible operations |
| `Recovery.ProgressStep` | backend/cmd/recover-stale-operations/main.go:89-146 | each recovery rescues a new job and shrinks the set of running operations |
| `Recovery.RecoverNext` | backend/cmd/recover-stale-operations/main.go:89-146 | one loop turn either finishes or rescues one more job |
| `Recovery.RecoverAll` | backend/cmd/recover-stale-operations/main.go:89-146 | the loop ends, hits no error path, leaves nothing eligible, and recovers one operation per distinct job |
| `Recovery.RecoveryIsExact` | backend/cmd/recover-stale-operations/main.go:89-196 | operation by operation: running, not asked to cancel, silent since before the cut-off, its job running and of the kind asked for means queued again without its running attempt, refunded, job rescued; every other operation and job is as it was |
| `Recovery.BeatingIsNotStale` | backend/cmd/recover-stale-operations/main.go:168-196 | an operation that beats or starts at or after the cut-off is not stale |
| `Recovery.RecoverStaleOperations` | backend/cmd/recover-stale-operations/main.go:34-146 | usage errors, dry run and recovery; announces the eligible count and changes nothing unless applied; with distinct jobs it recovers every operation eligible at its last cut-off and touches no other, at least the announced number, and exactly that number when the cut-off has not moved |
| `Recovery.CountsAgree` | backend/cmd/recover-stale-operations/main.go:149-166 | operations with their own jobs are as many as their jobs, and a later cut-off only adds to them |
| `Recovery.ReachableRecoveryIsComplete` | backend/cmd/recover-stale-operations/main.go:89-166 | on every database the scheduler and the lifecycle can produce, the loop's count is the number of eligible operations |
| `EpisodeTasks.Latest` | backend/db/sqlc/tasks.sql.go:51-64 | the latest import in one of the given statuses, and none iff there is none |
| `EpisodeTasks.TaskWorkflow.CompleteArtifact` | backend/internal/service/media_workflow.go:363-448 | readies the branch and moves on to finalizing when it was the last, in one transaction |
| `EpisodeTasks.TaskWorkflow.FinishFinalize` | backend/internal/service/media_workflow.go:461-508 | creates the artifact set, awaits review, and with automatic review queues the import, or changes nothing |
| `EpisodeTasks.TaskWorkflow.Approve` | backend/internal/service/media_workflow.go:516-592 | review, approval, import row and queueing together, or nothing |
| `EpisodeTasks.TaskWorkflow.ReviewTask` | backend/internal/service/task_workflow.go:140-250 | a task is reviewed once, at the expected version, with its artifacts present; approval queues one import, rejection none |
| `EpisodeTasks.TaskWorkflow.RunImport` | backend/internal/service/task_workflow.go:349-393 | starts import and task together or changes nothing |
| `EpisodeTasks.TaskWorkflow.SucceedImport` | backend/internal/service/task_workflow.go:396-431 | completes import and task together or changes nothing |
| `EpisodeTasks.TaskWorkflow.FailImport` | backend/internal/repository/operation_lifecycle.go:422-448 | fails the active import, and the task if it is still importing |
| `EpisodeTasks.TaskWorkflow.CancelImport` | backend/internal/repository/operation_lifecycle.go:501-515 | cancels the active import, and the task if it is still importing |
| `EpisodeTasks.TaskWorkflow.CancelTask` | backend/internal/service/task_commands.go:327-379 | stops the row and leaves its cancel operation queued, which refuses every retry at once |
| `EpisodeTasks.TaskWorkflow.RetryTask` | backend/internal/service/task_commands.go:64-270 | the refusals of the workflow lock and the dispatch over media, finalize, import and stopped tasks have the effect of the retry step |
| `EpisodeTasks.TaskWorkflow.RetryAfterMedia` | backend/internal/service/task_commands.go:272-310 | a stopped task with ready branches resumes at its import, or at finalizing when it has none |
| `EpisodeTasks.NextKeepsConsistent` | backend/db/sqlc/media.sql.go:879-1369 | every step keeps the row consistent |
| `EpisodeTasks.RunsStayConsistent` | backend/db/sqlc/media.sql.go:14-26 | over all runs: failed iff a stage is recorded, late states have both branches ready, a processing task has an unfinished branch, at most one import, succeeded iff imported |
| `EpisodeTasks.NextAdvances` | backend/db/sqlc/media.sql.go:1187-1193 | no step takes back a ready branch, a review, an import or a version |
| `EpisodeTasks.RunsAdvance` | backend/db/sqlc/media.sql.go:1071-1077 | over all runs ready branches stay ready and a task with both ready never returns to media processing |
| `EpisodeTasks.BranchesCannotMoveLateTasks` | backend/db/sqlc/media.sql.go:1033-1231 | branch steps do not check the state, yet cannot move a task that reached finalizing |
| `EpisodeTasks.StepLeads` | backend/internal/domain/state.go:75-88 | where each transaction can lead a task from where |
| `EpisodeTasks.TransitionsIff` | backend/internal/domain/state.go:75-88 | every step follows the transition table of the services except exactly: retrying a stopped task or a failed finalize, a branch of a stopped task failing late, and stopping a rejected task with its acquisition |
| `EpisodeTasks.VideoTransitionsIff` | backend/internal/domain/state.go:100-107 | the video branch follows its table except exactly: completion from queued, re-queueing of a stopped task, and stopping a failed branch with its acquisition |
| `EpisodeTasks.SubtitleTransitionsIff` | backend/internal/domain/state.go:119-126 | the same for the subtitle branch |
| `EpisodeTasks.VideoReports` | backend/db/sqlc/media.sql.go:1149-1236 | a report about the video takes effect iff that branch is open, settles it as reported and leaves the other alone |
| `EpisodeTasks.SubtitleReports` | backend/db/sqlc/media.sql.go:1033-1120 | the same for the subtitle |
| `EpisodeTasks.StartIff` | backend/db/sqlc/media.sql.go:1397-1450 | a branch is started iff it is open and the task has not moved past its media |
| `EpisodeTasks.ReviewIff` | backend/internal/service/task_workflow.go:140-250 | a review takes effect iff the task awaits it at the expected version, and records the decision |
| `EpisodeTasks.RejectionIsFinal` | backend/internal/service/task_workflow.go:178-208 | a rejection is recorded as one, creates no import, and no later run imports the task |
| `EpisodeTasks.FinalizeReports` | backend/internal/service/media_workflow.go:461-508 | a finalizing task ends as reported, and no other listens |
| `EpisodeTasks.ImportReports` | backend/internal/service/task_workflow.go:349-431 | an active import begins, succeeds, fails or stops together with its task |
| `EpisodeTasks.RetryUndoesFailure` | backend/internal/service/task_commands.go:64-270 | a failure followed by its retry puts the task back where it failed, with only the failed part to be done again |
| `EpisodeTasks.ExactlyOneRequeue` | backend/db/sqlc/media.sql.go:1265-1369 | in a failed task exactly the requeue of the recorded stage finds its row |
| `EpisodeTasks.RetryIff` | backend/internal/service/workflow_retry.go:20-84 | a retry takes effect iff no deletion, stopping operation, archived source or occupied target holds it back, the version matches, and the task failed or stopped with both branches stopped |
| `EpisodeTasks.StoppingIff` | backend/internal/service/task_commands.go:327-379 | its own operations refuse a retry from a cancel that took effect until they end |
| `EpisodeTasks.CancelledUntilSettled` | backend/db/query/retries.sql:38-54 | over every run a cancelled task stays cancelled until its own operations have ended |
| `EpisodeTasks.ChangesRaiseVersion` | backend/db/sqlc/media.sql.go:879-1450 | every change of state or branch raises the version |
| `EpisodeTasks.OneCommandPerVersion` | backend/internal/service/task_commands.go:64-379 | of two commands for one version only one takes effect, and none for an older one |
| `EpisodeTasks.CompletionsHalt` | backend/db/sqlc/media.sql.go:1071-1193 | completing both branches stops them without leaving the task's fate decided |
| `EpisodeTasks.ForwardReaches` | backend/db/sqlc/media.sql.go:997-1005 | from every consistent task with usable branches, or past them, a run without a retry reaches imported |
| `EpisodeTasks.Reopen` | backend/internal/service/task_commands.go:64-310 | stopping the task, letting its cancel operation end and retrying gives any other unrejected task a way forward again, including processing with a cancelled branch |
| `EpisodeTasks.ReachImported` | backend/db/sqlc/tasks.sql.go:1445-1454 | from every consistent task with a way forward, or that nothing foreign holds back, a run of the task and its own operations reaches imported |
| `EpisodeTasks.StuckForGood` | backend/internal/service/workflow_retry.go:43-81 | a task without a way forward that is rejected, being deleted or held back stays so over every run that cannot lift the hold |
| `EpisodeTasks.ImportableUnaidedIff` | backend/internal/service/workflow_retry.go:20-84 | while everything but the task and its own operations stands still it can be imported iff it has a way forward, or is unrejected, not being deleted and held back by nothing else |
| `EpisodeTasks.ImportableIff` | backend/internal/service/workflow_retry.go:20-84 | over all runs a task can be imported iff it has a way forward, or is unrejected, not being deleted and its target is not imported by another acquisition |
| `EpisodeTasks.DeletionIsFinal` | backend/db/sqlc/deletions.sql.go:35-48 | a task stopped with its acquisition is never imported any more |
| `EpisodeTasks.ReachableTasks` | backend/db/sqlc/media.sql.go:14-26 | spells the invariant out for every task reachable from its creation |
| `EpisodeTasks.ReachableImportableIff` | backend/db/sqlc/retries.sql.go:202-257 | the same for every task reachable from its creation |
| `Downloads.DownloadWorkflow.RecordProgress` | backend/internal/service/download_workflow.go:355-398 | clamps and scales the reported fraction; a running download stores the larger of it and the old progress, nothing else changes |
| `Downloads.DownloadWorkflow.CompleteDownload` | backend/internal/service/download_workflow.go:400-440 | completes a running download; succeeds iff it then is complete |
| `Downloads.DownloadWorkflow.MaterializeDownload` | backend/internal/service/media_workflow.go:40-166 | selecting, task creation and materializing are one transaction on a completed download |
| `Downloads.DownloadWorkflow.CancelDownload` | backend/internal/service/download_commands.go:234-301 | stops the row and leaves its cancel operation queued, which refuses every retry at once |
| `Downloads.DownloadWorkflow.RetryDownload` | backend/internal/service/download_commands.go:48-206 | the refusals of the workflow lock and the dispatch over the failure stages have the effect of the retry step |
| `Downloads.NextKeepsConsistent` | backend/db/sqlc/downloads.sql.go:311-540 | every step keeps the row consistent |
| `Downloads.RunsStayConsistent` | backend/db/sqlc/downloads.sql.go:411-1009 | over all runs: failed iff a stage is recorded, later stages have a hash, progress within bounds and full once complete, tasks iff materialized |
| `Downloads.StepLeads` | backend/internal/domain/state.go:47-57 | where each transaction can lead a download from where |
| `Downloads.TransitionsIff` | backend/internal/domain/state.go:47-57 | every step follows the transition table of the services except exactly the ways back: an admitted retry, a file choice after a failed resolution, a mapping after a failed materialization |
| `Downloads.EnqueueIff` | backend/db/sqlc/downloads.sql.go:411-510 | an enqueue takes effect iff the download is pending, records the torrent and starts it or leaves its files to be chosen |
| `Downloads.FailureIsRecorded` | backend/db/sqlc/downloads.sql.go:311-540 | a failure is recorded with its stage and code, only in the status that raises it |
| `Downloads.RemovalIff` | backend/db/sqlc/downloads.sql.go:603-614 | a removal is requested only for a complete, failed or stopped download and never taken back |
| `Downloads.RemovedIff` | backend/internal/worker/download_cancel.go:48-125 | a removal is completed only after its request |
| `Downloads.ProgressIsMonotone` | backend/db/sqlc/downloads.sql.go:1213-1223 | progress never falls over a run without re-enqueue |
| `Downloads.CompletionIsKept` | backend/db/sqlc/downloads.sql.go:311-323 | a complete download stays complete or stopped until it is enqueued again |
| `Downloads.RetryIff` | backend/internal/service/download_commands.go:48-206 | a retry takes effect iff none of its own operations is stopping, nothing else holds the workflow back and the download stopped, or failed with an unchanged manifest; it resumes at the failed stage with its progress, or starts over without torrent and progress |
| `Downloads.StoppingIff` | backend/internal/service/download_commands.go:234-387 | its own operations refuse a retry from a cancel, a removal or a rejected manifest until they end |
| `Downloads.CancelledUntilSettled` | backend/db/query/retries.sql:38-54 | over every run a cancelled download stays cancelled until its own operations have ended |
| `Downloads.ChangesRaiseVersion` | backend/db/sqlc/downloads.sql.go:311-1009 | every change of status raises the version by one, except a completion by the synchronization |
| `Downloads.OneCommandPerVersion` | backend/internal/service/download_commands.go:48-387 | of two commands for one version only one takes effect, and none for an older one |
| `Downloads.RetryUndoesFailure` | backend/db/sqlc/downloads.sql.go:736-1009 | a failure followed by its retry restores the row up to its version |
| `Downloads.DeletionMissesFileResolution` | backend/db/sqlc/deletions.sql.go:14-24 | after the deletion's cancel a download is still active iff its files were being chosen |
| `Downloads.ReachMaterialized` | backend/db/sqlc/retries.sql.go:140-163 | from every consistent download with a way forward, or that nothing foreign holds back, a run of the download and its own operations reaches materialized |
| `Downloads.StuckForGood` | backend/internal/service/workflow_retry.go:43-81 | a download without a way forward that is being removed, deleted or held back stays so over every run that cannot lift the hold |
| `Downloads.MaterializableUnaidedIff` | backend/internal/service/workflow_retry.go:20-84 | while everything but the download and its own operations stands still it can be materialized iff it has a way forward or nothing else forbids a retry |
| `Downloads.MaterializableIff` | backend/internal/service/workflow_retry.go:20-84 | over all runs only removal, deletion and another acquisition's import are final for a download without a way forward |
| `Downloads.DeletedMaterializableIff` | backend/db/sqlc/deletions.sql.go:14-24 | once stopped with its acquisition a download can still be materialized iff it already is, its files were being chosen, or it failed where a file choice or a mapping helps |
| `Downloads.ReachableDownloads` | backend/db/sqlc/media.sql.go:800-845 | invariant and exact reachability for every download reachable from its creation |
| `Projections.SoundWriteAcq` | backend/db/migrations/000045_list_projections.up.sql:107-124 | writing, inserting or relinking an acquisition keeps the cache sound unless coalesced |
| `Projections.SoundWriteChild` | backend/db/migrations/000045_list_projections.up.sql:152-213 | the same for its child tables, which reach the entry only through the projection |
| `Projections.SoundUpdateAcq` | backend/db/sqlc/list_projections.sql.go:906-929 | storing an acquisition calculation keeps the cache sound unless it races an entry calculation |
| `Projections.StepKeepsSound` | backend/db/migrations/000045_list_projections.up.sql:107-150 | every step that is not coalesced under a waiting calculation keeps the cache sound |
| `Projections.SoundIsRobust` | backend/db/sqlc/list_projections.sql.go:906-959 | in a sound cache no waiting calculation can be stored as a stale clean row |
| `Projections.CoalescedStoresStale` | backend/db/migrations/000045_list_projections.up.sql:107-150 | after every coalesced step one write-back stores a stale row as clean |
| `Projections.CoalescedBreaks` | backend/db/migrations/000045_list_projections.up.sql:107-150 | every coalesced step leaves the cache neither robust nor sound |
| `Projections.RobustIffNeverCoalesced` | backend/db/sqlc/list_projections.sql.go:877-929 | over all interleavings of statements no waiting calculation can ever be stored as a stale clean row iff no write was coalesced under one |
| `Projections.AllowedIsNotCoalesced` | backend/internal/service/list_projection_store.go:30-50 | a statement that the row locks admit, issued by a transaction that stores what it calculated before it writes again, is never coalesced |
| `Projections.DisciplinedNeverCoalesces` | backend/internal/service/list_projection_store.go:30-50 | no run of interleaved transactions that keep their row locks and that order of work coalesces a write |
| `Projections.RefreshIsDisciplined` | backend/internal/service/list_projection_store.go:95-137 | a whole refresh, of acquisitions and of entries with their parents, in any order and any number of batches, extends every such run to such a run |
| `Projections.CleanAcqIsCurrent` | backend/db/sqlc/list_projections.sql.go:906-929 | in every run of interleaved transactions a clean acquisition row is the projection of its current source at its own model version |
| `Projections.CleanEntryIsCurrent` | backend/db/sqlc/list_projections.sql.go:940-959 | in every run of interleaved transactions a clean entry row is the projection of its own and its parent's current source |
| `Projections.CleanOrphanIsCurrent` | backend/db/sqlc/list_projections.sql.go:940-959 | the same for an entry without acquisition |
| `Projections.LateCalculationIsRefused` | backend/db/sqlc/list_projections.sql.go:928-929 | a calculation started before another transaction's write is never stored |
| `Projections.CoalescedWriteIsLost` | backend/db/migrations/000045_list_projections.up.sql:107-124 | a concrete run after which a clean row hides a newer source |
| `Projections.ProjectionStore.LockBatch` | backend/db/sqlc/list_projections.sql.go:738-744 | at most one batch of dirty rows, none iff there are none |
| `Projections.ProjectionStore.OutdateAcqs` | backend/db/sqlc/list_projections.sql.go:877-883 | afterwards every row below the model version is dirty |
| `Projections.ProjectionStore.OutdateEntries` | backend/db/sqlc/list_projections.sql.go:884-891 | the same for entries |
| `Projections.ProjectionStore.RefreshAcqBatch` | backend/internal/service/list_projection_store.go:97-104 | exactly the batch becomes clean and up to date; sources are untouched; the result is that of refreshing its rows in some order |
| `Projections.ProjectionStore.RefreshOneEntry` | backend/internal/service/list_projection_store.go:105-133 | brings the parent up to date first, then the entry; no other row becomes dirty |
| `Projections.ProjectionStore.RefreshEntryBatch` | backend/internal/service/list_projection_store.go:105-133 | exactly the batch becomes clean and up to date; no acquisition gets worse; the result is that of refreshing its rows in some order |
| `Projections.ReadyAcqsAreCurrent` | backend/db/sqlc/list_projections.sql.go:26-35 | readiness means every acquisition row is clean, of the current model and shows its source |
| `Projections.ReadyEntriesAreCurrent` | backend/db/sqlc/list_projections.sql.go:26-35 | and every entry row shows its source and the current view of its parent, if any |
| `Projections.ProjectionStore.ReconcileAcqs` | backend/internal/service/list_projection_store.go:55-87 | ends; succeeds iff no newer model; then every acquisition row is clean, of the current model and shows its source |
| `Projections.ProjectionStore.ReconcileEntries` | backend/internal/service/list_projection_store.go:55-87 | ends; succeeds iff no newer model; then every entry row is clean, of the current model and shows its own and its parent's source |
| `Projections.ProjectionStore.ReconcileListProjections` | backend/internal/service/list_projection_store.go:54-89 | ends; succeeds iff no row of either list has a newer model; then every row of both lists is clean, of the current model and shows the current sources, which are unchanged |
| `Subscriptions.SubscriptionStore.ApplyMapping` | backend/internal/service/rss_preacquisition_mapping.go:131-152 | applies the profile, completes the scope and expires the others, or changes nothing |
| `Subscriptions.SubscriptionStore.ProposeMapping` | backend/internal/service/rss_workflow.go:389-400 | expires stale scopes and records the proposal once per version and fingerprint |
| `Subscriptions.SubscriptionStore.CompleteIfMet` | backend/db/sqlc/rss.sql.go:3348-3408 | completes an open subscription iff every episode up to every mapped one of an ended anchored series, or up to the positive season length, is mapped and has a managed or valid row |
| `Subscriptions.NextKeepsLifecycle` | backend/db/sqlc/rss.sql.go:4035-4086 | every step keeps: enabled iff a poll is due, finished implies disabled, completion time and finish kept |
| `Subscriptions.LifecycleOverRuns` | backend/db/sqlc/rss.sql.go:4631-4653 | the same over all runs; a subscription once archived or completed is never polled again |
| `Subscriptions.VersionTracksControl` | backend/db/sqlc/rss.sql.go:4631-4653 | a step leaves version and controlled columns alone or raises the version by one |
| `Subscriptions.UnchangedVersionIsUnchanged` | backend/db/sqlc/rss.sql.go:1444-1454 | over every run an unchanged version means unchanged profile, activation, archiving and completion |
| `Subscriptions.PollIsClaimedOnce` | backend/db/sqlc/rss.sql.go:14-33 | a due poll is claimed iff the subscription is open and due, moves the next one an interval on, and cannot be claimed twice before |
| `Subscriptions.PollSchedulesNext` | backend/db/sqlc/rss.sql.go:4035-4086 | a recorded poll schedules the next one an interval later unless the subscription is over or disabled |
| `Subscriptions.AssignmentIff` | backend/db/sqlc/rss.sql.go:34-60 | when a profile reaches the subscription from an acquisition or a poll, and what stays pending then |
| `Subscriptions.EndingCommands` | backend/db/sqlc/rss.sql.go:92-105 | archiving, completing and retaining take effect exactly when they should |
| `Subscriptions.UpdateIff` | backend/db/sqlc/rss.sql.go:4631-4653 | an edit takes effect at the expected version unless archived, or completed and to be enabled; it stores what it was given |
| `Subscriptions.AppliesIffCurrent` | backend/db/sqlc/rss.sql.go:1444-1454 | a scope can be applied iff the currency query says so |
| `Subscriptions.SweepIff` | backend/db/sqlc/rss.sql.go:581-604 | after a sweep the pending scopes are exactly those that can still be applied |
| `Subscriptions.ProposeIff` | backend/db/sqlc/rss.sql.go:393-420 | a proposal is recorded iff its version has none of the same content; afterwards only that content at that version is pending |
| `Subscriptions.ApplyLeavesNonePending` | backend/db/sqlc/rss.sql.go:605-620 | applying assigns the profile and leaves no other scope pending |
| `Subscriptions.NextKeepsFenced` | backend/db/sqlc/rss.sql.go:61-75 | every step keeps at most one applied scope per version, each older than the subscription |
| `Subscriptions.OneScopePerVersion` | backend/db/sqlc/rss.sql.go:61-75 | the same over all runs |
| `Subscriptions.OldScopesNeverApply` | backend/db/sqlc/rss.sql.go:258-264 | over all runs a scope of an older version is never applied |
| `Subscriptions.ChangesFenceOff` | backend/db/sqlc/rss.sql.go:34-75 | every assignment or edit that takes effect fences off all scopes pending before it, for every later run |
| `Subscriptions.MetIff` | backend/db/sqlc/rss.sql.go:3358-3408 | the completion condition without its last episode: everything up to every mapped episode, or up to the season length |
| `Subscriptions.ManagedRowsStay` | backend/db/sqlc/rss.sql.go:138-181 | no run of fulfilment statements removes or invalidates a managed import |
| `Subscriptions.ImportsStayMet` | backend/db/sqlc/rss.sql.go:3259-3324 | a completion condition met by managed imports stays met over every run |
| `Subscriptions.AbsenceUnfulfils` | backend/db/sqlc/rss.sql.go:4118-4145 | one late report of absence takes away every catalogue fulfilment of a target |
| `Subscriptions.LoseCompletion` | backend/db/sqlc/rss.sql.go:3380-3407 | a condition not met by managed imports alone can be lost |
| `Subscriptions.CompletionIsStableIff` | backend/db/sqlc/rss.sql.go:3348-3408 | the condition survives every run iff managed imports alone meet it |
| `Occupancy.ManagedAgree` | backend/db/sqlc/rss.sql.go:1000-1011 | both queries report the same managed-import flag for every database |
| `Occupancy.TasksAgree` | backend/db/sqlc/catalog.sql.go:767-781 | the task branches differ exactly by busy tasks under deletion |
| `Occupancy.OwnersAgree` | backend/db/sqlc/catalog.sql.go:782-835 | the one coalescing branch equals the entry branch and the single-episode branch together |
| `Occupancy.FileOwnersAgree` | backend/db/sqlc/catalog.sql.go:836-867 | the file branches agree |
| `Occupancy.ProcessingDiffersByDeletion` | backend/db/sqlc/rss.sql.go:1012-1129 | mapping-processing is RSS-processing or a busy task under deletion |
| `Occupancy.CatalogIff` | backend/db/sqlc/catalog.sql.go:711-758 | a target is in the catalogue iff a present episode item with a file carries its TMDB id, or its numbers and a path up to the item of its series |
| `Occupancy.IdleTargetIsFree` | backend/db/sqlc/rss.sql.go:1012-1129 | neither query reports processing once no mapped task is open or stopping and no download speaks for the target |
| `Occupancy.OpenTaskOccupies` | backend/db/sqlc/catalog.sql.go:767-781 | an open or stopping task of another acquisition occupies the target |
| `Occupancy.OpenDownloadOccupies` | backend/db/sqlc/catalog.sql.go:836-867 | the current download of another acquisition without tasks occupies the target of each selected video while it runs or stops |
| `Occupancy.ManagedIff` | backend/db/sqlc/rss.sql.go:1000-1011 | both queries call a target imported iff a mapped task of another acquisition is |
| `Occupancy.RssTargetIsUnique` | backend/db/migrations/000042_source_episode_fraction.up.sql:16-21 | one release has at most one target, and never one among the specials |
| `Occupancy.OccupanciesAgree` | backend/db/sqlc/rss.sql.go:907-1131 | for a target in the subscription's series the queries differ in nothing but a busy task under deletion, which only the mapping query reports as processing; outside it the mapping query reports nothing |
| `Occupancy.DeletionDisagrees` | backend/db/sqlc/catalog.sql.go:767-781 | a concrete database with one target on which the queries give different flags |
| `SharedTorrents.TorrentWorkers.CollectHashes` | backend/internal/worker/acquisition_delete.go:97-112 | collects exactly the hashes that no counted download elsewhere records, once each |
| `SharedTorrents.TorrentWorkers.RemoveTorrents` | backend/internal/worker/acquisition_delete.go:97-137 | listing and then removing them one by one; undisturbed, exactly the listed torrents are gone and nothing is left to remove |
| `SharedTorrents.TorrentWorkers.ReconcileCancellation` | backend/internal/worker/download_cancel.go:48-125 | removes the torrent unless it is a removal that found another owner when it was requested |
| `SharedTorrents.TorrentWorkers.RunCleanUp` | backend/internal/worker/cleanup_run.go:51-143 | removes the torrent iff a clean-up is due and no task of the download is unfinished, whatever became of its row |
| `SharedTorrents.TorrentWorkers.EnqueueTorrent` | backend/internal/worker/download_enqueue.go:178-320 | adds the torrent if missing and commits iff nothing fails and no other download that is neither stopped nor removed records the hash; otherwise client and rows are as before |
| `SharedTorrents.FailureUndoesEnqueue` | backend/internal/worker/download_enqueue.go:236-250 | undisturbed, an enqueue that fails leaves client and rows as they were |
| `SharedTorrents.DoomedIff` | backend/db/sqlc/deletions.sql.go:245-293 | a torrent is listed with an acquisition iff the acquisition records it and no counted download elsewhere does |
| `SharedTorrents.DeletionLaw` | backend/db/sqlc/deletions.sql.go:245-293 | a torrent goes with an acquisition iff the acquisition records it and no undeleted download of another one does that is neither being deleted nor from an archived subscription |
| `SharedTorrents.RunsStayValid` | backend/db/migrations/000017_download_removal.up.sql:7-11 | over all runs at most one download that is neither stopped nor removed records a hash |
| `SharedTorrents.LostIffMissing` | backend/internal/worker/download_enqueue.go:178-320 | over all runs the downloads and enqueues without their torrent are exactly those robbed and not made good |
| `SharedTorrents.OnlyAfterTakeover` | backend/db/query/tasks.sql:423-450 | a cancel, removal or clean-up reaches another owner's torrent only after its own row was stopped or removed, a clean-up only after a removal |
| `SharedTorrents.RemoveIff` | backend/db/sqlc/downloads.sql.go:603-614 | a removal is requested once, never while a task uses the files |
| `SharedTorrents.RemovalLaw` | backend/db/sqlc/downloads.sql.go:1192-1204 | a removal finished at once deletes the row, changes no other, and leaves the torrent iff another download records it that is neither stopped nor removed |
| `SharedTorrents.PromptRemovalIsSafe` | backend/internal/service/download_commands.go:303-387 | such a removal harms no owner |
| `SharedTorrents.CancelLaw` | backend/internal/worker/download_cancel.go:48-125 | a cancel that reaches the client removes the torrent whoever needs it |
| `SharedTorrents.DeletionStopsIff` | backend/db/sqlc/deletions.sql.go:14-24 | a deletion stops the queued and running downloads of its acquisition, and only those |
| `SharedTorrents.ResetIff` | backend/db/sqlc/retries.sql.go:140-163 | a retry starts a stopped or rejected download over without its torrent iff nothing forbids it |
| `SharedTorrents.StripSparesOwners` | backend/db/sqlc/deletions.sql.go:245-293 | no deletion lists the torrent of an owner |
| `SharedTorrents.StaleListingIff` | backend/internal/worker/acquisition_delete.go:57-95 | removing an earlier listing is safe iff none of its hashes has an owner by then |
| `SharedTorrents.HarmlessKeepsSafe` | backend/internal/worker/download_cancel.go:48-125 | every step but a worker deleting an owner's torrent and a robbed download becoming an owner keeps every owner's torrent |
| `SharedTorrents.HarmfulBreaksSafe` | backend/internal/worker/download_cancel.go:112-114 | each of those steps leaves an owner without its torrent |
| `SharedTorrents.OwnersKeepTorrentsIff` | backend/internal/worker/download_cancel.go:48-125 | over all runs owners keep their torrents throughout iff no such step is taken |
| `SharedTorrents.EmptySubscriptionIsHarmless` | backend/db/sqlc/rss.sql.go:4482-4491 | a subscription without acquisitions can always be re-activated |
| `SharedTorrents.AccountedStepIff` | backend/db/sqlc/retries.sql.go:140-163 | a step keeps every torrent recorded, or known to an enqueue under way, iff it does not drop the only such record |
| `SharedTorrents.TorrentsAccountedIff` | backend/db/sqlc/deletions.sql.go:122-126 | the same over all runs |
| `SharedTorrents.LastSharerRemovesTorrent` | backend/db/sqlc/deletions.sql.go:491-497 | unless a step forgot it, a torrent is gone once every acquisition that records it has been processed, in any order, and no enqueue of it is under way |
| `TorrentWitnesses.CancelLosesTorrent` | backend/internal/worker/download_cancel.go:112-114 | a concrete run in which a plain cancel takes the torrent of the download that took over its hash |
| `TorrentWitnesses.EnqueueRecordsMissingTorrent` | backend/internal/worker/download_enqueue.go:297-310 | a concrete run in which an enqueue commits after a cancel has removed the torrent it found |
| `TorrentWitnesses.StaleListingLosesTorrent` | backend/internal/worker/acquisition_delete.go:57-137 | a concrete run in which a deletion removes a torrent that was recorded again after it was listed |
| `TorrentWitnesses.ReactivationLosesTorrent` | backend/db/sqlc/rss.sql.go:4482-4491 | a concrete run, admitted by the unique index, after which the download of a re-activated subscription has lost its torrent |
| `TorrentWitnesses.CompensationLosesTorrent` | backend/internal/worker/download_enqueue.go:236-250 | a concrete run of two enqueues of one torrent in which the failing one deletes the torrent of the other |
| `TorrentWitnesses.RevivalLosesTorrent` | backend/internal/service/download_commands.go:404-488 | a concrete run in which a rejected manifest is accepted after its torrent was removed |
| `TorrentWitnesses.CleanUpLosesTorrent` | backend/internal/worker/cleanup_run.go:85-110 | a concrete run in which a clean-up that waited for a failed sibling takes the torrent of another acquisition after its own download was removed |
| `TorrentWitnesses.CrashForgetsTorrent` | backend/internal/worker/download_enqueue.go:187-250 | a concrete run after which a torrent is in the client and nothing records it |
| `TorrentWitnesses.RetryForgetsTorrent` | backend/db/sqlc/retries.sql.go:140-163 | the same after retrying a stopped download |
| `SortedListing.OrderIsStrict` | backend/db/sqlc/rss.sql.go:2677-2700 | the ORDER BY with its NULL placement and id tie-break is a strict total order |
| `SortedListing.CursorIsSuccessor` | backend/db/sqlc/rss.sql.go:2523-2676 | the keyset condition admits exactly the rows ordered after the cursor, for every field and direction |
| `SortedListing.AdmittedIsAfter` | backend/db/sqlc/rss.sql.go:2523-2676 | the WHERE clause selects exactly the rest of the order |
| `SortedListing.PageThenRest` | backend/internal/service/rss_subscriptions.go:163-212 | a page followed by the rows after its last item is the listing |
| `SortedListing.NextCursorIsLast` | backend/internal/service/rss_subscriptions.go:170-212 | the returned cursor, loaded again from the table, stands for the last item |
| `SortedListing.FollowListsAll` | backend/internal/service/rss_subscriptions.go:153-212 | following the cursors from any point yields the rest of the listing |
| `SortedListing.ClientSeesWholeList` | backend/internal/service/rss_subscriptions.go:153-212 | from the first page every matching subscription appears once, in order |
| `SortedListing.FollowIsPaging` | backend/internal/service/rss_subscriptions.go:153-212 | look-ahead and re-loaded cursors visit the same rows as plain keyset paging |
| `SortedListing.ClientSeesSortedColumn` | backend/db/sqlc/rss.sql.go:2483-2700 | following the cursors shows each matching undeleted subscription once, ordered by the chosen column with its NULL placement and id tie-break |
| `SortedListing.LpadIsPadded` | backend/db/sqlc/rss.sql.go:2532-2532 | padding the decimal text writes leading zeros |
| `SortedListing.PaddedIsOrdered` | backend/db/sqlc/rss.sql.go:2532-2532 | equally long digit texts order as their numbers |
| `SortedListing.SeasonsSortAsNumbers` | backend/db/sqlc/rss.sql.go:2532-2532 | padded seasons of a 32-bit column order as numbers |
| `SortedListing.SeasonListIsNumeric` | backend/db/sqlc/rss.sql.go:2677-2700 | a client following the season-sorted list sees the season numbers ascend or descend |
| `Paging.Sorted` | backend/db/sqlc/rss.sql.go:2677-2700 | an ordered listing of exactly the rows exists and is computed |
| `Paging.ListingIsUnique` | backend/db/sqlc/rss.sql.go:2677-2700 | the ordered listing of a set of rows is unique |
| `Paging.Page` | backend/db/sqlc/agent.sql.go:1803-1828 | a page is ascending, after the cursor, and leaves out only later rows |
| `Paging.PagesListAll` | backend/db/sqlc/agent.sql.go:1803-1828 | paging until a short page lists all rows after the cursor in order |
| `Reconciliation.LoadPage` | backend/db/sqlc/agent.sql.go:1803-1828 | a page holds the first representatives after the cursor up to the high-water mark |
| `Reconciliation.High` | backend/db/sqlc/agent.sql.go:1789-1802 | the high-water mark of the first page admits every representative, and is missing iff there is none |
| `Reconciliation.CanonicalIsUnique` | backend/db/sqlc/agent.sql.go:1757-1788 | a group has one representative in every snapshot |
| `Reconciliation.CanonicalIff` | backend/db/sqlc/agent.sql.go:1757-1788 | the representative of a group is the acquisition that has waited longest, the smaller id deciding a tie |
| `Reconciliation.VisitPage` | backend/internal/service/agent_resolution.go:211-221 | visits rows in order, each group once, stopping at a failure |
| `Reconciliation.ReadNext` | backend/db/sqlc/agent.sql.go:1813-1828 | reading one more page keeps the order and loses no lasting representative |
| `Reconciliation.StableGroupsVisited` | backend/internal/service/agent_resolution.go:211-221 | a group with a lasting representative is visited through it |
| `Reconciliation.NextPage` | backend/internal/service/agent_resolution.go:193-229 | one loop turn |
| `Reconciliation.ReconcilePages` | backend/internal/service/agent_resolution.go:182-231 | whatever changes between pages the loop ends, no row is returned twice, no group is visited twice, only representatives are visited, and no lasting one is missed |
| `Reconciliation.ReconcileUnchanged` | backend/db/sqlc/agent.sql.go:1750-1828 | without changes the visits are, in the order of the groups, exactly each group's longest waiting acquisition |
| `Reconciliation.EachAcquisitionOnce` | backend/db/sqlc/agent.sql.go:1813-1828 | no acquisition is visited twice |

## Left out

- Events, error messages, idempotency replays and the River queue itself: they do not influence the guards modelled here.
- The statements that judge a release for other reasons than an occupied target: one step with arbitrary values.
- Error codes other than the few that select a download's retry path.
- Retrying the cleanup of an imported task, and what a clean-up does to files; its effect on torrents is in `SharedTorrents.dfy`.
- The separate import command for tasks left in the approved state by earlier versions: the review transaction queues the import itself.
- In `Downloads.dfy`, whether the client still has the torrent of a rejected download whose file resolution is resumed; `SharedTorrents.dfy` has that.
- Preserving shared save paths and deleting files: the same query shape as for torrents, and file-system work.
- Deletion of RSS entries and re-linking of entries between subscriptions in the projection model.
- The progress read model of subscriptions and the progress sort field.
- Reconciliation of list projections while other transactions run: soundness is proved for every interleaving, termination for a quiet database.
- The sibling queries that pick one representative per subscription or per series.
- The subscription history restore and other maintenance commands except `recover-stale-operations`.
- Text collation, JSON payload parsing, regular expressions, timestamps as text, floating-point rounding of progress fractions.
- HTTP handlers, authentication, settings, agent prompts, media tools and the web application.
