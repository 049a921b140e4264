# GPU job network: control plane and worker daemon

A Dafny model of the job network's core, with proofs over all inputs and all runs:

- the **control plane** as one database and the service calls that change it, each an atomic transaction: users and
  credits, claim tokens, nodes, jobs, job logs, and the append-only audit table;
- **claiming at row-lock grain**: `SELECT ... FOR UPDATE SKIP LOCKED` as check, pick-and-lock, commit or roll back,
  interleaved over any number of nodes;
- the **worker daemons composed with the server**: tick loops, `runJob` goroutines, cancel functions, log pumps, requests
  that are lost before or after the server processed them, and pollers;
- **billing**, the audit table read as a **ledger**, and **keyset pagination** with its opaque cursor.

Files, bottom up:

| file | content |
|---|---|
| `Types.dfy`, `Ordering.dfy`, `JobStatuses.dfy`, `Billing.dfy` | rows and events, the (created_at, id) order, the status relation, GPU-hours |
| `JobLogs.dfy`, `Delivery.dfy` | the log table of one job, and what readers of it get |
| `Handlers.dfy` | every service call as a function on the database; runs of requests |
| `ControlPlane.dfy` | the same calls as methods of a class, row update by row update, proved equal to those functions |
| `Invariants.dfy`, `Outcomes.dfy` | what every reachable database satisfies; exact conditions of each request |
| `Ledger.dfy`, `Accounting.dfy`, `Tokens.dfy`, `Dashboard.dfy` | replay of the audit table and what follows from it |
| `Scheduling.dfy` | bounded waiting, draining |
| `RowLocks.dfy` | interleaved claims: safety, and equivalence with a serial run |
| `Pump.dfy`, `DaemonProcess.dfy`, `Agents.dfy`, `AgentRuns.dfy` | pump, daemon, the composed system and its safety theorems |
| `Cancellations.dfy` | over those runs: when the busy flag names the run in progress, and when a cancellation reaches it |
| `LogRuns.dfy`, `LogReads.dfy` | the log end to end over those runs: posted, accepted, stored, and read |
| `RunOutcomes.dfy` | from the runner's result to the recorded row; what lost answers leave behind |
| `BusyFlag.dfy`, `Overtaking.dfy`, `Refusals.dfy` | reachable runs in which the exceptions to those theorems happen |
| `Keyset.dfy`, `Cursor.dfy` | pagination walks and the base64url cursor |

How to read it. `Handlers.Handle` gives the state after one request (an error leaves the state alone) and `Handlers.Run`
after a list of requests; "reachable" means `Run(EMPTY_SERVER, rs)` for any `rs`. `Agents.Next` and `RowLocks.Next` are the
steps of the two finer machines, enabled by `Enabled`. Identifiers are naturals: a fresh UUID is an unused number, a
collision is the primary-key error. Schema bounds (1 to 64 GPUs, 1 to 604800 seconds, sequence numbers from 0) are
subset types; the bound on a log line (1 to 65536 characters), which the daemon does not keep, is a check that refuses the
batch. Times are microseconds and every clock read is its own argument; no clock is assumed to be monotonic,
except that within one completion the second read is not before the first, where the dashboard needs it.

Assumptions. Requests of one service call are atomic (races between unlocked reads, such as cancel against claim, are
excluded); claims are refined below that in `RowLocks.dfy`, where the other requests keep away from locked rows and from
nodes with a claim in flight. One daemon runs per node. A claim or completion is processed during the call or never; any
response may be lost. The container runner may end at any time with any result.

Where the code and its comments differ, the model follows the code.

- The comment at `node-agent/internal/agent/daemon.go:167-169` says that the tail of a job's output is never lost. `flush`
  drops a batch on any error. The last flush runs after the completion report, so the server refuses it if the node was
  deleted in between (`Refusals.TailIsRefused`); and a line of more than 65536 characters, which the daemon accepts up to
  1 MiB (lines 353-360), has its whole batch refused (`Refusals.LongLineIsRefused`). `LogRuns.LogIsCompleteIff` says exactly
  when the log is complete.
- A tick that is told to cancel (lines 131-139) does so only if the busy flag is set. An earlier goroutine's deferred reset
  may have cleared the flag of the run in progress (`BusyFlag.BusyFlagCanLie`); the cancellation is then dropped, and no later
  one reaches that run (`Cancellations.CancellationReachesRunIff`, `Cancellations.HiddenRunIsNeverCut`).
- The comment at lines 194-196 says that exit code -1 lets the server record a cancellation; the server decides by the cancel
  mark alone (`Outcomes.CompleteIff`).

## Model

| member | source | states |
|---|---|---|
| Invariants.ReachableInv | control-plane/app/repositories/job_repo.py:40-127 | in every reachable database: queued rows have no node, start, end, exit code or cancel mark; a running row has a start, no end, and an existing node with enough GPUs that matches any pin; no node runs two jobs; completed means exit 0, failed means non-zero exit; an ended row with a cancel mark is cancelled; foreign keys resolve; credits are not negative |
| Invariants.InvStep | control-plane/app/services/job_service.py:51-168 | every request, granted or refused, keeps that invariant |
| Invariants.InvDeleteNode | control-plane/app/services/node_service.py:244-273 | node deletion, with both job columns set to null, keeps every row well formed |
| Invariants.RowStep | control-plane/app/services/job_status.py:9-24 | one request changes a job's status only from queued to running or cancelled, or from running to completed, failed or cancelled, never removes a row, and only the completion report of the node that runs a job takes it out of running |
| Invariants.RowRun | control-plane/app/services/job_status.py:9-24 | over any run a job's status only moves forward; status, exit code, end time, start time and cancel mark of an ended job never change again |
| Outcomes.SubmitIff | control-plane/app/services/job_service.py:62-94 | a submission is accepted if and only if the user is active, owns max(1, ceil(gpus * max_duration / 3600)) credits, the job is new and its preferred node, if any, exists; it is refused for credits exactly if 3600 * credits < gpus * max_duration; it queues exactly the job asked for, writes its one audit row, and changes nothing else |
| Outcomes.RightsFollowLastWord | control-plane/app/services/admin_service.py:51-111 | after any run, submissions are barred if and only if the last word on the account was neither an approval nor a grant-admin, and claim tokens if and only if the last approval did not make the user a host |
| Outcomes.OnlyActivatedSubmit | control-plane/app/cli.py:10-24 | after a sign-up or a suspension the user is barred from submitting if and only if the last word since was neither an approval nor a grant-admin |
| Outcomes.CompleteIff | control-plane/app/services/job_service.py:121-168 | a completion report is accepted if and only if the job is running on the reporting node; the cancel mark decides before the exit code; the owner is charged, down to zero, the least number of hours, at least one, that covers the elapsed microseconds times the GPUs, and the audit row says that number; nothing else changes |
| Outcomes.CancelIff | control-plane/app/services/job_service.py:170-258 | cancelling works if and only if the job is the caller's and live, a force-kill if and only if it is live, and both leave the same tables: a queued job ends unbilled, a running one is only marked, keeping the first mark, and nothing else changes |
| Outcomes.CancelRequestIsFinal | control-plane/app/services/job_service.py:132-141 | once marked, a job is in every later state still running or cancelled, under the same mark |
| Outcomes.HeartbeatNamesIff | control-plane/app/controllers/nodes.py:117-141 | a heartbeat of an existing node stamps its row and changes nothing else; the answer names a job if and only if that job is running on the node and marked |
| Outcomes.AccountRows | control-plane/app/services/admin_service.py:51-111 | what sign-up, approval (a second one included), suspension and grant-admin make of the user's row and of the audit, and that they change nothing else; a view of the audit only writes its own row |
| Outcomes.DrainIff | control-plane/app/services/node_service.py:163-242 | who can drain, force-drain and undrain a node; each sets the status only, and writes an audit row if and only if it changes |
| Outcomes.DeleteNodeIff | control-plane/app/services/node_service.py:244-292 | for every caller: deletion succeeds if and only if the caller is the owner or an administrator and no job row is running on the node; both columns of every job forget exactly that node; a refusal changes nothing |
| Outcomes.StrangersLeaveNode | control-plane/app/services/node_service.py:275-292 | along any run in which neither its owner nor an administrator deletes it, a node stays under the same owner, and it keeps its status unless one of them switches it |
| Outcomes.PushLogsIff | control-plane/app/schemas/job_logs.py:7-10 | a batch of log entries is accepted if and only if each has 1 to 65536 characters and the job is assigned to the node (an empty batch asks for the node only); only that job's log changes, it then has every number of the batch, and the answer is its growth |
| Ledger.AuditIsFaithful | control-plane/app/services/job_service.py:77-116 | in every reachable state, replaying the audit from nothing gives every job's owner, status, assigned and preferred node, exit code and cancel mark, every user's credits, every node's existence, owner, capacity and draining flag, and every token's use; and each audit row is legal where it stands |
| Ledger.BalancedStep | control-plane/app/services/node_service.py:163-273 | each request appends at most one audit row, which tells exactly what the request did, and the replayed books stay equal to the database |
| Accounting.AssignedOnceBilledOnce | control-plane/app/services/job_service.py:96-168 | over any run a job is assigned at most once and billed at most once, and is billed exactly if it was started and has ended |
| Accounting.StepsBoundedBySubmissions | control-plane/app/services/job_service.py:221-239 | claims plus completions plus queued cancellations never exceed twice the submissions; the exact difference is the steps the live jobs have left |
| Accounting.CreditsConserved | control-plane/app/services/job_service.py:143-147 | credits equal max(0, granted at the last approval - bills since), and the bills are what was spent plus an exact shortfall, positive only at zero credits |
| Accounting.BooksConserve | control-plane/app/services/admin_service.py:64-67 | the same conservation for every legal audit, by itself |
| Accounting.FrugalRunPaysInFull | control-plane/app/services/job_service.py:65-67 | a user with one live job at a time, not approved anew, whose runs end within max_duration, pays every bill in full over the whole run: the clamp is never met |
| Billing.OrderIrrelevant | control-plane/app/services/job_service.py:145-147 | clamped payment of the same bills in any order leaves the same credits |
| Billing.BillIff | control-plane/app/services/job_service.py:32-40 | the bill is at least one, and for every h from one: it is at most h if and only if the elapsed microseconds times the GPUs are at most h * 3,600,000,000 |
| Billing.FundedCoversBill | control-plane/app/services/job_service.py:65-67 | credits that passed the submission check cover the bill of any run within max_duration |
| Billing.FundedIffCeiling | control-plane/app/services/job_service.py:65-67 | the fractional comparison accepts exactly the credits at or above the ceiling, which is at least one |
| Billing.DashboardGap | control-plane/app/services/admin_service.py:237-241 | recomputing a bill from the stored end time reports at least the bill and at most ceil((t2 - t1) * gpus) hours more |
| Accounting.DashboardOfCompletion | control-plane/app/services/admin_service.py:230-241 | the same for the row and the audit entry that a completion really writes |
| Accounting.DashboardNeverUnderReports | control-plane/app/services/admin_service.py:230-241 | in every reachable state, over any list of ended jobs, the dashboard's total is at least what the audit billed for them |
| Dashboard.GpuHoursServed | control-plane/app/services/admin_service.py:230-241 | the loop over the selected rows, skipping those without start or end, computes the window's total |
| Dashboard.FigureOfRow | control-plane/app/services/admin_service.py:230-241 | each row adds the least number of hours, at least one, that covers its time times its GPUs if it ended at or after the cutoff and was started, and nothing otherwise |
| Dashboard.ServedAtLeastBilled | control-plane/app/services/admin_service.py:230-241 | in every reachable state the figure over the job table is at least what the audit billed for exactly the jobs that ended at or after the cutoff |
| Scheduling.ClaimTakesOldest | control-plane/app/repositories/job_repo.py:86-108 | a granted claim goes to an online, idle node and takes a queued job that fits it, created before every other such job, or at the same time with the smaller identifier; no other row changes |
| Scheduling.ClaimRefusedIff | control-plane/app/services/job_service.py:96-107 | a claim gets nothing if and only if the node is draining, busy, or no queued job fits it |
| Scheduling.BoundedWaiting | control-plane/app/repositories/job_repo.py:86-107 | if newer submissions sort after a queued job, every successful claim by a node eligible for it shortens the line in front, so by the (line + 1)-th such claim the job has been started; deletions that unpin older jobs included |
| Scheduling.DrainQuiesces | control-plane/app/services/node_service.py:163-214 | from a drain until an undrain no job becomes assigned to the node, its running set only shrinks, and so stays empty once empty |
| Scheduling.DrainedNodeCanBeDeleted | control-plane/app/services/node_service.py:163-273 | after a granted drain or force-drain, along any run without an undrain: the node runs only jobs it ran at the drain, and once they have ended it stays idle and its owner's deletion succeeds at any later time |
| Scheduling.DeleteWhenIdle | control-plane/app/services/node_service.py:244-273 | the owner's deletion succeeds if and only if the node runs nothing; every running job keeps running on its existing node, and no row refers to the deleted node |
| Tokens.TokenYieldsOneNode | control-plane/app/services/node_service.py:80-127 | over any run no two registrations used one token, and each registered owner is the token's creator |
| Tokens.RegistrationsFollowBooks | control-plane/app/repositories/claim_token_repo.py:36-39 | in every legal audit a token is marked used exactly if one registration names it, and never two do |
| Tokens.FreshTokenRegistersIff | control-plane/app/services/node_service.py:48-98 | after any run in which nobody registers with it, a host's token registers a node for its creator if and only if the clock read is less than 24 hours after its creation |
| Tokens.UsedTokenIsDead | control-plane/app/services/node_service.py:94-95 | a used token never changes anything again, after any run |
| RowLocks.InterleavedClaimsAreSafe | control-plane/app/repositories/job_repo.py:73-108 | in every interleaving, rollbacks included: the database invariant holds, no job is won twice, and a locked row is queued, fits its claimant, and the claimant is idle |
| RowLocks.InterleavingIsSerial | control-plane/app/repositories/job_repo.py:73-108 | without rollbacks, once no row is locked, every table equals that of the same requests run one at a time with each claim placed where it locked its row, and the audits hold the same rows |
| RowLocks.CheckAdmitsIff | control-plane/app/services/job_service.py:96-103 | a claim can start on any existing node with none of its own in flight, and is admitted if and only if the node's row says online and no job row is running on it, whatever other claims hold |
| RowLocks.PickLocksOldestFree | control-plane/app/repositories/job_repo.py:86-103 | an admitted claim locks the oldest row that fits its node and that nobody holds, and gives up exactly if there is none |
| RowLocks.HeldClaimEnds | control-plane/app/repositories/job_repo.py:103-108 | a held row can be committed or rolled back at any time; rolled back, no table has changed and the row can be picked again |
| RowLocks.OtherRunsIff | control-plane/app/repositories/job_repo.py:36-38 | another request can be made while claims are in flight unless it names a locked row, or switches or deletes a node whose own claim is in flight, and does what it does alone |
| RowLocks.ClaimRunsThrough | control-plane/app/services/job_service.py:96-119 | from a state with no claim in flight the steps of a claim can run through, and leave what the atomic claim leaves |
| RowLocks.PickIsClaim | control-plane/app/repositories/job_repo.py:86-103 | skipping locked rows picks the row that the atomic claim would take if all held claims had committed |
| RowLocks.CommitIsSilent | control-plane/app/services/job_service.py:104-119 | committing a held claim changes nothing that the serial run has not already done |
| Agents.ControlStep | node-agent/internal/agent/daemon.go:115-208 | every step of server, tick loops, goroutines and network keeps: an active goroutine's job is running on its node at the server, no job has two goroutines, and a tick told to cancel faces only marked runs |
| AgentRuns.NoTwoRunsOnANode | node-agent/internal/agent/daemon.go:115-208 | in every interleaving two container runs in progress are on different nodes, and each is for a job the server holds as running there |
| AgentRuns.OnlyCancelledJobsAreCut | node-agent/internal/agent/daemon.go:122-137 | a run cut short by the daemon's cancel belongs to a marked job, which is still running or cancelled, never completed or failed |
| AgentRuns.OneGoroutinePerJob | node-agent/internal/agent/daemon.go:139-147 | a job is run by at most one goroutine ever |
| RunOutcomes.RunnerResultIsRecorded | node-agent/internal/agent/daemon.go:181-207 | over any run, a runner's result (code, failed) whose report is processed ends the job's row for good with exit code -1 if the context was cancelled at the report, else 1 if it failed with code 0, else code; cancelled exactly if marked, otherwise completed exactly if that number is 0 |
| RunOutcomes.AnyResultCanBeRecorded | node-agent/internal/agent/daemon.go:181-207 | in every reachable state a run in progress can end with any result, be reported, and be recorded so |
| RunOutcomes.TimeoutSticks | node-agent/internal/agent/daemon.go:150-153 | a run that hit its time limit is never taken for a cancelled one |
| RunOutcomes.GoroutineProceeds | node-agent/internal/agent/daemon.go:150-165 | a spawned goroutine can enter, whereupon the daemon names it, and start its container; one whose completion call is over can leave, whereupon the daemon names nothing |
| RunOutcomes.IdleTickClaims | node-agent/internal/agent/daemon.go:139-147 | an idle tick's claim may be answered, processed with its answer lost, or never processed; only an answer with a job starts a goroutine, and one |
| RunOutcomes.LinesFlow | node-agent/internal/agent/daemon.go:404-465 | a goroutine under way can emit at any time, its pump be flushed, and every posted batch arrive; a non-empty line is numbered by the lines before it and buffered, and a flush posts the whole buffer |
| RunOutcomes.LostClaimStallsNode | node-agent/internal/agent/daemon.go:139-147 | if the answer to a granted claim is lost, then whatever follows the job stays running at the server, no goroutine runs it, and its node gets nothing from any claim |
| RunOutcomes.LostReportStallsNode | node-agent/internal/agent/daemon.go:205-207 | the same if a completion report is never processed |
| BusyFlag.BusyFlagCanLie | node-agent/internal/agent/daemon.go:156-165 | a reachable state has a container run in progress while the busy flag is clear, so the flag alone does not keep runs apart |
| AgentRuns.PollerReadsInEmissionOrder | node-agent/internal/agent/daemon.go:404-465 | whatever is lost, repeated or reordered, all that a poller reads for a job is a strictly increasing selection of the lines emitted by the job's one goroutine |
| Cancellations.FlagNamesRunIff | node-agent/internal/agent/daemon.go:156-165 | while a run is under way, the busy flag is set if and only if no goroutine of its node has left since it entered, and then both fields name that run |
| Cancellations.CancellationReachesRunIff | node-agent/internal/agent/daemon.go:122-147 | a tick told to cancel that looks while a run is under way, and acts after any steps of the others, calls cancel on that run, and cuts it short if still in progress, if and only if no goroutine of the node had left since the run entered; otherwise it claims, gets nothing, and touches no goroutine |
| Cancellations.TickCancelsIffMarked | node-agent/internal/agent/daemon.go:115-137 | while a live run that is not hidden is in progress, one whole tick is possible, and cancels that run if and only if its job is marked, and no other |
| Cancellations.HiddenRunIsNeverCut | node-agent/internal/agent/daemon.go:156-165 | once a goroutine of the node has left and no tick holds the run's cancel function, nothing that happens later cuts the run short |
| Cancellations.ToldTickActs | node-agent/internal/agent/daemon.go:131-139 | in every interleaving a tick told to cancel either holds a cancel function of its own node's goroutine, whose job is marked if it has yet to report, and stops that context and no other, or holds none and claims, in vain if a job of the node is under way |
| LogRuns.NoLineVanishes | node-agent/internal/agent/daemon.go:404-440 | in every interleaving every emitted line is in the buffer or in a posted batch of its goroutine |
| LogRuns.BatchAcceptedIff | control-plane/app/controllers/jobs.py:124-137 | an arriving batch is accepted if and only if its job is still assigned to the node that ran it, which only the node's deletion ends, and none of its lines exceeds 65536 characters; with no deletion and no longer line emitted by the goroutine every arriving batch is accepted |
| Refusals.LongLineIsRefused | node-agent/internal/agent/daemon.go:353-368 | a reachable state in which an overlong line has a batch refused, short lines included, although the job is assigned to its node |
| Refusals.TailIsRefused | node-agent/internal/agent/daemon.go:167-179 | a reachable state in which the last flush, after the completion report, is refused because the node was deleted |
| LogRuns.LogIsCompleteIff | control-plane/app/services/job_service.py:284-304 | over any run, a read from the start with room returns exactly the emitted lines if and only if the buffer is flushed and every posted batch was accepted, in any order with any repetitions |
| LogRuns.AllArrivedLosesNothing | node-agent/internal/agent/daemon.go:432-465 | if the buffer is flushed, every posted batch arrived, no line was too long and nobody deleted the node, every posted batch was accepted |
| LogReads.InOrderPollerMissesNothing | control-plane/app/repositories/job_log_repo.py:14-48 | over any run of the composed system in which accepted batches continue the stored log or repeat some of it, a poller has always read a prefix of the emitted lines; if besides nothing was lost (buffer flushed, every posted batch accepted), one last poll with room has read them all |
| LogReads.ReadIsPrefixIff | control-plane/app/repositories/job_log_repo.py:38-48 | over any run, what a poller has read is a prefix of the emitted lines if and only if no poll read past a gap: before each, nothing was stored beyond the first missing number after the cursor, or the page filled before it |
| LogReads.PollerReadsAllIff | control-plane/app/repositories/job_log_repo.py:38-48 | one last poll with room leaves exactly the emitted lines if and only if nothing was lost and no earlier poll read past a gap |
| LogReads.LateBatchIsMissed | control-plane/app/repositories/job_log_repo.py:38-48 | over any run, a number that the poller's cursor has passed without reading it is in none of its later reads |
| Overtaking.BatchesCanOvertake | node-agent/internal/agent/daemon.go:170-179 | a reachable state stores every emitted line while the poller has passed over the first one, so the order of arrival matters |
| Delivery.SafePollIff | control-plane/app/repositories/job_log_repo.py:38-48 | a read returns consecutive numbers from its cursor on if and only if it meets no gap that it reads past |
| Delivery.FreshReadIsComplete | control-plane/app/repositories/job_log_repo.py:14-48 | when every batch has arrived, in any order and with any repetitions, a read from the start returns every line in emission order |
| JobLogs.InsertAllIsUnion | control-plane/app/repositories/job_log_repo.py:14-36 | batches of one pump store exactly their union keyed by sequence number, and the returned counts sum to the growth of the table |
| JobLogs.OrderAndRepetitionIrrelevant | control-plane/app/repositories/job_log_repo.py:14-36 | two deliveries of the same batches of one pump, in any order with any repetitions, store the same table |
| JobLogs.FirstWriteWins | control-plane/app/repositories/job_log_repo.py:32-33 | for two different rows under one number the order decides what is stored |
| JobLogs.InsertGrows | control-plane/app/repositories/job_log_repo.py:34-36 | the returned row count is the growth of the table, and stored rows never change |
| JobLogs.ListAfterRows | control-plane/app/repositories/job_log_repo.py:38-48 | a read returns at most limit stored rows after the cursor, strictly ascending |
| JobLogs.ListAfterSkipsNone | control-plane/app/repositories/job_log_repo.py:38-48 | a read skips no stored row on its way |
| Pumps.LogPump.Emit | node-agent/internal/agent/daemon.go:404-414 | a non-empty line is appended under the next number, an empty one is dropped, and the buffer stays the tail of the numbered history |
| Pumps.LogPump.Flush | node-agent/internal/agent/daemon.go:432-440 | the batch is the whole buffer, cut from the numbered history, and the buffer is empty afterwards |
| DaemonProcess.Process.FinishBusyTick | node-agent/internal/agent/daemon.go:131-137 | a busy tick calls the cancel function it copied if and only if the heartbeat named a job, and does not claim; that the two fields are set, cleared and copied together is kept by every method |
| DaemonProcess.Process.TickToldToCancel | node-agent/internal/agent/daemon.go:115-139 | run in any reachable state with a run under way, a whole tick told to cancel calls that run's cancel function if no goroutine of the node has left since the run entered, and none otherwise |
| ControlPlane.Database.ClaimNextForNode | control-plane/app/repositories/job_repo.py:73-108 | the first created of the rows that fit, by identifier where times are equal, and only it, becomes the node's running job; with no such row nothing changes |
| ControlPlane.Database.GetRunningForNode | control-plane/app/repositories/job_repo.py:40-47 | a job running on the node, or nothing exactly if there is none |
| ControlPlane.Database.AppendRows | control-plane/app/repositories/job_log_repo.py:14-36 | the loop stores the first-write-wins table and returns its growth |
| ControlPlane.Database.PushLogs | control-plane/app/controllers/jobs.py:124-137 | keeps the invariant and leaves the state and answer of the atomic request, the bounds of every entry checked before the job |
| ControlPlane.Database.ClaimForNode | control-plane/app/services/job_service.py:96-119 | keeps the invariant and leaves the state and answer of the atomic claim, to which the claim theorems apply |
| ControlPlane.Database.CompleteJob | control-plane/app/services/job_service.py:121-168 | keeps the invariant and leaves the state and answer of the atomic completion |
| ControlPlane.Database.CancelOrRequestCancel | control-plane/app/services/job_service.py:210-258 | an ended job is refused with nothing changed; otherwise exactly the one row and the one audit entry change |
| ControlPlane.Database.DeleteNode | control-plane/app/services/node_service.py:244-273 | keeps the invariant and leaves the state and answer of the atomic deletion with both columns set to null |
| ControlPlane.Database.RegisterNode | control-plane/app/services/node_service.py:80-127 | keeps the invariant and leaves the state and answer of the atomic registration, refusals in the source's order |
| ControlPlane.Database.Submit | control-plane/app/services/job_service.py:51-94 | keeps the invariant and leaves the state and answer of the atomic submission, refusals in the source's order |
| ControlPlane.Database.Heartbeat | control-plane/app/controllers/nodes.py:117-141 | keeps the invariant, stamps last_seen, and answers with the marked running job or nothing |
| ControlPlane.Database.ApproveUser | control-plane/app/services/admin_service.py:51-83 | keeps the invariant and leaves the state and answer of the atomic approval |
| ControlPlane.Database.DrainNode | control-plane/app/services/node_service.py:163-188 | keeps the invariant; the audit gains a row only if the node was not draining |
| Keyset.WalkListsStart | control-plane/app/repositories/job_repo.py:58-71 | following next_cursor ends with request floor(n / limit) + 1 and not before, having got exactly the matching rows of the start, sorted, each once, whatever newer rows were inserted between pages |
| Keyset.WalkMissesNothing | control-plane/app/repositories/audit_repo.py:67-77 | whatever rows are inserted between the requests, anywhere in the order, a client told of the end has got every matching row of the start, and what it got matches and strictly descends |
| Keyset.AuditWalkListsStart | control-plane/app/services/admin_service.py:113-166 | the audit list, where every page read inserts a row, lists all rows of the start, each once, wherever its own rows sort; if they sort after those, it lists nothing else and ends with request floor(n / limit) + 1 |
| Keyset.MatchingIsRest | control-plane/app/repositories/audit_repo.py:67-75 | the rows after a cursor are exactly the rest of the sorted list, newer insertions notwithstanding |
| Keyset.DescendingIsUnique | control-plane/app/repositories/audit_repo.py:75-77 | a strictly descending list of given rows is unique, so the query's order leaves no choice |
| Keyset.ListForUser | control-plane/app/repositories/job_repo.py:49-71 | the query built clause by clause returns the newest of the user's rows of the wanted status after the cursor, newest first, by identifier where times are equal, and the last row's key as next cursor exactly if the page is full |
| Keyset.AuditTable.ListEvents | control-plane/app/services/admin_service.py:113-166 | the page is the newest of the rows before the call that meet every filter given, newest first, and the next cursor its last key exactly if it is full; the one row that records the read changes no page below any cursor that it does not sort under |
| Cursor.CursorRoundTrip | control-plane/app/core/pagination.py:11-22 | for every byte string, base64url (section 5 of RFC 4648) without '=' and with the padding restored from the length decodes to the same bytes |
| Cursor.StripEncode | control-plane/app/core/pagination.py:14-19 | the stripped padding has exactly the length that -len % 4 restores |
| Cursor.QuantumIs | control-plane/app/core/pagination.py:11-14 | three bytes become four characters, most significant bits first, and the rest of the bytes follow |
| Cursor.AlphabetIs | control-plane/app/core/pagination.py:11-14 | the alphabet is that of section 5 of RFC 4648: letters, digits, minus, underscore |
| Cursor.CursorsAreDistinct | control-plane/app/core/pagination.py:11-14 | different positions have different cursors |
| Cursor.BadLengthIsRefused | control-plane/app/core/pagination.py:17-24 | a text of alphabet characters, one more than whole quanta, is refused |

## Left out

- Cursor.Decode: refuses characters outside the alphabet, which Python's decoder skips; the JSON inside a cursor, and its parsing, are library work.
- Handlers.Heartbeat: one transaction; the source commits last_seen before it reads the running job.
- Handlers.Submit: image, command and error texts are not modelled, since no branch of the services reads them.
- Handlers.CreateToken: tokens are opaque numbers with a separate lookup prefix; hashing, JWT and token generation are library work.
- Handlers.ViewAudit: stands for every audit row that changes no other table (log-ins, API keys); the list itself is modelled in `Keyset.dfy`.
- Ledger.Replay: takes the audit in commit order; the table has no sequence column, and its created_at is the transaction's start. The completion of a marked job and a user's cancellation carry the same event type "job.cancelled"; the model's events are different constructors, which an auditor tells apart by the keys of the event data (exit_code and billed_gpu_hours against phase). User status is not replayed, because `grant-admin` changes it without an audit row.
- Handlers.GrantAdmin: the administrator flag is not stored; requests that need it say so by an argument or are taken to be an administrator's.
- Keyset.Walk: when inserted rows sort among the rows of the start, as with equal timestamps or a long transaction, whether they are listed too is not stated; only the request count needs them to be newer.
- Handlers.PushLogs: text that the database itself refuses (a NUL character in a line, a sequence number beyond 32 bits) is accepted here; the schema lets it through.
- Agents.Enabled: a daemon's crash, restart or interrupt, and the exit codes that the request schema refuses, are not modelled; a refused completion is the same as one never processed.
- ControlPlane.Database.Served: isolation between sessions is the atomic-request assumption; only claims are refined further.
- Liveness: nothing is said to happen eventually; a lost answer stalls a node for good (`RunOutcomes.LostClaimStallsNode`).
- Docker pulls, pipes and scanners: the runner is an arbitrary step; killing the docker client does not prove that the container died, so the theorems speak of runner calls.
- HTTP routing, administrator checks in the request dependencies, the two web UIs, metrics, node status display, API keys, the dashboard's other counters: they read or guard the tables modelled here and change none of their rows.
- Floating point: exact integers are used; at the schema's bounds the source's doubles carry these values closely, which is not proved.
