# Veqri task core: a Dafny model

Veqri's daemon keeps its work in one store. Workers claim tasks, agents and shell commands run,
users approve, cancel, dismiss and retry, retention erases, and the daemon may die at any moment and
recover. Every transaction is a small guarded update; what makes the system safe is how the guards
fit together over whole runs. This project models the store, the workers and the protocols around
them, and proves what every run keeps.

## How it is organised

| file | what it holds |
|---|---|
| `Model.dfy` | rows of the store as values, statuses, transaction results |
| `Transactions.dfy`, `Retention.dfy` | what each transaction commits, row by row |
| `Evolution.dfy`, `Growth.dfy` | the one relation that every transaction and every step stays inside |
| `Runtime.dfy` | the daemon as a state machine: requests, workers step by step, crashes, restarts |
| `Invariants.dfy` | graph shape, approvals bound to waiting tasks, ownership by workers |
| `Synthesis.dfy`, `Execution.dfy`, `Consents.dfy`, `BoundedWork.dfy`, `Cancellation.dfy`, `Versions.dfy`, `Outcomes.dfy`, `Scheduling.dfy` | theorems about every run |
| `Columns.dfy`, `SweepColumns.dfy` | what each transaction commits, column by column and independently of how it is computed: which rows change, to what, and which stand |
| `Settlement.dfy`, `Lifecycle.dfy` | how work ends, and that every step of a run does what it is asked to |
| `Restart.dfy`, `Statements.dfy`, `Erasure.dfy`, `Sweeps.dfy`, `Persistence.dfy` | the store as an object: statements in order, loops, counts, and the algebra of erasure |
| `Markers.dfy` | erased tasks and explicit retry: when, exactly, an erased task may run again |
| `Delegation.dfy` | how the API builds task graphs and shell tasks |
| `Rotation.dfy`, `Devices.dfy` | two-phase credential rotation over a network that loses, delays and repeats |
| `Limiter.dfy`, `Hub.dfy`, `Snapshot.dfy` | pairing-claim limiter, event hub, bounded snapshot |

A run is any sequence of `Runtime.Step`s from the empty store. A step that is not enabled changes
nothing, so no interleaving is excluded: asks and shell requests, operator commands, expiry timers,
retention, progress callbacks, each worker's claim, start, read-back, agent return, invocation
record, launch, command return and settlement, crashes between any two of these, and recovery.
Transactions are atomic because the store runs them one at a time. Clocks, agent answers and tool
results are parameters of the steps, so they may be anything. Times are integers.

The history in `Runtime.History` (launches, consents, claims, answers, first inputs) is never read
by a step; it exists so that theorems can speak about the past.

## Where the code and its documentation differ

- The transition table in `core/tasks/model.go` is not consulted by the store and disagrees with it
  (a queued task goes straight to cancelled). The model follows the SQL guards.
- `docs/PROTOCOL.md` says that close code 4004 proves the promotion of a replacement. The revalidation
  of a stream keeps that promise, but closing the streams after a promotion does not look at their
  bearers. `Rotation.ClosingTheActiveStreamLocksOut` gives a run of a device that follows the protocol
  and drops a credential on a 4004 only if a replacement is stored: a replayed confirm is answered, the
  device reconnects with the promoted credential and stores the replacement of its next rotation, and the
  late 4004 of the first handler makes it drop the credential that is still active; when the replacement
  expires, nothing it stores can ever be accepted. `Rotation.ClosingIsSafeIff` gives the exact condition:
  no closed stream uses the active bearer, or no further rotation is possible.
- Explicit retry is meant to refuse erased tasks, but it knows only the marker of the retention sweep, and
  switching transcript retention off writes another marker over it. `Markers.EligibleAfterOffAndOn` says
  exactly which tasks are eligible after off and on, whatever erased them; `Markers.SweptTaskRetried` is an
  input on which a swept task is accepted; `Markers.SweptUntilScrubbed` and `Markers.MarkEndsIff` say how
  long a sweep's mark protects: until a scrub of its graph, and not longer.
- The identities of final turns and deliveries are unambiguous only because task identifiers contain
  no colon: `Outcomes.ColonsWouldCollide`.

## Model

| member | source | states |
|---|---|---|
| Growth.StepEvolves | core/agents/runtime.go:130-355 | whatever any step does to existing rows stays inside one relation: status moves and retries only along guarded edges, a version bump with every change except the erasure of a terminal row, revival only in the retried graph with its root queued, claims only behind terminal dependencies, approvals and invocations never undone; after that it may add new rows (what each step does inside this relation is stated by Settlement, Lifecycle and the column laws) |
| Evolution.OutcomeEvolves | core/persistence/tasks.go:701-795 | completing a root, with its announcement and its erasure, moves that row alone and otherwise only erases rows of a finished graph |
| Evolution.RetryRows | core/persistence/tasks.go:244-372 | an explicit retry leaves the graph's root queued, re-arms only retryable nodes of that graph and touches no other graph |
| Evolution.CancelEvolves | core/persistence/tasks.go:1024-1085 | cancellation takes no row from a worker except by asking it to stop |
| Evolution.RecoverEvolves | core/persistence/tasks.go:1153-1203 | recovery revives no terminal task and claims none |
| Columns.ClaimLaw | core/persistence/tasks.go:577-610 | a task is claimed exactly if it is ready and comes first, and only its status and version change |
| Columns.RetryLaw | core/persistence/tasks.go:244-372 | for every store: who may be retried, which rows a retry of a root or of a child re-arms and to which column values, which conflict each refusal is, and that every other row stands |
| Columns.CancelLaw | core/persistence/tasks.go:1024-1085 | every node of the graph and every approval of it, by its status before; nothing else changes |
| Columns.RecoveryLaw | core/persistence/tasks.go:1153-1203 | each task and each invocation, by its columns before; nothing else changes |
| Columns.OutcomeLaw | core/persistence/tasks.go:701-795 | the answered row, the turn as it is or with the marker, the delivery unless its identity or key is taken, and, without a kept transcript, the blanked events and the erased graph; each refusal in order |
| Columns.DecisionLaw | core/persistence/approvals.go:100-190 | approval and task after a decision, after a late one, and each refusal |
| Columns.ExpiryLaw | core/persistence/approvals.go:214-256 | which approvals are due, which tasks time out, and that nothing else changes |
| Columns.SwitchLaw | core/persistence/conversations.go:227-304 | every table after retention is switched off or on |
| Columns.ScrubTerminalLaw | core/persistence/conversations.go:310-381 | when a graph is scrubbed, and every column that is erased then |
| Columns.GraphLaw | core/persistence/tasks.go:165-201 | when a graph may be created, and that its nodes and edges are then there as given |
| Columns.AskLaw | core/persistence/ask.go:73-126 | an ask opens or renews its conversation, switches its retention if asked, stores the user's turn as that retention demands, and creates the star; or changes nothing |
| SweepColumns.SweepLaw | core/persistence/retention.go:17-203 | for each of the nine tables, exactly which rows a sweep reaches, by their own columns and what protects them, and what it leaves of them |
| SweepColumns.SweepTakesAllOrNothing | core/persistence/retention.go:17-35 | a graph with an unfinished node, a node that finished at or after the cutoff, a node without an end created at or after it, or something owed stands in every row; every other graph loses all its content: tasks, invocations, approvals, closed deliveries and artifacts |
| Growth.AskGrows | core/persistence/ask.go:73-126 | an ask opens its conversation, may switch the conversation's retention exactly as an operator could, and then adds a whole star-shaped graph with fresh rows and changes no other row; or it changes nothing |
| Growth.AskAdmits | core/persistence/ask.go:88-104 | the switch inside an ask is the retention command, so everything proved about commands holds of it |
| Growth.ShellGrows | core/persistence/tasks.go:38-75 | a shell request adds its task and, if gated, the pending approval for exactly its input |
| Growth.ShellReplay | core/persistence/tasks.go:77-116 | replaying a shell request changes nothing once every waiting task has its pending approval |
| Invariants.RunIsSound | core/agents/runtime.go:130-355 | in every reachable state graphs are well formed, a task waits exactly as long as its own approval for its own input is pending, each busy worker holds a task nobody else holds and whose row it knows, and a stopped daemon has no workers |
| Synthesis.StableInputs | core/persistence/tasks.go:285-372 | in every reachable state a synthesis root that is assigned, running, asked to cancel or successful has only terminal dependencies |
| Synthesis.HonestOutcome | agents/general/synthesizer.go:52-93 | in every reachable state a synthesis root is COMPLETED only if all its children succeeded and PARTIALLY_COMPLETED only if some child failed, was cancelled or timed out, although the graph is read before the result is committed |
| Synthesis.CompletionCommits | core/agents/runtime.go:332-355 | in every sound state the completion a worker intends is accepted: nobody else ends or re-arms the task it holds |
| Synthesis.Synthesize | agents/general/synthesizer.go:52-93 | the successes and the failures name exactly the other nodes that ended well and that did not, each in graph order; the artifacts of the successes are collected; Partial is set exactly if some other node did not succeed |
| Synthesis.PartialMeansChildFailed | core/persistence/tasks.go:543-575 | over a listing of the graph in any order, that flag is the condition the state machine uses |
| Synthesis.ArtifactMembers | agents/general/synthesizer.go:60-70 | an artifact is collected exactly if some other node that ended well has it |
| Settlement.CompletedMeansSucceeded | core/agents/runtime.go:267-310 | in every reachable state a shell task that succeeded is COMPLETED and its command is on record as succeeded |
| Settlement.CommandOutcome | core/agents/runtime.go:289-330 | from every reachable state in which a worker executes a command: once it returns and the worker settles, the task is COMPLETED after a success, TIMED_OUT after its deadline and FAILED after any other error, with that error, or CANCELLED after a cancellation that was asked for; the record says the same |
| Settlement.StartLaw | core/agents/runtime.go:267-288 | a command is put on record once; a recorded one completes its task only if it succeeded and fails it otherwise |
| Settlement.FailSettles | core/agents/runtime.go:312-330 | a failure ends the worker's task, timed out exactly if the deadline passed, with the error, and changes nothing else |
| Settlement.CancelSettles | core/agents/runtime.go:313-321 | a cancelled context ends the task exactly if a user asked for it, and changes nothing otherwise |
| Settlement.RequeueSettles | core/agents/runtime.go:211-222 | a retryable error queues a running task again while it has retries, and falls back to the failure otherwise |
| Settlement.CompleteSettles | core/agents/runtime.go:332-355 | in every sound state an answer is accepted, the task succeeds as the answer says and, with a kept transcript, carries it column by column |
| Settlement.ConsentIsEntered | core/persistence/approvals.go:139-170 | a consent enters the history exactly when a pending approval is consumed, with its arguments |
| Settlement.ClaimIsEntered | core/agents/runtime.go:140-149 | a claim enters the history exactly when an idle worker takes the first ready task |
| Settlement.LaunchIsEntered | core/agents/runtime.go:289-292 | a launch enters the history exactly when a worker that recorded it spawns the command |
| Lifecycle.WorkCanFinish | core/agents/runtime.go:130-231 | from every reachable state with the daemon up, an idle worker and a task first in the queue: the worker can claim, start and read it back, the agent's answer is accepted, and the task succeeds as the answer says |
| Lifecycle.CommandCanRun | core/agents/runtime.go:233-292 | likewise a shell task without a record: its stored command can be launched, and exactly that launch is entered |
| Lifecycle.RefusedBegin | core/agents/runtime.go:154-159 | a start that the store refuses leaves the store alone and the worker free |
| Lifecycle.CommandsAreObeyed | core/persistence/tasks.go:925-1137 | in every sound state each command of a user or timer has the effect its column law states, and touches no worker |
| Lifecycle.AskIsEntered | internal/api/tasks.go:174-190 | a well-formed ask has the effect its column law states, or none |
| Lifecycle.ShellIsEntered | core/persistence/tasks.go:38-75 | a new shell request is stored as it is and waits, exactly if it is gated, for a pending approval of its own command |
| Lifecycle.RestartRecovers | core/persistence/tasks.go:1153-1217 | a daemon that was down recovers its tasks, column by column, before any worker runs |
| Execution.AtMostOnce | core/agents/runtime.go:267-294 | over every run no task's command is launched twice, and every launched task has an invocation on record |
| Execution.RecordingKeepsRecorded | core/persistence/tools.go:16-64 | the record is refused for a task that has one, so at most one worker ever gets ready to launch |
| Consents.ClaimedOnlyWithConsent | core/persistence/approvals.go:100-190 | a task that ever waited for approval and was later claimed, or is anywhere in execution, had its approval consumed exactly once, for the input it was created with |
| Consents.WhatRunsIsWhatWasApproved | core/agents/runtime.go:250-289 | every launch for such a task had its one consent, is a dry run exactly if the approved command asks for one, and otherwise launches the approved arguments byte for byte |
| BoundedWork.StepSpendsBudget | core/persistence/tasks.go:418-436 | every status change of every step strictly lowers the pair of retries left and status rank, and nothing raises it |
| BoundedWork.FinitelyManyChanges | core/persistence/tasks.go:877-911 | over any run a task changes status at most 6 * max_retries + 5 times |
| BoundedWork.BoundedClaims | core/persistence/tasks.go:577-610 | over any run, restarts included, a task is claimed at most max_retries + 1 times |
| Cancellation.CancelSettles | core/persistence/tasks.go:1024-1085 | after a graph cancellation every node is terminal or CANCEL_REQUESTED and no approval of the graph is pending |
| Cancellation.CancellationIsIrrevocable | core/agents/runtime.go:211-222 | in every continuation without an explicit retry of the graph that stays so and no node is claimed again, recovery and retryable agent errors included |
| Versions.VersionMeansRow | core/persistence/tasks.go:612-626 | two points of a run with the same version have the same row, or a terminal row whose content alone was erased in between |
| Versions.StartsTheClaimedRow | core/agents/runtime.go:154-159 | in every reachable state starting a claimed task succeeds exactly when the claimed row is still stored, unchanged in every column |
| Outcomes.NoLostOutcome | core/agents/runtime.go:344-355 | in every reachable state the commit of a root's answer is accepted, its turn and delivery identities were never used, and both records are in the store afterwards: with a kept transcript the turn says the answer's summary and the delivery is the outcome's; without one the turn holds the marker, and once no node of the graph is active every node's content is erased |
| Outcomes.TurnIdsInjective | core/agents/runtime.go:426-431 | turn identities determine task and attempt |
| Outcomes.DeliveriesInjective | core/agents/runtime.go:408-424 | delivery identities and keys determine task and attempt |
| Outcomes.DigitsRoundTrip | core/agents/runtime.go:426-431 | the attempt in an identity reads back as the number it stands for |
| Outcomes.IdentityFormats | core/agents/runtime.go:408-431 | the identities of final turns and deliveries are spelled as the runtime spells them, without a suffix on the first attempt |
| Outcomes.ColonsWouldCollide | core/agents/runtime.go:346-351 | identifiers with colons would make two answers collide |
| Scheduling.NoDeadlock | core/persistence/tasks.go:577-610 | for every acyclic dependency graph, if some task is unfinished and all unfinished ones are queued, the claim query finds a task |
| Scheduling.QueuedWorkIsClaimed | core/agents/runtime.go:130-152 | in every such reachable state an idle worker can claim |
| Restart.TakenPartition | core/persistence/tasks.go:1162-1203 | every interrupted task is taken by exactly one of the four recovery updates |
| Restart.SecondRecoveryIsIdle | core/persistence/tasks.go:1153-1217 | after recovery nothing is in flight, and a second recovery changes no task |
| Statements.BreakUncertain | core/persistence/tasks.go:1171-1185 | at least as many invocations are terminalised as tasks were failed as uncertain |
| Statements.RearmAll | core/persistence/tasks.go:321-331 | no version guard in the retry loop fails, and the loop re-arms the root and exactly the listed dependencies |
| Statements.RetryRootTask | core/persistence/tasks.go:285-331 | the root retry, with its two loops, commits the graph that Columns.RetryLaw describes or reports its conflict |
| Statements.RetryGraphChild | core/persistence/tasks.go:333-372 | the child retry guards or re-arms the root first and then the child, or changes nothing |
| Statements.CancelRows | core/persistence/tasks.go:1049-1064 | the two cancellation updates in sequence end unclaimed rows and ask running ones, and never touch a row twice |
| Statements.TimeOutWaiting | core/persistence/approvals.go:244-256 | the expiry loop times out exactly the waiting tasks of the listed approvals, once each |
| Statements.InsertNodes | core/persistence/tasks.go:180-187 | nodes are inserted in order, all or none, only under the first node as root, and the first failing node decides the refusal |
| Statements.InsertEdges | core/persistence/tasks.go:188-196 | edges are inserted one by one exactly if together they satisfy the keys and no task depends on itself |
| Persistence.Store.RecoverInterruptedTasks | core/persistence/tasks.go:1153-1217 | row by row: a shell task in flight with a started command is FAILED and that command's record broken; any other task asked to cancel is CANCELLED; any other in flight is FAILED without retries left and QUEUED with one more retry otherwise; every other row stands. The count is exactly the number of interrupted tasks, none is left, the invocation-count guard never fires, and every finished graph whose transcript is not kept ends up erased |
| Persistence.Store.ClaimNextTask | core/persistence/tasks.go:577-610 | takes a queued, undismissed task whose dependencies all ended, such that no other one has a higher priority, or the same priority and an earlier creation; it becomes ASSIGNED under the next version; reports none exactly when there is none |
| Persistence.Store.StartTask | core/persistence/tasks.go:612-626 | succeeds exactly for an assigned row in the claimed version; then that row alone becomes running under the next version, keeps an earlier start time and larger progress, and nothing else in the store changes |
| Persistence.Store.FailTask | core/persistence/tasks.go:797-840 | succeeds exactly for a row that has not ended; then that row alone ends as failed or timed out, with the error and no other content changed |
| Persistence.Store.UpdateTaskProgress | core/persistence/tasks.go:628-643 | accepts 0 to 99 on a row past its start that has not ended, writes progress and message of that row alone and moves no status |
| Persistence.Store.CompleteTaskWithArtifacts | core/persistence/tasks.go:649-686 | succeeds exactly for a row that was claimed and has not ended; then that row alone succeeds, partially exactly if the answer is partial, with every other column stated; a refusal is of the stated kind |
| Persistence.Store.RequeueTaskForAutomaticRetry | core/persistence/tasks.go:877-911 | succeeds exactly for a running task that is no shell task and has retries left; then that row alone is queued with one more retry, within the limit |
| Persistence.Store.MarkTaskCancelled | core/persistence/tasks.go:1129-1137 | succeeds exactly for a row that was asked to stop; then that row alone is cancelled, with content, start and progress untouched |
| Persistence.Store.DismissTask | core/persistence/tasks.go:974-1008 | succeeds exactly for a terminal row not yet dismissed, and changes that flag and the version alone |
| Persistence.Store.SetTaskPriority | core/persistence/tasks.go:925-960 | succeeds exactly for -100 to 100 on a row that is not dismissed, and changes priority and version alone |
| Persistence.Store.StartToolInvocation | core/persistence/tools.go:16-64 | a second start for the same task changes nothing and returns the first record |
| Persistence.Store.FinishToolInvocation | core/persistence/tools.go:66-124 | succeeds exactly for a started invocation of a known task, after which it is no longer started, so the end is recorded once; no other row changes |
| Persistence.Store.CreateTaskWithApproval | core/persistence/tasks.go:38-116 | a new request adds exactly the task and its approval or nothing; a replay gives a waiting task that lost its approval a new one exactly if it is for its own stored command and only tool, refuses it as a conflict otherwise, and changes nothing in any other case |
| Persistence.Store.CreateAskWork | core/persistence/ask.go:28-150 | conversation, retention, turn and graph of a request become visible together, as Columns.AskLaw states them, or not at all; a replay creates nothing |
| Persistence.Store.CompleteTaskWithOutcome | core/persistence/tasks.go:701-795 | terminal status, turn, delivery and erasure commit together or not at all; the new turn is the outcome's turn if the transcript is kept and has the marker for its text otherwise; without a kept transcript and without an active node left, every node's content is erased |
| Persistence.Store.RetryTask | core/persistence/tasks.go:244-372 | a committed retry of a root queues it and every failed, timed out, cancelled or partially completed direct dependency of its graph that may be retried, each with one more retry, no error, result, summary, artifacts, start or end, and leaves every other row; a partially completed root without such a dependency is a conflict; a child's retry queues the child and its root. Any refusal leaves the store as it was; no task depends on itself, as the schema checks |
| Persistence.Store.RequestTaskGraphCancellation | core/persistence/tasks.go:1024-1085 | ends every unclaimed node of the graph as CANCELLED, asks every claimed one to stop, denies every pending approval of the graph, touches no other row, and returns exactly the nodes |
| Persistence.Store.DecideApproval | core/persistence/approvals.go:100-190 | an approval is consumed and its task queued, or denied and its task cancelled, together; a decision that comes too late commits the expiry of both; each refusal is of the stated kind and changes nothing |
| Persistence.LapseApproval | core/persistence/approvals.go:114-138 | a late decision expires the approval and leaves its task not waiting |
| Persistence.ConsumeDecision | core/persistence/approvals.go:139-170 | both guarded updates commit exactly if the task still waits |
| Persistence.Store.ExpireApprovals | core/persistence/approvals.go:214-256 | exactly the pending approvals whose time is reached expire, and exactly the waiting tasks of those time out; their keys are returned |
| Persistence.Store.CreateTaskGraph | core/persistence/tasks.go:165-201 | all nodes as given and exactly the given edges become visible together or nothing does; it succeeds exactly if all identifiers and keys are new and distinct, every node is under the first and the edges are admissible; the refusal is that of the first check that fails in order |
| Persistence.Store.SetTranscriptRetention | core/persistence/conversations.go:227-304 | switching off removes the conversation's turns, blanks its events and title and erases every finished graph that has a node in it, and no unfinished one; switching on changes that flag alone |
| Persistence.Store.ScrubTerminalTaskGraph | core/persistence/conversations.go:310-341 | erases a graph exactly if it is finished and its transcript is not kept, column by column |
| Persistence.Store.ApplyRetentionSweep | core/persistence/retention.go:58-228 | the nine statements run in sequence change exactly the rows that are old by their own end or creation time and that nothing protects, with the stated columns; each count is the number of rows that differ afterwards; bad times and a taken audit key are refused without effect |
| Erasure.ScrubContent | core/persistence/conversations.go:354-381 | the five statements erase exactly the records of one graph, sparing pending approvals and open deliveries |
| Erasure.ScrubSafeGraphs | core/persistence/conversations.go:277-304 | checking and scrubbing graph after graph is erasing exactly those that were finished at the start |
| Erasure.ScrubTwice | core/persistence/conversations.go:354-381 | scrubs commute and repeat harmlessly |
| Erasure.ReconcileErasure | core/persistence/conversations.go:386-418 | scrubbing the listed graphs one by one leaves no finished graph of an unretained conversation with content, and changes nothing but content |
| Markers.EligibleAfterOffAndOn | core/persistence/tasks.go:393-407 | for a task of a finished graph, after retention was switched off and on: all content is erased, and the task is eligible for retry exactly if it is not dismissed, not a shell task, has retries left and ended in a retryable state |
| Markers.SweptIsEligibleAfterOffAndOn | core/persistence/conversations.go:376-381 | a task that a sweep erased is refused right after the sweep and accepted again after off and on |
| Markers.SweptTaskRetried | core/persistence/tasks.go:394-394 | a concrete store with a swept task that explicit retry accepts |
| Markers.SweepMarks | core/persistence/retention.go:185-191 | a sweep marks every node of an eligible graph |
| Markers.SweptUntilScrubbed | core/persistence/tasks.go:393-397 | in every continuation of a run without a scrub that reaches the graph, every node of a swept graph keeps the mark, stays ended and is refused by retry |
| Markers.MarkEndsIff | core/persistence/conversations.go:277-341 | of all steps that take effect, exactly the scrubs that reach the graph end the mark |
| Sweeps.SweepAbsorbs | core/persistence/retention.go:58-228 | sweeping at a cutoff and then at a later one gives the content of the later sweep alone |
| Sweeps.RepeatedSweepReportsZero | core/persistence/retention.go:195-228 | a second sweep with the same cutoff reports zero for every count |
| Sweeps.CountsAreChanges | core/persistence/retention.go:74-209 | each count a sweep reports is the number of rows of its table that are gone or differ afterwards |
| Sweeps.TwoSweepsAreOne | core/persistence/retention.go:205-228 | two sweep transactions leave what the later one would have, apart from their own audit rows |
| Sweeps.ShieldedGraphsAreUntouched | core/persistence/retention.go:17-35 | no row of a graph that is active, owes a delivery, a tool result or a decision, or has a node that finished, or without an end was created, at or after the cutoff, is changed |
| Sweeps.BusyConversationsAreUntouched | core/persistence/retention.go:73-119 | a conversation with protected work keeps its turns and its title |
| Sweeps.SweepChangesContentOnly | core/persistence/retention.go:185-195 | nothing the scheduler reads changes, and the version stays |
| Sweeps.SweptTaskIsNotEligible | core/persistence/tasks.go:393-395 | right after a sweep a task it reached is refused by retry |
| Sweeps.SweepTables | core/persistence/retention.go:73-203 | each statement sees what the earlier ones left, and still reaches the rows it reached at the start |
| Delegation.BuildAskGraph | internal/api/tasks.go:138-172 | one task for one agent, else a synthesis root that depends on exactly one node per agent in order; goal, input, kind, agent, keys, messages and limits of every node are stated, and no idempotency key is used twice |
| Delegation.BuildShellTask | internal/api/tools.go:79-98 | every column of the task; the approval exists exactly when one is required, for the task's canonical input and for ten minutes |
| Delegation.ContainsIff | internal/api/tasks.go:385-396 | the search that types an agent by its name finds a word exactly if it occurs at some position |
| Rotation.NoLockout | internal/api/device_credentials.go:18-152 | with messages lost, delayed, repeated and reordered in any way, the device always holds the active credential, as long as no stream of the active bearer is closed with 4004 |
| Rotation.RotationStaysPossible | internal/api/device_credentials.go:18-152 | from every such state of a device that is not revoked there is a continuation that carries out a whole rotation: the next version is active, a new credential, and the device holds it and nothing older |
| Rotation.ClosingTheActiveStreamLocksOut | internal/api/device_credentials.go:156-166 | a run in which a device that drops a credential on a 4004 only for a stored replacement loses the active one, and is stranded for good when the replacement expires |
| Rotation.ClosingIsSafeIff | internal/api/device_credentials.go:156-166 | closing the streams is safe in every continuation if and only if none of them uses the active bearer, or the key version is the last one |
| Rotation.VersionsCountPromotions | core/persistence/devices.go:265-293 | in every run key_version is one plus the promotions, and a pending version is the next |
| Rotation.SupersededIsNeverAccepted | core/persistence/devices.go:139-169 | a credential that was replaced is never active again and is refused for preparation, confirmation and cancellation |
| Rotation.ReplayedConfirmIsHarmless | core/persistence/devices.go:349-357 | until a later promotion, replaying an answered confirm succeeds and changes nothing |
| Devices.DeviceTable.VerifyDeviceCredential | core/persistence/devices.go:139-169 | finds a device exactly if some unrevoked device has this active credential |
| Devices.DeviceTable.VerifyPendingDeviceCredential | core/persistence/devices.go:174-220 | tells a live pending credential, an expired one and an unknown one apart |
| Devices.DeviceTable.PrepareDeviceCredentialRotation | core/persistence/devices.go:226-317 | succeeds exactly for the active bearer of an unrevoked device without a live preparation and with a version to spare, and then sets the pending slot of that device alone, under the next version, for five minutes |
| Devices.DeviceTable.CancelDeviceCredentialRotation | core/persistence/devices.go:417-486 | clears the slot exactly for the active bearer of an unrevoked device with something pending, and nothing else |
| Devices.DeviceTable.RevokeDevice | core/persistence/devices.go:488-498 | revokes once |
| Devices.DeviceTable.HandleConfirm | internal/api/device_credentials.go:59-125 | a pending bearer is promoted exactly if it is live and the version is its own, and then the device has that credential, that version and nothing pending; an expired one is told so before anything else; the active bearer is answered for its own version and changes nothing; an unknown bearer is unauthorized |
| Devices.DeviceTable.CredentialCloseStatus | internal/api/android.go:112-127 | 4004 exactly when the identity stands and this bearer is not its active one, 4003 exactly when it is revoked or gone |
| Limiter.PairingLimiter.AllowPairingClaim | internal/api/server.go:331-363 | for a clock that does not go back, a claim is allowed exactly if fewer than 30 claims were allowed in the last 60 seconds, fewer than 5 of them from its address, although old claims and idle addresses are forgotten; the address map never exceeds 256 entries |
| Limiter.RecentAttempts | internal/api/server.go:365-371 | the index loop keeps exactly the attempts after the cutoff, and no later count changes |
| Limiter.Purge | internal/api/server.go:352-361 | the purge keeps every address with a recent claim and at most as many as there are recent claims |
| Limiter.WindowsAreBounded | internal/api/server.go:324-329 | any window of one minute holds at most 30 accepted claims, and at most 5 of one address |
| Hub.StreamsHaveNoGaps | internal/stream/hub.go:32-91 | for every interleaving, what an open subscriber took plus what is queued is exactly what was published since it subscribed; a closed one holds a prefix of that |
| Hub.ReadersGetEverything | internal/stream/hub.go:32-54 | in every run an open subscriber that reads until its channel is empty has read everything published since it subscribed, in order |
| Hub.ClosedMeansOverrun | internal/stream/hub.go:42-53 | in every run a channel that its subscriber did not cancel is closed only after it took a whole buffer and missed an event |
| Hub.ClosedAtMostOnce | internal/stream/hub.go:42-53 | no channel is closed twice |
| Hub.OfferAll | internal/stream/hub.go:42-53 | the publishing loop, in any order, queues the event or closes the full channel of each subscriber |
| Hub.EventHub.Publish | internal/stream/hub.go:32-54 | never blocks: the event is queued last for every subscriber with room; a full one is closed and removed with its queue as it was; nobody else is touched |
| Hub.EventHub.Subscribe | internal/stream/hub.go:72-81 | registers an empty channel under a new identifier, with the requested buffer or 32 |
| Hub.EventHub.Unsubscribe | internal/stream/hub.go:82-89 | closes the channel exactly if it is still registered, and touches no other |
| Snapshot.BoundedSnapshot | internal/api/android.go:918-962 | the loop ends with the first event of the drop schedule that fits in 120 KiB, so its last drop was needed; it fails exactly if no event of the schedule fits, and then the empty event is too large |
| Snapshot.ShrinkToFit | internal/api/android.go:928-961 | every event before the last was too large and each is one drop shorter |
| Snapshot.CheapestFirst | internal/api/android.go:946-957 | tasks and approvals keep a prefix and messages a suffix; an active task goes only when no message and no approval is left |
| Snapshot.ScheduleIsUnique | internal/api/android.go:946-957 | the order of drops determines how many of each kind are gone |
| Snapshot.Select | internal/api/android.go:234-274 | the records that must not be missing come first, up to their limit; the rest is taken from the second list in its order, no record that may follow is passed over before the limit is reached, and none is taken that may not |
| Snapshot.SelectTasks | internal/api/android.go:234-253 | the first 64 active tasks, then the first finished ones not among them, 128 in all |
| Snapshot.SelectApprovals | internal/api/android.go:255-274 | the first 64 pending approvals, then the first others that are decided, 128 in all |
| Snapshot.SelectionHasNoDuplicates | internal/api/android.go:240-252 | if neither list names a record twice, neither does the selection |
| Snapshot.SelectionIsUnique | internal/api/android.go:240-252 | the lists and the limit determine which records are selected |

## Left out

- SQLite, migrations, JSON encoding and database failures: a transaction commits or changes nothing.
- Audit rows of task operations, and their contents: only retention sweeps and their own audit row are modelled.
- Ingress idempotency, recovery of pending events and the event row of an ask: an ask is modelled from the upsert of its conversation on, with the conversation it resolves to as a parameter.
- Agents, tools and connectors: they return anything at any time; what a command does is not modelled, only that it was launched.
- The life of a delivery after it is created: connectors marking deliveries as delivered or failed.
- `AddTaskDependency`: dependencies are fixed when a graph is created.
- Timestamp text: times are integers, so the comparison of formatted times within one second is not modelled.
- Invocation rows are keyed by their idempotency key; their random row identifiers are not modelled.
- Text of summaries and error messages that agents and the synthesizer format, and the truncation of stored errors.
- Hashing and random tokens: credentials are compared directly and replacements are fresh.
- A device that reacts to a 4004 by any other rule than dropping the bearer of the closed stream when a replacement is stored.
- Shell input is parsed only for its dry-run member, read off the compact encoding that the API stores.
- Pairing sessions before a device exists, `last_seen_at`, and the settings written with a device.
- The wrap-around of the hub's 64-bit subscriber identifiers, and its statistics.
- HTTP, WebSocket and UI plumbing, the policy table, the dialog table, voice routing.
