/**
 The daemon as a state machine: the store, the workers that drive it, the requests that arrive from
 outside, crashes and restarts. Any sequence of steps is a run; a step that is not enabled changes
 nothing, so no schedule is excluded.
 */
module Runtime {
  import opened Model
  import opened Transactions
  import opened Retention

  // ---------------------------------------------------------------- identities of outcomes

  function Digits(n: nat): string {
    var last := ['0', '1', '2', '3', '4', '5', '6', '7', '8', '9'][n % 10];
    if n < 10 then [last] else Digits(n / 10) + [last]
  }

  function AttemptSuffix(retryCount: nat): string {
    if retryCount == 0 then "" else ":retry:" + Digits(retryCount)
  }

  const ASSISTANT_PREFIX := "turn:assistant:"
  const DELIVERY_PREFIX := "delivery:"

  function FinalTurnId(id: TaskId, retryCount: nat): TurnId {
    ASSISTANT_PREFIX + id + AttemptSuffix(retryCount)
  }

  function FinalDeliveryId(id: TaskId, retryCount: nat): DeliveryId {
    DELIVERY_PREFIX + id + ":connector-final" + AttemptSuffix(retryCount)
  }

  function FinalDeliveryKey(id: TaskId, retryCount: nat): string {
    "task:" + id + ":connector-final" + AttemptSuffix(retryCount)
  }

  /** Identifiers are UUIDs: hexadecimal digits and hyphens, never a colon. */
  predicate IsId(id: TaskId) {
    ':' !in id
  }

  // ---------------------------------------------------------------- workers

  /** How a worker intends to leave a task. */
  datatype Action =
    | Complete(answer: Answer)
    | Requeue(error: string, cancelled: bool, timedOut: bool)
    | Fail(error: string, timedOut: bool)
    | Cancel

  /** A busy worker: the task it took, and the row it holds in memory. */
  datatype Worker =
    | Claimed(id: TaskId, row: Task)
    | Starting(id: TaskId)
    | Processing(id: TaskId, row: Task)
    | Launching(id: TaskId, row: Task, input: string)
    | Executing(id: TaskId, row: Task)
    | Finishing(id: TaskId, row: Task, action: Action)

  datatype Launch = Launch(task: TaskId, input: string, dryRun: bool)
  datatype Consent = Consent(task: TaskId, arguments: string)

  /** What happened so far: never read by the code, only by the theorems. */
  datatype History = History(
    launches: seq<Launch>,
    consents: seq<Consent>,
    claims: multiset<TaskId>,
    answers: set<(TaskId, nat)>,
    inputs: map<TaskId, string>)

  datatype Sys = Sys(db: Db, up: bool, workers: map<nat, Worker>, past: History)

  const START := Sys(EMPTY_DB, false, map[], History([], [], multiset{}, {}, map[]))

  // ---------------------------------------------------------------- requests that create work

  predicate FreshRow(row: Task) {
    row.retryCount == 0 && row.version == 1 && !row.dismissed
  }

  /** The graph one request may create: a single task, or a synthesis root over delegated tasks. */
  predicate AskShape(conversation: ConversationId, rows: seq<(TaskId, Task)>) {
    && rows != []
    && (forall node <- rows ::
          && IsId(node.0)
          && FreshRow(node.1)
          && node.1.status.Queued?
          && node.1.fixed.root == rows[0].0
          && node.1.fixed.conversation == Some(conversation))
    && (forall i | 1 <= i < |rows| :: rows[i].1.fixed.kind.Delegated?)
    && (if |rows| == 1 then rows[0].1.fixed.kind.Delegated?
        else rows[0].1.fixed.kind.Synthesis? && rows[0].1.fixed.agent == SYNTHESIZER)
  }

  predicate ShellShape(id: TaskId, row: Task, gated: bool) {
    && IsId(id)
    && FreshRow(row)
    && row.status == (if gated then WaitingForApproval else Queued)
    && row.fixed.root == id
    && row.fixed.kind.Shell?
    && row.fixed.allowedTools == ["shell"]
  }

  /** The single-use approval of a shell task is for exactly the task's command. */
  function RequestedApproval(id: TaskId, row: Task, gated: bool, expiresAt: int): Option<Approval> {
    if gated
    then Some(Approval(id, "shell", row.content.input, ["tool.shell.execute"], row.content.progressMessage,
                       Pending, expiresAt, None, "", None))
    else None
  }

  // ---------------------------------------------------------------- steps

  /** What users, devices, timers and agent callbacks may ask of the store at any moment. */
  datatype Command =
    | Decide(key: ApprovalId, actor: string, approved: bool, now: int)
    | ExpireAll(now: int)
    | Retry(id: TaskId)
    | Dismiss(id: TaskId)
    | Prioritize(id: TaskId, priority: int)
    | CancelGraph(id: TaskId, now: int)
    | Retain(conversation: ConversationId, enabled: bool, now: int)
    | Progress(id: TaskId, percent: int, message: string)
    | Scrub(root: TaskId)
    | SweepAll(cutoff: int, sweptAt: int, audit: string, correlation: string)

  /** How a command failed: its context was cancelled, its deadline passed, or it returned an error. */
  datatype Failure = Failure(error: string, cancelled: bool, timedOut: bool)

  /** What a worker does next; the parameters stand for whatever agents and tools return. */
  datatype Job =
    | Claim(id: TaskId)
    | Begin(now: int)
    | ReadBack
    | AgentReturns(action: Action)
    | ShellRefuses(reason: string, timedOut: bool)
    | ShellStarts(input: string)
    | Spawn
    | ShellReturns(output: string, failure: Option<Failure>, now: int)
    | Settle(route: Option<(string, DeliveryStatus)>, now: int)

  datatype Step =
    | Ask(conversation: ConversationId, record: Conversation, apply: bool, turn: (TurnId, Turn), rows: seq<(TaskId, Task)>)
    | RunShell(id: TaskId, row: Task, gated: bool, expiresAt: int)
    | Control(command: Command)
    | Work(worker: nat, job: Job)
    | Crash
    | Recover(now: int)

  function Store(s: Sys, db: Db): Sys { s.(db := db) }

  function Busy(s: Sys, worker: nat, phase: Worker): Sys {
    s.(workers := s.workers[worker := phase])
  }

  function Free(s: Sys, worker: nat): Sys {
    s.(workers := s.workers - {worker})
  }

  // -- creation

  function FirstInputs(past: map<TaskId, string>, db: Db, next: Db): map<TaskId, string> {
    past + map id <- next.tasks | id !in db.tasks :: next.tasks[id].content.input
  }

  function Admit(s: Sys, tx: Tx): Sys {
    if tx.Abort? then s
    else s.(db := tx.db, past := s.past.(inputs := FirstInputs(s.past.inputs, s.db, tx.db)))
  }

  predicate UserTurn(id: TurnId) {
    !(ASSISTANT_PREFIX <= id)
  }

  function DoAsk(s: Sys, conversation: ConversationId, record: Conversation, apply: bool, turn: (TurnId, Turn),
                 rows: seq<(TaskId, Task)>): Sys {
    if AskShape(conversation, rows) && UserTurn(turn.0)
    then Admit(s, CreateAskWork(s.db, conversation, record, apply, turn, rows)) else s
  }

  function DoShell(s: Sys, id: TaskId, row: Task, gated: bool, expiresAt: int): Sys {
    if ShellShape(id, row, gated) && (row.fixed.conversation.Some? ==> row.fixed.conversation.value in s.db.conversations)
    then Admit(s, CreateTaskWithApproval(s.db, id, row, RequestedApproval(id, row, gated, expiresAt))) else s
  }

  // -- maintenance

  const ZERO_TIME := 0

  function SweepTx(db: Db, cutoff: int, sweptAt: int, audit: string, correlation: string): Tx {
    if cutoff == ZERO_TIME || sweptAt == ZERO_TIME || cutoff > sweptAt then Abort(Rejected)
    else
      var swept := Sweep(db, cutoff);
      if audit in swept.audits then Abort(Conflict)
      else Commit(swept.(audits := swept.audits[audit := Audit(sweptAt, None, correlation)]))
  }

  // -- worker loop

  function DoClaim(s: Sys, worker: nat, id: TaskId): Sys {
    var tx := ClaimTask(s.db, id);
    if !s.up || worker in s.workers || tx.Abort? then s
    else
      Busy(Store(s, tx.db), worker, Claimed(id, tx.db.tasks[id]))
        .(past := s.past.(claims := s.past.claims + multiset{id}))
  }

  function DoBegin(s: Sys, worker: nat, now: int): Sys {
    if worker !in s.workers || !s.workers[worker].Claimed? then s
    else
      var held := s.workers[worker];
      var tx := StartTask(s.db, held.id, held.row.version, now);
      if tx.Abort? then Free(s, worker) else Busy(Store(s, tx.db), worker, Starting(held.id))
  }

  function DoReadBack(s: Sys, worker: nat): Sys {
    if worker !in s.workers || !s.workers[worker].Starting? then s
    else
      var id := s.workers[worker].id;
      if id !in s.db.tasks then Free(s, worker) else Busy(s, worker, Processing(id, s.db.tasks[id]))
  }

  /** Some other node of the graph did not end well: the synthesizer's Partial flag. */
  predicate SomeChildFailed(db: Db, id: TaskId, root: TaskId) {
    exists child <- db.tasks :: child != id && db.tasks[child].fixed.root == root && !db.tasks[child].status.Succeeded()
  }

  /** Agents may answer anything; the built-in synthesizer reports what it reads in the graph now. */
  predicate AgentMay(db: Db, held: Worker, action: Action)
    requires held.Processing?
  {
    action.Complete? && held.row.fixed.agent == SYNTHESIZER ==>
      action.answer.partial == SomeChildFailed(db, held.id, held.row.fixed.root)
  }

  function DoAgentReturns(s: Sys, worker: nat, action: Action): Sys {
    if worker !in s.workers || !s.workers[worker].Processing? then s
    else
      var held := s.workers[worker];
      if held.row.fixed.kind.Shell? || !AgentMay(s.db, held, action) then s
      else Busy(s, worker, Finishing(held.id, held.row, action))
  }

  function DoShellRefuses(s: Sys, worker: nat, error: string, timedOut: bool): Sys {
    if worker !in s.workers || !s.workers[worker].Processing? || !s.workers[worker].row.fixed.kind.Shell? then s
    else Busy(s, worker, Finishing(s.workers[worker].id, s.workers[worker].row, Fail(error, timedOut)))
  }

  /** The command was started before: only a recorded success may complete the task again. */
  function DuplicateAction(item: Invocation): Action {
    if item.status.Succeeded?
    then Complete(Answer(if item.output.Some? then item.output.value else "", "Command already completed", [], false))
    else Fail("tool invocation already started; refusing duplicate execution", false)
  }

  function RefusedLaunch(db: Db, id: TaskId): Action {
    if InvocationKey(id) in db.invocations then DuplicateAction(db.invocations[InvocationKey(id)])
    else Fail("tool invocation could not be recorded", false)
  }

  /** The invocation is on record before the command is launched. */
  function RecordLaunch(s: Sys, worker: nat, input: string): Sys
    requires worker in s.workers && s.workers[worker].Processing?
  {
    var held := s.workers[worker];
    var tx := StartToolInvocation(s.db, held.id, input);
    if tx.Commit? then Busy(Store(s, tx.db), worker, Launching(held.id, held.row, input))
    else Busy(s, worker, Finishing(held.id, held.row, RefusedLaunch(s.db, held.id)))
  }

  /** Unless the stored command is a dry run, the input launched is the stored input, byte for byte. */
  predicate LaunchAllowed(held: Worker, input: string) {
    && held.Processing? && held.row.fixed.kind.Shell?
    && (DryRun(held.row.content.input) || held.row.content.input == input)
  }

  function DoShellStarts(s: Sys, worker: nat, input: string): Sys {
    if worker in s.workers && LaunchAllowed(s.workers[worker], input)
    then RecordLaunch(s, worker, input) else s
  }

  function DoSpawn(s: Sys, worker: nat): Sys {
    if worker !in s.workers || !s.workers[worker].Launching? then s
    else
      var held := s.workers[worker];
      Busy(s, worker, Executing(held.id, held.row))
        .(past := s.past.(launches := s.past.launches + [Launch(held.id, held.input, DryRun(held.row.content.input))]))
  }

  function AfterCommand(output: string, failure: Option<Failure>): Action {
    if failure.None? then Complete(Answer(output, "Command completed", [], false))
    else if failure.value.cancelled then Cancel
    else Fail(failure.value.error, failure.value.timedOut)
  }

  function ErrorOf(failure: Option<Failure>): Option<string> {
    if failure.Some? then Some(failure.value.error) else None
  }

  function DoShellReturns(s: Sys, worker: nat, output: string, failure: Option<Failure>, now: int): Sys {
    if worker !in s.workers || !s.workers[worker].Executing? then s
    else
      var held := s.workers[worker];
      var tx := FinishToolInvocation(s.db, InvocationKey(held.id), output, ErrorOf(failure), now);
      if tx.Abort? then Busy(s, worker, Finishing(held.id, held.row, Fail("invocation not finished", false)))
      else Busy(Store(s, tx.db), worker, Finishing(held.id, held.row, AfterCommand(output, failure)))
  }

  /** The durable records of a root's answer carry the attempt in their identity. */
  function FinalOutcome(id: TaskId, row: Task, answer: Answer, route: Option<(string, DeliveryStatus)>, now: int): Outcome {
    Outcome(
      if row.fixed.conversation.Some?
      then Some((FinalTurnId(id, row.retryCount), Turn(row.fixed.conversation.value, answer.summary, now))) else None,
      if route.Some?
      then Some((FinalDeliveryId(id, row.retryCount),
                 Delivery(id, route.value.0, route.value.1, "", FinalDeliveryKey(id, row.retryCount))))
      else None)
  }

  function CompletionTx(db: Db, held: Worker, route: Option<(string, DeliveryStatus)>, now: int): Tx
    requires held.Finishing? && held.action.Complete?
  {
    if held.id == held.row.fixed.root
    then CompleteTaskWithOutcome(db, held.id, held.action.answer,
                                 FinalOutcome(held.id, held.row, held.action.answer, route, now), now)
    else CompleteTask(db, held.id, held.action.answer, now)
  }

  function SettleComplete(s: Sys, worker: nat, route: Option<(string, DeliveryStatus)>, now: int): Sys
    requires worker in s.workers && s.workers[worker].Finishing? && s.workers[worker].action.Complete?
  {
    var held := s.workers[worker];
    var tx := CompletionTx(s.db, held, route, now);
    if tx.Abort? then Busy(s, worker, Finishing(held.id, held.row, Fail("completion not persisted", false)))
    else
      Free(Store(s, tx.db), worker).(past := s.past.(answers :=
        if held.id == held.row.fixed.root
        then s.past.answers + {(held.id, held.row.retryCount)} else s.past.answers))
  }

  /** Leaving a task without an answer. */
  function LeavingTx(db: Db, held: Worker, now: int): Tx
    requires held.Finishing? && !held.action.Complete?
  {
    match held.action
    case Requeue(error, _, _) => RequeueTask(db, held.id, error)
    case Fail(error, timedOut) => FailTask(db, held.id, error, timedOut, now)
    case Cancel => MarkTaskCancelled(db, held.id, now)
  }

  /** A refused requeue falls back to the failure it was meant to hide. */
  function SettleOther(s: Sys, worker: nat, now: int): Sys
    requires worker in s.workers && s.workers[worker].Finishing? && !s.workers[worker].action.Complete?
  {
    var held := s.workers[worker];
    var tx := LeavingTx(s.db, held, now);
    if tx.Commit? then Free(Store(s, tx.db), worker)
    else if held.action.Requeue?
    then Busy(s, worker, Finishing(held.id, held.row,
                if held.action.cancelled then Cancel else Fail(held.action.error, held.action.timedOut)))
    else Free(s, worker)
  }

  function DoSettle(s: Sys, worker: nat, route: Option<(string, DeliveryStatus)>, now: int): Sys {
    if worker !in s.workers || !s.workers[worker].Finishing? then s
    else if s.workers[worker].action.Complete? then SettleComplete(s, worker, route, now)
    else SettleOther(s, worker, now)
  }

  /** The daemon recovers before it starts its workers. */
  function DoRecover(s: Sys, now: int): Sys {
    if s.up then s else s.(db := RecoverInterruptedTasks(s.db, now), up := true, workers := map[])
  }

  function Commanded(db: Db, command: Command): Db {
    match command
    case Decide(key, actor, approved, now) => DecideApproval(db, key, actor, approved, now).Over(db)
    case ExpireAll(now) => ExpireApprovals(db, now)
    case Retry(id) => RetryTask(db, id).Over(db)
    case Dismiss(id) => DismissTask(db, id).Over(db)
    case Prioritize(id, priority) => SetTaskPriority(db, id, priority).Over(db)
    case CancelGraph(id, now) => CancelTaskGraph(db, id, now).Over(db)
    case Retain(conversation, enabled, now) => SetTranscriptRetention(db, conversation, enabled, now).Over(db)
    case Progress(id, percent, message) => UpdateTaskProgress(db, id, percent, message).Over(db)
    case Scrub(root) => ScrubTerminalTaskGraph(db, root)
    case SweepAll(cutoff, sweptAt, audit, correlation) => SweepTx(db, cutoff, sweptAt, audit, correlation).Over(db)
  }

  /** The command consumes an approval. */
  predicate Consumes(db: Db, command: Command) {
    && command.Decide? && command.approved
    && DecideApproval(db, command.key, command.actor, true, command.now).Decided?
  }

  function Obey(s: Sys, command: Command): Sys {
    s.(db := Commanded(s.db, command),
       past := s.past.(consents := s.past.consents +
         if Consumes(s.db, command)
         then [Consent(s.db.approvals[command.key].task, s.db.approvals[command.key].arguments)] else []))
  }

  function Toil(s: Sys, worker: nat, job: Job): Sys {
    match job
    case Claim(id) => DoClaim(s, worker, id)
    case Begin(now) => DoBegin(s, worker, now)
    case ReadBack => DoReadBack(s, worker)
    case AgentReturns(action) => DoAgentReturns(s, worker, action)
    case ShellRefuses(reason, timedOut) => DoShellRefuses(s, worker, reason, timedOut)
    case ShellStarts(input) => DoShellStarts(s, worker, input)
    case Spawn => DoSpawn(s, worker)
    case ShellReturns(output, failure, now) => DoShellReturns(s, worker, output, failure, now)
    case Settle(route, now) => DoSettle(s, worker, route, now)
  }

  function Next(s: Sys, step: Step): Sys {
    match step
    case Ask(conversation, record, apply, turn, rows) => DoAsk(s, conversation, record, apply, turn, rows)
    case RunShell(id, row, gated, expiresAt) => DoShell(s, id, row, gated, expiresAt)
    case Control(command) => Obey(s, command)
    case Work(worker, job) => Toil(s, worker, job)
    case Crash => s.(up := false, workers := map[])
    case Recover(now) => DoRecover(s, now)
  }

  function Run(s: Sys, steps: seq<Step>): Sys
    decreases |steps|
  {
    if steps == [] then s else Next(Run(s, steps[..|steps| - 1]), steps[|steps| - 1])
  }
}
