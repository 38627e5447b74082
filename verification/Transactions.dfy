/**
 What each transaction of the store commits, as a function of the database it ran against.
 Nothing here is sequential: bulk statements are given row by row. The methods of module Store
 run the statements in order and are proved to commit these databases.
 */
module Transactions {
  import opened Model

  // ---------------------------------------------------------------- queue

  /** The WHERE clause of the claim query; a dependency on a missing row does not block. */
  predicate Claimable(db: Db, id: TaskId) {
    && id in db.tasks
    && db.tasks[id].status.Queued?
    && !db.tasks[id].dismissed
    && forall dep <- db.deps :: dep.0 == id && dep.1 in db.tasks ==> db.tasks[dep.1].status.Terminal()
  }

  /** The ORDER BY of the claim query: priority first, then age. */
  predicate NoLaterThan(a: Task, b: Task) {
    a.priority > b.priority || (a.priority == b.priority && a.fixed.createdAt <= b.fixed.createdAt)
  }

  predicate NextInLine(db: Db, id: TaskId) {
    && Claimable(db, id)
    && forall other <- db.tasks :: Claimable(db, other) ==> NoLaterThan(db.tasks[id], db.tasks[other])
  }

  function SetTask(db: Db, id: TaskId, row: Task): Db {
    db.(tasks := db.tasks[id := row])
  }

  function Bump(row: Task): Task {
    row.(version := row.version + 1)
  }

  function ClaimTask(db: Db, id: TaskId): Tx {
    if NextInLine(db, id)
    then Commit(SetTask(db, id, Bump(db.tasks[id].(status := Assigned))))
    else Abort(NotFound)
  }

  function StartTask(db: Db, id: TaskId, version: nat, now: int): Tx {
    if id in db.tasks && db.tasks[id].status.Assigned? && db.tasks[id].version == version
    then
      var row := db.tasks[id];
      Commit(SetTask(db, id, Bump(row.(
        status := Running,
        startedAt := if row.startedAt.Some? then row.startedAt else Some(now),
        progress := if row.progress < 1 then 1 else row.progress))))
    else Abort(Conflict)
  }

  function UpdateTaskProgress(db: Db, id: TaskId, percent: int, message: string): Tx {
    if percent < 0 || percent > 99 then Abort(Rejected)
    else if id in db.tasks && (var s := db.tasks[id].status; s.Running? || s.WaitingForChildren? || s.CancelRequested?)
    then
      var row := db.tasks[id];
      Commit(SetTask(db, id, Bump(row.(progress := percent, content := row.content.(progressMessage := message)))))
    else Abort(Conflict)
  }

  // ---------------------------------------------------------------- completion and failure

  datatype Answer = Answer(result: string, summary: string, artifacts: seq<string>, partial: bool)

  predicate Completable(status: Status) {
    status.Running? || status.WaitingForChildren? || status.CancelRequested? || status.Assigned?
  }

  function NullableRaw(raw: string): Option<string> {
    if raw == "" then None else Some(raw)
  }

  function CompletedRow(row: Task, answer: Answer, now: int): Task {
    Bump(row.(
      status := if answer.partial then PartiallyCompleted else Completed,
      progress := 100,
      finishedAt := Some(now),
      content := row.content.(
        progressMessage := "Complete",
        result := NullableRaw(answer.result),
        summary := answer.summary,
        artifacts := answer.artifacts)))
  }

  function CompleteTask(db: Db, id: TaskId, answer: Answer, now: int): Tx {
    if id !in db.tasks then Abort(NotFound)
    else if !Completable(db.tasks[id].status) then Abort(Conflict)
    else Commit(SetTask(db, id, CompletedRow(db.tasks[id], answer, now)))
  }

  /** INSERT OR IGNORE. */
  function InsertTurn(db: Db, id: TurnId, turn: Turn, retain: bool): Db {
    db.(turns := db.turns[id :=
      if id in db.turns then db.turns[id] else if retain then turn else turn.(text := NOT_RETAINED_MARKER)])
  }

  predicate DeliveryTaken(db: Db, id: DeliveryId, item: Delivery) {
    id in db.deliveries || exists other <- db.deliveries :: db.deliveries[other].idempotencyKey == item.idempotencyKey
  }

  function InsertDelivery(db: Db, id: DeliveryId, item: Delivery): Db {
    if DeliveryTaken(db, id, item) then db
    else db.(deliveries := db.deliveries[id := item])
  }

  datatype Outcome = Outcome(turn: Option<(TurnId, Turn)>, delivery: Option<(DeliveryId, Delivery)>)

  /** The records that become visible with a root's terminal status. */
  function Announce(db: Db, outcome: Outcome, retain: bool): (told: Db)
    ensures told == db.(turns := told.turns, deliveries := told.deliveries)
    ensures forall key <- db.turns :: key in told.turns && told.turns[key] == db.turns[key]
    ensures forall key <- db.deliveries :: key in told.deliveries && told.deliveries[key] == db.deliveries[key]
  {
    var told := if outcome.turn.Some?
                then InsertTurn(db, outcome.turn.value.0, outcome.turn.value.1, retain) else db;
    if outcome.delivery.Some?
    then InsertDelivery(told, outcome.delivery.value.0, outcome.delivery.value.1) else told
  }

  predicate OutcomeMatches(db: Db, id: TaskId, outcome: Outcome)
    requires id in db.tasks
  {
    var conversation := db.tasks[id].fixed.conversation;
    && (outcome.turn.Some? ==> conversation == Some(outcome.turn.value.1.conversation))
    && (outcome.delivery.Some? ==> outcome.delivery.value.1.task == id)
    && (conversation.Some? ==> conversation.value in db.conversations)
  }

  /** Erases a finished graph whose transcript is not kept. */
  function Withhold(db: Db, root: TaskId, conversationKey: string): Db {
    var quiet := ScrubEvents(db, conversationKey);
    if GraphActive(quiet, root) then quiet else ScrubGraphs(quiet, {root})
  }

  /** The root's terminal status, its final turn and its delivery become visible together. */
  function CompleteTaskWithOutcome(db: Db, id: TaskId, answer: Answer, outcome: Outcome, now: int): Tx {
    if id !in db.tasks then Abort(NotFound)
    else if id != db.tasks[id].fixed.root then Abort(Rejected)
    else if !Completable(db.tasks[id].status) then Abort(Conflict)
    else if !OutcomeMatches(db, id, outcome) then Abort(Rejected)
    else
      var conversation := db.tasks[id].fixed.conversation;
      var retain := conversation.None? || db.conversations[conversation.value].retained;
      var told := Announce(SetTask(db, id, CompletedRow(db.tasks[id], answer, now)), outcome, retain);
      Commit(if retain then told else Withhold(told, id, db.conversations[conversation.value].externalKey))
  }

  function FailTask(db: Db, id: TaskId, error: string, timedOut: bool, now: int): Tx {
    if id !in db.tasks then Abort(NotFound)
    else if db.tasks[id].status.Terminal() then Abort(Conflict)
    else
      var row := db.tasks[id];
      Commit(SetTask(db, id, Bump(row.(
        status := if timedOut then TimedOut else Failed,
        finishedAt := Some(now),
        content := row.content.(error := error)))))
  }

  function RequeueTask(db: Db, id: TaskId, error: string): Tx {
    if id !in db.tasks then Abort(NotFound)
    else
      var row := db.tasks[id];
      if row.status.Running? && !row.fixed.kind.Shell? && row.retryCount < row.fixed.maxRetries
      then
        Commit(SetTask(db, id, Bump(row.(
          status := Queued,
          progress := 0,
          startedAt := None,
          retryCount := row.retryCount + 1,
          content := row.content.(progressMessage := "Transient failure; bounded retry queued", error := error)))))
      else Abort(Conflict)
  }

  // ---------------------------------------------------------------- explicit retry

  predicate Retained(db: Db, conversation: Option<ConversationId>) {
    conversation.None? || (conversation.value in db.conversations && db.conversations[conversation.value].retained)
  }

  predicate RetryEligible(db: Db, id: TaskId) {
    && id in db.tasks
    && var row := db.tasks[id];
    && !row.dismissed
    && row.content.goal != EXPIRED_MARKER
    && !row.fixed.kind.Shell?
    && row.retryCount < row.fixed.maxRetries
    && row.status.Retryable()
    && Retained(db, row.fixed.conversation)
  }

  function RearmedRow(row: Task, message: string): Task {
    Bump(row.(
      status := Queued,
      progress := 0,
      startedAt := None,
      finishedAt := None,
      retryCount := row.retryCount + 1,
      content := row.content.(
        progressMessage := message, error := "", result := None, summary := "", artifacts := [])))
  }

  /** The direct dependencies of a graph root that an explicit retry would re-arm. */
  function RetryableDependencies(db: Db, root: TaskId): set<TaskId> {
    set dep <- db.deps | dep.0 == root && InGraph(db, root, dep.1) && RetryEligible(db, dep.1) :: dep.1
  }

  const WAITING_MESSAGE := "Waiting for retried graph dependencies"
  const RETRY_MESSAGE := "Explicit retry requested"
  const GRAPH_RETRY_MESSAGE := "Explicit graph retry requested"

  function GraphSize(db: Db, root: TaskId): nat {
    |set id <- db.tasks | db.tasks[id].fixed.root == root|
  }

  function RearmGraph(db: Db, root: TaskId, again: set<TaskId>): map<TaskId, Task>
    requires root in db.tasks
  {
    map id <- db.tasks ::
      if id == root then RearmedRow(db.tasks[id], WAITING_MESSAGE)
      else if id in again then RearmedRow(db.tasks[id], GRAPH_RETRY_MESSAGE)
      else db.tasks[id]
  }

  function RetryRoot(db: Db, id: TaskId): Tx
    requires RetryEligible(db, id)
  {
    var row := db.tasks[id];
    var again := RetryableDependencies(db, id);
    if GraphSize(db, id) <= 1 then Commit(SetTask(db, id, RearmedRow(row, RETRY_MESSAGE)))
    else if !row.fixed.kind.Synthesis? then Abort(Conflict)
    else if again != {} then Commit(db.(tasks := RearmGraph(db, id, again)))
    else if row.status.PartiallyCompleted? then Abort(Conflict)
    else Commit(SetTask(db, id, RearmedRow(row, RETRY_MESSAGE)))
  }

  /** A queued synthesis root may be held back while one of its dependencies is re-armed. */
  predicate Guardable(db: Db, root: TaskId) {
    && root in db.tasks
    && var row := db.tasks[root];
    && row.status.Queued? && row.fixed.kind.Synthesis? && !row.dismissed
    && row.content.goal != EXPIRED_MARKER && Retained(db, row.fixed.conversation)
  }

  function GuardedRow(row: Task): Task {
    Bump(row.(content := row.content.(progressMessage := WAITING_MESSAGE)))
  }

  function RearmChild(db: Db, id: TaskId, top: Task): map<TaskId, Task>
    requires id in db.tasks
  {
    db.tasks[db.tasks[id].fixed.root := top][id := RearmedRow(db.tasks[id], RETRY_MESSAGE)]
  }

  function RetryChild(db: Db, id: TaskId): Tx
    requires RetryEligible(db, id) && db.tasks[id].fixed.root != id
  {
    var root := db.tasks[id].fixed.root;
    if root !in db.tasks then Abort(NotFound)
    else
      var top := db.tasks[root];
      if top.fixed.root != root || !top.fixed.kind.Synthesis? then Abort(Conflict)
      else if (root, id) !in db.deps then Abort(Conflict)
      else if Guardable(db, root) then Commit(db.(tasks := RearmChild(db, id, GuardedRow(top))))
      else if RetryEligible(db, root) then Commit(db.(tasks := RearmChild(db, id, RearmedRow(top, WAITING_MESSAGE))))
      else Abort(Conflict)
  }

  function RetryTask(db: Db, id: TaskId): Tx {
    if id !in db.tasks then Abort(NotFound)
    else if !RetryEligible(db, id) then Abort(Conflict)
    else if db.tasks[id].fixed.root == id then RetryRoot(db, id)
    else RetryChild(db, id)
  }

  // ---------------------------------------------------------------- operator controls

  function SetTaskPriority(db: Db, id: TaskId, priority: int): Tx {
    if priority < -100 || priority > 100 then Abort(Rejected)
    else if id !in db.tasks || db.tasks[id].dismissed then Abort(NotFound)
    else Commit(SetTask(db, id, Bump(db.tasks[id].(priority := priority))))
  }

  function DismissTask(db: Db, id: TaskId): Tx {
    if id !in db.tasks then Abort(NotFound)
    else if db.tasks[id].dismissed || !db.tasks[id].status.Terminal() then Abort(Conflict)
    else Commit(SetTask(db, id, Bump(db.tasks[id].(dismissed := true))))
  }

  function CancelledRow(row: Task, now: int): Task {
    if row.status.NotYetClaimed() then Bump(row.(status := Cancelled, finishedAt := Some(now)))
    else if row.status.Assigned? || row.status.Running? || row.status.WaitingForChildren?
    then Bump(row.(status := CancelRequested))
    else row
  }

  function CancelTaskGraph(db: Db, id: TaskId, now: int): Tx {
    if id !in db.tasks then Abort(NotFound)
    else
      var root := db.tasks[id].fixed.root;
      Commit(db.(
        tasks := map other <- db.tasks ::
          if db.tasks[other].fixed.root == root then CancelledRow(db.tasks[other], now) else db.tasks[other],
        approvals := map key <- db.approvals ::
          var item := db.approvals[key];
          if item.status.Pending? && InGraph(db, root, item.task)
          then item.(status := Denied, decidedAt := Some(now), decidedBy := "task-graph-cancel")
          else item))
  }

  function MarkTaskCancelled(db: Db, id: TaskId, now: int): Tx {
    if id in db.tasks && db.tasks[id].status.CancelRequested?
    then Commit(SetTask(db, id, Bump(db.tasks[id].(status := Cancelled, finishedAt := Some(now)))))
    else Abort(Conflict)
  }

  // ---------------------------------------------------------------- restart recovery

  const UNCERTAIN_TASK := "tool outcome uncertain after restart; manual inspection required"
  const UNCERTAIN_INVOCATION := "tool outcome uncertain after restart"
  const EXHAUSTED := "automatic retry limit exhausted during restart recovery"
  const CANCEL_RECOVERED := "Cancellation recovered after restart"
  const RECOVERED := "Recovered after restart"

  /** A command of the task was started and its end was never recorded. */
  predicate Unsettled(db: Db, id: TaskId) {
    exists key <- db.invocations :: db.invocations[key].task == id && db.invocations[key].status.Started?
  }

  /** Which of the four recovery updates applies to a row. */
  datatype Recovery = Untouched | Uncertain | StoppedByUser | OutOfRetries | BackToQueue

  function RecoveryOf(db: Db, id: TaskId): Recovery
    requires id in db.tasks
  {
    var row := db.tasks[id];
    if !row.status.InFlight() then Untouched
    else if row.fixed.kind.Shell? && Unsettled(db, id) then Uncertain
    else if row.status.CancelRequested? then StoppedByUser
    else if row.retryCount >= row.fixed.maxRetries then OutOfRetries
    else BackToQueue
  }

  function RecoveredRow(row: Task, what: Recovery, now: int): Task {
    match what
    case Untouched => row
    case Uncertain =>
      Bump(row.(status := Failed, finishedAt := Some(now), content := row.content.(error := UNCERTAIN_TASK)))
    case StoppedByUser =>
      Bump(row.(status := Cancelled, finishedAt := Some(now),
                content := row.content.(progressMessage := CANCEL_RECOVERED)))
    case OutOfRetries =>
      Bump(row.(status := Failed, finishedAt := Some(now), content := row.content.(error := EXHAUSTED)))
    case BackToQueue =>
      Bump(row.(status := Queued, retryCount := row.retryCount + 1,
                content := row.content.(progressMessage := RECOVERED)))
  }

  /** A task the uncertain update of an earlier recovery with the same clock reading already failed. */
  predicate FailedUncertain(row: Task, now: int) {
    row.fixed.kind.Shell? && row.status.Failed? && row.content.error == UNCERTAIN_TASK && row.finishedAt == Some(now)
  }

  function RecoveredInvocation(db: Db, item: Invocation, now: int): Invocation {
    if && item.status.Started?
       && item.task in db.tasks
       && (RecoveryOf(db, item.task).Uncertain? || FailedUncertain(db.tasks[item.task], now))
    then item.(status := Broken, finishedAt := Some(now), output := None, error := UNCERTAIN_INVOCATION)
    else item
  }

  function RecoverInterruptedTasks(db: Db, now: int): Db {
    db.(
      tasks := map id <- db.tasks :: RecoveredRow(db.tasks[id], RecoveryOf(db, id), now),
      invocations := map key <- db.invocations :: RecoveredInvocation(db, db.invocations[key], now))
  }

  // ---------------------------------------------------------------- approvals and invocations

  function TimedOutRow(row: Task, now: int): Task {
    Bump(row.(status := TimedOut, finishedAt := Some(now), content := row.content.(error := "approval expired")))
  }

  function DecidedRow(row: Task, approved: bool, now: int): Task {
    Bump(row.(
      status := if approved then Queued else Cancelled,
      finishedAt := if approved then None else Some(now)))
  }

  /** A decision that comes too late commits the expiry and still reports an error. */
  datatype Decision = Decided(db: Db) | Lapsed(db: Db) | Refused(error: Error) {
    function Over(before: Db): Db {
      if Refused? then before else db
    }

    function Problem(): Option<Error> {
      match this
      case Decided(_) => None
      case Lapsed(_) => Some(TooLate)
      case Refused(error) => Some(error)
    }
  }

  function DecidedApproval(item: Approval, actor: string, approved: bool, now: int): Approval {
    item.(
      status := if approved then Consumed else Denied,
      decidedAt := Some(now),
      decidedBy := actor,
      consumedAt := if approved then Some(now) else None)
  }

  function DecideApproval(db: Db, key: ApprovalId, actor: string, approved: bool, now: int): Decision {
    if key !in db.approvals then Refused(NotFound)
    else
      var item := db.approvals[key];
      if !item.status.Pending? then Refused(Conflict)
      else if item.task !in db.tasks then Refused(if item.expiresAt <= now then NotFound else Conflict)
      else
        var row := db.tasks[item.task];
        if item.expiresAt <= now then
          Lapsed(db.(
            approvals := db.approvals[key := item.(status := Expired, decidedAt := Some(now))],
            tasks := db.tasks[item.task := if row.status.WaitingForApproval? then TimedOutRow(row, now) else row]))
        else if !row.status.WaitingForApproval? then Refused(Conflict)
        else
          Decided(db.(
            approvals := db.approvals[key := DecidedApproval(item, actor, approved, now)],
            tasks := db.tasks[item.task := DecidedRow(row, approved, now)]))
  }

  predicate Expiring(item: Approval, now: int) {
    item.status.Pending? && item.expiresAt <= now
  }

  predicate LosesApproval(db: Db, id: TaskId, now: int) {
    exists key <- db.approvals :: db.approvals[key].task == id && Expiring(db.approvals[key], now)
  }

  function ExpireApprovals(db: Db, now: int): Db {
    db.(
      approvals := map key <- db.approvals ::
        if Expiring(db.approvals[key], now)
        then db.approvals[key].(status := Expired, decidedAt := Some(now)) else db.approvals[key],
      tasks := map id <- db.tasks ::
        var row := db.tasks[id];
        if row.status.WaitingForApproval? && LosesApproval(db, id, now)
        then TimedOutRow(row, now) else row)
  }

  function StartToolInvocation(db: Db, id: TaskId, input: string): Tx {
    if InvocationKey(id) in db.invocations then Abort(Conflict)
    else if id !in db.tasks then Abort(NotFound)
    else Commit(db.(invocations := db.invocations[InvocationKey(id) := Invocation(id, input, Started, None, None, "")]))
  }

  function FinishToolInvocation(db: Db, key: string, output: string, error: Option<string>, now: int): Tx {
    if key !in db.invocations then Abort(NotFound)
    else
      var item := db.invocations[key];
      if !item.status.Started? then Abort(Conflict)
      else if item.task !in db.tasks then Abort(NotFound)
      else Commit(db.(invocations := db.invocations[key := item.(
        status := if error.Some? then Broken else Succeeded,
        finishedAt := Some(now),
        output := NullableRaw(output),
        error := if error.Some? then error.value else "")]))
  }

  // ---------------------------------------------------------------- creation

  /** INSERT INTO tasks under its primary key and its UNIQUE idempotency key. */
  function InsertTask(db: Db, id: TaskId, row: Task): Tx {
    if id in db.tasks || row.fixed.idempotencyKey in db.taskKeys then Abort(Conflict)
    else
      Commit(db.(
        tasks := db.tasks[id := if row.version == 0 then row.(version := 1) else row],
        taskKeys := db.taskKeys[row.fixed.idempotencyKey := id]))
  }

  /** Node after node, each one checked to belong to the root first. */
  function InsertTasks(db: Db, rows: seq<(TaskId, Task)>, root: TaskId): Tx
    decreases |rows|
  {
    if rows == [] then Commit(db)
    else if rows[0].1.fixed.root != root then Abort(Rejected)
    else
      var first := InsertTask(db, rows[0].0, rows[0].1);
      if first.Abort? then first else InsertTasks(first.db, rows[1..], root)
  }

  predicate WaitsUnapproved(db: Db, id: TaskId) {
    && id in db.tasks
    && db.tasks[id].status.WaitingForApproval?
    && forall key <- db.approvals :: db.approvals[key].task != id
  }

  /** Replaying a request returns the first task; a waiting task that lost its approval gets it back. */
  function RepairApproval(db: Db, id: TaskId, requested: Option<Approval>): Tx {
    if requested.None? || !WaitsUnapproved(db, id) then Commit(db)
    else
      var row := db.tasks[id];
      if row.fixed.allowedTools != [requested.value.tool] || requested.value.arguments != row.content.input
      then Abort(Conflict)
      else if ApprovalKey(id) in db.approvals then Abort(Conflict)
      else Commit(db.(approvals := db.approvals[ApprovalKey(id) := requested.value.(task := id)]))
  }

  function CreateTaskWithApproval(db: Db, id: TaskId, row: Task, requested: Option<Approval>): Tx {
    if row.fixed.idempotencyKey in db.taskKeys
    then RepairApproval(db, db.taskKeys[row.fixed.idempotencyKey], requested)
    else
      var inserted := InsertTask(db, id, row);
      if inserted.Abort? || requested.None? then inserted
      else if ApprovalKey(id) in db.approvals then Abort(Conflict)
      else Commit(inserted.db.(approvals := db.approvals[ApprovalKey(id) := requested.value.(task := id)]))
  }

  function Edges(pairs: seq<(TaskId, TaskId)>): set<(TaskId, TaskId)> {
    set pair <- pairs
  }

  /** The dependency rows satisfy the primary key, both foreign keys and the check against self-dependency. */
  predicate Insertable(db: Db, pairs: seq<(TaskId, TaskId)>) {
    && (forall i, j | 0 <= i < j < |pairs| :: pairs[i] != pairs[j])
    && (forall pair <- pairs :: pair !in db.deps && pair.0 in db.tasks && pair.1 in db.tasks && pair.0 != pair.1)
  }

  /** All nodes and dependencies of a graph become visible together; the first node is the root. */
  function CreateTaskGraph(db: Db, rows: seq<(TaskId, Task)>, deps: seq<(TaskId, TaskId)>): Tx {
    if rows == [] then Abort(Rejected)
    else if rows[0].1.fixed.idempotencyKey in db.taskKeys then Commit(db)
    else
      var inserted := InsertTasks(db, rows, rows[0].0);
      if inserted.Abort? then inserted
      else if !Insertable(inserted.db, deps) then Abort(Rejected)
      else Commit(inserted.db.(deps := inserted.db.deps + Edges(deps)))
  }

  /** The star that delegation builds: the root waits for every other node. */
  function StarEdges(rows: seq<(TaskId, Task)>): (edges: seq<(TaskId, TaskId)>)
    requires rows != []
    ensures |edges| == |rows| - 1
  {
    seq(|rows| - 1, i requires 0 <= i < |rows| - 1 => (rows[0].0, rows[i + 1].0))
  }

  /** The conversation is the one that has the external key, or a new one if none has. */
  predicate Resolves(db: Db, id: ConversationId, record: Conversation) {
    if id in db.conversations then db.conversations[id].externalKey == record.externalKey
    else forall other <- db.conversations :: db.conversations[other].externalKey != record.externalKey
  }

  /** The upsert by external key; a title that expired is given back. */
  function OpenConversation(db: Db, id: ConversationId, record: Conversation): Db {
    db.(conversations := db.conversations[id :=
      if id !in db.conversations then record
      else
        var known := db.conversations[id];
        known.(updatedAt := record.updatedAt,
               title := if known.retained && known.title == EXPIRED_MARKER then record.title else known.title)])
  }

  /** A request may switch the retention of its conversation before its work is created. */
  function ApplyRetention(db: Db, id: ConversationId, record: Conversation, apply: bool): (next: Db)
    ensures next.conversations.Keys == db.conversations.Keys
  {
    if apply then SetTranscriptRetention(db, id, record.retained, record.updatedAt).Over(db) else db
  }

  /** A request's conversation, its retention, its user turn and its task graph become visible together. */
  function CreateAskWork(db: Db, id: ConversationId, record: Conversation, apply: bool, turn: (TurnId, Turn),
                         rows: seq<(TaskId, Task)>): Tx {
    if rows == [] then Abort(Rejected)
    else if rows[0].1.fixed.idempotencyKey in db.taskKeys then Commit(db)
    else if !Resolves(db, id, record) then Abort(Rejected)
    else
      var known := ApplyRetention(OpenConversation(db, id, record), id, record, apply);
      CreateTaskGraph(InsertTurn(known, turn.0, turn.1.(conversation := id), known.conversations[id].retained),
                      rows, StarEdges(rows))
  }

  // ---------------------------------------------------------------- erasure

  function ErasedContent(marker: string): Content {
    Content(marker, "{}", "", "", None, marker, [])
  }

  function ScrubEvents(db: Db, conversationKey: string): Db {
    db.(events := map key <- db.events ::
      if db.events[key].conversationKey == conversationKey
      then db.events[key].(payload := "{}") else db.events[key])
  }

  predicate InGraphs(db: Db, roots: set<TaskId>, id: TaskId) {
    id in db.tasks && db.tasks[id].fixed.root in roots
  }

  function ErasedInvocation(item: Invocation): Invocation {
    item.(input := "{}", output := None, error := "")
  }

  /** A pending approval keeps what it asks for. */
  function ErasedApproval(item: Approval): Approval {
    if item.status.Denied? || item.status.Expired? || item.status.Consumed?
    then item.(arguments := "{}", scopes := [], reason := NOT_RETAINED_MARKER) else item
  }

  /** An open delivery keeps its target. */
  function ErasedDelivery(item: Delivery): Delivery {
    if item.status.Delivered? || item.status.Undeliverable? then item.(target := "{}", lastError := "") else item
  }

  /** Erases the content of whole graphs and touches nothing the scheduler reads. */
  function ScrubGraphs(db: Db, roots: set<TaskId>): Db {
    db.(
      artifacts := map key <- db.artifacts | !InGraphs(db, roots, db.artifacts[key]) :: db.artifacts[key],
      invocations := map key <- db.invocations ::
        if InGraphs(db, roots, db.invocations[key].task)
        then ErasedInvocation(db.invocations[key]) else db.invocations[key],
      approvals := map key <- db.approvals ::
        if InGraphs(db, roots, db.approvals[key].task)
        then ErasedApproval(db.approvals[key]) else db.approvals[key],
      deliveries := map key <- db.deliveries ::
        if InGraphs(db, roots, db.deliveries[key].task)
        then ErasedDelivery(db.deliveries[key]) else db.deliveries[key],
      tasks := map id <- db.tasks ::
        if db.tasks[id].fixed.root in roots
        then db.tasks[id].(content := ErasedContent(NOT_RETAINED_MARKER)) else db.tasks[id])
  }

  /** The graph's root row belongs to a conversation whose transcript is not kept. */
  predicate NotRetained(db: Db, root: TaskId) {
    && root in db.tasks
    && var conversation := db.tasks[root].fixed.conversation;
    && conversation.Some? && conversation.value in db.conversations && !db.conversations[conversation.value].retained
  }

  function ScrubTerminalTaskGraph(db: Db, root: TaskId): Db {
    if !NotRetained(db, root) || GraphActive(db, root) then db
    else
      var conversation := db.conversations[db.tasks[root].fixed.conversation.value];
      ScrubGraphs(ScrubEvents(db, conversation.externalKey), {root})
  }

  /** The fully terminal graphs that have a node in the conversation. */
  function SettledGraphs(db: Db, conversation: ConversationId): set<TaskId> {
    set id <- db.tasks
      | db.tasks[id].fixed.conversation == Some(conversation) && !GraphActive(db, db.tasks[id].fixed.root)
      :: db.tasks[id].fixed.root
  }

  function SetTranscriptRetention(db: Db, id: ConversationId, enabled: bool, now: int): Tx {
    if id !in db.conversations then Abort(NotFound)
    else if enabled then
      Commit(db.(conversations := db.conversations[id := db.conversations[id].(retained := true, updatedAt := now)]))
    else
      var quiet := ScrubEvents(db, db.conversations[id].externalKey).(
        turns := map key <- db.turns | db.turns[key].conversation != id :: db.turns[key],
        conversations := db.conversations[id := db.conversations[id].(
          retained := false, title := NOT_RETAINED_MARKER, updatedAt := now)]);
      Commit(ScrubGraphs(quiet, SettledGraphs(quiet, id)))
  }
}
