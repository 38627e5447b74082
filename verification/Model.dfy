/**
 The rows of the store, as values.

 A task row is split in three by who may write it: `fixed` holds the columns that no statement
 writes after the INSERT, `content` holds exactly the columns that a scrub or a retention sweep
 erases, and the remaining fields are the scheduling state.
 */
module Model {

  datatype Option<+T> = None | Some(value: T)

  type TaskId = string
  type ConversationId = string
  type ApprovalId = string
  type TurnId = string
  type DeliveryId = string

  datatype Status =
    | Created
    | Queued
    | Assigned
    | Running
    | WaitingForChildren
    | WaitingForApproval
    | Blocked
    | Completed
    | PartiallyCompleted
    | Failed
    | CancelRequested
    | Cancelled
    | TimedOut
  {
    predicate Terminal() {
      Completed? || PartiallyCompleted? || Failed? || Cancelled? || TimedOut?
    }

    /** A worker may be executing the task, or died while it was. */
    predicate InFlight() {
      Assigned? || Running? || CancelRequested?
    }

    predicate Succeeded() {
      Completed? || PartiallyCompleted?
    }

    /** The states an explicit retry starts from. */
    predicate Retryable() {
      Failed? || TimedOut? || Cancelled? || PartiallyCompleted?
    }

    /** The states a graph cancellation ends at once. */
    predicate NotYetClaimed() {
      Created? || Queued? || WaitingForApproval? || Blocked?
    }
  }

  /** The task types that the store and the runtime tell apart. */
  datatype Kind = Shell | Synthesis | Delegated(name: string)

  datatype Fixed = Fixed(
    root: TaskId,
    conversation: Option<ConversationId>,
    kind: Kind,
    agent: string,
    createdAt: int,
    maxRetries: nat,
    correlation: string,
    causation: Option<string>,
    allowedTools: seq<string>,
    idempotencyKey: string)

  datatype Content = Content(
    goal: string,
    input: string,
    progressMessage: string,
    error: string,
    result: Option<string>,
    summary: string,
    artifacts: seq<string>)

  datatype Task = Task(
    fixed: Fixed,
    status: Status,
    progress: int,
    startedAt: Option<int>,
    finishedAt: Option<int>,
    retryCount: nat,
    version: nat,
    priority: int,
    dismissed: bool,
    content: Content)

  datatype ApprovalStatus = Pending | Approved | Denied | Expired | Consumed

  datatype Approval = Approval(
    task: TaskId,
    tool: string,
    arguments: string,
    scopes: seq<string>,
    reason: string,
    status: ApprovalStatus,
    expiresAt: int,
    decidedAt: Option<int>,
    decidedBy: string,
    consumedAt: Option<int>)

  datatype InvocationStatus = Started | Succeeded | Broken

  datatype Invocation = Invocation(
    task: TaskId,
    input: string,
    status: InvocationStatus,
    finishedAt: Option<int>,
    output: Option<string>,
    error: string)

  datatype Conversation = Conversation(externalKey: string, title: string, retained: bool, updatedAt: int)

  datatype Turn = Turn(conversation: ConversationId, text: string, createdAt: int)

  datatype DeliveryStatus = Outstanding | Delivering | Delivered | Undeliverable

  datatype Delivery = Delivery(
    task: TaskId,
    target: string,
    status: DeliveryStatus,
    lastError: string,
    idempotencyKey: string)

  datatype Event = Event(
    conversationKey: string,
    payload: string,
    replyTarget: string,
    actorName: string,
    processed: bool,
    processingError: Option<string>,
    receivedAt: int)

  datatype Audit = Audit(occurredAt: int, task: Option<TaskId>, correlation: string)

  /**
   The database. `taskKeys` is the UNIQUE index on tasks.idempotency_key, `invocations` is keyed by
   its own UNIQUE idempotency key, and `artifacts` records only the owner of each metadata row.
   */
  datatype Db = Db(
    tasks: map<TaskId, Task>,
    taskKeys: map<string, TaskId>,
    deps: set<(TaskId, TaskId)>,
    approvals: map<ApprovalId, Approval>,
    invocations: map<string, Invocation>,
    conversations: map<ConversationId, Conversation>,
    turns: map<TurnId, Turn>,
    deliveries: map<DeliveryId, Delivery>,
    events: map<string, Event>,
    artifacts: map<string, TaskId>,
    audits: map<string, Audit>)

  datatype Error = NotFound | Conflict | TooLate | Rejected

  /** A transaction either commits a new database or leaves the old one in place. */
  datatype Tx = Commit(db: Db) | Abort(error: Error) {
    function Over(before: Db): Db {
      if Commit? then db else before
    }

    function Problem(): Option<Error> {
      if Commit? then None else Some(error)
    }
  }

  const EMPTY_DB := Db(map[], map[], {}, map[], map[], map[], map[], map[], map[], map[], map[])

  const EXPIRED_MARKER := "[expired by retention policy]"
  const NOT_RETAINED_MARKER := "[transcript retention disabled]"
  const SYNTHESIZER := "builtin.synthesizer"

  predicate Contains(text: string, part: string) {
    part <= text || (text != "" && Contains(text[1..], part))
  }

  /** The stored command asks for a dry run: the member of its compact JSON encoding. */
  predicate DryRun(input: string) {
    Contains(input, "\"dry_run\":true")
  }

  function ApprovalKey(id: TaskId): ApprovalId { "approval:" + id }

  function InvocationKey(id: TaskId): string { "shell:" + id }

  /** Some node of the graph still has work to do. */
  predicate GraphActive(db: Db, root: TaskId) {
    exists id :: id in db.tasks && db.tasks[id].fixed.root == root && !db.tasks[id].status.Terminal()
  }

  /** The row exists and belongs to the graph. */
  predicate InGraph(db: Db, root: TaskId, id: TaskId) {
    id in db.tasks && db.tasks[id].fixed.root == root
  }
}
