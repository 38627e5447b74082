/**
 The retention sweep: which rows a cutoff reaches, what is erased, and how sweeps compose.
 */
module Retention {
  import opened Model
  import opened Transactions

  // ---------------------------------------------------------------- who is protected

  predicate DeliveryOpen(item: Delivery) { !(item.status.Delivered? || item.status.Undeliverable?) }

  predicate InvocationOpen(item: Invocation) { item.status.Started? }

  predicate ApprovalOpen(item: Approval) { !(item.status.Denied? || item.status.Expired? || item.status.Consumed?) }

  /** A graph still owes a delivery, a tool result or a decision. */
  predicate GraphOwes(db: Db, root: TaskId) {
    || (exists key <- db.deliveries :: InGraph(db, root, db.deliveries[key].task) && DeliveryOpen(db.deliveries[key]))
    || (exists key <- db.invocations :: InGraph(db, root, db.invocations[key].task) && InvocationOpen(db.invocations[key]))
    || (exists key <- db.approvals :: InGraph(db, root, db.approvals[key].task) && ApprovalOpen(db.approvals[key]))
  }

  predicate Protected(row: Task, owing: bool) {
    !row.status.Terminal() || owing
  }

  function LastChange(row: Task): int {
    if row.finishedAt.Some? then row.finishedAt.value else row.fixed.createdAt
  }

  /** The query over task graphs: every node terminal and older than the cutoff, nothing owed. */
  predicate Eligible(db: Db, root: TaskId, cutoff: int) {
    && (exists id <- db.tasks :: db.tasks[id].fixed.root == root)
    && (forall id <- db.tasks :: db.tasks[id].fixed.root == root ==>
          db.tasks[id].status.Terminal() && LastChange(db.tasks[id]) < cutoff)
    && !GraphOwes(db, root)
  }

  predicate InEligible(db: Db, id: TaskId, cutoff: int) {
    id in db.tasks && Eligible(db, db.tasks[id].fixed.root, cutoff)
  }

  /** Some task of the conversation is protected. */
  predicate ConversationBusy(db: Db, conversation: ConversationId) {
    exists id <- db.tasks ::
      && db.tasks[id].fixed.conversation == Some(conversation)
      && Protected(db.tasks[id], GraphOwes(db, db.tasks[id].fixed.root))
  }

  predicate Concerns(db: Db, row: Task, key: string, conversationKey: string) {
    || row.fixed.causation == Some(key)
    || (row.fixed.conversation.Some? && row.fixed.conversation.value in db.conversations
        && db.conversations[row.fixed.conversation.value].externalKey == conversationKey)
  }

  predicate EventBusy(db: Db, key: string, conversationKey: string) {
    exists id <- db.tasks ::
      && Concerns(db, db.tasks[id], key, conversationKey)
      && Protected(db.tasks[id], GraphOwes(db, db.tasks[id].fixed.root))
  }

  // ---------------------------------------------------------------- which rows each statement reaches

  predicate TurnExpires(db: Db, key: TurnId, cutoff: int)
    requires key in db.turns
  {
    db.turns[key].createdAt < cutoff && !ConversationBusy(db, db.turns[key].conversation)
  }

  predicate ConversationExpires(db: Db, key: ConversationId, cutoff: int)
    requires key in db.conversations
  {
    var item := db.conversations[key];
    item.retained && item.title != EXPIRED_MARKER && item.updatedAt < cutoff && !ConversationBusy(db, key)
  }

  predicate EventCarriesContent(item: Event) {
    item.payload != "{}" || item.replyTarget != "{}" || item.actorName != ""
    || (item.processingError.Some? && item.processingError.value != "")
  }

  predicate EventExpires(db: Db, key: string, cutoff: int)
    requires key in db.events
  {
    var item := db.events[key];
    item.processed && item.receivedAt < cutoff && EventCarriesContent(item) && !EventBusy(db, key, item.conversationKey)
  }

  predicate InvocationExpires(db: Db, key: string, cutoff: int)
    requires key in db.invocations
  {
    var item := db.invocations[key];
    InEligible(db, item.task, cutoff) && (item.input != "{}" || item.output.Some? || item.error != "")
  }

  predicate ApprovalExpires(db: Db, key: ApprovalId, cutoff: int)
    requires key in db.approvals
  {
    var item := db.approvals[key];
    InEligible(db, item.task, cutoff) && (item.arguments != "{}" || item.reason != EXPIRED_MARKER)
  }

  predicate DeliveryExpires(db: Db, key: DeliveryId, cutoff: int)
    requires key in db.deliveries
  {
    var item := db.deliveries[key];
    InEligible(db, item.task, cutoff) && !DeliveryOpen(item) && (item.target != "{}" || item.lastError != "")
  }

  predicate TaskExpires(db: Db, id: TaskId, cutoff: int)
    requires id in db.tasks
  {
    InEligible(db, id, cutoff) && db.tasks[id].content != ErasedContent(EXPIRED_MARKER)
  }

  predicate AuditExpires(db: Db, key: string, cutoff: int)
    requires key in db.audits
  {
    var item := db.audits[key];
    && item.occurredAt < cutoff
    && if item.task.Some? then InEligible(db, item.task.value, cutoff)
       else forall id <- db.tasks :: db.tasks[id].fixed.correlation == item.correlation ==> InEligible(db, id, cutoff)
  }

  // ---------------------------------------------------------------- the nine statements

  function SweepTurns(db: Db, cutoff: int): Db {
    db.(turns := map key <- db.turns | !TurnExpires(db, key, cutoff) :: db.turns[key])
  }

  function SweepConversations(db: Db, cutoff: int): Db {
    db.(conversations := map key <- db.conversations ::
      if ConversationExpires(db, key, cutoff)
      then db.conversations[key].(title := EXPIRED_MARKER) else db.conversations[key])
  }

  function SweepEvents(db: Db, cutoff: int): Db {
    db.(events := map key <- db.events ::
      if EventExpires(db, key, cutoff)
      then db.events[key].(payload := "{}", replyTarget := "{}", actorName := "", processingError := Some(""))
      else db.events[key])
  }

  function SweepArtifacts(db: Db, cutoff: int): Db {
    db.(artifacts := map key <- db.artifacts | !InEligible(db, db.artifacts[key], cutoff) :: db.artifacts[key])
  }

  function SweepInvocations(db: Db, cutoff: int): Db {
    db.(invocations := map key <- db.invocations ::
      if InvocationExpires(db, key, cutoff)
      then db.invocations[key].(input := "{}", output := None, error := "") else db.invocations[key])
  }

  function SweepApprovals(db: Db, cutoff: int): Db {
    db.(approvals := map key <- db.approvals ::
      if ApprovalExpires(db, key, cutoff)
      then db.approvals[key].(arguments := "{}", reason := EXPIRED_MARKER) else db.approvals[key])
  }

  function SweepDeliveries(db: Db, cutoff: int): Db {
    db.(deliveries := map key <- db.deliveries ::
      if DeliveryExpires(db, key, cutoff)
      then db.deliveries[key].(target := "{}", lastError := "") else db.deliveries[key])
  }

  function SweepTasks(db: Db, cutoff: int): Db {
    db.(tasks := map id <- db.tasks ::
      if TaskExpires(db, id, cutoff)
      then db.tasks[id].(content := ErasedContent(EXPIRED_MARKER)) else db.tasks[id])
  }

  function SweepAudits(db: Db, cutoff: int): Db {
    db.(audits := map key <- db.audits | !AuditExpires(db, key, cutoff) :: db.audits[key])
  }

  /** The whole sweep, each table judged against the database the sweep started from. */
  function Sweep(db: Db, cutoff: int): Db {
    db.(
      turns := SweepTurns(db, cutoff).turns,
      conversations := SweepConversations(db, cutoff).conversations,
      events := SweepEvents(db, cutoff).events,
      artifacts := SweepArtifacts(db, cutoff).artifacts,
      invocations := SweepInvocations(db, cutoff).invocations,
      approvals := SweepApprovals(db, cutoff).approvals,
      deliveries := SweepDeliveries(db, cutoff).deliveries,
      tasks := SweepTasks(db, cutoff).tasks,
      audits := SweepAudits(db, cutoff).audits)
  }

  // ---------------------------------------------------------------- what protection depends on

  ghost predicate SameTasks(db: Db, next: Db) {
    && next.tasks.Keys == db.tasks.Keys
    && (forall id :: id in db.tasks ==>
          && next.tasks[id].fixed == db.tasks[id].fixed
          && next.tasks[id].status == db.tasks[id].status
          && next.tasks[id].finishedAt == db.tasks[id].finishedAt)
  }

  ghost predicate SameDebts(db: Db, next: Db) {
    && next.deliveries.Keys == db.deliveries.Keys
    && (forall key :: key in db.deliveries ==>
          next.deliveries[key].task == db.deliveries[key].task && next.deliveries[key].status == db.deliveries[key].status)
    && next.invocations.Keys == db.invocations.Keys
    && (forall key :: key in db.invocations ==>
          next.invocations[key].task == db.invocations[key].task && next.invocations[key].status == db.invocations[key].status)
    && next.approvals.Keys == db.approvals.Keys
    && (forall key :: key in db.approvals ==>
          next.approvals[key].task == db.approvals[key].task && next.approvals[key].status == db.approvals[key].status)
  }

  ghost predicate SameTopics(db: Db, next: Db) {
    && next.conversations.Keys == db.conversations.Keys
    && (forall key :: key in db.conversations ==>
          next.conversations[key].externalKey == db.conversations[key].externalKey)
  }

  /** The two databases agree on everything that decides protection and eligibility. */
  ghost predicate SameStanding(db: Db, next: Db) {
    SameTasks(db, next) && SameDebts(db, next) && SameTopics(db, next)
  }

  lemma OwesDependsOnStanding(db: Db, next: Db, root: TaskId)
    requires SameStanding(db, next)
    ensures GraphOwes(next, root) == GraphOwes(db, root)
  {}

  lemma EligibleDependsOnStanding(db: Db, next: Db, root: TaskId, cutoff: int)
    requires SameStanding(db, next)
    ensures Eligible(next, root, cutoff) == Eligible(db, root, cutoff)
  {
    OwesDependsOnStanding(db, next, root);
  }

  lemma InEligibleDependsOnStanding(db: Db, next: Db, id: TaskId, cutoff: int)
    requires SameStanding(db, next)
    ensures InEligible(next, id, cutoff) == InEligible(db, id, cutoff)
  {
    if id in db.tasks {
      EligibleDependsOnStanding(db, next, db.tasks[id].fixed.root, cutoff);
    }
  }

  lemma BusyDependsOnStanding(db: Db, next: Db, conversation: ConversationId)
    requires SameStanding(db, next)
    ensures ConversationBusy(next, conversation) == ConversationBusy(db, conversation)
  {
    forall id | id in db.tasks ensures GraphOwes(next, db.tasks[id].fixed.root) == GraphOwes(db, db.tasks[id].fixed.root) {
      OwesDependsOnStanding(db, next, db.tasks[id].fixed.root);
    }
  }

  lemma EventBusyDependsOnStanding(db: Db, next: Db, key: string, conversationKey: string)
    requires SameStanding(db, next)
    ensures EventBusy(next, key, conversationKey) == EventBusy(db, key, conversationKey)
  {
    forall id | id in db.tasks
      ensures GraphOwes(next, db.tasks[id].fixed.root) == GraphOwes(db, db.tasks[id].fixed.root)
      ensures Concerns(next, next.tasks[id], key, conversationKey) == Concerns(db, db.tasks[id], key, conversationKey)
    {
      OwesDependsOnStanding(db, next, db.tasks[id].fixed.root);
    }
  }
}
