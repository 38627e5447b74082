/**
 What any transaction may do to the rows that already exist. Every transaction of the store is
 proved to stay inside `Evolves`; the theorems about whole runs use nothing else about most of them.
 */
module Evolution {
  import opened Model
  import opened Transactions

  /** A new attempt: the only moves that raise retry_count, and the only moves out of a terminal state. */
  predicate NewAttempt(a: Task, b: Task) {
    && b.status.Queued?
    && b.retryCount == a.retryCount + 1 <= a.fixed.maxRetries
    && ( || a.status.Assigned?
         || a.status.Running?
         || (a.status.Retryable() && !a.fixed.kind.Shell? && !a.dismissed))
  }

  /** The moves inside one attempt. */
  predicate SameAttempt(a: Task, b: Task) {
    && b.retryCount == a.retryCount
    && match b.status {
         case Assigned => a.status.Queued?
         case Running => a.status.Assigned?
         case Completed => Completable(a.status)
         case PartiallyCompleted => Completable(a.status)
         case Failed => !a.status.Terminal()
         case TimedOut => !a.status.Terminal()
         case Cancelled => a.status.NotYetClaimed() || a.status.CancelRequested?
         case CancelRequested => a.status.Assigned? || a.status.Running? || a.status.WaitingForChildren?
         case Queued => a.status.WaitingForApproval?
         case _ => false
       }
  }

  predicate Moved(a: Task, b: Task) {
    && b.version == a.version + 1
    && b.dismissed == a.dismissed
    && (b.status.Terminal() || b.content.input == a.content.input)
    && (NewAttempt(a, b) || SameAttempt(a, b))
  }

  predicate Touched(a: Task, b: Task) {
    && b.version == a.version + 1
    && b.status == a.status
    && b.retryCount == a.retryCount
    && b.content.input == a.content.input
    && (a.dismissed ==> b.dismissed)
    && (b.dismissed ==> a.dismissed || a.status.Terminal())
  }

  /** The only writes that keep the version; they need a terminal row. */
  predicate Erased(a: Task, b: Task) {
    a.status.Terminal() && b == a.(content := b.content)
  }

  predicate RowEvolves(a: Task, b: Task) {
    && a.fixed == b.fixed
    && (a == b || Touched(a, b) || Erased(a, b) || Moved(a, b))
  }

  predicate ApprovalEvolves(a: Approval, b: Approval) {
    && a.task == b.task
    && (b.status == a.status || a.status.Pending?)
    && (b.status.Pending? ==> a == b)
  }

  predicate InvocationEvolves(a: Invocation, b: Invocation) {
    && a.task == b.task
    && (b.status == a.status || a.status.Started?)
  }

  predicate Revives(a: Task, b: Task) {
    a.status.Terminal() && !b.status.Terminal()
  }

  predicate Claims(a: Task, b: Task) {
    a.status.Queued? && b.status.Assigned?
  }

  ghost predicate RowsEvolve(db: Db, next: Db) {
    && next.deps == db.deps
    && next.tasks.Keys == db.tasks.Keys
    && next.taskKeys == db.taskKeys
    && db.conversations.Keys <= next.conversations.Keys
    && (forall id :: id in db.tasks ==> RowEvolves(db.tasks[id], next.tasks[id]))
  }

  /** A terminal node comes back only in the retried graph, and only while that graph's root is queued. */
  ghost predicate RevivesOnly(db: Db, next: Db, retried: Option<TaskId>)
    requires next.tasks.Keys == db.tasks.Keys
  {
    forall id {:trigger Revives(db.tasks[id], next.tasks[id])} ::
      id in db.tasks && Revives(db.tasks[id], next.tasks[id]) ==>
        var root := db.tasks[id].fixed.root;
        retried == Some(root) && root in next.tasks && next.tasks[root].status.Queued?
  }

  /** A node is claimed only when everything it depends on is terminal. */
  ghost predicate ClaimsReady(db: Db, next: Db)
    requires next.tasks.Keys == db.tasks.Keys
  {
    forall id, dep {:trigger Claims(db.tasks[id], next.tasks[id]), (id, dep) in db.deps} ::
      && id in db.tasks && Claims(db.tasks[id], next.tasks[id])
      && (id, dep) in db.deps && dep in db.tasks
      ==> next.tasks[dep].status.Terminal()
  }

  ghost predicate LedgersEvolve(db: Db, next: Db) {
    && next.approvals.Keys == db.approvals.Keys
    && (forall key :: key in db.approvals ==> ApprovalEvolves(db.approvals[key], next.approvals[key]))
    && (forall key :: key in db.invocations ==>
          key in next.invocations && InvocationEvolves(db.invocations[key], next.invocations[key]))
  }

  ghost predicate Evolves(db: Db, next: Db, retried: Option<TaskId>) {
    && RowsEvolve(db, next)
    && RevivesOnly(db, next, retried)
    && ClaimsReady(db, next)
    && LedgersEvolve(db, next)
  }

  /** Rows with this status belong to a worker; a transaction from outside may only ask it to stop. */
  ghost predicate HandsOff(db: Db, next: Db)
    requires next.tasks.Keys == db.tasks.Keys
  {
    forall id :: id in db.tasks && db.tasks[id].status.InFlight() ==>
      && (next.tasks[id].status == db.tasks[id].status || next.tasks[id].status.CancelRequested?)
  }

  /** No row but this one changes status, and no approval is decided. */
  ghost predicate OnlyMoves(db: Db, next: Db, id: TaskId)
    requires next.tasks.Keys == db.tasks.Keys
  {
    && (forall other :: other in db.tasks && other != id ==> next.tasks[other].status == db.tasks[other].status)
    && ApprovalsStand(db, next)
  }

  ghost predicate ApprovalsStand(db: Db, next: Db) {
    forall key :: key in db.approvals ==>
      key in next.approvals && next.approvals[key].status == db.approvals[key].status
  }

  // ---------------------------------------------------------------- worker transactions

  /** A row-level step that neither revives nor claims. */
  predicate PlainStep(a: Task, b: Task) {
    RowEvolves(a, b) && !Revives(a, b) && !Claims(a, b)
  }

  /** It also leaves a worker's row to the worker. */
  predicate QuietStep(a: Task, b: Task) {
    && PlainStep(a, b)
    && (a.status.InFlight() ==> b.status == a.status || b.status.CancelRequested?)
  }

  lemma PlainEvolves(db: Db, next: Db)
    requires next.deps == db.deps && next.tasks.Keys == db.tasks.Keys && next.taskKeys == db.taskKeys
    requires db.conversations.Keys <= next.conversations.Keys
    requires LedgersEvolve(db, next)
    requires forall id :: id in db.tasks ==> PlainStep(db.tasks[id], next.tasks[id])
    ensures Evolves(db, next, None)
  {}

  lemma QuietEvolves(db: Db, next: Db)
    requires next.deps == db.deps && next.tasks.Keys == db.tasks.Keys && next.taskKeys == db.taskKeys
    requires db.conversations.Keys <= next.conversations.Keys
    requires LedgersEvolve(db, next)
    requires forall id :: id in db.tasks ==> QuietStep(db.tasks[id], next.tasks[id])
    ensures Evolves(db, next, None) && HandsOff(db, next)
  {
    PlainEvolves(db, next);
  }

  lemma UnchangedEvolves(db: Db)
    ensures Evolves(db, db, None) && HandsOff(db, db)
  {}

  /** The statements that update one row by its primary key. */
  lemma OneRowEvolves(db: Db, id: TaskId, row: Task)
    requires id in db.tasks && RowEvolves(db.tasks[id], row) && !Revives(db.tasks[id], row)
    requires Claims(db.tasks[id], row) ==> Claimable(db, id)
    ensures Evolves(db, SetTask(db, id, row), None) && OnlyMoves(db, SetTask(db, id, row), id)
  {
    var next := SetTask(db, id, row);
    assert next.tasks.Keys == db.tasks.Keys;
    forall other, dep | other in db.tasks && Claims(db.tasks[other], next.tasks[other])
                        && (other, dep) in db.deps && dep in db.tasks
      ensures next.tasks[dep].status.Terminal()
    {
      assert (other, dep).0 == id;
    }
  }

  lemma ClaimEvolves(db: Db, id: TaskId, next: Db)
    requires next == ClaimTask(db, id).Over(db)
    ensures Evolves(db, next, None) && OnlyMoves(db, next, id)
  {
    var tx := ClaimTask(db, id);
    if tx.Commit? {
      OneRowEvolves(db, id, tx.db.tasks[id]);
    } else {
      UnchangedEvolves(db);
    }
  }

  lemma StartEvolves(db: Db, id: TaskId, version: nat, now: int, next: Db)
    requires next == StartTask(db, id, version, now).Over(db)
    ensures Evolves(db, next, None) && OnlyMoves(db, next, id)
  {
    var tx := StartTask(db, id, version, now);
    if tx.Commit? {
      OneRowEvolves(db, id, tx.db.tasks[id]);
    } else {
      UnchangedEvolves(db);
    }
  }

  lemma CompleteEvolves(db: Db, id: TaskId, answer: Answer, now: int, next: Db)
    requires next == CompleteTask(db, id, answer, now).Over(db)
    ensures Evolves(db, next, None) && OnlyMoves(db, next, id)
  {
    var tx := CompleteTask(db, id, answer, now);
    if tx.Commit? {
      OneRowEvolves(db, id, tx.db.tasks[id]);
    } else {
      UnchangedEvolves(db);
    }
  }

  lemma ScrubEvolves(db: Db, roots: set<TaskId>)
    requires forall id :: id in db.tasks && db.tasks[id].fixed.root in roots ==> db.tasks[id].status.Terminal()
    ensures Evolves(db, ScrubGraphs(db, roots), None) && HandsOff(db, ScrubGraphs(db, roots))
  {
    var next := ScrubGraphs(db, roots);
    assert next.tasks.Keys == db.tasks.Keys;
    forall id | id in db.tasks ensures QuietStep(db.tasks[id], next.tasks[id]) {}
    QuietEvolves(db, next);
  }

  lemma WithholdRows(db: Db, root: TaskId, conversationKey: string, next: Db)
    requires next == Withhold(db, root, conversationKey)
    ensures next.deps == db.deps && next.taskKeys == db.taskKeys && next.conversations == db.conversations
    ensures next.tasks.Keys == db.tasks.Keys && LedgersEvolve(db, next) && ApprovalsStand(db, next)
    ensures forall id :: id in db.tasks ==> next.tasks[id] == db.tasks[id] || Erased(db.tasks[id], next.tasks[id])
  {
    var quiet := ScrubEvents(db, conversationKey);
    if GraphActive(quiet, root) {
      assert next == quiet;
    } else {
      assert next.tasks.Keys == db.tasks.Keys;
    }
  }

  /** A row that completes and is erased in the same commit. */
  lemma CompletedRowEvolves(row: Task, answer: Answer, now: int, next: Task)
    requires Completable(row.status)
    requires next == CompletedRow(row, answer, now) || Erased(CompletedRow(row, answer, now), next)
    ensures PlainStep(row, next)
  {}

  lemma TellEvolves(db: Db, id: TaskId, answer: Answer, now: int, told: Db, next: Db)
    requires id in db.tasks && Completable(db.tasks[id].status)
    requires told == SetTask(db, id, CompletedRow(db.tasks[id], answer, now)).(
                       turns := told.turns, deliveries := told.deliveries)
    requires next.deps == told.deps && next.taskKeys == told.taskKeys && next.conversations == told.conversations
    requires next.tasks.Keys == told.tasks.Keys && LedgersEvolve(told, next) && ApprovalsStand(told, next)
    requires forall other :: other in told.tasks ==>
               next.tasks[other] == told.tasks[other] || Erased(told.tasks[other], next.tasks[other])
    ensures Evolves(db, next, None) && OnlyMoves(db, next, id)
  {
    assert next.tasks.Keys == db.tasks.Keys;
    forall other | other in db.tasks ensures PlainStep(db.tasks[other], next.tasks[other]) {
      if other == id {
        CompletedRowEvolves(db.tasks[id], answer, now, next.tasks[id]);
      }
    }
    PlainEvolves(db, next);
  }

  /** What a root's completion commits when the transcript is kept. */
  lemma KeptOutcome(db: Db, id: TaskId, answer: Answer, outcome: Outcome, now: int, next: Db)
    requires CompleteTaskWithOutcome(db, id, answer, outcome, now) == Commit(next)
    requires var conversation := db.tasks[id].fixed.conversation;
             conversation.None? || db.conversations[conversation.value].retained
    ensures next == Announce(SetTask(db, id, CompletedRow(db.tasks[id], answer, now)), outcome, true)
  {}

  /** And when it is not. */
  lemma WithheldOutcome(db: Db, id: TaskId, answer: Answer, outcome: Outcome, now: int, next: Db)
    requires CompleteTaskWithOutcome(db, id, answer, outcome, now) == Commit(next)
    requires var conversation := db.tasks[id].fixed.conversation;
             conversation.Some? && !db.conversations[conversation.value].retained
    ensures next == Withhold(Announce(SetTask(db, id, CompletedRow(db.tasks[id], answer, now)), outcome, false), id,
                             db.conversations[db.tasks[id].fixed.conversation.value].externalKey)
  {}

  lemma OutcomeCommitEvolves(db: Db, id: TaskId, answer: Answer, outcome: Outcome, now: int, next: Db)
    requires CompleteTaskWithOutcome(db, id, answer, outcome, now) == Commit(next)
    ensures Evolves(db, next, None) && OnlyMoves(db, next, id)
  {
    var conversation := db.tasks[id].fixed.conversation;
    var done := SetTask(db, id, CompletedRow(db.tasks[id], answer, now));
    if conversation.None? || db.conversations[conversation.value].retained {
      KeptOutcome(db, id, answer, outcome, now, next);
      AnnouncedEvolves(db, id, answer, outcome, true, now, next);
    } else {
      WithheldOutcome(db, id, answer, outcome, now, next);
      var told := Announce(done, outcome, false);
      WithholdRows(told, id, db.conversations[conversation.value].externalKey, next);
      TellEvolves(db, id, answer, now, told, next);
    }
  }

  lemma AnnouncedEvolves(db: Db, id: TaskId, answer: Answer, outcome: Outcome, retain: bool, now: int, next: Db)
    requires id in db.tasks && Completable(db.tasks[id].status)
    requires next == Announce(SetTask(db, id, CompletedRow(db.tasks[id], answer, now)), outcome, retain)
    ensures Evolves(db, next, None) && OnlyMoves(db, next, id)
  {
    TellEvolves(db, id, answer, now, next, next);
  }

  lemma OutcomeEvolves(db: Db, id: TaskId, answer: Answer, outcome: Outcome, now: int, next: Db)
    requires next == CompleteTaskWithOutcome(db, id, answer, outcome, now).Over(db)
    ensures Evolves(db, next, None) && OnlyMoves(db, next, id)
  {
    if CompleteTaskWithOutcome(db, id, answer, outcome, now).Abort? {
      UnchangedEvolves(db);
    } else {
      OutcomeCommitEvolves(db, id, answer, outcome, now, next);
    }
  }

  lemma FailEvolves(db: Db, id: TaskId, error: string, timedOut: bool, now: int, next: Db)
    requires next == FailTask(db, id, error, timedOut, now).Over(db)
    ensures Evolves(db, next, None) && OnlyMoves(db, next, id)
  {
    var tx := FailTask(db, id, error, timedOut, now);
    if tx.Commit? {
      OneRowEvolves(db, id, tx.db.tasks[id]);
    } else {
      UnchangedEvolves(db);
    }
  }

  lemma RequeueEvolves(db: Db, id: TaskId, error: string, next: Db)
    requires next == RequeueTask(db, id, error).Over(db)
    ensures Evolves(db, next, None) && OnlyMoves(db, next, id)
  {
    var tx := RequeueTask(db, id, error);
    if tx.Commit? {
      OneRowEvolves(db, id, tx.db.tasks[id]);
    } else {
      UnchangedEvolves(db);
    }
  }

  lemma MarkCancelledEvolves(db: Db, id: TaskId, now: int, next: Db)
    requires next == MarkTaskCancelled(db, id, now).Over(db)
    ensures Evolves(db, next, None) && OnlyMoves(db, next, id)
  {
    var tx := MarkTaskCancelled(db, id, now);
    if tx.Commit? {
      OneRowEvolves(db, id, tx.db.tasks[id]);
    } else {
      UnchangedEvolves(db);
    }
  }

  // ---------------------------------------------------------------- transactions from outside

  lemma ProgressEvolves(db: Db, id: TaskId, percent: int, message: string, next: Db)
    requires next == UpdateTaskProgress(db, id, percent, message).Over(db)
    ensures Evolves(db, next, None) && HandsOff(db, next)
  {
    var tx := UpdateTaskProgress(db, id, percent, message);
    if tx.Commit? {
      OneRowEvolves(db, id, tx.db.tasks[id]);
    } else {
      UnchangedEvolves(db);
    }
  }

  lemma PriorityEvolves(db: Db, id: TaskId, priority: int, next: Db)
    requires next == SetTaskPriority(db, id, priority).Over(db)
    ensures Evolves(db, next, None) && HandsOff(db, next)
  {
    var tx := SetTaskPriority(db, id, priority);
    if tx.Commit? {
      OneRowEvolves(db, id, tx.db.tasks[id]);
    } else {
      UnchangedEvolves(db);
    }
  }

  lemma DismissEvolves(db: Db, id: TaskId, next: Db)
    requires next == DismissTask(db, id).Over(db)
    ensures Evolves(db, next, None) && HandsOff(db, next)
  {
    var tx := DismissTask(db, id);
    if tx.Commit? {
      OneRowEvolves(db, id, tx.db.tasks[id]);
    } else {
      UnchangedEvolves(db);
    }
  }

  lemma CancelledRowEvolves(row: Task, now: int)
    ensures var next := CancelledRow(row, now);
            && RowEvolves(row, next) && !Revives(row, next) && !Claims(row, next)
            && (row.status.InFlight() ==> next.status == row.status || next.status.CancelRequested?)
  {}

  lemma CancelEvolves(db: Db, id: TaskId, now: int, next: Db)
    requires next == CancelTaskGraph(db, id, now).Over(db)
    ensures Evolves(db, next, None) && HandsOff(db, next)
  {
    UnchangedEvolves(db);
    var tx := CancelTaskGraph(db, id, now);
    if tx.Commit? {
      assert tx.db.tasks.Keys == db.tasks.Keys;
      assert LedgersEvolve(db, tx.db);
      forall other | other in db.tasks
        ensures QuietStep(db.tasks[other], tx.db.tasks[other])
      {
        CancelledRowEvolves(db.tasks[other], now);
      }
      QuietEvolves(db, tx.db);
    }
  }

  function RetriedGraph(db: Db, id: TaskId): Option<TaskId> {
    if id in db.tasks then Some(db.tasks[id].fixed.root) else None
  }

  /** What an explicit retry may do to one row. */
  predicate RetryStep(a: Task, b: Task) {
    && RowEvolves(a, b)
    && (a == b || (b.status.Queued? && (a.status.Retryable() || a.status.Queued?)))
  }

  lemma RearmedRowEvolves(row: Task, message: string)
    requires !row.dismissed && !row.fixed.kind.Shell? && row.retryCount < row.fixed.maxRetries && row.status.Retryable()
    ensures RetryStep(row, RearmedRow(row, message))
  {}

  lemma GuardedRowEvolves(row: Task)
    requires row.status.Queued?
    ensures RetryStep(row, GuardedRow(row))
  {}

  /** Explicit retry of one graph: its root is queued afterwards and no other graph is touched. */
  ghost predicate RetriesGraph(db: Db, next: map<TaskId, Task>, root: TaskId) {
    && next.Keys == db.tasks.Keys
    && root in next && next[root].status.Queued?
    && forall id :: id in db.tasks ==>
         if db.tasks[id].fixed.root == root then RetryStep(db.tasks[id], next[id]) else next[id] == db.tasks[id]
  }

  lemma RearmOneRows(db: Db, id: TaskId, message: string, next: map<TaskId, Task>)
    requires RetryEligible(db, id) && db.tasks[id].fixed.root == id
    requires next == db.tasks[id := RearmedRow(db.tasks[id], message)]
    ensures RetriesGraph(db, next, id)
  {
    RearmedRowEvolves(db.tasks[id], message);
    assert next.Keys == db.tasks.Keys;
  }

  lemma RearmGraphRows(db: Db, root: TaskId, again: set<TaskId>, next: map<TaskId, Task>)
    requires RetryEligible(db, root) && db.tasks[root].fixed.root == root
    requires forall id :: id in again ==> InGraph(db, root, id) && RetryEligible(db, id)
    requires next == RearmGraph(db, root, again)
    ensures RetriesGraph(db, next, root)
  {
    assert next.Keys == db.tasks.Keys;
    forall id | id in db.tasks && db.tasks[id].fixed.root == root ensures RetryStep(db.tasks[id], next[id]) {
      if id == root {
        RearmedRowEvolves(db.tasks[id], WAITING_MESSAGE);
      } else if id in again {
        RearmedRowEvolves(db.tasks[id], GRAPH_RETRY_MESSAGE);
      }
    }
  }

  lemma RearmChildRows(db: Db, id: TaskId, top: Task, next: map<TaskId, Task>)
    requires RetryEligible(db, id) && db.tasks[id].fixed.root != id
    requires var root := db.tasks[id].fixed.root;
             && InGraph(db, root, root) && RetryStep(db.tasks[root], top) && top.status.Queued?
    requires next == RearmChild(db, id, top)
    ensures RetriesGraph(db, next, db.tasks[id].fixed.root)
  {
    RearmedRowEvolves(db.tasks[id], RETRY_MESSAGE);
    var root := db.tasks[id].fixed.root;
    assert next.Keys == db.tasks.Keys;
    forall other | other in db.tasks && other != root && other != id ensures next[other] == db.tasks[other] {}
  }

  lemma RetryBehindQueuedRoot(db: Db, id: TaskId, next: Db)
    requires RetryEligible(db, id) && db.tasks[id].fixed.root != id && RetryChild(db, id) == Commit(next)
    requires Guardable(db, db.tasks[id].fixed.root)
    ensures next == db.(tasks := next.tasks)
    ensures RetriesGraph(db, next.tasks, db.tasks[id].fixed.root)
  {
    var root := db.tasks[id].fixed.root;
    GuardedRowEvolves(db.tasks[root]);
    RearmChildRows(db, id, GuardedRow(db.tasks[root]), next.tasks);
  }

  lemma RetryWithRoot(db: Db, id: TaskId, next: Db)
    requires RetryEligible(db, id) && db.tasks[id].fixed.root != id && RetryChild(db, id) == Commit(next)
    requires !Guardable(db, db.tasks[id].fixed.root)
    ensures next == db.(tasks := next.tasks)
    ensures RetriesGraph(db, next.tasks, db.tasks[id].fixed.root)
  {
    var root := db.tasks[id].fixed.root;
    RearmedRowEvolves(db.tasks[root], WAITING_MESSAGE);
    RearmChildRows(db, id, RearmedRow(db.tasks[root], WAITING_MESSAGE), next.tasks);
  }

  lemma RetryRootRows(db: Db, id: TaskId, next: Db)
    requires RetryEligible(db, id) && db.tasks[id].fixed.root == id && RetryRoot(db, id) == Commit(next)
    ensures next == db.(tasks := next.tasks)
    ensures RetriesGraph(db, next.tasks, id)
  {
    if GraphSize(db, id) <= 1 || RetryableDependencies(db, id) == {} {
      RearmOneRows(db, id, RETRY_MESSAGE, next.tasks);
    } else {
      RearmGraphRows(db, id, RetryableDependencies(db, id), next.tasks);
    }
  }

  lemma RetryRows(db: Db, id: TaskId, next: Db)
    requires RetryTask(db, id) == Commit(next)
    ensures next == db.(tasks := next.tasks) && id in db.tasks
    ensures RetriesGraph(db, next.tasks, db.tasks[id].fixed.root)
  {
    if db.tasks[id].fixed.root == id {
      RetryRootRows(db, id, next);
    } else if Guardable(db, db.tasks[id].fixed.root) {
      RetryBehindQueuedRoot(db, id, next);
    } else {
      RetryWithRoot(db, id, next);
    }
  }

  lemma RetryStepFacts(a: Task, b: Task)
    requires RetryStep(a, b)
    ensures RowEvolves(a, b) && !Claims(a, b)
    ensures a.status.InFlight() ==> b.status == a.status
  {}

  lemma RetryEvolves(db: Db, id: TaskId, next: Db)
    requires next == RetryTask(db, id).Over(db)
    ensures Evolves(db, next, RetriedGraph(db, id)) && HandsOff(db, next)
  {
    UnchangedEvolves(db);
    if RetryTask(db, id).Commit? {
      RetryRows(db, id, next);
      forall other | other in db.tasks
        ensures RowEvolves(db.tasks[other], next.tasks[other])
        ensures !Claims(db.tasks[other], next.tasks[other])
        ensures db.tasks[other].status.InFlight() ==> next.tasks[other].status == db.tasks[other].status
      {
        if db.tasks[other].fixed.root == db.tasks[id].fixed.root {
          RetryStepFacts(db.tasks[other], next.tasks[other]);
        }
      }
    }
    assert RevivesOnly(db, next, RetriedGraph(db, id));
  }

  /** Losing the approval, or being denied it, ends a waiting task; a consumed approval queues it. */
  lemma WaitingRowEvolves(row: Task, now: int)
    requires row.status.WaitingForApproval?
    ensures QuietStep(row, TimedOutRow(row, now))
    ensures QuietStep(row, DecidedRow(row, true, now)) && QuietStep(row, DecidedRow(row, false, now))
  {}

  lemma WaitingEvolves(db: Db, id: TaskId, key: ApprovalId, item: Approval, row: Task, next: Db)
    requires id in db.tasks && QuietStep(db.tasks[id], row)
    requires key in db.approvals && ApprovalEvolves(db.approvals[key], item)
    requires next == db.(tasks := db.tasks[id := row], approvals := db.approvals[key := item])
    ensures Evolves(db, next, None) && HandsOff(db, next)
  {
    assert next.tasks.Keys == db.tasks.Keys;
    assert next.approvals.Keys == db.approvals.Keys;
    forall other | other in db.tasks ensures QuietStep(db.tasks[other], next.tasks[other]) {}
    QuietEvolves(db, next);
  }

  lemma LapsedEvolves(db: Db, key: ApprovalId, actor: string, approved: bool, now: int, next: Db)
    requires DecideApproval(db, key, actor, approved, now) == Lapsed(next)
    ensures Evolves(db, next, None) && HandsOff(db, next)
  {
    var item := db.approvals[key];
    var row := db.tasks[item.task];
    var lapsed := item.(status := Expired, decidedAt := Some(now));
    if row.status.WaitingForApproval? {
      WaitingRowEvolves(row, now);
      WaitingEvolves(db, item.task, key, lapsed, TimedOutRow(row, now), next);
    } else {
      WaitingEvolves(db, item.task, key, lapsed, row, next);
    }
  }

  lemma DecidedEvolves(db: Db, key: ApprovalId, actor: string, approved: bool, now: int, next: Db)
    requires DecideApproval(db, key, actor, approved, now) == Decided(next)
    ensures Evolves(db, next, None) && HandsOff(db, next)
  {
    var item := db.approvals[key];
    var row := db.tasks[item.task];
    WaitingRowEvolves(row, now);
    WaitingEvolves(db, item.task, key, DecidedApproval(item, actor, approved, now),
                   DecidedRow(row, approved, now), next);
  }

  lemma DecideEvolves(db: Db, key: ApprovalId, actor: string, approved: bool, now: int, next: Db)
    requires next == DecideApproval(db, key, actor, approved, now).Over(db)
    ensures Evolves(db, next, None) && HandsOff(db, next)
  {
    match DecideApproval(db, key, actor, approved, now)
    case Refused(_) => UnchangedEvolves(db);
    case Lapsed(_) => LapsedEvolves(db, key, actor, approved, now, next);
    case Decided(_) => DecidedEvolves(db, key, actor, approved, now, next);
  }

  lemma ExpireEvolves(db: Db, now: int, next: Db)
    requires next == ExpireApprovals(db, now)
    ensures Evolves(db, next, None) && HandsOff(db, next)
  {
    assert next.tasks.Keys == db.tasks.Keys;
    forall id | id in db.tasks ensures QuietStep(db.tasks[id], next.tasks[id]) {
      if db.tasks[id].status.WaitingForApproval? && LosesApproval(db, id, now) {
        WaitingRowEvolves(db.tasks[id], now);
      }
    }
    QuietEvolves(db, next);
  }

  /** Writing only columns outside the tables that Evolves speaks of. */
  lemma AsideEvolves(db: Db, quiet: Db, next: Db)
    requires quiet.tasks == db.tasks && quiet.deps == db.deps && quiet.taskKeys == db.taskKeys
    requires db.conversations.Keys <= quiet.conversations.Keys
    requires quiet.approvals == db.approvals && quiet.invocations == db.invocations
    requires Evolves(quiet, next, None) && HandsOff(quiet, next)
    ensures Evolves(db, next, None) && HandsOff(db, next)
  {}

  lemma ScrubTerminalEvolves(db: Db, root: TaskId, next: Db)
    requires next == ScrubTerminalTaskGraph(db, root)
    ensures Evolves(db, next, None) && HandsOff(db, next)
  {
    UnchangedEvolves(db);
    if NotRetained(db, root) && !GraphActive(db, root) {
      var quiet := ScrubEvents(db, db.conversations[db.tasks[root].fixed.conversation.value].externalKey);
      ScrubEvolves(quiet, {root});
      AsideEvolves(db, quiet, ScrubGraphs(quiet, {root}));
    }
  }

  lemma RetentionEvolves(db: Db, id: ConversationId, enabled: bool, now: int, next: Db)
    requires next == SetTranscriptRetention(db, id, enabled, now).Over(db)
    ensures Evolves(db, next, None) && HandsOff(db, next)
  {
    UnchangedEvolves(db);
    var tx := SetTranscriptRetention(db, id, enabled, now);
    if tx.Commit? && enabled {
      UnchangedEvolves(tx.db);
      AsideEvolves(db, tx.db, tx.db);
    } else if tx.Commit? {
      var quiet := ScrubEvents(db, db.conversations[id].externalKey).(
        turns := map key <- db.turns | db.turns[key].conversation != id :: db.turns[key],
        conversations := db.conversations[id := db.conversations[id].(
          retained := false, title := NOT_RETAINED_MARKER, updatedAt := now)]);
      forall other | other in quiet.tasks && quiet.tasks[other].fixed.root in SettledGraphs(quiet, id)
        ensures quiet.tasks[other].status.Terminal()
      {
        assert !GraphActive(quiet, quiet.tasks[other].fixed.root);
      }
      ScrubEvolves(quiet, SettledGraphs(quiet, id));
      AsideEvolves(db, quiet, tx.db);
    }
  }

  lemma RecoveredRowEvolves(db: Db, id: TaskId, now: int)
    requires id in db.tasks
    ensures PlainStep(db.tasks[id], RecoveredRow(db.tasks[id], RecoveryOf(db, id), now))
  {}

  lemma RecoverEvolves(db: Db, now: int)
    ensures Evolves(db, RecoverInterruptedTasks(db, now), None)
  {
    var next := RecoverInterruptedTasks(db, now);
    assert next.tasks.Keys == db.tasks.Keys;
    assert LedgersEvolve(db, next);
    forall id | id in db.tasks ensures PlainStep(db.tasks[id], next.tasks[id]) {
      RecoveredRowEvolves(db, id, now);
    }
    PlainEvolves(db, next);
  }
}
