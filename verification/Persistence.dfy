/**
 The store as an object. Each method runs the statements of one transaction in order, on a working
 copy that replaces the database only at the commit, and is proved to commit what module
 Transactions says.
 */
module Persistence {
  import opened Model
  import opened Transactions
  import opened Restart
  import opened Retention
  import opened Runtime
  import opened Statements
  import opened Erasure
  import opened Sweeps
  import opened Columns
  import opened SweepColumns

  /** What a method did, as a transaction. */
  function Done(db: Db, problem: Option<Error>): Tx {
    if problem.None? then Commit(db) else Abort(problem.value)
  }

  /** And a decision, which commits the expiry even when it is refused as too late. */
  function Verdict(db: Db, problem: Option<Error>): Decision {
    if problem.None? then Decided(db) else if problem == Some(TooLate) then Lapsed(db) else Refused(problem.value)
  }

  /** This row alone differs: same fixed columns, next version. */
  ghost predicate ChangesRow(db: Db, next: Db, id: TaskId) {
    && id in db.tasks && id in next.tasks
    && next == db.(tasks := db.tasks[id := next.tasks[id]])
    && next.tasks[id].fixed == db.tasks[id].fixed
    && next.tasks[id].version == db.tasks[id].version + 1
  }

  /** The columns that describe an attempt and its place in the queue stand. */
  predicate SameSchedule(a: Task, b: Task) {
    b.retryCount == a.retryCount && b.priority == a.priority && b.dismissed == a.dismissed
  }

  method StartedRow(a: Task, now: int) returns (b: Task)
    ensures b == Bump(a.(status := Running, startedAt := b.startedAt, progress := b.progress))
    ensures b.startedAt == if a.startedAt.Some? then a.startedAt else Some(now)
    ensures b.progress == if a.progress < 1 then 1 else a.progress
  {
    b := a.(status := Running);
    if b.startedAt.None? {
      b := b.(startedAt := Some(now));
    }
    if b.progress < 1 {
      b := b.(progress := 1);
    }
    b := Bump(b);
  }

  method FailedRow(a: Task, error: string, timedOut: bool, now: int) returns (b: Task)
    ensures b == Bump(a.(status := b.status, finishedAt := Some(now), content := a.content.(error := error)))
    ensures b.status == if timedOut then TimedOut else Failed
  {
    b := a.(finishedAt := Some(now), content := a.content.(error := error), status := Failed);
    if timedOut {
      b := b.(status := TimedOut);
    }
    b := Bump(b);
  }

  class Store {
    var db: Db

    constructor ()
      ensures db == EMPTY_DB
    {
      db := EMPTY_DB;
    }

    /**
     The recovery transaction and the privacy reconciliation after it. The count is exactly the number
     of interrupted tasks, the guard on it never fires, and `recovered` is what the transaction committed.
     */
    method RecoverInterruptedTasks(now: int) returns (count: nat, refused: bool, ghost recovered: Db)
      modifies this
      ensures !refused
      ensures recovered == Transactions.RecoverInterruptedTasks(old(db), now)
      ensures count == |Interrupted(old(db))| && Interrupted(recovered) == {} && Interrupted(db) == {}
      ensures OnlyErases(recovered, db)
      ensures forall root ::
                (NotRetained(recovered, root) && !GraphActive(recovered, root) && recovered.tasks[root].fixed.root == root) ==>
                GraphErased(db, root)
      ensures Recovered(old(db), now, recovered)
    {
      var tx;
      RecoveryLaw(db, now);
      tx, count, refused := RecoverAll(db, now);
      NoneLeft(db, now);
      recovered := tx;
      db := if refused then db else tx;
      db := ReconcileErasure(db);
      assert forall id :: id in db.tasks ==> db.tasks[id].status == recovered.tasks[id].status && id !in Interrupted(recovered);
    }

    // -- queue

    /** Takes the first claimable task in the order of the queue, or reports that there is none. */
    method ClaimNextTask() returns (claimed: Option<TaskId>)
      modifies this
      ensures claimed.None? ==> db == old(db) && forall id :: !Ready(old(db), id)
      ensures claimed.Some? ==>
                var id := claimed.value;
                && ComesFirst(old(db), id) && Commit(db) == ClaimTask(old(db), id)
                && db == old(db).(tasks := old(db).tasks[id := old(db).tasks[id].(
                     status := Assigned, version := old(db).tasks[id].version + 1)])
    {
      forall id ensures Claimable(db, id) <==> Ready(db, id) {
        ClaimableIsReady(db, id);
      }
      var candidates := set id <- db.tasks | Claimable(db, id);
      if candidates == {} {
        assert forall id :: Claimable(db, id) ==> id in candidates;
        return None;
      }
      var first := First(db, candidates);
      ClaimLaw(db, first);
      db := db.(tasks := db.tasks[first := Bump(db.tasks[first].(status := Assigned))]);
      claimed := Some(first);
    }

    method StartTask(id: TaskId, version: nat, now: int) returns (problem: Option<Error>)
      modifies this
      ensures db == Transactions.StartTask(old(db), id, version, now).Over(old(db))
      ensures problem == Transactions.StartTask(old(db), id, version, now).Problem()
      ensures problem.None? <==>
                id in old(db).tasks && old(db).tasks[id].status.Assigned? && old(db).tasks[id].version == version
      ensures problem.Some? ==> problem == Some(Conflict) && db == old(db)
      ensures problem.None? ==>
                var a, b := old(db).tasks[id], db.tasks[id];
                && ChangesRow(old(db), db, id) && SameSchedule(a, b)
                && b.status.Running? && b.content == a.content && b.finishedAt == a.finishedAt
                && b.startedAt == Some(if a.startedAt.Some? then a.startedAt.value else now)
                && b.progress == if a.progress < 1 then 1 else a.progress
    {
      if id !in db.tasks || !db.tasks[id].status.Assigned? || db.tasks[id].version != version {
        return Some(Conflict);
      }
      var row := StartedRow(db.tasks[id], now);
      db := SetTask(db, id, row);
      problem := None;
    }

    method FailTask(id: TaskId, error: string, timedOut: bool, now: int) returns (problem: Option<Error>)
      modifies this
      ensures db == Transactions.FailTask(old(db), id, error, timedOut, now).Over(old(db))
      ensures problem == Transactions.FailTask(old(db), id, error, timedOut, now).Problem()
      ensures problem.None? <==> id in old(db).tasks && !old(db).tasks[id].status.Terminal()
      ensures problem.Some? ==> db == old(db) && problem == Some(if id in old(db).tasks then Conflict else NotFound)
      ensures problem.None? ==>
                var a, b := old(db).tasks[id], db.tasks[id];
                && ChangesRow(old(db), db, id) && SameSchedule(a, b)
                && b.status.Terminal() && b.status.Retryable() && (b.status.TimedOut? <==> timedOut)
                && b.finishedAt == Some(now) && b.startedAt == a.startedAt && b.progress == a.progress
                && b.content.error == error && b.content.(error := a.content.error) == a.content
    {
      if id !in db.tasks {
        return Some(NotFound);
      }
      var row := db.tasks[id];
      if row.status.Terminal() {
        return Some(Conflict);
      }
      row := FailedRow(row, error, timedOut, now);
      db := SetTask(db, id, row);
      problem := None;
    }

    method UpdateTaskProgress(id: TaskId, percent: int, message: string) returns (problem: Option<Error>)
      modifies this
      ensures db == Transactions.UpdateTaskProgress(old(db), id, percent, message).Over(old(db))
      ensures problem == Transactions.UpdateTaskProgress(old(db), id, percent, message).Problem()
      ensures problem.None? ==> 0 <= percent <= 99 && id in old(db).tasks
      ensures problem.None? ==>
                var a, b := old(db).tasks[id], db.tasks[id];
                && !a.status.Terminal() && !a.status.NotYetClaimed() && !a.status.Assigned?
                && ChangesRow(old(db), db, id) && SameSchedule(a, b)
                && b.status == a.status && b.progress == percent && b.content.progressMessage == message
                && b.content.(progressMessage := a.content.progressMessage) == a.content
                && b.startedAt == a.startedAt && b.finishedAt == a.finishedAt
      ensures problem.Some? ==> db == old(db)
      ensures problem == Some(Rejected) <==> !(0 <= percent <= 99)
      ensures problem == Some(Conflict) ==>
                (id in old(db).tasks ==>
                   var status := old(db).tasks[id].status;
                   status.Terminal() || status.NotYetClaimed() || status.Assigned?)
    {
      if percent < 0 || percent > 99 {
        return Some(Rejected);
      }
      if id !in db.tasks {
        return Some(Conflict);
      }
      var row := db.tasks[id];
      if !row.status.Running? && !row.status.WaitingForChildren? && !row.status.CancelRequested? {
        return Some(Conflict);
      }
      row := row.(progress := percent, content := row.content.(progressMessage := message));
      db := SetTask(db, id, Bump(row));
      problem := None;
    }

    method CompleteTaskWithArtifacts(id: TaskId, answer: Answer, now: int) returns (problem: Option<Error>)
      modifies this
      ensures db == CompleteTask(old(db), id, answer, now).Over(old(db))
      ensures problem == CompleteTask(old(db), id, answer, now).Problem()
      ensures problem.None? <==>
                id in old(db).tasks && !old(db).tasks[id].status.Terminal() && !old(db).tasks[id].status.NotYetClaimed()
      ensures problem.Some? ==> db == old(db) && problem == Some(if id in old(db).tasks then Conflict else NotFound)
      ensures problem.None? ==>
                ChangesRow(old(db), db, id) && RowAnswered(old(db).tasks[id], db.tasks[id], answer, now)
    {
      if id !in db.tasks {
        return Some(NotFound);
      }
      if !Completable(db.tasks[id].status) {
        return Some(Conflict);
      }
      db := SetTask(db, id, CompletedRow(db.tasks[id], answer, now));
      problem := None;
    }

    method RequeueTaskForAutomaticRetry(id: TaskId, error: string) returns (problem: Option<Error>)
      modifies this
      ensures db == RequeueTask(old(db), id, error).Over(old(db))
      ensures problem == RequeueTask(old(db), id, error).Problem()
      ensures problem.None? <==>
                id in old(db).tasks && old(db).tasks[id].status.Running? && !old(db).tasks[id].fixed.kind.Shell?
                && old(db).tasks[id].retryCount < old(db).tasks[id].fixed.maxRetries
      ensures problem.Some? ==> db == old(db) && problem == Some(if id in old(db).tasks then Conflict else NotFound)
      ensures problem.None? ==>
                var a, b := old(db).tasks[id], db.tasks[id];
                && ChangesRow(old(db), db, id)
                && b.status.Queued? && b.retryCount == a.retryCount + 1 <= b.fixed.maxRetries
                && b.priority == a.priority && b.dismissed == a.dismissed
                && b.progress == 0 && b.startedAt.None? && b.finishedAt == a.finishedAt
                && b.content.error == error && b.content.input == a.content.input && b.content.goal == a.content.goal
                && b.content.progressMessage == "Transient failure; bounded retry queued"
                && b.content.result == a.content.result && b.content.summary == a.content.summary
                && b.content.artifacts == a.content.artifacts
    {
      if id !in db.tasks {
        return Some(NotFound);
      }
      var row := db.tasks[id];
      if !row.status.Running? || row.fixed.kind.Shell? || row.retryCount >= row.fixed.maxRetries {
        return Some(Conflict);
      }
      row := row.(status := Queued, progress := 0, startedAt := None, retryCount := row.retryCount + 1);
      row := row.(content := row.content.(progressMessage := "Transient failure; bounded retry queued", error := error));
      db := SetTask(db, id, Bump(row));
      problem := None;
    }

    method MarkTaskCancelled(id: TaskId, now: int) returns (problem: Option<Error>)
      modifies this
      ensures db == Transactions.MarkTaskCancelled(old(db), id, now).Over(old(db))
      ensures problem == Transactions.MarkTaskCancelled(old(db), id, now).Problem()
      ensures problem.None? <==> id in old(db).tasks && old(db).tasks[id].status.CancelRequested?
      ensures problem.Some? ==> problem == Some(Conflict) && db == old(db)
      ensures problem.None? ==>
                var a, b := old(db).tasks[id], db.tasks[id];
                && ChangesRow(old(db), db, id) && SameSchedule(a, b)
                && b.status.Cancelled? && b.finishedAt == Some(now)
                && b.content == a.content && b.startedAt == a.startedAt && b.progress == a.progress
    {
      if id !in db.tasks || !db.tasks[id].status.CancelRequested? {
        return Some(Conflict);
      }
      db := SetTask(db, id, Bump(db.tasks[id].(status := Cancelled, finishedAt := Some(now))));
      problem := None;
    }

    method DismissTask(id: TaskId) returns (problem: Option<Error>)
      modifies this
      ensures db == Transactions.DismissTask(old(db), id).Over(old(db))
      ensures problem == Transactions.DismissTask(old(db), id).Problem()
      ensures problem.None? <==>
                id in old(db).tasks && old(db).tasks[id].status.Terminal() && !old(db).tasks[id].dismissed
      ensures problem.Some? ==> db == old(db) && (problem.value.NotFound? <==> id !in old(db).tasks)
      ensures problem.None? ==>
                && ChangesRow(old(db), db, id) && db.tasks[id].dismissed
                && db.tasks[id].(dismissed := false, version := old(db).tasks[id].version) == old(db).tasks[id]
    {
      if id !in db.tasks {
        return Some(NotFound);
      }
      var current := db.tasks[id];
      if current.dismissed || !current.status.Terminal() {
        return Some(Conflict);
      }
      db := SetTask(db, id, Bump(current.(dismissed := true)));
      problem := None;
    }

    method SetTaskPriority(id: TaskId, priority: int) returns (problem: Option<Error>)
      modifies this
      ensures db == Transactions.SetTaskPriority(old(db), id, priority).Over(old(db))
      ensures problem == Transactions.SetTaskPriority(old(db), id, priority).Problem()
      ensures problem.None? <==> -100 <= priority <= 100 && id in old(db).tasks && !old(db).tasks[id].dismissed
      ensures problem.Some? ==> db == old(db) && (problem.value.Rejected? <==> !(-100 <= priority <= 100))
      ensures problem.None? ==>
                && ChangesRow(old(db), db, id) && db.tasks[id].priority == priority
                && db.tasks[id].(priority := old(db).tasks[id].priority, version := old(db).tasks[id].version)
                   == old(db).tasks[id]
    {
      if priority < -100 || priority > 100 {
        return Some(Rejected);
      }
      if id !in db.tasks || db.tasks[id].dismissed {
        return Some(NotFound);
      }
      db := SetTask(db, id, Bump(db.tasks[id].(priority := priority)));
      problem := None;
    }

    // -- tool invocations

    /** A second start for the same task changes nothing and hands back the first record. */
    method StartToolInvocation(id: TaskId, input: string) returns (existing: Option<Invocation>, problem: Option<Error>)
      modifies this
      ensures db == Transactions.StartToolInvocation(old(db), id, input).Over(old(db))
      ensures existing.Some? <==> InvocationKey(id) in old(db).invocations
      ensures existing.Some? ==> existing.value == old(db).invocations[InvocationKey(id)] && db == old(db)
      ensures problem.Some? <==> existing.None? && id !in old(db).tasks
      ensures existing.None? && problem.None? ==>
                db == old(db).(invocations := old(db).invocations["shell:" + id := Invocation(id, input, Started, None, None, "")])
    {
      var key := InvocationKey(id);
      if key in db.invocations {
        return Some(db.invocations[key]), None;
      }
      if id !in db.tasks {
        return None, Some(NotFound);
      }
      db := db.(invocations := db.invocations[key := Invocation(id, input, Started, None, None, "")]);
      existing, problem := None, None;
    }

    /** The end of a command is recorded once. */
    method FinishToolInvocation(key: string, output: string, error: Option<string>, now: int) returns (problem: Option<Error>)
      modifies this
      ensures db == Transactions.FinishToolInvocation(old(db), key, output, error, now).Over(old(db))
      ensures problem == Transactions.FinishToolInvocation(old(db), key, output, error, now).Problem()
      ensures problem.None? <==>
                && key in old(db).invocations && old(db).invocations[key].status.Started?
                && old(db).invocations[key].task in old(db).tasks
      ensures problem.Some? ==> db == old(db)
      ensures problem.None? ==>
                && key in db.invocations && !db.invocations[key].status.Started?
                && db == old(db).(invocations := old(db).invocations[key := db.invocations[key]])
                && (db.invocations[key].status.Succeeded? <==> error.None?)
                && db.invocations[key].task == old(db).invocations[key].task
                && db.invocations[key].input == old(db).invocations[key].input
                && db.invocations[key].finishedAt == Some(now)
                && db.invocations[key].error == (if error.Some? then error.value else "")
                && db.invocations[key].output == (if output == "" then None else Some(output))
    {
      if key !in db.invocations {
        return Some(NotFound);
      }
      var item := db.invocations[key];
      if !item.status.Started? {
        return Some(Conflict);
      }
      if item.task !in db.tasks {
        return Some(NotFound);
      }
      if error.Some? {
        item := item.(status := Broken, error := error.value);
      } else {
        item := item.(status := InvocationStatus.Succeeded, error := "");
      }
      item := item.(finishedAt := Some(now), output := NullableRaw(output));
      db := db.(invocations := db.invocations[key := item]);
      problem := None;
    }

    // -- completion of a root

    /** The terminal status, the final turn and the delivery become visible in one commit or not at all. */
    method CompleteTaskWithOutcome(id: TaskId, answer: Answer, outcome: Outcome, now: int) returns (problem: Option<Error>)
      modifies this
      ensures db == Transactions.CompleteTaskWithOutcome(old(db), id, answer, outcome, now).Over(old(db))
      ensures problem == Transactions.CompleteTaskWithOutcome(old(db), id, answer, outcome, now).Problem()
      ensures OutcomeCommitted(old(db), id, answer, outcome, now, Done(db, problem))
      ensures problem.Some? ==> db == old(db)
      ensures problem.None? ==>
                && id in old(db).tasks && TurnTold(old(db), id, outcome, db) && DeliveryTold(old(db), id, outcome, db)
                && BlankOnceFinished(old(db), id, db)
    {
      OutcomeLaw(db, id, answer, outcome, now);
      if id !in db.tasks {
        return Some(NotFound);
      }
      var current := db.tasks[id];
      if id != current.fixed.root {
        return Some(Rejected);
      }
      if !Completable(current.status) {
        return Some(Conflict);
      }
      if !OutcomeMatches(db, id, outcome) {
        return Some(Rejected);
      }
      var tx := RecordOutcome(db, id, answer, outcome, now);
      OutcomeFacts(db, id, answer, outcome, now, tx);
      db := tx;
      problem := None;
    }

    // -- explicit retry, cancellation

    /** The version guards inside the retry loop never fail, so a graph is re-armed whole or not at all. */
    method RetryTask(id: TaskId) returns (problem: Option<Error>)
      requires NoSelfEdges(db)
      modifies this
      ensures db == Transactions.RetryTask(old(db), id).Over(old(db))
      ensures problem == Transactions.RetryTask(old(db), id).Problem()
      ensures Retried(old(db), id, Done(db, problem))
      ensures problem.Some? ==> db == old(db)
    {
      assert (id, id) !in db.deps by {
        assert (id, id) in db.deps ==> (id, id).0 != (id, id).1;
      }
      RetryLaw(db, id);
      if id !in db.tasks {
        return Some(NotFound);
      }
      if !RetryEligible(db, id) {
        return Some(Conflict);
      }
      var tx;
      if db.tasks[id].fixed.root == id {
        tx, problem := RetryRootTask(db, id);
      } else {
        tx, problem := RetryGraphChild(db, id);
      }
      if problem.None? {
        db := tx;
      }
    }

    /** Cancels every node of the graph and returns the nodes, so that the runtime can stop their workers. */
    method RequestTaskGraphCancellation(id: TaskId, now: int) returns (ids: seq<TaskId>, problem: Option<Error>)
      modifies this
      ensures db == CancelTaskGraph(old(db), id, now).Over(old(db))
      ensures problem == CancelTaskGraph(old(db), id, now).Problem()
      ensures problem.None? ==> forall other :: other in ids <==> InGraph(old(db), old(db).tasks[id].fixed.root, other)
      ensures problem == if id in old(db).tasks then None else Some(NotFound)
      ensures problem.None? ==> GraphCancelled(old(db), old(db).tasks[id].fixed.root, now, db)
      ensures problem.Some? ==> db == old(db)
    {
      if id !in db.tasks {
        return [], Some(NotFound);
      }
      var root := db.tasks[id].fixed.root;
      CancelLaw(db, id, now);
      ids := Listing(set other <- db.tasks | db.tasks[other].fixed.root == root);
      db := CancelWholeGraph(db, id, now);
      problem := None;
    }

    // -- approvals

    /** A decision is consumed once: both guarded updates commit together or neither does. */
    method DecideApproval(key: ApprovalId, actor: string, approved: bool, now: int) returns (problem: Option<Error>)
      modifies this
      ensures db == Transactions.DecideApproval(old(db), key, actor, approved, now).Over(old(db))
      ensures problem == Transactions.DecideApproval(old(db), key, actor, approved, now).Problem()
      ensures DecisionMade(old(db), key, actor, approved, now, Verdict(db, problem))
      ensures problem.Some? && problem != Some(TooLate) ==> db == old(db)
    {
      DecisionLaw(db, key, actor, approved, now);
      if key !in db.approvals {
        return Some(NotFound);
      }
      var item := db.approvals[key];
      if !item.status.Pending? {
        return Some(Conflict);
      }
      if item.task !in db.tasks {
        return Some(if item.expiresAt <= now then NotFound else Conflict);
      }
      if item.expiresAt <= now {
        db := LapseApproval(db, key, actor, approved, now);
        return Some(TooLate);
      }
      var tx;
      tx, problem := ConsumeDecision(db, key, actor, approved, now);
      if problem.None? {
        db := tx;
      }
    }

    method ExpireApprovals(now: int) returns (expired: seq<ApprovalId>)
      modifies this
      ensures db == Transactions.ExpireApprovals(old(db), now)
      ensures ApprovalsExpired(old(db), now, db)
      ensures forall key :: key in expired <==> Due(old(db), key, now)
    {
      ExpiryLaw(db, now);
      db, expired := ExpireDue(db, now);
    }

    // -- creation and erasure

    /** The waiting task and its approval become visible together; a replay creates nothing new. */
    method CreateTaskWithApproval(id: TaskId, row: Task, requested: Option<Approval>) returns (problem: Option<Error>)
      modifies this
      ensures db == Transactions.CreateTaskWithApproval(old(db), id, row, requested).Over(old(db))
      ensures problem == Transactions.CreateTaskWithApproval(old(db), id, row, requested).Problem()
      ensures row.fixed.idempotencyKey in old(db).taskKeys ==>
                Replayed(old(db), old(db).taskKeys[row.fixed.idempotencyKey], requested, Done(db, problem))
      ensures row.fixed.idempotencyKey !in old(db).taskKeys ==>
                (problem.None? <==> id !in old(db).tasks && (requested.Some? ==> ApprovalKey(id) !in old(db).approvals))
      ensures row.fixed.idempotencyKey !in old(db).taskKeys && problem.None? ==> NewlyCreated(old(db), id, row, requested, db)
      ensures problem.Some? ==> db == old(db)
    {
      var tx;
      if row.fixed.idempotencyKey in db.taskKeys {
        tx := RepairApproval(db, db.taskKeys[row.fixed.idempotencyKey], requested);
        ReplayLaw(db, db.taskKeys[row.fixed.idempotencyKey], requested);
      } else {
        tx := InsertWithApproval(db, id, row, requested);
      }
      problem := tx.Problem();
      if tx.Commit? {
        db := tx.db;
      }
    }

    /** Conversation, retention, turn and graph of a request become visible together or not at all. */
    method CreateAskWork(id: ConversationId, record: Conversation, apply: bool, turn: (TurnId, Turn), rows: seq<(TaskId, Task)>)
      returns (problem: Option<Error>)
      modifies this
      ensures db == Transactions.CreateAskWork(old(db), id, record, apply, turn, rows).Over(old(db))
      ensures problem == Transactions.CreateAskWork(old(db), id, record, apply, turn, rows).Problem()
      ensures Asked(old(db), id, record, apply, turn, rows, Done(db, problem))
      ensures problem.Some? ==> db == old(db)
    {
      AskLaw(db, id, record, apply, turn, rows);
      if rows == [] {
        return Some(Rejected);
      }
      if rows[0].1.fixed.idempotencyKey in db.taskKeys {
        return None;
      }
      if !Resolves(db, id, record) {
        return Some(Rejected);
      }
      var tx := PrepareConversation(db, id, record, apply);
      tx := InsertTurn(tx, turn.0, turn.1.(conversation := id), tx.conversations[id].retained);
      KeysStay(db, id, record, apply);
      tx, problem := CreateGraph(tx, rows, StarEdges(rows));
      if problem.None? {
        db := tx;
      }
    }

    /** All nodes and edges become visible together; any failure leaves the store as it was. */
    method CreateTaskGraph(rows: seq<(TaskId, Task)>, deps: seq<(TaskId, TaskId)>) returns (problem: Option<Error>)
      modifies this
      ensures db == Transactions.CreateTaskGraph(old(db), rows, deps).Over(old(db))
      ensures problem == Transactions.CreateTaskGraph(old(db), rows, deps).Problem()
      ensures GraphCreated(old(db), rows, deps, Done(db, problem))
      ensures problem.Some? ==> db == old(db)
    {
      GraphLaw(db, rows, deps);
      if rows == [] {
        return Some(Rejected);
      }
      if rows[0].1.fixed.idempotencyKey in db.taskKeys {
        return None;
      }
      var tx;
      tx, problem := CreateGraph(db, rows, deps);
      if problem.None? {
        db := tx;
      }
    }

    method SetTranscriptRetention(id: ConversationId, enabled: bool, now: int) returns (problem: Option<Error>)
      modifies this
      ensures db == Transactions.SetTranscriptRetention(old(db), id, enabled, now).Over(old(db))
      ensures problem == Transactions.SetTranscriptRetention(old(db), id, enabled, now).Problem()
      ensures RetentionSwitched(old(db), id, enabled, now, Done(db, problem))
      ensures problem.Some? ==> db == old(db)
    {
      SwitchLaw(db, id, enabled, now);
      if id !in db.conversations {
        return Some(NotFound);
      }
      db := Switch(db, id, enabled, now);
      problem := None;
    }

    method ScrubTerminalTaskGraph(root: TaskId)
      modifies this
      ensures db == Transactions.ScrubTerminalTaskGraph(old(db), root)
      ensures GraphScrubbed(old(db), root, db)
    {
      ScrubTerminalLaw(db, root);
      db := ScrubOne(db, root);
    }

    /** The counts are those of the database before the sweep. */
    method ApplyRetentionSweep(cutoff: int, sweptAt: int, audit: string, correlation: string)
      returns (counts: SweepCounts, problem: Option<Error>, ghost swept: Db)
      modifies this
      ensures db == SweepTx(old(db), cutoff, sweptAt, audit, correlation).Over(old(db))
      ensures problem == SweepTx(old(db), cutoff, sweptAt, audit, correlation).Problem()
      ensures SweepDone(old(db), cutoff, sweptAt, audit, correlation, Done(db, problem))
      ensures problem.Some? ==> db == old(db)
      ensures problem.None? ==>
                && SweptColumns(old(db), cutoff, swept)
                && db == swept.(audits := swept.audits[audit := Audit(sweptAt, None, correlation)])
                && counts == Counts(old(db), cutoff) && CountsChanges(old(db), swept, counts)
    {
      swept := Sweep(db, cutoff);
      SweepTxLaw(db, cutoff, sweptAt, audit, correlation);
      SweepLaw(db, cutoff);
      CountsAreChanges(db, cutoff);
      if cutoff == ZERO_TIME || sweptAt == ZERO_TIME || cutoff > sweptAt {
        return NOTHING, Some(Rejected), swept;
      }
      var tx;
      tx, counts := SweepTables(db, cutoff);
      if audit in tx.audits {
        return NOTHING, Some(Conflict), swept;
      }
      db := tx.(audits := tx.audits[audit := Audit(sweptAt, None, correlation)]);
      problem := None;
    }
  }

  /** A decision that comes too late still commits the expiry of both rows. */
  method LapseApproval(db: Db, key: ApprovalId, actor: string, approved: bool, now: int) returns (tx: Db)
    requires key in db.approvals && db.approvals[key].status.Pending? && db.approvals[key].expiresAt <= now
    requires db.approvals[key].task in db.tasks
    ensures Transactions.DecideApproval(db, key, actor, approved, now) == Lapsed(tx)
    ensures tx.approvals[key].status.Expired? && !tx.tasks[db.approvals[key].task].status.WaitingForApproval?
  {
    var item := db.approvals[key];
    tx := db.(approvals := db.approvals[key := item.(status := Expired, decidedAt := Some(now))]);
    if tx.tasks[item.task].status.WaitingForApproval? {
      tx := SetTask(tx, item.task, TimedOutRow(tx.tasks[item.task], now));
    }
    assert tx.tasks == db.tasks[item.task := tx.tasks[item.task]];
  }

  /** Both guarded updates, or neither. */
  method ConsumeDecision(db: Db, key: ApprovalId, actor: string, approved: bool, now: int)
    returns (tx: Db, problem: Option<Error>)
    requires key in db.approvals && db.approvals[key].status.Pending? && db.approvals[key].expiresAt > now
    requires db.approvals[key].task in db.tasks
    ensures problem == Transactions.DecideApproval(db, key, actor, approved, now).Problem()
    ensures problem.None? <==> db.tasks[db.approvals[key].task].status.WaitingForApproval?
    ensures problem.None? ==> Transactions.DecideApproval(db, key, actor, approved, now) == Decided(tx)
  {
    var item := db.approvals[key];
    tx := db.(approvals := db.approvals[key := DecidedApproval(item, actor, approved, now)]);
    if !tx.tasks[item.task].status.WaitingForApproval? {
      return db, Some(Conflict);
    }
    tx := SetTask(tx, item.task, DecidedRow(tx.tasks[item.task], approved, now));
    problem := None;
  }

  /** The statements of the recovery transaction in order. */
  method RecoverAll(db: Db, now: int) returns (tx: Db, count: nat, refused: bool)
    ensures !refused && tx == Transactions.RecoverInterruptedTasks(db, now) && count == |Interrupted(db)|
  {
    var uncertain, broken, stopped, exhausted, recovered;
    tx, uncertain := FailUncertain(db, now);
    tx, broken := BreakUncertain(tx, now, db);
    refused := broken < uncertain;
    tx, stopped := CancelStopped(tx, now, db);
    tx, exhausted := FailExhausted(tx, now, db);
    tx, recovered := QueueRecovered(tx, now, db);
    count := uncertain + stopped + exhausted + recovered;
    TakenPartition(db);
  }

  /** A task waits for an approval that nobody holds. */
  ghost predicate LostApproval(db: Db, id: TaskId) {
    id in db.tasks && db.tasks[id].status.WaitingForApproval? && forall key :: key in db.approvals ==> db.approvals[key].task != id
  }

  /**
   The one thing a replay does: a waiting task that lost its approval gets it back, if the request is for
   its own stored command; a request for another command is refused, and any other replay changes nothing.
   */
  ghost predicate Replayed(db: Db, other: TaskId, requested: Option<Approval>, tx: Tx) {
    if requested.None? || !LostApproval(db, other) then tx == Commit(db)
    else if || requested.value.arguments != db.tasks[other].content.input
            || db.tasks[other].fixed.allowedTools != [requested.value.tool]
            || "approval:" + other in db.approvals
    then tx == Abort(Conflict)
    else tx == Commit(db.(approvals := db.approvals["approval:" + other := requested.value.(task := other)]))
  }

  lemma ReplayLaw(db: Db, other: TaskId, requested: Option<Approval>)
    ensures Replayed(db, other, requested, RepairApproval(db, other, requested))
  {
    assert LostApproval(db, other) <==> WaitsUnapproved(db, other);
  }

  /** The task and its approval are there, and nothing else is. */
  ghost predicate NewlyCreated(db: Db, id: TaskId, row: Task, requested: Option<Approval>, next: Db) {
    && id in next.tasks && next.tasks[id].version >= 1
    && next.tasks[id].(version := row.version) == row && (row.version > 0 ==> next.tasks[id] == row)
    && next == db.(tasks := db.tasks[id := next.tasks[id]],
                   taskKeys := db.taskKeys[row.fixed.idempotencyKey := id], approvals := next.approvals)
    && next.approvals == if requested.Some? then db.approvals[ApprovalKey(id) := requested.value.(task := id)]
                         else db.approvals
  }

  /** One listing, one bulk update, one guarded update per listed approval. */
  method ExpireDue(db: Db, now: int) returns (tx: Db, expired: seq<ApprovalId>)
    ensures tx == Transactions.ExpireApprovals(db, now)
    ensures forall key :: key in expired <==> key in db.approvals && Expiring(db.approvals[key], now)
  {
    var lapsing := set key <- db.approvals | Expiring(db.approvals[key], now);
    expired := Listing(lapsing);
    var approvals := Update(db.approvals, lapsing, (item: Approval) => item.(status := Expired, decidedAt := Some(now)));
    var tasks := TimeOutWaiting(db, expired, now);
    LapsesMeansLoses(db, expired, now);
    tx := db.(approvals := approvals, tasks := tasks);
  }

  method UpsertConversation(db: Db, id: ConversationId, record: Conversation) returns (tx: Db)
    ensures tx == OpenConversation(db, id, record)
  {
    var row := record;
    if id in db.conversations {
      row := db.conversations[id].(updatedAt := record.updatedAt);
      if row.retained && row.title == EXPIRED_MARKER {
        row := row.(title := record.title);
      }
    }
    tx := db.(conversations := db.conversations[id := row]);
  }

  /** The upsert by external key, and the retention the request asks for. */
  method PrepareConversation(db: Db, id: ConversationId, record: Conversation, apply: bool) returns (tx: Db)
    ensures tx == ApplyRetention(OpenConversation(db, id, record), id, record, apply)
  {
    tx := UpsertConversation(db, id, record);
    if apply {
      tx := Switch(tx, id, record.retained, record.updatedAt);
    }
  }

  method Switch(db: Db, id: ConversationId, enabled: bool, now: int) returns (tx: Db)
    requires id in db.conversations
    ensures Transactions.SetTranscriptRetention(db, id, enabled, now) == Commit(tx)
  {
    if enabled {
      tx := db.(conversations := db.conversations[id := db.conversations[id].(retained := true, updatedAt := now)]);
    } else {
      tx := DisableRetention(db, id, now);
    }
  }

  lemma KeysStay(db: Db, id: ConversationId, record: Conversation, apply: bool)
    ensures ApplyRetention(OpenConversation(db, id, record), id, record, apply).taskKeys == db.taskKeys
  {}

  method CreateGraph(db: Db, rows: seq<(TaskId, Task)>, deps: seq<(TaskId, TaskId)>) returns (tx: Db, problem: Option<Error>)
    requires rows != [] && rows[0].1.fixed.idempotencyKey !in db.taskKeys
    ensures problem == Transactions.CreateTaskGraph(db, rows, deps).Problem()
    ensures problem.None? ==> Transactions.CreateTaskGraph(db, rows, deps) == Commit(tx)
  {
    tx, problem := InsertNodes(db, rows, rows[0].0);
    if problem.None? {
      tx, problem := InsertEdges(tx, deps);
    }
  }

  method InsertWithApproval(db: Db, id: TaskId, row: Task, requested: Option<Approval>) returns (tx: Tx)
    requires row.fixed.idempotencyKey !in db.taskKeys
    ensures tx == Transactions.CreateTaskWithApproval(db, id, row, requested)
    ensures tx.Commit? <==> id !in db.tasks && (requested.Some? ==> ApprovalKey(id) !in db.approvals)
    ensures tx.Commit? ==> NewlyCreated(db, id, row, requested, tx.db)
  {
    tx := InsertTask(db, id, row);
    if tx.Abort? || requested.None? {
      return;
    }
    if ApprovalKey(id) in db.approvals {
      return Abort(Conflict);
    }
    tx := Commit(tx.db.(approvals := db.approvals[ApprovalKey(id) := requested.value.(task := id)]));
  }

  lemma LapsesMeansLoses(db: Db, keys: seq<ApprovalId>, now: int)
    requires forall key :: key in keys <==> key in db.approvals && Expiring(db.approvals[key], now)
    ensures forall id :: Lapses(db.approvals, keys, id) == LosesApproval(db, id, now)
  {}

  /** ORDER BY priority DESC, created_at LIMIT 1. */
  method First(db: Db, candidates: set<TaskId>) returns (first: TaskId)
    requires candidates != {} && candidates <= db.tasks.Keys
    ensures first in candidates && forall id :: id in candidates ==> NoLaterThan(db.tasks[first], db.tasks[id])
  {
    first :| first in candidates;
    var rest := candidates - {first};
    while rest != {}
      invariant rest < candidates && first in candidates && first !in rest
      invariant forall id :: id in candidates && id !in rest ==> NoLaterThan(db.tasks[first], db.tasks[id])
      decreases rest
    {
      var id :| id in rest;
      if !NoLaterThan(db.tasks[first], db.tasks[id]) {
        first := id;
      }
      rest := rest - {id};
    }
  }

  /** The completed row, the announced records and, if the transcript is not kept, the erasure. */
  method RecordOutcome(db: Db, id: TaskId, answer: Answer, outcome: Outcome, now: int) returns (tx: Db)
    requires id in db.tasks && id == db.tasks[id].fixed.root && Completable(db.tasks[id].status)
    requires OutcomeMatches(db, id, outcome)
    ensures Commit(tx) == Transactions.CompleteTaskWithOutcome(db, id, answer, outcome, now)
  {
    var conversation := db.tasks[id].fixed.conversation;
    var retain := conversation.None? || db.conversations[conversation.value].retained;
    tx := SetTask(db, id, CompletedRow(db.tasks[id], answer, now));
    if outcome.turn.Some? {
      tx := InsertTurn(tx, outcome.turn.value.0, outcome.turn.value.1, retain);
    }
    if outcome.delivery.Some? {
      tx := InsertDelivery(tx, outcome.delivery.value.0, outcome.delivery.value.1);
    }
    if !retain {
      tx := ScrubEvents(tx, db.conversations[conversation.value].externalKey);
      if !GraphActive(tx, id) {
        tx := ScrubContent(tx, id);
      }
    }
  }
}
