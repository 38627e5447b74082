/**
 What creating work may do to the database, and that every step of the daemon either creates
 work or evolves the rows that exist.
 */
module Growth {
  import opened Model
  import opened Transactions
  import opened Evolution
  import opened Retention
  import opened Runtime

  ghost predicate PendingFor(db: Db, id: TaskId) {
    ApprovalKey(id) in db.approvals && db.approvals[ApprovalKey(id)].status.Pending?
  }

  predicate IsRoot(db: Db, root: TaskId) {
    root in db.tasks && db.tasks[root].fixed.root == root
  }

  /** Node and dependencies as delegation and shell requests build them. */
  ghost predicate WellPlaced(db: Db, id: TaskId)
    requires id in db.tasks
  {
    var fixed := db.tasks[id].fixed;
    && IsId(id)
    && IsRoot(db, fixed.root)
    && (fixed.conversation.Some? ==> fixed.conversation.value in db.conversations)
    && (fixed.kind.Synthesis? ==> fixed.root == id && fixed.agent == SYNTHESIZER)
    && (fixed.kind.Shell? ==> fixed.root == id)
    && (fixed.root != id ==> (fixed.root, id) in db.deps)
  }

  ghost predicate WellLinked(db: Db, task: TaskId, dependency: TaskId) {
    && task in db.tasks && dependency in db.tasks && task != dependency
    && db.tasks[task].fixed.kind.Synthesis?
    && db.tasks[dependency].fixed.root == task
  }

  /** A new node is queued, or it waits for the pending approval that was created with it. */
  ghost predicate NewNode(db: Db, next: Db, id: TaskId)
    requires id in next.tasks
  {
    var row := next.tasks[id];
    && FreshRow(row)
    && WellPlaced(next, id)
    && row.fixed.root !in db.tasks
    && (row.status.Queued? || row.status.WaitingForApproval?)
    && (row.status.WaitingForApproval? ==>
          PendingFor(next, id) && next.approvals[ApprovalKey(id)].arguments == row.content.input)
  }

  ghost predicate NewApproval(db: Db, next: Db, key: ApprovalId)
    requires key in next.approvals
  {
    var id := next.approvals[key].task;
    && key == ApprovalKey(id) && id in next.tasks && id !in db.tasks
    && next.tasks[id].fixed.kind.Shell? && next.tasks[id].status.WaitingForApproval?
  }

  ghost predicate Grows(db: Db, next: Db) {
    && (forall id :: id in db.tasks ==> id in next.tasks && next.tasks[id] == db.tasks[id])
    && (forall id :: id in next.tasks && id !in db.tasks ==> NewNode(db, next, id))
    && db.deps <= next.deps
    && (forall dep :: dep in next.deps && dep !in db.deps ==> dep.0 !in db.tasks && WellLinked(next, dep.0, dep.1))
    && (forall key :: key in db.approvals ==> key in next.approvals && next.approvals[key] == db.approvals[key])
    && (forall key :: key in next.approvals && key !in db.approvals ==> NewApproval(db, next, key))
    && next.invocations == db.invocations
    && db.conversations.Keys <= next.conversations.Keys
  }

  // ---------------------------------------------------------------- requests

  lemma {:induction false} InsertTasksKeeps(db: Db, rows: seq<(TaskId, Task)>, root: TaskId, next: Db)
    requires InsertTasks(db, rows, root) == Commit(next)
    ensures next == db.(tasks := next.tasks, taskKeys := next.taskKeys)
    ensures forall id :: id in db.tasks ==> id in next.tasks && next.tasks[id] == db.tasks[id]
    ensures forall id :: id in next.tasks && id !in db.tasks ==> exists i :: 0 <= i < |rows| && rows[i].0 == id
    decreases |rows|
  {
    if rows != [] {
      var mid := InsertTask(db, rows[0].0, rows[0].1).db;
      InsertTasksKeeps(mid, rows[1..], root, next);
      forall id | id in next.tasks && id !in db.tasks ensures exists i :: 0 <= i < |rows| && rows[i].0 == id {
        if id !in mid.tasks {
          var i :| 0 <= i < |rows[1..]| && rows[1..][i].0 == id;
          assert rows[i + 1].0 == id;
        } else {
          assert rows[0].0 == id;
        }
      }
    }
  }

  lemma {:induction false} InsertTasksAdds(db: Db, rows: seq<(TaskId, Task)>, root: TaskId, next: Db, i: nat)
    requires InsertTasks(db, rows, root) == Commit(next)
    requires i < |rows| && rows[i].1.version != 0
    ensures rows[i].0 !in db.tasks && rows[i].0 in next.tasks && next.tasks[rows[i].0] == rows[i].1
    ensures i > 0 ==> rows[i].0 != rows[0].0
    decreases |rows|
  {
    var mid := InsertTask(db, rows[0].0, rows[0].1).db;
    InsertTasksKeeps(mid, rows[1..], root, next);
    if i > 0 {
      InsertTasksAdds(mid, rows[1..], root, next, i - 1);
    } else {
      assert mid.tasks[rows[0].0] == rows[0].1;
    }
  }

  /** An ask graph after the INSERTs: its nodes and the edges from its root. */
  ghost predicate Inserted(db: Db, rows: seq<(TaskId, Task)>, next: Db)
    requires rows != []
  {
    && (forall i | 0 <= i < |rows| ::
          rows[i].0 !in db.tasks && rows[i].0 in next.tasks && next.tasks[rows[i].0] == rows[i].1)
    && (forall i | 1 <= i < |rows| :: rows[0].0 != rows[i].0 && (rows[0].0, rows[i].0) in next.deps)
  }

  lemma AskNode(db: Db, conversation: ConversationId, rows: seq<(TaskId, Task)>, next: Db, i: nat)
    requires AskShape(conversation, rows) && conversation in next.conversations
    requires Inserted(db, rows, next) && i < |rows|
    ensures NewNode(db, next, rows[i].0)
  {
    assert rows[i] in rows && rows[0] in rows;
    assert next.tasks[rows[0].0].fixed.root == rows[0].0;
  }

  lemma AskEdge(db: Db, conversation: ConversationId, rows: seq<(TaskId, Task)>, next: Db, i: nat)
    requires AskShape(conversation, rows)
    requires Inserted(db, rows, next) && 1 <= i < |rows|
    ensures rows[0].0 !in db.tasks && WellLinked(next, rows[0].0, rows[i].0)
  {
    assert rows[i] in rows && rows[0] in rows;
  }

  lemma AskInserted(db: Db, base: Db, rows: seq<(TaskId, Task)>, full: Db, next: Db)
    requires rows != [] && forall node <- rows :: FreshRow(node.1)
    requires base.tasks == db.tasks
    requires InsertTasks(base, rows, rows[0].0) == Commit(full)
    requires next == full.(deps := full.deps + Edges(StarEdges(rows)))
    ensures Inserted(db, rows, next)
  {
    forall i | 0 <= i < |rows|
      ensures rows[i].0 !in db.tasks && rows[i].0 in next.tasks && next.tasks[rows[i].0] == rows[i].1
      ensures i > 0 ==> rows[0].0 != rows[i].0
    {
      assert rows[i] in rows;
      InsertTasksAdds(base, rows, rows[0].0, full, i);
    }
    forall i | 1 <= i < |rows| ensures (rows[0].0, rows[i].0) in next.deps {
      assert StarEdges(rows)[i - 1] == (rows[0].0, rows[i].0);
    }
  }

  lemma AskNewNodes(db: Db, conversation: ConversationId, rows: seq<(TaskId, Task)>, next: Db)
    requires AskShape(conversation, rows) && conversation in next.conversations && Inserted(db, rows, next)
    requires forall id :: id in next.tasks && id !in db.tasks ==> exists i :: 0 <= i < |rows| && rows[i].0 == id
    ensures forall id :: id in next.tasks && id !in db.tasks ==> NewNode(db, next, id)
  {
    forall id | id in next.tasks && id !in db.tasks ensures NewNode(db, next, id) {
      var i :| 0 <= i < |rows| && rows[i].0 == id;
      AskNode(db, conversation, rows, next, i);
    }
  }

  lemma AskNewEdges(db: Db, conversation: ConversationId, rows: seq<(TaskId, Task)>, next: Db)
    requires AskShape(conversation, rows) && Inserted(db, rows, next)
    ensures forall dep :: dep in Edges(StarEdges(rows)) ==> dep.0 !in db.tasks && WellLinked(next, dep.0, dep.1)
  {
    forall dep | dep in Edges(StarEdges(rows)) ensures dep.0 !in db.tasks && WellLinked(next, dep.0, dep.1) {
      var i :| 0 <= i < |rows| - 1 && StarEdges(rows)[i] == dep;
      AskEdge(db, conversation, rows, next, i + 1);
    }
  }

  /** Turn and graph, on a database that knows the conversation. */
  lemma AskWorkGrows(known: Db, base: Db, conversation: ConversationId, rows: seq<(TaskId, Task)>, full: Db, next: Db)
    requires AskShape(conversation, rows) && conversation in known.conversations
    requires base == known.(turns := base.turns)
    requires InsertTasks(base, rows, rows[0].0) == Commit(full)
    requires next == full.(deps := full.deps + Edges(StarEdges(rows)))
    ensures Grows(known, next)
    ensures next == known.(turns := base.turns, tasks := next.tasks, taskKeys := next.taskKeys, deps := next.deps)
  {
    AskInserted(known, base, rows, full, next);
    InsertTasksKeeps(base, rows, rows[0].0, full);
    AskNewNodes(known, conversation, rows, next);
    AskNewEdges(known, conversation, rows, next);
  }

  lemma OpeningGrows(db: Db, id: ConversationId, record: Conversation)
    ensures Grows(db, OpenConversation(db, id, record))
  {}

  /** The retention switch of a request is the one an operator could have made. */
  lemma SwitchEvolves(entered: Db, id: ConversationId, record: Conversation, apply: bool, known: Db)
    requires known == ApplyRetention(entered, id, record, apply)
    ensures Evolves(entered, known, None) && HandsOff(entered, known)
  {
    if apply {
      RetentionEvolves(entered, id, record.retained, record.updatedAt, known);
    } else {
      UnchangedEvolves(entered);
    }
  }

  lemma AskCommitted(db: Db, id: ConversationId, record: Conversation, apply: bool, turn: (TurnId, Turn),
                     rows: seq<(TaskId, Task)>, known: Db, next: Db) returns (base: Db)
    requires CreateAskWork(db, id, record, apply, turn, rows) == Commit(next)
    requires rows[0].1.fixed.idempotencyKey !in db.taskKeys
    requires known == ApplyRetention(OpenConversation(db, id, record), id, record, apply)
    ensures id in known.conversations
    ensures base == InsertTurn(known, turn.0, turn.1.(conversation := id), known.conversations[id].retained)
    ensures InsertTasks(base, rows, rows[0].0).Commit?
    ensures var full := InsertTasks(base, rows, rows[0].0).db; next == full.(deps := full.deps + Edges(StarEdges(rows)))
  {
    base := InsertTurn(known, turn.0, turn.1.(conversation := id), known.conversations[id].retained);
    assert CreateTaskGraph(base, rows, StarEdges(rows)) == Commit(next);
    assert base.taskKeys == db.taskKeys by {
      SwitchEvolves(OpenConversation(db, id, record), id, record, apply, known);
    }
  }

  /**
   An ask opens its conversation, may switch the conversation's retention like an operator, and then
   adds a whole graph without changing any other row; or it changes nothing.
   */
  lemma AskGrows(db: Db, id: ConversationId, record: Conversation, apply: bool, turn: (TurnId, Turn),
                 rows: seq<(TaskId, Task)>, next: Db)
    requires AskShape(id, rows)
    requires CreateAskWork(db, id, record, apply, turn, rows) == Commit(next)
    ensures next == db ||
            var entered := OpenConversation(db, id, record);
            var known := ApplyRetention(entered, id, record, apply);
            && Grows(db, entered)
            && Evolves(entered, known, None) && HandsOff(entered, known)
            && Grows(known, next)
  {
    if rows[0].1.fixed.idempotencyKey !in db.taskKeys {
      var entered := OpenConversation(db, id, record);
      var known := ApplyRetention(entered, id, record, apply);
      OpeningGrows(db, id, record);
      SwitchEvolves(entered, id, record, apply, known);
      var base := AskCommitted(db, id, record, apply, turn, rows, known, next);
      AskWorkGrows(known, base, id, rows, InsertTasks(base, rows, rows[0].0).db, next);
    }
  }

  lemma ShellReplay(db: Db, id: TaskId, row: Task, gated: bool, expiresAt: int, next: Db)
    requires row.fixed.idempotencyKey in db.taskKeys
    requires forall other :: other in db.tasks && db.tasks[other].status.WaitingForApproval? ==>
               PendingFor(db, other) && db.approvals[ApprovalKey(other)].task == other
    requires CreateTaskWithApproval(db, id, row, RequestedApproval(id, row, gated, expiresAt)) == Commit(next)
    ensures next == db
  {
    var other := db.taskKeys[row.fixed.idempotencyKey];
    assert !WaitsUnapproved(db, other);
  }

  lemma ShellGrows(db: Db, id: TaskId, row: Task, gated: bool, expiresAt: int, next: Db)
    requires ShellShape(id, row, gated)
    requires row.fixed.conversation.Some? ==> row.fixed.conversation.value in db.conversations
    requires row.fixed.idempotencyKey !in db.taskKeys
    requires CreateTaskWithApproval(db, id, row, RequestedApproval(id, row, gated, expiresAt)) == Commit(next)
    ensures Grows(db, next)
  {
    assert next == db.(tasks := db.tasks[id := row], taskKeys := next.taskKeys, approvals := next.approvals);
    if gated {
      assert next.approvals == db.approvals[ApprovalKey(id) := RequestedApproval(id, row, gated, expiresAt).value];
      assert NewApproval(db, next, ApprovalKey(id));
    } else {
      assert next.approvals == db.approvals;
    }
    assert NewNode(db, next, id);
  }

  // ---------------------------------------------------------------- every step evolves or grows

  /** A pending approval shields its graph from the sweep. */
  lemma PendingShields(db: Db, key: ApprovalId, cutoff: int)
    requires key in db.approvals && db.approvals[key].status.Pending?
    ensures !InEligible(db, db.approvals[key].task, cutoff)
  {
    if db.approvals[key].task in db.tasks {
      assert GraphOwes(db, db.tasks[db.approvals[key].task].fixed.root);
    }
  }

  lemma SweptLedgers(db: Db, cutoff: int, next: Db)
    requires next.approvals == SweepApprovals(db, cutoff).approvals
    requires next.invocations == SweepInvocations(db, cutoff).invocations
    ensures LedgersEvolve(db, next)
  {
    assert next.approvals.Keys == db.approvals.Keys;
    forall key | key in db.approvals ensures ApprovalEvolves(db.approvals[key], next.approvals[key]) {
      if db.approvals[key].status.Pending? {
        PendingShields(db, key, cutoff);
      }
    }
  }

  lemma SweptRows(db: Db, cutoff: int, next: Db)
    requires next == Sweep(db, cutoff)
    ensures Evolves(db, next, None) && HandsOff(db, next)
  {
    assert next.tasks.Keys == db.tasks.Keys;
    SweptLedgers(db, cutoff, next);
    forall id | id in db.tasks ensures QuietStep(db.tasks[id], next.tasks[id]) {
      if TaskExpires(db, id, cutoff) {
        assert db.tasks[id].status.Terminal();
      }
    }
    QuietEvolves(db, next);
  }

  lemma SweepEvolves(db: Db, cutoff: int, sweptAt: int, audit: string, correlation: string, next: Db)
    requires next == SweepTx(db, cutoff, sweptAt, audit, correlation).Over(db)
    ensures Evolves(db, next, None) && HandsOff(db, next)
  {
    if SweepTx(db, cutoff, sweptAt, audit, correlation).Commit? {
      SweptRows(db, cutoff, Sweep(db, cutoff));
    } else {
      UnchangedEvolves(db);
    }
  }

  /** A request from outside: no worker moves, and a worker's row is at most asked to stop. */
  ghost predicate Outside(s: Sys, t: Sys, retried: Option<TaskId>) {
    && t == s.(db := t.db, past := s.past.(consents := t.past.consents))
    && Evolves(s.db, t.db, retried)
    && HandsOff(s.db, t.db)
  }

  /** Creating work: no existing row changes. */
  ghost predicate Admits(s: Sys, t: Sys) {
    && t == s.(db := t.db, past := s.past.(inputs := t.past.inputs))
    && (t.db == s.db || Grows(s.db, t.db))
    && t.past.inputs == FirstInputs(s.past.inputs, s.db, t.db)
  }

  /** A step of one worker: only the row it took changes status. */
  ghost predicate Works(s: Sys, t: Sys, worker: nat, id: TaskId) {
    && t.up == s.up
    && t.past.inputs == s.past.inputs && t.past.consents == s.past.consents
    && t.workers - {worker} == s.workers - {worker}
    && Evolves(s.db, t.db, None)
    && OnlyMoves(s.db, t.db, id)
  }

  predicate Creates(step: Step) { step.Ask? || step.RunShell? }

  function RetriedBy(s: Sys, step: Step): Option<TaskId> {
    if step.Control? && step.command.Retry? then RetriedGraph(s.db, step.command.id) else None
  }

  function RetriedByCommand(db: Db, command: Command): Option<TaskId> {
    if command.Retry? then RetriedGraph(db, command.id) else None
  }

  lemma CommandEvolves(db: Db, command: Command, next: Db)
    requires next == Commanded(db, command)
    ensures Evolves(db, next, RetriedByCommand(db, command)) && HandsOff(db, next)
  {
    match command
    case Decide(key, actor, approved, now) => DecideEvolves(db, key, actor, approved, now, next);
    case ExpireAll(now) => ExpireEvolves(db, now, next);
    case Retry(id) => RetryEvolves(db, id, next);
    case Dismiss(id) => DismissEvolves(db, id, next);
    case Prioritize(id, priority) => PriorityEvolves(db, id, priority, next);
    case CancelGraph(id, now) => CancelEvolves(db, id, now, next);
    case Retain(conversation, enabled, now) => RetentionEvolves(db, conversation, enabled, now, next);
    case Progress(id, percent, message) => ProgressEvolves(db, id, percent, message, next);
    case Scrub(root) => ScrubTerminalEvolves(db, root, next);
    case SweepAll(cutoff, sweptAt, audit, correlation) => SweepEvolves(db, cutoff, sweptAt, audit, correlation, next);
  }

  lemma CommandSteps(s: Sys, command: Command, t: Sys)
    requires t == Obey(s, command)
    ensures Outside(s, t, RetriedByCommand(s.db, command))
  {
    CommandEvolves(s.db, command, t.db);
  }

  /** The approvals of all waiting tasks are on record, so replaying a shell request repairs nothing. */
  ghost predicate Gated(db: Db) {
    forall id :: id in db.tasks && db.tasks[id].status.WaitingForApproval? ==>
      PendingFor(db, id) && db.approvals[ApprovalKey(id)].task == id
  }

  lemma NothingNew(past: map<TaskId, string>, db: Db)
    ensures FirstInputs(past, db, db) == past
  {}

  /** A shell request is an admission. */
  lemma ShellAdmits(s: Sys, id: TaskId, row: Task, gated: bool, expiresAt: int, t: Sys)
    requires t == DoShell(s, id, row, gated, expiresAt) && Gated(s.db)
    ensures Admits(s, t)
  {
    NothingNew(s.past.inputs, s.db);
    if t.db != s.db {
      if row.fixed.idempotencyKey in s.db.taskKeys {
        ShellReplay(s.db, id, row, gated, expiresAt, t.db);
      } else {
        ShellGrows(s.db, id, row, gated, expiresAt, t.db);
      }
    }
  }

  /** The state of a request that has opened its conversation. */
  function Entered(s: Sys, id: ConversationId, record: Conversation): Sys {
    Store(s, OpenConversation(s.db, id, record))
  }

  /** And that has switched its retention, which is a command. */
  function Switched(s: Sys, id: ConversationId, record: Conversation, apply: bool): Sys {
    if apply then Obey(Entered(s, id, record), Retain(id, record.retained, record.updatedAt)) else Entered(s, id, record)
  }

  lemma SwitchedDb(s: Sys, id: ConversationId, record: Conversation, apply: bool, m: Sys)
    requires m == Switched(s, id, record, apply)
    ensures m.db == ApplyRetention(OpenConversation(s.db, id, record), id, record, apply)
    ensures m == s.(db := m.db)
  {}

  lemma EnteringAdmits(s: Sys, id: ConversationId, record: Conversation)
    ensures Admits(s, Entered(s, id, record))
  {
    OpeningGrows(s.db, id, record);
    NothingNew(s.past.inputs, s.db);
    assert FirstInputs(s.past.inputs, s.db, OpenConversation(s.db, id, record)) == FirstInputs(s.past.inputs, s.db, s.db);
  }

  /** An ask that does something is an opening, perhaps a retention command, and an admission. */
  lemma AskAdmits(s: Sys, id: ConversationId, record: Conversation, apply: bool, turn: (TurnId, Turn),
                  rows: seq<(TaskId, Task)>, t: Sys)
    requires t == DoAsk(s, id, record, apply, turn, rows) && t != s
    ensures Admits(s, Entered(s, id, record))
    ensures Admits(Switched(s, id, record, apply), t)
  {
    EnteringAdmits(s, id, record);
    NothingNew(s.past.inputs, s.db);
    var m := Switched(s, id, record, apply);
    SwitchedDb(s, id, record, apply, m);
    AskGrows(s.db, id, record, apply, turn, rows, t.db);
    assert m.db.tasks.Keys == s.db.tasks.Keys;
    SameFirstInputs(s.past.inputs, s.db, m.db, t.db);
  }

  lemma SameFirstInputs(past: map<TaskId, string>, db: Db, mid: Db, next: Db)
    requires mid.tasks.Keys == db.tasks.Keys
    ensures FirstInputs(past, mid, next) == FirstInputs(past, db, next)
  {}

  /** The task a worker's step is about. */
  function TaskOf(s: Sys, worker: nat, job: Job): TaskId {
    if job.Claim? then job.id else if worker in s.workers then s.workers[worker].id else ""
  }

  lemma SettleCompleteWorks(s: Sys, worker: nat, route: Option<(string, DeliveryStatus)>, now: int, t: Sys)
    requires worker in s.workers && s.workers[worker].Finishing? && s.workers[worker].action.Complete?
    requires t == SettleComplete(s, worker, route, now)
    ensures Works(s, t, worker, s.workers[worker].id)
  {
    var held := s.workers[worker];
    var tx := CompletionTx(s.db, held, route, now);
    if tx.Abort? {
      UnchangedEvolves(s.db);
    } else if held.id == held.row.fixed.root {
      OutcomeEvolves(s.db, held.id, held.action.answer,
                     FinalOutcome(held.id, held.row, held.action.answer, route, now), now, tx.db);
    } else {
      CompleteEvolves(s.db, held.id, held.action.answer, now, tx.db);
    }
  }

  lemma LeavingEvolves(db: Db, held: Worker, now: int, next: Db)
    requires held.Finishing? && !held.action.Complete? && LeavingTx(db, held, now) == Commit(next)
    ensures Evolves(db, next, None) && OnlyMoves(db, next, held.id)
  {
    match held.action
    case Requeue(error, _, _) => RequeueEvolves(db, held.id, error, next);
    case Fail(error, timedOut) => FailEvolves(db, held.id, error, timedOut, now, next);
    case Cancel => MarkCancelledEvolves(db, held.id, now, next);
  }

  lemma SettleOtherWorks(s: Sys, worker: nat, now: int, t: Sys)
    requires worker in s.workers && s.workers[worker].Finishing? && !s.workers[worker].action.Complete?
    requires t == SettleOther(s, worker, now)
    ensures Works(s, t, worker, s.workers[worker].id)
  {
    if LeavingTx(s.db, s.workers[worker], now).Commit? {
      LeavingEvolves(s.db, s.workers[worker], now, t.db);
    } else {
      UnchangedEvolves(s.db);
    }
  }

  lemma SettleWorks(s: Sys, worker: nat, route: Option<(string, DeliveryStatus)>, now: int, t: Sys)
    requires worker in s.workers && t == DoSettle(s, worker, route, now)
    ensures Works(s, t, worker, s.workers[worker].id)
  {
    if !s.workers[worker].Finishing? {
      UnchangedEvolves(s.db);
    } else if s.workers[worker].action.Complete? {
      SettleCompleteWorks(s, worker, route, now, t);
    } else {
      SettleOtherWorks(s, worker, now, t);
    }
  }

  lemma ClaimWorks(s: Sys, worker: nat, id: TaskId, t: Sys)
    requires t == DoClaim(s, worker, id)
    ensures Works(s, t, worker, id)
  {
    if t == s {
      UnchangedEvolves(s.db);
    } else {
      ClaimEvolves(s.db, id, t.db);
    }
  }

  lemma BeginWorks(s: Sys, worker: nat, now: int, t: Sys)
    requires worker in s.workers && t == DoBegin(s, worker, now)
    ensures Works(s, t, worker, s.workers[worker].id)
  {
    var held := s.workers[worker];
    if held.Claimed? && StartTask(s.db, held.id, held.row.version, now).Commit? {
      StartEvolves(s.db, held.id, held.row.version, now, t.db);
    } else {
      UnchangedEvolves(s.db);
    }
  }

  /** A worker writes an invocation row and no task row. */
  lemma LedgerWorks(s: Sys, t: Sys, worker: nat, id: TaskId)
    requires t == s.(workers := t.workers, db := s.db.(invocations := t.db.invocations))
    requires t.workers - {worker} == s.workers - {worker}
    requires forall key :: key in s.db.invocations ==>
               key in t.db.invocations && InvocationEvolves(s.db.invocations[key], t.db.invocations[key])
    ensures Works(s, t, worker, id)
  {
    forall other | other in s.db.tasks ensures QuietStep(s.db.tasks[other], t.db.tasks[other]) {}
    QuietEvolves(s.db, t.db);
  }

  lemma IdleWorks(s: Sys, t: Sys, worker: nat, id: TaskId)
    requires t == s.(workers := t.workers, past := s.past.(launches := t.past.launches))
    requires t.workers - {worker} == s.workers - {worker}
    ensures Works(s, t, worker, id)
  {
    UnchangedEvolves(s.db);
  }

  lemma ShellStartsWorks(s: Sys, worker: nat, input: string, t: Sys)
    requires worker in s.workers && t == DoShellStarts(s, worker, input)
    ensures Works(s, t, worker, s.workers[worker].id) && t.db.tasks == s.db.tasks
  {
    var held := s.workers[worker];
    if LaunchAllowed(held, input) && StartToolInvocation(s.db, held.id, input).Commit? {
      LedgerWorks(s, t, worker, held.id);
    } else {
      IdleWorks(s, t, worker, held.id);
    }
  }

  lemma ShellReturnsWorks(s: Sys, worker: nat, output: string, failure: Option<Failure>, now: int, t: Sys)
    requires worker in s.workers && t == DoShellReturns(s, worker, output, failure, now)
    ensures Works(s, t, worker, s.workers[worker].id) && t.db.tasks == s.db.tasks
  {
    var held := s.workers[worker];
    if held.Executing? && FinishToolInvocation(s.db, InvocationKey(held.id), output, ErrorOf(failure), now).Commit? {
      LedgerWorks(s, t, worker, held.id);
    } else {
      IdleWorks(s, t, worker, held.id);
    }
  }

  lemma WorkerSteps(s: Sys, worker: nat, job: Job, t: Sys)
    requires t == Toil(s, worker, job)
    ensures Works(s, t, worker, TaskOf(s, worker, job))
  {
    if job.Claim? {
      ClaimWorks(s, worker, job.id, t);
    } else if worker !in s.workers {
      IdleWorks(s, t, worker, "");
    } else if job.Begin? {
      BeginWorks(s, worker, job.now, t);
    } else if job.ShellStarts? {
      ShellStartsWorks(s, worker, job.input, t);
    } else if job.ShellReturns? {
      ShellReturnsWorks(s, worker, job.output, job.failure, job.now, t);
    } else if job.Settle? {
      SettleWorks(s, worker, job.route, job.now, t);
    } else {
      IdleWorks(s, t, worker, s.workers[worker].id);
    }
  }

  lemma RecoverStep(s: Sys, now: int, t: Sys)
    requires t == DoRecover(s, now)
    ensures Evolves(s.db, t.db, None) && t.past == s.past
    ensures t == s || (t.up && t.workers == map[])
  {
    if s.up {
      UnchangedEvolves(s.db);
    } else {
      RecoverEvolves(s.db, now);
    }
  }

  /** Existing rows evolve, and then rows may be added. */
  ghost predicate Advances(db: Db, mid: Db, next: Db, retried: Option<TaskId>) {
    Evolves(db, mid, retried) && (next == mid || Grows(mid, next))
  }

  lemma RowAdvances(db: Db, mid: Db, next: Db, retried: Option<TaskId>, id: TaskId)
    requires Advances(db, mid, next, retried) && id in db.tasks
    ensures id in next.tasks && RowEvolves(db.tasks[id], next.tasks[id])
  {}

  lemma RowAppears(db: Db, mid: Db, next: Db, retried: Option<TaskId>, id: TaskId)
    requires Advances(db, mid, next, retried) && id !in db.tasks && id in next.tasks
    ensures FreshRow(next.tasks[id]) && (next.tasks[id].status.Queued? || next.tasks[id].status.WaitingForApproval?)
  {
    assert NewNode(mid, next, id);
  }

  lemma AskAdvances(s: Sys, id: ConversationId, record: Conversation, apply: bool, turn: (TurnId, Turn),
                    rows: seq<(TaskId, Task)>, t: Sys)
    requires t == DoAsk(s, id, record, apply, turn, rows)
    ensures exists mid :: Advances(s.db, mid, t.db, None)
  {
    if t.db == s.db {
      UnchangedEvolves(s.db);
      assert Advances(s.db, s.db, t.db, None);
    } else {
      AskGrows(s.db, id, record, apply, turn, rows, t.db);
      var entered := OpenConversation(s.db, id, record);
      var known := ApplyRetention(entered, id, record, apply);
      AsideEvolves(s.db, entered, known);
      assert Advances(s.db, known, t.db, None);
    }
  }

  lemma ShellAdvances(s: Sys, id: TaskId, row: Task, gated: bool, expiresAt: int, t: Sys)
    requires t == DoShell(s, id, row, gated, expiresAt) && Gated(s.db)
    ensures exists mid :: Advances(s.db, mid, t.db, None)
  {
    ShellAdmits(s, id, row, gated, expiresAt, t);
    UnchangedEvolves(s.db);
    assert Advances(s.db, s.db, t.db, None);
  }

  /** No step does anything else to the rows. */
  lemma StepEvolves(s: Sys, step: Step, t: Sys)
    requires t == Next(s, step) && Gated(s.db)
    ensures exists mid :: Advances(s.db, mid, t.db, RetriedBy(s, step))
  {
    match step
    case Ask(id, record, apply, turn, rows) =>
      AskAdvances(s, id, record, apply, turn, rows, t);
      var mid :| Advances(s.db, mid, t.db, None);
      assert Advances(s.db, mid, t.db, RetriedBy(s, step));
    case RunShell(id, row, gated, expiresAt) =>
      ShellAdvances(s, id, row, gated, expiresAt, t);
      var mid :| Advances(s.db, mid, t.db, None);
      assert Advances(s.db, mid, t.db, RetriedBy(s, step));
    case Control(command) =>
      CommandEvolves(s.db, command, t.db);
      assert Advances(s.db, t.db, t.db, RetriedBy(s, step));
    case Work(worker, job) =>
      WorkerSteps(s, worker, job, t);
      assert Advances(s.db, t.db, t.db, RetriedBy(s, step));
    case Recover(now) =>
      RecoverStep(s, now, t);
      assert Advances(s.db, t.db, t.db, RetriedBy(s, step));
    case Crash =>
      UnchangedEvolves(s.db);
      assert Advances(s.db, t.db, t.db, RetriedBy(s, step));
  }

  /** What a step does to a row that exists, and how a row starts that did not. */
  ghost predicate RowSteps(db: Db, next: Db, id: TaskId) {
    && (id in db.tasks ==> id in next.tasks && RowEvolves(db.tasks[id], next.tasks[id]))
    && (id !in db.tasks && id in next.tasks ==>
          FreshRow(next.tasks[id]) && (next.tasks[id].status.Queued? || next.tasks[id].status.WaitingForApproval?))
  }

  lemma AdvancingRowSteps(db: Db, mid: Db, next: Db, retried: Option<TaskId>, id: TaskId)
    requires Advances(db, mid, next, retried)
    ensures RowSteps(db, next, id)
  {
    if id in db.tasks {
      RowAdvances(db, mid, next, retried, id);
    } else if id in next.tasks {
      RowAppears(db, mid, next, retried, id);
    }
  }

  lemma StepRow(s: Sys, step: Step, t: Sys, id: TaskId)
    requires t == Next(s, step) && Gated(s.db)
    ensures RowSteps(s.db, t.db, id)
  {
    StepEvolves(s, step, t);
    var mid :| Advances(s.db, mid, t.db, RetriedBy(s, step));
    AdvancingRowSteps(s.db, mid, t.db, RetriedBy(s, step), id);
  }
}
