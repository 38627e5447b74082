/**
 What a worker can do with a task that comes first in the queue: from every reachable state it can take
 the task, run it and settle it, and the task then says how it went. The safety theorems forbid things;
 this module says that they do not forbid the work itself.
 */
module Lifecycle {
  import opened Model
  import opened Transactions
  import opened Retention
  import opened Runtime
  import opened Growth
  import opened Invariants
  import opened Synthesis
  import opened Settlement
  import Columns
  import SweepColumns

  // ---------------------------------------------------------------- taking a task

  /** Claim, start and read back. */
  function Take(s: Sys, worker: nat, id: TaskId, now: int): Sys {
    DoReadBack(DoBegin(DoClaim(s, worker, id), worker, now), worker)
  }

  /** The row after a claim and a start. */
  predicate Started(a: Task, b: Task, now: int) {
    b == a.(
      status := Running, version := a.version + 2,
      startedAt := Some(if a.startedAt.Some? then a.startedAt.value else now),
      progress := if a.progress < 1 then 1 else a.progress)
  }

  /** The worker holds the running row as it is stored, the claim is entered, and nothing else changed. */
  ghost predicate Taken(s: Sys, worker: nat, id: TaskId, now: int, t: Sys) {
    && id in s.db.tasks && id in t.db.tasks && Started(s.db.tasks[id], t.db.tasks[id], now)
    && t.db == s.db.(tasks := s.db.tasks[id := t.db.tasks[id]]) && t.up == s.up
    && t.workers == s.workers[worker := Processing(id, t.db.tasks[id])]
    && t.past == s.past.(claims := s.past.claims + multiset{id})
  }

  lemma BeginLaw(s: Sys, worker: nat, id: TaskId, now: int, t: Sys)
    requires worker in s.workers && id in s.db.tasks && s.workers[worker] == Claimed(id, s.db.tasks[id])
    requires s.db.tasks[id].status.Assigned? && t == DoBegin(s, worker, now)
    ensures id in t.db.tasks && t.workers == s.workers[worker := Worker.Starting(id)]
    ensures t == s.(db := s.db.(tasks := s.db.tasks[id := t.db.tasks[id]]), workers := t.workers)
    ensures var a := s.db.tasks[id];
            t.db.tasks[id] == a.(
              status := Running, version := a.version + 1,
              startedAt := Some(if a.startedAt.Some? then a.startedAt.value else now),
              progress := if a.progress < 1 then 1 else a.progress)
  {}

  /** A start that the store refuses leaves the store alone and the worker free. */
  lemma RefusedBegin(s: Sys, worker: nat, now: int, t: Sys)
    requires worker in s.workers && s.workers[worker].Claimed? && t == DoBegin(s, worker, now)
    requires var held := s.workers[worker];
             !(held.id in s.db.tasks && s.db.tasks[held.id].status.Assigned? && s.db.tasks[held.id].version == held.row.version)
    ensures t == s.(workers := s.workers - {worker})
  {}

  lemma TakeLaw(s: Sys, worker: nat, id: TaskId, now: int, t: Sys)
    requires s.up && worker !in s.workers && Columns.ComesFirst(s.db, id) && t == Take(s, worker, id, now)
    ensures Taken(s, worker, id, now, t)
  {
    var claimed := DoClaim(s, worker, id);
    ClaimedAs(s, worker, id, claimed);
    var begun := DoBegin(claimed, worker, now);
    BeginLaw(claimed, worker, id, now, begun);
    assert t.workers == s.workers[worker := Processing(id, t.db.tasks[id])];
    assert t.db.tasks == s.db.tasks[id := t.db.tasks[id]];
  }

  lemma ClaimedAs(s: Sys, worker: nat, id: TaskId, t: Sys)
    requires s.up && worker !in s.workers && Columns.ComesFirst(s.db, id) && t == DoClaim(s, worker, id)
    ensures id in s.db.tasks && id in t.db.tasks
    ensures t.db.tasks[id] == s.db.tasks[id].(status := Assigned, version := s.db.tasks[id].version + 1)
    ensures t == s.(db := s.db.(tasks := s.db.tasks[id := t.db.tasks[id]]),
                    workers := s.workers[worker := Claimed(id, t.db.tasks[id])],
                    past := s.past.(claims := s.past.claims + multiset{id}))
  {
    Columns.ClaimLaw(s.db, id);
  }

  lemma TakeKeepsSound(s: Sys, worker: nat, id: TaskId, now: int)
    requires Sound(s)
    ensures Sound(Take(s, worker, id, now))
  {
    var claimed := DoClaim(s, worker, id);
    JobKeepsSound(s, worker, Claim(id), claimed);
    var begun := DoBegin(claimed, worker, now);
    JobKeepsSound(claimed, worker, Begin(now), begun);
    JobKeepsSound(begun, worker, ReadBack, DoReadBack(begun, worker));
  }

  // ---------------------------------------------------------------- agents

  lemma SameChildren(db: Db, next: Db, id: TaskId, root: TaskId)
    requires id in db.tasks && id in next.tasks && next.tasks == db.tasks[id := next.tasks[id]]
    requires next.tasks[id].fixed == db.tasks[id].fixed
    ensures SomeChildFailed(next, id, root) == SomeChildFailed(db, id, root)
  {
    if SomeChildFailed(db, id, root) {
      var child :| child in db.tasks && child != id && db.tasks[child].fixed.root == root && !db.tasks[child].status.Succeeded();
      assert child in next.tasks && next.tasks[child] == db.tasks[child];
    }
  }

  /** What an agent answers becomes how the worker intends to leave the task. */
  lemma AnswerIsHeld(t: Sys, worker: nat, id: TaskId, action: Action, u: Sys)
    requires worker in t.workers && id in t.db.tasks && t.workers[worker] == Processing(id, t.db.tasks[id])
    requires !t.db.tasks[id].fixed.kind.Shell? && AgentMay(t.db, t.workers[worker], action)
    requires u == DoAgentReturns(t, worker, action)
    ensures u == t.(workers := t.workers[worker := Finishing(id, t.db.tasks[id], action)])
  {}

  /** How a task ends when its agent answered, and what else is true then. */
  ghost predicate Finished(s: Sys, worker: nat, id: TaskId, answer: Answer, u: Sys) {
    && id in u.db.tasks && worker !in u.workers && u.past.claims == s.past.claims + multiset{id}
    && u.db.tasks[id].status == if answer.partial then PartiallyCompleted else Completed
  }

  /**
   From every reachable state in which the daemon is up, a worker is idle and the task comes first in the
   queue: the worker can take it, the agent's answer is accepted, and the task succeeds as the answer says.
   */
  lemma WorkCanFinish(steps: seq<Step>, s: Sys, worker: nat, id: TaskId, now: int, t: Sys, answer: Answer, v: Sys,
                      route: Option<(string, DeliveryStatus)>, later: int, u: Sys)
    requires s == Run(START, steps) && s.up && worker !in s.workers && Columns.ComesFirst(s.db, id)
    requires id in s.db.tasks && !s.db.tasks[id].fixed.kind.Shell?
    requires s.db.tasks[id].fixed.agent == SYNTHESIZER ==>
               answer.partial == SomeChildFailed(s.db, id, s.db.tasks[id].fixed.root)
    requires t == Take(s, worker, id, now) && v == DoAgentReturns(t, worker, Complete(answer))
    requires u == DoSettle(v, worker, route, later)
    ensures Finished(s, worker, id, answer, u)
  {
    RunIsSound(steps);
    AnswerIsAccepted(s, worker, id, now, t, answer, v);
    AnsweredFinishes(t, v, worker, id, answer, route, later, u);
  }

  lemma AnswerIsAccepted(s: Sys, worker: nat, id: TaskId, now: int, t: Sys, answer: Answer, v: Sys)
    requires Sound(s) && s.up && worker !in s.workers && Columns.ComesFirst(s.db, id)
    requires id in s.db.tasks && !s.db.tasks[id].fixed.kind.Shell?
    requires s.db.tasks[id].fixed.agent == SYNTHESIZER ==>
               answer.partial == SomeChildFailed(s.db, id, s.db.tasks[id].fixed.root)
    requires t == Take(s, worker, id, now) && v == DoAgentReturns(t, worker, Complete(answer))
    ensures Sound(v) && worker in v.workers && v.workers[worker].Finishing?
    ensures v.workers[worker].id == id && v.workers[worker].action == Complete(answer)
    ensures v.past == t.past && t.past.claims == s.past.claims + multiset{id}
  {
    TakeLaw(s, worker, id, now, t);
    TakeKeepsSound(s, worker, id, now);
    SameChildren(s.db, t.db, id, s.db.tasks[id].fixed.root);
    AnswerIsHeld(t, worker, id, Complete(answer), v);
    AnswerKeepsSound(t, worker, Complete(answer), v);
  }

  lemma AnswerKeepsSound(t: Sys, worker: nat, action: Action, v: Sys)
    requires Sound(t) && v == DoAgentReturns(t, worker, action)
    ensures Sound(v)
  {
    JobKeepsSound(t, worker, AgentReturns(action), v);
  }

  lemma AnsweredFinishes(t: Sys, v: Sys, worker: nat, id: TaskId, answer: Answer,
                         route: Option<(string, DeliveryStatus)>, later: int, u: Sys)
    requires Sound(v) && worker in v.workers && v.workers[worker].Finishing?
    requires v.workers[worker].id == id && v.workers[worker].action == Complete(answer) && v.past == t.past
    requires u == DoSettle(v, worker, route, later)
    ensures id in u.db.tasks && worker !in u.workers && u.past.claims == t.past.claims
    ensures u.db.tasks[id].status == if answer.partial then PartiallyCompleted else Completed
  {
    CompleteSettles(v, worker, route, later, u);
    CompletionCommits(v, worker, route, later);
  }

  // ---------------------------------------------------------------- commands

  /** The command of a task is on record before it is launched, and the launch is entered. */
  lemma CommandStarts(t: Sys, worker: nat, id: TaskId, v: Sys)
    requires Sound(t) && worker in t.workers && id in t.db.tasks && t.workers[worker] == Processing(id, t.db.tasks[id])
    requires t.db.tasks[id].fixed.kind.Shell? && InvocationKey(id) !in t.db.invocations
    requires v == DoSpawn(DoShellStarts(t, worker, t.db.tasks[id].content.input), worker)
    ensures worker in v.workers && v.workers[worker] == Executing(id, t.db.tasks[id])
    ensures v.db.tasks == t.db.tasks && InvocationKey(id) in v.db.invocations
    ensures v.db.invocations[InvocationKey(id)] == Invocation(id, t.db.tasks[id].content.input, InvocationStatus.Started, None, None, "")
    ensures v.past.launches == t.past.launches
              + [Launch(id, t.db.tasks[id].content.input, DryRun(t.db.tasks[id].content.input))]
  {
    var input := t.db.tasks[id].content.input;
    var ready := DoShellStarts(t, worker, input);
    StartLaw(t, worker, input, ready);
    LaunchIsEntered(ready, worker, v);
  }

  /** Take, record, launch. */
  function Launching(s: Sys, worker: nat, id: TaskId, now: int): Sys
    requires id in s.db.tasks
  {
    var t := Take(s, worker, id, now);
    DoSpawn(DoShellStarts(t, worker, s.db.tasks[id].content.input), worker)
  }

  /**
   From every reachable state in which the daemon is up, a worker is idle and a shell task without a record
   comes first in the queue: the worker can launch its stored command, once; CommandOutcome says how it ends.
   */
  lemma CommandCanRun(steps: seq<Step>, s: Sys, worker: nat, id: TaskId, now: int, v: Sys)
    requires s == Run(START, steps) && s.up && worker !in s.workers && Columns.ComesFirst(s.db, id)
    requires id in s.db.tasks && s.db.tasks[id].fixed.kind.Shell? && InvocationKey(id) !in s.db.invocations
    requires v == Launching(s, worker, id, now)
    ensures id in v.db.tasks && v.db.tasks[id].status.Running?
    ensures worker in v.workers && v.workers[worker].Executing? && v.workers[worker].id == id
    ensures v.past.launches == s.past.launches
              + [Launch(id, s.db.tasks[id].content.input, DryRun(s.db.tasks[id].content.input))]
  {
    RunIsSound(steps);
    var t := Take(s, worker, id, now);
    TakeLaw(s, worker, id, now, t);
    TakeKeepsSound(s, worker, id, now);
    CommandStarts(t, worker, id, v);
  }

  // ---------------------------------------------------------------- requests

  /** A well-formed ask does what it asks for or nothing. */
  lemma AskIsEntered(s: Sys, id: ConversationId, record: Conversation, apply: bool, turn: (TurnId, Turn),
                     rows: seq<(TaskId, Task)>, t: Sys)
    requires AskShape(id, rows) && !("turn:assistant:" <= turn.0) && t == DoAsk(s, id, record, apply, turn, rows)
    ensures t.up == s.up && t.workers == s.workers
    ensures || Columns.Asked(s.db, id, record, apply, turn, rows, Commit(t.db))
            || (t == s && exists error :: Columns.Asked(s.db, id, record, apply, turn, rows, Abort(error)))
  {
    Columns.AskLaw(s.db, id, record, apply, turn, rows);
    var tx := CreateAskWork(s.db, id, record, apply, turn, rows);
    if tx.Abort? {
      assert Columns.Asked(s.db, id, record, apply, turn, rows, Abort(tx.error));
    }
  }

  /** A new shell request is stored as it is and, if it is gated, waits for an approval of exactly its command. */
  lemma ShellIsEntered(s: Sys, id: TaskId, row: Task, gated: bool, expiresAt: int, t: Sys)
    requires ShellShape(id, row, gated) && t == DoShell(s, id, row, gated, expiresAt)
    requires row.fixed.conversation.Some? ==> row.fixed.conversation.value in s.db.conversations
    requires row.fixed.idempotencyKey !in s.db.taskKeys && id !in s.db.tasks && ApprovalKey(id) !in s.db.approvals
    ensures t.db.tasks == s.db.tasks[id := row] && t.up == s.up && t.workers == s.workers
    ensures t.db.taskKeys == s.db.taskKeys[row.fixed.idempotencyKey := id]
    ensures t.db == s.db.(tasks := t.db.tasks, taskKeys := t.db.taskKeys, approvals := t.db.approvals)
    ensures if gated
            then && ApprovalKey(id) in t.db.approvals && t.db.approvals == s.db.approvals[ApprovalKey(id) := t.db.approvals[ApprovalKey(id)]]
                 && var item := t.db.approvals[ApprovalKey(id)];
                    && item.task == id && item.tool == "shell" && item.arguments == row.content.input
                    && item.status.Pending? && item.expiresAt == expiresAt && row.status.WaitingForApproval?
            else t.db.approvals == s.db.approvals && row.status.Queued?
    ensures id in t.past.inputs && t.past.inputs[id] == row.content.input
  {}

  // ---------------------------------------------------------------- commands of users and timers, and recovery

  /** One row gets other values in the named columns and the next version, or nothing happens. */
  ghost predicate RowSet(db: Db, id: TaskId, may: bool, row: Task, next: Db) {
    next == if may then db.(tasks := db.tasks[id := row]) else db
  }

  ghost predicate RowCommandDone(db: Db, command: Command, next: Db)
    requires command.Dismiss? || command.Prioritize? || command.Progress?
  {
    var known := command.id in db.tasks;
    if !known then next == db
    else
      var row := db.tasks[command.id];
      match command
      case Dismiss(id) =>
        RowSet(db, id, row.status.Terminal() && !row.dismissed, row.(dismissed := true, version := row.version + 1), next)
      case Prioritize(id, priority) =>
        RowSet(db, id, -100 <= priority <= 100 && !row.dismissed, row.(priority := priority, version := row.version + 1), next)
      case Progress(id, percent, message) =>
        RowSet(db, id, 0 <= percent <= 99 && (row.status.Running? || row.status.WaitingForChildren? || row.status.CancelRequested?),
               row.(progress := percent, version := row.version + 1, content := row.content.(progressMessage := message)), next)
  }

  /** What each command asks for, by the columns it writes; a refused command changes nothing. */
  ghost predicate Done(db: Db, command: Command, next: Db) {
    match command
    case Decide(key, actor, approved, now) =>
      exists verdict: Decision :: Columns.DecisionMade(db, key, actor, approved, now, verdict) && next == verdict.Over(db)
    case ExpireAll(now) => Columns.ApprovalsExpired(db, now, next)
    case Retry(id) => exists tx: Tx :: Columns.Retried(db, id, tx) && next == tx.Over(db)
    case CancelGraph(id, now) =>
      if id in db.tasks then Columns.GraphCancelled(db, db.tasks[id].fixed.root, now, next) else next == db
    case Retain(id, enabled, now) => exists tx: Tx :: Columns.RetentionSwitched(db, id, enabled, now, tx) && next == tx.Over(db)
    case Scrub(root) => Columns.GraphScrubbed(db, root, next)
    case SweepAll(cutoff, sweptAt, audit, correlation) =>
      exists tx: Tx :: SweepColumns.SweepDone(db, cutoff, sweptAt, audit, correlation, tx) && next == tx.Over(db)
    case Dismiss(_) => RowCommandDone(db, command, next)
    case Prioritize(_, _) => RowCommandDone(db, command, next)
    case Progress(_, _, _) => RowCommandDone(db, command, next)
  }

  lemma RowCommandLaw(db: Db, command: Command, next: Db)
    requires command.Dismiss? || command.Prioritize? || command.Progress?
    requires next == Commanded(db, command)
    ensures RowCommandDone(db, command, next)
  {
    match command
    case Dismiss(id) =>
    case Prioritize(id, priority) =>
    case Progress(id, percent, message) =>
  }

  lemma CommandLaw(db: Db, command: Command, next: Db)
    requires next == Commanded(db, command) && (command.Retry? ==> (command.id, command.id) !in db.deps)
    ensures Done(db, command, next)
  {
    match command
    case Decide(key, actor, approved, now) => Columns.DecisionLaw(db, key, actor, approved, now);
    case ExpireAll(now) => Columns.ExpiryLaw(db, now);
    case Retry(id) => Columns.RetryLaw(db, id);
    case CancelGraph(id, now) => Columns.CancelLaw(db, id, now);
    case Retain(id, enabled, now) => Columns.SwitchLaw(db, id, enabled, now);
    case Scrub(root) => Columns.ScrubTerminalLaw(db, root);
    case SweepAll(cutoff, sweptAt, audit, correlation) =>
      SweepColumns.SweepTxLaw(db, cutoff, sweptAt, audit, correlation);
    case Dismiss(_) => RowCommandLaw(db, command, next);
    case Prioritize(_, _) => RowCommandLaw(db, command, next);
    case Progress(_, _, _) => RowCommandLaw(db, command, next);
  }

  /** In every sound state, whatever comes from outside does what it asks for and nothing else. */
  lemma CommandsAreObeyed(s: Sys, command: Command, t: Sys)
    requires Sound(s) && t == Next(s, Control(command))
    ensures Done(s.db, command, t.db) && t.up == s.up && t.workers == s.workers
    ensures t.past == s.past.(consents := t.past.consents)
  {
    if command.Retry? {
      var loop := (command.id, command.id);
      assert loop in s.db.deps ==> WellLinked(s.db, loop.0, loop.1);
    }
    CommandLaw(s.db, command, t.db);
  }

  /** A daemon that was down recovers its tasks before any worker runs; one that is up does not recover again. */
  lemma RestartRecovers(s: Sys, now: int, t: Sys)
    requires t == Next(s, Recover(now))
    ensures if s.up then t == s
            else t == s.(db := t.db, up := true, workers := map[]) && Columns.Recovered(s.db, now, t.db)
  {
    Columns.RecoveryLaw(s.db, now);
  }
}
