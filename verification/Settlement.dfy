/**
 How work ends: what a finished command, an agent's answer or a failure does to the task, and that a
 completed shell task always has a command that succeeded.
 */
module Settlement {
  import opened Model
  import opened Transactions
  import opened Evolution
  import opened Retention
  import opened Runtime
  import opened Growth
  import opened Invariants
  import opened Synthesis
  import opened Execution
  import Columns

  // ---------------------------------------------------------------- settling, by what the worker decided

  /** A row that ends without an answer. */
  predicate EndsWith(a: Task, b: Task, status: Status, error: string, now: int) {
    b == a.(status := status, finishedAt := Some(now), version := a.version + 1, content := a.content.(error := error))
  }

  predicate StopsIfAsked(a: Task, b: Task, now: int) {
    b == if a.status.CancelRequested? then a.(status := Cancelled, finishedAt := Some(now), version := a.version + 1) else a
  }

  lemma FailSettles(s: Sys, worker: nat, now: int, t: Sys)
    requires Sound(s) && worker in s.workers && s.workers[worker].Finishing? && s.workers[worker].action.Fail?
    requires t == SettleOther(s, worker, now)
    ensures worker !in t.workers
    ensures var held := s.workers[worker];
            && held.id in s.db.tasks && held.id in t.db.tasks
            && t.db == s.db.(tasks := s.db.tasks[held.id := t.db.tasks[held.id]])
            && EndsWith(s.db.tasks[held.id], t.db.tasks[held.id],
                        if held.action.timedOut then TimedOut else Failed, held.action.error, now)
  {
    assert Holds(s.workers[worker], s.db.tasks[s.workers[worker].id]);
  }

  lemma CancelSettles(s: Sys, worker: nat, now: int, t: Sys)
    requires Sound(s) && worker in s.workers && s.workers[worker].Finishing? && s.workers[worker].action.Cancel?
    requires t == SettleOther(s, worker, now)
    ensures worker !in t.workers
    ensures var held := s.workers[worker];
            && held.id in s.db.tasks && held.id in t.db.tasks
            && t.db == s.db.(tasks := s.db.tasks[held.id := t.db.tasks[held.id]])
            && StopsIfAsked(s.db.tasks[held.id], t.db.tasks[held.id], now)
  {
    var held := s.workers[worker];
    assert Holds(held, s.db.tasks[held.id]);
    if !s.db.tasks[held.id].status.CancelRequested? {
      assert s.db.tasks == s.db.tasks[held.id := s.db.tasks[held.id]];
    }
  }

  /** A retryable error queues a running task again while it has retries; otherwise the worker goes on to fail it. */
  lemma RequeueSettles(s: Sys, worker: nat, now: int, t: Sys)
    requires Sound(s) && worker in s.workers && s.workers[worker].Finishing? && s.workers[worker].action.Requeue?
    requires t == SettleOther(s, worker, now)
    ensures var held := s.workers[worker];
            && held.id in s.db.tasks && held.id in t.db.tasks
            && var a := s.db.tasks[held.id];
            if a.status.Running? && a.fixed.kind != Shell && a.retryCount < a.fixed.maxRetries
            then && worker !in t.workers
                 && t.db == s.db.(tasks := s.db.tasks[held.id := t.db.tasks[held.id]])
                 && t.db.tasks[held.id] == a.(
                      status := Queued, progress := 0, startedAt := None,
                      retryCount := a.retryCount + 1, version := a.version + 1,
                      content := a.content.(progressMessage := "Transient failure; bounded retry queued", error := held.action.error))
            else && t.db == s.db && worker in t.workers
                 && t.workers[worker] == Finishing(held.id, held.row,
                      if held.action.cancelled then Cancel else Fail(held.action.error, held.action.timedOut))
  {
    assert Holds(s.workers[worker], s.db.tasks[s.workers[worker].id]);
  }

  /** An answer ends the task as it says; with a kept transcript the row carries it. */
  lemma CompleteSettles(s: Sys, worker: nat, route: Option<(string, DeliveryStatus)>, now: int, t: Sys)
    requires Sound(s) && worker in s.workers && s.workers[worker].Finishing? && s.workers[worker].action.Complete?
    requires t == SettleComplete(s, worker, route, now)
    ensures worker !in t.workers
    ensures var held := s.workers[worker];
            && held.id in s.db.tasks && held.id in t.db.tasks
            && t.db.tasks[held.id].status == (if held.action.answer.partial then PartiallyCompleted else Completed)
            && (held.id != held.row.fixed.root || Columns.Kept(s.db, s.db.tasks[held.id].fixed.conversation) ==>
                  Columns.RowAnswered(s.db.tasks[held.id], t.db.tasks[held.id], held.action.answer, now))
  {
    var held := s.workers[worker];
    CompletionCommits(s, worker, route, now);
    CompletionStatus(s.db, held, route, now, t.db);
    AnsweredRow(s.db, held, route, now, t.db);
  }

  lemma AnsweredRow(db: Db, held: Worker, route: Option<(string, DeliveryStatus)>, now: int, next: Db)
    requires held.Finishing? && held.action.Complete? && CompletionTx(db, held, route, now) == Commit(next)
    ensures held.id in db.tasks && held.id in next.tasks
    ensures held.id != held.row.fixed.root || Columns.Kept(db, db.tasks[held.id].fixed.conversation) ==>
              Columns.RowAnswered(db.tasks[held.id], next.tasks[held.id], held.action.answer, now)
  {
    if held.id == held.row.fixed.root {
      var outcome := FinalOutcome(held.id, held.row, held.action.answer, route, now);
      RootAnswered(db, held.id, held.action.answer, outcome, now, next);
      Columns.OutcomeLaw(db, held.id, held.action.answer, outcome, now);
    } else {
      NodeAnswered(db, held.id, held.action.answer, now, next);
      Columns.RowAnsweredLaw(db.tasks[held.id], held.action.answer, now);
    }
  }

  // ---------------------------------------------------------------- records of commands

  predicate CommandRunning(db: Db, id: TaskId) {
    InvocationKey(id) in db.invocations && db.invocations[InvocationKey(id)].status.Started?
    && db.invocations[InvocationKey(id)].task == id
  }

  predicate CommandSucceeded(db: Db, id: TaskId) {
    InvocationKey(id) in db.invocations && db.invocations[InvocationKey(id)].status.Succeeded?
  }

  /** What the phase of a worker says about the record of its command. */
  predicate Backed(db: Db, held: Worker) {
    && (held.Launching? || held.Executing? ==> CommandRunning(db, held.id))
    && (held.Finishing? && held.action.Complete? && held.row.fixed.kind.Shell? ==>
          CommandSucceeded(db, held.id) && !held.action.answer.partial)
  }

  predicate Earned(db: Db, id: TaskId)
    requires id in db.tasks
  {
    db.tasks[id].fixed.kind.Shell? && db.tasks[id].status.Succeeded() ==>
      CommandSucceeded(db, id) && db.tasks[id].status.Completed?
  }

  /** A worker's command is on record as running, its success as succeeded, and a completed shell task was earned. */
  ghost predicate Booked(s: Sys) {
    && (forall w :: w in s.workers ==> Backed(s.db, s.workers[w]))
    && (forall id :: id in s.db.tasks ==> Earned(s.db, id))
  }

  lemma InvocationKeysDiffer(a: TaskId, b: TaskId)
    requires a != b
    ensures InvocationKey(a) != InvocationKey(b)
  {
    assert InvocationKey(a)[|"shell:"|..] == a && InvocationKey(b)[|"shell:"|..] == b;
  }

  /** The record of every command stands. */
  ghost predicate CommandsStand(db: Db, next: Db) {
    forall key :: key in db.invocations ==>
      key in next.invocations && next.invocations[key].status == db.invocations[key].status
      && next.invocations[key].task == db.invocations[key].task
  }

  lemma EarnedStands(db: Db, next: Db)
    requires (forall id :: id in db.tasks ==> Earned(db, id)) && RowsEvolve(db, next) && LedgersEvolve(db, next)
    requires NoneCompletes(db, next)
    ensures forall id :: id in next.tasks ==> Earned(next, id)
  {
    forall id | id in next.tasks ensures Earned(next, id) {
      assert RowEvolves(db.tasks[id], next.tasks[id]) && Earned(db, id);
      if next.tasks[id].fixed.kind.Shell? && next.tasks[id].status.Succeeded() {
        SuccessStands(db.tasks[id], next.tasks[id]);
      }
    }
  }

  // -- commands

  lemma ScrubKeepsCommands(db: Db, roots: set<TaskId>)
    ensures CommandsStand(db, ScrubGraphs(db, roots))
  {}

  lemma RetainKeepsCommands(db: Db, id: ConversationId, enabled: bool, now: int, next: Db)
    requires next == SetTranscriptRetention(db, id, enabled, now).Over(db)
    ensures CommandsStand(db, next)
  {
    if id in db.conversations && !enabled {
      var quiet := ScrubEvents(db, db.conversations[id].externalKey).(
        turns := map key <- db.turns | db.turns[key].conversation != id :: db.turns[key],
        conversations := db.conversations[id := db.conversations[id].(
          retained := false, title := NOT_RETAINED_MARKER, updatedAt := now)]);
      ScrubKeepsCommands(quiet, SettledGraphs(quiet, id));
    }
  }

  lemma ScrubTerminalKeepsCommands(db: Db, root: TaskId, next: Db)
    requires next == ScrubTerminalTaskGraph(db, root)
    ensures CommandsStand(db, next)
  {
    if NotRetained(db, root) && !GraphActive(db, root) {
      ScrubKeepsCommands(ScrubEvents(db, db.conversations[db.tasks[root].fixed.conversation.value].externalKey), {root});
    }
  }

  lemma SweepKeepsCommands(db: Db, cutoff: int, sweptAt: int, audit: string, correlation: string, next: Db)
    requires next == SweepTx(db, cutoff, sweptAt, audit, correlation).Over(db)
    ensures CommandsStand(db, next)
  {
    if SweepTx(db, cutoff, sweptAt, audit, correlation).Commit? {
      assert next.invocations == SweepInvocations(db, cutoff).invocations;
    }
  }

  lemma DecisionKeepsCommands(db: Db, key: ApprovalId, actor: string, approved: bool, now: int, next: Db)
    requires next == DecideApproval(db, key, actor, approved, now).Over(db)
    ensures next.invocations == db.invocations
  {
    match DecideApproval(db, key, actor, approved, now)
    case Refused(_) =>
    case Lapsed(_) =>
    case Decided(_) =>
  }

  lemma RowCommandsKeepCommands(db: Db, command: Command, next: Db)
    requires next == Commanded(db, command)
    requires command.Dismiss? || command.Prioritize? || command.Progress? || command.CancelGraph? || command.ExpireAll?
    ensures next.invocations == db.invocations
  {
    match command
    case Dismiss(id) =>
    case Prioritize(id, priority) =>
    case Progress(id, percent, message) =>
    case CancelGraph(id, now) =>
    case ExpireAll(now) =>
  }

  lemma CommandKeepsCommands(db: Db, command: Command, next: Db)
    requires next == Commanded(db, command)
    ensures CommandsStand(db, next)
  {
    if command.Retain? {
      RetainKeepsCommands(db, command.conversation, command.enabled, command.now, next);
    } else if command.Scrub? {
      ScrubTerminalKeepsCommands(db, command.root, next);
    } else if command.SweepAll? {
      SweepKeepsCommands(db, command.cutoff, command.sweptAt, command.audit, command.correlation, next);
    } else if command.Decide? {
      DecisionKeepsCommands(db, command.key, command.actor, command.approved, command.now, next);
    } else if command.Retry? {
      if RetryTask(db, command.id).Commit? {
        RetryRows(db, command.id, next);
      }
    } else {
      RowCommandsKeepCommands(db, command, next);
    }
  }

  lemma CommandKeepsBooked(s: Sys, command: Command, t: Sys)
    requires Faithful(s) && Booked(s) && t == Obey(s, command)
    ensures Booked(t)
  {
    CommandEvolves(s.db, command, t.db);
    CommandKeepsCommands(s.db, command, t.db);
    CommandCompletesNone(s.db, t.db);
    EarnedStands(s.db, t.db);
    forall w | w in t.workers ensures Backed(t.db, t.workers[w]) {
      assert Backed(s.db, s.workers[w]);
    }
  }

  // -- creation and recovery

  lemma AdmissionKeepsBooked(s: Sys, t: Sys)
    requires Booked(s) && Admits(s, t)
    ensures Booked(t)
  {
    if t.db != s.db {
      forall id | id in t.db.tasks ensures Earned(t.db, id) {
        if id in s.db.tasks {
          assert Earned(s.db, id);
        } else {
          assert NewNode(s.db, t.db, id);
        }
      }
      forall w | w in t.workers ensures Backed(t.db, t.workers[w]) {
        assert Backed(s.db, s.workers[w]);
      }
    }
  }

  lemma AskKeepsBooked(s: Sys, id: ConversationId, record: Conversation, apply: bool, turn: (TurnId, Turn),
                       rows: seq<(TaskId, Task)>, t: Sys)
    requires Faithful(s) && Booked(s) && t == DoAsk(s, id, record, apply, turn, rows)
    ensures Booked(t)
  {
    if t != s {
      AskAdmits(s, id, record, apply, turn, rows, t);
      var entered := Entered(s, id, record);
      AdmissionKeepsFaithful(s, entered);
      AdmissionKeepsBooked(s, entered);
      if apply {
        CommandKeepsBooked(entered, Retain(id, record.retained, record.updatedAt), Switched(s, id, record, apply));
      }
      AdmissionKeepsBooked(Switched(s, id, record, apply), t);
    }
  }

  lemma RecoveryKeepsBooked(s: Sys, now: int, t: Sys)
    requires Faithful(s) && Booked(s) && t == DoRecover(s, now)
    ensures Booked(t)
  {
    if !s.up {
      RecoverEvolves(s.db, now);
      RecoveryCompletesNone(s.db, now, t.db);
      EarnedStands(s.db, t.db);
    }
  }

  // -- workers

  /** Another worker's command is under another key. */
  lemma OthersStayBacked(s: Sys, t: Sys, worker: nat)
    requires Owned(s.db, s.workers) && Booked(s) && t.workers - {worker} == s.workers - {worker}
    requires forall key :: key in s.db.invocations && (worker in s.workers ==> key != InvocationKey(s.workers[worker].id)) ==>
               key in t.db.invocations && t.db.invocations[key].status == s.db.invocations[key].status
               && t.db.invocations[key].task == s.db.invocations[key].task
    ensures forall w :: w in t.workers && w != worker ==> Backed(t.db, t.workers[w])
  {
    OthersUnmoved(s, t, worker);
    forall w | w in t.workers && w != worker ensures Backed(t.db, t.workers[w]) {
      assert Backed(s.db, s.workers[w]);
      if worker in s.workers {
        InvocationKeysDiffer(s.workers[w].id, s.workers[worker].id);
      }
    }
  }

  /** The jobs that write no record keep the worker backed too. */
  lemma QuietJobBacked(s: Sys, worker: nat, job: Job, t: Sys)
    requires Sound(s) && Booked(s) && t == Toil(s, worker, job) && t != s && worker in t.workers
    requires job.Claim? || job.Begin? || job.ReadBack? || job.AgentReturns? || job.ShellRefuses? || job.Spawn?
    ensures t.db.invocations == s.db.invocations && Backed(t.db, t.workers[worker])
  {
    if worker in s.workers {
      assert Backed(s.db, s.workers[worker]);
    }
    match job
    case Claim(id) =>
    case Begin(now) =>
    case ReadBack =>
    case AgentReturns(action) =>
    case ShellRefuses(reason, timedOut) =>
    case Spawn =>
  }

  lemma EarlyJobRecords(s: Sys, worker: nat, job: Job, t: Sys)
    requires t == Toil(s, worker, job)
    requires job.Claim? || job.Begin? || job.ReadBack? || job.AgentReturns? || job.ShellRefuses? || job.Spawn?
    ensures t.db.invocations == s.db.invocations
  {
    match job
    case Claim(id) =>
    case Begin(now) =>
    case ReadBack =>
    case AgentReturns(action) =>
    case ShellRefuses(reason, timedOut) =>
    case Spawn =>
  }

  /** A start is recorded once; a start that was recorded before only reports what became of it. */
  lemma StartLaw(s: Sys, worker: nat, input: string, t: Sys)
    requires Sound(s) && worker in s.workers && LaunchAllowed(s.workers[worker], input)
    requires t == RecordLaunch(s, worker, input)
    ensures var held := s.workers[worker];
            var key := "shell:" + held.id;
            && worker in t.workers
            && if key !in s.db.invocations
               then && t.db == s.db.(invocations := s.db.invocations[key := Invocation(held.id, input, Started, None, None, "")])
                    && t.workers[worker] == Launching(held.id, held.row, input)
               else && t.db == s.db
                    && t.workers[worker] == Finishing(held.id, held.row,
                         if s.db.invocations[key].status.Succeeded?
                         then Complete(Answer(if s.db.invocations[key].output.Some? then s.db.invocations[key].output.value else "",
                                              "Command already completed", [], false))
                         else Fail("tool invocation already started; refusing duplicate execution", false))
  {
    assert Holds(s.workers[worker], s.db.tasks[s.workers[worker].id]);
  }

  /** The worker whose start was recorded has a command on record; any other start is settled by the record. */
  lemma StartBacked(s: Sys, worker: nat, input: string, t: Sys)
    requires Sound(s) && worker in s.workers && LaunchAllowed(s.workers[worker], input)
    requires t == RecordLaunch(s, worker, input)
    ensures t.db.tasks == s.db.tasks && worker in t.workers && Backed(t.db, t.workers[worker])
    ensures CommandsStand(s.db, t.db)
  {
    StartLaw(s, worker, input, t);
    if InvocationKey(s.workers[worker].id) in s.db.invocations {
      assert t.db == s.db;
    }
  }

  lemma StartKeepsBooked(s: Sys, worker: nat, input: string, t: Sys)
    requires Sound(s) && Booked(s) && worker in s.workers && t == DoShellStarts(s, worker, input) && t != s
    ensures Booked(t)
  {
    StartBacked(s, worker, input, t);
    StartLeavesOthers(s, worker, input, t);
    OthersStayBacked(s, t, worker);
    EarningsStand(s.db, t.db);
  }

  lemma StartLeavesOthers(s: Sys, worker: nat, input: string, t: Sys)
    requires worker in s.workers && LaunchAllowed(s.workers[worker], input)
    requires t == RecordLaunch(s, worker, input)
    ensures t.workers - {worker} == s.workers - {worker}
  {
    assert t.workers == s.workers[worker := t.workers[worker]];
  }

  lemma EarningsStand(db: Db, next: Db)
    requires (forall id :: id in db.tasks ==> Earned(db, id)) && next.tasks == db.tasks && CommandsStand(db, next)
    ensures forall id :: id in next.tasks ==> Earned(next, id)
  {
    forall id | id in next.tasks ensures Earned(next, id) {
      assert Earned(db, id);
    }
  }

  /** What the return of a command leaves behind: its record and the worker's decision. */
  lemma ReturnLaw(s: Sys, worker: nat, output: string, failure: Option<Failure>, now: int, t: Sys)
    requires Sound(s) && Booked(s) && worker in s.workers && s.workers[worker].Executing?
    requires t == DoShellReturns(s, worker, output, failure, now)
    ensures var held := s.workers[worker];
            var key := InvocationKey(held.id);
            && worker in t.workers && key in s.db.invocations && key in t.db.invocations
            && t.db == s.db.(invocations := s.db.invocations[key := t.db.invocations[key]])
            && t.db.invocations[key] == s.db.invocations[key].(
                 status := if failure.None? then InvocationStatus.Succeeded else Broken,
                 finishedAt := Some(now),
                 output := if output == "" then None else Some(output),
                 error := if failure.None? then "" else failure.value.error)
            && t.workers[worker] == Finishing(held.id, held.row,
                 if failure.None? then Complete(Answer(output, "Command completed", [], false))
                 else if failure.value.cancelled then Cancel
                 else Fail(failure.value.error, failure.value.timedOut))
  {
    assert Backed(s.db, s.workers[worker]);
    assert Holds(s.workers[worker], s.db.tasks[s.workers[worker].id]);
  }

  lemma ReturnKeepsBooked(s: Sys, worker: nat, output: string, failure: Option<Failure>, now: int, t: Sys)
    requires Sound(s) && Booked(s) && worker in s.workers && t == DoShellReturns(s, worker, output, failure, now) && t != s
    ensures Booked(t)
  {
    ReturnLaw(s, worker, output, failure, now, t);
    ShellReturnsWorks(s, worker, output, failure, now, t);
    OthersStayBacked(s, t, worker);
    ReturnEarns(s.db, t.db, s.workers[worker].id);
  }

  /** A command that runs belongs to a task that did not succeed yet. */
  lemma ReturnEarns(db: Db, next: Db, id: TaskId)
    requires (forall other :: other in db.tasks ==> Earned(db, other)) && CommandRunning(db, id) && next.tasks == db.tasks
    requires forall key :: key in db.invocations && key != InvocationKey(id) ==>
               key in next.invocations && next.invocations[key].status == db.invocations[key].status
    ensures forall other :: other in next.tasks ==> Earned(next, other)
  {
    forall other | other in next.tasks ensures Earned(next, other) {
      assert Earned(db, other);
      if other != id {
        InvocationKeysDiffer(other, id);
      }
    }
  }

  lemma SettleOtherKeepsBooked(s: Sys, worker: nat, now: int, t: Sys)
    requires Sound(s) && Booked(s) && worker in s.workers && s.workers[worker].Finishing? && !s.workers[worker].action.Complete?
    requires t == SettleOther(s, worker, now)
    ensures Booked(t)
  {
    SettleOtherWorks(s, worker, now, t);
    SettleOtherCompletesNone(s, worker, now, t);
    EarnedStands(s.db, t.db);
    SettleOtherRecords(s, worker, now, t);
    OthersStayBacked(s, t, worker);
  }

  lemma SettleOtherRecords(s: Sys, worker: nat, now: int, t: Sys)
    requires worker in s.workers && s.workers[worker].Finishing? && !s.workers[worker].action.Complete?
    requires t == SettleOther(s, worker, now)
    ensures t.db.invocations == s.db.invocations
    ensures worker in t.workers ==> t.workers[worker].Finishing? && !t.workers[worker].action.Complete?
  {
    if LeavingTx(s.db, s.workers[worker], now).Commit? {
      LeavingRow(s.db, s.workers[worker], now, t.db);
    }
  }

  /** A completion may erase what a command said, but not how it ended. */
  lemma CompletionKeepsCommands(db: Db, held: Worker, route: Option<(string, DeliveryStatus)>, now: int, next: Db)
    requires held.Finishing? && held.action.Complete? && CompletionTx(db, held, route, now) == Commit(next)
    ensures CommandsStand(db, next)
  {
    if held.id == held.row.fixed.root {
      OutcomeKeepsCommands(db, held.id, held.action.answer,
                           FinalOutcome(held.id, held.row, held.action.answer, route, now), now, next);
    }
  }

  lemma OutcomeKeepsCommands(db: Db, id: TaskId, answer: Answer, outcome: Outcome, now: int, next: Db)
    requires CompleteTaskWithOutcome(db, id, answer, outcome, now) == Commit(next)
    ensures CommandsStand(db, next)
  {
    var conversation := db.tasks[id].fixed.conversation;
    var done := SetTask(db, id, CompletedRow(db.tasks[id], answer, now));
    if conversation.None? || db.conversations[conversation.value].retained {
      KeptOutcome(db, id, answer, outcome, now, next);
      AnnounceKeepsCommands(done, outcome, true);
    } else {
      WithheldOutcome(db, id, answer, outcome, now, next);
      AnnounceKeepsCommands(done, outcome, false);
      WithholdKeepsCommands(Announce(done, outcome, false), id, db.conversations[conversation.value].externalKey, next);
    }
  }

  lemma AnnounceKeepsCommands(db: Db, outcome: Outcome, retain: bool)
    ensures Announce(db, outcome, retain).invocations == db.invocations
  {}

  lemma WithholdKeepsCommands(db: Db, root: TaskId, key: string, next: Db)
    requires next == Withhold(db, root, key)
    ensures CommandsStand(db, next)
  {
    var quiet := ScrubEvents(db, key);
    if !GraphActive(quiet, root) {
      ScrubKeepsCommands(quiet, {root});
    }
  }

  lemma CompletionKeepsBooked(s: Sys, worker: nat, route: Option<(string, DeliveryStatus)>, now: int, t: Sys)
    requires Sound(s) && Booked(s) && worker in s.workers && s.workers[worker].Finishing? && s.workers[worker].action.Complete?
    requires t == SettleComplete(s, worker, route, now)
    ensures Booked(t)
  {
    var held := s.workers[worker];
    CompleteSettles(s, worker, route, now, t);
    CompletionCommits(s, worker, route, now);
    CompletionKeepsCommands(s.db, held, route, now, t.db);
    SettleCompleteWorks(s, worker, route, now, t);
    OthersStayBacked(s, t, worker);
    CompletionEarns(s.db, t.db, held);
  }

  lemma CompletionEarns(db: Db, next: Db, held: Worker)
    requires (forall id :: id in db.tasks ==> Earned(db, id)) && RowsEvolve(db, next) && CommandsStand(db, next)
    requires OnlyMoves(db, next, held.id) && held.Finishing? && held.action.Complete? && Backed(db, held)
    requires held.id in db.tasks && Holds(held, db.tasks[held.id])
    requires next.tasks[held.id].status == (if held.action.answer.partial then PartiallyCompleted else Completed)
    ensures forall id :: id in next.tasks ==> Earned(next, id)
  {
    forall id | id in next.tasks ensures Earned(next, id) {
      assert RowEvolves(db.tasks[id], next.tasks[id]) && Earned(db, id);
    }
  }

  lemma QuietJobKeepsBooked(s: Sys, worker: nat, job: Job, t: Sys)
    requires Sound(s) && Booked(s) && t == Toil(s, worker, job) && t != s
    requires job.Claim? || job.Begin? || job.ReadBack? || job.AgentReturns? || job.ShellRefuses? || job.Spawn?
    ensures Booked(t)
  {
    WorkerSteps(s, worker, job, t);
    EarlyJobRecords(s, worker, job, t);
    OthersStayBacked(s, t, worker);
    if worker in t.workers {
      QuietJobBacked(s, worker, job, t);
    }
    OtherJobsCompleteNone(s, worker, job, t);
    EarnedStands(s.db, t.db);
  }

  lemma JobKeepsBooked(s: Sys, worker: nat, job: Job, t: Sys)
    requires Sound(s) && Booked(s) && t == Toil(s, worker, job)
    ensures Booked(t)
  {
    if t != s {
      if job.ShellStarts? {
        StartKeepsBooked(s, worker, job.input, t);
      } else if job.ShellReturns? {
        ReturnKeepsBooked(s, worker, job.output, job.failure, job.now, t);
      } else if Completing(s, worker, job) {
        CompletionKeepsBooked(s, worker, job.route, job.now, t);
      } else if job.Settle? {
        SettleOtherKeepsBooked(s, worker, job.now, t);
      } else {
        QuietJobKeepsBooked(s, worker, job, t);
      }
    }
  }

  // ---------------------------------------------------------------- every run

  lemma StepKeepsBooked(s: Sys, step: Step, t: Sys)
    requires Faithful(s) && Booked(s) && t == Next(s, step)
    ensures Booked(t)
  {
    match step
    case Control(command) => CommandKeepsBooked(s, command, t);
    case Work(worker, job) => JobKeepsBooked(s, worker, job, t);
    case Recover(now) => RecoveryKeepsBooked(s, now, t);
    case Crash =>
    case Ask(id, record, apply, turn, rows) => AskKeepsBooked(s, id, record, apply, turn, rows, t);
    case RunShell(id, row, gated, expiresAt) =>
      ShellKeepsSound(s, id, row, gated, expiresAt, t);
      AdmissionKeepsBooked(s, t);
  }

  lemma {:induction false} RunIsBooked(steps: seq<Step>)
    ensures Booked(Run(START, steps))
    decreases |steps|
  {
    if steps != [] {
      var prefix := steps[..|steps| - 1];
      RunIsBooked(prefix);
      RunIsFaithful(prefix);
      StepKeepsBooked(Run(START, prefix), steps[|steps| - 1], Run(START, steps));
    }
  }

  /** In every reachable state a shell task that succeeded is COMPLETED and its command is on record as succeeded. */
  lemma CompletedMeansSucceeded(steps: seq<Step>, id: TaskId)
    ensures var db := Run(START, steps).db;
            id in db.tasks && db.tasks[id].fixed.kind.Shell?
            && (db.tasks[id].status.Completed? || db.tasks[id].status.PartiallyCompleted?) ==>
              && db.tasks[id].status.Completed?
              && InvocationKey(id) in db.invocations && db.invocations[InvocationKey(id)].status.Succeeded?
  {
    RunIsBooked(steps);
    var db := Run(START, steps).db;
    if id in db.tasks {
      assert Earned(db, id);
    }
  }

  /** What a command that returns does to its task, once its worker has settled. */
  ghost predicate CommandDecides(a: Task, b: Task, failure: Option<Failure>, now: int) {
    if failure.None? then b.status.Completed?
    else if failure.value.cancelled then StopsIfAsked(a, b, now)
    else EndsWith(a, b, if failure.value.timedOut then TimedOut else Failed, failure.value.error, now)
  }

  /** The task and the record of its command, before the return and after the worker settled. */
  ghost predicate CommandEnds(db: Db, id: TaskId, failure: Option<Failure>, now: int, next: Db) {
    && id in db.tasks && id in next.tasks && CommandDecides(db.tasks[id], next.tasks[id], failure, now)
    && InvocationKey(id) in next.invocations
    && next.invocations[InvocationKey(id)].status == if failure.None? then InvocationStatus.Succeeded else Broken
  }

  /**
   From every reachable state in which a worker executes a command: when the command returns and the
   worker settles, the task is COMPLETED after a success, TIMED_OUT after a deadline and FAILED after any
   other error, with that error; after a cancellation it is CANCELLED if a user asked for it; and the record
   says whether the command succeeded.
   */
  lemma CommandOutcome(steps: seq<Step>, s: Sys, worker: nat, output: string, failure: Option<Failure>, now: int, t: Sys,
                       route: Option<(string, DeliveryStatus)>, later: int, u: Sys)
    requires s == Run(START, steps) && worker in s.workers && s.workers[worker].Executing?
    requires t == DoShellReturns(s, worker, output, failure, now) && u == DoSettle(t, worker, route, later)
    ensures worker !in u.workers && CommandEnds(s.db, s.workers[worker].id, failure, later, u.db)
  {
    RunIsFaithful(steps);
    RunIsBooked(steps);
    CommandReturns(s, worker, output, failure, now, t, route, later, u);
  }

  lemma CommandReturns(s: Sys, worker: nat, output: string, failure: Option<Failure>, now: int, t: Sys,
                       route: Option<(string, DeliveryStatus)>, later: int, u: Sys)
    requires Sound(s) && Booked(s) && worker in s.workers && s.workers[worker].Executing?
    requires t == DoShellReturns(s, worker, output, failure, now) && u == DoSettle(t, worker, route, later)
    ensures worker !in u.workers && CommandEnds(s.db, s.workers[worker].id, failure, later, u.db)
  {
    ReturnLaw(s, worker, output, failure, now, t);
    ReturnKeepsSound(s, worker, output, failure, now, t);
    ReturnSettles(s.workers[worker], failure, output, t, worker, route, later, u);
    SettleKeepsCommands(t, worker, route, later, u);
  }

  lemma ReturnKeepsSound(s: Sys, worker: nat, output: string, failure: Option<Failure>, now: int, t: Sys)
    requires Sound(s) && t == DoShellReturns(s, worker, output, failure, now)
    ensures Sound(t)
  {
    JobKeepsSound(s, worker, ShellReturns(output, failure, now), t);
  }

  lemma SettleKeepsCommands(s: Sys, worker: nat, route: Option<(string, DeliveryStatus)>, now: int, t: Sys)
    requires Sound(s) && t == DoSettle(s, worker, route, now)
    ensures CommandsStand(s.db, t.db)
  {
    if worker in s.workers && s.workers[worker].Finishing? {
      if s.workers[worker].action.Complete? {
        CompletionCommits(s, worker, route, now);
        CompletionKeepsCommands(s.db, s.workers[worker], route, now, t.db);
      } else {
        SettleOtherRecords(s, worker, now, t);
      }
    }
  }

  lemma ReturnSettles(held: Worker, failure: Option<Failure>, output: string, t: Sys, worker: nat,
                      route: Option<(string, DeliveryStatus)>, later: int, u: Sys)
    requires Sound(t) && held.Executing? && worker in t.workers
    requires t.workers[worker] == Finishing(held.id, held.row,
               if failure.None? then Complete(Answer(output, "Command completed", [], false))
               else if failure.value.cancelled then Cancel
               else Fail(failure.value.error, failure.value.timedOut))
    requires u == DoSettle(t, worker, route, later)
    ensures worker !in u.workers && held.id in t.db.tasks && held.id in u.db.tasks
    ensures CommandDecides(t.db.tasks[held.id], u.db.tasks[held.id], failure, later)
  {
    if failure.None? {
      CompleteSettles(t, worker, route, later, u);
    } else if failure.value.cancelled {
      CancelSettles(t, worker, later, u);
    } else {
      FailSettles(t, worker, later, u);
    }
  }

  // ---------------------------------------------------------------- history is what happened

  /** Every launch, claim, consent and answer is entered once, and only by the step that makes it. */
  lemma LaunchIsEntered(s: Sys, worker: nat, t: Sys)
    requires t == DoSpawn(s, worker)
    ensures if worker in s.workers && s.workers[worker].Launching?
            then && t.past.launches == s.past.launches + [Launch(s.workers[worker].id, s.workers[worker].input,
                                                                  DryRun(s.workers[worker].row.content.input))]
                 && worker in t.workers && t.workers[worker] == Executing(s.workers[worker].id, s.workers[worker].row)
            else t == s
  {}

  lemma ClaimIsEntered(s: Sys, worker: nat, id: TaskId, t: Sys)
    requires t == DoClaim(s, worker, id)
    ensures if s.up && worker !in s.workers && Columns.ComesFirst(s.db, id)
            then && t.past.claims == s.past.claims + multiset{id}
                 && id in t.db.tasks && t.db.tasks[id].status.Assigned?
                 && t.workers == s.workers[worker := Claimed(id, t.db.tasks[id])]
            else t == s
  {
    Columns.ClaimLaw(s.db, id);
  }

  lemma ConsentIsEntered(s: Sys, key: ApprovalId, actor: string, approved: bool, now: int, t: Sys)
    requires t == Obey(s, Decide(key, actor, approved, now))
    ensures if key in s.db.approvals && s.db.approvals[key].status.Pending? && key in t.db.approvals
               && t.db.approvals[key].status.Consumed?
            then t.past.consents == s.past.consents + [Consent(s.db.approvals[key].task, s.db.approvals[key].arguments)]
            else t.past.consents == s.past.consents
  {
    Columns.DecisionLaw(s.db, key, actor, approved, now);
    match DecideApproval(s.db, key, actor, approved, now)
    case Refused(_) =>
    case Lapsed(_) =>
    case Decided(_) =>
  }
}
