/**
 Delegation: what a synthesis root may rely on while it runs, and that its outcome tells the truth
 about its children.
 */
module Synthesis {
  import opened Model
  import opened Transactions
  import opened Evolution
  import opened Runtime
  import opened Growth
  import opened Invariants

  /** The root has been claimed in this attempt and has not failed. */
  predicate AfterChildren(status: Status) {
    status.Assigned? || status.Running? || status.WaitingForChildren? || status.CancelRequested? || status.Succeeded()
  }

  /** Whoever synthesizes, or has synthesized, depends on terminal tasks only. */
  ghost predicate Stable(db: Db) {
    forall dep :: dep in db.deps && dep.0 in db.tasks && dep.1 in db.tasks && AfterChildren(db.tasks[dep.0].status) ==>
      db.tasks[dep.1].status.Terminal()
  }

  /** The states that nothing ever enters. */
  ghost predicate Ordinary(db: Db) {
    forall id :: id in db.tasks ==>
      var status := db.tasks[id].status; !status.Created? && !status.WaitingForChildren? && !status.Blocked?
  }

  predicate TellsTruth(db: Db, id: TaskId)
    requires id in db.tasks
  {
    db.tasks[id].fixed.kind.Synthesis? && db.tasks[id].status.Succeeded() ==>
      (db.tasks[id].status.PartiallyCompleted? <==> SomeChildFailed(db, id, id))
  }

  /** COMPLETED means every child succeeded, PARTIALLY_COMPLETED means some child did not. */
  ghost predicate Honest(db: Db) {
    forall id :: id in db.tasks ==> TellsTruth(db, id)
  }

  /** A synthesizer that has read the graph and not yet committed. */
  predicate Synthesizing(held: Worker) {
    held.Finishing? && held.action.Complete? && held.row.fixed.kind.Synthesis?
  }

  ghost predicate HonestIntent(db: Db, workers: map<nat, Worker>) {
    forall w :: w in workers && Synthesizing(workers[w]) ==>
      workers[w].action.answer.partial == SomeChildFailed(db, workers[w].id, workers[w].id)
  }

  ghost predicate Faithful(s: Sys) {
    Sound(s) && Stable(s.db) && Ordinary(s.db) && Honest(s.db) && HonestIntent(s.db, s.workers)
  }

  // ---------------------------------------------------------------- stable inputs

  lemma EnteringAfterChildren(a: Task, b: Task)
    requires RowEvolves(a, b) && AfterChildren(b.status) && !AfterChildren(a.status)
    ensures Claims(a, b)
  {}

  lemma StableEvolves(db: Db, next: Db, retried: Option<TaskId>)
    requires Structured(db) && Stable(db) && Evolves(db, next, retried)
    ensures Stable(next)
  {
    forall dep | dep in next.deps && dep.0 in next.tasks && dep.1 in next.tasks
                 && AfterChildren(next.tasks[dep.0].status)
      ensures next.tasks[dep.1].status.Terminal()
    {
      var a, b := dep.0, dep.1;
      assert dep == (a, b) && WellLinked(db, a, b);
      if AfterChildren(db.tasks[a].status) {
        assert !Revives(db.tasks[b], next.tasks[b]);
      } else {
        EnteringAfterChildren(db.tasks[a], next.tasks[a]);
      }
    }
  }

  lemma StableGrows(db: Db, next: Db)
    requires Structured(db) && Stable(db) && Grows(db, next)
    ensures Stable(next)
  {
    forall id | id in next.tasks && id !in db.tasks ensures !AfterChildren(next.tasks[id].status) {
      assert NewNode(db, next, id);
    }
    forall dep | dep in next.deps && dep.0 in next.tasks && dep.1 in next.tasks
                 && AfterChildren(next.tasks[dep.0].status)
      ensures next.tasks[dep.1].status.Terminal()
    {
      assert dep in db.deps;
      assert WellLinked(db, dep.0, dep.1);
    }
  }

  // ---------------------------------------------------------------- honest outcome

  lemma TerminalStatusStands(a: Task, b: Task)
    requires RowEvolves(a, b) && a.status.Terminal() && !Revives(a, b)
    ensures b.status == a.status
  {}

  /** Until the root is queued again, its children keep the status the synthesizer saw. */
  lemma ChildrenFrozen(db: Db, next: Db, retried: Option<TaskId>, id: TaskId)
    requires Structured(db) && Stable(db) && Evolves(db, next, retried)
    requires id in db.tasks && AfterChildren(db.tasks[id].status) && !next.tasks[id].status.Queued?
    ensures SomeChildFailed(next, id, id) == SomeChildFailed(db, id, id)
  {
    forall child | child in db.tasks && child != id && db.tasks[child].fixed.root == id
      ensures next.tasks[child].status == db.tasks[child].status
    {
      assert WellPlaced(db, child);
      assert (id, child) in db.deps;
      assert RowEvolves(db.tasks[child], next.tasks[child]);
      assert !Revives(db.tasks[child], next.tasks[child]);
      TerminalStatusStands(db.tasks[child], next.tasks[child]);
    }
    assert forall child :: child in db.tasks ==> next.tasks[child].fixed == db.tasks[child].fixed;
  }

  lemma ChildrenUngrown(db: Db, next: Db, id: TaskId)
    requires Grows(db, next) && id in db.tasks
    ensures SomeChildFailed(next, id, id) == SomeChildFailed(db, id, id)
  {
    forall child | child in next.tasks && child !in db.tasks ensures next.tasks[child].fixed.root != id {
      assert NewNode(db, next, child);
    }
    if SomeChildFailed(db, id, id) {
      var child :| child in db.tasks && child != id && db.tasks[child].fixed.root == id
                   && !db.tasks[child].status.Succeeded();
      assert child in next.tasks && next.tasks[child] == db.tasks[child];
    }
  }

  /** No task completes in this step. */
  ghost predicate NoneCompletes(db: Db, next: Db)
    requires next.tasks.Keys == db.tasks.Keys
  {
    forall id :: id in db.tasks && next.tasks[id].status.Succeeded() ==> db.tasks[id].status.Succeeded()
  }

  lemma SuccessStands(a: Task, b: Task)
    requires RowEvolves(a, b) && a.status.Succeeded() && b.status.Succeeded()
    ensures b.status == a.status
  {}

  lemma HonestEvolves(db: Db, next: Db, retried: Option<TaskId>)
    requires Structured(db) && Stable(db) && Honest(db) && Evolves(db, next, retried) && NoneCompletes(db, next)
    ensures Honest(next)
  {
    forall id | id in next.tasks ensures TellsTruth(next, id) {
      if next.tasks[id].fixed.kind.Synthesis? && next.tasks[id].status.Succeeded() {
        SuccessStands(db.tasks[id], next.tasks[id]);
        ChildrenFrozen(db, next, retried, id);
        assert TellsTruth(db, id);
      }
    }
  }

  lemma HonestGrows(db: Db, next: Db)
    requires Honest(db) && Grows(db, next)
    ensures Honest(next)
  {
    forall id | id in next.tasks ensures TellsTruth(next, id) {
      if id in db.tasks {
        ChildrenUngrown(db, next, id);
        assert TellsTruth(db, id);
      } else {
        assert NewNode(db, next, id);
      }
    }
  }

  lemma OrdinaryEvolves(db: Db, next: Db)
    requires Ordinary(db) && RowsEvolve(db, next)
    ensures Ordinary(next)
  {
    forall id | id in next.tasks
      ensures var status := next.tasks[id].status; !status.Created? && !status.WaitingForChildren? && !status.Blocked?
    {
      assert RowEvolves(db.tasks[id], next.tasks[id]);
    }
  }

  // ---------------------------------------------------------------- the intent between reading and committing

  /** A held root is not queued, so what its synthesizer read still holds. */
  lemma IntentStands(db: Db, next: Db, retried: Option<TaskId>, held: Worker)
    requires Structured(db) && Stable(db) && Evolves(db, next, retried)
    requires Synthesizing(held) && held.id in db.tasks && Holds(held, db.tasks[held.id])
    requires next.tasks[held.id].status == db.tasks[held.id].status || next.tasks[held.id].status.CancelRequested?
    ensures SomeChildFailed(next, held.id, held.id) == SomeChildFailed(db, held.id, held.id)
  {
    ChildrenFrozen(db, next, retried, held.id);
  }

  lemma CommandCompletesNone(db: Db, next: Db)
    requires Ordinary(db) && RowsEvolve(db, next) && HandsOff(db, next)
    ensures NoneCompletes(db, next)
  {
    forall id | id in db.tasks && next.tasks[id].status.Succeeded() ensures db.tasks[id].status.Succeeded() {
      assert RowEvolves(db.tasks[id], next.tasks[id]);
    }
  }

  lemma CommandKeepsIntent(db: Db, next: Db, retried: Option<TaskId>, workers: map<nat, Worker>)
    requires Structured(db) && Stable(db) && Owned(db, workers) && HonestIntent(db, workers)
    requires Evolves(db, next, retried) && HandsOff(db, next)
    ensures HonestIntent(next, workers)
  {
    forall w | w in workers && Synthesizing(workers[w])
      ensures workers[w].action.answer.partial == SomeChildFailed(next, workers[w].id, workers[w].id)
    {
      assert Holds(workers[w], db.tasks[workers[w].id]);
      IntentStands(db, next, retried, workers[w]);
    }
  }

  lemma CommandKeepsFaithful(s: Sys, command: Command, t: Sys)
    requires Faithful(s) && t == Obey(s, command)
    ensures Faithful(t)
  {
    CommandKeepsSound(s, command, t);
    CommandEvolves(s.db, command, t.db);
    var retried := RetriedByCommand(s.db, command);
    StableEvolves(s.db, t.db, retried);
    OrdinaryEvolves(s.db, t.db);
    CommandCompletesNone(s.db, t.db);
    HonestEvolves(s.db, t.db, retried);
    CommandKeepsIntent(s.db, t.db, retried, s.workers);
  }

  lemma GrowthKeepsFaithful(db: Db, next: Db, workers: map<nat, Worker>)
    requires Structured(db) && Stable(db) && Ordinary(db) && Honest(db)
    requires Owned(db, workers) && HonestIntent(db, workers) && Grows(db, next)
    ensures Stable(next) && Ordinary(next) && Honest(next) && HonestIntent(next, workers)
  {
    StableGrows(db, next);
    HonestGrows(db, next);
    forall id | id in next.tasks && id !in db.tasks ensures NewNode(db, next, id) {}
    forall w | w in workers && Synthesizing(workers[w])
      ensures workers[w].action.answer.partial == SomeChildFailed(next, workers[w].id, workers[w].id)
    {
      ChildrenUngrown(db, next, workers[w].id);
    }
  }

  lemma AdmissionKeepsFaithful(s: Sys, t: Sys)
    requires Faithful(s) && Admits(s, t)
    ensures Faithful(t)
  {
    AdmissionKeepsSound(s, t);
    if t.db != s.db {
      GrowthKeepsFaithful(s.db, t.db, s.workers);
    }
  }

  lemma ShellKeepsFaithful(s: Sys, id: TaskId, row: Task, gated: bool, expiresAt: int, t: Sys)
    requires Faithful(s) && t == DoShell(s, id, row, gated, expiresAt)
    ensures Faithful(t)
  {
    ShellKeepsSound(s, id, row, gated, expiresAt, t);
    AdmissionKeepsFaithful(s, t);
  }

  lemma SwitchedIsFaithful(s: Sys, id: ConversationId, record: Conversation, apply: bool)
    requires Faithful(s)
    ensures Faithful(Switched(s, id, record, apply))
  {
    EnteringAdmits(s, id, record);
    AdmissionKeepsFaithful(s, Entered(s, id, record));
    if apply {
      CommandKeepsFaithful(Entered(s, id, record), Retain(id, record.retained, record.updatedAt), Switched(s, id, record, apply));
    }
  }

  lemma AskKeepsFaithful(s: Sys, id: ConversationId, record: Conversation, apply: bool, turn: (TurnId, Turn),
                         rows: seq<(TaskId, Task)>, t: Sys)
    requires Faithful(s) && t == DoAsk(s, id, record, apply, turn, rows)
    ensures Faithful(t)
  {
    if t != s {
      SwitchedIsFaithful(s, id, record, apply);
      AskAdmits(s, id, record, apply, turn, rows, t);
      AdmissionKeepsFaithful(Switched(s, id, record, apply), t);
    }
  }

  lemma RecoveryCompletesNone(db: Db, now: int, next: Db)
    requires next == RecoverInterruptedTasks(db, now)
    ensures next.tasks.Keys == db.tasks.Keys && NoneCompletes(db, next)
  {
    assert next.tasks.Keys == db.tasks.Keys;
    forall id | id in db.tasks && next.tasks[id].status.Succeeded() ensures db.tasks[id].status.Succeeded() {
      assert next.tasks[id] == RecoveredRow(db.tasks[id], RecoveryOf(db, id), now);
    }
  }

  lemma RecoveryKeepsFaithful(s: Sys, now: int, t: Sys)
    requires Faithful(s) && t == DoRecover(s, now)
    ensures Faithful(t)
  {
    RecoveryKeepsSound(s, now, t);
    if !s.up {
      RecoverEvolves(s.db, now);
      StableEvolves(s.db, t.db, None);
      OrdinaryEvolves(s.db, t.db);
      RecoveryCompletesNone(s.db, now, t.db);
      HonestEvolves(s.db, t.db, None);
    }
  }

  // ---------------------------------------------------------------- the workers

  lemma ClaimCompletesNone(s: Sys, worker: nat, id: TaskId, t: Sys)
    requires t == DoClaim(s, worker, id) && t.db.tasks.Keys == s.db.tasks.Keys
    ensures NoneCompletes(s.db, t.db)
  {
    if t != s {
      assert t.db.tasks[id].status.Assigned?;
    }
  }

  lemma BeginCompletesNone(s: Sys, worker: nat, now: int, t: Sys)
    requires t == DoBegin(s, worker, now) && t.db.tasks.Keys == s.db.tasks.Keys
    ensures NoneCompletes(s.db, t.db)
  {
    if t.db != s.db {
      assert t.db.tasks[s.workers[worker].id].status.Running?;
    }
  }

  lemma RequeuedRow(db: Db, id: TaskId, error: string, next: Db)
    requires RequeueTask(db, id, error) == Commit(next)
    ensures id in next.tasks && next.tasks[id].status.Queued? && next == db.(tasks := next.tasks)
  {}

  lemma FailedRow(db: Db, id: TaskId, error: string, timedOut: bool, now: int, next: Db)
    requires FailTask(db, id, error, timedOut, now) == Commit(next)
    ensures id in next.tasks && next.tasks[id].status == (if timedOut then TimedOut else Failed)
    ensures next == db.(tasks := next.tasks)
  {}

  lemma StoppedRow(db: Db, id: TaskId, now: int, next: Db)
    requires MarkTaskCancelled(db, id, now) == Commit(next)
    ensures id in next.tasks && next.tasks[id].status.Cancelled? && next == db.(tasks := next.tasks)
  {}

  lemma LeavingRow(db: Db, held: Worker, now: int, next: Db)
    requires held.Finishing? && !held.action.Complete? && LeavingTx(db, held, now) == Commit(next)
    ensures held.id in next.tasks && !next.tasks[held.id].status.Succeeded() && next == db.(tasks := next.tasks)
  {
    match held.action
    case Requeue(error, _, _) => RequeuedRow(db, held.id, error, next);
    case Fail(error, timedOut) => FailedRow(db, held.id, error, timedOut, now, next);
    case Cancel => StoppedRow(db, held.id, now, next);
  }

  lemma SettleOtherCompletesNone(s: Sys, worker: nat, now: int, t: Sys)
    requires worker in s.workers && s.workers[worker].Finishing? && !s.workers[worker].action.Complete?
    requires t == SettleOther(s, worker, now) && t.db.tasks.Keys == s.db.tasks.Keys
    ensures NoneCompletes(s.db, t.db)
  {
    if LeavingTx(s.db, s.workers[worker], now).Commit? {
      LeavingRow(s.db, s.workers[worker], now, t.db);
      LeavingEvolves(s.db, s.workers[worker], now, t.db);
    }
  }

  /** Jobs that are not a completion. */
  lemma OtherJobsCompleteNone(s: Sys, worker: nat, job: Job, t: Sys)
    requires t == Toil(s, worker, job) && t.db.tasks.Keys == s.db.tasks.Keys
    requires job.Settle? ==> worker in s.workers && s.workers[worker].Finishing? && !s.workers[worker].action.Complete?
    ensures NoneCompletes(s.db, t.db)
  {
    if job.Claim? {
      ClaimCompletesNone(s, worker, job.id, t);
    } else if job.Begin? {
      BeginCompletesNone(s, worker, job.now, t);
    } else if job.Settle? {
      SettleOtherCompletesNone(s, worker, job.now, t);
    } else if worker in s.workers && !job.ReadBack? && t != s {
      PhaseShape(s, worker, job, t);
    }
  }

  /** The other workers keep their intents: this step moves none of their roots. */
  lemma OthersKeepIntent(s: Sys, t: Sys, worker: nat, id: TaskId)
    requires Structured(s.db) && Stable(s.db) && Owned(s.db, s.workers) && HonestIntent(s.db, s.workers)
    requires Works(s, t, worker, id)
    requires forall w :: w in s.workers && w != worker ==> s.workers[w].id != id
    ensures HonestIntent(t.db, t.workers - {worker})
  {
    var others := t.workers - {worker};
    forall w | w in others && Synthesizing(others[w])
      ensures others[w].action.answer.partial == SomeChildFailed(t.db, others[w].id, others[w].id)
    {
      assert w in s.workers - {worker} && others[w] == (s.workers - {worker})[w];
      assert Holds(s.workers[w], s.db.tasks[s.workers[w].id]);
      IntentStands(s.db, t.db, None, s.workers[w]);
    }
  }

  /** What the synthesizer reads when it returns is what it will commit. */
  lemma AgentIntentIsHonest(s: Sys, worker: nat, action: Action, t: Sys)
    requires Sound(s) && worker in s.workers && t == DoAgentReturns(s, worker, action) && t != s
    requires Synthesizing(t.workers[worker])
    ensures action == t.workers[worker].action && t.workers[worker].id == s.workers[worker].id
    ensures action.answer.partial == SomeChildFailed(s.db, s.workers[worker].id, s.workers[worker].id)
  {
    var held := s.workers[worker];
    assert Holds(held, s.db.tasks[held.id]);
    assert WellPlaced(s.db, held.id);
    assert AgentMay(s.db, held, action);
  }

  /** Commands and failures never claim a synthesis. */
  lemma OtherPhasesNeverSynthesize(s: Sys, worker: nat, job: Job, t: Sys)
    requires Sound(s) && worker in s.workers && t == Toil(s, worker, job) && t != s
    requires job.ShellRefuses? || job.ShellStarts? || job.Spawn? || job.ShellReturns?
    ensures worker in t.workers && !Synthesizing(t.workers[worker])
  {
    var held := s.workers[worker];
    assert Holds(held, s.db.tasks[held.id]);
    match job
    case ShellRefuses(_, _) =>
    case ShellStarts(_) => PhaseShape(s, worker, job, t);
    case Spawn =>
    case ShellReturns(_, _, _) => PhaseShape(s, worker, job, t);
  }

  /** Whatever this worker just decided to commit is honest. */
  ghost predicate OwnIntent(t: Sys, worker: nat)
    requires worker in t.workers
  {
    var held := t.workers[worker];
    Synthesizing(held) ==> held.action.answer.partial == SomeChildFailed(t.db, held.id, held.id)
  }

  lemma AgentOwnIntent(s: Sys, worker: nat, action: Action, t: Sys)
    requires Sound(s) && worker in s.workers && t == DoAgentReturns(s, worker, action) && t != s
    ensures worker in t.workers && OwnIntent(t, worker)
  {
    if Synthesizing(t.workers[worker]) {
      AgentIntentIsHonest(s, worker, action, t);
      assert t.db == s.db;
    }
  }

  lemma EarlyOwnIntent(s: Sys, worker: nat, job: Job, t: Sys)
    requires t == Toil(s, worker, job) && t != s && (job.Claim? || job.Begin? || job.ReadBack?)
    ensures worker in t.workers ==> OwnIntent(t, worker)
  {
    match job
    case Claim(id) =>
    case Begin(now) =>
    case ReadBack =>
  }

  /** All jobs but settling. */
  lemma JobOwnIntent(s: Sys, worker: nat, job: Job, t: Sys)
    requires Sound(s) && t == Toil(s, worker, job) && t != s && !job.Settle?
    requires !job.Claim? ==> worker in s.workers
    ensures worker in t.workers ==> OwnIntent(t, worker)
  {
    if job.AgentReturns? {
      AgentOwnIntent(s, worker, job.action, t);
    } else if job.Claim? || job.Begin? || job.ReadBack? {
      EarlyOwnIntent(s, worker, job, t);
    } else {
      OtherPhasesNeverSynthesize(s, worker, job, t);
    }
  }

  lemma IntentsJoin(t: Sys, worker: nat)
    requires HonestIntent(t.db, t.workers - {worker}) && (worker in t.workers ==> OwnIntent(t, worker))
    ensures HonestIntent(t.db, t.workers)
  {
    forall w | w in t.workers && Synthesizing(t.workers[w])
      ensures t.workers[w].action.answer.partial == SomeChildFailed(t.db, t.workers[w].id, t.workers[w].id)
    {
      if w != worker {
        assert w in t.workers - {worker} && (t.workers - {worker})[w] == t.workers[w];
      }
    }
  }

  lemma SettleOtherOwnIntent(s: Sys, worker: nat, now: int, t: Sys)
    requires worker in s.workers && s.workers[worker].Finishing? && !s.workers[worker].action.Complete?
    requires t == SettleOther(s, worker, now)
    ensures worker in t.workers ==> OwnIntent(t, worker)
  {}

  lemma NoOtherHolder(s: Sys, worker: nat, job: Job)
    requires Sound(s) && (job.Claim? ==> Claimable(s.db, job.id)) && (!job.Claim? ==> worker in s.workers)
    ensures forall w :: w in s.workers && w != worker ==> s.workers[w].id != TaskOf(s, worker, job)
  {
    forall w | w in s.workers && w != worker ensures s.workers[w].id != TaskOf(s, worker, job) {
      assert Holds(s.workers[w], s.db.tasks[s.workers[w].id]);
    }
  }

  lemma JobHasHolder(s: Sys, worker: nat, job: Job, t: Sys)
    requires t == Toil(s, worker, job) && t != s
    ensures if job.Claim? then Claimable(s.db, job.id) else worker in s.workers
  {}

  lemma OtherJobKeepsFaithful(s: Sys, worker: nat, job: Job, t: Sys)
    requires Faithful(s) && t == Toil(s, worker, job) && t != s
    requires job.Settle? ==> worker in s.workers && s.workers[worker].Finishing? && !s.workers[worker].action.Complete?
    ensures Faithful(t)
  {
    JobKeepsSound(s, worker, job, t);
    WorkerSteps(s, worker, job, t);
    JobHasHolder(s, worker, job, t);
    NoOtherHolder(s, worker, job);
    WorkKeepsBackground(s, t, worker, TaskOf(s, worker, job));
    OtherJobsCompleteNone(s, worker, job, t);
    HonestEvolves(s.db, t.db, None);
    if job.Settle? {
      SettleOtherOwnIntent(s, worker, job.now, t);
    } else {
      JobOwnIntent(s, worker, job, t);
    }
    IntentsJoin(t, worker);
  }

  // ---------------------------------------------------------------- the completion

  predicate Answered(db: Db, id: TaskId, answer: Answer) {
    id in db.tasks && db.tasks[id].status == (if answer.partial then PartiallyCompleted else Completed)
  }

  lemma NodeAnswered(db: Db, id: TaskId, answer: Answer, now: int, next: Db)
    requires CompleteTask(db, id, answer, now) == Commit(next)
    ensures id in db.tasks && Answered(next, id, answer)
  {}

  lemma ErasureKeepsAnswer(told: Db, id: TaskId, answer: Answer, key: string, next: Db)
    requires Answered(told, id, answer) && next == Withhold(told, id, key)
    ensures Answered(next, id, answer)
  {
    WithholdRows(told, id, key, next);
  }

  lemma RootAnswered(db: Db, id: TaskId, answer: Answer, outcome: Outcome, now: int, next: Db)
    requires CompleteTaskWithOutcome(db, id, answer, outcome, now) == Commit(next)
    ensures id in db.tasks && Answered(next, id, answer)
  {
    var conversation := db.tasks[id].fixed.conversation;
    var retain := conversation.None? || db.conversations[conversation.value].retained;
    var told := Announce(SetTask(db, id, CompletedRow(db.tasks[id], answer, now)), outcome, retain);
    assert told.tasks[id] == CompletedRow(db.tasks[id], answer, now);
    assert Answered(told, id, answer);
    if !retain {
      ErasureKeepsAnswer(told, id, answer, db.conversations[conversation.value].externalKey, next);
    } else {
      assert next == told;
    }
  }

  /** The row that completes gets the status its worker decided on; the intent becomes the outcome. */
  lemma CompletionStatus(db: Db, held: Worker, route: Option<(string, DeliveryStatus)>, now: int, next: Db)
    requires held.Finishing? && held.action.Complete? && CompletionTx(db, held, route, now) == Commit(next)
    ensures held.id in db.tasks && Answered(next, held.id, held.action.answer)
  {
    if held.id == held.row.fixed.root {
      RootAnswered(db, held.id, held.action.answer,
                   FinalOutcome(held.id, held.row, held.action.answer, route, now), now, next);
    } else {
      NodeAnswered(db, held.id, held.action.answer, now, next);
    }
  }

  /** A root that was already done still tells the truth. */
  lemma OtherTellsTruth(db: Db, next: Db, done: TaskId, id: TaskId)
    requires Structured(db) && Stable(db) && Honest(db) && Evolves(db, next, None) && OnlyMoves(db, next, done)
    requires id in db.tasks && id != done
    ensures TellsTruth(next, id)
  {
    assert RowEvolves(db.tasks[id], next.tasks[id]) && TellsTruth(db, id);
    if next.tasks[id].fixed.kind.Synthesis? && next.tasks[id].status.Succeeded() {
      ChildrenFrozen(db, next, None, id);
    }
  }

  /** The root that completes now says what its worker read. */
  lemma DoneTellsTruth(db: Db, next: Db, held: Worker)
    requires Structured(db) && Stable(db) && Evolves(db, next, None)
    requires held.Finishing? && held.action.Complete? && held.id in db.tasks && Holds(held, db.tasks[held.id])
    requires Synthesizing(held) ==> held.action.answer.partial == SomeChildFailed(db, held.id, held.id)
    requires Answered(next, held.id, held.action.answer)
    ensures TellsTruth(next, held.id)
  {
    assert RowEvolves(db.tasks[held.id], next.tasks[held.id]);
    if next.tasks[held.id].fixed.kind.Synthesis? {
      ChildrenFrozen(db, next, None, held.id);
    }
  }

  lemma HonestCompletion(s: Sys, worker: nat, route: Option<(string, DeliveryStatus)>, now: int, next: Db)
    requires Faithful(s) && worker in s.workers && s.workers[worker].Finishing? && s.workers[worker].action.Complete?
    requires CompletionTx(s.db, s.workers[worker], route, now) == Commit(next)
    requires Evolves(s.db, next, None) && OnlyMoves(s.db, next, s.workers[worker].id)
    ensures Honest(next)
  {
    var held := s.workers[worker];
    CompletionStatus(s.db, held, route, now, next);
    DoneTellsTruth(s.db, next, held);
    forall id | id in next.tasks ensures TellsTruth(next, id) {
      if id != held.id {
        OtherTellsTruth(s.db, next, held.id, id);
      }
    }
  }

  /** A worker's completion is never refused: nothing but this worker ends or re-arms the task it holds. */
  lemma CompletionCommits(s: Sys, worker: nat, route: Option<(string, DeliveryStatus)>, now: int)
    requires Sound(s) && worker in s.workers && s.workers[worker].Finishing? && s.workers[worker].action.Complete?
    ensures CompletionTx(s.db, s.workers[worker], route, now).Commit?
  {
    var held := s.workers[worker];
    assert Holds(held, s.db.tasks[held.id]);
    assert WellPlaced(s.db, held.id);
  }

  lemma CompletionSettles(s: Sys, worker: nat, route: Option<(string, DeliveryStatus)>, now: int, t: Sys)
    requires Faithful(s) && worker in s.workers && s.workers[worker].Finishing? && s.workers[worker].action.Complete?
    requires t == SettleComplete(s, worker, route, now)
    ensures Honest(t.db) && worker !in t.workers
  {
    SettleCompleteWorks(s, worker, route, now, t);
    CompletionCommits(s, worker, route, now);
    HonestCompletion(s, worker, route, now, t.db);
  }

  /** What every worker step keeps, whatever it commits. */
  lemma WorkKeepsBackground(s: Sys, t: Sys, worker: nat, id: TaskId)
    requires Structured(s.db) && Stable(s.db) && Ordinary(s.db) && Owned(s.db, s.workers) && HonestIntent(s.db, s.workers)
    requires Works(s, t, worker, id)
    requires forall w :: w in s.workers && w != worker ==> s.workers[w].id != id
    ensures Stable(t.db) && Ordinary(t.db) && HonestIntent(t.db, t.workers - {worker})
  {
    StableEvolves(s.db, t.db, None);
    OrdinaryEvolves(s.db, t.db);
    OthersKeepIntent(s, t, worker, id);
  }

  lemma SettleCompleteKeepsSound(s: Sys, worker: nat, route: Option<(string, DeliveryStatus)>, now: int, t: Sys)
    requires Sound(s) && worker in s.workers && s.workers[worker].Finishing? && s.workers[worker].action.Complete?
    requires t == SettleComplete(s, worker, route, now)
    ensures Sound(t)
  {
    JobKeepsSound(s, worker, Settle(route, now), t);
  }

  lemma CompletionKeepsBackground(s: Sys, worker: nat, route: Option<(string, DeliveryStatus)>, now: int, t: Sys)
    requires Faithful(s) && worker in s.workers && s.workers[worker].Finishing? && s.workers[worker].action.Complete?
    requires t == SettleComplete(s, worker, route, now)
    ensures Stable(t.db) && Ordinary(t.db) && HonestIntent(t.db, t.workers - {worker})
  {
    SettleCompleteWorks(s, worker, route, now, t);
    NoOtherHolder(s, worker, Settle(route, now));
    WorkKeepsBackground(s, t, worker, s.workers[worker].id);
  }

  lemma CompletionKeepsFaithful(s: Sys, worker: nat, route: Option<(string, DeliveryStatus)>, now: int, t: Sys)
    requires Faithful(s) && worker in s.workers && s.workers[worker].Finishing? && s.workers[worker].action.Complete?
    requires t == SettleComplete(s, worker, route, now)
    ensures Faithful(t)
  {
    SettleCompleteKeepsSound(s, worker, route, now, t);
    CompletionKeepsBackground(s, worker, route, now, t);
    CompletionSettles(s, worker, route, now, t);
    IntentsJoin(t, worker);
  }

  // ---------------------------------------------------------------- every run

  predicate Completing(s: Sys, worker: nat, job: Job) {
    job.Settle? && worker in s.workers && s.workers[worker].Finishing? && s.workers[worker].action.Complete?
  }

  lemma JobKeepsFaithful(s: Sys, worker: nat, job: Job, t: Sys)
    requires Faithful(s) && t == Toil(s, worker, job)
    ensures Faithful(t)
  {
    if t != s {
      if Completing(s, worker, job) {
        CompletionKeepsFaithful(s, worker, job.route, job.now, t);
      } else {
        JobHasHolder(s, worker, job, t);
        OtherJobKeepsFaithful(s, worker, job, t);
      }
    }
  }

  lemma StepKeepsFaithful(s: Sys, step: Step, t: Sys)
    requires Faithful(s) && t == Next(s, step)
    ensures Faithful(t)
  {
    match step
    case Control(command) => CommandKeepsFaithful(s, command, t);
    case Work(worker, job) => JobKeepsFaithful(s, worker, job, t);
    case Recover(now) => RecoveryKeepsFaithful(s, now, t);
    case Crash => StepKeepsSound(s, step, t);
    case Ask(id, record, apply, turn, rows) => AskKeepsFaithful(s, id, record, apply, turn, rows, t);
    case RunShell(id, row, gated, expiresAt) => ShellKeepsFaithful(s, id, row, gated, expiresAt, t);
  }

  lemma {:induction false} RunIsFaithful(steps: seq<Step>)
    ensures Faithful(Run(START, steps))
    decreases |steps|
  {
    if steps != [] {
      var prefix := steps[..|steps| - 1];
      RunIsFaithful(prefix);
      StepKeepsFaithful(Run(START, prefix), steps[|steps| - 1], Run(START, steps));
    }
  }

  /** In every reachable state a claimed or successful root depends on terminal tasks only. */
  lemma StableInputs(steps: seq<Step>, root: TaskId, child: TaskId)
    ensures var db := Run(START, steps).db;
            (root, child) in db.deps ==>
              && root in db.tasks && child in db.tasks
              && (AfterChildren(db.tasks[root].status) ==> db.tasks[child].status.Terminal())
  {
    RunIsFaithful(steps);
    var db := Run(START, steps).db;
    if (root, child) in db.deps {
      assert WellLinked(db, (root, child).0, (root, child).1);
    }
  }

  /** In every reachable state the outcome of a synthesis root is true of its children. */
  lemma HonestOutcome(steps: seq<Step>, root: TaskId)
    ensures var db := Run(START, steps).db;
            root in db.tasks && db.tasks[root].fixed.kind.Synthesis? ==>
              && (db.tasks[root].status.Completed? ==>
                    forall child :: child in db.tasks && child != root && db.tasks[child].fixed.root == root ==>
                      db.tasks[child].status.Completed? || db.tasks[child].status.PartiallyCompleted?)
              && (db.tasks[root].status.PartiallyCompleted? ==>
                    exists child :: child in db.tasks && child != root && db.tasks[child].fixed.root == root
                                    && (db.tasks[child].status.Failed? || db.tasks[child].status.Cancelled?
                                        || db.tasks[child].status.TimedOut?))
  {
    RunIsFaithful(steps);
    var db := Run(START, steps).db;
    if root in db.tasks && db.tasks[root].fixed.kind.Synthesis? && db.tasks[root].status.Succeeded() {
      assert TellsTruth(db, root);
      if db.tasks[root].status.PartiallyCompleted? {
        var child :| child in db.tasks && child != root && db.tasks[child].fixed.root == root
                     && !db.tasks[child].status.Succeeded();
        assert WellPlaced(db, child);
        assert (root, child) in db.deps;
      }
    }
  }

  // ---------------------------------------------------------------- the synthesizer itself

  /** The nodes other than the root that ended well, or that did not, in graph order. */
  function Ending(graph: seq<(TaskId, Task)>, root: TaskId, well: bool): seq<TaskId> {
    if graph == [] then []
    else
      var (id, row) := graph[|graph| - 1];
      var earlier := Ending(graph[..|graph| - 1], root, well);
      if id != root && row.status.Succeeded() == well then earlier + [id] else earlier
  }

  function ArtifactsOf(graph: seq<(TaskId, Task)>, root: TaskId): seq<string> {
    if graph == [] then []
    else
      var (id, row) := graph[|graph| - 1];
      var earlier := ArtifactsOf(graph[..|graph| - 1], root);
      if id != root && row.status.Succeeded() then earlier + row.content.artifacts else earlier
  }

  lemma {:induction false} EndingMembers(graph: seq<(TaskId, Task)>, root: TaskId, well: bool)
    ensures forall id :: id in Ending(graph, root, well) <==>
              exists i :: 0 <= i < |graph| && graph[i].0 == id && id != root && graph[i].1.status.Succeeded() == well
  {
    if graph != [] {
      EndingMembers(graph[..|graph| - 1], root, well);
    }
  }

  lemma {:induction false} ArtifactMembers(graph: seq<(TaskId, Task)>, root: TaskId, artifact: string)
    ensures artifact in ArtifactsOf(graph, root) <==>
              exists i :: 0 <= i < |graph| && graph[i].0 != root && artifact in graph[i].1.content.artifacts
                          && (graph[i].1.status.Completed? || graph[i].1.status.PartiallyCompleted?)
  {
    if graph != [] {
      ArtifactMembers(graph[..|graph| - 1], root, artifact);
    }
  }

  /** Positions in the graph, from first to last. */
  predicate Rising(picks: seq<nat>, n: nat) {
    (forall k :: 0 <= k < |picks| ==> picks[k] < n) && forall j, k :: 0 <= j < k < |picks| ==> picks[j] < picks[k]
  }

  /** A node other than the root that ended well, or that did not. */
  predicate Wanted(node: (TaskId, Task), root: TaskId, well: bool) {
    node.0 != root && well == (node.1.status.Completed? || node.1.status.PartiallyCompleted?)
  }

  /** The list names the picked nodes in graph order, and every wanted node is picked. */
  ghost predicate Names(graph: seq<(TaskId, Task)>, root: TaskId, well: bool, list: seq<TaskId>, picks: seq<nat>) {
    && |picks| == |list| && Rising(picks, |graph|)
    && (forall k :: 0 <= k < |list| ==> list[k] == graph[picks[k]].0)
    && (forall i :: 0 <= i < |graph| ==> (Wanted(graph[i], root, well) <==> i in picks))
  }

  lemma NamesGrow(graph: seq<(TaskId, Task)>, node: (TaskId, Task), root: TaskId, well: bool, list: seq<TaskId>, picks: seq<nat>)
    requires Names(graph, root, well, list, picks)
    ensures if Wanted(node, root, well) then Names(graph + [node], root, well, list + [node.0], picks + [|graph|])
            else Names(graph + [node], root, well, list, picks)
  {
    var longer := graph + [node];
    if Wanted(node, root, well) {
      forall i | 0 <= i < |longer| ensures Wanted(longer[i], root, well) <==> i in picks + [|graph|] {
        assert i < |graph| ==> longer[i] == graph[i];
      }
    } else {
      forall i | 0 <= i < |longer| ensures Wanted(longer[i], root, well) <==> i in picks {
        assert i < |graph| ==> longer[i] == graph[i];
      }
    }
  }

  lemma {:induction false} EndingNames(graph: seq<(TaskId, Task)>, root: TaskId, well: bool) returns (picks: seq<nat>)
    ensures Names(graph, root, well, Ending(graph, root, well), picks)
    decreases |graph|
  {
    picks := [];
    if graph != [] {
      var n := |graph| - 1;
      picks := EndingNames(graph[..n], root, well);
      NamesGrow(graph[..n], graph[n], root, well, Ending(graph[..n], root, well), picks);
      assert graph == graph[..n] + [graph[n]];
      if Wanted(graph[n], root, well) {
        picks := picks + [n];
      }
    }
  }

  /** The listing of a graph that the store returns, in any order. */
  ghost predicate Lists(db: Db, root: TaskId, graph: seq<(TaskId, Task)>) {
    && (forall i :: 0 <= i < |graph| ==> InGraph(db, root, graph[i].0) && graph[i].1 == db.tasks[graph[i].0])
    && (forall id :: InGraph(db, root, id) ==> exists i :: 0 <= i < |graph| && graph[i].0 == id)
  }

  /** The lists of successes and failures, the collected artifacts and the Partial flag. */
  method Synthesize(id: TaskId, graph: seq<(TaskId, Task)>)
    returns (successes: seq<TaskId>, failures: seq<TaskId>, artifacts: seq<string>, partial: bool)
    ensures successes == Ending(graph, id, true) && failures == Ending(graph, id, false)
    ensures artifacts == ArtifactsOf(graph, id)
    ensures exists picks :: Names(graph, id, true, successes, picks)
    ensures exists picks :: Names(graph, id, false, failures, picks)
    ensures partial <==> exists i :: 0 <= i < |graph| && graph[i].0 != id && !graph[i].1.status.Succeeded()
  {
    successes, failures, artifacts := [], [], [];
    for i := 0 to |graph|
      invariant successes == Ending(graph[..i], id, true) && failures == Ending(graph[..i], id, false)
      invariant artifacts == ArtifactsOf(graph[..i], id)
    {
      assert graph[..i + 1][..i] == graph[..i];
      var (child, row) := graph[i];
      if child != id {
        match row.status
        case Completed | PartiallyCompleted =>
          successes := successes + [child];
          artifacts := artifacts + row.content.artifacts;
        case _ =>
          failures := failures + [child];
      }
    }
    assert graph[..|graph|] == graph;
    ghost var well := EndingNames(graph, id, true);
    ghost var ill := EndingNames(graph, id, false);
    EndingMembers(graph, id, false);
    partial := |failures| > 0;
    assert partial ==> failures[0] in failures;
    assert forall i :: 0 <= i < |graph| && graph[i].0 != id && !graph[i].1.status.Succeeded() ==>
             graph[i].0 in failures;
  }

  /** What the loop reports over the listed graph is what the runtime model lets a synthesizer answer. */
  lemma PartialMeansChildFailed(db: Db, id: TaskId, root: TaskId, graph: seq<(TaskId, Task)>)
    requires Lists(db, root, graph)
    ensures SomeChildFailed(db, id, root) <==>
              exists i :: 0 <= i < |graph| && graph[i].0 != id && !graph[i].1.status.Succeeded()
  {
    if i :| 0 <= i < |graph| && graph[i].0 != id && !graph[i].1.status.Succeeded() {
      assert InGraph(db, root, graph[i].0);
    }
    if SomeChildFailed(db, id, root) {
      var child :| child in db.tasks && child != id && db.tasks[child].fixed.root == root
                   && !db.tasks[child].status.Succeeded();
      assert InGraph(db, root, child);
    }
  }
}
