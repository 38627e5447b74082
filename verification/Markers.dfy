/**
 Erased tasks and explicit retry. The eligibility check knows one of the two erasure markers, the one
 of the retention sweep; switching transcript retention off writes the other one over it.
 */
module Markers {
  import opened Model
  import opened Transactions
  import opened Evolution
  import opened Retention
  import opened Runtime
  import opened Growth
  import opened Invariants
  import opened Execution
  import opened Synthesis
  import opened Erasure
  import opened Sweeps

  /** What an explicit retry asks of a row besides its content and its conversation. */
  predicate MayRunAgain(row: Task) {
    !row.dismissed && !row.fixed.kind.Shell? && row.retryCount < row.fixed.maxRetries && row.status.Retryable()
  }

  // ---------------------------------------------------------------- switching retention off and on

  /**
   For a task of a finished graph: after its conversation's retention was switched off and on again it
   is eligible for an explicit retry exactly if its scheduling columns allow one, although all its
   content is erased, and whatever had erased it before.
   */
  lemma EligibleAfterOffAndOn(db: Db, task: TaskId, id: ConversationId, now: int, off: Db, later: int, on: Db)
    requires task in db.tasks && db.tasks[task].fixed.conversation == Some(id)
    requires !GraphActive(db, db.tasks[task].fixed.root)
    requires SetTranscriptRetention(db, id, false, now) == Commit(off)
    requires SetTranscriptRetention(off, id, true, later) == Commit(on)
    ensures task in on.tasks && on.tasks[task].content == ErasedContent(NOT_RETAINED_MARKER)
    ensures RetryEligible(on, task) <==> MayRunAgain(db.tasks[task])
  {
    TurningOffErases(db, task, id, now, off);
    TurningOnChangesNoTask(off, id, later, on);
    MarkersDiffer();
  }

  /** The same for a task that a sweep had erased: not eligible right after the sweep, eligible again after off and on. */
  lemma SweptIsEligibleAfterOffAndOn(db: Db, task: TaskId, cutoff: int, id: ConversationId, now: int, off: Db, later: int, on: Db)
    requires InEligible(db, task, cutoff) && db.tasks[task].fixed.conversation == Some(id) && MayRunAgain(db.tasks[task])
    requires SetTranscriptRetention(Sweep(db, cutoff), id, false, now) == Commit(off)
    requires SetTranscriptRetention(off, id, true, later) == Commit(on)
    ensures !RetryEligible(Sweep(db, cutoff), task) && RetryEligible(on, task)
  {
    var swept := Sweep(db, cutoff);
    SweptTaskIsNotEligible(db, task, cutoff);
    SweepChangesContentOnly(db, cutoff, swept);
    var root := db.tasks[task].fixed.root;
    assert !GraphActive(swept, root) by {
      forall other | other in swept.tasks && swept.tasks[other].fixed.root == root ensures swept.tasks[other].status.Terminal() {
        assert db.tasks[other].fixed.root == root && Eligible(db, root, cutoff);
      }
    }
    EligibleAfterOffAndOn(swept, task, id, now, off, later, on);
  }

  /** A store with one failed task of one retained conversation. */
  const ONE_TASK := Task(
    Fixed("t", Some("c"), Delegated("dialog"), "agent", 0, 2, "", None, [], "k"),
    Failed, 0, None, Some(0), 0, 1, 0, false, Content("g", "i", "", "e", None, "", []))

  const ONE_FAILURE := EMPTY_DB.(
    tasks := map["t" := ONE_TASK],
    conversations := map["c" := Conversation("x", "title", true, 0)])

  lemma OneFailureIsSwept()
    ensures InEligible(ONE_FAILURE, "t", 10)
  {
    assert ONE_FAILURE.tasks["t"].fixed.root == "t";
  }

  /** A concrete input on which "a swept task cannot be retried" fails. */
  lemma SweptTaskRetried()
    ensures exists off, on ::
              && SetTranscriptRetention(Sweep(ONE_FAILURE, 10), "c", false, 11) == Commit(off)
              && SetTranscriptRetention(off, "c", true, 12) == Commit(on)
              && RetryEligible(on, "t")
  {
    OneFailureIsSwept();
    var swept := Sweep(ONE_FAILURE, 10);
    assert "c" in swept.conversations;
    var off := SetTranscriptRetention(swept, "c", false, 11).db;
    assert "c" in off.conversations;
    var on := SetTranscriptRetention(off, "c", true, 12).db;
    SweptIsEligibleAfterOffAndOn(ONE_FAILURE, "t", 10, "c", 11, off, 12, on);
  }

  // ---------------------------------------------------------------- how long a sweep's mark lasts

  predicate Marked(row: Task) {
    row.status.Terminal() && row.content.goal == EXPIRED_MARKER
  }

  /** Every node has ended and carries the mark of the retention sweep. */
  ghost predicate SweptGraph(db: Db, root: TaskId) {
    root in db.tasks && forall id :: InGraph(db, root, id) ==> Marked(db.tasks[id])
  }

  lemma SweepMarks(db: Db, root: TaskId, cutoff: int)
    requires root in db.tasks && Eligible(db, root, cutoff)
    ensures SweptGraph(Sweep(db, cutoff), root)
  {
    var next := SweepTasks(db, cutoff).tasks;
    forall id | id in next && next[id].fixed.root == root ensures Marked(next[id]) {
      assert InEligible(db, id, cutoff);
    }
  }

  /** The marks of the graph stand. */
  ghost predicate MarksStand(db: Db, next: Db, root: TaskId) {
    forall id :: InGraph(db, root, id) && Marked(db.tasks[id]) ==> id in next.tasks && Marked(next.tasks[id])
  }

  /** Some node of the graph belongs to the conversation. */
  predicate Reaches(db: Db, conversation: ConversationId, root: TaskId) {
    exists id <- db.tasks :: db.tasks[id].fixed.root == root && db.tasks[id].fixed.conversation == Some(conversation)
  }

  /** Scrubs that reach the graph: by name, or by switching the retention of one of its conversations off. */
  predicate CommandScrubs(db: Db, command: Command, root: TaskId) {
    || (command.Scrub? && command.root == root && NotRetained(db, root))
    || (command.Retain? && !command.enabled && Reaches(db, command.conversation, root))
  }

  predicate StepScrubs(db: Db, step: Step, root: TaskId) {
    || (step.Control? && CommandScrubs(db, step.command, root))
    || (step.Ask? && step.apply && !step.record.retained && Reaches(db, step.conversation, root))
  }

  // -- commands

  lemma OneRowKeepsMarks(db: Db, id: TaskId, row: Task, next: Db, root: TaskId)
    requires id in db.tasks && next.tasks == db.tasks[id := row] && (Marked(db.tasks[id]) ==> Marked(row))
    ensures MarksStand(db, next, root)
  {}

  lemma DismissKeepsMarks(db: Db, id: TaskId, next: Db, root: TaskId)
    requires next == DismissTask(db, id).Over(db)
    ensures MarksStand(db, next, root)
  {
    if DismissTask(db, id).Commit? {
      OneRowKeepsMarks(db, id, Bump(db.tasks[id].(dismissed := true)), next, root);
    }
  }

  lemma PriorityKeepsMarks(db: Db, id: TaskId, priority: int, next: Db, root: TaskId)
    requires next == SetTaskPriority(db, id, priority).Over(db)
    ensures MarksStand(db, next, root)
  {
    if SetTaskPriority(db, id, priority).Commit? {
      OneRowKeepsMarks(db, id, Bump(db.tasks[id].(priority := priority)), next, root);
    }
  }

  lemma ProgressKeepsMarks(db: Db, id: TaskId, percent: int, message: string, next: Db, root: TaskId)
    requires next == UpdateTaskProgress(db, id, percent, message).Over(db)
    ensures MarksStand(db, next, root)
  {
    if UpdateTaskProgress(db, id, percent, message).Commit? {
      OneRowKeepsMarks(db, id, next.tasks[id], next, root);
    }
  }

  lemma RowCommandsKeepMarks(db: Db, command: Command, next: Db, root: TaskId)
    requires next == Commanded(db, command) && (command.Dismiss? || command.Prioritize? || command.Progress?)
    ensures MarksStand(db, next, root)
  {
    match command
    case Dismiss(id) => DismissKeepsMarks(db, id, next, root);
    case Prioritize(id, priority) => PriorityKeepsMarks(db, id, priority, next, root);
    case Progress(id, percent, message) => ProgressKeepsMarks(db, id, percent, message, next, root);
  }

  lemma DecisionKeepsMarks(db: Db, key: ApprovalId, actor: string, approved: bool, now: int, next: Db, root: TaskId)
    requires next == DecideApproval(db, key, actor, approved, now).Over(db)
    ensures MarksStand(db, next, root)
  {
    match DecideApproval(db, key, actor, approved, now)
    case Refused(_) =>
    case Lapsed(_) =>
    case Decided(_) =>
  }

  lemma ExpiryKeepsMarks(db: Db, now: int, next: Db, root: TaskId)
    requires next == ExpireApprovals(db, now)
    ensures MarksStand(db, next, root)
  {}

  lemma CancelledRowKeepsMark(row: Task, now: int)
    requires Marked(row)
    ensures CancelledRow(row, now) == row
  {}

  lemma CancelKeepsMarks(db: Db, id: TaskId, now: int, next: Db, root: TaskId)
    requires next == CancelTaskGraph(db, id, now).Over(db)
    ensures MarksStand(db, next, root)
  {
    if id in db.tasks {
      forall other | other in db.tasks && Marked(db.tasks[other])
        ensures other in next.tasks && next.tasks[other] == db.tasks[other]
      {
        CancelledRowKeepsMark(db.tasks[other], now);
      }
    }
  }

  lemma SweepKeepsMarks(db: Db, cutoff: int, sweptAt: int, audit: string, correlation: string, next: Db, root: TaskId)
    requires next == SweepTx(db, cutoff, sweptAt, audit, correlation).Over(db)
    ensures MarksStand(db, next, root)
  {
    if SweepTx(db, cutoff, sweptAt, audit, correlation).Commit? {
      assert next.tasks == SweepTasks(db, cutoff).tasks;
    }
  }

  /** A retry changes eligible rows and a queued root, and a marked row is neither. */
  lemma RootRetryKeepsMarks(db: Db, id: TaskId, next: Db, root: TaskId)
    requires RetryEligible(db, id) && RetryRoot(db, id) == Commit(next)
    ensures MarksStand(db, next, root)
  {
    var again := RetryableDependencies(db, id);
    if GraphSize(db, id) <= 1 || again == {} {
      assert next.tasks == db.tasks[id := RearmedRow(db.tasks[id], RETRY_MESSAGE)];
    } else {
      assert next.tasks == RearmGraph(db, id, again);
      forall other | other in again ensures RetryEligible(db, other) {}
    }
  }

  lemma RearmChildKeepsMarks(db: Db, id: TaskId, top: Task, next: Db, root: TaskId)
    requires id in db.tasks && db.tasks[id].fixed.root in db.tasks && next.tasks == RearmChild(db, id, top)
    requires !Marked(db.tasks[id]) && !Marked(db.tasks[db.tasks[id].fixed.root])
    ensures MarksStand(db, next, root)
  {}

  lemma ChildBehindQueuedRoot(db: Db, id: TaskId, next: Db, root: TaskId)
    requires RetryEligible(db, id) && db.tasks[id].fixed.root != id && RetryChild(db, id) == Commit(next)
    requires Guardable(db, db.tasks[id].fixed.root)
    ensures MarksStand(db, next, root)
  {
    RearmChildKeepsMarks(db, id, GuardedRow(db.tasks[db.tasks[id].fixed.root]), next, root);
  }

  lemma ChildWithRoot(db: Db, id: TaskId, next: Db, root: TaskId)
    requires RetryEligible(db, id) && db.tasks[id].fixed.root != id && RetryChild(db, id) == Commit(next)
    requires !Guardable(db, db.tasks[id].fixed.root)
    ensures MarksStand(db, next, root)
  {
    assert RetryEligible(db, db.tasks[id].fixed.root);
    RearmChildKeepsMarks(db, id, RearmedRow(db.tasks[db.tasks[id].fixed.root], WAITING_MESSAGE), next, root);
  }

  lemma RetryKeepsMarks(db: Db, id: TaskId, next: Db, root: TaskId)
    requires next == RetryTask(db, id).Over(db)
    ensures MarksStand(db, next, root)
  {
    if RetryTask(db, id).Commit? {
      if db.tasks[id].fixed.root == id {
        RootRetryKeepsMarks(db, id, next, root);
      } else if Guardable(db, db.tasks[id].fixed.root) {
        ChildBehindQueuedRoot(db, id, next, root);
      } else {
        ChildWithRoot(db, id, next, root);
      }
    }
  }

  lemma ScrubElsewhere(db: Db, roots: set<TaskId>, root: TaskId)
    requires root !in roots
    ensures MarksStand(db, ScrubGraphs(db, roots), root)
  {}

  lemma ScrubTerminalKeepsMarks(db: Db, other: TaskId, next: Db, root: TaskId)
    requires next == ScrubTerminalTaskGraph(db, other) && !CommandScrubs(db, Scrub(other), root)
    ensures MarksStand(db, next, root)
  {
    if NotRetained(db, other) && !GraphActive(db, other) {
      ScrubElsewhere(ScrubEvents(db, db.conversations[db.tasks[other].fixed.conversation.value].externalKey), {other}, root);
    }
  }

  lemma SwitchKeepsMarks(db: Db, id: ConversationId, enabled: bool, now: int, next: Db, root: TaskId)
    requires next == SetTranscriptRetention(db, id, enabled, now).Over(db) && (enabled || !Reaches(db, id, root))
    ensures MarksStand(db, next, root)
  {
    if id in db.conversations && !enabled {
      var quiet := ScrubEvents(db, db.conversations[id].externalKey).(
        turns := map key <- db.turns | db.turns[key].conversation != id :: db.turns[key],
        conversations := db.conversations[id := db.conversations[id].(
          retained := false, title := NOT_RETAINED_MARKER, updatedAt := now)]);
      RetentionIs(db, id, now, quiet);
      assert root !in SettledGraphs(quiet, id);
      ScrubElsewhere(quiet, SettledGraphs(quiet, id), root);
    }
  }

  lemma CommandKeepsMarks(db: Db, command: Command, next: Db, root: TaskId)
    requires next == Commanded(db, command) && !CommandScrubs(db, command, root)
    ensures MarksStand(db, next, root)
  {
    if command.Decide? {
      DecisionKeepsMarks(db, command.key, command.actor, command.approved, command.now, next, root);
    } else if command.ExpireAll? {
      ExpiryKeepsMarks(db, command.now, next, root);
    } else if command.Retry? {
      RetryKeepsMarks(db, command.id, next, root);
    } else if command.CancelGraph? {
      CancelKeepsMarks(db, command.id, command.now, next, root);
    } else if command.Retain? {
      SwitchKeepsMarks(db, command.conversation, command.enabled, command.now, next, root);
    } else if command.Scrub? {
      ScrubTerminalKeepsMarks(db, command.root, next, root);
    } else if command.SweepAll? {
      SweepKeepsMarks(db, command.cutoff, command.sweptAt, command.audit, command.correlation, next, root);
    } else {
      RowCommandsKeepMarks(db, command, next, root);
    }
  }

  // -- workers

  /** No row but this one changes. */
  ghost predicate ChangesOnly(db: Db, next: Db, id: TaskId) {
    forall other :: other in db.tasks && other != id ==> other in next.tasks && next.tasks[other] == db.tasks[other]
  }

  lemma UnmarkedMoves(db: Db, next: Db, id: TaskId, root: TaskId)
    requires ChangesOnly(db, next, id) && (id in db.tasks ==> !Marked(db.tasks[id]))
    ensures MarksStand(db, next, root)
  {}

  lemma RequeueChangesOnly(db: Db, id: TaskId, error: string, next: Db)
    requires RequeueTask(db, id, error) == Commit(next)
    ensures ChangesOnly(db, next, id)
  {}

  lemma FailChangesOnly(db: Db, id: TaskId, error: string, timedOut: bool, now: int, next: Db)
    requires FailTask(db, id, error, timedOut, now) == Commit(next)
    ensures ChangesOnly(db, next, id)
  {}

  lemma StopChangesOnly(db: Db, id: TaskId, now: int, next: Db)
    requires MarkTaskCancelled(db, id, now) == Commit(next)
    ensures ChangesOnly(db, next, id)
  {}

  lemma LeavingChangesOnly(db: Db, held: Worker, now: int, next: Db)
    requires held.Finishing? && !held.action.Complete? && LeavingTx(db, held, now) == Commit(next)
    ensures ChangesOnly(db, next, held.id)
  {
    match held.action
    case Requeue(error, _, _) => RequeueChangesOnly(db, held.id, error, next);
    case Fail(error, timedOut) => FailChangesOnly(db, held.id, error, timedOut, now, next);
    case Cancel => StopChangesOnly(db, held.id, now, next);
  }

  lemma SettleOtherChangesOnly(s: Sys, worker: nat, now: int, t: Sys)
    requires worker in s.workers && s.workers[worker].Finishing? && !s.workers[worker].action.Complete?
    requires t == SettleOther(s, worker, now)
    ensures ChangesOnly(s.db, t.db, s.workers[worker].id)
  {
    if LeavingTx(s.db, s.workers[worker], now).Commit? {
      LeavingChangesOnly(s.db, s.workers[worker], now, t.db);
    }
  }

  lemma EarlyJobsChangeOnly(s: Sys, worker: nat, job: Job, t: Sys)
    requires t == Toil(s, worker, job) && (job.Claim? || job.Begin?)
    ensures ChangesOnly(s.db, t.db, TaskOf(s, worker, job))
  {
    match job
    case Claim(id) =>
    case Begin(now) =>
  }

  lemma OtherJobsChangeOnly(s: Sys, worker: nat, job: Job, t: Sys)
    requires t == Toil(s, worker, job) && t != s && !Completing(s, worker, job)
    requires !job.Claim? ==> worker in s.workers
    ensures ChangesOnly(s.db, t.db, TaskOf(s, worker, job))
  {
    if job.Claim? || job.Begin? {
      EarlyJobsChangeOnly(s, worker, job, t);
    } else if job.Settle? {
      SettleOtherChangesOnly(s, worker, job.now, t);
    } else if !job.ReadBack? {
      PhaseShape(s, worker, job, t);
    }
  }

  /** A completing root erases no graph but its own, and its own was not finished. */
  lemma CompletionKeepsMarks(db: Db, held: Worker, route: Option<(string, DeliveryStatus)>, now: int, next: Db, root: TaskId)
    requires held.Finishing? && held.action.Complete? && CompletionTx(db, held, route, now) == Commit(next)
    requires held.id in db.tasks && !db.tasks[held.id].status.Terminal() && db.tasks[held.id].fixed == held.row.fixed
    requires SweptGraph(db, root)
    ensures MarksStand(db, next, root)
  {
    if held.id == held.row.fixed.root {
      assert held.id != root by {
        assert InGraph(db, held.id, held.id);
      }
      RootCompletionKeepsMarks(db, held.id, held.action.answer,
                               FinalOutcome(held.id, held.row, held.action.answer, route, now), now, next, root);
    } else {
      assert ChangesOnly(db, next, held.id);
      UnmarkedMoves(db, next, held.id, root);
    }
  }

  lemma CompletedRowKeepsMarks(db: Db, id: TaskId, answer: Answer, now: int, done: Db, root: TaskId)
    requires id in db.tasks && !Marked(db.tasks[id])
    requires done.tasks == db.tasks[id := CompletedRow(db.tasks[id], answer, now)]
    ensures MarksStand(db, done, root)
    ensures forall other :: other in db.tasks ==> done.tasks[other].fixed == db.tasks[other].fixed
  {}

  lemma MarksStandOn(a: Db, b: Db, c: Db, root: TaskId)
    requires MarksStand(a, b, root) && MarksStand(b, c, root)
    requires forall id :: id in a.tasks && id in b.tasks ==> b.tasks[id].fixed == a.tasks[id].fixed
    ensures MarksStand(a, c, root)
  {}

  lemma AnnouncedKeepsMarks(db: Db, id: TaskId, answer: Answer, outcome: Outcome, retain: bool, now: int, told: Db, root: TaskId)
    requires id in db.tasks && !Marked(db.tasks[id])
    requires told == Announce(SetTask(db, id, CompletedRow(db.tasks[id], answer, now)), outcome, retain)
    ensures MarksStand(db, told, root)
    ensures forall other :: other in db.tasks ==> other in told.tasks && told.tasks[other].fixed == db.tasks[other].fixed
  {
    CompletedRowKeepsMarks(db, id, answer, now, told, root);
  }

  lemma WithheldKeepsMarks(db: Db, told: Db, id: TaskId, key: string, next: Db, root: TaskId)
    requires MarksStand(db, told, root) && next == Withhold(told, id, key) && id != root
    requires forall other :: other in db.tasks ==> other in told.tasks && told.tasks[other].fixed == db.tasks[other].fixed
    ensures MarksStand(db, next, root)
  {
    WithholdKeepsMarks(told, id, key, next, root);
    MarksStandOn(db, told, next, root);
  }

  lemma RootCompletionKeepsMarks(db: Db, id: TaskId, answer: Answer, outcome: Outcome, now: int, next: Db, root: TaskId)
    requires CompleteTaskWithOutcome(db, id, answer, outcome, now) == Commit(next) && id != root
    requires !Marked(db.tasks[id])
    ensures MarksStand(db, next, root)
  {
    var conversation := db.tasks[id].fixed.conversation;
    if conversation.None? || db.conversations[conversation.value].retained {
      KeptOutcome(db, id, answer, outcome, now, next);
      AnnouncedKeepsMarks(db, id, answer, outcome, true, now, next, root);
    } else {
      WithheldOutcome(db, id, answer, outcome, now, next);
      var told := Announce(SetTask(db, id, CompletedRow(db.tasks[id], answer, now)), outcome, false);
      AnnouncedKeepsMarks(db, id, answer, outcome, false, now, told, root);
      WithheldKeepsMarks(db, told, id, db.conversations[conversation.value].externalKey, next, root);
    }
  }

  lemma WithholdKeepsMarks(db: Db, id: TaskId, key: string, next: Db, root: TaskId)
    requires next == Withhold(db, id, key) && id != root
    ensures MarksStand(db, next, root)
  {
    var quiet := ScrubEvents(db, key);
    if GraphActive(quiet, id) {
      assert next == quiet;
    } else {
      ScrubElsewhere(quiet, {id}, root);
    }
  }

  lemma CompletingKeepsMarks(s: Sys, worker: nat, job: Job, t: Sys, root: TaskId)
    requires Sound(s) && Completing(s, worker, job) && SweptGraph(s.db, root)
    requires t == SettleComplete(s, worker, job.route, job.now)
    ensures MarksStand(s.db, t.db, root)
  {
    var held := s.workers[worker];
    assert Holds(held, s.db.tasks[held.id]);
    CompletionCommits(s, worker, job.route, job.now);
    CompletionKeepsMarks(s.db, held, job.route, job.now, t.db, root);
  }

  lemma JobIsUnmarked(s: Sys, worker: nat, job: Job, t: Sys, id: TaskId)
    requires Owned(s.db, s.workers) && t == Toil(s, worker, job) && t != s && id == TaskOf(s, worker, job)
    ensures id in s.db.tasks && !Marked(s.db.tasks[id])
    ensures !job.Claim? ==> worker in s.workers
  {
    JobMovesClaimed(s, worker, job, t);
  }

  lemma OtherJobKeepsMarks(s: Sys, worker: nat, job: Job, t: Sys, root: TaskId)
    requires Owned(s.db, s.workers) && t == Toil(s, worker, job) && t != s && !Completing(s, worker, job)
    ensures MarksStand(s.db, t.db, root)
  {
    var id := TaskOf(s, worker, job);
    JobIsUnmarked(s, worker, job, t, id);
    OtherJobsChangeOnly(s, worker, job, t);
    UnmarkedMoves(s.db, t.db, id, root);
  }

  lemma JobKeepsMarks(s: Sys, worker: nat, job: Job, t: Sys, root: TaskId)
    requires Sound(s) && t == Toil(s, worker, job) && SweptGraph(s.db, root)
    ensures MarksStand(s.db, t.db, root)
  {
    if t != s {
      if Completing(s, worker, job) {
        CompletingKeepsMarks(s, worker, job, t, root);
      } else {
        OtherJobKeepsMarks(s, worker, job, t, root);
      }
    }
  }

  // -- requests and recovery

  lemma RecoveryKeepsMarks(db: Db, now: int, next: Db, root: TaskId)
    requires next == RecoverInterruptedTasks(db, now)
    ensures MarksStand(db, next, root)
  {
    forall id | id in db.tasks && Marked(db.tasks[id]) ensures next.tasks[id] == db.tasks[id] {
      assert RecoveryOf(db, id).Untouched?;
    }
  }

  lemma EnteringKeepsReach(db: Db, id: ConversationId, record: Conversation, root: TaskId)
    ensures Reaches(OpenConversation(db, id, record), id, root) == Reaches(db, id, root)
  {}

  lemma SwitchingKeepsMarks(entered: Db, id: ConversationId, record: Conversation, apply: bool, known: Db, root: TaskId)
    requires known == ApplyRetention(entered, id, record, apply)
    requires apply && !record.retained ==> !Reaches(entered, id, root)
    ensures MarksStand(entered, known, root)
  {
    if apply {
      SwitchKeepsMarks(entered, id, record.retained, record.updatedAt, known, root);
    }
  }

  lemma AskKeepsMarks(s: Sys, step: Step, t: Sys, root: TaskId)
    requires step.Ask? && t == Next(s, step) && !StepScrubs(s.db, step, root)
    ensures MarksStand(s.db, t.db, root)
  {
    if t.db != s.db {
      var entered := OpenConversation(s.db, step.conversation, step.record);
      var known := ApplyRetention(entered, step.conversation, step.record, step.apply);
      AskGrows(s.db, step.conversation, step.record, step.apply, step.turn, step.rows, t.db);
      EnteringKeepsReach(s.db, step.conversation, step.record, root);
      SwitchingKeepsMarks(entered, step.conversation, step.record, step.apply, known, root);
    }
  }

  lemma ShellKeepsMarks(s: Sys, step: Step, t: Sys, root: TaskId)
    requires step.RunShell? && t == Next(s, step) && Gated(s.db)
    ensures MarksStand(s.db, t.db, root)
  {
    ShellAdmits(s, step.id, step.row, step.gated, step.expiresAt, t);
  }

  lemma StepKeepsMarks(s: Sys, step: Step, t: Sys, root: TaskId)
    requires Sound(s) && t == Next(s, step) && SweptGraph(s.db, root) && !StepScrubs(s.db, step, root)
    ensures MarksStand(s.db, t.db, root)
  {
    match step
    case Control(command) => CommandKeepsMarks(s.db, command, t.db, root);
    case Work(worker, job) => JobKeepsMarks(s, worker, job, t, root);
    case Recover(now) =>
      if !s.up {
        RecoveryKeepsMarks(s.db, now, t.db, root);
      }
    case Crash =>
    case Ask(_, _, _, _, _) => AskKeepsMarks(s, step, t, root);
    case RunShell(_, _, _, _) =>
      BoundIsGated(s.db);
      ShellKeepsMarks(s, step, t, root);
  }

  lemma AdvanceJoinsNoGraph(db: Db, mid: Db, next: Db, retried: Option<TaskId>, root: TaskId)
    requires Advances(db, mid, next, retried) && root in db.tasks
    ensures root in next.tasks && forall id :: InGraph(next, root, id) ==> InGraph(db, root, id)
  {
    forall id | id in next.tasks && id !in mid.tasks ensures next.tasks[id].fixed.root != root {
      assert NewNode(mid, next, id);
    }
    forall id | id in mid.tasks ensures mid.tasks[id].fixed == db.tasks[id].fixed && next.tasks[id] == mid.tasks[id] {
      assert RowEvolves(db.tasks[id], mid.tasks[id]);
    }
  }

  /** No row joins a graph that exists. */
  lemma StepJoinsNoGraph(s: Sys, step: Step, t: Sys, root: TaskId)
    requires Sound(s) && t == Next(s, step) && root in s.db.tasks
    ensures root in t.db.tasks && forall id :: InGraph(t.db, root, id) ==> InGraph(s.db, root, id)
  {
    BoundIsGated(s.db);
    StepEvolves(s, step, t);
    var mid :| Advances(s.db, mid, t.db, RetriedBy(s, step));
    AdvanceJoinsNoGraph(s.db, mid, t.db, RetriedBy(s, step), root);
  }

  lemma StepKeepsSwept(s: Sys, step: Step, t: Sys, root: TaskId)
    requires Sound(s) && t == Next(s, step) && SweptGraph(s.db, root) && !StepScrubs(s.db, step, root)
    ensures SweptGraph(t.db, root)
  {
    StepKeepsMarks(s, step, t, root);
    StepJoinsNoGraph(s, step, t, root);
  }

  // ---------------------------------------------------------------- every run

  ghost predicate NeverScrubbed(before: seq<Step>, later: seq<Step>, root: TaskId) {
    forall k :: 0 <= k < |later| ==> !StepScrubs(Run(START, before + later[..k]).db, later[k], root)
  }

  lemma NeverScrubbedPrefix(before: seq<Step>, later: seq<Step>, root: TaskId)
    requires later != [] && NeverScrubbed(before, later, root)
    ensures NeverScrubbed(before, later[..|later| - 1], root)
    ensures !StepScrubs(Run(START, before + later[..|later| - 1]).db, later[|later| - 1], root)
  {
    var n := |later| - 1;
    forall k | 0 <= k < n ensures !StepScrubs(Run(START, before + later[..n][..k]).db, later[..n][k], root) {
      assert later[..n][..k] == later[..k];
    }
  }

  /**
   From the sweep on, in every continuation without a scrub of the graph, every node keeps the sweep's
   mark, stays ended and is refused by explicit retry.
   */
  lemma {:induction false} SweptUntilScrubbed(before: seq<Step>, later: seq<Step>, root: TaskId)
    requires SweptGraph(Run(START, before).db, root) && NeverScrubbed(before, later, root)
    ensures SweptGraph(Run(START, before + later).db, root)
    ensures NoneEligible(Run(START, before + later).db, root)
    decreases |later|
  {
    if later == [] {
      assert before + later == before;
    } else {
      NeverScrubbedPrefix(before, later, root);
      SweptUntilScrubbed(before, later[..|later| - 1], root);
      var s, t := LastStep(before, later);
      StepKeepsSwept(s, later[|later| - 1], t, root);
    }
    SweptIsRefused(Run(START, before + later).db, root);
  }

  ghost predicate NoneEligible(db: Db, root: TaskId) {
    forall id :: InGraph(db, root, id) ==> !RetryEligible(db, id)
  }

  lemma SweptIsRefused(db: Db, root: TaskId)
    requires SweptGraph(db, root)
    ensures NoneEligible(db, root)
  {}

  // ---------------------------------------------------------------- and not longer

  lemma OffErasesGraph(db: Db, id: ConversationId, now: int, off: Db, root: TaskId)
    requires SetTranscriptRetention(db, id, false, now) == Commit(off) && SweptGraph(db, root) && Reaches(db, id, root)
    ensures GraphErased(off, root) && off.tasks.Keys == db.tasks.Keys
  {
    var quiet := ScrubEvents(db, db.conversations[id].externalKey).(
      turns := map key <- db.turns | db.turns[key].conversation != id :: db.turns[key],
      conversations := db.conversations[id := db.conversations[id].(
        retained := false, title := NOT_RETAINED_MARKER, updatedAt := now)]);
    RetentionIs(db, id, now, quiet);
    assert root in SettledGraphs(quiet, id) by {
      var node :| node in db.tasks && db.tasks[node].fixed.root == root && db.tasks[node].fixed.conversation == Some(id);
      assert node in quiet.tasks && !GraphActive(quiet, root);
    }
    assert off.tasks.Keys == db.tasks.Keys;
  }

  lemma ErasedIsNotSwept(db: Db, root: TaskId)
    requires root in db.tasks && db.tasks[root].fixed.root == root && GraphErased(db, root)
    ensures !SweptGraph(db, root)
  {
    MarkersDiffer();
    assert InGraph(db, root, root);
  }

  lemma NamedScrubEndsTheMark(db: Db, root: TaskId, next: Db)
    requires next == ScrubTerminalTaskGraph(db, root) && SweptGraph(db, root) && NotRetained(db, root)
    requires db.tasks[root].fixed.root == root
    ensures GraphErased(next, root) && !SweptGraph(next, root)
  {
    assert !GraphActive(db, root);
    ScrubErases(db, root, next);
    ErasedIsNotSwept(next, root);
  }

  lemma SwitchEndsTheMark(db: Db, id: ConversationId, now: int, next: Db, root: TaskId)
    requires id in db.conversations && next == SetTranscriptRetention(db, id, false, now).Over(db)
    requires SweptGraph(db, root) && Reaches(db, id, root) && db.tasks[root].fixed.root == root
    ensures GraphErased(next, root) && !SweptGraph(next, root)
  {
    OffErasesGraph(db, id, now, next, root);
    RetentionEvolves(db, id, false, now, next);
    assert RowEvolves(db.tasks[root], next.tasks[root]);
    ErasedIsNotSwept(next, root);
  }

  lemma ReachedIsKnown(db: Db, id: ConversationId, root: TaskId)
    requires Structured(db) && Reaches(db, id, root)
    ensures id in db.conversations
  {
    var node :| node in db.tasks && db.tasks[node].fixed.root == root && db.tasks[node].fixed.conversation == Some(id);
    assert WellPlaced(db, node);
  }

  /** A scrubbing command ends the mark. */
  lemma ScrubEndsTheMark(db: Db, command: Command, next: Db, root: TaskId)
    requires Structured(db) && next == Commanded(db, command) && SweptGraph(db, root) && CommandScrubs(db, command, root)
    requires db.tasks[root].fixed.root == root
    ensures GraphErased(next, root) && !SweptGraph(next, root)
  {
    if command.Scrub? {
      NamedScrubEndsTheMark(db, root, next);
    } else {
      ReachedIsKnown(db, command.conversation, root);
      SwitchEndsTheMark(db, command.conversation, command.now, next, root);
    }
  }

  lemma SweptElsewhere(db: Db, entered: Db, id: ConversationId, root: TaskId)
    requires entered.tasks == db.tasks && SweptGraph(db, root) && Reaches(db, id, root)
    ensures SweptGraph(entered, root) && Reaches(entered, id, root)
  {}

  lemma ErasedGrows(known: Db, next: Db, root: TaskId)
    requires Grows(known, next) && GraphErased(known, root) && root in known.tasks
    ensures GraphErased(next, root) && next.tasks[root] == known.tasks[root]
  {
    forall id | id in next.tasks && id !in known.tasks ensures next.tasks[id].fixed.root != root {
      assert NewNode(known, next, id);
    }
  }

  /** And so does a request that switches the retention of one of its conversations off. */
  lemma AskEndsTheMark(s: Sys, step: Step, t: Sys, root: TaskId)
    requires step.Ask? && t == Next(s, step) && t.db != s.db && SweptGraph(s.db, root) && StepScrubs(s.db, step, root)
    requires s.db.tasks[root].fixed.root == root
    ensures !SweptGraph(t.db, root)
  {
    var entered := OpenConversation(s.db, step.conversation, step.record);
    var known := ApplyRetention(entered, step.conversation, step.record, true);
    AskGrows(s.db, step.conversation, step.record, true, step.turn, step.rows, t.db);
    SweptElsewhere(s.db, entered, step.conversation, root);
    OffErasesGraph(entered, step.conversation, step.record.updatedAt, known, root);
    assert RowEvolves(entered.tasks[root], known.tasks[root]);
    ErasedGrows(known, t.db, root);
    ErasedIsNotSwept(t.db, root);
  }

  /** Of all steps that take effect, exactly the scrubs that reach the graph end the mark. */
  lemma MarkEndsIff(s: Sys, step: Step, t: Sys, root: TaskId)
    requires Sound(s) && t == Next(s, step) && SweptGraph(s.db, root) && s.db.tasks[root].fixed.root == root
    requires step.Ask? ==> t.db != s.db
    ensures SweptGraph(t.db, root) <==> !StepScrubs(s.db, step, root)
  {
    if !StepScrubs(s.db, step, root) {
      StepKeepsSwept(s, step, t, root);
    } else if step.Ask? {
      AskEndsTheMark(s, step, t, root);
    } else {
      ScrubEndsTheMark(s.db, step.command, t.db, root);
    }
  }
}
