/**
 What every reachable state keeps: the shape of task graphs, the bond between waiting tasks and
 pending approvals, and the ownership of tasks by workers.
 */
module Invariants {
  import opened Model
  import opened Transactions
  import opened Evolution
  import opened Retention
  import opened Runtime
  import opened Growth

  ghost predicate Structured(db: Db) {
    && (forall id :: id in db.tasks ==>
          && WellPlaced(db, id)
          && db.tasks[id].retryCount <= db.tasks[id].fixed.maxRetries
          && (db.tasks[id].dismissed ==> db.tasks[id].status.Terminal()))
    && (forall dep :: dep in db.deps ==> WellLinked(db, dep.0, dep.1))
  }

  /** A task waits exactly as long as its own single-use approval is pending, for its own command. */
  ghost predicate Bound(db: Db) {
    && (forall key :: key in db.approvals ==>
          && key == ApprovalKey(db.approvals[key].task)
          && db.approvals[key].task in db.tasks
          && db.tasks[db.approvals[key].task].fixed.kind.Shell?)
    && (forall id :: id in db.tasks ==> (db.tasks[id].status.WaitingForApproval? <==> PendingFor(db, id)))
    && (forall id :: id in db.tasks && PendingFor(db, id) ==>
          db.approvals[ApprovalKey(id)].arguments == db.tasks[id].content.input)
  }

  // ---------------------------------------------------------------- ownership

  /** The row in memory and the row in the store agree on what matters while a worker holds it. */
  predicate SameHold(held: Task, row: Task) {
    && held.fixed == row.fixed
    && held.retryCount == row.retryCount
    && held.content.input == row.content.input
  }

  /** The version identifies the row. */
  predicate Snapshot(held: Task, row: Task) {
    held.version <= row.version && (held.version == row.version ==> held == row)
  }

  predicate HeldStatus(held: Worker, status: Status) {
    (if held.Claimed? then status.Assigned? else status.Running?) || status.CancelRequested?
  }

  predicate Holds(held: Worker, row: Task) {
    && HeldStatus(held, row.status)
    && (!held.Starting? ==> SameHold(held.row, row) && Snapshot(held.row, row))
    && (held.Launching? || held.Executing? ==> row.fixed.kind.Shell?)
  }

  ghost predicate Owned(db: Db, workers: map<nat, Worker>) {
    && (forall w :: w in workers ==> workers[w].id in db.tasks && Holds(workers[w], db.tasks[workers[w].id]))
    && (forall v, w :: v in workers && w in workers && v != w ==> workers[v].id != workers[w].id)
  }

  ghost predicate Sound(s: Sys) {
    && Structured(s.db)
    && Bound(s.db)
    && Owned(s.db, s.workers)
    && (!s.up ==> s.workers == map[])
  }

  // ---------------------------------------------------------------- structure

  lemma RowKeepsBounds(a: Task, b: Task)
    requires RowEvolves(a, b) && a.retryCount <= a.fixed.maxRetries && (a.dismissed ==> a.status.Terminal())
    ensures b.retryCount <= b.fixed.maxRetries && (b.dismissed ==> b.status.Terminal())
  {}

  /** Placement depends on the fixed columns, the dependencies and the conversations only. */
  lemma PlacesKept(db: Db, next: Db)
    requires Structured(db)
    requires next.deps == db.deps && next.tasks.Keys == db.tasks.Keys
    requires db.conversations.Keys <= next.conversations.Keys
    requires forall id :: id in db.tasks ==> next.tasks[id].fixed == db.tasks[id].fixed
    ensures forall id :: id in next.tasks ==> WellPlaced(next, id)
    ensures forall dep :: dep in next.deps ==> WellLinked(next, dep.0, dep.1)
  {
    forall id | id in next.tasks ensures WellPlaced(next, id) {
      assert WellPlaced(db, id);
    }
  }

  lemma StructureEvolves(db: Db, next: Db)
    requires Structured(db) && RowsEvolve(db, next)
    ensures Structured(next)
  {
    forall id | id in next.tasks
      ensures next.tasks[id].retryCount <= next.tasks[id].fixed.maxRetries
      ensures next.tasks[id].dismissed ==> next.tasks[id].status.Terminal()
      ensures next.tasks[id].fixed == db.tasks[id].fixed
    {
      RowKeepsBounds(db.tasks[id], next.tasks[id]);
    }
    PlacesKept(db, next);
  }

  lemma StructureGrows(db: Db, next: Db)
    requires Structured(db) && Grows(db, next)
    ensures Structured(next)
  {
    forall id | id in next.tasks
      ensures WellPlaced(next, id)
      ensures next.tasks[id].retryCount <= next.tasks[id].fixed.maxRetries
      ensures next.tasks[id].dismissed ==> next.tasks[id].status.Terminal()
    {
      if id in db.tasks {
        assert WellPlaced(db, id);
      } else {
        assert NewNode(db, next, id);
      }
    }
  }

  // ---------------------------------------------------------------- approvals

  lemma BoundKept(db: Db, next: Db)
    requires Bound(db) && RowsEvolve(db, next) && LedgersEvolve(db, next)
    requires forall id :: id in db.tasks ==>
               (next.tasks[id].status.WaitingForApproval? <==> PendingFor(next, id))
    ensures Bound(next)
  {
    forall id | id in next.tasks && PendingFor(next, id)
      ensures next.approvals[ApprovalKey(id)].arguments == next.tasks[id].content.input
    {
      assert RowEvolves(db.tasks[id], next.tasks[id]);
      assert ApprovalEvolves(db.approvals[ApprovalKey(id)], next.approvals[ApprovalKey(id)]);
    }
  }

  lemma BoundGrows(db: Db, next: Db)
    requires Bound(db) && Grows(db, next)
    ensures Bound(next)
  {
    forall id | id in next.tasks
      ensures next.tasks[id].status.WaitingForApproval? <==> PendingFor(next, id)
      ensures PendingFor(next, id) ==> next.approvals[ApprovalKey(id)].arguments == next.tasks[id].content.input
    {
      if id in db.tasks {
        assert PendingFor(next, id) == PendingFor(db, id) by {
          KeysDiffer();
          if ApprovalKey(id) in next.approvals && ApprovalKey(id) !in db.approvals {
            assert NewApproval(db, next, ApprovalKey(id));
          }
        }
      } else {
        assert NewNode(db, next, id);
        if PendingFor(next, id) {
          KeysDiffer();
          if ApprovalKey(id) !in db.approvals {
            assert NewApproval(db, next, ApprovalKey(id));
          }
        }
      }
    }
  }

  lemma KeysDiffer()
    ensures forall a: TaskId, b: TaskId :: ApprovalKey(a) == ApprovalKey(b) ==> a == b
  {
    forall a: TaskId, b: TaskId | ApprovalKey(a) == ApprovalKey(b) ensures a == b {
      assert a == ApprovalKey(a)[|"approval:"|..];
      assert b == ApprovalKey(b)[|"approval:"|..];
    }
  }

  /** Neither table moved a waiting task or a pending approval. */
  ghost predicate GateUntouched(db: Db, next: Db)
    requires next.tasks.Keys == db.tasks.Keys
  {
    && (forall id :: id in db.tasks && db.tasks[id].status.WaitingForApproval? ==>
          next.tasks[id].status.WaitingForApproval?)
    && (forall key :: key in db.approvals && db.approvals[key].status.Pending? ==>
          key in next.approvals && next.approvals[key].status.Pending?)
  }

  lemma BoundUntouched(db: Db, next: Db)
    requires Bound(db) && RowsEvolve(db, next) && LedgersEvolve(db, next) && GateUntouched(db, next)
    ensures Bound(next)
  {
    forall id | id in db.tasks ensures next.tasks[id].status.WaitingForApproval? <==> PendingFor(next, id) {
      assert RowEvolves(db.tasks[id], next.tasks[id]);
      if PendingFor(next, id) {
        assert ApprovalEvolves(db.approvals[ApprovalKey(id)], next.approvals[ApprovalKey(id)]);
      }
    }
    BoundKept(db, next);
  }

  lemma OneGateKeepsBound(db: Db, id: TaskId, item: Approval, row: Task, next: Db)
    requires Bound(db) && id in db.tasks && ApprovalKey(id) in db.approvals
    requires next == db.(tasks := db.tasks[id := row], approvals := db.approvals[ApprovalKey(id) := item])
    requires RowsEvolve(db, next) && LedgersEvolve(db, next)
    requires !row.status.WaitingForApproval? && !item.status.Pending?
    ensures Bound(next)
  {
    forall other | other in db.tasks
      ensures next.tasks[other].status.WaitingForApproval? <==> PendingFor(next, other)
    {
      KeysDiffer();
      if other != id {
        assert ApprovalKey(other) != ApprovalKey(id);
        assert PendingFor(next, other) == PendingFor(db, other);
      }
    }
    BoundKept(db, next);
  }

  lemma DecideKeepsBound(db: Db, key: ApprovalId, actor: string, approved: bool, now: int, next: Db)
    requires Bound(db) && next == DecideApproval(db, key, actor, approved, now).Over(db)
    requires RowsEvolve(db, next) && LedgersEvolve(db, next)
    ensures Bound(next)
  {
    match DecideApproval(db, key, actor, approved, now)
    case Refused(_) =>
    case Lapsed(_) =>
      var item := db.approvals[key];
      assert key == ApprovalKey(item.task) && PendingFor(db, item.task);
      OneGateKeepsBound(db, item.task, item.(status := Expired, decidedAt := Some(now)),
                        TimedOutRow(db.tasks[item.task], now), next);
    case Decided(_) =>
      var item := db.approvals[key];
      assert key == ApprovalKey(item.task);
      OneGateKeepsBound(db, item.task, DecidedApproval(item, actor, approved, now),
                        DecidedRow(db.tasks[item.task], approved, now), next);
  }

  lemma ExpireKeepsBound(db: Db, now: int, next: Db)
    requires Bound(db) && next == ExpireApprovals(db, now)
    requires RowsEvolve(db, next) && LedgersEvolve(db, next)
    ensures Bound(next)
  {
    forall id | id in db.tasks ensures next.tasks[id].status.WaitingForApproval? <==> PendingFor(next, id) {
      if PendingFor(db, id) {
        assert LosesApproval(db, id, now) == Expiring(db.approvals[ApprovalKey(id)], now) by {
          KeysDiffer();
          assert ApprovalKey(db.approvals[ApprovalKey(id)].task) == ApprovalKey(id);
        }
      }
    }
    BoundKept(db, next);
  }

  lemma CancelKeepsBound(db: Db, id: TaskId, now: int, next: Db)
    requires Bound(db) && next == CancelTaskGraph(db, id, now).Over(db)
    requires RowsEvolve(db, next) && LedgersEvolve(db, next)
    ensures Bound(next)
  {
    if id in db.tasks {
      forall other | other in db.tasks
        ensures next.tasks[other].status.WaitingForApproval? <==> PendingFor(next, other)
      {
        if PendingFor(db, other) {
          KeysDiffer();
          assert ApprovalKey(db.approvals[ApprovalKey(other)].task) == ApprovalKey(other);
        }
      }
      BoundKept(db, next);
    }
  }

  lemma RetryKeepsGate(db: Db, id: TaskId, next: Db)
    requires next == RetryTask(db, id).Over(db) && next.tasks.Keys == db.tasks.Keys
    ensures GateUntouched(db, next)
  {
    if RetryTask(db, id).Commit? {
      RetryRows(db, id, next);
      forall other | other in db.tasks && db.tasks[other].status.WaitingForApproval?
        ensures next.tasks[other].status.WaitingForApproval?
      {
        assert next.tasks[other] == db.tasks[other] || RetryStep(db.tasks[other], next.tasks[other]);
      }
    }
  }

  lemma ScrubKeepsGate(db: Db, roots: set<TaskId>, next: Db)
    requires next == ScrubGraphs(db, roots) && next.tasks.Keys == db.tasks.Keys
    ensures GateUntouched(db, next)
  {}

  lemma RetainKeepsGate(db: Db, id: ConversationId, enabled: bool, now: int, next: Db)
    requires next == SetTranscriptRetention(db, id, enabled, now).Over(db) && next.tasks.Keys == db.tasks.Keys
    ensures GateUntouched(db, next)
  {
    if id in db.conversations && !enabled {
      var quiet := ScrubEvents(db, db.conversations[id].externalKey).(
        turns := map key <- db.turns | db.turns[key].conversation != id :: db.turns[key],
        conversations := db.conversations[id := db.conversations[id].(
          retained := false, title := NOT_RETAINED_MARKER, updatedAt := now)]);
      ScrubKeepsGate(quiet, SettledGraphs(quiet, id), next);
    }
  }

  lemma ScrubTerminalKeepsGate(db: Db, root: TaskId, next: Db)
    requires next == ScrubTerminalTaskGraph(db, root) && next.tasks.Keys == db.tasks.Keys
    ensures GateUntouched(db, next)
  {
    if NotRetained(db, root) && !GraphActive(db, root) {
      var quiet := ScrubEvents(db, db.conversations[db.tasks[root].fixed.conversation.value].externalKey);
      ScrubKeepsGate(quiet, {root}, next);
    }
  }

  lemma SweepKeepsGate(db: Db, cutoff: int, sweptAt: int, audit: string, correlation: string, next: Db)
    requires next == SweepTx(db, cutoff, sweptAt, audit, correlation).Over(db) && next.tasks.Keys == db.tasks.Keys
    ensures GateUntouched(db, next)
  {
    if SweepTx(db, cutoff, sweptAt, audit, correlation).Commit? {
      assert next.approvals == SweepApprovals(db, cutoff).approvals;
      assert next.tasks == SweepTasks(db, cutoff).tasks;
    }
  }

  /** Commands that update one row by its primary key and never a waiting one. */
  lemma RowCommandsKeepGate(db: Db, command: Command, next: Db)
    requires next == Commanded(db, command) && next.tasks.Keys == db.tasks.Keys
    requires command.Dismiss? || command.Prioritize? || command.Progress?
    ensures GateUntouched(db, next)
  {}

  lemma CommandKeepsBound(db: Db, command: Command, next: Db)
    requires Bound(db) && next == Commanded(db, command)
    requires RowsEvolve(db, next) && LedgersEvolve(db, next)
    ensures Bound(next)
  {
    match command
    case Decide(key, actor, approved, now) => DecideKeepsBound(db, key, actor, approved, now, next);
    case ExpireAll(now) => ExpireKeepsBound(db, now, next);
    case CancelGraph(id, now) => CancelKeepsBound(db, id, now, next);
    case Retry(id) =>
      RetryKeepsGate(db, id, next);
      BoundUntouched(db, next);
    case Retain(conversation, enabled, now) =>
      RetainKeepsGate(db, conversation, enabled, now, next);
      BoundUntouched(db, next);
    case Scrub(root) =>
      ScrubTerminalKeepsGate(db, root, next);
      BoundUntouched(db, next);
    case SweepAll(cutoff, sweptAt, audit, correlation) =>
      SweepKeepsGate(db, cutoff, sweptAt, audit, correlation, next);
      BoundUntouched(db, next);
    case Dismiss(_) =>
      RowCommandsKeepGate(db, command, next);
      BoundUntouched(db, next);
    case Prioritize(_, _) =>
      RowCommandsKeepGate(db, command, next);
      BoundUntouched(db, next);
    case Progress(_, _, _) =>
      RowCommandsKeepGate(db, command, next);
      BoundUntouched(db, next);
  }

  /** A worker moves only a row that is not waiting, so the gate is untouched. */
  lemma WorkKeepsBound(db: Db, next: Db, id: TaskId)
    requires Bound(db) && RowsEvolve(db, next) && LedgersEvolve(db, next) && OnlyMoves(db, next, id)
    requires id in db.tasks ==> !db.tasks[id].status.WaitingForApproval?
    ensures Bound(next)
  {
    BoundUntouched(db, next);
  }

  lemma RecoveryKeepsBound(db: Db, now: int, next: Db)
    requires Bound(db) && next == RecoverInterruptedTasks(db, now)
    requires RowsEvolve(db, next) && LedgersEvolve(db, next)
    ensures Bound(next)
  {
    BoundUntouched(db, next);
  }

  // ---------------------------------------------------------------- ownership

  lemma HoldKept(held: Worker, a: Task, b: Task)
    requires Holds(held, a) && RowEvolves(a, b)
    requires b.status == a.status || b.status.CancelRequested?
    ensures Holds(held, b)
  {}

  lemma OwnedUnderCommands(db: Db, next: Db, workers: map<nat, Worker>)
    requires Owned(db, workers) && RowsEvolve(db, next) && HandsOff(db, next)
    ensures Owned(next, workers)
  {
    forall w | w in workers ensures Holds(workers[w], next.tasks[workers[w].id]) {
      HoldKept(workers[w], db.tasks[workers[w].id], next.tasks[workers[w].id]);
    }
  }

  lemma OwnedGrows(db: Db, next: Db, workers: map<nat, Worker>)
    requires Owned(db, workers) && Grows(db, next)
    ensures Owned(next, workers)
  {}

  lemma OwnedByOthers(db: Db, next: Db, workers: map<nat, Worker>, worker: nat, id: TaskId)
    requires Owned(db, workers) && RowsEvolve(db, next) && OnlyMoves(db, next, id)
    requires forall w :: w in workers && w != worker ==> workers[w].id != id
    ensures Owned(next, workers - {worker})
  {
    var others := workers - {worker};
    forall w | w in others ensures Holds(others[w], next.tasks[others[w].id]) {
      HoldKept(workers[w], db.tasks[workers[w].id], next.tasks[workers[w].id]);
    }
  }

  lemma OwnedJoins(db: Db, others: map<nat, Worker>, worker: nat, held: Worker, workers: map<nat, Worker>)
    requires Owned(db, others) && worker !in others && workers == others[worker := held]
    requires held.id in db.tasks && Holds(held, db.tasks[held.id])
    requires forall w :: w in others ==> others[w].id != held.id
    ensures Owned(db, workers)
  {}

  lemma OwnedReleases(db: Db, workers: map<nat, Worker>, worker: nat)
    requires Owned(db, workers)
    ensures Owned(db, workers - {worker})
  {}

  /** The worker goes on with the same task and the same row in memory. */
  lemma OwnedGoesOn(db: Db, next: Db, workers: map<nat, Worker>, worker: nat, held: Worker, after: map<nat, Worker>)
    requires Owned(db, workers) && worker in workers && next.tasks == db.tasks
    requires !workers[worker].Claimed? && !workers[worker].Starting? && !held.Claimed? && !held.Starting?
    requires held.id == workers[worker].id && held.row == workers[worker].row
    requires held.Launching? || held.Executing? ==> held.row.fixed.kind.Shell?
    requires after == workers[worker := held]
    ensures Owned(next, after)
  {
    assert Holds(workers[worker], db.tasks[held.id]);
    assert Holds(held, next.tasks[held.id]);
  }

  lemma NobodyHoldsQueued(db: Db, workers: map<nat, Worker>, id: TaskId)
    requires Owned(db, workers) && id in db.tasks && db.tasks[id].status.Queued?
    ensures forall w :: w in workers ==> workers[w].id != id
  {
    forall w | w in workers ensures workers[w].id != id {
      assert Holds(workers[w], db.tasks[workers[w].id]);
    }
  }

  lemma ClaimedRow(s: Sys, worker: nat, id: TaskId, t: Sys)
    requires t == DoClaim(s, worker, id) && t != s
    ensures id in s.db.tasks && s.db.tasks[id].status.Queued? && worker !in s.workers
    ensures id in t.db.tasks && Holds(Claimed(id, t.db.tasks[id]), t.db.tasks[id])
    ensures t.workers == s.workers[worker := Claimed(id, t.db.tasks[id])]
  {}

  lemma ClaimKeepsOwned(s: Sys, worker: nat, id: TaskId, t: Sys)
    requires Owned(s.db, s.workers) && t == DoClaim(s, worker, id) && Works(s, t, worker, id)
    ensures Owned(t.db, t.workers)
  {
    if t != s {
      ClaimedRow(s, worker, id, t);
      NobodyHoldsQueued(s.db, s.workers, id);
      OwnedByOthers(s.db, t.db, s.workers, worker, id);
      OwnedJoins(t.db, s.workers - {worker}, worker, t.workers[worker], t.workers);
    }
  }

  lemma StartedRow(db: Db, id: TaskId, version: nat, now: int, next: Db)
    requires StartTask(db, id, version, now) == Commit(next)
    ensures id in next.tasks && next.tasks[id].status.Running?
  {}

  /** The start that succeeds, on the tables alone. */
  lemma StartKeepsOwned(db: Db, next: Db, workers: map<nat, Worker>, worker: nat, id: TaskId, after: map<nat, Worker>)
    requires Owned(db, workers) && worker in workers && workers[worker].id == id
    requires RowsEvolve(db, next) && OnlyMoves(db, next, id)
    requires id in next.tasks && next.tasks[id].status.Running?
    requires after == workers[worker := Starting(id)]
    ensures Owned(next, after)
  {
    forall w | w in after ensures after[w].id in next.tasks && Holds(after[w], next.tasks[after[w].id]) {
      if w != worker {
        HoldKept(workers[w], db.tasks[workers[w].id], next.tasks[workers[w].id]);
      }
    }
  }

  lemma BeginKeepsOwned(s: Sys, worker: nat, now: int, t: Sys)
    requires Owned(s.db, s.workers) && worker in s.workers && t == DoBegin(s, worker, now)
    requires RowsEvolve(s.db, t.db) && OnlyMoves(s.db, t.db, s.workers[worker].id)
    ensures Owned(t.db, t.workers)
  {
    var held := s.workers[worker];
    if held.Claimed? {
      if StartTask(s.db, held.id, held.row.version, now).Commit? {
        StartedRow(s.db, held.id, held.row.version, now, t.db);
        StartKeepsOwned(s.db, t.db, s.workers, worker, held.id, t.workers);
      } else {
        OwnedReleases(s.db, s.workers, worker);
      }
    }
  }

  lemma ReadBackKeepsOwned(s: Sys, worker: nat, t: Sys)
    requires Owned(s.db, s.workers) && worker in s.workers && t == DoReadBack(s, worker)
    ensures Owned(t.db, t.workers)
  {
    var held := s.workers[worker];
    if held.Starting? {
      OwnedReleases(s.db, s.workers, worker);
      OwnedJoins(s.db, s.workers - {worker}, worker, Processing(held.id, s.db.tasks[held.id]), t.workers);
    }
  }

  /** Settling either lets the task go, or turns a failed attempt to settle into another one. */
  lemma SettleShape(s: Sys, worker: nat, route: Option<(string, DeliveryStatus)>, now: int, t: Sys)
    requires worker in s.workers && s.workers[worker].Finishing? && t == DoSettle(s, worker, route, now)
    ensures worker in t.workers ==>
              && t.db == s.db && t.workers[worker].Finishing?
              && t.workers == s.workers[worker := t.workers[worker]]
              && t.workers[worker].id == s.workers[worker].id && t.workers[worker].row == s.workers[worker].row
    ensures worker !in t.workers ==> t.workers == s.workers - {worker}
  {
    if s.workers[worker].action.Complete? {
      assert t == SettleComplete(s, worker, route, now);
    } else {
      assert t == SettleOther(s, worker, now);
    }
  }

  lemma SettleKeepsOwned(s: Sys, worker: nat, route: Option<(string, DeliveryStatus)>, now: int, t: Sys)
    requires Owned(s.db, s.workers) && worker in s.workers && t == DoSettle(s, worker, route, now)
    requires RowsEvolve(s.db, t.db) && OnlyMoves(s.db, t.db, s.workers[worker].id)
    ensures Owned(t.db, t.workers)
  {
    if s.workers[worker].Finishing? {
      SettleShape(s, worker, route, now, t);
      if worker in t.workers {
        OwnedGoesOn(s.db, t.db, s.workers, worker, t.workers[worker], t.workers);
      } else {
        OwnedByOthers(s.db, t.db, s.workers, worker, s.workers[worker].id);
      }
    }
  }

  /** The jobs between reading the row back and settling change the phase, never a task row. */
  lemma PhaseShape(s: Sys, worker: nat, job: Job, t: Sys)
    requires worker in s.workers && t == Toil(s, worker, job) && t != s
    requires job.AgentReturns? || job.ShellRefuses? || job.ShellStarts? || job.Spawn? || job.ShellReturns?
    ensures t.db.tasks == s.db.tasks
    ensures worker in t.workers && t.workers == s.workers[worker := t.workers[worker]]
    ensures var a, b := s.workers[worker], t.workers[worker];
            && !a.Claimed? && !a.Starting? && !b.Claimed? && !b.Starting?
            && b.id == a.id && b.row == a.row
            && (b.Launching? ==> a.row.fixed.kind.Shell?) && (b.Executing? ==> a.Launching?)
  {
    match job
    case AgentReturns(action) =>
    case ShellRefuses(reason, timedOut) =>
    case ShellStarts(input) =>
    case Spawn =>
    case ShellReturns(output, failure, now) =>
  }

  lemma JobKeepsOwned(s: Sys, worker: nat, job: Job, t: Sys)
    requires Owned(s.db, s.workers) && t == Toil(s, worker, job) && Works(s, t, worker, TaskOf(s, worker, job))
    ensures Owned(t.db, t.workers)
  {
    if t == s {
    } else if job.Claim? {
      ClaimKeepsOwned(s, worker, job.id, t);
    } else if worker in s.workers {
      if job.Begin? {
        BeginKeepsOwned(s, worker, job.now, t);
      } else if job.ReadBack? {
        ReadBackKeepsOwned(s, worker, t);
      } else if job.Settle? {
        SettleKeepsOwned(s, worker, job.route, job.now, t);
      } else {
        PhaseShape(s, worker, job, t);
        assert Holds(s.workers[worker], s.db.tasks[s.workers[worker].id]);
        OwnedGoesOn(s.db, t.db, s.workers, worker, t.workers[worker], t.workers);
      }
    }
  }

  // ---------------------------------------------------------------- every step, every run

  lemma BoundIsGated(db: Db)
    requires Bound(db)
    ensures Gated(db)
  {
    forall id | id in db.tasks && db.tasks[id].status.WaitingForApproval?
      ensures PendingFor(db, id) && db.approvals[ApprovalKey(id)].task == id
    {
      KeysDiffer();
      assert ApprovalKey(db.approvals[ApprovalKey(id)].task) == ApprovalKey(id);
    }
  }

  lemma CommandKeepsSound(s: Sys, command: Command, t: Sys)
    requires Sound(s) && t == Obey(s, command)
    ensures Sound(t)
  {
    CommandEvolves(s.db, command, t.db);
    StructureEvolves(s.db, t.db);
    CommandKeepsBound(s.db, command, t.db);
    OwnedUnderCommands(s.db, t.db, s.workers);
  }

  /** A worker's step is about a queued task it claims or a task it holds. */
  lemma JobMovesClaimed(s: Sys, worker: nat, job: Job, t: Sys)
    requires Owned(s.db, s.workers) && t == Toil(s, worker, job) && t != s
    ensures var id := TaskOf(s, worker, job);
            && id in s.db.tasks
            && (if job.Claim? then Claimable(s.db, id)
                else worker in s.workers && Holds(s.workers[worker], s.db.tasks[id]))
  {}

  /** Both facts about a step at once. */
  lemma JobWorks(s: Sys, worker: nat, job: Job, t: Sys, id: TaskId)
    requires Owned(s.db, s.workers) && t == Toil(s, worker, job) && t != s && id == TaskOf(s, worker, job)
    ensures Works(s, t, worker, id)
    ensures id in s.db.tasks && !s.db.tasks[id].status.WaitingForApproval?
    ensures !job.Claim? ==> worker in s.workers
  {
    WorkerSteps(s, worker, job, t);
    JobMovesClaimed(s, worker, job, t);
  }

  lemma WorkKeepsTables(s: Sys, t: Sys, worker: nat, id: TaskId)
    requires Structured(s.db) && Bound(s.db) && Works(s, t, worker, id)
    requires id in s.db.tasks ==> !s.db.tasks[id].status.WaitingForApproval?
    ensures Structured(t.db) && Bound(t.db)
  {
    StructureEvolves(s.db, t.db);
    WorkKeepsBound(s.db, t.db, id);
  }

  lemma JobNeedsDaemon(s: Sys, worker: nat, job: Job, t: Sys)
    requires t == Toil(s, worker, job) && t != s && (!s.up ==> s.workers == map[])
    ensures s.up
  {}

  lemma JobKeepsSound(s: Sys, worker: nat, job: Job, t: Sys)
    requires Sound(s) && t == Toil(s, worker, job)
    ensures Sound(t)
  {
    if t != s {
      JobWorks(s, worker, job, t, TaskOf(s, worker, job));
      WorkKeepsTables(s, t, worker, TaskOf(s, worker, job));
      JobKeepsOwned(s, worker, job, t);
      JobNeedsDaemon(s, worker, job, t);
    }
  }

  lemma AdmissionKeepsSound(s: Sys, t: Sys)
    requires Sound(s) && Admits(s, t)
    ensures Sound(t)
  {
    if t.db != s.db {
      StructureGrows(s.db, t.db);
      BoundGrows(s.db, t.db);
      OwnedGrows(s.db, t.db, s.workers);
    }
  }

  lemma ShellKeepsSound(s: Sys, id: TaskId, row: Task, gated: bool, expiresAt: int, t: Sys)
    requires Sound(s) && t == DoShell(s, id, row, gated, expiresAt)
    ensures Sound(t) && Admits(s, t)
  {
    BoundIsGated(s.db);
    ShellAdmits(s, id, row, gated, expiresAt, t);
    AdmissionKeepsSound(s, t);
  }

  /** The states a request passes through before its work is admitted are sound. */
  lemma SwitchedIsSound(s: Sys, id: ConversationId, record: Conversation, apply: bool)
    requires Sound(s)
    ensures Sound(Entered(s, id, record)) && Sound(Switched(s, id, record, apply))
  {
    EnteringAdmits(s, id, record);
    AdmissionKeepsSound(s, Entered(s, id, record));
    if apply {
      CommandKeepsSound(Entered(s, id, record), Retain(id, record.retained, record.updatedAt), Switched(s, id, record, apply));
    }
  }

  lemma AskKeepsSound(s: Sys, id: ConversationId, record: Conversation, apply: bool, turn: (TurnId, Turn),
                      rows: seq<(TaskId, Task)>, t: Sys)
    requires Sound(s) && t == DoAsk(s, id, record, apply, turn, rows)
    ensures Sound(t)
  {
    if t != s {
      SwitchedIsSound(s, id, record, apply);
      AskAdmits(s, id, record, apply, turn, rows, t);
      AdmissionKeepsSound(Switched(s, id, record, apply), t);
    }
  }

  lemma RecoveryKeepsSound(s: Sys, now: int, t: Sys)
    requires Sound(s) && t == DoRecover(s, now)
    ensures Sound(t)
  {
    if !s.up {
      RecoverEvolves(s.db, now);
      StructureEvolves(s.db, t.db);
      RecoveryKeepsBound(s.db, now, t.db);
    }
  }

  lemma StepKeepsSound(s: Sys, step: Step, t: Sys)
    requires Sound(s) && t == Next(s, step)
    ensures Sound(t)
  {
    match step
    case Control(command) => CommandKeepsSound(s, command, t);
    case Work(worker, job) => JobKeepsSound(s, worker, job, t);
    case Recover(now) => RecoveryKeepsSound(s, now, t);
    case Crash =>
    case Ask(id, record, apply, turn, rows) => AskKeepsSound(s, id, record, apply, turn, rows, t);
    case RunShell(id, row, gated, expiresAt) => ShellKeepsSound(s, id, row, gated, expiresAt, t);
  }

  /** The last step of a continued run. */
  lemma LastStep(before: seq<Step>, later: seq<Step>) returns (s: Sys, t: Sys)
    requires later != []
    ensures s == Run(START, before + later[..|later| - 1]) && t == Run(START, before + later)
    ensures t == Next(s, later[|later| - 1]) && Sound(s)
  {
    var all := before + later;
    assert all[..|all| - 1] == before + later[..|later| - 1];
    s, t := Run(START, before + later[..|later| - 1]), Run(START, all);
    RunIsSound(before + later[..|later| - 1]);
  }

  /** Every reachable state is sound, whatever the schedule. */
  lemma {:induction false} RunIsSound(steps: seq<Step>)
    ensures Sound(Run(START, steps))
    decreases |steps|
  {
    if steps != [] {
      var prefix := steps[..|steps| - 1];
      RunIsSound(prefix);
      StepKeepsSound(Run(START, prefix), steps[|steps| - 1], Run(START, steps));
    }
  }
}
