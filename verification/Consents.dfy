/**
 What runs is what was approved: a task created waiting for approval is claimed only after its
 approval was consumed, exactly once, and the command launched is the command approved.
 */
module Consents {
  import opened Model
  import opened Transactions
  import opened Evolution
  import opened Runtime
  import opened Growth
  import opened Invariants
  import opened Execution

  /** The task was created behind an approval. */
  predicate GatedTask(db: Db, id: TaskId) {
    ApprovalKey(id) in db.approvals
  }

  predicate ConsumedFor(db: Db, id: TaskId) {
    GatedTask(db, id) && db.approvals[ApprovalKey(id)].status.Consumed?
  }

  /** The states beyond the gate. */
  predicate Beyond(status: Status) {
    status.Queued? || status.InFlight() || status.WaitingForChildren? || status.Succeeded()
  }

  // ---------------------------------------------------------------- inputs

  /** Until it ends, a shell task keeps the input it was created with. */
  ghost predicate InputsKept(db: Db, inputs: map<TaskId, string>) {
    && inputs.Keys == db.tasks.Keys
    && (forall id :: id in db.tasks && db.tasks[id].fixed.kind.Shell? && !db.tasks[id].status.Terminal() ==>
          db.tasks[id].content.input == inputs[id])
  }

  lemma ShellRowKeepsInput(a: Task, b: Task)
    requires RowEvolves(a, b) && a.fixed.kind.Shell? && !b.status.Terminal()
    ensures !a.status.Terminal() && b.content.input == a.content.input
  {}

  lemma InputsEvolve(db: Db, next: Db, inputs: map<TaskId, string>)
    requires InputsKept(db, inputs) && RowsEvolve(db, next)
    ensures InputsKept(next, inputs)
  {
    forall id | id in next.tasks && next.tasks[id].fixed.kind.Shell? && !next.tasks[id].status.Terminal()
      ensures next.tasks[id].content.input == inputs[id]
    {
      assert RowEvolves(db.tasks[id], next.tasks[id]);
      ShellRowKeepsInput(db.tasks[id], next.tasks[id]);
    }
  }

  lemma InputsGrow(db: Db, next: Db, inputs: map<TaskId, string>, more: map<TaskId, string>)
    requires InputsKept(db, inputs) && Grows(db, next) && more == FirstInputs(inputs, db, next)
    ensures InputsKept(next, more)
    ensures forall id :: id in inputs ==> id in more && more[id] == inputs[id]
  {}

  // ---------------------------------------------------------------- the gate

  /** The consents given so far: one for each consumed approval, for the task's own command. */
  ghost predicate Given(db: Db, consents: seq<Consent>, inputs: map<TaskId, string>) {
    && (forall i :: 0 <= i < |consents| ==>
          && consents[i].task in inputs && consents[i].arguments == inputs[consents[i].task]
          && ConsumedFor(db, consents[i].task))
    && (forall i, j :: 0 <= i < j < |consents| ==> consents[i].task != consents[j].task)
    && (forall id :: id in db.tasks && ConsumedFor(db, id) ==> exists i :: 0 <= i < |consents| && consents[i].task == id)
  }

  /** Nobody passes the gate with an approval that was not consumed. */
  ghost predicate Guarded(db: Db) {
    forall id :: id in db.tasks && GatedTask(db, id) && Beyond(db.tasks[id].status) ==> ConsumedFor(db, id)
  }

  ghost predicate AdmitsNobody(db: Db, next: Db)
    requires next.tasks.Keys == db.tasks.Keys
  {
    && (forall id :: id in db.tasks && db.tasks[id].status.WaitingForApproval? ==> !next.tasks[id].status.Queued?)
    && (forall key :: key in db.approvals && key in next.approvals && next.approvals[key].status.Consumed? ==>
          db.approvals[key].status.Consumed?)
  }

  lemma BeyondTheGate(a: Task, b: Task)
    requires RowEvolves(a, b) && a.fixed.kind.Shell? && Beyond(b.status)
    ensures Beyond(a.status) || (a.status.WaitingForApproval? && b.status.Queued?)
  {}

  lemma GuardKept(db: Db, next: Db)
    requires Bound(db) && Guarded(db) && RowsEvolve(db, next) && LedgersEvolve(db, next) && AdmitsNobody(db, next)
    ensures Guarded(next)
  {
    forall id | id in next.tasks && GatedTask(next, id) && Beyond(next.tasks[id].status)
      ensures ConsumedFor(next, id)
    {
      GatedAreShell(db, id);
      assert RowEvolves(db.tasks[id], next.tasks[id]);
      BeyondTheGate(db.tasks[id], next.tasks[id]);
      assert ApprovalEvolves(db.approvals[ApprovalKey(id)], next.approvals[ApprovalKey(id)]);
    }
  }

  lemma GatedAreShell(db: Db, id: TaskId)
    requires Bound(db) && GatedTask(db, id)
    ensures db.approvals[ApprovalKey(id)].task == id && id in db.tasks && db.tasks[id].fixed.kind.Shell?
  {
    KeysDiffer();
    assert ApprovalKey(db.approvals[ApprovalKey(id)].task) == ApprovalKey(id);
  }

  lemma GivenKept(db: Db, next: Db, consents: seq<Consent>, inputs: map<TaskId, string>)
    requires Given(db, consents, inputs) && RowsEvolve(db, next) && LedgersEvolve(db, next) && AdmitsNobody(db, next)
    ensures Given(next, consents, inputs)
  {
    forall id | ConsumedFor(db, id) ensures ConsumedFor(next, id) {
      assert ApprovalEvolves(db.approvals[ApprovalKey(id)], next.approvals[ApprovalKey(id)]);
    }
    forall id | ConsumedFor(next, id) ensures ConsumedFor(db, id) {}
  }

  lemma OldGates(db: Db, next: Db, id: TaskId)
    requires Grows(db, next) && id in db.tasks
    ensures GatedTask(next, id) == GatedTask(db, id) && ConsumedFor(next, id) == ConsumedFor(db, id)
  {
    if GatedTask(next, id) && !GatedTask(db, id) {
      assert NewApproval(db, next, ApprovalKey(id));
      KeysDiffer();
      assert false;
    }
  }

  lemma GuardGrows(db: Db, next: Db)
    requires Guarded(db) && Grows(db, next) && Bound(db)
    ensures Guarded(next)
  {
    forall id | id in next.tasks && GatedTask(next, id) && Beyond(next.tasks[id].status)
      ensures ConsumedFor(next, id)
    {
      if id in db.tasks {
        OldGates(db, next, id);
      } else {
        NewGates(db, next, id);
      }
    }
  }

  lemma NewGates(db: Db, next: Db, id: TaskId)
    requires Grows(db, next) && Bound(db) && id in next.tasks && id !in db.tasks && GatedTask(next, id)
    ensures next.tasks[id].status.WaitingForApproval? && !ConsumedFor(next, id)
  {
    KeysDiffer();
    if GatedTask(db, id) {
      GatedAreShell(db, id);
      assert false;
    }
    assert NewApproval(db, next, ApprovalKey(id));
    assert NewNode(db, next, id);
  }

  lemma GivenGrows(db: Db, next: Db, consents: seq<Consent>, inputs: map<TaskId, string>, more: map<TaskId, string>)
    requires Bound(db) && InputsKept(db, inputs) && Given(db, consents, inputs) && Grows(db, next)
    requires more == FirstInputs(inputs, db, next)
    ensures Given(next, consents, more)
  {
    InputsGrow(db, next, inputs, more);
    forall id | id in db.tasks ensures ConsumedFor(next, id) == ConsumedFor(db, id) {
      OldGates(db, next, id);
    }
    forall id | id in next.tasks && ConsumedFor(next, id) ensures id in db.tasks {
      if id !in db.tasks {
        NewGates(db, next, id);
      }
    }
  }

  // ---------------------------------------------------------------- commands

  lemma GateAdmitsNobody(db: Db, next: Db)
    requires RowsEvolve(db, next) && LedgersEvolve(db, next) && GateUntouched(db, next)
    ensures AdmitsNobody(db, next)
  {
    forall key | key in db.approvals && next.approvals[key].status.Consumed? ensures db.approvals[key].status.Consumed? {
      assert ApprovalEvolves(db.approvals[key], next.approvals[key]);
    }
  }

  lemma CancelAdmitsNobody(db: Db, id: TaskId, now: int, next: Db)
    requires next == CancelTaskGraph(db, id, now).Over(db) && next.tasks.Keys == db.tasks.Keys
    ensures AdmitsNobody(db, next)
  {}

  lemma ExpireAdmitsNobody(db: Db, now: int, next: Db)
    requires next == ExpireApprovals(db, now) && next.tasks.Keys == db.tasks.Keys
    ensures AdmitsNobody(db, next)
  {}

  lemma RefusalAdmitsNobody(db: Db, key: ApprovalId, actor: string, approved: bool, now: int, next: Db)
    requires next == DecideApproval(db, key, actor, approved, now).Over(db) && next.tasks.Keys == db.tasks.Keys
    requires !(approved && DecideApproval(db, key, actor, approved, now).Decided?)
    ensures AdmitsNobody(db, next)
  {
    match DecideApproval(db, key, actor, approved, now)
    case Refused(_) =>
    case Lapsed(_) =>
    case Decided(_) =>
  }

  lemma CommandAdmitsNobody(db: Db, command: Command, next: Db)
    requires next == Commanded(db, command) && !Consumes(db, command)
    requires RowsEvolve(db, next) && LedgersEvolve(db, next)
    ensures AdmitsNobody(db, next)
  {
    match command
    case Decide(key, actor, approved, now) => RefusalAdmitsNobody(db, key, actor, approved, now, next);
    case ExpireAll(now) => ExpireAdmitsNobody(db, now, next);
    case CancelGraph(id, now) => CancelAdmitsNobody(db, id, now, next);
    case Retry(id) =>
      RetryKeepsGate(db, id, next);
      GateAdmitsNobody(db, next);
    case Retain(conversation, enabled, now) =>
      RetainKeepsGate(db, conversation, enabled, now, next);
      GateAdmitsNobody(db, next);
    case Scrub(root) =>
      ScrubTerminalKeepsGate(db, root, next);
      GateAdmitsNobody(db, next);
    case SweepAll(cutoff, sweptAt, audit, correlation) =>
      SweepKeepsGate(db, cutoff, sweptAt, audit, correlation, next);
      GateAdmitsNobody(db, next);
    case Dismiss(_) =>
      RowCommandsKeepGate(db, command, next);
      GateAdmitsNobody(db, next);
    case Prioritize(_, _) =>
      RowCommandsKeepGate(db, command, next);
      GateAdmitsNobody(db, next);
    case Progress(_, _, _) =>
      RowCommandsKeepGate(db, command, next);
      GateAdmitsNobody(db, next);
  }

  // ---------------------------------------------------------------- consuming an approval

  lemma ConsumedRows(db: Db, key: ApprovalId, actor: string, now: int, next: Db)
    requires Bound(db) && DecideApproval(db, key, actor, true, now) == Decided(next)
    ensures var id := db.approvals[key].task;
            && id in db.tasks && db.tasks[id].status.WaitingForApproval? && key == ApprovalKey(id) && PendingFor(db, id)
            && next == db.(tasks := db.tasks[id := DecidedRow(db.tasks[id], true, now)],
                           approvals := db.approvals[key := DecidedApproval(db.approvals[key], actor, true, now)])
  {}

  /** The step at the gate, and what it leaves alone. */
  ghost predicate OpensGate(db: Db, id: TaskId, row: Task, item: Approval, next: Db) {
    && id in db.tasks && db.tasks[id].status.WaitingForApproval? && PendingFor(db, id) && item.status.Consumed?
    && next == db.(tasks := db.tasks[id := row], approvals := db.approvals[ApprovalKey(id) := item])
  }

  lemma GateOpened(db: Db, id: TaskId, row: Task, item: Approval, next: Db)
    requires OpensGate(db, id, row, item, next)
    ensures next.tasks.Keys == db.tasks.Keys
    ensures forall other :: other != id ==>
              ConsumedFor(next, other) == ConsumedFor(db, other) && GatedTask(next, other) == GatedTask(db, other)
    ensures forall other :: other != id && other in db.tasks ==> next.tasks[other] == db.tasks[other]
    ensures ConsumedFor(next, id) && !ConsumedFor(db, id)
  {
    KeysDiffer();
    forall other | other != id
      ensures ConsumedFor(next, other) == ConsumedFor(db, other) && GatedTask(next, other) == GatedTask(db, other)
    {
      assert ApprovalKey(other) != ApprovalKey(id);
    }
  }

  lemma ConsumptionKeepsGuard(db: Db, id: TaskId, row: Task, item: Approval, next: Db)
    requires Guarded(db) && OpensGate(db, id, row, item, next)
    ensures Guarded(next)
  {
    GateOpened(db, id, row, item, next);
  }

  lemma ConsumptionKeepsGiven(db: Db, id: TaskId, row: Task, item: Approval, next: Db,
                              consents: seq<Consent>, inputs: map<TaskId, string>, more: seq<Consent>)
    requires Given(db, consents, inputs) && OpensGate(db, id, row, item, next)
    requires id in inputs && more == consents + [Consent(id, inputs[id])]
    ensures Given(next, more, inputs)
  {
    GateOpened(db, id, row, item, next);
    assert more[|consents|].task == id;
    forall other | other in next.tasks && ConsumedFor(next, other)
      ensures exists i :: 0 <= i < |more| && more[i].task == other
    {
      if other != id {
        var i :| 0 <= i < |consents| && consents[i].task == other;
        assert more[i].task == other;
      }
    }
  }

  // ---------------------------------------------------------------- what is claimed and launched

  predicate PassedGate(db: Db, id: TaskId) {
    id in db.tasks && (GatedTask(db, id) ==> ConsumedFor(db, id))
  }

  /** Launches are of inputs on record; what was claimed or launched had passed the gate. */
  ghost predicate Licensed(s: Sys) {
    && (forall id :: id in s.past.claims ==> PassedGate(s.db, id))
    && (forall i :: 0 <= i < |s.past.launches| ==>
          PassedGate(s.db, s.past.launches[i].task) && FromRecord(s.past.launches[i], s.past.inputs))
    && (forall w :: w in s.workers ==> AboutToLaunch(s.workers[w], s.past.inputs))
  }

  /** The launch is of the input on record, or the input on record asks for a dry run. */
  predicate FromRecord(launch: Launch, inputs: map<TaskId, string>) {
    && launch.task in inputs
    && launch.dryRun == DryRun(inputs[launch.task])
    && (launch.dryRun || launch.input == inputs[launch.task])
  }

  predicate AboutToLaunch(held: Worker, inputs: map<TaskId, string>) {
    held.Launching? ==> FromRecord(Launch(held.id, held.input, DryRun(held.row.content.input)), inputs)
  }

  ghost predicate Approved(s: Sys) {
    && InputsKept(s.db, s.past.inputs)
    && Given(s.db, s.past.consents, s.past.inputs)
    && Guarded(s.db)
    && Licensed(s)
  }

  /** Passing the gate is for good. */
  ghost predicate GatesStand(db: Db, next: Db) {
    forall id :: PassedGate(db, id) ==> PassedGate(next, id)
  }

  lemma GatesStandEvolving(db: Db, next: Db)
    requires RowsEvolve(db, next) && LedgersEvolve(db, next)
    ensures GatesStand(db, next)
  {
    forall id | PassedGate(db, id) ensures PassedGate(next, id) {
      if GatedTask(next, id) {
        assert ApprovalEvolves(db.approvals[ApprovalKey(id)], next.approvals[ApprovalKey(id)]);
      }
    }
  }

  lemma GatesStandGrowing(db: Db, next: Db)
    requires Grows(db, next)
    ensures GatesStand(db, next)
  {
    forall id | PassedGate(db, id) ensures PassedGate(next, id) {
      OldGates(db, next, id);
    }
  }

  lemma LicenseKept(s: Sys, t: Sys)
    requires Licensed(s) && GatesStand(s.db, t.db)
    requires t.past.claims == s.past.claims && t.past.launches == s.past.launches
    requires forall id :: id in s.past.inputs ==> id in t.past.inputs && t.past.inputs[id] == s.past.inputs[id]
    requires forall w :: w in t.workers ==> (w in s.workers && t.workers[w] == s.workers[w]) || !t.workers[w].Launching?
    ensures Licensed(t)
  {}

  lemma ConsumingKeepsGates(db: Db, key: ApprovalId, actor: string, now: int, next: Db,
                            consents: seq<Consent>, inputs: map<TaskId, string>)
    requires Bound(db) && InputsKept(db, inputs) && Given(db, consents, inputs) && Guarded(db)
    requires DecideApproval(db, key, actor, true, now) == Decided(next)
    ensures Given(next, consents + [Consent(db.approvals[key].task, db.approvals[key].arguments)], inputs)
    ensures Guarded(next)
  {
    ConsumedRows(db, key, actor, now, next);
    var id := db.approvals[key].task;
    var row, item := DecidedRow(db.tasks[id], true, now), DecidedApproval(db.approvals[key], actor, true, now);
    GatedAreShell(db, id);
    assert OpensGate(db, id, row, item, next);
    assert db.approvals[key].arguments == inputs[id];
    ConsumptionKeepsGiven(db, id, row, item, next, consents, inputs, consents + [Consent(id, inputs[id])]);
    ConsumptionKeepsGuard(db, id, row, item, next);
  }

  lemma CommandKeepsGates(s: Sys, command: Command, t: Sys)
    requires Bound(s.db) && InputsKept(s.db, s.past.inputs)
    requires Given(s.db, s.past.consents, s.past.inputs) && Guarded(s.db)
    requires t == Obey(s, command) && RowsEvolve(s.db, t.db) && LedgersEvolve(s.db, t.db)
    ensures Given(t.db, t.past.consents, s.past.inputs) && Guarded(t.db)
  {
    if Consumes(s.db, command) {
      ConsumingKeepsGates(s.db, command.key, command.actor, command.now, t.db, s.past.consents, s.past.inputs);
    } else {
      CommandAdmitsNobody(s.db, command, t.db);
      GivenKept(s.db, t.db, s.past.consents, s.past.inputs);
      GuardKept(s.db, t.db);
      assert t.past.consents == s.past.consents;
    }
  }

  lemma CommandKeepsApproved(s: Sys, command: Command, t: Sys)
    requires Sound(s) && Approved(s) && t == Obey(s, command)
    ensures Approved(t)
  {
    CommandEvolves(s.db, command, t.db);
    CommandKeepsGates(s, command, t);
    InputsEvolve(s.db, t.db, s.past.inputs);
    GatesStandEvolving(s.db, t.db);
    LicenseKept(s, t);
  }

  lemma AdmissionKeepsApproved(s: Sys, t: Sys)
    requires Sound(s) && Approved(s) && Admits(s, t)
    ensures Approved(t)
  {
    if t.db == s.db {
      NothingNew(s.past.inputs, s.db);
      assert t.past == s.past;
    } else {
      InputsGrow(s.db, t.db, s.past.inputs, t.past.inputs);
      GivenGrows(s.db, t.db, s.past.consents, s.past.inputs, t.past.inputs);
      GuardGrows(s.db, t.db);
      GatesStandGrowing(s.db, t.db);
      LicenseKept(s, t);
    }
  }

  lemma ShellKeepsApproved(s: Sys, id: TaskId, row: Task, gated: bool, expiresAt: int, t: Sys)
    requires Sound(s) && Approved(s) && t == DoShell(s, id, row, gated, expiresAt)
    ensures Approved(t)
  {
    ShellKeepsSound(s, id, row, gated, expiresAt, t);
    AdmissionKeepsApproved(s, t);
  }

  lemma SwitchedIsApproved(s: Sys, id: ConversationId, record: Conversation, apply: bool)
    requires Sound(s) && Approved(s)
    ensures Sound(Switched(s, id, record, apply)) && Approved(Switched(s, id, record, apply))
  {
    SwitchedIsSound(s, id, record, apply);
    EnteringAdmits(s, id, record);
    AdmissionKeepsApproved(s, Entered(s, id, record));
    if apply {
      CommandKeepsApproved(Entered(s, id, record), Retain(id, record.retained, record.updatedAt), Switched(s, id, record, apply));
    }
  }

  lemma AskKeepsApproved(s: Sys, id: ConversationId, record: Conversation, apply: bool, turn: (TurnId, Turn),
                         rows: seq<(TaskId, Task)>, t: Sys)
    requires Sound(s) && Approved(s) && t == DoAsk(s, id, record, apply, turn, rows)
    ensures Approved(t)
  {
    if t != s {
      SwitchedIsApproved(s, id, record, apply);
      AskAdmits(s, id, record, apply, turn, rows, t);
      AdmissionKeepsApproved(Switched(s, id, record, apply), t);
    }
  }

  /** Transactions that leave the gate alone leave everything about it alone. */
  lemma UntouchedKeepsGates(db: Db, next: Db, consents: seq<Consent>, inputs: map<TaskId, string>)
    requires Bound(db) && InputsKept(db, inputs) && Given(db, consents, inputs) && Guarded(db)
    requires RowsEvolve(db, next) && LedgersEvolve(db, next) && GateUntouched(db, next)
    ensures InputsKept(next, inputs) && Given(next, consents, inputs) && Guarded(next) && GatesStand(db, next)
  {
    InputsEvolve(db, next, inputs);
    GateAdmitsNobody(db, next);
    GivenKept(db, next, consents, inputs);
    GuardKept(db, next);
    GatesStandEvolving(db, next);
  }

  lemma RecoveryKeepsGate(db: Db, now: int, next: Db)
    requires next == RecoverInterruptedTasks(db, now) && next.tasks.Keys == db.tasks.Keys
    ensures GateUntouched(db, next)
  {}

  lemma RecoveryKeepsApproved(s: Sys, now: int, t: Sys)
    requires Sound(s) && Approved(s) && t == DoRecover(s, now)
    ensures Approved(t)
  {
    if !s.up {
      RecoverEvolves(s.db, now);
      RecoveryKeepsGate(s.db, now, t.db);
      UntouchedKeepsGates(s.db, t.db, s.past.consents, s.past.inputs);
      LicenseKept(s, t);
    }
  }

  // ---------------------------------------------------------------- workers

  lemma WorkKeepsGate(db: Db, next: Db, id: TaskId)
    requires RowsEvolve(db, next) && OnlyMoves(db, next, id)
    requires id in db.tasks ==> !db.tasks[id].status.WaitingForApproval?
    ensures GateUntouched(db, next)
  {}

  lemma WorkKeepsGates(s: Sys, t: Sys, worker: nat, id: TaskId)
    requires Bound(s.db) && InputsKept(s.db, s.past.inputs) && Given(s.db, s.past.consents, s.past.inputs) && Guarded(s.db)
    requires Works(s, t, worker, id) && (id in s.db.tasks ==> !s.db.tasks[id].status.WaitingForApproval?)
    ensures InputsKept(t.db, t.past.inputs) && Given(t.db, t.past.consents, t.past.inputs) && Guarded(t.db)
    ensures GatesStand(s.db, t.db)
  {
    WorkKeepsGate(s.db, t.db, id);
    UntouchedKeepsGates(s.db, t.db, s.past.consents, s.past.inputs);
  }

  lemma ClaimIsLicensed(s: Sys, worker: nat, id: TaskId, t: Sys)
    requires Guarded(s.db) && Licensed(s) && t == DoClaim(s, worker, id) && GatesStand(s.db, t.db)
    ensures Licensed(t)
  {
    if t != s {
      assert PassedGate(s.db, id);
      assert t.past.claims == s.past.claims + multiset{id};
      assert t.workers == s.workers[worker := t.workers[worker]] && t.workers[worker].Claimed?;
    }
  }

  lemma LicenseJoins(s: Sys, t: Sys, worker: nat)
    requires Licensed(s) && GatesStand(s.db, t.db) && t.past == s.past
    requires worker in t.workers && t.workers == s.workers[worker := t.workers[worker]]
    requires AboutToLaunch(t.workers[worker], s.past.inputs)
    ensures Licensed(t)
  {}

  lemma StoredInput(s: Sys, worker: nat, input: string)
    requires Sound(s) && InputsKept(s.db, s.past.inputs) && worker in s.workers
    requires LaunchAllowed(s.workers[worker], input)
    ensures var held := s.workers[worker]; AboutToLaunch(Launching(held.id, held.row, input), s.past.inputs)
  {
    assert Holds(s.workers[worker], s.db.tasks[s.workers[worker].id]);
  }

  lemma RecordingIsLicensed(s: Sys, worker: nat, input: string, t: Sys)
    requires Sound(s) && InputsKept(s.db, s.past.inputs) && Licensed(s) && worker in s.workers
    requires t == DoShellStarts(s, worker, input) && t != s && GatesStand(s.db, t.db)
    ensures Licensed(t)
  {
    StoredInput(s, worker, input);
    LicenseJoins(s, t, worker);
  }

  lemma SpawnIsLicensed(s: Sys, worker: nat, t: Sys)
    requires Sound(s) && Guarded(s.db) && Licensed(s) && t == DoSpawn(s, worker)
    ensures Licensed(t)
  {
    if t != s {
      var held := s.workers[worker];
      assert Holds(held, s.db.tasks[held.id]);
      assert PassedGate(s.db, held.id);
      assert AboutToLaunch(held, s.past.inputs);
      assert t.past.launches == s.past.launches + [Launch(held.id, held.input, DryRun(held.row.content.input))];
    }
  }

  lemma OtherJobsAreLicensed(s: Sys, worker: nat, job: Job, t: Sys)
    requires Licensed(s) && t == Toil(s, worker, job) && t != s && GatesStand(s.db, t.db)
    requires t.workers - {worker} == s.workers - {worker} && t.past.inputs == s.past.inputs
    requires !job.Claim? && !job.ShellStarts? && !job.Spawn?
    ensures Licensed(t)
  {
    OtherJobsLaunchNothing(s, worker, job, t);
    OtherJobsClaimNothing(s, worker, job, t);
    OthersUnmoved(s, t, worker);
    LicenseKept(s, t);
  }

  lemma OtherJobsClaimNothing(s: Sys, worker: nat, job: Job, t: Sys)
    requires t == Toil(s, worker, job) && !job.Claim?
    ensures t.past.claims == s.past.claims
  {
    match job
    case Begin(now) =>
    case ReadBack =>
    case AgentReturns(action) =>
    case ShellRefuses(reason, timedOut) =>
    case ShellStarts(input) =>
    case Spawn =>
    case ShellReturns(output, failure, now) =>
    case Settle(route, now) =>
  }

  lemma JobIsLicensed(s: Sys, worker: nat, job: Job, t: Sys)
    requires Sound(s) && Approved(s) && t == Toil(s, worker, job) && t != s && GatesStand(s.db, t.db)
    requires t.workers - {worker} == s.workers - {worker} && t.past.inputs == s.past.inputs
    requires !job.Claim? ==> worker in s.workers
    ensures Licensed(t)
  {
    if job.Claim? {
      ClaimIsLicensed(s, worker, job.id, t);
    } else if job.ShellStarts? {
      RecordingIsLicensed(s, worker, job.input, t);
    } else if job.Spawn? {
      SpawnIsLicensed(s, worker, t);
    } else {
      OtherJobsAreLicensed(s, worker, job, t);
    }
  }

  lemma JobKeepsApproved(s: Sys, worker: nat, job: Job, t: Sys)
    requires Sound(s) && Approved(s) && t == Toil(s, worker, job)
    ensures Approved(t)
  {
    if t != s {
      var id := TaskOf(s, worker, job);
      JobWorks(s, worker, job, t, id);
      WorkKeepsGates(s, t, worker, id);
      JobIsLicensed(s, worker, job, t);
    }
  }

  // ---------------------------------------------------------------- every run

  lemma StepKeepsApproved(s: Sys, step: Step, t: Sys)
    requires Sound(s) && Approved(s) && t == Next(s, step)
    ensures Approved(t)
  {
    match step
    case Control(command) => CommandKeepsApproved(s, command, t);
    case Work(worker, job) => JobKeepsApproved(s, worker, job, t);
    case Recover(now) => RecoveryKeepsApproved(s, now, t);
    case Crash => LicenseKept(s, t);
    case Ask(id, record, apply, turn, rows) => AskKeepsApproved(s, id, record, apply, turn, rows, t);
    case RunShell(id, row, gated, expiresAt) => ShellKeepsApproved(s, id, row, gated, expiresAt, t);
  }

  lemma {:induction false} RunIsApproved(steps: seq<Step>)
    ensures Approved(Run(START, steps))
    decreases |steps|
  {
    if steps != [] {
      var prefix := steps[..|steps| - 1];
      RunIsApproved(prefix);
      RunIsSound(prefix);
      StepKeepsApproved(Run(START, prefix), steps[|steps| - 1], Run(START, steps));
    }
  }

  // ---------------------------------------------------------------- the theorems

  lemma StepKeepsGatedTasks(s: Sys, step: Step, t: Sys, id: TaskId)
    requires Sound(s) && t == Next(s, step) && GatedTask(s.db, id)
    ensures GatedTask(t.db, id)
  {
    BoundIsGated(s.db);
    StepEvolves(s, step, t);
    var mid :| Advances(s.db, mid, t.db, RetriedBy(s, step));
    assert GatedTask(mid, id);
  }

  lemma {:induction false} OnceGatedAlwaysGated(before: seq<Step>, later: seq<Step>, id: TaskId)
    requires GatedTask(Run(START, before).db, id)
    ensures GatedTask(Run(START, before + later).db, id)
    decreases |later|
  {
    if later == [] {
      assert before + later == before;
    } else {
      OnceGatedAlwaysGated(before, later[..|later| - 1], id);
      var s, t := LastStep(before, later);
      StepKeepsGatedTasks(s, later[|later| - 1], t, id);
    }
  }

  /** Exactly one consent was given for the task, and it was for this input. */
  ghost predicate ConsentedOnce(s: Sys, id: TaskId, input: string) {
    exists i ::
      && 0 <= i < |s.past.consents| && s.past.consents[i] == Consent(id, input)
      && forall j :: 0 <= j < |s.past.consents| && s.past.consents[j].task == id ==> j == i
  }

  lemma ConsumedMeansConsented(s: Sys, id: TaskId)
    requires Approved(s) && id in s.db.tasks && ConsumedFor(s.db, id)
    ensures id in s.past.inputs && ConsentedOnce(s, id, s.past.inputs[id])
  {
    var i :| 0 <= i < |s.past.consents| && s.past.consents[i].task == id;
    assert s.past.consents[i] == Consent(id, s.past.inputs[id]);
    forall j | 0 <= j < |s.past.consents| && s.past.consents[j].task == id ensures j == i {
      assert j < i || i < j || j == i;
    }
  }

  /**
   A task that ever waited for approval and was later claimed, or is anywhere in execution, had its
   approval consumed exactly once, for the input it was created with.
   */
  lemma ClaimedOnlyWithConsent(before: seq<Step>, later: seq<Step>, id: TaskId)
    requires id in Run(START, before).db.tasks && Run(START, before).db.tasks[id].status.WaitingForApproval?
    ensures var s := Run(START, before + later);
            id in s.past.claims || (id in s.db.tasks && Beyond(s.db.tasks[id].status)) ==>
              id in s.past.inputs && ConsentedOnce(s, id, s.past.inputs[id])
  {
    RunIsSound(before);
    OnceGatedAlwaysGated(before, later, id);
    var s := Run(START, before + later);
    RunIsApproved(before + later);
    if id in s.past.claims || (id in s.db.tasks && Beyond(s.db.tasks[id].status)) {
      ConsumedMeansConsented(s, id);
    }
  }

  /**
   Every launch for such a task is of the command that was approved, byte for byte; only if the approved
   command itself asks for a dry run may it be encoded anew.
   */
  lemma WhatRunsIsWhatWasApproved(before: seq<Step>, later: seq<Step>, i: nat)
    requires var s := Run(START, before + later);
             && i < |s.past.launches|
             && var id := s.past.launches[i].task;
             id in Run(START, before).db.tasks && Run(START, before).db.tasks[id].status.WaitingForApproval?
    ensures var s := Run(START, before + later);
            var launch := s.past.launches[i];
            && launch.task in s.past.inputs && ConsentedOnce(s, launch.task, s.past.inputs[launch.task])
            && launch.dryRun == DryRun(s.past.inputs[launch.task])
            && (!launch.dryRun ==> launch.input == s.past.inputs[launch.task])
  {
    var s := Run(START, before + later);
    var id := s.past.launches[i].task;
    RunIsSound(before);
    OnceGatedAlwaysGated(before, later, id);
    RunIsApproved(before + later);
    ConsumedMeansConsented(s, id);
  }
}
