/**
 The statements inside the longer transactions, run one after the other on a working copy `tx` of
 the database, and what each leaves behind.
 */
module Statements {
  import opened Model
  import opened Transactions
  import opened Restart

  /** UPDATE ... WHERE the key is selected. */
  function Update<K, V>(table: map<K, V>, selected: set<K>, change: V -> V): map<K, V> {
    map key <- table :: if key in selected then change(table[key]) else table[key]
  }

  // ---------------------------------------------------------------- recovery, update by update

  /** The task table after some of the recovery updates. */
  function Partly(db: Db, done: set<Recovery>, now: int): map<TaskId, Task> {
    map id <- db.tasks ::
      if RecoveryOf(db, id) in done then RecoveredRow(db.tasks[id], RecoveryOf(db, id), now) else db.tasks[id]
  }

  lemma PartlyNext(db: Db, done: set<Recovery>, update: Recovery, now: int)
    requires update !in done
    ensures Update(Partly(db, done, now), Taken(db, update), row => RecoveredRow(row, update, now))
            == Partly(db, done + {update}, now)
  {}

  lemma PartlyNone(db: Db, now: int)
    ensures Partly(db, {}, now) == db.tasks
  {}

  lemma PartlyAll(db: Db, now: int)
    ensures Partly(db, {Uncertain, StoppedByUser, OutOfRetries, BackToQueue}, now)
            == RecoverInterruptedTasks(db, now).tasks
  {}

  lemma SelectUncertain(db: Db)
    ensures (set id <- db.tasks | db.tasks[id].fixed.kind.Shell? && db.tasks[id].status.InFlight() && Unsettled(db, id))
            == Taken(db, Uncertain)
  {}

  lemma SelectStopped(db: Db, now: int, tasks: map<TaskId, Task>)
    requires tasks == Partly(db, {Uncertain}, now)
    ensures (set id <- tasks | tasks[id].status.CancelRequested?) == Taken(db, StoppedByUser)
  {
    forall id | id in tasks ensures tasks[id].status.CancelRequested? <==> RecoveryOf(db, id).StoppedByUser? {}
  }

  predicate Interruptible(status: Status) { status.Assigned? || status.Running? }

  lemma SelectExhausted(db: Db, now: int, tasks: map<TaskId, Task>)
    requires tasks == Partly(db, {Uncertain, StoppedByUser}, now)
    ensures (set id <- tasks | Interruptible(tasks[id].status) && tasks[id].retryCount >= tasks[id].fixed.maxRetries)
            == Taken(db, OutOfRetries)
  {
    forall id | id in tasks
      ensures Interruptible(tasks[id].status) && tasks[id].retryCount >= tasks[id].fixed.maxRetries
              <==> RecoveryOf(db, id).OutOfRetries?
    {}
  }

  /** Its command was not started, or its end is on record. */
  predicate Replayable(tx: Db, id: TaskId)
    requires id in tx.tasks
  {
    !(tx.tasks[id].fixed.kind.Shell? && Unsettled(tx, id)) && tx.tasks[id].retryCount < tx.tasks[id].fixed.maxRetries
  }

  lemma SelectRecovered(db: Db, now: int, tx: Db)
    requires tx.tasks == Partly(db, {Uncertain, StoppedByUser, OutOfRetries}, now)
    requires tx.invocations == RecoverInterruptedTasks(db, now).invocations
    ensures (set id <- tx.tasks | Interruptible(tx.tasks[id].status) && Replayable(tx, id)) == Taken(db, BackToQueue)
  {
    forall id | id in tx.tasks
      ensures Interruptible(tx.tasks[id].status) && Replayable(tx, id) <==> RecoveryOf(db, id).BackToQueue?
    {
      UnsettledShrinks(db, now, tx, id);
    }
  }

  lemma UnsettledShrinks(db: Db, now: int, tx: Db, id: TaskId)
    requires tx.invocations == RecoverInterruptedTasks(db, now).invocations
    ensures Unsettled(tx, id) ==> Unsettled(db, id)
  {
    if Unsettled(tx, id) {
      var key :| key in tx.invocations && tx.invocations[key].task == id && tx.invocations[key].status.Started?;
      assert db.invocations[key].task == id && db.invocations[key].status.Started?;
    }
  }

  function StartedFor(tx: Db, now: int): set<string> {
    set key <- tx.invocations
      | tx.invocations[key].status.Started? && tx.invocations[key].task in tx.tasks
        && FailedUncertain(tx.tasks[tx.invocations[key].task], now)
  }

  function BreakInvocation(item: Invocation, now: int): Invocation {
    item.(status := Broken, finishedAt := Some(now), output := None, error := UNCERTAIN_INVOCATION)
  }

  lemma FailedAfterUncertain(db: Db, now: int, id: TaskId)
    requires id in db.tasks
    ensures FailedUncertain(Partly(db, {Uncertain}, now)[id], now)
            <==> RecoveryOf(db, id).Uncertain? || FailedUncertain(db.tasks[id], now)
  {}

  lemma SelectBroken(db: Db, now: int, tx: Db)
    requires tx == db.(tasks := Partly(db, {Uncertain}, now))
    ensures Update(tx.invocations, StartedFor(tx, now), item => BreakInvocation(item, now))
            == RecoverInterruptedTasks(db, now).invocations
  {
    forall key | key in db.invocations
      ensures (if key in StartedFor(tx, now) then BreakInvocation(db.invocations[key], now) else db.invocations[key])
              == RecoveredInvocation(db, db.invocations[key], now)
    {
      if db.invocations[key].task in db.tasks {
        FailedAfterUncertain(db, now, db.invocations[key].task);
      }
    }
  }

  /** Each uncertain task has a started invocation, so the count guard cannot fire. */
  lemma GuardHolds(db: Db, now: int, tx: Db)
    requires tx == db.(tasks := Partly(db, {Uncertain}, now))
    ensures |Taken(db, Uncertain)| <= |StartedFor(tx, now)|
  {
    forall id | id in Taken(db, Uncertain)
      ensures exists key :: key in StartedFor(tx, now) && key in db.invocations && db.invocations[key].task == id
    {
      var key :| key in db.invocations && db.invocations[key].task == id && db.invocations[key].status.Started?;
      FailedAfterUncertain(db, now, id);
      assert key in StartedFor(tx, now);
    }
    InvocationsCoverTasks(db.invocations, Taken(db, Uncertain), StartedFor(tx, now));
  }

  // The five statements of the recovery transaction; `before` is the database it started from.

  method FailUncertain(tx: Db, now: int) returns (next: Db, count: nat)
    ensures next == tx.(tasks := Partly(tx, {Uncertain}, now)) && count == |Taken(tx, Uncertain)|
  {
    var chosen := set id <- tx.tasks
      | tx.tasks[id].fixed.kind.Shell? && tx.tasks[id].status.InFlight() && Unsettled(tx, id);
    next := tx.(tasks := Update(tx.tasks, chosen, row => RecoveredRow(row, Uncertain, now)));
    count := |chosen|;
    PartlyNone(tx, now);
    SelectUncertain(tx);
    PartlyNext(tx, {}, Uncertain, now);
  }

  method BreakUncertain(tx: Db, now: int, ghost before: Db) returns (next: Db, count: nat)
    requires tx == before.(tasks := Partly(before, {Uncertain}, now))
    ensures next == tx.(invocations := RecoverInterruptedTasks(before, now).invocations)
    ensures count >= |Taken(before, Uncertain)|
  {
    var chosen := StartedFor(tx, now);
    next := tx.(invocations := Update(tx.invocations, chosen, item => BreakInvocation(item, now)));
    count := |chosen|;
    SelectBroken(before, now, tx);
    GuardHolds(before, now, tx);
  }

  method CancelStopped(tx: Db, now: int, ghost before: Db) returns (next: Db, count: nat)
    requires tx.tasks == Partly(before, {Uncertain}, now)
    ensures next == tx.(tasks := Partly(before, {Uncertain, StoppedByUser}, now))
    ensures count == |Taken(before, StoppedByUser)|
  {
    var chosen := set id <- tx.tasks | tx.tasks[id].status.CancelRequested?;
    next := tx.(tasks := Update(tx.tasks, chosen, row => RecoveredRow(row, StoppedByUser, now)));
    count := |chosen|;
    SelectStopped(before, now, tx.tasks);
    PartlyNext(before, {Uncertain}, StoppedByUser, now);
    assert {Uncertain} + {StoppedByUser} == {Uncertain, StoppedByUser};
  }

  method FailExhausted(tx: Db, now: int, ghost before: Db) returns (next: Db, count: nat)
    requires tx.tasks == Partly(before, {Uncertain, StoppedByUser}, now)
    ensures next == tx.(tasks := Partly(before, {Uncertain, StoppedByUser, OutOfRetries}, now))
    ensures count == |Taken(before, OutOfRetries)|
  {
    var chosen := set id <- tx.tasks
      | Interruptible(tx.tasks[id].status) && tx.tasks[id].retryCount >= tx.tasks[id].fixed.maxRetries;
    next := tx.(tasks := Update(tx.tasks, chosen, row => RecoveredRow(row, OutOfRetries, now)));
    count := |chosen|;
    SelectExhausted(before, now, tx.tasks);
    PartlyNext(before, {Uncertain, StoppedByUser}, OutOfRetries, now);
    assert {Uncertain, StoppedByUser} + {OutOfRetries} == {Uncertain, StoppedByUser, OutOfRetries};
  }

  method QueueRecovered(tx: Db, now: int, ghost before: Db) returns (next: Db, count: nat)
    requires tx.tasks == Partly(before, {Uncertain, StoppedByUser, OutOfRetries}, now)
    requires tx.invocations == RecoverInterruptedTasks(before, now).invocations
    ensures next == tx.(tasks := RecoverInterruptedTasks(before, now).tasks)
    ensures count == |Taken(before, BackToQueue)|
  {
    var chosen := set id <- tx.tasks | Interruptible(tx.tasks[id].status) && Replayable(tx, id);
    next := tx.(tasks := Update(tx.tasks, chosen, row => RecoveredRow(row, BackToQueue, now)));
    count := |chosen|;
    SelectRecovered(before, now, tx);
    PartlyNext(before, {Uncertain, StoppedByUser, OutOfRetries}, BackToQueue, now);
    PartlyAll(before, now);
    assert {Uncertain, StoppedByUser, OutOfRetries} + {BackToQueue}
        == {Uncertain, StoppedByUser, OutOfRetries, BackToQueue};
  }

  // ---------------------------------------------------------------- query results

  function Elements<T>(list: seq<T>): set<T> { set item <- list }

  /** The rows of a query, in whatever order the database returns them. */
  method Listing<T(==)>(items: set<T>) returns (list: seq<T>)
    ensures forall item :: item in list <==> item in items
    ensures forall i :: 0 <= i < |list| ==> list[i] in items
    ensures forall i, j :: 0 <= i < j < |list| ==> list[i] != list[j]
  {
    list := [];
    var rest := items;
    while rest != {}
      invariant rest <= items
      invariant forall item :: item in list <==> item in items && item !in rest
      invariant forall i, j :: 0 <= i < j < |list| ==> list[i] != list[j]
      decreases rest
    {
      var item :| item in rest;
      list := list + [item];
      rest := rest - {item};
    }
  }

  // ---------------------------------------------------------------- explicit retry

  /** The guarded UPDATE that re-arms one row read earlier in the transaction. */
  method Rearm(tx: Db, id: TaskId, version: nat, message: string) returns (next: Db, changed: bool)
    ensures changed <==> RetryEligible(tx, id) && tx.tasks[id].version == version
    ensures next == if changed then SetTask(tx, id, RearmedRow(tx.tasks[id], message)) else tx
  {
    changed := RetryEligible(tx, id) && tx.tasks[id].version == version;
    next := tx;
    if changed {
      next := tx.(tasks := tx.tasks[id := RearmedRow(tx.tasks[id], message)]);
    }
  }

  lemma RearmGraphStarts(db: Db, root: TaskId)
    requires root in db.tasks
    ensures RearmGraph(db, root, {}) == db.tasks[root := RearmedRow(db.tasks[root], WAITING_MESSAGE)]
  {}

  lemma RearmGraphGoesOn(db: Db, root: TaskId, done: set<TaskId>, id: TaskId)
    requires root in db.tasks && id in db.tasks && id != root && id !in done
    ensures RearmGraph(db, root, done)[id] == db.tasks[id]
    ensures RearmGraph(db, root, done)[id := RearmedRow(db.tasks[id], GRAPH_RETRY_MESSAGE)]
            == RearmGraph(db, root, done + {id})
  {}

  predicate NoSelfEdges(db: Db) {
    forall dep <- db.deps :: dep.0 != dep.1
  }

  /** Re-arms a graph root and its listed dependencies; the version guards never fail. */
  method RearmAll(db: Db, root: TaskId, again: seq<TaskId>) returns (tx: Db, failed: bool)
    requires RetryEligible(db, root)
    requires forall id :: id in again ==> RetryEligible(db, id) && id != root
    requires forall i, j :: 0 <= i < j < |again| ==> again[i] != again[j]
    ensures !failed && tx == db.(tasks := RearmGraph(db, root, Elements(again)))
  {
    var changed;
    tx, changed := Rearm(db, root, db.tasks[root].version, WAITING_MESSAGE);
    failed := !changed;
    RearmGraphStarts(db, root);
    for i := 0 to |again|
      invariant !failed && tx == db.(tasks := RearmGraph(db, root, Elements(again[..i])))
    {
      assert again[i] in again && again[i] !in again[..i];
      RearmGraphGoesOn(db, root, Elements(again[..i]), again[i]);
      tx, changed := Rearm(tx, again[i], db.tasks[again[i]].version, GRAPH_RETRY_MESSAGE);
      failed := failed || !changed;
      assert Elements(again[..i + 1]) == Elements(again[..i]) + {again[i]};
    }
    assert again[..|again|] == again;
  }

  method RetryRootTask(db: Db, root: TaskId) returns (tx: Db, problem: Option<Error>)
    requires RetryEligible(db, root) && NoSelfEdges(db)
    ensures problem == RetryRoot(db, root).Problem()
    ensures problem.None? ==> tx == RetryRoot(db, root).db
  {
    tx, problem := db, None;
    var row := db.tasks[root];
    if GraphSize(db, root) <= 1 {
      var changed;
      tx, changed := Rearm(db, root, row.version, RETRY_MESSAGE);
    } else if !row.fixed.kind.Synthesis? {
      problem := Some(Conflict);
    } else {
      var dependencies := Listing(set dep <- db.deps | dep.0 == root && InGraph(db, root, dep.1) :: dep.1);
      var again := [];
      for i := 0 to |dependencies|
        invariant forall id :: id in again <==> id in dependencies[..i] && RetryEligible(db, id)
        invariant forall j, k :: 0 <= j < k < |again| ==> again[j] != again[k]
      {
        if RetryEligible(db, dependencies[i]) {
          again := again + [dependencies[i]];
        }
      }
      DependenciesListed(db, root, dependencies, again);
      if again == [] {
        if row.status.PartiallyCompleted? {
          problem := Some(Conflict);
        } else {
          var changed;
          tx, changed := Rearm(db, root, row.version, RETRY_MESSAGE);
        }
      } else {
        var failed;
        tx, failed := RearmAll(db, root, again);
        problem := if failed then Some(Conflict) else None;
        assert again[0] in again;
      }
    }
  }

  lemma DependenciesListed(db: Db, root: TaskId, dependencies: seq<TaskId>, again: seq<TaskId>)
    requires NoSelfEdges(db)
    requires forall id :: id in dependencies <==> id in set dep <- db.deps | dep.0 == root && InGraph(db, root, dep.1) :: dep.1
    requires forall id :: id in again <==> id in dependencies && RetryEligible(db, id)
    ensures Elements(again) == RetryableDependencies(db, root)
    ensures forall id :: id in again ==> id != root
  {}

  /** Holds the root back, or re-arms it, before one of its dependencies is re-armed. */
  method RearmRoot(db: Db, root: TaskId) returns (tx: Db, changed: bool)
    requires root in db.tasks && db.tasks[root].fixed.kind.Synthesis?
    ensures changed <==> Guardable(db, root) || RetryEligible(db, root)
    ensures Guardable(db, root) ==> tx == SetTask(db, root, GuardedRow(db.tasks[root]))
    ensures !Guardable(db, root) && changed ==> tx == SetTask(db, root, RearmedRow(db.tasks[root], WAITING_MESSAGE))
  {
    tx, changed := db, false;
    var top := db.tasks[root];
    match top.status {
      case Queued =>
        changed := Guardable(db, root);
        if changed {
          tx := SetTask(db, root, GuardedRow(top));
        }
      case Failed | TimedOut | Cancelled | PartiallyCompleted =>
        tx, changed := Rearm(db, root, top.version, WAITING_MESSAGE);
      case _ =>
    }
  }

  lemma ChildStillEligible(db: Db, id: TaskId, root: TaskId, top: Task, tx: Db)
    requires RetryEligible(db, id) && id != root && tx == SetTask(db, root, top)
    ensures RetryEligible(tx, id) && tx.tasks[id] == db.tasks[id]
  {}

  lemma GuardedChild(db: Db, id: TaskId, root: TaskId)
    requires RetryEligible(db, id) && root == db.tasks[id].fixed.root && root != id && IsSynthesisRoot(db, root)
    requires (root, id) in db.deps && Guardable(db, root)
    ensures RetryChild(db, id) == Commit(db.(tasks := RearmChild(db, id, GuardedRow(db.tasks[root]))))
  {}

  lemma RearmedChild(db: Db, id: TaskId, root: TaskId)
    requires RetryEligible(db, id) && root == db.tasks[id].fixed.root && root != id && IsSynthesisRoot(db, root)
    requires (root, id) in db.deps && !Guardable(db, root) && RetryEligible(db, root)
    ensures RetryChild(db, id) == Commit(db.(tasks := RearmChild(db, id, RearmedRow(db.tasks[root], WAITING_MESSAGE))))
  {}

  predicate IsSynthesisRoot(db: Db, root: TaskId) {
    root in db.tasks && db.tasks[root].fixed.root == root && db.tasks[root].fixed.kind.Synthesis?
  }

  method RearmPair(db: Db, id: TaskId, root: TaskId) returns (tx: Db, problem: Option<Error>)
    requires RetryEligible(db, id) && root == db.tasks[id].fixed.root && root != id && IsSynthesisRoot(db, root)
    requires (root, id) in db.deps && (Guardable(db, root) || RetryEligible(db, root))
    ensures problem.None? && Commit(tx) == RetryChild(db, id)
  {
    var changed;
    tx, changed := RearmRoot(db, root);
    ghost var top := tx.tasks[root];
    assert tx == SetTask(db, root, top);
    ChildStillEligible(db, id, root, top, tx);
    tx, changed := Rearm(tx, id, db.tasks[id].version, RETRY_MESSAGE);
    assert tx == db.(tasks := RearmChild(db, id, top));
    if Guardable(db, root) {
      GuardedChild(db, id, root);
    } else {
      RearmedChild(db, id, root);
    }
    problem := if changed then None else Some(Conflict);
  }

  method RetryGraphChild(db: Db, id: TaskId) returns (tx: Db, problem: Option<Error>)
    requires RetryEligible(db, id) && db.tasks[id].fixed.root != id
    ensures problem == RetryChild(db, id).Problem()
    ensures problem.None? ==> Commit(tx) == RetryChild(db, id)
  {
    var root := db.tasks[id].fixed.root;
    if root !in db.tasks {
      return db, Some(NotFound);
    }
    if !IsSynthesisRoot(db, root) || (root, id) !in db.deps || !(Guardable(db, root) || RetryEligible(db, root)) {
      return db, Some(Conflict);
    }
    tx, problem := RearmPair(db, id, root);
  }

  // ---------------------------------------------------------------- graph cancellation

  predicate Stoppable(status: Status) { status.Assigned? || status.Running? || status.WaitingForChildren? }

  function EndedRow(row: Task, root: TaskId, now: int): Task {
    if row.fixed.root == root && row.status.NotYetClaimed()
    then Bump(row.(status := Cancelled, finishedAt := Some(now))) else row
  }

  function AskedRow(row: Task, root: TaskId): Task {
    if row.fixed.root == root && Stoppable(row.status) then Bump(row.(status := CancelRequested)) else row
  }

  lemma CancelledInTwoSteps(row: Task, root: TaskId, now: int)
    ensures AskedRow(EndedRow(row, root, now), root)
            == if row.fixed.root == root then CancelledRow(row, now) else row
  {}

  method EndUnclaimed(tasks: map<TaskId, Task>, root: TaskId, now: int) returns (next: map<TaskId, Task>)
    ensures next == map id <- tasks :: EndedRow(tasks[id], root, now)
  {
    var chosen := set id <- tasks | tasks[id].fixed.root == root && tasks[id].status.NotYetClaimed();
    next := Update(tasks, chosen, (row: Task) => Bump(row.(status := Cancelled, finishedAt := Some(now))));
  }

  method AskRunning(tasks: map<TaskId, Task>, root: TaskId) returns (next: map<TaskId, Task>)
    ensures next == map id <- tasks :: AskedRow(tasks[id], root)
  {
    var chosen := set id <- tasks | tasks[id].fixed.root == root && Stoppable(tasks[id].status);
    next := Update(tasks, chosen, (row: Task) => Bump(row.(status := CancelRequested)));
  }

  method CancelRows(tx: Db, root: TaskId, now: int) returns (next: Db)
    ensures next == tx.(tasks := map id <- tx.tasks ::
                          if tx.tasks[id].fixed.root == root then CancelledRow(tx.tasks[id], now) else tx.tasks[id])
  {
    var tasks := EndUnclaimed(tx.tasks, root, now);
    tasks := AskRunning(tasks, root);
    next := tx.(tasks := tasks);
    forall id | id in tx.tasks
      ensures tasks[id] == if tx.tasks[id].fixed.root == root then CancelledRow(tx.tasks[id], now) else tx.tasks[id]
    {
      CancelledInTwoSteps(tx.tasks[id], root, now);
    }
  }

  method DenyApprovals(tx: Db, root: TaskId, now: int, ghost db: Db) returns (next: Db)
    requires tx.approvals == db.approvals && forall id :: InGraph(tx, root, id) == InGraph(db, root, id)
    ensures next == tx.(approvals := map key <- db.approvals ::
                          var item := db.approvals[key];
                          if item.status.Pending? && InGraph(db, root, item.task)
                          then item.(status := Denied, decidedAt := Some(now), decidedBy := "task-graph-cancel")
                          else item)
  {
    var chosen := set key <- tx.approvals | tx.approvals[key].status.Pending? && InGraph(tx, root, tx.approvals[key].task);
    next := tx.(approvals := Update(tx.approvals, chosen,
      (item: Approval) => item.(status := Denied, decidedAt := Some(now), decidedBy := "task-graph-cancel")));
  }

  lemma CancelledGraphsStay(db: Db, root: TaskId, now: int, tx: Db)
    requires tx == db.(tasks := map id <- db.tasks ::
                         if db.tasks[id].fixed.root == root then CancelledRow(db.tasks[id], now) else db.tasks[id])
    ensures forall id :: InGraph(tx, root, id) == InGraph(db, root, id)
  {}

  method CancelWholeGraph(db: Db, id: TaskId, now: int) returns (tx: Db)
    requires id in db.tasks
    ensures Commit(tx) == CancelTaskGraph(db, id, now)
  {
    var root := db.tasks[id].fixed.root;
    tx := CancelRows(db, root, now);
    CancelledGraphsStay(db, root, now, tx);
    tx := DenyApprovals(tx, root, now, db);
  }

  // ---------------------------------------------------------------- approval expiry

  predicate Lapses(approvals: map<ApprovalId, Approval>, keys: seq<ApprovalId>, id: TaskId) {
    exists key <- keys :: key in approvals && approvals[key].task == id
  }

  lemma LapsesGoesOn(approvals: map<ApprovalId, Approval>, keys: seq<ApprovalId>, i: nat)
    requires i < |keys| && keys[i] in approvals
    ensures forall id :: Lapses(approvals, keys[..i + 1], id) <==>
              Lapses(approvals, keys[..i], id) || id == approvals[keys[i]].task
  {
    assert keys[..i + 1] == keys[..i] + [keys[i]];
    forall id | Lapses(approvals, keys[..i], id) || id == approvals[keys[i]].task
      ensures Lapses(approvals, keys[..i + 1], id)
    {
      if id == approvals[keys[i]].task {
        assert keys[i] in keys[..i + 1];
      } else {
        var key :| key in keys[..i] && key in approvals && approvals[key].task == id;
        assert key in keys[..i + 1];
      }
    }
  }

  /** One guarded UPDATE per listed approval; a second approval of the same task changes nothing more. */
  method TimeOutWaiting(db: Db, keys: seq<ApprovalId>, now: int) returns (tasks: map<TaskId, Task>)
    requires forall key :: key in keys ==> key in db.approvals
    ensures tasks == map id <- db.tasks ::
              if db.tasks[id].status.WaitingForApproval? && Lapses(db.approvals, keys, id)
              then TimedOutRow(db.tasks[id], now) else db.tasks[id]
  {
    tasks := db.tasks;
    for i := 0 to |keys|
      invariant tasks.Keys == db.tasks.Keys
      invariant forall id :: id in db.tasks ==>
                  tasks[id] == if db.tasks[id].status.WaitingForApproval? && Lapses(db.approvals, keys[..i], id)
                               then TimedOutRow(db.tasks[id], now) else db.tasks[id]
    {
      assert keys[i] in keys;
      var id := db.approvals[keys[i]].task;
      LapsesGoesOn(db.approvals, keys, i);
      if id in tasks && tasks[id].status.WaitingForApproval? {
        tasks := tasks[id := TimedOutRow(tasks[id], now)];
      }
    }
    assert keys[..|keys|] == keys;
  }

  // ---------------------------------------------------------------- creating a graph

  /** Inserts the nodes one by one, each checked against the root first. */
  method InsertNodes(db: Db, rows: seq<(TaskId, Task)>, root: TaskId) returns (tx: Db, problem: Option<Error>)
    ensures problem == InsertTasks(db, rows, root).Problem()
    ensures problem.None? ==> InsertTasks(db, rows, root) == Commit(tx)
    ensures problem.None? ==> forall i :: 0 <= i < |rows| ==> rows[i].1.fixed.root == root
  {
    tx := db;
    for i := 0 to |rows|
      invariant InsertTasks(db, rows, root) == InsertTasks(tx, rows[i..], root)
      invariant forall j :: 0 <= j < i ==> rows[j].1.fixed.root == root
    {
      if rows[i].1.fixed.root != root {
        return db, Some(Rejected);
      }
      var inserted := InsertTask(tx, rows[i].0, rows[i].1);
      if inserted.Abort? {
        return db, Some(inserted.error);
      }
      tx := inserted.db;
      assert rows[i..][1..] == rows[i + 1..];
    }
    problem := None;
  }

  lemma InsertableGoesOn(db: Db, pairs: seq<(TaskId, TaskId)>, i: nat)
    requires i < |pairs| && Insertable(db, pairs[..i])
    ensures Insertable(db, pairs[..i + 1]) <==> Fits(db, pairs[i], pairs[..i])
  {
    var longer := pairs[..i + 1];
    assert longer == pairs[..i] + [pairs[i]] && longer[i] == pairs[i];
    if Insertable(db, longer) {
      assert pairs[i] in longer;
      assert forall j | 0 <= j < i :: longer[j] != longer[i];
    }
  }

  lemma InsertablePrefix(db: Db, pairs: seq<(TaskId, TaskId)>, i: nat)
    requires i <= |pairs| && Insertable(db, pairs)
    ensures Insertable(db, pairs[..i])
  {
    forall pair | pair in pairs[..i] ensures pair in pairs {}
  }

  predicate Fits(db: Db, pair: (TaskId, TaskId), earlier: seq<(TaskId, TaskId)>) {
    pair !in db.deps + Edges(earlier) && pair.0 in db.tasks && pair.1 in db.tasks && pair.0 != pair.1
  }

  lemma MisfitFails(db: Db, pairs: seq<(TaskId, TaskId)>, i: nat)
    requires i < |pairs| && Insertable(db, pairs[..i]) && !Fits(db, pairs[i], pairs[..i])
    ensures !Insertable(db, pairs)
  {
    if Insertable(db, pairs) {
      InsertablePrefix(db, pairs, i + 1);
      InsertableGoesOn(db, pairs, i);
    }
  }

  lemma EdgesGoOn(pairs: seq<(TaskId, TaskId)>, i: nat)
    requires i < |pairs|
    ensures Edges(pairs[..i + 1]) == Edges(pairs[..i]) + {pairs[i]}
  {
    assert pairs[..i + 1] == pairs[..i] + [pairs[i]];
  }

  /** One INSERT: refused for a task that depends on itself, a pair that is there, and an end that is not. */
  method InsertEdge(tx: Db, pair: (TaskId, TaskId), ghost db: Db, ghost pairs: seq<(TaskId, TaskId)>, ghost i: nat)
    returns (next: Db, fits: bool)
    requires i < |pairs| && pair == pairs[i] && Insertable(db, pairs[..i])
    requires tx == db.(deps := db.deps + Edges(pairs[..i]))
    ensures fits ==> Insertable(db, pairs[..i + 1]) && next == db.(deps := db.deps + Edges(pairs[..i + 1]))
    ensures !fits ==> !Insertable(db, pairs)
  {
    next := tx;
    fits := pair.0 != pair.1 && pair !in tx.deps && pair.0 in tx.tasks && pair.1 in tx.tasks;
    if fits {
      InsertableGoesOn(db, pairs, i);
      EdgesGoOn(pairs, i);
      next := tx.(deps := tx.deps + {pair});
    } else {
      MisfitFails(db, pairs, i);
    }
  }

  /** Inserts the dependencies one by one under the primary key, the foreign keys and the self-check. */
  method InsertEdges(db: Db, pairs: seq<(TaskId, TaskId)>) returns (tx: Db, problem: Option<Error>)
    ensures problem == if Insertable(db, pairs) then None else Some(Rejected)
    ensures problem.None? ==> tx == db.(deps := db.deps + Edges(pairs))
  {
    tx := db;
    for i := 0 to |pairs|
      invariant Insertable(db, pairs[..i])
      invariant tx == db.(deps := db.deps + Edges(pairs[..i]))
    {
      var fits;
      tx, fits := InsertEdge(tx, pairs[i], db, pairs, i);
      if !fits {
        return db, Some(Rejected);
      }
    }
    assert pairs[..|pairs|] == pairs;
    problem := None;
  }
}
