/**
 What the transactions do, column by column, in the terms of their SQL statements: which rows a
 statement reaches, what it writes, and that it writes nothing else. The transaction functions are
 proved to satisfy these laws, and the methods of the store promise them.
 */
module Columns {
  import opened Model
  import opened Transactions

  predicate Ended(status: Status) {
    status.Completed? || status.PartiallyCompleted? || status.Failed? || status.Cancelled? || status.TimedOut?
  }

  /** The transcript of the task's conversation is kept, or it has none. */
  predicate Kept(db: Db, conversation: Option<ConversationId>) {
    conversation.Some? ==> conversation.value in db.conversations && db.conversations[conversation.value].retained
  }

  /** Only the listed task rows differ, and no other table does. */
  ghost predicate OnlyTasks(db: Db, next: Db, changed: set<TaskId>) {
    && next == db.(tasks := next.tasks)
    && next.tasks.Keys == db.tasks.Keys
    && (forall id :: id in db.tasks && id !in changed ==> next.tasks[id] == db.tasks[id])
  }

  // ---------------------------------------------------------------- the queue

  /** Queued, visible, and nothing it depends on is unfinished. */
  ghost predicate Ready(db: Db, id: TaskId) {
    && id in db.tasks && db.tasks[id].status.Queued? && !db.tasks[id].dismissed
    && (forall other :: (id, other) in db.deps && other in db.tasks ==> Ended(db.tasks[other].status))
  }

  lemma ClaimableIsReady(db: Db, id: TaskId)
    ensures Claimable(db, id) <==> Ready(db, id)
  {
    if Ready(db, id) {
      forall dep | dep in db.deps && dep.0 == id && dep.1 in db.tasks ensures db.tasks[dep.1].status.Terminal() {
        assert dep == (id, dep.1);
      }
    }
    if Claimable(db, id) {
      forall other | (id, other) in db.deps && other in db.tasks ensures Ended(db.tasks[other].status) {
        assert (id, other).0 == id;
      }
    }
  }

  /** Higher priority, or the same and not younger. */
  ghost predicate ComesFirst(db: Db, id: TaskId) {
    && Ready(db, id)
    && forall other :: Ready(db, other) ==>
         || db.tasks[id].priority > db.tasks[other].priority
         || (db.tasks[id].priority == db.tasks[other].priority
             && db.tasks[id].fixed.createdAt <= db.tasks[other].fixed.createdAt)
  }

  lemma ClaimLaw(db: Db, id: TaskId)
    ensures ClaimTask(db, id).Commit? <==> ComesFirst(db, id)
    ensures ClaimTask(db, id).Commit? ==>
              ClaimTask(db, id).db == db.(tasks := db.tasks[id := db.tasks[id].(
                status := Assigned, version := db.tasks[id].version + 1)])
  {
    forall other ensures Claimable(db, other) <==> Ready(db, other) {
      ClaimableIsReady(db, other);
    }
    assert NextInLine(db, id) <==> ComesFirst(db, id);
  }

  // ---------------------------------------------------------------- explicit retry

  ghost predicate MayRetry(db: Db, id: TaskId) {
    && id in db.tasks
    && var row := db.tasks[id];
    && !row.dismissed && row.content.goal != "[expired by retention policy]"
    && row.fixed.kind != Shell && row.retryCount < row.fixed.maxRetries
    && (row.status.Failed? || row.status.TimedOut? || row.status.Cancelled? || row.status.PartiallyCompleted?)
    && Kept(db, row.fixed.conversation)
  }

  lemma EligibleIs(db: Db, id: TaskId)
    ensures RetryEligible(db, id) <==> MayRetry(db, id)
  {}

  /** The row starts over: one more retry, nothing left of the last attempt, goal and input kept. */
  predicate RunsAgain(a: Task, b: Task, message: string) {
    b == a.(
      status := Queued, progress := 0, startedAt := None, finishedAt := None,
      retryCount := a.retryCount + 1, version := a.version + 1,
      content := Content(a.content.goal, a.content.input, message, "", None, "", []))
  }

  /** The direct dependencies of the root that may run again. */
  ghost function Again(db: Db, root: TaskId): set<TaskId> {
    set id | id in db.tasks && id != root && (root, id) in db.deps && db.tasks[id].fixed.root == root && MayRetry(db, id)
  }

  ghost predicate HasOthers(db: Db, root: TaskId) {
    exists other :: other in db.tasks && other != root && db.tasks[other].fixed.root == root
  }

  lemma SizeMeansOthers(db: Db, root: TaskId)
    requires root in db.tasks && db.tasks[root].fixed.root == root
    ensures GraphSize(db, root) <= 1 <==> !HasOthers(db, root)
  {
    var nodes := set id <- db.tasks | db.tasks[id].fixed.root == root;
    if HasOthers(db, root) {
      var other :| other in db.tasks && other != root && db.tasks[other].fixed.root == root;
      assert {root, other} <= nodes;
      assert |nodes - {root, other}| == |nodes| - 2;
    } else {
      assert nodes == {root};
    }
  }

  lemma AgainIs(db: Db, root: TaskId)
    requires (root, root) !in db.deps
    ensures RetryableDependencies(db, root) == Again(db, root)
  {
    forall id ensures id in RetryableDependencies(db, root) <==> id in Again(db, root) {
      EligibleIs(db, id);
      if id in RetryableDependencies(db, root) {
        var dep :| dep in db.deps && dep.0 == root && InGraph(db, root, dep.1) && RetryEligible(db, dep.1) && dep.1 == id;
        assert dep == (root, id);
      }
      if id in Again(db, root) {
        assert (root, id).1 == id && InGraph(db, root, id);
      }
    }
  }

  const WAITING := "Waiting for retried graph dependencies"

  /** A retried root: with its failed dependencies if it has any, alone otherwise. */
  ghost predicate RootRetried(db: Db, id: TaskId, tx: Tx)
    requires id in db.tasks
  {
    var again := Again(db, id);
    if !HasOthers(db, id) then
      tx.Commit? && OnlyTasks(db, tx.db, {id}) && RunsAgain(db.tasks[id], tx.db.tasks[id], "Explicit retry requested")
    else if db.tasks[id].fixed.kind != Synthesis then tx == Abort(Conflict)
    else if again != {} then
      && tx.Commit? && OnlyTasks(db, tx.db, again + {id}) && RunsAgain(db.tasks[id], tx.db.tasks[id], WAITING)
      && forall other :: other in again ==>
           RunsAgain(db.tasks[other], tx.db.tasks[other], "Explicit graph retry requested")
    else if db.tasks[id].status.PartiallyCompleted? then tx == Abort(Conflict)
    else tx.Commit? && OnlyTasks(db, tx.db, {id}) && RunsAgain(db.tasks[id], tx.db.tasks[id], "Explicit retry requested")
  }

  lemma AloneLaw(db: Db, id: TaskId, message: string, next: Db)
    requires id in db.tasks && next == SetTask(db, id, RearmedRow(db.tasks[id], message))
    ensures OnlyTasks(db, next, {id}) && RunsAgain(db.tasks[id], next.tasks[id], message)
  {}

  lemma TogetherLaw(db: Db, id: TaskId, again: set<TaskId>, next: Db)
    requires id in db.tasks && id !in again && (forall other :: other in again ==> other in db.tasks)
    requires next == db.(tasks := RearmGraph(db, id, again))
    ensures OnlyTasks(db, next, again + {id}) && RunsAgain(db.tasks[id], next.tasks[id], WAITING)
    ensures forall other :: other in again ==> RunsAgain(db.tasks[other], next.tasks[other], "Explicit graph retry requested")
  {
    assert next.tasks.Keys == db.tasks.Keys;
  }

  lemma RootRetryLaw(db: Db, id: TaskId)
    requires RetryEligible(db, id) && db.tasks[id].fixed.root == id && (id, id) !in db.deps
    ensures RootRetried(db, id, RetryRoot(db, id))
  {
    SizeMeansOthers(db, id);
    AgainIs(db, id);
    var tx := RetryRoot(db, id);
    var again := Again(db, id);
    if !HasOthers(db, id) || again == {} {
      if tx.Commit? {
        AloneLaw(db, id, "Explicit retry requested", tx.db);
      }
    } else if db.tasks[id].fixed.kind == Synthesis {
      TogetherLaw(db, id, again, tx.db);
    }
  }

  /** A queued synthesis root that is only held back. */
  ghost predicate HeldBack(db: Db, root: TaskId) {
    && root in db.tasks
    && var row := db.tasks[root];
    && row.status.Queued? && row.fixed.kind == Synthesis && !row.dismissed
    && row.content.goal != "[expired by retention policy]" && Kept(db, row.fixed.conversation)
  }

  /** A retried node: its root is held back or starts over with it. */
  ghost predicate ChildRetried(db: Db, id: TaskId, tx: Tx)
    requires id in db.tasks
  {
    var root := db.tasks[id].fixed.root;
    if root !in db.tasks then tx == Abort(NotFound)
    else if db.tasks[root].fixed.root != root || db.tasks[root].fixed.kind != Synthesis || (root, id) !in db.deps
    then tx == Abort(Conflict)
    else if HeldBack(db, root) then
      && tx.Commit? && OnlyTasks(db, tx.db, {id, root})
      && RunsAgain(db.tasks[id], tx.db.tasks[id], "Explicit retry requested")
      && tx.db.tasks[root] == db.tasks[root].(
           version := db.tasks[root].version + 1, content := db.tasks[root].content.(progressMessage := WAITING))
    else if MayRetry(db, root) then
      && tx.Commit? && OnlyTasks(db, tx.db, {id, root})
      && RunsAgain(db.tasks[id], tx.db.tasks[id], "Explicit retry requested")
      && RunsAgain(db.tasks[root], tx.db.tasks[root], WAITING)
    else tx == Abort(Conflict)
  }

  lemma PairLaw(db: Db, id: TaskId, top: Task, next: Db)
    requires id in db.tasks && db.tasks[id].fixed.root in db.tasks && db.tasks[id].fixed.root != id
    requires next == db.(tasks := RearmChild(db, id, top))
    ensures OnlyTasks(db, next, {id, db.tasks[id].fixed.root})
    ensures RunsAgain(db.tasks[id], next.tasks[id], "Explicit retry requested")
    ensures next.tasks[db.tasks[id].fixed.root] == top
  {
    assert next.tasks.Keys == db.tasks.Keys;
  }

  lemma HeldBackIs(db: Db, root: TaskId)
    ensures Guardable(db, root) <==> HeldBack(db, root)
  {}

  lemma ChildRetryLaw(db: Db, id: TaskId)
    requires RetryEligible(db, id) && db.tasks[id].fixed.root != id
    ensures ChildRetried(db, id, RetryChild(db, id))
  {
    var root := db.tasks[id].fixed.root;
    HeldBackIs(db, root);
    EligibleIs(db, root);
    var tx := RetryChild(db, id);
    if tx.Commit? {
      if HeldBack(db, root) {
        PairLaw(db, id, GuardedRow(db.tasks[root]), tx.db);
      } else {
        PairLaw(db, id, RearmedRow(db.tasks[root], WAITING), tx.db);
      }
    }
  }

  /** Explicit retry as a whole. */
  ghost predicate Retried(db: Db, id: TaskId, tx: Tx) {
    if id !in db.tasks then tx == Abort(NotFound)
    else if !MayRetry(db, id) then tx == Abort(Conflict)
    else if db.tasks[id].fixed.root == id then RootRetried(db, id, tx)
    else ChildRetried(db, id, tx)
  }

  lemma RetryLaw(db: Db, id: TaskId)
    requires (id, id) !in db.deps
    ensures Retried(db, id, RetryTask(db, id))
  {
    EligibleIs(db, id);
    if MayRetry(db, id) {
      if db.tasks[id].fixed.root == id {
        RootRetryLaw(db, id);
      } else {
        ChildRetryLaw(db, id);
      }
    }
  }

  // ---------------------------------------------------------------- graph cancellation

  /** Unclaimed rows end, claimed ones are asked to stop, ended ones stand. */
  predicate CancelledColumns(a: Task, b: Task, now: int) {
    match a.status
    case Created | Queued | WaitingForApproval | Blocked =>
      b == a.(status := Cancelled, finishedAt := Some(now), version := a.version + 1)
    case Assigned | Running | WaitingForChildren => b == a.(status := CancelRequested, version := a.version + 1)
    case _ => b == a
  }

  ghost predicate GraphCancelled(db: Db, root: TaskId, now: int, next: Db) {
    && next == db.(tasks := next.tasks, approvals := next.approvals)
    && next.tasks.Keys == db.tasks.Keys && next.approvals.Keys == db.approvals.Keys
    && (forall id :: id in db.tasks ==>
          if db.tasks[id].fixed.root == root then CancelledColumns(db.tasks[id], next.tasks[id], now)
          else next.tasks[id] == db.tasks[id])
    && (forall key :: key in db.approvals ==>
          var a := db.approvals[key];
          next.approvals[key] ==
            if a.status.Pending? && a.task in db.tasks && db.tasks[a.task].fixed.root == root
            then a.(status := Denied, decidedAt := Some(now), decidedBy := "task-graph-cancel") else a)
  }

  lemma CancelledRowLaw(row: Task, now: int)
    ensures CancelledColumns(row, CancelledRow(row, now), now)
  {}

  lemma CancelLaw(db: Db, id: TaskId, now: int)
    ensures id !in db.tasks ==> CancelTaskGraph(db, id, now) == Abort(NotFound)
    ensures id in db.tasks ==>
              && CancelTaskGraph(db, id, now).Commit?
              && GraphCancelled(db, db.tasks[id].fixed.root, now, CancelTaskGraph(db, id, now).db)
  {
    if id in db.tasks {
      var next := CancelTaskGraph(db, id, now).db;
      assert next.tasks.Keys == db.tasks.Keys;
      forall other | other in db.tasks && db.tasks[other].fixed.root == db.tasks[id].fixed.root
        ensures CancelledColumns(db.tasks[other], next.tasks[other], now)
      {
        CancelledRowLaw(db.tasks[other], now);
      }
    }
  }

  // ---------------------------------------------------------------- restart recovery

  ghost predicate CommandOpen(db: Db, id: TaskId) {
    exists key :: key in db.invocations && db.invocations[key].task == id && db.invocations[key].status.Started?
  }

  /** The four updates: uncertain commands, cancellations, exhausted tasks, and the rest back to the queue. */
  ghost predicate RecoveredColumns(db: Db, id: TaskId, b: Task, now: int)
    requires id in db.tasks
  {
    var a := db.tasks[id];
    if !(a.status.Assigned? || a.status.Running? || a.status.CancelRequested?) then b == a
    else if a.fixed.kind == Shell && CommandOpen(db, id) then
      b == a.(status := Failed, finishedAt := Some(now), version := a.version + 1,
              content := a.content.(error := "tool outcome uncertain after restart; manual inspection required"))
    else if a.status.CancelRequested? then
      b == a.(status := Cancelled, finishedAt := Some(now), version := a.version + 1,
              content := a.content.(progressMessage := "Cancellation recovered after restart"))
    else if a.retryCount >= a.fixed.maxRetries then
      b == a.(status := Failed, finishedAt := Some(now), version := a.version + 1,
              content := a.content.(error := "automatic retry limit exhausted during restart recovery"))
    else
      b == a.(status := Queued, retryCount := a.retryCount + 1, version := a.version + 1,
              content := a.content.(progressMessage := "Recovered after restart"))
  }

  /** The shell task was interrupted, or this very recovery has already failed it as uncertain. */
  ghost predicate LostCommand(row: Task, now: int) {
    && row.fixed.kind == Shell
    && ( || row.status.Assigned? || row.status.Running? || row.status.CancelRequested?
         || (row.status.Failed? && row.finishedAt == Some(now)
             && row.content.error == "tool outcome uncertain after restart; manual inspection required"))
  }

  /** The started commands of such tasks are closed as broken. */
  ghost predicate InvocationRecovered(db: Db, key: string, b: Invocation, now: int)
    requires key in db.invocations
  {
    var a := db.invocations[key];
    b == if a.status.Started? && a.task in db.tasks && LostCommand(db.tasks[a.task], now)
         then a.(status := Broken, finishedAt := Some(now), output := None, error := "tool outcome uncertain after restart")
         else a
  }

  ghost predicate Recovered(db: Db, now: int, next: Db) {
    && next == db.(tasks := next.tasks, invocations := next.invocations)
    && next.tasks.Keys == db.tasks.Keys && next.invocations.Keys == db.invocations.Keys
    && (forall id :: id in db.tasks ==> RecoveredColumns(db, id, next.tasks[id], now))
    && (forall key :: key in db.invocations ==> InvocationRecovered(db, key, next.invocations[key], now))
  }

  lemma RecoveredRowLaw(db: Db, id: TaskId, now: int)
    requires id in db.tasks
    ensures RecoveredColumns(db, id, RecoveredRow(db.tasks[id], RecoveryOf(db, id), now), now)
  {}

  lemma RecoveredInvocationLaw(db: Db, key: string, now: int)
    requires key in db.invocations
    ensures InvocationRecovered(db, key, RecoveredInvocation(db, db.invocations[key], now), now)
  {
    var a := db.invocations[key];
    if a.status.Started? {
      assert CommandOpen(db, a.task) && Unsettled(db, a.task);
    }
  }

  lemma RecoveryLaw(db: Db, now: int)
    ensures Recovered(db, now, RecoverInterruptedTasks(db, now))
  {
    var next := RecoverInterruptedTasks(db, now);
    assert next.tasks.Keys == db.tasks.Keys && next.invocations.Keys == db.invocations.Keys;
    forall id | id in db.tasks ensures RecoveredColumns(db, id, next.tasks[id], now) {
      RecoveredRowLaw(db, id, now);
    }
    forall key | key in db.invocations ensures InvocationRecovered(db, key, next.invocations[key], now) {
      RecoveredInvocationLaw(db, key, now);
    }
  }

  // ---------------------------------------------------------------- approvals

  /** A waiting task whose approval lapsed. */
  predicate WaitEnded(a: Task, b: Task, now: int) {
    if a.status.WaitingForApproval?
    then b == a.(status := TimedOut, finishedAt := Some(now), version := a.version + 1,
                 content := a.content.(error := "approval expired"))
    else b == a
  }

  ghost predicate DecisionMade(db: Db, key: ApprovalId, actor: string, approved: bool, now: int, d: Decision) {
    if key !in db.approvals then d == Refused(NotFound)
    else
      var item := db.approvals[key];
      if !item.status.Pending? then d == Refused(Conflict)
      else if item.expiresAt <= now then
        if item.task !in db.tasks then d == Refused(NotFound)
        else
          && d.Lapsed? && item.task in d.db.tasks
          && d.db == db.(tasks := db.tasks[item.task := d.db.tasks[item.task]],
                         approvals := db.approvals[key := item.(status := Expired, decidedAt := Some(now))])
          && WaitEnded(db.tasks[item.task], d.db.tasks[item.task], now)
      else if item.task !in db.tasks || !db.tasks[item.task].status.WaitingForApproval? then d == Refused(Conflict)
      else
        var a := db.tasks[item.task];
        if approved then
          d == Decided(db.(
            tasks := db.tasks[item.task := a.(status := Queued, finishedAt := None, version := a.version + 1)],
            approvals := db.approvals[key := item.(
              status := Consumed, decidedAt := Some(now), decidedBy := actor, consumedAt := Some(now))]))
        else
          d == Decided(db.(
            tasks := db.tasks[item.task := a.(status := Cancelled, finishedAt := Some(now), version := a.version + 1)],
            approvals := db.approvals[key := item.(
              status := Denied, decidedAt := Some(now), decidedBy := actor, consumedAt := None)]))
  }

  lemma DecisionLaw(db: Db, key: ApprovalId, actor: string, approved: bool, now: int)
    ensures DecisionMade(db, key, actor, approved, now, DecideApproval(db, key, actor, approved, now))
  {}

  ghost predicate Due(db: Db, key: ApprovalId, now: int) {
    key in db.approvals && db.approvals[key].status.Pending? && db.approvals[key].expiresAt <= now
  }

  /** Due approvals expire, the tasks that wait for them time out, and nothing else changes. */
  ghost predicate ApprovalsExpired(db: Db, now: int, next: Db) {
    && next == db.(tasks := next.tasks, approvals := next.approvals)
    && next.tasks.Keys == db.tasks.Keys && next.approvals.Keys == db.approvals.Keys
    && (forall key :: key in db.approvals ==>
          next.approvals[key] ==
            if Due(db, key, now) then db.approvals[key].(status := Expired, decidedAt := Some(now)) else db.approvals[key])
    && (forall id :: id in db.tasks ==>
          if exists key :: Due(db, key, now) && db.approvals[key].task == id
          then WaitEnded(db.tasks[id], next.tasks[id], now) else next.tasks[id] == db.tasks[id])
  }

  lemma LosesIs(db: Db, id: TaskId, now: int)
    ensures LosesApproval(db, id, now) <==> exists key :: Due(db, key, now) && db.approvals[key].task == id
  {
    if LosesApproval(db, id, now) {
      var key :| key in db.approvals && db.approvals[key].task == id && Expiring(db.approvals[key], now);
      assert Due(db, key, now);
    }
  }

  lemma ExpiryLaw(db: Db, now: int)
    ensures ApprovalsExpired(db, now, ExpireApprovals(db, now))
  {
    var next := ExpireApprovals(db, now);
    assert next.tasks.Keys == db.tasks.Keys && next.approvals.Keys == db.approvals.Keys;
    forall id | id in db.tasks
      ensures if exists key :: Due(db, key, now) && db.approvals[key].task == id
              then WaitEnded(db.tasks[id], next.tasks[id], now) else next.tasks[id] == db.tasks[id]
    {
      LosesIs(db, id, now);
    }
  }

  // ---------------------------------------------------------------- erasure

  const BLANK := "[transcript retention disabled]"

  predicate Blanked(a: Task, b: Task, marker: string) {
    b == a.(content := Content(marker, "{}", "", "", None, marker, []))
  }

  predicate Within(db: Db, roots: set<TaskId>, id: TaskId) {
    id in db.tasks && db.tasks[id].fixed.root in roots
  }

  /** The content of whole graphs is gone; pending approvals and open deliveries keep what they need. */
  ghost predicate GraphsBlanked(db: Db, roots: set<TaskId>, next: Db) {
    && next == db.(tasks := next.tasks, invocations := next.invocations, approvals := next.approvals,
                   deliveries := next.deliveries, artifacts := next.artifacts)
    && next.tasks.Keys == db.tasks.Keys && next.invocations.Keys == db.invocations.Keys
    && next.approvals.Keys == db.approvals.Keys && next.deliveries.Keys == db.deliveries.Keys
    && (forall id :: id in db.tasks ==>
          if Within(db, roots, id) then Blanked(db.tasks[id], next.tasks[id], BLANK) else next.tasks[id] == db.tasks[id])
    && (forall key :: key in db.invocations ==>
          var a := db.invocations[key];
          next.invocations[key] == if Within(db, roots, a.task) then a.(input := "{}", output := None, error := "") else a)
    && (forall key :: key in db.approvals ==>
          var a := db.approvals[key];
          next.approvals[key] ==
            if Within(db, roots, a.task) && (a.status.Denied? || a.status.Expired? || a.status.Consumed?)
            then a.(arguments := "{}", scopes := [], reason := BLANK) else a)
    && (forall key :: key in db.deliveries ==>
          var a := db.deliveries[key];
          next.deliveries[key] ==
            if Within(db, roots, a.task) && (a.status.Delivered? || a.status.Undeliverable?)
            then a.(target := "{}", lastError := "") else a)
    && (forall key :: key in next.artifacts <==> key in db.artifacts && !Within(db, roots, db.artifacts[key]))
    && (forall key :: key in next.artifacts ==> next.artifacts[key] == db.artifacts[key])
  }

  lemma ScrubTasksLaw(db: Db, roots: set<TaskId>, next: Db)
    requires next == ScrubGraphs(db, roots)
    ensures next.tasks.Keys == db.tasks.Keys
    ensures forall id :: id in db.tasks ==>
              if Within(db, roots, id) then Blanked(db.tasks[id], next.tasks[id], BLANK) else next.tasks[id] == db.tasks[id]
  {
    assert next.tasks.Keys == db.tasks.Keys;
  }

  lemma WithinIs(db: Db, roots: set<TaskId>)
    ensures forall id :: InGraphs(db, roots, id) == Within(db, roots, id)
  {}

  lemma ScrubRecordsLaw(db: Db, roots: set<TaskId>, next: Db)
    requires next == ScrubGraphs(db, roots)
    ensures next.invocations.Keys == db.invocations.Keys
    ensures forall key :: key in db.invocations ==>
              var a := db.invocations[key];
              next.invocations[key] == if Within(db, roots, a.task) then a.(input := "{}", output := None, error := "") else a
    ensures forall key :: key in next.artifacts <==> key in db.artifacts && !Within(db, roots, db.artifacts[key])
    ensures forall key :: key in next.artifacts ==> next.artifacts[key] == db.artifacts[key]
  {
    WithinIs(db, roots);
  }

  lemma ScrubDebtsLaw(db: Db, roots: set<TaskId>, next: Db)
    requires next == ScrubGraphs(db, roots)
    ensures next.approvals.Keys == db.approvals.Keys && next.deliveries.Keys == db.deliveries.Keys
    ensures forall key :: key in db.approvals ==>
              var a := db.approvals[key];
              next.approvals[key] ==
                if Within(db, roots, a.task) && (a.status.Denied? || a.status.Expired? || a.status.Consumed?)
                then a.(arguments := "{}", scopes := [], reason := BLANK) else a
    ensures forall key :: key in db.deliveries ==>
              var a := db.deliveries[key];
              next.deliveries[key] ==
                if Within(db, roots, a.task) && (a.status.Delivered? || a.status.Undeliverable?)
                then a.(target := "{}", lastError := "") else a
  {
    WithinIs(db, roots);
  }

  lemma ScrubLaw(db: Db, roots: set<TaskId>)
    ensures GraphsBlanked(db, roots, ScrubGraphs(db, roots))
  {
    var next := ScrubGraphs(db, roots);
    ScrubTasksLaw(db, roots, next);
    ScrubRecordsLaw(db, roots, next);
    ScrubDebtsLaw(db, roots, next);
  }

  /** The payloads of one conversation's events are gone. */
  ghost predicate EventsBlanked(db: Db, conversationKey: string, next: Db) {
    && next == db.(events := next.events) && next.events.Keys == db.events.Keys
    && (forall key :: key in db.events ==>
          next.events[key] ==
            if db.events[key].conversationKey == conversationKey then db.events[key].(payload := "{}") else db.events[key])
  }

  lemma EventsLaw(db: Db, conversationKey: string)
    ensures EventsBlanked(db, conversationKey, ScrubEvents(db, conversationKey))
  {}

  /** Every node of the graph has ended. */
  ghost predicate Finished(db: Db, root: TaskId) {
    forall id :: id in db.tasks && db.tasks[id].fixed.root == root ==> Ended(db.tasks[id].status)
  }

  lemma ActiveIs(db: Db, root: TaskId)
    ensures GraphActive(db, root) <==> !Finished(db, root)
  {}

  ghost predicate Unkept(db: Db, root: TaskId) {
    && root in db.tasks
    && var conversation := db.tasks[root].fixed.conversation;
    && conversation.Some? && conversation.value in db.conversations && !db.conversations[conversation.value].retained
  }

  /** A finished graph of an unretained conversation is erased, with the events of the conversation. */
  ghost predicate GraphScrubbed(db: Db, root: TaskId, next: Db) {
    if Unkept(db, root) && Finished(db, root)
    then exists quiet: Db ::
           && EventsBlanked(db, db.conversations[db.tasks[root].fixed.conversation.value].externalKey, quiet)
           && GraphsBlanked(quiet, {root}, next)
    else next == db
  }

  lemma ScrubTerminalLaw(db: Db, root: TaskId)
    ensures GraphScrubbed(db, root, ScrubTerminalTaskGraph(db, root))
  {
    ActiveIs(db, root);
    if Unkept(db, root) && Finished(db, root) {
      var key := db.conversations[db.tasks[root].fixed.conversation.value].externalKey;
      EventsLaw(db, key);
      ScrubLaw(ScrubEvents(db, key), {root});
    }
  }

  /** The finished graphs that have a node in the conversation. */
  ghost predicate FinishedIn(db: Db, id: ConversationId, root: TaskId) {
    && Finished(db, root)
    && exists task :: task in db.tasks && db.tasks[task].fixed.conversation == Some(id) && db.tasks[task].fixed.root == root
  }

  /** Turns and title are gone. */
  ghost predicate ConversationClosed(db: Db, id: ConversationId, now: int, closed: Db)
    requires id in db.conversations
  {
    && closed == db.(turns := closed.turns,
                     conversations := db.conversations[id := db.conversations[id].(
                       retained := false, title := BLANK, updatedAt := now)])
    && (forall key :: key in closed.turns <==> key in db.turns && db.turns[key].conversation != id)
    && (forall key :: key in closed.turns ==> closed.turns[key] == db.turns[key])
  }

  /** Then the events, and then the finished graphs of the conversation are blank. */
  ghost predicate ClosedDown(db: Db, id: ConversationId, now: int, closed: Db, quiet: Db, roots: set<TaskId>, next: Db)
    requires id in db.conversations
  {
    && ConversationClosed(db, id, now, closed)
    && EventsBlanked(closed, db.conversations[id].externalKey, quiet)
    && (forall root :: root in roots <==> FinishedIn(db, id, root))
    && GraphsBlanked(quiet, roots, next)
  }

  ghost predicate SwitchedOff(db: Db, id: ConversationId, now: int, next: Db)
    requires id in db.conversations
  {
    exists closed, quiet, roots :: ClosedDown(db, id, now, closed, quiet, roots, next)
  }

  ghost predicate RetentionSwitched(db: Db, id: ConversationId, enabled: bool, now: int, tx: Tx) {
    if id !in db.conversations then tx == Abort(NotFound)
    else if enabled then
      tx == Commit(db.(conversations := db.conversations[id := db.conversations[id].(retained := true, updatedAt := now)]))
    else tx.Commit? && SwitchedOff(db, id, now, tx.db)
  }

  lemma SettledIs(db: Db, quiet: Db, id: ConversationId)
    requires quiet.tasks == db.tasks
    ensures forall root :: root in SettledGraphs(quiet, id) <==> FinishedIn(db, id, root)
  {
    forall root ensures GraphActive(quiet, root) <==> !Finished(db, root) {
      ActiveIs(quiet, root);
    }
  }

  lemma SwitchOffIs(db: Db, id: ConversationId, now: int, closed: Db, quiet: Db)
    requires id in db.conversations
    requires closed == db.(
               turns := map key <- db.turns | db.turns[key].conversation != id :: db.turns[key],
               conversations := db.conversations[id := db.conversations[id].(retained := false, title := BLANK, updatedAt := now)])
    requires quiet == ScrubEvents(closed, db.conversations[id].externalKey)
    ensures SetTranscriptRetention(db, id, false, now) == Commit(ScrubGraphs(quiet, SettledGraphs(quiet, id)))
    ensures ConversationClosed(db, id, now, closed) && quiet.tasks == db.tasks
  {
    assert BLANK == NOT_RETAINED_MARKER;
  }

  lemma SwitchOffVia(db: Db, id: ConversationId, now: int, closed: Db, quiet: Db, next: Db)
    requires id in db.conversations && ConversationClosed(db, id, now, closed)
    requires EventsBlanked(closed, db.conversations[id].externalKey, quiet) && quiet.tasks == db.tasks
    requires next == ScrubGraphs(quiet, SettledGraphs(quiet, id))
    ensures SwitchedOff(db, id, now, next)
  {
    SettledIs(db, quiet, id);
    ScrubLaw(quiet, SettledGraphs(quiet, id));
    assert ClosedDown(db, id, now, closed, quiet, SettledGraphs(quiet, id), next);
  }

  lemma SwitchOffLaw(db: Db, id: ConversationId, now: int)
    requires id in db.conversations
    ensures SetTranscriptRetention(db, id, false, now).Commit?
    ensures SwitchedOff(db, id, now, SetTranscriptRetention(db, id, false, now).db)
  {
    var closed := db.(
      turns := map key <- db.turns | db.turns[key].conversation != id :: db.turns[key],
      conversations := db.conversations[id := db.conversations[id].(retained := false, title := BLANK, updatedAt := now)]);
    var quiet := ScrubEvents(closed, db.conversations[id].externalKey);
    SwitchOffIs(db, id, now, closed, quiet);
    EventsLaw(closed, db.conversations[id].externalKey);
    SwitchOffVia(db, id, now, closed, quiet, ScrubGraphs(quiet, SettledGraphs(quiet, id)));
  }

  lemma SwitchLaw(db: Db, id: ConversationId, enabled: bool, now: int)
    ensures RetentionSwitched(db, id, enabled, now, SetTranscriptRetention(db, id, enabled, now))
  {
    if id in db.conversations && !enabled {
      SwitchOffLaw(db, id, now);
    }
  }

  // ---------------------------------------------------------------- completion of a root

  /** The row that gets its answer. */
  predicate RowAnswered(a: Task, b: Task, answer: Answer, now: int) {
    b == a.(
      status := if answer.partial then PartiallyCompleted else Completed,
      progress := 100, finishedAt := Some(now), version := a.version + 1,
      content := Content(a.content.goal, a.content.input, "Complete", a.content.error,
                         if answer.result == "" then None else Some(answer.result), answer.summary, answer.artifacts))
  }

  lemma RowAnsweredLaw(row: Task, answer: Answer, now: int)
    ensures RowAnswered(row, CompletedRow(row, answer, now), answer, now)
  {}

  /** INSERT OR IGNORE of the turn: as it is if the transcript is kept, without its text otherwise. */
  ghost predicate TurnStored(before: map<TurnId, Turn>, key: TurnId, turn: Turn, kept: bool, after: map<TurnId, Turn>) {
    after == if key in before then before
             else before[key := if kept then turn else turn.(text := "[transcript retention disabled]")]
  }

  /** INSERT OR IGNORE of the delivery under its two keys. */
  ghost predicate DeliveryStored(before: map<DeliveryId, Delivery>, key: DeliveryId, item: Delivery, after: map<DeliveryId, Delivery>) {
    after == if key in before || (exists other :: other in before && before[other].idempotencyKey == item.idempotencyKey)
             then before else before[key := item]
  }

  lemma TurnStoredLaw(db: Db, key: TurnId, turn: Turn, retain: bool)
    ensures InsertTurn(db, key, turn, retain) == db.(turns := InsertTurn(db, key, turn, retain).turns)
    ensures TurnStored(db.turns, key, turn, retain, InsertTurn(db, key, turn, retain).turns)
  {
    if key in db.turns {
      assert db.turns[key := db.turns[key]] == db.turns;
    }
  }

  lemma DeliveryStoredLaw(db: Db, key: DeliveryId, item: Delivery)
    ensures InsertDelivery(db, key, item) == db.(deliveries := InsertDelivery(db, key, item).deliveries)
    ensures DeliveryStored(db.deliveries, key, item, InsertDelivery(db, key, item).deliveries)
  {}

  /** The row, the turn and the delivery, and nothing else. */
  ghost predicate Told(db: Db, id: TaskId, answer: Answer, outcome: Outcome, now: int, kept: bool, told: Db)
    requires id in db.tasks
  {
    && id in told.tasks && RowAnswered(db.tasks[id], told.tasks[id], answer, now)
    && told == db.(tasks := db.tasks[id := told.tasks[id]], turns := told.turns, deliveries := told.deliveries)
    && (if outcome.turn.Some? then TurnStored(db.turns, outcome.turn.value.0, outcome.turn.value.1, kept, told.turns)
        else told.turns == db.turns)
    && (if outcome.delivery.Some?
        then DeliveryStored(db.deliveries, outcome.delivery.value.0, outcome.delivery.value.1, told.deliveries)
        else told.deliveries == db.deliveries)
  }

  /** Announcing writes two tables. */
  lemma AnnounceLaw(done: Db, outcome: Outcome, kept: bool, told: Db)
    requires told == Announce(done, outcome, kept)
    ensures told == done.(turns := told.turns, deliveries := told.deliveries)
    ensures if outcome.turn.Some? then TurnStored(done.turns, outcome.turn.value.0, outcome.turn.value.1, kept, told.turns)
            else told.turns == done.turns
    ensures if outcome.delivery.Some?
            then DeliveryStored(done.deliveries, outcome.delivery.value.0, outcome.delivery.value.1, told.deliveries)
            else told.deliveries == done.deliveries
  {
    var first := if outcome.turn.Some? then InsertTurn(done, outcome.turn.value.0, outcome.turn.value.1, kept) else done;
    if outcome.turn.Some? {
      TurnStoredLaw(done, outcome.turn.value.0, outcome.turn.value.1, kept);
    }
    if outcome.delivery.Some? {
      DeliveryStoredLaw(first, outcome.delivery.value.0, outcome.delivery.value.1);
    }
  }

  lemma ToldLaw(db: Db, id: TaskId, answer: Answer, outcome: Outcome, now: int, kept: bool, told: Db)
    requires id in db.tasks
    requires told == Announce(SetTask(db, id, CompletedRow(db.tasks[id], answer, now)), outcome, kept)
    ensures Told(db, id, answer, outcome, now, kept, told)
  {
    RowAnsweredLaw(db.tasks[id], answer, now);
    AnnounceLaw(SetTask(db, id, CompletedRow(db.tasks[id], answer, now)), outcome, kept, told);
  }

  predicate Workable(status: Status) {
    status.Running? || status.WaitingForChildren? || status.CancelRequested? || status.Assigned?
  }

  /** The records belong to the task and its conversation is known. */
  predicate Belongs(db: Db, id: TaskId, outcome: Outcome)
    requires id in db.tasks
  {
    var conversation := db.tasks[id].fixed.conversation;
    && (outcome.turn.Some? ==> conversation == Some(outcome.turn.value.1.conversation))
    && (outcome.delivery.Some? ==> outcome.delivery.value.1.task == id)
    && (conversation.Some? ==> conversation.value in db.conversations)
  }

  /** What is left when the transcript is not kept: no payloads, and no content once the graph has ended. */
  ghost predicate Withheld(told: Db, id: TaskId, conversationKey: string, next: Db) {
    exists quiet: Db ::
      && EventsBlanked(told, conversationKey, quiet)
      && (if Finished(told, id) then GraphsBlanked(quiet, {id}, next) else next == quiet)
  }

  lemma WithheldLaw(told: Db, id: TaskId, conversationKey: string)
    ensures Withheld(told, id, conversationKey, Withhold(told, id, conversationKey))
  {
    var quiet := ScrubEvents(told, conversationKey);
    EventsLaw(told, conversationKey);
    ActiveIs(quiet, id);
    assert Finished(quiet, id) == Finished(told, id);
    ScrubLaw(quiet, {id});
  }

  ghost predicate OutcomeCommitted(db: Db, id: TaskId, answer: Answer, outcome: Outcome, now: int, tx: Tx) {
    if id !in db.tasks then tx == Abort(NotFound)
    else if db.tasks[id].fixed.root != id then tx == Abort(Rejected)
    else if !Workable(db.tasks[id].status) then tx == Abort(Conflict)
    else if !Belongs(db, id, outcome) then tx == Abort(Rejected)
    else
      && tx.Commit?
      && if Kept(db, db.tasks[id].fixed.conversation) then Told(db, id, answer, outcome, now, true, tx.db)
         else exists told: Db ::
                && Told(db, id, answer, outcome, now, false, told)
                && Withheld(told, id, db.conversations[db.tasks[id].fixed.conversation.value].externalKey, tx.db)
  }

  lemma OutcomeLaw(db: Db, id: TaskId, answer: Answer, outcome: Outcome, now: int)
    ensures OutcomeCommitted(db, id, answer, outcome, now, CompleteTaskWithOutcome(db, id, answer, outcome, now))
  {
    var tx := CompleteTaskWithOutcome(db, id, answer, outcome, now);
    if tx.Commit? {
      var conversation := db.tasks[id].fixed.conversation;
      var kept := Kept(db, conversation);
      var told := Announce(SetTask(db, id, CompletedRow(db.tasks[id], answer, now)), outcome, kept);
      ToldLaw(db, id, answer, outcome, now, kept, told);
      if !kept {
        WithheldLaw(told, id, db.conversations[conversation.value].externalKey);
      }
    }
  }

  /** The new turn says what it should. */
  ghost predicate TurnTold(db: Db, id: TaskId, outcome: Outcome, next: Db)
    requires id in db.tasks
  {
    outcome.turn.Some? && outcome.turn.value.0 !in db.turns ==>
      var (key, turn) := outcome.turn.value;
      key in next.turns && next.turns[key] ==
        if Kept(db, db.tasks[id].fixed.conversation) then turn else turn.(text := "[transcript retention disabled]")
  }

  /** With a kept transcript the new delivery is stored as it is. */
  ghost predicate DeliveryTold(db: Db, id: TaskId, outcome: Outcome, next: Db)
    requires id in db.tasks
  {
    && Kept(db, db.tasks[id].fixed.conversation) && outcome.delivery.Some? && outcome.delivery.value.0 !in db.deliveries
    && (forall other :: other in db.deliveries ==>
          db.deliveries[other].idempotencyKey != outcome.delivery.value.1.idempotencyKey)
    ==> outcome.delivery.value.0 in next.deliveries
        && next.deliveries[outcome.delivery.value.0] == outcome.delivery.value.1
  }

  /** Without it, a graph that has ended is blank. */
  ghost predicate BlankOnceFinished(db: Db, id: TaskId, next: Db)
    requires id in db.tasks
  {
    !Kept(db, db.tasks[id].fixed.conversation) && Finished(next, id) ==> BlankGraph(next, id)
  }

  predicate BlankGraph(db: Db, root: TaskId) {
    forall node <- db.tasks :: db.tasks[node].fixed.root == root ==>
      db.tasks[node].content == Content(BLANK, "{}", "", "", None, BLANK, [])
  }

  lemma BlankedIsBlank(quiet: Db, root: TaskId, next: Db)
    requires GraphsBlanked(quiet, {root}, next)
    ensures BlankGraph(next, root)
  {
    forall node | node in next.tasks && next.tasks[node].fixed.root == root
      ensures next.tasks[node].content == Content(BLANK, "{}", "", "", None, BLANK, [])
    {
      assert node in quiet.tasks;
    }
  }

  lemma WithheldFacts(told: Db, id: TaskId, conversationKey: string, next: Db)
    requires Withheld(told, id, conversationKey, next)
    ensures next.turns == told.turns
    ensures Finished(next, id) ==> BlankGraph(next, id)
  {
    var quiet: Db :| && EventsBlanked(told, conversationKey, quiet)
                     && (if Finished(told, id) then GraphsBlanked(quiet, {id}, next) else next == quiet);
    if Finished(told, id) {
      BlankedIsBlank(quiet, id, next);
    } else {
      assert next.tasks == told.tasks;
    }
  }

  lemma OutcomeFacts(db: Db, id: TaskId, answer: Answer, outcome: Outcome, now: int, next: Db)
    requires id in db.tasks && OutcomeCommitted(db, id, answer, outcome, now, Commit(next))
    ensures TurnTold(db, id, outcome, next) && DeliveryTold(db, id, outcome, next) && BlankOnceFinished(db, id, next)
  {
    if !Kept(db, db.tasks[id].fixed.conversation) {
      var key := db.conversations[db.tasks[id].fixed.conversation.value].externalKey;
      var told: Db :| Told(db, id, answer, outcome, now, false, told) && Withheld(told, id, key, next);
      WithheldFacts(told, id, key, next);
    }
  }

  // ---------------------------------------------------------------- creating work

  /** No identifier and no idempotency key is taken, or used twice, and every node belongs to the root. */
  ghost predicate FreshRows(db: Db, rows: seq<(TaskId, Task)>, root: TaskId) {
    && (forall i :: 0 <= i < |rows| ==>
          && rows[i].1.fixed.root == root
          && rows[i].0 !in db.tasks && rows[i].1.fixed.idempotencyKey !in db.taskKeys)
    && (forall i, j :: 0 <= i < j < |rows| ==>
          rows[i].0 != rows[j].0 && rows[i].1.fixed.idempotencyKey != rows[j].1.fixed.idempotencyKey)
  }

  /** A row is stored as it is; the first version is 1. */
  predicate StoredAs(row: Task, stored: Task) {
    stored == row.(version := if row.version == 0 then 1 else row.version)
  }

  ghost predicate TasksAdded(tasks: map<TaskId, Task>, rows: seq<(TaskId, Task)>, next: map<TaskId, Task>) {
    && (forall id :: id in tasks ==> id in next && next[id] == tasks[id])
    && (forall i :: 0 <= i < |rows| ==> rows[i].0 in next && StoredAs(rows[i].1, next[rows[i].0]))
    && (forall id :: id in next ==> id in tasks || exists i :: 0 <= i < |rows| && rows[i].0 == id)
  }

  ghost predicate KeysAdded(keys: map<string, TaskId>, rows: seq<(TaskId, Task)>, next: map<string, TaskId>) {
    && (forall key :: key in keys ==> key in next && next[key] == keys[key])
    && (forall i :: 0 <= i < |rows| ==>
          rows[i].1.fixed.idempotencyKey in next && next[rows[i].1.fixed.idempotencyKey] == rows[i].0)
    && (forall key :: key in next ==> key in keys || exists i :: 0 <= i < |rows| && rows[i].1.fixed.idempotencyKey == key)
  }

  ghost predicate RowsAdded(db: Db, rows: seq<(TaskId, Task)>, next: Db) {
    && next == db.(tasks := next.tasks, taskKeys := next.taskKeys)
    && TasksAdded(db.tasks, rows, next.tasks)
    && KeysAdded(db.taskKeys, rows, next.taskKeys)
  }

  lemma FreshStep(db: Db, rows: seq<(TaskId, Task)>, root: TaskId)
    requires rows != []
    ensures FreshRows(db, rows, root) <==>
              && rows[0].1.fixed.root == root && InsertTask(db, rows[0].0, rows[0].1).Commit?
              && FreshRows(InsertTask(db, rows[0].0, rows[0].1).db, rows[1..], root)
  {
    var first := InsertTask(db, rows[0].0, rows[0].1);
    if first.Commit? {
      assert forall i :: 0 <= i < |rows[1..]| ==> rows[1..][i] == rows[i + 1];
      if FreshRows(first.db, rows[1..], root) && rows[0].1.fixed.root == root {
        forall i | 0 <= i < |rows|
          ensures rows[i].1.fixed.root == root && rows[i].0 !in db.tasks && rows[i].1.fixed.idempotencyKey !in db.taskKeys
        {
          if i > 0 {
            assert rows[i] == rows[1..][i - 1];
          }
        }
        forall i, j | 0 <= i < j < |rows|
          ensures rows[i].0 != rows[j].0 && rows[i].1.fixed.idempotencyKey != rows[j].1.fixed.idempotencyKey
        {
          assert rows[j] == rows[1..][j - 1];
          if i > 0 {
            assert rows[i] == rows[1..][i - 1];
          }
        }
      }
    }
  }

  lemma TasksAddedStep(tasks: map<TaskId, Task>, rows: seq<(TaskId, Task)>, first: Task, next: map<TaskId, Task>)
    requires rows != [] && rows[0].0 !in tasks && StoredAs(rows[0].1, first)
    requires TasksAdded(tasks[rows[0].0 := first], rows[1..], next)
    ensures TasksAdded(tasks, rows, next)
  {
    forall i | 0 <= i < |rows| ensures rows[i].0 in next && StoredAs(rows[i].1, next[rows[i].0]) {
      if i > 0 {
        assert rows[i] == rows[1..][i - 1];
      }
    }
    forall id | id in next && id !in tasks ensures exists i :: 0 <= i < |rows| && rows[i].0 == id {
      if id == rows[0].0 {
        assert rows[0].0 == id;
      } else {
        var i :| 0 <= i < |rows[1..]| && rows[1..][i].0 == id;
        assert rows[i + 1].0 == id;
      }
    }
  }

  lemma KeysAddedStep(keys: map<string, TaskId>, rows: seq<(TaskId, Task)>, next: map<string, TaskId>)
    requires rows != [] && rows[0].1.fixed.idempotencyKey !in keys
    requires KeysAdded(keys[rows[0].1.fixed.idempotencyKey := rows[0].0], rows[1..], next)
    ensures KeysAdded(keys, rows, next)
  {
    forall i | 0 <= i < |rows|
      ensures rows[i].1.fixed.idempotencyKey in next && next[rows[i].1.fixed.idempotencyKey] == rows[i].0
    {
      if i > 0 {
        assert rows[i] == rows[1..][i - 1];
      }
    }
    forall key | key in next && key !in keys ensures exists i :: 0 <= i < |rows| && rows[i].1.fixed.idempotencyKey == key {
      if key == rows[0].1.fixed.idempotencyKey {
        assert rows[0].1.fixed.idempotencyKey == key;
      } else {
        var i :| 0 <= i < |rows[1..]| && rows[1..][i].1.fixed.idempotencyKey == key;
        assert rows[i + 1].1.fixed.idempotencyKey == key;
      }
    }
  }

  lemma AddedStep(db: Db, rows: seq<(TaskId, Task)>, mid: Db, next: Db)
    requires rows != [] && InsertTask(db, rows[0].0, rows[0].1) == Commit(mid) && RowsAdded(mid, rows[1..], next)
    ensures RowsAdded(db, rows, next)
  {
    TasksAddedStep(db.tasks, rows, mid.tasks[rows[0].0], next.tasks);
    KeysAddedStep(db.taskKeys, rows, next.taskKeys);
  }

  lemma {:induction false} RowsLaw(db: Db, rows: seq<(TaskId, Task)>, root: TaskId)
    ensures InsertTasks(db, rows, root).Commit? <==> FreshRows(db, rows, root)
    ensures InsertTasks(db, rows, root).Commit? ==> RowsAdded(db, rows, InsertTasks(db, rows, root).db)
    decreases |rows|
  {
    if rows != [] {
      FreshStep(db, rows, root);
      var first := InsertTask(db, rows[0].0, rows[0].1);
      if rows[0].1.fixed.root == root && first.Commit? {
        RowsLaw(first.db, rows[1..], root);
        if InsertTasks(db, rows, root).Commit? {
          AddedStep(db, rows, first.db, InsertTasks(db, rows, root).db);
        }
      }
    }
  }

  /** Each edge is new, named once, between two known tasks and not from a task to itself. */
  ghost predicate FreshEdges(db: Db, edges: seq<(TaskId, TaskId)>) {
    && (forall i :: 0 <= i < |edges| ==>
          edges[i] !in db.deps && edges[i].0 in db.tasks && edges[i].1 in db.tasks && edges[i].0 != edges[i].1)
    && (forall i, j :: 0 <= i < j < |edges| ==> edges[i] != edges[j])
  }

  lemma FreshEdgesIs(db: Db, edges: seq<(TaskId, TaskId)>)
    ensures Insertable(db, edges) <==> FreshEdges(db, edges)
  {
    if Insertable(db, edges) {
      forall i | 0 <= i < |edges|
        ensures edges[i] !in db.deps && edges[i].0 in db.tasks && edges[i].1 in db.tasks && edges[i].0 != edges[i].1
      {
        assert edges[i] in edges;
      }
    }
  }

  /** All of the graph, or nothing. */
  ghost predicate GraphCreated(db: Db, rows: seq<(TaskId, Task)>, edges: seq<(TaskId, TaskId)>, tx: Tx) {
    if rows == [] then tx == Abort(Rejected)
    else if rows[0].1.fixed.idempotencyKey in db.taskKeys then tx == Commit(db)
    else if !FreshRows(db, rows, rows[0].0) then tx.Abort?
    else
      exists full: Db ::
        && RowsAdded(db, rows, full)
        && if FreshEdges(full, edges)
           then tx == Commit(full.(deps := full.deps + set i | 0 <= i < |edges| :: edges[i])) else tx == Abort(Rejected)
  }

  lemma GraphLaw(db: Db, rows: seq<(TaskId, Task)>, edges: seq<(TaskId, TaskId)>)
    ensures GraphCreated(db, rows, edges, CreateTaskGraph(db, rows, edges))
  {
    if rows != [] && rows[0].1.fixed.idempotencyKey !in db.taskKeys {
      RowsLaw(db, rows, rows[0].0);
      var inserted := InsertTasks(db, rows, rows[0].0);
      if inserted.Commit? {
        FreshEdgesIs(inserted.db, edges);
        assert Edges(edges) == set i | 0 <= i < |edges| :: edges[i];
      }
    }
  }

  // ---------------------------------------------------------------- asks

  /** The conversation row after the upsert: a new one as it is, a known one touched, with an expired title given back. */
  predicate ConversationOpened(db: Db, id: ConversationId, record: Conversation, row: Conversation) {
    if id !in db.conversations then row == record
    else
      var known := db.conversations[id];
      row == known.(
        updatedAt := record.updatedAt,
        title := if known.retained && known.title == "[expired by retention policy]" then record.title else known.title)
  }

  ghost predicate KeyIsFree(db: Db, id: ConversationId, record: Conversation) {
    if id in db.conversations then db.conversations[id].externalKey == record.externalKey
    else forall other :: other in db.conversations ==> db.conversations[other].externalKey != record.externalKey
  }

  /** Opened, and switched if the request asks for it. */
  ghost predicate ConversationReady(db: Db, id: ConversationId, record: Conversation, apply: bool, entered: Db, known: Db) {
    && id in entered.conversations && ConversationOpened(db, id, record, entered.conversations[id])
    && entered == db.(conversations := db.conversations[id := entered.conversations[id]])
    && id in known.conversations
    && if apply then RetentionSwitched(entered, id, record.retained, record.updatedAt, Commit(known)) else known == entered
  }

  /** Every other node is a dependency of the first one. */
  predicate Star(rows: seq<(TaskId, Task)>, edges: seq<(TaskId, TaskId)>) {
    |rows| == |edges| + 1 && forall i :: 0 <= i < |edges| ==> edges[i] == (rows[0].0, rows[i + 1].0)
  }

  /** A committed ask. */
  ghost predicate AskDone(db: Db, id: ConversationId, record: Conversation, apply: bool, turn: (TurnId, Turn),
                          rows: seq<(TaskId, Task)>, entered: Db, known: Db, base: Db, edges: seq<(TaskId, TaskId)>, tx: Tx) {
    && ConversationReady(db, id, record, apply, entered, known)
    && base == known.(turns := base.turns)
    && TurnStored(known.turns, turn.0, turn.1.(conversation := id), known.conversations[id].retained, base.turns)
    && Star(rows, edges) && GraphCreated(base, rows, edges, tx)
  }

  ghost predicate Asked(db: Db, id: ConversationId, record: Conversation, apply: bool, turn: (TurnId, Turn),
                        rows: seq<(TaskId, Task)>, tx: Tx) {
    if rows == [] then tx == Abort(Rejected)
    else if rows[0].1.fixed.idempotencyKey in db.taskKeys then tx == Commit(db)
    else if !KeyIsFree(db, id, record) then tx == Abort(Rejected)
    else exists entered, known, base, edges :: AskDone(db, id, record, apply, turn, rows, entered, known, base, edges, tx)
  }

  lemma ReadyLaw(db: Db, id: ConversationId, record: Conversation, apply: bool)
    ensures var entered := OpenConversation(db, id, record);
            ConversationReady(db, id, record, apply, entered, ApplyRetention(entered, id, record, apply))
  {
    var entered := OpenConversation(db, id, record);
    SwitchLaw(entered, id, record.retained, record.updatedAt);
  }

  lemma AskLaw(db: Db, id: ConversationId, record: Conversation, apply: bool, turn: (TurnId, Turn), rows: seq<(TaskId, Task)>)
    ensures Asked(db, id, record, apply, turn, rows, CreateAskWork(db, id, record, apply, turn, rows))
  {
    if rows != [] && rows[0].1.fixed.idempotencyKey !in db.taskKeys && KeyIsFree(db, id, record) {
      var known := ApplyRetention(OpenConversation(db, id, record), id, record, apply);
      var base := InsertTurn(known, turn.0, turn.1.(conversation := id), known.conversations[id].retained);
      AskDoneLaw(db, id, record, apply, turn, rows, known, base);
      assert CreateAskWork(db, id, record, apply, turn, rows) == CreateTaskGraph(base, rows, StarEdges(rows));
    }
  }

  lemma AskDoneLaw(db: Db, id: ConversationId, record: Conversation, apply: bool, turn: (TurnId, Turn),
                   rows: seq<(TaskId, Task)>, known: Db, base: Db)
    requires rows != [] && known == ApplyRetention(OpenConversation(db, id, record), id, record, apply)
    requires base == InsertTurn(known, turn.0, turn.1.(conversation := id), known.conversations[id].retained)
    ensures AskDone(db, id, record, apply, turn, rows, OpenConversation(db, id, record), known, base, StarEdges(rows),
                    CreateTaskGraph(base, rows, StarEdges(rows)))
  {
    ReadyLaw(db, id, record, apply);
    TurnStoredLaw(known, turn.0, turn.1.(conversation := id), known.conversations[id].retained);
    GraphLaw(base, rows, StarEdges(rows));
  }
}
