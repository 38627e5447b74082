/**
 The retention sweep column by column: which rows are old, what protects them, and exactly what is
 erased of the rows that nothing protects.
 */
module SweepColumns {
  import opened Model
  import opened Transactions
  import opened Columns
  import opened Retention
  import opened Runtime

  const EXPIRED := "[expired by retention policy]"

  // ---------------------------------------------------------------- who is protected

  predicate OfGraph(db: Db, root: TaskId, id: TaskId) {
    id in db.tasks && db.tasks[id].fixed.root == root
  }

  /** A delivery not delivered or given up, a command not ended, or an approval not decided. */
  ghost predicate Owing(db: Db, root: TaskId) {
    || (exists key :: key in db.deliveries && OfGraph(db, root, db.deliveries[key].task)
                      && (db.deliveries[key].status.Outstanding? || db.deliveries[key].status.Delivering?))
    || (exists key :: key in db.invocations && OfGraph(db, root, db.invocations[key].task)
                      && db.invocations[key].status.Started?)
    || (exists key :: key in db.approvals && OfGraph(db, root, db.approvals[key].task)
                      && (db.approvals[key].status.Pending? || db.approvals[key].status.Approved?))
  }

  lemma OwingIs(db: Db, root: TaskId)
    ensures GraphOwes(db, root) <==> Owing(db, root)
  {
    assert forall id :: InGraph(db, root, id) == OfGraph(db, root, id);
  }

  /** The row has ended, and its end, or its creation if no end is recorded, is before the cutoff. */
  predicate Old(row: Task, cutoff: int) {
    Ended(row.status) && (if row.finishedAt.Some? then row.finishedAt.value else row.fixed.createdAt) < cutoff
  }

  /** All nodes are old and nothing is owed. */
  ghost predicate Sweepable(db: Db, root: TaskId, cutoff: int) {
    && (exists id :: OfGraph(db, root, id))
    && (forall id :: OfGraph(db, root, id) ==> Old(db.tasks[id], cutoff))
    && !Owing(db, root)
  }

  lemma SweepableIs(db: Db, root: TaskId, cutoff: int)
    ensures Eligible(db, root, cutoff) <==> Sweepable(db, root, cutoff)
  {
    OwingIs(db, root);
    if Eligible(db, root, cutoff) {
      var id :| id in db.tasks && db.tasks[id].fixed.root == root;
      assert OfGraph(db, root, id);
    }
    if Sweepable(db, root, cutoff) {
      var id :| OfGraph(db, root, id);
      forall other | other in db.tasks && db.tasks[other].fixed.root == root
        ensures db.tasks[other].status.Terminal() && LastChange(db.tasks[other]) < cutoff
      {
        assert OfGraph(db, root, other);
      }
    }
  }

  /** The sweep reaches the node. */
  ghost predicate Reached(db: Db, id: TaskId, cutoff: int) {
    id in db.tasks && Sweepable(db, db.tasks[id].fixed.root, cutoff)
  }

  lemma ReachedIs(db: Db, cutoff: int)
    ensures forall id :: InEligible(db, id, cutoff) <==> Reached(db, id, cutoff)
  {
    forall id ensures InEligible(db, id, cutoff) <==> Reached(db, id, cutoff) {
      if id in db.tasks {
        SweepableIs(db, db.tasks[id].fixed.root, cutoff);
      }
    }
  }

  ghost predicate Protects(db: Db, id: TaskId)
    requires id in db.tasks
  {
    !Ended(db.tasks[id].status) || Owing(db, db.tasks[id].fixed.root)
  }

  ghost predicate Busy(db: Db, conversation: ConversationId) {
    exists id :: id in db.tasks && db.tasks[id].fixed.conversation == Some(conversation) && Protects(db, id)
  }

  lemma BusyIs(db: Db, conversation: ConversationId)
    ensures ConversationBusy(db, conversation) <==> Busy(db, conversation)
  {
    forall id | id in db.tasks
      ensures Protected(db.tasks[id], GraphOwes(db, db.tasks[id].fixed.root)) <==> Protects(db, id)
    {
      OwingIs(db, db.tasks[id].fixed.root);
    }
  }

  /** The task was caused by the event or belongs to its conversation. */
  predicate About(db: Db, id: TaskId, key: string, conversationKey: string)
    requires id in db.tasks
  {
    var fixed := db.tasks[id].fixed;
    || fixed.causation == Some(key)
    || (fixed.conversation.Some? && fixed.conversation.value in db.conversations
        && db.conversations[fixed.conversation.value].externalKey == conversationKey)
  }

  ghost predicate EventNeeded(db: Db, key: string, conversationKey: string) {
    exists id :: id in db.tasks && About(db, id, key, conversationKey) && Protects(db, id)
  }

  lemma EventNeededIs(db: Db, key: string, conversationKey: string)
    ensures EventBusy(db, key, conversationKey) <==> EventNeeded(db, key, conversationKey)
  {
    forall id | id in db.tasks
      ensures Protected(db.tasks[id], GraphOwes(db, db.tasks[id].fixed.root)) <==> Protects(db, id)
      ensures Concerns(db, db.tasks[id], key, conversationKey) <==> About(db, id, key, conversationKey)
    {
      OwingIs(db, db.tasks[id].fixed.root);
    }
  }

  // ---------------------------------------------------------------- what is erased

  ghost predicate TasksSweptColumns(db: Db, cutoff: int, next: map<TaskId, Task>) {
    && next.Keys == db.tasks.Keys
    && forall id :: id in db.tasks ==>
         next[id] == if Reached(db, id, cutoff)
                     then db.tasks[id].(content := Content(EXPIRED, "{}", "", "", None, EXPIRED, [])) else db.tasks[id]
  }

  ghost predicate InvocationsSweptColumns(db: Db, cutoff: int, next: map<string, Invocation>) {
    && next.Keys == db.invocations.Keys
    && forall key :: key in db.invocations ==>
         var a := db.invocations[key];
         next[key] == if Reached(db, a.task, cutoff) then a.(input := "{}", output := None, error := "") else a
  }

  ghost predicate ApprovalsSweptColumns(db: Db, cutoff: int, next: map<ApprovalId, Approval>) {
    && next.Keys == db.approvals.Keys
    && forall key :: key in db.approvals ==>
         var a := db.approvals[key];
         next[key] == if Reached(db, a.task, cutoff) then a.(arguments := "{}", reason := EXPIRED) else a
  }

  ghost predicate DeliveriesSweptColumns(db: Db, cutoff: int, next: map<DeliveryId, Delivery>) {
    && next.Keys == db.deliveries.Keys
    && forall key :: key in db.deliveries ==>
         var a := db.deliveries[key];
         next[key] == if Reached(db, a.task, cutoff) && (a.status.Delivered? || a.status.Undeliverable?)
                      then a.(target := "{}", lastError := "") else a
  }

  ghost predicate ArtifactsSweptColumns(db: Db, cutoff: int, next: map<string, TaskId>) {
    && (forall key :: key in next <==> key in db.artifacts && !Reached(db, db.artifacts[key], cutoff))
    && (forall key :: key in next ==> next[key] == db.artifacts[key])
  }

  ghost predicate TurnsSweptColumns(db: Db, cutoff: int, next: map<TurnId, Turn>) {
    && (forall key :: key in next <==>
          && key in db.turns
          && (db.turns[key].createdAt >= cutoff || Busy(db, db.turns[key].conversation)))
    && (forall key :: key in next ==> next[key] == db.turns[key])
  }

  ghost predicate ConversationsSweptColumns(db: Db, cutoff: int, next: map<ConversationId, Conversation>) {
    && next.Keys == db.conversations.Keys
    && forall key :: key in db.conversations ==>
         var a := db.conversations[key];
         next[key] == if a.retained && a.updatedAt < cutoff && !Busy(db, key) then a.(title := EXPIRED) else a
  }

  /** Nothing is left in the four columns. */
  predicate EventBlank(e: Event) {
    e.payload == "{}" && e.replyTarget == "{}" && e.actorName == "" && (e.processingError.None? || e.processingError.value == "")
  }

  ghost predicate EventsSweptColumns(db: Db, cutoff: int, next: map<string, Event>) {
    && next.Keys == db.events.Keys
    && forall key :: key in db.events ==>
         var a := db.events[key];
         next[key] ==
           if a.processed && a.receivedAt < cutoff && !EventNeeded(db, key, a.conversationKey) && !EventBlank(a)
           then a.(payload := "{}", replyTarget := "{}", actorName := "", processingError := Some("")) else a
  }

  ghost predicate AuditsSweptColumns(db: Db, cutoff: int, next: map<string, Audit>) {
    && (forall key :: key in next <==>
          && key in db.audits
          && var a := db.audits[key];
          || a.occurredAt >= cutoff
          || (a.task.Some? && !Reached(db, a.task.value, cutoff))
          || (a.task.None? && exists id :: id in db.tasks && db.tasks[id].fixed.correlation == a.correlation
                                           && !Reached(db, id, cutoff)))
    && (forall key :: key in next ==> next[key] == db.audits[key])
  }

  /** A whole sweep. */
  ghost predicate SweptColumns(db: Db, cutoff: int, next: Db) {
    && next.deps == db.deps && next.taskKeys == db.taskKeys
    && TasksSweptColumns(db, cutoff, next.tasks)
    && InvocationsSweptColumns(db, cutoff, next.invocations)
    && ApprovalsSweptColumns(db, cutoff, next.approvals)
    && DeliveriesSweptColumns(db, cutoff, next.deliveries)
    && ArtifactsSweptColumns(db, cutoff, next.artifacts)
    && TurnsSweptColumns(db, cutoff, next.turns)
    && ConversationsSweptColumns(db, cutoff, next.conversations)
    && EventsSweptColumns(db, cutoff, next.events)
    && AuditsSweptColumns(db, cutoff, next.audits)
  }

  lemma TasksLaw(db: Db, cutoff: int)
    ensures TasksSweptColumns(db, cutoff, SweepTasks(db, cutoff).tasks)
  {
    ReachedIs(db, cutoff);
  }

  lemma InvocationsLaw(db: Db, cutoff: int)
    ensures InvocationsSweptColumns(db, cutoff, SweepInvocations(db, cutoff).invocations)
  {
    ReachedIs(db, cutoff);
  }

  lemma ApprovalsLaw(db: Db, cutoff: int)
    ensures ApprovalsSweptColumns(db, cutoff, SweepApprovals(db, cutoff).approvals)
  {
    ReachedIs(db, cutoff);
  }

  lemma DeliveriesLaw(db: Db, cutoff: int)
    ensures DeliveriesSweptColumns(db, cutoff, SweepDeliveries(db, cutoff).deliveries)
  {
    ReachedIs(db, cutoff);
  }

  lemma ArtifactsLaw(db: Db, cutoff: int)
    ensures ArtifactsSweptColumns(db, cutoff, SweepArtifacts(db, cutoff).artifacts)
  {
    ReachedIs(db, cutoff);
  }

  lemma TurnsLaw(db: Db, cutoff: int)
    ensures TurnsSweptColumns(db, cutoff, SweepTurns(db, cutoff).turns)
  {
    forall conversation ensures ConversationBusy(db, conversation) <==> Busy(db, conversation) {
      BusyIs(db, conversation);
    }
  }

  lemma ConversationsLaw(db: Db, cutoff: int)
    ensures ConversationsSweptColumns(db, cutoff, SweepConversations(db, cutoff).conversations)
  {
    forall conversation ensures ConversationBusy(db, conversation) <==> Busy(db, conversation) {
      BusyIs(db, conversation);
    }
  }

  lemma EventsLaw(db: Db, cutoff: int)
    ensures EventsSweptColumns(db, cutoff, SweepEvents(db, cutoff).events)
  {
    forall key | key in db.events
      ensures EventBusy(db, key, db.events[key].conversationKey) <==> EventNeeded(db, key, db.events[key].conversationKey)
    {
      EventNeededIs(db, key, db.events[key].conversationKey);
    }
  }

  lemma AuditsLaw(db: Db, cutoff: int)
    ensures AuditsSweptColumns(db, cutoff, SweepAudits(db, cutoff).audits)
  {
    ReachedIs(db, cutoff);
  }

  lemma SweepLaw(db: Db, cutoff: int)
    ensures SweptColumns(db, cutoff, Sweep(db, cutoff))
  {
    TasksLaw(db, cutoff);
    InvocationsLaw(db, cutoff);
    ApprovalsLaw(db, cutoff);
    DeliveriesLaw(db, cutoff);
    ArtifactsLaw(db, cutoff);
    TurnsLaw(db, cutoff);
    ConversationsLaw(db, cutoff);
    EventsLaw(db, cutoff);
    AuditsLaw(db, cutoff);
  }

  // ---------------------------------------------------------------- the transaction

  /** The cutoff is checked, the tables are swept, and the sweep leaves one audit row of its own. */
  ghost predicate SweepDone(db: Db, cutoff: int, sweptAt: int, audit: string, correlation: string, tx: Tx) {
    if cutoff == 0 || sweptAt == 0 || cutoff > sweptAt then tx == Abort(Rejected)
    else exists swept: Db ::
           && SweptColumns(db, cutoff, swept)
           && tx == if audit in swept.audits then Abort(Conflict)
                    else Commit(swept.(audits := swept.audits[audit := Audit(sweptAt, None, correlation)]))
  }

  lemma SweepTxLaw(db: Db, cutoff: int, sweptAt: int, audit: string, correlation: string)
    ensures SweepDone(db, cutoff, sweptAt, audit, correlation, SweepTx(db, cutoff, sweptAt, audit, correlation))
  {
    SweepLaw(db, cutoff);
  }

  // ---------------------------------------------------------------- in short

  /** The rows of a graph and everything recorded for its nodes are the same in both databases. */
  ghost predicate GraphStands(db: Db, next: Db, root: TaskId) {
    && (forall id :: OfGraph(db, root, id) ==> id in next.tasks && next.tasks[id] == db.tasks[id])
    && (forall key :: key in db.invocations && OfGraph(db, root, db.invocations[key].task) ==>
          key in next.invocations && next.invocations[key] == db.invocations[key])
    && (forall key :: key in db.approvals && OfGraph(db, root, db.approvals[key].task) ==>
          key in next.approvals && next.approvals[key] == db.approvals[key])
    && (forall key :: key in db.deliveries && OfGraph(db, root, db.deliveries[key].task) ==>
          key in next.deliveries && next.deliveries[key] == db.deliveries[key])
    && (forall key :: key in db.artifacts && OfGraph(db, root, db.artifacts[key]) ==>
          key in next.artifacts && next.artifacts[key] == db.artifacts[key])
  }

  /** Nothing of the graph's content is left. */
  ghost predicate GraphGone(db: Db, next: Db, root: TaskId) {
    && (forall id :: OfGraph(db, root, id) ==>
          id in next.tasks && next.tasks[id].content == Content(EXPIRED, "{}", "", "", None, EXPIRED, []))
    && (forall key :: key in db.invocations && OfGraph(db, root, db.invocations[key].task) ==>
          key in next.invocations && next.invocations[key].input == "{}" && next.invocations[key].output.None?
          && next.invocations[key].error == "")
    && (forall key :: key in db.approvals && OfGraph(db, root, db.approvals[key].task) ==>
          key in next.approvals && next.approvals[key].arguments == "{}" && next.approvals[key].reason == EXPIRED)
    && (forall key :: key in db.deliveries && OfGraph(db, root, db.deliveries[key].task)
                      && (db.deliveries[key].status.Delivered? || db.deliveries[key].status.Undeliverable?) ==>
          key in next.deliveries && next.deliveries[key].target == "{}" && next.deliveries[key].lastError == "")
    && (forall key :: key in db.artifacts && OfGraph(db, root, db.artifacts[key]) ==> key !in next.artifacts)
  }

  /** Some node keeps the graph out of the sweep's reach: unfinished, or with a recent end, or something is owed. */
  ghost predicate OutOfReach(db: Db, root: TaskId, cutoff: int) {
    || (exists id :: OfGraph(db, root, id) && !Ended(db.tasks[id].status))
    || (exists id :: OfGraph(db, root, id) && db.tasks[id].finishedAt.Some? && db.tasks[id].finishedAt.value >= cutoff)
    || (exists id :: OfGraph(db, root, id) && db.tasks[id].finishedAt.None? && db.tasks[id].fixed.createdAt >= cutoff)
    || Owing(db, root)
  }

  /** The graphs out of reach stand in every row; all others lose all their content. */
  lemma SweepTakesAllOrNothing(db: Db, root: TaskId, cutoff: int, next: Db)
    requires SweptColumns(db, cutoff, next) && (exists id :: OfGraph(db, root, id))
    ensures OutOfReach(db, root, cutoff) ==> GraphStands(db, next, root)
    ensures !OutOfReach(db, root, cutoff) ==> GraphGone(db, next, root)
  {
    ReachIsTotal(db, root, cutoff);
    if OutOfReach(db, root, cutoff) {
      StandsLaw(db, root, cutoff, next);
    } else {
      GoneLaw(db, root, cutoff, next);
    }
  }

  lemma ReachIsTotal(db: Db, root: TaskId, cutoff: int)
    requires exists id :: OfGraph(db, root, id)
    ensures Sweepable(db, root, cutoff) <==> !OutOfReach(db, root, cutoff)
    ensures forall id :: OfGraph(db, root, id) ==> (Reached(db, id, cutoff) <==> !OutOfReach(db, root, cutoff))
  {
    if !OutOfReach(db, root, cutoff) {
      forall id | OfGraph(db, root, id) ensures Old(db.tasks[id], cutoff) {}
    }
  }

  lemma StandsLaw(db: Db, root: TaskId, cutoff: int, next: Db)
    requires SweptColumns(db, cutoff, next) && forall id :: OfGraph(db, root, id) ==> !Reached(db, id, cutoff)
    ensures GraphStands(db, next, root)
  {}

  lemma GoneLaw(db: Db, root: TaskId, cutoff: int, next: Db)
    requires SweptColumns(db, cutoff, next) && forall id :: OfGraph(db, root, id) ==> Reached(db, id, cutoff)
    ensures GraphGone(db, next, root)
  {}
}
