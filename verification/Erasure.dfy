/**
 Erasing the content of finished graphs: the scrub statements, and the loops over graphs.
 */
module Erasure {
  import opened Model
  import opened Transactions
  import opened Statements

  // ---------------------------------------------------------------- one graph, five statements

  ghost predicate NodesOf(db: Db, root: TaskId, nodes: set<TaskId>) {
    forall id :: id in nodes <==> InGraphs(db, {root}, id)
  }

  method EraseArtifacts(tx: Db, nodes: set<TaskId>, ghost db: Db, ghost root: TaskId) returns (next: Db)
    requires NodesOf(db, root, nodes) && tx.artifacts == db.artifacts
    ensures next == tx.(artifacts := ScrubGraphs(db, {root}).artifacts)
  {
    next := tx.(artifacts := map key <- tx.artifacts | tx.artifacts[key] !in nodes :: tx.artifacts[key]);
    assert next.artifacts == ScrubGraphs(db, {root}).artifacts;
  }

  method EraseInvocations(tx: Db, nodes: set<TaskId>, ghost db: Db, ghost root: TaskId) returns (next: Db)
    requires NodesOf(db, root, nodes) && tx.invocations == db.invocations
    ensures next == tx.(invocations := ScrubGraphs(db, {root}).invocations)
  {
    var chosen := set key <- tx.invocations | tx.invocations[key].task in nodes;
    next := tx.(invocations := Update(tx.invocations, chosen,
      (item: Invocation) => item.(input := "{}", output := None, error := "")));
    assert next.invocations == ScrubGraphs(db, {root}).invocations;
  }

  method EraseApprovals(tx: Db, nodes: set<TaskId>, ghost db: Db, ghost root: TaskId) returns (next: Db)
    requires NodesOf(db, root, nodes) && tx.approvals == db.approvals
    ensures next == tx.(approvals := ScrubGraphs(db, {root}).approvals)
  {
    var chosen := set key <- tx.approvals
      | tx.approvals[key].task in nodes
        && (tx.approvals[key].status.Denied? || tx.approvals[key].status.Expired? || tx.approvals[key].status.Consumed?);
    next := tx.(approvals := Update(tx.approvals, chosen,
      (item: Approval) => item.(arguments := "{}", scopes := [], reason := NOT_RETAINED_MARKER)));
    assert next.approvals == ScrubGraphs(db, {root}).approvals;
  }

  method EraseDeliveries(tx: Db, nodes: set<TaskId>, ghost db: Db, ghost root: TaskId) returns (next: Db)
    requires NodesOf(db, root, nodes) && tx.deliveries == db.deliveries
    ensures next == tx.(deliveries := ScrubGraphs(db, {root}).deliveries)
  {
    var chosen := set key <- tx.deliveries
      | tx.deliveries[key].task in nodes
        && (tx.deliveries[key].status.Delivered? || tx.deliveries[key].status.Undeliverable?);
    next := tx.(deliveries := Update(tx.deliveries, chosen,
      (item: Delivery) => item.(target := "{}", lastError := "")));
    assert next.deliveries == ScrubGraphs(db, {root}).deliveries;
  }

  method EraseTasks(tx: Db, nodes: set<TaskId>, ghost db: Db, ghost root: TaskId) returns (next: Db)
    requires NodesOf(db, root, nodes) && tx.tasks == db.tasks
    ensures next == tx.(tasks := ScrubGraphs(db, {root}).tasks)
  {
    next := tx.(tasks := Update(tx.tasks, nodes,
      (row: Task) => row.(content := ErasedContent(NOT_RETAINED_MARKER))));
    assert forall id :: id in db.tasks ==> (id in nodes <==> db.tasks[id].fixed.root in {root}) by {
      assert forall id :: id in db.tasks ==> (id in nodes <==> InGraphs(db, {root}, id));
    }
    assert next.tasks == ScrubGraphs(db, {root}).tasks;
  }

  method ScrubContent(db: Db, root: TaskId) returns (tx: Db)
    ensures tx == ScrubGraphs(db, {root})
  {
    var nodes := set id <- db.tasks | db.tasks[id].fixed.root == root;
    assert NodesOf(db, root, nodes);
    tx := EraseArtifacts(db, nodes, db, root);
    tx := EraseInvocations(tx, nodes, db, root);
    tx := EraseApprovals(tx, nodes, db, root);
    tx := EraseDeliveries(tx, nodes, db, root);
    tx := EraseTasks(tx, nodes, db, root);
  }

  // ---------------------------------------------------------------- graph after graph

  lemma ScrubKeepsGraphs(db: Db, roots: set<TaskId>, next: Db)
    requires next == ScrubGraphs(db, roots)
    ensures next.tasks.Keys == db.tasks.Keys
    ensures forall id :: id in db.tasks ==>
              next.tasks[id].fixed == db.tasks[id].fixed && next.tasks[id].status == db.tasks[id].status
    ensures forall root :: GraphActive(next, root) == GraphActive(db, root)
    ensures forall others, id :: InGraphs(next, others, id) == InGraphs(db, others, id)
  {
    assert next.tasks.Keys == db.tasks.Keys;
    forall root ensures GraphActive(next, root) == GraphActive(db, root) {
      if GraphActive(db, root) {
        var id :| id in db.tasks && db.tasks[id].fixed.root == root && !db.tasks[id].status.Terminal();
        assert id in next.tasks && next.tasks[id].fixed.root == root && !next.tasks[id].status.Terminal();
      }
    }
  }

  lemma ScrubTwiceArtifacts(db: Db, a: set<TaskId>, b: set<TaskId>, mid: Db)
    requires mid == ScrubGraphs(db, a)
    ensures ScrubGraphs(mid, b).artifacts == ScrubGraphs(db, a + b).artifacts
  {
    ScrubKeepsGraphs(db, a, mid);
  }

  lemma ScrubTwiceInvocations(db: Db, a: set<TaskId>, b: set<TaskId>, mid: Db)
    requires mid == ScrubGraphs(db, a)
    ensures ScrubGraphs(mid, b).invocations == ScrubGraphs(db, a + b).invocations
  {
    ScrubKeepsGraphs(db, a, mid);
  }

  lemma ScrubTwiceApprovals(db: Db, a: set<TaskId>, b: set<TaskId>, mid: Db)
    requires mid == ScrubGraphs(db, a)
    ensures ScrubGraphs(mid, b).approvals == ScrubGraphs(db, a + b).approvals
  {
    ScrubKeepsGraphs(db, a, mid);
  }

  lemma ScrubTwiceDeliveries(db: Db, a: set<TaskId>, b: set<TaskId>, mid: Db)
    requires mid == ScrubGraphs(db, a)
    ensures ScrubGraphs(mid, b).deliveries == ScrubGraphs(db, a + b).deliveries
  {
    ScrubKeepsGraphs(db, a, mid);
  }

  lemma ScrubTwiceTasks(db: Db, a: set<TaskId>, b: set<TaskId>, mid: Db)
    requires mid == ScrubGraphs(db, a)
    ensures ScrubGraphs(mid, b).tasks == ScrubGraphs(db, a + b).tasks
  {}

  /** Scrubbing some graphs and then others is scrubbing them all, in any order and any number of times. */
  lemma ScrubTwice(db: Db, a: set<TaskId>, b: set<TaskId>)
    ensures ScrubGraphs(ScrubGraphs(db, a), b) == ScrubGraphs(db, a + b)
  {
    var mid := ScrubGraphs(db, a);
    ScrubTwiceArtifacts(db, a, b, mid);
    ScrubTwiceInvocations(db, a, b, mid);
    ScrubTwiceApprovals(db, a, b, mid);
    ScrubTwiceDeliveries(db, a, b, mid);
    ScrubTwiceTasks(db, a, b, mid);
  }

  lemma ScrubNone(db: Db)
    ensures ScrubGraphs(db, {}) == db
  {
    var next := ScrubGraphs(db, {});
    assert next.tasks == db.tasks;
    assert next.artifacts == db.artifacts;
  }

  /** The listed graphs that have no active node. */
  function Safe(db: Db, roots: seq<TaskId>): set<TaskId> {
    set root <- roots | !GraphActive(db, root)
  }

  /** Checks and scrubs one graph after the other, each against the database as the last one left it. */
  method ScrubSafeGraphs(db: Db, roots: seq<TaskId>) returns (tx: Db)
    ensures tx == ScrubGraphs(db, Safe(db, roots))
  {
    tx := db;
    ScrubNone(db);
    for i := 0 to |roots|
      invariant tx == ScrubGraphs(db, Safe(db, roots[..i]))
    {
      ScrubKeepsGraphs(db, Safe(db, roots[..i]), tx);
      ghost var done := Safe(db, roots[..i]);
      if !GraphActive(tx, roots[i]) {
        tx := ScrubContent(tx, roots[i]);
        ScrubTwice(db, done, {roots[i]});
        assert Safe(db, roots[..i + 1]) == done + {roots[i]};
      } else {
        assert Safe(db, roots[..i + 1]) == done;
      }
    }
    assert roots[..|roots|] == roots;
  }

  lemma SafeAreSettled(db: Db, id: ConversationId, roots: seq<TaskId>)
    requires forall root :: root in roots <==>
               exists task :: task in db.tasks && db.tasks[task].fixed.conversation == Some(id) && db.tasks[task].fixed.root == root
    ensures Safe(db, roots) == SettledGraphs(db, id)
  {}

  lemma RetentionIs(db: Db, id: ConversationId, now: int, quiet: Db)
    requires id in db.conversations
    requires quiet == ScrubEvents(db, db.conversations[id].externalKey).(
               turns := map key <- db.turns | db.turns[key].conversation != id :: db.turns[key],
               conversations := db.conversations[id := db.conversations[id].(
                 retained := false, title := NOT_RETAINED_MARKER, updatedAt := now)])
    ensures SetTranscriptRetention(db, id, false, now) == Commit(ScrubGraphs(quiet, SettledGraphs(quiet, id)))
  {}

  /** Turning retention off: turns, title, events, then every finished graph of the conversation. */
  method DisableRetention(db: Db, id: ConversationId, now: int) returns (tx: Db)
    requires id in db.conversations
    ensures Commit(tx) == SetTranscriptRetention(db, id, false, now)
  {
    tx := db.(turns := map key <- db.turns | db.turns[key].conversation != id :: db.turns[key]);
    tx := tx.(conversations := tx.conversations[id := tx.conversations[id].(
      retained := false, title := NOT_RETAINED_MARKER, updatedAt := now)]);
    tx := ScrubEvents(tx, db.conversations[id].externalKey);
    RetentionIs(db, id, now, tx);
    var roots := Listing(set task <- tx.tasks | tx.tasks[task].fixed.conversation == Some(id) :: tx.tasks[task].fixed.root);
    SafeAreSettled(tx, id, roots);
    tx := ScrubSafeGraphs(tx, roots);
  }

  lemma TurningOnChangesNoTask(off: Db, id: ConversationId, now: int, on: Db)
    requires SetTranscriptRetention(off, id, true, now) == Commit(on)
    ensures on == off.(conversations := on.conversations)
    ensures id in on.conversations && on.conversations[id].retained
  {}

  lemma TurningOffErases(db: Db, task: TaskId, id: ConversationId, now: int, off: Db)
    requires SetTranscriptRetention(db, id, false, now) == Commit(off)
    requires task in db.tasks && db.tasks[task].fixed.conversation == Some(id) && !GraphActive(db, db.tasks[task].fixed.root)
    ensures task in off.tasks && off.tasks[task] == db.tasks[task].(content := ErasedContent(NOT_RETAINED_MARKER))
  {
    var quiet := ScrubEvents(db, db.conversations[id].externalKey).(
      turns := map key <- db.turns | db.turns[key].conversation != id :: db.turns[key],
      conversations := db.conversations[id := db.conversations[id].(
        retained := false, title := NOT_RETAINED_MARKER, updatedAt := now)]);
    RetentionIs(db, id, now, quiet);
    assert quiet.tasks == db.tasks && GraphActive(quiet, db.tasks[task].fixed.root) == GraphActive(db, db.tasks[task].fixed.root);
    assert db.tasks[task].fixed.root in SettledGraphs(quiet, id);
  }

  lemma MarkersDiffer()
    ensures NOT_RETAINED_MARKER != EXPIRED_MARKER
  {
    assert NOT_RETAINED_MARKER[1] == 't' && EXPIRED_MARKER[1] == 'e';
  }

  // ---------------------------------------------------------------- privacy reconciliation after a restart

  ghost predicate GraphErased(db: Db, root: TaskId) {
    forall id :: InGraph(db, root, id) ==> db.tasks[id].content == ErasedContent(NOT_RETAINED_MARKER)
  }

  /** Task rows differ in content only, from what they were or to the erased content. */
  ghost predicate OnlyErases(db: Db, next: Db) {
    && next.tasks.Keys == db.tasks.Keys && next.conversations == db.conversations && next.deps == db.deps
    && (forall id :: id in db.tasks ==>
          next.tasks[id] == db.tasks[id]
          || next.tasks[id] == db.tasks[id].(content := ErasedContent(NOT_RETAINED_MARKER)))
  }

  lemma ErasesOn(a: Db, b: Db, c: Db)
    requires OnlyErases(a, b) && OnlyErases(b, c)
    ensures OnlyErases(a, c)
  {}

  lemma ErasingKeepsStanding(db: Db, next: Db, root: TaskId)
    requires OnlyErases(db, next)
    ensures NotRetained(next, root) == NotRetained(db, root)
    ensures GraphActive(next, root) == GraphActive(db, root)
    ensures GraphErased(db, root) ==> GraphErased(next, root)
  {
    if GraphActive(db, root) {
      var id :| id in db.tasks && db.tasks[id].fixed.root == root && !db.tasks[id].status.Terminal();
      assert id in next.tasks && next.tasks[id].fixed.root == root && !next.tasks[id].status.Terminal();
    }
    if GraphErased(db, root) {
      forall id | InGraph(next, root, id) ensures next.tasks[id].content == ErasedContent(NOT_RETAINED_MARKER) {
        assert InGraph(db, root, id);
      }
    }
  }

  lemma ScrubErases(db: Db, root: TaskId, next: Db)
    requires next == ScrubTerminalTaskGraph(db, root)
    ensures OnlyErases(db, next)
    ensures NotRetained(db, root) && !GraphActive(db, root) ==> GraphErased(next, root)
  {
    if NotRetained(db, root) && !GraphActive(db, root) {
      var quiet := ScrubEvents(db, db.conversations[db.tasks[root].fixed.conversation.value].externalKey);
      assert quiet.tasks == db.tasks;
      assert next == ScrubGraphs(quiet, {root});
      assert next.tasks.Keys == db.tasks.Keys;
    }
  }

  /** The roots the reconciliation query lists. */
  function Listed(db: Db): set<TaskId> {
    set id <- db.tasks
      | (var conversation := db.tasks[id].fixed.conversation;
         conversation.Some? && conversation.value in db.conversations && !db.conversations[conversation.value].retained)
        && !GraphActive(db, db.tasks[id].fixed.root)
      :: db.tasks[id].fixed.root
  }

  lemma FinishedAreListed(db: Db, root: TaskId)
    requires NotRetained(db, root) && !GraphActive(db, root) && db.tasks[root].fixed.root == root
    ensures root in Listed(db)
  {}

  /** One transaction per listed graph; afterwards no finished graph of an unretained conversation has content. */
  method ReconcileErasure(db: Db) returns (tx: Db)
    ensures OnlyErases(db, tx)
    ensures forall root :: NotRetained(db, root) && !GraphActive(db, root) && db.tasks[root].fixed.root == root ==>
              GraphErased(tx, root)
  {
    tx := db;
    var roots := Listing(Listed(db));
    for i := 0 to |roots|
      invariant OnlyErases(db, tx)
      invariant forall j :: 0 <= j < i && NotRetained(db, roots[j]) && !GraphActive(db, roots[j]) ==> GraphErased(tx, roots[j])
    {
      ghost var before := tx;
      ErasingKeepsStanding(db, before, roots[i]);
      tx := ScrubOne(tx, roots[i]);
      ScrubErases(before, roots[i], tx);
      ErasesOn(db, before, tx);
      forall j | 0 <= j < i && NotRetained(db, roots[j]) && !GraphActive(db, roots[j]) ensures GraphErased(tx, roots[j]) {
        ErasingKeepsStanding(before, tx, roots[j]);
      }
    }
    forall root | NotRetained(db, root) && !GraphActive(db, root) && db.tasks[root].fixed.root == root
      ensures GraphErased(tx, root)
    {
      FinishedAreListed(db, root);
      assert root in roots;
    }
  }

  method ScrubOne(db: Db, root: TaskId) returns (tx: Db)
    ensures tx == ScrubTerminalTaskGraph(db, root)
  {
    if !NotRetained(db, root) || GraphActive(db, root) {
      return db;
    }
    tx := ScrubEvents(db, db.conversations[db.tasks[root].fixed.conversation.value].externalKey);
    tx := ScrubContent(tx, root);
  }
}
