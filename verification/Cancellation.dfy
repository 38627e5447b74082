/**
 Irrevocable cancellation: once a graph is cancelled, nothing but an explicit retry of that graph
 makes any of its nodes run again.
 */
module Cancellation {
  import opened Model
  import opened Transactions
  import opened Evolution
  import opened Runtime
  import opened Growth
  import opened Invariants
  import opened BoundedWork

  predicate Stopping(status: Status) {
    status.Terminal() || status.CancelRequested?
  }

  /** Every node has ended or was told to, and no approval of the graph can still be granted. */
  ghost predicate Settled(db: Db, root: TaskId) {
    && root in db.tasks
    && (forall id :: InGraph(db, root, id) ==> Stopping(db.tasks[id].status))
    && (forall key :: key in db.approvals && InGraph(db, root, db.approvals[key].task) ==>
          !db.approvals[key].status.Pending?)
  }

  lemma CancelSettles(db: Db, id: TaskId, now: int, next: Db)
    requires CancelTaskGraph(db, id, now) == Commit(next) && db.tasks[id].fixed.root in db.tasks
    ensures Settled(next, db.tasks[id].fixed.root)
  {
    var root := db.tasks[id].fixed.root;
    assert next.tasks.Keys == db.tasks.Keys;
    forall other | InGraph(next, root, other) ensures Stopping(next.tasks[other].status) {
      assert next.tasks[other] == CancelledRow(db.tasks[other], now);
    }
  }

  lemma StoppingRow(a: Task, b: Task)
    requires RowEvolves(a, b) && Stopping(a.status) && !Revives(a, b)
    ensures Stopping(b.status) && !Claims(a, b)
  {}

  lemma EvolvingKeepsSettled(db: Db, next: Db, retried: Option<TaskId>, root: TaskId)
    requires Settled(db, root) && Evolves(db, next, retried) && retried != Some(root)
    ensures Settled(next, root)
  {
    forall id | InGraph(next, root, id) ensures Stopping(next.tasks[id].status) {
      assert RowEvolves(db.tasks[id], next.tasks[id]) && InGraph(db, root, id);
      assert !Revives(db.tasks[id], next.tasks[id]);
      StoppingRow(db.tasks[id], next.tasks[id]);
    }
    forall key | key in next.approvals && InGraph(next, root, next.approvals[key].task)
      ensures !next.approvals[key].status.Pending?
    {
      assert ApprovalEvolves(db.approvals[key], next.approvals[key]);
      assert RowEvolves(db.tasks[next.approvals[key].task], next.tasks[next.approvals[key].task]);
    }
  }

  lemma GrowingKeepsSettled(db: Db, next: Db, root: TaskId)
    requires Settled(db, root) && Grows(db, next)
    ensures Settled(next, root)
  {
    forall id | id in next.tasks && id !in db.tasks ensures next.tasks[id].fixed.root != root {
      assert NewNode(db, next, id);
    }
    forall key | key in next.approvals && key !in db.approvals ensures !InGraph(next, root, next.approvals[key].task) {
      assert NewApproval(db, next, key);
    }
  }

  lemma StepKeepsSettled(s: Sys, step: Step, t: Sys, root: TaskId)
    requires Sound(s) && t == Next(s, step) && Settled(s.db, root) && RetriedBy(s, step) != Some(root)
    ensures Settled(t.db, root)
  {
    BoundIsGated(s.db);
    StepEvolves(s, step, t);
    var mid :| Advances(s.db, mid, t.db, RetriedBy(s, step));
    EvolvingKeepsSettled(s.db, mid, RetriedBy(s, step), root);
    if t.db != mid {
      GrowingKeepsSettled(mid, t.db, root);
    }
  }

  lemma StepClaimsNobody(s: Sys, step: Step, t: Sys, root: TaskId, id: TaskId)
    requires Sound(s) && t == Next(s, step) && Settled(s.db, root) && InGraph(s.db, root, id)
    ensures t.past.claims[id] == s.past.claims[id]
  {
    StepClaims(s, step, t);
    assert Stopping(s.db.tasks[id].status);
  }

  /** No step of the continuation retries the graph. */
  ghost predicate NeverRetried(before: seq<Step>, later: seq<Step>, root: TaskId) {
    forall k :: 0 <= k < |later| ==> RetriedBy(Run(START, before + later[..k]), later[k]) != Some(root)
  }

  lemma NeverRetriedPrefix(before: seq<Step>, later: seq<Step>, root: TaskId)
    requires later != [] && NeverRetried(before, later, root)
    ensures var prefix := later[..|later| - 1];
            && NeverRetried(before, prefix, root)
            && (before + later)[..|before + later| - 1] == before + prefix
            && RetriedBy(Run(START, before + prefix), later[|later| - 1]) != Some(root)
  {
    var prefix := later[..|later| - 1];
    forall k | 0 <= k < |prefix| ensures RetriedBy(Run(START, before + prefix[..k]), prefix[k]) != Some(root) {
      assert prefix[..k] == later[..k] && prefix[k] == later[k];
    }
  }

  lemma {:induction false} SettledForGood(before: seq<Step>, later: seq<Step>, root: TaskId, id: TaskId)
    requires Settled(Run(START, before).db, root) && InGraph(Run(START, before).db, root, id)
    requires NeverRetried(before, later, root)
    ensures var s := Run(START, before + later);
            && Settled(s.db, root) && InGraph(s.db, root, id)
            && s.past.claims[id] == Run(START, before).past.claims[id]
    decreases |later|
  {
    if later == [] {
      assert before + later == before;
    } else {
      var prefix := later[..|later| - 1];
      NeverRetriedPrefix(before, later, root);
      SettledForGood(before, prefix, root, id);
      RunIsSound(before + prefix);
      SettledStep(Run(START, before + prefix), later[|later| - 1], Run(START, before + later), root, id);
    }
  }

  lemma SettledStep(s: Sys, step: Step, t: Sys, root: TaskId, id: TaskId)
    requires Sound(s) && t == Next(s, step) && Settled(s.db, root) && InGraph(s.db, root, id)
    requires RetriedBy(s, step) != Some(root)
    ensures Settled(t.db, root) && InGraph(t.db, root, id) && t.past.claims[id] == s.past.claims[id]
  {
    StepKeepsSettled(s, step, t, root);
    StepClaimsNobody(s, step, t, root, id);
    StepSpendsBudget(s, step, t, id);
  }

  /**
   From the moment a graph is cancelled, in every continuation without an explicit retry of it, all
   its nodes stay terminal or asked to stop, none is claimed again and none of its approvals is
   pending; agent errors and restart recovery included.
   */
  lemma CancellationIsIrrevocable(before: seq<Step>, id: TaskId, now: int, later: seq<Step>, node: TaskId)
    requires id in Run(START, before).db.tasks
    requires var root := Run(START, before).db.tasks[id].fixed.root;
             && InGraph(Run(START, before).db, root, node)
             && NeverRetried(before + [Control(CancelGraph(id, now))], later, root)
    ensures var root := Run(START, before).db.tasks[id].fixed.root;
            var s := Run(START, before + [Control(CancelGraph(id, now))] + later);
            && Settled(s.db, root) && InGraph(s.db, root, node) && Stopping(s.db.tasks[node].status)
            && s.past.claims[node] == Run(START, before).past.claims[node]
  {
    var s := Run(START, before);
    var root := s.db.tasks[id].fixed.root;
    RunIsSound(before);
    var cancelled := before + [Control(CancelGraph(id, now))];
    assert cancelled[..|cancelled| - 1] == before;
    CancelStep(s, id, now, Run(START, cancelled), node);
    SettledForGood(cancelled, later, root, node);
  }

  lemma CancelStep(s: Sys, id: TaskId, now: int, t: Sys, node: TaskId)
    requires Sound(s) && id in s.db.tasks && t == Obey(s, CancelGraph(id, now))
    requires InGraph(s.db, s.db.tasks[id].fixed.root, node)
    ensures Settled(t.db, s.db.tasks[id].fixed.root) && InGraph(t.db, s.db.tasks[id].fixed.root, node)
    ensures t.past.claims == s.past.claims
  {
    assert WellPlaced(s.db, id);
    CancelSettles(s.db, id, now, t.db);
    CommandEvolves(s.db, CancelGraph(id, now), t.db);
    assert RowEvolves(s.db.tasks[node], t.db.tasks[node]);
  }
}
