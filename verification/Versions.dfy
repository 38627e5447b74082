/**
 A version means a row: optimistic concurrency on the version column is sound, although two
 statements rewrite content without touching the version.
 */
module Versions {
  import opened Model
  import opened Transactions
  import opened Evolution
  import opened Runtime
  import opened Growth
  import opened Invariants

  /** Versions never go back, and while the version stands the row stands, or was erased after its end. */
  predicate Follows(a: Task, b: Task) {
    a.version <= b.version && (a.version == b.version ==> a == b || Erased(a, b))
  }

  lemma FollowsOn(a: Task, b: Task, c: Task)
    requires Follows(a, b) && RowEvolves(b, c)
    ensures Follows(a, c)
  {}

  lemma StepFollows(s: Sys, step: Step, t: Sys, id: TaskId, first: Task)
    requires Sound(s) && t == Next(s, step) && id in s.db.tasks && Follows(first, s.db.tasks[id])
    ensures id in t.db.tasks && Follows(first, t.db.tasks[id])
  {
    BoundIsGated(s.db);
    StepRow(s, step, t, id);
    FollowsOn(first, s.db.tasks[id], t.db.tasks[id]);
  }

  lemma {:induction false} RunFollows(before: seq<Step>, later: seq<Step>, id: TaskId)
    requires id in Run(START, before).db.tasks
    ensures id in Run(START, before + later).db.tasks
    ensures Follows(Run(START, before).db.tasks[id], Run(START, before + later).db.tasks[id])
    decreases |later|
  {
    if later == [] {
      assert before + later == before;
    } else {
      RunFollows(before, later[..|later| - 1], id);
      var s, t := LastStep(before, later);
      StepFollows(s, later[|later| - 1], t, id, Run(START, before).db.tasks[id]);
    }
  }

  /**
   Two points of a run at which a task has the same version: if it has not ended at either of them
   the whole row is the same, and if it has, nothing but its content can have been erased.
   */
  lemma VersionMeansRow(before: seq<Step>, later: seq<Step>, id: TaskId)
    requires id in Run(START, before).db.tasks && id in Run(START, before + later).db.tasks
    requires Run(START, before).db.tasks[id].version == Run(START, before + later).db.tasks[id].version
    ensures var a, b := Run(START, before).db.tasks[id], Run(START, before + later).db.tasks[id];
            && b == a.(content := b.content)
            && (!a.status.Terminal() || !b.status.Terminal() ==> a == b)
  {
    RunFollows(before, later, id);
  }

  /** Starting succeeds exactly when the claimed row is still in the store, unchanged in every column. */
  lemma StartsTheClaimedRow(steps: seq<Step>, worker: nat, now: int)
    requires var s := Run(START, steps); worker in s.workers && s.workers[worker].Claimed?
    ensures var s := Run(START, steps);
            var held := s.workers[worker];
            && held.id in s.db.tasks
            && (StartTask(s.db, held.id, held.row.version, now).Commit? <==>
                  s.db.tasks[held.id] == held.row && held.row.status.Assigned?)
  {
    RunIsSound(steps);
    var s := Run(START, steps);
    assert Holds(s.workers[worker], s.db.tasks[s.workers[worker].id]);
  }
}
