/**
 No scheduling deadlock: while work is left and all of it is queued, the claim query finds a task.
 */
module Scheduling {
  import opened Model
  import opened Transactions
  import opened Runtime
  import opened Growth
  import opened Invariants

  /** Each task depends on the next one. */
  ghost predicate Chain(deps: set<(TaskId, TaskId)>, walk: seq<TaskId>) {
    forall i :: 0 <= i < |walk| - 1 ==> (walk[i], walk[i + 1]) in deps
  }

  ghost predicate Acyclic(deps: set<(TaskId, TaskId)>) {
    forall walk: seq<TaskId> :: |walk| >= 2 && Chain(deps, walk) ==> walk[0] != walk[|walk| - 1]
  }

  predicate Unfinished(db: Db, id: TaskId) {
    id in db.tasks && !db.tasks[id].status.Terminal()
  }

  // ---------------------------------------------------------------- a dead end in every acyclic graph

  lemma {:induction false} Pigeonhole(items: seq<TaskId>, holes: set<TaskId>)
    requires |items| > |holes| && forall i :: 0 <= i < |items| ==> items[i] in holes
    ensures exists i, j :: 0 <= i < j < |items| && items[i] == items[j]
    decreases |items|
  {
    var last, rest := items[|items| - 1], items[..|items| - 1];
    if i :| 0 <= i < |rest| && rest[i] == last {
      assert items[i] == items[|items| - 1];
    } else {
      Pigeonhole(rest, holes - {last});
      var i, j :| 0 <= i < j < |rest| && rest[i] == rest[j];
      assert items[i] == items[j];
    }
  }

  /** The task depends on nobody in the set. */
  ghost predicate DeadEnd(deps: set<(TaskId, TaskId)>, within: set<TaskId>, id: TaskId) {
    forall dep :: dep in within ==> (id, dep) !in deps
  }

  /** If nobody in the set is a dead end, chains inside the set are as long as one likes. */
  lemma {:induction false} LongChain(deps: set<(TaskId, TaskId)>, within: set<TaskId>, length: nat) returns (walk: seq<TaskId>)
    requires length >= 1 && within != {}
    requires forall id :: id in within ==> !DeadEnd(deps, within, id)
    ensures |walk| == length && Chain(deps, walk)
    ensures forall i :: 0 <= i < |walk| ==> walk[i] in within
    decreases length
  {
    if length == 1 {
      var id :| id in within;
      walk := [id];
    } else {
      var shorter := LongChain(deps, within, length - 1);
      assert !DeadEnd(deps, within, shorter[|shorter| - 1]);
      var dep :| dep in within && (shorter[|shorter| - 1], dep) in deps;
      walk := shorter + [dep];
    }
  }

  lemma ChainSlice(deps: set<(TaskId, TaskId)>, walk: seq<TaskId>, i: nat, j: nat)
    requires Chain(deps, walk) && i <= j < |walk|
    ensures Chain(deps, walk[i..j + 1])
  {
    var slice := walk[i..j + 1];
    forall k | 0 <= k < |slice| - 1 ensures (slice[k], slice[k + 1]) in deps {
      assert slice[k] == walk[i + k] && slice[k + 1] == walk[i + k + 1];
    }
  }

  lemma LongChainsLoop(deps: set<(TaskId, TaskId)>, within: set<TaskId>, walk: seq<TaskId>)
    requires Chain(deps, walk) && |walk| > |within| && forall i :: 0 <= i < |walk| ==> walk[i] in within
    ensures !Acyclic(deps)
  {
    Pigeonhole(walk, within);
    var i, j :| 0 <= i < j < |walk| && walk[i] == walk[j];
    ChainSlice(deps, walk, i, j);
    var circle := walk[i..j + 1];
    assert circle[0] == circle[|circle| - 1];
  }

  lemma AcyclicHasDeadEnd(deps: set<(TaskId, TaskId)>, within: set<TaskId>)
    requires Acyclic(deps) && within != {}
    ensures exists id :: id in within && DeadEnd(deps, within, id)
  {
    if forall id :: id in within ==> !DeadEnd(deps, within, id) {
      var walk := LongChain(deps, within, |within| + 1);
      LongChainsLoop(deps, within, walk);
    }
  }

  // ---------------------------------------------------------------- the claim query

  /** The order of the claim query has a first element in every non-empty set. */
  lemma {:induction false} FirstInLine(db: Db, ids: set<TaskId>) returns (first: TaskId)
    requires ids != {} && ids <= db.tasks.Keys
    ensures first in ids && forall id :: id in ids ==> NoLaterThan(db.tasks[first], db.tasks[id])
    decreases |ids|
  {
    var id :| id in ids;
    var rest := ids - {id};
    if rest == {} {
      first := id;
      assert ids == {id};
    } else {
      var other := FirstInLine(db, rest);
      first := if NoLaterThan(db.tasks[id], db.tasks[other]) then id else other;
      forall third | third in ids ensures NoLaterThan(db.tasks[first], db.tasks[third]) {
        assert third == id || third in rest;
      }
    }
  }

  /** The query finds a task exactly when some task is claimable. */
  lemma ClaimFinds(db: Db, id: TaskId)
    requires Claimable(db, id)
    ensures exists first :: NextInLine(db, first)
  {
    var ids := set other | other in db.tasks && Claimable(db, other);
    assert id in ids;
    var first := FirstInLine(db, ids);
    assert NextInLine(db, first);
  }

  lemma DeadEndIsClaimable(db: Db, within: set<TaskId>, id: TaskId)
    requires within == set other | other in db.tasks && Unfinished(db, other)
    requires id in within && DeadEnd(db.deps, within, id)
    requires db.tasks[id].status.Queued? && !db.tasks[id].dismissed
    ensures Claimable(db, id)
  {
    forall dep | dep in db.deps && dep.0 == id && dep.1 in db.tasks ensures db.tasks[dep.1].status.Terminal() {
      assert dep == (id, dep.1);
    }
  }

  /**
   For every acyclic dependency graph: if some task is unfinished and all unfinished tasks are
   queued, the claim query finds a task.
   */
  lemma NoDeadlock(db: Db, id: TaskId)
    requires Acyclic(db.deps)
    requires forall other :: other in db.tasks && db.tasks[other].dismissed ==> db.tasks[other].status.Terminal()
    requires Unfinished(db, id)
    requires forall other :: Unfinished(db, other) ==> db.tasks[other].status.Queued?
    ensures exists first :: NextInLine(db, first) && ClaimTask(db, first).Commit?
  {
    var within := set other | other in db.tasks && Unfinished(db, other);
    assert id in within;
    AcyclicHasDeadEnd(db.deps, within);
    var free :| free in within && DeadEnd(db.deps, within, free);
    DeadEndIsClaimable(db, within, free);
    ClaimFinds(db, free);
    var first :| NextInLine(db, first);
    assert ClaimTask(db, first).Commit?;
  }

  // ---------------------------------------------------------------- reachable states

  lemma StarsAreAcyclic(db: Db)
    requires Structured(db)
    ensures Acyclic(db.deps)
  {
    forall walk: seq<TaskId> | |walk| >= 2 && Chain(db.deps, walk) ensures walk[0] != walk[|walk| - 1] {
      var first := (walk[0], walk[1]);
      assert WellLinked(db, first.0, first.1);
      assert WellPlaced(db, walk[1]);
      assert |walk| > 2 ==> WellLinked(db, (walk[1], walk[2]).0, (walk[1], walk[2]).1);
    }
  }

  lemma ClaimSucceeds(s: Sys, worker: nat, id: TaskId)
    requires s.up && worker !in s.workers && ClaimTask(s.db, id).Commit?
    ensures Takes(s, worker, id)
  {}

  predicate Takes(s: Sys, worker: nat, id: TaskId) {
    worker in DoClaim(s, worker, id).workers && DoClaim(s, worker, id).workers[worker].id == id
  }

  ghost predicate AllQueued(db: Db) {
    forall other :: Unfinished(db, other) ==> db.tasks[other].status.Queued?
  }

  lemma SoundGoesOn(s: Sys, id: TaskId, worker: nat)
    requires Sound(s) && s.up && worker !in s.workers && Unfinished(s.db, id) && AllQueued(s.db)
    ensures exists first :: Takes(s, worker, first)
  {
    StarsAreAcyclic(s.db);
    NoDeadlock(s.db, id);
    var first :| NextInLine(s.db, first) && ClaimTask(s.db, first).Commit?;
    ClaimSucceeds(s, worker, first);
  }

  /** In every reachable state the daemon can go on: an idle worker has something to claim. */
  lemma QueuedWorkIsClaimed(steps: seq<Step>, id: TaskId, worker: nat)
    requires var s := Run(START, steps); s.up && worker !in s.workers && Unfinished(s.db, id) && AllQueued(s.db)
    ensures exists first :: Takes(Run(START, steps), worker, first)
  {
    RunIsSound(steps);
    SoundGoesOn(Run(START, steps), id, worker);
  }
}
