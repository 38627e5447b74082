/**
 Exact recovery: the four recovery updates, run one after the other, split the interrupted tasks
 between them.
 */
module Restart {
  import opened Model
  import opened Transactions

  function Interrupted(db: Db): set<TaskId> {
    set id <- db.tasks | db.tasks[id].status.InFlight()
  }

  /** The tasks that one of the four updates takes. */
  function Taken(db: Db, update: Recovery): set<TaskId> {
    set id <- db.tasks | RecoveryOf(db, id) == update
  }

  lemma FourParts(a: set<TaskId>, b: set<TaskId>, c: set<TaskId>, d: set<TaskId>)
    requires a !! b && (a + b) !! c && (a + b + c) !! d
    ensures |a + b + c + d| == |a| + |b| + |c| + |d|
  {}

  function Sorted(kinds: map<TaskId, Recovery>, update: Recovery): set<TaskId> {
    set id <- kinds | kinds[id] == update
  }

  lemma SortedPartition(kinds: map<TaskId, Recovery>, touched: set<TaskId>)
    requires touched == set id <- kinds | !kinds[id].Untouched?
    ensures |Sorted(kinds, Uncertain)| + |Sorted(kinds, StoppedByUser)| + |Sorted(kinds, OutOfRetries)|
            + |Sorted(kinds, BackToQueue)| == |touched|
  {
    var a, b, c, d := Sorted(kinds, Uncertain), Sorted(kinds, StoppedByUser), Sorted(kinds, OutOfRetries), Sorted(kinds, BackToQueue);
    assert touched == a + b + c + d;
    FourParts(a, b, c, d);
  }

  lemma TakenIsSorted(db: Db, kinds: map<TaskId, Recovery>, update: Recovery)
    requires kinds == map id <- db.tasks :: RecoveryOf(db, id)
    ensures Taken(db, update) == Sorted(kinds, update)
  {}

  lemma TouchedAreInterrupted(db: Db, kinds: map<TaskId, Recovery>)
    requires kinds == map id <- db.tasks :: RecoveryOf(db, id)
    ensures Interrupted(db) == set id <- kinds | !kinds[id].Untouched?
  {
    forall id | id in db.tasks ensures kinds[id].Untouched? <==> !db.tasks[id].status.InFlight() {}
  }

  /** Every interrupted task is taken by exactly one of the four updates. */
  lemma TakenPartition(db: Db)
    ensures |Taken(db, Uncertain)| + |Taken(db, StoppedByUser)| + |Taken(db, OutOfRetries)| + |Taken(db, BackToQueue)|
            == |Interrupted(db)|
  {
    var kinds := map id <- db.tasks :: RecoveryOf(db, id);
    TakenIsSorted(db, kinds, Uncertain);
    TakenIsSorted(db, kinds, StoppedByUser);
    TakenIsSorted(db, kinds, OutOfRetries);
    TakenIsSorted(db, kinds, BackToQueue);
    TouchedAreInterrupted(db, kinds);
    SortedPartition(kinds, Interrupted(db));
  }

  /** As many started invocations as tasks that have one. */
  lemma {:induction false} InvocationsCoverTasks(invocations: map<string, Invocation>, ids: set<TaskId>, keys: set<string>)
    requires forall id :: id in ids ==> exists key :: key in keys && key in invocations && invocations[key].task == id
    ensures |ids| <= |keys|
    decreases |ids|
  {
    if ids != {} {
      var id :| id in ids;
      var key :| key in keys && key in invocations && invocations[key].task == id;
      forall other | other in ids - {id}
        ensures exists k :: k in keys - {key} && k in invocations && invocations[k].task == other
      {
        var k :| k in keys && k in invocations && invocations[k].task == other;
        assert k in keys - {key};
      }
      InvocationsCoverTasks(invocations, ids - {id}, keys - {key});
    }
  }

  lemma RecoveredIsSettled(db: Db, now: int, id: TaskId)
    requires id in db.tasks
    ensures !RecoveredRow(db.tasks[id], RecoveryOf(db, id), now).status.InFlight()
  {}

  /** Nothing is left in flight. */
  lemma NoneLeft(db: Db, now: int)
    ensures Interrupted(RecoverInterruptedTasks(db, now)) == {}
  {
    var next := RecoverInterruptedTasks(db, now);
    forall id | id in next.tasks ensures !next.tasks[id].status.InFlight() {
      RecoveredIsSettled(db, now, id);
    }
  }

  /** A second recovery, whenever it comes, finds nothing to do and changes no task. */
  lemma SecondRecoveryIsIdle(db: Db, now: int, later: int)
    ensures var once := RecoverInterruptedTasks(db, now);
            Interrupted(once) == {} && RecoverInterruptedTasks(once, later).tasks == once.tasks
  {
    var once := RecoverInterruptedTasks(db, now);
    NoneLeft(db, now);
    forall id | id in once.tasks ensures RecoveryOf(once, id) == Untouched {
      assert id !in Interrupted(once);
    }
  }
}
