/**
 At-most-once execution: whatever the interleaving of workers, cancellations, retries, crashes and
 restarts, no task's command is launched twice.
 */
module Execution {
  import opened Model
  import opened Transactions
  import opened Evolution
  import opened Runtime
  import opened Growth
  import opened Invariants

  predicate Launched(s: Sys, id: TaskId) {
    exists i :: 0 <= i < |s.past.launches| && s.past.launches[i].task == id
  }

  predicate OnRecord(s: Sys, id: TaskId) {
    InvocationKey(id) in s.db.invocations
  }

  /** A worker about to launch has a record of its own, and nobody launched this task before. */
  ghost predicate Ready(s: Sys, held: Worker) {
    held.Launching? ==> OnRecord(s, held.id) && !Launched(s, held.id)
  }

  /** The invocation record comes before the launch and outlives it. */
  ghost predicate Recorded(s: Sys) {
    && (forall i :: 0 <= i < |s.past.launches| ==> OnRecord(s, s.past.launches[i].task))
    && (forall i, j :: 0 <= i < j < |s.past.launches| ==> s.past.launches[i].task != s.past.launches[j].task)
    && (forall w :: w in s.workers ==> Ready(s, s.workers[w]))
  }

  /** Nothing was launched, no record was lost, and nobody became ready to launch. */
  ghost predicate LaunchesNothing(s: Sys, t: Sys) {
    && t.past.launches == s.past.launches
    && (forall key :: key in s.db.invocations ==> key in t.db.invocations)
    && (forall w :: w in t.workers && t.workers[w].Launching? ==> w in s.workers && s.workers[w] == t.workers[w])
  }

  lemma QuietKeepsRecorded(s: Sys, t: Sys)
    requires Recorded(s) && LaunchesNothing(s, t)
    ensures Recorded(t)
  {
    forall id | Launched(t, id) ensures Launched(s, id) {}
    forall w | w in t.workers ensures Ready(t, t.workers[w]) {
      if t.workers[w].Launching? {
        assert Ready(s, s.workers[w]);
      }
    }
  }

  /** Recording is refused when the task has a record: this is where duplicates stop. */
  lemma RecordingKeepsRecorded(s: Sys, worker: nat, input: string, t: Sys)
    requires Recorded(s) && worker in s.workers && t == DoShellStarts(s, worker, input)
    ensures Recorded(t)
  {
    var held := s.workers[worker];
    if LaunchAllowed(held, input) && StartToolInvocation(s.db, held.id, input).Commit? {
      assert t.workers == s.workers[worker := Launching(held.id, held.row, input)];
      assert !OnRecord(s, held.id);
      forall w | w in t.workers ensures Ready(t, t.workers[w]) {
        if w != worker {
          assert Ready(s, s.workers[w]);
        }
      }
    } else {
      QuietKeepsRecorded(s, t);
    }
  }

  lemma SpawningKeepsRecorded(s: Sys, worker: nat, t: Sys)
    requires Owned(s.db, s.workers) && Recorded(s) && t == DoSpawn(s, worker)
    ensures Recorded(t)
  {
    if worker in s.workers && s.workers[worker].Launching? {
      var held := s.workers[worker];
      assert Ready(s, held);
      assert t.past.launches == s.past.launches + [Launch(held.id, held.input, DryRun(held.row.content.input))];
      forall w | w in t.workers ensures Ready(t, t.workers[w]) {
        if w != worker {
          assert Ready(s, s.workers[w]) && s.workers[w].id != held.id;
        }
      }
    }
  }

  lemma SettlingLaunchesNothing(s: Sys, worker: nat, route: Option<(string, DeliveryStatus)>, now: int, t: Sys)
    requires worker in s.workers && t == DoSettle(s, worker, route, now)
    ensures t.past.launches == s.past.launches
    ensures t != s && worker in t.workers ==> !t.workers[worker].Launching?
  {
    if s.workers[worker].Finishing? {
      SettleShape(s, worker, route, now, t);
      if s.workers[worker].action.Complete? {
        assert t == SettleComplete(s, worker, route, now);
      } else {
        assert t == SettleOther(s, worker, now);
      }
    }
  }

  lemma OtherJobsLaunchNothing(s: Sys, worker: nat, job: Job, t: Sys)
    requires t == Toil(s, worker, job) && !job.ShellStarts? && !job.Spawn?
    ensures t.past.launches == s.past.launches
    ensures t != s && worker in t.workers ==> !t.workers[worker].Launching?
  {
    match job
    case Claim(id) =>
    case Begin(now) =>
    case ReadBack =>
    case AgentReturns(action) =>
    case ShellRefuses(reason, timedOut) =>
    case ShellReturns(output, failure, now) =>
    case Settle(route, now) =>
      if worker in s.workers {
        SettlingLaunchesNothing(s, worker, route, now, t);
      }
  }

  lemma JobKeepsRecorded(s: Sys, worker: nat, job: Job, t: Sys)
    requires Sound(s) && Recorded(s) && t == Toil(s, worker, job)
    ensures Recorded(t)
  {
    if job.ShellStarts? {
      if worker in s.workers {
        RecordingKeepsRecorded(s, worker, job.input, t);
      }
    } else if job.Spawn? {
      SpawningKeepsRecorded(s, worker, t);
    } else if t != s {
      OtherJobsLaunchNothing(s, worker, job, t);
      WorkerSteps(s, worker, job, t);
      OthersUnmoved(s, t, worker);
      QuietKeepsRecorded(s, t);
    }
  }

  lemma OthersUnmoved(s: Sys, t: Sys, worker: nat)
    requires t.workers - {worker} == s.workers - {worker}
    ensures forall w :: w in t.workers && w != worker ==> w in s.workers && s.workers[w] == t.workers[w]
  {
    forall w | w in t.workers && w != worker ensures w in s.workers && s.workers[w] == t.workers[w] {
      assert w in t.workers - {worker} && (t.workers - {worker})[w] == t.workers[w];
    }
  }

  /** Creating work launches nothing, and no record is lost on the way. */
  lemma CreationKeepsRecorded(s: Sys, step: Step, t: Sys)
    requires Sound(s) && Recorded(s) && Creates(step) && t == Next(s, step)
    ensures Recorded(t)
  {
    BoundIsGated(s.db);
    StepEvolves(s, step, t);
    var mid :| Advances(s.db, mid, t.db, RetriedBy(s, step));
    CreationIsQuiet(s, step, t);
    QuietKeepsRecorded(s, t);
  }

  lemma CreationIsQuiet(s: Sys, step: Step, t: Sys)
    requires Creates(step) && t == Next(s, step)
    ensures t.past.launches == s.past.launches && t.past.claims == s.past.claims && t.past.answers == s.past.answers
    ensures t.workers == s.workers
  {
    match step
    case Ask(id, record, apply, turn, rows) =>
    case RunShell(id, row, gated, expiresAt) =>
  }

  lemma StepKeepsRecorded(s: Sys, step: Step, t: Sys)
    requires Sound(s) && Recorded(s) && t == Next(s, step)
    ensures Recorded(t)
  {
    match step
    case Work(worker, job) => JobKeepsRecorded(s, worker, job, t);
    case Control(command) =>
      CommandSteps(s, command, t);
      QuietKeepsRecorded(s, t);
    case Recover(now) =>
      RecoverStep(s, now, t);
      QuietKeepsRecorded(s, t);
    case Crash => QuietKeepsRecorded(s, t);
    case Ask(_, _, _, _, _) => CreationKeepsRecorded(s, step, t);
    case RunShell(_, _, _, _) => CreationKeepsRecorded(s, step, t);
  }

  lemma {:induction false} RunIsRecorded(steps: seq<Step>)
    ensures Recorded(Run(START, steps))
    decreases |steps|
  {
    if steps != [] {
      var prefix := steps[..|steps| - 1];
      RunIsRecorded(prefix);
      RunIsSound(prefix);
      StepKeepsRecorded(Run(START, prefix), steps[|steps| - 1], Run(START, steps));
    }
  }

  /** Over every run, each task's command is launched at most once, and never without a record. */
  lemma AtMostOnce(steps: seq<Step>, i: nat, j: nat)
    requires i < |Run(START, steps).past.launches| && j < |Run(START, steps).past.launches|
    requires Run(START, steps).past.launches[i].task == Run(START, steps).past.launches[j].task
    ensures i == j && OnRecord(Run(START, steps), Run(START, steps).past.launches[i].task)
  {
    RunIsRecorded(steps);
  }
}
