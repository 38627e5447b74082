/**
 Bounded work: a task can change status only finitely often, and is claimed at most once per
 attempt, over any run with any number of restarts.
 */
module BoundedWork {
  import opened Model
  import opened Transactions
  import opened Evolution
  import opened Runtime
  import opened Growth
  import opened Invariants
  import opened Execution
  import opened Consents

  /** How far the status is from the end of the attempt. */
  function Rank(status: Status): nat {
    match status
    case Created => 5
    case Blocked => 5
    case WaitingForApproval => 5
    case Queued => 4
    case Assigned => 3
    case Running => 2
    case WaitingForChildren => 2
    case CancelRequested => 1
    case _ => 0
  }

  const RANKS := 6

  function Budget(row: Task): nat
    requires row.retryCount <= row.fixed.maxRetries
  {
    (row.fixed.maxRetries - row.retryCount) * RANKS + Rank(row.status)
  }

  /** Every change of status spends budget, and nothing ever gives any back. */
  lemma BudgetSpent(a: Task, b: Task)
    requires RowEvolves(a, b) && a.retryCount <= a.fixed.maxRetries
    ensures b.retryCount <= b.fixed.maxRetries
    ensures if b.status != a.status then Budget(b) < Budget(a) else Budget(b) == Budget(a)
  {
    if Moved(a, b) && NewAttempt(a, b) {
      assert b.fixed.maxRetries - b.retryCount == a.fixed.maxRetries - a.retryCount - 1;
    }
  }

  predicate Changes(db: Db, next: Db, id: TaskId) {
    id in db.tasks && id in next.tasks && db.tasks[id].status != next.tasks[id].status
  }

  /** The pair (retries left, rank) drops lexicographically with every status change of every step. */
  lemma StepSpendsBudget(s: Sys, step: Step, t: Sys, id: TaskId)
    requires Sound(s) && t == Next(s, step) && id in s.db.tasks
    ensures id in t.db.tasks && t.db.tasks[id].fixed == s.db.tasks[id].fixed
    ensures t.db.tasks[id].retryCount <= t.db.tasks[id].fixed.maxRetries
    ensures if Changes(s.db, t.db, id) then Budget(t.db.tasks[id]) < Budget(s.db.tasks[id])
            else Budget(t.db.tasks[id]) == Budget(s.db.tasks[id])
  {
    BoundIsGated(s.db);
    StepRow(s, step, t, id);
    BudgetSpent(s.db.tasks[id], t.db.tasks[id]);
  }

  /** How often the task's status changed over a run. */
  function StatusChanges(steps: seq<Step>, id: TaskId): nat
    decreases |steps|
  {
    if steps == [] then 0
    else
      var prefix := steps[..|steps| - 1];
      StatusChanges(prefix, id) + if Changes(Run(START, prefix).db, Run(START, steps).db, id) then 1 else 0
  }

  lemma FreshBudget(row: Task)
    requires FreshRow(row)
    ensures Budget(row) <= RANKS * row.fixed.maxRetries + 5
  {}

  lemma NewTaskBudget(s: Sys, step: Step, t: Sys, id: TaskId)
    requires Sound(s) && t == Next(s, step) && id !in s.db.tasks && id in t.db.tasks
    ensures t.db.tasks[id].retryCount == 0
    ensures Budget(t.db.tasks[id]) <= RANKS * t.db.tasks[id].fixed.maxRetries + 5
  {
    BoundIsGated(s.db);
    StepRow(s, step, t, id);
    FreshBudget(t.db.tasks[id]);
  }

  lemma {:induction false} BudgetCovers(steps: seq<Step>, id: TaskId)
    ensures var db := Run(START, steps).db;
            if id !in db.tasks then StatusChanges(steps, id) == 0
            else
              && db.tasks[id].retryCount <= db.tasks[id].fixed.maxRetries
              && StatusChanges(steps, id) + Budget(db.tasks[id]) <= RANKS * db.tasks[id].fixed.maxRetries + 5
    decreases |steps|
  {
    RunIsSound(steps);
    if steps != [] {
      var prefix := steps[..|steps| - 1];
      BudgetCovers(prefix, id);
      RunIsSound(prefix);
      var s, t := Run(START, prefix), Run(START, steps);
      if id in s.db.tasks {
        StepSpendsBudget(s, steps[|steps| - 1], t, id);
      } else if id in t.db.tasks {
        NewTaskBudget(s, steps[|steps| - 1], t, id);
      }
    }
  }

  /** Over any run a task changes status at most 6 * max_retries + 5 times. */
  lemma FinitelyManyChanges(steps: seq<Step>, id: TaskId)
    ensures var db := Run(START, steps).db;
            id in db.tasks ==> StatusChanges(steps, id) <= RANKS * db.tasks[id].fixed.maxRetries + 5
  {
    BudgetCovers(steps, id);
  }

  // ---------------------------------------------------------------- claims

  function Unclaimed(status: Status): nat {
    if status.NotYetClaimed() then 1 else 0
  }

  /** Each attempt is claimed at most once: an attempt still unclaimed has its claim to spare. */
  predicate ClaimsCovered(s: Sys, id: TaskId) {
    if id !in s.db.tasks then s.past.claims[id] == 0
    else s.past.claims[id] + Unclaimed(s.db.tasks[id].status) <= s.db.tasks[id].retryCount + 1
  }

  lemma ClaimsCoveredByRow(a: Task, b: Task, claims: nat)
    requires RowEvolves(a, b) && claims + Unclaimed(a.status) <= a.retryCount + 1
    ensures claims + Unclaimed(b.status) <= b.retryCount + 1
    ensures Claims(a, b) ==> claims + 1 <= b.retryCount + 1
  {}

  lemma StepClaims(s: Sys, step: Step, t: Sys)
    requires Sound(s) && t == Next(s, step)
    ensures ClaimsOne(s, t)
  {
    match step
    case Work(worker, job) =>
      if job.Claim? {
        if t != s {
          assert Claiming(s, t, job.id);
        }
      } else {
        OtherJobsClaimNothing(s, worker, job, t);
      }
    case Control(command) => CommandSteps(s, command, t);
    case Recover(now) => RecoverStep(s, now, t);
    case Crash =>
    case Ask(_, _, _, _, _) => CreationIsQuiet(s, step, t);
    case RunShell(_, _, _, _) => CreationIsQuiet(s, step, t);
  }

  predicate Claiming(s: Sys, t: Sys, id: TaskId) {
    && t.past.claims == s.past.claims + multiset{id}
    && id in s.db.tasks && id in t.db.tasks && Claims(s.db.tasks[id], t.db.tasks[id])
  }

  ghost predicate ClaimsOne(s: Sys, t: Sys) {
    t.past.claims == s.past.claims || exists id :: Claiming(s, t, id)
  }

  lemma StepKeepsClaimsCovered(s: Sys, step: Step, t: Sys, id: TaskId)
    requires Sound(s) && t == Next(s, step) && ClaimsCovered(s, id)
    ensures ClaimsCovered(t, id)
  {
    BoundIsGated(s.db);
    StepRow(s, step, t, id);
    StepClaims(s, step, t);
    if id in s.db.tasks {
      ClaimsCoveredByRow(s.db.tasks[id], t.db.tasks[id], s.past.claims[id]);
    }
  }

  lemma {:induction false} RunKeepsClaimsCovered(steps: seq<Step>, id: TaskId)
    ensures ClaimsCovered(Run(START, steps), id)
    decreases |steps|
  {
    if steps != [] {
      var prefix := steps[..|steps| - 1];
      RunKeepsClaimsCovered(prefix, id);
      RunIsSound(prefix);
      StepKeepsClaimsCovered(Run(START, prefix), steps[|steps| - 1], Run(START, steps), id);
    }
  }

  /** Over any run, restarts included, a task is claimed at most max_retries + 1 times. */
  lemma BoundedClaims(steps: seq<Step>, id: TaskId)
    ensures var s := Run(START, steps);
            if id in s.db.tasks then s.past.claims[id] <= s.db.tasks[id].fixed.maxRetries + 1 else s.past.claims[id] == 0
  {
    RunKeepsClaimsCovered(steps, id);
    RunIsSound(steps);
  }
}
