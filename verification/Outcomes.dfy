/**
 No lost outcome: the turn and the delivery of a root's answer are inserted with INSERT OR IGNORE,
 and yet no answer is ever ignored, because their identities carry the attempt.
 */
module Outcomes {
  import opened Model
  import opened Transactions
  import opened Evolution
  import opened Retention
  import opened Runtime
  import opened Growth
  import opened Invariants
  import opened Execution
  import opened Synthesis
  import Columns

  // ---------------------------------------------------------------- identities

  /** The number a decimal numeral stands for. */
  function Value(digits: string): nat {
    if digits == "" then 0
    else
      var last := digits[|digits| - 1];
      10 * Value(digits[..|digits| - 1]) + if '0' <= last <= '9' then last as nat - '0' as nat else 0
  }

  /** Decimal numerals round-trip. */
  lemma {:induction false} DigitsRoundTrip(n: nat)
    ensures Value(Digits(n)) == n && forall i :: 0 <= i < |Digits(n)| ==> '0' <= Digits(n)[i] <= '9'
    decreases n
  {
    var digits := Digits(n);
    if n >= 10 {
      DigitsRoundTrip(n / 10);
      assert digits[..|digits| - 1] == Digits(n / 10);
    } else {
      assert digits[..|digits| - 1] == "";
    }
  }

  lemma DigitsInjective(m: nat, n: nat)
    requires Digits(m) == Digits(n)
    ensures m == n
  {
    DigitsRoundTrip(m);
    DigitsRoundTrip(n);
  }

  /** The identities of an attempt, spelled out. */
  lemma IdentityFormats(id: TaskId, retryCount: nat)
    ensures var suffix := if retryCount == 0 then "" else ":retry:" + Digits(retryCount);
            && FinalTurnId(id, retryCount) == "turn:assistant:" + id + suffix
            && FinalDeliveryId(id, retryCount) == "delivery:" + id + ":connector-final" + suffix
            && FinalDeliveryKey(id, retryCount) == "task:" + id + ":connector-final" + suffix
  {}

  predicate AtColon(tail: string) {
    tail == "" || tail[0] == ':'
  }

  /** A colon-free identifier is recovered from what was appended to it. */
  lemma SplitAtColon(a: string, x: string, b: string, y: string)
    requires IsId(a) && IsId(b) && AtColon(x) && AtColon(y) && a + x == b + y
    ensures a == b && x == y
  {
    var whole := a + x;
    assert forall i :: 0 <= i < |a| ==> whole[i] == a[i];
    assert forall i :: 0 <= i < |b| ==> whole[i] == b[i];
    assert x != "" ==> whole[|a|] == ':';
    assert y != "" ==> whole[|b|] == ':';
    assert a == (a + x)[..|a|] && b == (b + y)[..|b|];
    assert x == (a + x)[|a|..] && y == (b + y)[|b|..];
  }

  lemma SuffixInjective(m: nat, n: nat)
    requires AttemptSuffix(m) == AttemptSuffix(n)
    ensures m == n
  {
    if m > 0 && n > 0 {
      assert Digits(m) == AttemptSuffix(m)[|":retry:"|..];
      assert Digits(n) == AttemptSuffix(n)[|":retry:"|..];
      DigitsInjective(m, n);
    }
  }

  lemma DropPrefix(prefix: string, a: string, b: string)
    requires prefix + a == prefix + b
    ensures a == b
  {
    assert a == (prefix + a)[|prefix|..] && b == (prefix + b)[|prefix|..];
  }

  lemma Regroup(a: string, b: string, c: string)
    ensures a + b + c == a + (b + c)
  {}

  lemma IdsInjective(prefix: string, a: TaskId, x: string, b: TaskId, y: string)
    requires IsId(a) && IsId(b) && AtColon(x) && AtColon(y)
    requires prefix + a + x == prefix + b + y
    ensures a == b && x == y
  {
    Regroup(prefix, a, x);
    Regroup(prefix, b, y);
    DropPrefix(prefix, a + x, b + y);
    SplitAtColon(a, x, b, y);
  }

  lemma TurnIdsInjective(a: TaskId, m: nat, b: TaskId, n: nat)
    requires IsId(a) && IsId(b) && FinalTurnId(a, m) == FinalTurnId(b, n)
    ensures a == b && m == n
  {
    IdsInjective(ASSISTANT_PREFIX, a, AttemptSuffix(m), b, AttemptSuffix(n));
    SuffixInjective(m, n);
  }

  lemma DeliveriesInjective(prefix: string, middle: string, a: TaskId, m: nat, b: TaskId, n: nat)
    requires IsId(a) && IsId(b) && middle != "" && middle[0] == ':'
    requires prefix + a + middle + AttemptSuffix(m) == prefix + b + middle + AttemptSuffix(n)
    ensures a == b && m == n
  {
    Regroup(prefix + a, middle, AttemptSuffix(m));
    Regroup(prefix + b, middle, AttemptSuffix(n));
    IdsInjective(prefix, a, middle + AttemptSuffix(m), b, middle + AttemptSuffix(n));
    DropPrefix(middle, AttemptSuffix(m), AttemptSuffix(n));
    SuffixInjective(m, n);
  }

  /** The scheme relies on identifiers without colons. */
  lemma ColonsWouldCollide()
    ensures FinalTurnId("a:retry:1", 0) == FinalTurnId("a", 1)
  {
    assert Digits(1) == "1";
  }

  // ---------------------------------------------------------------- where announcements come from

  ghost predicate TurnFrom(answers: set<(TaskId, nat)>, key: TurnId) {
    exists answer :: answer in answers && key == FinalTurnId(answer.0, answer.1)
  }

  ghost predicate DeliveryFrom(answers: set<(TaskId, nat)>, key: DeliveryId, item: Delivery) {
    exists answer :: answer in answers
      && key == FinalDeliveryId(answer.0, answer.1) && item.idempotencyKey == FinalDeliveryKey(answer.0, answer.1)
  }

  /** An attempt that answered has ended. */
  predicate Spent(db: Db, answer: (TaskId, nat)) {
    && answer.0 in db.tasks
    && answer.1 <= db.tasks[answer.0].retryCount
    && (answer.1 == db.tasks[answer.0].retryCount ==> db.tasks[answer.0].status.Terminal())
  }

  ghost predicate Told(db: Db, answers: set<(TaskId, nat)>) {
    && (forall answer :: answer in answers ==> Spent(db, answer))
    && (forall key :: key in db.turns && ASSISTANT_PREFIX <= key ==> TurnFrom(answers, key))
    && (forall key :: key in db.deliveries ==> DeliveryFrom(answers, key, db.deliveries[key]))
  }

  /** No announcement is added. */
  ghost predicate TellsNothing(db: Db, next: Db) {
    && (forall key :: key in next.turns && ASSISTANT_PREFIX <= key ==> key in db.turns)
    && (forall key :: key in next.deliveries ==>
          key in db.deliveries && next.deliveries[key].idempotencyKey == db.deliveries[key].idempotencyKey)
  }

  lemma SpentRow(a: Task, b: Task, attempt: nat)
    requires RowEvolves(a, b)
    requires attempt <= a.retryCount && (attempt == a.retryCount ==> a.status.Terminal())
    ensures attempt <= b.retryCount && (attempt == b.retryCount ==> b.status.Terminal())
  {}

  lemma SpentEvolves(db: Db, next: Db, answers: set<(TaskId, nat)>)
    requires RowsEvolve(db, next) && forall answer :: answer in answers ==> Spent(db, answer)
    ensures forall answer :: answer in answers ==> Spent(next, answer)
  {
    forall answer | answer in answers ensures Spent(next, answer) {
      assert RowEvolves(db.tasks[answer.0], next.tasks[answer.0]);
      SpentRow(db.tasks[answer.0], next.tasks[answer.0], answer.1);
    }
  }

  lemma QuietKeepsTold(db: Db, next: Db, answers: set<(TaskId, nat)>)
    requires Told(db, answers) && TellsNothing(db, next) && RowsEvolve(db, next)
    ensures Told(next, answers)
  {
    SpentEvolves(db, next, answers);
    forall key | key in next.deliveries ensures DeliveryFrom(answers, key, next.deliveries[key]) {
      assert DeliveryFrom(answers, key, db.deliveries[key]);
    }
  }

  lemma GrowthKeepsTold(db: Db, next: Db, answers: set<(TaskId, nat)>)
    requires Told(db, answers) && TellsNothing(db, next) && Grows(db, next)
    ensures Told(next, answers)
  {
    forall answer | answer in answers ensures Spent(next, answer) {
      assert Spent(db, answer);
    }
    forall key | key in next.deliveries ensures DeliveryFrom(answers, key, next.deliveries[key]) {
      assert DeliveryFrom(answers, key, db.deliveries[key]);
    }
  }

  // ---------------------------------------------------------------- transactions that announce nothing

  lemma ScrubTellsNothing(db: Db, roots: set<TaskId>)
    ensures TellsNothing(db, ScrubGraphs(db, roots))
  {}

  lemma RetainTellsNothing(db: Db, id: ConversationId, enabled: bool, now: int, next: Db)
    requires next == SetTranscriptRetention(db, id, enabled, now).Over(db)
    ensures TellsNothing(db, next)
  {
    if id in db.conversations && !enabled {
      var quiet := ScrubEvents(db, db.conversations[id].externalKey).(
        turns := map key <- db.turns | db.turns[key].conversation != id :: db.turns[key],
        conversations := db.conversations[id := db.conversations[id].(
          retained := false, title := NOT_RETAINED_MARKER, updatedAt := now)]);
      ScrubTellsNothing(quiet, SettledGraphs(quiet, id));
    }
  }

  lemma ScrubTerminalTellsNothing(db: Db, root: TaskId, next: Db)
    requires next == ScrubTerminalTaskGraph(db, root)
    ensures TellsNothing(db, next)
  {
    if NotRetained(db, root) && !GraphActive(db, root) {
      ScrubTellsNothing(ScrubEvents(db, db.conversations[db.tasks[root].fixed.conversation.value].externalKey), {root});
    }
  }

  lemma SweepTellsNothing(db: Db, cutoff: int, sweptAt: int, audit: string, correlation: string, next: Db)
    requires next == SweepTx(db, cutoff, sweptAt, audit, correlation).Over(db)
    ensures TellsNothing(db, next)
  {
    if SweepTx(db, cutoff, sweptAt, audit, correlation).Commit? {
      assert next.turns == SweepTurns(db, cutoff).turns;
      assert next.deliveries == SweepDeliveries(db, cutoff).deliveries;
    }
  }

  lemma SameBooks(db: Db, next: Db)
    requires next.turns == db.turns && next.deliveries == db.deliveries
    ensures TellsNothing(db, next)
  {}

  lemma DecisionTellsNothing(db: Db, key: ApprovalId, actor: string, approved: bool, now: int, next: Db)
    requires next == DecideApproval(db, key, actor, approved, now).Over(db)
    ensures next.turns == db.turns && next.deliveries == db.deliveries
  {
    match DecideApproval(db, key, actor, approved, now)
    case Refused(_) =>
    case Lapsed(_) =>
    case Decided(_) =>
  }

  lemma CancellationTellsNothing(db: Db, id: TaskId, now: int, next: Db)
    requires next == CancelTaskGraph(db, id, now).Over(db)
    ensures next.turns == db.turns && next.deliveries == db.deliveries
  {}

  lemma ApprovalCommandsTellNothing(db: Db, command: Command, next: Db)
    requires next == Commanded(db, command) && (command.Decide? || command.ExpireAll? || command.CancelGraph?)
    ensures next.turns == db.turns && next.deliveries == db.deliveries
  {
    match command
    case Decide(key, actor, approved, now) => DecisionTellsNothing(db, key, actor, approved, now, next);
    case ExpireAll(now) =>
    case CancelGraph(id, now) => CancellationTellsNothing(db, id, now, next);
  }

  lemma RowCommandsTellNothing(db: Db, command: Command, next: Db)
    requires next == Commanded(db, command)
    requires command.Dismiss? || command.Prioritize? || command.Progress? || command.Retry?
    ensures next.turns == db.turns && next.deliveries == db.deliveries
  {
    match command
    case Dismiss(id) =>
    case Prioritize(id, priority) =>
    case Progress(id, percent, message) =>
    case Retry(id) =>
      if RetryTask(db, id).Commit? {
        RetryRows(db, id, next);
      }
  }

  lemma CommandTellsNothing(db: Db, command: Command, next: Db)
    requires next == Commanded(db, command)
    ensures TellsNothing(db, next)
  {
    if command.Retain? {
      RetainTellsNothing(db, command.conversation, command.enabled, command.now, next);
    } else if command.Scrub? {
      ScrubTerminalTellsNothing(db, command.root, next);
    } else if command.SweepAll? {
      SweepTellsNothing(db, command.cutoff, command.sweptAt, command.audit, command.correlation, next);
    } else {
      if command.Decide? || command.ExpireAll? || command.CancelGraph? {
        ApprovalCommandsTellNothing(db, command, next);
      } else {
        RowCommandsTellNothing(db, command, next);
      }
      SameBooks(db, next);
    }
  }

  /** Opening a conversation and switching its retention announce nothing. */
  lemma SwitchTellsNothing(db: Db, id: ConversationId, record: Conversation, apply: bool, known: Db)
    requires known == ApplyRetention(OpenConversation(db, id, record), id, record, apply)
    ensures TellsNothing(db, known)
  {
    var entered := OpenConversation(db, id, record);
    SameBooks(db, entered);
    if apply {
      RetainTellsNothing(entered, id, record.retained, record.updatedAt, known);
    }
  }

  lemma AskTellsNothing(db: Db, id: ConversationId, record: Conversation, apply: bool, turn: (TurnId, Turn),
                        rows: seq<(TaskId, Task)>, known: Db, next: Db)
    requires AskShape(id, rows) && UserTurn(turn.0)
    requires CreateAskWork(db, id, record, apply, turn, rows) == Commit(next)
    requires rows[0].1.fixed.idempotencyKey !in db.taskKeys
    requires known == ApplyRetention(OpenConversation(db, id, record), id, record, apply)
    ensures TellsNothing(known, next)
  {
    var base := AskCommitted(db, id, record, apply, turn, rows, known, next);
    TurnTells(known, turn.0, turn.1.(conversation := id), known.conversations[id].retained, base);
    AskWorkGrows(known, base, id, rows, InsertTasks(base, rows, rows[0].0).db, next);
  }

  lemma AskKeepsTold(s: Sys, id: ConversationId, record: Conversation, apply: bool, turn: (TurnId, Turn),
                     rows: seq<(TaskId, Task)>, t: Sys)
    requires Told(s.db, s.past.answers) && t == DoAsk(s, id, record, apply, turn, rows)
    ensures Told(t.db, t.past.answers)
  {
    if t.db != s.db {
      var entered := OpenConversation(s.db, id, record);
      var known := ApplyRetention(entered, id, record, apply);
      AskGrows(s.db, id, record, apply, turn, rows, t.db);
      AsideEvolves(s.db, entered, known);
      SwitchTellsNothing(s.db, id, record, apply, known);
      QuietKeepsTold(s.db, known, s.past.answers);
      AskTellsNothing(s.db, id, record, apply, turn, rows, known, t.db);
      GrowthKeepsTold(known, t.db, s.past.answers);
    }
  }

  lemma RepairTellsNothing(db: Db, id: TaskId, requested: Option<Approval>, next: Db)
    requires RepairApproval(db, id, requested) == Commit(next)
    ensures next.turns == db.turns && next.deliveries == db.deliveries
  {}

  lemma InsertTellsNothing(db: Db, id: TaskId, row: Task, next: Db)
    requires InsertTask(db, id, row) == Commit(next)
    ensures next.turns == db.turns && next.deliveries == db.deliveries
  {}

  lemma ShellTellsNothing(db: Db, id: TaskId, row: Task, requested: Option<Approval>, next: Db)
    requires CreateTaskWithApproval(db, id, row, requested) == Commit(next)
    ensures next.turns == db.turns && next.deliveries == db.deliveries
  {
    if row.fixed.idempotencyKey in db.taskKeys {
      RepairTellsNothing(db, db.taskKeys[row.fixed.idempotencyKey], requested, next);
    } else {
      InsertTellsNothing(db, id, row, InsertTask(db, id, row).db);
    }
  }

  lemma ShellKeepsTold(s: Sys, id: TaskId, row: Task, gated: bool, expiresAt: int, t: Sys)
    requires Sound(s) && Told(s.db, s.past.answers) && t == DoShell(s, id, row, gated, expiresAt)
    ensures Told(t.db, t.past.answers)
  {
    ShellKeepsSound(s, id, row, gated, expiresAt, t);
    if t.db != s.db {
      ShellTellsNothing(s.db, id, row, RequestedApproval(id, row, gated, expiresAt), t.db);
      SameBooks(s.db, t.db);
      GrowthKeepsTold(s.db, t.db, s.past.answers);
    }
  }

  // ---------------------------------------------------------------- workers

  lemma OtherJobsTellNothing(s: Sys, worker: nat, job: Job, t: Sys)
    requires t == Toil(s, worker, job) && t != s && !Completing(s, worker, job)
    ensures t.db.turns == s.db.turns && t.db.deliveries == s.db.deliveries && t.past.answers == s.past.answers
  {
    match job
    case Claim(id) =>
    case Begin(now) =>
    case ReadBack =>
    case AgentReturns(action) =>
    case ShellRefuses(reason, timedOut) =>
    case ShellStarts(input) =>
    case Spawn =>
    case ShellReturns(output, failure, now) =>
    case Settle(route, now) => SettleOtherTellsNothing(s, worker, now, t);
  }

  lemma SettleOtherTellsNothing(s: Sys, worker: nat, now: int, t: Sys)
    requires worker in s.workers && s.workers[worker].Finishing? && !s.workers[worker].action.Complete?
    requires t == SettleOther(s, worker, now)
    ensures t.db.turns == s.db.turns && t.db.deliveries == s.db.deliveries && t.past.answers == s.past.answers
  {
    if LeavingTx(s.db, s.workers[worker], now).Commit? {
      LeavingRow(s.db, s.workers[worker], now, t.db);
    }
  }

  // ---------------------------------------------------------------- the completion

  /** The announcement of this attempt is not in the books yet. */
  ghost predicate Untold(db: Db, id: TaskId, attempt: nat) {
    && FinalTurnId(id, attempt) !in db.turns
    && FinalDeliveryId(id, attempt) !in db.deliveries
    && forall key :: key in db.deliveries ==> db.deliveries[key].idempotencyKey != FinalDeliveryKey(id, attempt)
  }

  ghost predicate KnownIds(db: Db) {
    forall id :: id in db.tasks ==> IsId(id)
  }

  lemma SoundIds(db: Db)
    requires Structured(db)
    ensures KnownIds(db)
  {
    forall id | id in db.tasks ensures IsId(id) {
      assert WellPlaced(db, id);
    }
  }

  lemma FreshAttemptIsUntold(db: Db, answers: set<(TaskId, nat)>, id: TaskId)
    requires Told(db, answers) && KnownIds(db) && id in db.tasks && !db.tasks[id].status.Terminal()
    ensures Untold(db, id, db.tasks[id].retryCount)
  {
    var attempt := db.tasks[id].retryCount;
    assert (id, attempt) !in answers by {
      assert !Spent(db, (id, attempt));
    }
    forall key | key in db.turns && ASSISTANT_PREFIX <= key ensures key != FinalTurnId(id, attempt) {
      var answer :| answer in answers && key == FinalTurnId(answer.0, answer.1);
      assert answer != (id, attempt);
      TurnIdsDiffer(id, attempt, answer.0, answer.1);
    }
    TurnIdShape(id, attempt);
    forall key | key in db.deliveries
      ensures key != FinalDeliveryId(id, attempt) && db.deliveries[key].idempotencyKey != FinalDeliveryKey(id, attempt)
    {
      var answer :| answer in answers
        && key == FinalDeliveryId(answer.0, answer.1)
        && db.deliveries[key].idempotencyKey == FinalDeliveryKey(answer.0, answer.1);
      assert answer != (id, attempt);
      DeliveryIdsDiffer(id, attempt, answer.0, answer.1);
    }
  }

  lemma TurnIdShape(id: TaskId, attempt: nat)
    ensures ASSISTANT_PREFIX <= FinalTurnId(id, attempt)
  {
    Regroup(ASSISTANT_PREFIX, id, AttemptSuffix(attempt));
  }

  lemma TurnIdsDiffer(a: TaskId, m: nat, b: TaskId, n: nat)
    requires IsId(a) && IsId(b) && (a, m) != (b, n)
    ensures FinalTurnId(a, m) != FinalTurnId(b, n)
  {
    if FinalTurnId(a, m) == FinalTurnId(b, n) {
      TurnIdsInjective(a, m, b, n);
    }
  }

  lemma DeliveryIdsDiffer(a: TaskId, m: nat, b: TaskId, n: nat)
    requires IsId(a) && IsId(b) && (a, m) != (b, n)
    ensures FinalDeliveryId(a, m) != FinalDeliveryId(b, n) && FinalDeliveryKey(a, m) != FinalDeliveryKey(b, n)
  {
    if FinalDeliveryId(a, m) == FinalDeliveryId(b, n) {
      DeliveriesInjective(DELIVERY_PREFIX, ":connector-final", a, m, b, n);
    }
    if FinalDeliveryKey(a, m) == FinalDeliveryKey(b, n) {
      DeliveriesInjective("task:", ":connector-final", a, m, b, n);
    }
  }

  /** What the books hold once the outcome of this attempt is announced, erasure included. */
  predicate Announced(next: Db, outcome: Outcome) {
    && (outcome.turn.Some? ==>
          var (key, turn) := outcome.turn.value;
          key in next.turns && (next.turns[key] == turn || next.turns[key] == turn.(text := NOT_RETAINED_MARKER)))
    && (outcome.delivery.Some? ==>
          var (key, item) := outcome.delivery.value;
          key in next.deliveries &&
          (next.deliveries[key] == item || next.deliveries[key] == item.(target := "{}", lastError := "")))
  }

  /** The books gained the outcome's records and nothing else. */
  ghost predicate GainsOnly(db: Db, next: Db, outcome: Outcome) {
    && (forall key :: key in next.turns ==> key in db.turns || (outcome.turn.Some? && key == outcome.turn.value.0))
    && (forall key :: key in next.deliveries ==>
          || (key in db.deliveries && next.deliveries[key].idempotencyKey == db.deliveries[key].idempotencyKey)
          || (outcome.delivery.Some? && key == outcome.delivery.value.0
              && next.deliveries[key].idempotencyKey == outcome.delivery.value.1.idempotencyKey))
  }

  predicate NotTaken(db: Db, outcome: Outcome) {
    && (outcome.turn.Some? ==> outcome.turn.value.0 !in db.turns)
    && (outcome.delivery.Some? ==> !DeliveryTaken(db, outcome.delivery.value.0, outcome.delivery.value.1))
  }

  lemma TurnTells(db: Db, key: TurnId, turn: Turn, retain: bool, told: Db)
    requires told == InsertTurn(db, key, turn, retain)
    ensures told == db.(turns := told.turns)
    ensures forall other :: other in told.turns ==> other in db.turns || other == key
    ensures key !in db.turns ==> told.turns[key] == turn || told.turns[key] == turn.(text := NOT_RETAINED_MARKER)
    ensures key in told.turns
  {}

  lemma DeliveryTells(db: Db, key: DeliveryId, item: Delivery, told: Db)
    requires told == InsertDelivery(db, key, item)
    ensures told == db.(deliveries := told.deliveries)
    ensures !DeliveryTaken(db, key, item) ==> key in told.deliveries && told.deliveries[key] == item
    ensures forall other :: other in told.deliveries ==>
              (other in db.deliveries && told.deliveries[other] == db.deliveries[other])
              || (other == key && told.deliveries[other] == item)
  {}

  lemma AnnounceTells(db: Db, outcome: Outcome, retain: bool, told: Db)
    requires told == Announce(db, outcome, retain)
    ensures GainsOnly(db, told, outcome)
    ensures NotTaken(db, outcome) ==> Announced(told, outcome)
  {
    var first := if outcome.turn.Some?
                 then InsertTurn(db, outcome.turn.value.0, outcome.turn.value.1, retain) else db;
    if outcome.turn.Some? {
      TurnTells(db, outcome.turn.value.0, outcome.turn.value.1, retain, first);
    }
    assert first.deliveries == db.deliveries;
    if outcome.delivery.Some? {
      assert DeliveryTaken(first, outcome.delivery.value.0, outcome.delivery.value.1)
          == DeliveryTaken(db, outcome.delivery.value.0, outcome.delivery.value.1);
      DeliveryTells(first, outcome.delivery.value.0, outcome.delivery.value.1, told);
    } else {
      assert told == first;
    }
  }

  lemma WithholdKeepsBooks(db: Db, root: TaskId, conversationKey: string, next: Db)
    requires next == Withhold(db, root, conversationKey)
    ensures next.turns == db.turns && next.deliveries.Keys == db.deliveries.Keys
    ensures forall key :: key in db.deliveries ==>
              next.deliveries[key] == db.deliveries[key]
              || next.deliveries[key] == db.deliveries[key].(target := "{}", lastError := "")
  {
    var quiet := ScrubEvents(db, conversationKey);
    if GraphActive(quiet, root) {
      assert next == quiet;
    } else {
      assert next.deliveries.Keys == db.deliveries.Keys;
    }
  }

  lemma WithholdKeepsAnnounced(db: Db, told: Db, root: TaskId, conversationKey: string, outcome: Outcome, next: Db)
    requires next == Withhold(told, root, conversationKey) && GainsOnly(db, told, outcome)
    ensures GainsOnly(db, next, outcome)
    ensures Announced(told, outcome) ==> Announced(next, outcome)
  {
    WithholdKeepsBooks(told, root, conversationKey, next);
  }

  lemma RootBooks(db: Db, id: TaskId, answer: Answer, outcome: Outcome, now: int, next: Db)
    requires CompleteTaskWithOutcome(db, id, answer, outcome, now) == Commit(next)
    ensures GainsOnly(db, next, outcome)
    ensures NotTaken(db, outcome) ==> Announced(next, outcome)
  {
    var conversation := db.tasks[id].fixed.conversation;
    var done := SetTask(db, id, CompletedRow(db.tasks[id], answer, now));
    var retain := conversation.None? || db.conversations[conversation.value].retained;
    var told := Announce(done, outcome, retain);
    assert done == db.(tasks := done.tasks);
    AnnounceTells(done, outcome, retain, told);
    assert GainsOnly(db, told, outcome);
    assert NotTaken(done, outcome) == NotTaken(db, outcome);
    if retain {
      assert next == told;
    } else {
      WithholdKeepsAnnounced(db, told, id, db.conversations[conversation.value].externalKey, outcome, next);
    }
  }

  lemma OutcomeIsUntold(db: Db, id: TaskId, row: Task, answer: Answer, route: Option<(string, DeliveryStatus)>, now: int)
    requires Untold(db, id, row.retryCount)
    ensures NotTaken(db, FinalOutcome(id, row, answer, route, now))
  {}

  lemma GainsKeepTold(db: Db, next: Db, answers: set<(TaskId, nat)>, id: TaskId, row: Task, answer: Answer,
                      route: Option<(string, DeliveryStatus)>, now: int)
    requires Told(db, answers) && GainsOnly(db, next, FinalOutcome(id, row, answer, route, now)) && RowsEvolve(db, next)
    requires Spent(next, (id, row.retryCount))
    ensures Told(next, answers + {(id, row.retryCount)})
  {
    var more := answers + {(id, row.retryCount)};
    SpentEvolves(db, next, answers);
    assert (id, row.retryCount) in more;
    forall key | key in next.turns && ASSISTANT_PREFIX <= key ensures TurnFrom(more, key) {
      if key in db.turns {
        assert TurnFrom(answers, key);
      }
    }
    forall key | key in next.deliveries ensures DeliveryFrom(more, key, next.deliveries[key]) {
      if key in db.deliveries && next.deliveries[key].idempotencyKey == db.deliveries[key].idempotencyKey {
        assert DeliveryFrom(answers, key, db.deliveries[key]);
      }
    }
  }

  lemma NodeBooks(db: Db, id: TaskId, answer: Answer, now: int, next: Db)
    requires CompleteTask(db, id, answer, now) == Commit(next)
    ensures next.turns == db.turns && next.deliveries == db.deliveries
  {}

  lemma RootKeepsTold(db: Db, answers: set<(TaskId, nat)>, held: Worker, route: Option<(string, DeliveryStatus)>,
                      now: int, next: Db)
    requires Told(db, answers) && held.Finishing? && held.action.Complete? && held.id == held.row.fixed.root
    requires CompletionTx(db, held, route, now) == Commit(next) && RowsEvolve(db, next)
    requires Spent(next, (held.id, held.row.retryCount))
    ensures Told(next, answers + {(held.id, held.row.retryCount)})
  {
    RootBooks(db, held.id, held.action.answer,
              FinalOutcome(held.id, held.row, held.action.answer, route, now), now, next);
    GainsKeepTold(db, next, answers, held.id, held.row, held.action.answer, route, now);
  }

  lemma NodeKeepsTold(db: Db, answers: set<(TaskId, nat)>, held: Worker, route: Option<(string, DeliveryStatus)>,
                      now: int, next: Db)
    requires Told(db, answers) && held.Finishing? && held.action.Complete? && held.id != held.row.fixed.root
    requires CompletionTx(db, held, route, now) == Commit(next) && RowsEvolve(db, next)
    ensures Told(next, answers)
  {
    NodeBooks(db, held.id, held.action.answer, now, next);
    SameBooks(db, next);
    QuietKeepsTold(db, next, answers);
  }

  lemma AnswerIsSpent(db: Db, held: Worker, answer: Answer, next: Db)
    requires held.Finishing? && held.id in db.tasks && Holds(held, db.tasks[held.id])
    requires RowsEvolve(db, next) && Answered(next, held.id, answer)
    ensures Spent(next, (held.id, held.row.retryCount))
  {
    assert RowEvolves(db.tasks[held.id], next.tasks[held.id]);
  }

  lemma CompletionKeepsTold(s: Sys, worker: nat, route: Option<(string, DeliveryStatus)>, now: int, t: Sys)
    requires Sound(s) && Told(s.db, s.past.answers)
    requires worker in s.workers && s.workers[worker].Finishing? && s.workers[worker].action.Complete?
    requires t == SettleComplete(s, worker, route, now) && RowsEvolve(s.db, t.db)
    ensures Told(t.db, t.past.answers)
  {
    var held := s.workers[worker];
    CompletionCommits(s, worker, route, now);
    CompletionStatus(s.db, held, route, now, t.db);
    AnswerIsSpent(s.db, held, held.action.answer, t.db);
    if held.id == held.row.fixed.root {
      RootKeepsTold(s.db, s.past.answers, held, route, now, t.db);
    } else {
      NodeKeepsTold(s.db, s.past.answers, held, route, now, t.db);
    }
  }

  lemma JobKeepsTold(s: Sys, worker: nat, job: Job, t: Sys)
    requires Sound(s) && Told(s.db, s.past.answers) && t == Toil(s, worker, job)
    ensures Told(t.db, t.past.answers)
  {
    if t != s {
      WorkerSteps(s, worker, job, t);
      if Completing(s, worker, job) {
        CompletionKeepsTold(s, worker, job.route, job.now, t);
      } else {
        OtherJobsTellNothing(s, worker, job, t);
        SameBooks(s.db, t.db);
        QuietKeepsTold(s.db, t.db, s.past.answers);
      }
    }
  }

  // ---------------------------------------------------------------- every run

  lemma StepKeepsTold(s: Sys, step: Step, t: Sys)
    requires Sound(s) && Told(s.db, s.past.answers) && t == Next(s, step)
    ensures Told(t.db, t.past.answers)
  {
    match step
    case Control(command) =>
      CommandSteps(s, command, t);
      CommandTellsNothing(s.db, command, t.db);
      QuietKeepsTold(s.db, t.db, s.past.answers);
    case Work(worker, job) => JobKeepsTold(s, worker, job, t);
    case Recover(now) =>
      RecoverStep(s, now, t);
      SameBooks(s.db, t.db);
      QuietKeepsTold(s.db, t.db, s.past.answers);
    case Crash =>
    case Ask(id, record, apply, turn, rows) => AskKeepsTold(s, id, record, apply, turn, rows, t);
    case RunShell(id, row, gated, expiresAt) => ShellKeepsTold(s, id, row, gated, expiresAt, t);
  }

  lemma {:induction false} RunIsTold(steps: seq<Step>)
    ensures Told(Run(START, steps).db, Run(START, steps).past.answers)
    decreases |steps|
  {
    if steps != [] {
      var prefix := steps[..|steps| - 1];
      RunIsTold(prefix);
      RunIsSound(prefix);
      StepKeepsTold(Run(START, prefix), steps[|steps| - 1], Run(START, steps));
    }
  }

  lemma CompletionIsAnnounced(s: Sys, worker: nat, route: Option<(string, DeliveryStatus)>, now: int, next: Db)
    requires Sound(s) && Told(s.db, s.past.answers)
    requires worker in s.workers && s.workers[worker].Finishing? && s.workers[worker].action.Complete?
    requires s.workers[worker].id == s.workers[worker].row.fixed.root
    requires CompletionTx(s.db, s.workers[worker], route, now) == Commit(next)
    ensures var held := s.workers[worker];
            var outcome := FinalOutcome(held.id, held.row, held.action.answer, route, now);
            NotTaken(s.db, outcome) && Announced(next, outcome)
  {
    var held := s.workers[worker];
    assert Holds(held, s.db.tasks[held.id]);
    SoundIds(s.db);
    FreshAttemptIsUntold(s.db, s.past.answers, held.id);
    OutcomeIsUntold(s.db, held.id, held.row, held.action.answer, route, now);
    RootBooks(s.db, held.id, held.action.answer,
              FinalOutcome(held.id, held.row, held.action.answer, route, now), now, next);
  }

  /** The records of the answer as they stand in the store. */
  ghost predicate AnswerStands(db: Db, held: Worker, route: Option<(string, DeliveryStatus)>, now: int, next: Db)
    requires held.Finishing? && held.action.Complete? && held.id in db.tasks
  {
    var conversation := db.tasks[held.id].fixed.conversation;
    var kept := conversation.Some? ==> conversation.value in db.conversations && db.conversations[conversation.value].retained;
    && (conversation.Some? ==>
          var key := FinalTurnId(held.id, db.tasks[held.id].retryCount);
          key in next.turns && next.turns[key] ==
            Turn(conversation.value, if kept then held.action.answer.summary else "[transcript retention disabled]", now))
    && (route.Some? && kept ==>
          var key := FinalDeliveryId(held.id, db.tasks[held.id].retryCount);
          key in next.deliveries && next.deliveries[key] ==
            Delivery(held.id, route.value.0, route.value.1, "", FinalDeliveryKey(held.id, db.tasks[held.id].retryCount)))
    && Columns.BlankOnceFinished(db, held.id, next)
  }

  lemma AnswerStandsLaw(db: Db, held: Worker, route: Option<(string, DeliveryStatus)>, now: int, next: Db)
    requires held.Finishing? && held.action.Complete? && held.id == held.row.fixed.root
    requires held.id in db.tasks && Holds(held, db.tasks[held.id])
    requires NotTaken(db, FinalOutcome(held.id, held.row, held.action.answer, route, now))
    requires CompletionTx(db, held, route, now) == Commit(next)
    ensures AnswerStands(db, held, route, now, next)
  {
    var outcome := FinalOutcome(held.id, held.row, held.action.answer, route, now);
    Columns.OutcomeLaw(db, held.id, held.action.answer, outcome, now);
    Columns.OutcomeFacts(db, held.id, held.action.answer, outcome, now, next);
  }

  /**
   In every reachable state, when a worker commits the answer of a root the commit is accepted, the
   identities of its turn and delivery are new, and both are in the store afterwards: as they are if the
   transcript is kept, without text otherwise.
   */
  lemma NoLostOutcome(steps: seq<Step>, worker: nat, route: Option<(string, DeliveryStatus)>, now: int)
    requires var s := Run(START, steps);
             && worker in s.workers && s.workers[worker].Finishing? && s.workers[worker].action.Complete?
             && s.workers[worker].id == s.workers[worker].row.fixed.root
    ensures var s := Run(START, steps);
            var held := s.workers[worker];
            var outcome := FinalOutcome(held.id, held.row, held.action.answer, route, now);
            && CompletionTx(s.db, held, route, now).Commit?
            && NotTaken(s.db, outcome)
            && held.id in s.db.tasks && AnswerStands(s.db, held, route, now, CompletionTx(s.db, held, route, now).db)
            && Answered(CompletionTx(s.db, held, route, now).db, held.id, held.action.answer)
  {
    RunIsSound(steps);
    RunIsTold(steps);
    AnswerIsStored(Run(START, steps), worker, route, now);
  }

  lemma AnswerIsStored(s: Sys, worker: nat, route: Option<(string, DeliveryStatus)>, now: int)
    requires Sound(s) && Told(s.db, s.past.answers)
    requires worker in s.workers && s.workers[worker].Finishing? && s.workers[worker].action.Complete?
    requires s.workers[worker].id == s.workers[worker].row.fixed.root
    ensures var held := s.workers[worker];
            && CompletionTx(s.db, held, route, now).Commit?
            && NotTaken(s.db, FinalOutcome(held.id, held.row, held.action.answer, route, now))
            && held.id in s.db.tasks && AnswerStands(s.db, held, route, now, CompletionTx(s.db, held, route, now).db)
            && Answered(CompletionTx(s.db, held, route, now).db, held.id, held.action.answer)
  {
    var held := s.workers[worker];
    CompletionCommits(s, worker, route, now);
    var next := CompletionTx(s.db, held, route, now).db;
    CompletionIsAnnounced(s, worker, route, now, next);
    CompletionStatus(s.db, held, route, now, next);
    assert Holds(held, s.db.tasks[held.id]);
    AnswerStandsLaw(s.db, held, route, now, next);
  }
}
