/**
 The algebra of retention sweeps: a sweep touches no protected graph, a repeated sweep finds
 nothing, and an earlier cutoff is absorbed by a later one.
 */
module Sweeps {
  import opened Model
  import opened Transactions
  import opened Retention
  import opened Runtime

  // ---------------------------------------------------------------- standing

  lemma TaskSweepKeepsStanding(db: Db, cutoff: int, next: Db)
    requires next.tasks == db.tasks || next.tasks == SweepTasks(db, cutoff).tasks
    ensures SameTasks(db, next)
  {
    assert next.tasks.Keys == db.tasks.Keys;
  }

  lemma TopicSweepKeepsStanding(db: Db, cutoff: int, next: Db)
    requires next.conversations == db.conversations || next.conversations == SweepConversations(db, cutoff).conversations
    ensures SameTopics(db, next)
  {
    assert next.conversations.Keys == db.conversations.Keys;
  }

  lemma DebtSweepKeepsStanding(db: Db, cutoff: int, next: Db)
    requires next.deliveries == db.deliveries || next.deliveries == SweepDeliveries(db, cutoff).deliveries
    requires next.invocations == db.invocations || next.invocations == SweepInvocations(db, cutoff).invocations
    requires next.approvals == db.approvals || next.approvals == SweepApprovals(db, cutoff).approvals
    ensures SameDebts(db, next)
  {
    assert next.deliveries.Keys == db.deliveries.Keys;
    assert next.invocations.Keys == db.invocations.Keys;
    assert next.approvals.Keys == db.approvals.Keys;
  }

  lemma SweepKeepsStanding(db: Db, cutoff: int, next: Db)
    requires next == Sweep(db, cutoff)
    ensures SameStanding(db, next)
  {
    TaskSweepKeepsStanding(db, cutoff, next);
    TopicSweepKeepsStanding(db, cutoff, next);
    DebtSweepKeepsStanding(db, cutoff, next);
  }

  lemma EligibleLater(db: Db, id: TaskId, cutoff: int, later: int)
    requires cutoff <= later && InEligible(db, id, cutoff)
    ensures InEligible(db, id, later)
  {}

  // ---------------------------------------------------------------- table by table

  lemma TurnsTwice(db: Db, cutoff: int, later: int, mid: Db)
    requires cutoff <= later && SameStanding(db, mid) && mid.turns == SweepTurns(db, cutoff).turns
    ensures SweepTurns(mid, later).turns == SweepTurns(db, later).turns
  {
    forall key | key in mid.turns ensures TurnExpires(mid, key, later) == TurnExpires(db, key, later) {
      BusyDependsOnStanding(db, mid, db.turns[key].conversation);
    }
  }

  lemma ConversationsTwice(db: Db, cutoff: int, later: int, mid: Db)
    requires cutoff <= later && SameStanding(db, mid) && mid.conversations == SweepConversations(db, cutoff).conversations
    ensures SweepConversations(mid, later).conversations == SweepConversations(db, later).conversations
  {
    forall key | key in mid.conversations ensures ConversationBusy(mid, key) == ConversationBusy(db, key) {
      BusyDependsOnStanding(db, mid, key);
    }
  }

  lemma EventsTwice(db: Db, cutoff: int, later: int, mid: Db)
    requires cutoff <= later && SameStanding(db, mid) && mid.events == SweepEvents(db, cutoff).events
    ensures SweepEvents(mid, later).events == SweepEvents(db, later).events
  {
    forall key | key in mid.events
      ensures EventBusy(mid, key, db.events[key].conversationKey) == EventBusy(db, key, db.events[key].conversationKey)
    {
      EventBusyDependsOnStanding(db, mid, key, db.events[key].conversationKey);
    }
  }

  /** What the four graph-bound tables need to know of two cutoffs. */
  lemma EligibilityTwice(db: Db, cutoff: int, later: int, mid: Db)
    requires cutoff <= later && SameStanding(db, mid)
    ensures forall id :: InEligible(mid, id, later) == InEligible(db, id, later)
    ensures forall id :: InEligible(db, id, cutoff) ==> InEligible(db, id, later)
  {
    forall id ensures InEligible(mid, id, later) == InEligible(db, id, later) {
      InEligibleDependsOnStanding(db, mid, id, later);
    }
    forall id | InEligible(db, id, cutoff) ensures InEligible(db, id, later) {
      EligibleLater(db, id, cutoff, later);
    }
  }

  lemma ArtifactsTwice(db: Db, cutoff: int, later: int, mid: Db)
    requires cutoff <= later && SameStanding(db, mid) && mid.artifacts == SweepArtifacts(db, cutoff).artifacts
    ensures SweepArtifacts(mid, later).artifacts == SweepArtifacts(db, later).artifacts
  {
    EligibilityTwice(db, cutoff, later, mid);
  }

  lemma InvocationsTwice(db: Db, cutoff: int, later: int, mid: Db)
    requires cutoff <= later && SameStanding(db, mid) && mid.invocations == SweepInvocations(db, cutoff).invocations
    ensures SweepInvocations(mid, later).invocations == SweepInvocations(db, later).invocations
  {
    EligibilityTwice(db, cutoff, later, mid);
  }

  lemma ApprovalsTwice(db: Db, cutoff: int, later: int, mid: Db)
    requires cutoff <= later && SameStanding(db, mid) && mid.approvals == SweepApprovals(db, cutoff).approvals
    ensures SweepApprovals(mid, later).approvals == SweepApprovals(db, later).approvals
  {
    EligibilityTwice(db, cutoff, later, mid);
  }

  lemma DeliveriesTwice(db: Db, cutoff: int, later: int, mid: Db)
    requires cutoff <= later && SameStanding(db, mid) && mid.deliveries == SweepDeliveries(db, cutoff).deliveries
    ensures SweepDeliveries(mid, later).deliveries == SweepDeliveries(db, later).deliveries
  {
    EligibilityTwice(db, cutoff, later, mid);
  }

  lemma TasksTwice(db: Db, cutoff: int, later: int, mid: Db)
    requires cutoff <= later && SameStanding(db, mid) && mid.tasks == SweepTasks(db, cutoff).tasks
    ensures SweepTasks(mid, later).tasks == SweepTasks(db, later).tasks
  {
    EligibilityTwice(db, cutoff, later, mid);
  }

  lemma AuditReach(db: Db, cutoff: int, later: int, mid: Db, key: string)
    requires cutoff <= later && SameStanding(db, mid)
    requires key in db.audits && key in mid.audits && mid.audits[key] == db.audits[key]
    ensures AuditExpires(mid, key, later) == AuditExpires(db, key, later)
  {
    EligibilityTwice(db, cutoff, later, mid);
  }

  lemma AuditLater(db: Db, cutoff: int, later: int, key: string)
    requires cutoff <= later && key in db.audits && AuditExpires(db, key, cutoff)
    ensures AuditExpires(db, key, later)
  {
    forall id | InEligible(db, id, cutoff) ensures InEligible(db, id, later) {
      EligibleLater(db, id, cutoff, later);
    }
  }

  lemma AuditsTwice(db: Db, cutoff: int, later: int, mid: Db)
    requires cutoff <= later && SameStanding(db, mid) && mid.audits == SweepAudits(db, cutoff).audits
    ensures SweepAudits(mid, later).audits == SweepAudits(db, later).audits
  {
    forall key | key in mid.audits ensures AuditExpires(mid, key, later) == AuditExpires(db, key, later) {
      AuditReach(db, cutoff, later, mid, key);
    }
    forall key | key in db.audits && AuditExpires(db, key, cutoff) ensures AuditExpires(db, key, later) {
      AuditLater(db, cutoff, later, key);
    }
  }

  /** Sweeping at a cutoff and then at a later one is sweeping at the later one alone. */
  lemma SweepAbsorbs(db: Db, cutoff: int, later: int)
    requires cutoff <= later
    ensures Sweep(Sweep(db, cutoff), later) == Sweep(db, later)
  {
    var mid := Sweep(db, cutoff);
    SweepKeepsStanding(db, cutoff, mid);
    TurnsTwice(db, cutoff, later, mid);
    ConversationsTwice(db, cutoff, later, mid);
    EventsTwice(db, cutoff, later, mid);
    ArtifactsTwice(db, cutoff, later, mid);
    InvocationsTwice(db, cutoff, later, mid);
    ApprovalsTwice(db, cutoff, later, mid);
    DeliveriesTwice(db, cutoff, later, mid);
    TasksTwice(db, cutoff, later, mid);
    AuditsTwice(db, cutoff, later, mid);
  }

  // ---------------------------------------------------------------- counts

  datatype SweepCounts = SweepCounts(
    turns: nat, conversations: nat, events: nat, artifacts: nat, invocations: nat,
    approvals: nat, deliveries: nat, tasks: nat, audits: nat)

  const NOTHING := SweepCounts(0, 0, 0, 0, 0, 0, 0, 0, 0)

  function ExpiringTurns(db: Db, cutoff: int): set<TurnId> { set key <- db.turns | TurnExpires(db, key, cutoff) }
  function ExpiringConversations(db: Db, cutoff: int): set<ConversationId> {
    set key <- db.conversations | ConversationExpires(db, key, cutoff)
  }
  function ExpiringEvents(db: Db, cutoff: int): set<string> { set key <- db.events | EventExpires(db, key, cutoff) }
  function ExpiringArtifacts(db: Db, cutoff: int): set<string> {
    set key <- db.artifacts | InEligible(db, db.artifacts[key], cutoff)
  }
  function ExpiringInvocations(db: Db, cutoff: int): set<string> {
    set key <- db.invocations | InvocationExpires(db, key, cutoff)
  }
  function ExpiringApprovals(db: Db, cutoff: int): set<ApprovalId> {
    set key <- db.approvals | ApprovalExpires(db, key, cutoff)
  }
  function ExpiringDeliveries(db: Db, cutoff: int): set<DeliveryId> {
    set key <- db.deliveries | DeliveryExpires(db, key, cutoff)
  }
  function ExpiringTasks(db: Db, cutoff: int): set<TaskId> { set id <- db.tasks | TaskExpires(db, id, cutoff) }
  function ExpiringAudits(db: Db, cutoff: int): set<string> { set key <- db.audits | AuditExpires(db, key, cutoff) }

  /** The number of rows each statement of the sweep changes. */
  function Counts(db: Db, cutoff: int): SweepCounts {
    SweepCounts(
      |ExpiringTurns(db, cutoff)|, |ExpiringConversations(db, cutoff)|, |ExpiringEvents(db, cutoff)|,
      |ExpiringArtifacts(db, cutoff)|, |ExpiringInvocations(db, cutoff)|, |ExpiringApprovals(db, cutoff)|,
      |ExpiringDeliveries(db, cutoff)|, |ExpiringTasks(db, cutoff)|, |ExpiringAudits(db, cutoff)|)
  }

  lemma TurnsSwept(db: Db, cutoff: int, next: Db)
    requires SameStanding(db, next) && next.turns == SweepTurns(db, cutoff).turns
    ensures ExpiringTurns(next, cutoff) == {}
  {
    forall key | key in next.turns ensures !TurnExpires(next, key, cutoff) {
      BusyDependsOnStanding(db, next, db.turns[key].conversation);
    }
  }

  lemma ConversationsSwept(db: Db, cutoff: int, next: Db)
    requires SameStanding(db, next) && next.conversations == SweepConversations(db, cutoff).conversations
    ensures ExpiringConversations(next, cutoff) == {}
  {
    forall key | key in next.conversations ensures !ConversationExpires(next, key, cutoff) {
      BusyDependsOnStanding(db, next, key);
    }
  }

  lemma EventsSwept(db: Db, cutoff: int, next: Db)
    requires SameStanding(db, next) && next.events == SweepEvents(db, cutoff).events
    ensures ExpiringEvents(next, cutoff) == {}
  {
    forall key | key in next.events ensures !EventExpires(next, key, cutoff) {
      EventBusyDependsOnStanding(db, next, key, db.events[key].conversationKey);
    }
  }

  lemma ArtifactsSwept(db: Db, cutoff: int, next: Db)
    requires SameStanding(db, next) && next.artifacts == SweepArtifacts(db, cutoff).artifacts
    ensures ExpiringArtifacts(next, cutoff) == {}
  {
    EligibilityTwice(db, cutoff, cutoff, next);
  }

  lemma InvocationsSwept(db: Db, cutoff: int, next: Db)
    requires SameStanding(db, next) && next.invocations == SweepInvocations(db, cutoff).invocations
    ensures ExpiringInvocations(next, cutoff) == {}
  {
    EligibilityTwice(db, cutoff, cutoff, next);
  }

  lemma ApprovalsSwept(db: Db, cutoff: int, next: Db)
    requires SameStanding(db, next) && next.approvals == SweepApprovals(db, cutoff).approvals
    ensures ExpiringApprovals(next, cutoff) == {}
  {
    EligibilityTwice(db, cutoff, cutoff, next);
  }

  lemma DeliveriesSwept(db: Db, cutoff: int, next: Db)
    requires SameStanding(db, next) && next.deliveries == SweepDeliveries(db, cutoff).deliveries
    ensures ExpiringDeliveries(next, cutoff) == {}
  {
    EligibilityTwice(db, cutoff, cutoff, next);
  }

  lemma TasksSwept(db: Db, cutoff: int, next: Db)
    requires SameStanding(db, next) && next.tasks == SweepTasks(db, cutoff).tasks
    ensures ExpiringTasks(next, cutoff) == {}
  {
    EligibilityTwice(db, cutoff, cutoff, next);
  }

  lemma AuditsSwept(db: Db, cutoff: int, next: Db)
    requires SameStanding(db, next) && next.audits == SweepAudits(db, cutoff).audits
    ensures ExpiringAudits(next, cutoff) == {}
  {
    forall key | key in next.audits ensures !AuditExpires(next, key, cutoff) {
      AuditReach(db, cutoff, cutoff, next, key);
    }
  }

  /** Repeating a sweep with the same cutoff reports zero for every count. */
  lemma RepeatedSweepFindsNothing(db: Db, cutoff: int)
    ensures Counts(Sweep(db, cutoff), cutoff) == NOTHING
    ensures Sweep(Sweep(db, cutoff), cutoff) == Sweep(db, cutoff)
  {
    var next := Sweep(db, cutoff);
    SweepKeepsStanding(db, cutoff, next);
    TurnsSwept(db, cutoff, next);
    ConversationsSwept(db, cutoff, next);
    EventsSwept(db, cutoff, next);
    ArtifactsSwept(db, cutoff, next);
    InvocationsSwept(db, cutoff, next);
    ApprovalsSwept(db, cutoff, next);
    DeliveriesSwept(db, cutoff, next);
    TasksSwept(db, cutoff, next);
    AuditsSwept(db, cutoff, next);
    SweepAbsorbs(db, cutoff, cutoff);
  }

  /** The counts are the numbers of rows that are gone or differ afterwards, table by table. */
  ghost predicate CountsChanges(db: Db, next: Db, counts: SweepCounts) {
    && counts.turns == |set key | key in db.turns && key !in next.turns|
    && counts.artifacts == |set key | key in db.artifacts && key !in next.artifacts|
    && counts.audits == |set key | key in db.audits && key !in next.audits|
    && counts.conversations == |set key | key in db.conversations && key in next.conversations
                                          && next.conversations[key] != db.conversations[key]|
    && counts.events == |set key | key in db.events && key in next.events && next.events[key] != db.events[key]|
    && counts.invocations == |set key | key in db.invocations && key in next.invocations
                                        && next.invocations[key] != db.invocations[key]|
    && counts.approvals == |set key | key in db.approvals && key in next.approvals
                                      && next.approvals[key] != db.approvals[key]|
    && counts.deliveries == |set key | key in db.deliveries && key in next.deliveries
                                       && next.deliveries[key] != db.deliveries[key]|
    && counts.tasks == |set id | id in db.tasks && id in next.tasks && next.tasks[id] != db.tasks[id]|
  }

  lemma DeletionsCounted(db: Db, cutoff: int)
    ensures ExpiringTurns(db, cutoff) == set key | key in db.turns && key !in SweepTurns(db, cutoff).turns
    ensures ExpiringArtifacts(db, cutoff) == set key | key in db.artifacts && key !in SweepArtifacts(db, cutoff).artifacts
    ensures ExpiringAudits(db, cutoff) == set key | key in db.audits && key !in SweepAudits(db, cutoff).audits
  {}

  lemma ThreadsCounted(db: Db, cutoff: int)
    ensures var next := SweepConversations(db, cutoff).conversations;
            ExpiringConversations(db, cutoff) ==
              set key | key in db.conversations && key in next && next[key] != db.conversations[key]
    ensures var next := SweepEvents(db, cutoff).events;
            ExpiringEvents(db, cutoff) == set key | key in db.events && key in next && next[key] != db.events[key]
  {}

  lemma InvocationsCounted(db: Db, cutoff: int)
    ensures var next := SweepInvocations(db, cutoff).invocations;
            ExpiringInvocations(db, cutoff) == set key | key in db.invocations && key in next && next[key] != db.invocations[key]
  {}

  lemma ApprovalsCounted(db: Db, cutoff: int)
    ensures var next := SweepApprovals(db, cutoff).approvals;
            ExpiringApprovals(db, cutoff) == set key | key in db.approvals && key in next && next[key] != db.approvals[key]
  {}

  lemma DeliveriesCounted(db: Db, cutoff: int)
    ensures var next := SweepDeliveries(db, cutoff).deliveries;
            ExpiringDeliveries(db, cutoff) == set key | key in db.deliveries && key in next && next[key] != db.deliveries[key]
  {}

  lemma TasksCounted(db: Db, cutoff: int)
    ensures var next := SweepTasks(db, cutoff).tasks;
            ExpiringTasks(db, cutoff) == set id | id in db.tasks && id in next && next[id] != db.tasks[id]
  {}

  lemma CountsAreChanges(db: Db, cutoff: int)
    ensures CountsChanges(db, Sweep(db, cutoff), Counts(db, cutoff))
  {
    DeletionsCounted(db, cutoff);
    ThreadsCounted(db, cutoff);
    InvocationsCounted(db, cutoff);
    ApprovalsCounted(db, cutoff);
    DeliveriesCounted(db, cutoff);
    TasksCounted(db, cutoff);
  }

  // ---------------------------------------------------------------- the audit row of each sweep

  /** The audit rows named are left out of account. */
  function Apart(db: Db, rows: set<string>): Db {
    db.(audits := db.audits - rows)
  }

  /** Apart from its own audit row, a sweep transaction is the sweep. */
  lemma SweepApart(db: Db, cutoff: int, sweptAt: int, audit: string, correlation: string, next: Db, rows: set<string>)
    requires SweepTx(db, cutoff, sweptAt, audit, correlation) == Commit(next) && audit in rows
    ensures Apart(next, rows) == Apart(Sweep(db, cutoff), rows)
  {}

  // -- each statement depends on its own table and on the standing of the rest

  lemma TurnsAlike(db: Db, other: Db, cutoff: int)
    requires SameStanding(db, other) && other.turns == db.turns
    ensures SweepTurns(other, cutoff).turns == SweepTurns(db, cutoff).turns && ExpiringTurns(other, cutoff) == ExpiringTurns(db, cutoff)
  {
    forall key | key in db.turns ensures TurnExpires(other, key, cutoff) == TurnExpires(db, key, cutoff) {
      BusyDependsOnStanding(db, other, db.turns[key].conversation);
    }
  }

  lemma ConversationsAlike(db: Db, other: Db, cutoff: int)
    requires SameStanding(db, other) && other.conversations == db.conversations
    ensures SweepConversations(other, cutoff).conversations == SweepConversations(db, cutoff).conversations && ExpiringConversations(other, cutoff) == ExpiringConversations(db, cutoff)
  {
    forall key | key in db.conversations
      ensures ConversationExpires(other, key, cutoff) == ConversationExpires(db, key, cutoff)
    {
      BusyDependsOnStanding(db, other, key);
    }
  }

  lemma EventsAlike(db: Db, other: Db, cutoff: int)
    requires SameStanding(db, other) && other.events == db.events
    ensures SweepEvents(other, cutoff).events == SweepEvents(db, cutoff).events && ExpiringEvents(other, cutoff) == ExpiringEvents(db, cutoff)
  {
    forall key | key in db.events ensures EventExpires(other, key, cutoff) == EventExpires(db, key, cutoff) {
      EventBusyDependsOnStanding(db, other, key, db.events[key].conversationKey);
    }
  }

  lemma ArtifactsAlike(db: Db, other: Db, cutoff: int)
    requires SameStanding(db, other) && other.artifacts == db.artifacts
    ensures SweepArtifacts(other, cutoff).artifacts == SweepArtifacts(db, cutoff).artifacts && ExpiringArtifacts(other, cutoff) == ExpiringArtifacts(db, cutoff)
  {
    EligibilityTwice(db, cutoff, cutoff, other);
  }

  lemma InvocationsAlike(db: Db, other: Db, cutoff: int)
    requires SameStanding(db, other) && other.invocations == db.invocations
    ensures SweepInvocations(other, cutoff).invocations == SweepInvocations(db, cutoff).invocations && ExpiringInvocations(other, cutoff) == ExpiringInvocations(db, cutoff)
  {
    EligibilityTwice(db, cutoff, cutoff, other);
  }

  lemma ApprovalsAlike(db: Db, other: Db, cutoff: int)
    requires SameStanding(db, other) && other.approvals == db.approvals
    ensures SweepApprovals(other, cutoff).approvals == SweepApprovals(db, cutoff).approvals && ExpiringApprovals(other, cutoff) == ExpiringApprovals(db, cutoff)
  {
    EligibilityTwice(db, cutoff, cutoff, other);
  }

  lemma DeliveriesAlike(db: Db, other: Db, cutoff: int)
    requires SameStanding(db, other) && other.deliveries == db.deliveries
    ensures SweepDeliveries(other, cutoff).deliveries == SweepDeliveries(db, cutoff).deliveries && ExpiringDeliveries(other, cutoff) == ExpiringDeliveries(db, cutoff)
  {
    EligibilityTwice(db, cutoff, cutoff, other);
  }

  lemma TasksAlike(db: Db, other: Db, cutoff: int)
    requires SameStanding(db, other) && other.tasks == db.tasks
    ensures SweepTasks(other, cutoff).tasks == SweepTasks(db, cutoff).tasks && ExpiringTasks(other, cutoff) == ExpiringTasks(db, cutoff)
  {
    EligibilityTwice(db, cutoff, cutoff, other);
  }

  lemma AuditsAlike(db: Db, other: Db, cutoff: int)
    requires SameStanding(db, other) && other.audits == db.audits
    ensures SweepAudits(other, cutoff).audits == SweepAudits(db, cutoff).audits && ExpiringAudits(other, cutoff) == ExpiringAudits(db, cutoff)
  {
    forall key | key in db.audits ensures AuditExpires(other, key, cutoff) == AuditExpires(db, key, cutoff) {
      AuditReach(db, cutoff, cutoff, other, key);
    }
  }

  lemma TablesAlike(db: Db, other: Db, cutoff: int)
    requires other == db.(audits := other.audits)
    ensures Sweep(other, cutoff) == Sweep(db, cutoff).(audits := SweepAudits(other, cutoff).audits)
  {
    assert SameStanding(db, other);
    TurnsAlike(db, other, cutoff);
    ConversationsAlike(db, other, cutoff);
    EventsAlike(db, other, cutoff);
    ArtifactsAlike(db, other, cutoff);
    InvocationsAlike(db, other, cutoff);
    ApprovalsAlike(db, other, cutoff);
    DeliveriesAlike(db, other, cutoff);
    TasksAlike(db, other, cutoff);
  }

  lemma AuditsApart(db: Db, other: Db, cutoff: int, rows: set<string>)
    requires other == db.(audits := other.audits) && db.audits - rows == other.audits - rows
    ensures SweepAudits(db, cutoff).audits - rows == SweepAudits(other, cutoff).audits - rows
  {
    assert SameStanding(db, other);
    forall key | key !in rows && (key in db.audits || key in other.audits)
      ensures key in db.audits && key in other.audits && db.audits[key] == other.audits[key]
      ensures AuditExpires(other, key, cutoff) == AuditExpires(db, key, cutoff)
    {
      assert key in db.audits - rows && key in other.audits - rows;
      assert (db.audits - rows)[key] == (other.audits - rows)[key];
      AuditReach(db, cutoff, cutoff, other, key);
    }
  }

  /** Which audit rows there are does not matter to the rest of the sweep. */
  lemma SweepIgnoresAudits(db: Db, other: Db, cutoff: int, rows: set<string>)
    requires Apart(db, rows) == Apart(other, rows)
    ensures Apart(Sweep(db, cutoff), rows) == Apart(Sweep(other, cutoff), rows)
  {
    assert other == db.(audits := other.audits);
    TablesAlike(db, other, cutoff);
    AuditsApart(db, other, cutoff, rows);
  }

  lemma OwnAuditIsYoung(db: Db, cutoff: int, sweptAt: int, audit: string, correlation: string, next: Db)
    requires cutoff <= sweptAt && ExpiringAudits(db, cutoff) == {}
    requires next == db.(audits := db.audits[audit := Audit(sweptAt, None, correlation)])
    ensures ExpiringAudits(next, cutoff) == {}
  {
    assert SameStanding(db, next);
    forall key | key in next.audits ensures !AuditExpires(next, key, cutoff) {
      if key != audit {
        AuditReach(db, cutoff, cutoff, next, key);
        assert key !in ExpiringAudits(db, cutoff);
      }
    }
  }

  /** A second sweep transaction with the same cutoff reports zero for every count. */
  lemma RepeatedSweepReportsZero(db: Db, cutoff: int, sweptAt: int, audit: string, correlation: string, next: Db)
    requires SweepTx(db, cutoff, sweptAt, audit, correlation) == Commit(next)
    ensures Counts(next, cutoff) == NOTHING
  {
    var swept := Sweep(db, cutoff);
    RepeatedSweepFindsNothing(db, cutoff);
    assert SameStanding(swept, next);
    TurnsAlike(swept, next, cutoff);
    ConversationsAlike(swept, next, cutoff);
    EventsAlike(swept, next, cutoff);
    ArtifactsAlike(swept, next, cutoff);
    InvocationsAlike(swept, next, cutoff);
    ApprovalsAlike(swept, next, cutoff);
    DeliveriesAlike(swept, next, cutoff);
    TasksAlike(swept, next, cutoff);
    OwnAuditIsYoung(swept, cutoff, sweptAt, audit, correlation, next);
  }

  /** Two sweep transactions leave what the later one alone would have left, apart from their own audit rows. */
  lemma TwoSweepsAreOne(db: Db, first: (int, int, string, string), second: (int, int, string, string), mid: Db, both: Db, one: Db)
    requires first.0 <= second.0
    requires SweepTx(db, first.0, first.1, first.2, first.3) == Commit(mid)
    requires SweepTx(mid, second.0, second.1, second.2, second.3) == Commit(both)
    requires SweepTx(db, second.0, second.1, second.2, second.3) == Commit(one)
    ensures Apart(both, {first.2, second.2}) == Apart(one, {first.2, second.2})
  {
    var rows := {first.2, second.2};
    SweepApart(db, first.0, first.1, first.2, first.3, mid, rows);
    SweepApart(mid, second.0, second.1, second.2, second.3, both, rows);
    SweepApart(db, second.0, second.1, second.2, second.3, one, rows);
    SweepIgnoresAudits(mid, Sweep(db, first.0), second.0, rows);
    SweepAbsorbs(db, first.0, second.0);
  }

  // ---------------------------------------------------------------- protection

  /** The graph is active, too recent, or owes something. */
  ghost predicate Shielded(db: Db, root: TaskId, cutoff: int) {
    || GraphActive(db, root)
    || GraphOwes(db, root)
    || (exists id :: InGraph(db, root, id) && db.tasks[id].finishedAt.Some? && db.tasks[id].finishedAt.value >= cutoff)
    || (exists id :: InGraph(db, root, id) && db.tasks[id].finishedAt.None? && db.tasks[id].fixed.createdAt >= cutoff)
  }

  lemma ShieldedIsNotEligible(db: Db, root: TaskId, cutoff: int)
    requires Shielded(db, root, cutoff)
    ensures forall id :: InGraph(db, root, id) ==> !InEligible(db, id, cutoff)
  {
    assert !Eligible(db, root, cutoff);
  }

  /** The rows of a graph and everything recorded for its nodes are the same in both databases. */
  ghost predicate SameGraph(db: Db, next: Db, root: TaskId) {
    && (forall id :: InGraph(db, root, id) ==> id in next.tasks && next.tasks[id] == db.tasks[id])
    && (forall key :: key in db.invocations && InGraph(db, root, db.invocations[key].task) ==>
          key in next.invocations && next.invocations[key] == db.invocations[key])
    && (forall key :: key in db.approvals && InGraph(db, root, db.approvals[key].task) ==>
          key in next.approvals && next.approvals[key] == db.approvals[key])
    && (forall key :: key in db.deliveries && InGraph(db, root, db.deliveries[key].task) ==>
          key in next.deliveries && next.deliveries[key] == db.deliveries[key])
    && (forall key :: key in db.artifacts && InGraph(db, root, db.artifacts[key]) ==>
          key in next.artifacts && next.artifacts[key] == db.artifacts[key])
  }

  lemma TasksOutOfReach(db: Db, root: TaskId, cutoff: int)
    requires forall id :: InGraph(db, root, id) ==> !InEligible(db, id, cutoff)
    ensures var next := SweepTasks(db, cutoff).tasks;
            forall key :: InGraph(db, root, key) ==> key in next && next[key] == db.tasks[key]
  {}

  lemma InvocationsOutOfReach(db: Db, root: TaskId, cutoff: int)
    requires forall id :: InGraph(db, root, id) ==> !InEligible(db, id, cutoff)
    ensures var next := SweepInvocations(db, cutoff).invocations;
            forall key :: key in db.invocations && InGraph(db, root, db.invocations[key].task) ==> key in next && next[key] == db.invocations[key]
  {}

  lemma ApprovalsOutOfReach(db: Db, root: TaskId, cutoff: int)
    requires forall id :: InGraph(db, root, id) ==> !InEligible(db, id, cutoff)
    ensures var next := SweepApprovals(db, cutoff).approvals;
            forall key :: key in db.approvals && InGraph(db, root, db.approvals[key].task) ==> key in next && next[key] == db.approvals[key]
  {}

  lemma DeliveriesOutOfReach(db: Db, root: TaskId, cutoff: int)
    requires forall id :: InGraph(db, root, id) ==> !InEligible(db, id, cutoff)
    ensures var next := SweepDeliveries(db, cutoff).deliveries;
            forall key :: key in db.deliveries && InGraph(db, root, db.deliveries[key].task) ==> key in next && next[key] == db.deliveries[key]
  {}

  lemma ArtifactsOutOfReach(db: Db, root: TaskId, cutoff: int)
    requires forall id :: InGraph(db, root, id) ==> !InEligible(db, id, cutoff)
    ensures var next := SweepArtifacts(db, cutoff).artifacts;
            forall key :: key in db.artifacts && InGraph(db, root, db.artifacts[key]) ==> key in next && next[key] == db.artifacts[key]
  {}

  /** A sweep leaves every row of a shielded graph as it is. */
  lemma ShieldedGraphsAreUntouched(db: Db, root: TaskId, cutoff: int, next: Db)
    requires next == Sweep(db, cutoff) && Shielded(db, root, cutoff)
    ensures SameGraph(db, next, root)
  {
    ShieldedIsNotEligible(db, root, cutoff);
    TasksOutOfReach(db, root, cutoff);
    InvocationsOutOfReach(db, root, cutoff);
    ApprovalsOutOfReach(db, root, cutoff);
    DeliveriesOutOfReach(db, root, cutoff);
    ArtifactsOutOfReach(db, root, cutoff);
  }

  /** Right after a sweep a task it reached cannot be retried; module Markers says how long that lasts. */
  lemma SweptTaskIsNotEligible(db: Db, id: TaskId, cutoff: int)
    requires InEligible(db, id, cutoff)
    ensures id in Sweep(db, cutoff).tasks && !RetryEligible(Sweep(db, cutoff), id)
  {
    var next := SweepTasks(db, cutoff).tasks;
    assert next[id].content == ErasedContent(EXPIRED_MARKER);
  }

  /** Outside content nothing changes: no row of the scheduler's columns differs after a sweep. */
  lemma SweepChangesContentOnly(db: Db, cutoff: int, next: Db)
    requires next == Sweep(db, cutoff)
    ensures next.tasks.Keys == db.tasks.Keys && next.deps == db.deps
    ensures forall id :: id in db.tasks ==> next.tasks[id] == db.tasks[id].(content := next.tasks[id].content)
    ensures SameStanding(db, next)
  {
    SweepKeepsStanding(db, cutoff, next);
    assert next.tasks == SweepTasks(db, cutoff).tasks;
  }

  /** A conversation with protected work keeps its turns and its title. */
  lemma BusyConversationsAreUntouched(db: Db, id: ConversationId, cutoff: int, next: Db)
    requires next == Sweep(db, cutoff) && ConversationBusy(db, id)
    ensures forall key :: key in db.turns && db.turns[key].conversation == id ==>
              key in next.turns && next.turns[key] == db.turns[key]
    ensures id in db.conversations ==> next.conversations[id] == db.conversations[id]
  {
    assert next.turns == SweepTurns(db, cutoff).turns;
    assert next.conversations == SweepConversations(db, cutoff).conversations;
  }

  // ---------------------------------------------------------------- the nine statements in order

  method SweepThreads(db: Db, cutoff: int) returns (tx: Db, turns: nat, conversations: nat, events: nat)
    ensures tx == db.(turns := SweepTurns(db, cutoff).turns,
                      conversations := SweepConversations(db, cutoff).conversations,
                      events := SweepEvents(db, cutoff).events)
    ensures turns == |ExpiringTurns(db, cutoff)| && conversations == |ExpiringConversations(db, cutoff)|
            && events == |ExpiringEvents(db, cutoff)|
  {
    turns := |ExpiringTurns(db, cutoff)|;
    tx := SweepTurns(db, cutoff);
    ConversationsAlike(db, tx, cutoff);
    conversations := |ExpiringConversations(tx, cutoff)|;
    tx := SweepConversations(tx, cutoff);
    TopicSweepKeepsStanding(db, cutoff, tx);
    EventsAlike(db, tx, cutoff);
    events := |ExpiringEvents(tx, cutoff)|;
    tx := SweepEvents(tx, cutoff);
  }

  method SweepRecords(db: Db, cutoff: int) returns (tx: Db, artifacts: nat, invocations: nat, approvals: nat)
    ensures tx == db.(artifacts := SweepArtifacts(db, cutoff).artifacts,
                      invocations := SweepInvocations(db, cutoff).invocations,
                      approvals := SweepApprovals(db, cutoff).approvals)
    ensures artifacts == |ExpiringArtifacts(db, cutoff)| && invocations == |ExpiringInvocations(db, cutoff)|
            && approvals == |ExpiringApprovals(db, cutoff)|
  {
    artifacts := |ExpiringArtifacts(db, cutoff)|;
    tx := SweepArtifacts(db, cutoff);
    InvocationsAlike(db, tx, cutoff);
    invocations := |ExpiringInvocations(tx, cutoff)|;
    tx := SweepInvocations(tx, cutoff);
    DebtSweepKeepsStanding(db, cutoff, tx);
    ApprovalsAlike(db, tx, cutoff);
    approvals := |ExpiringApprovals(tx, cutoff)|;
    tx := SweepApprovals(tx, cutoff);
  }

  method SweepWork(db: Db, cutoff: int) returns (tx: Db, deliveries: nat, tasks: nat, audits: nat)
    ensures tx == db.(deliveries := SweepDeliveries(db, cutoff).deliveries,
                      tasks := SweepTasks(db, cutoff).tasks,
                      audits := SweepAudits(db, cutoff).audits)
    ensures deliveries == |ExpiringDeliveries(db, cutoff)| && tasks == |ExpiringTasks(db, cutoff)|
            && audits == |ExpiringAudits(db, cutoff)|
  {
    deliveries := |ExpiringDeliveries(db, cutoff)|;
    tx := SweepDeliveries(db, cutoff);
    DebtSweepKeepsStanding(db, cutoff, tx);
    TasksAlike(db, tx, cutoff);
    tasks := |ExpiringTasks(tx, cutoff)|;
    tx := SweepTasks(tx, cutoff);
    TaskSweepKeepsStanding(db, cutoff, tx);
    AuditsAlike(db, tx, cutoff);
    audits := |ExpiringAudits(tx, cutoff)|;
    tx := SweepAudits(tx, cutoff);
  }

  lemma ThreadsSweptFirst(db: Db, cutoff: int, tx: Db)
    requires tx == db.(turns := SweepTurns(db, cutoff).turns,
                       conversations := SweepConversations(db, cutoff).conversations,
                       events := SweepEvents(db, cutoff).events)
    ensures SameStanding(db, tx)
  {
    TopicSweepKeepsStanding(db, cutoff, tx);
  }

  lemma RecordsSweptNext(db: Db, cutoff: int, tx: Db, next: Db)
    requires tx.artifacts == db.artifacts && tx.invocations == db.invocations && tx.approvals == db.approvals
    requires SameStanding(db, tx)
    requires next == tx.(artifacts := SweepArtifacts(tx, cutoff).artifacts,
                         invocations := SweepInvocations(tx, cutoff).invocations,
                         approvals := SweepApprovals(tx, cutoff).approvals)
    ensures next == tx.(artifacts := SweepArtifacts(db, cutoff).artifacts,
                        invocations := SweepInvocations(db, cutoff).invocations,
                        approvals := SweepApprovals(db, cutoff).approvals)
    ensures ExpiringArtifacts(tx, cutoff) == ExpiringArtifacts(db, cutoff)
            && ExpiringInvocations(tx, cutoff) == ExpiringInvocations(db, cutoff)
            && ExpiringApprovals(tx, cutoff) == ExpiringApprovals(db, cutoff)
  {
    ArtifactsAlike(db, tx, cutoff);
    InvocationsAlike(db, tx, cutoff);
    ApprovalsAlike(db, tx, cutoff);
  }

  lemma WorkSweptLast(db: Db, cutoff: int, tx: Db, next: Db)
    requires tx.deliveries == db.deliveries && tx.tasks == db.tasks && tx.audits == db.audits
    requires SameStanding(db, tx)
    requires next == tx.(deliveries := SweepDeliveries(tx, cutoff).deliveries,
                         tasks := SweepTasks(tx, cutoff).tasks,
                         audits := SweepAudits(tx, cutoff).audits)
    ensures next == tx.(deliveries := SweepDeliveries(db, cutoff).deliveries,
                        tasks := SweepTasks(db, cutoff).tasks,
                        audits := SweepAudits(db, cutoff).audits)
    ensures ExpiringDeliveries(tx, cutoff) == ExpiringDeliveries(db, cutoff)
            && ExpiringTasks(tx, cutoff) == ExpiringTasks(db, cutoff)
            && ExpiringAudits(tx, cutoff) == ExpiringAudits(db, cutoff)
  {
    DeliveriesAlike(db, tx, cutoff);
    TasksAlike(db, tx, cutoff);
    AuditsAlike(db, tx, cutoff);
  }

  /** Each statement sees the tables as the ones before it left them; the result is the sweep of the first state. */
  method SweepTables(db: Db, cutoff: int) returns (tx: Db, counts: SweepCounts)
    ensures tx == Sweep(db, cutoff) && counts == Counts(db, cutoff)
  {
    var turns, conversations, events, artifacts, invocations, approvals, deliveries, tasks, audits;
    tx, turns, conversations, events := SweepThreads(db, cutoff);
    ThreadsSweptFirst(db, cutoff, tx);
    ghost var threads := tx;
    tx, artifacts, invocations, approvals := SweepRecords(tx, cutoff);
    RecordsSweptNext(db, cutoff, threads, tx);
    DebtSweepKeepsStanding(db, cutoff, tx);
    ghost var records := tx;
    tx, deliveries, tasks, audits := SweepWork(tx, cutoff);
    WorkSweptLast(db, cutoff, records, tx);
    counts := SweepCounts(turns, conversations, events, artifacts, invocations, approvals, deliveries, tasks, audits);
  }
}
