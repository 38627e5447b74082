/**
 The bounded catch-up snapshot sent to a reconnecting device: which records are selected, and which
 are dropped, in which order, until the encoded event fits.
 */
module Snapshot {
  import opened Model

  const MAX_BYTES := 120 * 1024
  const TASK_LIMIT := 128
  const ACTIVE_TASK_LIMIT := 64
  const APPROVAL_LIMIT := 128
  const PENDING_APPROVAL_LIMIT := 64

  // ---------------------------------------------------------------- shrinking

  function Min(a: nat, b: nat): nat { if a < b then a else b }

  type Payload = string

  /** What goes into the event. The encoder is any function from this to a number of bytes. */
  datatype Records = Records(messages: seq<Payload>, tasks: seq<Payload>, approvals: seq<Payload>)

  /** How many of each kind are gone. */
  datatype Drops = Drops(terminal: nat, decided: nat, messages: nat, pending: nat, active: nat)

  const NO_DROPS := Drops(0, 0, 0, 0, 0)

  function Size(all: Records): nat {
    |all.tasks| + |all.approvals| + |all.messages|
  }

  /** The drops are within bounds, add up to n, and no kind is touched before the cheaper ones are used up. */
  predicate InOrder(all: Records, active: nat, pending: nat, n: nat, x: Drops) {
    && active <= |all.tasks| && pending <= |all.approvals|
    && x.terminal <= |all.tasks| - active && x.decided <= |all.approvals| - pending
    && x.messages <= |all.messages| && x.pending <= pending && x.active <= active
    && x.terminal + x.active + x.decided + x.pending + x.messages == n
    && (x.decided + x.messages + x.pending + x.active > 0 ==> x.terminal == |all.tasks| - active)
    && (x.messages + x.pending + x.active > 0 ==> x.decided == |all.approvals| - pending)
    && (x.pending + x.active > 0 ==> x.messages == |all.messages|)
    && (x.active > 0 ==> x.pending == pending)
  }

  /** One more drop, of the cheapest kind that is left. */
  function OneMore(all: Records, active: nat, pending: nat, x: Drops): Drops {
    if x.terminal < |all.tasks| - active then x.(terminal := x.terminal + 1)
    else if x.decided < |all.approvals| - pending then x.(decided := x.decided + 1)
    else if x.messages < |all.messages| then x.(messages := x.messages + 1)
    else if x.pending < pending then x.(pending := x.pending + 1)
    else x.(active := x.active + 1)
  }

  function Schedule(all: Records, active: nat, pending: nat, n: nat): (drops: Drops)
    requires active <= |all.tasks| && pending <= |all.approvals| && n <= Size(all)
    ensures InOrder(all, active, pending, n, drops)
  {
    if n == 0 then NO_DROPS
    else
      var before := Schedule(all, active, pending, n - 1);
      OneMoreInOrder(all, active, pending, n - 1, before);
      OneMore(all, active, pending, before)
  }

  lemma OneMoreInOrder(all: Records, active: nat, pending: nat, n: nat, x: Drops)
    requires InOrder(all, active, pending, n, x) && n < Size(all)
    ensures InOrder(all, active, pending, n + 1, OneMore(all, active, pending, x))
  {}

  /** There is only one way to drop n records in order. */
  lemma ScheduleIsUnique(all: Records, active: nat, pending: nat, n: nat, x: Drops)
    requires n <= Size(all) && InOrder(all, active, pending, n, x)
    ensures x == Schedule(all, active, pending, n)
  {}

  /** What is left: a prefix of the tasks and of the approvals, a suffix of the messages. */
  function Left(all: Records, drops: Drops): Records
    requires drops.terminal + drops.active <= |all.tasks| && drops.decided + drops.pending <= |all.approvals|
    requires drops.messages <= |all.messages|
  {
    Records(
      all.messages[drops.messages..],
      all.tasks[..|all.tasks| - drops.terminal - drops.active],
      all.approvals[..|all.approvals| - drops.decided - drops.pending])
  }

  function Cut(all: Records, active: nat, pending: nat, n: nat): (cut: Records)
    requires active <= |all.tasks| && pending <= |all.approvals| && n <= Size(all)
    ensures Size(cut) == Size(all) - n
  {
    Left(all, Schedule(all, active, pending, n))
  }

  lemma LeftIsSlice(all: Records, x: Drops, left: Records)
    requires x.terminal + x.active <= |all.tasks| && x.decided + x.pending <= |all.approvals|
    requires x.messages <= |all.messages| && left == Left(all, x)
    ensures left.tasks == all.tasks[..|left.tasks|] && left.approvals == all.approvals[..|left.approvals|]
    ensures |left.messages| <= |all.messages| && left.messages == all.messages[|all.messages| - |left.messages|..]
  {
    assert |all.messages| - |left.messages| == x.messages;
  }

  lemma LeftInOrder(all: Records, active: nat, pending: nat, n: nat, x: Drops, left: Records)
    requires InOrder(all, active, pending, n, x) && left == Left(all, x)
    ensures |left.tasks| < active ==> |left.messages| == 0 && |left.approvals| == 0
    ensures |left.approvals| < pending ==> |left.messages| == 0 && |left.tasks| <= active
    ensures |left.messages| < |all.messages| ==> |left.tasks| <= active && |left.approvals| <= pending
  {
    var tasks, approvals, messages := |left.tasks|, |left.approvals|, |left.messages|;
    assert tasks == |all.tasks| - x.terminal - x.active;
    assert approvals == |all.approvals| - x.decided - x.pending;
    assert messages == |all.messages| - x.messages;
  }

  /**
   However much is dropped, tasks and approvals keep a prefix and messages a suffix; an active task
   goes only when no message and no approval is left, a pending approval only after the messages.
   */
  lemma CheapestFirst(all: Records, active: nat, pending: nat, n: nat, cut: Records)
    requires active <= |all.tasks| && pending <= |all.approvals| && n <= Size(all) && cut == Cut(all, active, pending, n)
    ensures cut.tasks == all.tasks[..|cut.tasks|] && cut.approvals == all.approvals[..|cut.approvals|]
    ensures |cut.messages| <= |all.messages| && cut.messages == all.messages[|all.messages| - |cut.messages|..]
    ensures |cut.tasks| < active ==> cut.messages == [] && cut.approvals == []
    ensures |cut.approvals| < pending ==> cut.messages == [] && |cut.tasks| <= active
    ensures |cut.messages| < |all.messages| ==> |cut.tasks| <= active && |cut.approvals| <= pending
  {
    LeftInOrder(all, active, pending, n, Schedule(all, active, pending, n), cut);
    LeftIsSlice(all, Schedule(all, active, pending, n), cut);
  }

  /** Successive events, each one drop shorter than the last. */
  ghost predicate Shrinking(trail: seq<Records>, active: nat, pending: nat) {
    forall i :: 0 < i < |trail| ==>
      trail[i] == Dropped(trail[i - 1], Min(active, |trail[i - 1].tasks|), Min(pending, |trail[i - 1].approvals|))
  }

  /** Drops one record at a time until the event fits or nothing is left. */
  method ShrinkToFit(encoded: Records -> nat, all: Records, activeCount: nat, pendingCount: nat)
    returns (event: Option<Records>, ghost trail: seq<Records>)
    requires activeCount <= |all.tasks| && pendingCount <= |all.approvals|
    ensures trail != [] && trail[0] == all && Shrinking(trail, activeCount, pendingCount)
    ensures Size(trail[|trail| - 1]) + |trail| == Size(all) + 1
    ensures forall i :: 0 <= i < |trail| - 1 ==> encoded(trail[i]) > MAX_BYTES
    ensures event.Some? ==> event.value == trail[|trail| - 1] && encoded(event.value) <= MAX_BYTES
    ensures event.None? ==> trail[|trail| - 1] == Records([], [], []) && encoded(Records([], [], [])) > MAX_BYTES
  {
    var active, pending, now, shrunk := activeCount, pendingCount, all, true;
    trail := [all];
    while encoded(now) > MAX_BYTES
      invariant trail != [] && trail[0] == all && trail[|trail| - 1] == now
      invariant Shrinking(trail, activeCount, pendingCount)
      invariant Size(now) + |trail| == Size(all) + 1
      invariant active == Min(activeCount, |now.tasks|) && pending == Min(pendingCount, |now.approvals|)
      invariant forall i :: 0 <= i < |trail| - 1 ==> encoded(trail[i]) > MAX_BYTES
      decreases Size(now)
    {
      now, active, pending, shrunk := DropOne(now, active, pending);
      if !shrunk {
        return None, trail;
      }
      trail := trail + [now];
    }
    event := Some(now);
  }

  /** The loop's events are those of the schedule. */
  lemma {:induction false} TrailIsSchedule(trail: seq<Records>, all: Records, active: nat, pending: nat, i: nat)
    requires active <= |all.tasks| && pending <= |all.approvals|
    requires i < |trail| <= Size(all) + 1 && trail[0] == all && Shrinking(trail, active, pending)
    ensures trail[i] == Cut(all, active, pending, i)
    decreases i
  {
    if i == 0 {
      CutNothing(all, active, pending);
    } else {
      TrailIsSchedule(trail, all, active, pending, i - 1);
      CutOneMore(all, active, pending, i - 1, trail[i - 1]);
    }
  }

  predicate TooLarge(encoded: Records -> nat, all: Records, active: nat, pending: nat, n: nat)
    requires active <= |all.tasks| && pending <= |all.approvals| && n <= Size(all)
  {
    encoded(Cut(all, active, pending, n)) > MAX_BYTES
  }

  /** The n-th event of the schedule fits and none before it does. */
  ghost predicate FirstFit(encoded: Records -> nat, all: Records, active: nat, pending: nat, n: nat) {
    && active <= |all.tasks| && pending <= |all.approvals| && n <= Size(all)
    && !TooLarge(encoded, all, active, pending, n)
    && forall fewer :: 0 <= fewer < n ==> TooLarge(encoded, all, active, pending, fewer)
  }

  /**
   The result is the first event of the schedule that fits, so its last drop was needed; it fails
   only if no event of the schedule fits, and then not even the empty event does.
   */
  method BoundedSnapshot(encoded: Records -> nat, all: Records, activeCount: nat, pendingCount: nat)
    returns (event: Option<Records>)
    ensures var active, pending := Min(activeCount, |all.tasks|), Min(pendingCount, |all.approvals|);
            if event.Some?
            then exists n :: FirstFit(encoded, all, active, pending, n) && event.value == Cut(all, active, pending, n)
            else forall n :: 0 <= n <= Size(all) ==> TooLarge(encoded, all, active, pending, n)
    ensures event.Some? ==> encoded(event.value) <= 122880
    ensures event.None? ==> encoded(Records([], [], [])) > 122880
  {
    var active, pending := activeCount, pendingCount;
    if active > |all.tasks| {
      active := |all.tasks|;
    }
    if pending > |all.approvals| {
      pending := |all.approvals|;
    }
    assert active == Min(activeCount, |all.tasks|) && pending == Min(pendingCount, |all.approvals|);
    ghost var trail;
    event, trail := ShrinkToFit(encoded, all, active, pending);
    TrailMeets(encoded, all, active, pending, trail);
    if event.Some? {
      assert FirstFit(encoded, all, active, pending, |trail| - 1);
    } else {
      assert |trail| == Size(all) + 1;
      assert forall n :: 0 <= n <= Size(all) ==> TooLarge(encoded, all, active, pending, n);
    }
  }

  /** Being too large, event by event, in terms of the schedule. */
  lemma TrailMeets(encoded: Records -> nat, all: Records, active: nat, pending: nat, trail: seq<Records>)
    requires active <= |all.tasks| && pending <= |all.approvals|
    requires 0 < |trail| <= Size(all) + 1 && trail[0] == all && Shrinking(trail, active, pending)
    requires forall i :: 0 <= i < |trail| - 1 ==> encoded(trail[i]) > MAX_BYTES
    ensures forall n :: 0 <= n < |trail| - 1 ==> TooLarge(encoded, all, active, pending, n)
    ensures trail[|trail| - 1] == Cut(all, active, pending, |trail| - 1)
    ensures TooLarge(encoded, all, active, pending, |trail| - 1) <==> encoded(trail[|trail| - 1]) > MAX_BYTES
  {
    forall n | 0 <= n < |trail| - 1 ensures TooLarge(encoded, all, active, pending, n) {
      TrailIsSchedule(trail, all, active, pending, n);
    }
    TrailIsSchedule(trail, all, active, pending, |trail| - 1);
  }

  lemma CutNothing(all: Records, active: nat, pending: nat)
    requires active <= |all.tasks| && pending <= |all.approvals|
    ensures Cut(all, active, pending, 0) == all
  {}

  lemma CutOneMore(all: Records, active: nat, pending: nat, n: nat, now: Records)
    requires active <= |all.tasks| && pending <= |all.approvals| && n <= Size(all)
    requires now == Cut(all, active, pending, n) && Size(now) > 0
    ensures n < Size(all)
    ensures Cut(all, active, pending, n + 1) == Dropped(now, Min(active, |now.tasks|), Min(pending, |now.approvals|))
  {
    CutMore(all, active, pending, n, Schedule(all, active, pending, n), Schedule(all, active, pending, n + 1));
  }

  /** One turn of the loop: terminal tasks, decided approvals, oldest messages, pending approvals, active tasks. */
  method DropOne(now: Records, activeCount: nat, pendingCount: nat)
    returns (next: Records, active: nat, pending: nat, shrunk: bool)
    requires activeCount <= |now.tasks| && pendingCount <= |now.approvals|
    ensures shrunk <==> Size(now) > 0
    ensures !shrunk ==> now == Records([], [], [])
    ensures shrunk ==> Size(next) == Size(now) - 1
    ensures next == Dropped(now, activeCount, pendingCount)
    ensures active == Min(activeCount, |next.tasks|) && pending == Min(pendingCount, |next.approvals|)
  {
    next, active, pending, shrunk := now, activeCount, pendingCount, true;
    if |now.tasks| > active {
      next := now.(tasks := now.tasks[..|now.tasks| - 1]);
    } else if |now.approvals| > pending {
      next := now.(approvals := now.approvals[..|now.approvals| - 1]);
    } else if |now.messages| > 0 {
      next := now.(messages := now.messages[1..]);
    } else if |now.approvals| > 0 {
      next := now.(approvals := now.approvals[..|now.approvals| - 1]);
      pending := |next.approvals|;
    } else if |now.tasks| > 0 {
      next := now.(tasks := now.tasks[..|now.tasks| - 1]);
      active := |next.tasks|;
    } else {
      shrunk := false;
    }
  }

  /** What the next drop removes, by what is left. */
  function Dropped(now: Records, active: nat, pending: nat): Records {
    if |now.tasks| > active then now.(tasks := now.tasks[..|now.tasks| - 1])
    else if |now.approvals| > pending then now.(approvals := now.approvals[..|now.approvals| - 1])
    else if |now.messages| > 0 then now.(messages := now.messages[1..])
    else if |now.approvals| > 0 then now.(approvals := now.approvals[..|now.approvals| - 1])
    else if |now.tasks| > 0 then now.(tasks := now.tasks[..|now.tasks| - 1])
    else now
  }

  ghost predicate Possible(all: Records, x: Drops) {
    && x.terminal + x.active <= |all.tasks| && x.decided + x.pending <= |all.approvals|
    && x.messages <= |all.messages|
  }

  lemma OneTaskLess(all: Records, x: Drops, y: Drops)
    requires Possible(all, x) && Possible(all, y)
    requires y == x.(terminal := x.terminal + 1) || y == x.(active := x.active + 1)
    ensures var now := Left(all, x);
            |now.tasks| > 0 && Left(all, y) == now.(tasks := now.tasks[..|now.tasks| - 1])
  {}

  lemma OneApprovalLess(all: Records, x: Drops, y: Drops)
    requires Possible(all, x) && Possible(all, y)
    requires y == x.(decided := x.decided + 1) || y == x.(pending := x.pending + 1)
    ensures var now := Left(all, x);
            |now.approvals| > 0 && Left(all, y) == now.(approvals := now.approvals[..|now.approvals| - 1])
  {}

  lemma OneMessageLess(all: Records, x: Drops, y: Drops)
    requires Possible(all, x) && Possible(all, y) && y == x.(messages := x.messages + 1)
    ensures var now := Left(all, x); |now.messages| > 0 && Left(all, y) == now.(messages := now.messages[1..])
  {}

  /** Which kind goes next can be read off what is left. */
  lemma KindsLeft(all: Records, active: nat, pending: nat, n: nat, x: Drops, now: Records)
    requires InOrder(all, active, pending, n, x) && now == Left(all, x)
    ensures |now.tasks| > Min(active, |now.tasks|) <==> x.terminal < |all.tasks| - active
    ensures x.terminal == |all.tasks| - active ==>
              (|now.approvals| > Min(pending, |now.approvals|) <==> x.decided < |all.approvals| - pending)
    ensures |now.messages| > 0 <==> x.messages < |all.messages|
    ensures x.decided == |all.approvals| - pending ==> (|now.approvals| > 0 <==> x.pending < pending)
    ensures x.terminal == |all.tasks| - active ==> (|now.tasks| > 0 <==> x.active < active)
  {}

  /** Counting one more drop is dropping one more record. */
  lemma CutMore(all: Records, active: nat, pending: nat, n: nat, x: Drops, y: Drops)
    requires InOrder(all, active, pending, n, x) && n < Size(all) && y == OneMore(all, active, pending, x)
    requires InOrder(all, active, pending, n + 1, y)
    ensures var now := Left(all, x);
            Left(all, y) == Dropped(now, Min(active, |now.tasks|), Min(pending, |now.approvals|))
  {
    KindsLeft(all, active, pending, n, x, Left(all, x));
    if x.terminal < |all.tasks| - active {
      OneTaskLess(all, x, y);
    } else if x.decided < |all.approvals| - pending {
      OneApprovalLess(all, x, y);
    } else if x.messages < |all.messages| {
      OneMessageLess(all, x, y);
    } else if x.pending < pending {
      OneApprovalLess(all, x, y);
    } else {
      OneTaskLess(all, x, y);
    }
  }

  // ---------------------------------------------------------------- selecting

  datatype Item = Item(id: string, pending: bool)

  /** The record is not among those chosen before and, where that is asked, not pending. */
  predicate MayFollow(item: Item, head: seq<Item>, skipPending: bool) {
    (forall k :: 0 <= k < |head| ==> head[k].id != item.id) && !(skipPending && item.pending)
  }

  /**
   The tail is taken from the list in its order, at the picked positions; each of them may follow the head,
   and one that may is left out only if the tail is full and it comes after all of it.
   */
  ghost predicate Picked(head: seq<Item>, rest: seq<Item>, skipPending: bool, tail: seq<Item>, room: nat, picks: seq<nat>) {
    && |tail| == |picks| <= room
    && (forall j, k :: 0 <= j < k < |picks| ==> picks[j] < picks[k])
    && (forall k :: 0 <= k < |picks| ==>
          picks[k] < |rest| && tail[k] == rest[picks[k]] && MayFollow(rest[picks[k]], head, skipPending))
    && (forall i :: 0 <= i < |rest| && MayFollow(rest[i], head, skipPending) && i !in picks ==>
          |tail| == room && forall k :: 0 <= k < |picks| ==> picks[k] < i)
  }

  /** The same for the part of the list that was looked at, while the tail had room. */
  ghost predicate Collected(head: seq<Item>, rest: seq<Item>, i: nat, skipPending: bool, tail: seq<Item>, picks: seq<nat>)
    requires i <= |rest|
  {
    && |tail| == |picks|
    && (forall j, k :: 0 <= j < k < |picks| ==> picks[j] < picks[k])
    && (forall k :: 0 <= k < |picks| ==>
          picks[k] < i && tail[k] == rest[picks[k]] && MayFollow(rest[picks[k]], head, skipPending))
    && (forall k :: 0 <= k < i && MayFollow(rest[k], head, skipPending) ==> k in picks)
  }

  lemma CollectedStep(head: seq<Item>, rest: seq<Item>, i: nat, skipPending: bool, tail: seq<Item>, picks: seq<nat>)
    requires i < |rest| && Collected(head, rest, i, skipPending, tail, picks)
    ensures if MayFollow(rest[i], head, skipPending)
            then Collected(head, rest, i + 1, skipPending, tail + [rest[i]], picks + [i])
            else Collected(head, rest, i + 1, skipPending, tail, picks)
  {}

  lemma CollectedIsPicked(head: seq<Item>, rest: seq<Item>, i: nat, skipPending: bool, tail: seq<Item>, room: nat, picks: seq<nat>)
    requires i <= |rest| && Collected(head, rest, i, skipPending, tail, picks)
    requires |tail| <= room && (i == |rest| || |tail| == room)
    ensures Picked(head, rest, skipPending, tail, room, picks)
  {}

  lemma NotChosen(head: seq<Item>, chosen: set<string>, item: Item)
    requires chosen == set other <- head :: other.id
    ensures item.id !in chosen <==> forall k :: 0 <= k < |head| ==> head[k].id != item.id
  {
    if k :| 0 <= k < |head| && head[k].id == item.id {
      assert head[k] in head;
    }
  }

  /** The records that must not be missing come first, then the most recent others, each at most once. */
  method Select(first: seq<Item>, rest: seq<Item>, firstLimit: nat, limit: nat, skipPending: bool)
    returns (result: seq<Item>, count: nat, ghost picks: seq<nat>)
    requires firstLimit <= limit
    ensures count == (if |first| > firstLimit then firstLimit else |first|) && count <= |result| <= limit
    ensures result[..count] == first[..count]
    ensures Picked(first[..count], rest, skipPending, result[count..], limit - count, picks)
  {
    var head := first;
    if |head| > firstLimit {
      head := head[..firstLimit];
    }
    var chosen := set item <- head :: item.id;
    result, count, picks := head, |head|, [];
    assert head == first[..count];
    var i := 0;
    while i < |rest| && |result| != limit
      invariant i <= |rest| && |result| == count + |picks| <= limit && result[..count] == head
      invariant Collected(head, rest, i, skipPending, result[count..], picks)
    {
      CollectedStep(head, rest, i, skipPending, result[count..], picks);
      NotChosen(head, chosen, rest[i]);
      if rest[i].id !in chosen && !(skipPending && rest[i].pending) {
        assert (result + [rest[i]])[count..] == result[count..] + [rest[i]];
        assert (result + [rest[i]])[..count] == result[..count];
        result, picks := result + [rest[i]], picks + [i];
      }
      i := i + 1;
    }
    CollectedIsPicked(head, rest, i, skipPending, result[count..], limit - count, picks);
  }

  /** Active tasks first, then recently finished ones. */
  method SelectTasks(active: seq<Item>, terminal: seq<Item>) returns (result: seq<Item>, count: nat, ghost picks: seq<nat>)
    ensures count == (if |active| > 64 then 64 else |active|) && count <= |result| <= 128
    ensures result[..count] == active[..count]
    ensures Picked(active[..count], terminal, false, result[count..], 128 - count, picks)
  {
    result, count, picks := Select(active, terminal, ACTIVE_TASK_LIMIT, TASK_LIMIT, false);
  }

  /** Pending approvals first, then recent ones that are decided. */
  method SelectApprovals(pending: seq<Item>, recent: seq<Item>)
    returns (result: seq<Item>, count: nat, ghost picks: seq<nat>)
    ensures count == (if |pending| > 64 then 64 else |pending|) && count <= |result| <= 128
    ensures result[..count] == pending[..count]
    ensures Picked(pending[..count], recent, true, result[count..], 128 - count, picks)
    ensures forall i :: count <= i < |result| ==> !result[i].pending
  {
    result, count, picks := Select(pending, recent, PENDING_APPROVAL_LIMIT, APPROVAL_LIMIT, true);
    forall i | count <= i < |result| ensures !result[i].pending {
      assert result[i] == result[count..][i - count];
    }
  }

  ghost predicate NoTwice(items: seq<Item>) {
    forall i, j :: 0 <= i < j < |items| ==> items[i].id != items[j].id
  }

  /** If neither list names a record twice, the selection does not either. */
  lemma SelectionHasNoDuplicates(head: seq<Item>, rest: seq<Item>, skipPending: bool, tail: seq<Item>, room: nat, picks: seq<nat>)
    requires NoTwice(head) && NoTwice(rest) && Picked(head, rest, skipPending, tail, room, picks)
    ensures NoTwice(head + tail)
  {
    var all := head + tail;
    forall i, j | 0 <= i < j < |all| ensures all[i].id != all[j].id {
      if j >= |head| {
        assert MayFollow(tail[j - |head|], head, skipPending);
        if i >= |head| {
          assert picks[i - |head|] < picks[j - |head|];
        }
      }
    }
  }

  /** What is selected after the head is determined: there is only one way to pick it. */
  lemma {:induction false} SelectionIsUnique(head: seq<Item>, rest: seq<Item>, skipPending: bool, room: nat,
                                             tail: seq<Item>, picks: seq<nat>, tail': seq<Item>, picks': seq<nat>, k: nat)
    requires Picked(head, rest, skipPending, tail, room, picks) && Picked(head, rest, skipPending, tail', room, picks')
    requires k < |picks|
    ensures k < |picks'| && picks[k] == picks'[k] && tail[k] == tail'[k]
    decreases k
  {
    forall j | 0 <= j < k ensures j < |picks'| && picks[j] == picks'[j] {
      SelectionIsUnique(head, rest, skipPending, room, tail, picks, tail', picks', j);
    }
    assert MayFollow(rest[picks[k]], head, skipPending);
    assert k < |picks'| && MayFollow(rest[picks'[k]], head, skipPending);
    if picks'[k] in picks {
      var j :| 0 <= j < |picks| && picks[j] == picks'[k];
    }
    if picks[k] in picks' {
      var m :| 0 <= m < |picks'| && picks'[m] == picks[k];
    }
  }
}
