/**
 The event hub: bounded channels, a publisher that never blocks, and the promise that no subscriber
 stays connected after missing an event.
 */
module Hub {
  type Event = string
  type SubscriberId = nat

  /** `received` and `since` are history: what the reader took, and how much was published before it came. */
  datatype Channel = Channel(capacity: nat, queue: seq<Event>, closed: bool, received: seq<Event>, since: nat)

  datatype HubState = HubState(
    subscribers: set<SubscriberId>,
    channels: map<SubscriberId, Channel>,
    nextId: nat,
    published: seq<Event>)

  const EMPTY := HubState({}, map[], 0, [])
  const DEFAULT_BUFFER := 32

  // ---------------------------------------------------------------- what each operation does

  /** The non-blocking send; a full channel is closed instead. */
  function Offer(channel: Channel, event: Event): Channel {
    if |channel.queue| < channel.capacity
    then channel.(queue := channel.queue + [event])
    else channel.(closed := true)
  }

  function Publishing(h: HubState, event: Event): HubState {
    h.(
      channels := map id <- h.channels ::
        if id in h.subscribers then Offer(h.channels[id], event) else h.channels[id],
      published := h.published + [event],
      subscribers := set id <- h.subscribers
        | id in h.channels && |h.channels[id].queue| < h.channels[id].capacity)
  }

  function Buffer(requested: int): nat {
    if requested < 1 then DEFAULT_BUFFER else requested
  }

  function Subscribing(h: HubState, buffer: int): HubState {
    var id := h.nextId + 1;
    h.(
      nextId := id,
      subscribers := h.subscribers + {id},
      channels := h.channels[id := Channel(Buffer(buffer), [], false, [], |h.published|)])
  }

  /** The subscriber's context ended. */
  function Cancelling(h: HubState, id: SubscriberId): HubState {
    if id in h.subscribers && id in h.channels
    then h.(subscribers := h.subscribers - {id}, channels := h.channels[id := h.channels[id].(closed := true)])
    else h
  }

  /** A reader takes the next event; a closed channel is still drained. */
  function Receiving(h: HubState, id: SubscriberId): HubState {
    if id in h.channels && h.channels[id].queue != []
    then
      var channel := h.channels[id];
      h.(channels := h.channels[id := channel.(
        queue := channel.queue[1..], received := channel.received + [channel.queue[0]])])
    else h
  }

  datatype Move = Publish(event: Event) | Subscribe(buffer: int) | Cancel(id: SubscriberId) | Receive(id: SubscriberId)

  function Step(h: HubState, move: Move): HubState {
    match move
    case Publish(event) => Publishing(h, event)
    case Subscribe(buffer) => Subscribing(h, buffer)
    case Cancel(id) => Cancelling(h, id)
    case Receive(id) => Receiving(h, id)
  }

  function Run(moves: seq<Move>): HubState
    decreases |moves|
  {
    if moves == [] then EMPTY else Step(Run(moves[..|moves| - 1]), moves[|moves| - 1])
  }

  // ---------------------------------------------------------------- gap-free streams

  function Seen(channel: Channel): seq<Event> {
    channel.received + channel.queue
  }

  ghost predicate GapFree(channel: Channel, published: seq<Event>) {
    && channel.since <= |published|
    && |channel.queue| <= channel.capacity && channel.capacity >= 1
    && (if channel.closed then Seen(channel) <= published[channel.since..]
        else Seen(channel) == published[channel.since..])
  }

  ghost predicate Sound(h: HubState) {
    && (forall id :: id in h.channels ==> GapFree(h.channels[id], h.published))
    && (forall id :: id in h.subscribers <==> id in h.channels && !h.channels[id].closed)
    && (forall id :: id in h.channels ==> id <= h.nextId)
  }

  lemma OfferKeepsGapFree(channel: Channel, event: Event, published: seq<Event>)
    requires GapFree(channel, published) && !channel.closed
    ensures GapFree(Offer(channel, event), published + [event])
  {
    var longer := published + [event];
    assert longer[channel.since..] == published[channel.since..] + [event];
    var after := Offer(channel, event);
    if !after.closed {
      assert Seen(after) == Seen(channel) + [event];
    }
  }

  lemma ClosedKeepsGapFree(channel: Channel, event: Event, published: seq<Event>)
    requires GapFree(channel, published) && channel.closed
    ensures GapFree(channel, published + [event])
  {
    assert (published + [event])[channel.since..] == published[channel.since..] + [event];
  }

  lemma PublishKeepsSound(h: HubState, event: Event)
    requires Sound(h)
    ensures Sound(Publishing(h, event))
  {
    var t := Publishing(h, event);
    forall id | id in t.channels ensures GapFree(t.channels[id], t.published) {
      if id in h.subscribers {
        OfferKeepsGapFree(h.channels[id], event, h.published);
      } else {
        ClosedKeepsGapFree(h.channels[id], event, h.published);
      }
    }
  }

  lemma ReceiveKeepsGapFree(channel: Channel, published: seq<Event>)
    requires GapFree(channel, published) && channel.queue != []
    ensures GapFree(channel.(queue := channel.queue[1..], received := channel.received + [channel.queue[0]]), published)
  {
    var after := channel.(queue := channel.queue[1..], received := channel.received + [channel.queue[0]]);
    assert channel.queue == [channel.queue[0]] + channel.queue[1..];
    assert Seen(after) == Seen(channel);
  }

  lemma StepKeepsSound(h: HubState, move: Move)
    requires Sound(h)
    ensures Sound(Step(h, move))
  {
    match move
    case Publish(event) => PublishKeepsSound(h, event);
    case Subscribe(buffer) =>
      assert h.published[|h.published|..] == [];
    case Cancel(id) =>
    case Receive(id) =>
      if id in h.channels && h.channels[id].queue != [] {
        ReceiveKeepsGapFree(h.channels[id], h.published);
      }
  }

  lemma {:induction false} RunIsSound(moves: seq<Move>)
    ensures Sound(Run(moves))
    decreases |moves|
  {
    if moves != [] {
      RunIsSound(moves[..|moves| - 1]);
      StepKeepsSound(Run(moves[..|moves| - 1]), moves[|moves| - 1]);
    }
  }

  /**
   For every interleaving: what an open subscriber took plus what waits for it is exactly what was
   published since it came, in order; a closed one holds a prefix of that without a gap.
   */
  lemma StreamsHaveNoGaps(moves: seq<Move>, id: SubscriberId)
    requires id in Run(moves).channels
    ensures var h := Run(moves);
            var channel := h.channels[id];
            && channel.since <= |h.published|
            && (!channel.closed ==> channel.received + channel.queue == h.published[channel.since..])
            && (channel.closed ==> channel.received + channel.queue <= h.published[channel.since..])
  {
    RunIsSound(moves);
  }

  /** A subscriber with room has the event queued last; a full one is closed and removed with its queue as it was. */
  ghost predicate Delivered(h: HubState, event: Event, t: HubState) {
    && t.nextId == h.nextId && t.published == h.published + [event]
    && t.channels.Keys == h.channels.Keys && t.subscribers <= h.subscribers <= h.channels.Keys
    && (forall id :: id in h.channels && id !in h.subscribers ==> t.channels[id] == h.channels[id])
    && (forall id :: id in h.subscribers ==>
          if |h.channels[id].queue| < h.channels[id].capacity
          then id in t.subscribers && t.channels[id] == h.channels[id].(queue := h.channels[id].queue + [event])
          else id !in t.subscribers && t.channels[id] == h.channels[id].(closed := true))
  }

  // ---------------------------------------------------------------- who is closed, and what a reader gets

  /** The reader fell a whole buffer behind and missed an event. */
  predicate Overrun(channel: Channel, published: seq<Event>) {
    |channel.queue| + |channel.received| >= channel.capacity && |channel.queue| + |channel.received| < |published| - channel.since
  }

  lemma StepOverrun(h: HubState, move: Move, id: SubscriberId)
    requires Sound(h) && move != Cancel(id)
    requires id in h.channels && h.channels[id].closed ==> Overrun(h.channels[id], h.published)
    ensures var t := Step(h, move);
            id in t.channels && t.channels[id].closed ==> Overrun(t.channels[id], t.published)
  {
    match move
    case Publish(event) =>
      if id in h.subscribers {
        assert |Seen(h.channels[id])| == |h.published| - h.channels[id].since;
      }
    case Subscribe(buffer) =>
    case Cancel(other) =>
    case Receive(other) =>
  }

  /** In every run, a channel that its own subscriber did not cancel is closed only after a whole buffer and a missed event. */
  lemma {:induction false} ClosedMeansOverrun(moves: seq<Move>, id: SubscriberId)
    requires Cancel(id) !in moves
    ensures var h := Run(moves);
            id in h.channels && h.channels[id].closed ==>
              && |h.channels[id].received + h.channels[id].queue| >= h.channels[id].capacity
              && h.channels[id].since <= |h.published|
              && h.channels[id].received + h.channels[id].queue < h.published[h.channels[id].since..]
    decreases |moves|
  {
    if moves != [] {
      var n := |moves| - 1;
      ClosedMeansOverrun(moves[..n], id);
      RunIsSound(moves[..n]);
      RunIsSound(moves);
      StepOverrun(Run(moves[..n]), moves[n], id);
    }
  }

  function Reads(id: SubscriberId, n: nat): seq<Move> {
    seq(n, _ => Receive(id))
  }

  lemma {:induction false} ReadingTakes(moves: seq<Move>, id: SubscriberId, n: nat)
    requires id in Run(moves).channels && n <= |Run(moves).channels[id].queue|
    ensures var (h, t) := (Run(moves), Run(moves + Reads(id, n)));
            && t.published == h.published && id in t.channels
            && t.channels[id] == h.channels[id].(queue := h.channels[id].queue[n..],
                                                 received := h.channels[id].received + h.channels[id].queue[..n])
    decreases n
  {
    var all := moves + Reads(id, n);
    var before := Run(moves).channels[id];
    if n == 0 {
      assert all == moves && before.queue[0..] == before.queue && before.received + before.queue[..0] == before.received;
    } else {
      ReadingTakes(moves, id, n - 1);
      assert all[..|all| - 1] == moves + Reads(id, n - 1) && all[|all| - 1] == Receive(id);
      assert before.queue[n - 1..][1..] == before.queue[n..] && before.queue[..n - 1] + [before.queue[n - 1]] == before.queue[..n];
    }
  }

  /** In every run, an open subscriber that reads until its channel is empty has read all that was published since it came. */
  lemma ReadersGetEverything(moves: seq<Move>, id: SubscriberId)
    requires id in Run(moves).channels && !Run(moves).channels[id].closed
    ensures var channel := Run(moves).channels[id];
            var t := Run(moves + Reads(id, |channel.queue|));
            && id in t.channels && t.channels[id].queue == [] && channel.since <= |t.published|
            && t.channels[id].received == t.published[channel.since..]
  {
    RunIsSound(moves);
    var channel := Run(moves).channels[id];
    ReadingTakes(moves, id, |channel.queue|);
    assert channel.queue[..|channel.queue|] == channel.queue;
  }

  // ---------------------------------------------------------------- closed at most once

  /** The move closes this channel. */
  predicate Closes(h: HubState, move: Move, id: SubscriberId) {
    id in h.subscribers && id !in Step(h, move).subscribers
  }

  function TimesClosed(moves: seq<Move>, id: SubscriberId): nat
    decreases |moves|
  {
    if moves == [] then 0
    else
      var n := |moves| - 1;
      TimesClosed(moves[..n], id) + if Closes(Run(moves[..n]), moves[n], id) then 1 else 0
  }

  /** A closed channel stays closed and is not registered again, so no channel is closed twice. */
  lemma {:induction false} ClosedAtMostOnce(moves: seq<Move>, id: SubscriberId)
    ensures TimesClosed(moves, id) == if id in Run(moves).channels && Run(moves).channels[id].closed then 1 else 0
    decreases |moves|
  {
    if moves != [] {
      var n := |moves| - 1;
      ClosedAtMostOnce(moves[..n], id);
      RunIsSound(moves[..n]);
      RunIsSound(moves);
      ClosingStep(Run(moves[..n]), moves[n], id);
    }
  }

  lemma ClosingStep(h: HubState, move: Move, id: SubscriberId)
    requires Sound(h)
    ensures var t := Step(h, move);
            var wasClosed, isClosed := id in h.channels && h.channels[id].closed, id in t.channels && t.channels[id].closed;
            && (wasClosed ==> isClosed && !Closes(h, move, id))
            && (!wasClosed ==> (isClosed <==> Closes(h, move, id)))
  {
    StepKeepsSound(h, move);
    match move
    case Publish(event) =>
    case Subscribe(buffer) =>
    case Cancel(other) =>
    case Receive(other) =>
  }

  // ---------------------------------------------------------------- the object

  /** The loop over the subscribers, in no particular order. */
  method OfferAll(ghost h: HubState, channels: map<SubscriberId, Channel>, subscribers: set<SubscriberId>, event: Event)
    returns (offered: map<SubscriberId, Channel>, left: set<SubscriberId>)
    requires Sound(h) && channels == h.channels && subscribers == h.subscribers
    ensures offered == Publishing(h, event).channels && left == Publishing(h, event).subscribers
  {
    offered, left := channels, subscribers;
    var rest := subscribers;
    while rest != {}
      invariant rest <= subscribers && offered.Keys == channels.Keys
      invariant forall id :: id in channels ==>
                  offered[id] == if id in subscribers && id !in rest then Offer(channels[id], event) else channels[id]
      invariant forall id :: id in left <==>
                  id in subscribers && (id in rest || |channels[id].queue| < channels[id].capacity)
      decreases rest
    {
      var id :| id in rest;
      var channel := offered[id];
      if |channel.queue| < channel.capacity {
        offered := offered[id := channel.(queue := channel.queue + [event])];
      } else {
        assert !channel.closed;
        left := left - {id};
        offered := offered[id := channel.(closed := true)];
      }
      rest := rest - {id};
    }
  }

  class EventHub {
    var subscribers: set<SubscriberId>
    var channels: map<SubscriberId, Channel>
    var nextId: nat
    var lastEventId: Event
    var published: seq<Event>

    ghost function State(): HubState reads this {
      HubState(subscribers, channels, nextId, published)
    }

    constructor ()
      ensures State() == EMPTY
    {
      subscribers, channels, nextId, lastEventId, published := {}, map[], 0, "", [];
    }

    /** Offers the event to every subscriber and drops those whose channel is full. */
    method Publish(event: Event)
      requires Sound(State())
      modifies this
      ensures State() == Publishing(old(State()), event) && Sound(State()) && lastEventId == event
      ensures Delivered(old(State()), event, State())
    {
      PublishKeepsSound(State(), event);
      lastEventId := event;
      channels, subscribers := OfferAll(State(), channels, subscribers, event);
      published := published + [event];
    }

    method Subscribe(buffer: int) returns (id: SubscriberId)
      requires Sound(State())
      modifies this
      ensures State() == Subscribing(old(State()), buffer) && Sound(State())
      ensures id == nextId == old(nextId) + 1 && id !in old(channels) && subscribers == old(subscribers) + {id}
      ensures channels == old(channels)[id := Channel(if buffer < 1 then 32 else buffer, [], false, [], |published|)]
    {
      StepKeepsSound(State(), Move.Subscribe(buffer));
      nextId := nextId + 1;
      id := nextId;
      channels := channels[id := Channel(if buffer < 1 then DEFAULT_BUFFER else buffer, [], false, [], |published|)];
      subscribers := subscribers + {id};
    }

    /** Runs when the subscriber's context ends; a channel that Publish closed is left alone. */
    method Unsubscribe(id: SubscriberId)
      requires Sound(State())
      modifies this
      ensures State() == Cancelling(old(State()), id) && Sound(State())
      ensures subscribers == old(subscribers) - {id}
      ensures channels == if id in old(subscribers) && id in old(channels)
                          then old(channels)[id := old(channels)[id].(closed := true)] else old(channels)
    {
      StepKeepsSound(State(), Move.Cancel(id));
      if id in subscribers {
        assert !channels[id].closed;
        subscribers := subscribers - {id};
        channels := channels[id := channels[id].(closed := true)];
      }
    }
  }
}
