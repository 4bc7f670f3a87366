/** Handlers, channel and publishing loop of internal/eventpusher/eventpusher.go. */
module EventPusher {
  import opened Events
  import opened JetStream
  import EventIdentifier
  import opened System
  import EQ = EventQueue

  const EVENT_CHANNEL_BUFFER_SIZE := 1024

  /** Publishing the events one after the other, each at the instant and with the luck given for it. */
  function PublishAll(jet: Jet, publisher: nat, events: seq<Event>, weather: seq<EQ.Weather>): Jet
    requires |events| == |weather|
  {
    if events == [] then jet
    else
      var n := |events| - 1;
      var before := PublishAll(jet, publisher, events[..n], weather[..n]);
      EQ.AfterPublish(before, NewItem(events[n], before.now, false), publisher, weather[n])
  }

  /** What becomes of an event which a handler got. */
  datatype Enqueued = Ignored | Queued | Dropped | Blocks | Panics

  function Outcome(buffered: nat, closed: bool, cancelled: bool, prefersShutdown: bool): Enqueued {
    if cancelled && prefersShutdown then Dropped
    else if closed then Panics
    else if buffered < EVENT_CHANNEL_BUFFER_SIZE then Queued
    else if cancelled then Dropped
    else Blocks
  }

  /**
   Before a shutdown nothing is dropped: the event is queued if there is room,
   and otherwise the handler waits. After it, giving up does not win over a closed channel.
   */
  lemma OutcomeIff(buffered: nat, closed: bool, cancelled: bool)
    requires closed ==> cancelled
    ensures !cancelled ==> forall prefers ::
              Outcome(buffered, closed, cancelled, prefers) == if buffered < 1024 then Queued else Blocks
    ensures (exists prefers :: Outcome(buffered, closed, cancelled, prefers) == Queued) <==> !closed && buffered < 1024
    ensures (exists prefers :: Outcome(buffered, closed, cancelled, prefers) == Dropped) <==> cancelled
    ensures (exists prefers :: Outcome(buffered, closed, cancelled, prefers) == Panics) <==> closed
    ensures forall prefers :: Outcome(buffered, closed, cancelled, prefers) != Ignored
  {
    assert Outcome(buffered, closed, cancelled, true) == Dropped || !cancelled;
    assert Outcome(buffered, closed, cancelled, false) == Panics || !closed;
    assert Outcome(buffered, closed, cancelled, false) == Queued || closed || buffered >= 1024;
  }

  class EventPusher {
    const queue: EQ.EventQueue
    const publisher: nat
    var channel: seq<Event>
    var closed: bool
    var cancelled: bool
    ghost var sent: seq<Event>       // what handlers put into the channel
    ghost var received: seq<Event>   // what the publishing loop took out of it

    constructor (queue: EQ.EventQueue, publisher: nat)
      ensures Valid() && this.queue == queue && this.publisher == publisher
      ensures channel == sent == received == [] && !closed && !cancelled
    {
      this.queue, this.publisher := queue, publisher;
      channel, sent, received := [], [], [];
      closed, cancelled := false, false;
    }

    /** First in, first out, nothing lost in between, never more than the buffer holds. */
    ghost predicate Valid()
      reads this
    {
      sent == received + channel && |channel| <= EVENT_CHANNEL_BUFFER_SIZE && (closed ==> cancelled)
    }

    /**
     The select statement: it may send if the channel is closed (and panics
     then) or has room, and may give up after a shutdown; which of both it does
     is left open. If it may do neither, it blocks.
     */
    method Enqueue(event: Event, prefersShutdown: bool) returns (r: Enqueued)
      requires Valid()
      modifies this`channel, this`sent
      ensures Valid()
      ensures !cancelled && |old(channel)| < 1024 ==> r == Queued
      ensures !cancelled && |old(channel)| >= 1024 ==> r == Blocks
      ensures cancelled ==> r == if prefersShutdown then Dropped else if closed then Panics
                                 else if |old(channel)| < 1024 then Queued else Dropped
      ensures channel == old(channel) + if r == Queued then [event] else []
      ensures sent == old(sent) + if r == Queued then [event] else []
      ensures r == Outcome(|old(channel)|, closed, cancelled, prefersShutdown)
    {
      var canSend := closed || |channel| < EVENT_CHANNEL_BUFFER_SIZE;
      if cancelled && (prefersShutdown || !canSend) {
        return Dropped;
      }
      if !canSend {
        return Blocks;
      }
      if closed {
        return Panics;
      }
      channel, sent := channel + [event], sent + [event];
      return Queued;
    }

    method HandleAdd(event: Event, prefersShutdown: bool) returns (r: Enqueued)
      requires Valid()
      modifies this`channel, this`sent
      ensures Valid()
      ensures !cancelled ==> r == if |old(channel)| < 1024 then Queued else Blocks
      ensures r == Outcome(|old(channel)|, closed, cancelled, prefersShutdown)
      ensures channel == old(channel) + if r == Queued then [event] else []
      ensures sent == old(sent) + if r == Queued then [event] else []
    {
      r := Enqueue(event, prefersShutdown);
    }

    /** A resync passes the same resource version again and is ignored. */
    method HandleUpdate(oldEvent: Event, newEvent: Event, prefersShutdown: bool) returns (r: Enqueued)
      requires Valid()
      modifies this`channel, this`sent
      ensures Valid()
      ensures r == Ignored <==> oldEvent.resourceVersion == newEvent.resourceVersion
      ensures r != Ignored && !cancelled ==> r == if |old(channel)| < 1024 then Queued else Blocks
      ensures r != Ignored ==> r == Outcome(|old(channel)|, closed, cancelled, prefersShutdown)
      ensures channel == old(channel) + if r == Queued then [newEvent] else []
      ensures sent == old(sent) + if r == Queued then [newEvent] else []
    {
      if oldEvent.resourceVersion == newEvent.resourceVersion {
        return Ignored;
      }
      r := Enqueue(newEvent, prefersShutdown);
    }

    method Stop()
      requires Valid()
      modifies this`cancelled, this`closed
      ensures Valid() && cancelled && closed
    {
      cancelled := true;
      closed := true;
    }

    /** With a cancelled context every access to the queue fails. */
    function Effective(w: EQ.Weather): EQ.Weather
      reads this`cancelled
    {
      if cancelled then EQ.Weather(true, w.reply, w.putStored) else w
    }

    /** One receive of the publishing loop; errors are logged only. */
    method PublishNext(w: EQ.Weather)
      requires Valid() && channel != []
      modifies this`channel, this`received, queue
      ensures Valid() && received == old(received) + [old(channel)[0]] && channel == old(channel)[1..]
      ensures queue.jet == EQ.AfterPublish(old(queue.jet), NewItem(old(channel)[0], old(queue.jet).now, false), publisher, Effective(w))
      ensures cancelled ==> queue.jet == old(queue.jet)
    {
      var event := channel[0];
      channel, received := channel[1..], received + [event];
      var _ := queue.PublishEvent(publisher, event, Effective(w));
    }

    /** After the shutdown the loop empties the buffer, but its cancelled publishes store nothing. */
    method Drain(weather: seq<EQ.Weather>)
      requires Valid() && closed && |weather| == |channel|
      modifies this`channel, this`received, queue
      ensures Valid() && channel == [] && received == sent && sent == old(sent)
      ensures queue.jet == old(queue.jet)
    {
      var i := 0;
      while channel != []
        invariant Valid() && i + |channel| == |weather| && sent == old(sent)
        invariant queue.jet == old(queue.jet)
        decreases |channel|
      {
        PublishNext(weather[i]);
        i := i + 1;
      }
    }

    /** While the context is alive the loop publishes the buffered events in their order. */
    method PublishBuffered(weather: seq<EQ.Weather>)
      requires Valid() && !cancelled && |weather| == |channel|
      modifies this`channel, this`received, queue
      ensures Valid() && channel == [] && sent == old(sent)
      ensures queue.jet == PublishAll(old(queue.jet), publisher, old(channel), weather)
    {
      var i := 0;
      assert channel[..0] == [] && weather[..0] == [];
      while channel != []
        invariant Valid() && i + |channel| == |weather| && sent == old(sent) && channel == old(channel)[i..]
        invariant queue.jet == PublishAll(old(queue.jet), publisher, old(channel)[..i], weather[..i])
        decreases |channel|
      {
        assert old(channel)[..i + 1][..i] == old(channel)[..i] && weather[..i + 1][..i] == weather[..i];
        PublishNext(weather[i]);
        i := i + 1;
      }
      assert old(channel)[..i] == old(channel) && weather[..i] == weather;
    }
  }

  predicate Lucky(w: EQ.Weather) {
    w == EQ.Weather(false, Replied, true)
  }

  predicate Known(jet: Jet, key: string) {
    key in jet.kv || key in jet.window
  }

  lemma PublishKnows(jet: Jet, item: Item, publisher: nat, w: EQ.Weather, key: string)
    requires Known(jet, key) || (key == item.key && Lucky(w))
    ensures Known(EQ.AfterPublish(jet, item, publisher, w), key)
  {
  }

  /** Events which are published without trouble are all known afterwards, whatever was known before. */
  lemma {:induction false} PublishedAreKnown(jet: Jet, publisher: nat, events: seq<Event>, weather: seq<EQ.Weather>, i: nat)
    requires |events| == |weather| && i < |events| && Lucky(weather[i])
    ensures Known(PublishAll(jet, publisher, events, weather), EventIdentifier.Key(events[i]))
  {
    hide Known, EQ.AfterPublish, Lucky;
    var n := |events| - 1;
    var before := PublishAll(jet, publisher, events[..n], weather[..n]);
    if i < n {
      PublishedAreKnown(jet, publisher, events[..n], weather[..n], i);
    }
    PublishKnows(before, NewItem(events[n], before.now, false), publisher, weather[n], EventIdentifier.Key(events[i]));
  }

  predicate Unknown(jet: Jet, events: seq<Event>) {
    (forall i :: 0 <= i < |events| ==> !Known(jet, EventIdentifier.Key(events[i]))) &&
    forall i, j :: 0 <= i < j < |events| ==> EventIdentifier.Key(events[i]) != EventIdentifier.Key(events[j])
  }

  /** Nothing becomes known but what was published. */
  lemma {:induction false} OnlyPublishedAreKnown(jet: Jet, publisher: nat, events: seq<Event>, weather: seq<EQ.Weather>, key: string)
    requires |events| == |weather| && !Known(jet, key)
    requires forall i :: 0 <= i < |events| ==> EventIdentifier.Key(events[i]) != key
    ensures !Known(PublishAll(jet, publisher, events, weather), key)
  {
    if events != [] {
      hide EventIdentifier.Key;
      var n := |events| - 1;
      OnlyPublishedAreKnown(jet, publisher, events[..n], weather[..n], key);
    }
  }

  ghost predicate StoredInOrder(jet: Jet, jet': Jet, events: seq<Event>) {
    && |jet'.log| == |jet.log| + |events| && jet.log <= jet'.log
    && forall i :: 0 <= i < |events| ==> jet'.log[|jet.log| + i].item.event == events[i].(managedFields := [])
  }

  lemma StoredLast(jet: Jet, event: Event, publisher: nat, w: EQ.Weather)
    requires !Known(jet, EventIdentifier.Key(event)) && Lucky(w)
    ensures StoredInOrder(jet, EQ.AfterPublish(jet, NewItem(event, jet.now, false), publisher, w), [event])
  {
  }

  lemma OneMoreInOrder(jet: Jet, before: Jet, jet': Jet, events: seq<Event>, event: Event)
    requires StoredInOrder(jet, before, events) && StoredInOrder(before, jet', [event])
    ensures StoredInOrder(jet, jet', events + [event])
  {
    var n := |before.log|;
    var last := 0;
    assert 0 <= last < |[event]| && jet'.log[n + last].item.event == [event][last].(managedFields := []);
    assert forall i :: 0 <= i < n ==> jet'.log[i] == before.log[i];
  }

  /** New events which are published without trouble are stored in the order of the channel. */
  lemma {:induction false} PublishedInOrder(jet: Jet, publisher: nat, events: seq<Event>, weather: seq<EQ.Weather>)
    requires |events| == |weather| && (forall i :: 0 <= i < |weather| ==> Lucky(weather[i])) && Unknown(jet, events)
    ensures StoredInOrder(jet, PublishAll(jet, publisher, events, weather), events)
  {
    if events != [] {
      hide EventIdentifier.Key, EQ.AfterPublish, Known, Lucky, StoredInOrder;
      var n := |events| - 1;
      var before := PublishAll(jet, publisher, events[..n], weather[..n]);
      PublishedInOrder(jet, publisher, events[..n], weather[..n]);
      OnlyPublishedAreKnown(jet, publisher, events[..n], weather[..n], EventIdentifier.Key(events[n]));
      StoredLast(before, events[n], publisher, weather[n]);
      OneMoreInOrder(jet, before, PublishAll(jet, publisher, events, weather), events[..n], events[n]);
      assert events[..n] + [events[n]] == events;
    } else {
      assert StoredInOrder(jet, jet, []);
    }
  }
}
