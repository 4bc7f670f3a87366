/**
 What internal/eventqueue/eventqueue.go configures NATS JetStream to do: a
 stream with interest retention and a duplicate window, a key-value bucket
 with a TTL and durable consumers with explicit acknowledgements.

 The maps `log`, `delivered` and `pushed` also remember what is over, so that
 statements about whole runs can be made about the last state.
 */
module JetStream {
  import opened Base
  import opened Events
  import EventIdentifier

  const DUPLICATE_WINDOW: Time := 2 * MINUTE
  const MAX_DELIVER: nat := 11
  const MAX_ACK_PENDING: nat := 2
  const BACK_OFF: seq<Time> := [SECOND, 2 * SECOND, 10 * SECOND, 30 * SECOND, MINUTE]

  /** An event on its way to the queue, its key and the instant a handler observed it. */
  datatype Item = Item(event: Event, key: string, observed: Time, synthetic: bool) {
    predicate Valid() { key == EventIdentifier.Key(event) }
  }

  /** PublishEvent drops the managed fields before it stores an event. */
  function WithoutManagedFields(event: Event): Event {
    event.(managedFields := [])
  }

  function Stored(item: Item): Item {
    item.(event := WithoutManagedFields(item.event))
  }

  function NewItem(event: Event, observed: Time, synthetic: bool): Item {
    Item(event, EventIdentifier.Key(event), observed, synthetic)
  }

  /** One accepted publish; its position in the log is the stream sequence. */
  datatype Accepted = Accepted(
    item: Item,
    publisher: nat,
    boot: nat,
    got: Time,               // when the publisher asked the bucket for the key
    at: Time,                // when the stream stored the message
    put: Option<Time>,       // when the bucket recorded the key
    audience: set<string>)   // the consumers which existed

  datatype Delivery = Delivery(count: nat, first: Time, last: Time)

  datatype Consumer = Consumer(
    owed: set<nat>,                  // messages without an acknowledgement
    delivered: map<nat, Delivery>,
    pushed: map<nat, nat>)           // HTTP requests the sender made for a message
  {
    function Deliveries(n: nat): nat { if n in delivered then delivered[n].count else 0 }
    function Pushes(n: nat): nat { if n in pushed then pushed[n] else 0 }
  }

  datatype Jet = Jet(
    now: Time,
    boot: nat,
    kv: map<string, Time>,
    window: map<string, Time>,
    log: seq<Accepted>,
    consumers: map<string, Consumer>)
  {
    /** Messages which at least one consumer still needs are retained. */
    predicate Retained(n: nat) {
      exists c :: c in consumers && n in consumers[c].owed
    }
  }

  const EmptyJet := Jet(0, 0, map[], map[], [], map[])

  /** An accepted message is owed to every consumer which exists right now. */
  function Publish(jet: Jet, item: Item, publisher: nat, got: Time): (r: Jet)
    ensures r.consumers.Keys == jet.consumers.Keys
  {
    var n := |jet.log|;
    jet.(log := jet.log + [Accepted(Stored(item), publisher, jet.boot, got, jet.now, None, jet.consumers.Keys)],
         window := jet.window[item.key := jet.now],
         consumers := map c | c in jet.consumers :: jet.consumers[c].(owed := jet.consumers[c].owed + {n}))
  }

  function Put(jet: Jet, key: string, n: nat): Jet
    requires n < |jet.log|
  {
    jet.(kv := jet.kv[key := jet.now], log := jet.log[n := jet.log[n].(put := Some(jet.now))])
  }

  /** A new durable consumer starts with everything still retained; an existing one is kept. */
  function Subscribe(jet: Jet, name: string): (r: Jet)
    ensures r == jet.(consumers := r.consumers) && r.consumers.Keys == jet.consumers.Keys + {name}
  {
    if name in jet.consumers then jet
    else jet.(consumers := jet.consumers[name :=
                Consumer(set n | 0 <= n < |jet.log| && jet.Retained(n), map[], map[])])
  }

  function DeleteConsumers(jet: Jet, names: set<string>): Jet {
    jet.(consumers := jet.consumers - names)
  }

  /** How long a message stays unacknowledged before delivery number count + 1. */
  function RedeliverAfter(count: nat): Time
    requires count > 0
  {
    BACK_OFF[Min(count - 1, |BACK_OFF| - 1)]
  }

  /** Delivered and not acknowledged; given up once the wait after the last delivery is over. */
  predicate Pending(c: Consumer, now: Time, n: nat) {
    n in c.owed && n in c.delivered && 0 < c.delivered[n].count &&
    (c.delivered[n].count >= MAX_DELIVER ==> now < c.delivered[n].last + RedeliverAfter(c.delivered[n].count))
  }

  function PendingSet(c: Consumer, now: Time): set<nat> {
    set n | n in c.owed && Pending(c, now, n)
  }

  /** A pending message after its wait, or a new one while few enough are pending. */
  predicate Deliverable(jet: Jet, name: string, n: nat) {
    name in jet.consumers && n in jet.consumers[name].owed &&
    (var c := jet.consumers[name];
     if n in c.delivered
     then 0 < c.delivered[n].count < MAX_DELIVER && jet.now >= c.delivered[n].last + RedeliverAfter(c.delivered[n].count)
     else |PendingSet(c, jet.now)| < MAX_ACK_PENDING)
  }

  function Deliver(jet: Jet, name: string, n: nat): (r: Jet)
    requires Deliverable(jet, name, n)
    ensures r == jet.(consumers := r.consumers) && r.consumers.Keys == jet.consumers.Keys
  {
    var c := jet.consumers[name];
    var d := if n in c.delivered then Delivery(c.delivered[n].count + 1, c.delivered[n].first, jet.now)
             else Delivery(1, jet.now, jet.now);
    jet.(consumers := jet.consumers[name := c.(delivered := c.delivered[n := d])])
  }

  function Acknowledge(jet: Jet, name: string, n: nat): (r: Jet)
    ensures r == jet.(consumers := r.consumers) && r.consumers.Keys == jet.consumers.Keys
  {
    if name !in jet.consumers then jet
    else
      var c := jet.consumers[name];
      jet.(consumers := jet.consumers[name := c.(owed := c.owed - {n})])
  }

  /** The oldest message is dropped once EventsMaxBytes or EventsMaxAge is exceeded. */
  function Evict(jet: Jet, n: nat): (r: Jet)
    ensures r == jet.(consumers := r.consumers) && r.consumers.Keys == jet.consumers.Keys
  {
    jet.(consumers := map c | c in jet.consumers :: jet.consumers[c].(owed := jet.consumers[c].owed - {n}))
  }

  /** Not part of the stream: the sender counts its own requests. */
  function CountPush(jet: Jet, name: string, n: nat): (r: Jet)
    ensures r == jet.(consumers := r.consumers) && r.consumers.Keys == jet.consumers.Keys
  {
    if name !in jet.consumers then jet
    else
      var c := jet.consumers[name];
      jet.(consumers := jet.consumers[name := c.(pushed := c.pushed[n := c.Pushes(n) + 1])])
  }
}
