/** EventQueue and EventFetcher of internal/eventqueue/eventqueue.go. */
module EventQueue {
  import opened Base
  import opened Events
  import opened JetStream
  import opened System
  import opened Runs
  import EventIdentifier

  /** How the accesses of one PublishEvent turn out. */
  datatype Weather = Weather(getFails: bool, reply: PublishReply, putStored: bool)

  datatype PublishResult = Published | Duplicate | PublishError

  /** The event, without its managed fields, is at the end of the log and in every backlog. */
  ghost predicate NewlyStored(jet: Jet, jet': Jet, event: Event, recorded: bool) {
    var n, key := |jet.log|, EventIdentifier.Key(event);
    && |jet'.log| == n + 1 && jet'.log[..n] == jet.log
    && jet'.log[n].item.event == event.(managedFields := []) && jet'.log[n].item.key == key
    && jet'.log[n].at == jet.now && jet'.log[n].put == (if recorded then Some(jet.now) else None)
    && jet'.log[n].audience == jet.consumers.Keys == jet'.consumers.Keys
    && (forall c :: c in jet.consumers ==> jet'.consumers[c] == jet.consumers[c].(owed := jet.consumers[c].owed + {n}))
    && jet'.kv == (if recorded then jet.kv[key := jet.now] else jet.kv)
    && jet'.window == jet.window[key := jet.now]
    && jet'.now == jet.now && jet'.boot == jet.boot
  }

  /** The message is stored; with a lost reply the caller does not learn it. */
  predicate Stores(jet: Jet, key: string, w: Weather) {
    !w.getFails && key !in jet.kv && w.reply != NotStored && key !in jet.window
  }

  function AfterPublish(jet: Jet, item: Item, publisher: nat, w: Weather): Jet {
    if !Stores(jet, item.key, w) then jet
    else
      var stored := Publish(jet, item, publisher, jet.now);
      if w.reply == Replied && w.putStored then Put(stored, item.key, |jet.log|) else stored
  }

  class EventQueue {
    var jet: Jet
    var metrics: map<PublishResult, nat>

    constructor (jet: Jet)
      ensures this.jet == jet && metrics == map[]
    {
      this.jet, metrics := jet, map[];
    }

    function Count(result: PublishResult): nat
      reads this`metrics
    {
      if result in metrics then metrics[result] else 0
    }

    method Inc(result: PublishResult)
      modifies this`metrics
      ensures Count(result) == old(Count(result)) + 1
      ensures forall other :: other != result ==> Count(other) == old(Count(other))
    {
      metrics := metrics[result := Count(result) + 1];
    }

    /**
     An event whose key is known changes nothing and is no error. Any other is
     stored unless the queue does not get it; an error is returned exactly if
     that is not known for sure, and never because recording the key fails.
     */
    method PublishEvent(publisher: nat, event: Event, w: Weather) returns (ok: bool)
      modifies this
      ensures ok <==> !w.getFails && (EventIdentifier.Key(event) in old(jet).kv || w.reply == Replied)
      ensures var key := EventIdentifier.Key(event);
              var known := key in old(jet).kv || key in old(jet).window;
              if w.getFails || known || w.reply == NotStored then jet == old(jet)
              else NewlyStored(old(jet), jet, event, w.reply == Replied && w.putStored)
      ensures var key := EventIdentifier.Key(event);
              var known := key in old(jet).kv || key in old(jet).window;
              var result := if !ok then PublishError else if known then Duplicate else Published;
              Count(result) == old(Count(result)) + 1 &&
              forall other :: other != result ==> Count(other) == old(Count(other))
      ensures jet == AfterPublish(old(jet), NewItem(event, old(jet).now, false), publisher, w)
    {
      var item := NewItem(event, jet.now, false);
      if w.getFails {
        Inc(PublishError);
        return false;
      }
      if item.key in jet.kv {
        Inc(Duplicate);
        return true;
      }
      var n, known := |jet.log|, item.key in jet.window;
      if w.reply != NotStored && !known {
        jet := Publish(jet, item, publisher, jet.now);
      }
      if w.reply != Replied {
        Inc(PublishError);
        return false;
      }
      if known {
        Inc(Duplicate);
        return true;
      }
      Inc(Published);
      if w.putStored {
        jet := Put(jet, item.key, n);
      }
      return true;
    }

    /**
     A durable consumer per service. A new one is owed exactly what some other
     consumer still needs, an existing one keeps its backlog and its deliveries.
     */
    method SubscribeService(service: string, fails: bool) returns (ok: bool)
      modifies this`jet
      ensures ok == !fails
      ensures !ok ==> jet == old(jet)
      ensures ok ==>
                && jet == Subscribe(old(jet), service)
                && jet == old(jet).(consumers := jet.consumers)
                && jet.consumers.Keys == old(jet).consumers.Keys + {service}
                && forall c :: c in old(jet).consumers ==> jet.consumers[c] == old(jet).consumers[c]
      ensures ok && service !in old(jet).consumers ==>
                var c := jet.consumers[service];
                && (forall n: nat :: n in c.owed <==> n < |jet.log| && old(jet).Retained(n))
                && forall n: nat :: c.Deliveries(n) == 0 && c.Pushes(n) == 0
    {
      if fails {
        return false;
      }
      jet := Subscribe(jet, service);
      return true;
    }

    /** Deletes every consumer which is not one of the services, or stops at the first failure. */
    method PruneConsumers(services: seq<string>, names: seq<string>, listFails: bool, undeletable: set<string>) returns (ok: bool)
      requires !listFails ==> forall name :: name in names <==> name in jet.consumers
      modifies this`jet
      ensures ok ==> jet == DeleteConsumers(old(jet), old(jet).consumers.Keys - (set name | name in services))
      ensures ok <==> !listFails && forall name :: name in undeletable && name in names ==> name in services
      ensures !ok ==> exists deleted :: jet == DeleteConsumers(old(jet), deleted) && forall name :: name in deleted ==> name !in services
    {
      var stale := StaleConsumers(services, names);
      assert jet.consumers - {} == jet.consumers;
      if listFails {
        assert jet == DeleteConsumers(jet, {});
        return false;
      }
      ghost var deleted: set<string> := {};
      for i := 0 to |stale|
        invariant jet == DeleteConsumers(old(jet), deleted)
        invariant deleted == set name | name in stale[..i]
        invariant forall name :: name in deleted ==> name !in undeletable && name !in services
      {
        assert stale[i] in stale;
        if stale[i] in undeletable {
          return false;
        }
        jet := DeleteConsumers(jet, {stale[i]});
        deleted := deleted + {stale[i]};
        assert jet.consumers == old(jet).consumers - deleted;
      }
      assert stale[..|stale|] == stale;
      assert old(jet).consumers - deleted == old(jet).consumers - (old(jet).consumers.Keys - (set name | name in services));
      return true;
    }
  }

  /** The listed names which are no services, in the order of the listing. */
  method StaleConsumers(services: seq<string>, names: seq<string>) returns (stale: seq<string>)
    ensures forall name :: name in stale <==> name in names && name !in services
  {
    var keep: set<string> := {};
    for i := 0 to |services|
      invariant keep == set name | name in services[..i]
    {
      keep := keep + {services[i]};
    }
    assert services[..|services|] == services;
    stale := [];
    for i := 0 to |names|
      invariant forall name :: name in stale <==> name in names[..i] && name !in keep
    {
      if names[i] !in keep {
        stale := stale + [names[i]];
      }
    }
    assert names[..|names|] == names;
  }

  /** Lost: delivered by the queue, but the fetcher gave up before the message arrived. */
  datatype FetchReply = Message(n: nat) | Lost(n: nat) | NoMessage | Cancelled | FetchFails

  datatype Fetched = Event(event: Events.Event, n: nat) | ErrNoMessage | ErrCancelled | FetchError

  /** One message was delivered to one consumer once more; backlogs and the deliveries of others are as before. */
  ghost predicate DeliveredOnce(jet: Jet, jet': Jet, name: string, n: nat) {
    && jet'.consumers.Keys == jet.consumers.Keys && name in jet.consumers
    && (forall c :: c in jet.consumers && c != name ==> jet'.consumers[c] == jet.consumers[c])
    && var c, c' := jet.consumers[name], jet'.consumers[name];
       && c'.owed == c.owed && c'.pushed == c.pushed
       && forall m: nat :: c'.Deliveries(m) == c.Deliveries(m) + if m == n then 1 else 0
  }

  class EventFetcher {
    const queue: EventQueue
    const service: string

    constructor (queue: EventQueue, service: string)
      ensures this.queue == queue && this.service == service
    {
      this.queue, this.service := queue, service;
    }

    /**
     Returns one message of the service's backlog as it was stored. It stays
     in the backlog, has been delivered once more, and is not delivered again
     before its wait is over.
     */
    method Fetch(reply: FetchReply) returns (fetched: Fetched)
      requires reply.Message? || reply.Lost? ==> Deliverable(queue.jet, service, reply.n) && reply.n < |queue.jet.log|
      modifies queue`jet
      ensures fetched.Event? <==> reply.Message?
      ensures reply.Message? ==> fetched == Fetched.Event(old(queue.jet).log[reply.n].item.event, reply.n)
      ensures queue.jet == old(queue.jet).(consumers := queue.jet.consumers)
      ensures !reply.Message? && !reply.Lost? ==> queue.jet == old(queue.jet)
      ensures fetched == ErrNoMessage <==> reply.NoMessage?
      ensures fetched == FetchError <==> reply.FetchFails?
      ensures reply.Message? || reply.Lost? ==>
                && DeliveredOnce(old(queue.jet), queue.jet, service, reply.n)
                && Pending(queue.jet.consumers[service], queue.jet.now, reply.n)
                && !Deliverable(queue.jet, service, reply.n)
    {
      match reply {
        case Message(n) =>
          var event := queue.jet.log[n].item.event;
          queue.jet := Deliver(queue.jet, service, n);
          return Fetched.Event(event, n);
        case Lost(n) =>
          queue.jet := Deliver(queue.jet, service, n);
          return ErrCancelled;
        case NoMessage => return ErrNoMessage;
        case Cancelled => return ErrCancelled;
        case FetchFails => return FetchError;
      }
    }
  }

  /** The steps of the machine which one PublishEvent takes. */
  function CallSteps(p: nat, w: Weather): seq<Step> {
    [Publisher(p, Take), Publisher(p, Check(w.getFails)), Publisher(p, PublisherStep.Send(w.reply)), Publisher(p, Record(w.putStored))]
  }

  /** PublishEvent is those four steps without anything in between. */
  lemma PublishEventIsRun(cfg: Settings, s: State, p: nat, w: Weather)
    requires s.phase == Running && s.CallOf(p) == Ready && s.channel != [] && cfg.pushTimeout >= 0
    ensures var s' := RunFrom(cfg, s, CallSteps(p, w));
            s'.jet == AfterPublish(s.jet, s.channel[0], p, w) && s'.channel == s.channel[1..] && s'.CallOf(p) == Ready
  {
    var u := CallSteps(p, w);
    var s1 := RunFrom(cfg, s, [u[0], u[1]]);
    LookupIsRun(cfg, s, p, w.getFails);
    if s1.CallOf(p) == Ready {
      NothingIsRun(cfg, s1, p, w.reply, w.putStored);
    } else {
      StoreIsRun(cfg, s1, p, w.reply, w.putStored);
    }
    RunAppend(cfg, s, [u[0], u[1]], [u[2], u[3]]);
    assert [u[0], u[1]] + [u[2], u[3]] == u;
  }

  lemma LookupIsRun(cfg: Settings, s: State, p: nat, fails: bool)
    requires s.phase == Running && s.CallOf(p) == Ready && s.channel != [] && cfg.pushTimeout >= 0
    ensures var item := s.channel[0];
            var call := if fails || item.key in s.jet.kv then Ready else Checked(item, s.jet.now, s.jet.now);
            RunFrom(cfg, s, [Publisher(p, Take), Publisher(p, Check(fails))]) == SetCall(s.(channel := s.channel[1..]), p, call)
  {
    RunTwo(cfg, s, Publisher(p, Take), Publisher(p, Check(fails)));
    var taken := ApplyPublisher(cfg, s, p, Take);
    var call := ApplyPublisher(cfg, taken, p, Check(fails)).CallOf(p);
    assert taken.calls[p := call] == s.calls[p := call];
  }

  lemma StoreIsRun(cfg: Settings, s: State, p: nat, reply: PublishReply, putStored: bool)
    requires s.CallOf(p).Checked? && s.CallOf(p).got == s.CallOf(p).started == s.jet.now && cfg.pushTimeout >= 0
    requires s.CallOf(p).item.key !in s.jet.kv
    ensures var s' := RunFrom(cfg, s, [Publisher(p, PublisherStep.Send(reply)), Publisher(p, Record(putStored))]);
            s'.channel == s.channel && s'.CallOf(p) == Ready &&
            s'.jet == AfterPublish(s.jet, s.CallOf(p).item, p, Weather(false, reply, putStored))
  {
    RunTwo(cfg, s, Publisher(p, PublisherStep.Send(reply)), Publisher(p, Record(putStored)));
    var sent := ApplyPublisher(cfg, s, p, PublisherStep.Send(reply));
    if reply == NotStored || s.CallOf(p).item.key in s.jet.window || reply == ReplyLost {
      assert sent.CallOf(p) == Ready;
    } else {
      assert sent.CallOf(p) == Recording(s.CallOf(p).item, s.jet.now, |s.jet.log|);
    }
  }

  lemma NothingIsRun(cfg: Settings, s: State, p: nat, reply: PublishReply, putStored: bool)
    requires s.CallOf(p) == Ready
    ensures RunFrom(cfg, s, [Publisher(p, PublisherStep.Send(reply)), Publisher(p, Record(putStored))]) == s
  {
    RunTwo(cfg, s, Publisher(p, PublisherStep.Send(reply)), Publisher(p, Record(putStored)));
  }
}
