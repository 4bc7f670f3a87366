/** The startup order of run in cmd/kigeon/main.go. */
module Main {
  import opened JetStream
  import opened System
  import opened Runs
  import EQ = EventQueue

  /** The consumers of the first k senders, subscribed in their order. */
  function SubscribeFirst(jet: Jet, senders: seq<SenderSpec>, k: nat): (r: Jet)
    requires k <= |senders|
    ensures r == jet.(consumers := r.consumers)
    ensures r.consumers.Keys == jet.consumers.Keys + FirstNames(senders, k)
    ensures forall name :: name in jet.consumers ==> r.consumers[name] == jet.consumers[name]
  {
    if k == 0 then
      assert FirstNames(senders, 0) == {};
      jet
    else
      assert FirstNames(senders, k) == FirstNames(senders, k - 1) + {senders[k - 1].name};
      Subscribe(SubscribeFirst(jet, senders, k - 1), senders[k - 1].name)
  }

  function Started(jet: Jet, senders: seq<SenderSpec>): Jet {
    var subscribed := SubscribeFirst(jet, senders, |senders|);
    DeleteConsumers(subscribed, subscribed.consumers.Keys - FirstNames(senders, |senders|))
  }

  lemma NameIsFirst(senders: seq<SenderSpec>, i: nat)
    requires i < |senders|
    ensures senders[i].name in FirstNames(senders, |senders|)
  {
  }

  lemma NothingFirst(jet: Jet, senders: seq<SenderSpec>)
    ensures FirstNames(senders, 0) == {} && SubscribeFirst(jet, senders, 0) == jet
  {
  }

  lemma OneMore(jet: Jet, senders: seq<SenderSpec>, i: nat)
    requires i < |senders|
    ensures FirstNames(senders, i + 1) == FirstNames(senders, i) + {senders[i].name}
    ensures SubscribeFirst(jet, senders, i + 1) == Subscribe(SubscribeFirst(jet, senders, i), senders[i].name)
  {
  }

  lemma NamesAre(senders: seq<SenderSpec>, names: seq<string>)
    requires |names| == |senders| && forall i :: 0 <= i < |names| ==> names[i] == senders[i].name
    ensures (set name | name in names) == FirstNames(senders, |senders|)
  {
  }

  /** The senders whose namespace filter starts, which can subscribe, and which can be created. */
  datatype Luck = Luck(filters: set<string>, subscriptions: set<string>, factories: set<string>) {
    function All(): set<string> { filters * subscriptions * factories }
  }

  /** One pass of the loop over the configured senders. */
  method StartSender(queue: EQ.EventQueue, name: string, luck: Luck) returns (ok: bool)
    modifies queue`jet
    ensures ok <==> name in luck.All()
    ensures queue.jet == if name in luck.filters && name in luck.subscriptions
                         then Subscribe(old(queue.jet), name) else old(queue.jet)
  {
    if name !in luck.filters {
      return false;
    }
    ok := queue.SubscribeService(name, name !in luck.subscriptions);
    if ok && name !in luck.factories {
      return false;
    }
  }

  /** Some of the senders, in their order, were subscribed. */
  ghost predicate SubscribedSome(jet: Jet, jet': Jet, senders: seq<SenderSpec>) {
    exists k :: 0 <= k <= |senders| && jet' == SubscribeFirst(jet, senders, k)
  }

  /** Stops at the first sender which cannot start. */
  method SubscribeAll(queue: EQ.EventQueue, senders: seq<SenderSpec>, luck: Luck)
    returns (ok: bool, senderNames: seq<string>)
    modifies queue`jet
    ensures ok <==> FirstNames(senders, |senders|) <= luck.All()
    ensures ok ==> queue.jet == SubscribeFirst(old(queue.jet), senders, |senders|)
    ensures ok ==> (set name | name in senderNames) == FirstNames(senders, |senders|)
    ensures SubscribedSome(old(queue.jet), queue.jet, senders)
  {
    hide FirstNames, Subscribe, SubscribeFirst;
    senderNames := [];
    NothingFirst(queue.jet, senders);
    for i := 0 to |senders|
      invariant |senderNames| == i && forall j :: 0 <= j < i ==> senderNames[j] == senders[j].name
      invariant queue.jet == SubscribeFirst(old(queue.jet), senders, i)
      invariant FirstNames(senders, i) <= luck.All()
    {
      senderNames := senderNames + [senders[i].name];
      ok := StartSender(queue, senders[i].name, luck);
      OneMore(old(queue.jet), senders, i);
      if !ok {
        NameIsFirst(senders, i);
        assert queue.jet == SubscribeFirst(old(queue.jet), senders, i) || queue.jet == SubscribeFirst(old(queue.jet), senders, i + 1);
        return;
      }
    }
    NamesAre(senders, senderNames);
    ok := true;
  }

  /** Whatever was there of a configured sender is still there. */
  ghost predicate KeepsBacklogs(jet: Jet, jet': Jet, senders: seq<SenderSpec>) {
    forall name :: name in jet.consumers && name in FirstNames(senders, |senders|) ==>
      name in jet'.consumers && jet'.consumers[name] == jet.consumers[name]
  }

  /**
   Subscribes every sender, prunes and waits for the pod informer; the event
   pusher only starts if all of that succeeded. Even if it does not, no
   configured sender loses its backlog.
   */
  method StartUp(queue: EQ.EventQueue, senders: seq<SenderSpec>, luck: Luck, names: seq<string>, listFails: bool,
                 undeletable: set<string>, podInformerStarts: bool) returns (pusherStarts: bool)
    requires !listFails && FirstNames(senders, |senders|) <= luck.All() ==>
               forall name :: name in names <==> name in SubscribeFirst(queue.jet, senders, |senders|).consumers
    modifies queue`jet
    ensures pusherStarts <==>
              FirstNames(senders, |senders|) <= luck.All() && !listFails && podInformerStarts &&
              forall name :: name in undeletable && name in names ==> name in FirstNames(senders, |senders|)
    ensures pusherStarts ==> queue.jet == Started(old(queue.jet), senders)
    ensures pusherStarts ==> queue.jet.consumers.Keys == FirstNames(senders, |senders|)
    ensures KeepsBacklogs(old(queue.jet), queue.jet, senders)
  {
    hide FirstNames;
    var ok, senderNames := SubscribeAll(queue, senders, luck);
    if !ok {
      return false;
    }
    ghost var kept := set name | name in senderNames;
    assert forall name :: name in senderNames <==> name in kept;
    pusherStarts := queue.PruneConsumers(senderNames, names, listFails, undeletable);
    if pusherStarts && !podInformerStarts {
      return false;
    }
  }

  function Repeat(step: Step, k: nat): seq<Step> {
    if k == 0 then [] else Repeat(step, k - 1) + [step]
  }

  /** Only the first k senders are subscribed so far. */
  predicate SubscribedUpTo(s: State, s': State, k: nat) {
    s'.phase == Subscribing(k) && s'.senders == s.senders && s'.calls == s.calls && s'.channel == s.channel &&
    k <= |s.senders| && s'.jet == SubscribeFirst(s.jet, s.senders, k)
  }

  lemma SubscribeStep(cfg: Settings, s: State, s': State, k: nat)
    requires SubscribedUpTo(s, s', k) && k < |s.senders|
    ensures SubscribedUpTo(s, Apply(cfg, s', Startup(SubscribeNext)), k + 1)
  {
    hide Subscribe, FirstNames;
  }

  lemma NothingSubscribed(cfg: Settings, s: State)
    requires s.phase == Subscribing(0)
    ensures SubscribedUpTo(s, RunFrom(cfg, s, []), 0)
  {
  }

  lemma {:induction false} SubscribeSteps(cfg: Settings, s: State, k: nat)
    requires s.phase == Subscribing(0) && k <= |s.senders|
    ensures SubscribedUpTo(s, RunFrom(cfg, s, Repeat(Startup(SubscribeNext), k)), k)
  {
    hide SubscribedUpTo, Apply, RunFrom, SubscribeFirst, FirstNames;
    if k == 0 {
      NothingSubscribed(cfg, s);
    } else {
      SubscribeSteps(cfg, s, k - 1);
      RunSnoc(cfg, s, Repeat(Startup(SubscribeNext), k - 1), Startup(SubscribeNext));
      SubscribeStep(cfg, s, RunFrom(cfg, s, Repeat(Startup(SubscribeNext), k - 1)), k - 1);
    }
  }

  function StartUpSteps(senders: seq<SenderSpec>): seq<Step> {
    [Startup(Boot(senders))] + Repeat(Startup(SubscribeNext), |senders|) + [Startup(Prune), Startup(StartPusher)]
  }

  lemma BootStep(cfg: Settings, s: State, senders: seq<SenderSpec>)
    requires s.phase.Down? && ValidSenders(senders)
    ensures RunFrom(cfg, s, [Startup(Boot(senders))]) == s.(phase := Subscribing(0), senders := senders)
  {
    RunSnoc(cfg, s, [], Startup(Boot(senders)));
    assert [] + [Startup(Boot(senders))] == [Startup(Boot(senders))];
  }

  lemma LastSteps(cfg: Settings, s: State)
    requires s.phase == Subscribing(|s.senders|)
    ensures RunFrom(cfg, s, [Startup(Prune), Startup(StartPusher)]) ==
            s.(phase := Running, jet := DeleteConsumers(s.jet, s.jet.consumers.Keys - s.Names()))
  {
    RunTwo(cfg, s, Startup(Prune), Startup(StartPusher));
  }

  /** A successful StartUp is the boot sequence of the machine, from any state of the disk. */
  lemma StartUpIsRun(cfg: Settings, s: State, senders: seq<SenderSpec>)
    requires s.phase.Down? && ValidSenders(senders)
    ensures var s' := RunFrom(cfg, s, StartUpSteps(senders));
            s'.phase == Running && s'.senders == senders && s'.jet == Started(s.jet, senders)
  {
    hide RunFrom, SubscribeFirst, Repeat, DeleteConsumers;
    var boot, subscribe := [Startup(Boot(senders))], Repeat(Startup(SubscribeNext), |senders|);
    BootStep(cfg, s, senders);
    var booted := RunFrom(cfg, s, boot);
    SubscribeSteps(cfg, booted, |senders|);
    RunAppend(cfg, s, boot, subscribe);
    var subscribed := RunFrom(cfg, s, boot + subscribe);
    RunAppend(cfg, s, boot + subscribe, [Startup(Prune), Startup(StartPusher)]);
    LastSteps(cfg, subscribed);
  }
}
