/** Whenever an event can be published, exactly the configured senders are subscribed. */
module StartupOrder {
  import opened Base
  import opened JetStream
  import opened System
  import DeduplicationLimits

  ghost predicate NoCalls(s: State) {
    forall p: nat :: s.CallOf(p) == Ready
  }

  ghost predicate PhaseOk(s: State) {
    match s.phase
    case Down => NoCalls(s) && s.channel == [] && s.loops == map[] && s.stats == map[]
    case Subscribing(k) =>
      NoCalls(s) && s.channel == [] && k <= |s.senders| && ValidSenders(s.senders) &&
      s.loops.Keys == FirstNames(s.senders, k) <= s.jet.consumers.Keys
    case Pruned =>
      NoCalls(s) && s.channel == [] && ValidSenders(s.senders) && s.loops.Keys == s.jet.consumers.Keys == s.Names()
    case Running => ValidSenders(s.senders) && s.loops.Keys == s.jet.consumers.Keys == s.Names()
  }

  ghost predicate HeardByAll(jet: Jet) {
    forall i {:trigger jet.log[i]} :: 0 <= i < |jet.log| ==> jet.log[i].audience != {}
  }

  ghost predicate Inv(s: State) {
    PhaseOk(s) && HeardByAll(s.jet)
  }

  lemma NamesNotEmpty(s: State)
    requires ValidSenders(s.senders)
    ensures s.Names() != {}
  {
    assert s.senders[0].name in s.Names();
  }

  lemma StartupKeepsPhase(s: State, step: StartupStep)
    requires Inv(s)
    ensures Inv(ApplyStartup(s, step))
  {
    var s' := ApplyStartup(s, step);
    if s' != s {
      match step
      case Boot(senders) => SameCalls(s, s');
      case SubscribeNext =>
        var k := s.phase.next;
        assert FirstNames(s.senders, k + 1) == FirstNames(s.senders, k) + {s.senders[k].name};
        assert s'.loops.Keys == s.loops.Keys + {s.senders[k].name};
        SameCalls(s, s');
      case Prune =>
        assert s.Names() <= s.jet.consumers.Keys;
        assert s'.jet.consumers.Keys == s.Names();
        SameCalls(s, s');
      case PruneFails(deleted) => assert NoCalls(s');
      case StartPusher =>
    }
  }

  lemma SameCalls(s: State, s': State)
    requires NoCalls(s) && s'.calls == s.calls
    ensures NoCalls(s')
  {
    assert forall p: nat :: s'.CallOf(p) == s.CallOf(p);
  }

  /** Consumers and sender loops stay, and every new message has all consumers as its audience. */
  ghost predicate SamePhase(s: State, s': State) {
    s'.phase == s.phase && s'.senders == s.senders &&
    s'.jet.consumers.Keys == s.jet.consumers.Keys && s'.loops.Keys == s.loops.Keys &&
    (s.phase == Running || (s'.calls == s.calls && s'.channel == s.channel)) &&
    (s'.stats == s.stats || !s.phase.Down?) &&
    (s'.jet.log == s.jet.log || s.phase == Running) && |s'.jet.log| >= |s.jet.log| &&
    forall i {:trigger s'.jet.log[i]} :: 0 <= i < |s'.jet.log| ==>
      s'.jet.log[i].audience == if i < |s.jet.log| then s.jet.log[i].audience else s.jet.consumers.Keys
  }

  lemma PhaseFrame(s: State, s': State)
    requires Inv(s) && SamePhase(s, s')
    ensures Inv(s')
  {
    if s.phase == Running {
      NamesNotEmpty(s);
    } else {
      SameCalls(s, s');
    }
  }

  lemma SenderSamePhase(s: State, name: string, step: SenderStep)
    requires name in s.loops && name in s.jet.consumers && !s.phase.Down?
    ensures SamePhase(s, ApplySender(s, name, step))
  {
    match step
    case Fetch(n) =>
    case FetchLost(n) =>
    case Filter =>
    case Skip =>
    case HookFails =>
    case Push(response) =>
    case Settle(ack) =>
  }

  lemma PublisherSamePhase(cfg: Settings, s: State, p: nat, step: PublisherStep)
    requires s.phase == Running
    ensures SamePhase(s, ApplyPublisher(cfg, s, p, step))
  {
    match step
    case Take =>
    case Check(fails) =>
    case Send(reply) =>
    case Record(stored) =>
    case GiveUp =>
  }

  lemma EnvSamePhase(cfg: Settings, s: State, step: EnvStep)
    requires !step.Crash?
    ensures SamePhase(s, ApplyEnv(cfg, s, step))
  {
    match step
    case Tick(elapsed) =>
    case ExpireKey(key) =>
    case ExpireMessageId(key) =>
    case EvictOldest(n) =>
    case Observe(item) =>
  }

  lemma EnvKeepsPhase(cfg: Settings, s: State, step: EnvStep)
    requires Inv(s)
    ensures Inv(ApplyEnv(cfg, s, step))
  {
    if step.Crash? {
      assert NoCalls(ApplyEnv(cfg, s, step));
    } else {
      EnvSamePhase(cfg, s, step);
      PhaseFrame(s, ApplyEnv(cfg, s, step));
    }
  }

  lemma SenderKeepsPhase(s: State, name: string, step: SenderStep)
    requires Inv(s)
    ensures Inv(ApplySender(s, name, step))
  {
    if name in s.loops {
      SenderSamePhase(s, name, step);
      PhaseFrame(s, ApplySender(s, name, step));
    }
  }

  lemma PublisherKeepsPhase(cfg: Settings, s: State, p: nat, step: PublisherStep)
    requires Inv(s)
    ensures Inv(ApplyPublisher(cfg, s, p, step))
  {
    if s.phase == Running {
      PublisherSamePhase(cfg, s, p, step);
      PhaseFrame(s, ApplyPublisher(cfg, s, p, step));
    } else {
      var s' := ApplyPublisher(cfg, s, p, step);
      assert s.CallOf(p) == Ready;
      assert s' == s || s' == SetCall(s, p, Ready);
      forall q: nat ensures s'.CallOf(q) == Ready {
        assert s.CallOf(q) == Ready;
      }
    }
  }

  lemma {:induction false} RunInv(cfg: Settings, steps: seq<Step>)
    ensures Inv(Run(cfg, steps))
  {
    if steps != [] {
      var s := Run(cfg, steps[..|steps| - 1]);
      RunInv(cfg, steps[..|steps| - 1]);
      match steps[|steps| - 1]
      case Environment(env) => EnvKeepsPhase(cfg, s, env);
      case Startup(startup) => StartupKeepsPhase(s, startup);
      case Publisher(p, publisher) => PublisherKeepsPhase(cfg, s, p, publisher);
      case Sender(name, sender) => SenderKeepsPhase(s, name, sender);
    }
  }

  /** Every accepted event is owed to each configured sender, whatever was subscribed before this boot. */
  lemma AcceptedForConfiguredSenders(cfg: Settings, steps: seq<Step>, p: nat, reply: PublishReply)
    requires var s := Run(cfg, steps);
             |ApplyPublisher(cfg, s, p, PublisherStep.Send(reply)).jet.log| > |s.jet.log|
    ensures var s := Run(cfg, steps);
            var s', n := ApplyPublisher(cfg, s, p, PublisherStep.Send(reply)), |s.jet.log|;
            && s.phase == Running && |s'.jet.log| == n + 1
            && s'.jet.log[n].audience == s.Names() == s'.jet.consumers.Keys != {}
            && forall name :: name in s.Names() ==> n in s'.jet.consumers[name].owed
  {
    RunInv(cfg, steps);
    NamesNotEmpty(Run(cfg, steps));
  }

  /** No key gets into the bucket for an event which nobody was subscribed to. */
  lemma RecordedOnlyIfHeard(cfg: Settings, steps: seq<Step>, key: string)
    requires key in Run(cfg, steps).jet.kv
    ensures var jet := Run(cfg, steps).jet;
            exists i :: DeduplicationLimits.PutAs(jet.log, i, key, jet.kv[key]) && jet.log[i].audience != {}
  {
    RunInv(cfg, steps);
    DeduplicationLimits.RunKnowsKeys(cfg, steps);
    var jet := Run(cfg, steps).jet;
    var i :| DeduplicationLimits.PutAs(jet.log, i, key, jet.kv[key]);
    assert jet.log[i].audience != {};
  }

  /** Why the order matters: published before anyone subscribed, an event is lost and stays rejected. */
  lemma PublishedTooEarlyIsLost(jet: Jet, item: Item, p: nat, got: Time, name: string)
    requires jet.consumers == map[]
    ensures var late := Subscribe(Put(Publish(jet, item, p, got), item.key, |jet.log|), name);
            item.key in late.kv && late.consumers.Keys == {name} && late.consumers[name].owed == {}
  {
  }
}
