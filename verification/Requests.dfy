/** How often a sender requests its receiver to take a message: bounds, and runs which send an event twice. */
module Requests {
  import opened Base
  import opened JetStream
  import opened System
  import opened Runs
  import opened Fanout
  import opened Backlog
  import Deduplication
  import DeduplicationLimits
  import StartupOrder

  /** Every request, or only those which Loki accepted. */
  datatype Kind = AnyRequest | Receipt

  /** This step makes such a request for the message. */
  ghost predicate Requested(s: State, step: Step, name: string, n: nat, kind: Kind) {
    step.Sender? && step.name == name && name in s.loops && s.LoopOf(name) == Holding(n) && !s.IsNoop(name) &&
    step.sender.Push? && step.sender.response != Fails(false) && (kind == Receipt ==> step.sender.response == Accepts)
  }

  ghost function Requests(cfg: Settings, s: State, steps: seq<Step>, name: string, n: nat, kind: Kind): nat {
    if steps == [] then 0
    else
      var init := steps[..|steps| - 1];
      Requests(cfg, s, init, name, n, kind) +
      if Requested(RunFrom(cfg, s, init), steps[|steps| - 1], name, n, kind) then 1 else 0
  }

  lemma RequestsSnoc(cfg: Settings, s: State, steps: seq<Step>, step: Step, name: string, n: nat, kind: Kind)
    ensures Requests(cfg, s, steps + [step], name, n, kind) ==
            Requests(cfg, s, steps, name, n, kind) + if Requested(RunFrom(cfg, s, steps), step, name, n, kind) then 1 else 0
  {
    assert (steps + [step])[..|steps|] == steps;
  }

  lemma {:induction false} RequestsAppend(cfg: Settings, s: State, first: seq<Step>, second: seq<Step>, name: string, n: nat, kind: Kind)
    ensures Requests(cfg, s, first + second, name, n, kind) ==
            Requests(cfg, s, first, name, n, kind) + Requests(cfg, RunFrom(cfg, s, first), second, name, n, kind)
  {
    if second == [] {
      assert first + second == first;
    } else {
      var init, last := second[..|second| - 1], second[|second| - 1];
      RequestsAppend(cfg, s, first, init, name, n, kind);
      RunAppend(cfg, s, first, init);
      RequestsSnoc(cfg, s, first + init, last, name, n, kind);
      assert first + second == (first + init) + [last];
    }
  }

  /** Longer runs make no fewer requests. */
  lemma RequestsGrow(cfg: Settings, steps: seq<Step>, steps': seq<Step>, name: string, n: nat, kind: Kind)
    requires steps <= steps'
    ensures Requests(cfg, Start, steps, name, n, kind) <= Requests(cfg, Start, steps', name, n, kind)
  {
    RequestsAppend(cfg, Start, steps, steps'[|steps|..], name, n, kind);
    assert steps + steps'[|steps|..] == steps';
  }

  /** The sender is never removed from the configuration, though it may be added. */
  ghost predicate NeverPruned(cfg: Settings, s: State, steps: seq<Step>, name: string) {
    steps != [] ==>
      var init := steps[..|steps| - 1];
      NeverPruned(cfg, s, init, name) &&
      (name in RunFrom(cfg, s, init).jet.consumers ==> name in RunFrom(cfg, s, steps).jet.consumers)
  }

  function PushesOf(s: State, name: string, n: nat): nat {
    if name in s.jet.consumers then s.jet.consumers[name].Pushes(n) else 0
  }

  lemma EnvCounts(cfg: Settings, s: State, step: EnvStep, name: string, n: nat)
    ensures PushesOf(ApplyEnv(cfg, s, step), name, n) == PushesOf(s, name, n)
  {
  }

  lemma StartupCounts(s: State, step: StartupStep, name: string, n: nat)
    requires name in s.jet.consumers ==> name in ApplyStartup(s, step).jet.consumers
    ensures PushesOf(ApplyStartup(s, step), name, n) == PushesOf(s, name, n)
  {
  }

  lemma PublisherCounts(cfg: Settings, s: State, p: nat, step: PublisherStep, name: string, n: nat)
    ensures PushesOf(ApplyPublisher(cfg, s, p, step), name, n) == PushesOf(s, name, n)
  {
  }

  lemma StepCounts(cfg: Settings, s: State, step: Step, name: string, n: nat)
    requires Inv(s) && (name in s.jet.consumers ==> name in Apply(cfg, s, step).jet.consumers)
    ensures PushesOf(Apply(cfg, s, step), name, n) ==
            PushesOf(s, name, n) + if Requested(s, step, name, n, AnyRequest) then 1 else 0
  {
    hide PushesOf;
    assert NameOk(s, name);
    match step
    case Environment(env) => EnvCounts(cfg, s, env, name, n);
    case Startup(startup) => StartupCounts(s, startup, name, n);
    case Publisher(p, publisher) => PublisherCounts(cfg, s, p, publisher, name, n);
    case Sender(who, sender) => SenderCounts(s, who, sender, name, n);
  }

  lemma SenderCounts(s: State, who: string, step: SenderStep, name: string, n: nat)
    requires name in s.loops ==> name in s.jet.consumers
    ensures PushesOf(ApplySender(s, who, step), name, n) ==
            PushesOf(s, name, n) + if Requested(s, Sender(who, step), name, n, AnyRequest) then 1 else 0
  {
  }

  lemma {:induction false} RequestsAreCounted(cfg: Settings, before: seq<Step>, after: seq<Step>, name: string, n: nat)
    requires NeverPruned(cfg, Run(cfg, before), after, name)
    ensures PushesOf(RunFrom(cfg, Run(cfg, before), after), name, n) ==
            PushesOf(Run(cfg, before), name, n) + Requests(cfg, Run(cfg, before), after, name, n, AnyRequest)
  {
    if after != [] {
      var init := after[..|after| - 1];
      RequestsAreCounted(cfg, before, init, name, n);
      RunAppend(cfg, Start, before, init);
      RunInv(cfg, before + init);
      StepCounts(cfg, RunFrom(cfg, Run(cfg, before), init), after[|after| - 1], name, n);
    }
  }

  /** Over any stretch of any run without pruning the sender, it makes at most eleven requests for a message. */
  lemma PushBound(cfg: Settings, before: seq<Step>, after: seq<Step>, name: string, n: nat)
    requires NeverPruned(cfg, Run(cfg, before), after, name)
    ensures Requests(cfg, Run(cfg, before), after, name, n, AnyRequest) <= MAX_DELIVER
  {
    RequestsAreCounted(cfg, before, after, name, n);
    RunAppend(cfg, Start, before, after);
    if name in Run(cfg, before + after).jet.consumers {
      DeliveryBound(cfg, before + after, name, n);
    }
  }

  lemma {:induction false} OverMakesNoRequest(cfg: Settings, s: State, steps: seq<Step>, name: string, n: nat)
    requires Over(s, name, n) && Subscribed(cfg, s, steps, name)
    ensures Requests(cfg, s, steps, name, n, AnyRequest) == 0
  {
    if steps != [] {
      OverMakesNoRequest(cfg, s, steps[..|steps| - 1], name, n);
      OverForGood(cfg, s, steps[..|steps| - 1], name, n);
    }
  }

  ghost predicate CanBeSent(cfg: Settings, s: State, name: string, n: nat, kind: Kind) {
    exists more :: Subscribed(cfg, s, more, name) && Requests(cfg, s, more, name, n, kind) > 0
  }

  /** The message reaches the receiver once more, after a minute and steps of this sender only. */
  lemma SendAgain(cfg: Settings, steps: seq<Step>, name: string, n: nat, response: Response) returns (more: seq<Step>)
    requires var s := Run(cfg, steps);
             name in s.loops && s.LoopOf(name) == Idle && !s.IsNoop(name) && Open(s, name, n)
    requires response != Fails(false)
    ensures Quiet(more, name) && steps <= steps + more
    ensures var s, s' := Run(cfg, steps), Run(cfg, steps + more);
            && s' == s.(jet := s'.jet, loops := s'.loops, stats := s'.stats)
            && s'.jet == s.jet.(now := s.jet.now + MINUTE, consumers := s'.jet.consumers)
            && s'.jet.consumers.Keys == s.jet.consumers.Keys && s'.loops.Keys == s.loops.Keys
            && s'.LoopOf(name) == AfterPush(n, response)
            && Owed(s', name, n) && s'.jet.consumers[name].owed <= s.jet.consumers[name].owed
            && s'.jet.consumers[name].Deliveries(n) == s.jet.consumers[name].Deliveries(n) + 1
            && forall c :: c in s.jet.consumers && c != name ==> s'.jet.consumers[c] == s.jet.consumers[c]
    ensures Requests(cfg, Run(cfg, steps), more, name, n, AnyRequest) > 0
    ensures response == Accepts ==> Requests(cfg, Run(cfg, steps), more, name, n, Receipt) > 0
  {
    hide RunFrom, Inv;
    var s := Run(cfg, steps);
    var held := NeverStuck(cfg, steps, name, n);
    var push := Sender(name, Push(response));
    RunSnoc(cfg, s, held, push);
    RequestsSnoc(cfg, s, held, push, name, n, AnyRequest);
    RequestsSnoc(cfg, s, held, push, name, n, Receipt);
    QuietPrefix(held, name, Push(response));
    PushMoves(RunFrom(cfg, s, held), name, n, response);
    more := held + [push];
    RunAppend(cfg, Start, steps, more);
  }

  function AfterPush(n: nat, response: Response): Loop {
    match response
    case Accepts => Settling(n, WasSent)
    case BadRequest => Settling(n, WasRejected)
    case Fails(_) => Idle
  }

  lemma PushMoves(s: State, name: string, n: nat, response: Response)
    requires name in s.loops && s.LoopOf(name) == Holding(n) && name in s.jet.consumers && !s.IsNoop(name)
    requires response != Fails(false)
    ensures var s' := ApplySender(s, name, Push(response));
            && name in s'.jet.consumers && OnlyMoved(s, s', name, AfterPush(n, response))
            && s'.jet.consumers[name] == s.jet.consumers[name].(pushed := s'.jet.consumers[name].pushed)
  {
  }

  /**
   Exactly when a message can be sent once more by a sender which is idle and
   stays configured: as long as it is owed and has a delivery to spare. An
   event is sent once only if its acknowledgement takes effect before.
   */
  lemma SentAgainIff(cfg: Settings, steps: seq<Step>, name: string, n: nat)
    requires var s := Run(cfg, steps);
             name in s.loops && s.LoopOf(name) == Idle && !s.IsNoop(name) && n < |s.jet.log|
    ensures var s := Run(cfg, steps);
            && (CanBeSent(cfg, s, name, n, AnyRequest) <==> Open(s, name, n))
            && (CanBeSent(cfg, s, name, n, Receipt) <==> Open(s, name, n))
  {
    var s := Run(cfg, steps);
    RunInv(cfg, steps);
    assert NameOk(s, name);
    if Open(s, name, n) {
      var more := SendAgain(cfg, steps, name, n, Accepts);
      QuietStaysSubscribed(cfg, s, more, name);
    } else {
      forall more | Subscribed(cfg, s, more, name)
        ensures Requests(cfg, s, more, name, n, AnyRequest) == Requests(cfg, s, more, name, n, Receipt) == 0
      {
        OverMakesNoRequest(cfg, s, more, name, n);
        ReceiptsAreRequests(cfg, s, more, name, n);
      }
    }
  }

  lemma {:induction false} ReceiptsAreRequests(cfg: Settings, s: State, steps: seq<Step>, name: string, n: nat)
    ensures Requests(cfg, s, steps, name, n, Receipt) <= Requests(cfg, s, steps, name, n, AnyRequest)
  {
    if steps != [] {
      ReceiptsAreRequests(cfg, s, steps[..|steps| - 1], name, n);
    }
  }

  predicate NoopIn(senders: seq<SenderSpec>, name: string) {
    forall i :: 0 <= i < |senders| && senders[i].name == name ==> senders[i].noop
  }

  predicate AlwaysNoop(steps: seq<Step>, name: string) {
    forall k {:trigger steps[k]} :: 0 <= k < |steps| && steps[k].Startup? && steps[k].startup.Boot? ==>
      NoopIn(steps[k].startup.senders, name)
  }

  lemma StepKeepsNoop(cfg: Settings, s: State, step: Step, name: string)
    requires NoopIn(s.senders, name)
    requires step.Startup? && step.startup.Boot? ==> NoopIn(step.startup.senders, name)
    ensures NoopIn(Apply(cfg, s, step).senders, name)
  {
    match step
    case Environment(env) =>
    case Startup(startup) =>
    case Publisher(p, publisher) => assert ApplyPublisher(cfg, s, p, publisher).senders == s.senders;
    case Sender(who, sender) =>
  }

  lemma LoopIsNoop(s: State, name: string)
    requires StartupOrder.Inv(s) && NoopIn(s.senders, name) && name in s.loops
    ensures s.IsNoop(name)
  {
    assert name in s.Names();
    var i :| 0 <= i < |s.senders| && s.senders[i].name == name;
    assert s.senders[i] == SenderSpec(name, true);
  }

  /** A sender in dry-run mode never makes a request, over every run. */
  lemma {:induction false} NoopMakesNoRequest(cfg: Settings, steps: seq<Step>, name: string, n: nat)
    requires AlwaysNoop(steps, name)
    ensures NoopIn(Run(cfg, steps).senders, name) && Requests(cfg, Start, steps, name, n, AnyRequest) == 0
  {
    if steps != [] {
      hide Apply;
      var init := steps[..|steps| - 1];
      NoopMakesNoRequest(cfg, init, name, n);
      StartupOrder.RunInv(cfg, init);
      var s := Run(cfg, init);
      if name in s.loops {
        LoopIsNoop(s, name);
      }
      StepKeepsNoop(cfg, s, steps[|steps| - 1], name);
    }
  }

  lemma SenderRun(cfg: Settings, steps: seq<Step>, name: string, step: SenderStep) returns (steps': seq<Step>)
    ensures Run(cfg, steps') == ApplySender(Run(cfg, steps), name, step) && steps <= steps'
  {
    steps' := steps + [Sender(name, step)];
    RunSnoc(cfg, Start, steps, Sender(name, step));
  }

  /** The sender gets rid of a message it sent: the acknowledgement takes effect or is lost. */
  lemma SettleRun(cfg: Settings, steps: seq<Step>, name: string, n: nat, ack: AckReply) returns (steps': seq<Step>)
    requires var s := Run(cfg, steps);
             name in s.loops && s.LoopOf(name) == Settling(n, WasSent) && name in s.jet.consumers && ack != AckError
    ensures steps <= steps'
    ensures var s, s' := Run(cfg, steps), Run(cfg, steps');
            && name in s'.jet.consumers && OnlyMoved(s, s', name, Idle)
            && s'.jet.consumers[name] ==
               s.jet.consumers[name].(owed := s.jet.consumers[name].owed - if ack == AckTaken then {n} else {})
  {
    steps' := SenderRun(cfg, steps, name, Settle(ack));
    var s := Run(cfg, steps);
    assert s.jet.consumers[name := s.jet.consumers[name]] == s.jet.consumers;
    assert s.jet.consumers[name].owed - {} == s.jet.consumers[name].owed;
  }

  /** An event with this key is observed, stored and sent by a sender named "loki". */
  lemma SentRun(cfg: Settings, steps: seq<Step>, item: Item) returns (steps': seq<Step>)
    requires cfg.pushTimeout >= 0 && Observable(cfg, Run(cfg, steps).jet.now, item)
    requires var s := Run(cfg, steps);
             && s.phase.Down? && s.channel == [] && s.CallOf(0) == Ready && s.loops == map[]
             && item.key !in s.jet.kv && item.key !in s.jet.window
             && ("loki" in s.jet.consumers ==> |s.jet.log| !in s.jet.consumers["loki"].delivered)
    ensures steps <= steps'
    ensures var s, s' := Run(cfg, steps), Run(cfg, steps');
            var n := |s.jet.log|;
            && s'.phase == Running && s'.senders == [SenderSpec("loki", false)] && s'.channel == [] && s'.CallOf(0) == Ready
            && s'.loops == map["loki" := Settling(n, WasSent)] && s'.jet.consumers.Keys == {"loki"}
            && s'.jet.log == LogAfter(s.(jet := s.jet.(consumers := s'.jet.consumers)), 0, item, false)
            && s'.jet.kv == s.jet.kv && s'.jet.window == s.jet.window[item.key := s.jet.now]
            && s'.jet.boot == s.jet.boot && s'.jet.now == s.jet.now + MINUTE
            && ("loki" in s.jet.consumers ==> s'.jet.consumers["loki"].owed <= s.jet.consumers["loki"].owed + {n})
            && Owed(s', "loki", n) && s'.jet.consumers["loki"].Deliveries(n) == 1
            && Requests(cfg, Start, steps', "loki", n, Receipt) > 0
  {
    var s := Run(cfg, steps);
    var n := |s.jet.log|;
    var stored := StoredRun(cfg, steps, item);
    var more := SendAgain(cfg, stored, "loki", n, Accepts);
    RequestsAppend(cfg, Start, stored, more, "loki", n, Receipt);
    steps' := stored + more;
    var s' := Run(cfg, steps');
    assert s'.loops == map["loki" := Settling(n, WasSent)];
  }

  lemma StoredRun(cfg: Settings, steps: seq<Step>, item: Item) returns (steps': seq<Step>)
    requires cfg.pushTimeout >= 0 && Observable(cfg, Run(cfg, steps).jet.now, item)
    requires var s := Run(cfg, steps);
             && s.phase.Down? && s.channel == [] && s.CallOf(0) == Ready && s.loops == map[]
             && item.key !in s.jet.kv && item.key !in s.jet.window
             && ("loki" in s.jet.consumers ==> |s.jet.log| !in s.jet.consumers["loki"].delivered)
    ensures steps <= steps'
    ensures var s, s' := Run(cfg, steps), Run(cfg, steps');
            var n := |s.jet.log|;
            && s'.phase == Running && s'.senders == [SenderSpec("loki", false)] && s'.channel == [] && s'.CallOf(0) == Ready
            && s'.loops == map["loki" := Idle] && s'.jet.consumers.Keys == {"loki"} && !s'.IsNoop("loki")
            && s'.jet.log == LogAfter(s.(jet := s.jet.(consumers := s'.jet.consumers)), 0, item, false)
            && s'.jet.kv == s.jet.kv && s'.jet.window == s.jet.window[item.key := s.jet.now]
            && s'.jet.boot == s.jet.boot && s'.jet.now == s.jet.now
            && ("loki" in s.jet.consumers ==> s'.jet.consumers["loki"].owed <= s.jet.consumers["loki"].owed + {n})
            && Owed(s', "loki", n) && s'.jet.consumers["loki"].Deliveries(n) == 0
  {
    RunInv(cfg, steps);
    steps' := BootRun(cfg, steps);
    RunInv(cfg, steps');
    assert NameOk(Run(cfg, steps'), "loki");
    assert DeliveryOk(Run(cfg, steps').jet, Run(cfg, steps').jet.consumers["loki"], |Run(cfg, steps').jet.log|);
    steps' := EnvRun(cfg, steps', Observe(item));
    steps' := CallRun(cfg, steps', 0, item, false);
  }

  /** "Each event is sent exactly once" fails without any crash: a lost acknowledgement is enough. */
  lemma SentTwice(cfg: Settings) returns (steps: seq<Step>)
    requires cfg.pushTimeout >= 0
    ensures var jet := Run(cfg, steps).jet;
            |jet.log| == 1 && jet.boot == 0 && Requests(cfg, Start, steps, "loki", 0, Receipt) >= 2
  {
    var item := NewItem(DeduplicationLimits.SomeEvent(None), 0, false);
    var sent := SentRun(cfg, [], item);
    var settled := SettleRun(cfg, sent, "loki", 0, AckLost);
    RequestsGrow(cfg, sent, settled, "loki", 0, Receipt);
    var more := SendAgain(cfg, settled, "loki", 0, Accepts);
    RequestsAppend(cfg, Start, settled, more, "loki", 0, Receipt);
    steps := settled + more;
  }

  /** Nor is it stored exactly once: two copies, one of them sent and acknowledged before the other is stored. */
  lemma ExactlyOnceFails(cfg: Settings) returns (steps: seq<Step>)
    requires cfg.pushTimeout >= 0
    ensures var s := Run(cfg, steps);
            && Deduplication.SameKey(s.jet, 0, 1) && s.jet.log[0].publisher == s.jet.log[1].publisher
            && s.jet.log[1].at == s.jet.log[0].at + MINUTE
            && !Owed(s, "loki", 0) && !Owed(s, "loki", 1)
            && Requests(cfg, Start, steps, "loki", 0, Receipt) > 0 && Requests(cfg, Start, steps, "loki", 1, Receipt) > 0
  {
    var item := NewItem(DeduplicationLimits.SomeEvent(None), 0, false);
    var first := SentRun(cfg, [], item);
    var settled := SettleRun(cfg, first, "loki", 0, AckTaken);
    var crashed := EnvRun(cfg, settled, Crash({item.key}));
    RunInv(cfg, crashed);
    assert NameOk(Run(cfg, crashed), "loki");
    assert DeliveryOk(Run(cfg, crashed).jet, Run(cfg, crashed).jet.consumers["loki"], 1);
    var second := SentRun(cfg, crashed, item);
    steps := SettleRun(cfg, second, "loki", 1, AckTaken);
    RequestsGrow(cfg, first, steps, "loki", 0, Receipt);
    RequestsGrow(cfg, second, steps, "loki", 1, Receipt);
  }

  lemma PruneStep(cfg: Settings, steps: seq<Step>) returns (steps': seq<Step>)
    requires Run(cfg, steps).phase == Subscribing(|Run(cfg, steps).senders|)
    ensures steps <= steps'
    ensures var s := Run(cfg, steps);
            Run(cfg, steps') == s.(phase := Pruned, jet := DeleteConsumers(s.jet, s.jet.consumers.Keys - s.Names()))
  {
    steps' := steps + [Startup(Prune)];
    RunSnoc(cfg, Start, steps, Startup(Prune));
  }

  lemma RestartRun(cfg: Settings, steps: seq<Step>, name: string) returns (steps': seq<Step>)
    ensures steps <= steps'
    ensures var s, s' := Run(cfg, steps), Run(cfg, steps');
            && s'.loops == map[name := Idle] && s'.jet == Subscribe(s.jet.(boot := s.jet.boot + 1), name)
            && s'.phase == Subscribing(1) && s'.senders == [SenderSpec(name, false)]
  {
    RestartRuns(cfg, Run(cfg, steps), name);
    RunAppend(cfg, Start, steps, RestartSteps(name));
    steps' := steps + RestartSteps(name);
  }

  /** A sender starts afresh with a message which another one is still owed. */
  ghost predicate Afresh(s: State, name: string, other: string, n: nat) {
    && name in s.loops && s.LoopOf(name) == Idle && !s.IsNoop(name)
    && Owed(s, name, n) && Owed(s, other, n)
    && s.jet.consumers[name].Deliveries(n) == 0
  }

  /** A sender which is removed from the configuration and added again gets what is retained from the start. */
  lemma PruningForgets(cfg: Settings, steps: seq<Step>, name: string, other: string, n: nat) returns (steps': seq<Step>)
    requires Owed(Run(cfg, steps), other, n) && name != other
    ensures steps <= steps' && Afresh(Run(cfg, steps'), name, other, n)
    ensures Run(cfg, steps').jet.log == Run(cfg, steps).jet.log
  {
    RunInv(cfg, steps);
    assert NameOk(Run(cfg, steps), other) && DeliveryOk(Run(cfg, steps).jet, Run(cfg, steps).jet.consumers[other], n);
    var removed := RestartRun(cfg, steps, other);
    assert Run(cfg, removed).senders[0].name == other;
    assert Run(cfg, removed).Names() == {other};
    removed := PruneStep(cfg, removed);
    var s := Run(cfg, removed);
    assert s.jet.consumers.Keys == {other} && Owed(s, other, n) && s.jet.Retained(n);
    steps' := RestartRun(cfg, removed, name);
    assert Run(cfg, steps').jet.Retained(n);
  }

  /** k more requests fail. */
  lemma {:induction false} FailingRun(cfg: Settings, steps: seq<Step>, name: string, other: string, n: nat, k: nat)
    returns (steps': seq<Step>)
    requires Afresh(Run(cfg, steps), name, other, n) && name != other && k <= MAX_DELIVER
    ensures steps <= steps' && Requests(cfg, Start, steps', name, n, AnyRequest) >= k
    ensures var s, s' := Run(cfg, steps), Run(cfg, steps');
            && name in s'.loops && s'.LoopOf(name) == Idle && !s'.IsNoop(name)
            && Owed(s', name, n) && Owed(s', other, n)
            && s'.jet.consumers[name].Deliveries(n) == k && s'.jet.log == s.jet.log
  {
    steps' := steps;
    if k > 0 {
      var before := FailingRun(cfg, steps, name, other, n, k - 1);
      var more := SendAgain(cfg, before, name, n, Fails(true));
      RequestsAppend(cfg, Start, before, more, name, n, AnyRequest);
      steps' := before + more;
    }
  }

  /** The bound of eleven does not outlive pruning: twelve requests for the only message there ever was. */
  lemma PrunedSenderStartsAfresh(cfg: Settings) returns (steps: seq<Step>)
    requires cfg.pushTimeout >= 0
    ensures |Run(cfg, steps).jet.log| == 1 && Requests(cfg, Start, steps, "other", 0, AnyRequest) > MAX_DELIVER
  {
    var item := NewItem(DeduplicationLimits.SomeEvent(None), 0, false);
    steps := StoredRun(cfg, [], item);
    steps := PruningForgets(cfg, steps, "other", "loki", 0);
    var failed := FailingRun(cfg, steps, "other", "loki", 0, MAX_DELIVER);
    var again := PruningForgets(cfg, failed, "other", "loki", 0);
    RequestsGrow(cfg, failed, again, "other", 0, AnyRequest);
    var more := SendAgain(cfg, again, "other", 0, Accepts);
    RequestsAppend(cfg, Start, again, more, "other", 0, AnyRequest);
    steps := again + more;
  }
}
