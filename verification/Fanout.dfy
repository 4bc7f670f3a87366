/**
 From the stream to the receivers: what becomes of an accepted message, how
 often it is pushed, and what the metrics say about it.
 */
module Fanout {
  import opened Base
  import opened JetStream
  import opened System
  import StartupOrder

  predicate Owed(s: State, name: string, n: nat) {
    name in s.jet.consumers && n in s.jet.consumers[name].owed
  }

  /** The only ways a message leaves the backlog of a sender. */
  ghost predicate EnvSettles(s: State, step: EnvStep, n: nat) {
    step == EvictOldest(n) && forall k: nat :: s.jet.Retained(k) ==> n <= k
  }

  predicate StartupSettles(s: State, step: StartupStep, name: string) {
    s.phase == Subscribing(|s.senders|) && name !in s.Names() &&
    (step == Prune || (step.PruneFails? && name in step.deleted))
  }

  predicate SenderSettles(s: State, who: string, step: SenderStep, name: string, n: nat) {
    who == name && step == Settle(AckTaken) && name in s.loops &&
    s.LoopOf(name).Settling? && s.LoopOf(name).n == n
  }

  ghost predicate Settles(s: State, step: Step, name: string, n: nat) {
    match step
    case Environment(env) => EnvSettles(s, env, n)
    case Startup(startup) => StartupSettles(s, startup, name)
    case Publisher(_, _) => false
    case Sender(who, sender) => SenderSettles(s, who, sender, name, n)
  }

  lemma EnvLeavesOwed(cfg: Settings, s: State, step: EnvStep, name: string, n: nat)
    requires Owed(s, name, n)
    ensures !Owed(ApplyEnv(cfg, s, step), name, n) <==> EnvSettles(s, step, n)
  {
    assert s.jet.Retained(n);
  }

  lemma StartupLeavesOwed(s: State, step: StartupStep, name: string, n: nat)
    requires Owed(s, name, n)
    ensures !Owed(ApplyStartup(s, step), name, n) <==> StartupSettles(s, step, name)
  {
  }

  lemma PublisherLeavesOwed(cfg: Settings, s: State, p: nat, step: PublisherStep, name: string, n: nat)
    requires Owed(s, name, n)
    ensures Owed(ApplyPublisher(cfg, s, p, step), name, n)
  {
  }

  lemma SenderLeavesOwed(s: State, who: string, step: SenderStep, name: string, n: nat)
    requires Owed(s, name, n)
    ensures !Owed(ApplySender(s, who, step), name, n) <==> SenderSettles(s, who, step, name, n)
  {
  }

  lemma LeavesOnlyIfSettled(cfg: Settings, s: State, step: Step, name: string, n: nat)
    requires Owed(s, name, n)
    ensures !Owed(Apply(cfg, s, step), name, n) <==> Settles(s, step, name, n)
  {
    match step
    case Environment(env) => EnvLeavesOwed(cfg, s, env, name, n);
    case Startup(startup) => StartupLeavesOwed(s, startup, name, n);
    case Publisher(p, publisher) => PublisherLeavesOwed(cfg, s, p, publisher, name, n);
    case Sender(who, sender) => SenderLeavesOwed(s, who, sender, name, n);
  }

  /** Which step of a sender loop led to which reason for an acknowledgement. */
  predicate Outcome(noop: bool, step: SenderStep, reason: Reason) {
    match reason
    case WasFiltered => step == Filter
    case WasSkipped => step == Skip
    case WasSent => step == Push(Accepts) || (noop && step.Push?)
    case WasRejected => !noop && step == Push(BadRequest)
  }

  ghost predicate OutcomeAt(cfg: Settings, steps: seq<Step>, k: int, name: string, n: nat, reason: Reason) {
    0 <= k < |steps| && steps[k].Sender? && steps[k].name == name &&
    (var s := Run(cfg, steps[..k]);
     s.LoopOf(name) == Holding(n) && Outcome(s.IsNoop(name), steps[k].sender, reason))
  }

  lemma OutcomePrecedesSettling(cfg: Settings, s: State, step: Step, name: string)
    requires Apply(cfg, s, step).LoopOf(name).Settling? && Apply(cfg, s, step).LoopOf(name) != s.LoopOf(name)
    ensures var loop := Apply(cfg, s, step).LoopOf(name);
            && step.Sender? && step.name == name && s.LoopOf(name) == Holding(loop.n)
            && Outcome(s.IsNoop(name), step.sender, loop.reason)
  {
    match step
    case Environment(env) =>
    case Startup(startup) =>
    case Publisher(p, publisher) =>
    case Sender(who, sender) =>
  }

  lemma {:induction false} SettlingHadOutcome(cfg: Settings, steps: seq<Step>, name: string)
    ensures var loop := Run(cfg, steps).LoopOf(name);
            loop.Settling? ==> exists k :: OutcomeAt(cfg, steps, k, name, loop.n, loop.reason)
  {
    if steps != [] {
      var init := steps[..|steps| - 1];
      var s, loop := Run(cfg, init), Run(cfg, steps).LoopOf(name);
      SettlingHadOutcome(cfg, init, name);
      if loop.Settling? {
        if s.LoopOf(name) == loop {
          var k :| OutcomeAt(cfg, init, k, name, loop.n, loop.reason);
          assert steps[..k] == init[..k];
          assert OutcomeAt(cfg, steps, k, name, loop.n, loop.reason);
        } else {
          OutcomePrecedesSettling(cfg, s, steps[|steps| - 1], name);
          assert OutcomeAt(cfg, steps, |steps| - 1, name, loop.n, loop.reason);
        }
      }
    }
  }

  /** Seconds a message waits at least between its first delivery and delivery number count. */
  function BackOffSum(count: nat): Time {
    if count <= 1 then 0 else BackOffSum(count - 1) + RedeliverAfter(count - 1)
  }

  lemma BackOffOfAllDeliveries()
    ensures BackOffSum(MAX_DELIVER) == 403 * SECOND
  {
  }

  /** How long after delivery number count the next one comes. */
  predicate WaitIs(count: nat, wait: Time) {
    if count == 1 then wait == SECOND
    else if count == 2 then wait == 2 * SECOND
    else if count == 3 then wait == 10 * SECOND
    else if count == 4 then wait == 30 * SECOND
    else wait == 60 * SECOND
  }

  lemma WaitsAre(count: nat)
    requires count > 0
    ensures WaitIs(count, RedeliverAfter(count))
  {
  }

  /** When the queue delivers a message of the backlog: a new one while at most one is pending, another after its wait. */
  lemma DeliverableIff(jet: Jet, name: string, n: nat)
    requires name in jet.consumers && n in jet.consumers[name].owed
    ensures var c := jet.consumers[name];
            n !in c.delivered ==> (Deliverable(jet, name, n) <==> |PendingSet(c, jet.now)| <= 1)
    ensures var c := jet.consumers[name];
            n in c.delivered && c.delivered[n].count > 0 ==>
              (Deliverable(jet, name, n) <==>
                 c.delivered[n].count <= 10 && exists wait :: WaitIs(c.delivered[n].count, wait) && jet.now - c.delivered[n].last >= wait)
  {
    var c := jet.consumers[name];
    if n in c.delivered && c.delivered[n].count > 0 {
      WaitsAre(c.delivered[n].count);
    }
  }

  ghost predicate DeliveryOk(jet: Jet, c: Consumer, n: nat) {
    (n in c.owed || n in c.delivered || n in c.pushed ==> n < |jet.log|) &&
    c.Pushes(n) <= c.Deliveries(n) &&
    (n in c.delivered ==>
       var d := c.delivered[n];
       1 <= d.count <= MAX_DELIVER && d.first <= d.last <= jet.now && d.last - d.first >= BackOffSum(d.count))
  }

  ghost predicate ConsumerOk(jet: Jet, c: Consumer) {
    forall n: nat :: DeliveryOk(jet, c, n)
  }

  /** A loop which did not push yet has the present delivery to spare. */
  predicate LoopFits(c: Consumer, loop: Loop) {
    match loop
    case Idle => true
    case Holding(n) => c.Pushes(n) < c.Deliveries(n)
    case Settling(n, _) => n in c.delivered
  }

  ghost predicate NameOk(s: State, name: string) {
    (name in s.jet.consumers ==> ConsumerOk(s.jet, s.jet.consumers[name])) &&
    (name in s.loops ==> name in s.jet.consumers && LoopFits(s.jet.consumers[name], s.loops[name]))
  }

  ghost predicate Inv(s: State) {
    forall name :: NameOk(s, name)
  }

  lemma ConsumerChangeKeepsInv(s: State, s': State, who: string, c: Consumer)
    requires Inv(s) && who in s.loops && who in s.jet.consumers
    requires s'.jet == s.jet.(consumers := s'.jet.consumers)
    requires s'.jet.consumers == s.jet.consumers[who := c] && s'.loops == s.loops[who := s'.LoopOf(who)]
    requires ConsumerOk(s.jet, c) && LoopFits(c, s'.LoopOf(who))
    ensures Inv(s')
  {
    forall name ensures NameOk(s', name) {
      assert NameOk(s, name);
      if name in s'.jet.consumers {
        forall n: nat ensures DeliveryOk(s'.jet, s'.jet.consumers[name], n) {
          assert DeliveryOk(s.jet, if name == who then c else s.jet.consumers[name], n);
        }
      }
    }
  }

  lemma DeliverKeepsOk(jet: Jet, name: string, n: nat)
    requires Deliverable(jet, name, n) && ConsumerOk(jet, jet.consumers[name])
    ensures var c := Deliver(jet, name, n).consumers[name];
            ConsumerOk(jet, c) && LoopFits(c, Holding(n))
  {
    var c, c' := jet.consumers[name], Deliver(jet, name, n).consumers[name];
    assert DeliveryOk(jet, c, n);
    forall m: nat ensures DeliveryOk(jet, c', m) {
      assert DeliveryOk(jet, c, m);
    }
  }

  lemma PushKeepsOk(jet: Jet, name: string, n: nat)
    requires name in jet.consumers && ConsumerOk(jet, jet.consumers[name])
    requires LoopFits(jet.consumers[name], Holding(n))
    ensures ConsumerOk(jet, CountPush(jet, name, n).consumers[name])
  {
    var c, c' := jet.consumers[name], CountPush(jet, name, n).consumers[name];
    assert DeliveryOk(jet, c, n);
    forall m: nat ensures DeliveryOk(jet, c', m) {
      assert DeliveryOk(jet, c, m);
    }
  }

  lemma LessOwedKeepsOk(jet: Jet, c: Consumer, c': Consumer)
    requires ConsumerOk(jet, c) && c' == c.(owed := c'.owed) && c'.owed <= c.owed
    ensures ConsumerOk(jet, c')
  {
    forall m: nat ensures DeliveryOk(jet, c', m) {
      assert DeliveryOk(jet, c, m);
    }
  }

  /** Steps which leave the consumers of this loop alone. */
  lemma LoopChangeKeepsInv(s: State, s': State, who: string)
    requires Inv(s) && who in s.loops
    requires s'.jet == s.jet && s'.loops == s.loops[who := s'.LoopOf(who)]
    requires who in s.jet.consumers && LoopFits(s.jet.consumers[who], s'.LoopOf(who))
    ensures Inv(s')
  {
    assert NameOk(s, who);
    assert s.jet.consumers[who := s.jet.consumers[who]] == s.jet.consumers;
    ConsumerChangeKeepsInv(s, s', who, s.jet.consumers[who]);
  }

  lemma PushStepKeepsInv(s: State, who: string, response: Response)
    requires Inv(s)
    ensures Inv(ApplySender(s, who, Push(response)))
  {
    var s' := ApplySender(s, who, Push(response));
    if s'.jet != s.jet {
      assert NameOk(s, who);
      PushKeepsOk(s.jet, who, s.LoopOf(who).n);
      ConsumerChangeKeepsInv(s, s', who, s'.jet.consumers[who]);
    } else if s' != s {
      assert NameOk(s, who);
      LoopChangeKeepsInv(s, s', who);
    }
  }

  lemma SettleKeepsInv(s: State, who: string, ack: AckReply)
    requires Inv(s)
    ensures Inv(ApplySender(s, who, Settle(ack)))
  {
    var s' := ApplySender(s, who, Settle(ack));
    if s'.jet != s.jet {
      assert NameOk(s, who);
      LessOwedKeepsOk(s.jet, s.jet.consumers[who], s'.jet.consumers[who]);
      ConsumerChangeKeepsInv(s, s', who, s'.jet.consumers[who]);
    } else if s' != s {
      assert NameOk(s, who);
      LoopChangeKeepsInv(s, s', who);
    }
  }

  lemma FetchKeepsInv(s: State, who: string, step: SenderStep, n: nat)
    requires Inv(s) && (step == Fetch(n) || step == FetchLost(n))
    ensures Inv(ApplySender(s, who, step))
  {
    var s' := ApplySender(s, who, step);
    if s' != s {
      assert NameOk(s, who);
      DeliverKeepsOk(s.jet, who, n);
      assert step.FetchLost? ==> s.loops[who := Idle] == s.loops;
      ConsumerChangeKeepsInv(s, s', who, s'.jet.consumers[who]);
    }
  }

  lemma SenderKeepsInv(s: State, who: string, step: SenderStep)
    requires Inv(s)
    ensures Inv(ApplySender(s, who, step))
  {
    match step
    case Fetch(n) => FetchKeepsInv(s, who, step, n);
    case FetchLost(n) => FetchKeepsInv(s, who, step, n);
    case Push(response) => PushStepKeepsInv(s, who, response);
    case Settle(ack) => SettleKeepsInv(s, who, ack);
    case _ =>
      var s' := ApplySender(s, who, step);
      if s' != s {
        assert NameOk(s, who);
        LoopChangeKeepsInv(s, s', who);
      }
  }

  /** Time passes, the log grows and backlogs shrink; no loop moves on. */
  lemma ConsumersShrinkKeepInv(s: State, s': State)
    requires Inv(s)
    requires s'.jet.now >= s.jet.now && |s'.jet.log| >= |s.jet.log|
    requires s'.jet.consumers.Keys <= s.jet.consumers.Keys
    requires forall name :: name in s'.jet.consumers ==>
               var c, c' := s.jet.consumers[name], s'.jet.consumers[name];
               c' == c.(owed := c'.owed) && forall n :: n in c'.owed ==> n in c.owed || n < |s'.jet.log|
    requires forall name :: name in s'.loops ==>
               name in s.loops && s'.loops[name] == s.loops[name] && name in s'.jet.consumers
    ensures Inv(s')
  {
    forall name ensures NameOk(s', name) {
      assert NameOk(s, name);
      if name in s'.jet.consumers {
        forall n: nat ensures DeliveryOk(s'.jet, s'.jet.consumers[name], n) {
          assert DeliveryOk(s.jet, s.jet.consumers[name], n);
        }
      }
    }
  }

  lemma EnvKeepsInv(cfg: Settings, s: State, step: EnvStep)
    requires Inv(s)
    ensures Inv(ApplyEnv(cfg, s, step))
  {
    assert forall name :: name in s.loops ==> NameOk(s, name);
    ConsumersShrinkKeepInv(s, ApplyEnv(cfg, s, step));
  }

  lemma PublisherKeepsInv(cfg: Settings, s: State, p: nat, step: PublisherStep)
    requires Inv(s)
    ensures Inv(ApplyPublisher(cfg, s, p, step))
  {
    assert forall name :: name in s.loops ==> NameOk(s, name);
    ConsumersShrinkKeepInv(s, ApplyPublisher(cfg, s, p, step));
  }

  lemma SubscribeKeepsInv(s: State)
    requires Inv(s)
    ensures Inv(ApplyStartup(s, SubscribeNext))
  {
    var s' := ApplyStartup(s, SubscribeNext);
    forall name ensures NameOk(s', name) {
      assert NameOk(s, name);
      if name in s'.jet.consumers && name in s.jet.consumers {
        assert s'.jet.consumers[name] == s.jet.consumers[name];
        forall n: nat ensures DeliveryOk(s'.jet, s'.jet.consumers[name], n) {
          assert DeliveryOk(s.jet, s.jet.consumers[name], n);
        }
      }
    }
  }

  lemma StartupKeepsInv(s: State, step: StartupStep)
    requires Inv(s) && StartupOrder.Inv(s)
    ensures Inv(ApplyStartup(s, step))
  {
    if step.SubscribeNext? {
      SubscribeKeepsInv(s);
    } else {
      assert forall name :: name in s.loops ==> NameOk(s, name);
      ConsumersShrinkKeepInv(s, ApplyStartup(s, step));
    }
  }

  lemma {:induction false} RunInv(cfg: Settings, steps: seq<Step>)
    ensures Inv(Run(cfg, steps))
  {
    if steps != [] {
      var s := Run(cfg, steps[..|steps| - 1]);
      RunInv(cfg, steps[..|steps| - 1]);
      match steps[|steps| - 1]
      case Environment(env) => EnvKeepsInv(cfg, s, env);
      case Startup(startup) =>
        StartupOrder.RunInv(cfg, steps[..|steps| - 1]);
        StartupKeepsInv(s, startup);
      case Publisher(p, publisher) => PublisherKeepsInv(cfg, s, p, publisher);
      case Sender(name, sender) => SenderKeepsInv(s, name, sender);
    }
  }

  /**
   Since its consumer was created, a sender made one request per delivery at
   most, of eleven deliveries at most, the eleventh no earlier than 403 s after the first.
   */
  lemma DeliveryBound(cfg: Settings, steps: seq<Step>, name: string, n: nat)
    requires name in Run(cfg, steps).jet.consumers
    ensures var c := Run(cfg, steps).jet.consumers[name];
            && c.Pushes(n) <= c.Deliveries(n) <= MAX_DELIVER
            && (c.Deliveries(n) == MAX_DELIVER ==> c.delivered[n].last - c.delivered[n].first >= 403 * SECOND)
  {
    RunInv(cfg, steps);
    BackOffOfAllDeliveries();
    var s := Run(cfg, steps);
    assert NameOk(s, name);
    assert DeliveryOk(s.jet, s.jet.consumers[name], n);
  }
}
