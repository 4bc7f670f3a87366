/** What whole runs guarantee for the backlog of a sender. */
module Backlog {
  import opened Base
  import opened JetStream
  import opened System
  import opened Runs
  import opened Fanout
  import StartupOrder

  ghost predicate SettledAt(cfg: Settings, s: State, steps: seq<Step>, k: int, name: string, n: nat) {
    0 <= k < |steps| && Owed(RunFrom(cfg, s, steps[..k]), name, n) &&
    Settles(RunFrom(cfg, s, steps[..k]), steps[k], name, n)
  }

  lemma {:induction false} LeftBecauseSettled(cfg: Settings, s: State, steps: seq<Step>, name: string, n: nat)
    requires Owed(s, name, n) && !Owed(RunFrom(cfg, s, steps), name, n)
    ensures exists k :: SettledAt(cfg, s, steps, k, name, n)
  {
    var init := steps[..|steps| - 1];
    var before := RunFrom(cfg, s, init);
    if Owed(before, name, n) {
      LeavesOnlyIfSettled(cfg, before, steps[|steps| - 1], name, n);
      assert SettledAt(cfg, s, steps, |steps| - 1, name, n);
    } else {
      LeftBecauseSettled(cfg, s, init, name, n);
      var k :| SettledAt(cfg, s, init, k, name, n);
      assert steps[..k] == init[..k];
      assert SettledAt(cfg, s, steps, k, name, n);
    }
  }

  ghost predicate FewPending(s: State) {
    forall name :: name in s.jet.consumers ==> |PendingSet(s.jet.consumers[name], s.jet.now)| <= MAX_ACK_PENDING
  }

  lemma {:induction false} SubsetIsSmaller(a: set<nat>, b: set<nat>)
    requires a <= b
    ensures |a| <= |b|
  {
    if x :| x in a {
      SubsetIsSmaller(a - {x}, b - {x});
    }
  }

  /** Nothing is delivered: messages may be new, settled or given up. */
  ghost predicate SameDeliveries(jet: Jet, jet': Jet, name: string)
    requires name in jet'.consumers
  {
    var c' := jet'.consumers[name];
    c'.delivered == map[] ||
    (name in jet.consumers && c'.delivered == jet.consumers[name].delivered &&
     forall n :: n in c'.owed ==> n in jet.consumers[name].owed || n >= |jet.log|)
  }

  ghost predicate DeliversNothing(jet: Jet, jet': Jet) {
    jet'.now >= jet.now && forall name :: name in jet'.consumers ==> SameDeliveries(jet, jet', name)
  }

  lemma EnvDeliversNothing(cfg: Settings, s: State, step: EnvStep)
    ensures DeliversNothing(s.jet, ApplyEnv(cfg, s, step).jet)
  {
  }

  lemma StartupDeliversNothing(s: State, step: StartupStep)
    ensures DeliversNothing(s.jet, ApplyStartup(s, step).jet)
  {
  }

  lemma PublisherDeliversNothing(cfg: Settings, s: State, p: nat, step: PublisherStep)
    ensures DeliversNothing(s.jet, ApplyPublisher(cfg, s, p, step).jet)
  {
  }

  lemma SenderDeliversNothing(s: State, who: string, step: SenderStep)
    requires !step.Fetch? && !step.FetchLost?
    ensures DeliversNothing(s.jet, ApplySender(s, who, step).jet)
  {
  }

  lemma FrameKeepsFew(s: State, s': State)
    requires FewPending(s) && Inv(s) && DeliversNothing(s.jet, s'.jet)
    ensures FewPending(s')
  {
    forall name | name in s'.jet.consumers ensures |PendingSet(s'.jet.consumers[name], s'.jet.now)| <= MAX_ACK_PENDING {
      var c' := s'.jet.consumers[name];
      if c'.delivered == map[] {
        assert PendingSet(c', s'.jet.now) == {};
      } else {
        var c := s.jet.consumers[name];
        assert NameOk(s, name);
        forall n | n in PendingSet(c', s'.jet.now) ensures n in PendingSet(c, s.jet.now) {
          assert DeliveryOk(s.jet, c, n);
        }
        SubsetIsSmaller(PendingSet(c', s'.jet.now), PendingSet(c, s.jet.now));
      }
    }
  }

  lemma DeliverKeepsFew(jet: Jet, name: string, n: nat)
    requires Deliverable(jet, name, n) && |PendingSet(jet.consumers[name], jet.now)| <= MAX_ACK_PENDING
    ensures |PendingSet(Deliver(jet, name, n).consumers[name], jet.now)| <= MAX_ACK_PENDING
  {
    var c, c' := jet.consumers[name], Deliver(jet, name, n).consumers[name];
    assert PendingSet(c', jet.now) <= PendingSet(c, jet.now) + {n};
    SubsetIsSmaller(PendingSet(c', jet.now), PendingSet(c, jet.now) + {n});
    if n in c.delivered {
      assert PendingSet(c, jet.now) + {n} == PendingSet(c, jet.now);
    }
  }

  lemma SenderKeepsFew(s: State, who: string, step: SenderStep)
    requires FewPending(s) && Inv(s)
    ensures FewPending(ApplySender(s, who, step))
  {
    if step.Fetch? || step.FetchLost? {
      var jet := ApplySender(s, who, step).jet;
      if jet != s.jet {
        DeliverKeepsFew(s.jet, who, step.n);
        assert jet == Deliver(s.jet, who, step.n);
      }
    } else {
      SenderDeliversNothing(s, who, step);
      FrameKeepsFew(s, ApplySender(s, who, step));
    }
  }

  lemma {:induction false} RunKeepsFew(cfg: Settings, steps: seq<Step>)
    ensures FewPending(Run(cfg, steps))
  {
    if steps != [] {
      var s := Run(cfg, steps[..|steps| - 1]);
      RunKeepsFew(cfg, steps[..|steps| - 1]);
      RunInv(cfg, steps[..|steps| - 1]);
      hide FewPending, DeliversNothing, Inv;
      match steps[|steps| - 1]
      case Environment(env) =>
        EnvDeliversNothing(cfg, s, env);
        FrameKeepsFew(s, ApplyEnv(cfg, s, env));
      case Startup(startup) =>
        StartupDeliversNothing(s, startup);
        FrameKeepsFew(s, ApplyStartup(s, startup));
      case Publisher(p, publisher) =>
        PublisherDeliversNothing(cfg, s, p, publisher);
        FrameKeepsFew(s, ApplyPublisher(cfg, s, p, publisher));
      case Sender(name, sender) => SenderKeepsFew(s, name, sender);
    }
  }

  /** No sender ever has more than two messages pending, over every run. */
  lemma AtMostTwoPending(cfg: Settings, steps: seq<Step>, name: string)
    requires name in Run(cfg, steps).jet.consumers
    ensures var s := Run(cfg, steps);
            |PendingSet(s.jet.consumers[name], s.jet.now)| <= 2
  {
    RunKeepsFew(cfg, steps);
  }

  /** A minute passes, and then only this sender's loop moves. */
  ghost predicate Quiet(steps: seq<Step>, name: string) {
    steps != [] && steps[0] == Environment(Tick(MINUTE)) &&
    forall k {:trigger steps[k]} :: 0 < k < |steps| ==> steps[k].Sender? && steps[k].name == name
  }

  /** The sender holds the message, and nothing else changed but what it did to others of its backlog. */
  ghost predicate Held(s: State, s': State, name: string, n: nat)
    requires name in s.jet.consumers
  {
    && s' == s.(jet := s'.jet, loops := s'.loops, stats := s'.stats)
    && s'.jet == s.jet.(now := s.jet.now + MINUTE, consumers := s'.jet.consumers)
    && s'.loops.Keys == s.loops.Keys && s'.jet.consumers.Keys == s.jet.consumers.Keys
    && s'.LoopOf(name) == Holding(n) && Owed(s', name, n) && s'.jet.consumers[name].owed <= s.jet.consumers[name].owed
    && s'.jet.consumers[name].Deliveries(n) == s.jet.consumers[name].Deliveries(n) + 1
    && forall c :: c in s.jet.consumers && c != name ==> s'.jet.consumers[c] == s.jet.consumers[c]
  }

  /** Another message is fetched, sent and acknowledged. */
  function ClearSteps(name: string, m: nat): seq<Step> {
    [Sender(name, Fetch(m)), Sender(name, Push(Accepts)), Sender(name, Settle(AckTaken))]
  }

  ghost predicate Cleared(s: State, s': State, name: string, m: nat)
    requires name in s.jet.consumers
  {
    && s' == s.(jet := s'.jet, loops := s'.loops, stats := s'.stats)
    && s'.jet == s.jet.(consumers := s'.jet.consumers)
    && s'.loops.Keys == s.loops.Keys && s'.LoopOf(name) == Idle
    && s'.jet.consumers.Keys == s.jet.consumers.Keys
    && (forall c :: c in s.jet.consumers && c != name ==> s'.jet.consumers[c] == s.jet.consumers[c])
    && var c, c' := s.jet.consumers[name], s'.jet.consumers[name];
       && c'.owed == c.owed - {m} && m in c'.delivered && c'.delivered.Keys == c.delivered.Keys + {m}
       && forall i :: i in c.delivered && i != m ==> c'.delivered[i] == c.delivered[i]
  }

  /** Only this sender's loop moved and only its consumer changed. */
  ghost predicate OnlyMoved(s: State, s': State, name: string, loop: Loop)
    requires name in s.jet.consumers && name in s'.jet.consumers
  {
    && s' == s.(jet := s'.jet, loops := s'.loops, stats := s'.stats)
    && s'.jet == s.jet.(consumers := s'.jet.consumers)
    && s'.jet.consumers == s.jet.consumers[name := s'.jet.consumers[name]]
    && s'.loops == s.loops[name := loop]
  }

  lemma FetchMoves(s: State, name: string, m: nat)
    requires name in s.loops && s.LoopOf(name) == Idle && Deliverable(s.jet, name, m)
    ensures var s' := ApplySender(s, name, Fetch(m));
            && name in s'.jet.consumers && OnlyMoved(s, s', name, Holding(m))
            && var c, c' := s.jet.consumers[name], s'.jet.consumers[name];
               c'.owed == c.owed && m in c'.delivered && c'.delivered == c.delivered[m := c'.delivered[m]]
  {
  }

  lemma SendMoves(s: State, name: string, m: nat)
    requires name in s.loops && s.LoopOf(name) == Holding(m) && name in s.jet.consumers
    ensures var s' := ApplySender(s, name, Push(Accepts));
            && name in s'.jet.consumers && OnlyMoved(s, s', name, Settling(m, WasSent))
            && s'.jet.consumers[name] == s.jet.consumers[name].(pushed := s'.jet.consumers[name].pushed)
  {
    assert s.jet.consumers[name := s.jet.consumers[name]] == s.jet.consumers;
  }

  lemma SettleMoves(s: State, name: string, m: nat)
    requires name in s.loops && s.LoopOf(name) == Settling(m, WasSent) && name in s.jet.consumers
    ensures var s' := ApplySender(s, name, Settle(AckTaken));
            && name in s'.jet.consumers && OnlyMoved(s, s', name, Idle)
            && var c, c' := s.jet.consumers[name], s'.jet.consumers[name];
               c'.owed == c.owed - {m} && c'.delivered == c.delivered
  {
  }

  lemma ClearingClears(cfg: Settings, s: State, name: string, m: nat)
    requires name in s.loops && s.LoopOf(name) == Idle && Deliverable(s.jet, name, m)
    ensures Cleared(s, RunFrom(cfg, s, ClearSteps(name, m)), name, m)
  {
    hide RunFrom, ApplySender;
    var u := ClearSteps(name, m);
    var s1 := ApplySender(s, name, Fetch(m));
    var s2 := ApplySender(s1, name, Push(Accepts));
    FetchMoves(s, name, m);
    SendMoves(s1, name, m);
    SettleMoves(s2, name, m);
    RunTwo(cfg, s, u[0], u[1]);
    RunSnoc(cfg, s, [u[0], u[1]], u[2]);
    assert [u[0], u[1]] + [u[2]] == u;
  }

  lemma FetchHolds(cfg: Settings, s: State, later: State, name: string, n: nat)
    requires name in s.jet.consumers && later == s.(jet := s.jet.(now := s.jet.now + MINUTE))
    requires name in later.loops && later.LoopOf(name) == Idle && Deliverable(later.jet, name, n)
    ensures Held(s, ApplySender(later, name, Fetch(n)), name, n)
  {
  }

  lemma FetchAfterClearingHolds(cfg: Settings, s: State, later: State, cleared: State, name: string, n: nat, m: nat)
    requires name in s.jet.consumers && later == s.(jet := s.jet.(now := s.jet.now + MINUTE))
    requires Cleared(later, cleared, name, m) && n != m && name in later.loops && Owed(s, name, n)
    requires n !in s.jet.consumers[name].delivered && m in PendingSet(s.jet.consumers[name], later.jet.now)
    requires |PendingSet(s.jet.consumers[name], later.jet.now)| <= MAX_ACK_PENDING
    ensures Held(s, ApplySender(cleared, name, Fetch(n)), name, n)
  {
    var before := PendingSet(s.jet.consumers[name], later.jet.now);
    var after := PendingSet(cleared.jet.consumers[name], later.jet.now);
    assert after <= before - {m};
    SubsetIsSmaller(after, before - {m});
    assert Deliverable(cleared.jet, name, n);
  }

  lemma QuietPrefix(steps: seq<Step>, name: string, step: SenderStep)
    requires Quiet(steps, name)
    ensures Quiet(steps + [Sender(name, step)], name)
  {
  }

  lemma TickRun(cfg: Settings, s: State)
    ensures RunFrom(cfg, s, [Environment(Tick(MINUTE))]) == s.(jet := s.jet.(now := s.jet.now + MINUTE))
  {
    RunSnoc(cfg, s, [], Environment(Tick(MINUTE)));
    assert [] + [Environment(Tick(MINUTE))] == [Environment(Tick(MINUTE))];
  }

  /** While a message waits for a free place, one which takes a place can be fetched after a minute. */
  lemma SomethingIsDeliverable(s: State, name: string, n: nat)
    requires Inv(s) && FewPending(s) && Owed(s, name, n) && s.jet.consumers[name].Deliveries(n) < MAX_DELIVER
    ensures var later, c := s.jet.(now := s.jet.now + MINUTE), s.jet.consumers[name];
            && |PendingSet(c, later.now)| <= MAX_ACK_PENDING
            && (Deliverable(later, name, n) ||
                (n !in c.delivered && exists m :: m != n && m in PendingSet(c, later.now) && Deliverable(later, name, m)))
  {
    var later, c := s.jet.(now := s.jet.now + MINUTE), s.jet.consumers[name];
    assert NameOk(s, name) && DeliveryOk(s.jet, c, n);
    forall m | m in PendingSet(c, later.now) ensures m in PendingSet(c, s.jet.now) && Deliverable(later, name, m) {
      assert DeliveryOk(s.jet, c, m);
    }
    SubsetIsSmaller(PendingSet(c, later.now), PendingSet(c, s.jet.now));
    if !Deliverable(later, name, n) {
      var m :| m in PendingSet(c, later.now);
    }
  }

  /** The way to a message in the backlog takes a minute and the sender's own steps only. */
  lemma NeverStuck(cfg: Settings, steps: seq<Step>, name: string, n: nat) returns (more: seq<Step>)
    requires var s := Run(cfg, steps);
             && name in s.loops && s.LoopOf(name) == Idle && Owed(s, name, n)
             && s.jet.consumers[name].Deliveries(n) < MAX_DELIVER
    ensures Quiet(more, name) && Held(Run(cfg, steps), RunFrom(cfg, Run(cfg, steps), more), name, n)
  {
    hide RunFrom, Held, Cleared, Inv, FewPending, Deliverable;
    var s := Run(cfg, steps);
    var c, later := s.jet.consumers[name], s.(jet := s.jet.(now := s.jet.now + MINUTE));
    RunInv(cfg, steps);
    RunKeepsFew(cfg, steps);
    SomethingIsDeliverable(s, name, n);
    TickRun(cfg, s);
    more := [Environment(Tick(MINUTE))];
    if Deliverable(later.jet, name, n) {
      FetchHolds(cfg, s, later, name, n);
    } else {
      var m :| m != n && m in PendingSet(c, later.jet.now) && Deliverable(later.jet, name, m);
      ClearingClears(cfg, later, name, m);
      RunAppend(cfg, s, more, ClearSteps(name, m));
      more := more + ClearSteps(name, m);
      FetchAfterClearingHolds(cfg, s, later, RunFrom(cfg, s, more), name, n, m);
    }
    RunSnoc(cfg, s, more, Sender(name, Fetch(n)));
    QuietPrefix(more, name, Fetch(n));
    more := more + [Sender(name, Fetch(n))];
  }

  /** The sender stays configured: its consumer exists before and after every step. */
  ghost predicate Subscribed(cfg: Settings, s: State, steps: seq<Step>, name: string) {
    name in RunFrom(cfg, s, steps).jet.consumers &&
    (steps != [] ==> Subscribed(cfg, s, steps[..|steps| - 1], name))
  }

  lemma {:induction false} QuietStaysSubscribed(cfg: Settings, s: State, steps: seq<Step>, name: string)
    requires Quiet(steps, name) && name in s.jet.consumers
    ensures Subscribed(cfg, s, steps, name)
  {
    var init, last := steps[..|steps| - 1], steps[|steps| - 1];
    if init == [] {
      assert RunFrom(cfg, s, []) == s;
      assert Subscribed(cfg, s, [], name);
    } else {
      QuietStaysSubscribed(cfg, s, init, name);
    }
  }

  lemma {:induction false} SubscribedAppend(cfg: Settings, s: State, first: seq<Step>, second: seq<Step>, name: string)
    requires Subscribed(cfg, s, first, name) && Subscribed(cfg, RunFrom(cfg, s, first), second, name)
    ensures Subscribed(cfg, s, first + second, name)
  {
    RunAppend(cfg, s, first, second);
    if second == [] {
      assert first + second == first;
    } else {
      var init := second[..|second| - 1];
      SubscribedAppend(cfg, s, first, init, name);
      assert (first + second)[..|first + second| - 1] == first + init;
    }
  }

  /** Acknowledged for good or given up, and not in the hands of the sender any more. */
  ghost predicate Over(s: State, name: string, n: nat) {
    name in s.jet.consumers && n < |s.jet.log| && s.LoopOf(name) != Holding(n) &&
    (n !in s.jet.consumers[name].owed || s.jet.consumers[name].Deliveries(n) >= MAX_DELIVER)
  }

  ghost predicate StaysOver(s: State, s': State, name: string, n: nat)
    requires Over(s, name, n)
  {
    Over(s', name, n) && s'.jet.consumers[name].Pushes(n) == s.jet.consumers[name].Pushes(n) &&
    (Owed(s', name, n) ==> Owed(s, name, n))
  }

  lemma EnvStaysOver(cfg: Settings, s: State, step: EnvStep, name: string, n: nat)
    requires Over(s, name, n)
    ensures StaysOver(s, ApplyEnv(cfg, s, step), name, n)
  {
  }

  lemma StartupStaysOver(s: State, step: StartupStep, name: string, n: nat)
    requires Over(s, name, n) && name in ApplyStartup(s, step).jet.consumers
    ensures StaysOver(s, ApplyStartup(s, step), name, n)
  {
  }

  lemma PublisherStaysOver(cfg: Settings, s: State, p: nat, step: PublisherStep, name: string, n: nat)
    requires Over(s, name, n)
    ensures StaysOver(s, ApplyPublisher(cfg, s, p, step), name, n)
  {
  }

  lemma OwnStepStaysOver(s: State, name: string, step: SenderStep, n: nat)
    requires Over(s, name, n)
    ensures StaysOver(s, ApplySender(s, name, step), name, n)
  {
    assert !Deliverable(s.jet, name, n);
    match step
    case Fetch(m) =>
    case FetchLost(m) =>
    case Filter =>
    case Skip =>
    case HookFails =>
    case Push(response) =>
    case Settle(ack) =>
  }

  lemma OtherStepStaysOver(s: State, who: string, step: SenderStep, name: string, n: nat)
    requires Over(s, name, n) && who != name
    ensures StaysOver(s, ApplySender(s, who, step), name, n)
  {
    var s' := ApplySender(s, who, step);
    assert s'.jet.consumers[name] == s.jet.consumers[name];
  }

  lemma {:induction false} OverForGood(cfg: Settings, s: State, steps: seq<Step>, name: string, n: nat)
    requires Over(s, name, n) && Subscribed(cfg, s, steps, name)
    ensures StaysOver(s, RunFrom(cfg, s, steps), name, n)
  {
    if steps != [] {
      var init := steps[..|steps| - 1];
      OverForGood(cfg, s, init, name, n);
      hide Over;
      var s1 := RunFrom(cfg, s, init);
      match steps[|steps| - 1]
      case Environment(env) => EnvStaysOver(cfg, s1, env, name, n);
      case Startup(startup) => StartupStaysOver(s1, startup, name, n);
      case Publisher(p, publisher) => PublisherStaysOver(cfg, s1, p, publisher, name, n);
      case Sender(who, sender) =>
        if who == name {
          OwnStepStaysOver(s1, name, sender, n);
        } else {
          OtherStepStaysOver(s1, who, sender, name, n);
        }
    }
  }

  /** Once an acknowledgement takes effect, a sender which stays configured never pushes the message again. */
  lemma NoPushAfterAck(cfg: Settings, before: seq<Step>, after: seq<Step>, name: string)
    requires Run(cfg, before).LoopOf(name).Settling?
    requires Subscribed(cfg, ApplySender(Run(cfg, before), name, Settle(AckTaken)), after, name)
    ensures var s := Run(cfg, before);
            var n, s' := s.LoopOf(name).n, RunFrom(cfg, ApplySender(s, name, Settle(AckTaken)), after);
            name in s.jet.consumers && name in s'.jet.consumers && !Owed(s', name, n) &&
            s'.jet.consumers[name].Pushes(n) == s.jet.consumers[name].Pushes(n)
  {
    var s := Run(cfg, before);
    var n, acked := s.LoopOf(name).n, ApplySender(s, name, Settle(AckTaken));
    RunInv(cfg, before);
    assert NameOk(s, name) && DeliveryOk(s.jet, s.jet.consumers[name], n);
    OverForGood(cfg, acked, after, name, n);
  }

  /** Some continuation puts the message into the hands of the sender, which stays configured all the time. */
  ghost predicate CanBeTried(cfg: Settings, s: State, name: string, n: nat) {
    exists more :: Subscribed(cfg, s, more, name) && RunFrom(cfg, s, more).LoopOf(name) == Holding(n)
  }

  predicate Open(s: State, name: string, n: nat) {
    Owed(s, name, n) && s.jet.consumers[name].Deliveries(n) < MAX_DELIVER
  }

  /** A crash and a start of this one sender. */
  function RestartSteps(name: string): seq<Step> {
    [Environment(Crash({})), Startup(Boot([SenderSpec(name, false)])), Startup(SubscribeNext)]
  }

  lemma RestartRuns(cfg: Settings, s: State, name: string)
    ensures var s' := RunFrom(cfg, s, RestartSteps(name));
            && s'.loops == map[name := Idle] && s'.jet == Subscribe(s.jet.(boot := s.jet.boot + 1), name)
            && s'.phase == Subscribing(1) && s'.senders == [SenderSpec(name, false)]
            && (name in s.jet.consumers ==> Subscribed(cfg, s, RestartSteps(name), name))
  {
    var u := RestartSteps(name);
    RunSnoc(cfg, s, [], u[0]);
    RunTwo(cfg, s, u[0], u[1]);
    RunSnoc(cfg, s, [u[0], u[1]], u[2]);
    assert [] + [u[0]] == [u[0]] && [u[0], u[1]] + [u[2]] == u;
    assert u[..2] == [u[0], u[1]] && u[..2][..1] == [u[0]] && u[..2][..1][..0] == [];
    assert s.jet.window - {} == s.jet.window;
    if name in s.jet.consumers {
      assert Subscribed(cfg, s, [], name);
      assert Subscribed(cfg, s, [u[0]], name);
      assert Subscribed(cfg, s, u[..2], name);
    }
  }

  lemma OpenCanBeTried(cfg: Settings, steps: seq<Step>, name: string, n: nat)
    requires Open(Run(cfg, steps), name, n)
    ensures CanBeTried(cfg, Run(cfg, steps), name, n)
  {
    var s, restart := Run(cfg, steps), RestartSteps(name);
    RestartRuns(cfg, s, name);
    RunAppend(cfg, Start, steps, restart);
    var more := NeverStuck(cfg, steps + restart, name, n);
    QuietStaysSubscribed(cfg, RunFrom(cfg, s, restart), more, name);
    SubscribedAppend(cfg, s, restart, more, name);
    RunAppend(cfg, s, restart, more);
  }

  /**
   Exactly when a message which was accepted can still reach a sender, in any
   reachable state: if it has it, or is owed it with a delivery to spare.
   */
  lemma TriedAgainIff(cfg: Settings, steps: seq<Step>, name: string, n: nat)
    requires var s := Run(cfg, steps); name in s.jet.consumers && n < |s.jet.log|
    ensures var s := Run(cfg, steps);
            CanBeTried(cfg, s, name, n) <==> s.LoopOf(name) == Holding(n) || Open(s, name, n)
  {
    var s := Run(cfg, steps);
    if s.LoopOf(name) == Holding(n) {
      assert Subscribed(cfg, s, [], name) && RunFrom(cfg, s, []) == s;
    } else if Open(s, name, n) {
      OpenCanBeTried(cfg, steps, name, n);
    } else if CanBeTried(cfg, s, name, n) {
      var more :| Subscribed(cfg, s, more, name) && RunFrom(cfg, s, more).LoopOf(name) == Holding(n);
      OverForGood(cfg, s, more, name, n);
    }
  }

  /** The queue gave up: eleven deliveries over 403 seconds, none of them acknowledged. */
  ghost predicate GivenUp(s: State, name: string, n: nat) {
    Owed(s, name, n) && n in s.jet.consumers[name].delivered &&
    (var d := s.jet.consumers[name].delivered[n]; d.count == MAX_DELIVER && d.last - d.first >= 403 * SECOND)
  }

  /** The message left the backlog by eviction, by pruning, or by an acknowledgement after a proper outcome. */
  ghost predicate LeftAt(cfg: Settings, steps: seq<Step>, k: int, name: string, n: nat) {
    SettledAt(cfg, Start, steps, k, name, n) &&
    (steps[k].Sender? ==> exists j, reason :: OutcomeAt(cfg, steps[..k], j, name, n, reason))
  }

  lemma SettledLeft(cfg: Settings, steps: seq<Step>, k: int, name: string, n: nat)
    requires SettledAt(cfg, Start, steps, k, name, n)
    ensures LeftAt(cfg, steps, k, name, n)
  {
    SettlingHadOutcome(cfg, steps[..k], name);
  }

  lemma OwedIsOpenOrGivenUp(cfg: Settings, steps: seq<Step>, name: string, n: nat)
    requires Owed(Run(cfg, steps), name, n)
    ensures CanBeTried(cfg, Run(cfg, steps), name, n) || GivenUp(Run(cfg, steps), name, n)
  {
    var s := Run(cfg, steps);
    if Open(s, name, n) {
      OpenCanBeTried(cfg, steps, name, n);
    } else {
      DeliveryBound(cfg, steps, name, n);
    }
  }

  /**
   No silent loss: whatever happens after an event is accepted, every
   configured sender can still be given it, unless one of these steps took it
   out of the sender's backlog or the queue gave up after eleven deliveries.
   */
  lemma NoSilentLoss(cfg: Settings, before: seq<Step>, p: nat, reply: PublishReply, after: seq<Step>, name: string)
    requires var s := Run(cfg, before);
             && |ApplyPublisher(cfg, s, p, PublisherStep.Send(reply)).jet.log| > |s.jet.log|
             && name in s.Names()
    ensures var n := |Run(cfg, before).jet.log|;
            var whole := before + [Publisher(p, PublisherStep.Send(reply))] + after;
            || CanBeTried(cfg, Run(cfg, whole), name, n)
            || GivenUp(Run(cfg, whole), name, n)
            || exists k :: |before| < k && LeftAt(cfg, whole, k, name, n)
  {
    hide RunFrom, ApplyPublisher, Settles, OutcomeAt, CanBeTried, GivenUp;
    var s, step := Run(cfg, before), Publisher(p, PublisherStep.Send(reply));
    var n, whole := |s.jet.log|, before + [step] + after;
    StartupOrder.AcceptedForConfiguredSenders(cfg, before, p, reply);
    RunSnoc(cfg, Start, before, step);
    RunAppend(cfg, Start, before + [step], after);
    var accepted := Run(cfg, before + [step]);
    if Owed(Run(cfg, whole), name, n) {
      OwedIsOpenOrGivenUp(cfg, whole, name, n);
    } else {
      LeftBecauseSettled(cfg, accepted, after, name, n);
      var k :| SettledAt(cfg, accepted, after, k, name, n);
      var m := |before| + 1 + k;
      RunAppend(cfg, Start, before + [step], after[..k]);
      assert whole[..m] == before + [step] + after[..k];
      assert SettledAt(cfg, Start, whole, m, name, n);
      SettledLeft(cfg, whole, m, name, n);
    }
  }
}
