/** Building and extending runs. */
module Runs {
  import opened Base
  import opened JetStream
  import opened System

  lemma RunSnoc(cfg: Settings, s: State, steps: seq<Step>, step: Step)
    ensures RunFrom(cfg, s, steps + [step]) == Apply(cfg, RunFrom(cfg, s, steps), step)
  {
    assert (steps + [step])[..|steps|] == steps;
  }

  lemma RunTwo(cfg: Settings, s: State, a: Step, b: Step)
    ensures RunFrom(cfg, s, [a, b]) == Apply(cfg, Apply(cfg, s, a), b)
  {
    RunSnoc(cfg, s, [], a);
    RunSnoc(cfg, s, [a], b);
    assert [] + [a] == [a] && [a] + [b] == [a, b];
  }

  lemma {:induction false} RunAppend(cfg: Settings, s: State, first: seq<Step>, second: seq<Step>)
    ensures RunFrom(cfg, s, first + second) == RunFrom(cfg, RunFrom(cfg, s, first), second)
  {
    if second == [] {
      assert first + second == first;
    } else {
      var init := second[..|second| - 1];
      RunAppend(cfg, s, first, init);
      assert first + second == (first + init) + [second[|second| - 1]];
      RunSnoc(cfg, s, first + init, second[|second| - 1]);
    }
  }

  /** The steps which bring kigeon up with one sender, and what they do. */
  lemma BootRun(cfg: Settings, steps: seq<Step>) returns (steps': seq<Step>)
    requires Run(cfg, steps).phase.Down?
    ensures var s, s' := Run(cfg, steps), Run(cfg, steps');
            && s'.phase == Running && s'.channel == s.channel && s'.calls == s.calls
            && s'.senders == [SenderSpec("loki", false)] && s'.loops == s.loops["loki" := Idle]
            && s'.jet == s.jet.(consumers := s'.jet.consumers) && s'.jet.consumers.Keys == {"loki"}
            && ("loki" in s.jet.consumers ==> s'.jet.consumers["loki"] == s.jet.consumers["loki"])
    ensures steps <= steps'
  {
    var s := Run(cfg, steps);
    var boot := Startup(Boot([SenderSpec("loki", false)]));
    RunSnoc(cfg, Start, steps, boot);
    RunSnoc(cfg, Start, steps + [boot], Startup(SubscribeNext));
    RunSnoc(cfg, Start, steps + [boot] + [Startup(SubscribeNext)], Startup(Prune));
    steps' := steps + [boot] + [Startup(SubscribeNext)] + [Startup(Prune)] + [Startup(StartPusher)];
    RunSnoc(cfg, Start, steps + [boot] + [Startup(SubscribeNext)] + [Startup(Prune)], Startup(StartPusher));
  }

  lemma EnvRun(cfg: Settings, steps: seq<Step>, env: EnvStep) returns (steps': seq<Step>)
    ensures Run(cfg, steps') == ApplyEnv(cfg, Run(cfg, steps), env) && steps <= steps'
  {
    steps' := steps + [Environment(env)];
    RunSnoc(cfg, Start, steps, Environment(env));
  }

  lemma PublisherRun(cfg: Settings, steps: seq<Step>, p: nat, step: PublisherStep) returns (steps': seq<Step>)
    ensures Run(cfg, steps') == ApplyPublisher(cfg, Run(cfg, steps), p, step) && steps <= steps'
  {
    steps' := steps + [Publisher(p, step)];
    RunSnoc(cfg, Start, steps, Publisher(p, step));
  }

  /** The log after one undisturbed PublishEvent of an unknown key. */
  function LogAfter(s: State, p: nat, item: Item, stored: bool): seq<Accepted> {
    s.jet.log + [Accepted(Stored(item), p, s.jet.boot, s.jet.now, s.jet.now,
                          if stored then Some(s.jet.now) else None, s.jet.consumers.Keys)]
  }

  /** A loop takes the next event and finds its key unknown. */
  lemma OpenCallRun(cfg: Settings, steps: seq<Step>, p: nat) returns (steps': seq<Step>)
    requires cfg.pushTimeout >= 0
    requires var s := Run(cfg, steps);
             && s.phase == Running && s.CallOf(p) == Ready && s.channel != []
             && s.channel[0].key !in s.jet.kv
    ensures var s := Run(cfg, steps);
            Run(cfg, steps') == SetCall(s.(channel := s.channel[1..]), p, Checked(s.channel[0], s.jet.now, s.jet.now))
    ensures steps <= steps'
  {
    steps' := PublisherRun(cfg, steps, p, Take);
    var taken := Run(cfg, steps');
    steps' := PublisherRun(cfg, steps', p, Check(false));
    var s := Run(cfg, steps);
    assert taken.calls[p := Checked(s.channel[0], s.jet.now, s.jet.now)] ==
           s.calls[p := Checked(s.channel[0], s.jet.now, s.jet.now)];
  }

  lemma CallRun(cfg: Settings, steps: seq<Step>, p: nat, item: Item, stored: bool) returns (steps': seq<Step>)
    requires cfg.pushTimeout >= 0
    requires var s := Run(cfg, steps);
             && s.phase == Running && s.CallOf(p) == Ready && s.channel == [item]
             && item.key !in s.jet.kv && item.key !in s.jet.window
    ensures var s, s' := Run(cfg, steps), Run(cfg, steps');
            && s'.phase == Running && s'.channel == [] && s'.CallOf(p) == Ready
            && s'.jet.now == s.jet.now && s'.jet.boot == s.jet.boot
            && s'.jet.kv == (if stored then s.jet.kv[item.key := s.jet.now] else s.jet.kv)
            && s'.jet.window == s.jet.window[item.key := s.jet.now]
            && s'.jet.log == LogAfter(s, p, item, stored)
            && s'.loops == s.loops && s'.senders == s.senders
            && s'.jet.consumers == Publish(s.jet, item, p, s.jet.now).consumers
    ensures steps <= steps'
  {
    var checked := OpenCallRun(cfg, steps, p);
    var sent := PublisherRun(cfg, checked, p, Send(Replied));
    steps' := PublisherRun(cfg, sent, p, Record(stored));
  }
}
