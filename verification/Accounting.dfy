/** The sender metrics add up in every state of every run. */
module Accounting {
  import opened System
  import StartupOrder

  /** Fetched, but not counted under any result yet. */
  function InFlight(loop: Loop): nat {
    if loop.Holding? || (loop.Settling? && loop.reason == WasFiltered) then 1 else 0
  }

  function NotAcknowledged(loop: Loop): nat {
    if loop == Idle then 0 else 1
  }

  predicate Balanced(loop: Loop, m: Stats) {
    m.fetched == m.filtered + m.sent + m.rejected + m.skipped + m.failed + m.filterAckErrors + InFlight(loop) &&
    m.fetched == m.acks + m.failed + NotAcknowledged(loop)
  }

  /** How a loop and its metrics move together, whatever happens in the queue. */
  predicate Moves(loop: Loop, m: Stats, loop': Loop, m': Stats) {
    match loop
    case Idle => loop'.Holding? && m' == m.(fetched := m.fetched + 1)
    case Holding(n) =>
      || (loop' == Idle && m' == m.(failed := m.failed + 1))
      || (loop' == Settling(n, WasFiltered) && m' == m)
      || (loop' == Settling(n, WasSkipped) && m' == m.(skipped := m.skipped + 1))
      || (loop' == Settling(n, WasSent) && m' == m.(sent := m.sent + 1))
      || (loop' == Settling(n, WasRejected) && m' == m.(rejected := m.rejected + 1))
    case Settling(n, reason) =>
      loop' == Idle &&
      (|| (reason != WasFiltered && m' == m.(acks := m.acks + 1))
       || (reason == WasFiltered && m' == m.(acks := m.acks + 1, filtered := m.filtered + 1))
       || (reason == WasFiltered && m' == m.(acks := m.acks + 1, filterAckErrors := m.filterAckErrors + 1)))
  }

  lemma StepMoves(s: State, name: string, step: SenderStep)
    ensures var s' := ApplySender(s, name, step);
            (s'.loops == s.loops && s'.stats == s.stats) ||
            Moves(s.LoopOf(name), s.StatsOf(name), s'.LoopOf(name), s'.StatsOf(name))
  {
  }

  lemma OthersStay(s: State, who: string, step: SenderStep, name: string)
    requires who != name
    ensures var s' := ApplySender(s, who, step);
            s'.LoopOf(name) == s.LoopOf(name) && s'.StatsOf(name) == s.StatsOf(name)
  {
  }

  /** What the moves of a loop keep, starting from nothing. */
  ghost predicate Kept(inv: (Loop, Stats) -> bool) {
    inv(Idle, NoStats) &&
    forall loop, m, loop', m' :: inv(loop, m) && Moves(loop, m, loop', m') ==> inv(loop', m')
  }

  lemma EnvKeeps(inv: (Loop, Stats) -> bool, cfg: Settings, s: State, step: EnvStep, name: string)
    requires Kept(inv) && inv(s.LoopOf(name), s.StatsOf(name))
    ensures var s' := ApplyEnv(cfg, s, step);
            inv(s'.LoopOf(name), s'.StatsOf(name))
  {
  }

  lemma SenderKeeps(inv: (Loop, Stats) -> bool, s: State, who: string, step: SenderStep, name: string)
    requires Kept(inv) && inv(s.LoopOf(name), s.StatsOf(name))
    ensures var s' := ApplySender(s, who, step);
            inv(s'.LoopOf(name), s'.StatsOf(name))
  {
    hide ApplySender;
    StepMoves(s, who, step);
    if who != name {
      OthersStay(s, who, step, name);
    }
  }

  lemma StartupKeeps(inv: (Loop, Stats) -> bool, s: State, step: StartupStep, name: string)
    requires Kept(inv) && StartupOrder.Inv(s) && inv(s.LoopOf(name), s.StatsOf(name))
    ensures var s' := ApplyStartup(s, step);
            inv(s'.LoopOf(name), s'.StatsOf(name))
  {
    if step.SubscribeNext? && s.phase.Subscribing? && s.phase.next < |s.senders| {
      assert s.senders[s.phase.next].name !in s.loops;
    }
  }

  lemma {:induction false} RunKeeps(inv: (Loop, Stats) -> bool, cfg: Settings, steps: seq<Step>, name: string)
    requires Kept(inv)
    ensures var s := Run(cfg, steps);
            inv(s.LoopOf(name), s.StatsOf(name))
  {
    if steps != [] {
      var init := steps[..|steps| - 1];
      var s := Run(cfg, init);
      RunKeeps(inv, cfg, init, name);
      match steps[|steps| - 1]
      case Environment(env) => EnvKeeps(inv, cfg, s, env, name);
      case Startup(startup) =>
        StartupOrder.RunInv(cfg, init);
        StartupKeeps(inv, s, startup, name);
      case Publisher(p, publisher) =>
      case Sender(who, sender) => SenderKeeps(inv, s, who, sender, name);
    }
  }

  lemma MovesKeepBalance(loop: Loop, m: Stats, loop': Loop, m': Stats)
    requires Balanced(loop, m) && Moves(loop, m, loop', m')
    ensures Balanced(loop', m')
  {
  }

  lemma BalanceIsKept()
    ensures Kept((loop, m) => Balanced(loop, m))
  {
    forall loop, m, loop', m' | Balanced(loop, m) && Moves(loop, m, loop', m') ensures Balanced(loop', m') {
      MovesKeepBalance(loop, m, loop', m');
    }
  }

  /** Results and acknowledgements of every sender account for every fetched message. */
  lemma MetricsAddUp(cfg: Settings, steps: seq<Step>, name: string)
    ensures Balanced(Run(cfg, steps).LoopOf(name), Run(cfg, steps).StatsOf(name))
  {
    BalanceIsKept();
    RunKeeps((loop, m) => Balanced(loop, m), cfg, steps, name);
  }
}
