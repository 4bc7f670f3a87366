/**
 kigeon as one machine: the embedded JetStream, any number of publishing
 loops, the startup sequence of cmd/kigeon/main.go and one loop per sender,
 interleaved with the clock, crashes and expiry.

 Every step is total: a step which is not possible leaves the state as it is,
 so a run is any sequence of steps at all.
 */
module System {
  import opened Base
  import opened JetStream

  /** kubernetesEventsMaxLifetime and pusher.pushTimeout. */
  datatype Settings = Settings(ttl: Time, pushTimeout: Time)

  datatype SenderSpec = SenderSpec(name: string, noop: bool)

  /** Where a publishing loop is inside PublishEvent. */
  datatype Call =
    | Ready
    | Taken(item: Item, started: Time)
    | Checked(item: Item, started: Time, got: Time)
    | Recording(item: Item, started: Time, n: nat)

  datatype Reason = WasFiltered | WasSkipped | WasSent | WasRejected

  /** Where a sender loop is inside Fetch and processEvent. */
  datatype Loop = Idle | Holding(n: nat) | Settling(n: nat, reason: Reason)

  /** The metrics of one sender since the process started. */
  datatype Stats = Stats(fetched: nat, filtered: nat, sent: nat, rejected: nat, skipped: nat, failed: nat,
                         filterAckErrors: nat, acks: nat)

  const NoStats := Stats(0, 0, 0, 0, 0, 0, 0, 0)

  datatype Phase = Down | Subscribing(next: nat) | Pruned | Running

  datatype State = State(
    jet: Jet,
    phase: Phase,
    senders: seq<SenderSpec>,
    channel: seq<Item>,
    calls: map<nat, Call>,
    loops: map<string, Loop>,
    stats: map<string, Stats>)
  {
    function CallOf(p: nat): Call { if p in calls then calls[p] else Ready }
    function LoopOf(name: string): Loop { if name in loops then loops[name] else Idle }
    function StatsOf(name: string): Stats { if name in stats then stats[name] else NoStats }
    function Names(): set<string> { FirstNames(senders, |senders|) }
    predicate IsNoop(name: string) { exists i :: 0 <= i < |senders| && senders[i] == SenderSpec(name, true) }
  }

  function FirstNames(senders: seq<SenderSpec>, k: nat): set<string>
    requires k <= |senders|
  {
    set i | 0 <= i < k :: senders[i].name
  }

  const Start := State(EmptyJet, Down, [], [], map[], map[], map[])

  datatype EnvStep =
    | Tick(elapsed: nat)
    | ExpireKey(key: string)
    | ExpireMessageId(key: string)
    | EvictOldest(n: nat)
    | Observe(item: Item)
    | Crash(lost: set<string>)   // message ids which the restarted stream does not know any more

  datatype StartupStep =
    | Boot(senders: seq<SenderSpec>)
    | SubscribeNext
    | Prune
    | PruneFails(deleted: set<string>)
    | StartPusher

  datatype PublishReply = Replied | ReplyLost | NotStored

  datatype PublisherStep =
    | Take
    | Check(fails: bool)
    | Send(reply: PublishReply)
    | Record(stored: bool)
    | GiveUp

  datatype Response = Accepts | BadRequest | Fails(requested: bool)

  datatype AckReply = AckTaken | AckLost | AckError

  datatype SenderStep =
    | Fetch(n: nat)
    | FetchLost(n: nat)   // delivered, but the fetcher gave up before the message arrived
    | Filter
    | Skip
    | HookFails
    | Push(response: Response)
    | Settle(ack: AckReply)

  datatype Step =
    | Environment(env: EnvStep)
    | Startup(startup: StartupStep)
    | Publisher(p: nat, publisher: PublisherStep)
    | Sender(name: string, sender: SenderStep)

  /** OnOOMKilled reports a kill only within maxAge, which main.go sets to the bucket's TTL. */
  predicate Observable(cfg: Settings, now: Time, item: Item) {
    item.Valid() && item.observed <= now &&
    (item.synthetic ==> item.event.firstTimestamp.Some? &&
                        item.event.firstTimestamp.value >= item.observed - cfg.ttl)
  }

  ghost function ApplyEnv(cfg: Settings, s: State, step: EnvStep): State {
    match step
    case Tick(elapsed) => s.(jet := s.jet.(now := s.jet.now + elapsed))
    case ExpireKey(key) =>
      if key in s.jet.kv && s.jet.now >= s.jet.kv[key] + cfg.ttl
      then s.(jet := s.jet.(kv := s.jet.kv - {key})) else s
    case ExpireMessageId(key) =>
      if key in s.jet.window && s.jet.now >= s.jet.window[key] + DUPLICATE_WINDOW
      then s.(jet := s.jet.(window := s.jet.window - {key})) else s
    case EvictOldest(n) =>
      if s.jet.Retained(n) && forall m: nat :: s.jet.Retained(m) ==> n <= m
      then s.(jet := Evict(s.jet, n)) else s
    case Observe(item) =>
      if s.phase == Running && Observable(cfg, s.jet.now, item)
      then s.(channel := s.channel + [item]) else s
    case Crash(lost) => Stopped(s.(jet := s.jet.(window := s.jet.window - lost)))
  }

  /** The process is gone: everything which is not on disk is lost. */
  function Stopped(s: State): State {
    s.(jet := s.jet.(boot := s.jet.boot + 1),
       phase := Down, senders := [], channel := [], calls := map[], loops := map[], stats := map[])
  }

  /** What config.Validate demands: at least one sender, unique names. */
  predicate ValidSenders(senders: seq<SenderSpec>) {
    senders != [] && forall i, j :: 0 <= i < j < |senders| ==> senders[i].name != senders[j].name
  }

  ghost function ApplyStartup(s: State, step: StartupStep): State {
    match step
    case Boot(senders) =>
      if s.phase == Down && ValidSenders(senders) then s.(phase := Subscribing(0), senders := senders) else s
    case SubscribeNext =>
      if s.phase.Subscribing? && s.phase.next < |s.senders| then
        var name := s.senders[s.phase.next].name;
        s.(jet := Subscribe(s.jet, name), phase := Subscribing(s.phase.next + 1), loops := s.loops[name := Idle])
      else s
    case Prune =>
      if s.phase == Subscribing(|s.senders|)
      then s.(jet := DeleteConsumers(s.jet, s.jet.consumers.Keys - s.Names()), phase := Pruned) else s
    case PruneFails(deleted) =>
      if s.phase == Subscribing(|s.senders|)
      then Stopped(s.(jet := DeleteConsumers(s.jet, deleted - s.Names()))) else s
    case StartPusher =>
      if s.phase == Pruned then s.(phase := Running) else s
  }

  function SetCall(s: State, p: nat, call: Call): State {
    s.(calls := s.calls[p := call])
  }

  /** PublishEvent, one access to JetStream at a time, under the deadline of its context. */
  function ApplyPublisher(cfg: Settings, s: State, p: nat, step: PublisherStep): State {
    var call := s.CallOf(p);
    match step
    case Take =>
      if s.phase == Running && call == Ready && s.channel != []
      then SetCall(s.(channel := s.channel[1..]), p, Taken(s.channel[0], s.jet.now)) else s
    case Check(fails) =>
      if call.Taken? && s.jet.now <= call.started + cfg.pushTimeout then
        if fails || call.item.key in s.jet.kv then SetCall(s, p, Ready)
        else SetCall(s, p, Checked(call.item, call.started, s.jet.now))
      else s
    case Send(reply) =>
      if call.Checked? && s.jet.now <= call.started + cfg.pushTimeout then
        if reply == NotStored || call.item.key in s.jet.window then SetCall(s, p, Ready)
        else
          SetCall(s.(jet := Publish(s.jet, call.item, p, call.got)), p,
                  if reply == ReplyLost then Ready else Recording(call.item, call.started, |s.jet.log|))
      else s
    case Record(stored) =>
      if call.Recording? && s.jet.now <= call.started + cfg.pushTimeout && call.n < |s.jet.log| then
        SetCall(if stored then s.(jet := Put(s.jet, call.item.key, call.n)) else s, p, Ready)
      else s
    case GiveUp => SetCall(s, p, Ready)
  }

  function SetLoop(s: State, name: string, loop: Loop, stats: Stats): State {
    s.(loops := s.loops[name := loop], stats := s.stats[name := stats])
  }

  /** One fetched message through the namespace filter, the hook, Loki and the acknowledgement. */
  ghost function ApplySender(s: State, name: string, step: SenderStep): (s': State)
    ensures s' == s.(jet := s'.jet, loops := s'.loops, stats := s'.stats)
    ensures s'.jet == s.jet.(consumers := s'.jet.consumers) && s'.jet.consumers.Keys == s.jet.consumers.Keys
    ensures s'.loops.Keys == s.loops.Keys
  {
    var loop, stats := s.LoopOf(name), s.StatsOf(name);
    if name !in s.loops then s else
    match step
    case Fetch(n) =>
      if loop == Idle && Deliverable(s.jet, name, n)
      then SetLoop(s.(jet := Deliver(s.jet, name, n)), name, Holding(n), stats.(fetched := stats.fetched + 1)) else s
    case FetchLost(n) =>
      if loop == Idle && Deliverable(s.jet, name, n) then s.(jet := Deliver(s.jet, name, n)) else s
    case Filter =>
      if loop.Holding? then SetLoop(s, name, Settling(loop.n, WasFiltered), stats) else s
    case Skip =>
      if loop.Holding?
      then SetLoop(s, name, Settling(loop.n, WasSkipped), stats.(skipped := stats.skipped + 1)) else s
    case HookFails =>
      if loop.Holding? then SetLoop(s, name, Idle, stats.(failed := stats.failed + 1)) else s
    case Push(response) =>
      if !loop.Holding? then s
      else if s.IsNoop(name)
      then SetLoop(s, name, Settling(loop.n, WasSent), stats.(sent := stats.sent + 1))
      else
        var pushed := s.(jet := CountPush(s.jet, name, loop.n));
        match response {
        case Accepts => SetLoop(pushed, name, Settling(loop.n, WasSent), stats.(sent := stats.sent + 1))
        case BadRequest => SetLoop(pushed, name, Settling(loop.n, WasRejected), stats.(rejected := stats.rejected + 1))
        case Fails(requested) =>
          SetLoop(if requested then pushed else s, name, Idle, stats.(failed := stats.failed + 1))
        }
    case Settle(ack) =>
      if loop.Settling? then
        var counted := stats.(
          acks := stats.acks + 1,
          filtered := stats.filtered + (if loop.reason == WasFiltered && ack != AckError then 1 else 0),
          filterAckErrors := stats.filterAckErrors + (if loop.reason == WasFiltered && ack == AckError then 1 else 0));
        SetLoop(if ack == AckTaken then s.(jet := Acknowledge(s.jet, name, loop.n)) else s, name, Idle, counted)
      else s
  }

  ghost function Apply(cfg: Settings, s: State, step: Step): State {
    match step
    case Environment(env) => ApplyEnv(cfg, s, env)
    case Startup(startup) => ApplyStartup(s, startup)
    case Publisher(p, publisher) => ApplyPublisher(cfg, s, p, publisher)
    case Sender(name, sender) => ApplySender(s, name, sender)
  }

  ghost function RunFrom(cfg: Settings, s: State, steps: seq<Step>): State {
    if steps == [] then s
    else Apply(cfg, RunFrom(cfg, s, steps[..|steps| - 1]), steps[|steps| - 1])
  }

  ghost function Run(cfg: Settings, steps: seq<Step>): State {
    RunFrom(cfg, Start, steps)
  }
}
