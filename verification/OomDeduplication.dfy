/**
 OOM kills across restarts: the reporting window of OnOOMKilled is the TTL of
 the deduplication bucket (cmd/kigeon/main.go), which nearly closes the gap
 between both.
 */
module OomDeduplication {
  import opened Base
  import opened Events
  import opened JetStream
  import opened System
  import opened Deduplication
  import opened Runs
  import DeduplicationLimits
  import OomKills
  import Pods
  import OomWatch

  predicate ItemOk(cfg: Settings, item: Item) {
    item.Valid() &&
    (item.synthetic ==> item.event.firstTimestamp.Some? &&
                        item.event.firstTimestamp.value >= item.observed - cfg.ttl)
  }

  lemma StoredItemOk(cfg: Settings, item: Item)
    requires ItemOk(cfg, item)
    ensures ItemOk(cfg, Stored(item))
  {
  }

  predicate CallItemOk(cfg: Settings, call: Call) {
    !call.Ready? ==> ItemOk(cfg, call.item)
  }

  ghost predicate ItemsOk(cfg: Settings, s: State) {
    (forall i :: 0 <= i < |s.channel| ==> ItemOk(cfg, s.channel[i])) &&
    (forall p: nat :: CallItemOk(cfg, s.CallOf(p))) &&
    (forall i {:trigger s.jet.log[i]} :: 0 <= i < |s.jet.log| ==> ItemOk(cfg, s.jet.log[i].item))
  }

  lemma PublisherKeepsItems(cfg: Settings, s: State, p: nat, step: PublisherStep)
    requires ItemsOk(cfg, s)
    ensures ItemsOk(cfg, ApplyPublisher(cfg, s, p, step))
  {
    hide ItemOk;
    var s' := ApplyPublisher(cfg, s, p, step);
    assert CallItemOk(cfg, s.CallOf(p));
    if !s.CallOf(p).Ready? {
      StoredItemOk(cfg, s.CallOf(p).item);
    }
    forall q: nat ensures CallItemOk(cfg, s'.CallOf(q)) {
      assert CallItemOk(cfg, s.CallOf(q));
    }
  }

  lemma EnvKeepsItems(cfg: Settings, s: State, step: EnvStep)
    requires ItemsOk(cfg, s)
    ensures ItemsOk(cfg, ApplyEnv(cfg, s, step))
  {
    var s' := ApplyEnv(cfg, s, step);
    forall q: nat ensures CallItemOk(cfg, s'.CallOf(q)) {
      assert CallItemOk(cfg, s.CallOf(q));
    }
  }

  lemma StartupKeepsItems(cfg: Settings, s: State, step: StartupStep)
    requires ItemsOk(cfg, s)
    ensures ItemsOk(cfg, ApplyStartup(s, step))
  {
    hide ItemOk;
    var s' := ApplyStartup(s, step);
    forall q: nat ensures CallItemOk(cfg, s'.CallOf(q)) {
      assert CallItemOk(cfg, s.CallOf(q));
    }
  }

  lemma SenderKeepsItems(cfg: Settings, s: State, name: string, step: SenderStep)
    requires ItemsOk(cfg, s)
    ensures ItemsOk(cfg, ApplySender(s, name, step))
  {
    hide ItemOk;
    var s' := ApplySender(s, name, step);
    forall q: nat ensures CallItemOk(cfg, s'.CallOf(q)) {
      assert CallItemOk(cfg, s.CallOf(q));
    }
  }

  lemma {:induction false} RunKeepsItems(cfg: Settings, steps: seq<Step>)
    ensures ItemsOk(cfg, Run(cfg, steps))
  {
    if steps != [] {
      var s := Run(cfg, steps[..|steps| - 1]);
      RunKeepsItems(cfg, steps[..|steps| - 1]);
      match steps[|steps| - 1]
      case Environment(env) => EnvKeepsItems(cfg, s, env);
      case Startup(startup) => StartupKeepsItems(cfg, s, startup);
      case Publisher(p, publisher) => PublisherKeepsItems(cfg, s, p, publisher);
      case Sender(name, sender) => SenderKeepsItems(cfg, s, name, sender);
    }
  }

  /**
   A second copy of an OOM kill needs a delay between the report and the
   bucket lookup at least as long as it took, after the kill, to record the
   first copy. Shorter delays never store a kill twice, over any restarts.
   */
  lemma SecondCopyNeedsDelay(cfg: Settings, steps: seq<Step>, i: nat, j: nat)
    requires SameKey(Run(cfg, steps).jet, i, j)
    requires var a, b := Run(cfg, steps).jet.log[i], Run(cfg, steps).jet.log[j];
             a.put.Some? && b.item.synthetic &&
             (a.publisher == b.publisher || cfg.pushTimeout < MINUTE)
    ensures var a, b := Run(cfg, steps).jet.log[i], Run(cfg, steps).jet.log[j];
            b.item.event.firstTimestamp.Some? &&
            b.got - b.item.observed >= a.put.value - b.item.event.firstTimestamp.value
  {
    RunKeepsItems(cfg, steps);
    OneLoopDeduplicates(cfg, steps, i, j);
    if cfg.pushTimeout < MINUTE {
      AnyLoopsDeduplicate(cfg, steps);
    }
  }

  /** The kill at instant 0, recorded at lag; reported again at the end of the window and looked up delay later. */
  ghost predicate StoredTwice(cfg: Settings, steps: seq<Step>, lag: Time, delay: Time) {
    var jet := Run(cfg, steps).jet;
    SameKey(jet, 0, 1) &&
    (var a, b := jet.log[0], jet.log[1];
     a.publisher == b.publisher && b.item.synthetic && b.item.event.firstTimestamp == Some(0) &&
     a.put == Some(lag) && b.got - b.item.observed == delay)
  }

  lemma DelayedReportDuplicates(cfg: Settings, lag: nat, delay: nat) returns (steps: seq<Step>)
    requires lag <= delay && lag <= cfg.ttl && cfg.pushTimeout >= 0
    ensures StoredTwice(cfg, steps, lag, delay)
  {
    var event := DeduplicationLimits.SomeEvent(Some(0));
    var first, second := NewItem(event, 0, true), NewItem(event, cfg.ttl, true);
    steps := FirstReport(cfg, lag, first);
    steps := EnvRun(cfg, steps, Crash({first.key}));
    steps := EnvRun(cfg, steps, Tick(cfg.ttl - lag));
    steps := BootRun(cfg, steps);
    steps := EnvRun(cfg, steps, Observe(second));
    steps := EnvRun(cfg, steps, Tick(delay));
    steps := EnvRun(cfg, steps, ExpireKey(first.key));
    steps := CallRun(cfg, steps, 0, second, true);
  }

  lemma FirstReport(cfg: Settings, lag: nat, item: Item) returns (steps: seq<Step>)
    requires cfg.ttl >= 0 && cfg.pushTimeout >= 0 && Observable(cfg, 0, item)
    ensures var s := Run(cfg, steps);
            s.jet.now == lag && s.jet.kv == map[item.key := lag] && s.jet.window == map[item.key := lag] &&
            |s.jet.log| == 1 && s.jet.log[0].item == Stored(item) && s.jet.log[0].publisher == 0 && s.jet.log[0].put == Some(lag)
  {
    steps := BootRun(cfg, []);
    steps := EnvRun(cfg, steps, Observe(item));
    steps := EnvRun(cfg, steps, Tick(lag));
    steps := CallRun(cfg, steps, 0, item, true);
  }

  /** For which lags and delays a kill can be stored twice. */
  lemma StoredTwiceIff(cfg: Settings, lag: nat, delay: nat)
    requires lag <= cfg.ttl && cfg.pushTimeout >= 0
    ensures (exists steps :: StoredTwice(cfg, steps, lag, delay)) <==> lag <= delay
  {
    if lag <= delay {
      var steps := DelayedReportDuplicates(cfg, lag, delay);
    }
    if steps :| StoredTwice(cfg, steps, lag, delay) {
      SecondCopyNeedsDelay(cfg, steps, 0, 1);
    }
  }

  /** What OnOOMKilled reports with maxAge set to the TTL is what the machine lets a handler observe. */
  lemma ReportsAreObservable(cfg: Settings, text: OomKills.Text, oldPod: Option<Pods.Pod>, newPod: Pods.Pod,
                             now: Time, event: Event)
    requires event in OomWatch.NewKills(text, oldPod, newPod, now - cfg.ttl)
    ensures Observable(cfg, now, NewItem(event, now, true))
  {
    OomWatch.NewKillsAreRecent(text, oldPod, newPod, now - cfg.ttl, event);
  }
}
