/** Where deduplication ends: runs which store an event twice, and exact conditions. */
module DeduplicationLimits {
  import opened Base
  import opened Events
  import opened JetStream
  import opened System
  import opened Deduplication
  import opened Runs
  import EQ = EventQueue

  const NoObject := ObjectReference("", "", "", "", "")

  function SomeEvent(first: Option<Time>): Event {
    Event("u", "", "", "", [], NoObject, "", "", "", 1, "", "", None, None, first)
  }

  /** Both loops are between lookup and record, a push timeout apart. */
  lemma SlowLoopsOpen(cfg: Settings) returns (steps: seq<Step>)
    requires cfg.pushTimeout >= 0
    ensures var item, s := NewItem(SomeEvent(None), 0, false), Run(cfg, steps);
            && s.jet.now == cfg.pushTimeout && s.CallOf(1) == Checked(item, s.jet.now, s.jet.now)
            && s.CallOf(0) == Recording(item, 0, 0) && s.jet.window == map[item.key := 0]
            && |s.jet.log| == 1 && s.jet.log[0].item.key == item.key
  {
    var item := NewItem(SomeEvent(None), 0, false);
    steps := BootRun(cfg, []);
    steps := EnvRun(cfg, steps, Observe(item));
    steps := EnvRun(cfg, steps, Observe(item));
    assert Run(cfg, steps).channel == [item, item];
    steps := OpenCallRun(cfg, steps, 0);
    steps := PublisherRun(cfg, steps, 0, PublisherStep.Send(Replied));
    steps := EnvRun(cfg, steps, Tick(cfg.pushTimeout));
    steps := OpenCallRun(cfg, steps, 1);
  }

  /** Two loops, each just within its timeout, with the first record written after the second lookup. */
  lemma SlowLoopsDuplicate(cfg: Settings) returns (steps: seq<Step>)
    requires cfg.pushTimeout >= MINUTE && cfg.ttl > 0
    ensures !Deduplicates(cfg, Run(cfg, steps).jet)
  {
    var key := NewItem(SomeEvent(None), 0, false).key;
    steps := SlowLoopsOpen(cfg);
    steps := PublisherRun(cfg, steps, 0, Record(true));
    steps := EnvRun(cfg, steps, Tick(cfg.pushTimeout));
    steps := EnvRun(cfg, steps, ExpireMessageId(key));
    steps := PublisherRun(cfg, steps, 1, PublisherStep.Send(Replied));
    var jet := Run(cfg, steps).jet;
    assert SameKey(jet, 0, 1) && !TtlApart(cfg, jet.log[0], jet.log[1]);
  }

  /** The timeouts for which any number of loops deduplicate in every run: two of them fit into the window. */
  lemma DeduplicatesIff(cfg: Settings)
    requires cfg.ttl > 0
    ensures (forall steps :: Deduplicates(cfg, Run(cfg, steps).jet)) <==> cfg.pushTimeout < MINUTE
  {
    if cfg.pushTimeout < MINUTE {
      forall steps ensures Deduplicates(cfg, Run(cfg, steps).jet) {
        AnyLoopsDeduplicate(cfg, steps);
      }
    } else {
      var steps := SlowLoopsDuplicate(cfg);
      assert !Deduplicates(cfg, Run(cfg, steps).jet);
    }
  }

  /** The bucket and the window only know keys of accepted messages. */
  ghost predicate BucketKnows(jet: Jet) {
    forall key :: key in jet.kv ==> exists i :: PutAs(jet.log, i, key, jet.kv[key])
  }

  ghost predicate WindowKnows(jet: Jet) {
    forall key :: key in jet.window ==> exists i :: StoredAs(jet.log, i, key, jet.window[key])
  }

  ghost predicate KnownKeys(jet: Jet) { BucketKnows(jet) && WindowKnows(jet) }

  ghost predicate PutAs(log: seq<Accepted>, i: int, key: string, put: Time) {
    0 <= i < |log| && log[i].item.key == key && log[i].put == Some(put)
  }

  ghost predicate StoredAs(log: seq<Accepted>, i: int, key: string, at: Time) {
    0 <= i < |log| && log[i].item.key == key && log[i].at == at
  }

  predicate Within(m: map<string, Time>, m': map<string, Time>) {
    forall key :: key in m' ==> key in m && m[key] == m'[key]
  }

  lemma KnownKeysFrame(j: Jet, j': Jet)
    requires KnownKeys(j)
    requires j.log == j'.log && Within(j.kv, j'.kv) && Within(j.window, j'.window)
    ensures KnownKeys(j')
  {
  }

  lemma PublishKnowsKeys(jet: Jet, item: Item, p: nat, got: Time)
    requires KnownKeys(jet)
    ensures KnownKeys(Publish(jet, item, p, got))
  {
    var j' := Publish(jet, item, p, got);
    forall key | key in j'.kv ensures exists i :: PutAs(j'.log, i, key, j'.kv[key]) {
      var i :| PutAs(jet.log, i, key, jet.kv[key]);
      assert PutAs(j'.log, i, key, j'.kv[key]);
    }
    forall key | key in j'.window ensures exists i :: StoredAs(j'.log, i, key, j'.window[key]) {
      if key == item.key {
        assert StoredAs(j'.log, |jet.log|, key, j'.window[key]);
      } else {
        var i :| StoredAs(jet.log, i, key, jet.window[key]);
        assert StoredAs(j'.log, i, key, j'.window[key]);
      }
    }
  }

  lemma PutKnowsKeys(jet: Jet, n: nat)
    requires KnownKeys(jet) && n < |jet.log| && jet.log[n].put == None
    ensures KnownKeys(Put(jet, jet.log[n].item.key, n))
  {
    var j' := Put(jet, jet.log[n].item.key, n);
    forall key | key in j'.kv ensures exists i :: PutAs(j'.log, i, key, j'.kv[key]) {
      if key == jet.log[n].item.key {
        assert PutAs(j'.log, n, key, j'.kv[key]);
      } else {
        var i :| PutAs(jet.log, i, key, jet.kv[key]);
        assert PutAs(j'.log, i, key, j'.kv[key]);
      }
    }
    forall key | key in j'.window ensures exists i :: StoredAs(j'.log, i, key, j'.window[key]) {
      var i :| StoredAs(jet.log, i, key, jet.window[key]);
      assert StoredAs(j'.log, i, key, j'.window[key]);
    }
  }

  lemma PublisherKnowsKeys(cfg: Settings, s: State, p: nat, step: PublisherStep)
    requires Inv(cfg, s) && KnownKeys(s.jet)
    ensures KnownKeys(ApplyPublisher(cfg, s, p, step).jet)
  {
    var s', call := ApplyPublisher(cfg, s, p, step), s.CallOf(p);
    assert CallOk(cfg, s, p);
    if s'.jet != s.jet {
      if step.Send? {
        PublishKnowsKeys(s.jet, call.item, p, call.got);
      } else {
        PutKnowsKeys(s.jet, call.n);
      }
    }
  }

  predicate KeepsLog(jet: Jet, jet': Jet) {
    jet'.log == jet.log && Within(jet.kv, jet'.kv) && Within(jet.window, jet'.window)
  }

  lemma EnvKeepsLog(cfg: Settings, s: State, step: EnvStep)
    ensures KeepsLog(s.jet, ApplyEnv(cfg, s, step).jet)
  {
  }

  lemma StartupKeepsLog(s: State, step: StartupStep)
    ensures KeepsLog(s.jet, ApplyStartup(s, step).jet)
  {
  }

  lemma SenderKeepsLog(s: State, name: string, step: SenderStep)
    ensures KeepsLog(s.jet, ApplySender(s, name, step).jet)
  {
  }

  lemma ApplyKnowsKeys(cfg: Settings, s: State, step: Step)
    requires Inv(cfg, s) && KnownKeys(s.jet)
    ensures KnownKeys(Apply(cfg, s, step).jet)
  {
    match step
    case Publisher(p, publisher) => PublisherKnowsKeys(cfg, s, p, publisher);
    case Environment(env) =>
      EnvKeepsLog(cfg, s, env);
      KnownKeysFrame(s.jet, ApplyEnv(cfg, s, env).jet);
    case Startup(startup) =>
      StartupKeepsLog(s, startup);
      KnownKeysFrame(s.jet, ApplyStartup(s, startup).jet);
    case Sender(name, sender) =>
      SenderKeepsLog(s, name, sender);
      KnownKeysFrame(s.jet, ApplySender(s, name, sender).jet);
  }

  lemma {:induction false} RunKnowsKeys(cfg: Settings, steps: seq<Step>)
    ensures KnownKeys(Run(cfg, steps).jet)
  {
    if steps != [] {
      RunKnowsKeys(cfg, steps[..|steps| - 1]);
      RunInv(cfg, steps[..|steps| - 1]);
      ApplyKnowsKeys(cfg, Run(cfg, steps[..|steps| - 1]), steps[|steps| - 1]);
    }
  }

  /** No copy of the key is still protected by a record, and the stream has forgotten its id. */
  ghost predicate Forgotten(cfg: Settings, jet: Jet, key: string) {
    (forall i {:trigger jet.log[i]} :: 0 <= i < |jet.log| && jet.log[i].item.key == key && jet.log[i].put.Some? ==>
       jet.log[i].put.value + cfg.ttl <= jet.now) &&
    (key in jet.window ==> jet.window[key] + DUPLICATE_WINDOW <= jet.now)
  }

  /** What expires has done so before the loop looks. */
  function Expiry(key: string): seq<Step> {
    [Environment(ExpireKey(key)), Environment(ExpireMessageId(key))]
  }

  /** A PublishEvent which meets no error. */
  function UndisturbedCall(p: nat): seq<Step> {
    EQ.CallSteps(p, EQ.Weather(false, Replied, true))
  }

  /** Both expiries together clear the way exactly if the key is forgotten. */
  lemma ExpiryClearsForgotten(cfg: Settings, s: State, key: string)
    requires Inv(cfg, s) && KnownKeys(s.jet)
    ensures var s1 := RunFrom(cfg, s, Expiry(key));
            && s1 == s.(jet := s1.jet) && s1.jet == s.jet.(kv := s1.jet.kv, window := s1.jet.window)
            && (key !in s1.jet.kv && key !in s1.jet.window <==> Forgotten(cfg, s.jet, key))
  {
    if key in s.jet.kv {
      var i :| PutAs(s.jet.log, i, key, s.jet.kv[key]);
      assert s.jet.log[i].put.value == s.jet.kv[key];
    }
    RunTwo(cfg, s, Expiry(key)[0], Expiry(key)[1]);
  }

  /** The stored copy is owed to every consumer and recorded in the bucket. */
  ghost predicate StoredAndRecorded(jet: Jet, jet': Jet, key: string) {
    && |jet'.log| == |jet.log| + 1
    && key in jet'.kv && jet'.kv[key] == jet.now
    && jet'.consumers.Keys == jet.consumers.Keys
    && forall c :: c in jet'.consumers ==> |jet.log| in jet'.consumers[c].owed
  }

  lemma CallStores(cfg: Settings, s: State, p: nat)
    requires cfg.pushTimeout >= 0 && s.phase == Running && s.CallOf(p) == Ready && s.channel != []
    ensures var key := s.channel[0].key;
            var jet := RunFrom(cfg, s, UndisturbedCall(p)).jet;
            if key in s.jet.kv || key in s.jet.window then jet.log == s.jet.log
            else StoredAndRecorded(s.jet, jet, key)
  {
    EQ.PublishEventIsRun(cfg, s, p, EQ.Weather(false, Replied, true));
  }

  /** When PublishEvent stores an event (again), after any run: exactly if all that protected earlier copies is over. */
  lemma StoredIffForgotten(cfg: Settings, steps: seq<Step>, p: nat)
    requires cfg.pushTimeout >= 0
    requires Run(cfg, steps).phase == Running && Run(cfg, steps).CallOf(p) == Ready && Run(cfg, steps).channel != []
    ensures var s := Run(cfg, steps);
            var key := s.channel[0].key;
            var jet := RunFrom(cfg, s, Expiry(key) + UndisturbedCall(p)).jet;
            if Forgotten(cfg, s.jet, key) then StoredAndRecorded(s.jet, jet, key) else jet.log == s.jet.log
  {
    var s := Run(cfg, steps);
    var key := s.channel[0].key;
    RunInv(cfg, steps);
    RunKnowsKeys(cfg, steps);
    ExpiryClearsForgotten(cfg, s, key);
    RunAppend(cfg, s, Expiry(key), UndisturbedCall(p));
    CallStores(cfg, RunFrom(cfg, s, Expiry(key)), p);
  }
}
