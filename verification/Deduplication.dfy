/** Publishing stores one copy of an event per TTL: over every run, crashes included. */
module Deduplication {
  import opened Base
  import opened JetStream
  import opened System

  /** b's bucket lookup came at least a TTL after a was recorded there. */
  predicate TtlApart(cfg: Settings, a: Accepted, b: Accepted) {
    a.put.Some? ==> b.got >= a.put.value + cfg.ttl
  }

  /** b looked into the bucket while another loop's call for a was still under way. */
  predicate Overlapping(a: Accepted, b: Accepted) {
    a.put.Some? && b.boot == a.boot && b.publisher != a.publisher && b.got <= a.put.value
  }

  predicate SameKey(jet: Jet, i: nat, j: nat) {
    i < j < |jet.log| && jet.log[i].item.key == jet.log[j].item.key
  }

  ghost predicate Times(cfg: Settings, jet: Jet) {
    forall i {:trigger jet.log[i]} :: 0 <= i < |jet.log| ==>
      var a := jet.log[i];
      a.got <= a.at <= jet.now && a.at <= a.got + cfg.pushTimeout && a.boot <= jet.boot &&
      (a.put.Some? ==> a.at <= a.put.value <= jet.now && a.put.value <= a.at + cfg.pushTimeout)
  }

  ghost predicate BootsInOrder(jet: Jet) {
    forall i, j :: 0 <= i < j < |jet.log| ==> jet.log[i].boot <= jet.log[j].boot
  }

  /** A recorded key stays in the bucket until its TTL is over. */
  ghost predicate BucketRemembers(cfg: Settings, jet: Jet) {
    forall i {:trigger jet.log[i]} :: 0 <= i < |jet.log| && jet.log[i].put.Some? ==>
      var key, put := jet.log[i].item.key, jet.log[i].put.value;
      (key in jet.kv && jet.kv[key] >= put) || jet.now >= put + cfg.ttl
  }

  /** Without a restart the stream rejects a key until its duplicate window is over. */
  ghost predicate WindowRemembers(jet: Jet) {
    forall i {:trigger jet.log[i]} :: 0 <= i < |jet.log| && jet.log[i].boot == jet.boot ==>
      var key := jet.log[i].item.key;
      (key in jet.window && jet.window[key] >= jet.log[i].at) || jet.now >= jet.log[i].at + DUPLICATE_WINDOW
  }

  ghost predicate CheckedOk(cfg: Settings, jet: Jet, p: nat, call: Call) {
    call.Checked? ==>
      call.started <= call.got <= jet.now &&
      forall i {:trigger jet.log[i]} ::
        0 <= i < |jet.log| && jet.log[i].put.Some? && jet.log[i].item.key == call.item.key ==>
          call.got >= jet.log[i].put.value + cfg.ttl ||
          (jet.log[i].boot == jet.boot && jet.log[i].publisher != p && call.got <= jet.log[i].put.value)
  }

  ghost predicate RecordingOk(jet: Jet, p: nat, call: Call) {
    call.Recording? ==>
      call.n < |jet.log| &&
      (var a := jet.log[call.n];
       a.item.key == call.item.key && a.publisher == p && a.boot == jet.boot && call.started <= a.at && a.put == None) &&
      forall j {:trigger jet.log[j]} :: call.n < j < |jet.log| ==> jet.log[j].publisher != p
  }

  ghost predicate CallsOk(cfg: Settings, s: State) {
    forall p: nat :: CallOk(cfg, s, p)
  }

  ghost predicate CallOk(cfg: Settings, s: State, p: nat) {
    CheckedOk(cfg, s.jet, p, s.CallOf(p)) && RecordingOk(s.jet, p, s.CallOf(p)) &&
    (s.CallOf(p).Taken? ==> s.CallOf(p).started <= s.jet.now)
  }

  ghost predicate PairsOk(cfg: Settings, jet: Jet) {
    forall i: nat, j: nat :: SameKey(jet, i, j) ==> PairOk(cfg, jet.log[i], jet.log[j])
  }

  ghost predicate PairOk(cfg: Settings, a: Accepted, b: Accepted) {
    (TtlApart(cfg, a, b) || Overlapping(a, b)) &&
    (a.boot == b.boot ==> b.at >= a.at + DUPLICATE_WINDOW)
  }

  ghost predicate Inv(cfg: Settings, s: State) {
    Times(cfg, s.jet) && BootsInOrder(s.jet) && BucketRemembers(cfg, s.jet) && WindowRemembers(s.jet) &&
    CallsOk(cfg, s) && PairsOk(cfg, s.jet)
  }

  /** Steps which touch neither the log nor a call, and forget nothing too early, keep everything. */
  lemma FrameKeepsInv(cfg: Settings, s: State, s': State)
    requires Inv(cfg, s)
    requires s'.jet.now >= s.jet.now && s'.jet.boot == s.jet.boot
    requires s'.jet.log == s.jet.log && s'.calls == s.calls
    requires s'.jet.kv == s.jet.kv || BucketRemembers(cfg, s'.jet)
    requires s'.jet.window == s.jet.window || WindowRemembers(s'.jet)
    ensures Inv(cfg, s')
  {
    forall p: nat ensures CallOk(cfg, s', p) {
      assert CallOk(cfg, s, p);
    }
    assert forall i: nat, j: nat :: SameKey(s'.jet, i, j) ==> SameKey(s.jet, i, j);
  }

  lemma StopKeepsInv(cfg: Settings, s: State)
    requires Inv(cfg, s)
    ensures Inv(cfg, Stopped(s))
  {
    var s' := Stopped(s);
    assert forall p: nat :: s'.CallOf(p) == Ready;
    assert forall i: nat, j: nat :: SameKey(s'.jet, i, j) ==> SameKey(s.jet, i, j);
  }

  /** Message ids may get lost in a restart, expired ones at any time. */
  lemma EnvKeepsInv(cfg: Settings, s: State, step: EnvStep)
    requires Inv(cfg, s)
    ensures Inv(cfg, ApplyEnv(cfg, s, step))
  {
    var s' := ApplyEnv(cfg, s, step);
    if step.Crash? {
      StopKeepsInv(cfg, s);
      FrameKeepsInv(cfg, Stopped(s), s');
    } else {
      FrameKeepsInv(cfg, s, s');
    }
  }

  lemma StartupKeepsInv(cfg: Settings, s: State, step: StartupStep)
    requires Inv(cfg, s)
    ensures Inv(cfg, ApplyStartup(s, step))
  {
    if step.PruneFails? && s.phase == Subscribing(|s.senders|) {
      var s0 := s.(jet := DeleteConsumers(s.jet, step.deleted - s.Names()));
      FrameKeepsInv(cfg, s, s0);
      StopKeepsInv(cfg, s0);
    } else {
      FrameKeepsInv(cfg, s, ApplyStartup(s, step));
    }
  }

  lemma SenderKeepsInv(cfg: Settings, s: State, name: string, step: SenderStep)
    requires Inv(cfg, s)
    ensures Inv(cfg, ApplySender(s, name, step))
  {
    FrameKeepsInv(cfg, s, ApplySender(s, name, step));
  }

  /** Only the stepping loop's own call changes. */
  lemma CallKeepsInv(cfg: Settings, s: State, p: nat, call: Call)
    requires Inv(cfg, s)
    requires CheckedOk(cfg, s.jet, p, call) && !call.Recording?
    requires call.Taken? ==> call.started <= s.jet.now
    ensures Inv(cfg, SetCall(s, p, call))
  {
    var s' := SetCall(s, p, call);
    forall q: nat ensures CallOk(cfg, s', q) {
      assert CallOk(cfg, s, q);
    }
  }

  lemma PublishKeepsInv(cfg: Settings, s: State, p: nat, call: Call, next: Call)
    requires Inv(cfg, s)
    requires call == s.CallOf(p) && call.Checked? && call.item.key !in s.jet.window
    requires s.jet.now <= call.started + cfg.pushTimeout
    requires next == Ready || next == Recording(call.item, call.started, |s.jet.log|)
    ensures Inv(cfg, SetCall(s.(jet := Publish(s.jet, call.item, p, call.got)), p, next))
  {
    var s' := SetCall(s.(jet := Publish(s.jet, call.item, p, call.got)), p, next);
    var n := |s.jet.log|;
    assert CallOk(cfg, s, p);
    forall q: nat ensures CallOk(cfg, s', q) {
      assert CallOk(cfg, s, q);
    }
    forall i: nat, j: nat | SameKey(s'.jet, i, j) ensures PairOk(cfg, s'.jet.log[i], s'.jet.log[j]) {
      if j < n {
        assert SameKey(s.jet, i, j);
      }
    }
  }

  lemma PutKeepsInv(cfg: Settings, s: State, p: nat)
    requires Inv(cfg, s)
    requires s.CallOf(p).Recording? && s.jet.now <= s.CallOf(p).started + cfg.pushTimeout
    ensures s.CallOf(p).n < |s.jet.log|
    ensures Inv(cfg, SetCall(s.(jet := Put(s.jet, s.CallOf(p).item.key, s.CallOf(p).n)), p, Ready))
  {
    assert CallOk(cfg, s, p);
    var n, key := s.CallOf(p).n, s.CallOf(p).item.key;
    var s' := SetCall(s.(jet := Put(s.jet, key, n)), p, Ready);
    forall q: nat ensures CallOk(cfg, s', q) {
      assert CallOk(cfg, s, q);
    }
    forall i: nat, j: nat | SameKey(s'.jet, i, j) ensures PairOk(cfg, s'.jet.log[i], s'.jet.log[j]) {
      assert SameKey(s.jet, i, j);
    }
  }

  lemma PublisherKeepsInv(cfg: Settings, s: State, p: nat, step: PublisherStep)
    requires Inv(cfg, s)
    ensures Inv(cfg, ApplyPublisher(cfg, s, p, step))
  {
    var s', call := ApplyPublisher(cfg, s, p, step), s.CallOf(p);
    assert CallOk(cfg, s, p);
    if s' != s {
      match step
      case Take =>
        var s0 := s.(channel := s.channel[1..]);
        FrameKeepsInv(cfg, s, s0);
        CallKeepsInv(cfg, s0, p, s'.CallOf(p));
      case Check(fails) => CallKeepsInv(cfg, s, p, s'.CallOf(p));
      case Send(reply) =>
        if reply == NotStored || call.item.key in s.jet.window {
          CallKeepsInv(cfg, s, p, Ready);
        } else {
          PublishKeepsInv(cfg, s, p, call, s'.CallOf(p));
        }
      case Record(stored) =>
        if stored {
          PutKeepsInv(cfg, s, p);
        } else {
          CallKeepsInv(cfg, s, p, Ready);
        }
      case GiveUp => CallKeepsInv(cfg, s, p, Ready);
    }
  }

  lemma ApplyKeepsInv(cfg: Settings, s: State, step: Step)
    requires Inv(cfg, s)
    ensures Inv(cfg, Apply(cfg, s, step))
  {
    match step
    case Environment(env) => EnvKeepsInv(cfg, s, env);
    case Startup(startup) => StartupKeepsInv(cfg, s, startup);
    case Publisher(p, publisher) => PublisherKeepsInv(cfg, s, p, publisher);
    case Sender(name, sender) => SenderKeepsInv(cfg, s, name, sender);
  }

  lemma {:induction false} RunInv(cfg: Settings, steps: seq<Step>)
    ensures Inv(cfg, Run(cfg, steps))
  {
    if steps != [] {
      RunInv(cfg, steps[..|steps| - 1]);
      ApplyKeepsInv(cfg, Run(cfg, steps[..|steps| - 1]), steps[|steps| - 1]);
    }
  }

  /**
   kigeon has one publishing loop. It never stores an event twice within the
   TTL of the first copy's record, no matter where it crashes; without a
   record only the duplicate window of the same boot separates the copies.
   */
  lemma OneLoopDeduplicates(cfg: Settings, steps: seq<Step>, i: nat, j: nat)
    requires SameKey(Run(cfg, steps).jet, i, j)
    ensures var log := Run(cfg, steps).jet.log;
            && (log[i].publisher == log[j].publisher ==> TtlApart(cfg, log[i], log[j]))
            && (log[i].boot == log[j].boot ==> log[j].at >= log[i].at + 2 * MINUTE)
  {
    RunInv(cfg, steps);
    var jet := Run(cfg, steps).jet;
    assert PairOk(cfg, jet.log[i], jet.log[j]);
  }

  /** Every recorded copy keeps later ones away for a TTL. */
  ghost predicate Deduplicates(cfg: Settings, jet: Jet) {
    forall i: nat, j: nat :: SameKey(jet, i, j) ==> TtlApart(cfg, jet.log[i], jet.log[j])
  }

  /** Any number of loops do so if two push timeouts fit into the duplicate window. */
  lemma AnyLoopsDeduplicate(cfg: Settings, steps: seq<Step>)
    requires cfg.pushTimeout < MINUTE
    ensures Deduplicates(cfg, Run(cfg, steps).jet)
  {
    RunInv(cfg, steps);
    var jet := Run(cfg, steps).jet;
    forall i: nat, j: nat | SameKey(jet, i, j) ensures TtlApart(cfg, jet.log[i], jet.log[j]) {
      assert PairOk(cfg, jet.log[i], jet.log[j]);
    }
  }
}
