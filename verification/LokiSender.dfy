/** Processing one event in the Loki sender (internal/eventsender/loki/loki.go). */
module LokiSender {
  import opened Base
  import opened Events
  import opened LokiConfig
  import opened Hook
  import Starlark
  import EQ = EventQueue
  import Sys = System

  /** A Go map[string]string: shared by reference. */
  class StringMap {
    var entries: map<string, string>

    constructor ()
      ensures entries == map[]
    {
      entries := map[];
    }
  }

  type SenderConfig = ConfigOf<StringMap?>

  ghost function Snapshot(cfg: SenderConfig): Config
    reads cfg.streamLabels
  {
    Config(cfg.url, cfg.tenantID, cfg.basicAuth, cfg.tls,
           if cfg.streamLabels == null then None else Some(cfg.streamLabels.entries), cfg.message, cfg.hook)
  }

  function OptionalLabel(key: string, value: string): map<string, string> {
    if value == "" then map[] else map[key := value]
  }

  function EventLabels(event: Event): map<string, string> {
    map["namespace" := event.namespace] +
    map["involved_object_kind" := event.involvedObject.kind] +
    map["involved_object_name" := event.involvedObject.name] +
    map["reason" := event.reason] +
    map["type" := event.eventType] +
    OptionalLabel("source_component", event.sourceComponent) +
    OptionalLabel("source_host", event.sourceHost)
  }

  /** Setting one more label over `base + m` is setting it over `m`. */
  lemma SetLabel(base: map<string, string>, m: map<string, string>, key: string, value: string)
    ensures (base + m)[key := value] == base + (m + map[key := value])
  {
  }

  /** Labels of the event win over configured ones. */
  function Labels(configured: Option<map<string, string>>, event: Event): map<string, string> {
    (if configured.None? then map[] else configured.value) + EventLabels(event)
  }

  function DefaultConfig(cfg: Config, event: Event): Config {
    cfg.(streamLabels := Some(Labels(cfg.streamLabels, event)))
  }

  lemma LabelsAreNeverEmpty(configured: Option<map<string, string>>, event: Event)
    ensures Labels(configured, event) != map[]
    ensures forall k :: k in EventLabels(event) ==> k in Labels(configured, event) && Labels(configured, event)[k] == EventLabels(event)[k]
    ensures forall k :: k !in EventLabels(event) ==>
              (k in Labels(configured, event) <==> configured.Some? && k in configured.value) &&
              (k in Labels(configured, event) ==> Labels(configured, event)[k] == configured.value[k])
  {
    assert "type" in EventLabels(event);
    assert "type" in Labels(configured, event);
  }

  /** The event's own time, or the last or first time it was seen, or now. */
  function Timestamp(event: Event, now: Time): Time {
    if event.eventTime.Some? then event.eventTime.value
    else if event.lastTimestamp.Some? then event.lastTimestamp.value
    else if event.firstTimestamp.Some? then event.firstTimestamp.value
    else now
  }

  /** The text of the default message is JSON and stays open. */
  datatype Message = Configured(text: string) | OfEvent(event: Event)

  datatype Request = Request(
    url: string,
    tenantID: string,
    basicAuth: Option<BasicAuth>,
    stream: Option<map<string, string>>,
    timestamp: Time,
    message: Message)

  function RequestFor(cfg: Config, event: Event, now: Time): Request {
    Request(cfg.url + "/loki/api/v1/push", cfg.tenantID, cfg.basicAuth, cfg.streamLabels, Timestamp(event, now),
            if cfg.message == "" then OfEvent(event) else Configured(cfg.message))
  }

  /** What has to be in the request for an event under a config. */
  predicate IsRequestFor(cfg: Config, event: Event, now: Time, r: Request) {
    && r.url == cfg.url + "/loki/api/v1/push" && r.tenantID == cfg.tenantID && r.basicAuth == cfg.basicAuth
    && r.stream == cfg.streamLabels
    && r.message == (if cfg.message == "" then OfEvent(event) else Configured(cfg.message))
    && (event.eventTime == Some(r.timestamp) ||
        (event.eventTime == None && event.lastTimestamp == Some(r.timestamp)) ||
        (event.eventTime == event.lastTimestamp == None && event.firstTimestamp == Some(r.timestamp)) ||
        (event.eventTime == event.lastTimestamp == event.firstTimestamp == None && r.timestamp == now))
  }

  predicate Is2xx(http: Http) {
    http.Status? && 200 <= http.code <= 299
  }

  const ALWAYS_LABELLED := {"namespace", "involved_object_kind", "involved_object_name", "reason", "type"}

  /** The label is there exactly if there is something to say. */
  predicate OptionalLabelAt(labels: map<string, string>, configured: map<string, string>, key: string, value: string) {
    if value != "" then key in labels && labels[key] == value
    else (key in labels <==> key in configured) && (key in labels ==> labels[key] == configured[key])
  }

  /** Which labels an event gets, and what they say. */
  ghost predicate AreLabelsFor(configured: map<string, string>, event: Event, labels: map<string, string>) {
    && ALWAYS_LABELLED <= labels.Keys
    && labels["namespace"] == event.namespace
    && labels["involved_object_kind"] == event.involvedObject.kind
    && labels["involved_object_name"] == event.involvedObject.name
    && labels["reason"] == event.reason
    && labels["type"] == event.eventType
    && OptionalLabelAt(labels, configured, "source_component", event.sourceComponent)
    && OptionalLabelAt(labels, configured, "source_host", event.sourceHost)
    && forall k :: k !in ALWAYS_LABELLED && k != "source_component" && k != "source_host" ==>
         OptionalLabelAt(labels, configured, k, "")
  }

  function ConfiguredLabels(labels: Option<map<string, string>>): map<string, string> {
    if labels.None? then map[] else labels.value
  }

  /** The config of the sender, with the labels for the event. */
  ghost predicate IsDefaultFor(cfg: Config, event: Event, default: Config) {
    default.(streamLabels := cfg.streamLabels) == cfg && default.streamLabels.Some? &&
    AreLabelsFor(ConfiguredLabels(cfg.streamLabels), event, default.streamLabels.value)
  }

  /** What the labels of an event are, one by one. */
  ghost predicate SaysOnly(labels: map<string, string>, key: string, value: string) {
    if value == "" then key !in labels else key in labels && labels[key] == value
  }

  lemma EventLabelsSay(event: Event)
    ensures var m := EventLabels(event);
            && ALWAYS_LABELLED <= m.Keys <= ALWAYS_LABELLED + {"source_component", "source_host"}
            && m["namespace"] == event.namespace
            && m["involved_object_kind"] == event.involvedObject.kind
            && m["involved_object_name"] == event.involvedObject.name
            && m["reason"] == event.reason && m["type"] == event.eventType
            && SaysOnly(m, "source_component", event.sourceComponent) && SaysOnly(m, "source_host", event.sourceHost)
  {
  }

  lemma DefaultConfigIsDefault(cfg: Config, event: Event)
    ensures IsDefaultFor(cfg, event, DefaultConfig(cfg, event))
  {
    hide EventLabels;
    EventLabelsSay(event);
  }

  /** What becomes of a request: it cannot be created, gets no response, or a status. */
  datatype Http = NotCreated | NoResponse | Status(code: int)

  datatype SenderResult = Sent | Rejected | Skipped | Failed

  /** One fetched event: how it is counted, the request made for it, whether it is acknowledged. */
  datatype Decision = Decision(result: SenderResult, request: Option<Request>, acks: bool)

  function Deliver(noop: bool, cfg: Config, event: Event, http: Http, now: Time): Decision {
    if noop then Decision(Sent, None, true)
    else
      var request := if http.NotCreated? then None else Some(RequestFor(cfg, event, now));
      if http.Status? && 200 <= http.code < 300 then Decision(Sent, request, true)
      else if http == Status(400) then Decision(Rejected, request, true)
      else Decision(Failed, request, false)
  }

  /** hooked is None for a sender without hook. */
  function Decide(noop: bool, cfg: Config, event: Event, hooked: Option<HookResult>, http: Http, now: Time): Decision {
    var default := DefaultConfig(cfg, event);
    match hooked
    case None => Deliver(noop, default, event, http, now)
    case Some(Hooked(hookedCfg)) => Deliver(noop, hookedCfg, event, http, now)
    case Some(SkipEvent) => Decision(Skipped, None, true)
    case Some(HookError) =>
      if cfg.hook.Some? && cfg.hook.value.onError == "skip" then Decision(Skipped, None, true)
      else if cfg.hook.Some? && cfg.hook.value.onError == "fail" then Decision(Failed, None, false)
      else Deliver(noop, default, event, http, now)
  }

  /** What the world does while an event is processed. */
  datatype World = World(
    eventJson: Object,
    lookup: PodLookup,
    outcome: ScriptOutcome,
    scribbles: (seq<(Starlark.Value, Starlark.Value)>, seq<(Starlark.Value, Starlark.Value)>),
    http: Http,
    ackFails: bool,
    now: Time)
  {
    predicate Valid() {
      Starlark.JsonShaped(Starlark.GoMap(eventJson)) && "pod" !in eventJson &&
      (lookup.PodFound? ==> Starlark.JsonShaped(Starlark.GoMap(lookup.pod)))
    }
  }

  function HookResultFor(cfg: Config, event: Event, w: World): Option<HookResult> {
    if cfg.hook.None? then None
    else if SkipsWithoutPod(cfg.hook.value, event.involvedObject.kind == "Pod", w.lookup) then Some(SkipEvent)
    else Some(Interpret(DefaultConfig(cfg, event), w.outcome))
  }

  function DecisionFor(noop: bool, cfg: Config, event: Event, w: World): Decision {
    Decide(noop, cfg, event, HookResultFor(cfg, event, w), w.http, w.now)
  }

  lemma EmptySum(m: map<string, string>)
    ensures map[] + m == m && m + map[] == m
  {
  }

  method AddEventLabels(labels: StringMap, event: Event)
    modifies labels
    ensures labels.entries == old(labels.entries) + EventLabels(event)
  {
    ghost var base := labels.entries;
    EmptySum(base);
    EmptySum(map["namespace" := event.namespace]);
    ghost var m := AddLabel(labels, "namespace", event.namespace, base, map[]);
    m := AddLabel(labels, "involved_object_kind", event.involvedObject.kind, base, m);
    m := AddLabel(labels, "involved_object_name", event.involvedObject.name, base, m);
    m := AddLabel(labels, "reason", event.reason, base, m);
    m := AddLabel(labels, "type", event.eventType, base, m);
    m := AddOptionalLabel(labels, "source_component", event.sourceComponent, base, m);
    m := AddOptionalLabel(labels, "source_host", event.sourceHost, base, m);
  }

  method AddOptionalLabel(labels: StringMap, key: string, value: string, ghost base: map<string, string>, ghost m: map<string, string>)
    returns (ghost m': map<string, string>)
    requires labels.entries == base + m
    modifies labels
    ensures labels.entries == base + m' && m' == m + OptionalLabel(key, value)
  {
    EmptySum(m);
    m' := m;
    if value != "" {
      m' := AddLabel(labels, key, value, base, m);
    }
  }

  method AddLabel(labels: StringMap, key: string, value: string, ghost base: map<string, string>, ghost m: map<string, string>)
    returns (ghost m': map<string, string>)
    requires labels.entries == base + m
    modifies labels
    ensures labels.entries == base + m' && m' == m + map[key := value]
  {
    SetLabel(base, m, key, value);
    m' := m + map[key := value];
    labels.entries := labels.entries[key := value];
  }

  function DecisionsFor(noop: bool, cfg: Config, rounds: seq<(EQ.Fetched, World)>): seq<Decision> {
    if rounds == [] then []
    else
      var (fetched, w) := rounds[|rounds| - 1];
      DecisionsFor(noop, cfg, rounds[..|rounds| - 1]) +
      if fetched.Event? then [DecisionFor(noop, cfg, fetched.event, w)] else []
  }

  class LokiSender {
    const name: string
    const config: SenderConfig
    const noop: bool
    var decisions: seq<Decision>   // what was counted, requested and acknowledged so far
    var acknowledged: seq<nat>     // messages whose acknowledgement was attempted
    var hookErrors: nat

    constructor (name: string, config: SenderConfig, noop: bool)
      ensures this.name == name && this.config == config && this.noop == noop
      ensures decisions == [] && acknowledged == [] && hookErrors == 0
    {
      this.name, this.config, this.noop := name, config, noop;
      decisions, acknowledged, hookErrors := [], [], 0;
    }

    method CopyLabels(labels: StringMap)
      requires labels.entries == map[] && labels != config.streamLabels
      modifies labels
      ensures labels.entries == if config.streamLabels == null then map[] else config.streamLabels.entries
    {
      if config.streamLabels != null {
        var todo := config.streamLabels.entries.Keys;
        while todo != {}
          invariant todo <= config.streamLabels.entries.Keys
          invariant labels.entries == config.streamLabels.entries - todo
          decreases |todo|
        {
          var k :| k in todo;
          labels.entries := labels.entries[k := config.streamLabels.entries[k]];
          todo := todo - {k};
        }
      }
    }

    /** A new map, so nobody who gets it can reach the configured labels. */
    method BuildLabels(event: Event) returns (labels: StringMap)
      ensures fresh(labels)
      ensures AreLabelsFor(if config.streamLabels == null then map[] else config.streamLabels.entries, event, labels.entries)
      ensures fresh(labels) && labels.entries == Labels(Snapshot(config).streamLabels, event)
    {
      labels := new StringMap();
      CopyLabels(labels);
      AddEventLabels(labels, event);
      DefaultConfigIsDefault(Snapshot(config), event);
    }

    method BuildDefaultConfig(event: Event) returns (cfg: Config)
      ensures cfg == DefaultConfig(Snapshot(config), event)
      ensures cfg.url == config.url && cfg.tenantID == config.tenantID && cfg.basicAuth == config.basicAuth && cfg.tls == config.tls
      ensures cfg.message == config.message && cfg.hook == config.hook
    {
      var labels := BuildLabels(event);
      cfg := Config(config.url, config.tenantID, config.basicAuth, config.tls, Some(labels.entries), config.message, config.hook);
    }

    method SendToLoki(cfg: Config, event: Event, http: Http, now: Time) returns (request: Option<Request>, result: SenderResult)
      ensures request.Some? <==> !http.NotCreated?
      ensures request.Some? ==> IsRequestFor(cfg, event, now, request.value)
      ensures result == Sent <==> Is2xx(http)
      ensures result == Rejected <==> http == Status(400)
      ensures result != Skipped
      ensures Deliver(false, cfg, event, http, now) == Decision(result, request, result != Failed)
    {
      if http.NotCreated? {
        return None, Failed;
      }
      request := Some(RequestFor(cfg, event, now));
      if http.NoResponse? {
        return request, Failed;
      }
      if http.code < 200 || http.code >= 300 {
        return request, if http.code == 400 then Rejected else Failed;
      }
      return request, Sent;
    }

    method DeliverEvent(cfg: Config, event: Event, n: nat, w: World) returns (ok: bool)
      modifies this`decisions, this`acknowledged
      ensures var d := Deliver(noop, cfg, event, w.http, w.now);
              decisions == old(decisions) + [d] && ok == (d.acks && !w.ackFails) &&
              acknowledged == old(acknowledged) + if d.acks then [n] else []
    {
      if noop {
        decisions := decisions + [Decision(Sent, None, true)];
      } else {
        var request, result := SendToLoki(cfg, event, w.http, w.now);
        decisions := decisions + [Decision(result, request, result != Failed)];
        if result == Failed {
          return false;
        }
      }
      acknowledged := acknowledged + [n];
      return !w.ackFails;
    }

    method Settle(result: SenderResult, n: nat, w: World) returns (ok: bool)
      modifies this`decisions, this`acknowledged
      ensures decisions == old(decisions) + [Decision(result, None, true)]
      ensures acknowledged == old(acknowledged) + [n] && ok == !w.ackFails
    {
      decisions, acknowledged := decisions + [Decision(result, None, true)], acknowledged + [n];
      return !w.ackFails;
    }

    method HandleHookError(event: Event, n: nat, w: World) returns (ok: bool)
      modifies this`decisions, this`acknowledged
      ensures var d := Decide(noop, Snapshot(config), event, Some(HookError), w.http, w.now);
              decisions == old(decisions) + [d] && ok == (d.acks && !w.ackFails) &&
              acknowledged == old(acknowledged) + if d.acks then [n] else []
    {
      var onError := if config.hook.Some? && config.hook.value.onError != "" then config.hook.value.onError else "use-default";
      if onError == "skip" {
        ok := Settle(Skipped, n, w);
      } else if onError == "fail" {
        decisions := decisions + [Decision(Failed, None, false)];
        ok := false;
      } else {
        var cfg := BuildDefaultConfig(event);
        ok := DeliverEvent(cfg, event, n, w);
      }
    }

    /** Without a message nothing happens, whatever the reason. */
    method ProcessEvent(fetched: EQ.Fetched, w: World) returns (ok: bool)
      requires w.Valid()
      modifies this
      ensures !fetched.Event? ==> decisions == old(decisions) && acknowledged == old(acknowledged) && ok == !fetched.FetchError?
      ensures fetched.Event? ==>
                var d := DecisionFor(noop, Snapshot(config), fetched.event, w);
                decisions == old(decisions) + [d] && ok == (d.acks && !w.ackFails) &&
                acknowledged == old(acknowledged) + if d.acks then [fetched.n] else []
    {
      hide Interpret, Labels, RequestFor, Deliver, SkipsWithoutPod, DefaultConfig, AreLabelsFor;
      if !fetched.Event? {
        return !fetched.FetchError?;
      }
      var event := fetched.event;
      var cfg := BuildDefaultConfig(event);
      if config.hook.Some? {
        var hooked := Execute(config.hook.value, cfg, w.eventJson, event.involvedObject.kind == "Pod", w.lookup, w.outcome, w.scribbles);
        match hooked {
          case SkipEvent =>
            ok := Settle(Skipped, fetched.n, w);
            return;
          case HookError =>
            hookErrors := hookErrors + 1;
            ok := HandleHookError(event, fetched.n, w);
            return;
          case Hooked(hookedCfg) => cfg := hookedCfg;
        }
      }
      ok := DeliverEvent(cfg, event, fetched.n, w);
    }

    /** The loop of the sender, for as many rounds as it lives: every event meets the configured labels, untouched. */
    method Run(rounds: seq<(EQ.Fetched, World)>)
      requires forall i :: 0 <= i < |rounds| ==> rounds[i].1.Valid()
      modifies this
      ensures decisions == old(decisions) + DecisionsFor(noop, old(Snapshot(config)), rounds)
      ensures Snapshot(config) == old(Snapshot(config))
    {
      for i := 0 to |rounds|
        invariant decisions == old(decisions) + DecisionsFor(noop, Snapshot(config), rounds[..i])
      {
        assert rounds[..i + 1][..i] == rounds[..i];
        var _ := ProcessEvent(rounds[i].0, rounds[i].1);
      }
      assert rounds[..|rounds|] == rounds;
    }
  }

  /** A failing hook under use-default: the same request and the same outcome as without any hook. */
  lemma UseDefaultIsNoHook(noop: bool, cfg: Config, event: Event, http: Http, now: Time)
    requires cfg.hook.Some? ==> cfg.hook.value.onError != "skip" && cfg.hook.value.onError != "fail"
    ensures Decide(noop, cfg, event, Some(HookError), http, now) == Decide(noop, cfg.(hook := None), event, None, http, now)
  {
  }

  lemma RequestIgnoresHook(cfg: Config, event: Event, now: Time)
    ensures RequestFor(cfg.(hook := None), event, now) == RequestFor(cfg, event, now)
  {
  }

  /**
   A script which returns its config unchanged: the same as without any hook,
   unless its timeout is one of the largest and onError turns that into something else.
   */
  lemma IdentityIsNoHook(noop: bool, cfg: Config, event: Event, w: World, t: Starlark.Tree)
    requires cfg.hook.Some? && Starlark.Encodes(Starlark.GoMap(Encode(DefaultConfig(cfg, event))), t)
    requires w.outcome == Returns(t) && !SkipsWithoutPod(cfg.hook.value, event.involvedObject.kind == "Pod", w.lookup)
    ensures var d, onError := DecisionFor(noop, cfg, event, w), cfg.hook.value.onError;
            if TimeoutSurvives(cfg) || onError !in ["skip", "fail"]
            then d == DecisionFor(noop, cfg.(hook := None), event, w)
            else d == Decision(if onError == "skip" then Skipped else Failed, None, onError == "skip")
  {
    hide Labels, RequestFor, HookResultFor, Deliver, DefaultConfig, TimeoutSurvives;
    IdentityResult(cfg, event, w, t);
    DefaultIsNoHook(noop, cfg, event, w.http, w.now);
    assert HookResultFor(cfg.(hook := None), event, w) == None by { NoHookNoResult(cfg, event, w); }
  }

  lemma NoHookNoResult(cfg: Config, event: Event, w: World)
    ensures HookResultFor(cfg.(hook := None), event, w) == None
  {
  }

  lemma IdentityResult(cfg: Config, event: Event, w: World, t: Starlark.Tree)
    requires cfg.hook.Some? && Starlark.Encodes(Starlark.GoMap(Encode(DefaultConfig(cfg, event))), t)
    requires w.outcome == Returns(t) && !SkipsWithoutPod(cfg.hook.value, event.involvedObject.kind == "Pod", w.lookup)
    ensures HookResultFor(cfg, event, w) == Some(if TimeoutSurvives(cfg) then Hooked(DefaultConfig(cfg, event)) else HookError)
  {
    hide Labels, Encode, Interpret, Starlark.Encodes;
    LabelsAreNeverEmpty(cfg.streamLabels, event);
    IdentityTransform(DefaultConfig(cfg, event), t);
  }

  /** Delivering with the default config is what a sender without hook does. */
  lemma DefaultIsNoHook(noop: bool, cfg: Config, event: Event, http: Http, now: Time)
    ensures Deliver(noop, DefaultConfig(cfg, event), event, http, now) == Decide(noop, cfg.(hook := None), event, None, http, now)
  {
    hide Labels;
    RequestIgnoresHook(DefaultConfig(cfg, event), event, now);
  }

  /** The event was delivered under this config: which request was made, what became of it, and what of the event. */
  predicate DeliveredUnder(noop: bool, cfg: Config, event: Event, http: Http, now: Time, d: Decision) {
    && (d.acks <==> d.result != Failed) && d.result != Skipped
    && (noop ==> d.result == Sent && d.request == None)
    && (!noop ==>
          && (d.result == Sent <==> Is2xx(http)) && (d.result == Rejected <==> http == Status(400))
          && (d.request.Some? <==> !http.NotCreated?)
          && (d.request.Some? ==> IsRequestFor(cfg, event, now, d.request.value)))
  }

  /** The hook failed, and the setting says what to do. */
  predicate DecidedOnError(noop: bool, cfg: Config, event: Event, http: Http, now: Time, d: Decision) {
    var onError := if cfg.hook.None? then "" else cfg.hook.value.onError;
    if onError == "skip" then d == Decision(Skipped, None, true)
    else if onError == "fail" then d == Decision(Failed, None, false)
    else DeliveredUnder(noop, DefaultConfig(cfg, event), event, http, now, d)
  }

  lemma DeliveringDelivers(noop: bool, cfg: Config, event: Event, http: Http, now: Time)
    ensures DeliveredUnder(noop, cfg, event, http, now, Deliver(noop, cfg, event, http, now))
  {
  }

  /** What is decided in each case: without a hook, after one, for a skipped event and after an error. */
  lemma DecisionsAreSound(noop: bool, cfg: Config, event: Event, hooked: Option<HookResult>, http: Http, now: Time)
    ensures var d := Decide(noop, cfg, event, hooked, http, now);
            && (d.acks <==> d.result != Failed)
            && IsDefaultFor(cfg, event, DefaultConfig(cfg, event))
            && match hooked {
                 case None => DeliveredUnder(noop, DefaultConfig(cfg, event), event, http, now, d)
                 case Some(Hooked(hookedCfg)) => DeliveredUnder(noop, hookedCfg, event, http, now, d)
                 case Some(SkipEvent) => d == Decision(Skipped, None, true)
                 case Some(HookError) => DecidedOnError(noop, cfg, event, http, now, d)
               }
  {
    hide Deliver, DeliveredUnder, IsDefaultFor, DefaultConfig;
    DefaultConfigIsDefault(cfg, event);
    DeliveringDelivers(noop, DefaultConfig(cfg, event), event, http, now);
    if hooked.Some? && hooked.value.Hooked? {
      DeliveringDelivers(noop, hooked.value.cfg, event, http, now);
    }
  }

  /** A pod which is missing keeps the script from running, if the hook says so. */
  predicate PodKeepsScriptFrom(cfg: Config, event: Event, w: World) {
    cfg.hook.Some? && cfg.hook.value.enrichPod && cfg.hook.value.skipOnPodNotFound &&
    event.involvedObject.kind == "Pod" && w.lookup == PodNotFound
  }

  /** What a fetched event comes to, from the script's outcome to the request. */
  lemma EventIsDecided(noop: bool, cfg: Config, event: Event, w: World)
    ensures var d := DecisionFor(noop, cfg, event, w);
            && (cfg.hook.None? ==> DeliveredUnder(noop, DefaultConfig(cfg, event), event, w.http, w.now, d))
            && (PodKeepsScriptFrom(cfg, event, w) ==> d == Decision(Skipped, None, true))
            && (cfg.hook.Some? && !PodKeepsScriptFrom(cfg, event, w) ==>
                  && (w.outcome == Returns(Starlark.TNone) ==> d == Decision(Skipped, None, true))
                  && (w.outcome.Raises? || !(w.outcome.result.TNone? || w.outcome.result.TDict?) ==>
                        DecidedOnError(noop, cfg, event, w.http, w.now, d)))
  {
    hide Deliver, DeliveredUnder, DefaultConfig, DecidedOnError, Starlark.EntriesToGo, HasJson, Decode;
    DecisionsAreSound(noop, cfg, event, HookResultFor(cfg, event, w), w.http, w.now);
  }

  /** The request is made under the config which the script returned. */
  lemma ScriptConfigIsSent(noop: bool, cfg: Config, event: Event, w: World, cfg': Config, t: Starlark.Tree)
    requires cfg.hook.Some? && !PodKeepsScriptFrom(cfg, event, w)
    requires w.outcome == Returns(t) && Starlark.Encodes(Starlark.GoMap(Encode(cfg')), t) && TimeoutSurvives(cfg')
    ensures DeliveredUnder(noop, cfg'.(streamLabels := NilIfEmpty(cfg'.streamLabels), hook := cfg.hook), event, w.http, w.now,
                           DecisionFor(noop, cfg, event, w))
  {
    hide Deliver, DeliveredUnder, DefaultConfig, Interpret, Encode, TimeoutSurvives;
    ScriptIsObeyed(DefaultConfig(cfg, event), cfg', t);
    assert DefaultConfig(cfg, event).hook == cfg.hook by { DefaultConfigIsDefault(cfg, event); }
    DecisionsAreSound(noop, cfg, event, HookResultFor(cfg, event, w), w.http, w.now);
  }

  lemma OneDecision(noop: bool, cfg: Config, round: (EQ.Fetched, World))
    ensures DecisionsFor(noop, cfg, [round]) ==
            if round.0.Event? then [DecisionFor(noop, cfg, round.0.event, round.1)] else []
  {
    assert [round][..0] == [];
  }

  lemma DecisionsOneMore(noop: bool, cfg: Config, rounds: seq<(EQ.Fetched, World)>, round: (EQ.Fetched, World))
    ensures DecisionsFor(noop, cfg, rounds + [round]) == DecisionsFor(noop, cfg, rounds) + DecisionsFor(noop, cfg, [round])
  {
    assert (rounds + [round])[..|rounds|] == rounds;
    OneDecision(noop, cfg, round);
  }

  /** Every fetched event is decided once (OneDecision), independently of the others and in their order. */
  lemma {:induction false} DecisionsAppend(noop: bool, cfg: Config, first: seq<(EQ.Fetched, World)>, second: seq<(EQ.Fetched, World)>)
    ensures DecisionsFor(noop, cfg, first + second) == DecisionsFor(noop, cfg, first) + DecisionsFor(noop, cfg, second)
  {
    if second == [] {
      assert first + second == first;
    } else {
      hide DecisionsFor;
      var init, last := second[..|second| - 1], second[|second| - 1];
      assert first + second == (first + init) + [last] && second == init + [last];
      calc {
        DecisionsFor(noop, cfg, first + second);
        { DecisionsOneMore(noop, cfg, first + init, last); }
        DecisionsFor(noop, cfg, first + init) + DecisionsFor(noop, cfg, [last]);
        { DecisionsAppend(noop, cfg, first, init); }
        DecisionsFor(noop, cfg, first) + (DecisionsFor(noop, cfg, init) + DecisionsFor(noop, cfg, [last]));
        { DecisionsOneMore(noop, cfg, init, last); }
        DecisionsFor(noop, cfg, first) + DecisionsFor(noop, cfg, second);
      }
    }
  }

  /** The step of the machine which a decision is. */
  function StepFor(d: Decision): Sys.SenderStep {
    match d.result
    case Sent => Sys.Push(Sys.Accepts)
    case Rejected => Sys.Push(Sys.BadRequest)
    case Skipped => Sys.Skip
    case Failed => if d.request.Some? then Sys.Push(Sys.Fails(true)) else Sys.HookFails
  }

  function ReasonFor(result: SenderResult): Sys.Reason {
    match result
    case Sent => Sys.WasSent
    case Rejected => Sys.WasRejected
    case Skipped => Sys.WasSkipped
    case Failed => Sys.WasFiltered
  }

  function Counted(m: Sys.Stats, result: SenderResult): Sys.Stats {
    match result
    case Sent => m.(sent := m.sent + 1)
    case Rejected => m.(rejected := m.rejected + 1)
    case Skipped => m.(skipped := m.skipped + 1)
    case Failed => m.(failed := m.failed + 1)
  }

  /** Processing a held message takes the machine's loop to the acknowledgement or, failed, back to idle. */
  lemma DecisionIsStep(s: Sys.State, name: string, cfg: Config, event: Event, w: World)
    requires name in s.loops && s.LoopOf(name).Holding? && name in s.jet.consumers
    ensures var d, n := DecisionFor(s.IsNoop(name), cfg, event, w), s.LoopOf(name).n;
            var s' := Sys.ApplySender(s, name, StepFor(d));
            && s'.LoopOf(name) == (if d.acks then Sys.Settling(n, ReasonFor(d.result)) else Sys.Idle)
            && s'.StatsOf(name) == Counted(s.StatsOf(name), d.result)
            && s'.jet.consumers[name].Pushes(n) == s.jet.consumers[name].Pushes(n) + if d.request.Some? then 1 else 0
  {
    hide Interpret, DefaultConfig, IsRequestFor, IsDefaultFor;
    var d := DecisionFor(s.IsNoop(name), cfg, event, w);
    DecisionsAreSound(s.IsNoop(name), cfg, event, HookResultFor(cfg, event, w), w.http, w.now);
  }
}
