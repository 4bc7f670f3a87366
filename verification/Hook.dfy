/** Running the transform function of a hook script (internal/eventsender/loki/hook.go). */
module Hook {
  import opened Base
  import opened Numbers
  import opened Starlark
  import opened LokiConfig
  import StarlarkFacts

  /** A script call fails (or is cancelled after the timeout), or returns some acyclic value. */
  datatype ScriptOutcome = Raises | Returns(result: Tree)

  datatype PodLookup = NoPodGetter | PodFound(pod: Object) | PodNotFound | PodFails

  datatype HookResult = Hooked(cfg: Config) | SkipEvent | HookError

  /** What the script's outcome means for the sender. */
  function Interpret(cfg: Config, outcome: ScriptOutcome): HookResult {
    if outcome.Raises? then HookError
    else if outcome.result == TNone then SkipEvent
    else if !outcome.result.TDict? then HookError
    else
      var m := EntriesToGo(outcome.result.items);
      if m.Failure? || !HasJson(GoMap(m.value)) then HookError
      else
        var decoded := Decode(m.value);
        if decoded.Failure? then HookError else Hooked(decoded.value.(hook := cfg.hook))
  }

  predicate SkipsWithoutPod(hook: ConfigHook, involvesPod: bool, lookup: PodLookup) {
    hook.enrichPod && involvesPod && lookup == PodNotFound && hook.skipOnPodNotFound
  }

  /** Any acyclic value, as fresh containers. */
  method Materialize(t: Tree) returns (v: Value, ghost objs: set<object>)
    ensures fresh(objs) && Denotes(v, t, objs)
    decreases t, 0
  {
    objs := {};
    match t {
      case TNone => v := Value.None;
      case TBool(b) => v := Bool(b);
      case TInt(i) => v := Int(i);
      case TFloat(f) => v := Float(f);
      case TString(s) => v := String(s);
      case TOther(n) => v := Other(n);
      case TDict(items) =>
        var pairs: seq<(Value, Value)> := [];
        for i := 0 to |items|
          invariant |pairs| == i && fresh(objs)
          invariant forall j :: 0 <= j < i ==>
                      Denotes(pairs[j].0, items[j].key, objs) && Denotes(pairs[j].1, items[j].value, objs)
        {
          var pair, pairObjs := MaterializeEntry(items[i]);
          forall j | 0 <= j < i
            ensures Denotes(pairs[j].0, items[j].key, objs + pairObjs) && Denotes(pairs[j].1, items[j].value, objs + pairObjs)
          {
            DenotesInMore(pairs[j].0, items[j].key, objs, objs + pairObjs);
            DenotesInMore(pairs[j].1, items[j].value, objs, objs + pairObjs);
          }
          DenotesInMore(pair.0, items[i].key, pairObjs, objs + pairObjs);
          DenotesInMore(pair.1, items[i].value, pairObjs, objs + pairObjs);
          pairs, objs := pairs + [pair], objs + pairObjs;
        }
        var d := new Dict(pairs);
        forall j | 0 <= j < |items|
          ensures Denotes(pairs[j].0, items[j].key, objs + {d}) && Denotes(pairs[j].1, items[j].value, objs + {d})
        {
          DenotesInMore(pairs[j].0, items[j].key, objs, objs + {d});
          DenotesInMore(pairs[j].1, items[j].value, objs, objs + {d});
        }
        v, objs := DictValue(d), objs + {d};
      case TList(elems) =>
        var values: seq<Value> := [];
        for i := 0 to |elems|
          invariant |values| == i && fresh(objs)
          invariant forall j :: 0 <= j < i ==> Denotes(values[j], elems[j], objs)
        {
          var value, valueObjs := Materialize(elems[i]);
          forall j | 0 <= j < i ensures Denotes(values[j], elems[j], objs + valueObjs) {
            DenotesInMore(values[j], elems[j], objs, objs + valueObjs);
          }
          DenotesInMore(value, elems[i], valueObjs, objs + valueObjs);
          values, objs := values + [value], objs + valueObjs;
        }
        var l := new List(values);
        forall j | 0 <= j < |elems| ensures Denotes(values[j], elems[j], objs + {l}) {
          DenotesInMore(values[j], elems[j], objs, objs + {l});
        }
        v, objs := ListValue(l), objs + {l};
    }
  }

  method MaterializeEntry(entry: Entry) returns (pair: (Value, Value), ghost objs: set<object>)
    ensures fresh(objs) && Denotes(pair.0, entry.key, objs) && Denotes(pair.1, entry.value, objs)
    decreases entry, 1
  {
    var key, keyObjs := Materialize(entry.key);
    var value, valueObjs := Materialize(entry.value);
    objs := keyObjs + valueObjs;
    DenotesInMore(key, entry.key, keyObjs, objs);
    DenotesInMore(value, entry.value, valueObjs, objs);
    pair := (key, value);
  }

  /**
   starlark.Call with config and event. Its contract leaves open what happens
   to the containers the script can reach, and whether its result consists of
   them; this body only scribbles over the two outer dicts.
   */
  method CallTransform(outcome: ScriptOutcome, config: Dict, event: Dict, scribbles: (seq<(Value, Value)>, seq<(Value, Value)>),
                       ghost cfg: Config, ghost eventObject: Object, ghost reachable: set<object>)
    returns (result: Option<Value>, ghost objs: set<object>)
    requires Represents(config, Encode(cfg), reachable) && Represents(event, eventObject, reachable)
    modifies reachable
    ensures result.Some? <==> outcome.Returns?
    ensures result.Some? ==> fresh(objs - reachable) && Denotes(result.value, outcome.result, objs)
  {
    config.items := scribbles.0;
    event.items := scribbles.1;
    if outcome.Raises? {
      return Option.None, {};
    }
    var v, newObjs := Materialize(outcome.result);
    return Some(v), newObjs;
  }

  method ToConfig(d: Dict, ghost items: seq<Entry>, ghost objs: set<object>) returns (r: Option<Config>)
    requires Denotes(DictValue(d), TDict(items), objs)
    ensures var m := EntriesToGo(items);
            r == if m.Failure? || !HasJson(GoMap(m.value)) || Decode(m.value).Failure? then Option.None
                 else Some(Decode(m.value).value)
  {
    var m := StarlarkDictToGoMap(d, items, objs);
    if m.Failure? || !HasJson(GoMap(m.value)) {
      return Option.None;
    }
    var decoded := Decode(m.value);
    return if decoded.Failure? then Option.None else Some(decoded.value);
  }

  /** What the script finds as its event. */
  function Enriched(hook: ConfigHook, event: Object, involvesPod: bool, lookup: PodLookup): Object {
    if hook.enrichPod && involvesPod && lookup.PodFound? then event["pod" := GoMap(lookup.pod)] else event
  }

  /** Adds the pod to the event unless it is missing; tells whether the event is to be skipped. */
  method EnrichPod(hook: ConfigHook, event: Dict, involvesPod: bool, lookup: PodLookup,
                   ghost eventObject: Object, ghost items: seq<Entry>, ghost objs: set<object>)
    returns (skip: bool, ghost podObjs: set<object>)
    requires event in objs && ItemsDenote(event.items, items, objs - {event}) && Encodes(GoMap(eventObject), TDict(items))
    requires "pod" !in eventObject
    requires lookup.PodFound? ==> JsonShaped(GoMap(lookup.pod))
    modifies event
    ensures fresh(podObjs)
    ensures skip <==> hook.enrichPod && involvesPod && lookup == PodNotFound && hook.skipOnPodNotFound
    ensures Represents(event, Enriched(hook, eventObject, involvesPod, lookup), objs + podObjs)
  {
    hide Denotes, Encodes, ItemsDenote;
    podObjs := {};
    if hook.enrichPod && involvesPod && lookup.PodFound? {
      var d, podItems, newObjs := GoMapToStarlarkDict(lookup.pod);
      AddPod(event, d.value, lookup.pod, podItems, newObjs, eventObject, items, objs);
      return false, newObjs;
    }
    ItemsDenoteDict(event, items, objs - {event});
    assert objs - {event} + {event} == objs + podObjs;
    return hook.enrichPod && involvesPod && lookup == PodNotFound && hook.skipOnPodNotFound, {};
  }

  method AddPod(event: Dict, pod: Dict, ghost podObject: Object, ghost podItems: seq<Entry>, ghost podObjs: set<object>,
                ghost eventObject: Object, ghost items: seq<Entry>, ghost objs: set<object>)
    requires event in objs && ItemsDenote(event.items, items, objs - {event}) && Encodes(GoMap(eventObject), TDict(items))
    requires "pod" !in eventObject && event !in podObjs
    requires Denotes(DictValue(pod), TDict(podItems), podObjs) && Encodes(GoMap(podObject), TDict(podItems))
    modifies event
    ensures Represents(event, eventObject["pod" := GoMap(podObject)], objs + podObjs)
  {
    EncodesOneMore(eventObject, items, "pod", GoMap(podObject), TDict(podItems));
    hide Denotes, Encodes;
    ghost var inner := objs - {event} + podObjs;
    ItemsDenoteInMore(event.items, items, objs - {event}, inner);
    DenotesInMore(DictValue(pod), TDict(podItems), podObjs, inner);
    ItemsDenoteSnoc(event.items, items, "pod", DictValue(pod), TDict(podItems), inner);
    event.SetKey(String("pod"), DictValue(pod));
    ItemsDenoteDict(event, items + [Entry(TString("pod"), TDict(podItems))], inner);
    assert inner + {event} == objs + podObjs;
  }

  /** Nothing but containers allocated here is modified, whatever the script does. */
  method Execute(hook: ConfigHook, cfg: Config, event: Object, involvesPod: bool, lookup: PodLookup,
                 outcome: ScriptOutcome, scribbles: (seq<(Value, Value)>, seq<(Value, Value)>)) returns (r: HookResult)
    requires JsonShaped(GoMap(event)) && "pod" !in event
    requires lookup.PodFound? ==> JsonShaped(GoMap(lookup.pod))
    ensures var skips := hook.enrichPod && involvesPod && lookup == PodNotFound && hook.skipOnPodNotFound;
            && (r == SkipEvent <==> skips || outcome == Returns(TNone))
            && (r.Hooked? ==> outcome.Returns? && outcome.result.TDict? && r.cfg.hook == cfg.hook)
            && (!skips && (outcome.Raises? || !(outcome.result.TDict? || outcome.result.TNone?)) ==> r == HookError)
    ensures r == if SkipsWithoutPod(hook, involvesPod, lookup) then SkipEvent else Interpret(cfg, outcome)
  {
    hide Denotes, Encodes, ItemsDenote, Represents, JsonShaped, Encode, EntriesToGo, HasJson, Decode;
    EncodedIsJsonShaped(cfg);
    var config, configItems, configObjs := GoMapToStarlarkDict(Encode(cfg));
    var eventDict, eventItems, eventObjs := GoMapToStarlarkDict(event);
    var skip, podObjs := EnrichPod(hook, eventDict.value, involvesPod, lookup, event, eventItems, eventObjs);
    if skip {
      return SkipEvent;
    }
    ghost var reachable := configObjs + eventObjs + podObjs;
    RepresentsInMore(config.value, Encode(cfg), configItems, configObjs, reachable);
    EnrichedInMore(eventDict.value, Enriched(hook, event, involvesPod, lookup), eventObjs + podObjs, reachable);
    var result, objs := CallTransform(outcome, config.value, eventDict.value, scribbles, cfg,
                                      Enriched(hook, event, involvesPod, lookup), reachable);
    if result.None? {
      return HookError;
    }
    DictTree(result.value, outcome.result, objs);
    if result.value.None? {
      return SkipEvent;
    }
    if !result.value.DictValue? {
      return HookError;
    }
    var decoded := ToConfig(result.value.d, outcome.result.items, objs);
    return if decoded.None? then HookError else Hooked(decoded.value.(hook := cfg.hook));
  }

  lemma RepresentsInMore(d: Dict, m: Object, items: seq<Entry>, objs: set<object>, more: set<object>)
    requires Denotes(DictValue(d), TDict(items), objs) && Encodes(GoMap(m), TDict(items)) && objs <= more
    ensures Represents(d, m, more)
  {
    DenotesInMore(DictValue(d), TDict(items), objs, more);
  }

  lemma EnrichedInMore(d: Dict, m: Object, objs: set<object>, more: set<object>)
    requires Represents(d, m, objs) && objs <= more
    ensures Represents(d, m, more)
  {
    var items :| Denotes(DictValue(d), TDict(items), objs) && Encodes(GoMap(m), TDict(items));
    RepresentsInMore(d, m, items, objs, more);
  }

  /** No path leads to a number which JSON cannot write. */
  predicate NotFinite(v: GoValue) {
    v.GoFloat? && !v.f.Finite?
  }

  lemma {:induction false} HasJsonIff(v: GoValue)
    ensures HasJson(v) <==> StarlarkFacts.AllGood(v, NotFinite)
    decreases v
  {
    hide StarlarkFacts.AllGood;
    StarlarkFacts.AllGoodIff(v, NotFinite);
    match v
    case GoMap(m) =>
      forall k | k in m ensures HasJson(m[k]) <==> StarlarkFacts.AllGood(m[k], NotFinite) {
        HasJsonIff(m[k]);
      }
    case GoList(elems) =>
      forall i | 0 <= i < |elems| ensures HasJson(elems[i]) <==> StarlarkFacts.AllGood(elems[i], NotFinite) {
        HasJsonIff(elems[i]);
      }
    case _ =>
  }

  /** What a script wrote under the names of the settings is what is used, and the hook stays. */
  lemma ScriptDecides(cfg: Config, outcome: ScriptOutcome)
    ensures Interpret(cfg, outcome).Hooked? ==>
              var used := Interpret(cfg, outcome).cfg;
              && outcome.Returns? && outcome.result.TDict? && used.hook == cfg.hook
              && EntriesToGo(outcome.result.items).Success?
              && var m := EntriesToGo(outcome.result.items).value;
                 && StarlarkFacts.AllGood(GoMap(m), NotFinite)
                 && TextFrom(m, "url", used.url) && TextFrom(m, "tenantID", used.tenantID) && TextFrom(m, "message", used.message)
                 && LabelsFrom(m, used.streamLabels)
                 && (used.basicAuth.Some? <==> StructAt(m, "basicAuth"))
  {
    hide HasJson, StarlarkFacts.AllGood, Decode, TextFrom, LabelsFrom, StructAt;
    if Interpret(cfg, outcome).Hooked? {
      var m := EntriesToGo(outcome.result.items).value;
      HasJsonIff(GoMap(m));
      DecodedFrom(m);
    }
  }

  /** Scripts cannot change the hook settings. */
  lemma HookIsPreserved(cfg: Config, outcome: ScriptOutcome)
    ensures Interpret(cfg, outcome).Hooked? ==> Interpret(cfg, outcome).cfg.hook == cfg.hook
  {
  }

  lemma {:induction false} MarshalHasJson(fields: seq<Field>)
    requires forall i :: 0 <= i < |fields| && fields[i].value.Some? ==> HasJson(fields[i].value.value)
    ensures HasJson(GoMap(Marshal(fields)))
  {
    if fields != [] {
      MarshalHasJson(fields[..|fields| - 1]);
    }
  }

  lemma EncodedHasJson(cfg: Config)
    ensures HasJson(GoMap(Encode(cfg)))
  {
    hide Marshal;
    if cfg.basicAuth.Some? {
      MarshalHasJson(AuthFields(cfg.basicAuth.value));
    }
    if cfg.tls.Some? {
      MarshalHasJson(TlsFields(cfg.tls.value));
    }
    if cfg.hook.Some? {
      MarshalHasJson(HookFields(cfg.hook.value));
    }
    MarshalHasJson(ConfigFields(cfg));
  }

  /**
   A transform which returns some config is obeyed: exactly that config is
   used, but for the hook, unless its timeout is one of the largest.
   */
  lemma ScriptIsObeyed(cfg: Config, cfg': Config, t: Tree)
    requires Encodes(GoMap(Encode(cfg')), t)
    ensures Interpret(cfg, Returns(t)) ==
            if TimeoutSurvives(cfg') then Hooked(cfg'.(streamLabels := NilIfEmpty(cfg'.streamLabels), hook := cfg.hook))
            else HookError
  {
    hide Encode, Decode, HasJson, TimeoutSurvives;
    assert t.TDict?;
    StarlarkFacts.ConvertsBack(GoMap(Encode(cfg')), t);
    assert EntriesToGo(t.items) == Success(Encode(cfg'));
    EncodedHasJson(cfg');
    JsonRoundTrip(cfg');
  }

  /** So a transform which returns its config unchanged changes nothing. */
  lemma IdentityTransform(cfg: Config, t: Tree)
    requires Encodes(GoMap(Encode(cfg)), t)
    ensures Interpret(cfg, Returns(t)) ==
            if TimeoutSurvives(cfg) then Hooked(cfg.(streamLabels := NilIfEmpty(cfg.streamLabels))) else HookError
  {
    ScriptIsObeyed(cfg, cfg, t);
  }

  /** The longest timeout which Go can express is one which fails. */
  lemma LongestTimeoutFails(cfg: Config, t: Tree)
    requires cfg.hook.Some? && cfg.hook.value.timeout == MAX_INT64
    requires Encodes(GoMap(Encode(cfg)), t)
    ensures Interpret(cfg, Returns(t)) == HookError
  {
    IdentityTransform(cfg, t);
  }
}
