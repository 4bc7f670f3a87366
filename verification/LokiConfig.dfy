/** The Loki config as a Go struct, and its way through JSON (internal/eventsender/loki/config.go). */
module LokiConfig {
  import opened Base
  import opened Numbers
  import opened Starlark

  datatype TlsConfig = TlsConfig(insecureSkipVerify: bool)

  datatype BasicAuth = BasicAuth(username: string, password: string, usernameEnvVar: string, passwordEnvVar: string)

  datatype ConfigHook = ConfigHook(
    script: string,
    timeout: Int64,   // nanoseconds
    onError: string,
    enrichPod: bool,
    skipOnPodNotFound: bool)

  /** L is how the stream labels are held: a value here, a Go map in the sender. */
  datatype ConfigOf<L> = Config(
    url: string,
    tenantID: string,
    basicAuth: Option<BasicAuth>,
    tls: Option<TlsConfig>,
    streamLabels: L,
    message: string,
    hook: Option<ConfigHook>)

  /** Without labels the map is nil. */
  type Config = ConfigOf<Option<map<string, string>>>

  type Object = map<string, GoValue>

  function Get(m: Object, key: string): Option<GoValue> {
    if key in m then Some(m[key]) else Option.None
  }

  /** A struct field; None if omitempty drops it. */
  datatype Field = Field(key: string, value: Option<GoValue>)

  function StringField(key: string, s: string): Field {
    Field(key, if s == "" then Option.None else Some(GoString(s)))
  }

  function BoolField(key: string, b: bool): Field {
    Field(key, if b then Some(GoBool(true)) else Option.None)
  }

  function Marshal(fields: seq<Field>): Object {
    if fields == [] then map[]
    else
      var before, last := Marshal(fields[..|fields| - 1]), fields[|fields| - 1];
      if last.value.None? then before else before[last.key := last.value.value]
  }

  predicate DistinctKeys(fields: seq<Field>) {
    forall i, j :: 0 <= i < j < |fields| ==> fields[i].key != fields[j].key
  }

  lemma {:induction false} MarshalGet(fields: seq<Field>, i: nat)
    requires DistinctKeys(fields) && i < |fields|
    ensures Get(Marshal(fields), fields[i].key) == fields[i].value
  {
    var init := fields[..|fields| - 1];
    if i < |init| {
      MarshalGet(init, i);
    } else {
      MarshalOnly(init, fields[i].key);
    }
  }

  lemma {:induction false} MarshalOnly(fields: seq<Field>, key: string)
    requires forall i :: 0 <= i < |fields| ==> fields[i].key != key
    ensures key !in Marshal(fields)
  {
    if fields != [] {
      MarshalOnly(fields[..|fields| - 1], key);
    }
  }

  lemma {:induction false} MarshalShaped(fields: seq<Field>)
    requires forall i :: 0 <= i < |fields| && fields[i].value.Some? ==> JsonShaped(fields[i].value.value)
    ensures JsonShaped(GoMap(Marshal(fields)))
  {
    if fields != [] {
      MarshalShaped(fields[..|fields| - 1]);
    }
  }

  function AuthFields(a: BasicAuth): seq<Field> {
    [StringField("username", a.username), StringField("password", a.password),
     StringField("usernameEnvVar", a.usernameEnvVar), StringField("passwordEnvVar", a.passwordEnvVar)]
  }

  function TlsFields(t: TlsConfig): seq<Field> {
    [BoolField("insecureSkipVerify", t.insecureSkipVerify)]
  }

  function HookFields(h: ConfigHook): seq<Field> {
    [Field("script", Some(GoString(h.script))),
     Field("timeout", if h.timeout == 0 then Option.None else Some(GoFloat(NearestDouble(h.timeout)))),
     StringField("onError", h.onError), BoolField("enrichPod", h.enrichPod), BoolField("skipOnPodNotFound", h.skipOnPodNotFound)]
  }

  function EncodeLabels(labels: map<string, string>): Object {
    map k | k in labels :: GoString(labels[k])
  }

  function StructField(key: string, fields: Option<seq<Field>>): Field {
    Field(key, if fields.None? then Option.None else Some(GoMap(Marshal(fields.value))))
  }

  function ConfigFields(cfg: Config): seq<Field> {
    [Field("url", Some(GoString(cfg.url))),
     StringField("tenantID", cfg.tenantID),
     StructField("basicAuth", if cfg.basicAuth.Some? then Some(AuthFields(cfg.basicAuth.value)) else Option.None),
     StructField("tlsConfig", if cfg.tls.Some? then Some(TlsFields(cfg.tls.value)) else Option.None),
     Field("streamLabels", if cfg.streamLabels.Some? && cfg.streamLabels.value != map[]
                           then Some(GoMap(EncodeLabels(cfg.streamLabels.value))) else Option.None),
     StringField("message", cfg.message),
     StructField("hook", if cfg.hook.Some? then Some(HookFields(cfg.hook.value)) else Option.None)]
  }

  /** json.Marshal with omitempty, read back as map[string]any. */
  function Encode(cfg: Config): Object {
    Marshal(ConfigFields(cfg))
  }

  datatype JsonError = WrongType(key: string) | NotANumber

  /** A missing key and null leave the zero value. */
  predicate Missing(m: Object, key: string) {
    Get(m, key) == Option.None || Get(m, key) == Some(GoNil)
  }

  function ReadString(m: Object, key: string): Result<string, JsonError> {
    if Missing(m, key) then Success("")
    else
      var v := Get(m, key).value;
      if v.GoString? then Success(v.s) else Failure(WrongType(key))
  }

  function ReadBool(m: Object, key: string): Result<bool, JsonError> {
    if Missing(m, key) then Success(false)
    else
      var v := Get(m, key).value;
      if v.GoBool? then Success(v.b) else Failure(WrongType(key))
  }

  function ReadInt(m: Object, key: string): Result<Int64, JsonError> {
    if Missing(m, key) then Success(0)
    else
      var v := Get(m, key).value;
      if v.GoInt64? then Success(v.i)
      else if v.GoFloat? && ReadBack(v.f).Some? then Success(ReadBack(v.f).value)
      else Failure(WrongType(key))
  }

  /** A pointer to a struct, or the labels map: nil if missing or null. */
  function ReadObject(m: Object, key: string): Result<Option<Object>, JsonError> {
    if Missing(m, key) then Success(Option.None)
    else
      var v := Get(m, key).value;
      if v.GoMap? then Success(Some(v.m)) else Failure(WrongType(key))
  }

  function DecodeBasicAuth(m: Object): Result<BasicAuth, JsonError> {
    var u, p := ReadString(m, "username"), ReadString(m, "password");
    var ue, pe := ReadString(m, "usernameEnvVar"), ReadString(m, "passwordEnvVar");
    if u.Failure? then Failure(u.error)
    else if p.Failure? then Failure(p.error)
    else if ue.Failure? then Failure(ue.error)
    else if pe.Failure? then Failure(pe.error)
    else Success(BasicAuth(u.value, p.value, ue.value, pe.value))
  }

  function DecodeHook(m: Object): Result<ConfigHook, JsonError> {
    var s, t, o := ReadString(m, "script"), ReadInt(m, "timeout"), ReadString(m, "onError");
    var e, k := ReadBool(m, "enrichPod"), ReadBool(m, "skipOnPodNotFound");
    if s.Failure? then Failure(s.error)
    else if t.Failure? then Failure(t.error)
    else if o.Failure? then Failure(o.error)
    else if e.Failure? then Failure(e.error)
    else if k.Failure? then Failure(k.error)
    else Success(ConfigHook(s.value, t.value, o.value, e.value, k.value))
  }

  function DecodeLabels(m: Object): Result<map<string, string>, JsonError> {
    if forall k :: k in m ==> m[k].GoString? || m[k].GoNil?
    then Success(map k | k in m :: if m[k].GoString? then m[k].s else "")
    else Failure(WrongType("streamLabels"))
  }

  /** Decodes an optional struct. */
  function Optional<T>(o: Result<Option<Object>, JsonError>, decode: Object -> Result<T, JsonError>): Result<Option<T>, JsonError> {
    if o.Failure? then Failure(o.error)
    else if o.value.None? then Success(Option.None)
    else
      var r := decode(o.value.value);
      if r.Failure? then Failure(r.error) else Success(Some(r.value))
  }

  function DecodeTls(m: Object): Result<TlsConfig, JsonError> {
    var i := ReadBool(m, "insecureSkipVerify");
    if i.Failure? then Failure(i.error) else Success(TlsConfig(i.value))
  }

  /** json.Unmarshal into the struct; unknown keys are ignored. */
  function Decode(m: Object): Result<Config, JsonError> {
    var u, t, msg := ReadString(m, "url"), ReadString(m, "tenantID"), ReadString(m, "message");
    var a := Optional(ReadObject(m, "basicAuth"), DecodeBasicAuth);
    var s := Optional(ReadObject(m, "tlsConfig"), DecodeTls);
    var l := Optional(ReadObject(m, "streamLabels"), DecodeLabels);
    var h := Optional(ReadObject(m, "hook"), DecodeHook);
    if u.Failure? then Failure(u.error)
    else if t.Failure? then Failure(t.error)
    else if msg.Failure? then Failure(msg.error)
    else if a.Failure? then Failure(a.error)
    else if s.Failure? then Failure(s.error)
    else if l.Failure? then Failure(l.error)
    else if h.Failure? then Failure(h.error)
    else Success(Config(u.value, t.value, a.value, s.value, l.value, msg.value, h.value))
  }

  /** NaN and the infinities have no JSON text. */
  predicate HasJson(v: GoValue) {
    match v
    case GoFloat(f) => f.Finite?
    case GoMap(m) => forall k :: k in m ==> HasJson(m[k])
    case GoList(elems) => forall i :: 0 <= i < |elems| ==> HasJson(elems[i])
    case _ => true
  }

  lemma EncodedIsJsonShaped(cfg: Config)
    ensures JsonShaped(GoMap(Encode(cfg)))
  {
    hide Marshal;
    if cfg.basicAuth.Some? {
      MarshalShaped(AuthFields(cfg.basicAuth.value));
    }
    if cfg.tls.Some? {
      MarshalShaped(TlsFields(cfg.tls.value));
    }
    if cfg.hook.Some? {
      MarshalShaped(HookFields(cfg.hook.value));
    }
    MarshalShaped(ConfigFields(cfg));
  }

  lemma BasicAuthDecodes(a: BasicAuth)
    ensures DecodeBasicAuth(Marshal(AuthFields(a))) == Success(a)
  {
    hide Marshal, Get;
    var fields := AuthFields(a);
    MarshalGet(fields, 0);
    MarshalGet(fields, 1);
    MarshalGet(fields, 2);
    MarshalGet(fields, 3);
  }

  lemma TlsDecodes(t: TlsConfig)
    ensures DecodeTls(Marshal(TlsFields(t))) == Success(t)
  {
    hide Marshal, Get;
    MarshalGet(TlsFields(t), 0);
  }

  lemma LabelsDecode(labels: map<string, string>)
    ensures DecodeLabels(EncodeLabels(labels)) == Success(labels)
  {
    var m := EncodeLabels(labels);
    assert DecodeLabels(m).Success? && DecodeLabels(m).value == labels;
  }

  /** The hook's timeout survives JSON: all but the largest ones do. */
  predicate TimeoutSurvives(cfg: Config) {
    cfg.hook.Some? ==> Survives(cfg.hook.value.timeout)
  }

  /** The same settings, except that a timeout above 2^53 nanoseconds may be rounded. */
  predicate SameUpToRounding(a: Option<ConfigHook>, b: Option<ConfigHook>) {
    if a.None? then b.None?
    else
      b.Some? && b.value == a.value.(timeout := b.value.timeout) &&
      (-TWO_53 <= a.value.timeout <= TWO_53 ==> b == a)
  }

  lemma TimeoutReads(h: ConfigHook)
    ensures ReadInt(Marshal(HookFields(h)), "timeout").Success? <==> Survives(h.timeout)
    ensures -TWO_53 <= h.timeout <= TWO_53 ==> ReadInt(Marshal(HookFields(h)), "timeout") == Success(h.timeout)
  {
    hide Marshal, Get, ReadBack, NearestDouble;
    MarshalGet(HookFields(h), 1);
    ReadableIff(h.timeout);
    if -TWO_53 <= h.timeout <= TWO_53 {
      SmallSurvives(h.timeout);
    }
  }

  lemma HookDecodes(h: ConfigHook)
    ensures var r := DecodeHook(Marshal(HookFields(h)));
            && (r.Success? <==> Survives(h.timeout))
            && (r.Success? ==> SameUpToRounding(Some(h), Some(r.value)))
  {
    hide Marshal, Get, ReadInt;
    var fields := HookFields(h);
    MarshalGet(fields, 0);
    TimeoutReads(h);
    MarshalGet(fields, 2);
    MarshalGet(fields, 3);
    MarshalGet(fields, 4);
  }

  lemma ConfigKeysDistinct(cfg: Config)
    ensures DistinctKeys(ConfigFields(cfg))
  {
  }

  /** What the encoded config holds under each key. */
  lemma EncodedFields(cfg: Config)
    ensures var m, fields := Encode(cfg), ConfigFields(cfg);
            forall i :: 0 <= i < |fields| ==> Get(m, fields[i].key) == fields[i].value
  {
    hide ConfigFields, Marshal, Get, DistinctKeys;
    var fields := ConfigFields(cfg);
    ConfigKeysDistinct(cfg);
    forall i | 0 <= i < |fields| ensures Get(Encode(cfg), fields[i].key) == fields[i].value {
      MarshalGet(fields, i);
    }
  }

  lemma LabelsRead(cfg: Config, m: Object)
    requires Get(m, "streamLabels") == ConfigFields(cfg)[4].value
    ensures Optional(ReadObject(m, "streamLabels"), DecodeLabels) == Success(NilIfEmpty(cfg.streamLabels))
  {
    if cfg.streamLabels.Some? {
      LabelsDecode(cfg.streamLabels.value);
    }
  }

  lemma AuthRead(cfg: Config, m: Object)
    requires Get(m, "basicAuth") == ConfigFields(cfg)[2].value
    ensures Optional(ReadObject(m, "basicAuth"), DecodeBasicAuth) == Success(cfg.basicAuth)
  {
    if cfg.basicAuth.Some? {
      hide AuthFields, Marshal;
      BasicAuthDecodes(cfg.basicAuth.value);
    }
  }

  lemma TlsRead(cfg: Config, m: Object)
    requires Get(m, "tlsConfig") == ConfigFields(cfg)[3].value
    ensures Optional(ReadObject(m, "tlsConfig"), DecodeTls) == Success(cfg.tls)
  {
    if cfg.tls.Some? {
      hide TlsFields, Marshal;
      TlsDecodes(cfg.tls.value);
    }
  }

  lemma HookRead(cfg: Config, m: Object)
    requires Get(m, "hook") == ConfigFields(cfg)[6].value
    ensures var r := Optional(ReadObject(m, "hook"), DecodeHook);
            (r.Success? <==> TimeoutSurvives(cfg)) && (r.Success? ==> SameUpToRounding(cfg.hook, r.value))
  {
    if cfg.hook.Some? {
      hide HookFields, Marshal;
      HookDecodes(cfg.hook.value);
    }
  }

  /** omitempty drops an empty labels map, which decodes as nil. */
  function NilIfEmpty(labels: Option<map<string, string>>): Option<map<string, string>> {
    if labels == Some(map[]) then Option.None else labels
  }

  lemma StringsRead(cfg: Config, m: Object)
    requires var fields := ConfigFields(cfg);
             Get(m, "url") == fields[0].value && Get(m, "tenantID") == fields[1].value && Get(m, "message") == fields[5].value
    ensures ReadString(m, "url") == Success(cfg.url) && ReadString(m, "tenantID") == Success(cfg.tenantID)
    ensures ReadString(m, "message") == Success(cfg.message)
  {
  }

  /** The JSON round trip keeps every field up to the rounding of the hook's timeout, and fails only for the largest timeouts. */
  lemma JsonRoundTrip(cfg: Config)
    ensures var r := Decode(Encode(cfg));
            && (r.Success? <==> TimeoutSurvives(cfg))
            && (r.Success? ==> r.value == cfg.(streamLabels := NilIfEmpty(cfg.streamLabels), hook := r.value.hook) &&
                               SameUpToRounding(cfg.hook, r.value.hook))
  {
    hide Encode, Get, ReadString, ReadObject, Optional, DecodeHook, DecodeTls, DecodeBasicAuth, DecodeLabels;
    hide TimeoutSurvives, SameUpToRounding;
    var m, fields := Encode(cfg), ConfigFields(cfg);
    EncodedFields(cfg);
    assert forall i {:trigger fields[i]} :: 0 <= i < |fields| ==> Get(m, fields[i].key) == fields[i].value;
    assert Get(m, fields[0].key) == fields[0].value && Get(m, fields[1].key) == fields[1].value;
    assert Get(m, fields[2].key) == fields[2].value && Get(m, fields[3].key) == fields[3].value;
    assert Get(m, fields[4].key) == fields[4].value && Get(m, fields[5].key) == fields[5].value;
    assert Get(m, fields[6].key) == fields[6].value;
    StringsRead(cfg, m);
    AuthRead(cfg, m);
    TlsRead(cfg, m);
    LabelsRead(cfg, m);
    HookRead(cfg, m);
  }

  predicate TextAt(m: Object, key: string, s: string) {
    Get(m, key) == if s == "" then Option.None else Some(GoString(s))
  }

  predicate FlagAt(m: Object, key: string, b: bool) {
    Get(m, key) == if b then Some(GoBool(true)) else Option.None
  }

  predicate StructAt(m: Object, key: string) {
    key in m && m[key].GoMap?
  }

  lemma AuthUnderNames(a: BasicAuth)
    ensures var m := Marshal(AuthFields(a));
            && TextAt(m, "username", a.username) && TextAt(m, "password", a.password)
            && TextAt(m, "usernameEnvVar", a.usernameEnvVar) && TextAt(m, "passwordEnvVar", a.passwordEnvVar)
  {
    hide Marshal, Get;
    MarshalGet(AuthFields(a), 0);
    MarshalGet(AuthFields(a), 1);
    MarshalGet(AuthFields(a), 2);
    MarshalGet(AuthFields(a), 3);
  }

  lemma HookUnderNames(h: ConfigHook)
    ensures var m := Marshal(HookFields(h));
            && Get(m, "script") == Some(GoString(h.script)) && TextAt(m, "onError", h.onError)
            && Get(m, "timeout") == (if h.timeout == 0 then Option.None else Some(GoFloat(NearestDouble(h.timeout))))
            && FlagAt(m, "enrichPod", h.enrichPod) && FlagAt(m, "skipOnPodNotFound", h.skipOnPodNotFound)
  {
    hide Marshal, Get, NearestDouble;
    MarshalGet(HookFields(h), 0);
    MarshalGet(HookFields(h), 1);
    MarshalGet(HookFields(h), 2);
    MarshalGet(HookFields(h), 3);
    MarshalGet(HookFields(h), 4);
  }

  /** The names under which a script finds the settings. */
  lemma SettingsUnderNames(cfg: Config)
    ensures var m := Encode(cfg);
            && Get(m, "url") == Some(GoString(cfg.url)) && TextAt(m, "tenantID", cfg.tenantID) && TextAt(m, "message", cfg.message)
            && (if cfg.basicAuth.None? then "basicAuth" !in m
                else StructAt(m, "basicAuth") && m["basicAuth"].m == Marshal(AuthFields(cfg.basicAuth.value)))
            && (if cfg.tls.None? then "tlsConfig" !in m
                else StructAt(m, "tlsConfig") && FlagAt(m["tlsConfig"].m, "insecureSkipVerify", cfg.tls.value.insecureSkipVerify))
            && (if cfg.hook.None? then "hook" !in m
                else StructAt(m, "hook") && m["hook"].m == Marshal(HookFields(cfg.hook.value)))
            && (if cfg.streamLabels.None? || cfg.streamLabels.value == map[] then "streamLabels" !in m
                else StructAt(m, "streamLabels") && m["streamLabels"].m.Keys == cfg.streamLabels.value.Keys &&
                     forall k :: k in cfg.streamLabels.value ==> m["streamLabels"].m[k] == GoString(cfg.streamLabels.value[k]))
  {
    hide Encode, Marshal;
    var m, fields := Encode(cfg), ConfigFields(cfg);
    EncodedFields(cfg);
    assert Get(m, fields[0].key) == fields[0].value && Get(m, fields[1].key) == fields[1].value;
    assert Get(m, fields[2].key) == fields[2].value && Get(m, fields[3].key) == fields[3].value;
    assert Get(m, fields[4].key) == fields[4].value && Get(m, fields[5].key) == fields[5].value;
    assert Get(m, fields[6].key) == fields[6].value;
    if cfg.tls.Some? {
      MarshalGet(TlsFields(cfg.tls.value), 0);
    }
  }

  const KNOWN_KEYS := {"url", "tenantID", "basicAuth", "tlsConfig", "streamLabels", "message", "hook"}

  /** Decoding looks at these keys only, and null is as good as nothing. */
  lemma DecodeReads(m: Object, m': Object)
    requires forall key :: key in KNOWN_KEYS ==> Get(m, key) == Get(m', key) || (Missing(m, key) && Missing(m', key))
    ensures Decode(m) == Decode(m')
  {
    hide DecodeBasicAuth, DecodeTls, DecodeLabels, DecodeHook;
    assert "url" in KNOWN_KEYS && "tenantID" in KNOWN_KEYS && "message" in KNOWN_KEYS && "basicAuth" in KNOWN_KEYS;
    assert "tlsConfig" in KNOWN_KEYS && "streamLabels" in KNOWN_KEYS && "hook" in KNOWN_KEYS;
    assert forall key :: key in KNOWN_KEYS ==> ReadString(m, key) == ReadString(m', key) && ReadObject(m, key) == ReadObject(m', key);
  }

  /** A text setting is the text under its name, or empty; anything else than a text or null is an error. */
  predicate TextFrom(m: Object, key: string, s: string) {
    if key in m && m[key].GoString? then s == m[key].s else s == "" && (key !in m || m[key].GoNil?)
  }

  predicate LabelsFrom(m: Object, labels: Option<map<string, string>>) {
    if labels.None? then "streamLabels" !in m || m["streamLabels"].GoNil?
    else
      StructAt(m, "streamLabels") && labels.value.Keys == m["streamLabels"].m.Keys &&
      forall k :: k in labels.value ==> TextFrom(m["streamLabels"].m, k, labels.value[k])
  }

  /** What a script wrote under these names is what is used. */
  lemma DecodedFrom(m: Object)
    ensures Decode(m).Success? ==>
              var cfg := Decode(m).value;
              && TextFrom(m, "url", cfg.url) && TextFrom(m, "tenantID", cfg.tenantID) && TextFrom(m, "message", cfg.message)
              && LabelsFrom(m, cfg.streamLabels)
              && (cfg.basicAuth.Some? <==> StructAt(m, "basicAuth"))
              && (cfg.basicAuth.Some? ==>
                    var o := m["basicAuth"].m;
                    TextFrom(o, "username", cfg.basicAuth.value.username) && TextFrom(o, "password", cfg.basicAuth.value.password))
  {
    hide DecodeHook, DecodeTls;
  }
}
