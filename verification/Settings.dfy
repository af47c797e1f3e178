/**
 The typed settings schema: validation of an arbitrary JSON-like value, and the dictionary a `Settings`
 is written to.  `None` stands for the one exception type every rejection raises.
 */
module SettingsSchema {
  import opened Wrappers
  import opened Text

  datatype Key = Name(text: string) | NotText(tag: int)

  /** What a parsed settings file can hold; `Other` is a float or a list. */
  datatype Value = Null | Bool(flag: bool) | Int(number: int) | Str(text: string) | Obj(fields: map<Key, Value>) | Other

  type Object = map<Key, Value>

  datatype ModelRoles = ModelRoles(
    chat: string, planning: string, code: string, vision: string, embeddings: string, stt: string, tts: string)

  datatype LocalProvider = LocalProvider(enabled: bool, baseUrl: string)

  datatype Preferred = Preferred(chat: string, planning: string, code: string, utility: string)

  datatype ModelOverride = ModelOverride(
    toolCalling: Option<bool>, structuredOutput: Option<bool>, vision: Option<bool>, contextLength: Option<int>)

  datatype ProviderBaseURL = ProviderBaseURL(baseUrl: string, remoteEnabled: bool)

  datatype LocalModels = LocalModels(
    defaultProvider: string, ollama: LocalProvider, llamaCpp: LocalProvider, preferred: Preferred,
    overrides: map<string, ModelOverride>)

  datatype Settings = Settings(
    privacyProfile: string, providerId: string, modelId: string, language: string, networkMode: string,
    routingMode: string, modelRoles: ModelRoles, localModels: LocalModels,
    providerSettings: map<string, ProviderBaseURL>, osSystem: Option<string>, cameraIndex: Option<int>,
    voiceSttEngine: string, voiceTtsEngine: string, voiceMicDevice: Option<string>, voiceSpeakerDevice: Option<string>)

  const PRIVACY_PROFILES := {"fully_local", "local_with_tools", "cloud", "hybrid"}
  const PROVIDER_IDS := {"gemini", "openai", "openrouter", "local", "ollama", "llama_cpp", "openai_compat"}
  const LOCAL_PROVIDER_IDS := {"local", "ollama", "llama_cpp"}
  const NETWORK_MODES := {"offline", "tools_only", "hybrid"}
  const ROUTING_MODES := {"manual", "local_first", "local_only", "cloud_first"}
  const OS_SYSTEMS := {"windows", "mac", "linux"}
  const MODEL_ROLE_KEYS := {"chat", "planning", "code", "vision", "embeddings", "stt", "tts"}
  const PREFERRED_KEYS := {"chat", "planning", "code", "utility"}
  const LOCAL_MODELS_KEYS := {"default_provider", "ollama", "llama_cpp", "preferred", "overrides"}
  const OVERRIDE_KEYS := {"tool_calling", "structured_output", "vision", "context_length"}
  const SECRET_MARKERS := {"api_key", "token", "secret", "password"}
  const OLLAMA_BASE_URL := "http://127.0.0.1:11434"
  const LLAMA_CPP_BASE_URL := "http://127.0.0.1:8080"
  const STT_ENGINE := "faster_whisper"
  const TTS_ENGINE := "piper"

  const NO_ROLES := ModelRoles("", "", "", "", "", "", "")
  const NO_LOCAL_MODELS := LocalModels("ollama", LocalProvider(true, OLLAMA_BASE_URL), LocalProvider(true, LLAMA_CPP_BASE_URL),
    Preferred("", "", "", ""), map[])

  /**
   str.lower, as far as ASCII results go: besides the capitals only the Kelvin sign becomes an ASCII
   letter.  (A dotted capital I becomes `i` and a combining dot, so it never completes a marker or a
   system name either.)
   */
  function LowerChar(c: char): char {
    if 'A' <= c <= 'Z' then c - 'A' + 'a' else if c == '\U{212A}' then 'k' else c
  }

  function Lower(s: string): (r: string)
    ensures |r| == |s| && forall i :: 0 <= i < |s| ==> r[i] == LowerChar(s[i])
  {
    seq(|s|, i requires 0 <= i < |s| => LowerChar(s[i]))
  }

  predicate OccursAt(marker: string, s: string, i: int) {
    0 <= i <= |s| - |marker| && s[i..i + |marker|] == marker
  }

  predicate IsSecretField(name: string) {
    exists marker, i :: marker in SECRET_MARKERS && 0 <= i <= |name| && OccursAt(marker, Lower(name), i)
  }

  // ---- validation ---------------------------------------------------------

  function Get(data: Object, name: string): Option<Value> {
    if Name(name) in data then Some(data[Name(name)]) else None
  }

  function OptionalEnum(data: Object, name: string, allowed: set<string>, fallback: string): Option<string> {
    match Get(data, name)
    case None => Some(fallback)
    case Some(Str(t)) => if t in allowed then Some(t) else None
    case Some(_) => None
  }

  function OptionalStr(data: Object, name: string, fallback: string): Option<string> {
    match Get(data, name)
    case None => Some(fallback)
    case Some(Null) => Some(fallback)
    case Some(Str(t)) => Some(t)
    case Some(_) => None
  }

  function OptionalNonEmptyStr(data: Object, name: string, fallback: string): Option<string> {
    match Get(data, name)
    case None => Some(fallback)
    case Some(Str(t)) => if IsBlank(t) then None else Some(t)
    case Some(_) => None
  }

  function OptionalBool(data: Object, name: string, fallback: bool): Option<bool> {
    match Get(data, name)
    case None => Some(fallback)
    case Some(Bool(b)) => Some(b)
    case Some(_) => None
  }

  function OptionalNonNegativeInt(data: Object, name: string): Option<Option<int>> {
    match Get(data, name)
    case None => Some(None)
    case Some(Null) => Some(None)
    case Some(Int(n)) => if n < 0 then None else Some(Some(n))
    case Some(_) => None
  }

  function OptionalOsOverlay(data: Object): Option<Option<string>> {
    match Get(data, "os_system")
    case None => Some(None)
    case Some(Null) => Some(None)
    case Some(Str(t)) => if Lower(t) in OS_SYSTEMS then Some(Some(Lower(t))) else None
    case Some(_) => None
  }

  /** `_reject_unknown_or_secret_keys` lets the mapping through. */
  predicate KnownPlainKeys(data: Object, allowed: set<string>) {
    forall k :: k in data ==> k.Name? && !IsSecretField(k.text) && k.text in allowed
  }

  function TextAt(data: Object, name: string): string {
    match Get(data, name)
    case Some(Str(t)) => t
    case _ => ""
  }

  predicate AllText(data: Object) {
    forall k :: k in data ==> data[k].Str?
  }

  function ValidateModelRoles(value: Value): Option<ModelRoles> {
    match value
    case Null => Some(NO_ROLES)
    case Obj(m) =>
      if KnownPlainKeys(m, MODEL_ROLE_KEYS) && AllText(m) then
        Some(ModelRoles(TextAt(m, "chat"), TextAt(m, "planning"), TextAt(m, "code"), TextAt(m, "vision"),
                        TextAt(m, "embeddings"), TextAt(m, "stt"), TextAt(m, "tts")))
      else None
    case _ => None
  }

  function ValidateLocalProvider(value: Value, defaultUrl: string): Option<LocalProvider> {
    match value
    case Obj(m) =>
      if KnownPlainKeys(m, {"enabled", "base_url"}) then
        var enabled :- OptionalBool(m, "enabled", true);
        var url :- OptionalNonEmptyStr(m, "base_url", defaultUrl);
        Some(LocalProvider(enabled, url))
      else None
    case _ => None
  }

  function ValidatePreferred(value: Value): Option<Preferred> {
    match value
    case Obj(m) =>
      if KnownPlainKeys(m, PREFERRED_KEYS) && AllText(m) then
        Some(Preferred(TextAt(m, "chat"), TextAt(m, "planning"), TextAt(m, "code"), TextAt(m, "utility")))
      else None
    case _ => None
  }

  function Capability(m: Object, name: string): Option<Option<bool>> {
    match Get(m, name)
    case None => Some(None)
    case Some(Bool(b)) => Some(Some(b))
    case Some(_) => None
  }

  function ContextLength(m: Object): Option<Option<int>> {
    match Get(m, "context_length")
    case None => Some(None)
    case Some(Int(n)) => if n <= 0 then None else Some(Some(n))
    case Some(_) => None
  }

  /** One entry of the override map: an acceptable model id with acceptable capability facts. */
  function ValidateOverride(id: Key, raw: Value): Option<ModelOverride> {
    if !id.Name? || IsBlank(id.text) || IsSecretField(id.text) then None
    else match raw
      case Obj(m) =>
        if KnownPlainKeys(m, OVERRIDE_KEYS) then
          var tools :- Capability(m, "tool_calling");
          var structured :- Capability(m, "structured_output");
          var vision :- Capability(m, "vision");
          var context :- ContextLength(m);
          Some(ModelOverride(tools, structured, vision, context))
        else None
      case _ => None
  }

  function Names(m: Object): (r: set<string>)
    ensures forall t :: t in r <==> Name(t) in m
  {
    set k | k in m && k.Name? :: k.text
  }

  function ValidateOverrides(value: Value): Option<map<string, ModelOverride>> {
    match value
    case Obj(m) =>
      if forall k :: k in m ==> ValidateOverride(k, m[k]).Some? then
        Some(map t | t in Names(m) :: ValidateOverride(Name(t), m[Name(t)]).value)
      else None
    case _ => None
  }

  function ValidateProvider(id: Key, raw: Value): Option<ProviderBaseURL> {
    if !id.Name? || id.text !in PROVIDER_IDS then None
    else match raw
      case Obj(m) =>
        if KnownPlainKeys(m, {"base_url", "remote_enabled"}) then
          var url :- OptionalStr(m, "base_url", "");
          var remote :- OptionalBool(m, "remote_enabled", false);
          Some(ProviderBaseURL(url, remote))
        else None
      case _ => None
  }

  function ValidateProviders(value: Value): Option<map<string, ProviderBaseURL>> {
    match value
    case Null => Some(map[])
    case Obj(m) =>
      if forall k :: k in m ==> ValidateProvider(k, m[k]).Some? then
        Some(map t | t in Names(m) :: ValidateProvider(Name(t), m[Name(t)]).value)
      else None
    case _ => None
  }

  function GetOr(m: Object, name: string, fallback: Value): Value {
    if Name(name) in m then m[Name(name)] else fallback
  }

  function ValidateLocalModels(value: Value): Option<LocalModels> {
    match value
    case Null => Some(NO_LOCAL_MODELS)
    case Obj(m) =>
      if KnownPlainKeys(m, LOCAL_MODELS_KEYS) then
        var provider :- OptionalEnum(m, "default_provider", LOCAL_PROVIDER_IDS, "ollama");
        var ollama :- ValidateLocalProvider(GetOr(m, "ollama", Obj(map[])), OLLAMA_BASE_URL);
        var llamaCpp :- ValidateLocalProvider(GetOr(m, "llama_cpp", Obj(map[])), LLAMA_CPP_BASE_URL);
        var preferred :- ValidatePreferred(GetOr(m, "preferred", Obj(map[])));
        var overrides :- ValidateOverrides(GetOr(m, "overrides", Obj(map[])));
        Some(LocalModels(provider, ollama, llamaCpp, preferred, overrides))
      else None
    case _ => None
  }

  predicate PlainKeys(data: Object) {
    forall k :: k in data ==> k.Name? && !IsSecretField(k.text)
  }

  function ValidateSettings(data: Value): Option<Settings> {
    match data
    case Obj(m) =>
      if PlainKeys(m) then
        var privacy :- OptionalEnum(m, "privacy_profile", PRIVACY_PROFILES, "hybrid");
        var provider :- OptionalEnum(m, "provider_id", PROVIDER_IDS, "gemini");
        var model :- OptionalStr(m, "model_id", "");
        var language :- OptionalNonEmptyStr(m, "language", "ru");
        var network :- OptionalEnum(m, "network_mode", NETWORK_MODES, "hybrid");
        var routing :- OptionalEnum(m, "routing_mode", ROUTING_MODES, "manual");
        var roles :- ValidateModelRoles(GetOr(m, "model_roles", Obj(map[])));
        var local :- ValidateLocalModels(GetOr(m, "local_models", Obj(map[])));
        var providers :- ValidateProviders(GetOr(m, "provider_settings", Null));
        var os :- OptionalOsOverlay(m);
        var camera :- OptionalNonNegativeInt(m, "camera_index");
        Some(Settings(privacy, provider, model, language, network, routing, roles, local, providers, os, camera,
                      STT_ENGINE, TTS_ENGINE, None, None))
      else None
    case _ => None
  }

  // ---- writing back -------------------------------------------------------

  /** The optional entry of a dictionary under construction. */
  function Entry(name: string, value: Option<Value>): Object {
    if value.Some? then map[Name(name) := value.value] else map[]
  }

  function OfBool(b: Option<bool>): Option<Value> { if b.Some? then Some(Bool(b.value)) else None }

  function OfInt(n: Option<int>): Option<Value> { if n.Some? then Some(Int(n.value)) else None }

  function OfStr(t: Option<string>): Option<Value> { if t.Some? then Some(Str(t.value)) else None }

  function RolesDict(r: ModelRoles): Object {
    map[Name("chat") := Str(r.chat), Name("planning") := Str(r.planning), Name("code") := Str(r.code),
        Name("vision") := Str(r.vision), Name("embeddings") := Str(r.embeddings), Name("stt") := Str(r.stt),
        Name("tts") := Str(r.tts)]
  }

  function LocalProviderDict(p: LocalProvider): Object {
    map[Name("enabled") := Bool(p.enabled), Name("base_url") := Str(p.baseUrl)]
  }

  function PreferredDict(p: Preferred): Object {
    map[Name("chat") := Str(p.chat), Name("planning") := Str(p.planning), Name("code") := Str(p.code),
        Name("utility") := Str(p.utility)]
  }

  function OverrideDict(o: ModelOverride): Object {
    Entry("tool_calling", OfBool(o.toolCalling)) + Entry("structured_output", OfBool(o.structuredOutput))
    + Entry("vision", OfBool(o.vision)) + Entry("context_length", OfInt(o.contextLength))
  }

  function OverridesDict(os: map<string, ModelOverride>): Object {
    map id | id in os :: Name(id) := Obj(OverrideDict(os[id]))
  }

  function ProviderDict(p: ProviderBaseURL): Object {
    map[Name("base_url") := Str(p.baseUrl), Name("remote_enabled") := Bool(p.remoteEnabled)]
  }

  function ProvidersDict(ps: map<string, ProviderBaseURL>): Object {
    map id | id in ps :: Name(id) := Obj(ProviderDict(ps[id]))
  }

  function LocalModelsDict(l: LocalModels): Object {
    map[Name("default_provider") := Str(l.defaultProvider), Name("ollama") := Obj(LocalProviderDict(l.ollama)),
        Name("llama_cpp") := Obj(LocalProviderDict(l.llamaCpp)), Name("preferred") := Obj(PreferredDict(l.preferred)),
        Name("overrides") := Obj(OverridesDict(l.overrides))]
  }

  /** The nine entries every settings dictionary has. */
  function FixedDict(s: Settings): Object {
    map[Name("privacy_profile") := Str(s.privacyProfile), Name("provider_id") := Str(s.providerId),
        Name("model_id") := Str(s.modelId), Name("language") := Str(s.language),
        Name("network_mode") := Str(s.networkMode), Name("routing_mode") := Str(s.routingMode),
        Name("model_roles") := Obj(RolesDict(s.modelRoles)), Name("local_models") := Obj(LocalModelsDict(s.localModels)),
        Name("provider_settings") := Obj(ProvidersDict(s.providerSettings))]
  }

  /** A field that is written only when it differs from its default. */
  function Unless(text: string, fallback: string): Option<Value> {
    if text != fallback then Some(Str(text)) else None
  }

  function ToDict(s: Settings): Object {
    FixedDict(s)
    + Entry("os_system", OfStr(s.osSystem)) + Entry("camera_index", OfInt(s.cameraIndex))
    + Entry("voice_stt_engine", Unless(s.voiceSttEngine, STT_ENGINE))
    + Entry("voice_tts_engine", Unless(s.voiceTtsEngine, TTS_ENGINE))
    + Entry("voice_mic_device", OfStr(s.voiceMicDevice)) + Entry("voice_speaker_device", OfStr(s.voiceSpeakerDevice))
  }

  // ---- the loops of the source --------------------------------------------

  /** `_validate_model_roles`: fills the keyword arguments one role at a time. */
  method ReadModelRoles(value: Value) returns (r: Option<ModelRoles>)
    ensures r == ValidateModelRoles(value)
  {
    if value.Null? { return Some(NO_ROLES); }
    if !value.Obj? { return None; }
    hide IsSecretField;
    var kwargs: Object, todo := map[], value.fields.Keys;
    while todo != {}
      invariant todo <= value.fields.Keys
      invariant kwargs == map k | k in value.fields && k !in todo :: value.fields[k]
      invariant KnownPlainKeys(kwargs, MODEL_ROLE_KEYS) && AllText(kwargs)
    {
      var key :| key in todo;
      var role := value.fields[key];
      if !key.Name? || IsSecretField(key.text) || key.text !in MODEL_ROLE_KEYS || !role.Str? { return None; }
      kwargs, todo := kwargs[key := role], todo - {key};
    }
    assert kwargs == value.fields;
    r := Some(ModelRoles(TextAt(kwargs, "chat"), TextAt(kwargs, "planning"), TextAt(kwargs, "code"),
                         TextAt(kwargs, "vision"), TextAt(kwargs, "embeddings"), TextAt(kwargs, "stt"),
                         TextAt(kwargs, "tts")));
  }

  /** `_validate_preferred_models`: key checks first, then one role at a time. */
  method ReadPreferred(value: Value) returns (r: Option<Preferred>)
    ensures r == ValidatePreferred(value)
  {
    if !value.Obj? || !KnownPlainKeys(value.fields, PREFERRED_KEYS) { return None; }
    hide IsSecretField;
    var kwargs: Object, todo := map[], value.fields.Keys;
    while todo != {}
      invariant todo <= value.fields.Keys
      invariant kwargs == map k | k in value.fields && k !in todo :: value.fields[k]
      invariant AllText(kwargs)
    {
      var role :| role in todo;
      if !value.fields[role].Str? { return None; }
      kwargs, todo := kwargs[role := value.fields[role]], todo - {role};
    }
    assert kwargs == value.fields;
    r := Some(Preferred(TextAt(kwargs, "chat"), TextAt(kwargs, "planning"), TextAt(kwargs, "code"),
                        TextAt(kwargs, "utility")));
  }

  /** `_validate_model_overrides`: every entry is checked before it is stored. */
  method ReadOverrides(value: Value) returns (r: Option<map<string, ModelOverride>>)
    ensures r == ValidateOverrides(value)
  {
    if !value.Obj? { return None; }
    hide ValidateOverride, OverridesRead;
    var result: map<string, ModelOverride>, todo := map[], value.fields.Keys;
    while todo != {}
      invariant todo <= value.fields.Keys
      invariant OverridesRead(value.fields, todo, result)
    {
      var id :| id in todo;
      var entry := ValidateOverride(id, value.fields[id]);
      if entry.None? { return None; }
      ReadOverride(value.fields, todo, result, id);
      result, todo := result[id.text := entry.value], todo - {id};
    }
    AllOverridesRead(value.fields, result);
    r := Some(result);
  }

  /** Every key outside `todo` was accepted, and `result` holds exactly those. */
  ghost predicate OverridesRead(m: Object, todo: set<Key>, result: map<string, ModelOverride>) {
    && (forall k :: k in m && k !in todo ==> k.Name? && k.text in result && ValidateOverride(k, m[k]) == Some(result[k.text]))
    && forall t :: t in result ==> Name(t) in m && Name(t) !in todo
  }

  lemma ReadOverride(m: Object, todo: set<Key>, result: map<string, ModelOverride>, id: Key)
    requires todo <= m.Keys && id in todo && OverridesRead(m, todo, result)
    requires ValidateOverride(id, m[id]).Some?
    ensures id.Name? && OverridesRead(m, todo - {id}, result[id.text := ValidateOverride(id, m[id]).value])
  {
    OverrideIsNamed(id, m[id]);
    hide ValidateOverride;
  }

  lemma AllOverridesRead(m: Object, result: map<string, ModelOverride>)
    requires OverridesRead(m, {}, result)
    ensures ValidateOverrides(Obj(m)) == Some(result)
  {
    hide ValidateOverride;
    forall t | t in Names(m)
      ensures t in result && ValidateOverride(Name(t), m[Name(t)]) == Some(result[t])
    {
      assert Name(t).text in result;
    }
    assert result == map t | t in Names(m) :: ValidateOverride(Name(t), m[Name(t)]).value;
  }

  lemma OverrideIsNamed(id: Key, raw: Value)
    ensures ValidateOverride(id, raw).Some? ==> id.Name?
  {
  }

  /** `_validate_provider_settings`: every entry is checked before it is stored. */
  method ReadProviders(value: Value) returns (r: Option<map<string, ProviderBaseURL>>)
    ensures r == ValidateProviders(value)
  {
    if value.Null? { return Some(map[]); }
    if !value.Obj? { return None; }
    hide ValidateProvider, ProvidersRead;
    var result: map<string, ProviderBaseURL>, todo := map[], value.fields.Keys;
    while todo != {}
      invariant todo <= value.fields.Keys
      invariant ProvidersRead(value.fields, todo, result)
    {
      var id :| id in todo;
      var entry := ValidateProvider(id, value.fields[id]);
      if entry.None? { return None; }
      ReadProvider(value.fields, todo, result, id);
      result, todo := result[id.text := entry.value], todo - {id};
    }
    AllProvidersRead(value.fields, result);
    r := Some(result);
  }

  /** Every key outside `todo` was accepted, and `result` holds exactly those. */
  ghost predicate ProvidersRead(m: Object, todo: set<Key>, result: map<string, ProviderBaseURL>) {
    && (forall k :: k in m && k !in todo ==> k.Name? && k.text in result && ValidateProvider(k, m[k]) == Some(result[k.text]))
    && forall t :: t in result ==> Name(t) in m && Name(t) !in todo
  }

  lemma ReadProvider(m: Object, todo: set<Key>, result: map<string, ProviderBaseURL>, id: Key)
    requires todo <= m.Keys && id in todo && ProvidersRead(m, todo, result)
    requires ValidateProvider(id, m[id]).Some?
    ensures id.Name? && ProvidersRead(m, todo - {id}, result[id.text := ValidateProvider(id, m[id]).value])
  {
    ProviderIsNamed(id, m[id]);
    hide ValidateProvider;
  }

  lemma AllProvidersRead(m: Object, result: map<string, ProviderBaseURL>)
    requires ProvidersRead(m, {}, result)
    ensures ValidateProviders(Obj(m)) == Some(result)
  {
    hide ValidateProvider;
    forall t | t in Names(m)
      ensures t in result && ValidateProvider(Name(t), m[Name(t)]) == Some(result[t])
    {
      assert Name(t).text in result;
    }
    assert result == map t | t in Names(m) :: ValidateProvider(Name(t), m[Name(t)]).value;
  }

  lemma ProviderIsNamed(id: Key, raw: Value)
    ensures ValidateProvider(id, raw).Some? ==> id.Name?
  {
  }

  /** `Settings.to_dict`: nine fixed entries, then one optional entry at a time. */
  method WriteSettings(s: Settings) returns (payload: Object)
    ensures payload == ToDict(s)
  {
    hide FixedDict, Entry;
    payload := FixedDict(s);
    PutEntry(payload, "os_system", OfStr(s.osSystem));
    if s.osSystem.Some? { payload := payload[Name("os_system") := Str(s.osSystem.value)]; }
    PutEntry(payload, "camera_index", OfInt(s.cameraIndex));
    if s.cameraIndex.Some? { payload := payload[Name("camera_index") := Int(s.cameraIndex.value)]; }
    PutEntry(payload, "voice_stt_engine", Unless(s.voiceSttEngine, STT_ENGINE));
    if s.voiceSttEngine != STT_ENGINE { payload := payload[Name("voice_stt_engine") := Str(s.voiceSttEngine)]; }
    PutEntry(payload, "voice_tts_engine", Unless(s.voiceTtsEngine, TTS_ENGINE));
    if s.voiceTtsEngine != TTS_ENGINE { payload := payload[Name("voice_tts_engine") := Str(s.voiceTtsEngine)]; }
    PutEntry(payload, "voice_mic_device", OfStr(s.voiceMicDevice));
    if s.voiceMicDevice.Some? { payload := payload[Name("voice_mic_device") := Str(s.voiceMicDevice.value)]; }
    PutEntry(payload, "voice_speaker_device", OfStr(s.voiceSpeakerDevice));
    if s.voiceSpeakerDevice.Some? {
      payload := payload[Name("voice_speaker_device") := Str(s.voiceSpeakerDevice.value)];
    }
  }

  lemma PutEntry(m: Object, name: string, value: Option<Value>)
    ensures m + Entry(name, value) == if value.Some? then m[Name(name) := value.value] else m
  {
  }

  // ---- the names the writer uses ------------------------------------------

  /** Two adjacent characters, lower-cased, that every secret marker holds one pair of. */
  predicate Telltale(a: char, b: char) {
    var c, d := LowerChar(a), LowerChar(b);
    || (c == '_' && d == 'k') || (c == 'o' && d == 'k') || (c == 'c' && d == 'r') || (c == 's' && d == 'w')
  }

  lemma SecretHasTelltale(s: string) returns (j: nat)
    requires IsSecretField(s)
    ensures j < |s| - 1 && Telltale(s[j], s[j + 1])
  {
    var m, i :| m in SECRET_MARKERS && 0 <= i <= |s| && OccursAt(m, Lower(s), i);
    assert forall k :: 0 <= k < |m| ==> m[k] == Lower(s)[i + k];
    j := i + if m == "token" then 1 else if m == "secret" then 2 else 3;
    assert m[j - i] == LowerChar(s[j]) && m[j - i + 1] == LowerChar(s[j + 1]);
  }

  lemma NoTelltale(s: string)
    requires forall i :: 0 <= i < |s| - 1 ==> !Telltale(s[i], s[i + 1])
    ensures !IsSecretField(s)
  {
    if IsSecretField(s) { var j := SecretHasTelltale(s); }
  }

  lemma FixedNamesArePlain()
    ensures !IsSecretField("privacy_profile") && !IsSecretField("provider_id") && !IsSecretField("model_id")
    ensures !IsSecretField("language") && !IsSecretField("network_mode") && !IsSecretField("routing_mode")
  {
    hide IsSecretField;
    NoTelltale("privacy_profile"); NoTelltale("provider_id"); NoTelltale("model_id");
    NoTelltale("language"); NoTelltale("network_mode"); NoTelltale("routing_mode");
  }

  lemma ObjectNamesArePlain()
    ensures !IsSecretField("model_roles") && !IsSecretField("local_models") && !IsSecretField("provider_settings")
    ensures !IsSecretField("os_system") && !IsSecretField("camera_index")
  {
    hide IsSecretField;
    NoTelltale("model_roles"); NoTelltale("local_models"); NoTelltale("provider_settings");
    NoTelltale("os_system"); NoTelltale("camera_index");
  }

  lemma VoiceNamesArePlain()
    ensures !IsSecretField("voice_stt_engine") && !IsSecretField("voice_tts_engine")
    ensures !IsSecretField("voice_mic_device") && !IsSecretField("voice_speaker_device")
  {
    hide IsSecretField;
    NoTelltale("voice_stt_engine"); NoTelltale("voice_tts_engine");
    NoTelltale("voice_mic_device"); NoTelltale("voice_speaker_device");
  }

  lemma RolesArePlain()
    ensures forall t :: t in MODEL_ROLE_KEYS + PREFERRED_KEYS ==> !IsSecretField(t)
  {
    hide IsSecretField;
    NoTelltale("chat"); NoTelltale("planning"); NoTelltale("code"); NoTelltale("vision");
    NoTelltale("embeddings"); NoTelltale("stt"); NoTelltale("tts"); NoTelltale("utility");
  }

  lemma LocalNamesArePlain()
    ensures forall t :: t in LOCAL_MODELS_KEYS ==> !IsSecretField(t)
    ensures !IsSecretField("enabled") && !IsSecretField("base_url") && !IsSecretField("remote_enabled")
  {
    hide IsSecretField;
    NoTelltale("default_provider"); NoTelltale("ollama"); NoTelltale("llama_cpp");
    NoTelltale("preferred"); NoTelltale("overrides");
    NoTelltale("enabled"); NoTelltale("base_url"); NoTelltale("remote_enabled");
  }

  lemma CapabilitiesArePlain()
    ensures forall t :: t in OVERRIDE_KEYS ==> !IsSecretField(t)
  {
    hide IsSecretField;
    NoTelltale("tool_calling"); NoTelltale("structured_output"); NoTelltale("vision"); NoTelltale("context_length");
  }

  lemma ProvidersArePlain()
    ensures forall t :: t in PROVIDER_IDS ==> !IsSecretField(t)
  {
    hide IsSecretField;
    NoTelltale("gemini"); NoTelltale("openai"); NoTelltale("openrouter"); NoTelltale("local");
    NoTelltale("ollama"); NoTelltale("llama_cpp"); NoTelltale("openai_compat");
  }
}
