/** What is written is read back: `validate_settings` against `to_dict`. */
module SettingsRoundTrip {
  import opened Wrappers
  import opened Text
  import opened SettingsSchema

  predicate LocalModelsStorable(l: LocalModels) {
    && l.defaultProvider in LOCAL_PROVIDER_IDS && !IsBlank(l.ollama.baseUrl) && !IsBlank(l.llamaCpp.baseUrl)
    && forall id :: id in l.overrides ==> OverrideStorable(id, l.overrides[id])
  }

  predicate OverrideStorable(id: string, o: ModelOverride) {
    !IsBlank(id) && !IsSecretField(id) && (o.contextLength.Some? ==> o.contextLength.value > 0)
  }

  /** The constraints on a `Settings` that its field types do not already express. */
  predicate Storable(s: Settings) {
    && s.privacyProfile in PRIVACY_PROFILES && s.providerId in PROVIDER_IDS && !IsBlank(s.language)
    && s.networkMode in NETWORK_MODES && s.routingMode in ROUTING_MODES
    && LocalModelsStorable(s.localModels)
    && s.providerSettings.Keys <= PROVIDER_IDS
    && (s.osSystem.Some? ==> s.osSystem.value in OS_SYSTEMS)
    && (s.cameraIndex.Some? ==> s.cameraIndex.value >= 0)
  }

  /** `to_dict` writes the voice fields, `validate_settings` never reads them. */
  function WithoutVoice(s: Settings): Settings {
    s.(voiceSttEngine := STT_ENGINE, voiceTtsEngine := TTS_ENGINE, voiceMicDevice := None, voiceSpeakerDevice := None)
  }

  // ---- the parts ----------------------------------------------------------

  lemma RolesRead(r: ModelRoles)
    ensures ValidateModelRoles(Obj(RolesDict(r))) == Some(r)
  {
    RolesArePlain();
    hide IsSecretField;
  }

  lemma PreferredRead(p: Preferred)
    ensures ValidatePreferred(Obj(PreferredDict(p))) == Some(p)
  {
    RolesArePlain();
    hide IsSecretField;
  }

  lemma LocalProviderRead(p: LocalProvider, defaultUrl: string)
    requires !IsBlank(p.baseUrl)
    ensures ValidateLocalProvider(Obj(LocalProviderDict(p)), defaultUrl) == Some(p)
  {
    LocalNamesArePlain();
    hide IsSecretField, IsBlank;
  }

  lemma ProviderRead(id: string, p: ProviderBaseURL)
    requires id in PROVIDER_IDS
    ensures ValidateProvider(Name(id), Obj(ProviderDict(p))) == Some(p)
  {
    LocalNamesArePlain();
    hide IsSecretField;
  }

  lemma ProvidersDictRead(ps: map<string, ProviderBaseURL>)
    requires ps.Keys <= PROVIDER_IDS
    ensures ValidateProviders(Obj(ProvidersDict(ps))) == Some(ps)
  {
    hide ValidateProvider, ValidateProviders, ProviderDict;
    forall id | id in ps
      ensures ValidateProvider(Name(id), Obj(ProviderDict(ps[id]))) == Some(ps[id])
    {
      ProviderRead(id, ps[id]);
    }
    AllProvidersRead(ProvidersDict(ps), ps);
  }

  lemma OverrideRead(id: string, o: ModelOverride)
    requires OverrideStorable(id, o)
    ensures ValidateOverride(Name(id), Obj(OverrideDict(o))) == Some(o)
  {
    CapabilitiesArePlain();
    hide IsSecretField, IsBlank;
    var m := OverrideDict(o);
    assert Capability(m, "tool_calling") == Some(o.toolCalling);
    assert Capability(m, "structured_output") == Some(o.structuredOutput);
    assert Capability(m, "vision") == Some(o.vision);
    assert ContextLength(m) == Some(o.contextLength);
  }

  lemma OverridesDictRead(os: map<string, ModelOverride>)
    requires forall id :: id in os ==> OverrideStorable(id, os[id])
    ensures ValidateOverrides(Obj(OverridesDict(os))) == Some(os)
  {
    hide ValidateOverride, ValidateOverrides, OverrideDict, OverrideStorable;
    forall id | id in os
      ensures ValidateOverride(Name(id), Obj(OverrideDict(os[id]))) == Some(os[id])
    {
      OverrideRead(id, os[id]);
    }
    AllOverridesRead(OverridesDict(os), os);
  }

  lemma LocalModelsEntries(l: LocalModels)
    ensures var m := LocalModelsDict(l);
      && KnownPlainKeys(m, LOCAL_MODELS_KEYS)
      && Get(m, "default_provider") == Some(Str(l.defaultProvider))
      && GetOr(m, "ollama", Obj(map[])) == Obj(LocalProviderDict(l.ollama))
      && GetOr(m, "llama_cpp", Obj(map[])) == Obj(LocalProviderDict(l.llamaCpp))
      && GetOr(m, "preferred", Obj(map[])) == Obj(PreferredDict(l.preferred))
      && GetOr(m, "overrides", Obj(map[])) == Obj(OverridesDict(l.overrides))
  {
    LocalNamesArePlain();
    hide IsSecretField, LocalProviderDict, PreferredDict, OverridesDict;
  }

  lemma LocalModelsRead(l: LocalModels)
    requires LocalModelsStorable(l)
    ensures ValidateLocalModels(Obj(LocalModelsDict(l))) == Some(l)
  {
    hide IsBlank, ValidateLocalProvider, ValidatePreferred, ValidateOverrides, OverrideStorable;
    hide LocalModelsDict, LocalProviderDict, PreferredDict, OverridesDict, KnownPlainKeys, Get, GetOr;
    LocalModelsEntries(l);
    LocalProviderRead(l.ollama, OLLAMA_BASE_URL);
    LocalProviderRead(l.llamaCpp, LLAMA_CPP_BASE_URL);
    PreferredRead(l.preferred);
    OverridesDictRead(l.overrides);
    assert OptionalEnum(LocalModelsDict(l), "default_provider", LOCAL_PROVIDER_IDS, "ollama") == Some(l.defaultProvider);
    hide OptionalEnum;
  }

  // ---- the whole dictionary -----------------------------------------------

  lemma FixedEntries(s: Settings)
    ensures var m := FixedDict(s);
      && PlainKeys(m)
      && Get(m, "privacy_profile") == Some(Str(s.privacyProfile)) && Get(m, "provider_id") == Some(Str(s.providerId))
      && Get(m, "model_id") == Some(Str(s.modelId)) && Get(m, "language") == Some(Str(s.language))
      && Get(m, "network_mode") == Some(Str(s.networkMode)) && Get(m, "routing_mode") == Some(Str(s.routingMode))
  {
    FixedNamesArePlain();
    ObjectNamesArePlain();
    hide IsSecretField, RolesDict, LocalModelsDict, ProvidersDict;
  }

  lemma FixedObjects(s: Settings)
    ensures var m := FixedDict(s);
      && Get(m, "model_roles") == Some(Obj(RolesDict(s.modelRoles)))
      && Get(m, "local_models") == Some(Obj(LocalModelsDict(s.localModels)))
      && Get(m, "provider_settings") == Some(Obj(ProvidersDict(s.providerSettings)))
      && Get(m, "os_system") == None && Get(m, "camera_index") == None
  {
    hide RolesDict, LocalModelsDict, ProvidersDict;
  }

  /** An optional entry adds one name and leaves every other entry as it was. */
  lemma EntryAdds(m: Object, name: string, value: Option<Value>, other: string)
    requires PlainKeys(m) && !IsSecretField(name)
    ensures PlainKeys(m + Entry(name, value))
    ensures Get(m + Entry(name, value), other) == if other == name && value.Some? then value else Get(m, other)
  {
    hide IsSecretField;
  }

  /** Only the voice entries have names that start with a `v`. */
  lemma Entries(s: Settings, other: string)
    requires |other| > 0 && other[0] != 'v'
    ensures PlainKeys(ToDict(s))
    ensures Get(ToDict(s), other) ==
      if other == "camera_index" && s.cameraIndex.Some? then OfInt(s.cameraIndex)
      else if other == "os_system" && s.osSystem.Some? then OfStr(s.osSystem)
      else Get(FixedDict(s), other)
  {
    FixedEntries(s);
    ObjectNamesArePlain();
    VoiceNamesArePlain();
    hide PlainKeys, Get, FixedDict, Entry;
    var m0 := FixedDict(s);
    EntryAdds(m0, "os_system", OfStr(s.osSystem), other);
    var m1 := m0 + Entry("os_system", OfStr(s.osSystem));
    EntryAdds(m1, "camera_index", OfInt(s.cameraIndex), other);
    var m2 := m1 + Entry("camera_index", OfInt(s.cameraIndex));
    EntryAdds(m2, "voice_stt_engine", Unless(s.voiceSttEngine, STT_ENGINE), other);
    var m3 := m2 + Entry("voice_stt_engine", Unless(s.voiceSttEngine, STT_ENGINE));
    EntryAdds(m3, "voice_tts_engine", Unless(s.voiceTtsEngine, TTS_ENGINE), other);
    var m4 := m3 + Entry("voice_tts_engine", Unless(s.voiceTtsEngine, TTS_ENGINE));
    EntryAdds(m4, "voice_mic_device", OfStr(s.voiceMicDevice), other);
    var m5 := m4 + Entry("voice_mic_device", OfStr(s.voiceMicDevice));
    EntryAdds(m5, "voice_speaker_device", OfStr(s.voiceSpeakerDevice), other);
  }

  /** The scalar fields are read back. */
  lemma ScalarsRead(s: Settings)
    requires Storable(s)
    ensures var m := ToDict(s);
      && OptionalEnum(m, "privacy_profile", PRIVACY_PROFILES, "hybrid") == Some(s.privacyProfile)
      && OptionalEnum(m, "provider_id", PROVIDER_IDS, "gemini") == Some(s.providerId)
      && OptionalStr(m, "model_id", "") == Some(s.modelId)
      && OptionalNonEmptyStr(m, "language", "ru") == Some(s.language)
      && OptionalEnum(m, "network_mode", NETWORK_MODES, "hybrid") == Some(s.networkMode)
      && OptionalEnum(m, "routing_mode", ROUTING_MODES, "manual") == Some(s.routingMode)
  {
    hide ToDict, FixedDict, PlainKeys, Get, IsBlank, LocalModelsStorable;
    FixedEntries(s);
    Entries(s, "privacy_profile");
    Entries(s, "provider_id");
    Entries(s, "model_id");
    Entries(s, "language");
    Entries(s, "network_mode");
    Entries(s, "routing_mode");
  }

  lemma SystemName(name: string)
    requires name in OS_SYSTEMS
    ensures Lower(name) == name
  {
  }

  lemma OverlayEntries(s: Settings)
    ensures Get(ToDict(s), "os_system") == OfStr(s.osSystem)
    ensures Get(ToDict(s), "camera_index") == OfInt(s.cameraIndex)
  {
    hide ToDict, FixedDict, PlainKeys, Get;
    FixedObjects(s);
    Entries(s, "os_system");
    Entries(s, "camera_index");
  }

  lemma SystemRead(m: Object, name: Option<string>)
    requires Get(m, "os_system") == OfStr(name) && (name.Some? ==> name.value in OS_SYSTEMS)
    ensures OptionalOsOverlay(m) == Some(name)
  {
    hide Get;
    if name.Some? {
      SystemName(name.value);
      hide Lower;
      assert Get(m, "os_system") == Some(Str(name.value));
    }
  }

  lemma CameraRead(m: Object, index: Option<int>)
    requires Get(m, "camera_index") == OfInt(index) && (index.Some? ==> index.value >= 0)
    ensures OptionalNonNegativeInt(m, "camera_index") == Some(index)
  {
    hide Get;
  }

  lemma ObjectsRead(s: Settings)
    requires Storable(s)
    ensures var m := ToDict(s);
      && ValidateModelRoles(GetOr(m, "model_roles", Obj(map[]))) == Some(s.modelRoles)
      && ValidateLocalModels(GetOr(m, "local_models", Obj(map[]))) == Some(s.localModels)
      && ValidateProviders(GetOr(m, "provider_settings", Null)) == Some(s.providerSettings)
  {
    hide ToDict, FixedDict, PlainKeys, IsBlank, LocalModelsStorable, ValidateModelRoles, ValidateLocalModels,
      ValidateProviders, RolesDict, LocalModelsDict, ProvidersDict;
    FixedObjects(s);
    Entries(s, "model_roles");
    Entries(s, "local_models");
    Entries(s, "provider_settings");
    RolesRead(s.modelRoles);
    LocalModelsRead(s.localModels);
    ProvidersDictRead(s.providerSettings);
  }

  lemma AllRead(m: Object, s: Settings)
    requires PlainKeys(m)
    requires OptionalEnum(m, "privacy_profile", PRIVACY_PROFILES, "hybrid") == Some(s.privacyProfile)
    requires OptionalEnum(m, "provider_id", PROVIDER_IDS, "gemini") == Some(s.providerId)
    requires OptionalStr(m, "model_id", "") == Some(s.modelId)
    requires OptionalNonEmptyStr(m, "language", "ru") == Some(s.language)
    requires OptionalEnum(m, "network_mode", NETWORK_MODES, "hybrid") == Some(s.networkMode)
    requires OptionalEnum(m, "routing_mode", ROUTING_MODES, "manual") == Some(s.routingMode)
    requires ValidateModelRoles(GetOr(m, "model_roles", Obj(map[]))) == Some(s.modelRoles)
    requires ValidateLocalModels(GetOr(m, "local_models", Obj(map[]))) == Some(s.localModels)
    requires ValidateProviders(GetOr(m, "provider_settings", Null)) == Some(s.providerSettings)
    requires OptionalOsOverlay(m) == Some(s.osSystem)
    requires OptionalNonNegativeInt(m, "camera_index") == Some(s.cameraIndex)
    ensures ValidateSettings(Obj(m)) == Some(WithoutVoice(s))
  {
    hide PlainKeys, GetOr, OptionalEnum, OptionalStr, OptionalNonEmptyStr, OptionalOsOverlay,
      OptionalNonNegativeInt, ValidateModelRoles, ValidateLocalModels, ValidateProviders;
  }

  /** Every storable `Settings` comes back as it was, but for the voice fields. */
  lemma ReadAfterWrite(s: Settings)
    requires Storable(s)
    ensures ValidateSettings(Obj(ToDict(s))) == Some(WithoutVoice(s))
  {
    hide ToDict, PlainKeys, GetOr, OptionalEnum, OptionalStr, OptionalNonEmptyStr, OptionalOsOverlay,
      OptionalNonNegativeInt, ValidateModelRoles, ValidateLocalModels, ValidateProviders, ValidateSettings,
      IsBlank, LocalModelsStorable;
    Entries(s, "language");
    ScalarsRead(s);
    ObjectsRead(s);
    OverlayEntries(s);
    SystemRead(ToDict(s), s.osSystem);
    CameraRead(ToDict(s), s.cameraIndex);
    AllRead(ToDict(s), s);
  }

  lemma DefaultUrls()
    ensures !IsBlank(OLLAMA_BASE_URL) && !IsBlank(LLAMA_CPP_BASE_URL) && !IsBlank("ru")
  {
    assert !IsSpace(OLLAMA_BASE_URL[0]) && !IsSpace(LLAMA_CPP_BASE_URL[0]) && !IsSpace("ru"[0]);
  }

  lemma ProviderUrl(value: Value, defaultUrl: string)
    requires !IsBlank(defaultUrl)
    ensures var r := ValidateLocalProvider(value, defaultUrl); r.Some? ==> !IsBlank(r.value.baseUrl)
  {
    hide IsBlank, KnownPlainKeys;
  }

  lemma LocalModelsAreStorable(value: Value)
    ensures ValidateLocalModels(value).Some? ==> LocalModelsStorable(ValidateLocalModels(value).value)
  {
    hide IsBlank, OverrideStorable, KnownPlainKeys, GetOr, ValidatePreferred, ValidateOverrides, ValidateLocalProvider;
    DefaultUrls();
    if value.Obj? {
      ProviderUrl(GetOr(value.fields, "ollama", Obj(map[])), OLLAMA_BASE_URL);
      ProviderUrl(GetOr(value.fields, "llama_cpp", Obj(map[])), LLAMA_CPP_BASE_URL);
      OverridesAreStorable(GetOr(value.fields, "overrides", Obj(map[])));
    }
  }

  lemma OverridesAreStorable(value: Value)
    ensures var r := ValidateOverrides(value);
      r.Some? ==> forall id :: id in r.value ==> OverrideStorable(id, r.value[id])
  {
  }

  lemma ProvidersAreKnown(value: Value)
    ensures var r := ValidateProviders(value); r.Some? ==> r.value.Keys <= PROVIDER_IDS
  {
  }

  lemma OverlaysAreStorable(m: Object)
    ensures var r := OptionalOsOverlay(m); r.Some? && r.value.Some? ==> r.value.value in OS_SYSTEMS
    ensures var c := OptionalNonNegativeInt(m, "camera_index"); c.Some? && c.value.Some? ==> c.value.value >= 0
  {
    hide Lower, Get;
  }

  lemma ScalarsAreStorable(m: Object, name: string, allowed: set<string>, fallback: string)
    requires fallback in allowed
    ensures var r := OptionalEnum(m, name, allowed, fallback); r.Some? ==> r.value in allowed
  {
    hide Get;
  }

  lemma LanguageIsStorable(m: Object)
    ensures var r := OptionalNonEmptyStr(m, "language", "ru"); r.Some? ==> !IsBlank(r.value)
  {
    hide Get, IsBlank;
    DefaultUrls();
  }

  /** Whatever the validator accepts, it returns a storable `Settings` with default voice fields. */
  lemma ValidatedIsStorable(data: Value)
    ensures var r := ValidateSettings(data); r.Some? ==> Storable(r.value) && r.value == WithoutVoice(r.value)
  {
    if ValidateSettings(data).Some? {
      hide PlainKeys, GetOr, OptionalEnum, OptionalStr, OptionalNonEmptyStr, OptionalOsOverlay, OptionalNonNegativeInt,
        ValidateModelRoles, ValidateLocalModels, ValidateProviders, IsBlank, LocalModelsStorable;
      var m := data.fields;
      ScalarsAreStorable(m, "privacy_profile", PRIVACY_PROFILES, "hybrid");
      ScalarsAreStorable(m, "provider_id", PROVIDER_IDS, "gemini");
      ScalarsAreStorable(m, "network_mode", NETWORK_MODES, "hybrid");
      ScalarsAreStorable(m, "routing_mode", ROUTING_MODES, "manual");
      LanguageIsStorable(m);
      OverlaysAreStorable(m);
      LocalModelsAreStorable(GetOr(m, "local_models", Obj(map[])));
      ProvidersAreKnown(GetOr(m, "provider_settings", Null));
    }
  }

  /** Whatever was accepted once is written and read back unchanged. */
  lemma RoundTrip(data: Value)
    ensures var r := ValidateSettings(data); r.Some? ==> ValidateSettings(Obj(ToDict(r.value))) == r
  {
    ValidatedIsStorable(data);
    if ValidateSettings(data).Some? {
      hide ValidateSettings, Storable;
      ReadAfterWrite(ValidateSettings(data).value);
    }
  }

  /**
   For an arbitrary `Settings` the round trip is exact when, and only when, the value is storable and
   its voice fields are the defaults: a chosen voice engine or device does not survive.
   */
  lemma RoundTripIff(s: Settings)
    ensures ValidateSettings(Obj(ToDict(s))) == Some(s) <==> Storable(s) && s == WithoutVoice(s)
  {
    hide ValidateSettings, Storable, ToDict;
    ValidatedIsStorable(Obj(ToDict(s)));
    if Storable(s) { ReadAfterWrite(s); }
  }

  // ---- nothing secret is stored -------------------------------------------

  /** No key at any depth is a secret slot. */
  predicate NoSecretKeys(v: Value)
    decreases v
  {
    v.Obj? ==> forall k :: k in v.fields ==> k.Name? && !IsSecretField(k.text) && NoSecretKeys(v.fields[k])
  }

  predicate FlatAndPlain(m: Object) {
    PlainKeys(m) && forall k :: k in m ==> !m[k].Obj?
  }

  lemma FlatIsClean(m: Object)
    requires FlatAndPlain(m)
    ensures NoSecretKeys(Obj(m))
  {
    hide IsSecretField;
  }

  lemma LocalPartsAreFlat(l: LocalModels)
    ensures FlatAndPlain(PreferredDict(l.preferred))
    ensures FlatAndPlain(LocalProviderDict(l.ollama)) && FlatAndPlain(LocalProviderDict(l.llamaCpp))
  {
    hide IsSecretField;
    RolesArePlain();
    LocalNamesArePlain();
  }

  lemma OverrideIsFlat(o: ModelOverride)
    ensures FlatAndPlain(OverrideDict(o))
  {
    hide IsSecretField;
    CapabilitiesArePlain();
  }

  lemma OverridesAreClean(os: map<string, ModelOverride>)
    requires forall id :: id in os ==> OverrideStorable(id, os[id])
    ensures NoSecretKeys(Obj(OverridesDict(os)))
  {
    hide IsSecretField, IsBlank, OverrideDict, FlatAndPlain;
    forall id | id in os
      ensures NoSecretKeys(Obj(OverrideDict(os[id])))
    {
      OverrideIsFlat(os[id]);
      FlatIsClean(OverrideDict(os[id]));
    }
  }

  lemma LocalModelsAreClean(l: LocalModels)
    requires LocalModelsStorable(l)
    ensures NoSecretKeys(Obj(LocalModelsDict(l)))
  {
    hide IsSecretField, IsBlank, FlatAndPlain, LocalProviderDict, PreferredDict, OverridesDict, OverrideStorable;
    LocalPartsAreFlat(l);
    FlatIsClean(PreferredDict(l.preferred));
    FlatIsClean(LocalProviderDict(l.ollama));
    FlatIsClean(LocalProviderDict(l.llamaCpp));
    OverridesAreClean(l.overrides);
    LocalNamesArePlain();
  }

  lemma ProvidersAreClean(ps: map<string, ProviderBaseURL>)
    requires ps.Keys <= PROVIDER_IDS
    ensures NoSecretKeys(Obj(ProvidersDict(ps)))
  {
    hide IsSecretField;
    ProvidersArePlain();
    LocalNamesArePlain();
    forall id | id in ps
      ensures NoSecretKeys(Obj(ProviderDict(ps[id])))
    {
      FlatIsClean(ProviderDict(ps[id]));
    }
  }

  lemma RolesAreClean(r: ModelRoles)
    ensures NoSecretKeys(Obj(RolesDict(r)))
  {
    hide IsSecretField;
    RolesArePlain();
    FlatIsClean(RolesDict(r));
  }

  lemma CleanUnion(a: Object, b: Object)
    requires NoSecretKeys(Obj(a)) && NoSecretKeys(Obj(b))
    ensures NoSecretKeys(Obj(a + b))
  {
    hide IsSecretField;
  }

  lemma CleanByKeys(m: Object)
    requires PlainKeys(m) && forall k :: k in m ==> NoSecretKeys(m[k])
    ensures NoSecretKeys(Obj(m))
  {
    hide IsSecretField;
  }

  lemma FixedIsClean(s: Settings)
    requires Storable(s)
    ensures NoSecretKeys(Obj(FixedDict(s)))
  {
    hide IsSecretField, IsBlank, LocalModelsStorable, RolesDict, LocalModelsDict, ProvidersDict, PlainKeys;
    FixedEntries(s);
    RolesAreClean(s.modelRoles);
    LocalModelsAreClean(s.localModels);
    ProvidersAreClean(s.providerSettings);
    CleanByKeys(FixedDict(s));
  }

  lemma EntryIsClean(m: Object, name: string, value: Option<Value>)
    requires NoSecretKeys(Obj(m)) && !IsSecretField(name) && (value.Some? ==> !value.value.Obj?)
    ensures NoSecretKeys(Obj(m + Entry(name, value)))
  {
    hide IsSecretField;
    FlatIsClean(Entry(name, value));
    CleanUnion(m, Entry(name, value));
  }

  /** What an accepted `Settings` is written to holds no secret slot, at any depth. */
  lemma NothingSecretIsWritten(s: Settings)
    requires Storable(s)
    ensures NoSecretKeys(Obj(ToDict(s)))
  {
    hide IsSecretField, NoSecretKeys, FixedDict, Storable, Entry;
    FixedIsClean(s);
    ObjectNamesArePlain();
    VoiceNamesArePlain();
    var m0 := FixedDict(s);
    EntryIsClean(m0, "os_system", OfStr(s.osSystem));
    var m1 := m0 + Entry("os_system", OfStr(s.osSystem));
    EntryIsClean(m1, "camera_index", OfInt(s.cameraIndex));
    var m2 := m1 + Entry("camera_index", OfInt(s.cameraIndex));
    EntryIsClean(m2, "voice_stt_engine", Unless(s.voiceSttEngine, STT_ENGINE));
    var m3 := m2 + Entry("voice_stt_engine", Unless(s.voiceSttEngine, STT_ENGINE));
    EntryIsClean(m3, "voice_tts_engine", Unless(s.voiceTtsEngine, TTS_ENGINE));
    var m4 := m3 + Entry("voice_tts_engine", Unless(s.voiceTtsEngine, TTS_ENGINE));
    EntryIsClean(m4, "voice_mic_device", OfStr(s.voiceMicDevice));
    var m5 := m4 + Entry("voice_mic_device", OfStr(s.voiceMicDevice));
    EntryIsClean(m5, "voice_speaker_device", OfStr(s.voiceSpeakerDevice));
  }
}
