/** What `validate_settings` refuses, ignores and fills in. */
module SettingsChecks {
  import opened Wrappers
  import opened Text
  import opened SettingsSchema
  import opened SettingsRoundTrip

  /** A name is a secret slot exactly if it contains one of four markers, in whatever case. */
  lemma SecretFieldIff(name: string)
    ensures IsSecretField(name) <==>
      exists a, s, b :: name == a + s + b && Lower(s) in {"api_key", "token", "secret", "password"}
  {
    if IsSecretField(name) {
      var marker, i :| marker in SECRET_MARKERS && 0 <= i <= |name| && OccursAt(marker, Lower(name), i);
      var a, s, b := name[..i], name[i..i + |marker|], name[i + |marker|..];
      assert Lower(s) == marker;
      assert name == a + s + b;
    }
    forall a, s, b | name == a + s + b && Lower(s) in SECRET_MARKERS
      ensures IsSecretField(name)
    {
      MarkerOccurs(a, s, b);
    }
  }

  lemma MarkerOccurs(a: string, s: string, b: string)
    requires Lower(s) in SECRET_MARKERS
    ensures IsSecretField(a + s + b)
  {
    assert Lower(a + s + b)[|a|..|a| + |s|] == Lower(s);
    assert OccursAt(Lower(s), Lower(a + s + b), |a|);
  }

  // ---- secret keys are refused --------------------------------------------

  lemma RolesAccepted(v: Value)
    ensures ValidateModelRoles(v).Some? || ValidatePreferred(v).Some? ==> NoSecretKeys(v)
  {
    hide IsSecretField;
  }

  lemma LocalProviderAccepted(v: Value, url: string)
    ensures ValidateLocalProvider(v, url).Some? ==> NoSecretKeys(v)
  {
    hide IsSecretField, IsBlank;
    if ValidateLocalProvider(v, url).Some? {
      forall k | k in v.fields
        ensures !v.fields[k].Obj?
      {
        assert k == Name("enabled") || k == Name("base_url");
      }
    }
  }

  lemma OverrideAccepted(id: Key, v: Value)
    ensures ValidateOverride(id, v).Some? ==> id.Name? && !IsSecretField(id.text) && NoSecretKeys(v)
  {
    hide IsSecretField, IsBlank;
    if ValidateOverride(id, v).Some? {
      forall k | k in v.fields
        ensures !v.fields[k].Obj?
      {
        assert k.text in OVERRIDE_KEYS;
        assert Get(v.fields, k.text) == Some(v.fields[k]);
      }
    }
  }

  lemma OverridesAccepted(v: Value)
    ensures ValidateOverrides(v).Some? ==> NoSecretKeys(v)
  {
    hide IsSecretField, ValidateOverride;
    if ValidateOverrides(v).Some? {
      forall k | k in v.fields
        ensures k.Name? && !IsSecretField(k.text) && NoSecretKeys(v.fields[k])
      {
        OverrideAccepted(k, v.fields[k]);
      }
    }
  }

  lemma ProviderAccepted(id: Key, v: Value)
    ensures ValidateProvider(id, v).Some? ==> id.Name? && id.text in PROVIDER_IDS && NoSecretKeys(v)
  {
    hide IsSecretField;
    if ValidateProvider(id, v).Some? {
      forall k | k in v.fields
        ensures !v.fields[k].Obj?
      {
        assert k == Name("base_url") || k == Name("remote_enabled");
      }
    }
  }

  lemma ProvidersAccepted(v: Value)
    ensures ValidateProviders(v).Some? ==> NoSecretKeys(v)
  {
    ProvidersArePlain();
    hide IsSecretField, ValidateProvider;
    if ValidateProviders(v).Some? && v.Obj? {
      forall k | k in v.fields
        ensures k.Name? && !IsSecretField(k.text) && NoSecretKeys(v.fields[k])
      {
        ProviderAccepted(k, v.fields[k]);
      }
    }
  }

  lemma LocalPartsAccepted(m: Object)
    requires ValidateLocalModels(Obj(m)).Some?
    ensures KnownPlainKeys(m, LOCAL_MODELS_KEYS) && (Name("default_provider") in m ==> m[Name("default_provider")].Str?)
    ensures ValidateLocalProvider(GetOr(m, "ollama", Obj(map[])), OLLAMA_BASE_URL).Some?
    ensures ValidateLocalProvider(GetOr(m, "llama_cpp", Obj(map[])), LLAMA_CPP_BASE_URL).Some?
    ensures ValidatePreferred(GetOr(m, "preferred", Obj(map[]))).Some?
    ensures ValidateOverrides(GetOr(m, "overrides", Obj(map[]))).Some?
  {
    hide KnownPlainKeys, ValidateLocalProvider, ValidatePreferred, ValidateOverrides;
  }

  /** The five parts have no secret keys. */
  ghost predicate PartsAreClean(m: Object) {
    forall name :: name in LOCAL_MODELS_KEYS && Name(name) in m ==> NoSecretKeys(m[Name(name)])
  }

  lemma PartIsClean(m: Object, name: string, fallback: Value)
    requires NoSecretKeys(GetOr(m, name, fallback))
    ensures Name(name) in m ==> NoSecretKeys(m[Name(name)])
  {
    hide NoSecretKeys;
  }

  lemma LocalPartsAreClean(m: Object)
    requires ValidateLocalModels(Obj(m)).Some?
    ensures PartsAreClean(m)
  {
    LocalPartsAccepted(m);
    hide ValidateLocalModels, ValidateLocalProvider, ValidatePreferred, ValidateOverrides, NoSecretKeys, GetOr, KnownPlainKeys;
    LocalProviderAccepted(GetOr(m, "ollama", Obj(map[])), OLLAMA_BASE_URL);
    LocalProviderAccepted(GetOr(m, "llama_cpp", Obj(map[])), LLAMA_CPP_BASE_URL);
    RolesAccepted(GetOr(m, "preferred", Obj(map[])));
    OverridesAccepted(GetOr(m, "overrides", Obj(map[])));
    PartIsClean(m, "ollama", Obj(map[]));
    PartIsClean(m, "llama_cpp", Obj(map[]));
    PartIsClean(m, "preferred", Obj(map[]));
    PartIsClean(m, "overrides", Obj(map[]));
    if Name("default_provider") in m { LeafIsClean(m[Name("default_provider")]); }
  }

  lemma EveryPartIsClean(m: Object)
    requires KnownPlainKeys(m, LOCAL_MODELS_KEYS) && PartsAreClean(m)
    ensures PlainKeys(m) && forall k :: k in m ==> NoSecretKeys(m[k])
  {
    hide IsSecretField, NoSecretKeys, LOCAL_MODELS_KEYS;
    assert forall k :: k in m ==> k == Name(k.text);
  }

  lemma LocalModelsAccepted(v: Value)
    ensures ValidateLocalModels(v).Some? ==> NoSecretKeys(v)
  {
    if ValidateLocalModels(v).Some? && v.Obj? {
      var m := v.fields;
      LocalPartsAccepted(m);
      LocalPartsAreClean(m);
      hide *;
      EveryPartIsClean(m);
      CleanByKeys(m);
    } else if v.Null? {
      LeafIsClean(v);
    }
  }

  lemma LeafIsClean(v: Value)
    ensures !v.Obj? ==> NoSecretKeys(v)
  {
  }

  /**
   What is accepted has no secret slot among its keys, nor at any depth of the three objects that are read:
   wherever a caller puts an API key, a token or a password, the whole file is refused.
   */
  lemma AcceptedIsClean(data: Value)
    requires ValidateSettings(data).Some?
    ensures data.Obj? && forall k :: k in data.fields ==> k.Name? && !IsSecretField(k.text)
    ensures forall name :: name in {"model_roles", "local_models", "provider_settings"} && Name(name) in data.fields ==>
      NoSecretKeys(data.fields[Name(name)])
  {
    assert data.Obj?;
    var m := data.fields;
    PlainIfAccepted(m);
    PartsAccepted(m);
    RolesAccepted(GetOr(m, "model_roles", Obj(map[])));
    LocalModelsAccepted(GetOr(m, "local_models", Obj(map[])));
    ProvidersAccepted(GetOr(m, "provider_settings", Null));
    hide IsSecretField, NoSecretKeys, ValidateSettings, ValidateModelRoles, ValidateLocalModels, ValidateProviders;
  }

  lemma PartsAccepted(m: Object)
    requires ValidateSettings(Obj(m)).Some?
    ensures ValidateModelRoles(GetOr(m, "model_roles", Obj(map[]))).Some?
    ensures ValidateLocalModels(GetOr(m, "local_models", Obj(map[]))).Some?
    ensures ValidateProviders(GetOr(m, "provider_settings", Null)).Some?
  {
    hide PlainKeys, GetOr, OptionalEnum, OptionalStr, OptionalNonEmptyStr, OptionalOsOverlay, OptionalNonNegativeInt,
      ValidateModelRoles, ValidateLocalModels, ValidateProviders;
  }

  // ---- other keys are ignored, missing ones are filled in -----------------

  const SETTINGS_KEYS := {"privacy_profile", "provider_id", "model_id", "language", "network_mode", "routing_mode",
                          "model_roles", "local_models", "provider_settings", "os_system", "camera_index"}

  /** A top-level key the validator does not know is ignored, whatever it holds, unless it is a secret slot or no text. */
  lemma OtherKeysAreIgnoredIff(m: Object, k: Key, v: Value)
    requires k !in m && (k.Name? ==> k.text !in SETTINGS_KEYS) && ValidateSettings(Obj(m)).Some?
    ensures var r := ValidateSettings(Obj(m[k := v]));
      if k.Name? && !IsSecretField(k.text) then r == ValidateSettings(Obj(m)) else r == None
  {
    hide IsSecretField, ValidateSettings;
    var m' := m[k := v];
    forall name | name in SETTINGS_KEYS
      ensures Get(m', name) == Get(m, name)
    {
    }
    PlainIfAccepted(m);
    PlainIfAccepted(m');
    if !k.Name? || IsSecretField(k.text) { assert k in m'; } else { SameReads(m, m'); }
  }

  lemma PlainIfAccepted(m: Object)
    ensures ValidateSettings(Obj(m)).Some? ==> PlainKeys(m)
  {
    hide PlainKeys;
  }

  lemma SameReads(m: Object, m': Object)
    requires PlainKeys(m) == PlainKeys(m') && forall name :: name in SETTINGS_KEYS ==> Get(m', name) == Get(m, name)
    ensures ValidateSettings(Obj(m')) == ValidateSettings(Obj(m))
  {
    hide PlainKeys, Get, GetOr, OptionalEnum, OptionalStr, OptionalNonEmptyStr, OptionalOsOverlay, OptionalNonNegativeInt,
      ValidateModelRoles, ValidateLocalModels, ValidateProviders;
    SameEnum(m, m', "privacy_profile", PRIVACY_PROFILES, "hybrid");
    SameEnum(m, m', "provider_id", PROVIDER_IDS, "gemini");
    SameText(m, m', "model_id", "");
    SameText(m, m', "language", "ru");
    SameEnum(m, m', "network_mode", NETWORK_MODES, "hybrid");
    SameEnum(m, m', "routing_mode", ROUTING_MODES, "manual");
    SameValue(m, m', "model_roles", Obj(map[]));
    SameValue(m, m', "local_models", Obj(map[]));
    SameValue(m, m', "provider_settings", Null);
    SameOverlays(m, m');
  }

  lemma SameEnum(m: Object, m': Object, name: string, allowed: set<string>, fallback: string)
    requires Get(m', name) == Get(m, name)
    ensures OptionalEnum(m', name, allowed, fallback) == OptionalEnum(m, name, allowed, fallback)
  {
  }

  lemma SameText(m: Object, m': Object, name: string, fallback: string)
    requires Get(m', name) == Get(m, name)
    ensures OptionalStr(m', name, fallback) == OptionalStr(m, name, fallback)
    ensures OptionalNonEmptyStr(m', name, fallback) == OptionalNonEmptyStr(m, name, fallback)
  {
    hide IsBlank;
  }

  lemma SameValue(m: Object, m': Object, name: string, fallback: Value)
    requires Get(m', name) == Get(m, name)
    ensures GetOr(m', name, fallback) == GetOr(m, name, fallback)
  {
  }

  lemma SameOverlays(m: Object, m': Object)
    requires Get(m', "os_system") == Get(m, "os_system") && Get(m', "camera_index") == Get(m, "camera_index")
    ensures OptionalOsOverlay(m') == OptionalOsOverlay(m)
    ensures OptionalNonNegativeInt(m', "camera_index") == OptionalNonNegativeInt(m, "camera_index")
  {
    hide Lower, Get;
  }

  /** The empty dictionary reads as the documented defaults. */
  lemma EmptyReadsDefaults()
    ensures ValidateSettings(Obj(map[])) == Some(Settings(
      "hybrid", "gemini", "", "ru", "hybrid", "manual", ModelRoles("", "", "", "", "", "", ""),
      LocalModels("ollama", LocalProvider(true, "http://127.0.0.1:11434"), LocalProvider(true, "http://127.0.0.1:8080"),
                  Preferred("", "", "", ""), map[]),
      map[], None, None, "faster_whisper", "piper", None, None))
  {
    EmptyPartsRead();
    hide ValidateModelRoles, ValidateLocalModels, ValidateProviders;
  }

  lemma EmptyPartsRead()
    ensures ValidateModelRoles(Obj(map[])) == Some(NO_ROLES) && ValidatePreferred(Obj(map[])) == Some(Preferred("", "", "", ""))
    ensures ValidateLocalModels(Obj(map[])) == Some(NO_LOCAL_MODELS) && ValidateProviders(Null) == Some(map[])
  {
    EmptyOverridesRead();
    EmptyProviderReads(OLLAMA_BASE_URL);
    EmptyProviderReads(LLAMA_CPP_BASE_URL);
    hide ValidateOverrides, ValidateLocalProvider;
  }

  lemma EmptyProviderReads(url: string)
    ensures ValidateLocalProvider(Obj(map[]), url) == Some(LocalProvider(true, url))
  {
  }

  lemma EmptyOverridesRead()
    ensures var none: map<string, ModelOverride> := map[]; ValidateOverrides(Obj(map[])) == Some(none)
  {
    var none: map<string, ModelOverride> := map[];
    AllOverridesRead(map[], none);
  }

  /** Null stands for a missing value where the schema has an optional one, and is refused everywhere else. */
  lemma NullIsMissingIff(m: Object, name: string)
    ensures Get(m, name) == Some(Null) ==>
      && OptionalStr(m, name, "") == Some("") && OptionalNonNegativeInt(m, name) == Some(None)
      && OptionalNonEmptyStr(m, name, "ru") == None && OptionalBool(m, name, true) == None
      && forall allowed, fallback :: OptionalEnum(m, name, allowed, fallback) == None
    ensures ValidateModelRoles(Null) == ValidateModelRoles(Obj(map[])) && ValidateLocalModels(Null) == ValidateLocalModels(Obj(map[]))
    ensures ValidatePreferred(Null) == None && ValidateOverrides(Null) == None
    ensures forall url :: ValidateLocalProvider(Null, url) == None
  {
    EmptyPartsRead();
  }

  /** The system name is read in any case and kept in lower case; a camera index must not be negative. */
  lemma OverlayIff(m: Object, v: Value)
    ensures OptionalOsOverlay(m[Name("os_system") := v]) ==
      if v == Null then Some(None)
      else if v.Str? && Lower(v.text) in {"windows", "mac", "linux"} then Some(Some(Lower(v.text))) else None
    ensures OptionalNonNegativeInt(m[Name("camera_index") := v], "camera_index") ==
      if v == Null then Some(None) else if v.Int? && v.number >= 0 then Some(Some(v.number)) else None
  {
    hide Lower;
  }
}
