/** What an import leaves in the onboarding state, field by field: the provider setup after each
    settings section, the addresses and the host name. */
module ImportMeaning {
  import opened MigrationExport
  import opened MigrationImport
  import opened MigrationJson
  import opened MigrationProperties
  import opened ProviderMerge
  import opened ProviderSettings
  import opened SettingsMeaning
  import opened SettingsValidated
  import opened Text
  import opened TrustSecrets
  import opened Wrappers

  // ---- one settings section ----

  /** The settings hold something at the key that is neither null nor empty. */
  predicate Fills(settings: Fields, key: string) {
    key in settings && settings[key] != Null && settings[key] != Str("") && settings[key] != List([])
  }

  /** Each of the keys holds the setting that fills it, and everything else what it held before. */
  ghost predicate Filled(before: Fields, settings: Fields, keys: set<string>, after: Fields) {
    forall key ::
      Field(after, key) == (if key in keys && Fills(settings, key) then Some(settings[key]) else Field(before, key))
  }

  /** Only the config of this provider may differ. */
  ghost predicate OtherConfigsKept(before: ProviderSetup, provider: string, after: ProviderSetup) {
    && (forall other :: other in after.configs <==> other in before.configs || other == provider)
    && (forall other | other in before.configs && other != provider :: after.configs[other] == before.configs[other])
  }

  /** The provider is listed as supported, behind those that were. */
  ghost predicate Supports(before: ProviderSetup, provider: string, after: ProviderSetup) {
    after.supported == if provider in before.supported then before.supported else before.supported + [provider]
  }

  /** The provider is enabled behind the others, or taken out from among them. */
  ghost predicate Enables(before: seq<string>, provider: string, on: bool, after: seq<string>) {
    if on then after == if provider in before then before else before + [provider]
    else
      && provider !in after && multiset(after) == multiset(before)[provider := 0]
      && (provider !in before ==> after == before)
  }

  /** What either speech section does, with the config fields that it fills. */
  ghost predicate SpeechStored(before: ProviderSetup, settings: Fields, keys: set<string>, after: ProviderSetup) {
    && "provider" in settings && settings["provider"].Str?
    && (var provider := settings["provider"].s;
      && OtherConfigsKept(before, provider, after) && Supports(before, provider, after)
      && Filled(ConfigOf(before, provider), settings, keys, after.configs[provider])
      && after.defaultProvider ==
         (if Get(settings, "default") == Bool(true) then Some(provider) else before.defaultProvider)
      && (if "enabled" in settings
          then Enables(before.enabled, provider, settings["enabled"] == Bool(true), after.enabled)
          else after.enabled == before.enabled))
  }

  ghost predicate TtsStored(before: ProviderSetup, settings: Fields, after: ProviderSetup) {
    SpeechStored(before, settings, {"enabled", "default", "model", "warm_models", "default_voice"}, after)
  }

  ghost predicate SttStored(before: ProviderSetup, settings: Fields, after: ProviderSetup) {
    SpeechStored(before, settings,
      {"enabled", "default", "profile", "fallback_profile", "model", "device", "compute_type", "warm_model",
        "warm_models"},
      after)
  }

  /** The wake config: whether it is on, the wake word as itself and as the model, and the models
      to keep warm, which are all its models where none are named. */
  ghost predicate WakeFilled(before: Fields, settings: Fields, after: Fields) {
    && Field(after, "enabled") == Some(Bool(Get(settings, "enabled") != Bool(false)))
    && Field(after, "provider") == Field(settings, "provider")
    && Field(after, "default_wakeword") ==
       (if "default_wakeword" in settings then Field(settings, "default_wakeword")
        else Field(before, "default_wakeword"))
    && Field(after, "model") ==
       (if "default_wakeword" in settings then Field(settings, "default_wakeword") else Field(before, "model"))
    && Field(after, "warm_model") ==
       Some(Bool(Get(settings, if "warm_model" in settings then "warm_model" else "preload") == Bool(true)))
    && Field(after, "warm_models") ==
       (if Fills(settings, "warm_models") then Field(settings, "warm_models")
        else if Fills(settings, "models") then Field(settings, "models") else Field(before, "warm_models"))
    && (forall key | key !in {"enabled", "provider", "default_wakeword", "model", "warm_model", "warm_models"} ::
          Field(after, key) == Field(before, key))
  }

  ghost predicate WakeStored(before: ProviderSetup, settings: Fields, after: ProviderSetup) {
    && OtherConfigsKept(before, "wake", after) && Supports(before, "wake", after)
    && WakeFilled(ConfigOf(before, "wake"), settings, after.configs["wake"])
    && after.defaultProvider == before.defaultProvider
    && Enables(before.enabled, "wake", Get(settings, "enabled") != Bool(false), after.enabled)
  }

  ghost predicate SettingsStored(kind: Kind, before: ProviderSetup, settings: Fields, after: ProviderSetup) {
    match kind
    case SttSettings => SttStored(before, settings, after)
    case TtsSettings => TtsStored(before, settings, after)
    case WakeSettings => WakeStored(before, settings, after)
  }

  // ---- the merges do that ----

  lemma {:induction false} WithoutCounts(list: seq<string>, x: string)
    ensures multiset(Without(list, x)) == multiset(list)[x := 0]
  {
    if list != [] {
      WithoutCounts(list[1..], x);
      assert list == [list[0]] + list[1..];
      assert Without(list, x) == (if list[0] == x then [] else [list[0]]) + Without(list[1..], x);
    }
  }

  lemma SwitchEnables(list: seq<string>, provider: string, on: bool)
    ensures Enables(list, provider, on, Switched(list, provider, Some(on)))
  {
    if !on {
      WithoutMembers(list, provider);
      WithoutCounts(list, provider);
      if provider !in list {
        WithoutAbsent(list, provider);
      }
    }
  }

  lemma MergeKeepsOthers(before: ProviderSetup, change: Change)
    ensures OtherConfigsKept(before, change.provider, Merge(before, change))
    ensures Supports(before, change.provider, Merge(before, change))
  {
  }

  lemma BlankOrFilling(settings: Fields, keys: set<string>)
    ensures forall key ::
      Field(NotBlank(map k | k in keys && k in settings :: settings[k]), key) ==
      (if key in keys && Fills(settings, key) then Some(settings[key]) else None)
  {
  }

  lemma SpeechMerges(py: Python, kind: Kind, before: ProviderSetup, settings: Fields, after: ProviderSetup)
    requires kind != WakeSettings && "provider" in settings && settings["provider"].Str?
    requires "enabled" in settings ==> settings["enabled"].Bool?
    requires "default" in settings ==> settings["default"].Bool?
    requires after == Merge(before, ChangeBy(py, kind, settings))
    ensures SpeechStored(before, settings, ConfigFields(kind), after)
  {
    var provider, change := settings["provider"].s, SpeechChange(py, kind, settings);
    assert change.provider == provider;
    MergeKeepsOthers(before, change);
    BlankOrFilling(settings, ConfigFields(kind));
    if "enabled" in settings {
      SwitchEnables(before.enabled, provider, settings["enabled"].b);
    }
  }

  /** The wake settings as the validator returns them. */
  ghost predicate WakeTyped(settings: Fields) {
    && "provider" in settings && settings["provider"].Str? && settings["provider"] != Str("")
    && (forall key | key in {"enabled", "warm_model", "preload"} && key in settings :: settings[key].Bool?)
    && (forall key | key in {"models", "warm_models"} :: key in settings && settings[key].List?)
    && ("default_wakeword" in settings ==>
          settings["default_wakeword"].Str? && settings["default_wakeword"].s != ""
          && Trimmed(settings["default_wakeword"].s))
  }

  lemma WakewordText(py: Python, settings: Fields)
    requires WakeTyped(settings)
    ensures Str(py.TextOf(Field(settings, "default_wakeword"))) ==
      if "default_wakeword" in settings then settings["default_wakeword"] else Str("")
  {
    if "default_wakeword" in settings {
      StripTrims(settings["default_wakeword"].s);
    }
  }

  lemma WakeConfigFlags(py: Python, settings: Fields)
    requires WakeTyped(settings)
    ensures var config := WakeConfig(py, settings);
      && Field(config, "enabled") == Some(Bool(Get(settings, "enabled") != Bool(false)))
      && Field(config, "provider") == Field(settings, "provider")
      && Field(config, "warm_model") ==
         Some(Bool(Get(settings, if "warm_model" in settings then "warm_model" else "preload") == Bool(true)))
  {
  }

  lemma WakeConfigWords(py: Python, settings: Fields)
    requires WakeTyped(settings)
    ensures var config := WakeConfig(py, settings);
      && Field(config, "default_wakeword") == Field(settings, "default_wakeword")
      && Field(config, "model") == Field(settings, "default_wakeword")
  {
    WakewordText(py, settings);
    assert Field(settings, "default_wakeword") ==
      if "default_wakeword" in settings then Some(settings["default_wakeword"]) else None;
  }

  lemma WakeConfigModels(py: Python, settings: Fields)
    requires WakeTyped(settings)
    ensures Field(WakeConfig(py, settings), "warm_models") ==
      if Fills(settings, "warm_models") then Field(settings, "warm_models")
      else if Fills(settings, "models") then Field(settings, "models") else None
  {
  }

  lemma WakeConfigKeys(py: Python, settings: Fields)
    ensures forall key | key in WakeConfig(py, settings) ::
      key in {"enabled", "provider", "default_wakeword", "model", "warm_model", "warm_models"}
  {
  }

  lemma Overlaid(before: Fields, config: Fields)
    ensures forall key ::
      Field(before + config, key) == (if key in config then Field(config, key) else Field(before, key))
  {
  }

  lemma WakeConfigFills(py: Python, before: Fields, settings: Fields)
    requires WakeTyped(settings)
    ensures WakeFilled(before, settings, before + WakeConfig(py, settings))
  {
    var config := WakeConfig(py, settings);
    WakeConfigFlags(py, settings);
    WakeConfigWords(py, settings);
    WakeConfigModels(py, settings);
    WakeConfigKeys(py, settings);
    FilledBy(before, settings, config);
  }

  lemma FilledBy(before: Fields, settings: Fields, config: Fields)
    requires Field(config, "enabled") == Some(Bool(Get(settings, "enabled") != Bool(false)))
    requires Field(config, "provider") == Field(settings, "provider") && "provider" in settings
    requires Field(config, "warm_model") ==
      Some(Bool(Get(settings, if "warm_model" in settings then "warm_model" else "preload") == Bool(true)))
    requires Field(config, "default_wakeword") == Field(settings, "default_wakeword")
    requires Field(config, "model") == Field(settings, "default_wakeword")
    requires Field(config, "warm_models") ==
      if Fills(settings, "warm_models") then Field(settings, "warm_models")
      else if Fills(settings, "models") then Field(settings, "models") else None
    requires forall key | key in config ::
      key in {"enabled", "provider", "default_wakeword", "model", "warm_model", "warm_models"}
    ensures WakeFilled(before, settings, before + config)
  {
    Overlaid(before, config);
  }

  lemma WakeMerges(py: Python, before: ProviderSetup, settings: Fields, after: ProviderSetup)
    requires WakeTyped(settings) && after == Merge(before, ChangeBy(py, WakeSettings, settings))
    ensures WakeStored(before, settings, after)
  {
    MergeKeepsOthers(before, WakeChange(py, settings));
    WakeConfigFills(py, ConfigOf(before, "wake"), settings);
    SwitchEnables(before.enabled, "wake", SwitchOf(settings) != Some(false));
  }

  lemma KeptText(py: Python, m: Fields, d: Fields, names: set<string>)
    requires TextKept(py, m, d, "provider") && TextAt(py, m, "provider") in names && "" !in names
    ensures "provider" in d && d["provider"].Str? && d["provider"].s in names
  {
  }

  lemma FlagsTyped(m: Fields, d: Fields, keys: set<string>)
    requires forall key | key in keys :: FlagKept(m, d, key)
    ensures forall key | key in keys && key in d :: d[key].Bool?
  {
  }

  lemma RenamedTrimmed(name: string)
    requires Trimmed(name)
    ensures Trimmed(Renamed(name))
  {
    StripTrims("Hexe");
  }

  ghost predicate SttTyped(d: Fields) {
    && "provider" in d && d["provider"].Str?
    && d["provider"].s in {"deterministic", "openai", "faster_whisper", "external_faster_whisper"}
    && forall key | key in {"enabled", "default"} && key in d :: d[key].Bool?
  }

  lemma SttHoldsTyped(py: Python, m: Fields, d: Fields)
    requires SttHolds(py, m, d)
    ensures SttTyped(d)
  {
    KeptText(py, m, d, {"deterministic", "openai", "faster_whisper", "external_faster_whisper"});
    FlagsTyped(m, d, {"enabled", "default", "warm_model", "preload", "auto_download"});
  }

  lemma SttResultTyped(py: Python, payload: Json)
    requires Validate(py, FormOf(SttSettings), payload).Ok?
    ensures SttTyped(Validate(py, FormOf(SttSettings), payload).value)
  {
    SttValidated(py, payload);
    SttHoldsTyped(py, payload.fields, Validate(py, FormOf(SttSettings), payload).value);
  }

  ghost predicate TtsTyped(d: Fields) {
    && "provider" in d && d["provider"].Str?
    && d["provider"].s in {"deterministic", "openai", "piper"}
    && forall key | key in {"enabled", "default"} && key in d :: d[key].Bool?
  }

  lemma TtsHoldsTyped(py: Python, m: Fields, d: Fields)
    requires TtsHolds(py, m, d)
    ensures TtsTyped(d)
  {
    KeptText(py, m, d, {"deterministic", "openai", "piper"});
    FlagsTyped(m, d, {"enabled", "default"});
  }

  lemma TtsResultTyped(py: Python, payload: Json)
    requires Validate(py, FormOf(TtsSettings), payload).Ok?
    ensures TtsTyped(Validate(py, FormOf(TtsSettings), payload).value)
  {
    TtsValidated(py, payload);
    TtsHoldsTyped(py, payload.fields, Validate(py, FormOf(TtsSettings), payload).value);
  }

  lemma WakewordTyped(py: Python, m: Fields, d: Fields)
    requires var wakeword := Renamed(TextAt(py, m, "default_wakeword"));
      if wakeword == "" then "default_wakeword" !in d
      else "default_wakeword" in d && d["default_wakeword"] == Str(wakeword)
    ensures "default_wakeword" in d ==>
      d["default_wakeword"].Str? && d["default_wakeword"].s != "" && Trimmed(d["default_wakeword"].s)
  {
    TextIsText(py, m, "default_wakeword");
    StripTrims(TextAt(py, m, "default_wakeword"));
    RenamedTrimmed(TextAt(py, m, "default_wakeword"));
  }

  lemma ListsTyped(py: Python, m: Fields, d: Fields, keys: set<string>)
    requires forall key | key in keys :: ListKept(py, m, d, key, true)
    ensures forall key | key in keys :: key in d && d[key].List?
  {
    forall key | key in keys ensures key in d && d[key].List? {
      assert ListKept(py, m, d, key, true);
    }
  }

  lemma WakeHoldsTyped(py: Python, m: Fields, d: Fields)
    requires WakeHolds(py, m, d)
    ensures WakeTyped(d)
  {
    KeptText(py, m, d, {"deterministic", "openwakeword", "supervised_openwakeword"});
    FlagsTyped(m, d,
      {"enabled", "warm_model", "auto_download_models", "preload", "enable_speex_noise_suppression"});
    ListsTyped(py, m, d, {"models", "warm_models"});
    WakewordTyped(py, m, d);
  }

  lemma WakeResultTyped(py: Python, payload: Json)
    requires Validate(py, FormOf(WakeSettings), payload).Ok?
    ensures WakeTyped(Validate(py, FormOf(WakeSettings), payload).value)
  {
    WakeValidated(py, payload);
    WakeHoldsTyped(py, payload.fields, Validate(py, FormOf(WakeSettings), payload).value);
  }

  /** What merging validated settings does, for each of the three sections. */
  lemma ValidatedMerges(py: Python, kind: Kind, payload: Json, before: ProviderSetup, after: ProviderSetup)
    requires Validate(py, FormOf(kind), payload).Ok?
    requires after == Merge(before, ChangeBy(py, kind, Validate(py, FormOf(kind), payload).value))
    ensures SettingsStored(kind, before, Validate(py, FormOf(kind), payload).value, after)
  {
    var settings := Validate(py, FormOf(kind), payload).value;
    match kind
    case SttSettings =>
      SttResultTyped(py, payload);
      SpeechMerges(py, kind, before, settings, after);
    case TtsSettings =>
      TtsResultTyped(py, payload);
      SpeechMerges(py, kind, before, settings, after);
    case WakeSettings =>
      WakeResultTyped(py, payload);
      WakeMerges(py, before, settings, after);
  }

  // ---- the whole import ----

  /** A section that is missing or null changes nothing; one that is there is valid and merged. */
  ghost predicate SectionMerged(py: Python, kind: Kind, payload: Json, before: ProviderSetup, after: ProviderSetup) {
    if payload == Null then after == before
    else
      var settings := Validate(py, FormOf(kind), payload);
      settings.Ok? && SettingsStored(kind, before, settings.value, after)
  }

  function FileName(kind: Kind): string {
    match kind
    case TtsSettings => "voice_tts_provider_settings"
    case SttSettings => "voice_stt_settings"
    case WakeSettings => "voice_wake_settings"
  }

  /** The sections are merged one after the other; `setups` are those before and after each. */
  ghost predicate AllMerged(py: Python, files: Fields, kinds: seq<Kind>, setups: seq<ProviderSetup>) {
    && |setups| == |kinds| + 1
    && forall i | 0 <= i < |kinds| ::
         SectionMerged(py, kinds[i], Get(files, FileName(kinds[i])), setups[i], setups[i + 1])
  }

  lemma {:induction false} SettingsLast(env: Env, files: Fields, setup: ProviderSetup, sections: seq<Section>,
      kind: Kind, before: ProviderSetup, after: ProviderSetup)
    requires sections != [] && sections[|sections| - 1] == Settings(kind) && SettingsValid(env, files, kind)
    requires before == MergeAll(setup, SettingsChanges(env, files, sections[..|sections| - 1]))
    requires after == MergeAll(setup, SettingsChanges(env, files, sections))
    ensures SectionMerged(env.py, kind, Get(files, FileName(kind)), before, after)
  {
    if Present(files, Settings(kind)) {
      var earlier := SettingsChanges(env, files, sections[..|sections| - 1]);
      var settings := Validate(env.py, FormOf(kind), Payload(files, Settings(kind))).value;
      MergeOneMore(setup, earlier, ChangeBy(env.py, kind, settings));
      ValidatedMerges(env.py, kind, Payload(files, Settings(kind)), before, after);
    }
  }

  lemma {:induction false} NoSettings(env: Env, files: Fields, sections: seq<Section>)
    requires forall section | section in sections :: !section.Settings?
    ensures SettingsChanges(env, files, sections) == []
    decreases |sections|
  {
    if sections != [] {
      NoSettings(env, files, sections[..|sections| - 1]);
    }
  }

  /** The setup after the sections up to some place. */
  function SetupAt(env: Env, files: Fields, setup: ProviderSetup, sections: seq<Section>, n: nat): ProviderSetup
    requires n <= |sections|
  {
    MergeAll(setup, SettingsChanges(env, files, sections[..n]))
  }

  lemma {:induction false} SetupMoves(env: Env, files: Fields, setup: ProviderSetup, sections: seq<Section>, n: nat,
      kind: Kind, before: ProviderSetup, after: ProviderSetup)
    requires n < |sections| && sections[n] == Settings(kind) && SettingsValid(env, files, kind)
    requires before == SetupAt(env, files, setup, sections, n)
    requires after == SetupAt(env, files, setup, sections, n + 1)
    ensures SectionMerged(env.py, kind, Get(files, FileName(kind)), before, after)
  {
    assert sections[..n + 1][..n] == sections[..n];
    SettingsLast(env, files, setup, sections[..n + 1], kind, before, after);
  }

  /** The setups around the sections from some place on. */
  ghost predicate Around(env: Env, files: Fields, setup: ProviderSetup, sections: seq<Section>, n: nat,
    setups: seq<ProviderSetup>) {
    && n + |setups| == |sections| + 1
    && forall i | 0 <= i < |setups| :: setups[i] == SetupAt(env, files, setup, sections, n + i)
  }

  lemma {:induction false} SetupMovesOn(env: Env, files: Fields, setup: ProviderSetup, sections: seq<Section>, n: nat,
      kinds: seq<Kind>, setups: seq<ProviderSetup>, i: nat)
    requires i < |kinds| && n + |kinds| == |sections| && sections[n + i] == Settings(kinds[i])
    requires SettingsValid(env, files, kinds[i]) && Around(env, files, setup, sections, n, setups)
    ensures SectionMerged(env.py, kinds[i], Get(files, FileName(kinds[i])), setups[i], setups[i + 1])
  {
    SetupMoves(env, files, setup, sections, n + i, kinds[i], setups[i], setups[i + 1]);
  }

  lemma {:induction false} SetupMerges(env: Env, files: Fields, setup: ProviderSetup, sections: seq<Section>, n: nat,
      kinds: seq<Kind>) returns (setups: seq<ProviderSetup>)
    requires n + |kinds| == |sections| && forall i | 0 <= i < |kinds| :: sections[n + i] == Settings(kinds[i])
    requires forall kind :: SettingsValid(env, files, kind)
    ensures AllMerged(env.py, files, kinds, setups)
    ensures setups[0] == SetupAt(env, files, setup, sections, n)
    ensures setups[|kinds|] == SetupAt(env, files, setup, sections, |sections|)
  {
    setups := seq(|kinds| + 1, i requires 0 <= i <= |kinds| => SetupAt(env, files, setup, sections, n + i));
    assert Around(env, files, setup, sections, n, setups);
    forall i | 0 <= i < |kinds|
      ensures SectionMerged(env.py, kinds[i], Get(files, FileName(kinds[i])), setups[i], setups[i + 1])
    {
      SetupMovesOn(env, files, setup, sections, n, kinds, setups, i);
    }
  }

  lemma {:induction false} SetupStarts(env: Env, files: Fields, setup: ProviderSetup, sections: seq<Section>, n: nat)
    requires n <= |sections| && forall i | 0 <= i < n :: !sections[i].Settings?
    ensures SetupAt(env, files, setup, sections, n) == setup
  {
    NoSettings(env, files, sections[..n]);
  }

  lemma {:induction false} PresentIsValid(env: Env, req: Request, stores: Stores, kind: Kind)
    requires Import(env, req, stores).report.Ok?
    ensures SettingsValid(env, StateFiles(req.bundle).value, kind)
  {
    AcceptedBundles(env, req, stores);
    SettingsListed(kind);
    var files := StateFiles(req.bundle).value;
    var i :| 0 <= i < |SECTIONS| && SECTIONS[i] == Settings(kind);
    if Present(files, Settings(kind)) {
      assert Present(files, SECTIONS[i]);
      assert Check(env, req, SECTIONS[i], Get(files, Name(SECTIONS[i]))).Ok?;
    }
  }

  /** The onboarding state that the settings are merged into: the one of the bundle or the stored one. */
  function StateGiven(env: Env, files: Fields, stored: Onboarding): Onboarding {
    var payload := Get(files, "onboarding_state");
    if payload != Null && env.onboardingModel(payload).Ok? then env.onboardingModel(payload).value else stored
  }

  ghost predicate SettingsValid(env: Env, files: Fields, kind: Kind) {
    Present(files, Settings(kind)) ==> Validate(env.py, FormOf(kind), Payload(files, Settings(kind))).Ok?
  }

  /** A successful import merges the text-to-speech, the speech-to-text and the wake settings, one
      after the other, into the setup of the onboarding state. */
  lemma {:induction false} ImportedSetup(env: Env, req: Request, stores: Stores)
      returns (setups: seq<ProviderSetup>)
    requires Import(env, req, stores).report.Ok?
    ensures
      var files := StateFiles(req.bundle).value;
      && AllMerged(env.py, files, [TtsSettings, SttSettings, WakeSettings], setups)
      && setups[0] == StateGiven(env, files, stores.onboarding).setup
      && setups[3] == Import(env, req, stores).stores.onboarding.setup
  {
    var files, kinds := StateFiles(req.bundle).value, [TtsSettings, SttSettings, WakeSettings];
    var setup := StateGiven(env, files, stores.onboarding).setup;
    forall kind ensures SettingsValid(env, files, kind) {
      PresentIsValid(env, req, stores, kind);
    }
    ProviderPlaces(kinds);
    SetupStarts(env, files, setup, SECTIONS, 4);
    setups := SetupMerges(env, files, setup, SECTIONS, 4, kinds);
    SetupEnds(env, req, stores);
  }

  lemma ProviderPlaces(kinds: seq<Kind>)
    requires kinds == [TtsSettings, SttSettings, WakeSettings]
    ensures |SECTIONS| == 7 && forall i | 0 <= i < 4 :: !SECTIONS[i].Settings?
    ensures forall i | 0 <= i < 3 :: SECTIONS[4 + i] == Settings(kinds[i])
  {
  }

  lemma {:induction false} SetupEnds(env: Env, req: Request, stores: Stores)
    requires Import(env, req, stores).report.Ok?
    ensures |SECTIONS| == 7
    ensures var files := StateFiles(req.bundle).value;
      Import(env, req, stores).stores.onboarding.setup ==
        SetupAt(env, files, StateGiven(env, files, stores.onboarding).setup, SECTIONS, 7)
  {
    ImportStores(env, req, stores);
    AmongSections(StateFiles(req.bundle).value);
    assert SECTIONS[..7] == SECTIONS;
  }

  /** The addresses and the host name after a successful import: those given for the destination
      where some are, else those of the onboarding state in the bundle; without one all is as stored. */
  lemma {:induction false} ImportedAddress(env: Env, req: Request, stores: Stores)
    requires Import(env, req, stores).report.Ok?
    ensures
      var files, after := StateFiles(req.bundle).value, Import(env, req, stores).stores.onboarding;
      var given := StateGiven(env, files, stores.onboarding);
      && after.trustStatus == given.trustStatus && after.rest == given.rest
      && after.address.nodeId == given.address.nodeId
      && if Get(files, "onboarding_state") == Null then
           after.address == stores.onboarding.address && after.hostname == stores.onboarding.hostname
         else
           && env.onboardingModel(Get(files, "onboarding_state")).Ok?
           && after.address.coreBaseUrl ==
              (if req.destination.coreBaseUrl.Some? then req.destination.coreBaseUrl else given.address.coreBaseUrl)
           && after.address.apiBaseUrl ==
              (if req.destination.apiBaseUrl.Some? then req.destination.apiBaseUrl else given.address.apiBaseUrl)
           && after.address.uiEndpoint ==
              (if req.destination.uiEndpoint.Some? then req.destination.uiEndpoint else given.address.uiEndpoint)
           && after.hostname ==
              (if req.hostname.Some? && req.hostname.value != "" then req.hostname else given.hostname)
  {
    ImportStores(env, req, stores);
    AmongSections(StateFiles(req.bundle).value);
    StateIsValid(env, req, stores);
  }

  lemma {:induction false} StateIsValid(env: Env, req: Request, stores: Stores)
    requires Import(env, req, stores).report.Ok?
    ensures var payload := Get(StateFiles(req.bundle).value, "onboarding_state");
      payload != Null ==> env.onboardingModel(payload).Ok?
  {
    AcceptedBundles(env, req, stores);
    assert SECTIONS[0] == OnboardingState;
  }

  // ---- refusals ----

  /** Which bundles are opened, and with which error the others are refused. */
  lemma {:induction false} BundleOpens(bundle: Json)
    ensures
      if !bundle.Dict? then StateFiles(bundle) == Err("migration_bundle_must_be_object")
      else if Get(bundle.fields, "schema_version") !in {Int(1), Bool(true), Float(1_000_000)} then
        StateFiles(bundle) == Err("unsupported_migration_schema_version")
      else
        var files := Get(bundle.fields, "state_files");
        if !files.Dict? then StateFiles(bundle) == Err("migration_state_files_missing")
        else if IsTrue(Get(bundle.fields, "contains_trust_secrets")) || (exists path :: SecretAt(files, path)) then
          StateFiles(bundle) == Err("migration_bundle_contains_trust_secrets")
        else StateFiles(bundle) == Ok(files.fields)
  {
    if bundle.Dict? {
      TruthIsTrue(Get(bundle.fields, "contains_trust_secrets"));
      ContainsSecretExactly(Get(bundle.fields, "state_files"));
    }
  }

  ghost predicate Fails(env: Env, req: Request, files: Fields, section: Section) {
    Present(files, section) && Check(env, req, section, Payload(files, section)).Err?
  }

  /** The first section that fails decides the error. */
  lemma {:induction false} SectionsFail(env: Env, req: Request, files: Fields, sections: seq<Section>, i: nat)
    requires i < |sections| && Fails(env, req, files, sections[i])
    requires forall j | 0 <= j < i :: !Fails(env, req, files, sections[j])
    ensures PlanSections(env, req, files, sections) ==
      Err(Check(env, req, sections[i], Payload(files, sections[i])).error)
    decreases |sections|
  {
    var front := sections[..|sections| - 1];
    if i < |front| {
      SectionsFail(env, req, files, front, i);
    } else {
      PlanFitsAll(env, req, files, front);
      assert AllPass(env, req, files, front) by {
        forall j | 0 <= j < |front| && Present(files, front[j])
          ensures Check(env, req, front[j], Get(files, Name(front[j]))).Ok?
        {
          assert !Fails(env, req, files, sections[j]);
        }
      }
    }
  }

  /** With which error a dry run and an import are refused: that of the bundle, else that of the
      first section that fails, else that there is no section at all. */
  lemma {:induction false} RefusedWith(env: Env, req: Request, stores: Stores, i: nat)
    ensures Plan(env, req).Err? ==> Import(env, req, stores).report == Err(Plan(env, req).error)
    ensures StateFiles(req.bundle).Err? ==> Plan(env, req) == Err(StateFiles(req.bundle).error)
    ensures
      StateFiles(req.bundle).Ok? && i < |SECTIONS| ==>
        var files := StateFiles(req.bundle).value;
        Fails(env, req, files, SECTIONS[i]) && (forall j | 0 <= j < i :: !Fails(env, req, files, SECTIONS[j])) ==>
          Plan(env, req) == Err(Check(env, req, SECTIONS[i], Payload(files, SECTIONS[i])).error)
    ensures
      StateFiles(req.bundle).Ok? && PresentNames(StateFiles(req.bundle).value, SECTIONS) == [] ==>
        Plan(env, req) == Err("migration_bundle_contains_no_supported_state_files")
  {
    DryRunForetells(env, req, stores);
    if StateFiles(req.bundle).Ok? {
      var files := StateFiles(req.bundle).value;
      if i < |SECTIONS| && Fails(env, req, files, SECTIONS[i])
         && forall j | 0 <= j < i :: !Fails(env, req, files, SECTIONS[j])
      {
        SectionsFail(env, req, files, SECTIONS, i);
      }
      if PresentNames(files, SECTIONS) == [] {
        NothingThere(env, req, files);
      }
    }
  }

  lemma {:induction false} NothingThere(env: Env, req: Request, files: Fields)
    requires PresentNames(files, SECTIONS) == []
    ensures PlanSections(env, req, files, SECTIONS).Ok? && PlanSections(env, req, files, SECTIONS).value.files == []
  {
    PlanFitsAll(env, req, files, SECTIONS);
    forall i | 0 <= i < |SECTIONS| ensures !Present(files, SECTIONS[i]) {
      if Present(files, SECTIONS[i]) {
        SomethingPresent(files, SECTIONS, SECTIONS[i]);
      }
    }
  }

  // ---- warnings ----

  /** What a section that is there warns of: a node that was not trusted, downloads, a graphics
      card that was in use, wake models. */
  function SectionWarnings(env: Env, section: Section, payload: Json): seq<Warning> {
    match section
    case OnboardingState =>
      var state := env.onboardingModel(payload);
      if state.Ok? && state.value.trustStatus != "trusted" then [Reauthorize] else []
    case Settings(TtsSettings) => [TtsDownloads]
    case Settings(SttSettings) =>
      var settings := Validate(env.py, FormOf(SttSettings), payload);
      if settings.Ok? && Get(settings.value, "device") == Str("cuda") then [SttDownloads, SttCuda] else [SttDownloads]
    case Settings(WakeSettings) => [WakeModels]
    case _ => []
  }

  function Warnings(env: Env, files: Fields, sections: seq<Section>): seq<Warning>
    decreases |sections|
  {
    if sections == [] then []
    else
      var earlier, last := Warnings(env, files, sections[..|sections| - 1]), sections[|sections| - 1];
      if Payload(files, last) == Null then earlier else earlier + SectionWarnings(env, last, Payload(files, last))
  }

  lemma NotedWarns(env: Env, req: Request, section: Section, payload: Json, report: Report, address: Address)
    requires Check(env, req, section, payload).Ok?
    ensures Noted(report, section, Check(env, req, section, payload).value, address).warnings ==
      report.warnings + SectionWarnings(env, section, payload)
  {
  }

  lemma {:induction false} SectionsWarn(env: Env, req: Request, files: Fields, sections: seq<Section>)
    requires PlanSections(env, req, files, sections).Ok?
    ensures PlanSections(env, req, files, sections).value.warnings == Warnings(env, files, sections)
    decreases |sections|
  {
    if sections != [] {
      var front, last := sections[..|sections| - 1], sections[|sections| - 1];
      SectionsWarn(env, req, files, front);
      var report, payload := PlanSections(env, req, files, front).value, Payload(files, last);
      if payload != Null {
        var content := Check(env, req, last, payload).value;
        NotedWarns(env, req, last, payload, report,
          if content.Onboarded? then content.state.address else report.address);
      }
    }
  }

  /** A successful import, and its dry run, give the warnings of the sections that are there, in
      their order, and then the one about files to be copied. */
  lemma {:induction false} ImportedWarnings(env: Env, req: Request, stores: Stores)
    requires Import(env, req, stores).report.Ok?
    ensures Plan(env, req).Ok? && Plan(env, req).value.warnings == Import(env, req, stores).report.value.warnings
    ensures Import(env, req, stores).report.value.warnings ==
      Warnings(env, StateFiles(req.bundle).value, SECTIONS) + [CopySeparately]
  {
    DryRunForetells(env, req, stores);
    SectionsWarn(env, req, StateFiles(req.bundle).value, SECTIONS);
  }
}
