/** The three settings validators refuse and keep exactly what `SettingsMeaning` says. */
module SettingsValidated {
  import opened MigrationJson
  import opened ProviderSettings
  import opened SettingsMeaning
  import opened SettingsNormalForm
  import opened Wrappers

  ghost predicate AllBecome(py: Python, form: Form, m: Fields, d: Fields) {
    && (forall key | key in d :: key in form.order)
    && (forall key | key in form.order :: Becomes(py, form.rule(key), m, d, key))
  }

  lemma {:induction false} AcceptedAllBecome(py: Python, form: Form, m: Fields)
    requires Validate(py, form, Dict(m)).Ok?
    ensures AllBecome(py, form, m, Validate(py, form, Dict(m)).value)
    ensures forall i | 0 <= i < |form.order| :: !WrongKey(py, form, m, form.order[i])
  {
    AcceptedExactly(py, form, Dict(m));
    forall key | key in form.order
      ensures Becomes(py, form.rule(key), m, Validate(py, form, Dict(m)).value, key) && !WrongKey(py, form, m, key)
    {
      AcceptedBecomes(py, form, m, key);
    }
  }

  // ---- the speech-to-text form ----

  lemma SttRules()
    ensures SttRule("provider") == Provider({"deterministic", "openai", "faster_whisper", "external_faster_whisper"})
    ensures SttRule("enabled") == Flag && SttRule("default") == Flag && SttRule("warm_model") == Flag
    ensures SttRule("preload") == Flag && SttRule("auto_download") == Flag
    ensures SttRule("model") == Rule.Text && SttRule("device") == Rule.Text && SttRule("compute_type") == Rule.Text
    ensures SttRule("profile") == Profile(true) && SttRule("fallback_profile") == Profile(false)
    ensures SttRule("warm_models") == NameList(false)
    ensures SttRule("service") == Rule.Section && SttRule("faster_whisper") == Rule.Section
  {
  }

  /** Which fields of the form are wrong, by their place in it. */
  ghost predicate SttWrongHere(py: Python, m: Fields, i: nat) {
    || (i == 0
        && TextAt(py, m, "provider") !in {"deterministic", "openai", "faster_whisper", "external_faster_whisper"})
    || (i == 9 && WrongProfile(py, TextAt(py, m, "profile")) && TextAt(py, m, "profile") != "custom_legacy")
    || (i == 10 && WrongProfile(py, TextAt(py, m, "fallback_profile")))
    || (i == 11 && WrongList(m, "warm_models"))
    || (i == 12 && WrongSection(m, "service"))
    || (i == 13 && WrongSection(m, "faster_whisper"))
  }

  lemma SttWrongAt(py: Python, m: Fields, i: nat)
    requires i < 14
    ensures WrongKey(py, FormOf(SttSettings), m, FormOf(SttSettings).order[i]) <==> SttWrongHere(py, m, i)
  {
    if i < 7 {
      SttWrongFirst(py, m, i);
    } else {
      SttWrongLater(py, m, i);
    }
  }

  lemma SttWrongFirst(py: Python, m: Fields, i: nat)
    requires i < 7
    ensures WrongKey(py, FormOf(SttSettings), m, FormOf(SttSettings).order[i]) <==> SttWrongHere(py, m, i)
  {
    SttRules();
  }

  lemma SttWrongLater(py: Python, m: Fields, i: nat)
    requires 7 <= i < 14
    ensures WrongKey(py, FormOf(SttSettings), m, FormOf(SttSettings).order[i]) <==> SttWrongHere(py, m, i)
  {
    SttRules();
  }

  lemma SttComplaint(key: string)
    requires key in {"provider", "profile", "fallback_profile", "warm_models", "service", "faster_whisper"}
    ensures FormOf(SttSettings).Complaint(key) == Error("voice_stt_settings", key,
      if key == "warm_models" then "_must_be_list"
      else if key in {"service", "faster_whisper"} then "_must_be_object" else "_invalid")
  {
    SttRules();
  }

  lemma SttDecided(py: Python, m: Fields, i: nat)
    requires i < 14 && WrongKey(py, FormOf(SttSettings), m, FormOf(SttSettings).order[i])
    requires forall j | 0 <= j < i :: !WrongKey(py, FormOf(SttSettings), m, FormOf(SttSettings).order[j])
    ensures SttError(py, m).Some?
    ensures SttError(py, m).value == FormOf(SttSettings).Complaint(FormOf(SttSettings).order[i])
  {
    SttWrongAt(py, m, i);
    SttComplaint(FormOf(SttSettings).order[i]);
    if i > 0 {
      SttWrongAt(py, m, 0);
    }
    if i > 9 {
      SttWrongAt(py, m, 9);
    }
    if i > 10 {
      SttWrongAt(py, m, 10);
    }
    if i > 11 {
      SttWrongAt(py, m, 11);
    }
    if i > 12 {
      SttWrongAt(py, m, 12);
    }
  }

  lemma SttPlace(key: string)
    requires key in {
      "provider", "enabled", "default", "warm_model", "preload", "auto_download", "model", "device",
      "compute_type", "profile", "fallback_profile", "warm_models", "service", "faster_whisper"}
    ensures key in FormOf(SttSettings).order
  {
    var order := FormOf(SttSettings).order;
    assert order[0] == "provider" && order[1] == "enabled" && order[2] == "default";
    assert order[3] == "warm_model" && order[4] == "preload" && order[5] == "auto_download";
    assert order[6] == "model" && order[7] == "device" && order[8] == "compute_type";
    assert order[9] == "profile" && order[10] == "fallback_profile" && order[11] == "warm_models";
    assert order[12] == "service" && order[13] == "faster_whisper";
  }

  lemma SttBecomes(py: Python, m: Fields, d: Fields, key: string)
    requires AllBecome(py, FormOf(SttSettings), m, d) && key in FormOf(SttSettings).order
    ensures Becomes(py, SttRule(key), m, d, key)
  {
  }

  lemma SttProviderKept(py: Python, m: Fields, d: Fields)
    requires Becomes(py, SttRule("provider"), m, d, "provider") && !SttWrongHere(py, m, 0)
    ensures TextKept(py, m, d, "provider")
  {
    assert SttRule("provider").Provider?;
  }

  lemma SttFlagKept(py: Python, m: Fields, d: Fields, key: string)
    requires Becomes(py, SttRule(key), m, d, key)
    requires key in {"enabled", "default", "warm_model", "preload", "auto_download"}
    ensures FlagKept(m, d, key)
  {
    assert SttRule(key) == Flag;
  }

  lemma SttTextKept(py: Python, m: Fields, d: Fields, key: string)
    requires Becomes(py, SttRule(key), m, d, key) && key in {"model", "device", "compute_type"}
    ensures TextKept(py, m, d, key)
  {
    assert SttRule(key) == Rule.Text;
  }

  lemma SttFallbackKept(py: Python, m: Fields, d: Fields, key: string)
    requires Becomes(py, SttRule(key), m, d, key) && key in {"fallback_profile"}
    ensures TextKept(py, m, d, key)
  {
    assert SttRule(key) == Profile(false);
  }

  lemma SttProfileKept(py: Python, m: Fields, d: Fields, key: string)
    requires Becomes(py, SttRule(key), m, d, key) && key in {"profile"}
    ensures if TextAt(py, m, key) == "custom_legacy" then key !in d else TextKept(py, m, d, key)
  {
    assert SttRule(key) == Profile(true);
  }

  lemma SttListKept(py: Python, m: Fields, d: Fields, key: string)
    requires Becomes(py, SttRule(key), m, d, key) && key in {"warm_models"}
    ensures ListKept(py, m, d, key, false)
  {
    assert SttRule(key) == NameList(false);
  }

  lemma SttSectionKept(py: Python, m: Fields, d: Fields, key: string)
    requires Becomes(py, SttRule(key), m, d, key) && key in {"service", "faster_whisper"}
    ensures SectionKept(m, d, key)
  {
    assert SttRule(key) == Rule.Section;
  }

  lemma SttKeptAll(py: Python, m: Fields, d: Fields)
    requires AllBecome(py, FormOf(SttSettings), m, d) && !SttWrongHere(py, m, 0)
    ensures SttHolds(py, m, d)
  {
    SttPlace("provider");
    SttBecomes(py, m, d, "provider");
    SttProviderKept(py, m, d);
    forall key | key in {"enabled", "default", "warm_model", "preload", "auto_download"}
      ensures FlagKept(m, d, key)
    {
      SttPlace(key);
      SttBecomes(py, m, d, key);
      SttFlagKept(py, m, d, key);
    }
    forall key | key in {"model", "device", "compute_type"}
      ensures TextKept(py, m, d, key)
    {
      SttPlace(key);
      SttBecomes(py, m, d, key);
      SttTextKept(py, m, d, key);
    }
    SttPlace("fallback_profile");
    SttBecomes(py, m, d, "fallback_profile");
    SttFallbackKept(py, m, d, "fallback_profile");
    SttPlace("profile");
    SttBecomes(py, m, d, "profile");
    SttProfileKept(py, m, d, "profile");
    SttPlace("warm_models");
    SttBecomes(py, m, d, "warm_models");
    SttListKept(py, m, d, "warm_models");
    forall key | key in {"service", "faster_whisper"}
      ensures SectionKept(m, d, key)
    {
      SttPlace(key);
      SttBecomes(py, m, d, key);
      SttSectionKept(py, m, d, key);
    }
    SttKeys(d);
  }

  lemma SttKeys(d: Fields)
    requires forall key | key in d :: key in FormOf(SttSettings).order
    ensures SttNames(d)
  {
  }

  /** `_validate_stt_settings` refuses with the first error or holds exactly these fields. */
  lemma {:induction false} SttValidated(py: Python, payload: Json)
    ensures var result := Validate(py, FormOf(SttSettings), payload);
      if !payload.Dict? then result == Err("voice_stt_settings" + "_must_be_object")
      else if SttError(py, payload.fields).Some? then result == Err(SttError(py, payload.fields).value)
      else result.Ok? && SttHolds(py, payload.fields, result.value)
  {
    if payload.Dict? {
      var form, m := FormOf(SttSettings), payload.fields;
      assert payload == Dict(m);
      if Validate(py, form, payload).Err? {
        var k := FirstRefusedIsWrong(py, form, m);
        SttDecided(py, m, k);
      } else {
        AcceptedAllBecome(py, form, m);
        SttNoError(py, m);
        SttKeptAll(py, m, Validate(py, form, payload).value);
      }
    }
  }

  lemma SttNoError(py: Python, m: Fields)
    requires forall i | 0 <= i < 14 :: !WrongKey(py, FormOf(SttSettings), m, FormOf(SttSettings).order[i])
    ensures SttError(py, m).None? && !SttWrongHere(py, m, 0)
  {
    SttWrongAt(py, m, 0);
    SttWrongAt(py, m, 9);
    SttWrongAt(py, m, 10);
    SttWrongAt(py, m, 11);
    SttWrongAt(py, m, 12);
    SttWrongAt(py, m, 13);
  }

  // ---- the text-to-speech form ----

  lemma TtsRules()
    ensures TtsRule("provider") == Provider({"deterministic", "openai", "piper"})
    ensures TtsRule("enabled") == Flag && TtsRule("default") == Flag
    ensures TtsRule("model") == Rule.Text && TtsRule("default_voice") == Rule.Text
      && TtsRule("conversion_policy") == Rule.Text
    ensures TtsRule("output_sample_rate_hz") == Whole(false) && TtsRule("warm_models") == NameList(false)
    ensures TtsRule("endpoint_voices") == Rule.Section && TtsRule("endpoint_sample_rates") == Rule.Section
    ensures TtsRule("conversion_sample_rates") == Rule.Section && TtsRule("piper") == Rule.Section
  {
  }

  /** Which fields of the form are wrong, by their place in it. */
  ghost predicate TtsWrongHere(py: Python, m: Fields, i: nat) {
    || (i == 0 && TextAt(py, m, "provider") !in {"deterministic", "openai", "piper"})
    || (i == 6 && "output_sample_rate_hz" in m && WrongWhole(py, m["output_sample_rate_hz"]))
    || (i == 7 && WrongList(m, "warm_models"))
    || (i == 8 && WrongSection(m, "endpoint_voices"))
    || (i == 9 && WrongSection(m, "endpoint_sample_rates"))
    || (i == 10 && WrongSection(m, "conversion_sample_rates"))
    || (i == 11 && WrongSection(m, "piper"))
  }

  lemma TtsWrongAt(py: Python, m: Fields, i: nat)
    requires i < 12
    ensures WrongKey(py, FormOf(TtsSettings), m, FormOf(TtsSettings).order[i]) <==> TtsWrongHere(py, m, i)
  {
    if i < 6 {
      TtsWrongFirst(py, m, i);
    } else {
      TtsWrongLater(py, m, i);
    }
  }

  lemma TtsWrongFirst(py: Python, m: Fields, i: nat)
    requires i < 6
    ensures WrongKey(py, FormOf(TtsSettings), m, FormOf(TtsSettings).order[i]) <==> TtsWrongHere(py, m, i)
  {
    TtsRules();
  }

  lemma TtsWrongLater(py: Python, m: Fields, i: nat)
    requires 6 <= i < 12
    ensures WrongKey(py, FormOf(TtsSettings), m, FormOf(TtsSettings).order[i]) <==> TtsWrongHere(py, m, i)
  {
    TtsRules();
  }

  lemma TtsComplaint(key: string)
    requires key in {"provider", "output_sample_rate_hz", "warm_models", "endpoint_voices",
      "endpoint_sample_rates", "conversion_sample_rates", "piper"}
    ensures FormOf(TtsSettings).Complaint(key) ==
      Error("voice_tts_provider_settings", if key == "output_sample_rate_hz" then "output_sample_rate" else key,
        if key == "warm_models" then "_must_be_list"
        else if key in {"endpoint_voices", "endpoint_sample_rates", "conversion_sample_rates", "piper"} then
          "_must_be_object" else "_invalid")
  {
    TtsRules();
  }

  lemma TtsDecided(py: Python, m: Fields, i: nat)
    requires i < 12 && WrongKey(py, FormOf(TtsSettings), m, FormOf(TtsSettings).order[i])
    requires forall j | 0 <= j < i :: !WrongKey(py, FormOf(TtsSettings), m, FormOf(TtsSettings).order[j])
    ensures TtsError(py, m).Some?
    ensures TtsError(py, m).value == FormOf(TtsSettings).Complaint(FormOf(TtsSettings).order[i])
  {
    TtsWrongAt(py, m, i);
    TtsComplaint(FormOf(TtsSettings).order[i]);
    if i > 0 {
      TtsWrongAt(py, m, 0);
    }
    if i > 6 {
      TtsWrongAt(py, m, 6);
    }
    if i > 7 {
      TtsWrongAt(py, m, 7);
    }
    if i > 8 {
      TtsWrongAt(py, m, 8);
    }
    if i > 9 {
      TtsWrongAt(py, m, 9);
    }
    if i > 10 {
      TtsWrongAt(py, m, 10);
    }
  }

  lemma TtsPlace(key: string)
    requires key in {
      "provider", "enabled", "default", "model", "default_voice", "conversion_policy",
      "output_sample_rate_hz", "warm_models", "endpoint_voices", "endpoint_sample_rates",
      "conversion_sample_rates", "piper"}
    ensures key in FormOf(TtsSettings).order
  {
    var order := FormOf(TtsSettings).order;
    assert order[0] == "provider" && order[1] == "enabled" && order[2] == "default";
    assert order[3] == "model" && order[4] == "default_voice" && order[5] == "conversion_policy";
    assert order[6] == "output_sample_rate_hz" && order[7] == "warm_models" && order[8] == "endpoint_voices";
    assert order[9] == "endpoint_sample_rates" && order[10] == "conversion_sample_rates" && order[11] == "piper";
  }

  lemma TtsBecomes(py: Python, m: Fields, d: Fields, key: string)
    requires AllBecome(py, FormOf(TtsSettings), m, d) && key in FormOf(TtsSettings).order
    ensures Becomes(py, TtsRule(key), m, d, key)
  {
  }

  lemma TtsProviderKept(py: Python, m: Fields, d: Fields)
    requires Becomes(py, TtsRule("provider"), m, d, "provider") && !TtsWrongHere(py, m, 0)
    ensures TextKept(py, m, d, "provider")
  {
    assert TtsRule("provider").Provider?;
  }

  lemma TtsFlagKept(py: Python, m: Fields, d: Fields, key: string)
    requires Becomes(py, TtsRule(key), m, d, key) && key in {"enabled", "default"}
    ensures FlagKept(m, d, key)
  {
    assert TtsRule(key) == Flag;
  }

  lemma TtsTextKept(py: Python, m: Fields, d: Fields, key: string)
    requires Becomes(py, TtsRule(key), m, d, key) && key in {"model", "default_voice", "conversion_policy"}
    ensures TextKept(py, m, d, key)
  {
    assert TtsRule(key) == Rule.Text;
  }

  lemma TtsRateKept(py: Python, m: Fields, d: Fields, key: string)
    requires Becomes(py, TtsRule(key), m, d, key) && key in {"output_sample_rate_hz"}
    ensures if key in m then WholeKept(py, m, d, key) else key !in d
  {
    assert TtsRule(key) == Whole(false);
  }

  lemma TtsListKept(py: Python, m: Fields, d: Fields, key: string)
    requires Becomes(py, TtsRule(key), m, d, key) && key in {"warm_models"}
    ensures ListKept(py, m, d, key, false)
  {
    assert TtsRule(key) == NameList(false);
  }

  lemma TtsSectionKept(py: Python, m: Fields, d: Fields, key: string)
    requires Becomes(py, TtsRule(key), m, d, key)
    requires key in {"endpoint_voices", "endpoint_sample_rates", "conversion_sample_rates", "piper"}
    ensures SectionKept(m, d, key)
  {
    assert TtsRule(key) == Rule.Section;
  }

  lemma TtsKeptAll(py: Python, m: Fields, d: Fields)
    requires AllBecome(py, FormOf(TtsSettings), m, d) && !TtsWrongHere(py, m, 0)
    ensures TtsHolds(py, m, d)
  {
    TtsPlace("provider");
    TtsBecomes(py, m, d, "provider");
    TtsProviderKept(py, m, d);
    forall key | key in {"enabled", "default"}
      ensures FlagKept(m, d, key)
    {
      TtsPlace(key);
      TtsBecomes(py, m, d, key);
      TtsFlagKept(py, m, d, key);
    }
    forall key | key in {"model", "default_voice", "conversion_policy"}
      ensures TextKept(py, m, d, key)
    {
      TtsPlace(key);
      TtsBecomes(py, m, d, key);
      TtsTextKept(py, m, d, key);
    }
    TtsPlace("output_sample_rate_hz");
    TtsBecomes(py, m, d, "output_sample_rate_hz");
    TtsRateKept(py, m, d, "output_sample_rate_hz");
    TtsPlace("warm_models");
    TtsBecomes(py, m, d, "warm_models");
    TtsListKept(py, m, d, "warm_models");
    forall key | key in {"endpoint_voices", "endpoint_sample_rates", "conversion_sample_rates", "piper"}
      ensures SectionKept(m, d, key)
    {
      TtsPlace(key);
      TtsBecomes(py, m, d, key);
      TtsSectionKept(py, m, d, key);
    }
    TtsKeys(d);
  }

  lemma TtsKeys(d: Fields)
    requires forall key | key in d :: key in FormOf(TtsSettings).order
    ensures TtsNames(d)
  {
  }

  /** `_validate_tts_provider_settings` refuses with the first error or holds exactly these fields. */
  lemma {:induction false} TtsValidated(py: Python, payload: Json)
    ensures var result := Validate(py, FormOf(TtsSettings), payload);
      if !payload.Dict? then result == Err("voice_tts_provider_settings" + "_must_be_object")
      else if TtsError(py, payload.fields).Some? then result == Err(TtsError(py, payload.fields).value)
      else result.Ok? && TtsHolds(py, payload.fields, result.value)
  {
    if payload.Dict? {
      var form, m := FormOf(TtsSettings), payload.fields;
      assert payload == Dict(m);
      if Validate(py, form, payload).Err? {
        var k := FirstRefusedIsWrong(py, form, m);
        TtsDecided(py, m, k);
      } else {
        AcceptedAllBecome(py, form, m);
        TtsNoError(py, m);
        TtsKeptAll(py, m, Validate(py, form, payload).value);
      }
    }
  }

  lemma TtsNoError(py: Python, m: Fields)
    requires forall i | 0 <= i < 12 :: !WrongKey(py, FormOf(TtsSettings), m, FormOf(TtsSettings).order[i])
    ensures TtsError(py, m).None? && !TtsWrongHere(py, m, 0)
  {
    TtsWrongAt(py, m, 0);
    TtsWrongAt(py, m, 6);
    TtsWrongAt(py, m, 7);
    TtsWrongAt(py, m, 8);
    TtsWrongAt(py, m, 9);
    TtsWrongAt(py, m, 10);
    TtsWrongAt(py, m, 11);
  }

  // ---- the wake form ----

  lemma WakeRules()
    ensures WakeRule("provider") == Provider({"deterministic", "openwakeword", "supervised_openwakeword"})
    ensures WakeRule("enabled") == Flag && WakeRule("warm_model") == Flag && WakeRule("auto_download_models") == Flag
    ensures WakeRule("preload") == Flag && WakeRule("enable_speex_noise_suppression") == Flag
    ensures WakeRule("default_wakeword") == Wakeword
    ensures WakeRule("threshold") == Fraction && WakeRule("vad_threshold") == Fraction
    ensures WakeRule("buffer_ms") == Whole(true) && WakeRule("prediction_frame_ms") == Whole(true)
    ensures WakeRule("models") == NameList(true) && WakeRule("warm_models") == NameList(true)
    ensures WakeRule("service") == Rule.Section && WakeRule("recordings") == Rule.Section
  {
  }

  /** Which fields of the form are wrong, by their place in it. */
  ghost predicate WakeWrongHere(py: Python, m: Fields, i: nat) {
    || (i == 0 && TextAt(py, m, "provider") !in {"deterministic", "openwakeword", "supervised_openwakeword"})
    || (i == 7 && WrongFraction(py, m, "threshold"))
    || (i == 8 && WrongFraction(py, m, "vad_threshold"))
    || (i == 9 && Get(m, "buffer_ms") != Null && WrongWhole(py, m["buffer_ms"]))
    || (i == 10 && Get(m, "prediction_frame_ms") != Null && WrongWhole(py, m["prediction_frame_ms"]))
    || (i == 11 && WrongList(m, "models"))
    || (i == 12 && WrongList(m, "warm_models"))
    || (i == 13 && WrongSection(m, "service"))
    || (i == 14 && WrongSection(m, "recordings"))
  }

  lemma WakeWrongAt(py: Python, m: Fields, i: nat)
    requires i < 15
    ensures WrongKey(py, FormOf(WakeSettings), m, FormOf(WakeSettings).order[i]) <==> WakeWrongHere(py, m, i)
  {
    if i < 7 {
      WakeWrongFirst(py, m, i);
    } else {
      WakeWrongLater(py, m, i);
    }
  }

  lemma WakeWrongFirst(py: Python, m: Fields, i: nat)
    requires i < 7
    ensures WrongKey(py, FormOf(WakeSettings), m, FormOf(WakeSettings).order[i]) <==> WakeWrongHere(py, m, i)
  {
    WakeRules();
  }

  lemma WakeWrongLater(py: Python, m: Fields, i: nat)
    requires 7 <= i < 15
    ensures WrongKey(py, FormOf(WakeSettings), m, FormOf(WakeSettings).order[i]) <==> WakeWrongHere(py, m, i)
  {
    WakeRules();
  }

  lemma WakeComplaint(key: string)
    requires key in {"provider", "threshold", "vad_threshold", "buffer_ms", "prediction_frame_ms", "models",
      "warm_models", "service", "recordings"}
    ensures FormOf(WakeSettings).Complaint(key) == Error("voice_wake_settings", key,
      if key == "models" || key == "warm_models" then "_must_be_list"
      else if key in {"service", "recordings"} then "_must_be_object" else "_invalid")
  {
    WakeRules();
  }

  lemma WakeDecided(py: Python, m: Fields, i: nat)
    requires i < 15 && WrongKey(py, FormOf(WakeSettings), m, FormOf(WakeSettings).order[i])
    requires forall j | 0 <= j < i :: !WrongKey(py, FormOf(WakeSettings), m, FormOf(WakeSettings).order[j])
    ensures WakeError(py, m).Some?
    ensures WakeError(py, m).value == FormOf(WakeSettings).Complaint(FormOf(WakeSettings).order[i])
  {
    WakeWrongAt(py, m, i);
    WakeComplaint(FormOf(WakeSettings).order[i]);
    if i > 0 {
      WakeWrongAt(py, m, 0);
    }
    if i > 7 {
      WakeWrongAt(py, m, 7);
    }
    if i > 8 {
      WakeWrongAt(py, m, 8);
    }
    if i > 9 {
      WakeWrongAt(py, m, 9);
    }
    if i > 10 {
      WakeWrongAt(py, m, 10);
    }
    if i > 11 {
      WakeWrongAt(py, m, 11);
    }
    if i > 12 {
      WakeWrongAt(py, m, 12);
    }
    if i > 13 {
      WakeWrongAt(py, m, 13);
    }
  }

  lemma WakePlace(key: string)
    requires key in {
      "provider", "enabled", "warm_model", "auto_download_models", "preload",
      "enable_speex_noise_suppression", "default_wakeword", "threshold", "vad_threshold", "buffer_ms",
      "prediction_frame_ms", "models", "warm_models", "service", "recordings"}
    ensures key in FormOf(WakeSettings).order
  {
    var order := FormOf(WakeSettings).order;
    assert order[0] == "provider" && order[1] == "enabled" && order[2] == "warm_model";
    assert order[3] == "auto_download_models" && order[4] == "preload" && order[5] == "enable_speex_noise_suppression";
    assert order[6] == "default_wakeword" && order[7] == "threshold" && order[8] == "vad_threshold";
    assert order[9] == "buffer_ms" && order[10] == "prediction_frame_ms" && order[11] == "models";
    assert order[12] == "warm_models" && order[13] == "service" && order[14] == "recordings";
  }

  lemma WakeBecomes(py: Python, m: Fields, d: Fields, key: string)
    requires AllBecome(py, FormOf(WakeSettings), m, d) && key in FormOf(WakeSettings).order
    ensures Becomes(py, WakeRule(key), m, d, key)
  {
  }

  lemma WakeProviderKept(py: Python, m: Fields, d: Fields)
    requires Becomes(py, WakeRule("provider"), m, d, "provider") && !WakeWrongHere(py, m, 0)
    ensures TextKept(py, m, d, "provider")
  {
    assert WakeRule("provider").Provider?;
  }

  lemma WakeFlagKept(py: Python, m: Fields, d: Fields, key: string)
    requires Becomes(py, WakeRule(key), m, d, key)
    requires key in {"enabled", "warm_model", "auto_download_models", "preload", "enable_speex_noise_suppression"}
    ensures FlagKept(m, d, key)
  {
    assert WakeRule(key) == Flag;
  }

  lemma WakeWordKept(py: Python, m: Fields, d: Fields, key: string)
    requires Becomes(py, WakeRule(key), m, d, key) && key in {"default_wakeword"}
    ensures var wakeword := Renamed(TextAt(py, m, key));
      if wakeword == "" then key !in d else key in d && d[key] == Str(wakeword)
  {
    assert WakeRule(key) == Wakeword;
  }

  lemma WakeFractionKept(py: Python, m: Fields, d: Fields, key: string)
    requires Becomes(py, WakeRule(key), m, d, key) && key in {"threshold", "vad_threshold"}
    ensures FractionKept(py, m, d, key)
  {
    assert WakeRule(key) == Fraction;
  }

  lemma WakeWholeKept(py: Python, m: Fields, d: Fields, key: string)
    requires Becomes(py, WakeRule(key), m, d, key) && key in {"buffer_ms", "prediction_frame_ms"}
    ensures if Get(m, key) != Null then WholeKept(py, m, d, key) else key !in d
  {
    assert WakeRule(key) == Whole(true);
  }

  lemma WakeListKept(py: Python, m: Fields, d: Fields, key: string)
    requires Becomes(py, WakeRule(key), m, d, key) && key in {"models", "warm_models"}
    ensures ListKept(py, m, d, key, true)
  {
    assert WakeRule(key) == NameList(true);
  }

  lemma WakeSectionKept(py: Python, m: Fields, d: Fields, key: string)
    requires Becomes(py, WakeRule(key), m, d, key) && key in {"service", "recordings"}
    ensures SectionKept(m, d, key)
  {
    assert WakeRule(key) == Rule.Section;
  }

  lemma WakeKeptAll(py: Python, m: Fields, d: Fields)
    requires AllBecome(py, FormOf(WakeSettings), m, d) && !WakeWrongHere(py, m, 0)
    ensures WakeHolds(py, m, d)
  {
    WakePlace("provider");
    WakeBecomes(py, m, d, "provider");
    WakeProviderKept(py, m, d);
    forall key | key in {"enabled", "warm_model", "auto_download_models", "preload", "enable_speex_noise_suppression"}
      ensures FlagKept(m, d, key)
    {
      WakePlace(key);
      WakeBecomes(py, m, d, key);
      WakeFlagKept(py, m, d, key);
    }
    WakePlace("default_wakeword");
    WakeBecomes(py, m, d, "default_wakeword");
    WakeWordKept(py, m, d, "default_wakeword");
    forall key | key in {"threshold", "vad_threshold"}
      ensures FractionKept(py, m, d, key)
    {
      WakePlace(key);
      WakeBecomes(py, m, d, key);
      WakeFractionKept(py, m, d, key);
    }
    forall key | key in {"buffer_ms", "prediction_frame_ms"}
      ensures if Get(m, key) != Null then WholeKept(py, m, d, key) else key !in d
    {
      WakePlace(key);
      WakeBecomes(py, m, d, key);
      WakeWholeKept(py, m, d, key);
    }
    forall key | key in {"models", "warm_models"}
      ensures ListKept(py, m, d, key, true)
    {
      WakePlace(key);
      WakeBecomes(py, m, d, key);
      WakeListKept(py, m, d, key);
    }
    forall key | key in {"service", "recordings"}
      ensures SectionKept(m, d, key)
    {
      WakePlace(key);
      WakeBecomes(py, m, d, key);
      WakeSectionKept(py, m, d, key);
    }
    WakeKeys(d);
  }

  lemma WakeKeys(d: Fields)
    requires forall key | key in d :: key in FormOf(WakeSettings).order
    ensures WakeNames(d)
  {
  }

  /** `_validate_wake_settings` refuses with the first error or holds exactly these fields. */
  lemma {:induction false} WakeValidated(py: Python, payload: Json)
    ensures var result := Validate(py, FormOf(WakeSettings), payload);
      if !payload.Dict? then result == Err("voice_wake_settings" + "_must_be_object")
      else if WakeError(py, payload.fields).Some? then result == Err(WakeError(py, payload.fields).value)
      else result.Ok? && WakeHolds(py, payload.fields, result.value)
  {
    if payload.Dict? {
      var form, m := FormOf(WakeSettings), payload.fields;
      assert payload == Dict(m);
      if Validate(py, form, payload).Err? {
        var k := FirstRefusedIsWrong(py, form, m);
        WakeDecided(py, m, k);
      } else {
        AcceptedAllBecome(py, form, m);
        WakeNoError(py, m);
        WakeKeptAll(py, m, Validate(py, form, payload).value);
      }
    }
  }

  lemma WakeNoError(py: Python, m: Fields)
    requires forall i | 0 <= i < 15 :: !WrongKey(py, FormOf(WakeSettings), m, FormOf(WakeSettings).order[i])
    ensures WakeError(py, m).None? && !WakeWrongHere(py, m, 0)
  {
    WakeWrongAt(py, m, 0);
    WakeWrongAt(py, m, 7);
    WakeWrongAt(py, m, 8);
    WakeWrongAt(py, m, 9);
    WakeWrongAt(py, m, 10);
    WakeWrongAt(py, m, 11);
    WakeWrongAt(py, m, 12);
    WakeWrongAt(py, m, 13);
    WakeWrongAt(py, m, 14);
  }
}
