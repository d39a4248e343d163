/** What the three settings validators do to each field of a section, field by field: when a
    field is refused and with which error, and what an accepted payload becomes. */
module SettingsMeaning {
  import opened MigrationJson
  import opened ProviderSettings
  import opened SettingsNormalForm
  import opened Text
  import opened Wrappers

  // ---- values ----

  /** Python's truth of a value. */
  predicate IsTrue(v: Json) {
    v != Null && v != Bool(false) && v != Int(0) && v != Float(0) && v != Str("") && v != List([]) && v != Dict(map[])
  }

  /** The stripped text of a field; a missing or false one has none. */
  function TextAt(py: Python, m: Fields, key: string): string {
    if key in m && IsTrue(m[key]) then Strip(py.ToStr(m[key])) else ""
  }

  /** The old wake word, in any mixture of upper and lower case. */
  predicate IsOldWakeword(name: string) {
    |name| == 4 && (name[0] == 'h' || name[0] == 'H') && (name[1] == 'e' || name[1] == 'E')
    && (name[2] == 'x' || name[2] == 'X') && (name[3] == 'a' || name[3] == 'A')
  }

  function Renamed(name: string): string {
    if IsOldWakeword(name) then "Hexe" else name
  }

  /** The names are the stripped texts of the items that are not blank, in their order; where they
      are wake words the old one is renamed. */
  ghost predicate Lists(py: Python, items: seq<Json>, names: seq<Json>, wakewords: bool)
    decreases |items|
  {
    if items == [] then names == []
    else
      var front, name := items[..|items| - 1], Strip(py.ToStr(items[|items| - 1]));
      if name == "" then Lists(py, front, names, wakewords)
      else
        && names != [] && names[|names| - 1] == Str(if wakewords then Renamed(name) else name)
        && Lists(py, front, names[..|names| - 1], wakewords)
  }

  lemma TruthIsTrue(v: Json)
    ensures Truthy(v) <==> IsTrue(v)
  {
  }

  lemma TextIsText(py: Python, m: Fields, key: string)
    ensures py.TextOf(Field(m, key)) == TextAt(py, m, key)
    ensures Strip(TextAt(py, m, key)) == TextAt(py, m, key)
  {
    if key in m {
      TruthIsTrue(m[key]);
      StripTrims(py.ToStr(m[key]));
    }
    StripTrims(TextAt(py, m, key));
    StripTrims("");
  }

  lemma WakeNameIsRenamed(name: string)
    requires Strip(name) == name
    ensures WakeName(name) == Renamed(name)
  {
  }

  lemma {:induction false} NamesAppend(py: Python, front: seq<Json>, last: Json, wakewords: bool)
    ensures Names(py, front + [last], wakewords) == Names(py, front, wakewords) + Names(py, [last], wakewords)
    decreases |front|
  {
    if front == [] {
      assert front + [last] == [last];
    } else {
      assert (front + [last])[0] == front[0] && (front + [last])[1..] == front[1..] + [last];
      NamesAppend(py, front[1..], last, wakewords);
    }
  }

  lemma {:induction false} NamesLast(py: Python, items: seq<Json>, wakewords: bool)
    requires items != []
    ensures Names(py, items, wakewords) ==
      Names(py, items[..|items| - 1], wakewords) + Names(py, [items[|items| - 1]], wakewords)
  {
    NamesAppend(py, items[..|items| - 1], items[|items| - 1], wakewords);
    assert items == items[..|items| - 1] + [items[|items| - 1]];
  }

  lemma {:induction false} NameOf(py: Python, item: Json, wakewords: bool)
    ensures var name := Strip(py.ToStr(item));
      Names(py, [item], wakewords) ==
        if name == "" then [] else [Str(if wakewords then Renamed(name) else name)]
  {
    var name := Strip(py.ToStr(item));
    StripTrims(py.ToStr(item));
    StripTrims(name);
    WakeNameIsRenamed(name);
    assert [item][1..] == [];
    assert Names(py, [], wakewords) == [];
  }

  lemma ListsOneMore(py: Python, items: seq<Json>, names: seq<Json>, wakewords: bool)
    requires items != [] && Lists(py, items[..|items| - 1], names, wakewords)
    ensures var name := Strip(py.ToStr(items[|items| - 1]));
      Lists(py, items, names + if name == "" then [] else [Str(if wakewords then Renamed(name) else name)], wakewords)
  {
    var name := Strip(py.ToStr(items[|items| - 1]));
    if name == "" {
      assert names + [] == names;
    } else {
      var kept := Str(if wakewords then Renamed(name) else name);
      assert (names + [kept])[..|names|] == names;
    }
  }

  lemma {:induction false} NamesListed(py: Python, items: seq<Json>, wakewords: bool)
    ensures Lists(py, items, Names(py, items, wakewords), wakewords)
    decreases |items|
  {
    if items != [] {
      var front := items[..|items| - 1];
      NamesListed(py, front, wakewords);
      NamesLast(py, items, wakewords);
      NameOf(py, items[|items| - 1], wakewords);
      ListsOneMore(py, items, Names(py, front, wakewords), wakewords);
    }
  }

  // ---- one field of an accepted payload ----

  ghost predicate TextKept(py: Python, m: Fields, d: Fields, key: string) {
    if TextAt(py, m, key) == "" then key !in d else key in d && d[key] == Str(TextAt(py, m, key))
  }

  ghost predicate FlagKept(m: Fields, d: Fields, key: string) {
    if key in m then key in d && d[key] == Bool(IsTrue(m[key])) else key !in d
  }

  ghost predicate ListKept(py: Python, m: Fields, d: Fields, key: string, wakewords: bool) {
    && key in d && d[key].List?
    && (if key in m then m[key].List? && Lists(py, m[key].items, d[key].items, wakewords) else d[key].items == [])
  }

  ghost predicate SectionKept(m: Fields, d: Fields, key: string) {
    key in d && d[key] == if key in m && m[key] != Null then m[key] else Dict(map[])
  }

  ghost predicate FractionKept(py: Python, m: Fields, d: Fields, key: string) {
    if key !in m || m[key] == Null then key !in d
    else py.ToFloat(m[key]).Some? && key in d && d[key] == Float(py.ToFloat(m[key]).value)
  }

  ghost predicate WholeKept(py: Python, m: Fields, d: Fields, key: string) {
    key in m && py.ToInt(m[key]).Some? && key in d && d[key] == Int(py.ToInt(m[key]).value)
  }

  // ---- one refused field ----

  predicate WrongList(m: Fields, key: string) {
    key in m && !m[key].List?
  }

  predicate WrongSection(m: Fields, key: string) {
    key in m && m[key] != Null && !m[key].Dict?
  }

  predicate WrongProfile(py: Python, name: string) {
    name != "" && !py.knownProfile(name)
  }

  /** No number from 0 to 1. */
  predicate WrongFraction(py: Python, m: Fields, key: string) {
    && key in m && m[key] != Null
    && (py.ToFloat(m[key]).None? || py.ToFloat(m[key]).value < 0 || py.ToFloat(m[key]).value > 1_000_000)
  }

  predicate WrongWhole(py: Python, v: Json) {
    py.ToInt(v).None? || py.ToInt(v).value < 0
  }

  function Error(section: string, field: string, problem: string): string {
    section + "_" + field + problem
  }

  // ---- speech to text ----

  /** The error of `_validate_stt_settings` on an object. */
  function SttError(py: Python, m: Fields): Option<string> {
    if TextAt(py, m, "provider") !in {"deterministic", "openai", "faster_whisper", "external_faster_whisper"} then
      Some(Error("voice_stt_settings", "provider", "_invalid"))
    else if WrongProfile(py, TextAt(py, m, "profile")) && TextAt(py, m, "profile") != "custom_legacy" then
      Some(Error("voice_stt_settings", "profile", "_invalid"))
    else if WrongProfile(py, TextAt(py, m, "fallback_profile")) then
      Some(Error("voice_stt_settings", "fallback_profile", "_invalid"))
    else if WrongList(m, "warm_models") then Some(Error("voice_stt_settings", "warm_models", "_must_be_list"))
    else if WrongSection(m, "service") then Some(Error("voice_stt_settings", "service", "_must_be_object"))
    else if WrongSection(m, "faster_whisper") then
      Some(Error("voice_stt_settings", "faster_whisper", "_must_be_object"))
    else None
  }

  ghost predicate SttNames(d: Fields) {
    forall key | key in d :: key in {
      "provider", "enabled", "default", "warm_model", "preload", "auto_download", "model", "device", "compute_type",
      "profile", "fallback_profile", "warm_models", "service", "faster_whisper"}
  }

  ghost predicate SttHolds(py: Python, m: Fields, d: Fields) {
    && SttNames(d)
    && TextAt(py, m, "provider") in {"deterministic", "openai", "faster_whisper", "external_faster_whisper"}
    && TextKept(py, m, d, "provider")
    && (forall key | key in {"enabled", "default", "warm_model", "preload", "auto_download"} :: FlagKept(m, d, key))
    && (forall key | key in {"model", "device", "compute_type"} :: TextKept(py, m, d, key))
    && TextKept(py, m, d, "fallback_profile")
    && (if TextAt(py, m, "profile") == "custom_legacy" then "profile" !in d else TextKept(py, m, d, "profile"))
    && ListKept(py, m, d, "warm_models", false)
    && (forall key | key in {"service", "faster_whisper"} :: SectionKept(m, d, key))
  }

  // ---- text to speech ----

  /** The error of `_validate_tts_provider_settings` on an object. */
  function TtsError(py: Python, m: Fields): Option<string> {
    if TextAt(py, m, "provider") !in {"deterministic", "openai", "piper"} then
      Some(Error("voice_tts_provider_settings", "provider", "_invalid"))
    else if "output_sample_rate_hz" in m && WrongWhole(py, m["output_sample_rate_hz"]) then
      Some(Error("voice_tts_provider_settings", "output_sample_rate", "_invalid"))
    else if WrongList(m, "warm_models") then Some(Error("voice_tts_provider_settings", "warm_models", "_must_be_list"))
    else if WrongSection(m, "endpoint_voices") then
      Some(Error("voice_tts_provider_settings", "endpoint_voices", "_must_be_object"))
    else if WrongSection(m, "endpoint_sample_rates") then
      Some(Error("voice_tts_provider_settings", "endpoint_sample_rates", "_must_be_object"))
    else if WrongSection(m, "conversion_sample_rates") then
      Some(Error("voice_tts_provider_settings", "conversion_sample_rates", "_must_be_object"))
    else if WrongSection(m, "piper") then Some(Error("voice_tts_provider_settings", "piper", "_must_be_object"))
    else None
  }

  ghost predicate TtsNames(d: Fields) {
    forall key | key in d :: key in {
      "provider", "enabled", "default", "model", "default_voice", "conversion_policy", "output_sample_rate_hz",
      "warm_models", "endpoint_voices", "endpoint_sample_rates", "conversion_sample_rates", "piper"}
  }

  ghost predicate TtsHolds(py: Python, m: Fields, d: Fields) {
    && TtsNames(d)
    && TextAt(py, m, "provider") in {"deterministic", "openai", "piper"} && TextKept(py, m, d, "provider")
    && (forall key | key in {"enabled", "default"} :: FlagKept(m, d, key))
    && (forall key | key in {"model", "default_voice", "conversion_policy"} :: TextKept(py, m, d, key))
    && (if "output_sample_rate_hz" in m then WholeKept(py, m, d, "output_sample_rate_hz")
        else "output_sample_rate_hz" !in d)
    && ListKept(py, m, d, "warm_models", false)
    && (forall key | key in {"endpoint_voices", "endpoint_sample_rates", "conversion_sample_rates", "piper"} ::
          SectionKept(m, d, key))
  }

  // ---- wake ----

  /** The error of `_validate_wake_settings` on an object. */
  function WakeError(py: Python, m: Fields): Option<string> {
    if TextAt(py, m, "provider") !in {"deterministic", "openwakeword", "supervised_openwakeword"} then
      Some(Error("voice_wake_settings", "provider", "_invalid"))
    else if WrongFraction(py, m, "threshold") then Some(Error("voice_wake_settings", "threshold", "_invalid"))
    else if WrongFraction(py, m, "vad_threshold") then Some(Error("voice_wake_settings", "vad_threshold", "_invalid"))
    else if Get(m, "buffer_ms") != Null && WrongWhole(py, m["buffer_ms"]) then
      Some(Error("voice_wake_settings", "buffer_ms", "_invalid"))
    else if Get(m, "prediction_frame_ms") != Null && WrongWhole(py, m["prediction_frame_ms"]) then
      Some(Error("voice_wake_settings", "prediction_frame_ms", "_invalid"))
    else if WrongList(m, "models") then Some(Error("voice_wake_settings", "models", "_must_be_list"))
    else if WrongList(m, "warm_models") then Some(Error("voice_wake_settings", "warm_models", "_must_be_list"))
    else if WrongSection(m, "service") then Some(Error("voice_wake_settings", "service", "_must_be_object"))
    else if WrongSection(m, "recordings") then Some(Error("voice_wake_settings", "recordings", "_must_be_object"))
    else None
  }

  ghost predicate WakeNames(d: Fields) {
    forall key | key in d :: key in {
      "provider", "enabled", "warm_model", "auto_download_models", "preload", "enable_speex_noise_suppression",
      "default_wakeword", "threshold", "vad_threshold", "buffer_ms", "prediction_frame_ms",
      "models", "warm_models", "service", "recordings"}
  }

  ghost predicate WakeHolds(py: Python, m: Fields, d: Fields) {
    && WakeNames(d)
    && TextAt(py, m, "provider") in {"deterministic", "openwakeword", "supervised_openwakeword"}
    && TextKept(py, m, d, "provider")
    && (forall key | key in {
          "enabled", "warm_model", "auto_download_models", "preload", "enable_speex_noise_suppression"} ::
          FlagKept(m, d, key))
    && (var wakeword := Renamed(TextAt(py, m, "default_wakeword"));
        if wakeword == "" then "default_wakeword" !in d
        else "default_wakeword" in d && d["default_wakeword"] == Str(wakeword))
    && (forall key | key in {"threshold", "vad_threshold"} :: FractionKept(py, m, d, key))
    && (forall key | key in {"buffer_ms", "prediction_frame_ms"} ::
          if Get(m, key) != Null then WholeKept(py, m, d, key) else key !in d)
    && (forall key | key in {"models", "warm_models"} :: ListKept(py, m, d, key, true))
    && (forall key | key in {"service", "recordings"} :: SectionKept(m, d, key))
  }

  // ---- the readings of the forms ----

  /** When a field is refused, by its rule. */
  ghost predicate Wrong(py: Python, rule: Rule, m: Fields, key: string) {
    match rule
    case Provider(allowed) => TextAt(py, m, key) !in allowed
    case Profile(legacyDropped) =>
      WrongProfile(py, TextAt(py, m, key)) && !(legacyDropped && TextAt(py, m, key) == "custom_legacy")
    case Fraction => WrongFraction(py, m, key)
    case Whole(nullSkipped) => key in m && !(nullSkipped && m[key] == Null) && WrongWhole(py, m[key])
    case NameList(_) => WrongList(m, key)
    case Section => WrongSection(m, key)
    case _ => false
  }

  lemma RefusedIfWrong(py: Python, rule: Rule, m: Fields, key: string)
    ensures Read(py, rule, Field(m, key)).Refused? <==> Wrong(py, rule, m, key)
  {
    TextIsText(py, m, key);
  }

  /** What a field becomes, by its rule. */
  ghost predicate Becomes(py: Python, rule: Rule, m: Fields, d: Fields, key: string) {
    match rule
    case Provider(_) => TextAt(py, m, key) != "" ==> TextKept(py, m, d, key)
    case Flag => FlagKept(m, d, key)
    case Text => TextKept(py, m, d, key)
    case Profile(legacyDropped) =>
      if legacyDropped && TextAt(py, m, key) == "custom_legacy" then key !in d else TextKept(py, m, d, key)
    case Wakeword =>
      var wakeword := Renamed(TextAt(py, m, key));
      if wakeword == "" then key !in d else key in d && d[key] == Str(wakeword)
    case Fraction => FractionKept(py, m, d, key)
    case Whole(nullSkipped) =>
      if key in m && !(nullSkipped && m[key] == Null) then WholeKept(py, m, d, key) else key !in d
    case NameList(wakewords) => ListKept(py, m, d, key, wakewords)
    case Section => SectionKept(m, d, key)
  }

  lemma KeptBecomes(py: Python, rule: Rule, m: Fields, d: Fields, key: string)
    requires !Read(py, rule, Field(m, key)).Refused?
    requires Field(d, key) == AsField(Read(py, rule, Field(m, key)))
    ensures Becomes(py, rule, m, d, key)
  {
    TextIsText(py, m, key);
    if key in m {
      TruthIsTrue(m[key]);
    }
    if rule.Wakeword? {
      WakeNameIsRenamed(TextAt(py, m, key));
    } else if rule.NameList? && key in m && m[key].List? {
      NamesListed(py, m[key].items, rule.wakewords);
    }
  }

  ghost predicate WrongKey(py: Python, form: Form, m: Fields, key: string) {
    Wrong(py, form.rule(key), m, key)
  }

  lemma {:induction false} AcceptedBecomes(py: Python, form: Form, m: Fields, key: string)
    requires key in form.order && Validate(py, form, Dict(m)).Ok?
    ensures Becomes(py, form.rule(key), m, Validate(py, form, Dict(m)).value, key)
    ensures !WrongKey(py, form, m, key)
  {
    AcceptedExactly(py, form, Dict(m));
    assert !form.ReadField(py, m, key).Refused?;
    RefusedIfWrong(py, form.rule(key), m, key);
    KeptBecomes(py, form.rule(key), m, Validate(py, form, Dict(m)).value, key);
  }

  lemma {:induction false} FirstRefusedIsWrong(py: Python, form: Form, m: Fields) returns (k: nat)
    requires Validate(py, form, Dict(m)).Err?
    ensures k < |form.order| && WrongKey(py, form, m, form.order[k])
    ensures forall j | 0 <= j < k :: !WrongKey(py, form, m, form.order[j])
    ensures Validate(py, form, Dict(m)) == Err(form.Complaint(form.order[k]))
  {
    k := FirstRefusal(py, form, m, form.order);
    RefusedIfWrong(py, form.rule(form.order[k]), m, form.order[k]);
    forall j | 0 <= j < k ensures !WrongKey(py, form, m, form.order[j]) {
      assert form.order[..k][j] in form.order[..k];
      assert !form.ReadField(py, m, form.order[j]).Refused?;
      RefusedIfWrong(py, form.rule(form.order[j]), m, form.order[j]);
    }
  }
}
