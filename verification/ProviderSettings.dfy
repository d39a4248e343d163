/** The validators of the speech, voice and wake settings in a migration bundle. Each reads the
    fields it knows in a fixed order, refuses the payload at the first field that is wrong and
    otherwise returns a new dict in normal form. */
module ProviderSettings {
  import opened MigrationJson
  import opened Text
  import opened Wrappers

  /** How one field is read. */
  datatype Rule =
    | Provider(allowed: set<string>)
    | Flag
    | Text
    | Profile(legacyDropped: bool)
    | Wakeword
    | Fraction
    | Whole(nullSkipped: bool)
    | NameList(wakewords: bool)
    | Section

  datatype Outcome = Absent | Kept(v: Json) | Refused

  /** `payload.get(key)`, with a missing key kept apart from null. */
  function Field(m: Fields, key: string): Option<Json> {
    if key in m then Some(m[key]) else None
  }

  function TextOutcome(text: string): Outcome {
    if text == "" then Absent else Kept(Str(text))
  }

  predicate IsHexa(s: string) {
    |s| == 4 && s[0] in "hH" && s[1] in "eE" && s[2] in "xX" && s[3] in "aA"
  }

  /** `_normalize_wake_name`: the old wake word is renamed. */
  function WakeName(value: string): string {
    if IsHexa(Strip(value)) then "Hexe" else value
  }

  /** `[str(x).strip() for x in items if str(x).strip()]`, renamed for wake words. */
  function Names(py: Python, items: seq<Json>, wakewords: bool): seq<Json> {
    if items == [] then []
    else
      var name := Strip(py.ToStr(items[0]));
      (if name == "" then [] else [Str(if wakewords then WakeName(name) else name)]) + Names(py, items[1..], wakewords)
  }

  function Read(py: Python, rule: Rule, field: Option<Json>): Outcome {
    var text := py.TextOf(field);
    match rule
    case Provider(allowed) => if text in allowed then Kept(Str(text)) else Refused
    case Flag => if field.None? then Absent else Kept(Bool(Truthy(field.value)))
    case Text => TextOutcome(text)
    case Profile(legacyDropped) =>
      if text == "" || (legacyDropped && text == "custom_legacy") then Absent
      else if py.knownProfile(text) then Kept(Str(text)) else Refused
    case Wakeword => TextOutcome(WakeName(text))
    case Fraction =>
      if field.None? || field.value.Null? then Absent
      else
        var f := py.ToFloat(field.value);
        if f.None? || f.value < 0 || f.value > ONE then Refused else Kept(Float(f.value))
    case Whole(nullSkipped) =>
      if field.None? || (nullSkipped && field.value.Null?) then Absent
      else
        var n := py.ToInt(field.value);
        if n.None? || n.value < 0 then Refused else Kept(Int(n.value))
    case NameList(wakewords) =>
      if field.None? then Kept(List([]))
      else if field.value.List? then Kept(List(Names(py, field.value.items, wakewords)))
      else Refused
    case Section =>
      if field.None? || field.value.Null? then Kept(Dict(map[]))
      else if field.value.Dict? then Kept(field.value)
      else Refused
  }

  // ---- the three forms ----

  datatype Form = Form(prefix: string, order: seq<string>, rule: string -> Rule)
  {
    /** The error raised when the field is refused. */
    function Complaint(key: string): string {
      prefix + "_" + (if key == "output_sample_rate_hz" then "output_sample_rate" else key)
      + if rule(key).NameList? then "_must_be_list" else if rule(key).Section? then "_must_be_object" else "_invalid"
    }

    function ReadField(py: Python, m: Fields, key: string): Outcome {
      Read(py, rule(key), Field(m, key))
    }
  }

  function SttRule(key: string): Rule {
    if key == "provider" then Provider({"deterministic", "openai", "faster_whisper", "external_faster_whisper"})
    else if key in {"enabled", "default", "warm_model", "preload", "auto_download"} then Flag
    else if key in {"model", "device", "compute_type"} then Text
    else if key in {"profile", "fallback_profile"} then Profile(key == "profile")
    else if key == "warm_models" then NameList(false)
    else Section
  }

  function TtsRule(key: string): Rule {
    if key == "provider" then Provider({"deterministic", "openai", "piper"})
    else if key in {"enabled", "default"} then Flag
    else if key in {"model", "default_voice", "conversion_policy"} then Text
    else if key == "output_sample_rate_hz" then Whole(false)
    else if key == "warm_models" then NameList(false)
    else Section
  }

  function WakeRule(key: string): Rule {
    if key == "provider" then Provider({"deterministic", "openwakeword", "supervised_openwakeword"})
    else if key in {"enabled", "warm_model", "auto_download_models", "preload", "enable_speex_noise_suppression"}
      then Flag
    else if key == "default_wakeword" then Wakeword
    else if key in {"threshold", "vad_threshold"} then Fraction
    else if key in {"buffer_ms", "prediction_frame_ms"} then Whole(true)
    else if key in {"models", "warm_models"} then NameList(true)
    else Section
  }

  /** The settings sections that are validated here. */
  datatype Kind = SttSettings | TtsSettings | WakeSettings

  /** The fields of each section, in the order they are read. */
  function FormOf(kind: Kind): Form {
    match kind
    case SttSettings =>
      Form("voice_stt_settings",
        ["provider", "enabled", "default", "warm_model", "preload", "auto_download", "model", "device", "compute_type",
         "profile", "fallback_profile", "warm_models", "service", "faster_whisper"], SttRule)
    case TtsSettings =>
      Form("voice_tts_provider_settings",
        ["provider", "enabled", "default", "model", "default_voice", "conversion_policy", "output_sample_rate_hz",
         "warm_models", "endpoint_voices", "endpoint_sample_rates", "conversion_sample_rates", "piper"], TtsRule)
    case WakeSettings =>
      Form("voice_wake_settings",
        ["provider", "enabled", "warm_model", "auto_download_models", "preload", "enable_speex_noise_suppression",
         "default_wakeword", "threshold", "vad_threshold", "buffer_ms", "prediction_frame_ms",
         "models", "warm_models", "service", "recordings"], WakeRule)
  }

  // ---- validation ----

  /** What the first fields of the form become, or the error of the first one refused. */
  function Walk(py: Python, form: Form, m: Fields, keys: seq<string>): Result<Fields, string>
    decreases |keys|
  {
    if keys == [] then Ok(map[])
    else
      var key := keys[|keys| - 1];
      var before := Walk(py, form, m, keys[..|keys| - 1]);
      if before.Err? then before
      else
        var outcome := form.ReadField(py, m, key);
        if outcome.Refused? then Err(form.Complaint(key))
        else if outcome.Kept? then Ok(before.value[key := outcome.v])
        else before
  }

  function Validate(py: Python, form: Form, payload: Json): Result<Fields, string> {
    if payload.Dict? then Walk(py, form, payload.fields, form.order) else Err(form.prefix + "_must_be_object")
  }

  lemma {:induction false} WalkStops(py: Python, form: Form, m: Fields, keys: seq<string>, n: nat)
    requires n <= |keys| && Walk(py, form, m, keys[..n]).Err?
    ensures Walk(py, form, m, keys) == Walk(py, form, m, keys[..n])
    decreases |keys|
  {
    if n == |keys| {
      assert keys[..n] == keys;
    } else {
      var front := keys[..|keys| - 1];
      assert front[..n] == keys[..n];
      WalkStops(py, form, m, front, n);
    }
  }

  /** `_validate_stt_settings`, `_validate_tts_provider_settings` and `_validate_wake_settings` */
  method ValidateSettings(py: Python, form: Form, payload: Json) returns (result: Result<Fields, string>)
    ensures result == Validate(py, form, payload)
  {
    if !payload.Dict? {
      return Err(form.prefix + "_must_be_object");
    }
    var validated: Fields := map[];
    for i := 0 to |form.order|
      invariant Walk(py, form, payload.fields, form.order[..i]) == Ok(validated)
    {
      var key := form.order[i];
      assert form.order[..i + 1][..i] == form.order[..i];
      var outcome := form.ReadField(py, payload.fields, key);
      if outcome.Refused? {
        WalkStops(py, form, payload.fields, form.order, i + 1);
        return Err(form.Complaint(key));
      }
      if outcome.Kept? {
        validated := validated[key := outcome.v];
      }
    }
    assert form.order[..|form.order|] == form.order;
    return Ok(validated);
  }
}
