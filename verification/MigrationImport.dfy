/** What importing a migration bundle does: the plan of a dry run, and the import that writes. */
module MigrationImport {
  import opened MigrationJson
  import opened ProviderMerge
  import opened ProviderSettings
  import opened TrustSecrets
  import opened Wrappers

  /** The addresses an import reports. */
  datatype Address = Address(
    nodeId: Option<string>, coreBaseUrl: Option<string>, apiBaseUrl: Option<string>, uiEndpoint: Option<string>)

  const NOWHERE := Address(None, None, None, None)

  datatype Onboarding = Onboarding(
    address: Address, hostname: Option<string>, trustStatus: string, setup: ProviderSetup, rest: Json)

  /** The four files an import writes; None is a file that does not exist. */
  datatype Stores = Stores(
    onboarding: Onboarding, registry: Option<Json>, intents: Option<Json>, ttsRuntime: Option<Json>)

  datatype Request = Request(bundle: Json, destination: Address, hostname: Option<string>)

  datatype Report = Report(files: seq<string>, warnings: seq<Warning>, address: Address)
  {
    function Imported(name: string): Report {
      this.(files := files + [name])
    }

    function Warned(warning: Warning): Report {
      this.(warnings := warnings + [warning])
    }

    function At(place: Address): Report {
      this.(address := place)
    }
  }

  /** Python's conversions and the data models that validate three of the sections. */
  datatype Env = Env(
    py: Python,
    onboardingModel: Json -> Result<Onboarding, string>,
    registryModel: Json -> Result<Json, string>,
    intentsModel: Json -> Result<Json, string>)

  datatype Section = OnboardingState | EndpointRegistry | VoiceIntents | TtsRuntime | Settings(kind: Kind)

  const SECTIONS :=
    [OnboardingState, EndpointRegistry, VoiceIntents, TtsRuntime,
     Settings(TtsSettings), Settings(SttSettings), Settings(WakeSettings)]

  function Name(section: Section): string {
    match section
    case OnboardingState => "onboarding_state"
    case EndpointRegistry => "endpoint_registry"
    case VoiceIntents => "voice_intents"
    case TtsRuntime => "voice_tts_settings"
    case Settings(TtsSettings) => "voice_tts_provider_settings"
    case Settings(SttSettings) => "voice_stt_settings"
    case Settings(WakeSettings) => "voice_wake_settings"
  }

  /** The warnings an import can give, by what they are about. */
  datatype Warning = Reauthorize | TtsDownloads | SttDownloads | SttCuda | WakeModels | CopySeparately | DryRunOnly
    | Restored

  // ---- the bundle ----

  /** `value == 1` also holds of true and of 1.0. */
  predicate IsVersionOne(v: Json) {
    v == Int(1) || v == Bool(true) || v == Float(ONE)
  }

  /** The sections of an acceptable bundle, or the first error. */
  function StateFiles(bundle: Json): Result<Fields, string> {
    if !bundle.Dict? then Err("migration_bundle_must_be_object")
    else if !IsVersionOne(Get(bundle.fields, "schema_version")) then Err("unsupported_migration_schema_version")
    else if !Get(bundle.fields, "state_files").Dict? then Err("migration_state_files_missing")
    else if !PassesRejection(bundle.fields) then Err("migration_bundle_contains_trust_secrets")
    else Ok(Get(bundle.fields, "state_files").fields)
  }

  // ---- one section ----

  function Override(given: Option<string>, present: Option<string>): Option<string> {
    if given.Some? then given else present
  }

  /** `_apply_destination_overrides` */
  function WithOverrides(state: Onboarding, req: Request): Onboarding {
    state.(
      address := Address(
        state.address.nodeId,
        Override(req.destination.coreBaseUrl, state.address.coreBaseUrl),
        Override(req.destination.apiBaseUrl, state.address.apiBaseUrl),
        Override(req.destination.uiEndpoint, state.address.uiEndpoint)),
      hostname := if req.hostname.Some? && req.hostname.value != "" then req.hostname else state.hostname)
  }

  /** A section that passed validation. */
  datatype Content =
    | Onboarded(state: Onboarding)
    | Registered(registry: Json)
    | Intended(intents: Json)
    | Configured(runtime: Json)
    | Changed(change: Change, settings: Fields)

  function Check(env: Env, req: Request, section: Section, payload: Json): Result<Content, string> {
    match section
    case OnboardingState =>
      var state := env.onboardingModel(payload);
      if state.Err? then Err(state.error) else Ok(Onboarded(WithOverrides(state.value, req)))
    case EndpointRegistry =>
      var registry := env.registryModel(payload);
      if registry.Err? then Err(registry.error) else Ok(Registered(registry.value))
    case VoiceIntents =>
      var intents := env.intentsModel(payload);
      if intents.Err? then Err(intents.error) else Ok(Intended(intents.value))
    case TtsRuntime =>
      if payload.Dict? then Ok(Configured(payload)) else Err("voice_tts_settings_must_be_object")
    case Settings(kind) =>
      var settings := Validate(env.py, FormOf(kind), payload);
      if settings.Err? then Err(settings.error)
      else Ok(Changed(ChangeBy(env.py, kind, settings.value), settings.value))
  }

  /** The report once a section is through. */
  function Noted(report: Report, section: Section, content: Content, address: Address): Report {
    var imported := report.Imported(Name(section)).At(address);
    match section
    case OnboardingState =>
      if content.Onboarded? && content.state.trustStatus != "trusted" then imported.Warned(Reauthorize) else imported
    case Settings(TtsSettings) => imported.Warned(TtsDownloads)
    case Settings(SttSettings) =>
      if content.Changed? && Get(content.settings, "device") == Str("cuda")
      then imported.Warned(SttDownloads).Warned(SttCuda) else imported.Warned(SttDownloads)
    case Settings(WakeSettings) => imported.Warned(WakeModels)
    case _ => imported
  }

  // ---- the plan ----

  /** A section that is missing or null is passed over. */
  function PlanSection(env: Env, req: Request, files: Fields, section: Section, report: Report): Result<Report,
      string> {
    var payload := Get(files, Name(section));
    if payload == Null then Ok(report)
    else
      var content := Check(env, req, section, payload);
      if content.Err? then Err(content.error)
      else
        var address := if content.value.Onboarded? then content.value.state.address else report.address;
        Ok(Noted(report, section, content.value, address))
  }

  function PlanSections(env: Env, req: Request, files: Fields, sections: seq<Section>): Result<Report, string>
    decreases |sections|
  {
    if sections == [] then Ok(EMPTY)
    else
      var before := PlanSections(env, req, files, sections[..|sections| - 1]);
      if before.Err? then before else PlanSection(env, req, files, sections[|sections| - 1], before.value)
  }

  /** The report of a whole run, once all sections are through. */
  function Concluded(report: Result<Report, string>): Result<Report, string> {
    if report.Err? then report
    else if report.value.files == [] then Err("migration_bundle_contains_no_supported_state_files")
    else Ok(report.value.Warned(CopySeparately))
  }

  const EMPTY := Report([], [], NOWHERE)

  /** `_dry_run_import_plan` */
  function Plan(env: Env, req: Request): Result<Report, string> {
    var files := StateFiles(req.bundle);
    if files.Err? then Err(files.error) else Concluded(PlanSections(env, req, files.value, SECTIONS))
  }

  // ---- the import ----

  /** What a section writes. */
  function Written(stores: Stores, content: Content): Stores {
    match content
    case Onboarded(state) => stores.(onboarding := state)
    case Registered(registry) => stores.(registry := Some(registry))
    case Intended(intents) => stores.(intents := Some(intents))
    case Configured(runtime) => stores.(ttsRuntime := Some(runtime))
    case Changed(change, _) =>
      stores.(onboarding := stores.onboarding.(setup := Merge(stores.onboarding.setup, change)))
  }

  /** `a or b` */
  function Or(a: Option<string>, b: Option<string>): Option<string> {
    if a.Some? && a.value != "" then a else b
  }

  function OrAddress(a: Address, b: Address): Address {
    Address(Or(a.nodeId, b.nodeId), Or(a.coreBaseUrl, b.coreBaseUrl), Or(a.apiBaseUrl, b.apiBaseUrl),
      Or(a.uiEndpoint, b.uiEndpoint))
  }

  function ReportedAddress(address: Address, content: Content, saved: Onboarding): Address {
    if content.Onboarded? then saved.address
    else if content.Changed? then OrAddress(address, saved.address)
    else address
  }

  /** The stores after a run, whether it fails or not, and its report. */
  datatype Run = Run(stores: Stores, report: Result<Report, string>)

  /** A section is validated before it is written, so one that fails writes nothing. */
  function ImportSection(env: Env, req: Request, files: Fields, section: Section, stores: Stores, report: Report): Run {
    var payload := Get(files, Name(section));
    if payload == Null then Run(stores, Ok(report))
    else
      var content := Check(env, req, section, payload);
      if content.Err? then Run(stores, Err(content.error))
      else
        var after := Written(stores, content.value);
        var address := ReportedAddress(report.address, content.value, after.onboarding);
        Run(after, Ok(Noted(report, section, content.value, address)))
  }

  function ImportSections(env: Env, req: Request, files: Fields, sections: seq<Section>, stores: Stores): Run
    decreases |sections|
  {
    if sections == [] then Run(stores, Ok(EMPTY))
    else
      var before := ImportSections(env, req, files, sections[..|sections| - 1], stores);
      if before.report.Err? then before
      else ImportSection(env, req, files, sections[|sections| - 1], before.stores, before.report.value)
  }

  /** `import_bundle` without a dry run */
  function Import(env: Env, req: Request, stores: Stores): Run {
    var files := StateFiles(req.bundle);
    if files.Err? then Run(stores, Err(files.error))
    else
      var run := ImportSections(env, req, files.value, SECTIONS, stores);
      run.(report := Concluded(run.report))
  }

  // ---- a failure ends the run ----

  lemma {:induction false} PlanStops(env: Env, req: Request, files: Fields, sections: seq<Section>, n: nat)
    requires n <= |sections| && PlanSections(env, req, files, sections[..n]).Err?
    ensures PlanSections(env, req, files, sections) == PlanSections(env, req, files, sections[..n])
    decreases |sections|
  {
    if n == |sections| {
      assert sections[..n] == sections;
    } else {
      var front := sections[..|sections| - 1];
      assert front[..n] == sections[..n];
      PlanStops(env, req, files, front, n);
    }
  }

  lemma {:induction false} ImportStops(env: Env, req: Request, files: Fields, sections: seq<Section>,
      stores: Stores, n: nat)
    requires n <= |sections| && ImportSections(env, req, files, sections[..n], stores).report.Err?
    ensures ImportSections(env, req, files, sections, stores) == ImportSections(env, req, files, sections[..n], stores)
    decreases |sections|
  {
    if n == |sections| {
      assert sections[..n] == sections;
    } else {
      var front := sections[..|sections| - 1];
      assert front[..n] == sections[..n];
      ImportStops(env, req, files, front, stores, n);
    }
  }
}
