/** The migration service: the dry-run planner, the import that writes the stores section by
    section, and the restore of a backup. */
module NodeMigration {
  import opened MigrationImport
  import opened MigrationJson
  import MigrationProperties
  import opened ProviderMerge
  import opened ProviderSettings
  import opened TrustSecrets
  import opened Wrappers

  datatype Response = Response(imported: bool, report: Report)

  function Answer(imported: bool, report: Result<Report, string>): Result<Response, string> {
    if report.Err? then Err(report.error) else Ok(Response(imported, report.value))
  }

  function WithWarning(report: Result<Report, string>, warning: Warning): Result<Report, string> {
    if report.Err? then report else Ok(report.value.Warned(warning))
  }

  class NodeMigrationService {
    const env: Env
    var onboarding: Onboarding
    var registry: Option<Json>
    var intents: Option<Json>
    var ttsRuntime: Option<Json>

    ghost function Contents(): Stores
      reads this
    {
      Stores(onboarding, registry, intents, ttsRuntime)
    }

    constructor (env: Env, stores: Stores)
      ensures Contents() == stores && this.env == env
    {
      this.env := env;
      onboarding, registry, intents, ttsRuntime :=
        stores.onboarding, stores.registry, stores.intents, stores.ttsRuntime;
    }

    // ---- the planner ----

    method PlanOneSection(req: Request, files: Fields, section: Section, report: Report)
      returns (next: Result<Report, string>)
      ensures next == PlanSection(env, req, files, section, report)
    {
      var payload := Get(files, Name(section));
      if payload == Null {
        return Ok(report);
      }
      match section {
        case OnboardingState =>
          var state := env.onboardingModel(payload);
          if state.Err? { return Err(state.error); }
          var planned := report.Imported("onboarding_state").At(WithOverrides(state.value, req).address);
          if state.value.trustStatus != "trusted" {
            planned := planned.Warned(Reauthorize);
          }
          return Ok(planned);
        case EndpointRegistry =>
          var model := env.registryModel(payload);
          if model.Err? { return Err(model.error); }
          return Ok(report.Imported("endpoint_registry"));
        case VoiceIntents =>
          var model := env.intentsModel(payload);
          if model.Err? { return Err(model.error); }
          return Ok(report.Imported("voice_intents"));
        case TtsRuntime =>
          if !payload.Dict? { return Err("voice_tts_settings_must_be_object"); }
          return Ok(report.Imported("voice_tts_settings"));
        case Settings(TtsSettings) =>
          var settings := ValidateSettings(env.py, FormOf(TtsSettings), payload);
          if settings.Err? { return Err(settings.error); }
          return Ok(report.Imported("voice_tts_provider_settings").Warned(TtsDownloads));
        case Settings(SttSettings) =>
          var settings := ValidateSettings(env.py, FormOf(SttSettings), payload);
          if settings.Err? { return Err(settings.error); }
          var planned := report.Imported("voice_stt_settings").Warned(SttDownloads);
          if Get(settings.value, "device") == Str("cuda") {
            planned := planned.Warned(SttCuda);
          }
          return Ok(planned);
        case Settings(WakeSettings) =>
          var settings := ValidateSettings(env.py, FormOf(WakeSettings), payload);
          if settings.Err? { return Err(settings.error); }
          return Ok(report.Imported("voice_wake_settings").Warned(WakeModels));
      }
    }

    /** The sections in order, until one fails. */
    method PlanEach(req: Request, files: Fields, sections: seq<Section>) returns (plan: Result<Report, string>)
      ensures plan == PlanSections(env, req, files, sections)
    {
      var report := EMPTY;
      for i := 0 to |sections|
        invariant PlanSections(env, req, files, sections[..i]) == Ok(report)
      {
        assert sections[..i + 1][..i] == sections[..i];
        var next := PlanOneSection(req, files, sections[i], report);
        if next.Err? {
          PlanStops(env, req, files, sections, i + 1);
          return next;
        }
        report := next.value;
      }
      assert sections[..|sections|] == sections;
      return Ok(report);
    }

    method DryRunImportPlan(req: Request) returns (plan: Result<Report, string>)
      ensures plan == Plan(env, req)
    {
      var files := OpenBundle(req.bundle);
      if files.Err? {
        return Err(files.error);
      }
      plan := PlanEach(req, files.value, SECTIONS);
      if plan.Err? {
        return;
      }
      if plan.value.files == [] {
        return Err("migration_bundle_contains_no_supported_state_files");
      }
      return Ok(plan.value.Warned(CopySeparately));
    }

    // ---- the import ----

    /** Lays the change of a provider section over the stored onboarding state. */
    method SaveChange(change: Change, report: Report, name: string) returns (next: Report)
      modifies this`onboarding
      ensures Contents() == Written(old(Contents()), Changed(change, map[]))
      ensures next == report.Imported(name).At(OrAddress(report.address, onboarding.address))
    {
      onboarding := onboarding.(setup := Merge(onboarding.setup, change));
      return report.Imported(name).At(OrAddress(report.address, onboarding.address));
    }

    method ImportSettings(kind: Kind, payload: Json, report: Report) returns (next: Result<Report, string>)
      modifies this`onboarding
      ensures var settings := Validate(env.py, FormOf(kind), payload);
        if settings.Err? then next == Err(settings.error) && Contents() == old(Contents())
        else
          var change := ChangeBy(env.py, kind, settings.value);
          var content := Changed(change, settings.value);
          && Contents() == Written(old(Contents()), content)
          && next == Ok(Noted(report, Settings(kind), content, OrAddress(report.address, onboarding.address)))
    {
      var settings := ValidateSettings(env.py, FormOf(kind), payload);
      if settings.Err? {
        return Err(settings.error);
      }
      match kind {
        case TtsSettings =>
          var saved := SaveChange(SpeechChange(env.py, TtsSettings, settings.value), report,
            "voice_tts_provider_settings");
          return Ok(saved.Warned(TtsDownloads));
        case SttSettings =>
          var saved := SaveChange(SpeechChange(env.py, SttSettings, settings.value), report, "voice_stt_settings");
          saved := saved.Warned(SttDownloads);
          if Get(settings.value, "device") == Str("cuda") {
            saved := saved.Warned(SttCuda);
          }
          return Ok(saved);
        case WakeSettings =>
          var saved := SaveChange(WakeChange(env.py, settings.value), report, "voice_wake_settings");
          return Ok(saved.Warned(WakeModels));
      }
    }

    method ImportOneSection(req: Request, files: Fields, section: Section, report: Report)
      returns (next: Result<Report, string>)
      modifies this
      ensures Run(Contents(), next) == ImportSection(env, req, files, section, old(Contents()), report)
    {
      var payload := Get(files, Name(section));
      if payload == Null {
        return Ok(report);
      }
      match section {
        case OnboardingState =>
          var state := env.onboardingModel(payload);
          if state.Err? { return Err(state.error); }
          onboarding := WithOverrides(state.value, req);
          var imported := report.Imported("onboarding_state").At(onboarding.address);
          if onboarding.trustStatus != "trusted" {
            imported := imported.Warned(Reauthorize);
          }
          return Ok(imported);
        case EndpointRegistry =>
          var model := env.registryModel(payload);
          if model.Err? { return Err(model.error); }
          registry := Some(model.value);
          return Ok(report.Imported("endpoint_registry"));
        case VoiceIntents =>
          var model := env.intentsModel(payload);
          if model.Err? { return Err(model.error); }
          intents := Some(model.value);
          return Ok(report.Imported("voice_intents"));
        case TtsRuntime =>
          if !payload.Dict? { return Err("voice_tts_settings_must_be_object"); }
          ttsRuntime := Some(payload);
          return Ok(report.Imported("voice_tts_settings"));
        case Settings(kind) =>
          next := ImportSettings(kind, payload, report);
      }
    }

    method ImportEach(req: Request, files: Fields, sections: seq<Section>) returns (imported: Result<Report, string>)
      modifies this
      ensures Run(Contents(), imported) == ImportSections(env, req, files, sections, old(Contents()))
    {
      var report := EMPTY;
      for i := 0 to |sections|
        invariant ImportSections(env, req, files, sections[..i], old(Contents())) == Run(Contents(), Ok(report))
      {
        assert sections[..i + 1][..i] == sections[..i];
        var next := ImportOneSection(req, files, sections[i], report);
        if next.Err? {
          ImportStops(env, req, files, sections, old(Contents()), i + 1);
          return next;
        }
        report := next.value;
      }
      assert sections[..|sections|] == sections;
      return Ok(report);
    }

    method ImportBundle(req: Request, dryRun: bool) returns (response: Result<Response, string>)
      modifies this
      ensures Contents() == if dryRun then old(Contents()) else Import(env, req, old(Contents())).stores
      ensures response ==
        if dryRun then Answer(false, WithWarning(Plan(env, req), DryRunOnly))
        else Answer(true, Import(env, req, old(Contents())).report)
    {
      if dryRun {
        var plan := DryRunImportPlan(req);
        if plan.Err? { return Err(plan.error); }
        return Ok(Response(false, plan.value.Warned(DryRunOnly)));
      }
      var files := OpenBundle(req.bundle);
      if files.Err? {
        return Err(files.error);
      }
      var imported := ImportEach(req, files.value, SECTIONS);
      if imported.Err? {
        return Err(imported.error);
      }
      if imported.value.files == [] {
        return Err("migration_bundle_contains_no_supported_state_files");
      }
      return Ok(Response(true, imported.value.Warned(CopySeparately)));
    }

    /** Restores a backup, unless its bundle is missing, in which case it is None: a dry run comes
        first, so a restore that fails leaves every store as it was. */
    method RestoreBackup(backup: Option<Json>, req: Request, dryRun: bool) returns (response: Result<Response, string>)
      modifies this
      ensures response.Err? ==> Contents() == old(Contents())
      ensures backup.None? ==> response == Err("migration_backup_bundle_missing")
      ensures backup.Some? ==>
        var full := req.(bundle := backup.value);
        var run := Import(env, full, old(Contents()));
        && Contents() == (if dryRun || run.report.Err? then old(Contents()) else run.stores)
        && response ==
           if dryRun then Answer(false, WithWarning(WithWarning(Plan(env, full), DryRunOnly), Restored))
           else Answer(true, WithWarning(run.report, Restored))
    {
      if backup.None? {
        return Err("migration_backup_bundle_missing");
      }
      var full := req.(bundle := backup.value);
      if !dryRun {
        var rehearsal := ImportBundle(full, true);
        MigrationProperties.DryRunForetells(env, full, Contents());
        if rehearsal.Err? { return rehearsal; }
      }
      var imported := ImportBundle(full, dryRun);
      if imported.Err? { return imported; }
      return Ok(imported.value.(report := imported.value.report.Warned(Restored)));
    }
  }

  /** The checks that both the planner and the import make first. */
  method OpenBundle(bundle: Json) returns (files: Result<Fields, string>)
    ensures files == StateFiles(bundle)
  {
    if !bundle.Dict? {
      return Err("migration_bundle_must_be_object");
    }
    if !IsVersionOne(Get(bundle.fields, "schema_version")) {
      return Err("unsupported_migration_schema_version");
    }
    var found := Get(bundle.fields, "state_files");
    if !found.Dict? {
      return Err("migration_state_files_missing");
    }
    if !PassesRejection(bundle.fields) {
      return Err("migration_bundle_contains_trust_secrets");
    }
    return Ok(found.fields);
  }
}
