/** Which bundles an import accepts, and that it accepts what an export wrote. */
module MigrationExport {
  import opened MigrationImport
  import opened MigrationJson
  import opened MigrationProperties
  import opened ProviderMerge
  import opened ProviderSettings
  import opened SettingsNormalForm
  import opened TrustSecrets
  import opened Wrappers

  // ---- acceptance ----

  ghost predicate AllPass(env: Env, req: Request, files: Fields, sections: seq<Section>) {
    forall i | 0 <= i < |sections| && Present(files, sections[i]) ::
      Check(env, req, sections[i], Get(files, Name(sections[i]))).Ok?
  }

  /** The names of the sections that are there, in order. */
  function PresentNames(files: Fields, sections: seq<Section>): seq<string>
    decreases |sections|
  {
    if sections == [] then []
    else
      var last := sections[|sections| - 1];
      PresentNames(files, sections[..|sections| - 1]) + if Present(files, last) then [Name(last)] else []
  }

  /** The plan goes through exactly when all sections pass, and then lists those that are there. */
  ghost predicate PlanFits(env: Env, req: Request, files: Fields, sections: seq<Section>) {
    var plan := PlanSections(env, req, files, sections);
    && (plan.Ok? <==> AllPass(env, req, files, sections))
    && (plan.Ok? ==> plan.value.files == PresentNames(files, sections))
  }

  lemma {:induction false} PlanLast(env: Env, req: Request, files: Fields, front: seq<Section>, last: Section)
    ensures var before := PlanSections(env, req, files, front);
      PlanSections(env, req, files, front + [last]) ==
        if before.Err? then before else PlanSection(env, req, files, last, before.value)
  {
    assert (front + [last])[..|front|] == front;
  }

  lemma PassLast(env: Env, req: Request, files: Fields, front: seq<Section>, last: Section)
    ensures AllPass(env, req, files, front + [last]) <==>
      AllPass(env, req, files, front) && (Present(files, last) ==> Check(env, req, last, Get(files, Name(last))).Ok?)
  {
    var sections := front + [last];
    assert sections[|front|] == last;
    assert forall i | 0 <= i < |front| :: sections[i] == front[i];
  }

  lemma {:induction false} NamesLast(files: Fields, front: seq<Section>, last: Section)
    ensures PresentNames(files, front + [last]) ==
      PresentNames(files, front) + if Present(files, last) then [Name(last)] else []
  {
    assert (front + [last])[..|front|] == front;
  }

  lemma {:induction false} SomethingPresent(files: Fields, sections: seq<Section>, section: Section)
    requires section in sections && Present(files, section)
    ensures PresentNames(files, sections) != []
    decreases |sections|
  {
    var front, last := sections[..|sections| - 1], sections[|sections| - 1];
    if section != last {
      assert sections == front + [last];
      SomethingPresent(files, front, section);
    }
  }

  lemma PlanSectionFits(env: Env, req: Request, files: Fields, section: Section, report: Report)
    ensures var plan := PlanSection(env, req, files, section, report);
      && (plan.Ok? <==> (Present(files, section) ==> Check(env, req, section, Get(files, Name(section))).Ok?))
      && (plan.Ok? ==> plan.value.files == report.files + if Present(files, section) then [Name(section)] else [])
  {
    var payload := Get(files, Name(section));
    if payload != Null && Check(env, req, section, payload).Ok? {
      var content := Check(env, req, section, payload).value;
      NotedFiles(report, section, content, if content.Onboarded? then content.state.address else report.address);
    }
  }

  lemma NotedFiles(report: Report, section: Section, content: Content, address: Address)
    ensures Noted(report, section, content, address).files == report.files + [Name(section)]
  {
  }

  lemma PlanFitsLast(env: Env, req: Request, files: Fields, front: seq<Section>, last: Section)
    requires PlanFits(env, req, files, front)
    ensures PlanFits(env, req, files, front + [last])
  {
    PlanLast(env, req, files, front, last);
    PassLast(env, req, files, front, last);
    NamesLast(files, front, last);
    var before := PlanSections(env, req, files, front);
    if before.Ok? {
      PlanSectionFits(env, req, files, last, before.value);
    }
  }

  lemma {:induction false} PlanFitsAll(env: Env, req: Request, files: Fields, sections: seq<Section>)
    ensures PlanFits(env, req, files, sections)
    decreases |sections|
  {
    if sections != [] {
      var front, last := sections[..|sections| - 1], sections[|sections| - 1];
      assert sections == front + [last];
      PlanFitsAll(env, req, files, front);
      PlanFitsLast(env, req, files, front, last);
    }
  }

  /** A bundle is accepted, by the dry run and by the import alike, exactly when it is well
      formed and without secrets, every section it holds passes, and it holds one at all. The
      report then lists the sections it holds, in order. */
  lemma {:induction false} AcceptedBundles(env: Env, req: Request, stores: Stores)
    ensures Plan(env, req).Ok? <==>
      && StateFiles(req.bundle).Ok?
      && AllPass(env, req, StateFiles(req.bundle).value, SECTIONS)
      && PresentNames(StateFiles(req.bundle).value, SECTIONS) != []
    ensures Import(env, req, stores).report.Ok? <==> Plan(env, req).Ok?
    ensures Plan(env, req).Ok? ==>
      Import(env, req, stores).report.value.files == PresentNames(StateFiles(req.bundle).value, SECTIONS)
  {
    DryRunForetells(env, req, stores);
    if StateFiles(req.bundle).Ok? {
      PlanFitsAll(env, req, StateFiles(req.bundle).value, SECTIONS);
    }
  }

  // ---- export ----

  /** What an export reads: the onboarding state as a dict, the endpoint registry, and the
      sections that may be missing. */
  datatype Source = Source(
    onboarding: Fields,
    registry: Fields,
    intents: Option<Fields>,
    ttsRuntime: Option<Fields>,
    settings: Kind -> Option<Fields>)

  function AsJson(fields: Option<Fields>): Json {
    if fields.None? then Null else Dict(fields.value)
  }

  function ExportedSection(source: Source, section: Section): Json {
    match section
    case OnboardingState => Dict(Redact(source.onboarding))
    case EndpointRegistry => Dict(source.registry)
    case VoiceIntents => AsJson(source.intents)
    case TtsRuntime => AsJson(source.ttsRuntime)
    case Settings(kind) => AsJson(source.settings(kind))
  }

  function ExportedFiles(source: Source, sections: seq<Section>): Fields
    decreases |sections|
  {
    if sections == [] then map[]
    else
      var last := sections[|sections| - 1];
      var before := ExportedFiles(source, sections[..|sections| - 1]);
      var payload := ExportedSection(source, last);
      if payload == Null then before else before[Name(last) := payload]
  }

  /** `export_bundle`, without its descriptive fields. */
  function ExportBundle(source: Source): Json {
    Dict(map[
      "schema_version" := Int(1),
      "contains_trust_secrets" := Bool(false),
      "state_files" := Dict(ExportedFiles(source, SECTIONS))])
  }

  lemma NamesDiffer(a: Section, b: Section)
    requires Name(a) == Name(b)
    ensures a == b
  {
    assert |Name(Settings(SttSettings))| == |Name(TtsRuntime)| == 18;
    assert Name(Settings(SttSettings))[6] == 's' && Name(TtsRuntime)[6] == 't';
  }

  lemma NoSecretName(section: Section)
    ensures !SecretName(Name(section))
  {
    assert Name(OnboardingState)[0] == 'o' && Name(EndpointRegistry)[0] == 'e';
    assert |Name(OnboardingState)| == 16 && |Name(EndpointRegistry)| == 17;
    assert section != OnboardingState && section != EndpointRegistry ==> Name(section)[0] == 'v';
    assert "node_trust_token"[0] == 'n' && "operational_mqtt_token"[0] == 'o';
    assert |"operational_mqtt_token"| == 22;
  }

  lemma {:induction false} ExportedFilesHold(source: Source, sections: seq<Section>, section: Section)
    ensures Get(ExportedFiles(source, sections), Name(section)) ==
      if section in sections then ExportedSection(source, section) else Null
    decreases |sections|
  {
    if sections != [] {
      var front, last := sections[..|sections| - 1], sections[|sections| - 1];
      assert sections == front + [last];
      ExportedFilesHold(source, front, section);
      if section != last && Name(section) == Name(last) {
        NamesDiffer(section, last);
      }
    }
  }

  lemma {:induction false} ExportedSecrets(source: Source, sections: seq<Section>)
    ensures ContainsSecret(Dict(ExportedFiles(source, sections))) <==>
      exists section | section in sections :: ContainsSecret(ExportedSection(source, section))
    decreases |sections|
  {
    var files := ExportedFiles(source, sections);
    if ContainsSecret(Dict(files)) {
      var key :| key in files && ((SecretName(key) && HoldsValue(files[key])) || ContainsSecret(files[key]));
      var section := ExportedKey(source, sections, key);
      NoSecretName(section);
      ExportedFilesHold(source, sections, section);
    }
    forall section | section in sections && ContainsSecret(ExportedSection(source, section))
      ensures ContainsSecret(Dict(files))
    {
      ExportedFilesHold(source, sections, section);
    }
  }

  lemma {:induction false} ExportedKey(source: Source, sections: seq<Section>, key: string) returns (section: Section)
    requires key in ExportedFiles(source, sections)
    ensures section in sections && key == Name(section)
    decreases |sections|
  {
    var last := sections[|sections| - 1];
    if key == Name(last) {
      section := last;
    } else {
      section := ExportedKey(source, sections[..|sections| - 1], key);
    }
  }

  /** The data models accept the states that were loaded, and settings come from their validators. */
  ghost predicate Faithful(env: Env, source: Source) {
    && env.onboardingModel(Dict(Redact(source.onboarding))).Ok?
    && env.registryModel(Dict(source.registry)).Ok?
    && (source.intents.Some? ==> env.intentsModel(Dict(source.intents.value)).Ok?)
    && forall kind | source.settings(kind).Some? ::
         exists payload :: Validate(env.py, FormOf(kind), payload) == Ok(source.settings(kind).value)
  }

  lemma ExportedSectionPasses(env: Env, req: Request, source: Source, section: Section)
    requires Faithful(env, source) && ExportedSection(source, section) != Null
    ensures Check(env, req, section, ExportedSection(source, section)).Ok?
  {
    if section.Settings? {
      var payload :| Validate(env.py, FormOf(section.kind), payload) == Ok(source.settings(section.kind).value);
      NormalFormIsFixed(env.py, FormOf(section.kind), payload);
    }
  }

  lemma {:induction false} ExportedStateFiles(source: Source)
    ensures StateFiles(ExportBundle(source)) ==
      if ContainsSecret(Dict(ExportedFiles(source, SECTIONS))) then Err("migration_bundle_contains_trust_secrets")
      else Ok(ExportedFiles(source, SECTIONS))
  {
    var bundle := ExportBundle(source).fields;
    assert "schema_version"[0] == 's' && "schema_version"[1] == 'c' && "state_files"[0] == 's'
      && "state_files"[1] == 't';
    assert "contains_trust_secrets"[0] == 'c';
    assert Get(bundle, "schema_version") == Int(1);
    assert Get(bundle, "contains_trust_secrets") == Bool(false);
    assert Get(bundle, "state_files") == Dict(ExportedFiles(source, SECTIONS));
  }

  /** The import accepts an exported bundle exactly when every secret of the onboarding state
      was at a place that redaction overwrites and no other section held one. */
  lemma ExportIsImportable(env: Env, req: Request, source: Source)
    requires Faithful(env, source) && req.bundle == ExportBundle(source)
    ensures Plan(env, req).Ok? <==>
      && (forall path | SecretAt(Dict(source.onboarding), path) :: Overwritten(source.onboarding, path))
      && (forall section | section != OnboardingState :: !ContainsSecret(ExportedSection(source, section)))
  {
    var files := ExportedFiles(source, SECTIONS);
    ExportedStateFiles(source);
    ExportedSecrets(source, SECTIONS);
    EverySection();
    RedactedIsAccepted(source.onboarding);
    PlanFitsAll(env, req, files, SECTIONS);
    forall i | 0 <= i < |SECTIONS|
      ensures Get(files, Name(SECTIONS[i])) == ExportedSection(source, SECTIONS[i])
      ensures Present(files, SECTIONS[i]) ==> Check(env, req, SECTIONS[i], Get(files, Name(SECTIONS[i]))).Ok?
    {
      ExportedFilesHold(source, SECTIONS, SECTIONS[i]);
      if Present(files, SECTIONS[i]) {
        ExportedSectionPasses(env, req, source, SECTIONS[i]);
      }
    }
    assert Present(files, SECTIONS[0]);
    SomethingPresent(files, SECTIONS, SECTIONS[0]);
  }

  lemma EverySection()
    ensures forall section: Section :: section in SECTIONS
  {
    forall section: Section ensures section in SECTIONS {
      var i := match section
        case OnboardingState => 0 case EndpointRegistry => 1 case VoiceIntents => 2 case TtsRuntime => 3
        case Settings(TtsSettings) => 4 case Settings(SttSettings) => 5 case Settings(WakeSettings) => 6;
      assert SECTIONS[i] == section;
    }
  }
}
