/** What migration guarantees: a dry run foretells the import, and importing again changes nothing. */
module MigrationProperties {
  import opened MigrationImport
  import opened MigrationJson
  import opened ProviderMerge
  import opened ProviderSettings
  import opened SettingsNormalForm
  import opened Wrappers

  // ---- a dry run foretells the import ----

  /** Two outcomes with the same error, or with the same files and warnings. */
  predicate SameOutcome(a: Result<Report, string>, b: Result<Report, string>) {
    if a.Err? || b.Err? then a == b
    else a.value.files == b.value.files && a.value.warnings == b.value.warnings
  }

  lemma NotedAgrees(section: Section, content: Content, plan: Report, planned: Address, report: Report,
      reported: Address)
    requires plan.files == report.files && plan.warnings == report.warnings
    ensures var a, b := Noted(plan, section, content, planned), Noted(report, section, content, reported);
      a.files == b.files && a.warnings == b.warnings
  {
  }

  lemma SectionAgrees(env: Env, req: Request, files: Fields, section: Section, stores: Stores, plan: Report,
      report: Report)
    requires plan.files == report.files && plan.warnings == report.warnings
    ensures SameOutcome(
      PlanSection(env, req, files, section, plan), ImportSection(env, req, files, section, stores, report).report)
  {
    var payload := Get(files, Name(section));
    if payload != Null && Check(env, req, section, payload).Ok? {
      var content := Check(env, req, section, payload).value;
      var planned := if content.Onboarded? then content.state.address else plan.address;
      NotedAgrees(section, content, plan, planned, report,
        ReportedAddress(report.address, content, Written(stores, content).onboarding));
    }
  }

  lemma {:induction false} SectionsAgree(env: Env, req: Request, files: Fields, sections: seq<Section>, stores: Stores)
    ensures SameOutcome(PlanSections(env, req, files, sections),
      ImportSections(env, req, files, sections, stores).report)
    decreases |sections|
  {
    if sections != [] {
      var front, last := sections[..|sections| - 1], sections[|sections| - 1];
      SectionsAgree(env, req, files, front, stores);
      var plan, run := PlanSections(env, req, files, front), ImportSections(env, req, files, front, stores);
      if plan.Ok? {
        SectionAgrees(env, req, files, last, run.stores, plan.value, run.report.value);
      }
    }
  }

  /** For every bundle and every state of the stores, the import fails exactly when the dry run
      fails, with the same first error, and otherwise lists the same files and warnings. */
  lemma DryRunForetells(env: Env, req: Request, stores: Stores)
    ensures SameOutcome(Plan(env, req), Import(env, req, stores).report)
  {
    var files := StateFiles(req.bundle);
    if files.Ok? {
      SectionsAgree(env, req, files.value, SECTIONS, stores);
    }
  }

  // ---- the addresses ----

  predicate Present(files: Fields, section: Section) {
    Get(files, Name(section)) != Null
  }

  predicate ProviderAmong(files: Fields, sections: seq<Section>) {
    exists section | section in sections :: section.Settings? && Present(files, section)
  }

  predicate OnboardingAmong(files: Fields, sections: seq<Section>) {
    OnboardingState in sections && Present(files, OnboardingState)
  }

  lemma ContentKind(env: Env, req: Request, section: Section, payload: Json)
    requires Check(env, req, section, payload).Ok?
    ensures Check(env, req, section, payload).value.Onboarded? <==> section.OnboardingState?
    ensures Check(env, req, section, payload).value.Changed? <==> section.Settings?
  {
  }

  /** The addresses in the two reports and in the store. */
  datatype Addresses = Addresses(planned: Address, stored: Address, reported: Address)

  /** What one section does to them. */
  ghost predicate Moves(files: Fields, section: Section, before: Addresses, after: Addresses) {
    if Present(files, section) && section.OnboardingState? then
      after.planned == after.stored && after.reported == after.stored
    else
      && after.planned == before.planned && after.stored == before.stored
      && after.reported ==
         (if Present(files, section) && section.Settings? then OrAddress(before.reported, after.stored)
          else before.reported)
  }

  lemma NotedAddress(report: Report, section: Section, content: Content, address: Address)
    ensures Noted(report, section, content, address).address == address
  {
  }

  lemma CheckedAddress(env: Env, req: Request, section: Section, payload: Json, stores: Stores)
    requires Check(env, req, section, payload).Ok?
    ensures var content := Check(env, req, section, payload).value;
      && (content.Onboarded? <==> section.OnboardingState?) && (content.Changed? <==> section.Settings?)
      && Written(stores, content).onboarding.address ==
         if content.Onboarded? then content.state.address else stores.onboarding.address
  {
    ContentKind(env, req, section, payload);
  }

  lemma SectionAddresses(env: Env, req: Request, files: Fields, section: Section, stores: Stores, plan: Report,
      report: Report)
    requires PlanSection(env, req, files, section, plan).Ok?
    ensures ImportSection(env, req, files, section, stores, report).report.Ok?
    ensures var run := ImportSection(env, req, files, section, stores, report);
      Moves(files, section,
        Addresses(plan.address, stores.onboarding.address, report.address),
        Addresses(PlanSection(env, req, files, section, plan).value.address, run.stores.onboarding.address,
          run.report.value.address))
  {
    var payload := Get(files, Name(section));
    if payload != Null {
      CheckedAddress(env, req, section, payload, stores);
      var content := Check(env, req, section, payload).value;
      var saved := Written(stores, content).onboarding;
      NotedAddress(plan, section, content, if content.Onboarded? then content.state.address else plan.address);
      NotedAddress(report, section, content, ReportedAddress(report.address, content, saved));
    }
  }

  /** The addresses after some sections, where `original` was stored before. */
  ghost predicate AddressesAt(files: Fields, sections: seq<Section>, original: Address, now: Addresses) {
    if OnboardingAmong(files, sections) then now.planned == now.stored && now.reported == now.stored
    else
      && now.planned == NOWHERE && now.stored == original
      && now.reported == if ProviderAmong(files, sections) then original else NOWHERE
  }

  /** The onboarding state, where it is among the sections, comes first. */
  predicate OnboardingFirst(sections: seq<Section>) {
    forall i | 0 < i < |sections| :: !sections[i].OnboardingState?
  }

  lemma InLast<T>(x: T, list: seq<T>)
    requires list != []
    ensures x in list <==> x in list[..|list| - 1] || x == list[|list| - 1]
  {
    assert list == list[..|list| - 1] + [list[|list| - 1]];
  }

  lemma AmongLast(files: Fields, sections: seq<Section>)
    requires sections != []
    ensures var front, last := sections[..|sections| - 1], sections[|sections| - 1];
      && (ProviderAmong(files, sections) <==> ProviderAmong(files, front) || (last.Settings? && Present(files, last)))
      && (OnboardingAmong(files, sections) <==>
            OnboardingAmong(files, front) || (last.OnboardingState? && Present(files, last)))
  {
    var front, last := sections[..|sections| - 1], sections[|sections| - 1];
    InLast(OnboardingState, sections);
    if ProviderAmong(files, sections) {
      var section :| section in sections && section.Settings? && Present(files, section);
      InLast(section, sections);
    }
    if ProviderAmong(files, front) {
      var section :| section in front && section.Settings? && Present(files, section);
      InLast(section, sections);
    }
  }

  lemma AddressesStep(files: Fields, sections: seq<Section>, original: Address, before: Addresses, after: Addresses)
    requires sections != [] && AddressesAt(files, sections[..|sections| - 1], original, before)
    requires Moves(files, sections[|sections| - 1], before, after)
    requires sections[|sections| - 1].OnboardingState? ==> |sections| == 1
    ensures AddressesAt(files, sections, original, after)
  {
    AmongLast(files, sections);
  }

  function AddressesOf(env: Env, req: Request, files: Fields, sections: seq<Section>, stores: Stores): Addresses
    requires PlanSections(env, req, files, sections).Ok? && ImportSections(env, req, files, sections, stores).report.Ok?
  {
    var run := ImportSections(env, req, files, sections, stores);
    Addresses(PlanSections(env, req, files, sections).value.address, run.stores.onboarding.address,
      run.report.value.address)
  }

  lemma {:induction false} AddressesOnTheWay(env: Env, req: Request, files: Fields, sections: seq<Section>,
      stores: Stores)
    requires OnboardingFirst(sections) && PlanSections(env, req, files, sections).Ok?
    ensures ImportSections(env, req, files, sections, stores).report.Ok?
    ensures AddressesAt(files, sections, stores.onboarding.address, AddressesOf(env, req, files, sections, stores))
    decreases |sections|
  {
    if sections != [] {
      var front, last := sections[..|sections| - 1], sections[|sections| - 1];
      AddressesOnTheWay(env, req, files, front, stores);
      var run := ImportSections(env, req, files, front, stores);
      SectionAddresses(env, req, files, last, run.stores, PlanSections(env, req, files, front).value, run.report.value);
      AddressesStep(files, sections, stores.onboarding.address,
        AddressesOf(env, req, files, front, stores), AddressesOf(env, req, files, sections, stores));
    }
  }

  lemma AmongSections(files: Fields)
    ensures OnboardingFirst(SECTIONS)
    ensures OnboardingAmong(files, SECTIONS) <==> Present(files, OnboardingState)
    ensures ProviderAmong(files, SECTIONS) <==> exists kind :: Present(files, Settings(kind))
  {
    assert SECTIONS[0] == OnboardingState;
    if kind :| Present(files, Settings(kind)) {
      SettingsListed(kind);
      assert Settings(kind) in SECTIONS;
    }
  }

  lemma SettingsListed(kind: Kind)
    ensures Settings(kind) in SECTIONS
  {
    assert SECTIONS[4] == Settings(TtsSettings);
    assert SECTIONS[5] == Settings(SttSettings);
    assert SECTIONS[6] == Settings(WakeSettings);
  }

  /** A dry run reports the same addresses as the import exactly when the bundle holds an
      onboarding state, or no provider settings, or none of the addresses is stored. */
  lemma AddressesAgreeExactly(env: Env, req: Request, stores: Stores)
    requires Plan(env, req).Ok?
    ensures Import(env, req, stores).report.Ok?
    ensures var files := StateFiles(req.bundle).value;
      Plan(env, req).value.address == Import(env, req, stores).report.value.address <==>
        || Present(files, OnboardingState)
        || (forall kind :: !Present(files, Settings(kind)))
        || stores.onboarding.address == NOWHERE
  {
    var files := StateFiles(req.bundle).value;
    AmongSections(files);
    AddressesOnTheWay(env, req, files, SECTIONS, stores);
    DryRunForetells(env, req, stores);
  }

  // ---- the contents an import writes ----

  /** The sections that passed before the first failure. */
  function Passed(env: Env, req: Request, files: Fields, sections: seq<Section>): seq<Content>
    decreases |sections|
  {
    if sections == [] then []
    else
      var front, last := sections[..|sections| - 1], sections[|sections| - 1];
      var before := Passed(env, req, files, front);
      var payload := Get(files, Name(last));
      if payload == Null || PlanSections(env, req, files, front).Err? || Check(env, req, last, payload).Err? then before
      else before + [Check(env, req, last, payload).value]
  }

  function WriteAll(stores: Stores, contents: seq<Content>): Stores
    decreases |contents|
  {
    if contents == [] then stores
    else Written(WriteAll(stores, contents[..|contents| - 1]), contents[|contents| - 1])
  }

  /** What an import writes does not depend on what is stored. */
  lemma {:induction false} ImportWrites(env: Env, req: Request, files: Fields, sections: seq<Section>, stores: Stores)
    ensures ImportSections(env, req, files, sections, stores).stores ==
      WriteAll(stores, Passed(env, req, files, sections))
    decreases |sections|
  {
    if sections != [] {
      var front, last := sections[..|sections| - 1], sections[|sections| - 1];
      ImportWrites(env, req, files, front, stores);
      SectionsAgree(env, req, files, front, stores);
      var before := Passed(env, req, files, front);
      var payload := Get(files, Name(last));
      if payload != Null && PlanSections(env, req, files, front).Ok? && Check(env, req, last, payload).Ok? {
        assert (before + [Check(env, req, last, payload).value])[..|before|] == before;
      }
    }
  }

  /** The file of a section that was there holds what was validated; otherwise it is as before. */
  ghost predicate FileStored(files: Fields, section: Section, sections: seq<Section>, model: Result<Json, string>,
      before: Option<Json>, after: Option<Json>)
  {
    if section in sections && Present(files, section) then model.Ok? && after == Some(model.value) else after == before
  }

  function Payload(files: Fields, section: Section): Json {
    Get(files, Name(section))
  }

  function RuntimeModel(payload: Json): Result<Json, string> {
    if payload.Dict? then Ok(payload) else Err("voice_tts_settings_must_be_object")
  }

  /** The onboarding state that the provider changes are merged into. */
  function StateBelow(env: Env, req: Request, files: Fields, sections: seq<Section>, before: Onboarding): Onboarding {
    if OnboardingAmong(files, sections) && env.onboardingModel(Payload(files, OnboardingState)).Ok?
    then WithOverrides(env.onboardingModel(Payload(files, OnboardingState)).value, req) else before
  }

  /** The changes of the provider settings in the bundle, in the order of the sections. */
  function SettingsChanges(env: Env, files: Fields, sections: seq<Section>): seq<Change>
    decreases |sections|
  {
    if sections == [] then []
    else
      var earlier, last := SettingsChanges(env, files, sections[..|sections| - 1]), sections[|sections| - 1];
      if !last.Settings? || !Present(files, last) then earlier
      else
        var settings := Validate(env.py, FormOf(last.kind), Payload(files, last));
        if settings.Err? then earlier else earlier + [ChangeBy(env.py, last.kind, settings.value)]
  }

  ghost predicate OnboardingStored(env: Env, req: Request, files: Fields, sections: seq<Section>, before: Onboarding,
      after: Onboarding)
  {
    var base := StateBelow(env, req, files, sections, before);
    after == base.(setup := MergeAll(base.setup, SettingsChanges(env, files, sections)))
  }

  /** Each of the four files after a successful import of some sections. */
  ghost predicate FilesStored(env: Env, req: Request, files: Fields, sections: seq<Section>, before: Stores,
      after: Stores)
  {
    && OnboardingStored(env, req, files, sections, before.onboarding, after.onboarding)
    && FileStored(files, EndpointRegistry, sections, env.registryModel(Payload(files, EndpointRegistry)),
         before.registry, after.registry)
    && FileStored(files, VoiceIntents, sections, env.intentsModel(Payload(files, VoiceIntents)),
         before.intents, after.intents)
    && FileStored(files, TtsRuntime, sections, RuntimeModel(Payload(files, TtsRuntime)),
         before.ttsRuntime, after.ttsRuntime)
  }

  /** What a section that did not fail does to the stores. */
  ghost predicate SectionDone(env: Env, req: Request, files: Fields, section: Section, now: Stores, after: Stores) {
    if Present(files, section) then
      var content := Check(env, req, section, Payload(files, section));
      content.Ok? && after == Written(now, content.value)
    else after == now
  }

  lemma SectionWritten(env: Env, req: Request, files: Fields, section: Section, now: Stores, report: Report)
    requires ImportSection(env, req, files, section, now, report).report.Ok?
    ensures SectionDone(env, req, files, section, now, ImportSection(env, req, files, section, now, report).stores)
  {
  }

  /** What the last section does to the file of a section. */
  ghost predicate FileDone(files: Fields, section: Section, last: Section, model: Result<Json, string>,
      now: Option<Json>, after: Option<Json>)
  {
    if last == section && Present(files, last) then model.Ok? && after == Some(model.value) else after == now
  }

  lemma FileStep(files: Fields, section: Section, sections: seq<Section>, model: Result<Json, string>,
      before: Option<Json>, now: Option<Json>, after: Option<Json>)
    requires sections != [] && FileStored(files, section, sections[..|sections| - 1], model, before, now)
    requires FileDone(files, section, sections[|sections| - 1], model, now, after)
    ensures FileStored(files, section, sections, model, before, after)
  {
    InLast(section, sections);
  }

  /** What a section that did not fail does to the onboarding state. */
  ghost predicate StateDone(env: Env, req: Request, files: Fields, section: Section, now: Onboarding,
      after: Onboarding)
  {
    if !Present(files, section) then after == now
    else if section.OnboardingState? then
      var state := env.onboardingModel(Payload(files, section));
      state.Ok? && after == WithOverrides(state.value, req)
    else if section.Settings? then
      var settings := Validate(env.py, FormOf(section.kind), Payload(files, section));
      settings.Ok? && after == now.(setup := Merge(now.setup, ChangeBy(env.py, section.kind, settings.value)))
    else after == now
  }

  lemma WrittenState(env: Env, req: Request, section: Section, payload: Json, now: Stores, after: Stores)
    requires Check(env, req, section, payload).Ok?
    requires after == Written(now, Check(env, req, section, payload).value)
    ensures section.OnboardingState? ==>
      var state := env.onboardingModel(payload);
      state.Ok? && after.onboarding == WithOverrides(state.value, req)
    ensures section.Settings? ==>
      var settings := Validate(env.py, FormOf(section.kind), payload);
      && settings.Ok?
      && after.onboarding ==
         now.onboarding.(setup := Merge(now.onboarding.setup, ChangeBy(env.py, section.kind, settings.value)))
    ensures !section.OnboardingState? && !section.Settings? ==> after.onboarding == now.onboarding
  {
  }

  lemma DoneToState(env: Env, req: Request, files: Fields, section: Section, now: Stores, after: Stores)
    requires SectionDone(env, req, files, section, now, after)
    ensures StateDone(env, req, files, section, now.onboarding, after.onboarding)
  {
    if Present(files, section) {
      WrittenState(env, req, section, Payload(files, section), now, after);
    }
  }

  lemma {:induction false} MergeOneMore(setup: ProviderSetup, changes: seq<Change>, change: Change)
    ensures MergeAll(setup, changes + [change]) == Merge(MergeAll(setup, changes), change)
  {
    assert (changes + [change])[..|changes|] == changes;
  }

  lemma SettingsStep(env: Env, req: Request, files: Fields, sections: seq<Section>, before: Onboarding,
      now: Onboarding, after: Onboarding)
    requires sections != [] && OnboardingStored(env, req, files, sections[..|sections| - 1], before, now)
    requires var last := sections[|sections| - 1];
      last.Settings? && Present(files, last) && StateDone(env, req, files, last, now, after)
    ensures OnboardingStored(env, req, files, sections, before, after)
  {
    var front, last := sections[..|sections| - 1], sections[|sections| - 1];
    AmongLast(files, sections);
    var change := ChangeBy(env.py, last.kind, Validate(env.py, FormOf(last.kind), Payload(files, last)).value);
    MergeOneMore(StateBelow(env, req, files, front, before).setup, SettingsChanges(env, files, front), change);
  }

  lemma StateStep(env: Env, req: Request, files: Fields, sections: seq<Section>, before: Onboarding,
      now: Onboarding, after: Onboarding)
    requires sections != [] && OnboardingStored(env, req, files, sections[..|sections| - 1], before, now)
    requires var last := sections[|sections| - 1];
      && (last.OnboardingState? ==> |sections| == 1)
      && (!last.Settings? || !Present(files, last))
      && StateDone(env, req, files, last, now, after)
    ensures OnboardingStored(env, req, files, sections, before, after)
  {
    AmongLast(files, sections);
    assert SettingsChanges(env, files, sections) == SettingsChanges(env, files, sections[..|sections| - 1]);
  }

  lemma OnboardingStep(env: Env, req: Request, files: Fields, sections: seq<Section>, before: Onboarding, now: Stores,
      after: Stores)
    requires sections != [] && OnboardingStored(env, req, files, sections[..|sections| - 1], before, now.onboarding)
    requires sections[|sections| - 1].OnboardingState? ==> |sections| == 1
    requires SectionDone(env, req, files, sections[|sections| - 1], now, after)
    ensures OnboardingStored(env, req, files, sections, before, after.onboarding)
  {
    var last := sections[|sections| - 1];
    DoneToState(env, req, files, last, now, after);
    if Present(files, last) && last.Settings? {
      SettingsStep(env, req, files, sections, before, now.onboarding, after.onboarding);
    } else {
      StateStep(env, req, files, sections, before, now.onboarding, after.onboarding);
    }
  }

  lemma WrittenFiles(env: Env, req: Request, section: Section, payload: Json, now: Stores, after: Stores)
    requires Check(env, req, section, payload).Ok?
    requires after == Written(now, Check(env, req, section, payload).value)
    ensures
      if section.EndpointRegistry? then
        env.registryModel(payload).Ok? && after.registry == Some(env.registryModel(payload).value)
      else after.registry == now.registry
    ensures
      if section.VoiceIntents? then
        env.intentsModel(payload).Ok? && after.intents == Some(env.intentsModel(payload).value)
      else after.intents == now.intents
    ensures
      if section.TtsRuntime? then RuntimeModel(payload) == Ok(payload) && after.ttsRuntime == Some(payload)
      else after.ttsRuntime == now.ttsRuntime
  {
  }

  lemma DoneToFiles(env: Env, req: Request, files: Fields, section: Section, now: Stores, after: Stores)
    requires SectionDone(env, req, files, section, now, after)
    ensures FileDone(files, EndpointRegistry, section, env.registryModel(Payload(files, section)),
      now.registry, after.registry)
    ensures FileDone(files, VoiceIntents, section, env.intentsModel(Payload(files, section)),
      now.intents, after.intents)
    ensures FileDone(files, TtsRuntime, section, RuntimeModel(Payload(files, section)),
      now.ttsRuntime, after.ttsRuntime)
  {
    if Present(files, section) {
      WrittenFiles(env, req, section, Payload(files, section), now, after);
    }
  }

  lemma SectionStores(env: Env, req: Request, files: Fields, sections: seq<Section>, before: Stores, now: Stores,
      after: Stores)
    requires sections != [] && FilesStored(env, req, files, sections[..|sections| - 1], before, now)
    requires sections[|sections| - 1].OnboardingState? ==> |sections| == 1
    requires SectionDone(env, req, files, sections[|sections| - 1], now, after)
    ensures FilesStored(env, req, files, sections, before, after)
  {
    OnboardingStep(env, req, files, sections, before.onboarding, now, after);
    DoneToFiles(env, req, files, sections[|sections| - 1], now, after);
    FileStep(files, EndpointRegistry, sections, env.registryModel(Payload(files, EndpointRegistry)),
      before.registry, now.registry, after.registry);
    FileStep(files, VoiceIntents, sections, env.intentsModel(Payload(files, VoiceIntents)),
      before.intents, now.intents, after.intents);
    FileStep(files, TtsRuntime, sections, RuntimeModel(Payload(files, TtsRuntime)),
      before.ttsRuntime, now.ttsRuntime, after.ttsRuntime);
  }

  lemma {:induction false} LastDone(env: Env, req: Request, files: Fields, sections: seq<Section>, stores: Stores)
    requires sections != [] && ImportSections(env, req, files, sections, stores).report.Ok?
    ensures var run := ImportSections(env, req, files, sections[..|sections| - 1], stores);
      && run.report.Ok?
      && SectionDone(env, req, files, sections[|sections| - 1], run.stores,
           ImportSections(env, req, files, sections, stores).stores)
  {
    var run := ImportSections(env, req, files, sections[..|sections| - 1], stores);
    SectionWritten(env, req, files, sections[|sections| - 1], run.stores, run.report.value);
  }

  lemma {:induction false} SectionsStore(env: Env, req: Request, files: Fields, sections: seq<Section>, stores: Stores)
    requires OnboardingFirst(sections) && ImportSections(env, req, files, sections, stores).report.Ok?
    ensures FilesStored(env, req, files, sections, stores, ImportSections(env, req, files, sections, stores).stores)
    decreases |sections|
  {
    if sections == [] {
      NothingStored(env, req, files, stores);
    } else {
      var front := sections[..|sections| - 1];
      LastDone(env, req, files, sections, stores);
      SectionsStore(env, req, files, front, stores);
      SectionStores(env, req, files, sections, stores, ImportSections(env, req, files, front, stores).stores,
        ImportSections(env, req, files, sections, stores).stores);
    }
  }

  lemma {:induction false} NothingStored(env: Env, req: Request, files: Fields, stores: Stores)
    ensures FilesStored(env, req, files, [], stores, stores)
  {
  }

  /** A successful import leaves in each file what its section was validated to, and every file
      without a section as it was. The onboarding state is the one of the bundle with the given
      addresses, or the stored one, with the changes of all provider settings merged into it. */
  lemma {:induction false} ImportStores(env: Env, req: Request, stores: Stores)
    requires Import(env, req, stores).report.Ok?
    ensures FilesStored(env, req, StateFiles(req.bundle).value, SECTIONS, stores, Import(env, req, stores).stores)
  {
    AmongSections(StateFiles(req.bundle).value);
    SectionsStore(env, req, StateFiles(req.bundle).value, SECTIONS, stores);
  }

  // ---- importing again ----

  function LastState(contents: seq<Content>): Option<Onboarding>
    decreases |contents|
  {
    if contents == [] then None
    else if contents[|contents| - 1].Onboarded? then Some(contents[|contents| - 1].state)
    else LastState(contents[..|contents| - 1])
  }

  /** The changes written after the last onboarding state. */
  function ChangesAfter(contents: seq<Content>): seq<Change>
    decreases |contents|
  {
    if contents == [] || contents[|contents| - 1].Onboarded? then []
    else
      var before, last := ChangesAfter(contents[..|contents| - 1]), contents[|contents| - 1];
      if last.Changed? then before + [last.change] else before
  }

  function BaseState(stores: Stores, contents: seq<Content>): Onboarding {
    if LastState(contents).Some? then LastState(contents).value else stores.onboarding
  }

  /** The onboarding state after a run: the last one written, with the later changes merged. */
  ghost predicate StateWritten(stores: Stores, contents: seq<Content>, after: Onboarding) {
    var base := BaseState(stores, contents);
    after == base.(setup := MergeAll(base.setup, ChangesAfter(contents)))
  }

  lemma StateWrittenLast(stores: Stores, front: seq<Content>, last: Content, now: Stores)
    requires StateWritten(stores, front, now.onboarding)
    ensures StateWritten(stores, front + [last], Written(now, last).onboarding)
  {
    assert (front + [last])[..|front|] == front;
    if last.Changed? {
      MergeOneMore(BaseState(stores, front).setup, ChangesAfter(front), last.change);
    }
  }

  lemma {:induction false} WriteAllOnboarding(stores: Stores, contents: seq<Content>)
    ensures StateWritten(stores, contents, WriteAll(stores, contents).onboarding)
    decreases |contents|
  {
    if contents != [] {
      var front, last := contents[..|contents| - 1], contents[|contents| - 1];
      WriteAllOnboarding(stores, front);
      assert contents == front + [last];
      StateWrittenLast(stores, front, last, WriteAll(stores, front));
    }
  }

  /** The other three files after a second run of the same contents. */
  lemma {:induction false} WriteAllFiles(stores: Stores, other: Stores, contents: seq<Content>)
    requires other.registry == WriteAll(stores, contents).registry || other.registry == stores.registry
    requires other.intents == WriteAll(stores, contents).intents || other.intents == stores.intents
    requires other.ttsRuntime == WriteAll(stores, contents).ttsRuntime || other.ttsRuntime == stores.ttsRuntime
    ensures var once := WriteAll(stores, contents);
      var twice := WriteAll(other, contents);
      twice.registry == once.registry && twice.intents == once.intents && twice.ttsRuntime == once.ttsRuntime
    decreases |contents|
  {
    if contents != [] {
      var front, last := contents[..|contents| - 1], contents[|contents| - 1];
      var patched := other.(
        registry := if last.Registered? then stores.registry else other.registry,
        intents := if last.Intended? then stores.intents else other.intents,
        ttsRuntime := if last.Configured? then stores.ttsRuntime else other.ttsRuntime);
      WriteAllFiles(stores, patched, front);
      WriteAllFrame(other, patched, front);
    }
  }

  /** A file after a run depends only on what it was before. */
  lemma {:induction false} WriteAllFrame(a: Stores, b: Stores, contents: seq<Content>)
    ensures a.registry == b.registry ==> WriteAll(a, contents).registry == WriteAll(b, contents).registry
    ensures a.intents == b.intents ==> WriteAll(a, contents).intents == WriteAll(b, contents).intents
    ensures a.ttsRuntime == b.ttsRuntime ==> WriteAll(a, contents).ttsRuntime == WriteAll(b, contents).ttsRuntime
    decreases |contents|
  {
    if contents != [] {
      WriteAllFrame(a, b, contents[..|contents| - 1]);
    }
  }

  /** The stores agree, where the enabled providers count as a set. */
  ghost predicate SameStores(a: Stores, b: Stores) {
    && a.registry == b.registry && a.intents == b.intents && a.ttsRuntime == b.ttsRuntime
    && a.onboarding.(setup := b.onboarding.setup) == b.onboarding
    && SameSetup(a.onboarding.setup, b.onboarding.setup)
  }

  lemma {:induction false} WriteTwiceIsOnce(stores: Stores, contents: seq<Content>)
    ensures SameStores(WriteAll(WriteAll(stores, contents), contents), WriteAll(stores, contents))
    ensures LastState(contents).Some? ==> WriteAll(WriteAll(stores, contents), contents) == WriteAll(stores, contents)
  {
    var once := WriteAll(stores, contents);
    WriteAllOnboarding(stores, contents);
    WriteAllOnboarding(once, contents);
    WriteAllFiles(stores, once, contents);
    if LastState(contents).None? {
      MergeTwiceIsOnce(stores.onboarding.setup, ChangesAfter(contents));
    }
  }

  /** Importing a bundle a second time, whether it succeeds or fails, leaves every store as the
      first import left it and reports the same. */
  lemma ImportTwiceIsOnce(env: Env, req: Request, stores: Stores)
    ensures var once := Import(env, req, stores);
      var twice := Import(env, req, once.stores);
      SameStores(twice.stores, once.stores) && twice.report == once.report
  {
    var once := Import(env, req, stores);
    var bundle := StateFiles(req.bundle);
    if bundle.Ok? {
      var files := bundle.value;
      ImportWrites(env, req, files, SECTIONS, stores);
      ImportWrites(env, req, files, SECTIONS, once.stores);
      WriteTwiceIsOnce(stores, Passed(env, req, files, SECTIONS));
      DryRunForetells(env, req, stores);
      DryRunForetells(env, req, once.stores);
      if Plan(env, req).Ok? {
        AmongSections(files);
        AddressesOnTheWay(env, req, files, SECTIONS, stores);
        AddressesOnTheWay(env, req, files, SECTIONS, once.stores);
      }
    }
  }
}
