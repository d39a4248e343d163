/** Where importing again does change something: the order of the enabled providers; and what a
    failed import without a dry run leaves behind. */
module MigrationOrder {
  import opened MigrationImport
  import opened MigrationJson
  import opened MigrationProperties
  import opened ProviderMerge
  import opened ProviderSettings
  import opened SettingsNormalForm
  import opened TrustSecrets
  import opened Wrappers

  function SectionChange(env: Env, req: Request, files: Fields, section: Section): Option<Change> {
    var payload := Get(files, Name(section));
    if payload == Null || !section.Settings? then None
    else
      var content := Check(env, req, section, payload);
      if content.Ok? && content.value.Changed? then Some(content.value.change) else None
  }

  /** The changes of the sections, None for one that changes no provider. */
  function ChangesOf(env: Env, req: Request, files: Fields, sections: seq<Section>): seq<Option<Change>> {
    seq(|sections|, i requires 0 <= i < |sections| => SectionChange(env, req, files, sections[i]))
  }

  function ProviderOf(change: Option<Change>): string {
    if change.Some? then change.value.provider else ""
  }

  function SwitchBy(change: Option<Change>): Option<bool> {
    if change.Some? then change.value.switch else None
  }

  function SwitchAll(enabled: seq<string>, changes: seq<Option<Change>>): seq<string>
    decreases |changes|
  {
    if changes == [] then enabled
    else
      var last := changes[|changes| - 1];
      Switched(SwitchAll(enabled, changes[..|changes| - 1]), ProviderOf(last), SwitchBy(last))
  }

  lemma ChangeIsContent(env: Env, req: Request, files: Fields, section: Section)
    requires Present(files, section) && Check(env, req, section, Get(files, Name(section))).Ok?
    ensures var content := Check(env, req, section, Get(files, Name(section))).value;
      SectionChange(env, req, files, section) == if content.Changed? then Some(content.change) else None
  {
    ContentKind(env, req, section, Get(files, Name(section)));
  }

  lemma SectionSwitches(env: Env, req: Request, files: Fields, section: Section, stores: Stores, report: Report)
    requires ImportSection(env, req, files, section, stores, report).report.Ok?
    requires section.OnboardingState? ==> !Present(files, section)
    ensures var change := SectionChange(env, req, files, section);
      ImportSection(env, req, files, section, stores, report).stores.onboarding.setup.enabled ==
        Switched(stores.onboarding.setup.enabled, ProviderOf(change), SwitchBy(change))
  {
    if Present(files, section) {
      ContentKind(env, req, section, Get(files, Name(section)));
      ChangeIsContent(env, req, files, section);
    }
  }

  lemma {:induction false} SwitchLast(enabled: seq<string>, before: seq<Option<Change>>, change: Option<Change>)
    ensures SwitchAll(enabled, before + [change]) ==
      Switched(SwitchAll(enabled, before), ProviderOf(change), SwitchBy(change))
  {
    assert (before + [change])[..|before|] == before;
  }

  lemma ChangesLast(env: Env, req: Request, files: Fields, front: seq<Section>, last: Section)
    ensures ChangesOf(env, req, files, front + [last]) ==
      ChangesOf(env, req, files, front) + [SectionChange(env, req, files, last)]
  {
  }

  /** After the sections, if none failed, the enabled providers are those their changes make. */
  ghost predicate Switches(env: Env, req: Request, files: Fields, sections: seq<Section>, stores: Stores) {
    var run := ImportSections(env, req, files, sections, stores);
    run.report.Ok? ==>
      run.stores.onboarding.setup.enabled ==
        SwitchAll(stores.onboarding.setup.enabled, ChangesOf(env, req, files, sections))
  }

  lemma {:induction false} ImportLast(env: Env, req: Request, files: Fields, front: seq<Section>,
      last: Section, stores: Stores)
    ensures var before := ImportSections(env, req, files, front, stores);
      ImportSections(env, req, files, front + [last], stores) ==
        if before.report.Err? then before
        else ImportSection(env, req, files, last, before.stores, before.report.value)
  {
    assert (front + [last])[..|front|] == front;
  }

  lemma SwitchesLast(env: Env, req: Request, files: Fields, front: seq<Section>, last: Section, stores: Stores)
    requires Switches(env, req, files, front, stores) && !Present(files, OnboardingState)
    ensures Switches(env, req, files, front + [last], stores)
  {
    var run := ImportSections(env, req, files, front, stores);
    ImportLast(env, req, files, front, last, stores);
    if ImportSections(env, req, files, front + [last], stores).report.Ok? {
      SectionSwitches(env, req, files, last, run.stores, run.report.value);
      ChangesLast(env, req, files, front, last);
      SwitchLast(stores.onboarding.setup.enabled, ChangesOf(env, req, files, front),
        SectionChange(env, req, files, last));
    }
  }

  lemma {:induction false} EnabledOnTheWay(env: Env, req: Request, files: Fields, sections: seq<Section>,
      stores: Stores)
    requires !Present(files, OnboardingState)
    ensures Switches(env, req, files, sections, stores)
    decreases |sections|
  {
    if sections == [] {
      assert ChangesOf(env, req, files, sections) == [];
    } else {
      var front, last := sections[..|sections| - 1], sections[|sections| - 1];
      assert sections == front + [last];
      EnabledOnTheWay(env, req, files, front, stores);
      SwitchesLast(env, req, files, front, last, stores);
    }
  }

  lemma {:induction false} SwitchNone(enabled: seq<string>, changes: seq<Option<Change>>)
    requires forall i | 0 <= i < |changes| :: changes[i].None?
    ensures SwitchAll(enabled, changes) == enabled
    decreases |changes|
  {
    if changes != [] {
      SwitchNone(enabled, changes[..|changes| - 1]);
    }
  }

  lemma {:induction false} SwitchLastThree(enabled: seq<string>, changes: seq<Option<Change>>)
    requires |changes| == 7 && forall i | 0 <= i < 4 :: changes[i].None?
    requires changes[6].Some? ==> changes[6].value.provider == "wake"
    ensures SwitchAll(enabled, changes) ==
      SwitchedThrice(enabled, ProviderOf(changes[4]), SwitchBy(changes[4]),
        ProviderOf(changes[5]), SwitchBy(changes[5]), SwitchBy(changes[6]))
  {
    SwitchNone(enabled, changes[..4]);
    assert changes[..5][..4] == changes[..4];
    assert changes[..6][..5] == changes[..5];
    var e4 := SwitchAll(enabled, changes[..5]);
    assert e4 == Switched(enabled, ProviderOf(changes[4]), SwitchBy(changes[4]));
    var e5 := SwitchAll(enabled, changes[..6]);
    assert e5 == Switched(e4, ProviderOf(changes[5]), SwitchBy(changes[5]));
  }

  lemma {:induction false} EnabledAtTheEnd(env: Env, req: Request, files: Fields, enabled: seq<string>)
    ensures var tts, stt, wake := SectionChange(env, req, files, Settings(TtsSettings)),
        SectionChange(env, req, files, Settings(SttSettings)), SectionChange(env, req, files, Settings(WakeSettings));
      SwitchAll(enabled, ChangesOf(env, req, files, SECTIONS)) ==
        SwitchedThrice(enabled, ProviderOf(tts), SwitchBy(tts), ProviderOf(stt), SwitchBy(stt), SwitchBy(wake))
  {
    var changes := ChangesOf(env, req, files, SECTIONS);
    assert |SECTIONS| == 7 && SECTIONS[4] == Settings(TtsSettings) && SECTIONS[5] == Settings(SttSettings)
      && SECTIONS[6] == Settings(WakeSettings);
    forall i | 0 <= i < 4 ensures changes[i].None? {
      assert !SECTIONS[i].Settings?;
    }
    SwitchLastThree(enabled, changes);
  }

  lemma ProviderKept(py: Python, form: Form, payload: Json)
    requires Validate(py, form, payload).Ok? && "provider" in form.order && form.rule("provider").Provider?
    ensures var provider := Get(Validate(py, form, payload).value, "provider");
      provider.Str? && provider.s in form.rule("provider").allowed
  {
    AcceptedExactly(py, form, payload);
    assert !form.ReadField(py, payload.fields, "provider").Refused?;
    assert Field(Validate(py, form, payload).value, "provider") ==
      AsField(form.ReadField(py, payload.fields, "provider"));
  }

  lemma SpeechForms(kind: Kind)
    requires kind != WakeSettings
    ensures "provider" in FormOf(kind).order && FormOf(kind).rule("provider").Provider?
    ensures forall p | p in FormOf(kind).rule("provider").allowed :: |p| != 4
  {
    assert FormOf(kind).order[0] == "provider";
  }

  /** A speech provider is never called wake. */
  lemma SpeechProviderName(env: Env, kind: Kind, payload: Json)
    requires kind != WakeSettings && Validate(env.py, FormOf(kind), payload).Ok?
    ensures SpeechChange(env.py, kind, Validate(env.py, FormOf(kind), payload).value).provider != "wake"
  {
    SpeechForms(kind);
    ProviderKept(env.py, FormOf(kind), payload);
  }

  /** The sections of the bundle reorder the enabled providers when they are imported again. */
  ghost predicate ReorderedBy(env: Env, req: Request, files: Fields, enabled: seq<string>) {
    var tts, stt, wake := SectionChange(env, req, files, Settings(TtsSettings)),
      SectionChange(env, req, files, Settings(SttSettings)), SectionChange(env, req, files, Settings(WakeSettings));
    Reorders(enabled, ProviderOf(tts), SwitchBy(tts), ProviderOf(stt), SwitchBy(stt), SwitchBy(wake))
  }

  lemma {:induction false} OrderOfEnabled(env: Env, req: Request, files: Fields, enabled: seq<string>)
    ensures var changes := ChangesOf(env, req, files, SECTIONS);
      var once := SwitchAll(enabled, changes);
      SwitchAll(once, changes) == once <==> !ReorderedBy(env, req, files, enabled)
  {
    var tts, stt, wake := SectionChange(env, req, files, Settings(TtsSettings)),
      SectionChange(env, req, files, Settings(SttSettings)), SectionChange(env, req, files, Settings(WakeSettings));
    EnabledAtTheEnd(env, req, files, enabled);
    EnabledAtTheEnd(env, req, files, SwitchAll(enabled, ChangesOf(env, req, files, SECTIONS)));
    ProviderNames(env, req, files);
    OrderKeptExactly(enabled, ProviderOf(tts), SwitchBy(tts), ProviderOf(stt), SwitchBy(stt), SwitchBy(wake));
  }

  /** After a successful import, a second one leaves the very same stores, the order of the
      enabled providers included, unless there is no onboarding state in the bundle, the
      text-to-speech and speech-to-text sections name the same provider, the first switches it
      off and the second on, and the wake section switches on wake that was off before. */
  lemma SecondImportReorders(env: Env, req: Request, stores: Stores)
    requires Import(env, req, stores).report.Ok?
    ensures var files := StateFiles(req.bundle).value;
      var once := Import(env, req, stores).stores;
      Import(env, req, once).stores == once <==>
        Present(files, OnboardingState) || !ReorderedBy(env, req, files, stores.onboarding.setup.enabled)
  {
    var files := StateFiles(req.bundle).value;
    var once := Import(env, req, stores).stores;
    ImportTwiceIsOnce(env, req, stores);
    if Present(files, OnboardingState) {
      RewrittenOnboarding(env, req, stores);
    } else {
      EnabledOnTheWay(env, req, files, SECTIONS, stores);
      EnabledOnTheWay(env, req, files, SECTIONS, once);
      OrderOfEnabled(env, req, files, stores.onboarding.setup.enabled);
    }
  }

  lemma ProviderNames(env: Env, req: Request, files: Fields)
    ensures ProviderOf(SectionChange(env, req, files, Settings(TtsSettings))) != "wake"
    ensures ProviderOf(SectionChange(env, req, files, Settings(SttSettings))) != "wake"
  {
    if SectionChange(env, req, files, Settings(TtsSettings)).Some? {
      SpeechProviderName(env, TtsSettings, Get(files, Name(Settings(TtsSettings))));
    }
    if SectionChange(env, req, files, Settings(SttSettings)).Some? {
      SpeechProviderName(env, SttSettings, Get(files, Name(Settings(SttSettings))));
    }
  }

  lemma {:induction false} OnboardingIsPassed(env: Env, req: Request, files: Fields, sections: seq<Section>)
    requires PlanSections(env, req, files, sections).Ok? && OnboardingState in sections
      && Present(files, OnboardingState)
    ensures LastState(Passed(env, req, files, sections)).Some?
    decreases |sections|
  {
    var front, last := sections[..|sections| - 1], sections[|sections| - 1];
    assert sections == front + [last];
    var before := Passed(env, req, files, front);
    if Present(files, last) {
      ContentKind(env, req, last, Get(files, Name(last)));
      var content := Check(env, req, last, Get(files, Name(last))).value;
      assert (before + [content])[..|before|] == before;
    }
    if last != OnboardingState {
      OnboardingIsPassed(env, req, files, front);
    }
  }

  lemma RewrittenOnboarding(env: Env, req: Request, stores: Stores)
    requires Import(env, req, stores).report.Ok? && Present(StateFiles(req.bundle).value, OnboardingState)
    ensures var once := Import(env, req, stores).stores; Import(env, req, once).stores == once
  {
    var files := StateFiles(req.bundle).value;
    var once := Import(env, req, stores).stores;
    SectionsAgree(env, req, files, SECTIONS, stores);
    assert SECTIONS[0] in SECTIONS;
    OnboardingIsPassed(env, req, files, SECTIONS);
    ImportWrites(env, req, files, SECTIONS, stores);
    ImportWrites(env, req, files, SECTIONS, once);
    WriteTwiceIsOnce(stores, Passed(env, req, files, SECTIONS));
  }

  // ---- an import without a rehearsal ----

  /** The first section that is there. */
  function FirstPresent(files: Fields, sections: seq<Section>): Option<Section> {
    if sections == [] then None
    else if Present(files, sections[0]) then Some(sections[0])
    else FirstPresent(files, sections[1..])
  }

  /** The bundle is refused as a whole, it holds no section, or the first one that it holds is wrong. */
  predicate WrongFromTheStart(env: Env, req: Request) {
    var files := StateFiles(req.bundle);
    || files.Err?
    || (var first := FirstPresent(files.value, SECTIONS);
        first.None? || Check(env, req, first.value, Get(files.value, Name(first.value))).Err?)
  }

  lemma {:induction false} FirstPresentLast(files: Fields, sections: seq<Section>)
    requires sections != []
    ensures var front, last := sections[..|sections| - 1], sections[|sections| - 1];
      FirstPresent(files, sections) ==
        if FirstPresent(files, front).Some? then FirstPresent(files, front)
        else if Present(files, last) then Some(last) else None
  {
    if |sections| > 1 && !Present(files, sections[0]) {
      assert sections[1..][..|sections| - 2] == sections[..|sections| - 1][1..];
      FirstPresentLast(files, sections[1..]);
    }
  }

  /** Some section passed exactly when the first one that is there did. */
  ghost predicate PassesFirst(env: Env, req: Request, files: Fields, sections: seq<Section>) {
    var first, plan := FirstPresent(files, sections), PlanSections(env, req, files, sections);
    && (Passed(env, req, files, sections) != [] <==>
          first.Some? && Check(env, req, first.value, Get(files, Name(first.value))).Ok?)
    && (first.None? ==> plan == Ok(EMPTY))
    && (first.Some? && Check(env, req, first.value, Get(files, Name(first.value))).Err? ==> plan.Err?)
  }

  lemma {:induction false} PassedLast(env: Env, req: Request, files: Fields, sections: seq<Section>)
    requires sections != []
    ensures var front, last := sections[..|sections| - 1], sections[|sections| - 1];
      var payload := Get(files, Name(last));
      Passed(env, req, files, sections) ==
        if payload == Null || PlanSections(env, req, files, front).Err? || Check(env, req, last, payload).Err?
        then Passed(env, req, files, front)
        else Passed(env, req, files, front) + [Check(env, req, last, payload).value]
    ensures var front, last := sections[..|sections| - 1], sections[|sections| - 1];
      var payload := Get(files, Name(last));
      var before, after := PlanSections(env, req, files, front), PlanSections(env, req, files, sections);
      if before.Err? || payload == Null then after == before
      else Check(env, req, last, payload).Err? ==> after.Err?
  {
  }

  lemma {:induction false} PassesFirstLast(env: Env, req: Request, files: Fields, sections: seq<Section>)
    requires sections != [] && PassesFirst(env, req, files, sections[..|sections| - 1])
    ensures PassesFirst(env, req, files, sections)
  {
    PassedLast(env, req, files, sections);
    FirstPresentLast(files, sections);
  }

  lemma {:induction false} PassesFirstAll(env: Env, req: Request, files: Fields, sections: seq<Section>)
    ensures PassesFirst(env, req, files, sections)
    decreases |sections|
  {
    if sections != [] {
      PassesFirstAll(env, req, files, sections[..|sections| - 1]);
      PassesFirstLast(env, req, files, sections);
    }
  }

  /** Contents without an onboarding state and without changes fill one of the other files. */
  lemma {:induction false} FilesFilled(stores: Stores, contents: seq<Content>)
    requires contents != [] && LastState(contents).None? && ChangesAfter(contents) == []
    ensures var after := WriteAll(stores, contents);
      after.registry.Some? || after.intents.Some? || after.ttsRuntime.Some?
  {
  }

  /** A store with nothing in it but a host name. */
  function Blank(hostname: string): Stores {
    Stores(Onboarding(NOWHERE, Some(hostname), "", ProviderSetup([], [], None, map[]), Null), None, None, None)
  }

  /** Whatever passed, it changes one of two blank stores. */
  lemma {:induction false} SomethingIsWritten(contents: seq<Content>)
    requires contents != []
    ensures WriteAll(Blank("a"), contents) != Blank("a") || WriteAll(Blank("b"), contents) != Blank("b")
  {
    WriteAllOnboarding(Blank("a"), contents);
    WriteAllOnboarding(Blank("b"), contents);
    assert "a"[0] != "b"[0];
    if LastState(contents).None? {
      var changes := ChangesAfter(contents);
      if changes == [] {
        FilesFilled(Blank("a"), contents);
      } else {
        MergeAllSupports(Blank("a").onboarding.setup, changes);
        assert changes[0].provider in MergeAll(Blank("a").onboarding.setup, changes).supported;
      }
    }
  }

  /** The import leaves every store as it was, whatever it held. */
  ghost predicate WritesNothing(env: Env, req: Request) {
    forall stores :: Import(env, req, stores).stores == stores
  }

  lemma {:induction false} NothingPassed(env: Env, req: Request)
    requires StateFiles(req.bundle).Ok? && Passed(env, req, StateFiles(req.bundle).value, SECTIONS) == []
    ensures WritesNothing(env, req)
  {
    forall stores ensures Import(env, req, stores).stores == stores {
      ImportWrites(env, req, StateFiles(req.bundle).value, SECTIONS, stores);
    }
  }

  lemma {:induction false} SomethingPassed(env: Env, req: Request)
    requires StateFiles(req.bundle).Ok? && Passed(env, req, StateFiles(req.bundle).value, SECTIONS) != []
    ensures !WritesNothing(env, req)
  {
    var files := StateFiles(req.bundle).value;
    ImportWrites(env, req, files, SECTIONS, Blank("a"));
    ImportWrites(env, req, files, SECTIONS, Blank("b"));
    SomethingIsWritten(Passed(env, req, files, SECTIONS));
    assert Import(env, req, Blank("a")).stores != Blank("a") || Import(env, req, Blank("b")).stores != Blank("b");
  }

  /** An import leaves every store as it was, whatever it held, if and only if the bundle is
      refused as a whole, holds no section, or the first section that it holds is wrong. Any other
      import writes, even one that fails. */
  lemma {:induction false} ImportWritesNothingExactly(env: Env, req: Request)
    ensures WritesNothing(env, req) <==> WrongFromTheStart(env, req)
    ensures WrongFromTheStart(env, req) ==> Plan(env, req).Err?
  {
    var bundle := StateFiles(req.bundle);
    if bundle.Ok? {
      var files := bundle.value;
      PassesFirstAll(env, req, files, SECTIONS);
      if Passed(env, req, files, SECTIONS) == [] {
        NothingPassed(env, req);
      } else {
        SomethingPassed(env, req);
      }
    }
  }

  function HalfGoodFiles(): Fields {
    map["voice_tts_settings" := Dict(map[]), "voice_stt_settings" := List([])]
  }

  lemma HalfGoodSections(section: Section)
    ensures Get(HalfGoodFiles(), Name(section)) ==
      if section == TtsRuntime then Dict(map[]) else if section == Settings(SttSettings) then List([]) else Null
  {
    assert Name(TtsRuntime)[6] == 't' && Name(Settings(SttSettings))[6] == 's';
    assert section != TtsRuntime && section != Settings(SttSettings) ==> |Name(section)| != 18;
  }

  lemma {:induction false} ImportNext(env: Env, req: Request, files: Fields, sections: seq<Section>, n: nat,
      stores: Stores)
    requires n < |sections| && ImportSections(env, req, files, sections[..n], stores).report.Ok?
    ensures var run := ImportSections(env, req, files, sections[..n], stores);
      ImportSections(env, req, files, sections[..n + 1], stores) ==
        ImportSection(env, req, files, sections[n], run.stores, run.report.value)
  {
    assert sections[..n + 1][..n] == sections[..n];
  }

  predicate SpeechAfterThree(sections: seq<Section>) {
    && |sections| == 7 && (forall i | 0 <= i < 3 :: sections[i] != TtsRuntime && sections[i] != Settings(SttSettings))
    && sections[3] == TtsRuntime && sections[4] == Settings(TtsSettings) && sections[5] == Settings(SttSettings)
  }

  lemma {:induction false} HalfGoodStart(env: Env, req: Request, sections: seq<Section>, stores: Stores)
    requires SpeechAfterThree(sections)
    ensures ImportSections(env, req, HalfGoodFiles(), sections[..3], stores) == Run(stores, Ok(EMPTY))
  {
    for i := 0 to 3
      invariant ImportSections(env, req, HalfGoodFiles(), sections[..i], stores) == Run(stores, Ok(EMPTY))
    {
      HalfGoodSections(sections[i]);
      ImportNext(env, req, HalfGoodFiles(), sections, i, stores);
    }
  }

  /** How the sections between fare. */
  lemma HalfGoodEnd(env: Env, req: Request, stores: Stores, report: Report)
    ensures ImportSection(env, req, HalfGoodFiles(), TtsRuntime, stores, report) ==
      Run(stores.(ttsRuntime := Some(Dict(map[]))), Ok(report.Imported("voice_tts_settings")))
    ensures ImportSection(env, req, HalfGoodFiles(), Settings(TtsSettings), stores, report) == Run(stores, Ok(report))
  {
    HalfGoodSections(TtsRuntime);
    HalfGoodSections(Settings(TtsSettings));
  }

  lemma HalfGoodFailure(env: Env, req: Request, stores: Stores, report: Report)
    ensures ImportSection(env, req, HalfGoodFiles(), Settings(SttSettings), stores, report) ==
      Run(stores, Err("voice_stt_settings_must_be_object"))
  {
    HalfGoodSections(Settings(SttSettings));
    assert "voice_stt_settings" + "_must_be_object" == "voice_stt_settings_must_be_object";
  }

  lemma {:induction false} HalfGoodRun(env: Env, req: Request, sections: seq<Section>, stores: Stores)
    requires SpeechAfterThree(sections)
    ensures ImportSections(env, req, HalfGoodFiles(), sections, stores) ==
      Run(stores.(ttsRuntime := Some(Dict(map[]))), Err("voice_stt_settings_must_be_object"))
  {
    var written := stores.(ttsRuntime := Some(Dict(map[])));
    var report := EMPTY.Imported("voice_tts_settings");
    HalfGoodStart(env, req, sections, stores);
    ImportNext(env, req, HalfGoodFiles(), sections, 3, stores);
    HalfGoodEnd(env, req, stores, EMPTY);
    ImportNext(env, req, HalfGoodFiles(), sections, 4, stores);
    HalfGoodEnd(env, req, written, report);
    ImportNext(env, req, HalfGoodFiles(), sections, 5, stores);
    HalfGoodFailure(env, req, written, report);
    ImportStops(env, req, HalfGoodFiles(), sections, stores, 6);
  }

  function HalfGoodBundle(): Json {
    Dict(map["schema_version" := Int(1), "state_files" := Dict(HalfGoodFiles())])
  }

  lemma {:induction false} HalfGoodIsRead()
    ensures StateFiles(HalfGoodBundle()) == Ok(HalfGoodFiles())
  {
    var bundle := HalfGoodBundle().fields;
    assert |"schema_version"| == 14 && |"state_files"| == 11 && |"contains_trust_secrets"| == 22;
    assert Get(bundle, "schema_version") == Int(1) && Get(bundle, "contains_trust_secrets") == Null;
    assert Get(bundle, "state_files") == Dict(HalfGoodFiles());
    NoHalfGoodSecret();
  }

  lemma {:induction false} NoHalfGoodSecret()
    ensures !ContainsSecret(Dict(HalfGoodFiles()))
  {
    assert |"voice_tts_settings"| == 18 && |"voice_stt_settings"| == 18;
    assert |"node_trust_token"| == 16 && |"operational_mqtt_token"| == 22;
  }

  /** Such bundles exist: the speech runtime settings are written before the wrong speech-to-text
      settings fail the import. */
  lemma {:induction false} FailedImportCanWrite(env: Env, req: Request, stores: Stores)
    requires req.bundle == HalfGoodBundle()
    ensures Import(env, req, stores) ==
      Run(stores.(ttsRuntime := Some(Dict(map[]))), Err("voice_stt_settings_must_be_object"))
  {
    HalfGoodIsRead();
    HalfGoodRun(env, req, SECTIONS, stores);
  }
}
