/** Merging validated provider settings into the stored provider setup. */
module ProviderMerge {
  import opened MigrationJson
  import opened ProviderSettings
  import opened Wrappers

  datatype ProviderSetup = ProviderSetup(
    supported: seq<string>,
    enabled: seq<string>,
    defaultProvider: Option<string>,
    configs: map<string, Fields>)

  /** What one settings section does to the setup: the fields it lays over a provider's config,
      whether it switches the provider on or off, and whether it makes it the default. */
  datatype Change = Change(provider: string, config: Fields, switch: Option<bool>, makeDefault: bool)

  /** `[item for item in list if item != x]` */
  function Without(list: seq<string>, x: string): seq<string> {
    if list == [] then []
    else (if list[0] == x then [] else [list[0]]) + Without(list[1..], x)
  }

  function Appended(list: seq<string>, x: string): seq<string> {
    if x in list then list else list + [x]
  }

  function Switched(list: seq<string>, x: string, switch: Option<bool>): seq<string> {
    if switch.None? then list else if switch.value then Appended(list, x) else Without(list, x)
  }

  function ConfigOf(setup: ProviderSetup, provider: string): Fields {
    if provider in setup.configs then setup.configs[provider] else map[]
  }

  function Merge(setup: ProviderSetup, change: Change): ProviderSetup {
    ProviderSetup(
      Appended(setup.supported, change.provider),
      Switched(setup.enabled, change.provider, change.switch),
      if change.makeDefault then Some(change.provider) else setup.defaultProvider,
      setup.configs[change.provider := ConfigOf(setup, change.provider) + change.config])
  }

  function NotBlank(m: Fields): Fields {
    map key | key in m && !IsBlank(m[key]) :: m[key]
  }

  function SwitchOf(settings: Fields): Option<bool> {
    if "enabled" in settings then Some(Truthy(settings["enabled"])) else None
  }

  /** The settings that a speech section copies into its provider's config. */
  function ConfigFields(kind: Kind): set<string> {
    if kind == SttSettings then
      {"enabled", "default", "profile", "fallback_profile", "model", "device", "compute_type", "warm_model",
        "warm_models"}
    else {"enabled", "default", "model", "warm_models", "default_voice"}
  }

  /** `_merge_stt_settings` and `_merge_tts_provider_settings` */
  function SpeechChange(py: Python, kind: Kind, settings: Fields): Change {
    Change(
      py.ToStr(Get(settings, "provider")),
      NotBlank(map key | key in ConfigFields(kind) && key in settings :: settings[key]),
      SwitchOf(settings),
      Truthy(Get(settings, "default")))
  }

  function WarmModels(settings: Fields): Json {
    var warm, models := Get(settings, "warm_models"), Get(settings, "models");
    if warm.List? && warm.items != [] then warm else if models.List? then models else List([])
  }

  function WakeConfig(py: Python, settings: Fields): Fields {
    var wakeword := Str(py.TextOf(if "default_wakeword" in settings then Some(settings["default_wakeword"]) else None));
    var warm := if "warm_model" in settings then settings["warm_model"] else Get(settings, "preload");
    NotBlank(map[
      "enabled" := Bool(SwitchOf(settings) != Some(false)),
      "provider" := Get(settings, "provider"),
      "default_wakeword" := wakeword,
      "model" := wakeword,
      "warm_model" := Bool(Truthy(warm)),
      "warm_models" := WarmModels(settings)])
  }

  /** `_merge_wake_settings`: wake is switched on unless the settings say otherwise. */
  function WakeChange(py: Python, settings: Fields): Change {
    Change("wake", WakeConfig(py, settings), Some(SwitchOf(settings) != Some(false)), false)
  }

  function ChangeBy(py: Python, kind: Kind, settings: Fields): Change {
    if kind == WakeSettings then WakeChange(py, settings) else SpeechChange(py, kind, settings)
  }

  // ---- lists ----

  lemma DistinctFirst(x: string, rest: seq<string>)
    ensures Distinct([x] + rest) <==> x !in rest && Distinct(rest)
  {
    var list := [x] + rest;
    assert forall j | 0 <= j < |rest| :: list[j + 1] == rest[j];
    if Distinct(list) {
      forall i, j | 0 <= i < j < |rest| ensures rest[i] != rest[j] {
        assert list[i + 1] != list[j + 1];
      }
      forall j | 0 <= j < |rest| ensures rest[j] != x {
        assert list[0] != list[j + 1];
      }
    }
  }

  lemma {:induction false} WithoutMembers(list: seq<string>, x: string)
    ensures forall y :: y in Without(list, x) <==> y in list && y != x
    ensures Distinct(list) ==> Distinct(Without(list, x))
  {
    if list != [] {
      WithoutMembers(list[1..], x);
      assert list == [list[0]] + list[1..];
      DistinctFirst(list[0], list[1..]);
      DistinctFirst(list[0], Without(list[1..], x));
    }
  }

  lemma {:induction false} WithoutAbsent(list: seq<string>, x: string)
    requires x !in list
    ensures Without(list, x) == list
  {
    if list != [] {
      WithoutAbsent(list[1..], x);
      assert list == [list[0]] + list[1..];
    }
  }

  lemma {:induction false} WithoutLast(list: seq<string>, y: string, x: string)
    ensures Without(list + [y], x) == Without(list, x) + if y == x then [] else [y]
  {
    if list == [] {
      assert [] + [y] == [y] && [y][1..] == [];
    } else {
      assert (list + [y])[1..] == list[1..] + [y];
      WithoutLast(list[1..], y, x);
    }
  }

  /** A switch says exactly whether its provider is enabled and touches no other. */
  lemma SwitchedMembers(list: seq<string>, x: string, switch: Option<bool>)
    ensures forall y :: y in Switched(list, x, switch) <==>
      if y == x && switch.Some? then switch.value else y in list
    ensures Distinct(list) ==> Distinct(Switched(list, x, switch))
  {
    WithoutMembers(list, x);
  }

  // ---- one merge ----

  /** A merge keeps both provider lists free of repeats and leaves the switch and the config of
      every other provider as they are. Its own provider becomes supported, is switched as the
      change says, and has the change's fields over those it had. */
  lemma MergeIsLocal(setup: ProviderSetup, change: Change, other: string, key: string)
    ensures var merged := Merge(setup, change);
      && (Distinct(setup.supported) ==> Distinct(merged.supported))
      && (Distinct(setup.enabled) ==> Distinct(merged.enabled))
      && (other in merged.supported <==> other in setup.supported || other == change.provider)
      && (other != change.provider ==>
            && (other in merged.enabled <==> other in setup.enabled)
            && (other in merged.configs <==> other in setup.configs)
            && ConfigOf(merged, other) == ConfigOf(setup, other))
    ensures var merged := Merge(setup, change);
      var before, after := ConfigOf(setup, change.provider), ConfigOf(merged, change.provider);
      && (change.provider in merged.enabled <==>
            if change.switch.Some? then change.switch.value else change.provider in setup.enabled)
      && (key in after <==> key in before || key in change.config)
      && (key in after ==> after[key] == if key in change.config then change.config[key] else before[key])
  {
    SwitchedMembers(setup.enabled, change.provider, change.switch);
    if Distinct(setup.supported) && change.provider !in setup.supported {
      DistinctLast(setup.supported, change.provider);
    }
  }

  lemma DistinctLast(list: seq<string>, x: string)
    requires Distinct(list) && x !in list
    ensures Distinct(list + [x])
  {
  }

  // ---- many merges ----

  function MergeAll(setup: ProviderSetup, changes: seq<Change>): ProviderSetup
    decreases |changes|
  {
    if changes == [] then setup
    else Merge(MergeAll(setup, changes[..|changes| - 1]), changes[|changes| - 1])
  }

  /** The last word of the changes on a provider. */
  function LastSwitch(changes: seq<Change>, provider: string): Option<bool>
    decreases |changes|
  {
    if changes == [] then None
    else
      var last := changes[|changes| - 1];
      if last.provider == provider && last.switch.Some? then last.switch
      else LastSwitch(changes[..|changes| - 1], provider)
  }

  function LastDefault(changes: seq<Change>): Option<string>
    decreases |changes|
  {
    if changes == [] then None
    else
      var last := changes[|changes| - 1];
      if last.makeDefault then Some(last.provider) else LastDefault(changes[..|changes| - 1])
  }

  function Overlay(changes: seq<Change>, provider: string): Fields
    decreases |changes|
  {
    if changes == [] then map[]
    else
      var last := changes[|changes| - 1];
      Overlay(changes[..|changes| - 1], provider) + if last.provider == provider then last.config else map[]
  }

  predicate Mentions(changes: seq<Change>, provider: string) {
    exists i :: 0 <= i < |changes| && changes[i].provider == provider
  }

  lemma {:induction false} MergeAllSwitches(setup: ProviderSetup, changes: seq<Change>, provider: string)
    ensures provider in MergeAll(setup, changes).enabled <==>
      if LastSwitch(changes, provider).Some? then LastSwitch(changes, provider).value else provider in setup.enabled
    ensures MergeAll(setup, changes).defaultProvider ==
      if LastDefault(changes).Some? then LastDefault(changes) else setup.defaultProvider
    decreases |changes|
  {
    if changes != [] {
      var front, last := changes[..|changes| - 1], changes[|changes| - 1];
      MergeAllSwitches(setup, front, provider);
      SwitchedMembers(MergeAll(setup, front).enabled, last.provider, last.switch);
    }
  }

  lemma MentionsLast(front: seq<Change>, last: Change, provider: string)
    ensures Mentions(front + [last], provider) <==> Mentions(front, provider) || last.provider == provider
  {
    var changes := front + [last];
    if last.provider == provider {
      assert changes[|front|].provider == provider;
    }
    if Mentions(front, provider) {
      var i :| 0 <= i < |front| && front[i].provider == provider;
      assert changes[i].provider == provider;
    }
  }

  lemma OverlayLast(c: Fields, o: Fields, config: Fields)
    ensures (c + o) + config == c + (o + config)
    ensures c + (o + map[]) == c + o
  {
  }

  lemma {:induction false} MergeAllConfigs(setup: ProviderSetup, changes: seq<Change>, provider: string)
    ensures provider in MergeAll(setup, changes).configs <==> provider in setup.configs || Mentions(changes, provider)
    ensures ConfigOf(MergeAll(setup, changes), provider) == ConfigOf(setup, provider) + Overlay(changes, provider)
    decreases |changes|
  {
    if changes == [] {
      OverlayLast(ConfigOf(setup, provider), map[], map[]);
      assert ConfigOf(setup, provider) + map[] == ConfigOf(setup, provider);
    } else {
      var front, last := changes[..|changes| - 1], changes[|changes| - 1];
      MergeAllConfigs(setup, front, provider);
      assert changes == front + [last];
      MentionsLast(front, last, provider);
      OverlayLast(ConfigOf(setup, provider), Overlay(front, provider), last.config);
      MergeConfig(MergeAll(setup, front), last, provider);
    }
  }

  lemma MergeConfig(setup: ProviderSetup, change: Change, provider: string)
    ensures provider in Merge(setup, change).configs <==> provider in setup.configs || change.provider == provider
    ensures ConfigOf(Merge(setup, change), provider) ==
      if change.provider == provider then ConfigOf(setup, provider) + change.config else ConfigOf(setup, provider)
  {
  }

  lemma {:induction false} MergeAllSupports(setup: ProviderSetup, changes: seq<Change>)
    ensures setup.supported <= MergeAll(setup, changes).supported
    ensures forall i | 0 <= i < |changes| :: changes[i].provider in MergeAll(setup, changes).supported
    ensures (forall i | 0 <= i < |changes| :: changes[i].provider in setup.supported) ==>
      MergeAll(setup, changes).supported == setup.supported
    decreases |changes|
  {
    if changes != [] {
      var front, last := changes[..|changes| - 1], changes[|changes| - 1];
      MergeAllSupports(setup, front);
      assert forall i | 0 <= i < |front| :: front[i] == changes[i];
    }
  }

  /** The setups agree, where the enabled providers count as a set. */
  ghost predicate SameSetup(a: ProviderSetup, b: ProviderSetup) {
    && a.supported == b.supported && a.defaultProvider == b.defaultProvider && a.configs == b.configs
    && forall provider :: provider in a.enabled <==> provider in b.enabled
  }

  /** Merging any sequence of changes a second time changes nothing, even when several of them
      speak of the same provider. */
  lemma {:induction false} MergeTwiceIsOnce(setup: ProviderSetup, changes: seq<Change>)
    ensures SameSetup(MergeAll(MergeAll(setup, changes), changes), MergeAll(setup, changes))
  {
    var once := MergeAll(setup, changes);
    var twice := MergeAll(once, changes);
    MergeAllSupports(setup, changes);
    MergeAllSupports(once, changes);
    MergeAllSwitches(setup, changes, "");
    MergeAllSwitches(once, changes, "");
    forall provider ensures provider in twice.enabled <==> provider in once.enabled {
      MergeAllSwitches(setup, changes, provider);
      MergeAllSwitches(once, changes, provider);
    }
    forall provider
      ensures provider in twice.configs <==> provider in once.configs
      ensures ConfigOf(twice, provider) == ConfigOf(once, provider)
    {
      MergeAllConfigs(setup, changes, provider);
      MergeAllConfigs(once, changes, provider);
      OverlayTwice(ConfigOf(setup, provider), Overlay(changes, provider));
    }
    assert twice.configs == once.configs by {
      forall provider | provider in once.configs ensures twice.configs[provider] == once.configs[provider] {
        assert ConfigOf(twice, provider) == ConfigOf(once, provider);
      }
    }
  }

  lemma OverlayTwice(c: Fields, o: Fields)
    ensures (c + o) + o == c + o
  {
  }

  // ---- the order of the enabled providers ----

  /** The enabled list after the text-to-speech, speech-to-text and wake sections. */
  function SwitchedThrice(list: seq<string>, tts: string, a: Option<bool>, stt: string, b: Option<bool>,
      c: Option<bool>)
    : seq<string>
  {
    Switched(Switched(Switched(list, tts, a), stt, b), "wake", c)
  }

  /** The text-to-speech section switches off what the speech-to-text section switches on, and
      the wake section switches on a wake provider that was not enabled before. */
  predicate Reorders(list: seq<string>, tts: string, a: Option<bool>, stt: string, b: Option<bool>, c: Option<bool>) {
    tts == stt && a == Some(false) && b == Some(true) && c == Some(true) && "wake" !in list
  }

  lemma SwitchedSame(list: seq<string>, x: string, switch: Option<bool>)
    requires switch.Some? ==> (switch.value <==> x in list)
    ensures Switched(list, x, switch) == list
  {
    if switch == Some(false) { WithoutAbsent(list, x); }
  }

  /** What switching a provider off, on again and then wake makes of a list. */
  lemma {:induction false} OffAndOn(list: seq<string>, p: string, c: Option<bool>)
    requires p != "wake"
    ensures SwitchedThrice(list, p, Some(false), p, Some(true), c) ==
      if c.None? || (c.value && "wake" in list) then Without(list, p) + [p]
      else if c.value then Without(list, p) + [p, "wake"]
      else Without(Without(list, p), "wake") + [p]
  {
    var kept := Without(list, p);
    WithoutMembers(list, p);
    WithoutLast(kept, p, "wake");
    assert (kept + [p]) + ["wake"] == kept + [p, "wake"];
  }

  /** A provider at the end of a list that holds it only there stays where it is. */
  lemma {:induction false} LastStays(kept: seq<string>, p: string)
    requires p !in kept
    ensures Without(kept + [p], p) == kept
  {
    WithoutLast(kept, p, p);
    WithoutAbsent(kept, p);
  }

  lemma OffAndOnAgain(list: seq<string>, p: string, c: Option<bool>)
    requires p != "wake"
    ensures var once := SwitchedThrice(list, p, Some(false), p, Some(true), c);
      SwitchedThrice(once, p, Some(false), p, Some(true), c) == once <==>
        !Reorders(list, p, Some(false), p, Some(true), c)
  {
    var kept := Without(list, p);
    var once := SwitchedThrice(list, p, Some(false), p, Some(true), c);
    OffAndOn(list, p, c);
    OffAndOn(once, p, c);
    WithoutMembers(list, p);
    LastStays(kept, p);
    if c == Some(true) && "wake" !in list {
      MovedBehindWake(kept, p);
    } else if c == Some(false) {
      WithoutMembers(kept, "wake");
      LastStays(Without(kept, "wake"), p);
      WithoutAbsent(Without(kept, "wake"), "wake");
    }
  }

  lemma {:induction false} MovedBehindWake(kept: seq<string>, p: string)
    requires p !in kept && p != "wake"
    ensures Without(kept + [p, "wake"], p) + [p] != kept + [p, "wake"]
  {
    assert kept + [p, "wake"] == (kept + [p]) + ["wake"];
    WithoutLast(kept + [p], "wake", p);
    LastStays(kept, p);
    assert (kept + [p, "wake"])[|kept|] == p && (kept + ["wake"] + [p])[|kept|] == "wake";
  }

  /** The enabled list keeps its order on a second import iff the sections do not reorder it. */
  lemma OrderKeptExactly(list: seq<string>, tts: string, a: Option<bool>, stt: string, b: Option<bool>, c: Option<bool>)
    requires tts != "wake" && stt != "wake"
    ensures var once := SwitchedThrice(list, tts, a, stt, b, c);
      SwitchedThrice(once, tts, a, stt, b, c) == once <==> !Reorders(list, tts, a, stt, b, c)
  {
    var first := Switched(list, tts, a);
    var second := Switched(first, stt, b);
    var once := Switched(second, "wake", c);
    SwitchedMembers(list, tts, a);
    SwitchedMembers(first, stt, b);
    SwitchedMembers(second, "wake", c);
    if tts == stt && a == Some(false) && b == Some(true) {
      OffAndOnAgain(list, tts, c);
    } else if tts == stt && a == Some(true) && b == Some(false) {
      WithoutLast(once, tts, tts);
      WithoutAbsent(once, tts);
      assert Switched(once, tts, a) == once + [tts];
      assert Switched(once + [tts], stt, b) == once;
      SwitchedSame(once, "wake", c);
    } else {
      SwitchedSame(once, tts, a);
      SwitchedSame(once, stt, b);
      SwitchedSame(once, "wake", c);
    }
  }
}
