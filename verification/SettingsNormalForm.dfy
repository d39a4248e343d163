/** When the settings validators accept, and that what they return is in normal form:
    validating it again never fails and changes nothing. */
module SettingsNormalForm {
  import opened MigrationJson
  import opened ProviderSettings
  import opened Text
  import opened Wrappers

  function AsField(outcome: Outcome): Option<Json> {
    if outcome.Kept? then Some(outcome.v) else None
  }

  // ---- one field ----

  lemma TextAgain(py: Python, text: string)
    requires Trimmed(text)
    ensures py.TextOf(if text == "" then None else Some(Str(text))) == text
  {
    StripTrims(text);
  }

  lemma WakeNameAgain(value: string)
    requires Trimmed(value)
    ensures Trimmed(WakeName(value)) && WakeName(WakeName(value)) == WakeName(value)
    ensures WakeName(value) == "" <==> value == ""
  {
    StripTrims(value);
    StripTrims("Hexe");
    assert !IsHexa("Hexe");
  }

  lemma {:induction false} NamesAgain(py: Python, items: seq<Json>, wakewords: bool)
    ensures Names(py, Names(py, items, wakewords), wakewords) == Names(py, items, wakewords)
  {
    if items != [] {
      var text := Strip(py.ToStr(items[0]));
      var rest := Names(py, items[1..], wakewords);
      NamesAgain(py, items[1..], wakewords);
      if text == "" {
        assert Names(py, items, wakewords) == rest;
      } else {
        var name := if wakewords then WakeName(text) else text;
        StripTrims(py.ToStr(items[0]));
        WakeNameAgain(text);
        StripTrims(name);
        var names := Names(py, items, wakewords);
        assert names == [Str(name)] + rest && names[1..] == rest;
        assert py.ToStr(names[0]) == name;
      }
    }
  }

  /** The names that are kept are stripped and not empty, and none is the old wake word. */
  lemma {:induction false} NamesAreClean(py: Python, items: seq<Json>, wakewords: bool)
    ensures forall name | name in Names(py, items, wakewords) ::
      name.Str? && name.s != "" && Trimmed(name.s) && (wakewords ==> !IsHexa(name.s))
  {
    if items != [] {
      var text := Strip(py.ToStr(items[0]));
      NamesAreClean(py, items[1..], wakewords);
      StripTrims(py.ToStr(items[0]));
      WakeNameAgain(text);
      StripTrims(text);
    }
  }

  /** Reading what was kept keeps it as it is. */
  lemma FieldAgain(py: Python, rule: Rule, field: Option<Json>)
    requires !Read(py, rule, field).Refused?
    ensures Read(py, rule, AsField(Read(py, rule, field))) == Read(py, rule, field)
  {
    var outcome := Read(py, rule, field);
    var text := py.TextOf(field);
    StripTrims(if field.Some? then py.ToStr(field.value) else "");
    StripTrims("");
    assert Trimmed(text);
    if rule.Provider? || rule.Text? || rule.Profile? {
      TextAgain(py, text);
      assert outcome.Kept? ==> AsField(outcome) == Some(Str(text));
      if rule.Provider? && text == "" {
        assert py.TextOf(Some(Str(""))) == "";
      }
    } else if rule.Wakeword? {
      WakeNameAgain(text);
      TextAgain(py, WakeName(text));
    } else if rule.NameList? {
      if field.Some? {
        NamesAgain(py, field.value.items, rule.wakewords);
      }
    }
  }

  // ---- the whole form ----

  /** A dict holds exactly the kept outcomes of the keys. */
  ghost predicate Holds(py: Python, form: Form, m: Fields, keys: seq<string>, d: Fields) {
    && (forall key | key in d :: key in keys)
    && (forall key | key in keys :: Field(d, key) == AsField(form.ReadField(py, m, key)))
  }

  ghost predicate NoneRefused(py: Python, form: Form, m: Fields, keys: seq<string>) {
    forall key | key in keys :: !form.ReadField(py, m, key).Refused?
  }

  lemma {:induction false} WalkHolds(py: Python, form: Form, m: Fields, keys: seq<string>)
    ensures Walk(py, form, m, keys).Ok? <==> NoneRefused(py, form, m, keys)
    ensures Walk(py, form, m, keys).Ok? ==> Holds(py, form, m, keys, Walk(py, form, m, keys).value)
    decreases |keys|
  {
    if keys != [] {
      var front, key := keys[..|keys| - 1], keys[|keys| - 1];
      assert keys == front + [key];
      WalkHolds(py, form, m, front);
    }
  }

  /** A walk depends on nothing but how the fields read. */
  lemma {:induction false} WalkSame(py: Python, form: Form, m: Fields, d: Fields, keys: seq<string>)
    requires forall key | key in keys :: form.ReadField(py, d, key) == form.ReadField(py, m, key)
    ensures Walk(py, form, d, keys) == Walk(py, form, m, keys)
    decreases |keys|
  {
    if keys != [] {
      WalkSame(py, form, m, d, keys[..|keys| - 1]);
    }
  }

  /** A payload is accepted iff it is an object in which no field is refused; then the result
      holds exactly the fields that were kept. */
  lemma AcceptedExactly(py: Python, form: Form, payload: Json)
    ensures Validate(py, form, payload).Ok? <==> payload.Dict? && NoneRefused(py, form, payload.fields, form.order)
    ensures Validate(py, form, payload).Ok? ==>
      Holds(py, form, payload.fields, form.order, Validate(py, form, payload).value)
  {
    if payload.Dict? {
      WalkHolds(py, form, payload.fields, form.order);
    }
  }

  /** A refused object is refused for the first field that is wrong, in the order of the form. */
  lemma {:induction false} FirstRefusal(py: Python, form: Form, m: Fields, keys: seq<string>) returns (i: nat)
    requires Walk(py, form, m, keys).Err?
    ensures i < |keys| && form.ReadField(py, m, keys[i]).Refused?
    ensures NoneRefused(py, form, m, keys[..i])
    ensures Walk(py, form, m, keys) == Err(form.Complaint(keys[i]))
    decreases |keys|
  {
    var front := keys[..|keys| - 1];
    if Walk(py, form, m, front).Err? {
      i := FirstRefusal(py, form, m, front);
      assert front[..i] == keys[..i];
    } else {
      i := |keys| - 1;
      WalkHolds(py, form, m, front);
    }
  }

  /** Whatever a validator returns, it accepts and returns unchanged: an exported section always
      passes the validation of an import. */
  lemma NormalFormIsFixed(py: Python, form: Form, payload: Json)
    requires Validate(py, form, payload).Ok?
    ensures Validate(py, form, Dict(Validate(py, form, payload).value)) == Validate(py, form, payload)
  {
    var m, d := payload.fields, Validate(py, form, payload).value;
    AcceptedExactly(py, form, payload);
    forall key | key in form.order ensures form.ReadField(py, d, key) == form.ReadField(py, m, key) {
      FieldAgain(py, form.rule(key), Field(m, key));
    }
    WalkSame(py, form, m, d, form.order);
  }
}
