/** Which domain events may be published: their topics, their types and the private content filter. */
module EventContent {
  import opened Text
  import opened Wrappers

  /** A JSON value; the fields of an object keep their order and have different names. */
  datatype Json =
    | Null
    | Bool(b: bool)
    | Int(n: int)
    | Float(text: string)
    | Str(s: string)
    | Array(items: seq<Json>)
    | Object(fields: seq<Field>)

  datatype Field = Field(name: string, value: Json)

  /** Python's lower-casing, the text of values that are no strings and their truth. */
  datatype Python = Python(lower: string -> string, repr: Json -> string, truthy: Json -> bool)
  {
    /** `str(value or "").strip()` */
    function Text(value: Option<Json>): string {
      if value.None? then ""
      else if value.value.Str? then Strip(value.value.s)
      else if truthy(value.value) then Strip(repr(value.value)) else ""
    }
  }

  /** Missing and false values have no text; a text is stripped; any other value is spelled first. */
  lemma TextReads(py: Python, v: Json)
    ensures py.Text(None) == ""
    ensures v.Str? ==> py.Text(Some(v)) == Strip(v.s)
    ensures !v.Str? ==> py.Text(Some(v)) == if py.truthy(v) then Strip(py.repr(v)) else ""
  {
  }

  // ---- event types and topics ----

  predicate IsWordChar(c: char) {
    'a' <= c <= 'z' || '0' <= c <= '9' || c == '_'
  }

  /** `[a-z0-9_]+` */
  predicate IsWord(word: string) {
    word != "" && forall c :: c in word ==> IsWordChar(c)
  }

  predicate AllWords(words: seq<string>) {
    forall i | 0 <= i < |words| :: IsWord(words[i])
  }

  /** The words with a dot between each two. */
  function Dotted(words: seq<string>): string {
    if words == [] then "" else if |words| == 1 then words[0] else words[0] + "." + Dotted(words[1..])
  }

  ghost predicate Matches(s: string, words: seq<string>) {
    |words| >= 2 && AllWords(words) && s == Dotted(words)
  }

  /** `[a-z0-9_]+(?:\.[a-z0-9_]+)+`: two words or more, joined by dots. */
  ghost predicate IsEventType(s: string) {
    exists words :: Matches(s, words)
  }

  /** Word characters and dots, where no dot is first, last or beside another. */
  predicate DotsApart(s: string) {
    && s != "" && s[0] != '.' && s[|s| - 1] != '.'
    && (forall i | 0 <= i < |s| :: IsWordChar(s[i]) || s[i] == '.')
    && (forall i | 0 <= i < |s| - 1 :: s[i] != '.' || s[i + 1] != '.')
  }

  /** The word characters are the ASCII letters in lower case, the digits and the underscore. */
  lemma WordCharsExactly(c: char)
    ensures IsWordChar(c) <==> 97 <= c as int <= 122 || 48 <= c as int <= 57 || c as int == 95
  {
  }

  /** A text matches exactly when each of its characters may stand where it does and one is a dot. */
  lemma {:induction false} EventTypeShape(s: string)
    ensures IsEventType(s) <==> DotsApart(s) && '.' in s
  {
    if IsEventType(s) {
      var words :| Matches(s, words);
      DottedShape(words);
    }
    if DotsApart(s) && '.' in s {
      var words := WordsBetweenDots(s);
      assert Matches(s, words);
    }
  }

  lemma {:induction false} DottedShape(words: seq<string>)
    requires words != [] && AllWords(words)
    ensures DotsApart(Dotted(words))
    ensures |words| >= 2 ==> '.' in Dotted(words)
    decreases |words|
  {
    WordShape(words[0]);
    if |words| >= 2 {
      DottedShape(words[1..]);
      JoinApart(words[0], Dotted(words[1..]));
      assert (words[0] + "." + Dotted(words[1..]))[|words[0]|] == '.';
    }
  }

  lemma WordShape(word: string)
    requires IsWord(word)
    ensures DotsApart(word)
  {
    assert forall i | 0 <= i < |word| :: word[i] in word;
  }

  lemma {:induction false} JoinApart(a: string, b: string)
    requires DotsApart(a) && DotsApart(b)
    ensures DotsApart(a + "." + b)
  {
    var s := a + "." + b;
    assert s[|a|] == '.';
    assert forall i | 0 <= i < |a| :: s[i] == a[i];
    assert forall i | |a| < i < |s| :: s[i] == b[i - |a| - 1];
  }

  lemma {:induction false} WordsBetweenDots(s: string) returns (words: seq<string>)
    requires DotsApart(s)
    ensures words != [] && AllWords(words) && Dotted(words) == s
    ensures '.' in s ==> |words| >= 2
    decreases |s|
  {
    if '.' in s {
      var dot := FirstDot(s);
      var rest := s[dot + 1..];
      TailApart(s, dot);
      var more := WordsBetweenDots(rest);
      words := [s[..dot]] + more;
      assert words[1..] == more && s == s[..dot] + "." + rest;
    } else {
      words := [s];
    }
  }

  lemma {:induction false} FirstDot(s: string) returns (dot: nat)
    requires DotsApart(s) && '.' in s
    ensures 0 < dot < |s| - 1 && s[dot] == '.' && IsWord(s[..dot])
  {
    dot := 0;
    while s[dot] != '.'
      invariant dot < |s| && '.' !in s[..dot]
      decreases |s| - dot
    {
      assert s == s[..dot] + [s[dot]] + s[dot + 1..];
      dot := dot + 1;
    }
  }

  lemma {:induction false} TailApart(s: string, dot: nat)
    requires DotsApart(s) && dot < |s| - 1 && s[dot] == '.'
    ensures DotsApart(s[dot + 1..])
  {
    var t := s[dot + 1..];
    assert forall k | 0 <= k < |t| :: t[k] == s[dot + 1 + k];
  }

  function DotsToSlashes(s: string): (t: string)
    ensures |t| == |s|
    ensures forall i | 0 <= i < |s| :: t[i] == if s[i] == '.' then '/' else s[i]
  {
    seq(|s|, i requires 0 <= i < |s| => if s[i] == '.' then '/' else s[i])
  }

  /** `domain_event_topic`, None where it raises. */
  ghost function Topic(py: Python, eventType: string): Option<string> {
    var normalized := py.lower(Strip(eventType));
    if IsEventType(normalized) then Some("hexe/events/" + DotsToSlashes(normalized)) else None
  }

  /** The topics of two event types are equal exactly when the types are, after stripping and
      lower-casing. */
  lemma {:induction false} TopicInjective(py: Python, a: string, b: string)
    requires Topic(py, a).Some? && Topic(py, b).Some?
    ensures Topic(py, a) == Topic(py, b) <==> py.lower(Strip(a)) == py.lower(Strip(b))
  {
    var s, t := py.lower(Strip(a)), py.lower(Strip(b));
    if Topic(py, a) == Topic(py, b) {
      var prefix := "hexe/events/";
      assert (prefix + DotsToSlashes(s))[|prefix|..] == DotsToSlashes(s);
      assert (prefix + DotsToSlashes(t))[|prefix|..] == DotsToSlashes(t);
      EventTypeShape(s);
      EventTypeShape(t);
      assert |s| == |t|;
      forall i | 0 <= i < |s| ensures s[i] == t[i] {
        assert DotsToSlashes(s)[i] == DotsToSlashes(t)[i];
      }
    }
  }

  // ---- the private content filter ----

  const PRIVATE_FIELDS := {
    "access_token", "api_key", "apikey", "attachment", "attachments", "authorization",
    "body_html", "client_secret", "cookie", "credentials", "email_body", "full_address",
    "heard_text", "html", "oauth_token", "password", "raw_body", "raw_email_body",
    "refresh_token", "reply_audio", "reply_text", "secret", "session_cookie", "token"}

  predicate IsPrivate(py: Python, name: string) {
    py.lower(Strip(name)) in PRIVATE_FIELDS
  }

  function FieldPath(path: string, name: string): string {
    path + "." + name
  }

  function ItemPath(path: string, i: nat): string {
    path + "[" + NatText(i) + "]"
  }

  /** `_reject_private_domain_event_content`: the path it complains of, None where it does not. */
  function PrivatePath(py: Python, v: Json, path: string): Option<string>
    decreases v, 0
  {
    if v.Object? then InFields(py, v, 0, path)
    else if v.Array? then InItems(py, v, 0, path)
    else None
  }

  function InFields(py: Python, v: Json, from: nat, path: string): Option<string>
    requires v.Object? && from <= |v.fields|
    decreases v, 0, |v.fields| - from
  {
    if from == |v.fields| then None
    else
      var field := v.fields[from];
      var inner := FieldPath(path, field.name);
      if IsPrivate(py, field.name) then Some(inner)
      else
        var found := PrivatePath(py, field.value, inner);
        if found.Some? then found else InFields(py, v, from + 1, path)
  }

  function InItems(py: Python, v: Json, from: nat, path: string): Option<string>
    requires v.Array? && from <= |v.items|
    decreases v, 0, |v.items| - from
  {
    if from == |v.items| then None
    else
      var found := PrivatePath(py, v.items[from], ItemPath(path, from));
      if found.Some? then found else InItems(py, v, from + 1, path)
  }

  /** A place in a tree: at each level the number of the field or item. */
  type Place = seq<nat>

  /** The place is that of a field with a private name. */
  predicate PrivateAt(py: Python, v: Json, place: Place)
    decreases |place|
  {
    && place != []
    && if v.Object? then
         && place[0] < |v.fields|
         && if |place| == 1 then IsPrivate(py, v.fields[place[0]].name)
            else PrivateAt(py, v.fields[place[0]].value, place[1..])
       else v.Array? && place[0] < |v.items| && PrivateAt(py, v.items[place[0]], place[1..])
  }

  /** The path of a place, as the complaint spells it. */
  function Spelled(v: Json, place: Place, path: string): string
    decreases |place|
  {
    if place == [] then path
    else if v.Object? && place[0] < |v.fields| then
      Spelled(v.fields[place[0]].value, place[1..], path + "." + v.fields[place[0]].name)
    else if v.Array? && place[0] < |v.items| then
      Spelled(v.items[place[0]], place[1..], path + "[" + NatText(place[0]) + "]")
    else path
  }

  /** Reading a tree from the top, one place comes before another. */
  predicate ComesBefore(a: Place, b: Place)
    decreases |a|
  {
    if a == [] || b == [] then a == [] && b != []
    else a[0] < b[0] || (a[0] == b[0] && ComesBefore(a[1..], b[1..]))
  }

  /** The place is the first private one whose number at the top level is not below `from`. */
  ghost predicate FirstFrom(py: Python, v: Json, from: nat, place: Place) {
    && PrivateAt(py, v, place) && place[0] >= from
    && forall other | PrivateAt(py, v, other) && other[0] >= from :: other == place || ComesBefore(place, other)
  }

  ghost predicate NoneFrom(py: Python, v: Json, from: nat) {
    forall place | PrivateAt(py, v, place) :: place[0] < from
  }

  /** The complaint is about the first private field. */
  ghost predicate Finds(py: Python, v: Json, from: nat, path: string, found: Option<string>) {
    if found.None? then NoneFrom(py, v, from)
    else exists place :: FirstFrom(py, v, from, place) && found.value == Spelled(v, place, path)
  }

  lemma {:induction false} PathFinds(py: Python, v: Json, path: string)
    ensures Finds(py, v, 0, path, PrivatePath(py, v, path))
    decreases v, 0
  {
    if v.Object? {
      FieldsFind(py, v, 0, path);
    } else if v.Array? {
      ItemsFind(py, v, 0, path);
    }
  }

  function ChildOf(v: Json, i: nat): Json
    requires (v.Object? && i < |v.fields|) || (v.Array? && i < |v.items|)
  {
    if v.Object? then v.fields[i].value else v.items[i]
  }

  function PathOf(v: Json, i: nat, path: string): string
    requires (v.Object? && i < |v.fields|) || (v.Array? && i < |v.items|)
  {
    if v.Object? then FieldPath(path, v.fields[i].name) else ItemPath(path, i)
  }

  /** The first private place of a child is the first of its parent, unless the child's own name
      is private. */
  lemma {:induction false} ChildFinds(py: Python, v: Json, i: nat, path: string)
    requires (v.Object? && i < |v.fields| && !IsPrivate(py, v.fields[i].name)) || (v.Array? && i < |v.items|)
    requires Finds(py, ChildOf(v, i), 0, PathOf(v, i, path), PrivatePath(py, ChildOf(v, i), PathOf(v, i, path)))
    ensures var found := PrivatePath(py, ChildOf(v, i), PathOf(v, i, path));
      if found.Some? then Finds(py, v, i, path, found)
      else forall place | PrivateAt(py, v, place) :: place[0] != i
  {
    var child := ChildOf(v, i);
    var found := PrivatePath(py, child, PathOf(v, i, path));
    forall place | PrivateAt(py, v, place) && place[0] == i ensures PrivateAt(py, child, place[1..]) {
    }
    if found.Some? {
      var inner :| FirstFrom(py, child, 0, inner) && found.value == Spelled(child, inner, PathOf(v, i, path));
      var place := [i] + inner;
      assert place[1..] == inner;
      forall other | PrivateAt(py, v, other) && other[0] >= i ensures other == place || ComesBefore(place, other) {
        if other[0] == i {
          assert PrivateAt(py, child, other[1..]);
          assert other == [i] + other[1..];
        }
      }
      assert FirstFrom(py, v, i, place);
    }
  }

  lemma {:induction false} FieldsFind(py: Python, v: Json, from: nat, path: string)
    requires v.Object? && from <= |v.fields|
    ensures Finds(py, v, from, path, InFields(py, v, from, path))
    decreases v, 0, |v.fields| - from
  {
    if from < |v.fields| {
      var field := v.fields[from];
      if IsPrivate(py, field.name) {
        NamedFirst(py, v, from, path);
      } else {
        PathFinds(py, field.value, FieldPath(path, field.name));
        ChildFinds(py, v, from, path);
        if PrivatePath(py, field.value, FieldPath(path, field.name)).None? {
          FieldsFind(py, v, from + 1, path);
          SkipOne(py, v, from, path, InFields(py, v, from + 1, path));
        }
      }
    }
  }

  lemma {:induction false} NamedFirst(py: Python, v: Json, from: nat, path: string)
    requires v.Object? && from < |v.fields| && IsPrivate(py, v.fields[from].name)
    ensures Finds(py, v, from, path, Some(FieldPath(path, v.fields[from].name)))
  {
    var place := [from];
    assert place[1..] == [];
    forall other | PrivateAt(py, v, other) && other[0] >= from ensures other == place || ComesBefore(place, other) {
      if other[0] == from && |other| == 1 {
        assert other == place;
      }
    }
    assert FirstFrom(py, v, from, place);
    var inner := FieldPath(path, v.fields[from].name);
    assert Spelled(v.fields[from].value, [], inner) == inner;
    assert Spelled(v, place, path) == inner;
  }

  /** Where nothing private is at the top-level number `from`, the search may start after it. */
  lemma {:induction false} SkipOne(py: Python, v: Json, from: nat, path: string, found: Option<string>)
    requires Finds(py, v, from + 1, path, found)
    requires forall place | PrivateAt(py, v, place) :: place[0] != from
    ensures Finds(py, v, from, path, found)
  {
    if found.Some? {
      var place :| FirstFrom(py, v, from + 1, place) && found.value == Spelled(v, place, path);
      assert FirstFrom(py, v, from, place);
    }
  }

  lemma {:induction false} ItemsFind(py: Python, v: Json, from: nat, path: string)
    requires v.Array? && from <= |v.items|
    ensures Finds(py, v, from, path, InItems(py, v, from, path))
    decreases v, 0, |v.items| - from
  {
    if from < |v.items| {
      PathFinds(py, v.items[from], ItemPath(path, from));
      ChildFinds(py, v, from, path);
      if PrivatePath(py, v.items[from], ItemPath(path, from)).None? {
        ItemsFind(py, v, from + 1, path);
        SkipOne(py, v, from, path, InItems(py, v, from + 1, path));
      }
    }
  }

  /** Some object, at any depth and inside lists too, has a field whose name is private once
      stripped and lower-cased. */
  ghost predicate HasPrivate(py: Python, v: Json) {
    exists place :: PrivateAt(py, v, place)
  }

  /** The filter lets a tree pass exactly when it has no private field. */
  lemma {:induction false} FilterExactly(py: Python, v: Json, path: string)
    ensures PrivatePath(py, v, path).None? <==> !HasPrivate(py, v)
  {
    PathFinds(py, v, path);
  }

  /** A complaint spells the path of the first private field, reading from the top. */
  lemma {:induction false} FilterNamesFirst(py: Python, v: Json, path: string) returns (place: Place)
    requires PrivatePath(py, v, path).Some?
    ensures PrivateAt(py, v, place) && PrivatePath(py, v, path).value == Spelled(v, place, path)
    ensures forall other | PrivateAt(py, v, other) :: other == place || ComesBefore(place, other)
  {
    PathFinds(py, v, path);
    place :| FirstFrom(py, v, 0, place) && PrivatePath(py, v, path).value == Spelled(v, place, path);
  }

  // ---- publishing ----

  const LEGACY_FIELDS := {
    "promotion_id", "promoted_event_type", "received_at", "promoted_at", "core", "routing", "policy"}

  const MAX_PAYLOAD_BYTES := 65_536

  /** The value of a field; field names of an object are different. */
  function Get(fields: seq<Field>, name: string): Option<Json> {
    if fields == [] then None
    else if fields[0].name == name then Some(fields[0].value) else Get(fields[1..], name)
  }

  function GetOr(fields: seq<Field>, name: string, missing: Json): Json {
    if Get(fields, name).Some? then Get(fields, name).value else missing
  }

  predicate HasLegacy(fields: seq<Field>) {
    exists i | 0 <= i < |fields| :: fields[i].name in LEGACY_FIELDS
  }

  datatype Verdict =
    | Accepted
    | NoObject | Legacy | BadIdentity | BadVersion | TopicMismatch | SourceMismatch | BadData | BadSubject
    | Private(path: string)
    | TooLarge

  function SourceNode(py: Python, fields: seq<Field>): Option<string> {
    var source := Get(fields, "source");
    if source.None? || !source.value.Object? then None else Some(py.Text(Get(source.value.fields, "node_id")))
  }

  /** `validate_domain_event_publish`; `size` is the length of the encoded payload. */
  ghost function Validate(py: Python, topic: string, payload: Json, trustedNode: string, size: nat): Verdict {
    if !payload.Object? then NoObject
    else
      var fields := payload.fields;
      var eventType := py.Text(Get(fields, "event_type"));
      var version := GetOr(fields, "schema_version", Int(1));
      var data := GetOr(fields, "data", Object([]));
      if HasLegacy(fields) then Legacy
      else if py.Text(Get(fields, "event_id")) == "" || !IsEventType(eventType) then BadIdentity
      else if !version.Int? || version.n < 1 then BadVersion
      else if Some(topic) != Topic(py, eventType) then TopicMismatch
      else if SourceNode(py, fields) != Some(Strip(trustedNode)) then SourceMismatch
      else if !data.Object? then BadData
      else if !GetOr(fields, "subject", Object([])).Object? then BadSubject
      else if PrivatePath(py, data, "data").Some? then Private(PrivatePath(py, data, "data").value)
      else if size > MAX_PAYLOAD_BYTES then TooLarge
      else Accepted
  }

  /** Lower-casing leaves event types alone. */
  ghost predicate LowersTypes(py: Python) {
    forall s | IsEventType(s) :: py.lower(s) == s
  }

  lemma {:induction false} TypeIsTrimmed(s: string)
    requires IsEventType(s)
    ensures Strip(s) == s
  {
    EventTypeShape(s);
    StripTrims(s);
  }

  /** Accepted publishes carry no private field in their data, and those with the same topic have
      the same event type, which the topic spells. */
  lemma {:induction false} AcceptedPublishes(py: Python, topic: string, a: Json, b: Json, nodeA: string,
      nodeB: string, m: nat, n: nat)
    requires LowersTypes(py)
    requires Validate(py, topic, a, nodeA, m) == Accepted && Validate(py, topic, b, nodeB, n) == Accepted
    ensures py.Text(Get(a.fields, "event_type")) == py.Text(Get(b.fields, "event_type"))
    ensures topic == "hexe/events/" + DotsToSlashes(py.Text(Get(a.fields, "event_type")))
    ensures !HasPrivate(py, GetOr(a.fields, "data", Object([])))
  {
    var s, t := py.Text(Get(a.fields, "event_type")), py.Text(Get(b.fields, "event_type"));
    TypeIsTrimmed(s);
    TypeIsTrimmed(t);
    TopicInjective(py, s, t);
    FilterExactly(py, GetOr(a.fields, "data", Object([])), "data");
  }

  /** A field that may be missing holds an object otherwise. */
  predicate ObjectOrMissing(fields: seq<Field>, name: string) {
    Get(fields, name).None? || Get(fields, name).value.Object?
  }

  /** The event names the trusted node as its source. */
  predicate FromNode(py: Python, fields: seq<Field>, node: string) {
    var source := Get(fields, "source");
    source.Some? && source.value.Object? && py.Text(Get(source.value.fields, "node_id")) == Strip(node)
  }

  /** A version is a whole number from one on; a missing one is the first. */
  predicate VersionOk(fields: seq<Field>) {
    var version := Get(fields, "schema_version");
    version.None? || (version.value.Int? && version.value.n >= 1)
  }

  /** A publish is accepted exactly when it is an object without legacy fields, has an identity, a
      type whose topic it is sent to, a version and the trusted node as its source, holds no private
      field in its data at any depth, and is not too large. */
  lemma {:induction false} AcceptedExactly(py: Python, topic: string, payload: Json, trustedNode: string, size: nat)
    requires LowersTypes(py)
    ensures Validate(py, topic, payload, trustedNode, size) == Accepted <==>
      && payload.Object?
      && (forall i | 0 <= i < |payload.fields| :: payload.fields[i].name !in {
            "promotion_id", "promoted_event_type", "received_at", "promoted_at", "core", "routing", "policy"})
      && py.Text(Get(payload.fields, "event_id")) != ""
      && IsEventType(py.Text(Get(payload.fields, "event_type")))
      && VersionOk(payload.fields)
      && topic == "hexe/events/" + DotsToSlashes(py.Text(Get(payload.fields, "event_type")))
      && FromNode(py, payload.fields, trustedNode)
      && ObjectOrMissing(payload.fields, "data") && ObjectOrMissing(payload.fields, "subject")
      && (Get(payload.fields, "data").Some? ==> !HasPrivate(py, Get(payload.fields, "data").value))
      && size <= 65536
  {
    if payload.Object? {
      var fields := payload.fields;
      var eventType := py.Text(Get(fields, "event_type"));
      var data := GetOr(fields, "data", Object([]));
      FilterExactly(py, data, "data");
      assert HasLegacy(fields) <==> !(forall i | 0 <= i < |fields| :: fields[i].name !in LEGACY_FIELDS);
      if IsEventType(eventType) {
        TypeIsTrimmed(eventType);
        assert Topic(py, eventType) == Some("hexe/events/" + DotsToSlashes(eventType));
      }
    }
  }
}
