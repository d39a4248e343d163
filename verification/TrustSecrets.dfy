/** Redaction of an exported onboarding state and rejection of a bundle that carries secrets. */
module TrustSecrets {
  import opened MigrationJson

  predicate SecretName(key: string) {
    key == "node_trust_token" || key == "operational_mqtt_token"
  }

  // ---- rejection ----

  predicate HoldsValue(v: Json) {
    v != Null && v != Str("")
  }

  /** `contains_secret_value` */
  predicate ContainsSecret(v: Json) {
    match v
    case Dict(fields) =>
      exists key | key in fields :: (SecretName(key) && HoldsValue(fields[key])) || ContainsSecret(fields[key])
    case List(items) => exists item | item in items :: ContainsSecret(item)
    case _ => false
  }

  /** `_reject_trust_secrets` lets the bundle pass. */
  predicate PassesRejection(bundle: Fields) {
    && !Truthy(Get(bundle, "contains_trust_secrets"))
    && (Get(bundle, "state_files").Dict? ==> !ContainsSecret(Get(bundle, "state_files")))
  }

  // ---- where a secret is ----

  datatype Step = Key(key: string) | Index(i: nat)

  type Path = seq<Step>

  /** The path ends at a node trust token or an operational MQTT token that is neither null nor empty. */
  predicate SecretAt(v: Json, path: Path)
    decreases |path|
  {
    && path != []
    && match path[0]
       case Key(key) =>
         && v.Dict? && key in v.fields
         && if |path| == 1 then
              && (key == "node_trust_token" || key == "operational_mqtt_token")
              && v.fields[key] != Null && v.fields[key] != Str("")
            else SecretAt(v.fields[key], path[1..])
       case Index(i) => v.List? && i < |v.items| && SecretAt(v.items[i], path[1..])
  }

  ghost predicate HasSecret(v: Json) {
    exists path: Path :: SecretAt(v, path)
  }

  lemma {:induction false} SecretHasPath(v: Json) returns (path: Path)
    requires ContainsSecret(v)
    ensures SecretAt(v, path)
    decreases v
  {
    match v
    case Dict(fields) =>
      var key :| key in fields && ((SecretName(key) && HoldsValue(fields[key])) || ContainsSecret(fields[key]));
      if SecretName(key) && HoldsValue(fields[key]) {
        path := [Key(key)];
      } else {
        var below := SecretHasPath(fields[key]);
        path := [Key(key)] + below;
        assert path[1..] == below;
      }
    case List(items) =>
      var item :| item in items && ContainsSecret(item);
      var i :| 0 <= i < |items| && items[i] == item;
      var below := SecretHasPath(item);
      path := [Index(i)] + below;
      assert path[1..] == below;
  }

  lemma {:induction false} PathIsSecret(v: Json, path: Path)
    requires SecretAt(v, path)
    ensures ContainsSecret(v)
    decreases |path|
  {
    match path[0]
    case Key(key) =>
      if |path| > 1 {
        PathIsSecret(v.fields[key], path[1..]);
      }
    case Index(i) => PathIsSecret(v.items[i], path[1..]);
  }

  /** The recursive search finds a secret exactly when some path leads to one, through any
      nesting of dicts and lists. */
  lemma {:induction false} ContainsSecretExactly(v: Json)
    ensures ContainsSecret(v) <==> HasSecret(v)
  {
    if ContainsSecret(v) {
      var path := SecretHasPath(v);
      assert SecretAt(v, path);
    } else if HasSecret(v) {
      var path :| SecretAt(v, path);
      PathIsSecret(v, path);
    }
  }

  // ---- redaction ----

  function BlankSecrets(m: Fields): (r: Fields)
    ensures r.Keys == m.Keys
  {
    map key | key in m :: if SecretName(key) then Null else m[key]
  }

  predicate NodeKnown(m: Fields) {
    Get(m, "trust_activation").Dict? && Truthy(Get(Get(m, "trust_activation").fields, "node_id"))
  }

  function RedactActivation(activation: Fields): Fields {
    var blanked := BlankSecrets(activation);
    if Truthy(Get(blanked, "node_id")) then
      blanked["trust_status" := Str("reauth_required")]["trusted_at" := Null]["activation_applied_at" := Null]
    else blanked
  }

  function RedactSession(session: Fields): Fields {
    if Get(session, "pending_activation").Dict? then
      session["pending_activation" := Dict(BlankSecrets(session["pending_activation"].fields))]
    else session
  }

  function RedactStatus(status: Fields): Fields {
    status["trust_status" := Str("reauth_required")]["operational_ready" := Bool(false)]
  }

  /** `_redact_trust_secrets`, on a copy. */
  function Redact(m: Fields): Fields {
    var m1 :=
      if Get(m, "trust_activation").Dict?
      then m["trust_activation" := Dict(RedactActivation(m["trust_activation"].fields))] else m;
    var m2 :=
      if Get(m1, "onboarding_session").Dict?
      then m1["onboarding_session" := Dict(RedactSession(m1["onboarding_session"].fields))] else m1;
    if Get(m2, "operational_status").Dict? && NodeKnown(m2)
    then m2["operational_status" := Dict(RedactStatus(m2["operational_status"].fields))] else m2
  }

  predicate SecretKey(step: Step) {
    step.Key? && SecretName(step.key)
  }

  predicate KeyIn(step: Step, names: set<string>) {
    step.Key? && step.key in names
  }

  /** The places that redaction overwrites. */
  predicate Overwritten(m: Fields, path: Path) {
    || (|path| >= 2 && path[0] == Key("trust_activation")
        && (SecretKey(path[1])
            || (NodeKnown(m) && KeyIn(path[1], {"trust_status", "trusted_at", "activation_applied_at"}))))
    || (|path| >= 3 && path[0] == Key("onboarding_session") && path[1] == Key("pending_activation")
        && SecretKey(path[2]))
    || (|path| >= 2 && path[0] == Key("operational_status")
        && NodeKnown(m) && KeyIn(path[1], {"trust_status", "operational_ready"}))
  }

  // ---- redaction removes exactly the secrets at those places ----

  predicate Plain(v: Json) {
    !v.Dict? && !v.List?
  }

  /** Below a path, a field that has become a plain value holds no secret, and a field that
      has kept its value holds the same secrets. */
  lemma {:induction false} PatchedField(before: Fields, after: Fields, path: Path)
    requires path != [] && path[0].Key? && path[0].key in before && path[0].key in after
    ensures after[path[0].key] == before[path[0].key] ==>
      (SecretAt(Dict(after), path) <==> SecretAt(Dict(before), path))
    ensures Plain(after[path[0].key]) && (!SecretName(path[0].key) || !HoldsValue(after[path[0].key])) ==>
      !SecretAt(Dict(after), path)
  {
  }

  lemma {:induction false} RedactedActivation(activation: Fields, path: Path)
    requires path != []
    ensures SecretAt(Dict(RedactActivation(activation)), path) <==>
      && SecretAt(Dict(activation), path)
      && !SecretKey(path[0])
      && (Truthy(Get(activation, "node_id")) ==>
        !KeyIn(path[0], {"trust_status", "trusted_at", "activation_applied_at"}))
  {
    if path[0].Key? {
      var after := RedactActivation(activation);
      if path[0].key in activation && path[0].key in after {
        PatchedField(activation, after, path);
      }
    }
  }

  lemma {:induction false} BlankedSecrets(m: Fields, path: Path)
    requires path != []
    ensures SecretAt(Dict(BlankSecrets(m)), path) <==> SecretAt(Dict(m), path) && !SecretKey(path[0])
  {
    if path[0].Key? && path[0].key in m {
      PatchedField(m, BlankSecrets(m), path);
    }
  }

  lemma {:induction false} RedactedSession(session: Fields, path: Path)
    requires path != []
    ensures SecretAt(Dict(RedactSession(session)), path) <==>
      && SecretAt(Dict(session), path)
      && !(|path| >= 2 && path[0] == Key("pending_activation") && SecretKey(path[1]))
  {
    if path[0] == Key("pending_activation") && |path| >= 2 && Get(session, "pending_activation").Dict? {
      BlankedSecrets(session["pending_activation"].fields, path[1..]);
    }
  }

  lemma {:induction false} RedactedStatus(status: Fields, path: Path)
    requires path != []
    ensures SecretAt(Dict(RedactStatus(status)), path) <==>
      SecretAt(Dict(status), path) && !KeyIn(path[0], {"trust_status", "operational_ready"})
  {
    if path[0].Key? && path[0].key in status {
      PatchedField(status, RedactStatus(status), path);
    }
  }

  function RedactedValue(m: Fields, key: string): Json
    requires key in m
  {
    if key == "trust_activation" && m[key].Dict? then Dict(RedactActivation(m[key].fields))
    else if key == "onboarding_session" && m[key].Dict? then Dict(RedactSession(m[key].fields))
    else if key == "operational_status" && m[key].Dict? && NodeKnown(m) then Dict(RedactStatus(m[key].fields))
    else m[key]
  }

  /** Each field of the redacted state on its own. */
  lemma RedactedField(m: Fields, key: string)
    ensures Redact(m).Keys == m.Keys
    ensures key in m ==> Redact(m)[key] == RedactedValue(m, key)
  {
    if Get(m, "trust_activation").Dict? {
      var activation := m["trust_activation"].fields;
      assert Get(RedactActivation(activation), "node_id") == Get(activation, "node_id");
    }
  }

  /** Redaction changes nothing else: the secret fields of the two activations become null, and
      where the node has an id, so do the times of its activation, while its trust status asks
      for a new authorisation and it is no longer operational. */
  lemma {:induction false} RedactionPointwise(m: Fields, key: string, field: string)
    requires key in m
    ensures !m[key].Dict? || key !in {"trust_activation", "onboarding_session", "operational_status"} ==>
      Redact(m)[key] == m[key]
    ensures key == "trust_activation" && m[key].Dict? ==>
      Get(Redact(m)[key].fields, field) ==
        if NodeKnown(m) && field == "trust_status" then Str("reauth_required")
        else if field in {"node_trust_token", "operational_mqtt_token"}
          || (NodeKnown(m) && field in {"trusted_at", "activation_applied_at"}) then Null
        else Get(m[key].fields, field)
    ensures key == "onboarding_session" && m[key].Dict? && field != "pending_activation" ==>
      Get(Redact(m)[key].fields, field) == Get(m[key].fields, field)
    ensures key == "operational_status" && m[key].Dict? ==>
      Get(Redact(m)[key].fields, field) ==
        if NodeKnown(m) && field == "trust_status" then Str("reauth_required")
        else if NodeKnown(m) && field == "operational_ready" then Bool(false)
        else Get(m[key].fields, field)
  {
    RedactedField(m, key);
    if key == "trust_activation" && m[key].Dict? {
      assert NodeKnown(m) <==> Truthy(Get(BlankSecrets(m[key].fields), "node_id"));
    }
  }

  /** And in a pending activation only the secrets. */
  lemma {:induction false} PendingPointwise(m: Fields, field: string)
    requires Get(m, "onboarding_session").Dict?
    requires Get(Get(m, "onboarding_session").fields, "pending_activation").Dict?
    ensures Get(Redact(m)["onboarding_session"].fields, "pending_activation").Dict?
    ensures Get(Get(Redact(m)["onboarding_session"].fields, "pending_activation").fields, field) ==
      if field in {"node_trust_token", "operational_mqtt_token"} then Null
      else Get(m["onboarding_session"].fields["pending_activation"].fields, field)
  {
    RedactedField(m, "onboarding_session");
  }

  /** A secret is left in the redacted state exactly where there was one that redaction does
      not overwrite. */
  lemma {:induction false} RedactionExactly(m: Fields, path: Path)
    ensures SecretAt(Dict(Redact(m)), path) <==> SecretAt(Dict(m), path) && !Overwritten(m, path)
  {
    if path != [] && path[0].Key? && path[0].key in m {
      var key := path[0].key;
      RedactedField(m, key);
      if |path| > 1 && m[key].Dict? {
        var fields := m[key].fields;
        RedactedActivation(fields, path[1..]);
        RedactedSession(fields, path[1..]);
        RedactedStatus(fields, path[1..]);
      }
    } else if path != [] && path[0].Key? {
      RedactedField(m, path[0].key);
    }
  }

  /** Rejection accepts a redacted state exactly when every secret was at an overwritten place. */
  lemma RedactedIsAccepted(m: Fields)
    ensures !ContainsSecret(Dict(Redact(m))) <==> forall path | SecretAt(Dict(m), path) :: Overwritten(m, path)
  {
    ContainsSecretExactly(Dict(Redact(m)));
    if !ContainsSecret(Dict(Redact(m))) {
      forall path | SecretAt(Dict(m), path) ensures Overwritten(m, path) {
        RedactionExactly(m, path);
      }
    } else {
      var path :| SecretAt(Dict(Redact(m)), path);
      RedactionExactly(m, path);
    }
  }

  lemma RedactionIdempotent(m: Fields)
    ensures Redact(Redact(m)) == Redact(m)
  {
    var r := Redact(m);
    forall key | key in m ensures Redact(r)[key] == r[key] {
      RedactedField(m, key);
      RedactedField(r, key);
      RedactedField(m, "trust_activation");
      if m[key].Dict? {
        RedactPartsIdempotent(m[key].fields);
      }
    }
    RedactedField(m, "");
    RedactedField(r, "");
  }

  lemma RedactPartsIdempotent(m: Fields)
    ensures BlankSecrets(BlankSecrets(m)) == BlankSecrets(m)
    ensures RedactActivation(RedactActivation(m)) == RedactActivation(m)
    ensures RedactSession(RedactSession(m)) == RedactSession(m)
    ensures RedactStatus(RedactStatus(m)) == RedactStatus(m)
  {
    assert forall n: Fields :: BlankSecrets(BlankSecrets(n)) == BlankSecrets(n);
  }
}
