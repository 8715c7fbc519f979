/** The policy normaliser of scripts/policy-design.ts: nested tables are flattened, durations become seconds, every
    value is bounded, the cross-field rules are enforced, and the result is printed canonically. */
module PolicyDesign {
  import opened Wrappers
  import opened CanonicalJson
  import RuntimePolicy

  // ---------------------------------------------------------------- the expected keys

  /** Which keys hold durations and which hold counts. */
  datatype Schema = Schema(durations: set<string>, counts: set<string>) {
    function Limits(): set<string> { durations + counts - {VERSION} }

    function Expected(): set<string> { Limits() + {VERSION} }
  }

  const VERSION := "schema_version"

  /** A proper dotted prefix of an expected key. */
  predicate IsTable(sc: Schema, path: string) {
    exists k :: k in sc.Expected() && |k| > |path| && k[..|path|] == path && k[|path|] == '.'
  }

  // ---------------------------------------------------------------- flattening

  /** Leaves by dotted path; a later entry replaces an earlier one of the same path. */
  function Flatten(entries: seq<Entry>, prefix: string): map<string, Value>
    decreases entries
  {
    if entries == [] then map[] else
    var last := entries[|entries| - 1];
    var path := prefix + last.key;
    Flatten(entries[..|entries| - 1], prefix)
    + (if last.value.Record? then Flatten(last.value.entries, path + ".") else map[path := last.value])
  }

  /** `flatten`: one pass over the entries, assigning into the result. */
  method FlattenTables(entries: seq<Entry>, prefix: string) returns (result: map<string, Value>)
    ensures result == Flatten(entries, prefix)
    decreases entries
  {
    result := map[];
    for i := 0 to |entries|
      invariant result == Flatten(entries[..i], prefix)
    {
      var e := entries[i];
      assert entries[..i + 1][..i] == entries[..i] && entries[..i + 1][i] == e;
      var path := prefix + e.key;
      if e.value.Record? {
        var inner := FlattenTables(e.value.entries, path + ".");
        result := result + inner;
      } else {
        result := result + map[path := e.value];
      }
    }
    assert entries[..|entries|] == entries;
  }

  /** Every nested record is a known table. */
  predicate KnownTables(sc: Schema, entries: seq<Entry>, prefix: string)
    decreases entries
  {
    forall i :: 0 <= i < |entries| && entries[i].value.Record? ==>
      IsTable(sc, prefix + entries[i].key) && KnownTables(sc, entries[i].value.entries, prefix + entries[i].key + ".")
  }

  /** `checkTables` */
  method CheckTables(sc: Schema, entries: seq<Entry>, prefix: string) returns (ok: bool)
    ensures ok <==> KnownTables(sc, entries, prefix)
    decreases entries
  {
    for i := 0 to |entries|
      invariant forall j :: 0 <= j < i && entries[j].value.Record? ==>
                  IsTable(sc, prefix + entries[j].key) && KnownTables(sc, entries[j].value.entries,
                    prefix + entries[j].key + ".")
    {
      var e := entries[i];
      if e.value.Record? {
        if !IsTable(sc, prefix + e.key) { return false; }
        var inner := CheckTables(sc, e.value.entries, prefix + e.key + ".");
        if !inner { return false; }
      }
    }
    return true;
  }

  // ---------------------------------------------------------------- values

  function UnitSeconds(c: char): int {
    if c == 's' then 1 else if c == 'm' then 60 else if c == 'h' then 3600 else if c == 'd' then 86400 else 0
  }

  /** A positive whole number without leading zeros, and a unit. */
  function DurationSeconds(s: string): Option<int> {
    var n := |s| - 1;
    if |s| < 2 || UnitSeconds(s[n]) == 0 || !('1' <= s[0] <= '9') || !AllDigits(s[..n]) then None
    else Some(Number(s[..n]) * UnitSeconds(s[n]))
  }

  const MAX_VALUE := 0x7fff_ffff

  /** The normalised value of one limit, or None if it is not acceptable. */
  function Normal(sc: Schema, key: string, v: Value): Option<int> {
    var n := if key in sc.durations then (if v.Text? then DurationSeconds(v.s) else None)
      else (if v.Int? then Some(v.n) else None);
    if n.Some? && 0 < n.value <= MAX_VALUE then n else None
  }

  function Val(out: map<string, int>, key: string): int { if key in out then out[key] else 0 }

  predicate EndsWith(s: string, end: string) { |s| >= |end| && s[|s| - |end|..] == end }

  /** The cross-field rules. */
  predicate Rules(sc: Schema, out: map<string, int>) {
    && Val(out, "session.app_idle_timeout") <= Val(out, "session.sso_absolute_ttl")
    && Val(out, "session.validation.lease_ttl") <= Val(out, "session.app_idle_timeout")
    && Val(out, "session.management.operation_authorization_ttl") <= Val(out, "session.sso_absolute_ttl")
    && Val(out, "oidc.authorization_code_ttl") <= Val(out, "session.sso_absolute_ttl")
    && Val(out, "oidc.authorization_code_ttl") <= Val(out, "oidc.login.transaction_ttl")
    && Val(out, "oidc.access_token.ttl") <= Val(out, "session.sso_absolute_ttl")
    && Val(out, "oidc.id_token_ttl") <= Val(out, "session.sso_absolute_ttl")
    && Val(out, "vault.unlock_idle_timeout") <= Val(out, "vault.unlock_absolute_ttl")
    && Val(out, "logout_delivery.base_delay") <= Val(out, "logout_delivery.max_delay")
    && Val(out, "logout_delivery.max_delay") <= Val(out, "logout_delivery.retry_deadline")
    && Val(out, "logout_delivery.lease_ttl") <= Val(out, "logout_delivery.retry_deadline")
    && Val(out, "logout_delivery.oldest_pending_alert_age") <= Val(out, "logout_delivery.retry_deadline")
    && Val(out, "jwks_fetch.negative_cache_ttl") <= Val(out, "signing.prepublish_duration")
    && Val(out, "jwks_fetch.unknown_kid_cooldown") <= Val(out, "signing.prepublish_duration")
    && Val(out, "limits.jwt_bytes") <= Val(out, "limits.form_body_bytes")
    && Val(out, "limits.jwt_bytes") <= Val(out, "limits.json_body_bytes")
    && Val(out, "limits.jwks_bytes") <= Val(out, "limits.response_bytes")
    && Val(out, "oidc.backchannel.request_timeout") < Val(out, "logout_delivery.lease_ttl")
    && Val(out, "jwks_fetch.timeout") < Val(out, "oidc.backchannel.request_timeout")
    && Val(out, "signing.prepublish_duration")
       >= Val(out, "signing.jwks_cache_max_age") + Val(out, "oidc.validation.clock_skew")
         + Val(out, "signing.deployment_margin")
    && Val(out, "signing.rotation_interval") > Val(out, "signing.prepublish_duration")
    && Val(out, "limits.jwt_bytes") + 4096 <= Val(out, "limits.header_bytes")
    && Val(out, "limits.jwt_bytes") + 4096 <= Val(out, "limits.form_body_bytes")
    && (Val(out, "rate_limit.window") == 10 || Val(out, "rate_limit.window") == 60)
    && Val(out, "limits.json_depth") <= 64
    && Val(out, "limits.webauthn_depth") <= 64
    && Val(out, "limits.jwks_keys") <= 128
    && (forall k :: k in sc.counts && EndsWith(k, "_bytes") ==> Val(out, k) <= 1_048_576)
  }

  // ---------------------------------------------------------------- validation

  /** The flattened, unit-normalised map of a policy whose values are all acceptable. */
  function Normalised(sc: Schema, values: map<string, Value>): map<string, int> {
    map k | k in sc.Expected() ::
      if k == VERSION then 1 else if k in values && Normal(sc, k, values[k]).Some? then Normal(sc, k, values[k]).value
        else 0
  }

  /** What `validate` accepts: known tables, exactly the expected keys, version 1, acceptable values, and the rules. */
  predicate Accepts(sc: Schema, entries: seq<Entry>) {
    var values := Flatten(entries, "");
    && KnownTables(sc, entries, "")
    && values.Keys == sc.Expected()
    && values[VERSION] == Int(1)
    && (forall k :: k in sc.Limits() ==> Normal(sc, k, values[k]).Some?)
    && Rules(sc, Normalised(sc, values))
  }

  datatype Rejection = UnknownTable | WrongKeys | WrongVersion | BadValue(key: string) | RuleBroken

  /** The loop over the limits in sorted order; it stops at the first unacceptable value. */
  method NormaliseLimits(sc: Schema, values: map<string, Value>) returns (r: Result<map<string, int>, string>)
    requires sc.Limits() <= values.Keys
    ensures r.Success? <==> forall k :: k in sc.Limits() ==> Normal(sc, k, values[k]).Some?
    ensures r.Success? ==> r.value == Normalised(sc, values)
    ensures r.Failure? ==> r.error in sc.Limits() && Normal(sc, r.error, values[r.error]).None?
                           && forall k :: k in sc.Limits() && Normal(sc, k, values[k]).None? ==> Leq(r.error, k)
  {
    hide Normal, SortedKeys, Leq;
    var out: map<string, int> := map[VERSION := 1];
    var keys := SortedKeys(sc.Limits());
    KeysAreSorted(sc.Limits());
    for i := 0 to |keys|
      invariant forall k :: k in out <==> k == VERSION || exists j :: 0 <= j < i && keys[j] == k
      invariant out[VERSION] == 1
      invariant forall j :: 0 <= j < i ==>
                  Normal(sc, keys[j], values[keys[j]]).Some?
                  && out[keys[j]] == Normal(sc, keys[j], values[keys[j]]).value
    {
      var key := keys[i];
      assert key in keys;
      var n := Normal(sc, key, values[key]);
      if n.None? {
        FirstBad(sc, keys, i, values);
        return Failure(key);
      }
      out := out[key := n.value];
    }
    forall k | k in sc.Limits()
      ensures k in out && Normal(sc, k, values[k]).Some? && out[k] == Normal(sc, k, values[k]).value
    {
      assert k in keys;
      var j :| 0 <= j < |keys| && keys[j] == k;
    }
    assert out == Normalised(sc, values);
    return Success(out);
  }

  /** `validate` */
  method Validate(sc: Schema, entries: seq<Entry>) returns (r: Result<map<string, int>, Rejection>)
    ensures r.Success? <==> Accepts(sc, entries)
    ensures r.Success? ==> r.value == Normalised(sc, Flatten(entries, ""))
    ensures r == Failure(UnknownTable) <==> !KnownTables(sc, entries, "")
    ensures r == Failure(WrongKeys) <==> KnownTables(sc, entries, "") && Flatten(entries, "").Keys != sc.Expected()
    ensures r.Failure? && r.error.BadValue? ==>
              && Flatten(entries, "").Keys == sc.Expected() && r.error.key in sc.Limits()
                 && Normal(sc, r.error.key, Flatten(entries, "")[r.error.key]).None?
              && forall k :: k in sc.Limits() && Normal(sc, k, Flatten(entries, "")[k]).None? ==> Leq(r.error.key, k)
  {
    hide Rules, Normal, IsTable, KnownTables, SortedKeys, Leq, Normalised, Flatten;
    var values := FlattenTables(entries, "");
    var known := CheckTables(sc, entries, "");
    if !known { return Failure(UnknownTable); }
    if values.Keys != sc.Expected() { return Failure(WrongKeys); }
    if values[VERSION] != Int(1) { return Failure(WrongVersion); }
    var normal := NormaliseLimits(sc, values);
    if normal.Failure? { return Failure(BadValue(normal.error)); }
    var out := normal.value;
    if !Rules(sc, out) { return Failure(RuleBroken); }
    return Success(out);
  }

  lemma FirstBad(sc: Schema, keys: seq<string>, i: nat, values: map<string, Value>)
    requires keys == SortedKeys(sc.Limits()) && Increasing(keys) && i < |keys| && sc.Limits() <= values.Keys
    requires forall j :: 0 <= j < i ==> Normal(sc, keys[j], values[keys[j]]).Some?
    ensures forall k :: k in sc.Limits() && Normal(sc, k, values[k]).None? ==> Leq(keys[i], k)
  {
    hide Normal, SortedKeys, Leq;
    forall k | k in sc.Limits() && Normal(sc, k, values[k]).None? ensures Leq(keys[i], k) {
      assert k in keys;
      var j :| 0 <= j < |keys| && keys[j] == k;
      SelfLeq(k);
    }
  }

  lemma SelfLeq(k: string)
    ensures Leq(k, k)
  {
    LeqTotal(k, k);
  }

  /** The keys of this repository's policy. */
  function RuntimeDurations(): set<string> {
    {"registration.invitation_ttl", "registration.bootstrap_invitation_ttl", "authentication.ceremony_ttl",
      "session.sso_absolute_ttl",
     "session.app_idle_timeout", "session.validation.lease_ttl", "session.management.operation_authorization_ttl",
     "oidc.authorization_code_ttl", "oidc.id_token_ttl", "oidc.login.transaction_ttl",
       "oidc.client_authentication.assertion_ttl",
     "oidc.access_token.ttl", "oidc.validation.clock_skew", "oidc.backchannel.request_timeout", "oidc_logout.token_ttl",
     "signing.rotation_interval", "signing.prepublish_duration", "signing.jwks_cache_max_age",
       "signing.verification_key_min_retention",
     "signing.deployment_margin", "jwks_fetch.timeout", "jwks_fetch.unknown_kid_cooldown",
       "jwks_fetch.negative_cache_ttl",
     "rate_limit.window", "logout_delivery.base_delay", "logout_delivery.max_delay", "logout_delivery.retry_deadline",
     "logout_delivery.lease_ttl", "logout_delivery.scheduler_interval", "logout_delivery.oldest_pending_alert_age",
     "retention.gc_interval", "retention.gc_grace", "retention.audit_ttl", "retention.delivery_result_ttl",
       "retention.rate_key_ttl",
     "vault.unlock_idle_timeout", "vault.unlock_absolute_ttl"}
  }

  function RuntimeCounts(): set<string> {
    {"authentication.ceremony_max_failures", "jwks_fetch.max_inflight_per_issuer",
      "jwks_fetch.negative_cache_entries_per_issuer",
     "limits.request_target_bytes", "limits.header_bytes", "limits.form_body_bytes", "limits.json_body_bytes",
     "limits.webauthn_body_bytes", "limits.webauthn_depth", "limits.jwt_bytes", "limits.jwks_bytes", "limits.jwks_keys",
     "limits.json_depth", "limits.parameter_count", "limits.state_bytes", "limits.nonce_bytes", "limits.jti_bytes",
       "limits.kid_bytes",
     "limits.client_id_bytes", "limits.redirect_uri_bytes", "limits.scope_bytes", "limits.pending_login_per_browser",
     "limits.active_sso_per_account", "limits.active_client_sessions_per_sso_client", "limits.registered_clients",
     "limits.credentials_per_account", "limits.response_bytes", "rate_limit.discovery_per_ip",
       "rate_limit.authorize_per_browser",
     "rate_limit.authorize_per_ip", "rate_limit.ceremony_start_per_browser", "rate_limit.ceremony_finish_per_browser",
     "rate_limit.token_per_ip", "rate_limit.token_per_authenticated_client", "rate_limit.userinfo_per_ip",
     "rate_limit.session_check_per_authenticated_client", "rate_limit.management_per_account",
     "rate_limit.logout_receive_per_authenticated_issuer", "logout_delivery.max_attempts",
       "logout_delivery.fanout_batch_size",
     "logout_delivery.claim_batch_size", "logout_delivery.max_inflight_per_client",
       "logout_delivery.max_response_bytes",
     "logout_delivery.backlog_alert_count", "retention.gc_batch_size"}
  }

  function RuntimeSchema(): Schema { Schema(RuntimeDurations(), RuntimeCounts()) }
}
