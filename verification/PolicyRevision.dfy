/** What an accepted policy guarantees, and what its revision identifies. */
module PolicyRevision {
  import opened Wrappers
  import opened CanonicalJson
  import opened PolicyDesign
  import RP = RuntimePolicy

  // ---------------------------------------------------------------- durations

  lemma {:induction false} DecimalStart(n: nat)
    requires n > 0
    ensures '1' <= Decimal(n)[0] <= '9'
  {
    if n >= 10 { DecimalStart(n / 10); }
  }

  /** Digits without a leading zero are the printed form of their number. */
  lemma {:induction false} DecimalNumber(s: string)
    requires s != [] && AllDigits(s) && '1' <= s[0]
    ensures Number(s) > 0 && Decimal(Number(s)) == s
    decreases |s|
  {
    var n, d := |s| - 1, s[|s| - 1] as int - '0' as int;
    if n == 0 {
      assert s[..0] == [] && Number(s) == d;
      assert DigitChar(d) as int == s[0] as int;
    } else {
      DecimalNumber(s[..n]);
      assert s[..n][0] == s[0];
      assert Number(s) == 10 * Number(s[..n]) + d && Number(s) / 10 == Number(s[..n]) && Number(s) % 10 == d;
      assert DigitChar(d) as int == s[n] as int;
      assert s == s[..n] + [s[n]];
    }
  }

  lemma PrintedDuration(n: nat, u: char)
    requires n > 0 && UnitSeconds(u) > 0
    ensures DurationSeconds(Decimal(n) + [u]) == Some(n * UnitSeconds(u))
  {
    var s := Decimal(n) + [u];
    DecimalStart(n);
    NumberDecimal(n);
    hide Decimal, Number, UnitSeconds;
    assert s[..|s| - 1] == Decimal(n) && s[|s| - 1] == u;
  }

  /** Seconds, minutes, hours and days. */
  const UNITS: map<char, int> := map['s' := 1, 'm' := 60, 'h' := 60 * 60, 'd' := 24 * 60 * 60]

  lemma UnitsAre(u: char)
    ensures if u in UNITS then UnitSeconds(u) == UNITS[u] > 0 else UnitSeconds(u) == 0
  {
  }

  /** This many of this unit. */
  ghost predicate Spelled(s: string, n: nat, u: char, seconds: int) {
    n > 0 && u in UNITS && s == Decimal(n) + [u] && seconds == n * UNITS[u]
  }

  /** A duration text is accepted exactly if it is a positive whole number, as printed, followed by a unit; it means
      that many seconds, minutes, hours or days. */
  lemma DurationsExactly(s: string, seconds: int)
    ensures DurationSeconds(s) == Some(seconds) <==> exists n: nat, u: char :: Spelled(s, n, u, seconds)
  {
    if DurationSeconds(s) == Some(seconds) {
      var d, u := s[..|s| - 1], s[|s| - 1];
      DecimalNumber(d);
      UnitsAre(u);
      assert s == Decimal(Number(d)) + [u];
      assert Spelled(s, Number(d), u, seconds);
    }
    hide Decimal, Number, DurationSeconds, UnitSeconds;
    if exists n: nat, u: char :: Spelled(s, n, u, seconds) {
      var n: nat, u: char :| Spelled(s, n, u, seconds);
      UnitsAre(u);
      PrintedDuration(n, u);
    }
  }

  /** A limit is accepted exactly as a duration text or as a count, as its key asks for, between 1 and 2^31 - 1. */
  lemma ValuesExactly(sc: Schema, key: string, v: Value, n: int)
    ensures Normal(sc, key, v) == Some(n) <==>
            && 1 <= n <= 2147483647
            && if key in sc.durations then v.Text? && exists m: nat, u: char :: Spelled(v.s, m, u, n) else v == Int(n)
  {
    hide DurationSeconds, Spelled;
    if v.Text? {
      DurationsExactly(v.s, n);
    }
  }

  // ---------------------------------------------------------------- the accepted inequalities

  /** The values that the session and logout protocol reads. */
  function PolicyOf(out: map<string, int>): RP.PolicyValues {
    RP.PolicyValues(
      Val(out, "session.sso_absolute_ttl"), Val(out, "session.app_idle_timeout"),
        Val(out, "session.validation.lease_ttl"),
      Val(out, "oidc.authorization_code_ttl"), Val(out, "oidc.id_token_ttl"), Val(out, "oidc.access_token.ttl"),
      Val(out, "oidc.login.transaction_ttl"), Val(out, "authentication.ceremony_ttl"),
        Val(out, "authentication.ceremony_max_failures"),
      Val(out, "oidc.client_authentication.assertion_ttl"), Val(out, "oidc.validation.clock_skew"),
        Val(out, "retention.gc_grace"),
      Val(out, "retention.audit_ttl"), Val(out, "retention.delivery_result_ttl"), Val(out, "retention.rate_key_ttl"),
      Val(out, "retention.gc_batch_size"), Val(out, "logout_delivery.retry_deadline"),
        Val(out, "logout_delivery.base_delay"),
      Val(out, "logout_delivery.max_delay"), Val(out, "logout_delivery.lease_ttl"),
        Val(out, "logout_delivery.max_attempts"),
      Val(out, "logout_delivery.fanout_batch_size"), Val(out, "logout_delivery.claim_batch_size"),
      Val(out, "logout_delivery.max_inflight_per_client"), Val(out, "limits.active_sso_per_account"),
      Val(out, "limits.active_client_sessions_per_sso_client"))
  }

  lemma LimitPositive(sc: Schema, entries: seq<Entry>, key: string)
    requires Accepts(sc, entries) && key in sc.Limits()
    ensures 0 < Val(Normalised(sc, Flatten(entries, "")), key) <= MAX_VALUE
  {
    hide Flatten, Rules, KnownTables;
    var values := Flatten(entries, "");
    assert Normal(sc, key, values[key]).Some?;
  }

  /** The keys behind `PolicyOf`. */
  function ProtocolDurations(): set<string> {
    {"session.sso_absolute_ttl", "session.app_idle_timeout", "session.validation.lease_ttl",
      "oidc.authorization_code_ttl",
     "oidc.id_token_ttl", "oidc.access_token.ttl", "oidc.login.transaction_ttl", "authentication.ceremony_ttl",
     "oidc.client_authentication.assertion_ttl", "oidc.validation.clock_skew", "retention.gc_grace",
       "retention.audit_ttl",
     "retention.delivery_result_ttl", "retention.rate_key_ttl", "logout_delivery.retry_deadline",
       "logout_delivery.base_delay",
     "logout_delivery.max_delay", "logout_delivery.lease_ttl"}
  }

  function ProtocolCounts(): set<string> {
    {"authentication.ceremony_max_failures", "retention.gc_batch_size", "logout_delivery.max_attempts",
     "logout_delivery.fanout_batch_size", "logout_delivery.claim_batch_size", "logout_delivery.max_inflight_per_client",
     "limits.active_sso_per_account", "limits.active_client_sessions_per_sso_client"}
  }

  lemma KnownKeys()
    ensures ProtocolDurations() <= RuntimeDurations() && ProtocolCounts() <= RuntimeCounts()
  {
  }

  lemma NotVersion()
    ensures VERSION !in ProtocolDurations() + ProtocolCounts()
  {
    forall k | k in ProtocolDurations() + ProtocolCounts() ensures |k| != |VERSION| {}
  }

  predicate AllPositive(v: RP.PolicyValues) {
    && v.ssoTtl > 0 && v.idleTimeout > 0 && v.leaseTtl > 0 && v.codeTtl > 0 && v.idTokenTtl > 0 && v.accessTtl > 0
    && v.loginTtl > 0 && v.ceremonyTtl > 0 && v.maxFailures > 0 && v.assertionTtl > 0 && v.skew > 0 && v.grace > 0
    && v.auditTtl > 0 && v.resultTtl > 0 && v.rateKeyTtl > 0 && v.gcBatch > 0 && v.retryDeadline > 0 && v.baseDelay > 0
    && v.maxDelay > 0 && v.deliveryLease > 0 && v.maxAttempts > 0 && v.fanoutBatch > 0 && v.claimBatch > 0
    && v.maxInflight > 0 && v.ssoCap > 0 && v.clientSessionCap > 0
  }

  predicate Ordered(v: RP.PolicyValues) {
    && v.idleTimeout <= v.ssoTtl && v.leaseTtl <= v.idleTimeout && v.codeTtl <= v.ssoTtl && v.accessTtl <= v.ssoTtl
    && v.baseDelay <= v.maxDelay <= v.retryDeadline && v.deliveryLease <= v.retryDeadline
  }

  lemma PositiveValues(out: map<string, int>)
    requires forall k :: k in ProtocolDurations() + ProtocolCounts() ==> Val(out, k) > 0
    ensures AllPositive(PolicyOf(out))
  {
    hide Val;
  }

  lemma OrderedValues(sc: Schema, out: map<string, int>)
    requires Rules(sc, out)
    ensures Ordered(PolicyOf(out))
  {
    hide Val, EndsWith;
  }

  /** With every protocol value positive and the rules kept, the values form a policy. */
  lemma RulesGivePolicy(sc: Schema, out: map<string, int>)
    requires Rules(sc, out) && forall k :: k in ProtocolDurations() + ProtocolCounts() ==> Val(out, k) > 0
    ensures PolicyOf(out).Accepted()
  {
    hide Val, Rules, PolicyOf, ProtocolCounts, ProtocolDurations;
    PositiveValues(out);
    OrderedValues(sc, out);
  }

  /** Whatever `validate` accepts satisfies every inequality that the protocol proofs assume of a policy. */
  lemma AcceptedIsPolicy(entries: seq<Entry>)
    requires Accepts(RuntimeSchema(), entries)
    ensures PolicyOf(Normalised(RuntimeSchema(), Flatten(entries, ""))).Accepted()
  {
    hide Flatten, KnownTables, Rules, Normalised, RuntimeDurations, RuntimeCounts, ProtocolDurations, ProtocolCounts,
      PolicyOf, Normal, Val;
    KnownKeys();
    NotVersion();
    var out := Normalised(RuntimeSchema(), Flatten(entries, ""));
    forall k | k in ProtocolDurations() + ProtocolCounts() ensures Val(out, k) > 0 {
      LimitPositive(RuntimeSchema(), entries, k);
    }
    RulesGivePolicy(RuntimeSchema(), out);
  }

  // ---------------------------------------------------------------- revisions

  function Fields(keys: seq<string>, out: map<string, int>): (r: seq<Entry>)
    ensures |r| == |keys| && forall i :: 0 <= i < |keys| ==> r[i] == Entry(keys[i], Int(Val(out, keys[i])))
  {
    if keys == [] then [] else [Entry(keys[0], Int(Val(out, keys[0])))] + Fields(keys[1..], out)
  }

  /** The object that `validate` returns: the version first, then the limits in sorted order. */
  function OutObject(sc: Schema, out: map<string, int>): Value {
    Record([Entry(VERSION, Int(Val(out, VERSION)))] + Fields(SortedKeys(sc.Limits()), out))
  }

  /** The text whose digest is the revision of an accepted policy. */
  function RevisionText(sc: Schema, entries: seq<Entry>): string {
    Print(OutObject(sc, Normalised(sc, Flatten(entries, ""))))
  }

  lemma ObjectFields(sc: Schema, out: map<string, int>)
    ensures KeySet(OutObject(sc, out).entries) == sc.Expected()
    ensures forall k :: k in KeySet(OutObject(sc, out).entries) ==>
            Get(OutObject(sc, out).entries, k) == Int(Val(out, k))
  {
    hide SortedKeys, Val;
    var keys, entries := SortedKeys(sc.Limits()), OutObject(sc, out).entries;
    forall i | 0 <= i < |entries|
      ensures entries[i].key in sc.Expected() && entries[i].value == Int(Val(out, entries[i].key))
    {
      if i > 0 {
        assert entries[i] == Fields(keys, out)[i - 1];
        assert keys[i - 1] in keys;
      }
    }
    forall k | k in sc.Expected() ensures k in KeySet(entries) {
      if k == VERSION {
        assert entries[0].key == k;
      } else {
        assert k in keys;
        var j :| 0 <= j < |keys| && keys[j] == k;
        assert entries[j + 1] == Fields(keys, out)[j];
      }
    }
  }

  lemma ObjectsSame(sc: Schema, out: map<string, int>, out': map<string, int>)
    requires out.Keys == sc.Expected() && out'.Keys == sc.Expected()
    ensures Same(OutObject(sc, out), OutObject(sc, out')) <==> out == out'
  {
    hide SortedKeys, OutObject, Get, KeySet;
    ObjectFields(sc, out);
    ObjectFields(sc, out');
    ObjectIsRecord(sc, out);
    ObjectIsRecord(sc, out');
    var a, b := OutObject(sc, out).entries, OutObject(sc, out').entries;
    forall k | k in sc.Expected() ensures Same(Get(a, k), Get(b, k)) <==> out[k] == out'[k] {
      assert Get(a, k) == Int(Val(out, k)) && Get(b, k) == Int(Val(out', k));
    }
  }

  lemma ObjectIsRecord(sc: Schema, out: map<string, int>)
    ensures OutObject(sc, out).Record?
  {
  }

  /** Two policies have the same revision text exactly if their flattened, unit-normalised maps are equal. */
  lemma RevisionsExactly(sc: Schema, a: seq<Entry>, b: seq<Entry>)
    ensures RevisionText(sc, a) == RevisionText(sc, b) <==>
              Normalised(sc, Flatten(a, ""))
              == Normalised(sc, Flatten(b, ""))
  {
    hide Flatten, Normal, OutObject;
    var x, y := Normalised(sc, Flatten(a, "")), Normalised(sc, Flatten(b, ""));
    PrintExactly(OutObject(sc, x), OutObject(sc, y));
    ObjectsSame(sc, x, y);
  }

  /** With a digest that does not collide on the two texts, so do their revisions. */
  lemma DigestsExactly(sc: Schema, a: seq<Entry>, b: seq<Entry>, digest: string -> string)
    requires digest(RevisionText(sc, a)) == digest(RevisionText(sc, b)) ==> RevisionText(sc, a) == RevisionText(sc, b)
    ensures digest(RevisionText(sc, a)) == digest(RevisionText(sc, b))
            <==> Normalised(sc, Flatten(a, "")) == Normalised(sc, Flatten(b, ""))
  {
    hide Flatten, Normalised, RevisionText;
    RevisionsExactly(sc, a, b);
  }
}
