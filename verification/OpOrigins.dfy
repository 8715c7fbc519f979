/** Where the rows of login and issuance come from over whole runs, and how long they are good for. */
module OpOrigins {
  import opened Wrappers
  import opened RuntimePolicy
  import opened OpTables
  import opened OpBatches
  import opened OpGc
  import opened OpMachine
  import opened OpInvariants
  import opened OpSafety
  import opened OpFrames
  import opened OpStepsIssue
  import opened OpDeliveryTheorems
  import opened OpAccountTheorems
  import opened OpIssuanceTheorems
  import opened OpCodeTheorems
  import opened OpWrites
  import opened OpIssueLaw

  // ---------------------------------------------------------------- a committed issue, step by step

  /** A committed consent is one code on the tables it found. */
  lemma ConsentRows(p: Policy, w: World, s: Step)
    requires Enabled(p, w, s) && s.Consent? && Apply(p, w, s) != w
    ensures CodeRows(p, w.db, Apply(p, w, s).db, s.login, s.sso, s.sid, s.code, s.nonce, s.at)
  {
    hide Apply, Enabled, IssueCode, CodeRows;
    StepIs(p, w, s);
    if IssueCode(p, w.db, w.now, s.login, s.browser, s.sso, s.sid, s.code, s.nonce, s.at).Some? {
      IssueRows(p, w.db, w.now, s.login, s.browser, s.sso, s.sid, s.code, s.nonce, s.at);
    }
  }

  /** A committed finish is authentication, then a session, then one code. */
  ghost predicate FinishRows(p: Policy, db: Db, db1: Db, db2: Db, db': Db, s: Step)
    requires s.Finish?
  {
    && AuthenticatesOnly(db, db1) && AuthenticationRows(db, db1, s.ceremony, s.credential)
    && SessionRows(p, db1, db2, Owner(db, s.ceremony, s.credential), s.credential, s.sso, s.secret, s.at)
    && IssuesOnly(db2, db') && CodeRows(p, db2, db', s.login, s.sso, s.sid, s.code, s.nonce, s.at)
  }

  lemma FinishLeaves(p: Policy, w: World, s: Step)
    requires Enabled(p, w, s) && s.Finish? && Apply(p, w, s) != w
    ensures exists db1: Db, db2: Db :: FinishRows(p, w.db, db1, db2, Apply(p, w, s).db, s)
  {
    hide Apply, Enabled, AuthenticateWrites, CreateSession, IssueCode, AuthenticatesOnly, IssuesOnly, Registered,
      AuthenticationRows, SessionRows, CodeRows, Owner;
    StepIs(p, w, s);
    var writes := AuthenticateWrites(p, w.db, w.now, s.login, s.browser, s.ceremony, s.credential, s.readEpoch);
    WritesTouch(p, w.db, w.now, s.login, s.browser, s.ceremony, s.credential, s.readEpoch);
    AuthenticateRows(p, w.db, w.now, s.login, s.browser, s.ceremony, s.credential, s.readEpoch);
    var (db1, account) := writes.value;
    var created := CreateSession(p, db1, w.now, account, s.credential, s.sso, s.secret, s.at);
    CreateRows(p, db1, w.now, account, s.credential, s.sso, s.secret, s.at);
    IssueTouches(p, World(w.now, created.value, w.h), s.login, s.browser, s.sso, s.sid, s.code, s.nonce, s.at);
    IssueRows(p, created.value, w.now, s.login, s.browser, s.sso, s.sid, s.code, s.nonce, s.at);
    assert FinishRows(p, w.db, db1, created.value, Apply(p, w, s).db, s);
  }

  // ---------------------------------------------------------------- codes

  /** The row of a code that step s has just issued: it expires code_ttl after the issuing reading, or with its session
      if that is earlier, and it is for one client session of that session. */
  ghost predicate IssuedBy(p: Policy, s: Step, db': Db, code: Id)
    requires code in db'.codes
  {
    && Issues(s) && s.code == code && s.sso in db'.sessions
    && Earlier(db'.codes[code].expiresAt, s.at + p.codeTtl, db'.sessions[s.sso].expiresAt)
    && db'.codes[code].consumedBy.None?
    && db'.codes[code].key == Key(CLIENT, s.sid) && Key(CLIENT, s.sid) in db'.clientSessions
    && db'.clientSessions[Key(CLIENT, s.sid)].sso == s.sso
    && code in db'.codeContexts && db'.codeContexts[code] == s.nonce
  }

  /** Codes come only from issuing steps, and a stored code changes only by being exchanged. */
  ghost predicate CodesMove(p: Policy, s: Step, db: Db, db': Db) {
    forall c :: c in db'.codes ==>
      if c in db.codes then
        db'.codes[c] == db.codes[c]
        || (s.Exchange? && s.code == c && db.codes[c].consumedBy.None?
            && db'.codes[c] == Code(db.codes[c].key, db.codes[c].revision, db.codes[c].expiresAt, Some(s.operation)))
      else IssuedBy(p, s, db', c)
  }

  lemma SameCodesMove(p: Policy, s: Step, db: Db, db': Db)
    requires db'.codes == db.codes
    ensures CodesMove(p, s, db, db')
  {
  }

  lemma ConsentCodesMove(p: Policy, s: Step, db: Db, db': Db)
    requires Issues(s) && CodeRows(p, db, db', s.login, s.sso, s.sid, s.code, s.nonce, s.at)
    ensures CodesMove(p, s, db, db')
  {
  }

  lemma FinishCodesMove(p: Policy, s: Step, db: Db, db1: Db, db2: Db, db': Db)
    requires s.Finish? && FinishRows(p, db, db1, db2, db', s)
    ensures CodesMove(p, s, db, db')
  {
    hide AuthenticationRows, CodesMove, CodeRows;
    assert db2.codes == db.codes;
    ConsentCodesMove(p, s, db2, db');
    FromSameCodes(p, s, db, db2, db');
  }

  lemma FromSameCodes(p: Policy, s: Step, db: Db, db2: Db, db': Db)
    requires db2.codes == db.codes && CodesMove(p, s, db2, db')
    ensures CodesMove(p, s, db, db')
  {
    hide IssuedBy;
  }

  lemma ExchangeCodesMove(p: Policy, w: World, s: Step)
    requires Enabled(p, w, s) && s.Exchange?
    ensures CodesMove(p, s, w.db, Apply(p, w, s).db)
    ensures Apply(p, w, s) != w ==>
              TokenRows(p, w.db, Apply(p, w, s).db, s.code, s.operation, s.access, s.at)
              && s.code in w.db.codes && w.now < w.db.codes[s.code].expiresAt && w.db.codes[s.code].consumedBy.None?
              && w.now < s.at + p.accessTtl && Eligible(w.db, w.db.codes[s.code].key, w.now)
  {
    hide Apply, Enabled, ExchangeBatch, Eligible, IssuedBy, RetainedLonger;
    StepIs(p, w, s);
    ExchangeCommits(p, w.db, w.now, s.code, s.operation, s.access, s.keysActive, s.at);
    if ExchangeBatch(p, w.db, w.now, s.code, s.operation, s.access, s.keysActive, s.at).Some? {
      ExchangeRows(p, w.db, w.now, s.code, s.operation, s.access, s.keysActive, s.at);
    }
  }

  lemma CollectCodesMove(p: Policy, w: World, s: Step)
    requires Enabled(p, w, s) && s.Collect?
    ensures CodesMove(p, s, w.db, Apply(p, w, s).db)
  {
    hide Apply, Enabled, Ids, Keys, DoomedRows;
    CollectStep(p, w, s);
  }

  /** What one step of the provider does to the codes. */
  lemma CodeStep(p: Policy, w: World, s: Step)
    requires Enabled(p, w, s)
    ensures CodesMove(p, s, w.db, Apply(p, w, s).db)
  {
    hide Apply, Enabled, CodesMove, CodeRows, FinishRows, OnlyWritten, TokenRows, Eligible;
    if Apply(p, w, s) == w {
      SameCodesMove(p, s, w.db, Apply(p, w, s).db);
    } else if s.Consent? {
      ConsentRows(p, w, s);
      ConsentCodesMove(p, s, w.db, Apply(p, w, s).db);
    } else if s.Finish? {
      FinishLeaves(p, w, s);
      var db1: Db, db2: Db :| FinishRows(p, w.db, db1, db2, Apply(p, w, s).db, s);
      FinishCodesMove(p, s, w.db, db1, db2, Apply(p, w, s).db);
    } else if s.Exchange? {
      ExchangeCodesMove(p, w, s);
    } else if s.Collect? {
      CollectCodesMove(p, w, s);
    } else {
      CodesUntouched(p, w, s);
      SameCodesMove(p, s, w.db, Apply(p, w, s).db);
    }
  }

  lemma CodesUntouched(p: Policy, w: World, s: Step)
    requires Enabled(p, w, s) && !Writes(s, Codes)
    ensures Apply(p, w, s).db.codes == w.db.codes
  {
    hide Apply, Enabled;
    Untouched(p, w, s);
  }

  /** A code as step i issued it. */
  ghost predicate SameCode(c: Code, c': Code) {
    c'.key == c.key && c'.revision == c.revision && c'.expiresAt == c.expiresAt
  }

  /** While it is stored, a code keeps its client session, client revision and expiry; identifiers are not reused. */
  lemma {:induction false} CodeKept(p: Policy, states: seq<World>, steps: seq<Step>, i: nat, j: nat, code: Id)
    requires IsRun(p, states, steps) && Initial(states[0]) && i <= j < |states|
    requires code in states[i].db.codes && code in states[j].db.codes
    ensures SameCode(states[i].db.codes[code], states[j].db.codes[code])
  {
    hide IsRun, Initial, Apply, Enabled, IssuedBy, CodesAge;
    if i < j {
      OneStep(p, states, steps, j - 1);
      CodesUsedAlways(p, states, steps, i);
      UsedGrowsOver(p, states, steps, i, j - 1);
      StoredBefore(p, states[j - 1], steps[j - 1], code);
      CodeKept(p, states, steps, i, j - 1, code);
      CodeStep(p, states[j - 1], steps[j - 1]);
    }
  }

  lemma {:induction false} UsedGrowsOver(p: Policy, states: seq<World>, steps: seq<Step>, i: nat, j: nat)
    requires IsRun(p, states, steps) && i <= j < |states|
    ensures states[i].h.used <= states[j].h.used
  {
    hide IsRun, Apply, Enabled;
    if i < j {
      UsedGrowsOver(p, states, steps, i, j - 1);
      OneStep(p, states, steps, j - 1);
      CodesStep(p, states[j - 1], steps[j - 1]);
    }
  }

  lemma StoredBefore(p: Policy, w: World, s: Step, code: Id)
    requires Enabled(p, w, s) && code in w.h.used && code in Apply(p, w, s).db.codes
    ensures code in w.db.codes
  {
    hide Apply, Enabled;
    CodesStep(p, w, s);
  }

  /** Section 4.1.2 of RFC 6749. A code first stored by step i was issued by that step, for the client session it names,
      and expires code_ttl after the issuing reading, or with its session if that is earlier. */
  lemma CodeIssuedFor(p: Policy, states: seq<World>, steps: seq<Step>, i: nat, code: Id)
    requires IsRun(p, states, steps) && i < |steps| && |states| == |steps| + 1
    requires code !in states[i].db.codes && code in states[i + 1].db.codes
    ensures IssuedBy(p, steps[i], states[i + 1].db, code)
  {
    hide IsRun, Apply, Enabled, IssuedBy;
    OneStep(p, states, steps, i);
    CodeStep(p, states[i], steps[i]);
  }

  /** A committed exchange of that code comes before both bounds, and its token is for that client session and ends
      access_ttl after the exchanging reading, or with the session. */
  lemma CodeRedeemedInTime(p: Policy, states: seq<World>, steps: seq<Step>, i: nat, j: nat, code: Id)
    requires IsRun(p, states, steps) && Initial(states[0]) && i < j < |steps| && |states| == |steps| + 1
    requires code !in states[i].db.codes && code in states[i + 1].db.codes
    requires steps[j].Exchange? && steps[j].code == code && states[j + 1] != states[j]
    ensures Issues(steps[i]) && steps[i].sso in states[i + 1].db.sessions
    ensures states[j].now < steps[i].at + p.codeTtl
    ensures states[j].now < states[i + 1].db.sessions[steps[i].sso].expiresAt
    ensures code in states[j + 1].db.codes && states[j + 1].db.codes[code].key == Key(CLIENT, steps[i].sid)
            && states[j + 1].db.codes[code].consumedBy == Some(steps[j].operation)
    ensures code in states[j + 1].db.tokens && states[j + 1].db.tokens[code].access == steps[j].access
            && !states[j + 1].db.tokens[code].revoked
            && states[j].now < states[j + 1].db.tokens[code].expiresAt <= steps[j].at + p.accessTtl
  {
    hide IsRun, Initial, Apply, Enabled, Eligible, CodesMove;
    CodeIssuedFor(p, states, steps, i, code);
    OneStep(p, states, steps, j);
    ExchangeCodesMove(p, states[j], steps[j]);
    CodeKept(p, states, steps, i + 1, j, code);
    EligibleRunning(states[j].db, states[j].db.codes[code].key, states[j].now);
  }
}
