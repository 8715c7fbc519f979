/** Logins, ceremonies, sessions, tokens and logout transactions: the step that created a stored row, and the time until
    which the row is good for anything. */
module OpLifetimes {
  import opened Wrappers
  import opened RuntimePolicy
  import opened OpTables
  import opened OpBatches
  import opened OpGc
  import opened OpMachine
  import opened OpInvariants
  import opened OpSafety
  import opened OpFrames
  import opened OpStepsIssue
  import opened OpStepsLogout
  import opened OpDeliveryTheorems
  import opened OpEventTheorems
  import opened OpAccountTheorems
  import opened OpIssuanceTheorems
  import opened OpWrites
  import opened OpIssueLaw
  import opened OpOrigins

  // ---------------------------------------------------------------- login transactions

  ghost predicate LoginBy(p: Policy, s: Step, login: Id, row: Login) {
    && s.BeginLogin? && s.login == login && row.browser == s.browser
    && row.expiresAt == s.at + p.loginTtl && row.gcAfter == s.at + p.loginTtl + p.skew + p.grace
  }

  /** A login is opened by BeginLogin, spent by the step that issues its code, and otherwise left alone. */
  ghost predicate LoginsMove(p: Policy, s: Step, db: Db, db': Db) {
    forall l :: l in db'.logins ==>
      if l in db.logins then
        db'.logins[l] == db.logins[l]
        || (Issues(s) && s.login == l && !db.logins[l].consumed
            && db'.logins[l] == Login(db.logins[l].browser, db.logins[l].expiresAt, db.logins[l].gcAfter, true))
      else LoginBy(p, s, l, db'.logins[l]) && !db'.logins[l].consumed
  }

  lemma LoginsUntouched(p: Policy, w: World, s: Step)
    requires Enabled(p, w, s) && !Writes(s, Logins)
    ensures LoginsMove(p, s, w.db, Apply(p, w, s).db)
  {
    hide Apply, Enabled;
    Untouched(p, w, s);
  }

  lemma LoginFresh(p: Policy, w: World, s: Step)
    requires Inv(p, w) && Enabled(p, w, s) && s.BeginLogin?
    ensures s.login !in w.db.logins
  {
    hide AccountInv, EventInv, RowInv, SentOk, LoginInv, RegistrationsOnce, CodeInv, SessionCap, ClientSessionCap,
      AssertionsKept, ViewInv, NotifiedRevoked, UsedHistory, Apply;
    FreshOne(w, s.login);
  }

  lemma LoginStep(p: Policy, w: World, s: Step)
    requires Inv(p, w) && Enabled(p, w, s)
    ensures LoginsMove(p, s, w.db, Apply(p, w, s).db)
  {
    hide Inv, Apply, Enabled, LoginsMove, FinishRows, CodeRows, AfterBeginLogin, DoomedRows;
    if !Writes(s, Logins) {
      LoginsUntouched(p, w, s);
    } else if s.BeginLogin? {
      LoginFresh(p, w, s);
      StepIs(p, w, s);
      LoginOpened(p, w, s);
    } else if s.Collect? {
      CollectStep(p, w, s);
      LoginsCollected(p, w, s);
    } else if Apply(p, w, s) == w {
      SameLogins(p, s, w.db);
    } else {
      LoginSpent(p, w, s);
    }
  }

  lemma SameLogins(p: Policy, s: Step, db: Db)
    ensures LoginsMove(p, s, db, db)
  {
  }

  lemma LoginOpened(p: Policy, w: World, s: Step)
    requires s.BeginLogin? && s.login !in w.db.logins
    ensures LoginsMove(p, s, w.db, AfterBeginLogin(p, w, s.login, s.browser, s.at).db)
  {
  }

  lemma LoginsCollected(p: Policy, w: World, s: Step)
    requires s.Collect?
    ensures LoginsMove(p, s, w.db, AfterCollect(w, s.table, s.victims).db)
  {
    hide Ids, Keys;
  }

  lemma LoginSpent(p: Policy, w: World, s: Step)
    requires Enabled(p, w, s) && Issues(s) && Apply(p, w, s) != w
    ensures LoginsMove(p, s, w.db, Apply(p, w, s).db)
    ensures s.login in w.db.logins && w.db.logins[s.login].browser == s.browser && !w.db.logins[s.login].consumed
            && w.now < w.db.logins[s.login].expiresAt
  {
    hide Apply, Enabled, AuthenticationRows, SessionRows, CodeRows;
    IssuedInTime(p, w, s);
    if s.Consent? {
      ConsentRows(p, w, s);
      SpentRow(p, w.db, Apply(p, w, s).db, s);
    } else {
      FinishLeaves(p, w, s);
      var db1: Db, db2: Db :| FinishRows(p, w.db, db1, db2, Apply(p, w, s).db, s);
      SessionRowsOnly(p, db1, db2, Owner(w.db, s.ceremony, s.credential), s.credential, s.sso, s.secret, s.at);
      SpentRow(p, db2, Apply(p, w, s).db, s);
    }
  }

  lemma SessionRowsOnly(p: Policy, db: Db, db': Db, account: Id, credential: Id, sso: Id, secret: Id, at: int)
    requires SessionRows(p, db, db', account, credential, sso, secret, at)
    ensures db' == db.(sessions := db'.sessions, contexts := db'.contexts)
  {
  }

  lemma SpentRow(p: Policy, db: Db, db': Db, s: Step)
    requires Issues(s) && CodeRows(p, db, db', s.login, s.sso, s.sid, s.code, s.nonce, s.at)
    ensures s.login in db.logins && db'.logins == db.logins[s.login := Login(db.logins[s.login].browser,
              db.logins[s.login].expiresAt, db.logins[s.login].gcAfter, true)]
  {
  }

  /** A step that issues a code commits only within an open login of its browser. */
  lemma IssuedInTime(p: Policy, w: World, s: Step)
    requires Enabled(p, w, s) && Issues(s) && Apply(p, w, s) != w
    ensures s.login in w.db.logins && w.db.logins[s.login].browser == s.browser && !w.db.logins[s.login].consumed
            && w.now < w.db.logins[s.login].expiresAt
  {
    hide Apply, Enabled, CreateSession, IssueCode, AuthenticateWrites, Live, CeremonyOpen, Registered;
    StepIs(p, w, s);
    if s.Consent? {
      IssueCommits(p, w.db, w.now, s.login, s.browser, s.sso, s.sid, s.code, s.nonce, s.at);
    } else {
      AuthenticateCommits(p, w.db, w.now, s.login, s.browser, s.ceremony, s.credential, s.readEpoch);
    }
  }

  /** Every stored login was opened by a step of the run. */
  lemma {:induction false} LoginOrigin(p: Policy, states: seq<World>, steps: seq<Step>, j: nat, login: Id)
    requires IsRun(p, states, steps) && Initial(states[0]) && j < |states| && |states| == |steps| + 1
    requires login in states[j].db.logins
    ensures exists i :: 0 <= i < j && LoginBy(p, steps[i], login, states[j].db.logins[login])
  {
    hide Inv, IsRun, Apply, Enabled, LoginBy;
    if j > 0 {
      OneStep(p, states, steps, j - 1);
      LoginStepOf(p, states, steps, j - 1);
      if login in states[j - 1].db.logins {
        LoginOrigin(p, states, steps, j - 1, login);
        var i :| 0 <= i < j - 1 && LoginBy(p, steps[i], login, states[j - 1].db.logins[login]);
        SameLoginBy(p, steps[i], login, states[j - 1].db.logins[login], states[j].db.logins[login]);
      }
    }
  }

  lemma LoginStepOf(p: Policy, states: seq<World>, steps: seq<Step>, i: nat)
    requires IsRun(p, states, steps) && Initial(states[0]) && i < |steps| && |states| == |steps| + 1
    ensures LoginsMove(p, steps[i], states[i].db, states[i + 1].db)
  {
    hide Inv, Initial, IsRun, Apply, Enabled, LoginsMove;
    RunStep(p, states, steps, i);
    LoginStep(p, states[i], steps[i]);
  }

  lemma SameLoginBy(p: Policy, s: Step, login: Id, row: Login, row': Login)
    requires LoginBy(p, s, login, row) && row'.browser == row.browser && row'.expiresAt == row.expiresAt
             && row'.gcAfter == row.gcAfter
    ensures LoginBy(p, s, login, row')
  {
  }

  /** A code is only ever issued within transaction_ttl of the opening of its login, by the browser that opened it. */
  lemma LoginEndsInTime(p: Policy, states: seq<World>, steps: seq<Step>, j: nat)
    requires IsRun(p, states, steps) && Initial(states[0]) && j < |steps| && |states| == |steps| + 1
    requires Issues(steps[j]) && states[j + 1] != states[j]
    ensures exists i :: 0 <= i < j && steps[i].BeginLogin? && steps[i].login == steps[j].login
              && steps[i].browser == steps[j].browser && states[j].now < steps[i].at + p.loginTtl
  {
    hide Inv, Initial, IsRun, Apply, Enabled;
    OneStep(p, states, steps, j);
    IssuedInTime(p, states[j], steps[j]);
    LoginOrigin(p, states, steps, j, steps[j].login);
  }

  // ---------------------------------------------------------------- ceremonies

  ghost predicate CeremonyBy(p: Policy, s: Step, id: Id, row: Ceremony) {
    && s.StartCeremony? && s.ceremony == id
    && row.login == s.login && row.register == s.register && row.account == s.account && row.browser == s.browser
    && row.invitation == s.invitation
    && row.expiresAt == s.at + p.ceremonyTtl && row.gcAfter == s.at + p.ceremonyTtl + p.skew + p.grace
  }

  /** What a step may do to a stored ceremony: count a failure while it is open, or spend it. */
  ghost predicate CeremonyMoves(s: Step, id: Id, row: Ceremony, row': Ceremony) {
    || row' == row
    || (s.FailCeremony? && s.ceremony == id && !row.consumed && row' == row.(failures := row.failures + 1))
    || (s.StartCeremony? && s.login == row.login && row' == row.(consumed := true))
    || (s.Finish? && s.ceremony == id && !row.consumed && row' == row.(consumed := true))
  }

  ghost predicate CeremoniesMove(p: Policy, s: Step, db: Db, db': Db) {
    forall c :: c in db'.ceremonies ==>
      || (c in db.ceremonies && CeremonyMoves(s, c, db.ceremonies[c], db'.ceremonies[c]))
      || (CeremonyBy(p, s, c, db'.ceremonies[c]) && db'.ceremonies[c].failures == 0 && !db'.ceremonies[c].consumed)
  }

  lemma CeremoniesUntouched(p: Policy, w: World, s: Step)
    requires Enabled(p, w, s) && !Writes(s, Ceremonies)
    ensures CeremoniesMove(p, s, w.db, Apply(p, w, s).db)
  {
    hide Apply, Enabled;
    Untouched(p, w, s);
  }

  /** A ceremony starts exactly within an open login of its browser; it spends the earlier ones of the login. */
  lemma CeremonyStarts(p: Policy, w: World, s: Step)
    requires s.StartCeremony?
    ensures var w' := AfterStartCeremony(p, w, s.login, s.browser, s.ceremony, s.register, s.account, s.invitation,
              s.at);
            && CeremoniesMove(p, s, w.db, w'.db)
            && if LoginOpen(w.db, s.login, s.browser, w.now) then
                 && s.ceremony in w'.db.ceremonies && CeremonyBy(p, s, s.ceremony, w'.db.ceremonies[s.ceremony])
                 && !w'.db.ceremonies[s.ceremony].consumed
                 && forall c :: c in w.db.ceremonies && c != s.ceremony && w.db.ceremonies[c].login == s.login ==>
                    w'.db.ceremonies[c].consumed
               else w' == w
  {
    hide LoginOpen;
  }

  lemma CeremonyFails(p: Policy, w: World, s: Step)
    requires s.FailCeremony?
    ensures CeremoniesMove(p, s, w.db, AfterFailCeremony(w, s.ceremony).db)
    ensures s.ceremony in w.db.ceremonies && !w.db.ceremonies[s.ceremony].consumed ==>
              s.ceremony in AfterFailCeremony(w, s.ceremony).db.ceremonies
              && AfterFailCeremony(w, s.ceremony).db.ceremonies[s.ceremony].failures
                 == w.db.ceremonies[s.ceremony].failures + 1
  {
  }

  lemma CeremoniesCollected(p: Policy, w: World, s: Step)
    requires s.Collect?
    ensures CeremoniesMove(p, s, w.db, AfterCollect(w, s.table, s.victims).db)
  {
    hide Ids, Keys;
  }

  /** A committed finish spends its ceremony, within the ceremony's time and tries. */
  lemma CeremonySpent(p: Policy, w: World, s: Step)
    requires Enabled(p, w, s) && s.Finish? && Apply(p, w, s) != w
    ensures CeremoniesMove(p, s, w.db, Apply(p, w, s).db)
    ensures s.ceremony in w.db.ceremonies && !w.db.ceremonies[s.ceremony].consumed
            && w.db.ceremonies[s.ceremony].browser == s.browser
            && w.now < w.db.ceremonies[s.ceremony].expiresAt && w.db.ceremonies[s.ceremony].failures < p.maxFailures
  {
    hide Apply, Enabled, SessionRows, CodeRows, CeremonyBy, Owner;
    FinishedInTime(p, w, s);
    FinishLeaves(p, w, s);
    var db1: Db, db2: Db :| FinishRows(p, w.db, db1, db2, Apply(p, w, s).db, s);
    SessionRowsOnly(p, db1, db2, Owner(w.db, s.ceremony, s.credential), s.credential, s.sso, s.secret, s.at);
    SpentCeremony(w.db, db1, s.ceremony, s.credential);
  }

  lemma SpentCeremony(db: Db, db1: Db, ceremony: Id, credential: Id)
    requires AuthenticationRows(db, db1, ceremony, credential)
    ensures ceremony in db.ceremonies
    ensures db1.ceremonies == db.ceremonies[ceremony := db.ceremonies[ceremony].(consumed := true)]
  {
  }

  lemma FinishedInTime(p: Policy, w: World, s: Step)
    requires Enabled(p, w, s) && s.Finish? && Apply(p, w, s) != w
    ensures s.ceremony in w.db.ceremonies && !w.db.ceremonies[s.ceremony].consumed
            && w.db.ceremonies[s.ceremony].browser == s.browser
            && w.now < w.db.ceremonies[s.ceremony].expiresAt && w.db.ceremonies[s.ceremony].failures < p.maxFailures
  {
    hide Apply, Enabled, CreateSession, IssueCode, AuthenticateWrites, Registered;
    StepIs(p, w, s);
    AuthenticateCommits(p, w.db, w.now, s.login, s.browser, s.ceremony, s.credential, s.readEpoch);
  }

  lemma CeremonyStep(p: Policy, w: World, s: Step)
    requires Enabled(p, w, s)
    ensures CeremoniesMove(p, s, w.db, Apply(p, w, s).db)
  {
    hide Apply, Enabled, CeremoniesMove, AfterStartCeremony, AfterFailCeremony, AfterCollect, DoomedRows, LoginOpen;
    if !Writes(s, Ceremonies) {
      CeremoniesUntouched(p, w, s);
    } else if s.Collect? {
      CollectStep(p, w, s);
      CeremoniesCollected(p, w, s);
    } else if s.Finish? {
      if Apply(p, w, s) == w { SameCeremonies(p, s, w.db); } else { CeremonySpent(p, w, s); }
    } else {
      StepIs(p, w, s);
      if s.StartCeremony? { CeremonyStarts(p, w, s); } else { CeremonyFails(p, w, s); }
    }
  }

  lemma SameCeremonies(p: Policy, s: Step, db: Db)
    ensures CeremoniesMove(p, s, db, db)
  {
  }

  /** Every stored ceremony was started by a step of the run. */
  lemma {:induction false} CeremonyOrigin(p: Policy, states: seq<World>, steps: seq<Step>, j: nat, id: Id)
    requires IsRun(p, states, steps) && Initial(states[0]) && j < |states| && |states| == |steps| + 1
    requires id in states[j].db.ceremonies
    ensures exists i :: 0 <= i < j && CeremonyBy(p, steps[i], id, states[j].db.ceremonies[id])
  {
    hide IsRun, Apply, Enabled, CeremonyBy, CeremonyMoves;
    if j > 0 {
      OneStep(p, states, steps, j - 1);
      CeremonyStep(p, states[j - 1], steps[j - 1]);
      if !CeremonyBy(p, steps[j - 1], id, states[j].db.ceremonies[id]) {
        CeremonyOrigin(p, states, steps, j - 1, id);
        var i :| 0 <= i < j - 1 && CeremonyBy(p, steps[i], id, states[j - 1].db.ceremonies[id]);
        SameCeremonyBy(p, steps[i], steps[j - 1], id, states[j - 1].db.ceremonies[id], states[j].db.ceremonies[id]);
      }
    }
  }

  lemma SameCeremonyBy(p: Policy, s: Step, s': Step, id: Id, row: Ceremony, row': Ceremony)
    requires CeremonyBy(p, s, id, row) && CeremonyMoves(s', id, row, row')
    ensures CeremonyBy(p, s, id, row')
  {
  }

  /** Authentication only ever completes within ceremony_ttl of the start of its ceremony, in the browser that started
      it, and after fewer than max_failures failed tries. */
  lemma CeremonyEndsInTime(p: Policy, states: seq<World>, steps: seq<Step>, j: nat)
    requires IsRun(p, states, steps) && Initial(states[0]) && j < |steps| && |states| == |steps| + 1
    requires steps[j].Finish? && states[j + 1] != states[j]
    ensures steps[j].ceremony in states[j].db.ceremonies
            && states[j].db.ceremonies[steps[j].ceremony].failures < p.maxFailures
    ensures exists i :: 0 <= i < j && steps[i].StartCeremony? && steps[i].ceremony == steps[j].ceremony
              && steps[i].browser == steps[j].browser && states[j].now < steps[i].at + p.ceremonyTtl
  {
    hide Initial, IsRun, Apply, Enabled;
    OneStep(p, states, steps, j);
    FinishedInTime(p, states[j], steps[j]);
    CeremonyOrigin(p, states, steps, j, steps[j].ceremony);
  }

  // ---------------------------------------------------------------- SSO sessions

  ghost predicate SessionBy(p: Policy, s: Step, sso: Id, row: Session) {
    && s.Finish? && s.sso == sso && row.credential == s.credential && row.expiresAt == s.at + p.ssoTtl
    && row.gcAfter >= s.at + p.ssoTtl + p.skew + p.grace && row.gcAfter >= s.at + p.auditTtl + p.skew + p.grace
  }

  /** What a step may do to a stored session: revoke it by its logout, or retain it longer for what it has just
      issued. */
  ghost predicate SessionMoves(p: Policy, s: Step, sso: Id, row: Session, row': Session) {
    || row' == row
    || (s.Logout? && s.sso == sso && row' == row.(revoked := true))
    || (Issues(s) && s.sso == sso && RetainedLonger(p, row, row', s.at))
    || (s.Exchange? && RetainedLonger(p, row, row', s.at))
  }

  ghost predicate SessionsMove(p: Policy, s: Step, db: Db, db': Db) {
    forall x :: x in db'.sessions ==>
      if x in db.sessions then SessionMoves(p, s, x, db.sessions[x], db'.sessions[x])
      else SessionBy(p, s, x, db'.sessions[x]) && !db'.sessions[x].revoked
           && (db'.sessions[x].gcAfter == s.at + p.ssoTtl + p.skew + p.grace
               || db'.sessions[x].gcAfter == s.at + p.auditTtl + p.skew + p.grace)
           && x in db'.contexts && db'.contexts[x] == Context(s.secret, s.at)
  }

  lemma SessionsUntouched(p: Policy, w: World, s: Step)
    requires Enabled(p, w, s) && !Writes(s, Sessions)
    ensures SessionsMove(p, s, w.db, Apply(p, w, s).db)
  {
    hide Apply, Enabled;
    Untouched(p, w, s);
  }

  lemma ConsentSessions(p: Policy, s: Step, db: Db, db': Db)
    requires Issues(s) && CodeRows(p, db, db', s.login, s.sso, s.sid, s.code, s.nonce, s.at)
    ensures s.sso in db.sessions && s.sso in db'.sessions && db'.sessions == db.sessions[s.sso := db'.sessions[s.sso]]
            && RetainedLonger(p, db.sessions[s.sso], db'.sessions[s.sso], s.at)
  {
    hide RetainedLonger;
  }

  lemma FinishSessions(p: Policy, s: Step, db: Db, db1: Db, db2: Db, db': Db)
    requires s.Finish? && FinishRows(p, db, db1, db2, db', s)
    ensures SessionsMove(p, s, db, db')
  {
    hide AuthenticationRows, CodeRows, Owner;
    ConsentSessions(p, s, db2, db');
  }

  lemma ExchangeSessions(p: Policy, s: Step, db: Db, db': Db)
    requires s.Exchange? && TokenRows(p, db, db', s.code, s.operation, s.access, s.at)
    ensures SessionsMove(p, s, db, db')
  {
    hide RetainedLonger;
  }

  lemma LogoutSessions(p: Policy, w: World, s: Step)
    requires s.Logout?
    ensures SessionsMove(p, s, w.db, AfterLogout(p, w, s.csrf, s.sso, s.event, s.at).db)
  {
    hide AfterLogout, LogoutEventRow, HasEvent, KeysOfSso, MarkRevoked, AddEvents;
    LogoutShape(p, w, s.csrf, s.sso, s.event, s.at);
  }

  lemma SessionsCollected(p: Policy, w: World, s: Step)
    requires s.Collect?
    ensures SessionsMove(p, s, w.db, AfterCollect(w, s.table, s.victims).db)
  {
    hide Ids, Keys;
  }

  lemma SameSessionRows(p: Policy, s: Step, db: Db)
    ensures SessionsMove(p, s, db, db)
  {
  }

  /** What one step of the provider does to the SSO sessions. */
  lemma SessionStep(p: Policy, w: World, s: Step)
    requires Enabled(p, w, s)
    ensures SessionsMove(p, s, w.db, Apply(p, w, s).db)
  {
    hide Apply, Enabled, SessionsMove, FinishRows, CodeRows, TokenRows, AfterLogout, AfterCollect, DoomedRows,
      CodesMove, Eligible;
    if !Writes(s, Sessions) {
      SessionsUntouched(p, w, s);
    } else if Apply(p, w, s) == w {
      SameSessionRows(p, s, w.db);
    } else if s.Collect? {
      CollectStep(p, w, s);
      SessionsCollected(p, w, s);
    } else if s.Logout? {
      Effects(p, w, s);
      LogoutSessions(p, w, s);
    } else if s.Exchange? {
      ExchangeCodesMove(p, w, s);
      ExchangeSessions(p, s, w.db, Apply(p, w, s).db);
    } else if s.Consent? {
      ConsentRows(p, w, s);
      ConsentSessionsMove(p, s, w.db, Apply(p, w, s).db);
    } else {
      FinishLeaves(p, w, s);
      var db1: Db, db2: Db :| FinishRows(p, w.db, db1, db2, Apply(p, w, s).db, s);
      FinishSessions(p, s, w.db, db1, db2, Apply(p, w, s).db);
    }
  }

  lemma ConsentSessionsMove(p: Policy, s: Step, db: Db, db': Db)
    requires Issues(s) && CodeRows(p, db, db', s.login, s.sso, s.sid, s.code, s.nonce, s.at)
    ensures SessionsMove(p, s, db, db')
  {
    hide CodeRows, RetainedLonger;
    ConsentSessions(p, s, db, db');
  }

  /** Every stored session was created by a finished authentication of the run, expires sso_absolute_ttl after its
      reading, and is retained at least skew and grace beyond that and beyond the audit time. */
  lemma {:induction false} SessionOrigin(p: Policy, states: seq<World>, steps: seq<Step>, j: nat, sso: Id)
    requires IsRun(p, states, steps) && Initial(states[0]) && j < |states| && |states| == |steps| + 1
    requires sso in states[j].db.sessions
    ensures exists i :: 0 <= i < j && SessionBy(p, steps[i], sso, states[j].db.sessions[sso])
  {
    hide IsRun, Apply, Enabled, SessionBy, SessionMoves;
    if j > 0 {
      OneStep(p, states, steps, j - 1);
      SessionStep(p, states[j - 1], steps[j - 1]);
      if sso in states[j - 1].db.sessions {
        SessionOrigin(p, states, steps, j - 1, sso);
        var i :| 0 <= i < j - 1 && SessionBy(p, steps[i], sso, states[j - 1].db.sessions[sso]);
        SameSessionBy(p, steps[i], steps[j - 1], sso, states[j - 1].db.sessions[sso], states[j].db.sessions[sso]);
      }
    }
  }

  lemma SameSessionBy(p: Policy, s: Step, s': Step, sso: Id, row: Session, row': Session)
    requires SessionBy(p, s, sso, row) && SessionMoves(p, s', sso, row, row')
    ensures SessionBy(p, s, sso, row')
  {
  }

  // ---------------------------------------------------------------- authentication contexts

  ghost predicate ContextBy(s: Step, sso: Id, row: Context) {
    s.Finish? && s.sso == sso && row == Context(s.secret, s.at)
  }

  /** A context is written once, with its session. */
  ghost predicate ContextsMove(s: Step, db: Db, db': Db) {
    forall x :: x in db'.contexts ==>
      (x in db.contexts && db'.contexts[x] == db.contexts[x])
      || (ContextBy(s, x, db'.contexts[x]) && x !in db.sessions && x in db'.sessions)
  }

  lemma ContextStep(p: Policy, w: World, s: Step)
    requires Enabled(p, w, s)
    ensures ContextsMove(s, w.db, Apply(p, w, s).db)
  {
    hide Apply, Enabled, AuthenticationRows, CodeRows, FinishRows, AfterCollect, DoomedRows, ContextsMove;
    if !Writes(s, Contexts) {
      ContextsUntouched(p, w, s);
    } else if s.Collect? {
      CollectStep(p, w, s);
      ContextsCollected(w, s);
    } else if Apply(p, w, s) == w {
      SameContexts(s, w.db);
    } else {
      FinishLeaves(p, w, s);
      var db1: Db, db2: Db :| FinishRows(p, w.db, db1, db2, Apply(p, w, s).db, s);
      FinishContexts(p, s, w.db, db1, db2, Apply(p, w, s).db);
    }
  }

  lemma ContextsUntouched(p: Policy, w: World, s: Step)
    requires Enabled(p, w, s) && !Writes(s, Contexts)
    ensures ContextsMove(s, w.db, Apply(p, w, s).db)
  {
    hide Apply, Enabled;
    Untouched(p, w, s);
  }

  lemma ContextsCollected(w: World, s: Step)
    requires s.Collect?
    ensures ContextsMove(s, w.db, AfterCollect(w, s.table, s.victims).db)
  {
    hide Ids, Keys;
  }

  lemma SameContexts(s: Step, db: Db)
    ensures ContextsMove(s, db, db)
  {
  }

  lemma FinishContexts(p: Policy, s: Step, db: Db, db1: Db, db2: Db, db': Db)
    requires s.Finish? && FinishRows(p, db, db1, db2, db', s)
    ensures ContextsMove(s, db, db')
  {
    hide AuthenticationRows, CodeRows, Owner, RetainedLonger;
    ConsentSessions(p, s, db2, db');
  }

  /** The session and the authentication context of every stored context come from one and the same step. */
  lemma {:induction false} ContextOrigin(p: Policy, states: seq<World>, steps: seq<Step>, j: nat, sso: Id)
    requires IsRun(p, states, steps) && Initial(states[0]) && j < |states| && |states| == |steps| + 1
    requires sso in states[j].db.contexts
    ensures sso in states[j].db.sessions
    ensures exists i :: 0 <= i < j && SessionBy(p, steps[i], sso, states[j].db.sessions[sso])
              && ContextBy(steps[i], sso, states[j].db.contexts[sso])
  {
    hide Inv, IsRun, Apply, Enabled, SessionBy, ContextBy, SessionMoves;
    ContextsHaveSessions(p, states, steps, j, sso);
    if j > 0 {
      OneStep(p, states, steps, j - 1);
      SessionStep(p, states[j - 1], steps[j - 1]);
      ContextStep(p, states[j - 1], steps[j - 1]);
      if sso in states[j - 1].db.contexts && states[j].db.contexts[sso] == states[j - 1].db.contexts[sso] {
        ContextOrigin(p, states, steps, j - 1, sso);
        var i :| 0 <= i < j - 1 && SessionBy(p, steps[i], sso, states[j - 1].db.sessions[sso])
          && ContextBy(steps[i], sso, states[j - 1].db.contexts[sso]);
        SameSessionBy(p, steps[i], steps[j - 1], sso, states[j - 1].db.sessions[sso], states[j].db.sessions[sso]);
      } else {
        assert ContextBy(steps[j - 1], sso, states[j].db.contexts[sso]);
        assert SessionBy(p, steps[j - 1], sso, states[j].db.sessions[sso]);
      }
    }
  }

  lemma ContextsHaveSessions(p: Policy, states: seq<World>, steps: seq<Step>, j: nat, sso: Id)
    requires IsRun(p, states, steps) && Initial(states[0]) && j < |states| && sso in states[j].db.contexts
    ensures sso in states[j].db.sessions
  {
    hide Initial, IsRun, EventInv, RowInv, SentOk, LoginInv, RegistrationsOnce, CodeInv, SessionCap, ClientSessionCap,
      AssertionsKept, ViewInv, NotifiedRevoked, UsedHistory, UsedIds;
    RunKeeps(p, states, steps, j);
  }

  /** A cookie is only ever recognised within sso_absolute_ttl of the authentication that set it, and that
      authentication's reading is the time reported as its authentication time. */
  lemma SignedInInTime(p: Policy, states: seq<World>, steps: seq<Step>, j: nat, secret: Id, sso: Id, t: int)
    requires IsRun(p, states, steps) && Initial(states[0]) && j < |states| && |states| == |steps| + 1
    requires sso in SsoLookup(states[j].db, secret, t)
    ensures exists i :: 0 <= i < j && steps[i].Finish? && steps[i].sso == sso && steps[i].secret == secret
              && t < steps[i].at + p.ssoTtl && SsoLookup(states[j].db, secret, t)[sso].1 == steps[i].at
  {
    hide Initial, IsRun, Apply, Enabled;
    ContextOrigin(p, states, steps, j, sso);
  }

  // ---------------------------------------------------------------- access tokens

  /** The row of a token that step s has just issued for a session that ends at `end`. */
  ghost predicate TokenBy(p: Policy, s: Step, code: Id, end: int, row: Token) {
    s.Exchange? && s.code == code && row.access == s.access && Earlier(row.expiresAt, s.at + p.accessTtl, end)
  }

  /** The session that a code was issued in. */
  ghost predicate SessionOfCode(db: Db, code: Id, sso: Id) {
    && code in db.codes && db.codes[code].key in db.clientSessions
    && db.clientSessions[db.codes[code].key].sso == sso && sso in db.sessions
  }

  ghost predicate TokenFor(p: Policy, db: Db, s: Step, code: Id, sso: Id, row: Token) {
    SessionOfCode(db, code, sso) && TokenBy(p, s, code, db.sessions[sso].expiresAt, row)
  }

  /** A token is issued by the exchange of its code, and afterwards only revoked by a replay of it. */
  ghost predicate TokensMove(p: Policy, s: Step, db: Db, db': Db) {
    forall c :: c in db'.tokens ==>
      if c in db.tokens then
        db'.tokens[c] == db.tokens[c]
        || (s.ReplayedCode? && s.code == c && db'.tokens[c] == db.tokens[c].(revoked := true))
      else
        && !db'.tokens[c].revoked
        && exists sso :: TokenFor(p, db, s, c, sso, db'.tokens[c])
  }

  lemma TokensUntouched(p: Policy, w: World, s: Step)
    requires Enabled(p, w, s) && !Writes(s, Tokens)
    ensures TokensMove(p, s, w.db, Apply(p, w, s).db)
  {
    hide Apply, Enabled;
    Untouched(p, w, s);
  }

  lemma TokensCollected(p: Policy, w: World, s: Step)
    requires s.Collect?
    ensures TokensMove(p, s, w.db, AfterCollect(w, s.table, s.victims).db)
  {
    hide Ids, Keys;
  }

  lemma SameTokens(p: Policy, s: Step, db: Db)
    ensures TokensMove(p, s, db, db)
  {
  }

  lemma ExchangeTokens(p: Policy, s: Step, db: Db, db': Db)
    requires s.Exchange? && TokenRows(p, db, db', s.code, s.operation, s.access, s.at)
    ensures TokensMove(p, s, db, db')
  {
    hide RetainedLonger;
    assert TokenFor(p, db, s, s.code, db.clientSessions[db.codes[s.code].key].sso, db'.tokens[s.code]);
  }

  /** Replay of a code always revokes the token that was issued for it. */
  lemma ReplayRevokes(p: Policy, w: World, s: Step)
    requires s.ReplayedCode?
    ensures TokensMove(p, s, w.db, AfterReplay(w, s.code).db)
    ensures s.code in w.db.tokens ==>
              s.code in AfterReplay(w, s.code).db.tokens && AfterReplay(w, s.code).db.tokens[s.code].revoked
  {
  }

  lemma TokenStep(p: Policy, w: World, s: Step)
    requires Enabled(p, w, s)
    ensures TokensMove(p, s, w.db, Apply(p, w, s).db)
  {
    hide Apply, Enabled, TokensMove, TokenRows, AfterReplay, AfterCollect, DoomedRows, CodesMove, Eligible;
    if !Writes(s, Tokens) {
      TokensUntouched(p, w, s);
    } else if s.Collect? {
      CollectStep(p, w, s);
      TokensCollected(p, w, s);
    } else if s.ReplayedCode? {
      StepIs(p, w, s);
      ReplayRevokes(p, w, s);
    } else if Apply(p, w, s) == w {
      SameTokens(p, s, w.db);
    } else {
      ExchangeCodesMove(p, w, s);
      ExchangeTokens(p, s, w.db, Apply(p, w, s).db);
    }
  }

  /** An access token that step i answered with. */
  ghost predicate AnsweredToken(p: Policy, w: World, s: Step, code: Id, row: Token) {
    exists sso :: TokenFor(p, w.db, s, code, sso, row)
  }

  lemma {:induction false} TokenOrigin(p: Policy, states: seq<World>, steps: seq<Step>, j: nat, code: Id)
    requires IsRun(p, states, steps) && Initial(states[0]) && j < |states| && |states| == |steps| + 1
    requires code in states[j].db.tokens
    ensures exists i :: 0 <= i < j && AnsweredToken(p, states[i], steps[i], code, states[j].db.tokens[code])
  {
    hide IsRun, Apply, Enabled, TokenFor;
    if j > 0 {
      OneStep(p, states, steps, j - 1);
      TokenStep(p, states[j - 1], steps[j - 1]);
      if code in states[j - 1].db.tokens {
        TokenOrigin(p, states, steps, j - 1, code);
        var i :| 0 <= i < j - 1 && AnsweredToken(p, states[i], steps[i], code, states[j - 1].db.tokens[code]);
        SameAnswered(p, states[i], steps[i], code, states[j - 1].db.tokens[code], states[j].db.tokens[code]);
      } else {
        assert AnsweredToken(p, states[j - 1], steps[j - 1], code, states[j].db.tokens[code]);
      }
    }
  }

  lemma SameAnswered(p: Policy, w: World, s: Step, code: Id, row: Token, row': Token)
    requires AnsweredToken(p, w, s, code, row) && row'.access == row.access && row'.expiresAt == row.expiresAt
    ensures AnsweredToken(p, w, s, code, row')
  {
    var sso :| TokenFor(p, w.db, s, code, sso, row);
    assert TokenFor(p, w.db, s, code, sso, row');
  }

  /** A bearer token is only ever answered at the user info endpoint within access_ttl of the exchange that returned it,
      before the end of the session it was issued in. */
  lemma TokenEndsInTime(p: Policy, states: seq<World>, steps: seq<Step>, j: nat, access: Id, t: int)
    requires IsRun(p, states, steps) && Initial(states[0]) && j < |states| && |states| == |steps| + 1
    requires UserInfo(states[j].db, access, t) != {}
    ensures exists i, sso ::
              && 0 <= i < j && steps[i].Exchange? && steps[i].access == access
              && SessionOfCode(states[i].db, steps[i].code, sso)
              && t < steps[i].at + p.accessTtl && t < states[i].db.sessions[sso].expiresAt
  {
    hide Initial, IsRun, Apply, Enabled, ValidSession;
    var code := TokenFound(states[j].db, access, t);
    TokenOrigin(p, states, steps, j, code);
    var i :| 0 <= i < j && AnsweredToken(p, states[i], steps[i], code, states[j].db.tokens[code]);
    var sso :| TokenFor(p, states[i].db, steps[i], code, sso, states[j].db.tokens[code]);
    assert SessionOfCode(states[i].db, steps[i].code, sso);
  }

  lemma TokenFound(db: Db, access: Id, t: int) returns (code: Id)
    requires UserInfo(db, access, t) != {}
    ensures code in db.tokens && db.tokens[code].access == access && t < db.tokens[code].expiresAt
  {
    hide ValidSession;
    var key: Key :| key in UserInfo(db, access, t);
    code :| code in db.tokens && code in db.codes && db.tokens[code].access == access && !db.tokens[code].revoked
      && db.tokens[code].expiresAt > t && db.codes[code].key == key;
  }

  // ---------------------------------------------------------------- logout transactions

  ghost predicate LogoutTxBy(p: Policy, s: Step, csrf: Id, row: LogoutTx) {
    s.StartLogout? && s.csrf == csrf
    && row == LogoutTx(s.browser, s.sso, s.at + p.loginTtl, s.at + p.loginTtl + p.skew + p.grace)
  }

  ghost predicate LogoutTxsMove(p: Policy, s: Step, db: Db, db': Db) {
    forall x :: x in db'.logoutTxs ==>
      (x in db.logoutTxs && db'.logoutTxs[x] == db.logoutTxs[x]) || LogoutTxBy(p, s, x, db'.logoutTxs[x])
  }

  lemma LogoutTxsUntouched(p: Policy, w: World, s: Step)
    requires Enabled(p, w, s) && !Writes(s, LogoutTxs)
    ensures LogoutTxsMove(p, s, w.db, Apply(p, w, s).db)
  {
    hide Apply, Enabled;
    Untouched(p, w, s);
  }

  /** A logout transaction starts exactly for a stored session, under an unused token. */
  lemma LogoutStarts(p: Policy, w: World, s: Step)
    requires s.StartLogout?
    ensures var w' := AfterStartLogout(p, w, s.csrf, s.browser, s.sso, s.at);
            && LogoutTxsMove(p, s, w.db, w'.db)
            && if s.csrf !in w.db.logoutTxs && s.sso in w.db.sessions then
                 s.csrf in w'.db.logoutTxs && LogoutTxBy(p, s, s.csrf, w'.db.logoutTxs[s.csrf])
               else w' == w
  {
  }

  lemma LogoutTxsSpent(p: Policy, w: World, s: Step)
    requires s.Logout?
    ensures LogoutTxsMove(p, s, w.db, AfterLogout(p, w, s.csrf, s.sso, s.event, s.at).db)
  {
    hide AfterLogout, LogoutEventRow, HasEvent, KeysOfSso, MarkRevoked, AddEvents, SessionsAge;
    LogoutShape(p, w, s.csrf, s.sso, s.event, s.at);
  }

  lemma LogoutTxsCollected(p: Policy, w: World, s: Step)
    requires s.Collect?
    ensures LogoutTxsMove(p, s, w.db, AfterCollect(w, s.table, s.victims).db)
  {
    hide Ids, Keys;
  }

  lemma LogoutTxStep(p: Policy, w: World, s: Step)
    requires Enabled(p, w, s)
    ensures LogoutTxsMove(p, s, w.db, Apply(p, w, s).db)
  {
    hide Apply, Enabled, LogoutTxsMove, AfterLogout, AfterStartLogout, AfterCollect, DoomedRows, LogoutTxBy;
    if !Writes(s, LogoutTxs) {
      LogoutTxsUntouched(p, w, s);
    } else if s.Collect? {
      CollectStep(p, w, s);
      LogoutTxsCollected(p, w, s);
    } else if s.StartLogout? {
      StepIs(p, w, s);
      LogoutStarts(p, w, s);
    } else {
      Effects(p, w, s);
      LogoutTxsSpent(p, w, s);
    }
  }

  lemma {:induction false} LogoutTxOrigin(p: Policy, states: seq<World>, steps: seq<Step>, j: nat, csrf: Id)
    requires IsRun(p, states, steps) && Initial(states[0]) && j < |states| && |states| == |steps| + 1
    requires csrf in states[j].db.logoutTxs
    ensures exists i :: 0 <= i < j && LogoutTxBy(p, steps[i], csrf, states[j].db.logoutTxs[csrf])
  {
    hide IsRun, Apply, Enabled, LogoutTxBy;
    if j > 0 {
      OneStep(p, states, steps, j - 1);
      LogoutTxStep(p, states[j - 1], steps[j - 1]);
      if !LogoutTxBy(p, steps[j - 1], csrf, states[j].db.logoutTxs[csrf]) {
        LogoutTxOrigin(p, states, steps, j - 1, csrf);
        var i :| 0 <= i < j - 1 && LogoutTxBy(p, steps[i], csrf, states[j - 1].db.logoutTxs[csrf]);
        assert LogoutTxBy(p, steps[i], csrf, states[j].db.logoutTxs[csrf]);
      }
    }
  }

  /** A logout is only ever confirmed within transaction_ttl of the request that started it, for the session that it
      named. */
  lemma LogoutEndsInTime(p: Policy, states: seq<World>, steps: seq<Step>, j: nat)
    requires IsRun(p, states, steps) && Initial(states[0]) && j < |steps| && |states| == |steps| + 1
    requires steps[j].Logout? && states[j + 1] != states[j]
    ensures exists i :: 0 <= i < j && steps[i].StartLogout? && steps[i].csrf == steps[j].csrf
              && steps[i].sso == steps[j].sso && states[j].now < steps[i].at + p.loginTtl
  {
    hide Initial, IsRun, Apply;
    OneStep(p, states, steps, j);
    ConfirmedInTime(p, states[j], steps[j]);
    LogoutTxOrigin(p, states, steps, j, steps[j].csrf);
  }

  lemma ConfirmedInTime(p: Policy, w: World, s: Step)
    requires Enabled(p, w, s) && s.Logout? && Apply(p, w, s) != w
    ensures s.csrf in w.db.logoutTxs && w.now < w.db.logoutTxs[s.csrf].expiresAt
            && w.db.logoutTxs[s.csrf].sso == s.sso
  {
    hide Apply, HasEvent, LogoutEventRow, KeysOfSso, MarkRevoked, AddEvents;
    Effects(p, w, s);
  }

  // ---------------------------------------------------------------- rate windows

  /** A hit keeps its window at least as long as the hit asks for, never shorter than before, and touches no other
      window. */
  lemma RateExactly(p: Policy, w: World, s: Step)
    requires Enabled(p, w, s) && s.Rate?
    ensures var after := Apply(p, w, s).db.rates;
            && s.bucket in after && after == w.db.rates[s.bucket := after[s.bucket]]
            && (if s.bucket in w.db.rates then Later(after[s.bucket], w.db.rates[s.bucket], s.gcAfter)
                else after[s.bucket] == s.gcAfter)
  {
    hide Apply, Enabled;
    StepIs(p, w, s);
  }
}
