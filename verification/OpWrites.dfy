/** Which tables of the provider each kind of step may write. */
module OpWrites {
  import opened Wrappers
  import opened RuntimePolicy
  import opened RetryTiming
  import opened OpTables
  import opened OpBatches
  import opened OpGc
  import opened OpMachine
  import opened OpStepsLogout
  import opened OpStepsIssue
  import opened OpFrames
  import opened OpEventTheorems
  import opened OpAccountTheorems
  import opened OpRowLaw

  /** The collected tables. Every other table row is written by exactly these kinds of steps. */
  predicate Writes(s: Step, table: Table) {
    (s.Collect? && s.table == table) ||
    match table
    case Ceremonies => s.StartCeremony? || s.FailCeremony? || s.Finish?
    case Logins => s.BeginLogin? || s.Finish? || s.Consent?
    case LogoutTxs => s.StartLogout? || s.Logout?
    case Assertions => s.Accept?
    case Rates => s.Rate?
    case Revocations => s.RevokeAccount? || s.Expand?
    case Audits => s.Retry?
    case Deliveries => s.Fanout? || s.Claim? || s.Settle? || s.Expire? || s.Retry?
    case Events => s.Logout? || s.Expand? || s.Fanout? || s.Retry?
    case Tokens => s.Exchange? || s.ReplayedCode?
    case CodeContexts => s.Finish? || s.Consent?
    case Codes => s.Finish? || s.Consent? || s.Exchange?
    case ClientSessions => s.Finish? || s.Consent? || s.Logout?
    case Contexts => s.Finish?
    case Sessions => s.Finish? || s.Consent? || s.Exchange? || s.Logout?
  }

  /** Nothing outside the tables that step s writes has changed. */
  ghost predicate OnlyWritten(s: Step, db: Db, db': Db) {
    && (!Writes(s, Ceremonies) ==> db'.ceremonies == db.ceremonies)
    && (!Writes(s, Logins) ==> db'.logins == db.logins)
    && (!Writes(s, LogoutTxs) ==> db'.logoutTxs == db.logoutTxs)
    && (!Writes(s, Assertions) ==> db'.assertions == db.assertions)
    && (!Writes(s, Rates) ==> db'.rates == db.rates)
    && (!Writes(s, Revocations) ==> db'.revocations == db.revocations)
    && (!Writes(s, Audits) ==> db'.audits == db.audits)
    && (!Writes(s, Deliveries) ==> db'.deliveries == db.deliveries)
    && (!Writes(s, Events) ==> db'.events == db.events)
    && (!Writes(s, Tokens) ==> db'.tokens == db.tokens)
    && (!Writes(s, CodeContexts) ==> db'.codeContexts == db.codeContexts)
    && (!Writes(s, Codes) ==> db'.codes == db.codes)
    && (!Writes(s, ClientSessions) ==> db'.clientSessions == db.clientSessions)
    && (!Writes(s, Contexts) ==> db'.contexts == db.contexts)
    && (!Writes(s, Sessions) ==> db'.sessions == db.sessions)
    && (!s.Finish? ==> db'.credentials == db.credentials && db'.invitations == db.invitations
                       && db'.roles == db.roles && db'.bootstrapClosed == db.bootstrapClosed)
    && (!s.Finish? && !s.RevokeAccount? ==> db'.accounts == db.accounts)
    && (!s.Finish? && !s.Consent? ==> db'.connections == db.connections)
    && db'.clients == db.clients
  }

  /** What Apply is for the steps of login, issuance and revocation. */
  lemma StepIs(p: Policy, w: World, s: Step)
    requires Enabled(p, w, s)
    ensures s.Tick? ==> Apply(p, w, s) == w.(now := s.to)
    ensures s.BeginLogin? ==> Apply(p, w, s) == AfterBeginLogin(p, w, s.login, s.browser, s.at)
    ensures s.StartCeremony? ==> Apply(p, w, s) == AfterStartCeremony(p, w, s.login, s.browser, s.ceremony, s.register,
              s.account, s.invitation, s.at)
    ensures s.FailCeremony? ==> Apply(p, w, s) == AfterFailCeremony(w, s.ceremony)
    ensures s.Finish? ==> Apply(p, w, s) == AfterFinish(p, w, s.login, s.browser, s.ceremony, s.credential, s.readEpoch,
              s.sso, s.secret, s.sid, s.code, s.nonce, s.at)
    ensures s.Consent? ==> Apply(p, w, s) == AfterConsent(p, w, s.login, s.browser, s.sso, s.sid, s.code, s.nonce, s.at)
    ensures s.Exchange? ==> Apply(p, w, s) == AfterExchange(p, w, s.code, s.operation, s.access, s.keysActive, s.at)
    ensures s.ReplayedCode? ==> Apply(p, w, s) == AfterReplay(w, s.code)
    ensures s.StartLogout? ==> Apply(p, w, s) == AfterStartLogout(p, w, s.csrf, s.browser, s.sso, s.at)
    ensures s.RevokeAccount? ==> Apply(p, w, s) == AfterRevokeAccount(p, w, s.operation, s.account, s.epoch, s.at)
    ensures s.Rate? ==> Apply(p, w, s) == AfterRate(w, s.bucket, s.gcAfter)
    ensures (s.StartCeremony? || s.BeginLogin? || s.Finish? || s.Consent?) ==> s.at <= w.now
    ensures (s.Exchange? || s.StartLogout? || s.RevokeAccount? || s.Logout?) ==> s.at <= w.now
  {
    hide AfterBeginLogin, AfterStartCeremony, AfterFailCeremony, AfterFinish, AfterConsent, AfterExchange, AfterReplay,
      AfterStartLogout, AfterRevokeAccount, AfterRate, Fresh;
  }

  lemma LoginWrites(p: Policy, w: World, s: Step)
    requires Enabled(p, w, s)
    requires s.Tick? || s.BeginLogin? || s.StartCeremony? || s.FailCeremony? || s.ReplayedCode? || s.Rate?
    ensures OnlyWritten(s, w.db, Apply(p, w, s).db)
  {
    hide Apply, Enabled, LoginOpen;
    StepIs(p, w, s);
  }

  lemma GuardedWrites(p: Policy, w: World, s: Step)
    requires Enabled(p, w, s) && (s.Accept? || s.StartLogout? || s.RevokeAccount?)
    ensures OnlyWritten(s, w.db, Apply(p, w, s).db)
  {
    hide Apply, Enabled, MarkRevoked, KeysOfEpoch;
    StepIs(p, w, s);
    Effects(p, w, s);
  }

  lemma ExchangeTouches(p: Policy, w: World, code: Id, operation: Id, access: Id, keysActive: bool, at: int)
    ensures var db' := AfterExchange(p, w, code, operation, access, keysActive, at).db;
            db' == w.db.(codes := db'.codes, tokens := db'.tokens, sessions := db'.sessions)
  {
    hide ExchangeBatch, SessionsAge;
    if ExchangeBatch(p, w.db, w.now, code, operation, access, keysActive, at).Some? {
      ExchangeShape(p, w.db, w.now, code, operation, access, keysActive, at);
    }
  }

  lemma ExchangeWrites(p: Policy, w: World, s: Step)
    requires Enabled(p, w, s) && s.Exchange?
    ensures OnlyWritten(s, w.db, Apply(p, w, s).db)
  {
    hide Apply, Enabled, AfterExchange;
    StepIs(p, w, s);
    ExchangeTouches(p, w, s.code, s.operation, s.access, s.keysActive, s.at);
  }

  /** Only the issuing tables differ. */
  ghost predicate IssuesOnly(db: Db, db': Db) {
    db' == db.(connections := db'.connections, clientSessions := db'.clientSessions, codes := db'.codes,
               codeContexts := db'.codeContexts, logins := db'.logins, sessions := db'.sessions)
  }

  ghost predicate AuthenticatesOnly(db: Db, db': Db) {
    db' == db.(ceremonies := db'.ceremonies, invitations := db'.invitations, bootstrapClosed := db'.bootstrapClosed,
               accounts := db'.accounts, credentials := db'.credentials, roles := db'.roles)
  }

  lemma IssueTouches(p: Policy, w: World, login: Id, browser: Id, sso: Id, sid: Id, code: Id, nonce: Id, at: int)
    requires IssueCode(p, w.db, w.now, login, browser, sso, sid, code, nonce, at).Some?
    ensures IssuesOnly(w.db, IssueCode(p, w.db, w.now, login, browser, sso, sid, code, nonce, at).value)
  {
    hide IssueCode, SessionsAge;
    IssueShape(p, w, login, browser, sso, sid, code, nonce, at);
  }

  lemma WritesTouch(p: Policy, db: Db, now: int, login: Id, browser: Id, ceremony: Id, credential: Id, readEpoch: nat)
    requires AuthenticateWrites(p, db, now, login, browser, ceremony, credential, readEpoch).Some?
    ensures AuthenticatesOnly(db, AuthenticateWrites(p, db, now, login, browser, ceremony, credential,
              readEpoch).value.0)
  {
    hide AuthenticateWrites;
    WritesShape(p, db, now, login, browser, ceremony, credential, readEpoch);
  }

  lemma CreateTouches(p: Policy, db: Db, now: int, account: Id, credential: Id, sso: Id, secret: Id, at: int)
    requires CreateSession(p, db, now, account, credential, sso, secret, at).Some?
    ensures var db' := CreateSession(p, db, now, account, credential, sso, secret, at).value;
            db' == db.(sessions := db'.sessions, contexts := db'.contexts)
  {
    hide ActiveSessions;
  }

  lemma ConsentTouches(p: Policy, w: World, login: Id, browser: Id, sso: Id, sid: Id, code: Id, nonce: Id, at: int)
    ensures IssuesOnly(w.db, AfterConsent(p, w, login, browser, sso, sid, code, nonce, at).db)
  {
    hide IssueCode;
    if IssueCode(p, w.db, w.now, login, browser, sso, sid, code, nonce, at).Some? {
      IssueTouches(p, w, login, browser, sso, sid, code, nonce, at);
    }
  }

  lemma ConsentWrites(p: Policy, w: World, s: Step)
    requires Enabled(p, w, s) && s.Consent?
    ensures OnlyWritten(s, w.db, Apply(p, w, s).db)
  {
    hide Apply, Enabled, AfterConsent;
    StepIs(p, w, s);
    ConsentTouches(p, w, s.login, s.browser, s.sso, s.sid, s.code, s.nonce, s.at);
  }

  /** Authentication writes, session and code together stay within their tables. */
  lemma FinishTouches(p: Policy, w: World, login: Id, browser: Id, ceremony: Id, credential: Id, readEpoch: nat,
                      sso: Id, secret: Id, sid: Id, code: Id, nonce: Id, at: int)
    ensures var w' := AfterFinish(p, w, login, browser, ceremony, credential, readEpoch, sso, secret, sid, code, nonce,
              at);
            w'.db == w.db || exists db1: Db, db2: Db ::
              AuthenticatesOnly(w.db, db1) && db2 == db1.(sessions := db2.sessions, contexts := db2.contexts)
              && IssuesOnly(db2, w'.db)
  {
    hide AuthenticateWrites, CreateSession, IssueCode, AuthenticatesOnly, IssuesOnly, Registered;
    var writes := AuthenticateWrites(p, w.db, w.now, login, browser, ceremony, credential, readEpoch);
    if writes.Some? {
      WritesTouch(p, w.db, w.now, login, browser, ceremony, credential, readEpoch);
      var created := CreateSession(p, writes.value.0, w.now, writes.value.1, credential, sso, secret, at);
      if created.Some? {
        CreateTouches(p, writes.value.0, w.now, writes.value.1, credential, sso, secret, at);
        if IssueCode(p, created.value, w.now, login, browser, sso, sid, code, nonce, at).Some? {
          IssueTouches(p, World(w.now, created.value, w.h), login, browser, sso, sid, code, nonce, at);
        }
      }
    }
  }

  lemma FinishWrites(p: Policy, w: World, s: Step)
    requires Enabled(p, w, s) && s.Finish?
    ensures OnlyWritten(s, w.db, Apply(p, w, s).db)
  {
    hide Apply, Enabled, AfterFinish;
    StepIs(p, w, s);
    FinishTouches(p, w, s.login, s.browser, s.ceremony, s.credential, s.readEpoch, s.sso, s.secret, s.sid, s.code,
      s.nonce, s.at);
  }

  lemma LogoutTouches(p: Policy, w: World, csrf: Id, sso: Id, event: Id, at: int)
    ensures var db' := AfterLogout(p, w, csrf, sso, event, at).db;
            db' == w.db.(logoutTxs := db'.logoutTxs, events := db'.events, sessions := db'.sessions,
                         clientSessions := db'.clientSessions)
  {
    hide AfterLogout, LogoutEventRow, KeysOfSso, MarkRevoked, AddEvents, HasEvent, SessionsAge, ClientSessionsAge;
    LogoutShape(p, w, csrf, sso, event, at);
  }

  lemma LogoutWrites(p: Policy, w: World, s: Step)
    requires Enabled(p, w, s) && s.Logout?
    ensures OnlyWritten(s, w.db, Apply(p, w, s).db)
  {
    hide Apply, Enabled, AfterLogout;
    Effects(p, w, s);
    LogoutTouches(p, w, s.csrf, s.sso, s.event, s.at);
  }

  lemma ExpandTouches(p: Policy, w: World, chosen: set<Id>)
    requires chosen <= Uncovered(w.db)
    ensures var db' := AfterExpand(p, w, chosen).db;
            db' == w.db.(events := db'.events, revocations := db'.revocations)
  {
    hide Uncovered, ExpandedEventRow, FullyExpanded, AddEvents;
  }

  lemma ExpandWrites(p: Policy, w: World, s: Step)
    requires Enabled(p, w, s) && s.Expand?
    ensures OnlyWritten(s, w.db, Apply(p, w, s).db)
  {
    hide Apply, Enabled, AfterExpand;
    ExpandStep(p, w, s);
    ExpandTouches(p, w, s.chosen);
  }

  lemma FanoutWrites(p: Policy, w: World, s: Step)
    requires Enabled(p, w, s) && s.Fanout?
    ensures OnlyWritten(s, w.db, Apply(p, w, s).db)
  {
    hide Apply, Enabled, FannedOut, NewDelivery, AddRows, LegalFanout;
    FanoutStep(p, w, s);
  }

  lemma SenderWrites(p: Policy, w: World, s: Step)
    requires Enabled(p, w, s) && (s.Claim? || s.Settle? || s.Expire? || s.Retry?)
    ensures OnlyWritten(s, w.db, Apply(p, w, s).db)
  {
    hide Apply, Enabled, IsNextClaim, ClaimRow, TaskOf, SettlesOn, SettleRow, Outcome, ExpireRow, Expires, RetryGuard,
      AuditConflict, RetryRow;
    if s.Claim? {
      ClaimStep(p, w, s);
    } else if s.Expire? {
      ExpiryStep(p, w, s);
    } else {
      Effects(p, w, s);
    }
  }

  lemma CollectWrites(p: Policy, w: World, s: Step)
    requires Enabled(p, w, s) && s.Collect?
    ensures OnlyWritten(s, w.db, Apply(p, w, s).db)
  {
    hide Apply, Enabled, Ids, Keys, DoomedRows;
    CollectStep(p, w, s);
  }

  /** Every step leaves the tables it does not write as they are. */
  lemma Untouched(p: Policy, w: World, s: Step)
    requires Enabled(p, w, s)
    ensures OnlyWritten(s, w.db, Apply(p, w, s).db)
  {
    hide Apply, Enabled, OnlyWritten;
    if s.Accept? || s.StartLogout? || s.RevokeAccount? {
      GuardedWrites(p, w, s);
    } else if s.Exchange? {
      ExchangeWrites(p, w, s);
    } else if s.Consent? {
      ConsentWrites(p, w, s);
    } else if s.Finish? {
      FinishWrites(p, w, s);
    } else if s.Logout? {
      LogoutWrites(p, w, s);
    } else if s.Expand? {
      ExpandWrites(p, w, s);
    } else if s.Fanout? {
      FanoutWrites(p, w, s);
    } else if s.Claim? || s.Settle? || s.Expire? || s.Retry? {
      SenderWrites(p, w, s);
    } else if s.Collect? {
      CollectWrites(p, w, s);
    } else {
      LoginWrites(p, w, s);
    }
  }
}
