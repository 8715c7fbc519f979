/** When a whole sign-in commits: one condition on the tables it finds, over authentication, session and code
    together. */
module OpSignIn {
  import opened Wrappers
  import opened RuntimePolicy
  import opened Sets
  import opened OpTables
  import opened OpBatches
  import opened OpMachine
  import opened OpInvariants
  import opened OpStepsIssue
  import opened OpWrites
  import opened OpIssueLaw

  /** The login and the ceremony of this browser are open. */
  ghost predicate TransactionsOpen(p: Policy, db: Db, now: int, login: Id, browser: Id, ceremony: Id) {
    && login in db.logins && db.logins[login].browser == browser && !db.logins[login].consumed
    && now < db.logins[login].expiresAt
    && ceremony in db.ceremonies && db.ceremonies[ceremony].browser == browser && !db.ceremonies[ceremony].consumed
    && db.ceremonies[ceremony].failures < p.maxFailures && now < db.ceremonies[ceremony].expiresAt
  }

  /** A registration finds its invitation open and its account and credential unused; an authentication finds an active
      credential of an active account, still in the epoch that was read, with room for one more session. */
  ghost predicate OwnerAdmitted(p: Policy, db: Db, now: int, ceremony: Id, credential: Id, readEpoch: nat) {
    && ceremony in db.ceremonies
    && var c := db.ceremonies[ceremony];
    if c.register then
      InvitationOpen(db, c.invitation, now) && c.account !in db.accounts && credential !in db.credentials
    else
      && credential in db.credentials && db.credentials[credential].active
      && var a := db.credentials[credential].account;
      && a in db.accounts && db.accounts[a].active && db.accounts[a].epoch == readEpoch
      && |ActiveSessions(db.sessions, a, readEpoch, now)| < p.ssoCap
  }

  /** The client takes part, identifiers are unused, and the session will not be over before it starts. */
  ghost predicate ClientAdmits(p: Policy, db: Db, s: Step, now: int, account: Id)
    requires s.Finish?
  {
    && CLIENT in db.clients && db.clients[CLIENT].active
    && ((account, CLIENT) in db.connections ==> db.connections[(account, CLIENT)].active)
    && s.sso !in db.sessions && s.code !in db.codes && Key(CLIENT, s.sid) !in db.clientSessions
    && now < s.at + p.ssoTtl
  }

  lemma NobodyActive(p: Policy, db: Db, account: Id, epoch: nat, now: int)
    requires SessionRefs(db.sessions, db.accounts) && account !in db.accounts
    ensures |ActiveSessions(db.sessions, account, epoch, now)| < p.ssoCap
  {
    var sessions := ActiveSessions(db.sessions, account, epoch, now);
    if sessions != {} { var x := Pick(sessions); }
  }

  lemma NobodyJoined(p: Policy, clientSessions: map<Key, ClientSession>, sessions: map<Id, Session>, sso: Id)
    requires ClientSessionRefs(clientSessions, sessions) && sso !in sessions
    ensures |ActiveClientSessions(clientSessions, sso, CLIENT)| < p.clientSessionCap
  {
    assert ActiveClientSessions(clientSessions, sso, CLIENT) == {};
  }

  lemma TableRefs(p: Policy, w: World)
    requires Inv(p, w)
    ensures SessionRefs(w.db.sessions, w.db.accounts) && ClientSessionRefs(w.db.clientSessions, w.db.sessions)
  {
    hide EventInv, RowInv, SentOk, LoginInv, RegistrationsOnce, SessionCap, ClientSessionCap, AssertionsKept, ViewInv,
      NotifiedRevoked, UsedIds, UsedHistory;
  }

  /** After authentication the owner is an active account with room for the session. */
  lemma OwnerReady(p: Policy, w: World, s: Step, db1: Db)
    requires s.Finish? && SessionRefs(w.db.sessions, w.db.accounts)
    requires AuthenticatesOnly(w.db, db1) && AuthenticationRows(w.db, db1, s.ceremony, s.credential)
    requires OwnerAdmitted(p, w.db, w.now, s.ceremony, s.credential, s.readEpoch)
    ensures var a := Owner(w.db, s.ceremony, s.credential);
            && a in db1.accounts && db1.accounts[a].active
            && |ActiveSessions(db1.sessions, a, db1.accounts[a].epoch, w.now)| < p.ssoCap
            && s.credential in db1.credentials && db1.credentials[s.credential] == Credential(a, true)
  {
    hide ActiveSessions;
    var a := Owner(w.db, s.ceremony, s.credential);
    if w.db.ceremonies[s.ceremony].register {
      NobodyActive(p, w.db, a, 0, w.now);
    } else {
      var c := w.db.credentials[s.credential];
      assert c == Credential(c.account, c.active);
    }
  }

  /** With its owner and the client admitted, the new session is live at commit. */
  lemma NewSessionLive(p: Policy, db1: Db, db2: Db, a: Id, s: Step, now: int)
    requires s.Finish? && SessionRows(p, db1, db2, a, s.credential, s.sso, s.secret, s.at)
    requires db1.accounts[a].active && s.credential in db1.credentials
             && db1.credentials[s.credential] == Credential(a, true)
    ensures Live(db2, s.sso, now) <==> now < s.at + p.ssoTtl
  {
    hide Later;
  }

  lemma AdmittedIs(p: Policy, db: Db, now: int, s: Step)
    requires s.Finish?
    ensures AuthenticateWrites(p, db, now, s.login, s.browser, s.ceremony, s.credential, s.readEpoch).Some? <==>
            TransactionsOpen(p, db, now, s.login, s.browser, s.ceremony)
            && (s.ceremony in db.ceremonies && !db.ceremonies[s.ceremony].register ==>
                  s.credential in db.credentials && db.credentials[s.credential].active
                  && db.credentials[s.credential].account in db.accounts
                  && db.accounts[db.credentials[s.credential].account].active
                  && db.accounts[db.credentials[s.credential].account].epoch == s.readEpoch)
            && (s.ceremony in db.ceremonies && db.ceremonies[s.ceremony].register ==>
                  InvitationOpen(db, db.ceremonies[s.ceremony].invitation, now)
                  && db.ceremonies[s.ceremony].account !in db.accounts && s.credential !in db.credentials)
  {
    hide InvitationOpen, AuthenticateWrites;
    AuthenticateCommits(p, db, now, s.login, s.browser, s.ceremony, s.credential, s.readEpoch);
  }

  /** The second and third part of the batch, after authentication has committed. */
  lemma RestCommits(p: Policy, w: World, s: Step, db1: Db)
    requires Inv(p, w) && s.Finish?
    requires AuthenticatesOnly(w.db, db1) && AuthenticationRows(w.db, db1, s.ceremony, s.credential)
    requires TransactionsOpen(p, w.db, w.now, s.login, s.browser, s.ceremony)
    requires OwnerAdmitted(p, w.db, w.now, s.ceremony, s.credential, s.readEpoch)
    ensures var a := Owner(w.db, s.ceremony, s.credential);
            var created := CreateSession(p, db1, w.now, a, s.credential, s.sso, s.secret, s.at);
            ClientAdmits(p, w.db, s, w.now, a) <==>
            created.Some? && IssueCode(p, created.value, w.now, s.login, s.browser, s.sso, s.sid, s.code, s.nonce,
              s.at).Some?
  {
    hide Inv, CreateSession, IssueCode, Live, ActiveSessions, ActiveClientSessions, AuthenticationRows, SessionRows,
      OwnerAdmitted, Owner;
    TableRefs(p, w);
    OwnerReady(p, w, s, db1);
    var a := Owner(w.db, s.ceremony, s.credential);
    CreateCommits(p, db1, w.now, a, s.credential, s.sso, s.secret, s.at);
    var created := CreateSession(p, db1, w.now, a, s.credential, s.sso, s.secret, s.at);
    if created.Some? {
      var db2 := created.value;
      CreateRows(p, db1, w.now, a, s.credential, s.sso, s.secret, s.at);
      NewSessionLive(p, db1, db2, a, s, w.now);
      NewSessionOf(p, db1, db2, a, s);
      NobodyJoined(p, db2.clientSessions, w.db.sessions, s.sso);
      IssueCommits(p, db2, w.now, s.login, s.browser, s.sso, s.sid, s.code, s.nonce, s.at);
    }
  }

  lemma NewSessionOf(p: Policy, db1: Db, db2: Db, a: Id, s: Step)
    requires s.Finish? && SessionRows(p, db1, db2, a, s.credential, s.sso, s.secret, s.at)
    ensures s.sso in db2.sessions && db2.sessions[s.sso].account == a && s.sso !in db1.sessions
    ensures db2 == db1.(sessions := db2.sessions, contexts := db2.contexts)
  {
    hide Later;
  }

  /** Room for one more session is asked of authentications only; a new account has it. */
  lemma RoomAsked(p: Policy, w: World, s: Step, db1: Db)
    requires s.Finish? && SessionRefs(w.db.sessions, w.db.accounts)
    requires AuthenticatesOnly(w.db, db1) && AuthenticationRows(w.db, db1, s.ceremony, s.credential)
    requires AuthenticateWrites(p, w.db, w.now, s.login, s.browser, s.ceremony, s.credential, s.readEpoch).Some?
    requires CreateSession(p, db1, w.now, Owner(w.db, s.ceremony, s.credential), s.credential, s.sso, s.secret,
               s.at).Some?
    ensures OwnerAdmitted(p, w.db, w.now, s.ceremony, s.credential, s.readEpoch)
  {
    hide ActiveSessions, AuthenticateWrites, CreateSession, InvitationOpen;
    AdmittedIs(p, w.db, w.now, s);
    CreateCommits(p, db1, w.now, Owner(w.db, s.ceremony, s.credential), s.credential, s.sso, s.secret, s.at);
  }

  /** A sign-in commits exactly if its login and ceremony are open, its owner is admitted, and the client admits the
      session; otherwise none of its writes happens. */
  lemma SignsInExactly(p: Policy, w: World, s: Step)
    requires Inv(p, w) && Enabled(p, w, s) && s.Finish?
    ensures Apply(p, w, s) != w <==>
            && TransactionsOpen(p, w.db, w.now, s.login, s.browser, s.ceremony)
            && OwnerAdmitted(p, w.db, w.now, s.ceremony, s.credential, s.readEpoch)
            && ClientAdmits(p, w.db, s, w.now, Owner(w.db, s.ceremony, s.credential))
  {
    hide Inv, Apply, Enabled, AuthenticateWrites, CreateSession, IssueCode, AuthenticatesOnly, AuthenticationRows,
      OwnerAdmitted, ClientAdmits, Owner, TransactionsOpen, InvitationOpen, AfterFinish;
    StepIs(p, w, s);
    TableRefs(p, w);
    AdmittedIs(p, w.db, w.now, s);
    AdmittedWrites(p, w.db, w.now, s);
    var writes := AuthenticateWrites(p, w.db, w.now, s.login, s.browser, s.ceremony, s.credential, s.readEpoch);
    if writes.Some? {
      var (db1, a) := writes.value;
      WritesTouch(p, w.db, w.now, s.login, s.browser, s.ceremony, s.credential, s.readEpoch);
      AuthenticateRows(p, w.db, w.now, s.login, s.browser, s.ceremony, s.credential, s.readEpoch);
      var created := CreateSession(p, db1, w.now, a, s.credential, s.sso, s.secret, s.at);
      if created.Some? { RoomAsked(p, w, s, db1); }
      if OwnerAdmitted(p, w.db, w.now, s.ceremony, s.credential, s.readEpoch) { RestCommits(p, w, s, db1); }
    }
    FinishParts(p, w, s);
  }

  lemma AdmittedWrites(p: Policy, db: Db, now: int, s: Step)
    requires s.Finish?
    ensures TransactionsOpen(p, db, now, s.login, s.browser, s.ceremony)
            && OwnerAdmitted(p, db, now, s.ceremony, s.credential, s.readEpoch) ==>
              AuthenticateWrites(p, db, now, s.login, s.browser, s.ceremony, s.credential, s.readEpoch).Some?
  {
    hide AuthenticateWrites, InvitationOpen;
    AdmittedIs(p, db, now, s);
  }

  /** The batch changes the world exactly if its three parts commit. */
  lemma FinishParts(p: Policy, w: World, s: Step)
    requires s.Finish?
    ensures AfterFinish(p, w, s.login, s.browser, s.ceremony, s.credential, s.readEpoch, s.sso, s.secret, s.sid, s.code,
              s.nonce, s.at) != w <==>
            var writes := AuthenticateWrites(p, w.db, w.now, s.login, s.browser, s.ceremony, s.credential, s.readEpoch);
            writes.Some?
            && var created := CreateSession(p, writes.value.0, w.now, writes.value.1, s.credential, s.sso, s.secret,
                 s.at);
            created.Some? && IssueCode(p, created.value, w.now, s.login, s.browser, s.sso, s.sid, s.code, s.nonce,
              s.at).Some?
  {
    hide AuthenticateWrites, CreateSession, IssueCode, Registered;
    var writes := AuthenticateWrites(p, w.db, w.now, s.login, s.browser, s.ceremony, s.credential, s.readEpoch);
    if writes.Some? {
      var (db1, a) := writes.value;
      var created := CreateSession(p, db1, w.now, a, s.credential, s.sso, s.secret, s.at);
      if created.Some? && IssueCode(p, created.value, w.now, s.login, s.browser, s.sso, s.sid, s.code, s.nonce,
           s.at).Some? {
        NewCode(p, w, created.value, s);
        WritesTouch(p, w.db, w.now, s.login, s.browser, s.ceremony, s.credential, s.readEpoch);
        CreateTouches(p, db1, w.now, a, s.credential, s.sso, s.secret, s.at);
      }
    }
  }

  lemma NewCode(p: Policy, w: World, db2: Db, s: Step)
    requires s.Finish?
    requires IssueCode(p, db2, w.now, s.login, s.browser, s.sso, s.sid, s.code, s.nonce, s.at).Some?
    ensures IssueCode(p, db2, w.now, s.login, s.browser, s.sso, s.sid, s.code, s.nonce, s.at).value.codes != db2.codes
  {
    hide IssueCode, RetainedLonger, Earlier;
    IssueRows(p, db2, w.now, s.login, s.browser, s.sso, s.sid, s.code, s.nonce, s.at);
  }
}
