/** Login, issuance and exchange written out row by row: when each batch commits, and which rows it leaves. */
module OpIssueLaw {
  import opened Wrappers
  import opened RuntimePolicy
  import opened OpTables
  import opened OpBatches
  import opened OpGc
  import opened OpMachine
  import opened OpInvariants
  import opened OpSafety
  import opened OpFrames
  import opened OpStepsIssue
  import opened OpAccountTheorems
  import opened OpWrites

  /** `t` is the earlier of two times. */
  ghost predicate Earlier(t: int, a: int, b: int) { t <= a && t <= b && (t == a || t == b) }

  ghost predicate Later(t: int, a: int, b: int) { t >= a && t >= b && (t == a || t == b) }

  // ---------------------------------------------------------------- one code

  /** A code is issued exactly for an unspent, unexpired login of this browser, and a session that is live right now,
      while the client and the connection are active and the session has room for one more client session. */
  lemma IssueCommits(p: Policy, db: Db, now: int, login: Id, browser: Id, sso: Id, sid: Id, code: Id, nonce: Id,
                     at: int)
    ensures IssueCode(p, db, now, login, browser, sso, sid, code, nonce, at).Some? <==>
            && login in db.logins && db.logins[login].browser == browser && !db.logins[login].consumed
            && now < db.logins[login].expiresAt
            && code !in db.codes && Key(CLIENT, sid) !in db.clientSessions
            && Live(db, sso, now) && CLIENT in db.clients && db.clients[CLIENT].active
            && ((db.sessions[sso].account, CLIENT) in db.connections ==>
               db.connections[(db.sessions[sso].account, CLIENT)].active)
            && |ActiveClientSessions(db.clientSessions, sso, CLIENT)| < p.clientSessionCap
  {
    hide OpenClientSession, Live, Eligible, LoginOpen, ActiveClientSessions;
    var key := Key(CLIENT, sid);
    OpenLoginRow(db, login, browser, now);
    LiveStored(db, sso, now);
    if OpenClientSession(p, db, sso, key).Some? { JoinedEligible(p, db, sso, key, now); }
    JoinCommits(p, db, sso, key);
  }

  lemma OpenLoginRow(db: Db, login: Id, browser: Id, now: int)
    ensures LoginOpen(db, login, browser, now) <==>
            login in db.logins && db.logins[login].browser == browser && !db.logins[login].consumed
            && now < db.logins[login].expiresAt
  {
  }

  lemma LiveStored(db: Db, sso: Id, now: int)
    ensures Live(db, sso, now) ==> sso in db.sessions
  {
  }

  /** Connecting commits exactly for a stored session with room and an unused sid. */
  lemma JoinCommits(p: Policy, db: Db, sso: Id, key: Key)
    ensures OpenClientSession(p, db, sso, key).Some? <==>
            sso in db.sessions && key !in db.clientSessions
            && |ActiveClientSessions(db.clientSessions, sso, key.client)| < p.clientSessionCap
  {
    hide ActiveClientSessions;
  }

  /** The fresh client session is eligible exactly if its session is live and client and connection are active. */
  lemma JoinedEligible(p: Policy, db: Db, sso: Id, key: Key, now: int)
    requires OpenClientSession(p, db, sso, key).Some?
    ensures sso in db.sessions
    ensures Eligible(OpenClientSession(p, db, sso, key).value, key, now) <==>
            Live(db, sso, now) && key.client in db.clients && db.clients[key.client].active
            && ((db.sessions[sso].account, key.client) in db.connections ==>
               db.connections[(db.sessions[sso].account, key.client)].active)
  {
    hide ActiveClientSessions;
  }

  /** The rows of an issued code. */
  ghost predicate CodeRows(p: Policy, db: Db, db': Db, login: Id, sso: Id, sid: Id, code: Id, nonce: Id, at: int) {
    var key := Key(CLIENT, sid);
    && login in db.logins && sso in db.sessions && code !in db.codes && key !in db.clientSessions
    && code in db'.codes && db'.codes == db.codes[code := db'.codes[code]]
    && db'.codes[code].key == key && db'.codes[code].consumedBy.None?
    && CLIENT in db.clients && db'.codes[code].revision == db.clients[CLIENT].revision
    && Earlier(db'.codes[code].expiresAt, at + p.codeTtl, db.sessions[sso].expiresAt)
    && db'.codeContexts == db.codeContexts[code := nonce]
    && db'.logins == db.logins[login := Login(db.logins[login].browser, db.logins[login].expiresAt,
                                              db.logins[login].gcAfter, true)]
    && key in db'.clientSessions && db'.clientSessions == db.clientSessions[key := db'.clientSessions[key]]
    && db'.clientSessions[key].sso == sso && db'.clientSessions[key].account == db.sessions[sso].account
    && !db'.clientSessions[key].revoked
    && sso in db'.sessions && db'.sessions == db.sessions[sso := db'.sessions[sso]]
    && RetainedLonger(p, db.sessions[sso], db'.sessions[sso], at)
  }

  /** The session is retained as long as the audit of what just happened asks for. */
  ghost predicate RetainedLonger(p: Policy, s: Session, s': Session, at: int) {
    && s' == Session(s.account, s.credential, s.epoch, s.expiresAt, s.revoked, s'.gcAfter)
    && Later(s'.gcAfter, s.gcAfter, at + p.auditTtl + p.skew + p.grace)
  }

  lemma IssueRows(p: Policy, db: Db, now: int, login: Id, browser: Id, sso: Id, sid: Id, code: Id, nonce: Id, at: int)
    requires IssueCode(p, db, now, login, browser, sso, sid, code, nonce, at).Some?
    ensures CodeRows(p, db, IssueCode(p, db, now, login, browser, sso, sid, code, nonce, at).value, login, sso, sid,
              code, nonce, at)
  {
    hide ActiveClientSessions;
  }

  // ---------------------------------------------------------------- one session

  /** A session is created exactly for an active account that has room for one more. */
  lemma CreateCommits(p: Policy, db: Db, now: int, account: Id, credential: Id, sso: Id, secret: Id, at: int)
    ensures CreateSession(p, db, now, account, credential, sso, secret, at).Some? <==>
            && account in db.accounts && db.accounts[account].active && sso !in db.sessions
            && |ActiveSessions(db.sessions, account, db.accounts[account].epoch, now)| < p.ssoCap
  {
    hide ActiveSessions;
  }

  /** The rows of a new session: it lives for sso_absolute_ttl from the caller's reading. */
  ghost predicate SessionRows(p: Policy, db: Db, db': Db, account: Id, credential: Id, sso: Id, secret: Id, at: int) {
    && account in db.accounts && sso !in db.sessions
    && sso in db'.sessions && db'.sessions == db.sessions[sso := db'.sessions[sso]]
    && db'.sessions[sso] == Session(account, credential, db.accounts[account].epoch, at + p.ssoTtl, false,
                                    db'.sessions[sso].gcAfter)
    && Later(db'.sessions[sso].gcAfter, at + p.ssoTtl + p.skew + p.grace, at + p.auditTtl + p.skew + p.grace)
    && db'.contexts == db.contexts[sso := Context(secret, at)]
    && db' == db.(sessions := db'.sessions, contexts := db'.contexts)
  }

  lemma CreateRows(p: Policy, db: Db, now: int, account: Id, credential: Id, sso: Id, secret: Id, at: int)
    requires CreateSession(p, db, now, account, credential, sso, secret, at).Some?
    ensures SessionRows(p, db, CreateSession(p, db, now, account, credential, sso, secret, at).value, account,
              credential, sso, secret, at)
  {
    hide ActiveSessions;
  }

  // ---------------------------------------------------------------- authentication

  /** The invitation of a registration may still be used: unspent, unexpired, and bootstrap only while it is open. */
  ghost predicate InvitationOpen(db: Db, invitation: Id, now: int) {
    && invitation in db.invitations && db.invitations[invitation].usedBy.None?
    && now < db.invitations[invitation].expiresAt
    && (db.invitations[invitation].bootstrap ==> !db.bootstrapClosed)
  }

  /** Authentication succeeds exactly within an open login and an open ceremony of the same browser, for a new account
      and credential behind an open invitation, or for an active credential of an active account whose epoch is still
      the one that was read. */
  lemma AuthenticateCommits(p: Policy, db: Db, now: int, login: Id, browser: Id, ceremony: Id, credential: Id,
                            readEpoch: nat)
    ensures AuthenticateWrites(p, db, now, login, browser, ceremony, credential, readEpoch).Some? <==>
            && login in db.logins && db.logins[login].browser == browser && !db.logins[login].consumed
            && now < db.logins[login].expiresAt
            && ceremony in db.ceremonies && db.ceremonies[ceremony].browser == browser
            && !db.ceremonies[ceremony].consumed && db.ceremonies[ceremony].failures < p.maxFailures
            && now < db.ceremonies[ceremony].expiresAt
            && if db.ceremonies[ceremony].register then
                 && InvitationOpen(db, db.ceremonies[ceremony].invitation, now)
                 && db.ceremonies[ceremony].account !in db.accounts && credential !in db.credentials
               else
                 && credential in db.credentials && db.credentials[credential].active
                 && db.credentials[credential].account in db.accounts
                 && db.accounts[db.credentials[credential].account].active
                 && db.accounts[db.credentials[credential].account].epoch == readEpoch
  {
  }

  /** The account that authenticated: the new one, or the credential's owner. */
  ghost function Owner(db: Db, ceremony: Id, credential: Id): Id {
    if ceremony in db.ceremonies && db.ceremonies[ceremony].register then db.ceremonies[ceremony].account
    else if credential in db.credentials then db.credentials[credential].account
    else 0
  }

  /** The rows that authentication leaves: the ceremony is spent, and a registration leaves an account with one
      credential behind its invitation. */
  ghost predicate AuthenticationRows(db: Db, db': Db, ceremony: Id, credential: Id) {
    && ceremony in db.ceremonies
    && var c := db.ceremonies[ceremony];
    && db'.ceremonies == db.ceremonies[ceremony := Ceremony(c.login, c.register, c.account, c.invitation, c.browser,
                                                            c.expiresAt, c.gcAfter, c.failures, true)]
    && if c.register then
         && c.invitation in db.invitations
         && var i := db.invitations[c.invitation];
         && db'.invitations == db.invitations[c.invitation := Invitation(i.bootstrap, i.expiresAt, Some(c.account))]
         && db'.bootstrapClosed == (db.bootstrapClosed || i.bootstrap)
         && db'.accounts == db.accounts[c.account := Account(0, true)]
         && db'.credentials == db.credentials[credential := Credential(c.account, true)]
         && db'.roles == if i.bootstrap then db.roles + {c.account} else db.roles
       else
         && db'.invitations == db.invitations && db'.bootstrapClosed == db.bootstrapClosed
         && db'.accounts == db.accounts && db'.credentials == db.credentials && db'.roles == db.roles
  }

  lemma AuthenticateRows(p: Policy, db: Db, now: int, login: Id, browser: Id, ceremony: Id, credential: Id,
                         readEpoch: nat)
    requires AuthenticateWrites(p, db, now, login, browser, ceremony, credential, readEpoch).Some?
    ensures var (db', account) := AuthenticateWrites(p, db, now, login, browser, ceremony, credential, readEpoch).value;
            AuthenticationRows(db, db', ceremony, credential) && account == Owner(db, ceremony, credential)
  {
    var db' := AuthenticateWrites(p, db, now, login, browser, ceremony, credential, readEpoch).value.0;
    if db.ceremonies[ceremony].register {
      RegistrationRows(p, db, now, login, browser, ceremony, credential, readEpoch);
    } else {
      assert db' == db.(ceremonies := db'.ceremonies);
    }
  }

  lemma RegistrationRows(p: Policy, db: Db, now: int, login: Id, browser: Id, ceremony: Id, credential: Id,
                         readEpoch: nat)
    requires AuthenticateWrites(p, db, now, login, browser, ceremony, credential, readEpoch).Some?
    requires ceremony in db.ceremonies && db.ceremonies[ceremony].register
    ensures var (db', account) := AuthenticateWrites(p, db, now, login, browser, ceremony, credential, readEpoch).value;
            AuthenticationRows(db, db', ceremony, credential) && account == db.ceremonies[ceremony].account
  {
    var c := db.ceremonies[ceremony];
    var i := db.invitations[c.invitation];
    var db' := AuthenticateWrites(p, db, now, login, browser, ceremony, credential, readEpoch).value.0;
    assert db'.invitations == db.invitations[c.invitation := i.(usedBy := Some(c.account))];
    assert db'.ceremonies == db.ceremonies[ceremony := c.(consumed := true)];
  }

  // ---------------------------------------------------------------- exchange

  /** A code is exchanged exactly once, by a client with a running key, before it expires, while its client session is
      eligible and the client's registration is the one it was issued under. */
  lemma ExchangeCommits(p: Policy, db: Db, now: int, code: Id, operation: Id, access: Id, keysActive: bool, at: int)
    ensures ExchangeBatch(p, db, now, code, operation, access, keysActive, at).Some? <==>
            && keysActive && code in db.codes && code !in db.tokens
            && db.codes[code].consumedBy.None? && now < db.codes[code].expiresAt
            && Eligible(db, db.codes[code].key, now)
            && db.codes[code].revision == db.clients[db.codes[code].key.client].revision
            && now < at + p.accessTtl
  {
    hide Live;
    if code in db.codes && Eligible(db, db.codes[code].key, now) { EligibleRunning(db, db.codes[code].key, now); }
  }

  lemma EligibleRunning(db: Db, key: Key, now: int)
    requires Eligible(db, key, now)
    ensures db.clientSessions[key].sso in db.sessions && now < db.sessions[db.clientSessions[key].sso].expiresAt
  {
  }

  /** The rows of an exchange: the code is spent, and its token ends with the token lifetime or its session. */
  ghost predicate TokenRows(p: Policy, db: Db, db': Db, code: Id, operation: Id, access: Id, at: int) {
    && code in db.codes && code !in db.tokens && db.codes[code].key in db.clientSessions
    && var c, sso := db.codes[code], db.clientSessions[db.codes[code].key].sso;
    && sso in db.sessions
    && db'.codes == db.codes[code := Code(c.key, c.revision, c.expiresAt, Some(operation))]
    && code in db'.tokens && db'.tokens == db.tokens[code := Token(access, db'.tokens[code].expiresAt, false)]
    && Earlier(db'.tokens[code].expiresAt, at + p.accessTtl, db.sessions[sso].expiresAt)
    && sso in db'.sessions && db'.sessions == db.sessions[sso := db'.sessions[sso]]
    && RetainedLonger(p, db.sessions[sso], db'.sessions[sso], at)
  }

  lemma ExchangeRows(p: Policy, db: Db, now: int, code: Id, operation: Id, access: Id, keysActive: bool, at: int)
    requires ExchangeBatch(p, db, now, code, operation, access, keysActive, at).Some?
    ensures TokenRows(p, db, ExchangeBatch(p, db, now, code, operation, access, keysActive, at).value, code, operation,
              access, at)
  {
    hide Live;
    EligibleRunning(db, db.codes[code].key, now);
  }
}
