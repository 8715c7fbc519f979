/** The tables of the OpenID provider (local/schema.sql on top of design/sql/oidc-critical-schema.sql)
    and the queries that decide authentication. */
module OpTables {
  import opened Wrappers
  import opened RuntimePolicy

  /** A UUID, a random secret or the hash of one. */
  type Id = int

  /** Primary key (client_id, sid) of a client session, and (client_id, jti) of an accepted assertion. */
  datatype Key = Key(client: Id, sid: Id)

  /** The one registered client of the local profile. */
  const CLIENT: Id := 1

  datatype Account = Account(epoch: nat, active: bool)
  datatype Credential = Credential(account: Id, active: bool)
  datatype Client = Client(revision: nat, active: bool)
  datatype Connection = Connection(version: nat, active: bool)
  datatype Invitation = Invitation(bootstrap: bool, expiresAt: int, usedBy: Option<Id>)
  datatype Login = Login(browser: Id, expiresAt: int, gcAfter: int, consumed: bool)
  datatype Ceremony = Ceremony(login: Id, register: bool, account: Id, invitation: Id, browser: Id,
                               expiresAt: int, gcAfter: int, failures: nat, consumed: bool)
  datatype Session = Session(account: Id, credential: Id, epoch: nat, expiresAt: int, revoked: bool, gcAfter: int)
  datatype Context = Context(secret: Id, authTime: int)
  datatype ClientSession = ClientSession(sso: Id, account: Id, version: nat, revoked: bool)
  datatype Code = Code(key: Key, revision: nat, expiresAt: int, consumedBy: Option<Id>)
  datatype Token = Token(access: Id, expiresAt: int, revoked: bool)
  datatype LogoutTx = LogoutTx(browser: Id, sso: Id, expiresAt: int, gcAfter: int)
  datatype AssertionUse = AssertionUse(retainUntil: int, gcAfter: int)
  datatype Revocation = Revocation(account: Id, through: nat, createdAt: int, deadline: int, gcAfter: int,
                                   expanded: bool)
  datatype Event = Event(sso: Id, createdAt: int, deadline: int, gcAfter: int, expanded: bool, revision: nat)
  datatype DeliveryState = Pending | Leased | Delivered | Failed | Expired
  datatype Delivery = Delivery(event: Id, key: Key, deadline: int, state: DeliveryState, attempts: nat, nextAt: int,
                               lease: Option<Id>, leaseUntil: Option<int>, finishedAt: Option<int>,
                                 gcAfter: Option<int>)
  {
    predicate Terminal() { state.Delivered? || state.Failed? || state.Expired? }

    /** COALESCE(lease_until, 0) */
    function LeaseBound(): int { if leaseUntil.Some? then leaseUntil.value else 0 }
  }
  datatype Audit = Audit(event: Id, revision: nat, oldDeadline: int, newDeadline: int, gcAfter: int)

  datatype Db = Db(
    accounts: map<Id, Account>,
    credentials: map<Id, Credential>,
    clients: map<Id, Client>,
    connections: map<(Id, Id), Connection>,
    roles: set<Id>,
    invitations: map<Id, Invitation>,
    bootstrapClosed: bool,
    logins: map<Id, Login>,
    ceremonies: map<Id, Ceremony>,
    sessions: map<Id, Session>,
    contexts: map<Id, Context>,
    clientSessions: map<Key, ClientSession>,
    codes: map<Id, Code>,
    codeContexts: map<Id, Id>,
    tokens: map<Id, Token>,
    logoutTxs: map<Id, LogoutTx>,
    assertions: map<Key, AssertionUse>,
    rates: map<Id, int>,
    revocations: map<Id, Revocation>,
    events: map<Id, Event>,
    deliveries: map<Id, Delivery>,
    audits: map<Id, Audit>)

  /** The liveness test of `sso()`: it is repeated inside the view eligible_client_session. */
  predicate Live(db: Db, sso: Id, t: int) {
    && sso in db.sessions
    && var s := db.sessions[sso];
    && s.account in db.accounts
    && s.credential in db.credentials
    && db.credentials[s.credential].account == s.account
    && !s.revoked
    && db.accounts[s.account].active
    && db.accounts[s.account].epoch == s.epoch
    && db.credentials[s.credential].active
    && s.expiresAt > t
  }

  /** The view eligible_client_session at time t. */
  predicate Eligible(db: Db, key: Key, t: int) {
    && key in db.clientSessions
    && var cs := db.clientSessions[key];
    && Live(db, cs.sso, t)
    && db.sessions[cs.sso].account == cs.account
    && key.client in db.clients
    && (cs.account, key.client) in db.connections
    && db.clients[key.client].active
    && db.connections[(cs.account, key.client)].active
    && db.connections[(cs.account, key.client)].version == cs.version
    && !cs.revoked
  }

  /** The view valid_client_session at time t: eligible, and a code was exchanged for an unrevoked token. */
  predicate ValidSession(db: Db, key: Key, t: int) {
    && Eligible(db, key, t)
    && exists c :: c in db.codes && c in db.tokens && db.codes[c].key == key && !db.tokens[c].revoked
  }

  /** Rows found by the SSO cookie lookup: session id, session row and authentication time. */
  function SsoLookup(db: Db, secret: Id, t: int): map<Id, (Session, int)> {
    map x | x in db.contexts && x in db.sessions && db.contexts[x].secret == secret && Live(db, x, t)
      :: (db.sessions[x], db.contexts[x].authTime)
  }

  /** The login transaction found by `login()`, and by the transaction guard inside every issuing batch. */
  predicate LoginOpen(db: Db, login: Id, browser: Id, t: int) {
    login in db.logins && db.logins[login].browser == browser && !db.logins[login].consumed
    && db.logins[login].expiresAt > t
  }

  /** Answer of /session/check: None is `active: false`, otherwise expiry and authentication time. */
  function SessionCheck(db: Db, key: Key, t: int): Option<(int, int)> {
    if ValidSession(db, key, t) && db.clientSessions[key].sso in db.contexts then
      Some((db.sessions[db.clientSessions[key].sso].expiresAt, db.contexts[db.clientSessions[key].sso].authTime))
    else
      None
  }

  /** The client sessions for which /userinfo answers a bearer token. */
  function UserInfo(db: Db, access: Id, t: int): set<Key> {
    set c | c in db.tokens && c in db.codes && db.tokens[c].access == access && !db.tokens[c].revoked
            && db.tokens[c].expiresAt > t && ValidSession(db, db.codes[c].key, t) :: db.codes[c].key
  }

  /** The stored ceremony a finish request may still consume. */
  predicate CeremonyOpen(db: Db, p: Policy, ceremony: Id, browser: Id, t: int) {
    ceremony in db.ceremonies && db.ceremonies[ceremony].browser == browser && !db.ceremonies[ceremony].consumed
    && db.ceremonies[ceremony].failures < p.maxFailures && db.ceremonies[ceremony].expiresAt > t
  }

  /** The logout transaction that a confirmed browser logout spends. */
  predicate LogoutOpen(db: Db, csrf: Id, browser: Id, sso: Id, t: int) {
    csrf in db.logoutTxs && db.logoutTxs[csrf].browser == browser && db.logoutTxs[csrf].sso == sso
      && db.logoutTxs[csrf].expiresAt > t
  }

  /** What the token endpoint reads of a code: the code, its session's expiry, the authentication time and the nonce. */
  function CodeRead(db: Db, code: Id, t: int): Option<(Code, int, int, Id)> {
    if code in db.codes && code in db.codeContexts && Eligible(db, db.codes[code].key, t)
       && db.clientSessions[db.codes[code].key].sso in db.contexts then
      var sso := db.clientSessions[db.codes[code].key].sso;
      Some((db.codes[code], db.sessions[sso].expiresAt, db.contexts[sso].authTime, db.codeContexts[code]))
    else
      None
  }

  /** Permanently dead: explicitly revoked, or issued under an epoch the account has left. */
  predicate Dead(s: Session, accounts: map<Id, Account>) {
    s.revoked || (s.account in accounts && s.epoch < accounts[s.account].epoch)
  }
}
