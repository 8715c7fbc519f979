/** Login, registration, issuance, exchange and client authentication (local/op.ts) keep the invariant. */
module OpStepsIssue {
  import opened Wrappers
  import opened RuntimePolicy
  import opened RetryTiming
  import opened Sets
  import opened OpTables
  import opened OpBatches
  import opened OpGc
  import opened OpMachine
  import opened OpInvariants
  import opened OpStepsLogout

  // ---------------------------------------------------------------- login transactions and ceremonies

  lemma BeginLoginKeeps(p: Policy, w: World, login: Id, browser: Id, at: int)
    requires Inv(p, w) && login !in w.h.used
    ensures Inv(p, AfterBeginLogin(p, w, login, browser, at))
  {
    hide AccountInv, EventInv, RowInv, SentOk, RegistrationsOnce, CodeInv, SessionCap, ClientSessionCap, AssertionsKept,
      ViewInv, NotifiedRevoked;
  }

  lemma StartCeremonyKeeps(p: Policy, w: World, login: Id, browser: Id, ceremony: Id, register: bool, account: Id,
                           invitation: Id, at: int)
    requires Inv(p, w)
    ensures Inv(p, AfterStartCeremony(p, w, login, browser, ceremony, register, account, invitation, at))
  {
    hide AccountInv, EventInv, RowInv, SentOk, RegistrationsOnce, CodeInv, SessionCap, ClientSessionCap, AssertionsKept,
      ViewInv, NotifiedRevoked;
  }

  lemma FailCeremonyKeeps(p: Policy, w: World, ceremony: Id)
    requires Inv(p, w)
    ensures Inv(p, AfterFailCeremony(w, ceremony))
  {
    hide AccountInv, EventInv, RowInv, SentOk, RegistrationsOnce, CodeInv, SessionCap, ClientSessionCap, AssertionsKept,
      ViewInv, NotifiedRevoked;
  }

  // ---------------------------------------------------------------- finish, part one: authentication writes

  /** A registration spends an unused invitation on an account that did not exist. */
  lemma RegisterOnce(invitations: map<Id, Invitation>, registered: map<Id, set<Id>>, roles: set<Id>, closed: bool,
                     i: Id, account: Id)
    requires RegistrationsOnce(invitations, registered, roles, closed)
    requires i in invitations && invitations[i].usedBy.None? && (invitations[i].bootstrap ==> !closed)
    ensures RegistrationsOnce(invitations[i := invitations[i].(usedBy := Some(account))], AddTo(registered, i, account),
                              if invitations[i].bootstrap then roles + {account} else roles, closed
                                || invitations[i].bootstrap)
  {
    assert i !in registered;
  }

  /** No session belongs to the new account, so every cap and epoch bound is unaffected. */
  lemma NewAccount(p: Policy, db: Db, h: Hist, account: Id, now: int)
    requires AccountInv(p, db.accounts, db.sessions, db.contexts, db.logoutTxs, db.revocations)
             && account !in db.accounts
    requires EventInv(p, db.events, db.sessions, db.accounts) && SessionCap(p, db.sessions, db.accounts, now)
    requires ViewInv(db.clientSessions, db.sessions, db.accounts, h.expiries, h.revokedAt, now)
    ensures var accounts' := db.accounts[account := Account(0, true)];
            && AccountInv(p, accounts', db.sessions, db.contexts, db.logoutTxs, db.revocations)
            && EventInv(p, db.events, db.sessions, accounts') && SessionCap(p, db.sessions, accounts', now)
            && ViewInv(db.clientSessions, db.sessions, accounts', h.expiries, h.revokedAt, now)
  {
    var accounts' := db.accounts[account := Account(0, true)];
    assert forall s :: s in db.sessions ==>
      db.sessions[s].account in db.accounts
      && Dead(db.sessions[s], accounts') == Dead(db.sessions[s], db.accounts);
    forall a, t | a in accounts' && t >= now
      ensures |ActiveSessions(db.sessions, a, accounts'[a].epoch, t)| <= p.ssoCap
    {
      if a == account { assert ActiveSessions(db.sessions, a, accounts'[a].epoch, t) == {}; }
    }
  }

  /** What committed authentication writes did: spend the ceremony, and for a registration spend the invitation
      on a new account. */
  ghost predicate Authenticated(db: Db, db': Db, ceremony: Id) {
    && ceremony in db.ceremonies
    && db' == db.(ceremonies := db'.ceremonies, invitations := db'.invitations, bootstrapClosed := db'.bootstrapClosed,
                  accounts := db'.accounts, credentials := db'.credentials, roles := db'.roles)
    && db'.ceremonies == db.ceremonies[ceremony := db.ceremonies[ceremony].(consumed := true)]
    && var c := db.ceremonies[ceremony];
    if c.register then
      && c.invitation in db.invitations && c.account !in db.accounts
      && var i := db.invitations[c.invitation];
      && i.usedBy.None? && (i.bootstrap ==> !db.bootstrapClosed)
      && db'.invitations == db.invitations[c.invitation := i.(usedBy := Some(c.account))]
      && db'.bootstrapClosed == (db.bootstrapClosed || i.bootstrap)
      && db'.accounts == db.accounts[c.account := Account(0, true)]
      && db'.roles == if i.bootstrap then db.roles + {c.account} else db.roles
    else
      db' == db.(ceremonies := db'.ceremonies)
  }

  lemma WritesShape(p: Policy, db: Db, now: int, login: Id, browser: Id, ceremony: Id, credential: Id, readEpoch: nat)
    requires AuthenticateWrites(p, db, now, login, browser, ceremony, credential, readEpoch).Some?
    ensures Authenticated(db, AuthenticateWrites(p, db, now, login, browser, ceremony, credential, readEpoch).value.0,
            ceremony)
  {
  }

  lemma WritesKeep(p: Policy, w: World, db': Db, ceremony: Id)
    requires Inv(p, w) && Authenticated(w.db, db', ceremony)
    ensures Inv(p, AfterWrites(w, ceremony, db'))
  {
    hide AccountInv, EventInv, RowInv, SentOk, RegistrationsOnce, CodeInv, SessionCap, ClientSessionCap, AssertionsKept,
      ViewInv, NotifiedRevoked, CodesOnce, UsedIds, UsedHistory;
    var c := w.db.ceremonies[ceremony];
    if c.register {
      NewAccount(p, w.db, w.h, c.account, w.now);
      RegisterOnce(w.db.invitations, w.h.registered, w.db.roles, w.db.bootstrapClosed, c.invitation, c.account);
    }
  }

  // ---------------------------------------------------------------- finish, part two: the session

  lemma SessionAdded(p: Policy, db: Db, account: Id, credential: Id, sso: Id, secret: Id, at: int, now: int)
    requires AccountInv(p, db.accounts, db.sessions, db.contexts, db.logoutTxs, db.revocations)
    requires CreateSession(p, db, now, account, credential, sso, secret, at).Some?
    ensures var db' := CreateSession(p, db, now, account, credential, sso, secret, at).value;
            AccountInv(p, db'.accounts, db'.sessions, db'.contexts, db'.logoutTxs, db'.revocations)
  {
    var db' := CreateSession(p, db, now, account, credential, sso, secret, at).value;
    forall s | s in db'.sessions && db'.sessions[s].account in db'.accounts
      && db'.sessions[s].epoch < db'.accounts[db'.sessions[s].account].epoch
      ensures CoveredBy(db'.revocations, db'.sessions[s])
    {
      assert CoveredBy(db.revocations, db.sessions[s]);
    }
  }

  /** The insert's own count guards the cap now, and sessions only lapse afterwards. */
  lemma SessionAddedCap(p: Policy, sessions: map<Id, Session>, accounts: map<Id, Account>, now: int, sso: Id,
                        s: Session)
    requires SessionCap(p, sessions, accounts, now) && sso !in sessions
    requires s.account in accounts && s.epoch == accounts[s.account].epoch
    requires |ActiveSessions(sessions, s.account, s.epoch, now)| < p.ssoCap
    ensures SessionCap(p, sessions[sso := s], accounts, now)
  {
    var sessions' := sessions[sso := s];
    forall a, t | a in accounts && t >= now ensures |ActiveSessions(sessions', a, accounts[a].epoch, t)| <= p.ssoCap {
      var before, after := ActiveSessions(sessions, a, accounts[a].epoch, t),
        ActiveSessions(sessions', a, accounts[a].epoch, t);
      if a == s.account {
        SubsetCard(before, ActiveSessions(sessions, a, s.epoch, now));
        SubsetCard(after, before + {sso});
      } else {
        SubsetCard(after, before);
      }
    }
  }

  lemma SessionAddedEvents(p: Policy, events: map<Id, Event>, sessions: map<Id, Session>, accounts: map<Id, Account>,
                           sso: Id, s: Session)
    requires EventInv(p, events, sessions, accounts) && sso !in sessions && sso !in events
    ensures EventInv(p, events, sessions[sso := s], accounts)
  {
  }

  lemma SessionAddedCodes(clientSessions: map<Key, ClientSession>, sessions: map<Id, Session>, codes: map<Id, Code>,
                          codeContexts: map<Id, Id>, tokens: map<Id, Token>, sso: Id, s: Session)
    requires CodeInv(clientSessions, sessions, codes, codeContexts, tokens)
    ensures CodeInv(clientSessions, sessions[sso := s], codes, codeContexts, tokens)
  {
  }

  lemma SessionAddedView(clientSessions: map<Key, ClientSession>, sessions: map<Id, Session>,
                         accounts: map<Id, Account>, expiries: map<Key, int>, revokedAt: map<Key, int>, now: int,
                         sso: Id, s: Session)
    requires ViewInv(clientSessions, sessions, accounts, expiries, revokedAt, now) && sso !in sessions
             && ClientSessionRefs(clientSessions, sessions)
    ensures ViewInv(clientSessions, sessions[sso := s], accounts, expiries, revokedAt, now)
  {
  }

  lemma SessionKeeps(p: Policy, w: World, account: Id, credential: Id, sso: Id, secret: Id, at: int)
    requires Inv(p, w) && sso !in w.h.used && CreateSession(p, w.db, w.now, account, credential, sso, secret, at).Some?
    ensures Inv(p, AfterSession(w, sso, secret, CreateSession(p, w.db, w.now, account, credential, sso, secret,
            at).value))
  {
    hide AccountInv, EventInv, RowInv, SentOk, LoginInv, RegistrationsOnce, SessionCap, ClientSessionCap,
      AssertionsKept, ViewInv, NotifiedRevoked, CodeRefs, CodeContextRefs, TokenRefs, ActiveSessions;
    var db' := CreateSession(p, w.db, w.now, account, credential, sso, secret, at).value;
    var s := db'.sessions[sso];
    SessionAdded(p, w.db, account, credential, sso, secret, at, w.now);
    SessionAddedCap(p, w.db.sessions, w.db.accounts, w.now, sso, s);
    SessionAddedEvents(p, w.db.events, w.db.sessions, w.db.accounts, sso, s);
    SessionAddedCodes(w.db.clientSessions, w.db.sessions, w.db.codes, w.db.codeContexts, w.db.tokens, sso, s);
    SessionAddedView(w.db.clientSessions, w.db.sessions, w.db.accounts, w.h.expiries, w.h.revokedAt, w.now, sso, s);
  }

  // ---------------------------------------------------------------- one code

  /** What a committed IssueCode did: a live session, an open login, and one row in each issuing table. */
  ghost predicate CodeIssued(p: Policy, w: World, db': Db, login: Id, sso: Id, sid: Id, code: Id) {
    var db, key := w.db, Key(CLIENT, sid);
    && sso in db.sessions && key !in db.clientSessions && code !in db.codes
    && login in db.logins && !db.logins[login].consumed
    && !Dead(db.sessions[sso], db.accounts) && db.sessions[sso].account in db.accounts
    && |ActiveClientSessions(db.clientSessions, sso, CLIENT)| < p.clientSessionCap
    && db' == db.(connections := db'.connections, clientSessions := db'.clientSessions, codes := db'.codes,
                  codeContexts := db'.codeContexts, logins := db'.logins, sessions := db'.sessions)
    && key in db'.clientSessions && db'.clientSessions == db.clientSessions[key := db'.clientSessions[key]]
    && db'.clientSessions[key].sso == sso && !db'.clientSessions[key].revoked
    && code in db'.codes && db'.codes == db.codes[code := db'.codes[code]] && db'.codes[code].key == key
    && code in db'.codeContexts && db'.codeContexts == db.codeContexts[code := db'.codeContexts[code]]
    && db'.logins == db.logins[login := db.logins[login].(consumed := true)]
    && SessionsAge(db.sessions, db'.sessions)
  }

  lemma IssueShape(p: Policy, w: World, login: Id, browser: Id, sso: Id, sid: Id, code: Id, nonce: Id, at: int)
    requires IssueCode(p, w.db, w.now, login, browser, sso, sid, code, nonce, at).Some?
    ensures CodeIssued(p, w, IssueCode(p, w.db, w.now, login, browser, sso, sid, code, nonce, at).value, login, sso,
            sid, code)
  {
  }

  lemma ClientSessionAddedCap(p: Policy, clientSessions: map<Key, ClientSession>, key: Key, cs: ClientSession)
    requires ClientSessionCap(p, clientSessions) && key !in clientSessions
    requires |ActiveClientSessions(clientSessions, cs.sso, key.client)| < p.clientSessionCap
    ensures ClientSessionCap(p, clientSessions[key := cs])
  {
    var clientSessions' := clientSessions[key := cs];
    forall sso, client ensures |ActiveClientSessions(clientSessions', sso, client)| <= p.clientSessionCap {
      var before, after := ActiveClientSessions(clientSessions, sso, client),
        ActiveClientSessions(clientSessions', sso, client);
      SubsetCard(after, before + if sso == cs.sso && client == key.client then {key} else {});
    }
  }

  /** A live session has no logout event, so the membership of every stored event is unchanged. */
  lemma MembershipFrozen(p: Policy, events: map<Id, Event>, sessions: map<Id, Session>, accounts: map<Id, Account>,
                         deliveries: map<Id, Delivery>, clientSessions: map<Key, ClientSession>,
                         sent: map<Id, set<Key>>, key: Key, cs: ClientSession)
    requires EventInv(p, events, sessions, accounts) && SentOk(events, deliveries, clientSessions, sent)
    requires cs.sso in sessions && !Dead(sessions[cs.sso], accounts) && key !in clientSessions
    ensures SentOk(events, deliveries, clientSessions[key := cs], sent)
  {
    assert forall e :: e in events ==> events[e].sso != cs.sso;
  }

  lemma CodeAddedRefs(clientSessions: map<Key, ClientSession>, sessions: map<Id, Session>, codes: map<Id, Code>,
                      codeContexts: map<Id, Id>, tokens: map<Id, Token>, key: Key, cs: ClientSession, code: Id,
                      row: Code, nonce: Id)
    requires CodeInv(clientSessions, sessions, codes, codeContexts, tokens)
    requires cs.sso in sessions && row.key == key
    ensures CodeInv(clientSessions[key := cs], sessions, codes[code := row], codeContexts[code := nonce], tokens)
  {
  }

  lemma CodeOnce(ceremonies: map<Id, Ceremony>, logins: map<Id, Login>, codesOf: map<Id, set<Id>>, login: Id, code: Id)
    requires LoginInv(ceremonies, logins, codesOf) && login in logins && !logins[login].consumed
    ensures LoginInv(ceremonies, logins[login := logins[login].(consumed := true)], AddTo(codesOf, login, code))
  {
    assert login !in codesOf;
  }

  lemma CodeView(clientSessions: map<Key, ClientSession>, sessions: map<Id, Session>, sessions': map<Id, Session>,
                 accounts: map<Id, Account>, expiries: map<Key, int>, revokedAt: map<Key, int>, now: int, key: Key,
                 cs: ClientSession)
    requires ViewInv(clientSessions, sessions, accounts, expiries, revokedAt, now)
    requires cs.sso in sessions && !Dead(sessions[cs.sso], accounts) && key !in expiries
             && SessionsAge(sessions, sessions')
    requires sessions'[cs.sso].revoked == sessions[cs.sso].revoked
    requires forall s :: s in sessions ==> sessions'[s].revoked == sessions[s].revoked
    ensures ViewInv(clientSessions[key := cs], sessions', accounts, expiries[key := sessions[cs.sso].expiresAt],
            revokedAt, now)
  {
  }

  lemma UsedByCode(w: World, login: Id, sid: Id, code: Id, logins': map<Id, Login>, sessions': map<Id, Session>,
                   expiresAt: int)
    requires UsedIds(w.h.used, w.db.logins, w.db.sessions, w.db.events)
    requires UsedHistory(w.h.used, w.h.issued, w.h.expiries, w.h.codesOf)
    requires logins'.Keys == w.db.logins.Keys && login in w.db.logins && sessions'.Keys == w.db.sessions.Keys
    ensures UsedIds(w.h.used + {code, sid}, logins', sessions', w.db.events)
    ensures UsedHistory(w.h.used + {code, sid}, w.h.issued, w.h.expiries[Key(CLIENT, sid) := expiresAt],
            AddTo(w.h.codesOf, login, code))
  {
  }

  lemma CodeKeeps(p: Policy, w: World, db': Db, login: Id, sso: Id, sid: Id, code: Id)
    requires Inv(p, w) && sid !in w.h.used && CodeIssued(p, w, db', login, sso, sid, code)
    requires forall s :: s in w.db.sessions ==> db'.sessions[s].revoked == w.db.sessions[s].revoked
    ensures Inv(p, AfterCode(w, login, sso, sid, code, db'))
  {
    hide AccountInv, EventInv, RowInv, SentOk, LoginInv, RegistrationsOnce, CodeInv, SessionCap, ClientSessionCap,
      AssertionsKept, ViewInv, NotifiedRevoked, UsedIds, ActiveClientSessions, Dead;
    var key := Key(CLIENT, sid);
    var cs := db'.clientSessions[key];
    assert key !in w.h.expiries;
    AgeKeepsAccounts(p, w.db.accounts, w.db.sessions, db'.sessions, w.db.contexts, w.db.logoutTxs, w.db.revocations);
    AgeKeepsEvents(p, w.db.events, w.db.sessions, db'.sessions, w.db.accounts);
    AgeKeepsCap(p, w.db.sessions, db'.sessions, w.db.accounts, w.now);
    AgeKeepsCodes(w.db.clientSessions, w.db.sessions, db'.sessions, w.db.codes, w.db.codeContexts, w.db.tokens);
    CodeAddedRefs(w.db.clientSessions, db'.sessions, w.db.codes, w.db.codeContexts, w.db.tokens, key, cs, code,
      db'.codes[code], db'.codeContexts[code]);
    ClientSessionAddedCap(p, w.db.clientSessions, key, cs);
    MembershipFrozen(p, w.db.events, w.db.sessions, w.db.accounts, w.db.deliveries, w.db.clientSessions, w.h.sent, key,
      cs);
    CodeOnce(w.db.ceremonies, w.db.logins, w.h.codesOf, login, code);
    CodeView(w.db.clientSessions, w.db.sessions, db'.sessions, w.db.accounts, w.h.expiries, w.h.revokedAt, w.now, key,
      cs);
    UsedByCode(w, login, sid, code, db'.logins, db'.sessions, w.db.sessions[sso].expiresAt);
  }

  lemma ConsentKeeps(p: Policy, w: World, login: Id, browser: Id, sso: Id, sid: Id, code: Id, nonce: Id, at: int)
    requires Inv(p, w) && sid !in w.h.used
    ensures Inv(p, AfterConsent(p, w, login, browser, sso, sid, code, nonce, at))
  {
    hide Inv, CodeIssued, Eligible;
    if IssueCode(p, w.db, w.now, login, browser, sso, sid, code, nonce, at).Some? {
      IssueShape(p, w, login, browser, sso, sid, code, nonce, at);
      CodeKeeps(p, w, IssueCode(p, w.db, w.now, login, browser, sso, sid, code, nonce, at).value, login, sso, sid,
        code);
    }
  }

  lemma FinishKeeps(p: Policy, w: World, login: Id, browser: Id, ceremony: Id, credential: Id, readEpoch: nat,
                    sso: Id, secret: Id, sid: Id, code: Id, nonce: Id, at: int)
    requires Inv(p, w) && sso !in w.h.used && sid !in w.h.used && sid != sso && sid != secret
    ensures Inv(p, AfterFinish(p, w, login, browser, ceremony, credential, readEpoch, sso, secret, sid, code, nonce,
            at))
  {
    hide Inv, Authenticated, IssueCode, AuthenticateWrites, CreateSession;
    var writes := AuthenticateWrites(p, w.db, w.now, login, browser, ceremony, credential, readEpoch);
    if writes.Some? {
      var (db1, account) := writes.value;
      var w1 := AfterWrites(w, ceremony, db1);
      WritesShape(p, w.db, w.now, login, browser, ceremony, credential, readEpoch);
      WritesKeep(p, w, db1, ceremony);
      var created := CreateSession(p, db1, w.now, account, credential, sso, secret, at);
      if created.Some? {
        var w2 := AfterSession(w1, sso, secret, created.value);
        SessionKeeps(p, w1, account, credential, sso, secret, at);
        ConsentKeeps(p, w2, login, browser, sso, sid, code, nonce, at);
      }
    }
  }

  // ---------------------------------------------------------------- exchange and client authentication

  /** What a committed exchange did: the code is consumed and one token appears; the parent is only retained longer. */
  ghost predicate Exchanged(db: Db, db': Db, code: Id) {
    && code in db.codes && code in db'.codes && code in db'.tokens
    && db' == db.(codes := db'.codes, tokens := db'.tokens, sessions := db'.sessions)
    && db'.codes == db.codes[code := db'.codes[code]] && db'.codes[code].key == db.codes[code].key
    && db'.tokens == db.tokens[code := db'.tokens[code]]
    && SessionsAge(db.sessions, db'.sessions) && (forall s :: s in db.sessions ==>
       db'.sessions[s].revoked == db.sessions[s].revoked)
  }

  lemma ExchangeShape(p: Policy, db: Db, now: int, code: Id, operation: Id, access: Id, keysActive: bool, at: int)
    requires ExchangeBatch(p, db, now, code, operation, access, keysActive, at).Some?
    ensures Exchanged(db, ExchangeBatch(p, db, now, code, operation, access, keysActive, at).value, code)
  {
  }

  lemma RetainedView(clientSessions: map<Key, ClientSession>, sessions: map<Id, Session>, sessions': map<Id, Session>,
                     accounts: map<Id, Account>, expiries: map<Key, int>, revokedAt: map<Key, int>, now: int)
    requires ViewInv(clientSessions, sessions, accounts, expiries, revokedAt, now) && SessionsAge(sessions, sessions')
    requires forall s :: s in sessions ==> sessions'[s].revoked == sessions[s].revoked
    ensures ViewInv(clientSessions, sessions', accounts, expiries, revokedAt, now)
  {
  }

  lemma ExchangeKeeps(p: Policy, w: World, code: Id, operation: Id, access: Id, keysActive: bool, at: int)
    requires Inv(p, w)
    ensures Inv(p, AfterExchange(p, w, code, operation, access, keysActive, at))
  {
    hide AccountInv, EventInv, RowInv, SentOk, LoginInv, RegistrationsOnce, SessionCap, ClientSessionCap,
      AssertionsKept, ViewInv, NotifiedRevoked, UsedIds, UsedHistory, ClientSessionRefs, ExchangeBatch;
    if ExchangeBatch(p, w.db, w.now, code, operation, access, keysActive, at).Some? {
      ExchangeShape(p, w.db, w.now, code, operation, access, keysActive, at);
      var db' := ExchangeBatch(p, w.db, w.now, code, operation, access, keysActive, at).value;
      AgeKeepsAccounts(p, w.db.accounts, w.db.sessions, db'.sessions, w.db.contexts, w.db.logoutTxs, w.db.revocations);
      AgeKeepsEvents(p, w.db.events, w.db.sessions, db'.sessions, w.db.accounts);
      AgeKeepsCap(p, w.db.sessions, db'.sessions, w.db.accounts, w.now);
      AgeKeepsCodes(w.db.clientSessions, w.db.sessions, db'.sessions, w.db.codes, w.db.codeContexts, w.db.tokens);
      RetainedView(w.db.clientSessions, w.db.sessions, db'.sessions, w.db.accounts, w.h.expiries, w.h.revokedAt, w.now);
      UsedGrows(w.h.used, {operation, access}, w.db.logins, w.db.sessions, db'.sessions, w.db.events, w.db.events,
        w.h.issued, w.h.expiries, w.h.codesOf);
    }
  }

  lemma ReplayKeeps(p: Policy, w: World, code: Id)
    requires Inv(p, w)
    ensures Inv(p, AfterReplay(w, code))
  {
    hide AccountInv, EventInv, RowInv, SentOk, LoginInv, RegistrationsOnce, SessionCap, ClientSessionCap,
      AssertionsKept, ViewInv, NotifiedRevoked, UsedIds, UsedHistory;
  }

  lemma AcceptKeeps(p: Policy, w: World, key: Key, exp: int, keysActive: bool)
    requires Inv(p, w)
    ensures Inv(p, AfterAccept(p, w, key, exp, keysActive))
  {
    hide AccountInv, EventInv, RowInv, SentOk, LoginInv, RegistrationsOnce, CodeInv, SessionCap, ClientSessionCap,
      ViewInv, NotifiedRevoked, UsedIds, UsedHistory;
  }

  lemma RateKeeps(p: Policy, w: World, bucket: Id, gcAfter: int)
    requires Inv(p, w)
    ensures Inv(p, AfterRate(w, bucket, gcAfter))
  {
    hide AccountInv, EventInv, RowInv, SentOk, LoginInv, RegistrationsOnce, CodeInv, SessionCap, ClientSessionCap,
      AssertionsKept, ViewInv, NotifiedRevoked, UsedIds, UsedHistory;
  }

  lemma TickKeeps(p: Policy, w: World, to: int)
    requires Inv(p, w) && to >= w.now
    ensures Inv(p, w.(now := to))
  {
    hide AccountInv, EventInv, SentOk, LoginInv, RegistrationsOnce, CodeInv, ClientSessionCap, NotifiedRevoked, UsedIds,
      UsedHistory, RowsOk, UniqueRows, DeadlinesAgree, LeasesMatch, ExpiriesKnown, RevokedExactly, InFlight,
      ActiveSessions;
  }
}
