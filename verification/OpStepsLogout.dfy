/** Browser logout (local/op.ts) and account revocation (local/account-admin.ts) keep the invariant. */
module OpStepsLogout {
  import opened Wrappers
  import opened RuntimePolicy
  import opened RetryTiming
  import opened Sets
  import opened OpTables
  import opened OpBatches
  import opened OpGc
  import opened OpMachine
  import opened OpInvariants

  /** The same sessions, later: only retention grows and revocation is set. */
  ghost predicate SessionsAge(sessions: map<Id, Session>, sessions': map<Id, Session>) {
    && sessions'.Keys == sessions.Keys
    && forall s :: s in sessions ==>
         && sessions'[s].account == sessions[s].account && sessions'[s].epoch == sessions[s].epoch
         && sessions'[s].expiresAt == sessions[s].expiresAt && (sessions[s].revoked ==> sessions'[s].revoked)
  }

  lemma AgeKeepsAccounts(p: Policy, accounts: map<Id, Account>, sessions: map<Id, Session>, sessions': map<Id, Session>,
                         contexts: map<Id, Context>, logoutTxs: map<Id, LogoutTx>, revocations: map<Id, Revocation>)
    requires AccountInv(p, accounts, sessions, contexts, logoutTxs, revocations) && SessionsAge(sessions, sessions')
    ensures AccountInv(p, accounts, sessions', contexts, logoutTxs, revocations)
  {
    forall s | s in sessions' && sessions'[s].account in accounts
      && sessions'[s].epoch < accounts[sessions'[s].account].epoch
      ensures CoveredBy(revocations, sessions'[s])
    {
      assert CoveredBy(revocations, sessions[s]);
    }
  }

  lemma AgeKeepsEvents(p: Policy, events: map<Id, Event>, sessions: map<Id, Session>, sessions': map<Id, Session>,
                       accounts: map<Id, Account>)
    requires EventInv(p, events, sessions, accounts) && SessionsAge(sessions, sessions')
    ensures EventInv(p, events, sessions', accounts)
  {
  }

  lemma AgeKeepsCap(p: Policy, sessions: map<Id, Session>, sessions': map<Id, Session>, accounts: map<Id, Account>,
                    now: int)
    requires SessionCap(p, sessions, accounts, now) && SessionsAge(sessions, sessions')
    ensures SessionCap(p, sessions', accounts, now)
  {
    forall a, t | a in accounts && t >= now ensures |ActiveSessions(sessions', a, accounts[a].epoch, t)| <= p.ssoCap {
      var before, after := ActiveSessions(sessions, a, accounts[a].epoch, t),
        ActiveSessions(sessions', a, accounts[a].epoch, t);
      forall s | s in after ensures s in before { assert s in sessions; }
      SubsetCard(after, before);
    }
  }

  lemma AgeKeepsCodes(clientSessions: map<Key, ClientSession>, sessions: map<Id, Session>, sessions': map<Id, Session>,
                      codes: map<Id, Code>, codeContexts: map<Id, Id>, tokens: map<Id, Token>)
    requires CodeInv(clientSessions, sessions, codes, codeContexts, tokens) && SessionsAge(sessions, sessions')
    ensures CodeInv(clientSessions, sessions', codes, codeContexts, tokens)
  {
  }

  /** The same client sessions, possibly revoked. */
  ghost predicate ClientSessionsAge(clientSessions: map<Key, ClientSession>, clientSessions': map<Key, ClientSession>) {
    && clientSessions'.Keys == clientSessions.Keys
    && forall k :: k in clientSessions ==>
         clientSessions'[k].sso == clientSessions[k].sso && (clientSessions[k].revoked ==> clientSessions'[k].revoked)
  }

  lemma ClientAgeKeepsCap(p: Policy, clientSessions: map<Key, ClientSession>, clientSessions': map<Key, ClientSession>)
    requires ClientSessionCap(p, clientSessions) && ClientSessionsAge(clientSessions, clientSessions')
    ensures ClientSessionCap(p, clientSessions')
  {
    forall sso, client ensures |ActiveClientSessions(clientSessions', sso, client)| <= p.clientSessionCap {
      var before, after := ActiveClientSessions(clientSessions, sso, client),
        ActiveClientSessions(clientSessions', sso, client);
      forall k | k in after ensures k in before { assert k in clientSessions; }
      SubsetCard(after, before);
    }
  }

  lemma ClientAgeKeepsCodes(clientSessions: map<Key, ClientSession>, clientSessions': map<Key, ClientSession>,
                            sessions: map<Id, Session>, codes: map<Id, Code>, codeContexts: map<Id, Id>,
                            tokens: map<Id, Token>)
    requires CodeInv(clientSessions, sessions, codes, codeContexts, tokens)
             && ClientSessionsAge(clientSessions, clientSessions')
    ensures CodeInv(clientSessions', sessions, codes, codeContexts, tokens)
  {
  }

  lemma ClientAgeKeepsSent(events: map<Id, Event>, deliveries: map<Id, Delivery>,
                           clientSessions: map<Key, ClientSession>, clientSessions': map<Key, ClientSession>,
                           sent: map<Id, set<Key>>)
    requires SentOk(events, deliveries, clientSessions, sent) && ClientSessionsAge(clientSessions, clientSessions')
    ensures SentOk(events, deliveries, clientSessions', sent)
  {
  }

  /** Events added by a batch: for dead sessions that had none, unexpanded, with distinct sessions. */
  ghost predicate NewEvents(p: Policy, events: map<Id, Event>, events': map<Id, Event>, sessions: map<Id, Session>,
                            accounts: map<Id, Account>)
  {
    && events.Keys <= events'.Keys
    && (forall e :: e in events ==> events'[e] == events[e])
    && (forall e :: e in events' && e !in events ==> NewEvent(p, events, events'[e], sessions, accounts))
    && (forall e, e' ::
          e in events' && e' in events' && e !in events && e' !in events && events'[e].sso == events'[e'].sso ==>
            e == e')
    && (forall e :: e in events' && e !in events && e in sessions ==> events'[e].sso == e)
  }

  ghost predicate NewEvent(p: Policy, events: map<Id, Event>, row: Event, sessions: map<Id, Session>,
                           accounts: map<Id, Account>)
  {
    && row.sso in sessions && Dead(sessions[row.sso], accounts) && !HasEvent(events, row.sso)
    && !row.expanded && row.createdAt < row.deadline && row.gcAfter >= p.Retained(row.deadline)
  }

  lemma NewEventsKeepEvents(p: Policy, events: map<Id, Event>, events': map<Id, Event>, sessions: map<Id, Session>,
                            accounts: map<Id, Account>)
    requires EventInv(p, events, sessions, accounts) && NewEvents(p, events, events', sessions, accounts)
    ensures EventInv(p, events', sessions, accounts)
  {
    forall e, e' | e in events' && e' in events' && events'[e].sso == events'[e'].sso ensures e == e' {
      if e in events && e' !in events { assert HasEvent(events, events'[e'].sso); }
      if e' in events && e !in events { assert HasEvent(events, events'[e].sso); }
    }
  }

  lemma NewEventsKeepRows(p: Policy, deliveries: map<Id, Delivery>, events: map<Id, Event>, events': map<Id, Event>,
                          issued: map<Id, Task>, sessions: map<Id, Session>, accounts: map<Id, Account>, now: int)
    requires RowInv(p, deliveries, events, issued, now) && NewEvents(p, events, events', sessions, accounts)
    ensures RowInv(p, deliveries, events', issued, now)
  {
  }

  lemma NewEventsKeepSent(p: Policy, events: map<Id, Event>, events': map<Id, Event>, deliveries: map<Id, Delivery>,
                          clientSessions: map<Key, ClientSession>, sent: map<Id, set<Key>>, added: set<Id>,
                          sessions: map<Id, Session>, accounts: map<Id, Account>)
    requires SentOk(events, deliveries, clientSessions, sent) && DeliveryRefs(deliveries, events)
    requires NewEvents(p, events, events', sessions, accounts) && events'.Keys == events.Keys + added
    ensures SentOk(events', deliveries, clientSessions, AddEvents(sent, added))
  {
  }

  /** Revocations on record only grow, and earlier entries keep their time. */
  lemma MarkedKeepsNotified(deliveries: map<Id, Delivery>, issued: map<Id, Task>, h: Hist, keys: set<Key>, now: int)
    requires NotifiedRevoked(deliveries, issued, h.revokedAt)
    ensures NotifiedRevoked(deliveries, issued, MarkRevoked(h, keys, now).revokedAt)
  {
  }

  // ---------------------------------------------------------------- browser logout

  lemma StartLogoutKeeps(p: Policy, w: World, csrf: Id, browser: Id, sso: Id, at: int)
    requires Inv(p, w)
    ensures Inv(p, AfterStartLogout(p, w, csrf, browser, sso, at))
  {
    hide EventInv, RowInv, SentOk, LoginInv, RegistrationsOnce, CodeInv, SessionCap, ClientSessionCap, AssertionsKept,
      ViewInv, NotifiedRevoked, SessionRefs, ContextRefs, EpochBound, RevocationsPast, StaleCovered,
      RevocationsRetained;
  }

  /** The event of a browser logout, and the session it revokes, before either is stored. */
  lemma LogoutNewEvent(p: Policy, db: Db, sso: Id, event: Id, sessions': map<Id, Session>, at: int)
    requires sso in db.sessions && !HasEvent(db.events, sso) && event !in db.events && event !in db.sessions
    requires sessions' == db.sessions[sso := db.sessions[sso].(revoked := true)]
    ensures NewEvents(p, db.events, db.events[event := LogoutEventRow(p, db.sessions[sso], sso, at)], sessions',
            db.accounts)
  {
  }

  lemma LogoutView(db: Db, h: Hist, sso: Id, sessions': map<Id, Session>, clientSessions': map<Key, ClientSession>,
                   now: int)
    requires ViewInv(db.clientSessions, db.sessions, db.accounts, h.expiries, h.revokedAt, now) && sso in db.sessions
    requires ClientSessionRefs(db.clientSessions, db.sessions)
    requires sessions' == db.sessions[sso := db.sessions[sso].(revoked := true)]
    requires ClientSessionsAge(db.clientSessions, clientSessions')
    ensures ViewInv(clientSessions', sessions', db.accounts, h.expiries,
            MarkRevoked(h, KeysOfSso(db, sso), now).revokedAt, now)
  {
    forall k | k in clientSessions' && clientSessions'[k].sso in sessions'
      ensures k in MarkRevoked(h, KeysOfSso(db, sso), now).revokedAt
              <==> Dead(sessions'[clientSessions'[k].sso], db.accounts)
    {
      assert k in KeysOfSso(db, sso) <==> db.clientSessions[k].sso == sso;
    }
  }

  lemma LogoutTxSpent(p: Policy, accounts: map<Id, Account>, sessions: map<Id, Session>, contexts: map<Id, Context>,
                      logoutTxs: map<Id, LogoutTx>, csrf: Id, revocations: map<Id, Revocation>)
    requires AccountInv(p, accounts, sessions, contexts, logoutTxs, revocations)
    ensures AccountInv(p, accounts, sessions, contexts, logoutTxs - {csrf}, revocations)
  {
  }

  lemma UsedGrows(used: set<Id>, ids: set<Id>, logins: map<Id, Login>, sessions: map<Id, Session>,
                  sessions': map<Id, Session>, events: map<Id, Event>, events': map<Id, Event>, issued: map<Id, Task>,
                  expiries: map<Key, int>, codesOf: map<Id, set<Id>>)
    requires UsedIds(used, logins, sessions, events) && UsedHistory(used, issued, expiries, codesOf)
    requires sessions'.Keys == sessions.Keys && forall e :: e in events' ==> e in events || e in ids || e in sessions
    ensures UsedIds(used + ids, logins, sessions', events') && UsedHistory(used + ids, issued, expiries, codesOf)
  {
  }

  /** The tables and the history that a browser logout with an effect touches. */
  ghost predicate LoggedOut(p: Policy, w: World, w': World, csrf: Id, sso: Id, event: Id, at: int) {
    && sso in w.db.sessions && !HasEvent(w.db.events, sso) && event !in w.db.events
    && w' == World(w.now, w.db.(logoutTxs := w.db.logoutTxs - {csrf}, events := w'.db.events, sessions :=
       w'.db.sessions,
                                clientSessions := w'.db.clientSessions),
                   w.h.(used := w.h.used + {event}, sent := AddEvents(w.h.sent, {event}),
                        revokedAt := MarkRevoked(w.h, KeysOfSso(w.db, sso), w.now).revokedAt))
    && w'.db.events == w.db.events[event := LogoutEventRow(p, w.db.sessions[sso], sso, at)]
    && w'.db.sessions == w.db.sessions[sso := w.db.sessions[sso].(revoked := true)]
    && SessionsAge(w.db.sessions, w'.db.sessions)
    && ClientSessionsAge(w.db.clientSessions, w'.db.clientSessions)
  }

  lemma LogoutShape(p: Policy, w: World, csrf: Id, sso: Id, event: Id, at: int)
    ensures var w' := AfterLogout(p, w, csrf, sso, event, at);
            w' == w || w' == w.(db := w.db.(logoutTxs := w.db.logoutTxs - {csrf}))
              || LoggedOut(p, w, w', csrf, sso, event, at)
  {
    hide HasEvent, LogoutEventRow;
  }

  lemma LoggedOutKeeps(p: Policy, w: World, w': World, csrf: Id, sso: Id, event: Id, at: int)
    requires Inv(p, w) && event !in w.h.used && LoggedOut(p, w, w', csrf, sso, event, at)
    ensures Inv(p, w')
  {
    hide AccountInv, EventInv, SentOk, LoginInv, RegistrationsOnce, SessionCap, ClientSessionCap, AssertionsKept,
      ViewInv, NotifiedRevoked, UsedHistory, RowsOk, UniqueRows, DeadlinesAgree, LeasesMatch, InFlightBound, CodeRefs,
      CodeContextRefs, TokenRefs, NewEvents, LogoutEventRow, HasEvent, SessionsAge, ClientSessionsAge, KeysOfSso,
      MarkRevoked, AddEvents;
    var db := w.db;
    assert event !in db.sessions;
    LogoutTxSpent(p, db.accounts, db.sessions, db.contexts, db.logoutTxs, csrf, db.revocations);
    LogoutNewEvent(p, db, sso, event, w'.db.sessions, at);
    AgeKeepsAccounts(p, db.accounts, db.sessions, w'.db.sessions, db.contexts, w'.db.logoutTxs, db.revocations);
    AgeKeepsEvents(p, db.events, db.sessions, w'.db.sessions, db.accounts);
    AgeKeepsCap(p, db.sessions, w'.db.sessions, db.accounts, w.now);
    AgeKeepsCodes(db.clientSessions, db.sessions, w'.db.sessions, db.codes, db.codeContexts, db.tokens);
    ClientAgeKeepsCap(p, db.clientSessions, w'.db.clientSessions);
    ClientAgeKeepsCodes(db.clientSessions, w'.db.clientSessions, w'.db.sessions, db.codes, db.codeContexts, db.tokens);
    ClientAgeKeepsSent(db.events, db.deliveries, db.clientSessions, w'.db.clientSessions, w.h.sent);
    NewEventsKeepEvents(p, db.events, w'.db.events, w'.db.sessions, db.accounts);
    NewEventsKeepRows(p, db.deliveries, db.events, w'.db.events, w.h.issued, w'.db.sessions, db.accounts, w.now);
    NewEventsKeepSent(p, db.events, w'.db.events, db.deliveries, w'.db.clientSessions, w.h.sent, {event},
      w'.db.sessions, db.accounts);
    LogoutView(db, w.h, sso, w'.db.sessions, w'.db.clientSessions, w.now);
    MarkedKeepsNotified(db.deliveries, w.h.issued, w.h, KeysOfSso(db, sso), w.now);
    UsedGrows(w.h.used, {event}, db.logins, db.sessions, w'.db.sessions, db.events, w'.db.events, w.h.issued,
      w.h.expiries, w.h.codesOf);
  }

  lemma LogoutKeeps(p: Policy, w: World, csrf: Id, sso: Id, event: Id, at: int)
    requires Inv(p, w) && event !in w.h.used
    ensures Inv(p, AfterLogout(p, w, csrf, sso, event, at))
  {
    hide AccountInv, EventInv, RowInv, CodeInv, SentOk, LoginInv, RegistrationsOnce, SessionCap, ClientSessionCap,
      AssertionsKept, ViewInv, NotifiedRevoked, UsedIds, UsedHistory, LoggedOut, AfterLogout;
    LogoutShape(p, w, csrf, sso, event, at);
    LogoutTxSpent(p, w.db.accounts, w.db.sessions, w.db.contexts, w.db.logoutTxs, csrf, w.db.revocations);
    var w' := AfterLogout(p, w, csrf, sso, event, at);
    if LoggedOut(p, w, w', csrf, sso, event, at) { LoggedOutKeeps(p, w, w', csrf, sso, event, at); }
  }

  // ---------------------------------------------------------------- account revocation

  lemma EpochAccounts(p: Policy, db: Db, operation: Id, account: Id, epoch: nat, at: int)
    requires AccountInv(p, db.accounts, db.sessions, db.contexts, db.logoutTxs, db.revocations)
    requires RevokeAccountBatch(p, db, operation, account, epoch, at).Some?
    ensures var db' := RevokeAccountBatch(p, db, operation, account, epoch, at).value;
            AccountInv(p, db'.accounts, db'.sessions, db'.contexts, db'.logoutTxs, db'.revocations)
  {
    var db' := RevokeAccountBatch(p, db, operation, account, epoch, at).value;
    forall s | s in db'.sessions && db'.sessions[s].account in db'.accounts
      && db'.sessions[s].epoch < db'.accounts[db'.sessions[s].account].epoch
      ensures CoveredBy(db'.revocations, db'.sessions[s])
    {
      if db.sessions[s].account == account && db.sessions[s].epoch == epoch {
        assert operation in db'.revocations && db'.revocations[operation].through == epoch;
      } else {
        assert CoveredBy(db.revocations, db.sessions[s]);
        var r :| r in db.revocations && db.revocations[r].account == db.sessions[s].account
          && db.revocations[r].through == db.sessions[s].epoch;
        assert r in db'.revocations && db'.revocations[r] == db.revocations[r];
      }
    }
  }

  /** Nobody holds a session of the new epoch yet. */
  lemma EpochCap(p: Policy, sessions: map<Id, Session>, accounts: map<Id, Account>, account: Id, now: int)
    requires SessionCap(p, sessions, accounts, now) && EpochBound(sessions, accounts) && account in accounts
    ensures SessionCap(p, sessions, accounts[account := accounts[account].(epoch := accounts[account].epoch + 1)], now)
  {
    var accounts' := accounts[account := accounts[account].(epoch := accounts[account].epoch + 1)];
    forall a, t | a in accounts' && t >= now ensures |ActiveSessions(sessions, a, accounts'[a].epoch, t)| <= p.ssoCap {
      if a == account {
        var active := ActiveSessions(sessions, a, accounts'[a].epoch, t);
        assert forall s :: s in sessions && sessions[s].account == a ==> sessions[s].epoch <= accounts[a].epoch;
        assert active == {};
      }
    }
  }

  lemma EpochEvents(p: Policy, events: map<Id, Event>, sessions: map<Id, Session>, accounts: map<Id, Account>,
                    account: Id)
    requires EventInv(p, events, sessions, accounts) && account in accounts
    ensures EventInv(p, events, sessions, accounts[account := accounts[account].(epoch := accounts[account].epoch + 1)])
  {
  }

  lemma EpochView(db: Db, h: Hist, account: Id, epoch: nat, now: int)
    requires ViewInv(db.clientSessions, db.sessions, db.accounts, h.expiries, h.revokedAt, now)
    requires SessionRefs(db.sessions, db.accounts) && EpochBound(db.sessions, db.accounts)
             && ClientSessionRefs(db.clientSessions, db.sessions)
    requires account in db.accounts && db.accounts[account].epoch == epoch
    ensures ViewInv(db.clientSessions, db.sessions, db.accounts[account := db.accounts[account].(epoch := epoch + 1)],
                    h.expiries, MarkRevoked(h, KeysOfEpoch(db, account, epoch), now).revokedAt, now)
  {
    var revokedAt' := MarkRevoked(h, KeysOfEpoch(db, account, epoch), now).revokedAt;
    var accounts' := db.accounts[account := db.accounts[account].(epoch := epoch + 1)];
    forall k | k in db.clientSessions && db.clientSessions[k].sso in db.sessions
      ensures k in revokedAt' <==> Dead(db.sessions[db.clientSessions[k].sso], accounts')
    {
      var s := db.sessions[db.clientSessions[k].sso];
      assert k in KeysOfEpoch(db, account, epoch) <==> s.account == account && s.epoch <= epoch;
    }
  }

  lemma RevokeAccountKeeps(p: Policy, w: World, operation: Id, account: Id, epoch: nat, at: int)
    requires Inv(p, w)
    ensures Inv(p, AfterRevokeAccount(p, w, operation, account, epoch, at))
  {
    hide EventInv, RowInv, SentOk, LoginInv, RegistrationsOnce, SessionCap, ClientSessionCap, AssertionsKept, ViewInv,
      NotifiedRevoked, UsedIds, UsedHistory, CodeRefs, CodeContextRefs, TokenRefs, ContextRefs, LogoutTxRefs,
      RevocationsPast, StaleCovered, RevocationsRetained;
    if RevokeAccountBatch(p, w.db, operation, account, epoch, at).Some? {
      EpochAccounts(p, w.db, operation, account, epoch, at);
      EpochCap(p, w.db.sessions, w.db.accounts, account, w.now);
      EpochEvents(p, w.db.events, w.db.sessions, w.db.accounts, account);
      EpochView(w.db, w.h, account, epoch, w.now);
      MarkedKeepsNotified(w.db.deliveries, w.h.issued, w.h, KeysOfEpoch(w.db, account, epoch), w.now);
      UsedGrows(w.h.used, {operation}, w.db.logins, w.db.sessions, w.db.sessions, w.db.events, w.db.events, w.h.issued,
        w.h.expiries, w.h.codesOf);
    }
  }

  // ---------------------------------------------------------------- expansion

  /** The covering revocation with the earliest deadline also bounds the earliest creation time. */
  lemma ExpandedRowOk(p: Policy, revocations: map<Id, Revocation>, s: Session, sso: Id)
    requires RevocationsRetained(p, revocations) && Pursuing(revocations, s).Keys != {}
    ensures var row := ExpandedEventRow(p, revocations, s, sso);
            row.createdAt < row.deadline && row.gcAfter >= p.Retained(row.deadline)
  {
    var rs := Pursuing(revocations, s);
    BoundsExist(rs);
    var deadline := Least(Deadlines(rs));
    var r :| r in rs && rs[r].deadline == deadline;
    assert rs[r].createdAt in CreatedTimes(rs) && rs[r].gcAfter in RetentionBounds(rs);
  }

  lemma ExpandedDead(p: Policy, db: Db, sso: Id)
    requires sso in db.sessions && Pursuing(db.revocations, db.sessions[sso]).Keys != {}
    requires SessionRefs(db.sessions, db.accounts) && RevocationsPast(db.revocations, db.accounts)
    ensures Dead(db.sessions[sso], db.accounts)
  {
    var r := Pick(Pursuing(db.revocations, db.sessions[sso]).Keys);
    assert Covers(db.revocations[r], db.sessions[sso]);
  }

  lemma ExpandNewEvents(p: Policy, db: Db, chosen: set<Id>)
    requires AccountInv(p, db.accounts, db.sessions, db.contexts, db.logoutTxs, db.revocations)
    requires chosen <= Uncovered(db) && InsertExpanded(p, db, chosen).Some?
    ensures NewEvents(p, db.events, InsertExpanded(p, db, chosen).value.events, db.sessions, db.accounts)
  {
    hide ExpandedEventRow, Dead, Pursuing, HasEvent;
    var events' := InsertExpanded(p, db, chosen).value.events;
    forall e | e in events' && e !in db.events
      ensures NewEvent(p, db.events, events'[e], db.sessions, db.accounts) && events'[e].sso == e
    {
      ExpandedRowOk(p, db.revocations, db.sessions[e], e);
      ExpandedDead(p, db, e);
      ExpandedSso(p, db.revocations, db.sessions[e], e);
    }
  }

  lemma ExpandedSso(p: Policy, revocations: map<Id, Revocation>, s: Session, sso: Id)
    requires Pursuing(revocations, s).Keys != {}
    ensures ExpandedEventRow(p, revocations, s, sso).sso == sso && !ExpandedEventRow(p, revocations, s, sso).expanded
  {
  }

  /** `revocations'` is `revocations` with some expansion flags set. */
  ghost predicate RevocationFlags(revocations: map<Id, Revocation>, revocations': map<Id, Revocation>) {
    && revocations'.Keys == revocations.Keys
    && forall r :: r in revocations ==> revocations'[r] == revocations[r].(expanded := revocations'[r].expanded)
  }

  lemma FlagsKeepAccounts(p: Policy, accounts: map<Id, Account>, sessions: map<Id, Session>, contexts: map<Id, Context>,
                          logoutTxs: map<Id, LogoutTx>, revocations: map<Id, Revocation>,
                          revocations': map<Id, Revocation>)
    requires AccountInv(p, accounts, sessions, contexts, logoutTxs, revocations)
             && RevocationFlags(revocations, revocations')
    ensures AccountInv(p, accounts, sessions, contexts, logoutTxs, revocations')
  {
    forall s | s in sessions && sessions[s].account in accounts
      && sessions[s].epoch < accounts[sessions[s].account].epoch
      ensures CoveredBy(revocations', sessions[s])
    {
      assert CoveredBy(revocations, sessions[s]);
      var r :| r in revocations && revocations[r].account == sessions[s].account
        && revocations[r].through == sessions[s].epoch;
      assert r in revocations';
    }
  }

  lemma ExpandKeeps(p: Policy, w: World, chosen: set<Id>)
    requires Inv(p, w) && chosen <= Uncovered(w.db)
    ensures Inv(p, AfterExpand(p, w, chosen))
  {
    hide AccountInv, EventInv, SentOk, LoginInv, RegistrationsOnce, CodeInv, SessionCap, ClientSessionCap,
      AssertionsKept, ViewInv, NotifiedRevoked, UsedHistory, RowsOk, UniqueRows, DeadlinesAgree, LeasesMatch,
      InFlightBound, NewEvents, FullyExpanded, ExpandedEventRow, Uncovered, HasEvent;
    if InsertExpanded(p, w.db, chosen).Some? {
      var db, w' := w.db, AfterExpand(p, w, chosen);
      UncoveredStored(db);
      ExpandNewEvents(p, db, chosen);
      NewEventsKeepEvents(p, db.events, w'.db.events, db.sessions, db.accounts);
      NewEventsKeepRows(p, db.deliveries, db.events, w'.db.events, w.h.issued, db.sessions, db.accounts, w.now);
      NewEventsKeepSent(p, db.events, w'.db.events, db.deliveries, db.clientSessions, w.h.sent, chosen, db.sessions,
        db.accounts);
      FlagsKeepAccounts(p, db.accounts, db.sessions, db.contexts, db.logoutTxs, db.revocations, w'.db.revocations);
    }
  }

  lemma UncoveredStored(db: Db)
    ensures Uncovered(db) <= db.sessions.Keys
  {
  }
}
