/** Every single DELETE of the garbage collector keeps the invariant, whatever rows its LIMIT picks and
    whatever ran between it and the DELETE before it. */
module OpStepsGc {
  import opened Wrappers
  import opened RuntimePolicy
  import opened RetryTiming
  import opened Sets
  import opened OpTables
  import opened OpBatches
  import opened OpGc
  import opened OpMachine
  import opened OpInvariants
  import opened OpStepsDelivery

  lemma VictimDoomed(db: Db, table: Table, at: int, victims: set<RowId>, row: RowId)
    requires victims <= DoomedRows(db, table, at) && row in victims
    ensures row in Rows(db, table) && Doomed(db, table, row, at)
  {
  }

  // ---------------------------------------------------------------- login tables, transactions, replay evidence

  lemma LoginRowsDropped(db: Db, h: Hist, table: Table, at: int, victims: set<RowId>)
    requires LoginInv(db.ceremonies, db.logins, h.codesOf) && victims <= DoomedRows(db, table, at)
    requires table == Ceremonies || table == Logins
    ensures var db' := Delete(db, table, victims); LoginInv(db'.ceremonies, db'.logins, h.codesOf)
  {
    hide DoomedRows, ExpiredParent, ExpiredKey, DoomedDelivery, DoomedEvent, DoomedSession;
    var db' := Delete(db, table, victims);
    if table == Logins {
      forall c | c in db'.ceremonies ensures db'.ceremonies[c].login in db'.logins {
        var l := db.ceremonies[c].login;
        if Plain(l) in victims { VictimDoomed(db, table, at, victims, Plain(l)); }
      }
    }
  }

  lemma AssertionsDropped(p: Policy, db: Db, h: Hist, now: int, at: int, victims: set<RowId>)
    requires AssertionsKept(p, db.assertions, h.accepted, now) && at <= now && victims <= DoomedRows(db, Assertions, at)
    ensures AssertionsKept(p, db.assertions - Keys(victims), h.accepted, now)
  {
    hide DoomedRows, ExpiredParent, ExpiredKey, DoomedDelivery, DoomedEvent, DoomedSession;
    forall a | a in h.accepted && a.key in db.assertions && a.key in Keys(victims)
      && db.assertions[a.key].retainUntil >= a.exp + p.skew
      ensures p.Retained(a.exp + p.skew) <= now
    {
      VictimDoomed(db, Assertions, at, victims, Pair(a.key));
    }
  }

  // ---------------------------------------------------------------- revocations, contexts, logout transactions

  lemma RevocationsDropped(p: Policy, db: Db, at: int, victims: set<RowId>)
    requires AccountInv(p, db.accounts, db.sessions, db.contexts, db.logoutTxs, db.revocations)
    requires victims <= DoomedRows(db, Revocations, at)
    ensures AccountInv(p, db.accounts, db.sessions, db.contexts, db.logoutTxs, db.revocations - Ids(victims))
  {
    hide DoomedRows, ExpiredParent, ExpiredKey, DoomedDelivery, DoomedEvent, DoomedSession;
    var revocations' := db.revocations - Ids(victims);
    forall s | s in db.sessions && db.sessions[s].account in db.accounts
      && db.sessions[s].epoch < db.accounts[db.sessions[s].account].epoch
      ensures CoveredBy(revocations', db.sessions[s])
    {
      assert CoveredBy(db.revocations, db.sessions[s]);
      var r :| r in db.revocations && db.revocations[r].account == db.sessions[s].account
        && db.revocations[r].through == db.sessions[s].epoch;
      assert Covers(db.revocations[r], db.sessions[s]);
      if Plain(r) in victims { VictimDoomed(db, Revocations, at, victims, Plain(r)); }
      assert r in revocations';
    }
  }

  lemma ChildrenDropped(p: Policy, accounts: map<Id, Account>, sessions: map<Id, Session>, contexts: map<Id, Context>,
                        logoutTxs: map<Id, LogoutTx>, revocations: map<Id, Revocation>, ids: set<Id>)
    requires AccountInv(p, accounts, sessions, contexts, logoutTxs, revocations)
    ensures AccountInv(p, accounts, sessions, contexts - ids, logoutTxs, revocations)
    ensures AccountInv(p, accounts, sessions, contexts, logoutTxs - ids, revocations)
  {
  }

  // ---------------------------------------------------------------- deliveries and events

  lemma DeliveriesDropped(p: Policy, db: Db, h: Hist, now: int, at: int, victims: set<RowId>)
    requires RowInv(p, db.deliveries, db.events, h.issued, now) && victims <= DoomedRows(db, Deliveries, at)
    ensures RowInv(p, db.deliveries - Ids(victims), db.events, h.issued, now)
  {
    hide DoomedRows, Doomed, RowOk;
    InFlightShrinks(p, db.deliveries, db.deliveries - Ids(victims), now);
  }

  /** A delivery is only collected once its event is expanded, so the rows of an unexpanded event all stay. */
  lemma DeliveriesDroppedSent(db: Db, sent: map<Id, set<Key>>, at: int, victims: set<RowId>)
    requires SentOk(db.events, db.deliveries, db.clientSessions, sent) && victims <= DoomedRows(db, Deliveries, at)
    ensures SentOk(db.events, db.deliveries - Ids(victims), db.clientSessions, sent)
  {
    hide DoomedRows, ExpiredParent, ExpiredKey, DoomedEvent, DoomedSession, EventPursued;
    var deliveries' := db.deliveries - Ids(victims);
    forall e, k | e in db.events && !db.events[e].expanded && k in sent[e] ensures HasDelivery(deliveries', e, k) {
      assert HasDelivery(db.deliveries, e, k);
      var d :| d in db.deliveries && db.deliveries[d].event == e && db.deliveries[d].key == k;
      if Plain(d) in victims { VictimDoomed(db, Deliveries, at, victims, Plain(d)); }
      assert d in deliveries';
    }
  }

  lemma EventsDropped(p: Policy, db: Db, h: Hist, now: int, at: int, victims: set<RowId>)
    requires EventInv(p, db.events, db.sessions, db.accounts) && RowInv(p, db.deliveries, db.events, h.issued, now)
    requires victims <= DoomedRows(db, Events, at)
    ensures EventInv(p, db.events - Ids(victims), db.sessions, db.accounts)
    ensures RowInv(p, db.deliveries, db.events - Ids(victims), h.issued, now)
  {
    hide DoomedRows, ExpiredParent, ExpiredKey, DoomedDelivery, DoomedSession, EventPursued, RowOk, RowsOk, UniqueRows,
      LeasesMatch, InFlightBound, Dead;
    forall d | d in db.deliveries ensures db.deliveries[d].event !in Ids(victims) {
      if Plain(db.deliveries[d].event) in victims {
        VictimDoomed(db, Events, at, victims, Plain(db.deliveries[d].event));
      }
    }
  }

  lemma EventsDroppedSent(events: map<Id, Event>, deliveries: map<Id, Delivery>,
                          clientSessions: map<Key, ClientSession>, sent: map<Id, set<Key>>, ids: set<Id>)
    requires SentOk(events, deliveries, clientSessions, sent)
    ensures SentOk(events - ids, deliveries, clientSessions, sent - ids)
  {
  }

  // ---------------------------------------------------------------- issuance evidence

  lemma EvidenceDropped(db: Db, table: Table, at: int, victims: set<RowId>)
    requires CodeInv(db.clientSessions, db.sessions, db.codes, db.codeContexts, db.tokens)
             && victims <= DoomedRows(db, table, at)
    requires table == Tokens || table == CodeContexts || table == Codes || table == ClientSessions || table == Sessions
    ensures var db' := Delete(db, table, victims); CodeInv(db'.clientSessions, db'.sessions, db'.codes,
            db'.codeContexts, db'.tokens)
  {
    hide DoomedRows, ExpiredParent, ExpiredKey, ExpiredCode, DoomedDelivery, DoomedEvent;
    var db' := Delete(db, table, victims);
    if table == Codes {
      forall c | c in Ids(victims) ensures c !in db.tokens && c !in db.codeContexts {
        VictimDoomed(db, table, at, victims, Plain(c));
      }
    } else if table == ClientSessions {
      forall k | k in Keys(victims) ensures forall c :: c in db.codes ==> db.codes[c].key != k {
        VictimDoomed(db, table, at, victims, Pair(k));
      }
    } else if table == Sessions {
      forall s | s in Ids(victims) ensures forall k :: k in db.clientSessions ==> db.clientSessions[k].sso != s {
        VictimDoomed(db, table, at, victims, Plain(s));
      }
    }
  }

  lemma ClientSessionsDropped(p: Policy, db: Db, h: Hist, now: int, at: int, victims: set<RowId>)
    requires SentOk(db.events, db.deliveries, db.clientSessions, h.sent) && ClientSessionCap(p, db.clientSessions)
    requires ViewInv(db.clientSessions, db.sessions, db.accounts, h.expiries, h.revokedAt, now)
    requires victims <= DoomedRows(db, ClientSessions, at)
    ensures var clientSessions' := db.clientSessions - Keys(victims);
            && SentOk(db.events, db.deliveries, clientSessions', h.sent) && ClientSessionCap(p, clientSessions')
            && ViewInv(clientSessions', db.sessions, db.accounts, h.expiries, h.revokedAt, now)
  {
    hide DoomedRows, DoomedDelivery, DoomedEvent, DoomedSession, Pursued, Dead;
    var clientSessions' := db.clientSessions - Keys(victims);
    forall e, k | e in db.events && Member(db.clientSessions, db.events[e].sso, k) ensures k in clientSessions' {
      assert HasEvent(db.events, db.clientSessions[k].sso);
      if Pair(k) in victims { VictimDoomed(db, ClientSessions, at, victims, Pair(k)); }
    }
    forall sso, client ensures |ActiveClientSessions(clientSessions', sso, client)| <= p.clientSessionCap {
      SubsetCard(ActiveClientSessions(clientSessions', sso, client),
        ActiveClientSessions(db.clientSessions, sso, client));
    }
  }

  lemma SessionsDropped(p: Policy, db: Db, at: int, victims: set<RowId>)
    requires AccountInv(p, db.accounts, db.sessions, db.contexts, db.logoutTxs, db.revocations)
    requires EventInv(p, db.events, db.sessions, db.accounts)
    requires victims <= DoomedRows(db, Sessions, at)
    ensures var sessions' := db.sessions - Ids(victims);
            AccountInv(p, db.accounts, sessions', db.contexts, db.logoutTxs, db.revocations)
              && EventInv(p, db.events, sessions', db.accounts)
  {
    hide DoomedRows, DoomedDelivery, DoomedEvent, Pursued, Dead, CoveredBy;
    var sessions' := db.sessions - Ids(victims);
    forall s | s in Ids(victims)
      ensures s !in db.contexts && !HasEvent(db.events, s) && forall x :: x in db.logoutTxs ==> db.logoutTxs[x].sso != s
    {
      VictimDoomed(db, Sessions, at, victims, Plain(s));
    }
    forall e | e in db.events ensures db.events[e].sso in sessions' {
      assert HasEvent(db.events, db.events[e].sso);
    }
  }

  lemma SessionsDroppedCap(p: Policy, sessions: map<Id, Session>, accounts: map<Id, Account>, now: int, ids: set<Id>)
    requires SessionCap(p, sessions, accounts, now)
    ensures SessionCap(p, sessions - ids, accounts, now)
  {
    var sessions' := sessions - ids;
    forall a, t | a in accounts && t >= now ensures |ActiveSessions(sessions', a, accounts[a].epoch, t)| <= p.ssoCap {
      SubsetCard(ActiveSessions(sessions', a, accounts[a].epoch, t), ActiveSessions(sessions, a, accounts[a].epoch, t));
    }
  }

  lemma SessionsDroppedView(clientSessions: map<Key, ClientSession>, sessions: map<Id, Session>,
                            accounts: map<Id, Account>, expiries: map<Key, int>, revokedAt: map<Key, int>, now: int,
                            ids: set<Id>)
    requires ViewInv(clientSessions, sessions, accounts, expiries, revokedAt, now)
    ensures ViewInv(clientSessions, sessions - ids, accounts, expiries, revokedAt, now)
  {
  }

  // ---------------------------------------------------------------- one DELETE

  lemma CollectOutboxKeeps(p: Policy, w: World, table: Table, at: int, victims: set<RowId>)
    requires Inv(p, w) && victims <= DoomedRows(w.db, table, at) && (table == Deliveries || table == Events)
    ensures Inv(p, AfterCollect(w, table, victims))
  {
    hide AccountInv, EventInv, RowInv, SentOk, LoginInv, RegistrationsOnce, CodeInv, SessionCap, ClientSessionCap,
      AssertionsKept, ViewInv, UsedHistory, DoomedRows;
    if table == Deliveries {
      DeliveriesDropped(p, w.db, w.h, w.now, at, victims);
      DeliveriesDroppedSent(w.db, w.h.sent, at, victims);
    } else {
      EventsDropped(p, w.db, w.h, w.now, at, victims);
      EventsDroppedSent(w.db.events, w.db.deliveries, w.db.clientSessions, w.h.sent, Ids(victims));
    }
  }

  lemma CollectSessionsKeeps(p: Policy, w: World, table: Table, at: int, victims: set<RowId>)
    requires Inv(p, w) && victims <= DoomedRows(w.db, table, at)
    requires table == Tokens || table == CodeContexts || table == Codes || table == ClientSessions || table == Contexts
             || table == Sessions
    ensures Inv(p, AfterCollect(w, table, victims))
  {
    hide AccountInv, EventInv, RowInv, SentOk, LoginInv, RegistrationsOnce, CodeInv, SessionCap, ClientSessionCap,
      AssertionsKept, ViewInv, UsedHistory, NotifiedRevoked, DoomedRows;
    if table == Contexts {
      ChildrenDropped(p, w.db.accounts, w.db.sessions, w.db.contexts, w.db.logoutTxs, w.db.revocations, Ids(victims));
    } else {
      EvidenceDropped(w.db, table, at, victims);
    }
    if table == ClientSessions { ClientSessionsDropped(p, w.db, w.h, w.now, at, victims); }
    if table == Sessions {
      SessionsDropped(p, w.db, at, victims);
      SessionsDroppedCap(p, w.db.sessions, w.db.accounts, w.now, Ids(victims));
      SessionsDroppedView(w.db.clientSessions, w.db.sessions, w.db.accounts, w.h.expiries, w.h.revokedAt, w.now,
        Ids(victims));
    }
  }

  lemma CollectOthersKeeps(p: Policy, w: World, table: Table, at: int, victims: set<RowId>)
    requires Inv(p, w) && at <= w.now && victims <= DoomedRows(w.db, table, at)
    requires table == Ceremonies || table == Logins || table == LogoutTxs || table == Assertions || table == Rates
             || table == Revocations || table == Audits
    ensures Inv(p, AfterCollect(w, table, victims))
  {
    hide AccountInv, EventInv, RowInv, SentOk, LoginInv, RegistrationsOnce, CodeInv, SessionCap, ClientSessionCap,
      AssertionsKept, ViewInv, UsedHistory, NotifiedRevoked, DoomedRows;
    if table == Ceremonies || table == Logins { LoginRowsDropped(w.db, w.h, table, at, victims); }
    else if table == LogoutTxs {
      ChildrenDropped(p, w.db.accounts, w.db.sessions, w.db.contexts, w.db.logoutTxs, w.db.revocations, Ids(victims));
    }
    else if table == Assertions { AssertionsDropped(p, w.db, w.h, w.now, at, victims); }
    else if table == Revocations { RevocationsDropped(p, w.db, at, victims); }
  }

  lemma CollectKeeps(p: Policy, w: World, table: Table, at: int, victims: set<RowId>)
    requires Inv(p, w) && at <= w.now && victims <= DoomedRows(w.db, table, at)
    ensures Inv(p, AfterCollect(w, table, victims))
  {
    hide *;
    match table
    case Deliveries | Events => CollectOutboxKeeps(p, w, table, at, victims);
    case Tokens | CodeContexts | Codes | ClientSessions | Contexts | Sessions =>
      CollectSessionsKeeps(p, w, table, at, victims);
    case _ => CollectOthersKeeps(p, w, table, at, victims);
  }
}
