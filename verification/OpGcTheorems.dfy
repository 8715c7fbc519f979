/** Main results about garbage collection: no live answer changes, references hold at every cut, the budget is
    respected, and repeated passes empty a quiescent database. */
module OpGcTheorems {
  import opened Wrappers
  import opened RuntimePolicy
  import opened Sets
  import opened OpTables
  import opened OpBatches
  import opened OpGc
  import opened OpMachine
  import opened OpInvariants
  import opened OpStepsGc

  // ---------------------------------------------------------------- invisibility

  /** Both databases give the same answers to every query that decides authentication at time t. */
  ghost predicate SameAnswers(p: Policy, db: Db, db': Db, t: int) {
    && (forall secret :: SsoLookup(db', secret, t) == SsoLookup(db, secret, t))
    && (forall login, browser :: LoginOpen(db', login, browser, t) <==> LoginOpen(db, login, browser, t))
    && (forall ceremony, browser ::
       CeremonyOpen(db', p, ceremony, browser, t)
       <==> CeremonyOpen(db, p, ceremony, browser, t))
    && (forall key :: Eligible(db', key, t) <==> Eligible(db, key, t))
    && (forall key :: SessionCheck(db', key, t) == SessionCheck(db, key, t))
    && (forall access :: UserInfo(db', access, t) == UserInfo(db, access, t))
    && (forall csrf, browser, sso :: LogoutOpen(db', csrf, browser, sso, t) <==> LogoutOpen(db, csrf, browser, sso, t))
    && (forall code :: CodeRead(db', code, t) == CodeRead(db, code, t))
  }

  /** `m'` is `m` without some rows. */
  ghost predicate Submap<K(!new), V>(m': map<K, V>, m: map<K, V>) {
    forall k :: k in m' ==> k in m && m'[k] == m[k]
  }

  /** The session has expired by `at`, or is not stored. */
  ghost predicate Ended(sessions: map<Id, Session>, sso: Id, at: int) {
    sso in sessions ==> sessions[sso].expiresAt <= at
  }

  ghost predicate KeyEnded(db: Db, key: Key, at: int) {
    key in db.clientSessions ==> Ended(db.sessions, db.clientSessions[key].sso, at)
  }

  /** The rows missing from `m'` belong to codes whose session had ended by `at`. */
  ghost predicate CodeRowsDropped<V>(db: Db, m: map<Id, V>, m': map<Id, V>, at: int) {
    Submap(m', m) && forall c :: c in m && c !in m' ==> c in db.codes && KeyEnded(db, db.codes[c].key, at)
  }

  /** `db'` lacks only rows that had expired, or whose session had, by `at`. */
  ghost predicate Dropped(db: Db, db': Db, at: int) {
    && db'.accounts == db.accounts && db'.credentials == db.credentials && db'.clients == db.clients
       && db'.connections == db.connections
    && Submap(db'.logins, db.logins)
    && (forall l :: l in db.logins && l !in db'.logins ==> db.logins[l].expiresAt <= at)
    && Submap(db'.ceremonies, db.ceremonies)
    && (forall c :: c in db.ceremonies && c !in db'.ceremonies ==> db.ceremonies[c].expiresAt <= at)
    && Submap(db'.sessions, db.sessions)
    && (forall s :: s in db.sessions && s !in db'.sessions ==> db.sessions[s].expiresAt <= at)
    && Submap(db'.contexts, db.contexts)
    && (forall x :: x in db.contexts && x !in db'.contexts ==> Ended(db.sessions, x, at))
    && Submap(db'.clientSessions, db.clientSessions)
    && (forall k :: k in db.clientSessions && k !in db'.clientSessions ==> KeyEnded(db, k, at))
    && Submap(db'.codes, db.codes)
    && (forall c :: c in db.codes && c !in db'.codes ==> KeyEnded(db, db.codes[c].key, at))
    && Submap(db'.logoutTxs, db.logoutTxs)
    && (forall x :: x in db.logoutTxs && x !in db'.logoutTxs ==> db.logoutTxs[x].expiresAt <= at)
    && CodeRowsDropped(db, db.codeContexts, db'.codeContexts, at) && CodeRowsDropped(db, db.tokens, db'.tokens, at)
  }

  lemma SameLive(db: Db, db': Db, at: int, sso: Id, t: int)
    requires Dropped(db, db', at) && t >= at
    ensures Live(db', sso, t) <==> Live(db, sso, t)
    ensures Live(db, sso, t) ==>
              sso in db'.sessions && db'.sessions[sso] == db.sessions[sso]
              && !Ended(db.sessions, sso, at)
  {
  }

  lemma SameEligible(db: Db, db': Db, at: int, key: Key, t: int)
    requires Dropped(db, db', at) && t >= at
    ensures Eligible(db', key, t) <==> Eligible(db, key, t)
    ensures Eligible(db, key, t) ==>
              key in db'.clientSessions && db'.clientSessions[key] == db.clientSessions[key]
              && !KeyEnded(db, key, at)
    ensures Eligible(db, key, t) ==> Live(db, db.clientSessions[key].sso, t)
  {
    hide Live;
    if key in db.clientSessions { SameLive(db, db', at, db.clientSessions[key].sso, t); }
    assert Submap(db'.clientSessions, db.clientSessions);
  }

  lemma SameValid(db: Db, db': Db, at: int, key: Key, t: int)
    requires Dropped(db, db', at) && t >= at
    ensures ValidSession(db', key, t) <==> ValidSession(db, key, t)
  {
    hide Eligible, Live, KeyEnded, Ended;
    SameEligible(db, db', at, key, t);
    if ValidSession(db, key, t) {
      var c :| c in db.codes && c in db.tokens && db.codes[c].key == key && !db.tokens[c].revoked;
      assert c in db'.codes && c in db'.tokens;
    }
  }

  lemma SameLookup(db: Db, db': Db, at: int, secret: Id, t: int)
    requires Dropped(db, db', at) && t >= at
    ensures SsoLookup(db', secret, t) == SsoLookup(db, secret, t)
  {
    hide Live;
    forall sso ensures sso in SsoLookup(db', secret, t) <==> sso in SsoLookup(db, secret, t) {
      SameLive(db, db', at, sso, t);
    }
  }

  lemma SameCheck(db: Db, db': Db, at: int, key: Key, t: int)
    requires Dropped(db, db', at) && t >= at
    ensures SessionCheck(db', key, t) == SessionCheck(db, key, t)
  {
    hide Live;
    SameValid(db, db', at, key, t);
    SameEligible(db, db', at, key, t);
    if ValidSession(db, key, t) { SameLive(db, db', at, db.clientSessions[key].sso, t); }
  }

  lemma SameUserInfo(db: Db, db': Db, at: int, access: Id, t: int)
    requires Dropped(db, db', at) && t >= at
    ensures UserInfo(db', access, t) == UserInfo(db, access, t)
  {
    hide Eligible, Live, Ended, ValidSession, KeyEnded;
    forall c | c in db.codes
      ensures ValidSession(db', db.codes[c].key, t) <==> ValidSession(db, db.codes[c].key, t)
      ensures ValidSession(db, db.codes[c].key, t) ==> !KeyEnded(db, db.codes[c].key, at)
    {
      SameValid(db, db', at, db.codes[c].key, t);
      SameEligible(db, db', at, db.codes[c].key, t);
      ValidIsEligible(db, db.codes[c].key, t);
    }
    forall k | k in UserInfo(db, access, t) ensures k in UserInfo(db', access, t) {
      var c :| c in db.tokens && c in db.codes && db.tokens[c].access == access && !db.tokens[c].revoked
               && db.tokens[c].expiresAt > t && ValidSession(db, db.codes[c].key, t) && k == db.codes[c].key;
      assert c in db'.tokens && c in db'.codes;
    }
  }

  lemma ValidIsEligible(db: Db, key: Key, t: int)
    ensures ValidSession(db, key, t) ==> Eligible(db, key, t)
  {
  }

  lemma SameCode(db: Db, db': Db, at: int, code: Id, t: int)
    requires Dropped(db, db', at) && t >= at
    ensures CodeRead(db', code, t) == CodeRead(db, code, t)
  {
    hide Live;
    if code in db.codes {
      var key := db.codes[code].key;
      SameEligible(db, db', at, key, t);
      if Eligible(db, key, t) { SameLive(db, db', at, db.clientSessions[key].sso, t); }
    }
    assert Submap(db'.codes, db.codes) && Submap(db'.codeContexts, db.codeContexts)
      && Submap(db'.contexts, db.contexts);
  }

  lemma DroppedInvisible(p: Policy, db: Db, db': Db, at: int, t: int)
    requires Dropped(db, db', at) && t >= at
    ensures SameAnswers(p, db, db', t)
  {
    hide Eligible, ValidSession, Live, KeyEnded, Ended, SsoLookup, SessionCheck, UserInfo, CodeRead;
    forall secret ensures SsoLookup(db', secret, t) == SsoLookup(db, secret, t) { SameLookup(db, db', at, secret, t); }
    forall key ensures Eligible(db', key, t) <==> Eligible(db, key, t) { SameEligible(db, db', at, key, t); }
    forall key ensures SessionCheck(db', key, t) == SessionCheck(db, key, t) { SameCheck(db, db', at, key, t); }
    forall access ensures UserInfo(db', access, t) == UserInfo(db, access, t) { SameUserInfo(db, db', at, access, t); }
    forall code ensures CodeRead(db', code, t) == CodeRead(db, code, t) { SameCode(db, db', at, code, t); }
  }

  lemma KeyExpired(db: Db, key: Key, at: int)
    requires ExpiredKey(db, key, at)
    ensures KeyEnded(db, key, at)
  {
    hide Pursued, HasEvent;
  }

  /** Tables whose rows none of these queries reads. */
  predicate Unread(table: Table) {
    table.Assertions? || table.Rates? || table.Revocations? || table.Audits? || table.Deliveries? || table.Events?
  }

  lemma UnreadDropped(db: Db, table: Table, at: int, victims: set<RowId>)
    requires Unread(table)
    ensures Dropped(db, Delete(db, table, victims), at)
  {
    assert Dropped(db, db, at);
    hide Ids, Keys, KeyEnded, Ended, Submap;
  }

  lemma LoginsDropped(db: Db, table: Table, at: int, victims: set<RowId>)
    requires table.Ceremonies? || table.Logins? || table.LogoutTxs?
    requires forall row :: row in victims ==> row in Rows(db, table) && Doomed(db, table, row, at)
    ensures Dropped(db, Delete(db, table, victims), at)
  {
    hide KeyEnded, Ended;
  }

  lemma SessionsDroppedRows(db: Db, table: Table, at: int, victims: set<RowId>)
    requires table.Contexts? || table.Sessions?
    requires forall row :: row in victims ==> row in Rows(db, table) && Doomed(db, table, row, at)
    ensures Dropped(db, Delete(db, table, victims), at)
  {
    hide KeyEnded, Pursued, HasEvent;
  }

  lemma ExpiredRows<V>(db: Db, m: map<Id, V>, ids: set<Id>, at: int)
    requires forall c :: c in ids ==> ExpiredCode(db, c, at)
    ensures CodeRowsDropped(db, m, m - ids, at)
  {
    hide ExpiredKey, KeyEnded;
    forall c | c in ids ensures c in db.codes && KeyEnded(db, db.codes[c].key, at) {
      KeyExpired(db, db.codes[c].key, at);
    }
  }

  lemma CodesDropped(db: Db, table: Table, at: int, victims: set<RowId>)
    requires table.Tokens? || table.CodeContexts?
    requires forall row :: row in victims ==> row in Rows(db, table) && Doomed(db, table, row, at)
    ensures Dropped(db, Delete(db, table, victims), at)
  {
    assert Dropped(db, db, at);
    hide ExpiredCode, KeyEnded, Ended, Submap, CodeRowsDropped;
    forall c | c in Ids(victims) ensures ExpiredCode(db, c, at) { assert Plain(c) in victims; }
    ExpiredRows(db, db.tokens, Ids(victims), at);
    ExpiredRows(db, db.codeContexts, Ids(victims), at);
  }

  lemma EvidenceDroppedRows(db: Db, table: Table, at: int, victims: set<RowId>)
    requires table.Codes? || table.ClientSessions?
    requires forall row :: row in victims ==> row in Rows(db, table) && Doomed(db, table, row, at)
    ensures Dropped(db, Delete(db, table, victims), at)
  {
    hide ExpiredKey, KeyEnded, Ended;
    forall key | ExpiredKey(db, key, at) ensures KeyEnded(db, key, at) { KeyExpired(db, key, at); }
  }

  lemma VictimsExpired(db: Db, table: Table, at: int, victims: set<RowId>)
    requires victims <= DoomedRows(db, table, at)
    ensures Dropped(db, Delete(db, table, victims), at)
  {
    hide DoomedRows, Doomed, Delete, Dropped, Rows;
    forall row | row in victims ensures row in Rows(db, table) && Doomed(db, table, row, at) {
      VictimDoomed(db, table, at, victims, row);
    }
    match table
    case Ceremonies | Logins | LogoutTxs => LoginsDropped(db, table, at, victims);
    case Contexts | Sessions => SessionsDroppedRows(db, table, at, victims);
    case Tokens | CodeContexts => CodesDropped(db, table, at, victims);
    case Codes | ClientSessions => EvidenceDroppedRows(db, table, at, victims);
    case _ => UnreadDropped(db, table, at, victims);
  }

  /** Collection at time a changes no answer at any later time t >= a, whichever doomed rows it takes. */
  lemma CollectInvisible(p: Policy, db: Db, table: Table, at: int, victims: set<RowId>, t: int)
    requires victims <= DoomedRows(db, table, at) && t >= at
    ensures SameAnswers(p, db, Delete(db, table, victims), t)
  {
    hide Dropped, SameAnswers, DoomedRows, Delete;
    VictimsExpired(db, table, at, victims);
    DroppedInvisible(p, db, Delete(db, table, victims), at, t);
  }
}
