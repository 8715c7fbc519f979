/** The queries that decide authentication, flattened: which rows have to be there, and what they have to say. */
module OpQueries {
  import opened Wrappers
  import opened RuntimePolicy
  import opened OpTables

  /** A cookie signs in exactly to the sessions of its context that are unrevoked and unexpired, whose account and
      credential are active and belong together, and whose epoch is still the account's. */
  lemma SsoLookupExactly(db: Db, secret: Id, t: int, sso: Id)
    ensures sso in SsoLookup(db, secret, t) <==>
            && sso in db.contexts && db.contexts[sso].secret == secret && sso in db.sessions
            && var s := db.sessions[sso];
            && !s.revoked && t < s.expiresAt
            && s.account in db.accounts && db.accounts[s.account].active && db.accounts[s.account].epoch == s.epoch
            && s.credential in db.credentials && db.credentials[s.credential].active
            && db.credentials[s.credential].account == s.account
    ensures sso in SsoLookup(db, secret, t) ==>
              SsoLookup(db, secret, t)[sso] == (db.sessions[sso], db.contexts[sso].authTime)
  {
  }

  /** What `/session/check` asks of a client session before it says `active`, in rows: the client session itself, its
      client and connection at the version it was opened under, its SSO session with account and credential, an
      exchanged code with an unrevoked token, and the context. */
  ghost predicate Confirmed(db: Db, key: Key, t: int) {
    && key in db.clientSessions && !db.clientSessions[key].revoked
    && var cs := db.clientSessions[key];
    && key.client in db.clients && db.clients[key.client].active
    && (cs.account, key.client) in db.connections && db.connections[(cs.account, key.client)].active
    && db.connections[(cs.account, key.client)].version == cs.version
    && cs.sso in db.sessions
    && var s := db.sessions[cs.sso];
    && s.account == cs.account && !s.revoked && t < s.expiresAt
    && s.account in db.accounts && db.accounts[s.account].active && db.accounts[s.account].epoch == s.epoch
    && s.credential in db.credentials && db.credentials[s.credential].active
    && db.credentials[s.credential].account == s.account
    && exists c :: c in db.codes && db.codes[c].key == key && c in db.tokens && !db.tokens[c].revoked
  }

  /** The check confirms exactly these client sessions, with their real end and authentication time. */
  lemma SessionCheckExactly(db: Db, key: Key, t: int)
    ensures SessionCheck(db, key, t).Some? <==> Confirmed(db, key, t) && db.clientSessions[key].sso in db.contexts
    ensures SessionCheck(db, key, t).Some? ==>
              var sso := db.clientSessions[key].sso;
              SessionCheck(db, key, t).value == (db.sessions[sso].expiresAt, db.contexts[sso].authTime)
  {
    if Confirmed(db, key, t) {
      var c :| c in db.codes && db.codes[c].key == key && c in db.tokens && !db.tokens[c].revoked;
      assert ValidSession(db, key, t);
    }
  }

  /** A bearer token is answered exactly for the confirmed client sessions of codes that it was issued for, while it is
      neither revoked nor expired. */
  lemma UserInfoExactly(db: Db, access: Id, t: int, key: Key)
    ensures key in UserInfo(db, access, t) <==>
            Confirmed(db, key, t) && exists c ::
              c in db.tokens && c in db.codes && db.codes[c].key == key
              && db.tokens[c].access == access && !db.tokens[c].revoked && t < db.tokens[c].expiresAt
  {
    ValidIs(db, key, t);
    hide Confirmed, ValidSession;
  }

  lemma ValidIs(db: Db, key: Key, t: int)
    ensures ValidSession(db, key, t) <==> Confirmed(db, key, t)
  {
    if Confirmed(db, key, t) {
      var c :| c in db.codes && db.codes[c].key == key && c in db.tokens && !db.tokens[c].revoked;
      assert c in db.codes;
    }
  }
}
