/** What holds in every reachable state of the OpenID provider. Each predicate names the tables it is about. */
module OpInvariants {
  import opened Wrappers
  import opened RuntimePolicy
  import opened RetryTiming
  import opened OpTables
  import opened OpBatches
  import opened OpGc
  import opened OpMachine

  // ---------------------------------------------------------------- references

  ghost predicate SessionRefs(sessions: map<Id, Session>, accounts: map<Id, Account>) {
    forall s :: s in sessions ==> sessions[s].account in accounts
  }

  ghost predicate ContextRefs(contexts: map<Id, Context>, sessions: map<Id, Session>) {
    forall x :: x in contexts ==> x in sessions
  }

  ghost predicate ClientSessionRefs(clientSessions: map<Key, ClientSession>, sessions: map<Id, Session>) {
    forall k :: k in clientSessions ==> clientSessions[k].sso in sessions
  }

  ghost predicate CodeRefs(codes: map<Id, Code>, clientSessions: map<Key, ClientSession>) {
    forall c :: c in codes ==> codes[c].key in clientSessions
  }

  ghost predicate CodeContextRefs(codeContexts: map<Id, Id>, codes: map<Id, Code>) {
    forall c :: c in codeContexts ==> c in codes
  }

  ghost predicate TokenRefs(tokens: map<Id, Token>, codes: map<Id, Code>) {
    forall c :: c in tokens ==> c in codes
  }

  ghost predicate LogoutTxRefs(logoutTxs: map<Id, LogoutTx>, sessions: map<Id, Session>) {
    forall x :: x in logoutTxs ==> logoutTxs[x].sso in sessions
  }

  ghost predicate CeremonyRefs(ceremonies: map<Id, Ceremony>, logins: map<Id, Login>) {
    forall c :: c in ceremonies ==> ceremonies[c].login in logins
  }

  ghost predicate EventRefs(events: map<Id, Event>, sessions: map<Id, Session>) {
    forall e :: e in events ==> events[e].sso in sessions
  }

  ghost predicate DeliveryRefs(deliveries: map<Id, Delivery>, events: map<Id, Event>) {
    forall d :: d in deliveries ==> deliveries[d].event in events
  }

  /** No child row without its parent. */
  ghost predicate Refs(db: Db) {
    && SessionRefs(db.sessions, db.accounts)
    && ContextRefs(db.contexts, db.sessions)
    && ClientSessionRefs(db.clientSessions, db.sessions)
    && CodeRefs(db.codes, db.clientSessions)
    && CodeContextRefs(db.codeContexts, db.codes)
    && TokenRefs(db.tokens, db.codes)
    && LogoutTxRefs(db.logoutTxs, db.sessions)
    && CeremonyRefs(db.ceremonies, db.logins)
    && EventRefs(db.events, db.sessions)
    && DeliveryRefs(db.deliveries, db.events)
  }

  // ---------------------------------------------------------------- epochs and revocation

  /** A session never runs ahead of its account's epoch. */
  ghost predicate EpochBound(sessions: map<Id, Session>, accounts: map<Id, Account>) {
    forall s :: s in sessions && sessions[s].account in accounts ==>
      sessions[s].epoch <= accounts[sessions[s].account].epoch
  }

  /** A revocation only covers epochs its account has already left. */
  ghost predicate RevocationsPast(revocations: map<Id, Revocation>, accounts: map<Id, Account>) {
    forall r :: r in revocations ==>
      revocations[r].account in accounts && revocations[r].through < accounts[revocations[r].account].epoch
  }

  ghost predicate CoveredBy(revocations: map<Id, Revocation>, s: Session) {
    exists r :: r in revocations && revocations[r].account == s.account && revocations[r].through == s.epoch
  }

  /** The revocation that ended a stale session's epoch is still stored. */
  ghost predicate StaleCovered(sessions: map<Id, Session>, accounts: map<Id, Account>,
                               revocations: map<Id, Revocation>)
  {
    forall s :: s in sessions && sessions[s].account in accounts
                && sessions[s].epoch < accounts[sessions[s].account].epoch ==>
      CoveredBy(revocations, sessions[s])
  }

  /** A session with a logout event is permanently dead. */
  ghost predicate EventsDead(events: map<Id, Event>, sessions: map<Id, Session>, accounts: map<Id, Account>) {
    forall e :: e in events && events[e].sso in sessions ==> Dead(sessions[events[e].sso], accounts)
  }

  /** At most one logout event per SSO session; an event whose id is a session id belongs to that session. */
  ghost predicate UniqueEvents(events: map<Id, Event>, sessions: map<Id, Session>) {
    && (forall e, e' :: e in events && e' in events && events[e].sso == events[e'].sso ==> e == e')
    && (forall e :: e in events && e in sessions ==> events[e].sso == e)
  }

  /** Committed identifiers are remembered, so a fresh one is in none of these tables. */
  ghost predicate UsedIds(used: set<Id>, logins: map<Id, Login>, sessions: map<Id, Session>, events: map<Id, Event>) {
    && (forall i :: i in logins ==> i in used)
    && (forall i :: i in sessions ==> i in used)
    && (forall i :: i in events ==> i in used)
  }

  ghost predicate UsedHistory(used: set<Id>, issued: map<Id, Task>, expiries: map<Key, int>,
                              codesOf: map<Id, set<Id>>)
  {
    && (forall l :: l in issued ==> l in used)
    && (forall k :: k in expiries ==> k.sid in used)
    && (forall l :: l in codesOf ==> l in used)
  }

  // ---------------------------------------------------------------- delivery rows

  ghost predicate RowOk(p: Policy, row: Delivery) {
    && (row.state.Leased? <==> row.lease.Some?)
    && (row.state.Leased? <==> row.leaseUntil.Some?)
    && (row.Terminal() <==> row.finishedAt.Some?)
    && (row.Terminal() ==> row.gcAfter.Some?)
    && row.attempts <= p.maxAttempts
    && (row.state.Pending? ==> row.attempts < p.maxAttempts)
    && (row.state.Leased? ==> row.attempts > 0)
    && (!row.Terminal() ==> row.nextAt < row.deadline)
  }

  ghost predicate RowsOk(p: Policy, deliveries: map<Id, Delivery>) {
    forall d :: d in deliveries ==> RowOk(p, deliveries[d])
  }

  /** UNIQUE(event_id, client_id, sid) */
  ghost predicate UniqueRows(deliveries: map<Id, Delivery>) {
    forall d, d' ::
      d in deliveries && d' in deliveries && deliveries[d].event == deliveries[d'].event
        && deliveries[d].key == deliveries[d'].key ==>
        d == d'
  }

  /** An undelivered row shares its event's deadline; a delivered one keeps an earlier or equal one. */
  ghost predicate DeadlinesAgree(deliveries: map<Id, Delivery>, events: map<Id, Event>) {
    forall d :: d in deliveries && deliveries[d].event in events ==>
      if deliveries[d].state.Delivered? then deliveries[d].deadline <= events[deliveries[d].event].deadline
      else deliveries[d].deadline == events[deliveries[d].event].deadline
  }

  ghost predicate EventsRetained(p: Policy, events: map<Id, Event>) {
    forall e :: e in events ==>
      events[e].createdAt < events[e].deadline && events[e].gcAfter >= p.Retained(events[e].deadline)
  }

  ghost predicate RevocationsRetained(p: Policy, revocations: map<Id, Revocation>) {
    forall r :: r in revocations ==>
      revocations[r].createdAt < revocations[r].deadline
        && revocations[r].gcAfter >= p.Retained(revocations[r].deadline)
  }

  /** A leased row is exactly as its claim left it, and the claim is on record under the row's lease. */
  ghost predicate LeasesMatch(deliveries: map<Id, Delivery>, issued: map<Id, Task>) {
    && (forall d :: d in deliveries && deliveries[d].lease.Some? ==>
          var row := deliveries[d];
          row.lease.value in issued
          && issued[row.lease.value] == Task(d, row.lease.value, row.key.client, row.key.sid, row.deadline,
             row.attempts))
    && (forall l :: l in issued ==> issued[l].lease == l && issued[l].attempts > 0)
  }

  /** The per-client concurrency bound, for every present and later time. */
  ghost predicate InFlightBound(p: Policy, deliveries: map<Id, Delivery>, now: int) {
    forall client, t :: t >= now ==> |InFlight(deliveries, client, t)| <= p.maxInflight
  }

  ghost predicate Member(clientSessions: map<Key, ClientSession>, sso: Id, k: Key) {
    k in clientSessions && clientSessions[k].sso == sso
  }

  /** What a stored event has notified: only members of its session; every row ever made is on record; a row
      of an unexpanded event is still stored; an expanded event has had a row for every member. */
  ghost predicate SentOk(events: map<Id, Event>, deliveries: map<Id, Delivery>,
                         clientSessions: map<Key, ClientSession>, sent: map<Id, set<Key>>) {
    && sent.Keys == events.Keys
    && (forall e, k :: e in events && k in sent[e] ==> Member(clientSessions, events[e].sso, k))
    && (forall d :: d in deliveries && deliveries[d].event in events ==> deliveries[d].key in sent[deliveries[d].event])
    && (forall e, k :: e in events && !events[e].expanded && k in sent[e] ==> HasDelivery(deliveries, e, k))
    && (forall e, k :: e in events && events[e].expanded && Member(clientSessions, events[e].sso, k) ==> k in sent[e])
  }

  // ---------------------------------------------------------------- issuance and caps

  ghost predicate AtMostOne<T>(s: set<T>) {
    forall x, y :: x in s && y in s ==> x == y
  }

  /** A login transaction that produced a code is spent, and produced only one. */
  ghost predicate CodesOnce(logins: map<Id, Login>, codesOf: map<Id, set<Id>>) {
    && (forall l :: l in codesOf ==> AtMostOne(codesOf[l]))
    && (forall l :: l in codesOf && l in logins ==> logins[l].consumed)
  }

  /** An invitation that created an account is spent, and created only one; bootstrap made at most one admin. */
  ghost predicate RegistrationsOnce(invitations: map<Id, Invitation>, registered: map<Id, set<Id>>, roles: set<Id>,
                                    closed: bool)
  {
    && (forall i :: i in registered ==> AtMostOne(registered[i]))
    && (forall i :: i in registered ==> i in invitations && invitations[i].usedBy.Some?)
    && AtMostOne(roles)
    && (roles != {} ==> closed)
  }

  /** Caps, for every present and later time. */
  ghost predicate SessionCap(p: Policy, sessions: map<Id, Session>, accounts: map<Id, Account>, now: int) {
    forall a, t :: a in accounts && t >= now ==> |ActiveSessions(sessions, a, accounts[a].epoch, t)| <= p.ssoCap
  }

  ghost predicate ClientSessionCap(p: Policy, clientSessions: map<Key, ClientSession>) {
    forall sso, client :: |ActiveClientSessions(clientSessions, sso, client)| <= p.clientSessionCap
  }

  /** Every accepted assertion is still stored under a bound at least its own, or its bound and grace have passed. */
  ghost predicate AssertionsKept(p: Policy, assertions: map<Key, AssertionUse>, accepted: set<Acceptance>, now: int) {
    && (forall k :: k in assertions ==> assertions[k].gcAfter == p.Retained(assertions[k].retainUntil))
    && (forall a :: a in accepted ==>
          (a.key in assertions && assertions[a.key].retainUntil >= a.exp + p.skew) || p.Retained(a.exp + p.skew) <= now)
  }

  // ---------------------------------------------------------------- what relying parties may learn

  ghost predicate ExpiriesKnown(clientSessions: map<Key, ClientSession>, sessions: map<Id, Session>,
                                expiries: map<Key, int>)
  {
    forall k :: k in clientSessions && clientSessions[k].sso in sessions ==>
      k in expiries && expiries[k] == sessions[clientSessions[k].sso].expiresAt
  }

  /** A stored client session is on record as revoked exactly when its parent is permanently dead. */
  ghost predicate RevokedExactly(clientSessions: map<Key, ClientSession>, sessions: map<Id, Session>,
                                 accounts: map<Id, Account>, revokedAt: map<Key, int>) {
    forall k :: k in clientSessions && clientSessions[k].sso in sessions ==>
      (k in revokedAt <==> Dead(sessions[clientSessions[k].sso], accounts))
  }

  ghost predicate RevokedPast(revokedAt: map<Key, int>, expiries: map<Key, int>, now: int) {
    forall k :: k in revokedAt ==> revokedAt[k] <= now && k in expiries
  }

  /** Only revoked client sessions are ever queued for notification or handed to a sender. */
  ghost predicate NotifiedRevoked(deliveries: map<Id, Delivery>, issued: map<Id, Task>, revokedAt: map<Key, int>) {
    && (forall d :: d in deliveries ==> deliveries[d].key in revokedAt)
    && (forall l :: l in issued ==> Key(issued[l].client, issued[l].sid) in revokedAt)
  }

  // ---------------------------------------------------------------- the invariant, in groups

  ghost predicate AccountInv(p: Policy, accounts: map<Id, Account>, sessions: map<Id, Session>,
                             contexts: map<Id, Context>, logoutTxs: map<Id, LogoutTx>, revocations: map<Id, Revocation>)
  {
    && SessionRefs(sessions, accounts)
    && ContextRefs(contexts, sessions)
    && LogoutTxRefs(logoutTxs, sessions)
    && EpochBound(sessions, accounts)
    && RevocationsPast(revocations, accounts)
    && StaleCovered(sessions, accounts, revocations)
    && RevocationsRetained(p, revocations)
  }

  ghost predicate EventInv(p: Policy, events: map<Id, Event>, sessions: map<Id, Session>, accounts: map<Id, Account>) {
    && EventRefs(events, sessions)
    && EventsDead(events, sessions, accounts)
    && UniqueEvents(events, sessions)
    && EventsRetained(p, events)
  }

  ghost predicate RowInv(p: Policy, deliveries: map<Id, Delivery>, events: map<Id, Event>, issued: map<Id, Task>,
                         now: int)
  {
    && DeliveryRefs(deliveries, events)
    && RowsOk(p, deliveries)
    && UniqueRows(deliveries)
    && DeadlinesAgree(deliveries, events)
    && LeasesMatch(deliveries, issued)
    && InFlightBound(p, deliveries, now)
  }

  ghost predicate LoginInv(ceremonies: map<Id, Ceremony>, logins: map<Id, Login>, codesOf: map<Id, set<Id>>) {
    && CeremonyRefs(ceremonies, logins)
    && CodesOnce(logins, codesOf)
  }

  ghost predicate CodeInv(clientSessions: map<Key, ClientSession>, sessions: map<Id, Session>, codes: map<Id, Code>,
                          codeContexts: map<Id, Id>, tokens: map<Id, Token>)
  {
    && ClientSessionRefs(clientSessions, sessions)
    && CodeRefs(codes, clientSessions)
    && CodeContextRefs(codeContexts, codes)
    && TokenRefs(tokens, codes)
  }

  ghost predicate ViewInv(clientSessions: map<Key, ClientSession>, sessions: map<Id, Session>,
                          accounts: map<Id, Account>, expiries: map<Key, int>, revokedAt: map<Key, int>, now: int)
  {
    && ExpiriesKnown(clientSessions, sessions, expiries)
    && RevokedExactly(clientSessions, sessions, accounts, revokedAt)
    && RevokedPast(revokedAt, expiries, now)
  }

  ghost predicate Inv(p: Policy, w: World) {
    && AccountInv(p, w.db.accounts, w.db.sessions, w.db.contexts, w.db.logoutTxs, w.db.revocations)
    && EventInv(p, w.db.events, w.db.sessions, w.db.accounts)
    && RowInv(p, w.db.deliveries, w.db.events, w.h.issued, w.now)
    && SentOk(w.db.events, w.db.deliveries, w.db.clientSessions, w.h.sent)
    && LoginInv(w.db.ceremonies, w.db.logins, w.h.codesOf)
    && RegistrationsOnce(w.db.invitations, w.h.registered, w.db.roles, w.db.bootstrapClosed)
    && CodeInv(w.db.clientSessions, w.db.sessions, w.db.codes, w.db.codeContexts, w.db.tokens)
    && SessionCap(p, w.db.sessions, w.db.accounts, w.now)
    && ClientSessionCap(p, w.db.clientSessions)
    && AssertionsKept(p, w.db.assertions, w.h.accepted, w.now)
    && ViewInv(w.db.clientSessions, w.db.sessions, w.db.accounts, w.h.expiries, w.h.revokedAt, w.now)
    && NotifiedRevoked(w.db.deliveries, w.h.issued, w.h.revokedAt)
    && UsedIds(w.h.used, w.db.logins, w.db.sessions, w.db.events)
    && UsedHistory(w.h.used, w.h.issued, w.h.expiries, w.h.codesOf)
  }
}
