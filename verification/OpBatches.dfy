/** The statements and atomic batches of the OpenID provider. A batch is a function from the tables to
    `Some(tables)` when it commits, or `None` when a guard or a constraint aborts it. `now` is the time at
    which the database runs the batch; `at` is an earlier clock reading of the caller. */
module OpBatches {
  import opened Wrappers
  import opened RuntimePolicy
  import opened Sets
  import opened OpTables
  import opened RetryTiming

  // ---------------------------------------------------------------- login and issuance (local/op.ts)

  /** INSERT INTO op_login: the authorization endpoint opens a transaction. */
  function OpenLogin(p: Policy, db: Db, id: Id, browser: Id, at: int): Db {
    db.(logins := db.logins[id := Login(browser, at + p.loginTtl, p.Retained(at + p.loginTtl), false)])
  }

  /** Starting a ceremony consumes the earlier ones of the same transaction. */
  function StartCeremonyBatch(p: Policy, db: Db, now: int, login: Id, browser: Id, id: Id, register: bool,
                              account: Id, invitation: Id, at: int): Option<Db>
  {
    if !LoginOpen(db, login, browser, now) then None else
    var spent := map c | c in db.ceremonies ::
                   if db.ceremonies[c].login == login then db.ceremonies[c].(consumed := true) else db.ceremonies[c];
    Some(db.(ceremonies := spent[id := Ceremony(login, register, account, invitation, browser, at + p.ceremonyTtl,
                                                p.Retained(at + p.ceremonyTtl), 0, false)]))
  }

  /** A rejected WebAuthn response counts against a ceremony that is still open. */
  function CeremonyFailure(db: Db, id: Id): Db {
    if id in db.ceremonies && !db.ceremonies[id].consumed then
      db.(ceremonies := db.ceremonies[id := db.ceremonies[id].(failures := db.ceremonies[id].failures + 1)])
    else
      db
  }

  /** Unrevoked, unexpired sessions of the account's epoch: what the session cap counts. */
  function ActiveSessions(sessions: map<Id, Session>, account: Id, epoch: nat, t: int): set<Id> {
    set s | s in sessions && sessions[s].account == account && sessions[s].epoch == epoch
            && !sessions[s].revoked && sessions[s].expiresAt > t
  }

  /** Unrevoked client sessions of one SSO session and client. */
  function ActiveClientSessions(clientSessions: map<Key, ClientSession>, sso: Id, client: Id): set<Key> {
    set k | k in clientSessions && clientSessions[k].sso == sso && k.client == client && !clientSessions[k].revoked
  }

  /** The writes of a finish request before the session: consume the ceremony, then either register the
      account behind an invitation or check that the credential still belongs to the epoch that was read. */
  function AuthenticateWrites(p: Policy, db: Db, now: int, login: Id, browser: Id, ceremony: Id,
                              credential: Id, readEpoch: nat): Option<(Db, Id)>
  {
    if !LoginOpen(db, login, browser, now) || !CeremonyOpen(db, p, ceremony, browser, now) then None else
    var c := db.ceremonies[ceremony];
    var db1 := db.(ceremonies := db.ceremonies[ceremony := c.(consumed := true)]);
    if c.register then
      if c.invitation !in db.invitations then None else
      var i := db.invitations[c.invitation];
      if i.usedBy.Some? || i.expiresAt <= now then None
      else if i.bootstrap && db.bootstrapClosed then None
      else if c.account in db.accounts || credential in db.credentials then None
      else
        Some((db1.(invitations := db.invitations[c.invitation := i.(usedBy := Some(c.account))],
                   bootstrapClosed := db.bootstrapClosed || i.bootstrap,
                   accounts := db.accounts[c.account := Account(0, true)],
                   credentials := db.credentials[credential := Credential(c.account, true)],
                   roles := if i.bootstrap then db.roles + {c.account} else db.roles), c.account))
    else
      if credential !in db.credentials || !db.credentials[credential].active then None else
      var a := db.credentials[credential].account;
      if a !in db.accounts || !db.accounts[a].active || db.accounts[a].epoch != readEpoch then None
      else Some((db1, a))
  }

  /** INSERT INTO sso_session under the per-account cap, its context, and its retention bound. */
  function CreateSession(p: Policy, db: Db, now: int, account: Id, credential: Id, sso: Id, secret: Id,
                         at: int): Option<Db>
  {
    if account !in db.accounts || !db.accounts[account].active then None else
    var epoch := db.accounts[account].epoch;
    if |ActiveSessions(db.sessions, account, epoch, now)| >= p.ssoCap || sso in db.sessions then None else
    var expires := at + p.ssoTtl;
    var gc := Max(p.Retained(expires), p.Retained(at + p.auditTtl));
    Some(db.(sessions := db.sessions[sso := Session(account, credential, epoch, expires, false, gc)],
             contexts := db.contexts[sso := Context(secret, at)]))
  }

  /** The connection row (created on first use) and the client session, under the per-SSO cap. */
  function OpenClientSession(p: Policy, db: Db, sso: Id, key: Key): Option<Db> {
    if sso !in db.sessions || key in db.clientSessions then None
    else if |ActiveClientSessions(db.clientSessions, sso, key.client)| >= p.clientSessionCap then None
    else
      var account := db.sessions[sso].account;
      var link := (account, key.client);
      var connection := if link in db.connections then db.connections[link] else Connection(1, true);
      Some(db.(connections := db.connections[link := connection],
               clientSessions := db.clientSessions[key := ClientSession(sso, account, connection.version, false)]))
  }

  /** `issueCode`: one code for an open login transaction and a session that is live at commit. */
  function IssueCode(p: Policy, db: Db, now: int, login: Id, browser: Id, sso: Id, sid: Id, code: Id, nonce: Id,
                     at: int): Option<Db>
  {
    var key := Key(CLIENT, sid);
    if !LoginOpen(db, login, browser, now) || code in db.codes then None else
    var joined :- OpenClientSession(p, db, sso, key);
    if !Eligible(joined, key, now) then None else
    var s := db.sessions[sso];
    Some(joined.(codes := db.codes[code := Code(key, joined.clients[CLIENT].revision, Min(at + p.codeTtl, s.expiresAt),
      None)],
                 codeContexts := db.codeContexts[code := nonce],
                 logins := db.logins[login := db.logins[login].(consumed := true)],
                 sessions := db.sessions[sso := s.(gcAfter := Max(s.gcAfter, p.Retained(at + p.auditTtl)))]))
  }

  /** The whole finish batch: authentication writes, new session, new code. */
  function FinishBatch(p: Policy, db: Db, now: int, login: Id, browser: Id, ceremony: Id, credential: Id,
                       readEpoch: nat, sso: Id, secret: Id, sid: Id, code: Id, nonce: Id, at: int): Option<Db>
  {
    var (db1, account) :- AuthenticateWrites(p, db, now, login, browser, ceremony, credential, readEpoch);
    var db2 :- CreateSession(p, db1, now, account, credential, sso, secret, at);
    IssueCode(p, db2, now, login, browser, sso, sid, code, nonce, at)
  }

  /** design/sql/exchange-code.sql plus the retention update of `token()`. `keysActive` stands for the client key,
      assertion and signing key rows that the statement joins. */
  function ExchangeBatch(p: Policy, db: Db, now: int, code: Id, operation: Id, access: Id, keysActive: bool,
                         at: int): Option<Db>
  {
    if code !in db.codes || code in db.tokens || !keysActive then None else
    var c := db.codes[code];
    if c.consumedBy.Some? || c.expiresAt <= now || !Eligible(db, c.key, now)
       || c.revision != db.clients[c.key.client].revision then None else
    var sso := db.clientSessions[c.key].sso;
    var s := db.sessions[sso];
    var expires := Min(Min(at + p.accessTtl, s.expiresAt), s.expiresAt);
    if expires <= now then None else
    Some(db.(codes := db.codes[code := c.(consumedBy := Some(operation))],
             tokens := db.tokens[code := Token(access, expires, false)],
             sessions := db.sessions[sso := s.(gcAfter := Max(s.gcAfter, p.Retained(at + p.auditTtl)))]))
  }

  /** Replay of a consumed code revokes the token issued for it. */
  function RevokeToken(db: Db, code: Id): Db {
    if code in db.tokens then db.(tokens := db.tokens[code := db.tokens[code].(revoked := true)]) else db
  }

  /** design/sql/accept-assertion.sql plus the retention update of `acceptClient`: the primary key refuses a
      jti that is still stored. */
  function AcceptAssertion(p: Policy, db: Db, now: int, key: Key, exp: int, keysActive: bool): Option<Db> {
    var retainUntil := exp + p.skew;
    if key in db.assertions || key.client !in db.clients || !db.clients[key.client].active || !keysActive
       || retainUntil <= now then None
    else Some(db.(assertions := db.assertions[key := AssertionUse(retainUntil, p.Retained(retainUntil))]))
  }

  // ---------------------------------------------------------------- logout (local/op.ts, local/logout-delivery.ts)

  function BeginLogout(p: Policy, db: Db, csrf: Id, browser: Id, sso: Id, at: int): Option<Db> {
    if csrf in db.logoutTxs || sso !in db.sessions then None
    else Some(db.(logoutTxs := db.logoutTxs[csrf := LogoutTx(browser, sso, at + p.loginTtl,
      p.Retained(at + p.loginTtl))]))
  }

  /** `logoutEvent`: the per-session event that a browser logout records. */
  function LogoutEventRow(p: Policy, s: Session, sso: Id, at: int): Event {
    Event(sso, at, at + p.retryDeadline,
          Max(Max(s.expiresAt + p.Retained(0), p.Retained(at + Max(p.retryDeadline, p.auditTtl))), s.gcAfter),
          false, 0)
  }

  predicate HasEvent(events: map<Id, Event>, sso: Id) {
    exists e :: e in events && events[e].sso == sso
  }

  /** The POST half of logout: spend the transaction, record the event, revoke the session and its client sessions. */
  function LogoutBatch(p: Policy, db: Db, now: int, csrf: Id, sso: Id, event: Id, at: int): Option<Db> {
    if csrf !in db.logoutTxs || db.logoutTxs[csrf].expiresAt <= now then None else
    var db1 := db.(logoutTxs := db.logoutTxs - {csrf});
    if sso !in db.sessions then Some(db1)
    else if HasEvent(db.events, sso) || event in db.events then None
    else
      Some(db1.(events := db.events[event := LogoutEventRow(p, db.sessions[sso], sso, at)],
                sessions := db.sessions[sso := db.sessions[sso].(revoked := true)],
                clientSessions := map k | k in db.clientSessions ::
                                    if db.clientSessions[k].sso == sso then db.clientSessions[k].(revoked := true)
                                    else db.clientSessions[k]))
  }

  // ---------------------------------------------------------------- account revocation (local/account-admin.ts)

  /** `revokeAccountSessions`: advance the epoch that was read and record the revocation. */
  function RevokeAccountBatch(p: Policy, db: Db, operation: Id, account: Id, epoch: nat, at: int): Option<Db> {
    if account !in db.accounts || db.accounts[account].epoch != epoch || !db.accounts[account].active
       || operation in db.revocations then None
    else
      var deadline := at + p.retryDeadline;
      Some(db.(accounts := db.accounts[account := db.accounts[account].(epoch := epoch + 1)],
               revocations := db.revocations[operation := Revocation(account, epoch, at, deadline,
                                                                     p.Retained(Max(deadline, at + p.auditTtl)),
                                                                       false)]))
  }

  /** Does revocation r cover the session: same account, epoch not newer than the revoked one? */
  predicate Covers(r: Revocation, s: Session) {
    r.account == s.account && s.epoch <= r.through
  }

  /** The unexpanded revocations that cover a session. */
  function Pursuing(revocations: map<Id, Revocation>, s: Session): map<Id, Revocation> {
    map r | r in revocations && !revocations[r].expanded && Covers(revocations[r], s) :: revocations[r]
  }

  /** Sessions that an unexpanded revocation covers and that have no logout event yet. */
  function Uncovered(db: Db): set<Id> {
    set s | s in db.sessions && Pursuing(db.revocations, db.sessions[s]).Keys != {} && !HasEvent(db.events, s)
  }

  function CreatedTimes(revocations: map<Id, Revocation>): set<int> {
    set r | r in revocations :: revocations[r].createdAt
  }

  function Deadlines(revocations: map<Id, Revocation>): set<int> {
    set r | r in revocations :: revocations[r].deadline
  }

  function RetentionBounds(revocations: map<Id, Revocation>): set<int> {
    set r | r in revocations :: revocations[r].gcAfter
  }

  lemma BoundsExist(revocations: map<Id, Revocation>)
    requires revocations.Keys != {}
    ensures CreatedTimes(revocations) != {} && Deadlines(revocations) != {} && RetentionBounds(revocations) != {}
  {
    var r0 := Pick(revocations.Keys);
    assert revocations[r0].createdAt in CreatedTimes(revocations);
    assert revocations[r0].deadline in Deadlines(revocations);
    assert revocations[r0].gcAfter in RetentionBounds(revocations);
  }

  /** The event generated for one uncovered session: the earliest covering deadline, the longest retention. */
  function ExpandedEventRow(p: Policy, revocations: map<Id, Revocation>, s: Session, sso: Id): Event
    requires Pursuing(revocations, s).Keys != {}
  {
    var rs := Pursuing(revocations, s);
    BoundsExist(rs);
    Event(sso, Least(CreatedTimes(rs)), Least(Deadlines(rs)),
          Max(Max(s.gcAfter, s.expiresAt + p.Retained(0)), Greatest(RetentionBounds(rs))), false, 0)
  }

  /** First statement of `expandAccountRevocations`, for the `chosen` uncovered sessions (LIMIT fanout_batch_size). */
  function InsertExpanded(p: Policy, db: Db, chosen: set<Id>): Option<Db>
    requires chosen <= Uncovered(db)
  {
    if chosen * db.events.Keys != {} then None
    else
      Some(db.(events := map e | e in db.events.Keys + chosen ::
                           if e in db.events then db.events[e]
                           else ExpandedEventRow(p, db.revocations, db.sessions[e], e)))
  }

  /** Second statement: a revocation is expanded once every session it covers has an event. */
  predicate FullyExpanded(db: Db, r: Revocation) {
    forall s :: s in db.sessions && Covers(r, db.sessions[s]) ==> HasEvent(db.events, s)
  }

  function MarkExpanded(db: Db): Db {
    db.(revocations := map r | r in db.revocations ::
                         if !db.revocations[r].expanded && FullyExpanded(db, db.revocations[r])
                         then db.revocations[r].(expanded := true) else db.revocations[r])
  }

  function ExpandBatch(p: Policy, db: Db, chosen: set<Id>): Option<Db>
    requires chosen <= Uncovered(db)
  {
    var db1 :- InsertExpanded(p, db, chosen);
    Some(MarkExpanded(db1))
  }

  // ---------------------------------------------------------------- delivery (local/logout-delivery.ts)

  predicate HasDelivery(deliveries: map<Id, Delivery>, event: Id, key: Key) {
    exists d :: d in deliveries && deliveries[d].event == event && deliveries[d].key == key
  }

  /** (event, client, sid) combinations of unexpanded events that have no delivery row. */
  function MissingRows(db: Db): set<(Id, Key)> {
    set e, k | e in db.events && k in db.clientSessions && !db.events[e].expanded
               && db.clientSessions[k].sso == db.events[e].sso && !HasDelivery(db.deliveries, e, k) :: (e, k)
  }

  function NewDelivery(e: Event, id: Id, key: Key): Delivery {
    Delivery(id, key, e.deadline, Pending, 0, e.createdAt, None, None, None, None)
  }

  /** First statement of `fanout`: `rows` assigns row ids to the chosen missing combinations. */
  function InsertDeliveries(db: Db, rows: map<Id, (Id, Key)>): Db
    requires forall d :: d in rows ==> rows[d].0 in db.events
  {
    db.(deliveries := map d | d in db.deliveries.Keys + rows.Keys ::
                        if d in rows then NewDelivery(db.events[rows[d].0], rows[d].0, rows[d].1) else db.deliveries[d])
  }

  predicate FannedOut(db: Db, event: Id)
    requires event in db.events
  {
    forall k :: k in db.clientSessions && db.clientSessions[k].sso == db.events[event].sso ==>
      HasDelivery(db.deliveries, event, k)
  }

  /** Second statement of `fanout`. */
  function MarkFannedOut(db: Db): Db {
    db.(events := map e | e in db.events ::
                    if !db.events[e].expanded && FannedOut(db, e) then db.events[e].(expanded := true)
                      else db.events[e])
  }

  function FanoutBatch(db: Db, rows: map<Id, (Id, Key)>): Db
    requires forall d :: d in rows ==> rows[d].0 in db.events
  {
    MarkFannedOut(InsertDeliveries(db, rows))
  }

  /** Leased rows of a client whose lease is still running at t. */
  function InFlight(deliveries: map<Id, Delivery>, client: Id, t: int): set<Id> {
    set d | d in deliveries && deliveries[d].key.client == client && deliveries[d].state.Leased?
            && deliveries[d].leaseUntil.Some? && deliveries[d].leaseUntil.value > t
  }

  /** The WHERE clause of `claim`. */
  predicate Claimable(p: Policy, deliveries: map<Id, Delivery>, d: Id, at: int)
    requires d in deliveries
  {
    var row := deliveries[d];
    && (row.state.Pending? || row.state.Leased?)
    && row.nextAt <= at
    && row.LeaseBound() <= at
    && row.deadline > at
    && row.attempts < p.maxAttempts
    && |InFlight(deliveries, row.key.client, at)| < p.maxInflight
  }

  /** ORDER BY next_at, id */
  predicate NotAfter(deliveries: map<Id, Delivery>, d: Id, d': Id)
    requires d in deliveries && d' in deliveries
  {
    deliveries[d].nextAt < deliveries[d'].nextAt || (deliveries[d].nextAt == deliveries[d'].nextAt && d <= d')
  }

  /** The row that one `claim` takes: the first claimable one, or none. */
  predicate IsNextClaim(p: Policy, deliveries: map<Id, Delivery>, at: int, pick: Option<Id>) {
    match pick
    case None => forall d :: d in deliveries ==> !Claimable(p, deliveries, d, at)
    case Some(d) =>
      d in deliveries && Claimable(p, deliveries, d, at)
      && forall d' :: d' in deliveries && Claimable(p, deliveries, d', at) ==> NotAfter(deliveries, d, d')
  }

  function ClaimRow(p: Policy, row: Delivery, lease: Id, at: int): Delivery {
    row.(state := Leased, lease := Some(lease), leaseUntil := Some(at + p.deliveryLease), attempts := row.attempts + 1)
  }

  /** What a claim returns to the sender. */
  function TaskOf(p: Policy, d: Id, row: Delivery, lease: Id): Task {
    Task(d, lease, row.key.client, row.key.sid, row.deadline, row.attempts)
  }

  predicate SettlesOn(row: Delivery, lease: Id, at: int) {
    row.state.Leased? && row.lease == Some(lease) && row.leaseUntil.Some? && row.leaseUntil.value > at
  }

  function StateOf(v: Verdict): DeliveryState {
    match v
    case ToDelivered => Delivered
    case ToFailed(_) => Failed
    case ToExpired => Expired
    case ToPending(_, _) => Pending
  }

  function SettleRow(p: Policy, row: Delivery, verdict: Verdict, next: int, at: int): Delivery {
    row.(state := StateOf(verdict), nextAt := next, lease := None, leaseUntil := None,
         finishedAt := if verdict.ToPending? then None else Some(at),
         gcAfter := Some(Max(if row.gcAfter.Some? then row.gcAfter.value else 0, p.Retained(at + p.resultTtl))))
  }

  /** `settle`: compare-and-set on the lease; anything else is left alone. */
  function SettleBatch(p: Policy, db: Db, task: Task, verdict: Verdict, decidedAt: int, at: int): Db {
    if task.id in db.deliveries && SettlesOn(db.deliveries[task.id], task.lease, at) then
      db.(deliveries := db.deliveries[task.id := SettleRow(p, db.deliveries[task.id], verdict,
                                                           if verdict.ToPending? then verdict.next else decidedAt, at)])
    else
      db
  }

  predicate Expires(p: Policy, row: Delivery, at: int) {
    (row.state.Pending? || row.state.Leased?) && row.LeaseBound() <= at
    && (row.deadline <= at || row.attempts >= p.maxAttempts)
  }

  function ExpireRow(p: Policy, row: Delivery, at: int): Delivery {
    row.(state := if row.deadline <= at then Expired else Failed, lease := None, leaseUntil := None, finishedAt :=
      Some(at),
         gcAfter := Some(Max(if row.gcAfter.Some? then row.gcAfter.value else 0, p.Retained(at + p.resultTtl))))
  }

  /** `expire`: finish every unleased row whose deadline or attempts are exhausted. */
  function ExpireBatch(p: Policy, db: Db, at: int): Db {
    db.(deliveries := map d | d in db.deliveries ::
                        if Expires(p, db.deliveries[d], at) then ExpireRow(p, db.deliveries[d], at)
                          else db.deliveries[d])
  }

  // ---------------------------------------------------------------- operator retry (local/logout-admin.ts)

  /** Parameter check before the batch. */
  predicate RetryParameters(p: Policy, deadline: int, retainUntil: int, at: int) {
    deadline > at && retainUntil >= p.Retained(deadline + p.resultTtl)
  }

  /** The guard inside the batch: exact revision, fully expanded, everything terminal, nothing collected yet. */
  predicate RetryGuard(db: Db, now: int, event: Id, revision: nat, deadline: int) {
    && event in db.events
    && db.events[event].revision == revision
    && db.events[event].expanded
    && db.events[event].deadline < deadline
    && deadline > now
    && (exists d ::
       d in db.deliveries && db.deliveries[d].event == event
       && (db.deliveries[d].state.Failed? || db.deliveries[d].state.Expired?))
    && (forall d :: d in db.deliveries && db.deliveries[d].event == event ==>
       !db.deliveries[d].state.Pending? && !db.deliveries[d].state.Leased?)
    && FannedOut(db, event)
  }

  /** UNIQUE(event_id, revision) and the primary key of logout_retry_audit. */
  predicate AuditConflict(db: Db, operation: Id, event: Id, revision: nat) {
    operation in db.audits || exists a ::
      a in db.audits && db.audits[a].event == event
      && db.audits[a].revision == revision
  }

  function RetryRow(row: Delivery, deadline: int, retainUntil: int, at: int): Delivery {
    row.(state := Pending, attempts := 0, nextAt := at, deadline := deadline, lease := None, leaseUntil :=
      None, finishedAt := None,
         gcAfter := Some(Max(if row.gcAfter.Some? then row.gcAfter.value else 0, retainUntil)))
  }

  function RetryBatch(p: Policy, db: Db, now: int, operation: Id, event: Id, revision: nat, deadline: int,
                      retainUntil: int, at: int): Option<Db>
  {
    if !RetryGuard(db, now, event, revision, deadline) || AuditConflict(db, operation, event, revision) then None else
    var e := db.events[event];
    Some(db.(audits := db.audits[operation := Audit(event, revision, e.deadline, deadline,
                                                    Max(retainUntil, p.Retained(at + p.auditTtl)))],
             events := db.events[event := e.(revision := e.revision + 1, deadline := deadline, gcAfter :=
               Max(e.gcAfter, retainUntil))],
             deliveries := map d | d in db.deliveries ::
                             if db.deliveries[d].event == event && (db.deliveries[d].state.Failed?
                               || db.deliveries[d].state.Expired?)
                             then RetryRow(db.deliveries[d], deadline, retainUntil, at) else db.deliveries[d]))
  }

  // ---------------------------------------------------------------- rate windows (local/op.ts)

  function RateHit(db: Db, bucket: Id, gcAfter: int): Db {
    db.(rates := db.rates[bucket := if bucket in db.rates then Max(db.rates[bucket], gcAfter) else gcAfter])
  }
}
