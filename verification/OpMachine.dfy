/** The OpenID provider as a state machine: every step is one atomic batch, and steps of different requests,
    scheduled runs and operators interleave freely under one non-decreasing clock. */
module OpMachine {
  import opened Wrappers
  import opened RuntimePolicy
  import opened RetryTiming
  import opened Sets
  import opened OpTables
  import opened OpBatches
  import opened OpGc

  /** An accepted client assertion: its jti, its expiry and the time of the accepting commit. */
  datatype Acceptance = Acceptance(key: Key, exp: int, at: int)

  /** What has happened so far; no batch reads it. */
  datatype Hist = Hist(
    used: set<Id>,                 // committed UUIDs and random secrets
    issued: map<Id, Task>,         // delivery leases handed out by `claim`
    sent: map<Id, set<Key>>,       // per stored logout event, the client sessions that ever got a delivery row
    codesOf: map<Id, set<Id>>,     // per login transaction, the authorization codes issued for it
    expiries: map<Key, int>,       // every client session ever opened, with its parent's expiry
    revokedAt: map<Key, int>,      // commit time of the revocation of a client session
    accepted: set<Acceptance>,
    registered: map<Id, set<Id>>)  // per invitation, the accounts created with it

  datatype World = World(now: int, db: Db, h: Hist)

  datatype Step =
    | Tick(to: int)
    | BeginLogin(login: Id, browser: Id, at: int)
    | StartCeremony(login: Id, browser: Id, ceremony: Id, register: bool, account: Id, invitation: Id, at: int)
    | FailCeremony(ceremony: Id)
    | Finish(login: Id, browser: Id, ceremony: Id, credential: Id, readEpoch: nat, sso: Id, secret: Id, sid: Id,
      code: Id, nonce: Id, at: int)
    | Consent(login: Id, browser: Id, sso: Id, sid: Id, code: Id, nonce: Id, at: int)
    | Exchange(code: Id, operation: Id, access: Id, keysActive: bool, at: int)
    | ReplayedCode(code: Id)
    | Accept(key: Key, exp: int, keysActive: bool)
    | StartLogout(csrf: Id, browser: Id, sso: Id, at: int)
    | Logout(csrf: Id, sso: Id, event: Id, at: int)
    | RevokeAccount(operation: Id, account: Id, epoch: nat, at: int)
    | Expand(chosen: set<Id>)
    | Fanout(rows: map<Id, (Id, Key)>)
    | Claim(pick: Option<Id>, lease: Id, at: int)
    | Settle(lease: Id, status: int, retryAfter: RetryAfter, random: real, decidedAt: int, at: int)
    | Expire(at: int)
    | Retry(operation: Id, event: Id, revision: nat, deadline: int, retainUntil: int, at: int)
    | Rate(bucket: Id, gcAfter: int)
    | Collect(table: Table, at: int, victims: set<RowId>)

  predicate Fresh(w: World, ids: seq<Id>) {
    (forall i :: 0 <= i < |ids| ==> ids[i] !in w.h.used) && (forall i, j :: 0 <= i < j < |ids| ==> ids[i] != ids[j])
  }

  /** `rows` gives each chosen missing combination one unused row id. */
  predicate LegalFanout(p: Policy, db: Db, rows: map<Id, (Id, Key)>) {
    && rows.Keys !! db.deliveries.Keys
    && (forall d, d' :: d in rows && d' in rows && d != d' ==> rows[d] != rows[d'])
    && LimitOf(set d | d in rows :: rows[d], MissingRows(db), p.fanoutBatch)
    && (forall d :: d in rows ==> rows[d] in MissingRows(db) && rows[d].0 in db.events)
  }

  /** When a step can happen: clock readings are not in the future, UUIDs do not repeat, and the rows
      chosen by a statement are rows it may choose. Guards are not here: a failing guard aborts the batch. */
  predicate Enabled(p: Policy, w: World, s: Step) {
    match s
    case Tick(to) => to >= w.now
    case BeginLogin(login, _, at) => at <= w.now && Fresh(w, [login])
    case StartCeremony(_, _, ceremony, _, account, _, at) => at <= w.now && Fresh(w, [ceremony, account])
    case FailCeremony(_) => true
    case Finish(_, _, _, _, _, sso, secret, sid, code, _, at) => at <= w.now && Fresh(w, [sso, secret, sid, code])
    case Consent(_, _, _, sid, code, _, at) => at <= w.now && Fresh(w, [sid, code])
    case Exchange(_, operation, access, _, at) => at <= w.now && Fresh(w, [operation, access])
    case ReplayedCode(_) => true
    case Accept(_, exp, _) => exp <= w.now + p.skew + p.assertionTtl
    case StartLogout(csrf, _, _, at) => at <= w.now && Fresh(w, [csrf])
    case Logout(csrf, sso, event, at) =>
      at <= w.now && Fresh(w, [event]) && (csrf in w.db.logoutTxs ==> w.db.logoutTxs[csrf].sso == sso)
    case RevokeAccount(operation, _, _, at) => at <= w.now && Fresh(w, [operation])
    case Expand(chosen) => LimitOf(chosen, Uncovered(w.db), p.fanoutBatch)
    case Fanout(rows) => LegalFanout(p, w.db, rows)
    case Claim(pick, lease, at) => 0 <= at <= w.now && Fresh(w, [lease]) && IsNextClaim(p, w.db.deliveries, at, pick)
    case Settle(lease, _, _, random, decidedAt, at) =>
      lease in w.h.issued && w.h.issued[lease].attempts > 0 && decidedAt <= at <= w.now && 0.0 <= random < 1.0
    case Expire(at) => at <= w.now
    case Retry(operation, _, _, deadline, retainUntil, at) =>
      at <= w.now && Fresh(w, [operation]) && RetryParameters(p, deadline, retainUntil, at)
    case Rate(_, _) => true
    case Collect(table, at, victims) => at <= w.now && victims <= DoomedRows(w.db, table, at)
  }

  function Use(h: Hist, ids: set<Id>): Hist { h.(used := h.used + ids) }

  function AddTo<T>(m: map<Id, set<T>>, k: Id, v: T): map<Id, set<T>> {
    m[k := (if k in m then m[k] else {}) + {v}]
  }

  /** First revocation wins: later events do not move the revocation time. */
  function MarkRevoked(h: Hist, keys: set<Key>, now: int): Hist {
    h.(revokedAt := map k | k in h.revokedAt.Keys + keys :: if k in h.revokedAt then h.revokedAt[k] else now)
  }

  function KeysOfSso(db: Db, sso: Id): set<Key> {
    set k | k in db.clientSessions && db.clientSessions[k].sso == sso
  }

  function KeysOfEpoch(db: Db, account: Id, epoch: nat): set<Key> {
    set k | k in db.clientSessions && db.clientSessions[k].sso in db.sessions
            && db.sessions[db.clientSessions[k].sso].account == account
               && db.sessions[db.clientSessions[k].sso].epoch <= epoch
  }

  function AddEvents(sent: map<Id, set<Key>>, events: set<Id>): map<Id, set<Key>> {
    map e | e in sent.Keys + events :: if e in sent then sent[e] else {}
  }

  function AddRows(sent: map<Id, set<Key>>, rows: map<Id, (Id, Key)>): map<Id, set<Key>> {
    map e | e in sent :: sent[e] + (set d | d in rows && rows[d].0 == e :: rows[d].1)
  }

  function AfterBeginLogin(p: Policy, w: World, login: Id, browser: Id, at: int): World {
    w.(db := OpenLogin(p, w.db, login, browser, at), h := Use(w.h, {login}))
  }

  function AfterFailCeremony(w: World, ceremony: Id): World {
    w.(db := CeremonyFailure(w.db, ceremony))
  }

  function AfterReplay(w: World, code: Id): World {
    w.(db := RevokeToken(w.db, code))
  }

  function AfterExpire(p: Policy, w: World, at: int): World {
    w.(db := ExpireBatch(p, w.db, at))
  }

  function AfterRate(w: World, bucket: Id, gcAfter: int): World {
    w.(db := RateHit(w.db, bucket, gcAfter))
  }

  function AfterStartCeremony(p: Policy, w: World, login: Id, browser: Id, ceremony: Id, register: bool,
                              account: Id, invitation: Id, at: int): World
  {
    match StartCeremonyBatch(p, w.db, w.now, login, browser, ceremony, register, account, invitation, at)
    case None => w
    case Some(db) => w.(db := db, h := Use(w.h, {ceremony, account}))
  }

  /** The account that a registration creates behind its invitation. */
  function Registered(w: World, ceremony: Id): Hist {
    if ceremony in w.db.ceremonies && w.db.ceremonies[ceremony].register then
      w.h.(registered := AddTo(w.h.registered, w.db.ceremonies[ceremony].invitation, w.db.ceremonies[ceremony].account))
    else w.h
  }

  /** First part of a finish batch: authentication writes. */
  function AfterWrites(w: World, ceremony: Id, db: Db): World {
    w.(db := db, h := Registered(w, ceremony))
  }

  /** Second part: the new session. */
  function AfterSession(w: World, sso: Id, secret: Id, db: Db): World {
    w.(db := db, h := Use(w.h, {sso, secret}))
  }

  /** A committed IssueCode. */
  function AfterCode(w: World, login: Id, sso: Id, sid: Id, code: Id, db: Db): World
    requires sso in w.db.sessions
  {
    var key := Key(CLIENT, sid);
    w.(db := db,
       h := w.h.(used := w.h.used + {code, sid}, codesOf := AddTo(w.h.codesOf, login, code),
                 expiries := w.h.expiries[key := w.db.sessions[sso].expiresAt]))
  }

  function AfterFinish(p: Policy, w: World, login: Id, browser: Id, ceremony: Id, credential: Id, readEpoch: nat,
                       sso: Id, secret: Id, sid: Id, code: Id, nonce: Id, at: int): World
  {
    match AuthenticateWrites(p, w.db, w.now, login, browser, ceremony, credential, readEpoch)
    case None => w
    case Some((db1, account)) =>
      match CreateSession(p, db1, w.now, account, credential, sso, secret, at)
      case None => w
      case Some(db2) =>
        match IssueCode(p, db2, w.now, login, browser, sso, sid, code, nonce, at)
        case None => w
        case Some(db3) => AfterCode(AfterSession(AfterWrites(w, ceremony, db1), sso, secret, db2), login, sso, sid,
          code, db3)
  }

  function AfterConsent(p: Policy, w: World, login: Id, browser: Id, sso: Id, sid: Id, code: Id, nonce: Id,
                        at: int): World
  {
    match IssueCode(p, w.db, w.now, login, browser, sso, sid, code, nonce, at)
    case None => w
    case Some(db) => AfterCode(w, login, sso, sid, code, db)
  }

  function AfterExchange(p: Policy, w: World, code: Id, operation: Id, access: Id, keysActive: bool, at: int): World {
    match ExchangeBatch(p, w.db, w.now, code, operation, access, keysActive, at)
    case None => w
    case Some(db) => w.(db := db, h := Use(w.h, {operation, access}))
  }

  function AfterAccept(p: Policy, w: World, key: Key, exp: int, keysActive: bool): World {
    match AcceptAssertion(p, w.db, w.now, key, exp, keysActive)
    case None => w
    case Some(db) => w.(db := db, h := w.h.(accepted := w.h.accepted + {Acceptance(key, exp, w.now)}))
  }

  function AfterStartLogout(p: Policy, w: World, csrf: Id, browser: Id, sso: Id, at: int): World {
    match BeginLogout(p, w.db, csrf, browser, sso, at)
    case None => w
    case Some(db) => w.(db := db, h := Use(w.h, {csrf}))
  }

  function AfterLogout(p: Policy, w: World, csrf: Id, sso: Id, event: Id, at: int): World {
    match LogoutBatch(p, w.db, w.now, csrf, sso, event, at)
    case None => w
    case Some(db) =>
      if sso in w.db.sessions then
        w.(db := db, h := MarkRevoked(Use(w.h, {event}), KeysOfSso(w.db, sso), w.now).(sent :=
          AddEvents(w.h.sent, {event})))
      else w.(db := db)
  }

  function AfterRevokeAccount(p: Policy, w: World, operation: Id, account: Id, epoch: nat, at: int): World {
    match RevokeAccountBatch(p, w.db, operation, account, epoch, at)
    case None => w
    case Some(db) => w.(db := db, h := MarkRevoked(Use(w.h, {operation}), KeysOfEpoch(w.db, account, epoch), w.now))
  }

  function AfterExpand(p: Policy, w: World, chosen: set<Id>): World
    requires chosen <= Uncovered(w.db)
  {
    match ExpandBatch(p, w.db, chosen)
    case None => w
    case Some(db) => w.(db := db, h := w.h.(sent := AddEvents(w.h.sent, chosen)))
  }

  function AfterFanout(w: World, rows: map<Id, (Id, Key)>): World
    requires forall d :: d in rows ==> rows[d].0 in w.db.events
  {
    w.(db := FanoutBatch(w.db, rows), h := w.h.(sent := AddRows(w.h.sent, rows)))
  }

  function AfterClaim(p: Policy, w: World, pick: Option<Id>, lease: Id, at: int): World
    requires IsNextClaim(p, w.db.deliveries, at, pick)
  {
    match pick
    case None => w
    case Some(d) =>
      var row := ClaimRow(p, w.db.deliveries[d], lease, at);
      w.(db := w.db.(deliveries := w.db.deliveries[d := row]),
         h := w.h.(used := w.h.used + {lease}, issued := w.h.issued[lease := TaskOf(p, d, row, lease)]))
  }

  function AfterSettle(p: Policy, w: World, lease: Id, status: int, retryAfter: RetryAfter, random: real,
                       decidedAt: int, at: int): World
    requires lease in w.h.issued && w.h.issued[lease].attempts > 0
  {
    var task := w.h.issued[lease];
    var verdict := Outcome(p, task.deadline, task.attempts, status, retryAfter, decidedAt, random);
    w.(db := SettleBatch(p, w.db, task, verdict, decidedAt, at))
  }

  function AfterRetry(p: Policy, w: World, operation: Id, event: Id, revision: nat, deadline: int, retainUntil: int,
                      at: int): World
  {
    match RetryBatch(p, w.db, w.now, operation, event, revision, deadline, retainUntil, at)
    case None => w
    case Some(db) => w.(db := db, h := Use(w.h, {operation}))
  }

  function AfterCollect(w: World, table: Table, victims: set<RowId>): World {
    w.(db := Delete(w.db, table, victims),
       h := if table == Events then w.h.(sent := w.h.sent - Ids(victims)) else w.h)
  }

  /** The effect of a step. An aborted batch leaves the world as it was. */
  function Apply(p: Policy, w: World, s: Step): World
    requires Enabled(p, w, s)
  {
    match s
    case Tick(to) => w.(now := to)
    case BeginLogin(login, browser, at) => AfterBeginLogin(p, w, login, browser, at)
    case StartCeremony(login, browser, ceremony, register, account, invitation, at) =>
      AfterStartCeremony(p, w, login, browser, ceremony, register, account, invitation, at)
    case FailCeremony(ceremony) => AfterFailCeremony(w, ceremony)
    case Finish(login, browser, ceremony, credential, readEpoch, sso, secret, sid, code, nonce, at) =>
      AfterFinish(p, w, login, browser, ceremony, credential, readEpoch, sso, secret, sid, code, nonce, at)
    case Consent(login, browser, sso, sid, code, nonce, at) =>
      AfterConsent(p, w, login, browser, sso, sid, code, nonce, at)
    case Exchange(code, operation, access, keysActive, at) =>
      AfterExchange(p, w, code, operation, access, keysActive, at)
    case ReplayedCode(code) => AfterReplay(w, code)
    case Accept(key, exp, keysActive) => AfterAccept(p, w, key, exp, keysActive)
    case StartLogout(csrf, browser, sso, at) => AfterStartLogout(p, w, csrf, browser, sso, at)
    case Logout(csrf, sso, event, at) => AfterLogout(p, w, csrf, sso, event, at)
    case RevokeAccount(operation, account, epoch, at) => AfterRevokeAccount(p, w, operation, account, epoch, at)
    case Expand(chosen) => AfterExpand(p, w, chosen)
    case Fanout(rows) => AfterFanout(w, rows)
    case Claim(pick, lease, at) => AfterClaim(p, w, pick, lease, at)
    case Settle(lease, status, retryAfter, random, decidedAt, at) =>
      AfterSettle(p, w, lease, status, retryAfter, random, decidedAt, at)
    case Expire(at) => AfterExpire(p, w, at)
    case Retry(operation, event, revision, deadline, retainUntil, at) =>
      AfterRetry(p, w, operation, event, revision, deadline, retainUntil, at)
    case Rate(bucket, gcAfter) => AfterRate(w, bucket, gcAfter)
    case Collect(table, at, victims) => AfterCollect(w, table, victims)
  }

  /** A freshly migrated database: bootstrap open, nothing issued. Operators add clients and invitations. */
  predicate Initial(w: World) {
    && w.now >= 0
    && w.h == Hist({}, map[], map[], map[], map[], map[], {}, map[])
    && w.db.accounts == map[] && w.db.credentials == map[] && w.db.connections == map[] && w.db.roles == {}
    && !w.db.bootstrapClosed && (forall i :: i in w.db.invitations ==> w.db.invitations[i].usedBy.None?)
    && w.db.logins == map[] && w.db.ceremonies == map[] && w.db.sessions == map[] && w.db.contexts == map[]
    && w.db.clientSessions == map[] && w.db.codes == map[] && w.db.codeContexts == map[] && w.db.tokens == map[]
    && w.db.logoutTxs == map[] && w.db.assertions == map[] && w.db.rates == map[] && w.db.revocations == map[]
    && w.db.events == map[] && w.db.deliveries == map[] && w.db.audits == map[]
  }

  /** A run: states[0] is where it starts and each next state is the effect of an enabled step. */
  predicate IsRun(p: Policy, states: seq<World>, steps: seq<Step>) {
    && |states| == |steps| + 1
    && forall i :: 0 <= i < |steps| ==>
       Enabled(p, states[i], steps[i])
       && states[i + 1] == Apply(p, states[i], steps[i])
  }
}
