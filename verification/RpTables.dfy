/** The tables of the relying party (local/rp-schema.sql), and its queries and atomic batches (local/rp.ts). */
module RpTables {
  import opened Wrappers
  import opened RuntimePolicy

  type Id = int

  datatype Login = Login(browser: Id, expiresAt: int, gcAfter: int, consumed: bool)
  datatype AppSession = AppSession(sid: Id, sub: Id, authTime: int, leaseUntil: int, parentExpires: int,
                                   idleExpires: int, gcAfter: int)
  datatype LogoutTx = LogoutTx(browser: Id, expiresAt: int, gcAfter: int)

  datatype Tables = Tables(
    logins: map<Id, Login>,             // by state hash
    appSessions: map<Id, AppSession>,   // by cookie hash
    tombstones: map<Id, int>,           // sid to expiry
    logoutUses: map<Id, int>,           // logout token jti to expiry
    logoutTxs: map<Id, LogoutTx>)

  /** INSERT INTO login */
  function StartLogin(p: Policy, db: Tables, state: Id, browser: Id, at: int): Tables {
    db.(logins := db.logins[state := Login(browser, at + p.loginTtl, p.Retained(at + p.loginTtl), false)])
  }

  /** UPDATE login SET consumed = 1 ... RETURNING: the callback takes the transaction once. */
  function ConsumeLogin(db: Tables, state: Id, browser: Id, at: int): Option<(Tables, int)> {
    if state in db.logins && db.logins[state].browser == browser && !db.logins[state].consumed
      && db.logins[state].expiresAt > at then
      Some((db.(logins := db.logins[state := db.logins[state].(consumed := true)]), db.logins[state].expiresAt))
    else
      None
  }

  /** An `active: true` answer of /session/check. */
  datatype Answer = Answer(expires: int, sub: Id, authTime: int, leaseTtl: int, idleTtl: int)

  datatype Checked = Checked(lease: int, parent: int, idle: int)

  /** `checkedSession` after the answer has arrived: the lease counts from before the request was sent. */
  function CheckedSession(p: Policy, answer: Answer, sub: Id, authTime: int, started: int, at: int): Option<Checked> {
    if answer.sub != sub || answer.authTime != authTime || answer.leaseTtl <= 0
      || answer.leaseTtl > p.leaseTtl then None else
    var lease := Min(started + answer.leaseTtl, answer.expires);
    if lease <= at then None else Some(Checked(lease, answer.expires, Min(at + answer.idleTtl, answer.expires)))
  }

  /** The batch that ends a callback: guard, drop the cookie's old session, insert the new one. */
  function CommitCallback(p: Policy, db: Tables, now: int, sid: Id, sub: Id, authTime: int, checked: Checked,
                          loginExpires: int, replaced: Id, hash: Id): Option<Tables>
  {
    if sid in db.tombstones || checked.lease <= now || loginExpires <= now then None else
    var kept := db.appSessions - {replaced};
    if hash in kept then None else
    Some(db.(appSessions := kept[hash := AppSession(sid, sub, authTime, checked.lease, checked.parent, checked.idle,
      p.Retained(checked.parent))]))
  }

  /** The SELECT of `current` at clock reading t. */
  predicate Current(db: Tables, hash: Id, t: int) {
    && hash in db.appSessions
    && db.appSessions[hash].idleExpires > t && db.appSessions[hash].parentExpires > t
    && db.appSessions[hash].sid !in db.tombstones
  }

  /** Compare-and-set of the lease that was read. */
  function RefreshLease(db: Tables, hash: Id, seen: int, lease: int): Option<Tables> {
    if hash in db.appSessions && db.appSessions[hash].leaseUntil == seen
      && db.appSessions[hash].sid !in db.tombstones then
      Some(db.(appSessions := db.appSessions[hash := db.appSessions[hash].(leaseUntil :=
        Min(lease, db.appSessions[hash].parentExpires))]))
    else
      None
  }

  /** The final UPDATE of `current`: extend the idle bound. It does not look at the lease again. */
  function Touch(p: Policy, db: Tables, now: int, hash: Id, at: int): Option<Tables> {
    if Current(db, hash, now) then
      Some(db.(appSessions := db.appSessions[hash := db.appSessions[hash].(idleExpires :=
        Min(at + p.idleTimeout, db.appSessions[hash].parentExpires))]))
    else
      None
  }

  /** How long after the reading of the clock a tombstone must stay at least. */
  function TombstoneTtl(p: Policy): int {
    Max(Max(p.ssoTtl, p.retryDeadline), Max(p.loginTtl, p.codeTtl + p.idTokenTtl))
  }

  /** `parent` is MAX(parent_expires_at) over the sid's sessions, or 0 if there are none. */
  predicate IsLatestParent(db: Tables, sid: Id, parent: int) {
    if (exists x :: x in db.appSessions && db.appSessions[x].sid == sid) then
      (exists x :: x in db.appSessions && db.appSessions[x].sid == sid && db.appSessions[x].parentExpires == parent)
      && forall x :: x in db.appSessions && db.appSessions[x].sid == sid ==> db.appSessions[x].parentExpires <= parent
    else parent == 0
  }

  /** The back-channel logout batch: remember the token, raise the tombstone, drop the sid's sessions. */
  function Backchannel(p: Policy, db: Tables, sid: Id, jti: Id, exp: int, at: int, latestParent: int): Tables {
    var bound := Max(p.Retained(at + TombstoneTtl(p)), latestParent + p.Retained(0));
    db.(logoutUses := if jti in db.logoutUses then db.logoutUses else db.logoutUses[jti := p.Retained(exp)],
        tombstones := db.tombstones[sid := if sid in db.tombstones then Max(db.tombstones[sid], bound) else bound],
        appSessions := map x | x in db.appSessions && db.appSessions[x].sid != sid :: db.appSessions[x])
  }

  /** Local logout: drop the session and open the transaction for the return from the provider. */
  function LocalLogout(p: Policy, db: Tables, hash: Id, state: Id, browser: Id, at: int): Option<Tables> {
    if state in db.logoutTxs then None
    else Some(db.(appSessions := db.appSessions - {hash}, logoutTxs :=
      db.logoutTxs[state := LogoutTx(browser, at + p.loginTtl, p.Retained(at + p.loginTtl))]))
  }

  /** The return from the provider spends the transaction. */
  function FinishLogout(db: Tables, state: Id, browser: Id, at: int): Option<Tables> {
    if state in db.logoutTxs && db.logoutTxs[state].browser == browser && db.logoutTxs[state].expiresAt > at then
      Some(db.(logoutTxs := db.logoutTxs - {state}))
    else
      None
  }

  // ---------------------------------------------------------------- collection (local/gc.ts)

  datatype Table = Logins | LogoutTxs | AppSessions | LogoutUses | Tombstones

  /** The order in which one pass visits the tables. */
  const TARGETS: seq<Table> := [Logins, LogoutTxs, AppSessions, LogoutUses, Tombstones]

  function Rows(db: Tables, table: Table): set<Id> {
    match table
    case Logins => db.logins.Keys
    case LogoutTxs => db.logoutTxs.Keys
    case AppSessions => db.appSessions.Keys
    case LogoutUses => db.logoutUses.Keys
    case Tombstones => db.tombstones.Keys
  }

  /** The WHERE clause of the DELETE on `table`. */
  predicate Doomed(db: Tables, table: Table, row: Id, at: int)
    requires row in Rows(db, table)
  {
    match table
    case Logins => db.logins[row].gcAfter <= at && db.logins[row].expiresAt <= at
    case LogoutTxs => db.logoutTxs[row].gcAfter <= at && db.logoutTxs[row].expiresAt <= at
    case AppSessions => db.appSessions[row].gcAfter <= at && db.appSessions[row].parentExpires <= at
    case LogoutUses => db.logoutUses[row] <= at
    case Tombstones => db.tombstones[row] <= at && forall x :: x in db.appSessions ==> db.appSessions[x].sid != row
  }

  function DoomedRows(db: Tables, table: Table, at: int): set<Id> {
    set r | r in Rows(db, table) && Doomed(db, table, r, at)
  }

  function Delete(db: Tables, table: Table, victims: set<Id>): Tables {
    match table
    case Logins => db.(logins := db.logins - victims)
    case LogoutTxs => db.(logoutTxs := db.logoutTxs - victims)
    case AppSessions => db.(appSessions := db.appSessions - victims)
    case LogoutUses => db.(logoutUses := db.logoutUses - victims)
    case Tombstones => db.(tombstones := db.tombstones - victims)
  }
}
