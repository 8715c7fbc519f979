/** Garbage collection of the OpenID provider (local/gc.ts): the table order, the WHERE clause of each DELETE,
    and what one DELETE removes. */
module OpGc {
  import opened Wrappers
  import opened RuntimePolicy
  import opened OpTables
  import opened OpBatches

  datatype Table =
    | Ceremonies | Logins | LogoutTxs | Assertions | Rates | Revocations | Audits | Deliveries | Events
    | Tokens | CodeContexts | Codes | ClientSessions | Contexts | Sessions

  /** The order in which one pass visits the tables. */
  const TARGETS: seq<Table> :=
    [Ceremonies, Logins, LogoutTxs, Assertions, Rates, Revocations, Audits, Deliveries, Events,
     Tokens, CodeContexts, Codes, ClientSessions, Contexts, Sessions]

  datatype RowId = Plain(id: Id) | Pair(key: Key)

  /** An unexpanded revocation covers the session. */
  predicate Pursued(db: Db, sso: Id)
    requires sso in db.sessions
  {
    exists r :: r in db.revocations && !db.revocations[r].expanded && Covers(db.revocations[r], db.sessions[sso])
  }

  predicate ExpiredParent(db: Db, sso: Id, at: int) {
    && sso in db.sessions
    && db.sessions[sso].expiresAt <= at
    && db.sessions[sso].gcAfter <= at
    && !HasEvent(db.events, sso)
    && !Pursued(db, sso)
  }

  predicate ExpiredKey(db: Db, key: Key, at: int) {
    key in db.clientSessions && ExpiredParent(db, db.clientSessions[key].sso, at)
  }

  predicate ExpiredCode(db: Db, code: Id, at: int) {
    code in db.codes && ExpiredKey(db, db.codes[code].key, at)
  }

  predicate EventPursued(db: Db, e: Event) {
    e.sso in db.sessions && Pursued(db, e.sso)
  }

  predicate DoomedDelivery(db: Db, d: Delivery, at: int) {
    && d.gcAfter.Some? && d.gcAfter.value <= at
    && d.deadline <= at
    && d.finishedAt.Some?
    && d.Terminal()
    && d.lease.None? && d.leaseUntil.None?
    && d.event in db.events
    && db.events[d.event].expanded && db.events[d.event].deadline <= at && db.events[d.event].gcAfter <= at
    && !EventPursued(db, db.events[d.event])
  }

  predicate DoomedEvent(db: Db, id: Id, at: int)
    requires id in db.events
  {
    var e := db.events[id];
    && e.gcAfter <= at && e.deadline <= at && e.expanded
    && !EventPursued(db, e)
    && forall d :: d in db.deliveries ==> db.deliveries[d].event != id
  }

  predicate DoomedSession(db: Db, sso: Id, at: int) {
    && ExpiredParent(db, sso, at)
    && (forall k :: k in db.clientSessions ==> db.clientSessions[k].sso != sso)
    && sso !in db.contexts
    && (forall x :: x in db.logoutTxs ==> db.logoutTxs[x].sso != sso)
  }

  function PlainRows(ids: set<Id>): set<RowId> { set i | i in ids :: Plain(i) }

  function PairRows(keys: set<Key>): set<RowId> { set k | k in keys :: Pair(k) }

  /** The rows of a table, by primary key. */
  function Rows(db: Db, table: Table): set<RowId> {
    match table
    case Ceremonies => PlainRows(db.ceremonies.Keys)
    case Logins => PlainRows(db.logins.Keys)
    case LogoutTxs => PlainRows(db.logoutTxs.Keys)
    case Assertions => PairRows(db.assertions.Keys)
    case Rates => PlainRows(db.rates.Keys)
    case Revocations => PlainRows(db.revocations.Keys)
    case Audits => PlainRows(db.audits.Keys)
    case Deliveries => PlainRows(db.deliveries.Keys)
    case Events => PlainRows(db.events.Keys)
    case Tokens => PlainRows(db.tokens.Keys)
    case CodeContexts => PlainRows(db.codeContexts.Keys)
    case Codes => PlainRows(db.codes.Keys)
    case ClientSessions => PairRows(db.clientSessions.Keys)
    case Contexts => PlainRows(db.contexts.Keys)
    case Sessions => PlainRows(db.sessions.Keys)
  }

  /** The WHERE clause of the DELETE on `table`, for a row of that table. */
  predicate Doomed(db: Db, table: Table, row: RowId, at: int)
    requires row in Rows(db, table)
  {
    match table
    case Ceremonies => db.ceremonies[row.id].gcAfter <= at && db.ceremonies[row.id].expiresAt <= at
    case Logins =>
      db.logins[row.id].gcAfter <= at && db.logins[row.id].expiresAt <= at
      && forall c :: c in db.ceremonies ==> db.ceremonies[c].login != row.id
    case LogoutTxs => db.logoutTxs[row.id].gcAfter <= at && db.logoutTxs[row.id].expiresAt <= at
    case Assertions => db.assertions[row.key].gcAfter <= at && db.assertions[row.key].retainUntil <= at
    case Rates => db.rates[row.id] <= at
    case Revocations =>
      db.revocations[row.id].gcAfter <= at && db.revocations[row.id].expanded
      && forall s :: s in db.sessions ==> !Covers(db.revocations[row.id], db.sessions[s])
    case Audits => db.audits[row.id].gcAfter <= at && db.audits[row.id].event !in db.events
    case Deliveries => DoomedDelivery(db, db.deliveries[row.id], at)
    case Events => DoomedEvent(db, row.id, at)
    case Tokens => ExpiredCode(db, row.id, at)
    case CodeContexts => ExpiredCode(db, row.id, at)
    case Codes => ExpiredKey(db, db.codes[row.id].key, at) && row.id !in db.tokens && row.id !in db.codeContexts
    case ClientSessions => ExpiredKey(db, row.key, at) && forall c :: c in db.codes ==> db.codes[c].key != row.key
    case Contexts => ExpiredParent(db, row.id, at)
    case Sessions => DoomedSession(db, row.id, at)
  }

  function DoomedRows(db: Db, table: Table, at: int): set<RowId> {
    set r | r in Rows(db, table) && Doomed(db, table, r, at)
  }

  function Ids(rows: set<RowId>): set<Id> { set r | r in rows && r.Plain? :: r.id }

  function Keys(rows: set<RowId>): set<Key> { set r | r in rows && r.Pair? :: r.key }

  /** One DELETE statement. */
  function Delete(db: Db, table: Table, victims: set<RowId>): Db {
    match table
    case Ceremonies => db.(ceremonies := db.ceremonies - Ids(victims))
    case Logins => db.(logins := db.logins - Ids(victims))
    case LogoutTxs => db.(logoutTxs := db.logoutTxs - Ids(victims))
    case Assertions => db.(assertions := db.assertions - Keys(victims))
    case Rates => db.(rates := db.rates - Ids(victims))
    case Revocations => db.(revocations := db.revocations - Ids(victims))
    case Audits => db.(audits := db.audits - Ids(victims))
    case Deliveries => db.(deliveries := db.deliveries - Ids(victims))
    case Events => db.(events := db.events - Ids(victims))
    case Tokens => db.(tokens := db.tokens - Ids(victims))
    case CodeContexts => db.(codeContexts := db.codeContexts - Ids(victims))
    case Codes => db.(codes := db.codes - Ids(victims))
    case ClientSessions => db.(clientSessions := db.clientSessions - Keys(victims))
    case Contexts => db.(contexts := db.contexts - Ids(victims))
    case Sessions => db.(sessions := db.sessions - Ids(victims))
  }
}
