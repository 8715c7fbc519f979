/** What may be collected, spelled out for every table, and how long every row is therefore kept over whole runs. */
module OpRetention {
  import opened Wrappers
  import opened RuntimePolicy
  import opened OpTables
  import opened OpBatches
  import opened OpGc
  import opened OpMachine
  import opened OpInvariants
  import opened OpSafety
  import opened OpFrames
  import opened OpStepsLogout
  import opened OpStepsGc
  import opened OpDeliveryTheorems
  import opened OpAccountTheorems
  import opened OpRemovalTheorems
  import opened OpWrites
  import opened OpIssueLaw
  import opened OpOrigins
  import opened OpLifetimes
  import opened OpRevocationLaw

  /** Some unexpanded revocation still has to record an event for this session. */
  ghost predicate AwaitsExpansion(db: Db, sso: Id) {
    sso in db.sessions && exists r :: Covering(db.revocations, r, db.sessions[sso])
  }

  /** The session is over at time t: expired, past its retention, with no logout under way. */
  ghost predicate SessionOver(db: Db, sso: Id, t: int) {
    && sso in db.sessions && db.sessions[sso].expiresAt <= t && db.sessions[sso].gcAfter <= t
    && (forall e :: e in db.events ==> db.events[e].sso != sso)
    && !AwaitsExpansion(db, sso)
  }

  ghost predicate CodeOver(db: Db, code: Id, t: int) {
    code in db.codes && db.codes[code].key in db.clientSessions
    && SessionOver(db, db.clientSessions[db.codes[code].key].sso, t)
  }

  /** The event has been sent to everybody, its time and retention are over, and no revocation waits for its session. */
  ghost predicate EventOver(db: Db, e: Id, t: int) {
    && e in db.events && db.events[e].expanded && db.events[e].deadline <= t && db.events[e].gcAfter <= t
    && !AwaitsExpansion(db, db.events[e].sso)
  }

  /** Which stored rows of a table may go at time t. */
  ghost predicate Expendable(db: Db, table: Table, row: RowId, t: int)
    requires row in Rows(db, table)
  {
    match table
    case Ceremonies => db.ceremonies[row.id].expiresAt <= t && db.ceremonies[row.id].gcAfter <= t
    case Logins =>
      && db.logins[row.id].expiresAt <= t && db.logins[row.id].gcAfter <= t
      && forall c :: c in db.ceremonies ==> db.ceremonies[c].login != row.id
    case LogoutTxs => db.logoutTxs[row.id].expiresAt <= t && db.logoutTxs[row.id].gcAfter <= t
    case Assertions => db.assertions[row.key].retainUntil <= t && db.assertions[row.key].gcAfter <= t
    case Rates => db.rates[row.id] <= t
    case Revocations =>
      var r := db.revocations[row.id];
      && r.expanded && r.gcAfter <= t
      && forall x :: x in db.sessions && db.sessions[x].account == r.account ==> db.sessions[x].epoch > r.through
    case Audits => db.audits[row.id].gcAfter <= t && db.audits[row.id].event !in db.events
    case Deliveries =>
      var d := db.deliveries[row.id];
      && d.state in {Delivered, Failed, Expired} && d.finishedAt.Some? && d.lease.None? && d.leaseUntil.None?
      && d.deadline <= t && d.gcAfter.Some? && d.gcAfter.value <= t && EventOver(db, d.event, t)
    case Events => EventOver(db, row.id, t) && forall d :: d in db.deliveries ==> db.deliveries[d].event != row.id
    case Tokens => CodeOver(db, row.id, t)
    case CodeContexts => CodeOver(db, row.id, t)
    case Codes => CodeOver(db, row.id, t) && row.id !in db.tokens && row.id !in db.codeContexts
    case ClientSessions =>
      SessionOver(db, db.clientSessions[row.key].sso, t) && forall c :: c in db.codes ==> db.codes[c].key != row.key
    case Contexts => SessionOver(db, row.id, t)
    case Sessions =>
      && SessionOver(db, row.id, t) && row.id !in db.contexts
      && (forall k :: k in db.clientSessions ==> db.clientSessions[k].sso != row.id)
      && forall x :: x in db.logoutTxs ==> db.logoutTxs[x].sso != row.id
  }

  lemma PursuitIs(db: Db, sso: Id)
    requires sso in db.sessions
    ensures Pursued(db, sso) <==> AwaitsExpansion(db, sso)
  {
    if AwaitsExpansion(db, sso) {
      var r :| Covering(db.revocations, r, db.sessions[sso]);
      assert Covers(db.revocations[r], db.sessions[sso]);
    }
    if Pursued(db, sso) {
      var r :| r in db.revocations && !db.revocations[r].expanded && Covers(db.revocations[r], db.sessions[sso]);
      assert Covering(db.revocations, r, db.sessions[sso]);
    }
  }

  lemma ParentIs(db: Db, sso: Id, t: int)
    ensures ExpiredParent(db, sso, t) <==> SessionOver(db, sso, t)
  {
    hide AwaitsExpansion, Pursued;
    if sso in db.sessions { PursuitIs(db, sso); }
  }

  lemma EventPursuitIs(db: Db, e: Event)
    ensures EventPursued(db, e) <==> AwaitsExpansion(db, e.sso)
  {
    hide AwaitsExpansion, Pursued;
    if e.sso in db.sessions {
      PursuitIs(db, e.sso);
    } else {
      assert !AwaitsExpansion(db, e.sso) by { NothingAwaits(db, e.sso); }
    }
  }

  lemma NothingAwaits(db: Db, sso: Id)
    requires sso !in db.sessions
    ensures !AwaitsExpansion(db, sso)
  {
  }

  /** The fifteen DELETE statements select exactly the expendable rows. */
  lemma DoomedExactly(db: Db, table: Table, row: RowId, t: int)
    requires row in Rows(db, table)
    ensures Doomed(db, table, row, t) <==> Expendable(db, table, row, t)
  {
    hide ExpiredParent, SessionOver, EventPursued, AwaitsExpansion;
    match table
    case Deliveries => EventPursuitOf(db, db.deliveries[row.id].event);
    case Events => EventPursuitOf(db, row.id);
    case Tokens | CodeContexts | Codes => CodeParentIs(db, row.id, t);
    case ClientSessions => ParentIs(db, db.clientSessions[row.key].sso, t);
    case Contexts | Sessions => ParentIs(db, row.id, t);
    case _ =>
  }

  lemma EventPursuitOf(db: Db, e: Id)
    ensures e in db.events ==> (EventPursued(db, db.events[e]) <==> AwaitsExpansion(db, db.events[e].sso))
  {
    hide EventPursued, AwaitsExpansion;
    if e in db.events { EventPursuitIs(db, db.events[e]); }
  }

  lemma CodeParentIs(db: Db, code: Id, t: int)
    ensures ExpiredCode(db, code, t) <==> CodeOver(db, code, t)
  {
    hide ExpiredParent, SessionOver;
    if code in db.codes && db.codes[code].key in db.clientSessions {
      ParentIs(db, db.clientSessions[db.codes[code].key].sso, t);
    }
  }

  // ---------------------------------------------------------------- only collections remove rows

  /** No table but the one that step s collects loses a row; a confirmed logout spends its transaction. */
  ghost predicate Keeps(s: Step, db: Db, db': Db) {
    && db.ceremonies.Keys <= db'.ceremonies.Keys && db.logins.Keys <= db'.logins.Keys
    && (!s.Logout? ==> db.logoutTxs.Keys <= db'.logoutTxs.Keys)
    && db.assertions.Keys <= db'.assertions.Keys && db.rates.Keys <= db'.rates.Keys
    && db.revocations.Keys <= db'.revocations.Keys && db.audits.Keys <= db'.audits.Keys
    && db.deliveries.Keys <= db'.deliveries.Keys && db.events.Keys <= db'.events.Keys
    && db.tokens.Keys <= db'.tokens.Keys && db.codeContexts.Keys <= db'.codeContexts.Keys
    && db.codes.Keys <= db'.codes.Keys && db.clientSessions.Keys <= db'.clientSessions.Keys
    && db.contexts.Keys <= db'.contexts.Keys && db.sessions.Keys <= db'.sessions.Keys
  }

  lemma SameKeeps(s: Step, db: Db)
    ensures Keeps(s, db, db)
  {
  }

  lemma ConsentKeepsRows(p: Policy, s: Step, db: Db, db': Db)
    requires s.Consent? && OnlyWritten(s, db, db') && CodeRows(p, db, db', s.login, s.sso, s.sid, s.code, s.nonce, s.at)
    ensures Keeps(s, db, db')
  {
    hide CodeRows;
    CodeKeys(p, db, db', s.login, s.sso, s.sid, s.code, s.nonce, s.at);
  }

  lemma FinishKeepsRows(p: Policy, s: Step, db: Db, db1: Db, db2: Db, db': Db)
    requires s.Finish? && OnlyWritten(s, db, db') && FinishRows(p, db, db1, db2, db', s)
    ensures Keeps(s, db, db')
  {
    hide RetainedLonger, Earlier, AuthenticationRows, CodeRows, SessionRows, Owner;
    SessionKeys(p, db1, db2, Owner(db, s.ceremony, s.credential), s.credential, s.sso, s.secret, s.at);
    CodeKeys(p, db2, db', s.login, s.sso, s.sid, s.code, s.nonce, s.at);
    SpentCeremony(db, db1, s.ceremony, s.credential);
  }

  lemma SessionKeys(p: Policy, db: Db, db': Db, account: Id, credential: Id, sso: Id, secret: Id, at: int)
    requires SessionRows(p, db, db', account, credential, sso, secret, at)
    ensures db' == db.(sessions := db'.sessions, contexts := db'.contexts)
    ensures db.sessions.Keys <= db'.sessions.Keys && db.contexts.Keys <= db'.contexts.Keys
  {
  }

  lemma CodeKeys(p: Policy, db: Db, db': Db, login: Id, sso: Id, sid: Id, code: Id, nonce: Id, at: int)
    requires CodeRows(p, db, db', login, sso, sid, code, nonce, at)
    ensures db.codes.Keys <= db'.codes.Keys && db.codeContexts.Keys <= db'.codeContexts.Keys
    ensures db.logins.Keys <= db'.logins.Keys && db.clientSessions.Keys <= db'.clientSessions.Keys
    ensures db.sessions.Keys <= db'.sessions.Keys
  {
    hide RetainedLonger, Earlier;
  }

  lemma ExchangeKeepsRows(p: Policy, s: Step, db: Db, db': Db)
    requires s.Exchange? && OnlyWritten(s, db, db') && TokenRows(p, db, db', s.code, s.operation, s.access, s.at)
    ensures Keeps(s, db, db')
  {
    hide TokenRows;
    TokenKeys(p, db, db', s.code, s.operation, s.access, s.at);
  }

  lemma TokenKeys(p: Policy, db: Db, db': Db, code: Id, operation: Id, access: Id, at: int)
    requires TokenRows(p, db, db', code, operation, access, at)
    ensures db.codes.Keys <= db'.codes.Keys && db.tokens.Keys <= db'.tokens.Keys
            && db.sessions.Keys <= db'.sessions.Keys
  {
    hide RetainedLonger, Earlier;
  }

  lemma IssuersKeepRows(p: Policy, w: World, s: Step)
    requires Enabled(p, w, s) && (s.Finish? || s.Consent? || s.Exchange?)
    ensures Keeps(s, w.db, Apply(p, w, s).db)
  {
    hide Apply, Enabled, Keeps, OnlyWritten, FinishRows, CodeRows, TokenRows, CodesMove, Eligible;
    Untouched(p, w, s);
    if Apply(p, w, s) == w {
      SameKeeps(s, w.db);
    } else if s.Consent? {
      ConsentRows(p, w, s);
      ConsentKeepsRows(p, s, w.db, Apply(p, w, s).db);
    } else if s.Exchange? {
      ExchangeCodesMove(p, w, s);
      ExchangeKeepsRows(p, s, w.db, Apply(p, w, s).db);
    } else {
      FinishLeaves(p, w, s);
      var db1: Db, db2: Db :| FinishRows(p, w.db, db1, db2, Apply(p, w, s).db, s);
      FinishKeepsRows(p, s, w.db, db1, db2, Apply(p, w, s).db);
    }
  }

  lemma LoginsKeepRows(p: Policy, w: World, s: Step)
    requires Enabled(p, w, s)
    requires s.Tick? || s.BeginLogin? || s.StartCeremony? || s.FailCeremony? || s.ReplayedCode? || s.Rate?
    ensures Keeps(s, w.db, Apply(p, w, s).db)
  {
    hide Apply, Enabled, LoginOpen;
    StepIs(p, w, s);
  }

  lemma GuardedKeepRows(p: Policy, w: World, s: Step)
    requires Enabled(p, w, s) && (s.Accept? || s.StartLogout? || s.RevokeAccount?)
    ensures Keeps(s, w.db, Apply(p, w, s).db)
  {
    hide Apply, Enabled, MarkRevoked, KeysOfEpoch;
    StepIs(p, w, s);
    Effects(p, w, s);
  }

  lemma LogoutKeepsRows(p: Policy, w: World, s: Step)
    requires Enabled(p, w, s) && s.Logout?
    ensures Keeps(s, w.db, Apply(p, w, s).db)
  {
    hide Apply, Enabled, AfterLogout;
    Untouched(p, w, s);
    Effects(p, w, s);
    LogoutKeys(p, w, s);
  }

  lemma LogoutKeys(p: Policy, w: World, s: Step)
    requires s.Logout?
    ensures var db' := AfterLogout(p, w, s.csrf, s.sso, s.event, s.at).db;
            w.db.events.Keys <= db'.events.Keys && w.db.sessions.Keys <= db'.sessions.Keys
            && w.db.clientSessions.Keys <= db'.clientSessions.Keys
  {
    hide AfterLogout, LogoutEvent;
    LogoutExactly(p, w, s.csrf, s.sso, s.event, s.at);
  }

  lemma OutboxKeepsRows(p: Policy, w: World, s: Step)
    requires Inv(p, w) && Enabled(p, w, s)
    requires s.Expand? || s.Fanout? || s.Claim? || s.Settle? || s.Expire? || s.Retry?
    ensures Keeps(s, w.db, Apply(p, w, s).db)
  {
    hide Inv, Apply, Enabled, OnlyWritten, Keeps;
    Untouched(p, w, s);
    RowsKept(p, w, s);
    RecordsKept(p, w, s);
    OutboxKeys(s, w.db, Apply(p, w, s).db);
  }

  lemma OutboxKeys(s: Step, db: Db, db': Db)
    requires s.Expand? || s.Fanout? || s.Claim? || s.Settle? || s.Expire? || s.Retry?
    requires OnlyWritten(s, db, db')
    requires db.deliveries.Keys <= db'.deliveries.Keys && db.events.Keys <= db'.events.Keys
    requires s.Expand? ==> db.revocations.Keys <= db'.revocations.Keys
    requires s.Retry? ==> db.audits.Keys <= db'.audits.Keys
    ensures Keeps(s, db, db')
  {
    assert !Writes(s, Ceremonies) && !Writes(s, Logins) && !Writes(s, LogoutTxs) && !Writes(s, Assertions)
           && !Writes(s, Rates) && !Writes(s, Tokens) && !Writes(s, CodeContexts) && !Writes(s, Codes)
           && !Writes(s, ClientSessions) && !Writes(s, Contexts) && !Writes(s, Sessions);
    assert Writes(s, Revocations) <==> s.Expand?;
    assert Writes(s, Audits) <==> s.Retry?;
    hide Writes;
  }

  lemma RecordsKept(p: Policy, w: World, s: Step)
    requires Inv(p, w) && Enabled(p, w, s)
    ensures s.Expand? ==> w.db.revocations.Keys <= Apply(p, w, s).db.revocations.Keys
    ensures s.Retry? ==> w.db.audits.Keys <= Apply(p, w, s).db.audits.Keys
  {
    hide Inv, Apply, Enabled, AfterExpand, AfterRetry, ExpandedEventRow;
    if s.Expand? {
      ExpandStep(p, w, s);
      ExpandShape(p, w, s.chosen);
    } else if s.Retry? {
      Effects(p, w, s);
      RetryKeepsAudits(p, w, s);
    }
  }

  lemma RetryKeepsAudits(p: Policy, w: World, s: Step)
    requires s.Retry?
    ensures w.db.audits.Keys <= AfterRetry(p, w, s.operation, s.event, s.revision, s.deadline, s.retainUntil,
              s.at).db.audits.Keys
  {
    hide RetryGuard, AuditConflict, RetryRow;
  }

  /** Only a collection removes rows. */
  lemma OnlyCollectionsRemove(p: Policy, w: World, s: Step)
    requires Inv(p, w) && Enabled(p, w, s) && !s.Collect?
    ensures Keeps(s, w.db, Apply(p, w, s).db)
  {
    hide Inv, Apply, Enabled, Keeps;
    if s.Finish? || s.Consent? || s.Exchange? {
      IssuersKeepRows(p, w, s);
    } else if s.Accept? || s.StartLogout? || s.RevokeAccount? {
      GuardedKeepRows(p, w, s);
    } else if s.Logout? {
      LogoutKeepsRows(p, w, s);
    } else if s.Expand? || s.Fanout? || s.Claim? || s.Settle? || s.Expire? || s.Retry? {
      OutboxKeepsRows(p, w, s);
    } else {
      LoginsKeepRows(p, w, s);
    }
  }

  // ---------------------------------------------------------------- what is kept over runs

  /** Step s removes the row: a collection of its table while it is expendable, or a confirmed logout that spends its
      transaction. */
  ghost predicate Removes(w: World, s: Step, table: Table, row: RowId) {
    || (s.Collect? && s.table == table && row in s.victims && row in Rows(w.db, table)
        && Expendable(w.db, table, row, w.now))
    || (s.Logout? && table == LogoutTxs && row == Plain(s.csrf))
  }

  /** Time only makes more rows expendable. */
  lemma StillExpendable(db: Db, table: Table, row: RowId, at: int, now: int)
    requires row in Rows(db, table) && at <= now && Expendable(db, table, row, at)
    ensures Expendable(db, table, row, now)
  {
    hide AwaitsExpansion;
  }

  lemma KeptRows(s: Step, db: Db, db': Db, table: Table, row: RowId)
    requires Keeps(s, db, db') && row in Rows(db, table) && !(s.Logout? && table == LogoutTxs)
    ensures row in Rows(db', table)
  {
  }

  lemma KeptRow(p: Policy, w: World, s: Step, table: Table, row: RowId)
    requires Inv(p, w) && Enabled(p, w, s) && !s.Collect? && !(s.Logout? && table == LogoutTxs)
    requires row in Rows(w.db, table)
    ensures row in Rows(Apply(p, w, s).db, table)
  {
    hide Inv, Apply, Enabled, Rows, Keeps;
    OnlyCollectionsRemove(p, w, s);
    KeptRows(s, w.db, Apply(p, w, s).db, table, row);
  }

  lemma CollectedRow(w: World, s: Step, table: Table, row: RowId)
    requires s.Collect? && row in Rows(w.db, table) && row !in Rows(AfterCollect(w, s.table, s.victims).db, table)
    ensures s.table == table && row in s.victims
  {
  }

  lemma SpentTransaction(p: Policy, w: World, s: Step, row: RowId)
    requires s.Logout? && row in Rows(w.db, LogoutTxs)
    requires row !in Rows(AfterLogout(p, w, s.csrf, s.sso, s.event, s.at).db, LogoutTxs)
    ensures row == Plain(s.csrf)
  {
    hide AfterLogout, LogoutEvent;
    LogoutExactly(p, w, s.csrf, s.sso, s.event, s.at);
  }

  lemma RowRemoved(p: Policy, w: World, s: Step, table: Table, row: RowId)
    requires Inv(p, w) && Enabled(p, w, s) && row in Rows(w.db, table) && row !in Rows(Apply(p, w, s).db, table)
    ensures Removes(w, s, table, row)
  {
    hide Inv, Apply, Enabled, Rows, Expendable, AfterCollect, AfterLogout, DoomedRows, Doomed;
    if s.Collect? {
      CollectStep(p, w, s);
      CollectedRow(w, s, table, row);
      VictimDoomed(w.db, table, s.at, s.victims, row);
      DoomedExactly(w.db, table, row, s.at);
      StillExpendable(w.db, table, row, s.at, w.now);
    } else if s.Logout? && table == LogoutTxs {
      Effects(p, w, s);
      SpentTransaction(p, w, s, row);
    } else {
      KeptRow(p, w, s, table, row);
    }
  }

  /** No row of any table disappears while it is needed: if it is stored at one point of a run and gone at a later one,
      then a collection in between took it when it was expendable, or, for a logout transaction, its logout was
      confirmed. */
  lemma {:induction false} NothingCollectedEarly(p: Policy, states: seq<World>, steps: seq<Step>, i: nat, j: nat,
                                                 table: Table, row: RowId)
    requires IsRun(p, states, steps) && Initial(states[0]) && i <= j < |states| && |states| == |steps| + 1
    requires row in Rows(states[i].db, table) && row !in Rows(states[j].db, table)
    ensures exists k :: i <= k < j && Removes(states[k], steps[k], table, row)
    decreases j - i
  {
    hide Inv, Initial, IsRun, Apply, Enabled, Rows, Removes;
    RunStep(p, states, steps, i);
    if row in Rows(states[i + 1].db, table) {
      NothingCollectedEarly(p, states, steps, i + 1, j, table, row);
    } else {
      RowRemoved(p, states[i], steps[i], table, row);
    }
  }

  /** Logins, ceremonies and logout transactions outlive their use by clock skew and grace before they are collected. */
  lemma TransactionsRetained(p: Policy, states: seq<World>, steps: seq<Step>, k: nat, table: Table, id: Id)
    requires IsRun(p, states, steps) && Initial(states[0]) && k < |steps| && |states| == |steps| + 1
    requires steps[k].Collect? && Removes(states[k], steps[k], table, Plain(id))
    ensures table == Logins ==> exists i ::
              0 <= i < k && steps[i].BeginLogin? && steps[i].login == id
              && steps[i].at + p.loginTtl + p.skew + p.grace <= states[k].now
    ensures table == Ceremonies ==> exists i ::
              0 <= i < k && steps[i].StartCeremony? && steps[i].ceremony == id
              && steps[i].at + p.ceremonyTtl + p.skew + p.grace <= states[k].now
    ensures table == LogoutTxs ==> exists i ::
              0 <= i < k && steps[i].StartLogout? && steps[i].csrf == id
              && steps[i].at + p.loginTtl + p.skew + p.grace <= states[k].now
  {
    hide Initial, IsRun, Apply, Enabled;
    if table == Logins {
      LoginOrigin(p, states, steps, k, id);
    } else if table == Ceremonies {
      CeremonyOrigin(p, states, steps, k, id);
    } else if table == LogoutTxs {
      LogoutTxOrigin(p, states, steps, k, id);
    }
  }

  /** A session, its context and a revocation are kept for their own time and for the audit time,
      plus skew and grace. */
  lemma RecordsRetained(p: Policy, states: seq<World>, steps: seq<Step>, k: nat, table: Table, id: Id)
    requires IsRun(p, states, steps) && Initial(states[0]) && k < |steps| && |states| == |steps| + 1
    requires steps[k].Collect? && Removes(states[k], steps[k], table, Plain(id))
    ensures table == Sessions || table == Contexts ==> exists i ::
              0 <= i < k && steps[i].Finish? && steps[i].sso == id
              && steps[i].at + p.ssoTtl + p.skew + p.grace <= states[k].now
              && steps[i].at + p.auditTtl + p.skew + p.grace <= states[k].now
    ensures table == Revocations ==> exists i ::
              0 <= i < k && steps[i].RevokeAccount? && steps[i].operation == id
              && steps[i].at + p.retryDeadline + p.skew + p.grace <= states[k].now
              && steps[i].at + p.auditTtl + p.skew + p.grace <= states[k].now
  {
    hide Initial, IsRun, Apply, Enabled, AwaitsExpansion, Inv;
    if table == Sessions || table == Contexts {
      SessionOrigin(p, states, steps, k, id);
    } else if table == Revocations {
      RevocationOrigin(p, states, steps, k, id);
    }
  }

  /** An event is kept at least for the retention it was recorded with. */
  lemma EventRetained(p: Policy, states: seq<World>, steps: seq<Step>, k: nat, id: Id)
    requires IsRun(p, states, steps) && Initial(states[0]) && k < |steps| && |states| == |steps| + 1
    requires steps[k].Collect? && Removes(states[k], steps[k], Events, Plain(id))
    ensures exists i :: 0 <= i < k && id !in states[i].db.events && id in states[i + 1].db.events
              && EventFrom(p, states[i].db, steps[i], id, states[i + 1].db.events[id])
              && states[i + 1].db.events[id].gcAfter <= states[k].now
  {
    hide Initial, IsRun, Apply, Enabled, AwaitsExpansion, EventFrom;
    EventOrigin(p, states, steps, k, id);
    var i :| 0 <= i < k && RecordedEvent(p, states[i], steps[i], states[i + 1], id, states[k].db.events[id]);
    assert id in states[i + 1].db.events;
  }
}
