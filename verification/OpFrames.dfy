/** Which tables a step can change. */
module OpFrames {
  import opened Wrappers
  import opened RuntimePolicy
  import opened Sets
  import opened RetryTiming
  import opened OpTables
  import opened OpBatches
  import opened OpGc
  import opened OpMachine
  import opened OpInvariants
  import opened OpStepsLogout
  import opened OpStepsIssue
  import opened OpStepsDelivery

  /** Steps that write logout_delivery. */
  predicate WritesDeliveries(s: Step) {
    s.Fanout? || s.Claim? || s.Settle? || s.Expire? || s.Retry? || (s.Collect? && s.table == Deliveries)
  }

  /** Steps that write client_session. */
  predicate WritesClientSessions(s: Step) {
    s.Finish? || s.Consent? || s.Logout? || (s.Collect? && s.table == ClientSessions)
  }

  /** Steps that write sso_logout_event. */
  predicate WritesEvents(s: Step) {
    s.Logout? || s.Expand? || s.Fanout? || s.Retry? || (s.Collect? && s.table == Events)
  }

  /** Steps that write revocation_event. */
  predicate WritesRevocations(s: Step) {
    s.RevokeAccount? || s.Expand? || (s.Collect? && s.table == Revocations)
  }

  /** Nothing a notification depends on has changed. */
  ghost predicate SameOutbox(w: World, w': World) {
    w'.db.deliveries == w.db.deliveries && w'.db.events == w.db.events && w'.db.revocations == w.db.revocations
    && w'.h.issued == w.h.issued && w'.h.sent == w.h.sent
  }

  ghost predicate SameMembers(w: World, w': World) {
    w'.db.clientSessions == w.db.clientSessions
  }

  lemma LoginFrame(p: Policy, w: World, login: Id, browser: Id, at: int, bucket: Id, gcAfter: int, code: Id,
                   ceremony: Id)
    ensures SameOutbox(w, AfterBeginLogin(p, w, login, browser, at))
            && SameMembers(w, AfterBeginLogin(p, w, login, browser, at))
    ensures SameOutbox(w, w.(now := login)) && SameMembers(w, w.(now := login))
    ensures SameOutbox(w, AfterRate(w, bucket, gcAfter)) && SameMembers(w, AfterRate(w, bucket, gcAfter))
    ensures SameOutbox(w, AfterReplay(w, code)) && SameMembers(w, AfterReplay(w, code))
    ensures SameOutbox(w, AfterFailCeremony(w, ceremony)) && SameMembers(w, AfterFailCeremony(w, ceremony))
  {
  }

  lemma CeremonyFrame(p: Policy, w: World, login: Id, browser: Id, ceremony: Id, register: bool, account: Id,
                      invitation: Id, at: int)
    ensures var w' := AfterStartCeremony(p, w, login, browser, ceremony, register, account, invitation, at);
            SameOutbox(w, w') && SameMembers(w, w')
  {
  }

  lemma GuardedFrame(p: Policy, w: World, csrf: Id, browser: Id, sso: Id, at: int, key: Key, exp: int, keysActive: bool)
    ensures var w' := AfterAccept(p, w, key, exp, keysActive); SameOutbox(w, w') && SameMembers(w, w')
    ensures var w' := AfterStartLogout(p, w, csrf, browser, sso, at); SameOutbox(w, w') && SameMembers(w, w')
  {
  }

  lemma ConsentFrame(p: Policy, w: World, login: Id, browser: Id, sso: Id, sid: Id, code: Id, nonce: Id, at: int)
    ensures SameOutbox(w, AfterConsent(p, w, login, browser, sso, sid, code, nonce, at))
  {
    hide IssueCode;
    if IssueCode(p, w.db, w.now, login, browser, sso, sid, code, nonce, at).Some? {
      IssueShape(p, w, login, browser, sso, sid, code, nonce, at);
    }
  }

  lemma FinishFrame(p: Policy, w: World, login: Id, browser: Id, ceremony: Id, credential: Id, readEpoch: nat,
                    sso: Id, secret: Id, sid: Id, code: Id, nonce: Id, at: int)
    ensures SameOutbox(w, AfterFinish(p, w, login, browser, ceremony, credential, readEpoch, sso, secret, sid, code,
            nonce, at))
  {
    hide IssueCode, AuthenticateWrites;
    var writes := AuthenticateWrites(p, w.db, w.now, login, browser, ceremony, credential, readEpoch);
    if writes.Some? {
      var (db1, account) := writes.value;
      WritesShape(p, w.db, w.now, login, browser, ceremony, credential, readEpoch);
      var created := CreateSession(p, db1, w.now, account, credential, sso, secret, at);
      if created.Some? {
        ConsentFrame(p, AfterSession(AfterWrites(w, ceremony, db1), sso, secret, created.value), login, browser, sso,
          sid, code, nonce, at);
      }
    }
  }

  lemma ExchangeFrame(p: Policy, w: World, code: Id, operation: Id, access: Id, keysActive: bool, at: int)
    ensures var w' := AfterExchange(p, w, code, operation, access, keysActive, at);
            SameOutbox(w, w') && SameMembers(w, w')
  {
    hide ExchangeBatch;
    if ExchangeBatch(p, w.db, w.now, code, operation, access, keysActive, at).Some? {
      ExchangeShape(p, w.db, w.now, code, operation, access, keysActive, at);
    }
  }

  lemma LogoutFrame(p: Policy, w: World, csrf: Id, sso: Id, event: Id, at: int)
    ensures var w' := AfterLogout(p, w, csrf, sso, event, at);
            w'.db.deliveries == w.db.deliveries && w'.db.revocations == w.db.revocations && w'.h.issued == w.h.issued
  {
    hide HasEvent, LogoutEventRow, KeysOfSso, AddEvents;
  }

  lemma RevokeFrame(p: Policy, w: World, operation: Id, account: Id, epoch: nat, at: int)
    ensures var w' := AfterRevokeAccount(p, w, operation, account, epoch, at);
            w'.db.deliveries == w.db.deliveries && w'.db.events == w.db.events && w'.h.issued == w.h.issued
              && w'.h.sent == w.h.sent && SameMembers(w, w')
  {
    hide KeysOfEpoch;
  }

  lemma ExpandFrame(p: Policy, w: World, chosen: set<Id>)
    requires chosen <= Uncovered(w.db)
    ensures var w' := AfterExpand(p, w, chosen);
            w'.db.deliveries == w.db.deliveries && w'.h.issued == w.h.issued && SameMembers(w, w')
  {
    hide Uncovered, FullyExpanded, ExpandedEventRow;
  }

  lemma FanoutFrame(w: World, rows: map<Id, (Id, Key)>)
    requires forall d :: d in rows ==> rows[d].0 in w.db.events
    ensures var w' := AfterFanout(w, rows);
              w'.db.revocations == w.db.revocations && w'.h.issued == w.h.issued
              && SameMembers(w, w')
  {
    hide FannedOut, NewDelivery;
  }

  lemma ClaimFrame(p: Policy, w: World, pick: Option<Id>, lease: Id, at: int)
    requires IsNextClaim(p, w.db.deliveries, at, pick)
    ensures var w' := AfterClaim(p, w, pick, lease, at);
            w'.db.events == w.db.events && w'.db.revocations == w.db.revocations && w'.h.sent == w.h.sent
              && SameMembers(w, w')
  {
    hide Claimable, ClaimRow;
  }

  lemma SettleFrame(p: Policy, w: World, lease: Id, status: int, retryAfter: RetryAfter, random: real, decidedAt: int,
                    at: int)
    requires lease in w.h.issued && w.h.issued[lease].attempts > 0
    ensures var w' := AfterSettle(p, w, lease, status, retryAfter, random, decidedAt, at);
            && w'.db.events == w.db.events && w'.db.revocations == w.db.revocations && w'.h.issued == w.h.issued
               && w'.h.sent == w.h.sent
            && SameMembers(w, w')
  {
    hide SettlesOn, SettleRow, Outcome;
  }

  lemma ExpireFrame(p: Policy, w: World, at: int)
    ensures var w' := AfterExpire(p, w, at);
              w'.db.events == w.db.events && w'.db.revocations == w.db.revocations
              && w'.h == w.h && SameMembers(w, w')
  {
  }

  lemma RetryFrame(p: Policy, w: World, operation: Id, event: Id, revision: nat, deadline: int, retainUntil: int,
                   at: int)
    ensures var w' := AfterRetry(p, w, operation, event, revision, deadline, retainUntil, at);
            w'.db.revocations == w.db.revocations && w'.h.issued == w.h.issued && w'.h.sent == w.h.sent
              && SameMembers(w, w')
  {
    hide RetryGuard, AuditConflict, RetryRow;
  }

  lemma CollectFrame(w: World, table: Table, victims: set<RowId>)
    ensures var w' := AfterCollect(w, table, victims);
            && (table != Deliveries ==> w'.db.deliveries == w.db.deliveries)
            && (table != Events ==> w'.db.events == w.db.events && w'.h.sent == w.h.sent)
            && (table != ClientSessions ==> SameMembers(w, w'))
            && (table != Revocations ==> w'.db.revocations == w.db.revocations)
            && w'.h.issued == w.h.issued
  {
    hide Ids, Keys;
  }

  /** Login, issuance, exchange and bookkeeping steps. */
  predicate IssuingStep(s: Step) {
    s.Tick? || s.BeginLogin? || s.StartCeremony? || s.FailCeremony? || s.Finish? || s.Consent? || s.Exchange?
      || s.ReplayedCode?
    || s.Accept? || s.StartLogout? || s.Rate?
  }

  lemma IssuingStepFrame(p: Policy, w: World, s: Step)
    requires Enabled(p, w, s) && IssuingStep(s)
    ensures SameOutbox(w, Apply(p, w, s)) && (!WritesClientSessions(s) ==> SameMembers(w, Apply(p, w, s)))
  {
    hide SameOutbox, SameMembers, AfterBeginLogin, AfterRate, AfterReplay, AfterFailCeremony, AfterStartCeremony,
      AfterFinish, AfterConsent, AfterExchange, AfterAccept, AfterStartLogout, AfterLogout, AfterRevokeAccount,
      AfterExpand, AfterFanout, AfterClaim, AfterSettle, AfterExpire, AfterRetry, AfterCollect, LegalFanout,
      IsNextClaim, LimitOf, Fresh, RetryParameters, DoomedRows;
    match s
    case Tick(to) => LoginFrame(p, w, to, 0, 0, 0, 0, 0, 0);
    case BeginLogin(login, browser, at) => LoginFrame(p, w, login, browser, at, 0, 0, 0, 0);
    case StartCeremony(login, browser, ceremony, register, account, invitation, at) =>
      CeremonyFrame(p, w, login, browser, ceremony, register, account, invitation, at);
    case FailCeremony(ceremony) => LoginFrame(p, w, 0, 0, 0, 0, 0, 0, ceremony);
    case Finish(login, browser, ceremony, credential, readEpoch, sso, secret, sid, code, nonce, at) =>
      FinishFrame(p, w, login, browser, ceremony, credential, readEpoch, sso, secret, sid, code, nonce, at);
    case Consent(login, browser, sso, sid, code, nonce, at) =>
      ConsentFrame(p, w, login, browser, sso, sid, code, nonce, at);
    case Exchange(code, operation, access, keysActive, at) =>
      ExchangeFrame(p, w, code, operation, access, keysActive, at);
    case ReplayedCode(code) => LoginFrame(p, w, 0, 0, 0, 0, 0, code, 0);
    case Accept(key, exp, keysActive) => GuardedFrame(p, w, 0, 0, 0, 0, key, exp, keysActive);
    case StartLogout(csrf, browser, sso, at) => GuardedFrame(p, w, csrf, browser, sso, at, Key(0, 0), 0, true);
    case Rate(bucket, gcAfter) => LoginFrame(p, w, 0, 0, 0, bucket, gcAfter, 0, 0);
    case _ =>
  }

  lemma LogoutStepFrame(p: Policy, w: World, s: Step)
    requires Enabled(p, w, s) && !IssuingStep(s)
    ensures !WritesDeliveries(s) ==> Apply(p, w, s).db.deliveries == w.db.deliveries
    ensures !WritesEvents(s) ==> Apply(p, w, s).db.events == w.db.events
    ensures !WritesRevocations(s) ==> Apply(p, w, s).db.revocations == w.db.revocations
    ensures !s.Claim? ==> Apply(p, w, s).h.issued == w.h.issued
    ensures !s.Logout? && !s.Expand? && !s.Fanout? && !(s.Collect? && s.table == Events) ==>
            Apply(p, w, s).h.sent == w.h.sent
    ensures !WritesClientSessions(s) ==> Apply(p, w, s).db.clientSessions == w.db.clientSessions
  {
    hide AfterBeginLogin, AfterRate, AfterReplay, AfterFailCeremony, AfterStartCeremony, AfterFinish, AfterConsent,
      AfterExchange, AfterAccept, AfterStartLogout, AfterLogout, AfterRevokeAccount, AfterExpand, AfterFanout,
      AfterClaim, AfterSettle, AfterExpire, AfterRetry, AfterCollect, LegalFanout, IsNextClaim, LimitOf, Fresh,
      RetryParameters, DoomedRows;
    match s
    case Logout(csrf, sso, event, at) => LogoutFrame(p, w, csrf, sso, event, at);
    case RevokeAccount(operation, account, epoch, at) => RevokeFrame(p, w, operation, account, epoch, at);
    case Expand(chosen) => LimitInside(chosen, Uncovered(w.db), p.fanoutBatch); ExpandFrame(p, w, chosen);
    case Fanout(rows) => LegalRows(p, w.db, rows); FanoutFrame(w, rows);
    case Claim(pick, lease, at) => ClaimFrame(p, w, pick, lease, at);
    case Settle(lease, status, retryAfter, random, decidedAt, at) =>
      SettleFrame(p, w, lease, status, retryAfter, random, decidedAt, at);
    case Expire(at) => ExpireFrame(p, w, at);
    case Retry(operation, event, revision, deadline, retainUntil, at) =>
      RetryFrame(p, w, operation, event, revision, deadline, retainUntil, at);
    case Collect(table, at, victims) => CollectFrame(w, table, victims);
    case _ =>
  }

  /** The tables of the outbox change only in the steps that write them. */
  lemma OutboxFrame(p: Policy, w: World, s: Step)
    requires Enabled(p, w, s)
    ensures !WritesDeliveries(s) ==> Apply(p, w, s).db.deliveries == w.db.deliveries
    ensures !WritesEvents(s) ==> Apply(p, w, s).db.events == w.db.events
    ensures !WritesRevocations(s) ==> Apply(p, w, s).db.revocations == w.db.revocations
    ensures !s.Claim? ==> Apply(p, w, s).h.issued == w.h.issued
    ensures !s.Logout? && !s.Expand? && !s.Fanout? && !(s.Collect? && s.table == Events) ==>
            Apply(p, w, s).h.sent == w.h.sent
    ensures !WritesClientSessions(s) ==> Apply(p, w, s).db.clientSessions == w.db.clientSessions
  {
    hide Apply, Enabled;
    if IssuingStep(s) { IssuingStepFrame(p, w, s); } else { LogoutStepFrame(p, w, s); }
  }

  /** What Apply is for the steps that theorems single out. */
  lemma Effects(p: Policy, w: World, s: Step)
    requires Enabled(p, w, s)
    ensures s.Settle? ==> s.lease in w.h.issued && w.h.issued[s.lease].attempts > 0
                          && Apply(p, w, s) == AfterSettle(p, w, s.lease, s.status, s.retryAfter, s.random, s.decidedAt,
                             s.at)
    ensures s.Retry? ==> Apply(p, w, s) == AfterRetry(p, w, s.operation, s.event, s.revision, s.deadline, s.retainUntil,
            s.at)
    ensures s.Accept? ==> Apply(p, w, s) == AfterAccept(p, w, s.key, s.exp, s.keysActive)
    ensures s.Logout? ==> Apply(p, w, s) == AfterLogout(p, w, s.csrf, s.sso, s.event, s.at)
  {
    hide AfterSettle, AfterRetry, AfterAccept, AfterLogout;
  }

  lemma LegalRows(p: Policy, db: Db, rows: map<Id, (Id, Key)>)
    requires LegalFanout(p, db, rows)
    ensures forall d :: d in rows ==> rows[d].0 in db.events
  {
    hide MissingRows;
  }

}
