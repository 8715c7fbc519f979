/** Browser logout, account revocation and operator retry written out row by row, and what they leave for good over
    whole runs. */
module OpRevocationLaw {
  import opened Wrappers
  import opened RuntimePolicy
  import opened Sets
  import opened OpTables
  import opened OpBatches
  import opened OpGc
  import opened OpMachine
  import opened OpInvariants
  import opened OpSafety
  import opened OpFrames
  import opened OpStepsIssue
  import opened OpStepsLogout
  import opened OpStepsDelivery
  import opened OpDeliveryTheorems
  import opened OpEventTheorems
  import opened OpAccountTheorems
  import opened OpIssuanceTheorems
  import opened OpCodeTheorems
  import opened OpWrites
  import opened OpIssueLaw
  import opened OpOrigins
  import opened OpLifetimes

  // ---------------------------------------------------------------- browser logout

  /** The event row of a browser logout at reading `at`: deliveries may be tried for retry_deadline seconds, and the row
      is retained for the session, the deliveries and the audit, whichever is longest. */
  ghost predicate LogoutEvent(p: Policy, s: Session, sso: Id, at: int, row: Event) {
    var kept := {s.expiresAt + p.skew + p.grace, at + p.retryDeadline + p.skew + p.grace,
                 at + p.auditTtl + p.skew + p.grace, s.gcAfter};
    && row == Event(sso, at, at + p.retryDeadline, row.gcAfter, false, 0)
    && row.gcAfter in kept && forall t :: t in kept ==> t <= row.gcAfter
  }

  /** A confirmed logout of a stored session: the session and every client session of it are revoked, the event is
      recorded, the transaction is spent, and nothing else of these tables changes. */
  ghost predicate LogoutRows(p: Policy, db: Db, db': Db, csrf: Id, sso: Id, event: Id, at: int) {
    && sso in db.sessions
    && event in db'.events && db'.events == db.events[event := db'.events[event]]
    && LogoutEvent(p, db.sessions[sso], sso, at, db'.events[event])
    && db'.sessions == db.sessions[sso := db.sessions[sso].(revoked := true)]
    && db'.clientSessions.Keys == db.clientSessions.Keys
    && (forall k :: k in db.clientSessions ==>
       db'.clientSessions[k] == ClientSession(db.clientSessions[k].sso, db.clientSessions[k].account,
         db.clientSessions[k].version, db.clientSessions[k].revoked || db.clientSessions[k].sso == sso))
    && db'.logoutTxs == db.logoutTxs - {csrf}
  }

  lemma LogoutEventOf(p: Policy, s: Session, sso: Id, at: int)
    ensures LogoutEvent(p, s, sso, at, LogoutEventRow(p, s, sso, at))
  {
  }

  /** A logout commits exactly with an unexpired transaction, and, if its session is still stored, exactly if the
      session has no event yet and the event identifier is unused. */
  lemma LogoutExactly(p: Policy, w: World, csrf: Id, sso: Id, event: Id, at: int)
    ensures var w' := AfterLogout(p, w, csrf, sso, event, at);
            if csrf in w.db.logoutTxs && w.now < w.db.logoutTxs[csrf].expiresAt then
              if sso !in w.db.sessions then w'.db == w.db.(logoutTxs := w.db.logoutTxs - {csrf})
              else if event !in w.db.events && (forall e :: e in w.db.events ==> w.db.events[e].sso != sso) then
                LogoutRows(p, w.db, w'.db, csrf, sso, event, at)
              else w' == w
            else w' == w
  {
    hide LogoutEventRow, LogoutEvent, MarkRevoked, AddEvents, KeysOfSso;
    if sso in w.db.sessions { LogoutEventOf(p, w.db.sessions[sso], sso, at); }
  }

  /** A session that can never be live again: its identifier is spent, and any row under it is revoked. */
  ghost predicate SignedOut(w: World, sso: Id) {
    sso in w.h.used && (sso in w.db.sessions ==> w.db.sessions[sso].revoked)
  }

  lemma SignedOutStep(p: Policy, w: World, s: Step, sso: Id)
    requires Enabled(p, w, s) && SignedOut(w, sso)
    ensures SignedOut(Apply(p, w, s), sso)
  {
    hide Apply, Enabled, Fresh;
    SessionStep(p, w, s);
    CodesStep(p, w, s);
    if s.Finish? { FinishIsFresh(p, w, s); }
  }

  lemma FinishIsFresh(p: Policy, w: World, s: Step)
    requires Enabled(p, w, s) && s.Finish?
    ensures s.sso !in w.h.used
  {
    FreshFour(w, s.sso, s.secret, s.sid, s.code);
  }

  lemma {:induction false} SignedOutStays(p: Policy, states: seq<World>, steps: seq<Step>, i: nat, j: nat, sso: Id)
    requires IsRun(p, states, steps) && i <= j < |states| && SignedOut(states[i], sso)
    ensures SignedOut(states[j], sso)
  {
    hide IsRun, Apply, Enabled, SignedOut;
    if i < j {
      SignedOutStays(p, states, steps, i, j - 1, sso);
      OneStep(p, states, steps, j - 1);
      SignedOutStep(p, states[j - 1], steps[j - 1], sso);
    }
  }

  lemma SessionKnown(p: Policy, w: World, sso: Id)
    requires Inv(p, w) && sso in w.db.sessions
    ensures sso in w.h.used
  {
    hide AccountInv, EventInv, RowInv, SentOk, LoginInv, RegistrationsOnce, CodeInv, SessionCap, ClientSessionCap,
      AssertionsKept, ViewInv, NotifiedRevoked, UsedHistory;
  }

  /** A committed logout is final: its session is never live again at any later state, so its cookie signs nobody in, no
      code is issued or exchanged in it, and none of its client sessions is confirmed. */
  lemma LoggedOutForGood(p: Policy, states: seq<World>, steps: seq<Step>, i: nat, j: nat, t: int, key: Key)
    requires IsRun(p, states, steps) && Initial(states[0]) && i < j < |states| && |states| == |steps| + 1
    requires steps[i].Logout? && states[i + 1] != states[i] && steps[i].sso in states[i].db.sessions
    ensures !Live(states[j].db, steps[i].sso, t)
    ensures key in states[j].db.clientSessions && states[j].db.clientSessions[key].sso == steps[i].sso ==>
              !Eligible(states[j].db, key, t) && SessionCheck(states[j].db, key, t).None?
  {
    hide Inv, Initial, IsRun, Apply, Enabled, AfterLogout, LogoutEvent;
    var s := steps[i];
    RunStep(p, states, steps, i);
    Effects(p, states[i], s);
    LogoutExactly(p, states[i], s.csrf, s.sso, s.event, s.at);
    SessionKnown(p, states[i], s.sso);
    UsedGrowsOver(p, states, steps, i, i + 1);
    SignedOutStays(p, states, steps, i + 1, j, s.sso);
  }

  // ---------------------------------------------------------------- account revocation

  /** A revocation advances exactly the epoch that was read, of an active account, under an unused operation id, and
      records how long its expansion and its deliveries may take. */
  lemma RevokeExactly(p: Policy, w: World, operation: Id, account: Id, epoch: nat, at: int)
    ensures var w' := AfterRevokeAccount(p, w, operation, account, epoch, at);
            if account in w.db.accounts && w.db.accounts[account].active && w.db.accounts[account].epoch == epoch
               && operation !in w.db.revocations then
              && w'.db.accounts == w.db.accounts[account := Account(epoch + 1, true)]
              && operation in w'.db.revocations
              && w'.db.revocations == w.db.revocations[operation := w'.db.revocations[operation]]
              && RevocationBy(p, account, epoch, at, w'.db.revocations[operation])
              && !w'.db.revocations[operation].expanded
              && w'.db == w.db.(accounts := w'.db.accounts, revocations := w'.db.revocations)
            else w' == w
  {
    hide MarkRevoked, KeysOfEpoch;
  }

  ghost predicate RevocationBy(p: Policy, account: Id, epoch: nat, at: int, row: Revocation) {
    && row == Revocation(account, epoch, at, at + p.retryDeadline, row.gcAfter, row.expanded)
    && Later(row.gcAfter, at + p.retryDeadline + p.skew + p.grace, at + p.auditTtl + p.skew + p.grace)
  }

  /** A committed revocation of an account is final: at every later state, a live session of the account belongs to a
      later epoch. */
  lemma RevokedForGood(p: Policy, states: seq<World>, steps: seq<Step>, i: nat, j: nat, sso: Id, t: int)
    requires IsRun(p, states, steps) && Initial(states[0]) && i < j < |states| && |states| == |steps| + 1
    requires steps[i].RevokeAccount? && states[i + 1] != states[i]
    requires Live(states[j].db, sso, t) && states[j].db.sessions[sso].account == steps[i].account
    ensures states[j].db.sessions[sso].epoch > steps[i].epoch
  {
    hide Initial, IsRun, Apply, Enabled, AfterRevokeAccount, RevocationBy;
    var s := steps[i];
    OneStep(p, states, steps, i);
    StepIs(p, states[i], s);
    RevokeExactly(p, states[i], s.operation, s.account, s.epoch, s.at);
    EpochStaysClosed(p, states, steps, i + 1, j, s.account, s.epoch);
  }

  ghost predicate RevocationFrom(p: Policy, s: Step, id: Id, row: Revocation) {
    s.RevokeAccount? && s.operation == id && RevocationBy(p, s.account, s.epoch, s.at, row)
  }

  /** A revocation row is written once; only its flag is set later. */
  ghost predicate RevocationsMove(p: Policy, s: Step, db: Db, db': Db) {
    forall r :: r in db'.revocations ==>
      || (r in db.revocations && db'.revocations[r] == db.revocations[r])
      || (r in db.revocations && s.Expand? && db'.revocations[r] == db.revocations[r].(expanded := true))
      || (RevocationFrom(p, s, r, db'.revocations[r]) && !db'.revocations[r].expanded)
  }

  lemma RevocationStep(p: Policy, w: World, s: Step)
    requires Inv(p, w) && Enabled(p, w, s)
    ensures RevocationsMove(p, s, w.db, Apply(p, w, s).db)
  {
    hide Inv, Apply, Enabled, AfterRevokeAccount, AfterExpand, AfterCollect, DoomedRows, RevocationBy, FullyExpanded;
    if s.Expand? {
      ExpandStep(p, w, s);
      forall r | r in w.db.revocations { ExpandedExactly(p, w, s.chosen, r); }
      ExpandShape(p, w, s.chosen);
    } else if s.RevokeAccount? {
      StepIs(p, w, s);
      RevokeExactly(p, w, s.operation, s.account, s.epoch, s.at);
    } else if s.Collect? {
      CollectStep(p, w, s);
      RevocationsCollected(p, w, s);
    } else {
      OutboxFrame(p, w, s);
    }
  }

  lemma RevocationsCollected(p: Policy, w: World, s: Step)
    requires s.Collect?
    ensures RevocationsMove(p, s, w.db, AfterCollect(w, s.table, s.victims).db)
  {
    hide Ids, Keys;
  }

  /** Every stored revocation was recorded by a step of the run, with the time it gives to expansion and delivery. */
  lemma {:induction false} RevocationOrigin(p: Policy, states: seq<World>, steps: seq<Step>, j: nat, id: Id)
    requires IsRun(p, states, steps) && Initial(states[0]) && j < |states| && |states| == |steps| + 1
    requires id in states[j].db.revocations
    ensures exists i :: 0 <= i < j && RevocationFrom(p, steps[i], id, states[j].db.revocations[id])
  {
    hide Inv, IsRun, Apply, Enabled, RevocationFrom;
    if j > 0 {
      RevocationStepOf(p, states, steps, j - 1);
      if !RevocationFrom(p, steps[j - 1], id, states[j].db.revocations[id]) {
        RevocationOrigin(p, states, steps, j - 1, id);
        var i :| 0 <= i < j - 1 && RevocationFrom(p, steps[i], id, states[j - 1].db.revocations[id]);
        SameRevocation(p, steps[i], id, states[j - 1].db.revocations[id], states[j].db.revocations[id]);
      }
    }
  }

  lemma RevocationStepOf(p: Policy, states: seq<World>, steps: seq<Step>, i: nat)
    requires IsRun(p, states, steps) && Initial(states[0]) && i < |steps| && |states| == |steps| + 1
    ensures RevocationsMove(p, steps[i], states[i].db, states[i + 1].db)
  {
    hide Inv, Initial, IsRun, Apply, Enabled, RevocationsMove;
    RunStep(p, states, steps, i);
    RevocationStep(p, states[i], steps[i]);
  }

  lemma SameRevocation(p: Policy, s: Step, id: Id, row: Revocation, row': Revocation)
    requires RevocationFrom(p, s, id, row) && row' == row.(expanded := row'.expanded)
    ensures RevocationFrom(p, s, id, row')
  {
  }

  // ---------------------------------------------------------------- logout events

  /** An unexpanded revocation of the session's account that reaches the session's epoch. */
  ghost predicate Covering(revocations: map<Id, Revocation>, r: Id, s: Session) {
    r in revocations && !revocations[r].expanded && revocations[r].account == s.account
    && s.epoch <= revocations[r].through
  }

  /** The event that expansion records for a session: the earliest creation and the earliest deadline of the revocations
      that cover it, retained as long as each of them and the session ask for. */
  ghost predicate ExpandedEvent(p: Policy, revocations: map<Id, Revocation>, s: Session, sso: Id, row: Event) {
    && row == Event(sso, row.createdAt, row.deadline, row.gcAfter, false, 0)
    && (exists r :: Covering(revocations, r, s) && revocations[r].createdAt == row.createdAt)
    && (exists r :: Covering(revocations, r, s) && revocations[r].deadline == row.deadline)
    && (forall r :: Covering(revocations, r, s) ==>
       row.createdAt <= revocations[r].createdAt && row.deadline <= revocations[r].deadline
       && revocations[r].gcAfter <= row.gcAfter)
    && s.gcAfter <= row.gcAfter && s.expiresAt + p.skew + p.grace <= row.gcAfter
    && (row.gcAfter == s.gcAfter || row.gcAfter == s.expiresAt + p.skew + p.grace
        || exists r :: Covering(revocations, r, s) && revocations[r].gcAfter == row.gcAfter)
  }

  lemma ExpandedEventOf(p: Policy, revocations: map<Id, Revocation>, s: Session, sso: Id)
    requires Pursuing(revocations, s).Keys != {}
    ensures ExpandedEvent(p, revocations, s, sso, ExpandedEventRow(p, revocations, s, sso))
  {
    hide ExpandedEventRow;
    var rs := Pursuing(revocations, s);
    assert forall r :: r in rs ==> Covering(revocations, r, s) && rs[r] == revocations[r];
    assert forall r :: Covering(revocations, r, s) ==> r in rs;
    GeneratedEvent(p, revocations, s, sso);
  }

  /** The step that records event e: a confirmed logout, or the expansion of a revocation. */
  ghost predicate EventFrom(p: Policy, db: Db, s: Step, e: Id, row: Event) {
    || (s.Logout? && s.event == e && s.sso in db.sessions && LogoutEvent(p, db.sessions[s.sso], s.sso, s.at, row))
    || (s.Expand? && e in s.chosen && e in db.sessions
        && ExpandedEvent(p, db.revocations, db.sessions[e], e, row))
  }

  /** What a step may do to a stored event: a fanout flags it, and an operator retry extends it. */
  ghost predicate EventMoves(s: Step, e: Id, row: Event, row': Event) {
    || row' == row
    || (s.Fanout? && row' == row.(expanded := true))
    || (s.Retry? && s.event == e && s.revision == row.revision && row.expanded && row.deadline < s.deadline
        && row' == Event(row.sso, row.createdAt, s.deadline, row'.gcAfter, true, row.revision + 1)
        && Later(row'.gcAfter, row.gcAfter, s.retainUntil))
  }

  ghost predicate EventsMove(p: Policy, s: Step, db: Db, db': Db) {
    forall e :: e in db'.events ==>
      if e in db.events then EventMoves(s, e, db.events[e], db'.events[e]) else EventFrom(p, db, s, e, db'.events[e])
  }

  lemma LogoutEventsMove(p: Policy, w: World, s: Step)
    requires s.Logout?
    ensures EventsMove(p, s, w.db, AfterLogout(p, w, s.csrf, s.sso, s.event, s.at).db)
  {
    hide AfterLogout, LogoutEvent, ExpandedEvent;
    LogoutExactly(p, w, s.csrf, s.sso, s.event, s.at);
  }

  lemma ExpandEventsMove(p: Policy, w: World, s: Step)
    requires Inv(p, w) && s.Expand? && s.chosen <= Uncovered(w.db)
    ensures EventsMove(p, s, w.db, AfterExpand(p, w, s.chosen).db)
  {
    hide Inv, AfterExpand, ExpandedEventRow, ExpandedEvent, LogoutEvent, Uncovered, Pursuing;
    ExpandShape(p, w, s.chosen);
    forall e | e in s.chosen { ExpandedEventOf(p, w.db.revocations, w.db.sessions[e], e); }
  }

  lemma FanoutEventsMove(p: Policy, w: World, s: Step)
    requires s.Fanout? && forall d :: d in s.rows ==> s.rows[d].0 in w.db.events
    ensures EventsMove(p, s, w.db, AfterFanout(w, s.rows).db)
  {
    hide FannedOut, NewDelivery, LogoutEvent, ExpandedEvent, AddRows;
  }

  lemma RetryEventsMove(p: Policy, w: World, s: Step)
    requires s.Retry?
    ensures EventsMove(p, s, w.db, AfterRetry(p, w, s.operation, s.event, s.revision, s.deadline, s.retainUntil,
              s.at).db)
  {
    hide FannedOut, AuditConflict, RetryRow, LogoutEvent, ExpandedEvent;
  }

  lemma EventsCollected(p: Policy, w: World, s: Step)
    requires s.Collect?
    ensures EventsMove(p, s, w.db, AfterCollect(w, s.table, s.victims).db)
  {
    hide Ids, Keys, LogoutEvent, ExpandedEvent;
  }

  lemma SameEvents(p: Policy, s: Step, db: Db, db': Db)
    requires db'.events == db.events
    ensures EventsMove(p, s, db, db')
  {
  }

  /** What one step of the provider does to the logout events. */
  lemma EventStep(p: Policy, w: World, s: Step)
    requires Inv(p, w) && Enabled(p, w, s)
    ensures EventsMove(p, s, w.db, Apply(p, w, s).db)
  {
    hide Inv, Apply, Enabled, EventsMove, AfterLogout, AfterExpand, AfterFanout, AfterRetry, AfterCollect, LegalFanout,
      DoomedRows;
    if s.Logout? {
      Effects(p, w, s);
      LogoutEventsMove(p, w, s);
    } else if s.Expand? {
      ExpandStep(p, w, s);
      ExpandEventsMove(p, w, s);
    } else if s.Fanout? {
      FanoutStep(p, w, s);
      FanoutEventsMove(p, w, s);
    } else if s.Retry? {
      Effects(p, w, s);
      RetryEventsMove(p, w, s);
    } else if s.Collect? {
      CollectStep(p, w, s);
      EventsCollected(p, w, s);
    } else {
      OutboxFrame(p, w, s);
      SameEvents(p, s, w.db, Apply(p, w, s).db);
    }
  }

  /** The event as it was recorded: operator retries extend its deadline and raise its revision, nothing else moves
      it. */
  ghost predicate Lengthened(row: Event, row': Event) {
    && row'.sso == row.sso && row'.createdAt == row.createdAt && row.deadline <= row'.deadline
    && row.gcAfter <= row'.gcAfter && row.revision <= row'.revision
    && (row'.revision == row.revision ==> row'.deadline == row.deadline && row'.gcAfter == row.gcAfter)
  }

  /** Step i of the run recorded event e as `first`, and `row` is what became of it. */
  ghost predicate RecordedEvent(p: Policy, w: World, s: Step, w': World, e: Id, row: Event) {
    e !in w.db.events && e in w'.db.events && EventFrom(p, w.db, s, e, w'.db.events[e])
      && Lengthened(w'.db.events[e], row)
  }

  /** Every stored event was recorded by a confirmed logout or by the expansion of a revocation; as long as its revision
      is 0, it still has the deadline and the retention it was recorded with. */
  lemma {:induction false} EventOrigin(p: Policy, states: seq<World>, steps: seq<Step>, j: nat, e: Id)
    requires IsRun(p, states, steps) && Initial(states[0]) && j < |states| && |states| == |steps| + 1
    requires e in states[j].db.events
    ensures exists i :: 0 <= i < j && RecordedEvent(p, states[i], steps[i], states[i + 1], e, states[j].db.events[e])
  {
    hide Inv, IsRun, Apply, Enabled, EventFrom, EventMoves;
    if j > 0 {
      EventStepOf(p, states, steps, j - 1);
      if e in states[j - 1].db.events {
        EventOrigin(p, states, steps, j - 1, e);
        var i :| 0 <= i < j - 1
          && RecordedEvent(p, states[i], steps[i], states[i + 1], e, states[j - 1].db.events[e]);
        StillRecorded(p, states[i], steps[i], states[i + 1], e, steps[j - 1], states[j - 1].db.events[e],
          states[j].db.events[e]);
        assert RecordedEvent(p, states[i], steps[i], states[i + 1], e, states[j].db.events[e]);
      } else {
        assert RecordedEvent(p, states[j - 1], steps[j - 1], states[j - 1 + 1], e, states[j].db.events[e]);
      }
    }
  }

  lemma EventStepOf(p: Policy, states: seq<World>, steps: seq<Step>, i: nat)
    requires IsRun(p, states, steps) && Initial(states[0]) && i < |steps| && |states| == |steps| + 1
    ensures EventsMove(p, steps[i], states[i].db, states[i + 1].db)
  {
    hide Inv, Initial, IsRun, Apply, Enabled, EventsMove;
    RunStep(p, states, steps, i);
    EventStep(p, states[i], steps[i]);
  }

  lemma StillRecorded(p: Policy, w: World, s: Step, w': World, e: Id, s': Step, row: Event, row': Event)
    requires RecordedEvent(p, w, s, w', e, row) && EventMoves(s', e, row, row')
    ensures RecordedEvent(p, w, s, w', e, row')
  {
    hide EventFrom;
  }

  // ---------------------------------------------------------------- retry audits

  /** The audit row of a committed retry: the deadline that the event had, the one it got, and how long that is kept. */
  ghost predicate AuditFrom(p: Policy, db: Db, s: Step, id: Id, row: Audit) {
    && s.Retry? && s.operation == id && s.event in db.events
    && row == Audit(s.event, s.revision, db.events[s.event].deadline, s.deadline, row.gcAfter)
    && Later(row.gcAfter, s.retainUntil, s.at + p.auditTtl + p.skew + p.grace)
  }

  /** Audit rows are written by committed retries and never change; a retry that commits writes one. */
  lemma RetryAudited(p: Policy, w: World, s: Step)
    requires s.Retry?
    ensures var w' := AfterRetry(p, w, s.operation, s.event, s.revision, s.deadline, s.retainUntil, s.at);
            && (w' != w ==> s.operation !in w.db.audits && s.operation in w'.db.audits)
            && forall a :: a in w'.db.audits ==>
                 (a in w.db.audits && w'.db.audits[a] == w.db.audits[a]) || AuditFrom(p, w.db, s, a, w'.db.audits[a])
  {
    hide FannedOut, RetryRow;
  }
}
