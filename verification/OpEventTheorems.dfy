/** Main results about logout events over whole runs: frozen membership, one notification per client session,
    and operator retries. */
module OpEventTheorems {
  import opened Wrappers
  import opened RuntimePolicy
  import opened RetryTiming
  import opened Sets
  import opened OpTables
  import opened OpBatches
  import opened OpGc
  import opened OpMachine
  import opened OpInvariants
  import opened OpStepsDelivery
  import opened OpStepsLogout
  import opened OpStepsIssue
  import opened OpStepsGc
  import opened OpSafety
  import opened OpFrames
  import opened OpDeliveryTheorems

  // ---------------------------------------------------------------- frozen membership

  ghost predicate SameMembership(clientSessions: map<Key, ClientSession>, clientSessions': map<Key, ClientSession>,
                                 sso: Id)
  {
    forall k :: Member(clientSessions, sso, k) <==> Member(clientSessions', sso, k)
  }

  lemma ConsentMembers(p: Policy, w: World, login: Id, browser: Id, sso: Id, sid: Id, code: Id, nonce: Id, at: int,
                       target: Id)
    requires target in w.db.sessions && Dead(w.db.sessions[target], w.db.accounts)
    ensures SameMembership(w.db.clientSessions, AfterConsent(p, w, login, browser, sso, sid, code, nonce,
            at).db.clientSessions, target)
  {
    hide IssueCode;
    if IssueCode(p, w.db, w.now, login, browser, sso, sid, code, nonce, at).Some? {
      IssueShape(p, w, login, browser, sso, sid, code, nonce, at);
    }
  }

  lemma FinishMembers(p: Policy, w: World, login: Id, browser: Id, ceremony: Id, credential: Id, readEpoch: nat,
                      sso: Id, secret: Id, sid: Id, code: Id, nonce: Id, at: int, target: Id)
    requires target in w.db.sessions && sso !in w.db.sessions
    ensures SameMembership(w.db.clientSessions,
                           AfterFinish(p, w, login, browser, ceremony, credential, readEpoch, sso, secret, sid, code,
                             nonce, at).db.clientSessions, target)
  {
    hide IssueCode, AuthenticateWrites, ActiveSessions, Live, Eligible, LoginOpen, Dead, Registered, AddTo;
    var writes := AuthenticateWrites(p, w.db, w.now, login, browser, ceremony, credential, readEpoch);
    if writes.Some? {
      var (db1, account) := writes.value;
      WritesShape(p, w.db, w.now, login, browser, ceremony, credential, readEpoch);
      var created := CreateSession(p, db1, w.now, account, credential, sso, secret, at);
      if created.Some? {
        var w2 := AfterSession(AfterWrites(w, ceremony, db1), sso, secret, created.value);
        if IssueCode(p, w2.db, w.now, login, browser, sso, sid, code, nonce, at).Some? {
          IssueShape(p, w2, login, browser, sso, sid, code, nonce, at);
        }
      }
    }
  }

  lemma LogoutMembers(p: Policy, w: World, csrf: Id, sso: Id, event: Id, at: int, target: Id)
    ensures SameMembership(w.db.clientSessions, AfterLogout(p, w, csrf, sso, event, at).db.clientSessions, target)
  {
    hide LogoutEventRow, HasEvent;
    LogoutShape(p, w, csrf, sso, event, at);
  }

  lemma CollectMembers(w: World, at: int, victims: set<RowId>, target: Id)
    requires victims <= DoomedRows(w.db, ClientSessions, at) && HasEvent(w.db.events, target)
    ensures SameMembership(w.db.clientSessions, AfterCollect(w, ClientSessions, victims).db.clientSessions, target)
  {
    hide DoomedRows, DoomedDelivery, DoomedEvent, DoomedSession, Pursued, HasEvent;
    forall k | Member(w.db.clientSessions, target, k) ensures Pair(k) !in victims {
      if Pair(k) in victims { VictimDoomed(w.db, ClientSessions, at, victims, Pair(k)); }
    }
  }

  lemma WriterMembers(p: Policy, w: World, s: Step, target: Id)
    requires Inv(p, w) && Enabled(p, w, s) && WritesClientSessions(s)
    requires HasEvent(w.db.events, target) && target in w.db.sessions && Dead(w.db.sessions[target], w.db.accounts)
             && UsedSessions(w)
    ensures SameMembership(w.db.clientSessions, Apply(p, w, s).db.clientSessions, target)
  {
    hide AfterBeginLogin, AfterRate, AfterReplay, AfterFailCeremony, AfterStartCeremony, AfterFinish, AfterConsent,
      AfterExchange, AfterAccept, AfterStartLogout, AfterLogout, AfterRevokeAccount, AfterExpand, AfterFanout,
      AfterClaim, AfterSettle, AfterExpire, AfterRetry, AfterCollect, LegalFanout, IsNextClaim, LimitOf, Fresh,
      RetryParameters, DoomedRows, Inv, SameMembership, Dead, HasEvent;
    match s
    case Finish(login, browser, ceremony, credential, readEpoch, newSso, secret, sid, code, nonce, at) =>
      FreshFour(w, newSso, secret, sid, code);
      FinishMembers(p, w, login, browser, ceremony, credential, readEpoch, newSso, secret, sid, code, nonce, at,
        target);
    case Consent(login, browser, other, sid, code, nonce, at) =>
      ConsentMembers(p, w, login, browser, other, sid, code, nonce, at, target);
    case Logout(csrf, other, event, at) => LogoutMembers(p, w, csrf, other, event, at, target);
    case Collect(table, at, victims) => CollectMembers(w, at, victims, target);
    case _ =>
  }

  ghost predicate UsedSessions(w: World) {
    forall i :: i in w.db.sessions ==> i in w.h.used
  }

  lemma SessionsUsed(p: Policy, w: World)
    requires Inv(p, w)
    ensures UsedSessions(w)
  {
    hide AccountInv, EventInv, RowInv, SentOk, LoginInv, RegistrationsOnce, CodeInv, SessionCap, ClientSessionCap,
      AssertionsKept, ViewInv, NotifiedRevoked, UsedHistory;
  }

  lemma EventSessionDead(p: Policy, w: World, e: Id)
    requires Inv(p, w) && e in w.db.events
    ensures w.db.events[e].sso in w.db.sessions && Dead(w.db.sessions[w.db.events[e].sso], w.db.accounts)
    ensures HasEvent(w.db.events, w.db.events[e].sso)
  {
    hide AccountInv, RowInv, SentOk, LoginInv, RegistrationsOnce, CodeInv, SessionCap, ClientSessionCap, AssertionsKept,
      ViewInv, NotifiedRevoked, UsedHistory, UsedIds, Dead, UniqueEvents, EventsRetained;
  }

  /** While a logout event is stored its session is permanently dead and gains and loses no client session. */
  lemma MembershipFrozenStep(p: Policy, w: World, s: Step, e: Id)
    requires Inv(p, w) && Enabled(p, w, s) && e in w.db.events
    ensures var sso := w.db.events[e].sso;
            && sso in w.db.sessions && Dead(w.db.sessions[sso], w.db.accounts)
            && SameMembership(w.db.clientSessions, Apply(p, w, s).db.clientSessions, sso)
  {
    var sso := w.db.events[e].sso;
    assert SameMembership(w.db.clientSessions, w.db.clientSessions, sso);
    hide Inv, Apply, Enabled, Dead, HasEvent, SameMembership, UsedSessions;
    EventSessionDead(p, w, e);
    SessionsUsed(p, w);
    if WritesClientSessions(s) { WriterMembers(p, w, s, sso); } else { OutboxFrame(p, w, s); }
  }

  // ---------------------------------------------------------------- an event row over its lifetime

  /** A stored event never changes its session or creation time; deadline, retention, revision and the expansion
      flag only grow. */
  ghost predicate EventAges(e: Event, e': Event) {
    && e'.sso == e.sso && e'.createdAt == e.createdAt
    && e'.deadline >= e.deadline && e'.gcAfter >= e.gcAfter && e'.revision >= e.revision
    && (e.expanded ==> e'.expanded)
  }

  ghost predicate EventsAge(events: map<Id, Event>, events': map<Id, Event>) {
    forall e :: e in events && e in events' ==> EventAges(events[e], events'[e])
  }

  lemma LogoutEventsAge(p: Policy, w: World, csrf: Id, sso: Id, event: Id, at: int)
    ensures EventsAge(w.db.events, AfterLogout(p, w, csrf, sso, event, at).db.events)
  {
    hide LogoutEventRow, HasEvent;
    LogoutShape(p, w, csrf, sso, event, at);
  }

  lemma ExpandEventsAge(p: Policy, w: World, chosen: set<Id>)
    requires chosen <= Uncovered(w.db)
    ensures EventsAge(w.db.events, AfterExpand(p, w, chosen).db.events)
  {
    hide Uncovered, FullyExpanded, ExpandedEventRow;
  }

  lemma FanoutEventsAge(w: World, rows: map<Id, (Id, Key)>)
    requires forall d :: d in rows ==> rows[d].0 in w.db.events
    ensures EventsAge(w.db.events, AfterFanout(w, rows).db.events)
  {
    hide FannedOut, NewDelivery;
    FlagsShape(InsertDeliveries(w.db, rows));
  }

  lemma RetryEventsAge(p: Policy, w: World, operation: Id, event: Id, revision: nat, deadline: int, retainUntil: int,
                       at: int)
    ensures EventsAge(w.db.events, AfterRetry(p, w, operation, event, revision, deadline, retainUntil, at).db.events)
  {
    hide FannedOut, AuditConflict, RetryRow;
  }

  lemma CollectEventsAge(w: World, table: Table, victims: set<RowId>)
    ensures EventsAge(w.db.events, AfterCollect(w, table, victims).db.events)
  {
    hide Ids, Keys;
  }

  lemma EventsAgeStep(p: Policy, w: World, s: Step)
    requires Enabled(p, w, s)
    ensures EventsAge(w.db.events, Apply(p, w, s).db.events)
  {
    hide AfterBeginLogin, AfterRate, AfterReplay, AfterFailCeremony, AfterStartCeremony, AfterFinish, AfterConsent,
      AfterExchange, AfterAccept, AfterStartLogout, AfterLogout, AfterRevokeAccount, AfterExpand, AfterFanout,
      AfterClaim, AfterSettle, AfterExpire, AfterRetry, AfterCollect, LegalFanout, IsNextClaim, LimitOf, Fresh,
      RetryParameters, DoomedRows, EventsAge;
    SameEventsAge(w.db.events);
    if !WritesEvents(s) { OutboxFrame(p, w, s); }
    match s
    case Logout(csrf, sso, event, at) => LogoutEventsAge(p, w, csrf, sso, event, at);
    case Expand(chosen) => LimitInside(chosen, Uncovered(w.db), p.fanoutBatch); ExpandEventsAge(p, w, chosen);
    case Fanout(rows) => LegalRows(p, w.db, rows); FanoutEventsAge(w, rows);
    case Retry(operation, event, revision, deadline, retainUntil, at) =>
      RetryEventsAge(p, w, operation, event, revision, deadline, retainUntil, at);
    case Collect(table, at, victims) => CollectEventsAge(w, table, victims);
    case _ =>
  }

  lemma SameEventsAge(events: map<Id, Event>)
    ensures EventsAge(events, events)
  {
  }

  /** The event row e is stored in every state from i to j. */
  ghost predicate Lives(states: seq<World>, e: Id, i: nat, j: nat)
    requires i <= j < |states|
  {
    forall k :: i <= k <= j ==> e in states[k].db.events
  }

  /** Over its lifetime an event row ages, and its session's membership is the same at every moment. */
  lemma EventLifetime(p: Policy, states: seq<World>, steps: seq<Step>, i: nat, j: nat, e: Id)
    requires IsRun(p, states, steps) && Initial(states[0]) && i <= j < |states| && Lives(states, e, i, j)
    ensures EventAges(states[i].db.events[e], states[j].db.events[e])
    ensures SameMembership(states[i].db.clientSessions, states[j].db.clientSessions, states[i].db.events[e].sso)
    ensures states[j].db.events[e].sso in states[j].db.sessions
    ensures Dead(states[j].db.sessions[states[j].db.events[e].sso], states[j].db.accounts)
  {
    hide Inv, Initial, IsRun, Apply, Enabled, Dead;
    if i < j {
      EventLifetime(p, states, steps, i, j - 1, e);
      RunBounds(p, states, steps);
      RunStep(p, states, steps, j - 1);
      EventsAgeStep(p, states[j - 1], steps[j - 1]);
      MembershipFrozenStep(p, states[j - 1], steps[j - 1], e);
    }
    RunKeeps(p, states, steps, j);
    EventSessionDead(p, states[j], e);
  }

  // ---------------------------------------------------------------- one notification per client session

  /** A fanout only inserts rows for client sessions that never had one for this event row; with the invariant,
      an expanded event has had exactly one row for each member. */
  lemma FanoutNeverRepeats(p: Policy, w: World, rows: map<Id, (Id, Key)>, d: Id)
    requires Inv(p, w) && LegalFanout(p, w.db, rows) && d in rows
    ensures rows[d].0 in w.h.sent && rows[d].1 !in w.h.sent[rows[d].0]
  {
    hide AccountInv, EventInv, RowInv, LoginInv, RegistrationsOnce, CodeInv, SessionCap, ClientSessionCap,
      AssertionsKept, ViewInv, NotifiedRevoked, UsedHistory, UsedIds, MissingRows;
    InsertShape(p, w.db, rows);
  }

  /** What "expanded" promises: every client session of the dead session has been queued for this event. */
  lemma ExpandedMissesNone(p: Policy, w: World, e: Id, k: Key)
    requires Inv(p, w) && e in w.db.events && w.db.events[e].expanded
    ensures e in w.h.sent && (Member(w.db.clientSessions, w.db.events[e].sso, k) <==> k in w.h.sent[e])
  {
    hide AccountInv, EventInv, RowInv, LoginInv, RegistrationsOnce, CodeInv, SessionCap, ClientSessionCap,
      AssertionsKept, ViewInv, NotifiedRevoked, UsedHistory, UsedIds;
  }

  /** Client session k has been notified for event e, and no unfinished row could notify it again. */
  ghost predicate Notified(w: World, e: Id, k: Key) {
    && e in w.db.events && e in w.h.sent && k in w.h.sent[e]
    && forall d :: d in w.db.deliveries && w.db.deliveries[d].event == e && w.db.deliveries[d].key == k ==>
       w.db.deliveries[d].state.Delivered?
  }

  /** Rows stay rows of their event and key, and delivered rows do not change at all. */
  ghost predicate Absorbs(deliveries: map<Id, Delivery>, deliveries': map<Id, Delivery>) {
    forall d :: d in deliveries && d in deliveries' ==>
      deliveries'[d].event == deliveries[d].event && deliveries'[d].key == deliveries[d].key
      && (deliveries[d].state.Delivered? ==> deliveries'[d] == deliveries[d])
  }

  lemma ClaimAbsorbs(p: Policy, w: World, pick: Option<Id>, lease: Id, at: int)
    requires IsNextClaim(p, w.db.deliveries, at, pick)
    ensures var w' := AfterClaim(p, w, pick, lease, at);
            Absorbs(w.db.deliveries, w'.db.deliveries) && w'.db.deliveries.Keys == w.db.deliveries.Keys
  {
  }

  lemma SettleAbsorbs(p: Policy, w: World, lease: Id, status: int, retryAfter: RetryAfter, random: real, decidedAt: int,
                      at: int)
    requires lease in w.h.issued && w.h.issued[lease].attempts > 0
    ensures var w' := AfterSettle(p, w, lease, status, retryAfter, random, decidedAt, at);
            Absorbs(w.db.deliveries, w'.db.deliveries) && w'.db.deliveries.Keys == w.db.deliveries.Keys
  {
    hide Outcome;
  }

  lemma ExpireAbsorbs(p: Policy, w: World, at: int)
    ensures var w' := AfterExpire(p, w, at);
              Absorbs(w.db.deliveries, w'.db.deliveries)
              && w'.db.deliveries.Keys == w.db.deliveries.Keys
  {
  }

  lemma RetryAbsorbs(p: Policy, w: World, operation: Id, event: Id, revision: nat, deadline: int, retainUntil: int,
                     at: int)
    ensures var w' := AfterRetry(p, w, operation, event, revision, deadline, retainUntil, at);
            Absorbs(w.db.deliveries, w'.db.deliveries) && w'.db.deliveries.Keys == w.db.deliveries.Keys
  {
    hide RetryGuard, AuditConflict;
  }

  lemma CollectAbsorbs(w: World, table: Table, victims: set<RowId>)
    ensures var w' := AfterCollect(w, table, victims);
            Absorbs(w.db.deliveries, w'.db.deliveries) && w'.db.deliveries.Keys <= w.db.deliveries.Keys
            && forall e :: e in w'.db.events && e in w.h.sent ==> e in w'.h.sent && w'.h.sent[e] == w.h.sent[e]
  {
    hide Keys;
  }

  /** Delivered rows are left only by deletion. */
  lemma DeliveredAbsorbs(p: Policy, w: World, s: Step)
    requires Enabled(p, w, s)
    ensures Absorbs(w.db.deliveries, Apply(p, w, s).db.deliveries)
    ensures !s.Fanout? ==> Apply(p, w, s).db.deliveries.Keys <= w.db.deliveries.Keys
  {
    hide AfterBeginLogin, AfterRate, AfterReplay, AfterFailCeremony, AfterStartCeremony, AfterFinish, AfterConsent,
      AfterExchange, AfterAccept, AfterStartLogout, AfterLogout, AfterRevokeAccount, AfterExpand, AfterFanout,
      AfterClaim, AfterSettle, AfterExpire, AfterRetry, AfterCollect, LegalFanout, IsNextClaim, LimitOf, Fresh,
      RetryParameters, DoomedRows, Absorbs;
    SameAbsorbs(w.db.deliveries);
    if !WritesDeliveries(s) { OutboxFrame(p, w, s); }
    match s
    case Fanout(rows) => LegalRows(p, w.db, rows); FanoutAbsorbs(p, w, rows);
    case Claim(pick, lease, at) => ClaimAbsorbs(p, w, pick, lease, at);
    case Settle(lease, status, retryAfter, random, decidedAt, at) =>
      SettleAbsorbs(p, w, lease, status, retryAfter, random, decidedAt, at);
    case Expire(at) => ExpireAbsorbs(p, w, at);
    case Retry(operation, event, revision, deadline, retainUntil, at) =>
      RetryAbsorbs(p, w, operation, event, revision, deadline, retainUntil, at);
    case Collect(table, at, victims) => CollectAbsorbs(w, table, victims);
    case _ =>
  }

  lemma SameAbsorbs(deliveries: map<Id, Delivery>)
    ensures Absorbs(deliveries, deliveries)
  {
  }

  lemma FanoutAbsorbs(p: Policy, w: World, rows: map<Id, (Id, Key)>)
    requires LegalFanout(p, w.db, rows) && forall d :: d in rows ==> rows[d].0 in w.db.events
    ensures Absorbs(w.db.deliveries, AfterFanout(w, rows).db.deliveries)
  {
    hide FannedOut, MissingRows;
  }

  lemma FanoutKeepsNotified(p: Policy, w: World, rows: map<Id, (Id, Key)>, e: Id, k: Key)
    requires Inv(p, w) && LegalFanout(p, w.db, rows) && Notified(w, e, k)
             && forall d :: d in rows ==> rows[d].0 in w.db.events
    ensures Notified(AfterFanout(w, rows), e, k)
  {
    hide Inv, FannedOut, LegalFanout, MissingRows;
    var w' := AfterFanout(w, rows);
    forall d | d in rows ensures rows[d] != (e, k) { FanoutNeverRepeats(p, w, rows, d); }
    FanoutAbsorbs(p, w, rows);
    RecordRows(w.h.sent, rows, e, k);
  }

  lemma SentStays(p: Policy, w: World, s: Step, e: Id)
    requires Enabled(p, w, s) && !s.Fanout? && e in w.h.sent && e in Apply(p, w, s).db.events
    ensures e in Apply(p, w, s).h.sent && Apply(p, w, s).h.sent[e] == w.h.sent[e]
  {
    hide AfterBeginLogin, AfterRate, AfterReplay, AfterFailCeremony, AfterStartCeremony, AfterFinish, AfterConsent,
      AfterExchange, AfterAccept, AfterStartLogout, AfterLogout, AfterRevokeAccount, AfterExpand, AfterFanout,
      AfterClaim, AfterSettle, AfterExpire, AfterRetry, AfterCollect, LegalFanout, IsNextClaim, LimitOf, Fresh,
      RetryParameters, DoomedRows;
    OutboxFrame(p, w, s);
    match s
    case Logout(csrf, sso, event, at) => LogoutSent(p, w, csrf, sso, event, at);
    case Expand(chosen) => LimitInside(chosen, Uncovered(w.db), p.fanoutBatch); ExpandSent(p, w, chosen);
    case Collect(table, at, victims) => CollectAbsorbs(w, table, victims);
    case _ =>
  }

  lemma LogoutSent(p: Policy, w: World, csrf: Id, sso: Id, event: Id, at: int)
    ensures var w' := AfterLogout(p, w, csrf, sso, event, at);
            forall e :: e in w.h.sent ==> e in w'.h.sent && w'.h.sent[e] == w.h.sent[e]
  {
    hide LogoutEventRow, HasEvent;
    LogoutShape(p, w, csrf, sso, event, at);
  }

  lemma ExpandSent(p: Policy, w: World, chosen: set<Id>)
    requires chosen <= Uncovered(w.db)
    ensures var w' := AfterExpand(p, w, chosen); forall e :: e in w.h.sent ==>
            e in w'.h.sent && w'.h.sent[e] == w.h.sent[e]
  {
    hide Uncovered, FullyExpanded, ExpandedEventRow;
  }

  lemma NotifiedStays(p: Policy, w: World, s: Step, e: Id, k: Key)
    requires Inv(p, w) && Enabled(p, w, s) && Notified(w, e, k) && e in Apply(p, w, s).db.events
    ensures Notified(Apply(p, w, s), e, k)
  {
    hide Inv, Apply, Enabled;
    if s.Fanout? {
      FanoutStep(p, w, s);
      FanoutKeepsNotified(p, w, s.rows, e, k);
    } else {
      DeliveredAbsorbs(p, w, s);
      SentStays(p, w, s, e);
    }
  }

  lemma FanoutStep(p: Policy, w: World, s: Step)
    requires Enabled(p, w, s) && s.Fanout?
    ensures LegalFanout(p, w.db, s.rows) && (forall d :: d in s.rows ==> s.rows[d].0 in w.db.events)
            && Apply(p, w, s) == AfterFanout(w, s.rows)
  {
    hide AfterFanout, LegalFanout;
    LegalRows(p, w.db, s.rows);
  }

  /** A delivered notification is never queued again while its event row lives, whatever retries, expiries,
      fanouts and collections run. */
  lemma DeliveredNeverResent(p: Policy, states: seq<World>, steps: seq<Step>, i: nat, j: nat, e: Id, k: Key)
    requires IsRun(p, states, steps) && Initial(states[0]) && i <= j < |states| && Lives(states, e, i, j)
    requires Notified(states[i], e, k)
    ensures Notified(states[j], e, k)
  {
    hide Inv, Initial, IsRun, Apply, Enabled, Notified;
    if i < j {
      DeliveredNeverResent(p, states, steps, i, j - 1, e, k);
      RunBounds(p, states, steps);
      RunStep(p, states, steps, j - 1);
      NotifiedStays(p, states[j - 1], steps[j - 1], e, k);
    }
  }

  lemma FanoutRecords(w: World, rows: map<Id, (Id, Key)>, e: Id)
    requires e in w.h.sent && forall d :: d in rows ==> rows[d].0 in w.db.events
    ensures e in AfterFanout(w, rows).h.sent && w.h.sent[e] <= AfterFanout(w, rows).h.sent[e]
    ensures forall d :: d in rows && rows[d].0 == e ==> rows[d].1 in AfterFanout(w, rows).h.sent[e]
  {
    hide FanoutBatch;
  }

  lemma SentGrowsStep(p: Policy, w: World, s: Step, e: Id)
    requires Enabled(p, w, s) && e in w.h.sent && e in Apply(p, w, s).db.events
    ensures e in Apply(p, w, s).h.sent && w.h.sent[e] <= Apply(p, w, s).h.sent[e]
  {
    hide Apply, Enabled, AfterFanout;
    if s.Fanout? {
      FanoutStep(p, w, s);
      FanoutRecords(w, s.rows, e);
    } else {
      SentStays(p, w, s, e);
    }
  }

  /** What has been queued for an event stays on record while the event row lives. */
  lemma {:induction false} SentGrows(p: Policy, states: seq<World>, steps: seq<Step>, i: nat, j: nat, e: Id)
    requires IsRun(p, states, steps) && Initial(states[0]) && i <= j < |states| && Lives(states, e, i, j)
             && e in states[i].h.sent
    ensures e in states[j].h.sent && states[i].h.sent[e] <= states[j].h.sent[e]
  {
    hide Inv, Initial, IsRun, Apply, Enabled;
    if i < j {
      SentGrows(p, states, steps, i, j - 1, e);
      RunBounds(p, states, steps);
      RunStep(p, states, steps, j - 1);
      SentGrowsStep(p, states[j - 1], steps[j - 1], e);
    }
  }

  lemma SentKnown(p: Policy, w: World, e: Id)
    requires Inv(p, w) && e in w.db.events
    ensures e in w.h.sent
  {
    hide AccountInv, EventInv, RowInv, LoginInv, RegistrationsOnce, CodeInv, SessionCap, ClientSessionCap,
      AssertionsKept, ViewInv, NotifiedRevoked, UsedHistory, UsedIds;
  }

  /** Within the lifetime of an event row each client session is queued at most once: no two fanouts insert a row for
      the same event and client session, even if the first row has been collected in between. */
  lemma OneRowPerMember(p: Policy, states: seq<World>, steps: seq<Step>, i: nat, j: nat, d: Id, d': Id)
    requires IsRun(p, states, steps) && Initial(states[0]) && i < j < |steps| && steps[i].Fanout? && steps[j].Fanout?
    requires d in steps[i].rows && d' in steps[j].rows && |states| == |steps| + 1
             && Lives(states, steps[i].rows[d].0, i, j)
    ensures steps[i].rows[d] != steps[j].rows[d']
  {
    hide Inv, Initial, IsRun, Apply, Enabled, AfterFanout, LegalFanout;
    var e := steps[i].rows[d].0;
    RunStep(p, states, steps, i);
    FanoutStep(p, states[i], steps[i]);
    SentKnown(p, states[i], e);
    FanoutRecords(states[i], steps[i].rows, e);
    SentGrows(p, states, steps, i + 1, j, e);
    RunStep(p, states, steps, j);
    FanoutStep(p, states[j], steps[j]);
    FanoutNeverRepeats(p, states[j], steps[j].rows, d');
  }

  // ---------------------------------------------------------------- operator retries

  /** A retry is all or nothing. It commits exactly under its guard, unless an audit row of the same event id and
      revision is stored; a committed one strictly raises the deadline and the revision, never lowers retention,
      requeues exactly the failed and expired rows, and leaves delivered rows alone. */
  lemma RetryAllOrNothing(p: Policy, w: World, operation: Id, event: Id, revision: nat, deadline: int, retainUntil: int,
                          at: int)
    requires Inv(p, w)
    ensures var w' := AfterRetry(p, w, operation, event, revision, deadline, retainUntil, at);
            if RetryGuard(w.db, w.now, event, revision, deadline)
              && !AuditConflict(w.db, operation, event, revision) then
              && event in w.db.events && event in w'.db.events
              && w'.db.events[event].revision == w.db.events[event].revision + 1 == revision + 1
              && w'.db.events[event].deadline == deadline > w.db.events[event].deadline
              && w'.db.events[event].gcAfter >= w.db.events[event].gcAfter
              && (forall d :: d in w.db.deliveries && w.db.deliveries[d].event == event ==>
                    && d in w'.db.deliveries
                    && if w.db.deliveries[d].state.Delivered? then w'.db.deliveries[d] == w.db.deliveries[d]
                       else w'.db.deliveries[d].state.Pending? && w'.db.deliveries[d].attempts == 0
                            && w'.db.deliveries[d].deadline == deadline)
              && (forall d :: d in w.db.deliveries && w.db.deliveries[d].event != event ==>
                 d in w'.db.deliveries && w'.db.deliveries[d] == w.db.deliveries[d])
            else w' == w
  {
    hide Inv, FannedOut, AuditConflict;
  }

  /** At most one retry commits per event row and revision: a later attempt at the same revision changes nothing. */
  lemma RetryOncePerRevision(p: Policy, states: seq<World>, steps: seq<Step>, i: nat, j: nat)
    requires IsRun(p, states, steps) && Initial(states[0]) && i < j < |steps|
    requires steps[i].Retry? && steps[j].Retry? && steps[i].event == steps[j].event
             && steps[i].revision == steps[j].revision
    requires states[i + 1] != states[i] && Lives(states, steps[i].event, i + 1, j)
    ensures states[j + 1] == states[j]
  {
    hide Inv, Initial, IsRun, Apply, Enabled, AfterRetry, RetryGuard, AuditConflict, Dead;
    var a, b := steps[i], steps[j];
    RunBounds(p, states, steps);
    RunStep(p, states, steps, i);
    Effects(p, states[i], a);
    RetryAllOrNothing(p, states[i], a.operation, a.event, a.revision, a.deadline, a.retainUntil, a.at);
    EventLifetime(p, states, steps, i + 1, j, a.event);
    RunStep(p, states, steps, j);
    Effects(p, states[j], b);
    RetryNeedsRevision(states[j].db, states[j].now, b.event, b.revision, b.deadline);
    RetryAllOrNothing(p, states[j], b.operation, b.event, b.revision, b.deadline, b.retainUntil, b.at);
  }

  lemma RetryNeedsRevision(db: Db, now: int, event: Id, revision: nat, deadline: int)
    ensures RetryGuard(db, now, event, revision, deadline) ==>
            event in db.events && db.events[event].revision == revision
  {
  }
}
