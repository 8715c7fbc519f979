/** The steps of local/logout-delivery.ts and local/logout-admin.ts that move delivery rows keep the invariant. */
module OpStepsDelivery {
  import opened Wrappers
  import opened RuntimePolicy
  import opened RetryTiming
  import opened Sets
  import opened OpTables
  import opened OpBatches
  import opened OpGc
  import opened OpMachine
  import opened OpInvariants

  /** The same rows for the same events and client sessions; only their progress may differ. */
  ghost predicate SameRows(deliveries: map<Id, Delivery>, deliveries': map<Id, Delivery>) {
    && deliveries'.Keys == deliveries.Keys
    && forall d :: d in deliveries ==>
       deliveries'[d].event == deliveries[d].event
       && deliveries'[d].key == deliveries[d].key
  }

  /** A row leased afterwards was leased identically before. */
  ghost predicate NoNewLeases(deliveries: map<Id, Delivery>, deliveries': map<Id, Delivery>) {
    forall d :: d in deliveries' && deliveries'[d].state.Leased? ==> d in deliveries && deliveries'[d] == deliveries[d]
  }

  lemma InFlightShrinks(p: Policy, deliveries: map<Id, Delivery>, deliveries': map<Id, Delivery>, now: int)
    requires InFlightBound(p, deliveries, now) && NoNewLeases(deliveries, deliveries')
    ensures InFlightBound(p, deliveries', now)
  {
    forall client, t | t >= now ensures |InFlight(deliveries', client, t)| <= p.maxInflight {
      var before, after := InFlight(deliveries, client, t), InFlight(deliveries', client, t);
      forall d | d in after ensures d in before { assert deliveries'[d] == deliveries[d]; }
      SubsetCard(after, before);
    }
  }

  /** The lease taken by a claim fits under the bound: the claim counted the leases running at its own, possibly
      older, clock reading, and no lease running later was missing from that count. */
  lemma ClaimFits(p: Policy, deliveries: map<Id, Delivery>, d: Id, lease: Id, at: int, now: int)
    requires InFlightBound(p, deliveries, now) && at <= now
    requires d in deliveries && Claimable(p, deliveries, d, at)
    ensures InFlightBound(p, deliveries[d := ClaimRow(p, deliveries[d], lease, at)], now)
  {
    var deliveries' := deliveries[d := ClaimRow(p, deliveries[d], lease, at)];
    forall client, t | t >= now ensures |InFlight(deliveries', client, t)| <= p.maxInflight {
      var before, after := InFlight(deliveries, client, t), InFlight(deliveries', client, t);
      if client == deliveries[d].key.client {
        SubsetCard(before, InFlight(deliveries, client, at));
        SubsetCard(after, before + {d});
      } else {
        SubsetCard(after, before);
      }
    }
  }

  lemma SameRowsKeepSent(events: map<Id, Event>, deliveries: map<Id, Delivery>, deliveries': map<Id, Delivery>,
                         clientSessions: map<Key, ClientSession>, sent: map<Id, set<Key>>)
    requires SentOk(events, deliveries, clientSessions, sent) && SameRows(deliveries, deliveries')
    ensures SentOk(events, deliveries', clientSessions, sent)
  {
    forall e, k | e in events && !events[e].expanded && k in sent[e] ensures HasDelivery(deliveries', e, k) {
      assert HasDelivery(deliveries, e, k);
      var d :| d in deliveries && deliveries[d].event == e && deliveries[d].key == k;
      assert d in deliveries';
    }
  }

  lemma SameRowsKeepNotified(deliveries: map<Id, Delivery>, deliveries': map<Id, Delivery>, issued: map<Id, Task>,
                             revokedAt: map<Key, int>)
    requires NotifiedRevoked(deliveries, issued, revokedAt) && SameRows(deliveries, deliveries')
    ensures NotifiedRevoked(deliveries', issued, revokedAt)
  {
  }

  // ---------------------------------------------------------------- claim

  lemma ClaimRows(p: Policy, deliveries: map<Id, Delivery>, events: map<Id, Event>, issued: map<Id, Task>, now: int,
                  d: Id, lease: Id, at: int)
    requires RowInv(p, deliveries, events, issued, now) && at <= now && lease !in issued
    requires d in deliveries && Claimable(p, deliveries, d, at)
    ensures var row := ClaimRow(p, deliveries[d], lease, at);
            RowInv(p, deliveries[d := row], events, issued[lease := TaskOf(p, d, row, lease)], now)
            && SameRows(deliveries, deliveries[d := row])
  {
    ClaimFits(p, deliveries, d, lease, at, now);
  }

  lemma ClaimNotifies(p: Policy, deliveries: map<Id, Delivery>, issued: map<Id, Task>, revokedAt: map<Key, int>, d: Id,
                      lease: Id, row: Delivery)
    requires NotifiedRevoked(deliveries, issued, revokedAt) && d in deliveries && row.key == deliveries[d].key
    ensures NotifiedRevoked(deliveries, issued[lease := TaskOf(p, d, row, lease)], revokedAt)
  {
    assert Key(row.key.client, row.key.sid) == row.key;
  }

  lemma ClaimKeeps(p: Policy, w: World, pick: Option<Id>, lease: Id, at: int)
    requires Inv(p, w) && at <= w.now && lease !in w.h.used && IsNextClaim(p, w.db.deliveries, at, pick)
    ensures Inv(p, AfterClaim(p, w, pick, lease, at))
  {
    hide AccountInv, EventInv, RowInv, SentOk, LoginInv, RegistrationsOnce, CodeInv, SessionCap, ClientSessionCap,
      AssertionsKept, ViewInv, NotifiedRevoked;
    if pick.Some? {
      var d := pick.value;
      var row := ClaimRow(p, w.db.deliveries[d], lease, at);
      ClaimRows(p, w.db.deliveries, w.db.events, w.h.issued, w.now, d, lease, at);
      SameRowsKeepSent(w.db.events, w.db.deliveries, w.db.deliveries[d := row], w.db.clientSessions, w.h.sent);
      ClaimNotifies(p, w.db.deliveries, w.h.issued, w.h.revokedAt, d, lease, row);
      SameRowsKeepNotified(w.db.deliveries, w.db.deliveries[d := row], w.h.issued[lease := TaskOf(p, d, row, lease)],
        w.h.revokedAt);
    }
  }

  // ---------------------------------------------------------------- settle and expire

  /** What a settled or expired row may become: unleased, and well formed. */
  ghost predicate Released(p: Policy, row: Delivery, row': Delivery) {
    && row'.event == row.event && row'.key == row.key && row'.deadline == row.deadline
    && (row'.state.Delivered? ==> !row.Terminal())
    && !row'.state.Leased? && row'.lease.None?
    && !row.state.Delivered?
    && RowOk(p, row')
  }

  lemma ReleaseRows(p: Policy, deliveries: map<Id, Delivery>, deliveries': map<Id, Delivery>, events: map<Id, Event>,
                    issued: map<Id, Task>, now: int)
    requires RowInv(p, deliveries, events, issued, now) && deliveries'.Keys == deliveries.Keys
    requires forall d :: d in deliveries ==>
               deliveries'[d] == deliveries[d]
               || Released(p, deliveries[d], deliveries'[d])
    ensures RowInv(p, deliveries', events, issued, now) && SameRows(deliveries, deliveries')
  {
    InFlightShrinks(p, deliveries, deliveries', now);
  }

  lemma ReleaseKeeps(p: Policy, w: World, deliveries': map<Id, Delivery>)
    requires Inv(p, w) && deliveries'.Keys == w.db.deliveries.Keys
    requires forall d :: d in w.db.deliveries ==>
               deliveries'[d] == w.db.deliveries[d]
               || Released(p, w.db.deliveries[d], deliveries'[d])
    ensures Inv(p, w.(db := w.db.(deliveries := deliveries')))
  {
    hide AccountInv, EventInv, RowInv, SentOk, LoginInv, RegistrationsOnce, CodeInv, SessionCap, ClientSessionCap,
      AssertionsKept, ViewInv, NotifiedRevoked, UsedIds, UsedHistory, Released;
    ReleaseRows(p, w.db.deliveries, deliveries', w.db.events, w.h.issued, w.now);
    SameRowsKeepSent(w.db.events, w.db.deliveries, deliveries', w.db.clientSessions, w.h.sent);
    SameRowsKeepNotified(w.db.deliveries, deliveries', w.h.issued, w.h.revokedAt);
  }

  /** A settlement that matches its lease releases the row the claim left. */
  lemma SettleReleases(p: Policy, deliveries: map<Id, Delivery>, issued: map<Id, Task>, lease: Id, status: int,
                       retryAfter: RetryAfter, random: real, decidedAt: int, at: int)
    requires RowsOk(p, deliveries) && LeasesMatch(deliveries, issued)
    requires lease in issued && issued[lease].attempts > 0
    requires issued[lease].id in deliveries && SettlesOn(deliveries[issued[lease].id], lease, at)
    ensures var task := issued[lease];
            var verdict := Outcome(p, task.deadline, task.attempts, status, retryAfter, decidedAt, random);
            Released(p, deliveries[task.id], SettleRow(p, deliveries[task.id], verdict,
              if verdict.ToPending? then verdict.next else decidedAt, at))
  {
  }

  lemma SettleKeeps(p: Policy, w: World, lease: Id, status: int, retryAfter: RetryAfter, random: real, decidedAt: int,
                    at: int)
    requires Inv(p, w) && lease in w.h.issued && w.h.issued[lease].attempts > 0
    ensures Inv(p, AfterSettle(p, w, lease, status, retryAfter, random, decidedAt, at))
  {
    hide AccountInv, EventInv, SentOk, LoginInv, RegistrationsOnce, CodeInv, SessionCap, ClientSessionCap,
      AssertionsKept, ViewInv, NotifiedRevoked, UsedIds, UsedHistory, Released, RowsOk, DeadlinesAgree, InFlightBound,
      UniqueRows, DeliveryRefs, Outcome, SettleRow;
    var w' := AfterSettle(p, w, lease, status, retryAfter, random, decidedAt, at);
    if w.h.issued[lease].id in w.db.deliveries && SettlesOn(w.db.deliveries[w.h.issued[lease].id], lease, at) {
      SettleReleases(p, w.db.deliveries, w.h.issued, lease, status, retryAfter, random, decidedAt, at);
      ReleaseKeeps(p, w, w'.db.deliveries);
    }
  }

  lemma ExpireReleases(p: Policy, row: Delivery, at: int)
    requires RowOk(p, row) && Expires(p, row, at)
    ensures Released(p, row, ExpireRow(p, row, at))
  {
  }

  lemma ExpireKeeps(p: Policy, w: World, at: int)
    requires Inv(p, w)
    ensures Inv(p, AfterExpire(p, w, at))
  {
    hide AccountInv, EventInv, SentOk, LoginInv, RegistrationsOnce, CodeInv, SessionCap, ClientSessionCap,
      AssertionsKept, ViewInv, NotifiedRevoked, UsedIds, UsedHistory, Released, RowOk, DeadlinesAgree, InFlightBound,
      UniqueRows, DeliveryRefs, Expires, ExpireRow;
    var deliveries' := ExpireBatch(p, w.db, at).deliveries;
    forall d | d in w.db.deliveries
      ensures deliveries'[d] == w.db.deliveries[d] || Released(p, w.db.deliveries[d], deliveries'[d])
    {
      if Expires(p, w.db.deliveries[d], at) { ExpireReleases(p, w.db.deliveries[d], at); }
    }
    ReleaseKeeps(p, w, deliveries');
  }

  // ---------------------------------------------------------------- operator retry

  /** A row as a retry leaves it: requeued under the new deadline if it had failed or expired, untouched otherwise. */
  ghost predicate RetriedRows(deliveries: map<Id, Delivery>, deliveries': map<Id, Delivery>, event: Id, deadline: int,
                              retainUntil: int, at: int)
  {
    && deliveries'.Keys == deliveries.Keys
    && forall d :: d in deliveries ==>
         deliveries'[d] == if deliveries[d].event == event
           && (deliveries[d].state.Failed? || deliveries[d].state.Expired?)
                           then RetryRow(deliveries[d], deadline, retainUntil, at) else deliveries[d]
  }

  lemma RetryRows(p: Policy, deliveries: map<Id, Delivery>, deliveries': map<Id, Delivery>, events: map<Id, Event>,
                  issued: map<Id, Task>, now: int, event: Id, deadline: int, retainUntil: int, at: int, event': Event)
    requires RowInv(p, deliveries, events, issued, now) && at < deadline
    requires event in events && event'.deadline == deadline && events[event].deadline < deadline
    requires forall d :: d in deliveries && deliveries[d].event == event ==>
             !deliveries[d].state.Pending? && !deliveries[d].state.Leased?
    requires RetriedRows(deliveries, deliveries', event, deadline, retainUntil, at)
    ensures RowInv(p, deliveries', events[event := event'], issued, now) && SameRows(deliveries, deliveries')
  {
    InFlightShrinks(p, deliveries, deliveries', now);
  }

  lemma EventExtended(p: Policy, events: map<Id, Event>, sessions: map<Id, Session>, accounts: map<Id, Account>,
                      event: Id, event': Event)
    requires EventInv(p, events, sessions, accounts) && event in events
    requires event'.sso == events[event].sso && event'.createdAt == events[event].createdAt
    requires event'.deadline >= events[event].deadline && event'.gcAfter >= p.Retained(event'.deadline)
    ensures EventInv(p, events[event := event'], sessions, accounts)
  {
  }

  lemma EventExtendedKeepsSent(events: map<Id, Event>, deliveries: map<Id, Delivery>,
                               clientSessions: map<Key, ClientSession>, sent: map<Id, set<Key>>, event: Id,
                               event': Event)
    requires SentOk(events, deliveries, clientSessions, sent) && event in events
    requires event'.sso == events[event].sso && event'.expanded == events[event].expanded
    ensures SentOk(events[event := event'], deliveries, clientSessions, sent)
  {
  }

  lemma UsedGrows(w: World, ids: set<Id>, events: map<Id, Event>)
    requires UsedIds(w.h.used, w.db.logins, w.db.sessions, w.db.events)
    requires UsedHistory(w.h.used, w.h.issued, w.h.expiries, w.h.codesOf)
    requires forall e :: e in events ==> e in w.db.events || e in ids
    ensures UsedIds(w.h.used + ids, w.db.logins, w.db.sessions, events)
    ensures UsedHistory(w.h.used + ids, w.h.issued, w.h.expiries, w.h.codesOf)
  {
  }

  lemma RetryKeeps(p: Policy, w: World, operation: Id, event: Id, revision: nat, deadline: int, retainUntil: int,
                   at: int)
    requires Inv(p, w) && RetryParameters(p, deadline, retainUntil, at)
    ensures Inv(p, AfterRetry(p, w, operation, event, revision, deadline, retainUntil, at))
  {
    hide AccountInv, EventInv, SentOk, LoginInv, RegistrationsOnce, CodeInv, SessionCap, ClientSessionCap,
      AssertionsKept, ViewInv, NotifiedRevoked, UsedIds, UsedHistory, RowInv, FannedOut, RetryRow;
    var w' := AfterRetry(p, w, operation, event, revision, deadline, retainUntil, at);
    if RetryGuard(w.db, w.now, event, revision, deadline) && !AuditConflict(w.db, operation, event, revision) {
      var event' := w'.db.events[event];
      RetryRows(p, w.db.deliveries, w'.db.deliveries, w.db.events, w.h.issued, w.now, event, deadline, retainUntil, at,
        event');
      EventExtended(p, w.db.events, w.db.sessions, w.db.accounts, event, event');
      SameRowsKeepSent(w.db.events, w.db.deliveries, w'.db.deliveries, w.db.clientSessions, w.h.sent);
      EventExtendedKeepsSent(w.db.events, w'.db.deliveries, w.db.clientSessions, w.h.sent, event, event');
      SameRowsKeepNotified(w.db.deliveries, w'.db.deliveries, w.h.issued, w.h.revokedAt);
      UsedGrows(w, {operation}, w'.db.events);
    }
  }

  // ---------------------------------------------------------------- fanout

  /** `events'` is `events` with some expansion flags set. */
  ghost predicate FlagsOnly(events: map<Id, Event>, events': map<Id, Event>) {
    && events'.Keys == events.Keys
    && forall e :: e in events ==>
       events'[e] == events[e].(expanded := events'[e].expanded)
       && (events[e].expanded ==> events'[e].expanded)
  }

  lemma FlagsKeepEvents(p: Policy, events: map<Id, Event>, events': map<Id, Event>, sessions: map<Id, Session>,
                        accounts: map<Id, Account>)
    requires EventInv(p, events, sessions, accounts) && FlagsOnly(events, events')
    ensures EventInv(p, events', sessions, accounts)
  {
  }

  ghost predicate AddedRows(db: Db, rows: map<Id, (Id, Key)>, deliveries': map<Id, Delivery>) {
    && deliveries'.Keys == db.deliveries.Keys + rows.Keys
    && (forall d :: d in db.deliveries ==> d !in rows && deliveries'[d] == db.deliveries[d])
    && (forall d :: d in rows ==>
       rows[d].0 in db.events
       && deliveries'[d] == NewDelivery(db.events[rows[d].0], rows[d].0, rows[d].1))
    && (forall d, d' :: d in rows && d' in rows && rows[d] == rows[d'] ==> d == d')
    && (forall d :: d in rows ==> !HasDelivery(db.deliveries, rows[d].0, rows[d].1))
  }

  lemma AddedRowsUnique(db: Db, rows: map<Id, (Id, Key)>, deliveries': map<Id, Delivery>)
    requires UniqueRows(db.deliveries) && AddedRows(db, rows, deliveries')
    ensures UniqueRows(deliveries')
  {
    forall d, d' | d in deliveries' && d' in deliveries' && deliveries'[d].event == deliveries'[d'].event
      && deliveries'[d].key == deliveries'[d'].key
      ensures d == d'
    {
      if d in rows && d' in db.deliveries { assert HasDelivery(db.deliveries, rows[d].0, rows[d].1); }
      if d' in rows && d in db.deliveries { assert HasDelivery(db.deliveries, rows[d'].0, rows[d'].1); }
      if d in rows && d' in rows { assert rows[d] == rows[d']; }
    }
  }

  lemma AddedRowOk(p: Policy, e: Event, id: Id, key: Key)
    requires e.createdAt < e.deadline
    ensures RowOk(p, NewDelivery(e, id, key))
  {
  }

  lemma FanoutRows(p: Policy, db: Db, issued: map<Id, Task>, now: int, rows: map<Id, (Id, Key)>,
                   deliveries': map<Id, Delivery>, events': map<Id, Event>)
    requires RowInv(p, db.deliveries, db.events, issued, now) && EventsRetained(p, db.events)
    requires AddedRows(db, rows, deliveries') && FlagsOnly(db.events, events')
    ensures RowInv(p, deliveries', events', issued, now)
  {
    hide RowOk, UniqueRows, InFlightBound, HasDelivery;
    forall d | d in rows ensures RowOk(p, deliveries'[d]) { AddedRowOk(p, db.events[rows[d].0], rows[d].0, rows[d].1); }
    AddedRowsUnique(db, rows, deliveries');
    InFlightShrinks(p, db.deliveries, deliveries', now);
  }

  /** The combinations inserted by a fanout are members that had no row. */
  ghost predicate MissingMembers(db: Db, rows: map<Id, (Id, Key)>) {
    forall d :: d in rows ==>
      rows[d].0 in db.events && !db.events[rows[d].0].expanded
        && Member(db.clientSessions, db.events[rows[d].0].sso, rows[d].1)
  }

  lemma RecordRows(sent: map<Id, set<Key>>, rows: map<Id, (Id, Key)>, e: Id, k: Key)
    requires e in sent
    ensures k in AddRows(sent, rows)[e] <==> k in sent[e] || exists d :: d in rows && rows[d] == (e, k)
  {
    if k in AddRows(sent, rows)[e] && k !in sent[e] {
      var d :| d in rows && rows[d].0 == e && rows[d].1 == k;
      assert rows[d] == (e, k);
    }
    if d :| d in rows && rows[d] == (e, k) { assert rows[d].0 == e && rows[d].1 == k; }
  }

  lemma FanoutKeepsSent(db: Db, rows: map<Id, (Id, Key)>, deliveries': map<Id, Delivery>, events': map<Id, Event>,
                        sent: map<Id, set<Key>>)
    requires SentOk(db.events, db.deliveries, db.clientSessions, sent)
    requires AddedRows(db, rows, deliveries') && FlagsOnly(db.events, events') && MissingMembers(db, rows)
    requires forall e :: e in db.events && events'[e].expanded && !db.events[e].expanded ==>
               forall k :: Member(db.clientSessions, db.events[e].sso, k) ==> HasDelivery(deliveries', e, k)
    ensures SentOk(events', deliveries', db.clientSessions, AddRows(sent, rows))
  {
    var sent' := AddRows(sent, rows);
    forall e, k | e in events' && k in sent'[e]
      ensures Member(db.clientSessions, events'[e].sso, k) && (!events'[e].expanded ==> HasDelivery(deliveries', e, k))
    {
      RecordRows(sent, rows, e, k);
      if k in sent[e] {
        if !events'[e].expanded {
          assert HasDelivery(db.deliveries, e, k);
          var d :| d in db.deliveries && db.deliveries[d].event == e && db.deliveries[d].key == k;
          assert d in deliveries';
        }
      } else {
        var d :| d in rows && rows[d] == (e, k);
        assert d in deliveries' && deliveries'[d].event == e && deliveries'[d].key == k;
      }
    }
    forall d | d in deliveries' && deliveries'[d].event in events'
      ensures deliveries'[d].key in sent'[deliveries'[d].event]
    {
      RecordRows(sent, rows, deliveries'[d].event, deliveries'[d].key);
      if d in rows { assert rows[d] == (deliveries'[d].event, deliveries'[d].key); }
    }
    forall e, k | e in events' && events'[e].expanded && Member(db.clientSessions, events'[e].sso, k)
      ensures k in sent'[e]
    {
      RecordRows(sent, rows, e, k);
      if !db.events[e].expanded {
        assert HasDelivery(deliveries', e, k);
        var d :| d in deliveries' && deliveries'[d].event == e && deliveries'[d].key == k;
        if d in rows { assert rows[d] == (e, k); }
      }
    }
  }

  lemma FanoutNotifies(p: Policy, db: Db, rows: map<Id, (Id, Key)>, deliveries': map<Id, Delivery>,
                       issued: map<Id, Task>, expiries: map<Key, int>, revokedAt: map<Key, int>, now: int)
    requires NotifiedRevoked(db.deliveries, issued, revokedAt) && AddedRows(db, rows, deliveries')
             && MissingMembers(db, rows)
    requires ViewInv(db.clientSessions, db.sessions, db.accounts, expiries, revokedAt, now)
    requires EventInv(p, db.events, db.sessions, db.accounts)
    ensures NotifiedRevoked(deliveries', issued, revokedAt)
  {
    forall d | d in deliveries' ensures deliveries'[d].key in revokedAt {
      if d in rows {
        assert Member(db.clientSessions, db.events[rows[d].0].sso, rows[d].1);
        assert Dead(db.sessions[db.events[rows[d].0].sso], db.accounts);
      }
    }
  }

  lemma InsertShape(p: Policy, db: Db, rows: map<Id, (Id, Key)>)
    requires LegalFanout(p, db, rows)
    ensures AddedRows(db, rows, InsertDeliveries(db, rows).deliveries) && MissingMembers(db, rows)
  {
    forall d | d in rows
      ensures !HasDelivery(db.deliveries, rows[d].0, rows[d].1) && !db.events[rows[d].0].expanded
              && Member(db.clientSessions, db.events[rows[d].0].sso, rows[d].1)
    {
      assert rows[d] in MissingRows(db);
    }
  }

  lemma FlagsShape(db: Db)
    ensures FlagsOnly(db.events, MarkFannedOut(db).events)
    ensures forall e :: e in db.events && MarkFannedOut(db).events[e].expanded && !db.events[e].expanded ==>
              forall k :: Member(db.clientSessions, db.events[e].sso, k) ==> HasDelivery(db.deliveries, e, k)
  {
    forall e | e in db.events && MarkFannedOut(db).events[e].expanded && !db.events[e].expanded
      ensures forall k :: Member(db.clientSessions, db.events[e].sso, k) ==> HasDelivery(db.deliveries, e, k)
    {
      assert FannedOut(db, e);
    }
  }

  lemma FanoutKeeps(p: Policy, w: World, rows: map<Id, (Id, Key)>)
    requires Inv(p, w) && LegalFanout(p, w.db, rows)
    ensures Inv(p, AfterFanout(w, rows))
  {
    hide AccountInv, RowInv, SentOk, LoginInv, RegistrationsOnce, CodeInv, SessionCap, ClientSessionCap, AssertionsKept,
      EventRefs, EventsDead, UniqueEvents, EventsRetained, ViewInv, NotifiedRevoked, AddedRows, MissingMembers,
      MissingRows, FannedOut, HasDelivery, FlagsOnly;
    var w' := AfterFanout(w, rows);
    InsertShape(p, w.db, rows);
    FlagsShape(InsertDeliveries(w.db, rows));
    FlagsKeepEvents(p, w.db.events, w'.db.events, w.db.sessions, w.db.accounts);
    FanoutRows(p, w.db, w.h.issued, w.now, rows, w'.db.deliveries, w'.db.events);
    FanoutKeepsSent(w.db, rows, w'.db.deliveries, w'.db.events, w.h.sent);
    FanoutNotifies(p, w.db, rows, w'.db.deliveries, w.h.issued, w.h.expiries, w.h.revokedAt, w.now);
  }
}
