/** What disappears from the outbox, and how: over whole runs only finished deliveries and exhausted events are
    removed. */
module OpRemovalTheorems {
  import opened Wrappers
  import opened RuntimePolicy
  import opened RetryTiming
  import opened Sets
  import opened OpTables
  import opened OpBatches
  import opened OpGc
  import opened OpMachine
  import opened OpInvariants
  import opened OpStepsDelivery
  import opened OpStepsLogout
  import opened OpStepsGc
  import opened OpFrames
  import opened OpDeliveryTheorems
  import opened OpEventTheorems
  import opened OpAccountTheorems

  lemma FanoutKeepsRows(w: World, rows: map<Id, (Id, Key)>)
    requires forall d :: d in rows ==> rows[d].0 in w.db.events
    ensures w.db.deliveries.Keys <= AfterFanout(w, rows).db.deliveries.Keys
            && AfterFanout(w, rows).db.events.Keys == w.db.events.Keys
  {
    hide FannedOut, NewDelivery;
  }

  lemma RetryKeepsRows(p: Policy, w: World, operation: Id, event: Id, revision: nat, deadline: int, retainUntil: int,
                       at: int)
    ensures var w' := AfterRetry(p, w, operation, event, revision, deadline, retainUntil, at);
            w'.db.deliveries.Keys == w.db.deliveries.Keys && w'.db.events.Keys == w.db.events.Keys
  {
    hide FannedOut, AuditConflict, RetryRow;
  }

  lemma LogoutKeepsEvents(p: Policy, w: World, csrf: Id, sso: Id, event: Id, at: int)
    ensures w.db.events.Keys <= AfterLogout(p, w, csrf, sso, event, at).db.events.Keys
  {
    hide AfterLogout, HasEvent, LogoutEventRow;
    LogoutShape(p, w, csrf, sso, event, at);
  }

  lemma ExpandKeepsEvents(p: Policy, w: World, chosen: set<Id>)
    requires chosen <= Uncovered(w.db)
    ensures w.db.events.Keys <= AfterExpand(p, w, chosen).db.events.Keys
  {
    hide Uncovered, ExpandedEventRow, FullyExpanded;
  }

  lemma SendersKeepRows(p: Policy, w: World, s: Step)
    requires Enabled(p, w, s) && (s.Claim? || s.Settle? || s.Expire?)
    ensures Apply(p, w, s).db.deliveries.Keys == w.db.deliveries.Keys
  {
    hide AfterBeginLogin, AfterRate, AfterReplay, AfterFailCeremony, AfterStartCeremony, AfterFinish, AfterConsent,
      AfterExchange, AfterAccept, AfterStartLogout, AfterLogout, AfterRevokeAccount, AfterExpand, AfterFanout,
      AfterClaim, AfterSettle, AfterExpire, AfterRetry, AfterCollect, LegalFanout, IsNextClaim, LimitOf, Fresh,
      RetryParameters, DoomedRows, Absorbs;
    match s
    case Claim(pick, lease, at) => ClaimAbsorbs(p, w, pick, lease, at);
    case Settle(lease, status, retryAfter, random, decidedAt, at) =>
      SettleAbsorbs(p, w, lease, status, retryAfter, random, decidedAt, at);
    case Expire(at) => ExpireAbsorbs(p, w, at);
  }

  lemma WritersKeepRows(p: Policy, w: World, s: Step)
    requires Enabled(p, w, s) && !s.Collect?
    ensures WritesDeliveries(s) ==> w.db.deliveries.Keys <= Apply(p, w, s).db.deliveries.Keys
    ensures WritesEvents(s) ==> w.db.events.Keys <= Apply(p, w, s).db.events.Keys
  {
    hide Apply, Enabled, AfterLogout, AfterExpand, AfterFanout, AfterRetry;
    if s.Claim? || s.Settle? || s.Expire? {
      SendersKeepRows(p, w, s);
    } else if s.Logout? {
      Effects(p, w, s);
      LogoutKeepsEvents(p, w, s.csrf, s.sso, s.event, s.at);
    } else if s.Expand? {
      ExpandStep(p, w, s);
      ExpandKeepsEvents(p, w, s.chosen);
    } else if s.Fanout? {
      FanoutStep(p, w, s);
      FanoutKeepsRows(w, s.rows);
    } else if s.Retry? {
      Effects(p, w, s);
      RetryKeepsRows(p, w, s.operation, s.event, s.revision, s.deadline, s.retainUntil, s.at);
    }
  }

  /** Only a collection of the table itself removes a row of it. */
  lemma RowsKept(p: Policy, w: World, s: Step)
    requires Enabled(p, w, s)
    ensures !(s.Collect? && s.table == Deliveries) ==> w.db.deliveries.Keys <= Apply(p, w, s).db.deliveries.Keys
    ensures !(s.Collect? && s.table == Events) ==> w.db.events.Keys <= Apply(p, w, s).db.events.Keys
  {
    hide Apply, Enabled;
    OutboxFrame(p, w, s);
    if !s.Collect? { WritersKeepRows(p, w, s); }
  }

  /** This step takes the finished, unleased row d out of the outbox, after its own and its event's retention. */
  ghost predicate RemovesDelivery(w: World, s: Step, d: Id) {
    && s.Collect? && s.table == Deliveries && Plain(d) in s.victims
    && d in w.db.deliveries
    && var row := w.db.deliveries[d];
    && row.Terminal() && row.finishedAt.Some? && row.lease.None? && row.gcAfter.Some? && row.gcAfter.value <= w.now
    && row.deadline <= w.now
    && row.event in w.db.events && w.db.events[row.event].expanded && w.db.events[row.event].gcAfter <= w.now
  }

  /** This step takes out an event that is fully expanded, has no delivery row left, and is past its retention. */
  ghost predicate RemovesEvent(w: World, s: Step, e: Id) {
    && s.Collect? && s.table == Events && Plain(e) in s.victims
    && e in w.db.events && w.db.events[e].expanded && w.db.events[e].deadline <= w.now
       && w.db.events[e].gcAfter <= w.now
    && (forall d :: d in w.db.deliveries ==> w.db.deliveries[d].event != e)
    && (w.db.events[e].sso in w.db.sessions ==> !Pursued(w.db, w.db.events[e].sso))
  }

  lemma DeliveryVictim(w: World, at: int, victims: set<RowId>, d: Id)
    requires at <= w.now && victims <= DoomedRows(w.db, Deliveries, at) && d in w.db.deliveries
    requires d !in AfterCollect(w, Deliveries, victims).db.deliveries
    ensures Plain(d) in victims && DoomedDelivery(w.db, w.db.deliveries[d], at)
  {
    hide DoomedRows, DoomedDelivery, DoomedEvent, DoomedSession;
    VictimDoomed(w.db, Deliveries, at, victims, Plain(d));
  }

  lemma EventVictim(w: World, at: int, victims: set<RowId>, e: Id)
    requires at <= w.now && victims <= DoomedRows(w.db, Events, at) && e in w.db.events
    requires e !in AfterCollect(w, Events, victims).db.events
    ensures Plain(e) in victims && DoomedEvent(w.db, e, at)
  {
    hide DoomedRows, DoomedDelivery, DoomedEvent, DoomedSession;
    VictimDoomed(w.db, Events, at, victims, Plain(e));
  }

  lemma DeliveryRemoved(p: Policy, w: World, s: Step, d: Id)
    requires Enabled(p, w, s) && d in w.db.deliveries && d !in Apply(p, w, s).db.deliveries
    ensures RemovesDelivery(w, s, d)
  {
    hide Apply, Enabled, AfterCollect;
    RowsKept(p, w, s);
    CollectStep(p, w, s);
    DeliveryVictim(w, s.at, s.victims, d);
  }

  lemma EventRemoved(p: Policy, w: World, s: Step, e: Id)
    requires Enabled(p, w, s) && e in w.db.events && e !in Apply(p, w, s).db.events
    ensures RemovesEvent(w, s, e)
  {
    hide Apply, Enabled, AfterCollect, Pursued;
    RowsKept(p, w, s);
    CollectStep(p, w, s);
    EventVictim(w, s.at, s.victims, e);
  }

  /** No unfinished delivery ever disappears: if a row is stored at one point of a run and gone at a later one, then at
      some step in between it was stored, finished and past its retention, and a collection of its table took it. */
  lemma {:induction false} OnlyFinishedDisappear(p: Policy, states: seq<World>, steps: seq<Step>, i: nat, j: nat, d: Id)
    requires IsRun(p, states, steps) && i <= j < |states| && d in states[i].db.deliveries
             && d !in states[j].db.deliveries
    ensures j <= |steps| && exists k :: i <= k < j && RemovesDelivery(states[k], steps[k], d)
    decreases j
  {
    hide IsRun, Apply, Enabled, RemovesDelivery;
    RunBounds(p, states, steps);
    if d in states[j - 1].db.deliveries {
      OneStep(p, states, steps, j - 1);
      DeliveryRemoved(p, states[j - 1], steps[j - 1], d);
    } else {
      OnlyFinishedDisappear(p, states, steps, i, j - 1, d);
      var k :| i <= k < j - 1 && RemovesDelivery(states[k], steps[k], d);
      assert RemovesDelivery(states[k], steps[k], d);
    }
  }

  /** No event disappears before it is fully expanded and all its deliveries are gone. */
  lemma {:induction false} OnlyExhaustedEventsDisappear(p: Policy, states: seq<World>, steps: seq<Step>, i: nat, j: nat,
                                                        e: Id)
    requires IsRun(p, states, steps) && i <= j < |states| && e in states[i].db.events && e !in states[j].db.events
    ensures j <= |steps| && exists k :: i <= k < j && RemovesEvent(states[k], steps[k], e)
    decreases j
  {
    hide IsRun, Apply, Enabled, RemovesEvent;
    RunBounds(p, states, steps);
    if e in states[j - 1].db.events {
      OneStep(p, states, steps, j - 1);
      EventRemoved(p, states[j - 1], steps[j - 1], e);
    } else {
      OnlyExhaustedEventsDisappear(p, states, steps, i, j - 1, e);
      var k :| i <= k < j - 1 && RemovesEvent(states[k], steps[k], e);
      assert RemovesEvent(states[k], steps[k], e);
    }
  }
}
