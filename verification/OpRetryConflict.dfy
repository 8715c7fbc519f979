/** A legitimate retry that is refused. Expansion uses the session id as event id and starts at revision 0, so an event
    that has been collected can come back under the same id; if its first life was retried and the audit row of that
    retry is still stored, UNIQUE(event_id, revision) refuses the retry of its second life. */
module OpRetryConflict {
  import opened Wrappers
  import opened RuntimePolicy
  import opened RetryTiming
  import opened Sets
  import opened OpTables
  import opened OpBatches
  import opened OpGc
  import opened OpMachine
  import opened OpInvariants
  import opened OpEventTheorems
  import opened OpEventLives

  /** Under its guard a retry is refused exactly if an audit row of the same event id and revision is stored, or its own
      operation id is. */
  lemma RetryRefusedExactly(p: Policy, w: World, operation: Id, event: Id, revision: nat, deadline: int,
                            retainUntil: int, at: int)
    requires Inv(p, w) && RetryGuard(w.db, w.now, event, revision, deadline)
    ensures AfterRetry(p, w, operation, event, revision, deadline, retainUntil, at) == w
            <==> operation in w.db.audits || exists a ::
              a in w.db.audits && w.db.audits[a].event == event
              && w.db.audits[a].revision == revision
  {
    hide Inv, RetryGuard, AfterRetry;
    RetryAllOrNothing(p, w, operation, event, revision, deadline, retainUntil, at);
  }

  /** The guard of the retry holds and its operation id is new, but the batch leaves everything as it was. */
  ghost predicate RefusedRetry(p: Policy, w: World, s: Step) {
    && s.Retry? && Enabled(p, w, s) && RetryGuard(w.db, w.now, s.event, s.revision, s.deadline)
       && s.operation !in w.db.audits
    && Apply(p, w, s) == w
  }

  lemma RefusedIn(p: Policy, w: World, t: int, s: Session, epoch: nat, next: Id, o: Outbox, event: Event, d: Id,
                  row: Delivery, a: Id)
    requires Shape(w, t, s, epoch, next, o) && o.events == map[7 := event] && o.deliveries == map[d := row]
    requires event.expanded && event.revision == 0 && event.deadline > t && row.event == 7 && row.key == K
             && row.state.Failed?
    requires a in o.audits && o.audits[a].event == 7 && o.audits[a].revision == 0
    ensures exists step: Step :: RefusedRetry(p, w, step)
  {
    var deadline, retain := LaterDeadline(event), RetainFor(p, event);
    assert RetryParameters(p, deadline, retain, t);
    hide Shape, RetryGuard, RetryParameters;
    var step := Step.Retry(next, 7, 0, deadline, retain, t);
    ShapeRows(w, t, s, epoch, next, o);
    assert AfterRetry(p, w, next, 7, 0, deadline, retain, t) == w;
    hide AfterRetry;
    assert Enabled(p, w, step) && Apply(p, w, step) == w;
    hide Enabled, Apply;
    GuardHolds(w, t, s, epoch, next, o, event, d, row, deadline);
    assert RefusedRetry(p, w, step);
  }

  /** Under every policy some reachable state refuses a legitimate retry: after its first life the event comes back when
      the account is revoked again; once it has been expanded and fanned out and its delivery has failed, the guard of a
      retry at revision 0 holds, and the audit row of the first life refuses it. */
  lemma LegitimateRetryRefused(p: Policy)
    ensures exists w: World, s: Step :: Reached(p, w) && RefusedRetry(p, w, s)
  {
    hide Reached, Shape, FirstSession, LostEvent, LostRow, RefusedRetry, AllExpanded, FirstRevocations, Opened;
    FirstLife(p);
    var w: World, later: int, audit: Audit :| IsOver(p, w, later, audit);
    var revocations := FirstRevocations(p);
    var s := FirstSession(p);
    var audits := map[14 := audit];
    var w' := Life(p, w, later, s, 1, 16, Outbox(revocations, map[], map[], audits));
    FirstLifeFacts(p, s, 1, later, 18);
    assert 14 in audits;
    var event, row := LostEvent(p, s, 1, later), LostRow(p, s, 1, later, 18);
    RefusedIn(p, w', later, s, 2, 19, Outbox(revocations[16 := Opened(p, 1, later).(expanded := true)], map[7 := event],
      map[17 := row], audits),
              event, 17, row, 14);
  }
}
