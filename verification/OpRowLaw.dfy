/** The life of one row of logout_delivery, written out field by field: what each kind of step does to a stored row,
    and which rows it creates. */
module OpRowLaw {
  import opened Wrappers
  import opened RuntimePolicy
  import opened RetryTiming
  import opened Sets
  import opened OpTables
  import opened OpBatches
  import opened OpGc
  import opened OpMachine
  import opened OpInvariants
  import opened OpStepsDelivery
  import opened OpFrames
  import opened OpEventTheorems
  import opened OpAccountTheorems

  // ---------------------------------------------------------------- when a retry is due

  /** Length of the backoff window of an attempt: base_delay for the first, doubled by each further one (52 times at
      most) and never above max_delay. */
  ghost function Window(p: Policy, attempt: nat): int
    requires attempt > 0
  {
    if attempt == 1 then p.baseDelay
    else if attempt > 53 then Window(p, 53)
    else Min(p.maxDelay, 2 * Window(p, attempt - 1))
  }

  lemma {:induction false} WindowIsCap(p: Policy, attempt: nat)
    requires attempt > 0
    ensures Window(p, attempt) == Cap(p, attempt)
    decreases if attempt > 53 then 54 else attempt
  {
    hide Cap;
    CapDoubles(p, attempt);
    if attempt > 53 {
      WindowIsCap(p, 53);
      CapFlat(p, attempt);
    } else if attempt > 1 {
      WindowIsCap(p, attempt - 1);
      CapDoubles(p, attempt - 1);
    }
  }

  lemma CapFlat(p: Policy, attempt: nat)
    requires attempt > 53
    ensures Cap(p, attempt) == Cap(p, 53)
  {
  }

  /** No earlier than the point `random` of the way from base_delay to the end of the window, and no earlier than a
      usable Retry-After. */
  ghost predicate Permitted(p: Policy, attempt: nat, header: RetryAfter, random: real, at: int, t: int)
    requires attempt > 0
  {
    && t as real >= at as real + p.baseDelay as real + random * (Window(p, attempt) - p.baseDelay) as real
    && (header.DelaySeconds? ==> t >= at + header.n)
    && (header.HttpDate? ==> t >= header.t)
  }

  /** The earliest permitted second. */
  ghost predicate IsDue(p: Policy, attempt: nat, header: RetryAfter, random: real, at: int, t: int)
    requires attempt > 0
  {
    Permitted(p, attempt, header, random, at, t) && !Permitted(p, attempt, header, random, at, t - 1)
  }

  lemma CeilLeast(x: real)
    ensures Ceil(x) as real >= x && (Ceil(x) - 1) as real < x
  {
  }

  /** The next attempt is due at the earliest permitted second. */
  lemma NextIsDue(p: Policy, attempt: nat, header: RetryAfter, random: real, at: int)
    requires attempt > 0
    ensures IsDue(p, attempt, header, random, at, NextAttempt(p, attempt, header, at, random))
  {
    hide Window, Cap, Ceil;
    WindowIsCap(p, attempt);
    CeilLeast(Blend(p.baseDelay, Cap(p, attempt), random));
  }

  lemma DueIsUnique(p: Policy, attempt: nat, header: RetryAfter, random: real, at: int, t: int, t': int)
    requires attempt > 0 && IsDue(p, attempt, header, random, at, t) && IsDue(p, attempt, header, random, at, t')
    ensures t == t'
  {
    hide Window;
  }

  // ---------------------------------------------------------------- what a step does to a stored row

  /** A claim at reading `at`: a lease for exactly lease_ttl seconds, and one more attempt. */
  ghost predicate TakenRow(p: Policy, row: Delivery, row': Delivery, lease: Id, at: int) {
    row' == Delivery(row.event, row.key, row.deadline, Leased, row.attempts + 1, row.nextAt, Some(lease),
                     Some(at + p.deliveryLease), row.finishedAt, row.gcAfter)
  }

  /** Retained at least as long as before and as `bound`, and no longer than both ask for. */
  ghost predicate KeptUntil(before: Option<int>, after: Option<int>, bound: int) {
    && after.Some? && after.value >= bound && (before.Some? ==> after.value >= before.value)
    && (after.value == bound || after == before || (after.value == 0 && before.None?))
  }

  /** What the answer `status`, decided at `decidedAt`, makes of an attempt. */
  ghost predicate Decided(p: Policy, row: Delivery, state: DeliveryState, nextAt: int, status: int, header: RetryAfter,
                          random: real, decidedAt: int)
    requires row.attempts > 0
  {
    if 200 <= status < 300 then state == Delivered && nextAt == decidedAt
    else if status !in {0, 408, 429} && !(500 <= status <= 599) then state == Failed && nextAt == decidedAt
    else if row.deadline <= decidedAt then state == Expired && nextAt == decidedAt
    else if row.attempts >= p.maxAttempts then state == Failed && nextAt == decidedAt
    else exists due :: IsDue(p, row.attempts, header, random, decidedAt, due) &&
           if due < row.deadline then state == Pending && nextAt == due else state == Expired && nextAt == decidedAt
  }

  /** A settlement that takes effect: the lease is given back and the answer decides the rest. */
  ghost predicate AnsweredRow(p: Policy, row: Delivery, row': Delivery, status: int, header: RetryAfter, random: real,
                              decidedAt: int, at: int)
    requires row.attempts > 0
  {
    && row' == Delivery(row.event, row.key, row.deadline, row'.state, row.attempts, row'.nextAt, None, None,
               if row'.state.Pending? then None else Some(at), row'.gcAfter)
    && Decided(p, row, row'.state, row'.nextAt, status, header, random, decidedAt)
    && KeptUntil(row.gcAfter, row'.gcAfter, at + p.resultTtl + p.skew + p.grace)
  }

  /** An unfinished row that nobody holds at reading `at` and that has run out of time or attempts. (The statement takes
      a missing lease for one that ended at second 0.) */
  ghost predicate Overdue(p: Policy, row: Delivery, at: int) {
    && ((row.state.Pending? && 0 <= at) || (row.state.Leased? && row.leaseUntil.Some? && row.leaseUntil.value <= at))
    && (row.deadline <= at || row.attempts >= p.maxAttempts)
  }

  ghost predicate FinishedRow(p: Policy, row: Delivery, row': Delivery, at: int) {
    && row' == Delivery(row.event, row.key, row.deadline, if row.deadline <= at then Expired else Failed, row.attempts,
               row.nextAt, None, None, Some(at), row'.gcAfter)
    && KeptUntil(row.gcAfter, row'.gcAfter, at + p.resultTtl + p.skew + p.grace)
  }

  /** An operator retry gives a failed or expired row its attempts back and a new deadline. */
  ghost predicate RetriedRow(row: Delivery, row': Delivery, deadline: int, retainUntil: int, at: int) {
    && row' == Delivery(row.event, row.key, deadline, Pending, 0, at, None, None, None, row'.gcAfter)
    && KeptUntil(row.gcAfter, row'.gcAfter, retainUntil)
  }

  /** One step on a row that is stored before and after it. */
  ghost predicate RowMoves(p: Policy, w: World, s: Step, row: Delivery, row': Delivery, d: Id) {
    match s
    case Claim(pick, lease, at) => if pick == Some(d) then TakenRow(p, row, row', lease, at) else row' == row
    case Settle(lease, status, header, random, decidedAt, at) =>
      if row.lease == Some(lease) && row.leaseUntil.Some? && at < row.leaseUntil.value then
        row.attempts > 0 && AnsweredRow(p, row, row', status, header, random, decidedAt, at)
      else row' == row
    case Expire(at) => if Overdue(p, row, at) then FinishedRow(p, row, row', at) else row' == row
    case Retry(_, event, _, deadline, retainUntil, at) =>
      row' == row || (row.event == event && (row.state.Failed? || row.state.Expired?) && deadline > w.now
                      && RetriedRow(row, row', deadline, retainUntil, at))
    case _ => row' == row
  }

  lemma ClaimStep(p: Policy, w: World, s: Step)
    requires Enabled(p, w, s) && s.Claim?
    ensures IsNextClaim(p, w.db.deliveries, s.at, s.pick) && Apply(p, w, s) == AfterClaim(p, w, s.pick, s.lease, s.at)
    ensures 0 <= s.at <= w.now && s.lease !in w.h.used
  {
    hide AfterClaim, IsNextClaim;
    assert [s.lease][0] == s.lease;
  }

  lemma ExpiryStep(p: Policy, w: World, s: Step)
    requires Enabled(p, w, s) && s.Expire?
    ensures Apply(p, w, s) == AfterExpire(p, w, s.at) && s.at <= w.now
  {
    hide AfterExpire;
  }

  lemma ClaimMovesRow(p: Policy, w: World, pick: Option<Id>, lease: Id, at: int, d: Id)
    requires IsNextClaim(p, w.db.deliveries, at, pick) && d in w.db.deliveries && RowOk(p, w.db.deliveries[d])
    ensures var after := AfterClaim(p, w, pick, lease, at).db.deliveries;
            d in after && if pick == Some(d) then TakenRow(p, w.db.deliveries[d], after[d], lease, at)
              else after[d] == w.db.deliveries[d]
  {
    hide Claimable, RowOk;
  }

  lemma SettleDecides(p: Policy, row: Delivery, status: int, header: RetryAfter, random: real, decidedAt: int, at: int)
    requires row.attempts > 0
    ensures var v := Outcome(p, row.deadline, row.attempts, status, header, decidedAt, random);
            AnsweredRow(p, row, SettleRow(p, row, v, if v.ToPending? then v.next else decidedAt, at), status, header,
              random, decidedAt, at)
  {
    hide NextAttempt, IsDue;
    NextIsDue(p, row.attempts, header, random, decidedAt);
  }

  /** What SettlesOn means for a row that is leased exactly while it holds a lease. */
  lemma HeldRow(p: Policy, row: Delivery, lease: Id, at: int)
    requires RowOk(p, row)
    ensures SettlesOn(row, lease, at) <==>
            row.lease == Some(lease) && row.leaseUntil.Some? && at < row.leaseUntil.value
    ensures row.lease == Some(lease) ==> row.attempts > 0
  {
  }

  /** The task of a lease is the row that holds it. */
  lemma TaskOfRow(deliveries: map<Id, Delivery>, issued: map<Id, Task>, lease: Id, d: Id)
    requires LeasesMatch(deliveries, issued) && lease in issued && d in deliveries
    ensures issued[lease].lease == lease
    ensures deliveries[d].lease == Some(lease) ==>
              issued[lease].id == d && issued[lease].deadline == deliveries[d].deadline
              && issued[lease].attempts == deliveries[d].attempts
  {
  }

  lemma SettleOne(p: Policy, db: Db, task: Task, verdict: Verdict, decidedAt: int, at: int, d: Id)
    requires d in db.deliveries
    ensures var after := SettleBatch(p, db, task, verdict, decidedAt, at).deliveries;
            && d in after
            && (task.id == d && SettlesOn(db.deliveries[d], task.lease, at) ==> after[d] == SettleRow(p,
               db.deliveries[d], verdict, if verdict.ToPending? then verdict.next else decidedAt, at))
            && (!(task.id == d && SettlesOn(db.deliveries[d], task.lease, at)) ==> after[d] == db.deliveries[d])
  {
    hide SettleRow, SettlesOn;
    if task.id in db.deliveries && SettlesOn(db.deliveries[task.id], task.lease, at) {
      var next := if verdict.ToPending? then verdict.next else decidedAt;
      var row := SettleRow(p, db.deliveries[task.id], verdict, next, at);
      assert SettleBatch(p, db, task, verdict, decidedAt, at).deliveries == db.deliveries[task.id := row];
    } else {
      assert SettleBatch(p, db, task, verdict, decidedAt, at) == db;
    }
  }

  /** With the invariant on record, the settled row is the one that holds the lease. */
  lemma SettleMovesRow(p: Policy, w: World, lease: Id, status: int, header: RetryAfter, random: real, decidedAt: int,
                       at: int, d: Id)
    requires lease in w.h.issued && w.h.issued[lease].attempts > 0 && LeasesMatch(w.db.deliveries, w.h.issued)
    requires d in w.db.deliveries && RowOk(p, w.db.deliveries[d])
    ensures var row, after := w.db.deliveries[d],
            AfterSettle(p, w, lease, status, header, random, decidedAt, at).db.deliveries;
            d in after && if row.lease == Some(lease) && row.leaseUntil.Some? && at < row.leaseUntil.value then
              row.attempts > 0 && AnsweredRow(p, row, after[d], status, header, random, decidedAt, at)
            else after[d] == row
  {
    hide SettleBatch, Outcome, SettleRow, AnsweredRow, SettlesOn, LeasesMatch, RowOk;
    var row, task := w.db.deliveries[d], w.h.issued[lease];
    HeldRow(p, row, lease, at);
    TaskOfRow(w.db.deliveries, w.h.issued, lease, d);
    SettleOne(p, w.db, task, Outcome(p, task.deadline, task.attempts, status, header, decidedAt, random), decidedAt, at,
      d);
    if row.lease == Some(lease) { SettleDecides(p, row, status, header, random, decidedAt, at); }
  }

  lemma ExpireMovesRow(p: Policy, w: World, at: int, d: Id)
    requires d in w.db.deliveries && RowOk(p, w.db.deliveries[d])
    ensures var row, after := w.db.deliveries[d], AfterExpire(p, w, at).db.deliveries;
            d in after && if Overdue(p, row, at) then FinishedRow(p, row, after[d], at) else after[d] == row
  {
  }

  lemma RetryMovesRow(p: Policy, w: World, operation: Id, event: Id, revision: nat, deadline: int, retainUntil: int,
                      at: int, d: Id)
    requires d in w.db.deliveries
    ensures var row, after := w.db.deliveries[d],
            AfterRetry(p, w, operation, event, revision, deadline, retainUntil, at).db.deliveries;
            d in after && (after[d] == row || (row.event == event && (row.state.Failed? || row.state.Expired?)
              && deadline > w.now && RetriedRow(row, after[d], deadline, retainUntil, at)))
  {
    hide FannedOut, AuditConflict;
  }

  lemma CollectLeavesRows(w: World, table: Table, victims: set<RowId>, d: Id)
    ensures var after := AfterCollect(w, table, victims).db.deliveries;
            d in after ==> d in w.db.deliveries && after[d] == w.db.deliveries[d]
  {
    hide Ids, Keys;
  }

  /** The row that a fanout inserts: pending and due from its event's creation until its event's deadline. */
  ghost predicate QueuedRow(row: Delivery, event: Id, e: Event, k: Key) {
    row == Delivery(event, k, e.deadline, Pending, 0, e.createdAt, None, None, None, None)
  }

  lemma FanoutLeavesRows(p: Policy, w: World, rows: map<Id, (Id, Key)>, d: Id)
    requires LegalFanout(p, w.db, rows) && forall d :: d in rows ==> rows[d].0 in w.db.events
    ensures var after := AfterFanout(w, rows).db.deliveries;
            && (d in w.db.deliveries ==> d in after && after[d] == w.db.deliveries[d])
            && (d in after && d !in w.db.deliveries ==>
               d in rows && QueuedRow(after[d], rows[d].0, w.db.events[rows[d].0], rows[d].1))
  {
    hide FannedOut, MissingRows, LimitOf;
  }

  lemma LeasesKnown(p: Policy, w: World, d: Id)
    requires Inv(p, w) && d in w.db.deliveries
    ensures LeasesMatch(w.db.deliveries, w.h.issued) && RowOk(p, w.db.deliveries[d])
  {
    hide AccountInv, EventInv, SentOk, LoginInv, RegistrationsOnce, CodeInv, SessionCap, ClientSessionCap,
      AssertionsKept, ViewInv, NotifiedRevoked, UsedIds, UsedHistory, UniqueRows, DeadlinesAgree, InFlightBound,
      DeliveryRefs, LeasesMatch, RowOk;
  }

  /** What one step of the provider does to one stored row of logout_delivery. */
  lemma RowStep(p: Policy, w: World, s: Step, d: Id)
    requires Inv(p, w) && Enabled(p, w, s) && d in w.db.deliveries && d in Apply(p, w, s).db.deliveries
    ensures RowMoves(p, w, s, w.db.deliveries[d], Apply(p, w, s).db.deliveries[d], d)
  {
    hide Inv, Apply, Enabled, LeasesMatch, RowOk, TakenRow, AnsweredRow, Overdue, FinishedRow, RetriedRow, AfterClaim,
      AfterSettle, AfterExpire, AfterRetry, AfterFanout, AfterCollect, IsNextClaim, LegalFanout;
    LeasesKnown(p, w, d);
    if s.Claim? {
      ClaimStep(p, w, s);
      ClaimMovesRow(p, w, s.pick, s.lease, s.at, d);
    } else if s.Settle? {
      Effects(p, w, s);
      SettleMovesRow(p, w, s.lease, s.status, s.retryAfter, s.random, s.decidedAt, s.at, d);
    } else if s.Expire? {
      ExpiryStep(p, w, s);
      ExpireMovesRow(p, w, s.at, d);
    } else if s.Retry? {
      Effects(p, w, s);
      RetryMovesRow(p, w, s.operation, s.event, s.revision, s.deadline, s.retainUntil, s.at, d);
    } else if s.Fanout? {
      FanoutStep(p, w, s);
      FanoutLeavesRows(p, w, s.rows, d);
    } else if s.Collect? {
      CollectStep(p, w, s);
      CollectLeavesRows(w, s.table, s.victims, d);
    } else {
      OutboxFrame(p, w, s);
    }
  }

  /** Rows come only from fanouts. */
  lemma RowBorn(p: Policy, w: World, s: Step, d: Id)
    requires Enabled(p, w, s) && d !in w.db.deliveries && d in Apply(p, w, s).db.deliveries
    ensures s.Fanout? && d in s.rows && s.rows[d].0 in w.db.events
            && QueuedRow(Apply(p, w, s).db.deliveries[d], s.rows[d].0, w.db.events[s.rows[d].0], s.rows[d].1)
  {
    hide Apply, Enabled, AfterFanout, LegalFanout, QueuedRow, Absorbs;
    if s.Fanout? {
      FanoutStep(p, w, s);
      FanoutLeavesRows(p, w, s.rows, d);
    } else {
      DeliveredAbsorbs(p, w, s);
    }
  }
}
