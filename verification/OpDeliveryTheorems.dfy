/** Main results about leases, retries and notifications over whole runs. */
module OpDeliveryTheorems {
  import opened Wrappers
  import opened RuntimePolicy
  import opened RetryTiming
  import opened Sets
  import opened OpTables
  import opened OpBatches
  import opened OpGc
  import opened OpMachine
  import opened OpInvariants
  import opened OpStepsDelivery
  import opened OpStepsGc
  import opened OpSafety
  import opened OpFrames

  /** One step of a run, with the invariant on both sides. */
  lemma RunStep(p: Policy, states: seq<World>, steps: seq<Step>, i: nat)
    requires IsRun(p, states, steps) && Initial(states[0]) && i < |steps|
    ensures Inv(p, states[i]) && Inv(p, states[i + 1])
    ensures Enabled(p, states[i], steps[i]) && states[i + 1] == Apply(p, states[i], steps[i])
  {
    hide Inv, Initial, Apply, Enabled;
    RunKeeps(p, states, steps, i);
    RunKeeps(p, states, steps, i + 1);
    assert Enabled(p, states[i], steps[i]);
  }

  // ---------------------------------------------------------------- concurrency

  /** In every reachable state, under every interleaving and with claims that read an old clock, at most
      max_inflight_per_client leases of a client are running now or at any later time. */
  lemma InFlightNeverExceeds(p: Policy, states: seq<World>, steps: seq<Step>, i: nat, client: Id, t: int)
    requires IsRun(p, states, steps) && Initial(states[0]) && i < |states| && t >= states[i].now
    ensures |InFlight(states[i].db.deliveries, client, t)| <= p.maxInflight
  {
    hide Initial, IsRun, EventInv, AccountInv, SentOk, LoginInv, RegistrationsOnce, CodeInv, SessionCap,
      ClientSessionCap, AssertionsKept, ViewInv, NotifiedRevoked, UsedIds, UsedHistory, RowsOk, UniqueRows,
      DeadlinesAgree, LeasesMatch, DeliveryRefs;
    RunKeeps(p, states, steps, i);
  }

  // ---------------------------------------------------------------- shape of a row

  /** Every delivery row of every reachable state: leased exactly when it holds a lease; finished rows have a finish
      time and no lease; attempts are bounded and leave room while pending; an unfinished row is due before its
      deadline; and its deadline is its event's, or an earlier one if it has been delivered. The event is retained
      beyond its deadline. */
  lemma RowsAlways(p: Policy, states: seq<World>, steps: seq<Step>, i: nat, d: Id)
    requires IsRun(p, states, steps) && Initial(states[0]) && i < |states| && d in states[i].db.deliveries
    ensures var row := states[i].db.deliveries[d];
            && (row.state.Leased? <==> row.lease.Some?) && (row.lease.Some? <==> row.leaseUntil.Some?)
            && (row.Terminal() <==> row.finishedAt.Some?) && (row.Terminal() ==> row.lease.None?)
            && row.attempts <= p.maxAttempts && (row.state.Pending? ==> row.attempts < p.maxAttempts)
            && (!row.Terminal() ==> row.nextAt < row.deadline)
            && row.event in states[i].db.events
            && var e := states[i].db.events[row.event];
            && (if row.state.Delivered? then row.deadline <= e.deadline else row.deadline == e.deadline)
            && e.createdAt < e.deadline && e.gcAfter >= p.Retained(e.deadline)
  {
    hide Initial, IsRun, AccountInv, SentOk, LoginInv, RegistrationsOnce, CodeInv, SessionCap, ClientSessionCap,
      AssertionsKept, ViewInv, NotifiedRevoked, UsedIds, UsedHistory, UniqueRows, LeasesMatch, InFlightBound, EventRefs,
      EventsDead, UniqueEvents;
    RunKeeps(p, states, steps, i);
    assert RowOk(p, states[i].db.deliveries[d]);
  }

  // ---------------------------------------------------------------- lease exclusivity

  ghost predicate Held(deliveries: map<Id, Delivery>, lease: Id) {
    exists d :: d in deliveries && deliveries[d].lease == Some(lease)
  }

  /** Every lease in `deliveries'` was there before, or is `newLease`. */
  ghost predicate OnlyLease(deliveries: map<Id, Delivery>, deliveries': map<Id, Delivery>, newLease: Option<Id>) {
    forall d :: d in deliveries' && deliveries'[d].lease.Some? ==>
      deliveries'[d].lease == newLease || (d in deliveries && deliveries[d].lease == deliveries'[d].lease)
  }

  /** Row d with its attempts changed by `delta`, if it is still stored. */
  ghost predicate AttemptsMove(deliveries: map<Id, Delivery>, deliveries': map<Id, Delivery>, d: Id, delta: int) {
    d in deliveries && d in deliveries' ==>
      deliveries'[d].event == deliveries[d].event && deliveries'[d].attempts == deliveries[d].attempts + delta
  }

  lemma OnlyClaimsLease(p: Policy, w: World, s: Step)
    requires Enabled(p, w, s)
    ensures OnlyLease(w.db.deliveries, Apply(p, w, s).db.deliveries, if s.Claim? then Some(s.lease) else None)
  {
    hide AfterBeginLogin, AfterRate, AfterReplay, AfterFailCeremony, AfterStartCeremony, AfterFinish, AfterConsent,
      AfterExchange, AfterAccept, AfterStartLogout, AfterLogout, AfterRevokeAccount, AfterExpand, AfterFanout,
      AfterClaim, AfterSettle, AfterExpire, AfterRetry, AfterCollect, LegalFanout, IsNextClaim, LimitOf, Fresh,
      RetryParameters, DoomedRows, OnlyLease;
    if !WritesDeliveries(s) { OutboxFrame(p, w, s); }
    SameLeases(w.db.deliveries, if s.Claim? then Some(s.lease) else None);
    match s
    case Fanout(rows) => LegalRows(p, w.db, rows); FanoutLeases(w, rows);
    case Claim(pick, lease, at) => ClaimMoves(p, w, pick, lease, at, 0);
    case Settle(lease, status, retryAfter, random, decidedAt, at) =>
      SettleMoves(p, w, lease, status, retryAfter, random, decidedAt, at, 0);
    case Expire(at) => ExpireMoves(p, w, at, 0);
    case Retry(operation, event, revision, deadline, retainUntil, at) =>
      RetryLeases(p, w, operation, event, revision, deadline, retainUntil, at);
    case Collect(table, at, victims) => CollectMoves(w, table, victims, 0);
    case _ =>
  }

  lemma SameLeases(deliveries: map<Id, Delivery>, newLease: Option<Id>)
    ensures OnlyLease(deliveries, deliveries, newLease)
  {
  }

  lemma ClaimMoves(p: Policy, w: World, pick: Option<Id>, lease: Id, at: int, d: Id)
    requires IsNextClaim(p, w.db.deliveries, at, pick)
    ensures OnlyLease(w.db.deliveries, AfterClaim(p, w, pick, lease, at).db.deliveries, Some(lease))
    ensures AttemptsMove(w.db.deliveries, AfterClaim(p, w, pick, lease, at).db.deliveries, d, if pick == Some(d) then 1
            else 0)
  {
    hide Claimable;
  }

  lemma SettleMoves(p: Policy, w: World, lease: Id, status: int, retryAfter: RetryAfter, random: real, decidedAt: int,
                    at: int, d: Id)
    requires lease in w.h.issued && w.h.issued[lease].attempts > 0
    ensures var deliveries' := AfterSettle(p, w, lease, status, retryAfter, random, decidedAt, at).db.deliveries;
            OnlyLease(w.db.deliveries, deliveries', None) && AttemptsMove(w.db.deliveries, deliveries', d, 0)
  {
    hide Outcome, SettlesOn;
  }

  lemma ExpireMoves(p: Policy, w: World, at: int, d: Id)
    ensures OnlyLease(w.db.deliveries, AfterExpire(p, w, at).db.deliveries, None)
    ensures AttemptsMove(w.db.deliveries, AfterExpire(p, w, at).db.deliveries, d, 0)
  {
  }

  lemma CollectMoves(w: World, table: Table, victims: set<RowId>, d: Id)
    ensures OnlyLease(w.db.deliveries, AfterCollect(w, table, victims).db.deliveries, None)
    ensures AttemptsMove(w.db.deliveries, AfterCollect(w, table, victims).db.deliveries, d, 0)
  {
    hide Ids, Keys;
  }

  lemma FanoutLeases(w: World, rows: map<Id, (Id, Key)>)
    requires forall d :: d in rows ==> rows[d].0 in w.db.events
    ensures OnlyLease(w.db.deliveries, AfterFanout(w, rows).db.deliveries, None)
  {
    hide FannedOut;
  }

  lemma RetryLeases(p: Policy, w: World, operation: Id, event: Id, revision: nat, deadline: int, retainUntil: int,
                    at: int)
    ensures OnlyLease(w.db.deliveries, AfterRetry(p, w, operation, event, revision, deadline, retainUntil,
            at).db.deliveries, None)
  {
    hide RetryGuard, AuditConflict;
  }

  /** Once no row holds an issued lease, no row ever holds it again. */
  lemma LeaseStaysGone(p: Policy, w: World, s: Step, lease: Id)
    requires Inv(p, w) && Enabled(p, w, s) && lease in w.h.issued && !Held(w.db.deliveries, lease)
    ensures lease in Apply(p, w, s).h.issued && !Held(Apply(p, w, s).db.deliveries, lease)
  {
    hide AccountInv, EventInv, RowInv, SentOk, LoginInv, RegistrationsOnce, CodeInv, SessionCap, ClientSessionCap,
      AssertionsKept, ViewInv, NotifiedRevoked, UsedIds, Apply, Enabled;
    OnlyClaimsLease(p, w, s);
    OutboxFrame(p, w, s);
    if s.Claim? { ClaimIsFresh(p, w, s); }
  }

  lemma ClaimIsFresh(p: Policy, w: World, s: Step)
    requires Enabled(p, w, s) && s.Claim?
    ensures s.lease !in w.h.used && w.h.issued.Keys <= Apply(p, w, s).h.issued.Keys
  {
    hide IsNextClaim;
    FreshOne(w, s.lease);
  }

  lemma LeaseGoneForever(p: Policy, states: seq<World>, steps: seq<Step>, i: nat, j: nat, lease: Id)
    requires IsRun(p, states, steps) && Initial(states[0]) && i <= j < |states|
    requires lease in states[i].h.issued && !Held(states[i].db.deliveries, lease)
    ensures lease in states[j].h.issued && !Held(states[j].db.deliveries, lease)
  {
    hide Inv, Initial, IsRun, Apply, Enabled, Held;
    if i < j {
      LeaseGoneForever(p, states, steps, i, j - 1, lease);
      RunBounds(p, states, steps);
      RunStep(p, states, steps, j - 1);
      LeaseStaysGone(p, states[j - 1], steps[j - 1], lease);
    }
  }

  lemma RunBounds(p: Policy, states: seq<World>, steps: seq<Step>)
    requires IsRun(p, states, steps)
    ensures |states| == |steps| + 1
  {
    hide Apply, Enabled;
  }

  /** A settlement changes something exactly when its row is still leased under it and the lease is running;
      the settled row then holds no lease. */
  lemma SettleTakesEffect(p: Policy, w: World, lease: Id, status: int, retryAfter: RetryAfter, random: real,
                          decidedAt: int, at: int)
    requires Inv(p, w) && lease in w.h.issued && w.h.issued[lease].attempts > 0
    ensures var w' := AfterSettle(p, w, lease, status, retryAfter, random, decidedAt, at);
            && (w' != w <==> exists d :: d in w.db.deliveries && SettlesOn(w.db.deliveries[d], lease, at))
            && (w' != w ==> !Held(w'.db.deliveries, lease))
  {
    hide AccountInv, EventInv, SentOk, LoginInv, RegistrationsOnce, CodeInv, SessionCap, ClientSessionCap,
      AssertionsKept, ViewInv, NotifiedRevoked, UsedIds, UsedHistory, RowsOk, UniqueRows, DeadlinesAgree, InFlightBound,
      DeliveryRefs, Outcome;
    var w' := AfterSettle(p, w, lease, status, retryAfter, random, decidedAt, at);
    var task := w.h.issued[lease];
    forall d | d in w.db.deliveries && w.db.deliveries[d].lease == Some(lease) ensures d == task.id {
      assert w.db.deliveries[d].lease.value in w.h.issued;
    }
    if task.id in w.db.deliveries && SettlesOn(w.db.deliveries[task.id], lease, at) {
      assert w'.db.deliveries[task.id].lease == None;
    }
  }

  /** Each claim is settled at most once: after a settlement under a lease took effect, every later
      settlement under the same lease changes nothing. */
  lemma SettledAtMostOnce(p: Policy, states: seq<World>, steps: seq<Step>, i: nat, j: nat)
    requires IsRun(p, states, steps) && Initial(states[0]) && i < j < |steps|
    requires steps[i].Settle? && steps[j].Settle? && steps[i].lease == steps[j].lease
    requires states[i + 1] != states[i]
    ensures states[j + 1] == states[j]
  {
    hide Inv, Initial, IsRun, Apply, Enabled, AfterSettle, SettlesOn;
    var lease := steps[i].lease;
    RunBounds(p, states, steps);
    RunStep(p, states, steps, i);
    Effects(p, states[i], steps[i]);
    OutboxFrame(p, states[i], steps[i]);
    SettleTakesEffect(p, states[i], lease, steps[i].status, steps[i].retryAfter, steps[i].random, steps[i].decidedAt,
      steps[i].at);
    LeaseGoneForever(p, states, steps, i + 1, j, lease);
    RunStep(p, states, steps, j);
    Effects(p, states[j], steps[j]);
    SettleTakesEffect(p, states[j], lease, steps[j].status, steps[j].retryAfter, steps[j].random, steps[j].decidedAt,
      steps[j].at);
    NotHeldNotSettled(states[j].db.deliveries, lease, steps[j].at);
  }

  lemma NotHeldNotSettled(deliveries: map<Id, Delivery>, lease: Id, at: int)
    requires !Held(deliveries, lease)
    ensures !exists d :: d in deliveries && SettlesOn(deliveries[d], lease, at)
  {
  }

  // ---------------------------------------------------------------- bounded attempts

  /** Number of claims of row d in a segment of a run. */
  ghost function Claims(steps: seq<Step>, d: Id): nat {
    if steps == [] then 0
    else Claims(steps[..|steps| - 1], d) + (if steps[|steps| - 1].Claim? && steps[|steps| - 1].pick == Some(d) then 1
      else 0)
  }

  /** A step moves a row's attempt counter by one if it claims the row, and not otherwise, operator retries aside. */
  lemma AttemptsCount(p: Policy, w: World, s: Step, d: Id)
    requires Enabled(p, w, s) && d in w.db.deliveries
    requires s.Retry? ==> s.event != w.db.deliveries[d].event
    ensures AttemptsMove(w.db.deliveries, Apply(p, w, s).db.deliveries, d, if s.Claim? && s.pick == Some(d) then 1
            else 0)
  {
    hide AfterBeginLogin, AfterRate, AfterReplay, AfterFailCeremony, AfterStartCeremony, AfterFinish, AfterConsent,
      AfterExchange, AfterAccept, AfterStartLogout, AfterLogout, AfterRevokeAccount, AfterExpand, AfterFanout,
      AfterClaim, AfterSettle, AfterExpire, AfterRetry, AfterCollect, LegalFanout, IsNextClaim, LimitOf, Fresh,
      RetryParameters, DoomedRows, AttemptsMove;
    if !WritesDeliveries(s) { OutboxFrame(p, w, s); }
    SameAttempts(w.db.deliveries, d);
    match s
    case Fanout(rows) => LegalRows(p, w.db, rows); FanoutAttempts(p, w, rows, d);
    case Claim(pick, lease, at) => ClaimMoves(p, w, pick, lease, at, d);
    case Settle(lease, status, retryAfter, random, decidedAt, at) =>
      SettleMoves(p, w, lease, status, retryAfter, random, decidedAt, at, d);
    case Expire(at) => ExpireMoves(p, w, at, d);
    case Retry(operation, event, revision, deadline, retainUntil, at) =>
      RetryAttempts(p, w, operation, event, revision, deadline, retainUntil, at, d);
    case Collect(table, at, victims) => CollectMoves(w, table, victims, d);
    case _ =>
  }

  lemma SameAttempts(deliveries: map<Id, Delivery>, d: Id)
    ensures AttemptsMove(deliveries, deliveries, d, 0)
  {
  }

  lemma FanoutAttempts(p: Policy, w: World, rows: map<Id, (Id, Key)>, d: Id)
    requires LegalFanout(p, w.db, rows) && d in w.db.deliveries && forall d :: d in rows ==> rows[d].0 in w.db.events
    ensures AttemptsMove(w.db.deliveries, AfterFanout(w, rows).db.deliveries, d, 0)
  {
    hide FannedOut, MissingRows, LimitOf;
  }

  lemma RetryAttempts(p: Policy, w: World, operation: Id, event: Id, revision: nat, deadline: int, retainUntil: int,
                      at: int, d: Id)
    requires d in w.db.deliveries && w.db.deliveries[d].event != event
    ensures AttemptsMove(w.db.deliveries, AfterRetry(p, w, operation, event, revision, deadline, retainUntil,
            at).db.deliveries, d, 0)
  {
    hide RetryGuard, AuditConflict;
  }

  /** As long as a row stays stored and no retry of its event commits, its attempt counter has counted its claims. */
  lemma ClaimsCounted(p: Policy, states: seq<World>, steps: seq<Step>, i: nat, j: nat, d: Id)
    requires IsRun(p, states, steps) && Initial(states[0]) && i <= j < |states| && j <= |steps|
    requires forall k :: i <= k <= j ==> d in states[k].db.deliveries
    requires forall k :: i <= k < j && steps[k].Retry? && states[k + 1] != states[k] ==>
             steps[k].event != states[i].db.deliveries[d].event
    ensures states[j].db.deliveries[d].event == states[i].db.deliveries[d].event
    ensures states[j].db.deliveries[d].attempts == states[i].db.deliveries[d].attempts + Claims(steps[i..j], d)
  {
    hide Inv, Initial, IsRun, Apply, Enabled;
    if i < j {
      ClaimsCounted(p, states, steps, i, j - 1, d);
      RunStep(p, states, steps, j - 1);
      SameAttempts(states[j].db.deliveries, d);
      if !(steps[j - 1].Retry? && states[j] == states[j - 1]) { AttemptsCount(p, states[j - 1], steps[j - 1], d); }
      assert steps[i..j][..j - 1 - i] == steps[i..j - 1];
    }
  }

  /** Between committed operator retries a row is claimed at most max_attempts times. */
  lemma ClaimsBounded(p: Policy, states: seq<World>, steps: seq<Step>, i: nat, j: nat, d: Id)
    requires IsRun(p, states, steps) && Initial(states[0]) && i <= j < |states| && j <= |steps|
    requires forall k :: i <= k <= j ==> d in states[k].db.deliveries
    requires forall k :: i <= k < j && steps[k].Retry? && states[k + 1] != states[k] ==>
             steps[k].event != states[i].db.deliveries[d].event
    ensures Claims(steps[i..j], d) <= p.maxAttempts
  {
    hide Initial, IsRun, EventInv, AccountInv, SentOk, LoginInv, RegistrationsOnce, CodeInv, SessionCap,
      ClientSessionCap, AssertionsKept, ViewInv, NotifiedRevoked, UsedIds, UsedHistory, InFlightBound, UniqueRows,
      DeadlinesAgree, LeasesMatch, DeliveryRefs, Claims;
    ClaimsCounted(p, states, steps, i, j, d);
    RunKeeps(p, states, steps, j);
  }

  /** `expire` at a time past every deadline and every lease leaves no unfinished row. */
  lemma ExpireFinishes(p: Policy, w: World, at: int)
    requires Inv(p, w)
    requires forall d :: d in w.db.deliveries ==>
               w.db.deliveries[d].deadline <= at
               && w.db.deliveries[d].LeaseBound() <= at
    ensures forall d :: d in AfterExpire(p, w, at).db.deliveries ==> AfterExpire(p, w, at).db.deliveries[d].Terminal()
  {
    hide AccountInv, EventInv, RowInv, SentOk, LoginInv, RegistrationsOnce, CodeInv, SessionCap, ClientSessionCap,
      AssertionsKept, ViewInv, NotifiedRevoked, UsedIds, UsedHistory;
  }
}
