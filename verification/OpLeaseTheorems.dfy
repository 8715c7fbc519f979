/** How long each state of a delivery lasts over a run, and what ends it. */
module OpLeaseTheorems {
  import opened Wrappers
  import opened RuntimePolicy
  import opened RetryTiming
  import opened OpTables
  import opened OpBatches
  import opened OpMachine
  import opened OpInvariants
  import opened OpSafety
  import opened OpFrames
  import opened OpDeliveryTheorems
  import opened OpAccountTheorems
  import opened OpRemovalTheorems
  import opened OpRowLaw
  import opened OpRevocationLaw

  // ---------------------------------------------------------------- which row a claim takes

  /** A row can be claimed at reading t exactly if it is pending or its lease has ended, it is due, its deadline has not
      passed, attempts are left, and its client has room. */
  lemma ClaimableExactly(p: Policy, w: World, d: Id, t: int)
    requires Inv(p, w) && d in w.db.deliveries && t >= 0
    ensures var row := w.db.deliveries[d];
            Claimable(p, w.db.deliveries, d, t) <==>
            && (row.state.Pending? || (row.state.Leased? && row.leaseUntil.Some? && row.leaseUntil.value <= t))
            && row.nextAt <= t < row.deadline
            && row.attempts < p.maxAttempts
            && |InFlight(w.db.deliveries, row.key.client, t)| < p.maxInflight
  {
    hide Inv, InFlight, LeasesMatch;
    LeasesKnown(p, w, d);
  }

  /** A claim comes back empty exactly if nothing can be claimed, and otherwise takes the row that is due first. */
  lemma ClaimTakesFirst(p: Policy, w: World, s: Step)
    requires Enabled(p, w, s) && s.Claim?
    ensures s.pick.None? <==> forall d :: d in w.db.deliveries ==> !Claimable(p, w.db.deliveries, d, s.at)
    ensures s.pick.Some? ==>
              && s.pick.value in w.db.deliveries && Claimable(p, w.db.deliveries, s.pick.value, s.at)
              && forall d :: d in w.db.deliveries && Claimable(p, w.db.deliveries, d, s.at) ==>
                 w.db.deliveries[s.pick.value].nextAt < w.db.deliveries[d].nextAt
                 || (w.db.deliveries[s.pick.value].nextAt == w.db.deliveries[d].nextAt && s.pick.value <= d)
  {
    hide Apply, Enabled, AfterClaim, Claimable;
    ClaimStep(p, w, s);
  }

  /** In a run, the row that step i claims is stored, and afterwards leased for exactly lease_ttl seconds from the
      claim's reading. */
  lemma ClaimLeases(p: Policy, states: seq<World>, steps: seq<Step>, i: nat, d: Id)
    requires IsRun(p, states, steps) && Initial(states[0]) && i < |steps|
    requires steps[i].Claim? && steps[i].pick == Some(d)
    ensures |states| == |steps| + 1 && d in states[i].db.deliveries && d in states[i + 1].db.deliveries
    ensures HeldUntil(states[i + 1].db.deliveries, d, steps[i].lease, steps[i].at + p.deliveryLease)
    ensures states[i + 1].db.deliveries[d].attempts == states[i].db.deliveries[d].attempts + 1
  {
    hide Inv, Initial, IsRun, Apply, Enabled, Claimable, AfterClaim, RowOk, LeasesMatch;
    RunBounds(p, states, steps);
    RunStep(p, states, steps, i);
    ClaimStep(p, states[i], steps[i]);
    LeasesKnown(p, states[i], d);
    ClaimMovesRow(p, states[i], steps[i].pick, steps[i].lease, steps[i].at, d);
  }

  // ---------------------------------------------------------------- leases

  ghost predicate HeldUntil(deliveries: map<Id, Delivery>, d: Id, lease: Id, until: int) {
    d in deliveries && deliveries[d].state.Leased? && deliveries[d].lease == Some(lease)
    && deliveries[d].leaseUntil == Some(until)
  }

  /** A lease is ended by a settlement under it that takes effect, or, not before it has run out, by a claim of the row
      or an expiry. */
  ghost predicate EndsLease(w: World, s: Step, w': World, d: Id, lease: Id, until: int) {
    || (s.Settle? && s.lease == lease && s.at < until && w' != w)
    || (s.Claim? && s.pick == Some(d) && s.at >= until)
    || (s.Expire? && s.at >= until)
  }

  lemma HeldStep(p: Policy, w: World, s: Step, d: Id, lease: Id, until: int)
    requires Inv(p, w) && Enabled(p, w, s) && HeldUntil(w.db.deliveries, d, lease, until)
    ensures d in Apply(p, w, s).db.deliveries
    ensures HeldUntil(Apply(p, w, s).db.deliveries, d, lease, until) || EndsLease(w, s, Apply(p, w, s), d, lease, until)
  {
    hide Inv, Apply, Enabled, RowOk, LeasesMatch, InFlight, AfterClaim;
    LeasesKnown(p, w, d);
    LeasedUnfinished(p, w.db.deliveries[d]);
    if d !in Apply(p, w, s).db.deliveries { DeliveryRemoved(p, w, s, d); }
    RowStep(p, w, s, d);
    if s.Claim? && s.pick == Some(d) { ClaimStep(p, w, s); }
  }

  lemma LeasedUnfinished(p: Policy, row: Delivery)
    requires RowOk(p, row)
    ensures row.state.Leased? ==> !row.Terminal() && row.lease.Some?
  {
  }

  /** A claim at reading a gives its row away for lease_ttl seconds. From then on the row is stored and leased under the
      same lease until a + lease_ttl, unless a settlement of that lease took effect, or a claim of the row or an expiry
      came with a reading of at least a + lease_ttl. */
  lemma {:induction false} LeaseLasts(p: Policy, states: seq<World>, steps: seq<Step>, i: nat, j: nat, d: Id)
    requires IsRun(p, states, steps) && Initial(states[0]) && i < j < |states| && |states| == |steps| + 1
    requires steps[i].Claim? && steps[i].pick == Some(d)
    ensures var until := steps[i].at + p.deliveryLease;
            HeldUntil(states[j].db.deliveries, d, steps[i].lease, until)
            || exists k :: i < k < j && EndsLease(states[k], steps[k], states[k + 1], d, steps[i].lease, until)
  {
    hide Inv, Initial, IsRun, Apply, Enabled, HeldUntil, EndsLease;
    var until := steps[i].at + p.deliveryLease;
    if j == i + 1 {
      ClaimLeases(p, states, steps, i, d);
    } else {
      LeaseLasts(p, states, steps, i, j - 1, d);
      RunStep(p, states, steps, j - 1);
      if HeldUntil(states[j - 1].db.deliveries, d, steps[i].lease, until) {
        HeldStep(p, states[j - 1], steps[j - 1], d, steps[i].lease, until);
      } else {
        var k :| i < k < j - 1 && EndsLease(states[k], steps[k], states[k + 1], d, steps[i].lease, until);
        assert EndsLease(states[k], steps[k], states[k + 1], d, steps[i].lease, until);
      }
    }
  }

  lemma HeldKeepsOut(p: Policy, w: World, s: Step, d: Id, lease: Id, until: int)
    requires Inv(p, w) && Enabled(p, w, s) && HeldUntil(w.db.deliveries, d, lease, until)
    requires s.Claim? && s.pick == Some(d)
    ensures s.at >= until
  {
    hide Inv, Apply, Enabled, InFlight, AfterClaim;
    ClaimStep(p, w, s);
  }

  /** While the lease lasts, nobody else claims the row: a second claim of it comes after an end of the lease, or with a
      reading of at least a + lease_ttl. */
  lemma NobodyElseClaims(p: Policy, states: seq<World>, steps: seq<Step>, i: nat, j: nat, d: Id)
    requires IsRun(p, states, steps) && Initial(states[0]) && i < j < |steps|
    requires steps[i].Claim? && steps[i].pick == Some(d) && steps[j].Claim? && steps[j].pick == Some(d)
    requires steps[j].at < steps[i].at + p.deliveryLease
    ensures |states| == |steps| + 1 && exists k :: i < k < j && EndsLease(states[k], steps[k], states[k + 1], d,
              steps[i].lease, steps[i].at + p.deliveryLease)
  {
    hide Inv, Initial, IsRun, Apply, Enabled, EndsLease;
    var until := steps[i].at + p.deliveryLease;
    RunBounds(p, states, steps);
    LeaseLasts(p, states, steps, i, j, d);
    RunStep(p, states, steps, j);
    if HeldUntil(states[j].db.deliveries, d, steps[i].lease, until) {
      HeldKeepsOut(p, states[j], steps[j], d, steps[i].lease, until);
    }
  }

  /** An answer that is settled under its lease with a reading before a + lease_ttl takes effect, unless the lease has
      ended before; the answer then decides what becomes of the row. */
  lemma SettlesInTime(p: Policy, states: seq<World>, steps: seq<Step>, i: nat, j: nat, d: Id)
    requires IsRun(p, states, steps) && Initial(states[0]) && i < j < |steps|
    requires steps[i].Claim? && steps[i].pick == Some(d)
    requires steps[j].Settle? && steps[j].lease == steps[i].lease && steps[j].at < steps[i].at + p.deliveryLease
    ensures |states| == |steps| + 1
    ensures (exists k :: i < k < j && EndsLease(states[k], steps[k], states[k + 1], d, steps[i].lease,
              steps[i].at + p.deliveryLease))
            || (d in states[j].db.deliveries && d in states[j + 1].db.deliveries
                && states[j].db.deliveries[d].attempts > 0
                && AnsweredRow(p, states[j].db.deliveries[d], states[j + 1].db.deliveries[d], steps[j].status,
                     steps[j].retryAfter, steps[j].random, steps[j].decidedAt, steps[j].at))
  {
    hide Inv, Initial, IsRun, Apply, Enabled, EndsLease, AnsweredRow;
    var until := steps[i].at + p.deliveryLease;
    RunBounds(p, states, steps);
    LeaseLasts(p, states, steps, i, j, d);
    RunStep(p, states, steps, j);
    if HeldUntil(states[j].db.deliveries, d, steps[i].lease, until) {
      HeldStep(p, states[j], steps[j], d, steps[i].lease, until);
      RowStep(p, states[j], steps[j], d);
    }
  }

  /** As long as nothing has ended the lease, the row can be claimed again exactly from a + lease_ttl on, within its due
      time, deadline, attempts and its client's room. */
  lemma ClaimableAgainExactly(p: Policy, states: seq<World>, steps: seq<Step>, i: nat, j: nat, d: Id, t: int)
    requires IsRun(p, states, steps) && Initial(states[0]) && i < j < |states| && |states| == |steps| + 1 && t >= 0
    requires steps[i].Claim? && steps[i].pick == Some(d)
    requires forall k :: i < k < j ==> !EndsLease(states[k], steps[k], states[k + 1], d, steps[i].lease,
               steps[i].at + p.deliveryLease)
    ensures d in states[j].db.deliveries
    ensures var row := states[j].db.deliveries[d];
            Claimable(p, states[j].db.deliveries, d, t) <==>
            && steps[i].at + p.deliveryLease <= t
            && row.nextAt <= t < row.deadline
            && row.attempts < p.maxAttempts
            && |InFlight(states[j].db.deliveries, row.key.client, t)| < p.maxInflight
  {
    hide Inv, Initial, IsRun, Apply, Enabled, EndsLease, Claimable, InFlight;
    LeaseLasts(p, states, steps, i, j, d);
    RunKeeps(p, states, steps, j);
    ClaimableExactly(p, states[j], d, t);
  }

  // ---------------------------------------------------------------- waiting rows

  /** What ends the wait of a pending row: a claim once it is due and before its deadline, or an expiry after it. */
  ghost predicate EndsWait(s: Step, row: Delivery, d: Id) {
    || (s.Claim? && s.pick == Some(d) && row.nextAt <= s.at < row.deadline)
    || (s.Expire? && s.at >= row.deadline)
  }

  ghost predicate Stores(deliveries: map<Id, Delivery>, d: Id, row: Delivery) {
    d in deliveries && deliveries[d] == row
  }

  lemma WaitStep(p: Policy, w: World, s: Step, d: Id, row: Delivery)
    requires Inv(p, w) && Enabled(p, w, s) && Stores(w.db.deliveries, d, row) && row.state.Pending?
    ensures Stores(Apply(p, w, s).db.deliveries, d, row) || EndsWait(s, row, d)
  {
    hide Inv, Apply, Enabled, LeasesMatch, InFlight, AfterClaim;
    LeasesKnown(p, w, d);
    if d !in Apply(p, w, s).db.deliveries { DeliveryRemoved(p, w, s, d); }
    RowStep(p, w, s, d);
    if s.Claim? && s.pick == Some(d) { ClaimStep(p, w, s); }
  }

  /** A pending row keeps waiting, unchanged, until a claim takes it with a reading between its due time and its
      deadline, or an expiry comes with a reading after its deadline. */
  lemma {:induction false} PendingLasts(p: Policy, states: seq<World>, steps: seq<Step>, i: nat, j: nat, d: Id,
                                         row: Delivery)
    requires IsRun(p, states, steps) && Initial(states[0]) && i <= j < |states| && |states| == |steps| + 1
    requires Stores(states[i].db.deliveries, d, row) && row.state.Pending?
    ensures Stores(states[j].db.deliveries, d, row) || exists k :: i <= k < j && EndsWait(steps[k], row, d)
  {
    hide Inv, Initial, IsRun, Apply, Enabled, EndsWait, Stores;
    if i < j {
      PendingLasts(p, states, steps, i, j - 1, d, row);
      RunStep(p, states, steps, j - 1);
      if Stores(states[j - 1].db.deliveries, d, row) {
        WaitStep(p, states[j - 1], steps[j - 1], d, row);
      } else {
        var k :| i <= k < j - 1 && EndsWait(steps[k], row, d);
        assert EndsWait(steps[k], row, d);
      }
    }
  }

  // ---------------------------------------------------------------- finished rows

  /** What ends a finished row: an operator retry that commits, unless it was delivered, or a collection after its
      retention and its deadline. */
  ghost predicate EndsRest(w: World, s: Step, w': World, row: Delivery) {
    || (s.Retry? && w' != w && s.event == row.event && !row.state.Delivered? && s.deadline > w.now)
    || (s.Collect? && row.gcAfter.Some? && row.gcAfter.value <= w.now && row.deadline <= w.now)
  }

  lemma RestStep(p: Policy, w: World, s: Step, d: Id, row: Delivery)
    requires Inv(p, w) && Enabled(p, w, s) && Stores(w.db.deliveries, d, row) && row.Terminal()
    ensures Stores(Apply(p, w, s).db.deliveries, d, row) || EndsRest(w, s, Apply(p, w, s), row)
  {
    hide Inv, Apply, Enabled, LeasesMatch, InFlight, AfterClaim;
    LeasesKnown(p, w, d);
    if d !in Apply(p, w, s).db.deliveries {
      DeliveryRemoved(p, w, s, d);
    } else {
      RowStep(p, w, s, d);
      if s.Claim? && s.pick == Some(d) { ClaimStep(p, w, s); }
    }
  }

  /** A finished row stays as it is until an operator retry of its event commits or a collection takes it after its
      retention bound. */
  lemma {:induction false} FinishedLasts(p: Policy, states: seq<World>, steps: seq<Step>, i: nat, j: nat, d: Id,
                                         row: Delivery)
    requires IsRun(p, states, steps) && Initial(states[0]) && i <= j < |states| && |states| == |steps| + 1
    requires Stores(states[i].db.deliveries, d, row) && row.Terminal()
    ensures Stores(states[j].db.deliveries, d, row)
            || exists k :: i <= k < j && EndsRest(states[k], steps[k], states[k + 1], row)
    decreases j - i
  {
    hide Inv, Initial, IsRun, Apply, Enabled, EndsRest, Stores;
    if i < j {
      RunStep(p, states, steps, i);
      RestStep(p, states[i], steps[i], d, row);
      if Stores(states[i + 1].db.deliveries, d, row) {
        FinishedLasts(p, states, steps, i + 1, j, d, row);
      } else {
        assert EndsRest(states[i], steps[i], states[i + 1], row);
      }
    }
  }

  // ---------------------------------------------------------------- the deadline of a notification

  lemma ClaimedBeforeDeadline(p: Policy, w: World, s: Step, d: Id)
    requires Inv(p, w) && Enabled(p, w, s) && s.Claim? && s.pick == Some(d)
    ensures d in w.db.deliveries && s.at < w.db.deliveries[d].deadline
            && !w.db.deliveries[d].state.Delivered? && !w.db.deliveries[d].state.Failed?
            && !w.db.deliveries[d].state.Expired?
  {
    hide Inv, Apply, Enabled, InFlight, AfterClaim;
    ClaimStep(p, w, s);
  }

  /** As long as no operator has extended its event, a notification is only ever tried before the deadline that the
      event was recorded with; for a browser logout that is retry_deadline after the logout's reading. */
  lemma TriedWithinDeadline(p: Policy, states: seq<World>, steps: seq<Step>, k: nat, d: Id)
    requires IsRun(p, states, steps) && Initial(states[0]) && k < |steps| && |states| == |steps| + 1
    requires steps[k].Claim? && steps[k].pick == Some(d)
    requires d in states[k].db.deliveries && states[k].db.deliveries[d].event in states[k].db.events
    requires states[k].db.events[states[k].db.deliveries[d].event].revision == 0
    ensures exists i :: 0 <= i < k
              && RecordedEvent(p, states[i], steps[i], states[i + 1], states[k].db.deliveries[d].event,
                   states[k].db.events[states[k].db.deliveries[d].event])
              && steps[k].at < states[i + 1].db.events[states[k].db.deliveries[d].event].deadline
              && (steps[i].Logout? ==> steps[k].at < steps[i].at + p.retryDeadline)
  {
    hide Inv, Initial, IsRun, Apply, Enabled, ExpandedEvent;
    var e := states[k].db.deliveries[d].event;
    RunStep(p, states, steps, k);
    ClaimedBeforeDeadline(p, states[k], steps[k], d);
    RowsAlways(p, states, steps, k, d);
    EventOrigin(p, states, steps, k, e);
    var i :| 0 <= i < k && RecordedEvent(p, states[i], steps[i], states[i + 1], e, states[k].db.events[e]);
    RecordedFresh(p, states[i], steps[i], states[i + 1], e, states[k].db.events[e]);
  }

  lemma RecordedFresh(p: Policy, w: World, s: Step, w': World, e: Id, row: Event)
    requires RecordedEvent(p, w, s, w', e, row) && row.revision == 0
    ensures e in w'.db.events && w'.db.events[e].deadline == row.deadline
    ensures s.Logout? ==> w'.db.events[e].deadline == s.at + p.retryDeadline
  {
    hide ExpandedEvent;
  }
}
