/** The life of a logout event, step by step, from a registration on: the account is revoked, expanded and fanned out,
    its one delivery fails, is retried and fails again, and delivery and event are collected before the session is. */
module OpEventLives {
  import opened Wrappers
  import opened RuntimePolicy
  import opened RetryTiming
  import opened Sets
  import opened OpTables
  import opened OpBatches
  import opened OpGc
  import opened OpMachine
  import opened OpInvariants
  import OpEventTheorems

  // ---------------------------------------------------------------- reachable states

  ghost predicate Reached(p: Policy, w: World) {
    exists states: seq<World>, steps: seq<Step> :: IsRun(p, states, steps) && Initial(states[0]) && states[|steps|] == w
  }

  lemma Starts(p: Policy, w: World)
    requires Initial(w)
    ensures Reached(p, w)
  {
    hide Initial, Enabled, Apply;
    assert IsRun(p, [w], []) && [w][0] == w;
  }

  lemma Advances(p: Policy, w: World, s: Step)
    requires Reached(p, w) && Enabled(p, w, s)
    ensures Reached(p, Apply(p, w, s))
  {
    hide Initial, Enabled, Apply;
    var states: seq<World>, steps: seq<Step> :| IsRun(p, states, steps) && Initial(states[0]) && states[|steps|] == w;
    var states', steps' := states + [Apply(p, w, s)], steps + [s];
    forall i | 0 <= i < |steps'|
      ensures Enabled(p, states'[i], steps'[i]) && states'[i + 1] == Apply(p, states'[i], steps'[i])
    {
      assert states'[i] == states[i];
    }
    assert IsRun(p, states', steps') && states'[0] == states[0];
  }

  // ---------------------------------------------------------------- one account and its session

  const K := Key(CLIENT, 9)

  function Only<T>(x: T): set<T> { {x} }

  /** The rows that account revocation and delivery work on. */
  datatype Outbox = Outbox(revocations: map<Id, Revocation>, events: map<Id, Event>, deliveries: map<Id, Delivery>,
                           audits: map<Id, Audit>)

  /** At time `t` the account 4 in `epoch` has the one session 7 with the one client session K; ids from `next` on are
      unused. */
  ghost predicate Shape(w: World, t: int, s: Session, epoch: nat, next: Id, o: Outbox) {
    && w.now == t && t >= 0 && next > 7
    && w.db.accounts == map[4 := Account(epoch, true)]
    && w.db.sessions == map[7 := s] && s.account == 4 && s.epoch == 0
    && w.db.clientSessions.Keys == {K} && w.db.clientSessions[K].sso == 7
    && w.db.revocations == o.revocations && w.db.events == o.events && w.db.deliveries == o.deliveries
       && w.db.audits == o.audits
    && (forall i :: i in w.h.used ==> i < next)
    && (forall r :: r in o.revocations ==> r < next) && (forall d :: d in o.deliveries ==> d < next)
       && (forall a :: a in o.audits ==> a < next)
  }

  lemma ShapeRows(w: World, t: int, s: Session, epoch: nat, next: Id, o: Outbox)
    requires Shape(w, t, s, epoch, next, o)
    ensures w.now == t && next !in w.h.used && next !in w.db.deliveries && next !in w.db.audits
    ensures w.db.events == o.events && w.db.deliveries == o.deliveries && w.db.audits == o.audits
    ensures w.db.revocations == o.revocations
  {
  }

  function Opened(p: Policy, epoch: nat, t: int): Revocation {
    Revocation(4, epoch, t, t + p.retryDeadline, p.Retained(Max(t + p.retryDeadline, t + p.auditTtl)), false)
  }

  function Generated(p: Policy, s: Session, epoch: nat, t: int): Event {
    Event(7, t, t + p.retryDeadline, Max(Max(s.gcAfter, s.expiresAt + p.Retained(0)), Opened(p, epoch, t).gcAfter),
      false, 0)
  }

  ghost predicate AllExpanded(revocations: map<Id, Revocation>) {
    forall r :: r in revocations ==> revocations[r].expanded
  }

  // ---------------------------------------------------------------- revoking the account

  lemma RevokeShape(p: Policy, w: World, t: int, s: Session, epoch: nat, next: Id, o: Outbox)
    requires Shape(w, t, s, epoch, next, o)
    ensures Shape(AfterRevokeAccount(p, w, next, 4, epoch, t), t, s, epoch + 1, next + 1,
            o.(revocations := o.revocations[next := Opened(p, epoch, t)]))
  {
    hide KeysOfEpoch;
    assert map[4 := Account(epoch, true)][4 := Account(epoch + 1, true)] == map[4 := Account(epoch + 1, true)];
  }

  lemma Revoked(p: Policy, w: World, t: int, s: Session, epoch: nat, next: Id, o: Outbox) returns (after: World)
    requires Reached(p, w) && Shape(w, t, s, epoch, next, o)
    ensures Reached(p, after) && Shape(after, t, s, epoch + 1, next + 1,
            o.(revocations := o.revocations[next := Opened(p, epoch, t)]))
  {
    var step := RevokeAccount(next, 4, epoch, t);
    hide Reached, Shape, AfterRevokeAccount;
    ShapeRows(w, t, s, epoch, next, o);
    assert Enabled(p, w, step) && Apply(p, w, step) == AfterRevokeAccount(p, w, next, 4, epoch, t);
    hide Enabled, Apply;
    RevokeShape(p, w, t, s, epoch, next, o);
    Advances(p, w, step);
    after := Apply(p, w, step);
  }

  // ---------------------------------------------------------------- expansion

  lemma PursuesOne(revocations: map<Id, Revocation>, r: Id, open: Revocation, s: Session)
    requires AllExpanded(revocations) && !open.expanded && Covers(open, s)
    ensures Pursuing(revocations[r := open], s) == map[r := open]
  {
    var all := revocations[r := open];
    var rs := Pursuing(all, s);
    assert r in rs && rs[r] == open;
    assert forall x :: x in all && x != r ==> all[x] == revocations[x] && revocations[x].expanded;
    assert rs.Keys == {r};
  }

  lemma UncoversOne(p: Policy, w: World, t: int, s: Session, epoch: nat, next: Id, o: Outbox,
                    older: map<Id, Revocation>, r: Id, through: nat)
    requires Shape(w, t, s, epoch, next, o) && o.events == map[]
    requires AllExpanded(older) && o.revocations == older[r := Opened(p, through, t)]
    ensures Uncovered(w.db) == Only(7) && Pursuing(w.db.revocations, s) == map[r := Opened(p, through, t)]
  {
    PursuesOne(older, r, Opened(p, through, t), s);
    assert r in Pursuing(w.db.revocations, s).Keys;
  }

  lemma BoundsOfOne(r: Id, open: Revocation)
    ensures var rs := map[r := open];
            CreatedTimes(rs) == Only(open.createdAt) && Deadlines(rs) == Only(open.deadline)
              && RetentionBounds(rs) == Only(open.gcAfter)
  {
    var rs := map[r := open];
    assert r in rs && rs[r] == open;
    assert rs[r].createdAt in CreatedTimes(rs) && rs[r].deadline in Deadlines(rs)
      && rs[r].gcAfter in RetentionBounds(rs);
  }

  lemma GeneratesOne(p: Policy, revocations: map<Id, Revocation>, s: Session, r: Id, epoch: nat, t: int)
    requires Pursuing(revocations, s) == map[r := Opened(p, epoch, t)]
    ensures r in Pursuing(revocations, s).Keys && ExpandedEventRow(p, revocations, s, 7) == Generated(p, s, epoch, t)
    ensures Generated(p, s, epoch, t).sso == 7 && !Opened(p, epoch, t).expanded
  {
    BoundsOfOne(r, Opened(p, epoch, t));
    hide Pursuing, CreatedTimes, Deadlines, RetentionBounds;
    assert r in map[r := Opened(p, epoch, t)];
  }

  lemma InsertsOne(p: Policy, db: Db, s: Session, event: Event)
    requires db.events == map[] && Uncovered(db) == Only(7) && db.sessions == map[7 := s]
             && Pursuing(db.revocations, s).Keys != {}
    requires ExpandedEventRow(p, db.revocations, s, 7) == event
    ensures InsertExpanded(p, db, {7}) == Some(db.(events := map[7 := event]))
  {
    hide Uncovered, ExpandedEventRow, Pursuing;
    var inserted := InsertExpanded(p, db, {7});
    assert inserted.Some? && inserted.value.events.Keys == {7} && inserted.value.events[7] == event;
    assert inserted.value.events == map[7 := event];
  }

  lemma MarksOne(db: Db, s: Session, event: Event, older: map<Id, Revocation>, r: Id, open: Revocation)
    requires db.events == map[7 := event] && event.sso == 7 && db.sessions == map[7 := s]
    requires AllExpanded(older) && db.revocations == older[r := open] && !open.expanded
    ensures MarkExpanded(db) == db.(revocations := older[r := open.(expanded := true)])
  {
    assert 7 in db.events && db.events[7].sso == 7 && HasEvent(db.events, 7);
    assert FullyExpanded(db, open);
    hide FullyExpanded, HasEvent;
    var marked, expected := MarkExpanded(db).revocations, older[r := open.(expanded := true)];
    assert marked.Keys == expected.Keys;
    forall x | x in expected ensures marked[x] == expected[x] { assert x != r ==> older[x].expanded; }
    assert marked == expected;
  }

  lemma ExpandShape(p: Policy, w: World, t: int, s: Session, epoch: nat, next: Id, o: Outbox,
                    older: map<Id, Revocation>, r: Id, through: nat)
    requires Shape(w, t, s, epoch, next, o) && o.events == map[]
    requires AllExpanded(older) && o.revocations == older[r := Opened(p, through, t)] && Uncovered(w.db) == Only(7)
    ensures Shape(AfterExpand(p, w, {7}), t, s, epoch, next,
                  o.(revocations := older[r := Opened(p, through, t).(expanded := true)], events :=
                    map[7 := Generated(p, s, through, t)]))
  {
    hide Opened, Generated, Uncovered, Pursuing, InsertExpanded, MarkExpanded, ExpandedEventRow, AddEvents;
    UncoversOne(p, w, t, s, epoch, next, o, older, r, through);
    GeneratesOne(p, w.db.revocations, s, r, through, t);
    InsertsOne(p, w.db, s, Generated(p, s, through, t));
    MarksOne(w.db.(events := map[7 := Generated(p, s, through, t)]), s, Generated(p, s, through, t), older, r,
      Opened(p, through, t));
    var o' := o.(revocations := older[r := Opened(p, through, t).(expanded := true)], events :=
      map[7 := Generated(p, s, through, t)]);
    assert o'.revocations.Keys == o.revocations.Keys;
    assert AfterExpand(p, w, {7}).db == w.db.(events := o'.events, revocations := o'.revocations);
  }

  lemma Expanded(p: Policy, w: World, t: int, s: Session, epoch: nat, next: Id, o: Outbox, older: map<Id, Revocation>,
                 r: Id, through: nat) returns (after: World)
    requires Reached(p, w) && Shape(w, t, s, epoch, next, o) && o.events == map[]
    requires AllExpanded(older) && o.revocations == older[r := Opened(p, through, t)]
    ensures Reached(p, after)
    ensures Shape(after, t, s, epoch, next,
                  o.(revocations := older[r := Opened(p, through, t).(expanded := true)], events :=
                    map[7 := Generated(p, s, through, t)]))
  {
    hide Reached, AfterExpand, Uncovered, Shape, Opened, Generated, Pursuing;
    UncoversOne(p, w, t, s, epoch, next, o, older, r, through);
    assert Enabled(p, w, Step.Expand({7})) && Apply(p, w, Step.Expand({7})) == AfterExpand(p, w, {7});
    hide Enabled, Apply;
    ExpandShape(p, w, t, s, epoch, next, o, older, r, through);
    Advances(p, w, Step.Expand({7}));
    after := Apply(p, w, Step.Expand({7}));
  }

  // ---------------------------------------------------------------- fanout

  lemma FanoutStep(p: Policy, w: World, d: Id)
    requires MissingRows(w.db) == Only((7, K)) && d !in w.db.deliveries && 7 in w.db.events
    ensures Enabled(p, w, Step.Fanout(map[d := (7, K)]))
    ensures Apply(p, w, Step.Fanout(map[d := (7, K)])) == AfterFanout(w, map[d := (7, K)])
  {
    hide AfterFanout, MissingRows;
    var rows := map[d := (7, K)];
    var chosen := set x | x in rows :: rows[x];
    assert d in rows && rows[d] == (7, K);
    assert (7, K) in chosen && chosen == {(7, K)};
  }

  lemma MissesOne(db: Db, event: Event)
    requires db.events == map[7 := event] && event.sso == 7 && !event.expanded && db.deliveries == map[]
    requires db.clientSessions.Keys == Only(K) && db.clientSessions[K].sso == 7
    ensures MissingRows(db) == Only((7, K))
  {
    assert 7 in db.events && K in db.clientSessions && !HasDelivery(db.deliveries, 7, K);
    assert (7, K) in MissingRows(db);
  }

  lemma InsertsRow(db: Db, event: Event, d: Id)
    requires db.events == map[7 := event] && db.deliveries == map[]
    ensures 7 in db.events && InsertDeliveries(db, map[d := (7, K)])
            == db.(deliveries := map[d := NewDelivery(event, 7, K)])
  {
    hide NewDelivery;
    var rows: map<Id, (Id, Key)> := map[d := (7, K)];
    assert d in rows && rows[d] == (7, K);
    var inserted := InsertDeliveries(db, rows).deliveries;
    assert inserted.Keys == {d} && inserted[d] == NewDelivery(event, 7, K);
    assert inserted == map[d := NewDelivery(event, 7, K)];
  }

  lemma MarksEvent(db: Db, event: Event, d: Id)
    requires db.events == map[7 := event] && event.sso == 7 && !event.expanded
    requires db.clientSessions.Keys == Only(K) && HasDelivery(db.deliveries, 7, K)
    ensures MarkFannedOut(db) == db.(events := map[7 := event.(expanded := true)])
  {
    hide HasDelivery;
    assert 7 in db.events && FannedOut(db, 7);
    var marked := MarkFannedOut(db).events;
    assert marked.Keys == {7} && marked[7] == event.(expanded := true);
    assert marked == map[7 := event.(expanded := true)];
  }

  lemma FansOutOne(db: Db, event: Event, d: Id)
    requires db.events == map[7 := event] && event.sso == 7 && !event.expanded && db.deliveries == map[]
    requires db.clientSessions.Keys == Only(K) && db.clientSessions[K].sso == 7
    ensures 7 in db.events
    ensures FanoutBatch(db, map[d := (7, K)]) == db.(events := map[7 := event.(expanded := true)], deliveries :=
            map[d := NewDelivery(event, 7, K)])
  {
    assert NewDelivery(event, 7, K).event == 7 && NewDelivery(event, 7, K).key == K;
    hide NewDelivery, InsertDeliveries, MarkFannedOut;
    InsertsRow(db, event, d);
    var db1 := db.(deliveries := map[d := NewDelivery(event, 7, K)]);
    assert d in db1.deliveries && HasDelivery(db1.deliveries, 7, K);
    MarksEvent(db1, event, d);
  }

  lemma FanoutShape(w: World, t: int, s: Session, epoch: nat, next: Id, o: Outbox, event: Event)
    requires Shape(w, t, s, epoch, next, o) && o.events == map[7 := event] && event.sso == 7 && !event.expanded
    requires o.deliveries == map[]
    ensures 7 in w.db.events
    ensures Shape(AfterFanout(w, map[next := (7, K)]), t, s, epoch, next + 1,
                  o.(events := map[7 := event.(expanded := true)], deliveries := map[next := NewDelivery(event, 7, K)]))
  {
    hide FanoutBatch, AddRows, NewDelivery;
    FansOutOne(w.db, event, next);
  }

  lemma FannedOutOnce(p: Policy, w: World, t: int, s: Session, epoch: nat, next: Id, o: Outbox,
                      event: Event) returns (after: World)
    requires Reached(p, w) && Shape(w, t, s, epoch, next, o) && o.events == map[7 := event] && event.sso == 7
    requires !event.expanded && o.deliveries == map[]
    ensures Reached(p, after)
    ensures Shape(after, t, s, epoch, next + 1,
                  o.(events := map[7 := event.(expanded := true)], deliveries := map[next := NewDelivery(event, 7, K)]))
  {
    MissesOne(w.db, event);
    hide Reached, Enabled, Apply, AfterFanout, MissingRows, Shape, NewDelivery;
    FanoutShape(w, t, s, epoch, next, o, event);
    ShapeRows(w, t, s, epoch, next, o);
    FanoutStep(p, w, next);
    Advances(p, w, Step.Fanout(map[next := (7, K)]));
    after := Apply(p, w, Step.Fanout(map[next := (7, K)]));
  }

  // ---------------------------------------------------------------- one failed attempt

  lemma ClaimStep(p: Policy, w: World, d: Id, lease: Id, at: int)
    requires 0 <= at <= w.now && lease !in w.h.used && IsNextClaim(p, w.db.deliveries, at, Some(d))
    ensures Enabled(p, w, Step.Claim(Some(d), lease, at))
    ensures Apply(p, w, Step.Claim(Some(d), lease, at)) == AfterClaim(p, w, Some(d), lease, at)
  {
    hide AfterClaim, IsNextClaim;
  }

  lemma SettleStep(p: Policy, w: World, lease: Id, at: int)
    requires at <= w.now && lease in w.h.issued && w.h.issued[lease].attempts > 0
    ensures Enabled(p, w, Step.Settle(lease, 400, Absent, 0.0, at, at))
    ensures Apply(p, w, Step.Settle(lease, 400, Absent, 0.0, at, at))
            == AfterSettle(p, w, lease, 400, Absent, 0.0, at, at)
  {
    hide AfterSettle;
  }

  /** A new row that is due. */
  ghost predicate Due(row: Delivery, t: int) {
    row.event == 7 && row.key == K && row.state.Pending? && row.attempts == 0 && row.nextAt <= t && row.leaseUntil.None?
      && row.deadline > t
  }

  function FailedRow(p: Policy, row: Delivery, lease: Id, t: int): Delivery {
    SettleRow(p, ClaimRow(p, row, lease, t), ToFailed(HttpPermanent), t, t)
  }

  lemma NextOne(p: Policy, d: Id, row: Delivery, t: int)
    requires Due(row, t) && t >= 0
    ensures IsNextClaim(p, map[d := row], t, Some(d))
  {
    assert InFlight(map[d := row], CLIENT, t) == {};
    assert d in map[d := row];
  }

  lemma ClaimShape(p: Policy, w: World, t: int, s: Session, epoch: nat, next: Id, o: Outbox, d: Id, row: Delivery)
    requires Shape(w, t, s, epoch, next, o) && o.deliveries == map[d := row]
             && IsNextClaim(p, w.db.deliveries, t, Some(d))
    ensures var w' := AfterClaim(p, w, Some(d), next, t);
            && Shape(w', t, s, epoch, next + 1, o.(deliveries := map[d := ClaimRow(p, row, next, t)]))
            && next in w'.h.issued && w'.h.issued[next] == TaskOf(p, d, ClaimRow(p, row, next, t), next)
  {
    hide IsNextClaim, ClaimRow, TaskOf;
    assert d in map[d := row];
    assert map[d := row][d := ClaimRow(p, row, next, t)] == map[d := ClaimRow(p, row, next, t)];
  }

  lemma SettleShape(p: Policy, w: World, t: int, s: Session, epoch: nat, next: Id, o: Outbox, d: Id, row: Delivery,
                    lease: Id)
    requires Shape(w, t, s, epoch, next, o) && o.deliveries == map[d := ClaimRow(p, row, lease, t)]
    requires lease in w.h.issued && w.h.issued[lease] == TaskOf(p, d, ClaimRow(p, row, lease, t), lease)
    ensures w.h.issued[lease].attempts > 0
    ensures Shape(AfterSettle(p, w, lease, 400, Absent, 0.0, t, t), t, s, epoch, next,
            o.(deliveries := map[d := FailedRow(p, row, lease, t)]))
  {
    var leased := ClaimRow(p, row, lease, t);
    assert d in map[d := leased] && SettlesOn(leased, lease, t);
    hide SettlesOn, SettleRow, ClaimRow;
    assert map[d := leased][d := FailedRow(p, row, lease, t)] == map[d := FailedRow(p, row, lease, t)];
  }

  lemma Failed(p: Policy, w: World, t: int, s: Session, epoch: nat, next: Id, o: Outbox, d: Id,
               row: Delivery) returns (after: World)
    requires Reached(p, w) && Shape(w, t, s, epoch, next, o) && o.deliveries == map[d := row] && Due(row, t)
    ensures Reached(p, after) && Shape(after, t, s, epoch, next + 1,
            o.(deliveries := map[d := FailedRow(p, row, next, t)]))
  {
    hide Reached, Enabled, Apply, AfterClaim, AfterSettle, IsNextClaim, ClaimRow, TaskOf, FailedRow;
    ShapeRows(w, t, s, epoch, next, o);
    NextOne(p, d, row, t);
    ClaimShape(p, w, t, s, epoch, next, o, d, row);
    ClaimStep(p, w, d, next, t);
    Advances(p, w, Step.Claim(Some(d), next, t));
    var w1 := Apply(p, w, Step.Claim(Some(d), next, t));
    var o1 := o.(deliveries := map[d := ClaimRow(p, row, next, t)]);
    SettleShape(p, w1, t, s, epoch, next + 1, o1, d, row, next);
    SettleStep(p, w1, next, t);
    Advances(p, w1, Step.Settle(next, 400, Absent, 0.0, t, t));
    after := Apply(p, w1, Step.Settle(next, 400, Absent, 0.0, t, t));
  }

  // ---------------------------------------------------------------- one life of the event

  function LostEvent(p: Policy, s: Session, epoch: nat, t: int): Event { Generated(p, s, epoch, t).(expanded := true) }

  function LostRow(p: Policy, s: Session, epoch: nat, t: int, lease: Id): Delivery {
    FailedRow(p, NewDelivery(Generated(p, s, epoch, t), 7, K), lease, t)
  }

  lemma Life(p: Policy, w: World, t: int, s: Session, epoch: nat, next: Id, o: Outbox) returns (after: World)
    requires Reached(p, w) && Shape(w, t, s, epoch, next, o) && o.events == map[] && o.deliveries == map[]
    requires AllExpanded(o.revocations)
    ensures Reached(p, after)
    ensures Shape(after, t, s, epoch + 1, next + 3,
                  Outbox(o.revocations[next := Opened(p, epoch, t).(expanded := true)],
                    map[7 := LostEvent(p, s, epoch, t)],
                         map[next + 1 := LostRow(p, s, epoch, t, next + 2)], o.audits))
  {
    var event := Generated(p, s, epoch, t);
    assert Due(NewDelivery(event, 7, K), t) && event.sso == 7 && !event.expanded;
    hide Reached, Shape, Opened, Generated, AllExpanded, NewDelivery, Due, FailedRow;
    var w1 := Revoked(p, w, t, s, epoch, next, o);
    var o1 := o.(revocations := o.revocations[next := Opened(p, epoch, t)]);
    var w2 := Expanded(p, w1, t, s, epoch + 1, next + 1, o1, o.revocations, next, epoch);
    var o2 := o1.(revocations := o.revocations[next := Opened(p, epoch, t).(expanded := true)], events :=
      map[7 := event]);
    var w3 := FannedOutOnce(p, w2, t, s, epoch + 1, next + 1, o2, event);
    var row := NewDelivery(event, 7, K);
    var o3 := o2.(events := map[7 := event.(expanded := true)], deliveries := map[next + 1 := row]);
    after := Failed(p, w3, t, s, epoch + 1, next + 2, o3, next + 1, row);
  }

  // ---------------------------------------------------------------- the operator retry

  /** The guard holds for an expanded event at revision 0 whose only row has failed. */
  lemma GuardHolds(w: World, t: int, s: Session, epoch: nat, next: Id, o: Outbox, event: Event, d: Id, row: Delivery,
                   deadline: int)
    requires Shape(w, t, s, epoch, next, o) && o.events == map[7 := event] && o.deliveries == map[d := row]
    requires event.expanded && event.revision == 0 && event.deadline < deadline && deadline > t
    requires row.event == 7 && row.key == K && row.state.Failed?
    ensures RetryGuard(w.db, w.now, 7, 0, deadline)
  {
    assert d in w.db.deliveries && w.db.deliveries[d] == row;
    assert HasDelivery(w.db.deliveries, 7, K);
  }

  function RetriedEvent(event: Event, deadline: int, retainUntil: int): Event {
    event.(revision := event.revision + 1, deadline := deadline, gcAfter := Max(event.gcAfter, retainUntil))
  }

  function RetryAudit(p: Policy, event: Event, deadline: int, retainUntil: int, t: int): Audit {
    Audit(7, event.revision, event.deadline, deadline, Max(retainUntil, p.Retained(t + p.auditTtl)))
  }

  lemma RetryShape(p: Policy, w: World, t: int, s: Session, epoch: nat, next: Id, o: Outbox, event: Event, d: Id,
                   row: Delivery, deadline: int, retainUntil: int)
    requires Shape(w, t, s, epoch, next, o) && o.events == map[7 := event] && o.deliveries == map[d := row]
             && o.audits == map[]
    requires row.event == 7 && row.state.Failed? && RetryGuard(w.db, w.now, 7, 0, deadline)
    ensures Shape(AfterRetry(p, w, next, 7, 0, deadline, retainUntil, t), t, s, epoch, next + 1,
                  Outbox(o.revocations, map[7 := RetriedEvent(event, deadline, retainUntil)],
                    map[d := RetryRow(row, deadline, retainUntil, t)],
                         map[next := RetryAudit(p, event, deadline, retainUntil, t)]))
  {
    OpEventTheorems.RetryNeedsRevision(w.db, w.now, 7, 0, deadline);
    hide RetryGuard, RetryRow;
    var w' := AfterRetry(p, w, next, 7, 0, deadline, retainUntil, t);
    assert d in map[d := row] && map[d := row][d] == row && map[7 := event][7] == event;
    assert w'.db.deliveries.Keys == {d} && w'.db.deliveries[d] == RetryRow(row, deadline, retainUntil, t);
    assert w'.db.deliveries == map[d := RetryRow(row, deadline, retainUntil, t)];
    assert w'.db.events == map[7 := RetriedEvent(event, deadline, retainUntil)];
  }

  function LaterDeadline(event: Event): int { event.deadline + 1 }

  function RetainFor(p: Policy, event: Event): int { p.Retained(LaterDeadline(event) + p.resultTtl) }

  function RequeuedRow(p: Policy, row: Delivery, event: Event,
                       t: int): Delivery { RetryRow(row, LaterDeadline(event), RetainFor(p, event), t) }

  /** The retry of the first life commits, and the requeued row fails again. */
  lemma RetriedOnce(p: Policy, w: World, t: int, s: Session, epoch: nat, next: Id, o: Outbox, event: Event, d: Id,
                    row: Delivery) returns (after: World)
    requires Reached(p, w) && Shape(w, t, s, epoch, next, o) && o.events == map[7 := event]
    requires o.deliveries == map[d := row] && o.audits == map[]
    requires event.expanded && event.revision == 0 && event.deadline > t && row.event == 7 && row.key == K
             && row.state.Failed?
    ensures Reached(p, after)
    ensures Shape(after, t, s, epoch, next + 2,
                  Outbox(o.revocations, map[7 := RetriedEvent(event, LaterDeadline(event), RetainFor(p, event))],
                         map[d := FailedRow(p, RequeuedRow(p, row, event, t), next + 1, t)],
                         map[next := RetryAudit(p, event, LaterDeadline(event), RetainFor(p, event), t)]))
  {
    var deadline, retain, row1 := LaterDeadline(event), RetainFor(p, event), RequeuedRow(p, row, event, t);
    assert RetryParameters(p, deadline, retain, t) && Due(row1, t);
    hide Reached, AfterRetry, Shape, RetryGuard, Due, FailedRow, RetryRow, RetryAudit, RetriedEvent, RetryParameters;
    var step := Step.Retry(next, 7, 0, deadline, retain, t);
    ShapeRows(w, t, s, epoch, next, o);
    assert Enabled(p, w, step) && Apply(p, w, step) == AfterRetry(p, w, next, 7, 0, deadline, retain, t);
    hide Enabled, Apply;
    GuardHolds(w, t, s, epoch, next, o, event, d, row, deadline);
    RetryShape(p, w, t, s, epoch, next, o, event, d, row, deadline, retain);
    Advances(p, w, step);
    var w1 := Apply(p, w, step);
    var o1 := Outbox(o.revocations, map[7 := RetriedEvent(event, deadline, retain)], map[d := row1],
      map[next := RetryAudit(p, event, deadline, retain, t)]);
    after := Failed(p, w1, t, s, epoch, next + 1, o1, d, row1);
  }

  // ---------------------------------------------------------------- collection of the event, but not of its session

  lemma CollectStep(p: Policy, w: World, table: Table, at: int, id: Id)
    requires at <= w.now && Plain(id) in DoomedRows(w.db, table, at)
    ensures Enabled(p, w, Step.Collect(table, at, {Plain(id)}))
    ensures Apply(p, w, Step.Collect(table, at, {Plain(id)})) == AfterCollect(w, table, {Plain(id)})
  {
    hide AfterCollect, DoomedRows;
  }

  ghost predicate Over(row: Delivery, event: Event, at: int) {
    && row.event == 7 && row.Terminal() && row.lease.None? && row.leaseUntil.None? && row.finishedAt.Some?
    && row.gcAfter.Some? && row.gcAfter.value <= at && row.deadline <= at
    && event.expanded && event.deadline <= at && event.gcAfter <= at
  }

  lemma DoomsRow(db: Db, event: Event, d: Id, row: Delivery, at: int)
    requires db.events == map[7 := event] && db.deliveries == map[d := row] && AllExpanded(db.revocations)
             && Over(row, event, at)
    ensures Plain(d) in DoomedRows(db, Deliveries, at)
  {
    assert d in db.deliveries && db.deliveries[d] == row && 7 in db.events && db.events[7] == event;
    assert Plain(d) in Rows(db, Deliveries);
  }

  lemma DoomsEvent(db: Db, event: Event, at: int)
    requires db.events == map[7 := event] && db.deliveries == map[] && AllExpanded(db.revocations)
    requires event.expanded && event.deadline <= at && event.gcAfter <= at
    ensures Plain(7) in DoomedRows(db, Events, at)
  {
    assert 7 in db.events && db.events[7] == event;
    assert Plain(7) in Rows(db, Events);
  }

  lemma CollectRowShape(w: World, t: int, s: Session, epoch: nat, next: Id, o: Outbox, d: Id, row: Delivery)
    requires Shape(w, t, s, epoch, next, o) && o.deliveries == map[d := row]
    ensures Shape(AfterCollect(w, Deliveries, {Plain(d)}), t, s, epoch, next, o.(deliveries := map[]))
  {
    assert Plain(d) in {Plain(d)} && Ids({Plain(d)}) == {d};
    hide Ids;
    assert map[d := row] - {d} == map[];
  }

  lemma CollectEventShape(w: World, t: int, s: Session, epoch: nat, next: Id, o: Outbox, event: Event)
    requires Shape(w, t, s, epoch, next, o) && o.events == map[7 := event]
    ensures Shape(AfterCollect(w, Events, {Plain(7)}), t, s, epoch, next, o.(events := map[]))
  {
    assert Plain(7) in {Plain(7)} && Ids({Plain(7)}) == {7};
    hide Ids;
    assert map[7 := event] - {7} == map[];
  }

  lemma Collected(p: Policy, w: World, t: int, s: Session, epoch: nat, next: Id, o: Outbox, event: Event, d: Id,
                  row: Delivery, later: int) returns (after: World)
    requires Reached(p, w) && Shape(w, t, s, epoch, next, o) && o.events == map[7 := event]
             && o.deliveries == map[d := row]
    requires AllExpanded(o.revocations) && Over(row, event, later) && later >= t
    ensures Reached(p, after) && Shape(after, later, s, epoch, next, o.(events := map[], deliveries := map[]))
  {
    assert Shape(w.(now := later), later, s, epoch, next, o);
    assert Enabled(p, w, Tick(later)) && Apply(p, w, Tick(later)) == w.(now := later);
    assert event.expanded && event.deadline <= later && event.gcAfter <= later;
    hide Reached, Enabled, Apply, AfterCollect, Shape, DoomedRows, AllExpanded, Over;
    ShapeRows(w, t, s, epoch, next, o);
    Advances(p, w, Tick(later));
    var w1 := w.(now := later);
    DoomsRow(w1.db, event, d, row, later);
    CollectStep(p, w1, Deliveries, later, d);
    CollectRowShape(w1, later, s, epoch, next, o, d, row);
    Advances(p, w1, Step.Collect(Deliveries, later, {Plain(d)}));
    var w2 := Apply(p, w1, Step.Collect(Deliveries, later, {Plain(d)}));
    var o2 := o.(deliveries := map[]);
    ShapeRows(w2, later, s, epoch, next, o2);
    DoomsEvent(w2.db, event, later);
    CollectStep(p, w2, Events, later, 7);
    CollectEventShape(w2, later, s, epoch, next, o2, event);
    Advances(p, w2, Step.Collect(Events, later, {Plain(7)}));
    after := Apply(p, w2, Step.Collect(Events, later, {Plain(7)}));
  }

  // ---------------------------------------------------------------- registration

  /** The ids in use when the ceremony is under way, and once it is finished. */
  const STARTED_IDS: set<Id> := {1, 3, 4}
  const SIGNED_IN_IDS: set<Id> := STARTED_IDS + {7, 8} + {10, 9}

  function Start(): World {
    World(0,
          Db(map[], map[], map[CLIENT := Client(1, true)], map[], {}, map[5 := Invitation(false, 1, None)], false,
            map[], map[], map[], map[],
             map[], map[], map[], map[], map[], map[], map[], map[], map[], map[], map[]),
          Hist({}, map[], map[], map[], map[], map[], {}, map[]))
  }

  function LoginBegun(p: Policy): World {
    Start().(db := Start().db.(logins := map[1 := Login(2, p.loginTtl, p.Retained(p.loginTtl), false)]), h :=
      Start().h.(used := {1}))
  }

  function CeremonyBegun(p: Policy): World {
    LoginBegun(p).(db := LoginBegun(p).db.(ceremonies :=
      map[3 := Ceremony(1, true, 4, 5, 2, p.ceremonyTtl, p.Retained(p.ceremonyTtl), 0, false)]),
                   h := LoginBegun(p).h.(used := {1, 3, 4}))
  }

  lemma CeremonyOpens(p: Policy)
    ensures Enabled(p, Start(), BeginLogin(1, 2, 0)) && Apply(p, Start(), BeginLogin(1, 2, 0)) == LoginBegun(p)
    ensures Enabled(p, LoginBegun(p), StartCeremony(1, 2, 3, true, 4, 5, 0))
    ensures Apply(p, LoginBegun(p), StartCeremony(1, 2, 3, true, 4, 5, 0)) == CeremonyBegun(p)
  {
    assert Start().h.used + {1} == {1};
    assert [3, 4][0] == 3 && [3, 4][1] == 4;
    assert {1} + {3, 4} == {1, 3, 4};
  }

  /** Everything that later statements of the registration read. */
  ghost predicate Untouched(db: Db) {
    && db.clientSessions == map[] && db.connections == map[] && db.codes == map[]
       && db.clients == map[CLIENT := Client(1, true)]
    && db.revocations == map[] && db.events == map[] && db.deliveries == map[] && db.audits == map[]
    && LoginOpen(db, 1, 2, 0)
  }

  ghost predicate Registering(db: Db) {
    Untouched(db) && db.accounts == map[4 := Account(0, true)] && db.credentials == map[6 := Credential(4, true)]
      && db.sessions == map[]
  }

  lemma Writes(p: Policy)
    ensures var writes := AuthenticateWrites(p, CeremonyBegun(p).db, 0, 1, 2, 3, 6, 0);
            writes.Some? && writes.value.1 == 4 && Registering(writes.value.0)
  {
    var db := CeremonyBegun(p).db;
    assert 1 in db.logins && LoginOpen(db, 1, 2, 0);
    assert 3 in db.ceremonies && CeremonyOpen(db, p, 3, 2, 0);
    assert 5 in db.invitations;
  }

  function FirstSession(p: Policy): Session {
    Session(4, 6, 0, p.ssoTtl, false, Max(p.Retained(p.ssoTtl), p.Retained(p.auditTtl)))
  }

  ghost predicate SignedIn(p: Policy, db: Db) {
    Untouched(db) && db.accounts == map[4 := Account(0, true)] && db.credentials == map[6 := Credential(4, true)]
      && db.sessions == map[7 := FirstSession(p)]
  }

  lemma Creates(p: Policy, db: Db)
    requires Registering(db)
    ensures var created := CreateSession(p, db, 0, 4, 6, 7, 8, 0); created.Some? && SignedIn(p, created.value)
  {
    assert LoginOpen(db.(sessions := map[7 := FirstSession(p)], contexts := db.contexts[7 := Context(8, 0)]), 1, 2, 0);
    hide LoginOpen;
    assert ActiveSessions(db.sessions, 4, 0, 0) == {};
    assert db.sessions[7 := FirstSession(p)] == map[7 := FirstSession(p)];
  }

  function Joined(db: Db): Db {
    db.(connections := map[(4, CLIENT) := Connection(1, true)], clientSessions :=
      map[K := ClientSession(7, 4, 1, false)])
  }

  lemma Joins(p: Policy, db: Db)
    requires SignedIn(p, db)
    ensures OpenClientSession(p, db, 7, K) == Some(Joined(db)) && Eligible(Joined(db), K, 0)
  {
    hide LoginOpen;
    assert ActiveClientSessions(db.clientSessions, 7, CLIENT) == {};
    assert 7 in db.sessions && (4, CLIENT) !in db.connections;
    assert db.connections[(4, CLIENT) := Connection(1, true)] == map[(4, CLIENT) := Connection(1, true)];
    assert db.clientSessions[K := ClientSession(7, 4, 1, false)] == map[K := ClientSession(7, 4, 1, false)];
    var joined := Joined(db);
    assert K in joined.clientSessions && (4, CLIENT) in joined.connections && CLIENT in joined.clients;
    assert 7 in joined.sessions && 4 in joined.accounts && 6 in joined.credentials;
  }

  /** The tables that the outbox and its invariants need, once the code is issued. */
  ghost predicate Issued(p: Policy, db: Db) {
    && db.accounts == map[4 := Account(0, true)] && db.sessions == map[7 := FirstSession(p)]
       && db.clientSessions == map[K := ClientSession(7, 4, 1, false)]
    && db.revocations == map[] && db.events == map[] && db.deliveries == map[] && db.audits == map[]
  }

  lemma Issues(p: Policy, db: Db)
    requires SignedIn(p, db)
    ensures var issued := IssueCode(p, db, 0, 1, 2, 7, 9, 10, 11, 0); issued.Some? && Issued(p, issued.value)
  {
    hide OpenClientSession, Eligible;
    Joins(p, db);
    assert 7 in db.sessions && CLIENT in Joined(db).clients;
    assert db.sessions[7 := FirstSession(p)] == map[7 := FirstSession(p)];
    assert FirstSession(p).gcAfter >= p.Retained(p.auditTtl);
  }

  lemma FinishStep(p: Policy, w: World)
    requires w.now == 0 && w.h.used == STARTED_IDS
    ensures Enabled(p, w, Finish(1, 2, 3, 6, 0, 7, 8, 9, 10, 11, 0))
    ensures Apply(p, w, Finish(1, 2, 3, 6, 0, 7, 8, 9, 10, 11, 0))
            == AfterFinish(p, w, 1, 2, 3, 6, 0, 7, 8, 9, 10, 11, 0)
  {
    hide AfterFinish;
    var ids := [7, 8, 9, 10];
    assert forall i :: 0 <= i < 4 ==> ids[i] == 7 + i;
  }

  const NOTHING := Outbox(map[], map[], map[], map[])

  lemma FinishCommits(p: Policy, w: World, db1: Db, db2: Db, db3: Db)
    requires AuthenticateWrites(p, w.db, w.now, 1, 2, 3, 6, 0) == Some((db1, 4))
    requires CreateSession(p, db1, w.now, 4, 6, 7, 8, 0) == Some(db2)
    requires IssueCode(p, db2, w.now, 1, 2, 7, 9, 10, 11, 0) == Some(db3)
    ensures var w' := AfterFinish(p, w, 1, 2, 3, 6, 0, 7, 8, 9, 10, 11, 0);
            w'.now == w.now && w'.db == db3 && w'.h.used == w.h.used + {7, 8} + {10, 9}
  {
    hide AuthenticateWrites, CreateSession, IssueCode, AddTo;
  }

  lemma IssuedShape(p: Policy, w: World)
    requires w.now == 0 && Issued(p, w.db) && w.h.used == SIGNED_IN_IDS
    ensures Shape(w, 0, FirstSession(p), 0, 11, NOTHING)
  {
  }

  lemma FinishShape(p: Policy)
    ensures Shape(AfterFinish(p, CeremonyBegun(p), 1, 2, 3, 6, 0, 7, 8, 9, 10, 11, 0), 0, FirstSession(p), 0, 11,
            NOTHING)
  {
    assert CeremonyBegun(p).now == 0 && CeremonyBegun(p).h.used == {1, 3, 4};
    hide *;
    Writes(p);
    var db1 := AuthenticateWrites(p, CeremonyBegun(p).db, 0, 1, 2, 3, 6, 0).value.0;
    Creates(p, db1);
    var db2 := CreateSession(p, db1, 0, 4, 6, 7, 8, 0).value;
    Issues(p, db2);
    FinishCommits(p, CeremonyBegun(p), db1, db2, IssueCode(p, db2, 0, 1, 2, 7, 9, 10, 11, 0).value);
    IssuedShape(p, AfterFinish(p, CeremonyBegun(p), 1, 2, 3, 6, 0, 7, 8, 9, 10, 11, 0));
  }

  /** The state in which the account has registered and signed in. */
  function WorldSignedIn(p: Policy): World { AfterFinish(p, CeremonyBegun(p), 1, 2, 3, 6, 0, 7, 8, 9, 10, 11, 0) }

  lemma SignsIn(p: Policy)
    ensures Reached(p, WorldSignedIn(p)) && Shape(WorldSignedIn(p), 0, FirstSession(p), 0, 11, NOTHING)
  {
    assert Initial(Start()) && CeremonyBegun(p).now == 0 && CeremonyBegun(p).h.used == {1, 3, 4};
    hide Reached, Enabled, Apply, AfterFinish, Shape, Initial, Start, LoginBegun, CeremonyBegun, FirstSession;
    Starts(p, Start());
    CeremonyOpens(p);
    Advances(p, Start(), BeginLogin(1, 2, 0));
    Advances(p, LoginBegun(p), StartCeremony(1, 2, 3, true, 4, 5, 0));
    FinishStep(p, CeremonyBegun(p));
    FinishShape(p);
    Advances(p, CeremonyBegun(p), Finish(1, 2, 3, 6, 0, 7, 8, 9, 10, 11, 0));
  }

  // ---------------------------------------------------------------- the whole first life

  lemma FirstLifeFacts(p: Policy, s: Session, epoch: nat, t: int, lease: Id)
    ensures var event, row := LostEvent(p, s, epoch, t), LostRow(p, s, epoch, t, lease);
            && event.expanded && event.revision == 0 && event.deadline > t
            && row.event == 7 && row.key == K && row.state.Failed?
  {
  }

  /** A time at which the delivery and the event that failed again can be collected. */
  function LaterThan(p: Policy, row: Delivery, event: Event): int
  {
    Max(Max(row.deadline, event.deadline), Max(if row.gcAfter.Some? then row.gcAfter.value else 0, event.gcAfter))
  }

  lemma OverLater(p: Policy, row: Delivery, event: Event, lease: Id, t: int)
    requires event.expanded && row.event == 7 && event.deadline > t
    ensures var row2, event2 := FailedRow(p, RequeuedRow(p, row, event, t), lease, t),
            RetriedEvent(event, LaterDeadline(event), RetainFor(p, event));
            LaterThan(p, row2, event2) >= t && Over(row2, event2, LaterThan(p, row2, event2))
  {
  }

  function FirstRow(p: Policy): Delivery { LostRow(p, FirstSession(p), 0, 0, 13) }

  function FirstEvent(p: Policy): Event { LostEvent(p, FirstSession(p), 0, 0) }

  function FirstRevocations(p: Policy): map<Id, Revocation> { map[11 := Opened(p, 0, 0).(expanded := true)] }

  /** The account has registered, was revoked, expanded and fanned out, and the delivery has failed. */
  ghost predicate HasFailed(p: Policy, w: World) {
    Reached(p, w) && Shape(w, 0, FirstSession(p), 1, 14,
      Outbox(FirstRevocations(p), map[7 := FirstEvent(p)], map[12 := FirstRow(p)], map[]))
  }

  lemma FirstRevocation(p: Policy)
    ensures AllExpanded(NOTHING.revocations) && AllExpanded(FirstRevocations(p))
    ensures NOTHING.revocations[11 := Opened(p, 0, 0).(expanded := true)] == FirstRevocations(p)
  {
  }

  lemma FirstFailure(p: Policy)
    ensures exists w: World :: HasFailed(p, w)
  {
    hide Reached, Shape, FirstSession, LostEvent, LostRow, Opened, AllExpanded, FirstRevocations, WorldSignedIn;
    FirstRevocation(p);
    SignsIn(p);
    var w := Life(p, WorldSignedIn(p), 0, FirstSession(p), 0, 11, NOTHING);
    assert HasFailed(p, w);
  }

  /** Then the retry at revision 0 has failed again, and delivery and event have been collected in a pass that was cut
      before the session; the audit row of the retry is left. */
  ghost predicate IsOver(p: Policy, w: World, later: int, audit: Audit) {
    && Reached(p, w) && Shape(w, later, FirstSession(p), 1, 16,
       Outbox(FirstRevocations(p), map[], map[], map[14 := audit]))
    && AllExpanded(FirstRevocations(p)) && audit.event == 7 && audit.revision == 0
  }

  lemma FirstLife(p: Policy)
    ensures exists w: World, later: int, audit: Audit :: IsOver(p, w, later, audit)
  {
    FirstLifeFacts(p, FirstSession(p), 0, 0, 13);
    FirstRevocation(p);
    var event, row := FirstEvent(p), FirstRow(p);
    var audit := RetryAudit(p, event, LaterDeadline(event), RetainFor(p, event), 0);
    assert audit.event == 7 && audit.revision == event.revision;
    hide Reached, Shape, FirstSession, FailedRow, RetriedEvent, RetryAudit, RequeuedRow, Opened, LaterDeadline,
      RetainFor, LaterThan, Over, AllExpanded, FirstRevocations, FirstEvent, FirstRow;
    FirstFailure(p);
    var w1: World :| HasFailed(p, w1);
    var w2 := RetriedOnce(p, w1, 0, FirstSession(p), 1, 14,
      Outbox(FirstRevocations(p), map[7 := event], map[12 := row], map[]), event, 12, row);
    var event', row' := RetriedEvent(event, LaterDeadline(event), RetainFor(p, event)),
      FailedRow(p, RequeuedRow(p, row, event, 0), 15, 0);
    OverLater(p, row, event, 15, 0);
    var later := LaterThan(p, row', event');
    var w := Collected(p, w2, 0, FirstSession(p), 1, 16,
      Outbox(FirstRevocations(p), map[7 := event'], map[12 := row'], map[14 := audit]),
                       event', 12, row', later);
    assert IsOver(p, w, later, audit);
  }
}
