/** Provider and relying party together: the relying party only learns what the provider answers and sends, and the
    provider only counts a notification as delivered when the relying party has committed it. */
module Protocol {
  import opened Wrappers
  import opened RuntimePolicy
  import opened RetryTiming
  import opened OpTables
  import opened OpBatches
  import opened OpGc
  import opened Op = OpMachine
  import OpI = OpInvariants
  import OpS = OpSafety
  import OpFrames
  import OpHistory
  import OpEventTheorems
  import OpDeliveryTheorems
  import OpAccountTheorems
  import Sets
  import RpT = RpTables
  import Rp = RpMachine
  import RpI = RpInvariants
  import RpTheorems

  datatype System = System(op: Op.World, rp: Rp.World)

  datatype SystemStep = Provider(s: Op.Step) | Party(r: Rp.Step)

  /** What the provider's history tells about the sessions of the relying party. */
  function ViewOf(h: Op.Hist): Rp.View {
    Rp.View(map k | k in h.expiries && k.client == CLIENT :: k.sid := h.expiries[k],
            map k | k in h.revokedAt && k.client == CLIENT :: k.sid := h.revokedAt[k])
  }

  /** A 2xx answer comes only from the relying party, after its logout batch. */
  predicate AnswerHonest(sys: System, s: Op.Step) {
    s.Settle? && Successful(s.status) && s.lease in sys.op.h.issued ==>
      sys.op.h.issued[s.lease].client == CLIENT && sys.op.h.issued[s.lease].sid in sys.rp.h.notified
  }

  /** The relying party's steps, with the provider's real answers and logout tokens. */
  ghost predicate PartyEnabled(p: Policy, sys: System, r: Rp.Step) {
    && !r.Tick? && !r.ProviderMoves? && Rp.Possible(p, sys.rp, r)
    && (r.CheckAnswer? ==>
          SessionCheck(sys.op.db, Key(CLIENT, sys.rp.threads[r.thread].sid), sys.op.now)
            == Some((r.answer.expires, r.answer.authTime)))
    && (r.ReceiveLogout? ==> exists l ::
       l in sys.op.h.issued && sys.op.h.issued[l].client == CLIENT
       && sys.op.h.issued[l].sid == r.sid)
  }

  ghost predicate Enabled(p: Policy, sys: System, step: SystemStep) {
    match step
    case Provider(s) => Op.Enabled(p, sys.op, s) && AnswerHonest(sys, s)
    case Party(r) => PartyEnabled(p, sys, r)
  }

  function Apply(p: Policy, sys: System, step: SystemStep): System
    requires Enabled(p, sys, step)
  {
    match step
    case Provider(s) =>
      var op := Op.Apply(p, sys.op, s);
      System(op, sys.rp.(now := op.now, view := ViewOf(op.h)))
    case Party(r) => sys.(rp := Rp.Apply(p, sys.rp, r))
  }

  /** Same clock, and the relying party's view is exactly the provider's history. */
  ghost predicate Coupled(sys: System) {
    sys.rp.now == sys.op.now && sys.rp.view == ViewOf(sys.op.h)
  }

  /** A delivered row means that the relying party has committed the logout of its sid. */
  ghost predicate DeliveredNotified(deliveries: map<Id, Delivery>, notified: set<Id>) {
    forall d :: d in deliveries && deliveries[d].state.Delivered? ==>
      deliveries[d].key.client == CLIENT && deliveries[d].key.sid in notified
  }

  ghost predicate Inv(p: Policy, sys: System) {
    OpI.Inv(p, sys.op) && RpI.Inv(p, sys.rp) && Coupled(sys)
      && DeliveredNotified(sys.op.db.deliveries, sys.rp.h.notified)
  }

  // ---------------------------------------------------------------- the provider keeps its word

  /** `active` is only ever said of a session that is not revoked, with its real expiry. */
  lemma ActiveIsLive(p: Policy, w: Op.World, key: Key)
    requires OpI.Inv(p, w) && SessionCheck(w.db, key, w.now).Some?
    ensures key in w.h.expiries && key !in w.h.revokedAt
    ensures w.h.expiries[key] == SessionCheck(w.db, key, w.now).value.0 > w.now
  {
    hide OpI.AccountInv, OpI.EventInv, OpI.RowInv, OpI.SentOk, OpI.LoginInv, OpI.RegistrationsOnce, OpI.CodeInv,
      OpI.SessionCap, OpI.ClientSessionCap, OpI.AssertionsKept, OpI.NotifiedRevoked, OpI.UsedHistory, OpI.UsedIds,
      OpI.RevokedPast;
  }

  /** Logout tokens are only ever sent for revoked sessions. */
  lemma TokensAreForRevoked(p: Policy, w: Op.World, lease: Id)
    requires OpI.Inv(p, w) && lease in w.h.issued
    ensures Key(w.h.issued[lease].client, w.h.issued[lease].sid) in w.h.revokedAt
  {
    hide OpI.AccountInv, OpI.EventInv, OpI.RowInv, OpI.SentOk, OpI.LoginInv, OpI.RegistrationsOnce, OpI.CodeInv,
      OpI.SessionCap, OpI.ClientSessionCap, OpI.AssertionsKept, OpI.ViewInv, OpI.UsedHistory, OpI.UsedIds;
  }

  lemma ViewKeys(h: Op.Hist, sid: Id)
    ensures sid in ViewOf(h).expires <==> Key(CLIENT, sid) in h.expiries
    ensures sid in ViewOf(h).revokedAt <==> Key(CLIENT, sid) in h.revokedAt
    ensures Key(CLIENT, sid) in h.expiries ==> ViewOf(h).expires[sid] == h.expiries[Key(CLIENT, sid)]
    ensures Key(CLIENT, sid) in h.revokedAt ==> ViewOf(h).revokedAt[sid] == h.revokedAt[Key(CLIENT, sid)]
  {
    assert forall k: Key :: k.client == CLIENT ==> k == Key(CLIENT, k.sid);
    assert Key(CLIENT, sid).client == CLIENT && Key(CLIENT, sid).sid == sid;
  }

  /** Each step of the relying party in the system is a step of its own machine, with an honest provider. */
  lemma PartyRefines(p: Policy, sys: System, r: Rp.Step)
    requires OpI.Inv(p, sys.op) && Coupled(sys) && PartyEnabled(p, sys, r)
    ensures Rp.Enabled(p, sys.rp, r)
  {
    hide OpI.Inv, SessionCheck, ViewOf, RpT.IsLatestParent, RpT.DoomedRows;
    if r.CheckAnswer? {
      var sid := sys.rp.threads[r.thread].sid;
      ActiveIsLive(p, sys.op, Key(CLIENT, sid));
      ViewKeys(sys.op.h, sid);
    } else if r.ReceiveLogout? {
      var l :| l in sys.op.h.issued && sys.op.h.issued[l].client == CLIENT && sys.op.h.issued[l].sid == r.sid;
      TokensAreForRevoked(p, sys.op, l);
      ViewKeys(sys.op.h, r.sid);
    }
  }

  lemma ViewFollows(h: Op.Hist, h': Op.Hist, now: int)
    requires OpHistory.HistoryGrows(h, h', now)
    ensures Rp.ViewGrows(ViewOf(h), ViewOf(h'), now)
  {
    hide ViewOf;
    forall sid | sid in ViewOf(h).expires
      ensures sid in ViewOf(h').expires && ViewOf(h').expires[sid] == ViewOf(h).expires[sid]
    {
      ViewKeys(h, sid);
      ViewKeys(h', sid);
    }
    forall sid | sid in ViewOf(h).revokedAt
      ensures sid in ViewOf(h').revokedAt && ViewOf(h').revokedAt[sid] == ViewOf(h).revokedAt[sid]
    {
      ViewKeys(h, sid);
      ViewKeys(h', sid);
    }
    forall sid | sid in ViewOf(h').revokedAt && sid !in ViewOf(h).revokedAt ensures ViewOf(h').revokedAt[sid] == now {
      ViewKeys(h, sid);
      ViewKeys(h', sid);
    }
  }

  /** Each step of the provider looks to the relying party like a legal change of view, followed by a tick. */
  lemma ProviderRefines(p: Policy, w: Op.World, s: Op.Step)
    requires OpI.Inv(p, w) && Op.Enabled(p, w, s)
    ensures Rp.ViewGrows(ViewOf(w.h), ViewOf(Op.Apply(p, w, s).h), w.now) && Op.Apply(p, w, s).now >= w.now
  {
    hide OpI.Inv, Op.Apply, Op.Enabled, ViewOf;
    OpHistory.HistoryStep(p, w, s);
    OpHistory.ClockStep(p, w, s);
    ViewFollows(w.h, Op.Apply(p, w, s).h, w.now);
  }

  // ---------------------------------------------------------------- delivered means committed

  /** Every delivered row was delivered before, or is the one that this settlement closes. */
  ghost predicate DeliveredBy(deliveries: map<Id, Delivery>, deliveries': map<Id, Delivery>, lease: Option<Id>) {
    forall d :: d in deliveries' && deliveries'[d].state.Delivered? ==>
      && d in deliveries && deliveries'[d].key == deliveries[d].key
      && (deliveries[d].state.Delivered? || (lease.Some? && deliveries[d].lease == lease))
  }

  lemma OneRowDelivered(deliveries: map<Id, Delivery>, d: Id, row: Delivery, lease: Option<Id>)
    requires d in deliveries && row.key == deliveries[d].key
             && (row.state.Delivered? ==> lease.Some? && deliveries[d].lease == lease)
    ensures DeliveredBy(deliveries, deliveries[d := row], lease)
  {
  }

  lemma RowSettled(p: Policy, row: Delivery, task: Task, verdict: Verdict, next: int, at: int)
    requires SettlesOn(row, task.lease, at)
    ensures row.lease == Some(task.lease)
    ensures SettleRow(p, row, verdict, next, at).key == row.key
            && (SettleRow(p, row, verdict, next, at).state.Delivered? <==> verdict.ToDelivered?)
  {
  }

  lemma SettledTable(p: Policy, db: Db, task: Task, verdict: Verdict, decidedAt: int, at: int)
    ensures DeliveredBy(db.deliveries, SettleBatch(p, db, task, verdict, decidedAt, at).deliveries,
                        if verdict.ToDelivered? then Some(task.lease) else None)
  {
    hide DeliveredBy, SettleRow, SettlesOn;
    var lease := if verdict.ToDelivered? then Some(task.lease) else None;
    SameDelivered(db.deliveries, lease);
    if task.id in db.deliveries && SettlesOn(db.deliveries[task.id], task.lease, at) {
      var next := if verdict.ToPending? then verdict.next else decidedAt;
      RowSettled(p, db.deliveries[task.id], task, verdict, next, at);
      OneRowDelivered(db.deliveries, task.id, SettleRow(p, db.deliveries[task.id], verdict, next, at), lease);
    }
  }

  lemma SettledRow(p: Policy, w: Op.World, lease: Id, status: int, retryAfter: RetryAfter, random: real, decidedAt: int,
                   at: int)
    requires lease in w.h.issued && w.h.issued[lease].attempts > 0 && 0.0 <= random < 1.0
             && w.h.issued[lease].lease == lease
    ensures DeliveredBy(w.db.deliveries, Op.AfterSettle(p, w, lease, status, retryAfter, random, decidedAt,
            at).db.deliveries,
                        if Successful(status) then Some(lease) else None)
  {
    hide Outcome, NextAttempt, SettleBatch, DeliveredBy;
    var task := w.h.issued[lease];
    OutcomeExactly(p, task.deadline, task.attempts, status, retryAfter, decidedAt, random);
    SettledTable(p, w.db, task, Outcome(p, task.deadline, task.attempts, status, retryAfter, decidedAt, random),
      decidedAt, at);
  }

  lemma SettleDelivers(p: Policy, w: Op.World, s: Op.Step)
    requires Op.Enabled(p, w, s) && s.Settle? && OpI.LeasesMatch(w.db.deliveries, w.h.issued)
    ensures DeliveredBy(w.db.deliveries, Op.Apply(p, w, s).db.deliveries, if Successful(s.status) then Some(s.lease)
            else None)
    ensures s.lease in w.h.issued
  {
    assert 0.0 <= s.random < 1.0;
    hide Op.Apply, Op.Enabled, DeliveredBy, Op.AfterSettle;
    OpFrames.Effects(p, w, s);
    SettledRow(p, w, s.lease, s.status, s.retryAfter, s.random, s.decidedAt, s.at);
  }

  lemma RowsStayUndelivered(p: Policy, w: Op.World, s: Op.Step)
    requires Op.Enabled(p, w, s) && (s.Claim? || s.Expire? || s.Retry?)
    ensures DeliveredBy(w.db.deliveries, Op.Apply(p, w, s).db.deliveries, None)
  {
    hide Claimable, RetryGuard, AuditConflict, Op.Fresh;
  }

  lemma FanoutUndelivered(w: Op.World, rows: map<Id, (Id, Key)>)
    requires forall d :: d in rows ==> rows[d].0 in w.db.events
    ensures DeliveredBy(w.db.deliveries, Op.AfterFanout(w, rows).db.deliveries, None)
  {
    hide FannedOut;
  }

  lemma CollectUndelivered(w: Op.World, table: Table, victims: set<RowId>)
    ensures DeliveredBy(w.db.deliveries, Op.AfterCollect(w, table, victims).db.deliveries, None)
  {
    hide Ids, Keys;
  }

  lemma SameDelivered(deliveries: map<Id, Delivery>, lease: Option<Id>)
    ensures DeliveredBy(deliveries, deliveries, lease)
  {
  }

  lemma OpLeases(p: Policy, w: Op.World)
    requires OpI.Inv(p, w)
    ensures OpI.LeasesMatch(w.db.deliveries, w.h.issued)
  {
    hide OpI.AccountInv, OpI.EventInv, OpI.SentOk, OpI.LoginInv, OpI.RegistrationsOnce, OpI.CodeInv, OpI.SessionCap,
      OpI.ClientSessionCap, OpI.AssertionsKept, OpI.ViewInv, OpI.NotifiedRevoked, OpI.UsedHistory, OpI.UsedIds,
      OpI.LeasesMatch, OpI.DeliveryRefs, OpI.RowsOk, OpI.UniqueRows, OpI.DeadlinesAgree, OpI.InFlightBound;
  }

  /** Only a 2xx settlement under the row's own lease makes a row delivered. */
  lemma OnlySettleDelivers(p: Policy, w: Op.World, s: Op.Step)
    requires OpI.Inv(p, w) && Op.Enabled(p, w, s)
    ensures DeliveredBy(w.db.deliveries, Op.Apply(p, w, s).db.deliveries, if s.Settle?
            && Successful(s.status) then Some(s.lease) else None)
  {
    hide OpI.Inv, Op.Apply, Op.Enabled, DeliveredBy;
    OpLeases(p, w);
    SameDelivered(w.db.deliveries, None);
    if s.Settle? {
      SettleDelivers(p, w, s);
    } else if s.Claim? || s.Expire? || s.Retry? {
      RowsStayUndelivered(p, w, s);
    } else if s.Fanout? {
      OpEventTheorems.FanoutStep(p, w, s);
      FanoutUndelivered(w, s.rows);
    } else if s.Collect? {
      OpAccountTheorems.CollectStep(p, w, s);
      CollectUndelivered(w, s.table, s.victims);
    } else {
      OpFrames.OutboxFrame(p, w, s);
    }
  }

  lemma LeasedKey(w: Op.World, d: Id, lease: Id)
    requires OpI.LeasesMatch(w.db.deliveries, w.h.issued) && d in w.db.deliveries
             && w.db.deliveries[d].lease == Some(lease)
    ensures lease in w.h.issued && w.db.deliveries[d].key == Key(w.h.issued[lease].client, w.h.issued[lease].sid)
  {
  }

  lemma DeliveredStays(p: Policy, sys: System, s: Op.Step)
    requires Inv(p, sys) && Enabled(p, sys, Provider(s))
    ensures DeliveredNotified(Op.Apply(p, sys.op, s).db.deliveries, sys.rp.h.notified)
  {
    hide OpI.Inv, RpI.Inv, Op.Apply, Op.Enabled, ViewOf;
    OnlySettleDelivers(p, sys.op, s);
    OpLeases(p, sys.op);
    var deliveries, deliveries' := sys.op.db.deliveries, Op.Apply(p, sys.op, s).db.deliveries;
    forall d | d in deliveries' && deliveries'[d].state.Delivered?
      ensures deliveries'[d].key.client == CLIENT && deliveries'[d].key.sid in sys.rp.h.notified
    {
      if !deliveries[d].state.Delivered? { LeasedKey(sys.op, d, s.lease); }
    }
  }

  // ---------------------------------------------------------------- runs of the whole system

  /** Every step of either party keeps both invariants, the coupling, and the meaning of "delivered". */
  lemma StepKeeps(p: Policy, sys: System, step: SystemStep)
    requires Inv(p, sys) && Enabled(p, sys, step)
    ensures Inv(p, Apply(p, sys, step)) && sys.rp.h.notified <= Apply(p, sys, step).rp.h.notified
  {
    hide OpI.Inv, RpI.Inv, Op.Apply, Op.Enabled, Rp.Apply, Rp.Possible, Rp.Honest, ViewOf, DeliveredNotified;
    match step
    case Provider(s) =>
      OpS.StepKeeps(p, sys.op, s);
      DeliveredStays(p, sys, s);
      ProviderRefines(p, sys.op, s);
      var op := Op.Apply(p, sys.op, s);
      RpI.ProviderKeeps(p, sys.rp, ViewOf(op.h));
      RpI.TickKeeps(p, sys.rp.(view := ViewOf(op.h)), op.now);
    case Party(r) =>
      PartyRefines(p, sys, r);
      RpI.StepKeeps(p, sys.rp, r);
      RpTheorems.HistoryGrows(p, sys.rp, r);
      PartyFrame(p, sys, r);
      DeliveredMore(sys.op.db.deliveries, sys.rp.h.notified, Apply(p, sys, step).rp.h.notified);
  }

  lemma DeliveredMore(deliveries: map<Id, Delivery>, notified: set<Id>, notified': set<Id>)
    requires DeliveredNotified(deliveries, notified) && notified <= notified'
    ensures DeliveredNotified(deliveries, notified')
  {
  }

  lemma PartyFrame(p: Policy, sys: System, r: Rp.Step)
    requires Rp.Possible(p, sys.rp, r) && !r.Tick? && !r.ProviderMoves?
    ensures Rp.Apply(p, sys.rp, r).now == sys.rp.now && Rp.Apply(p, sys.rp, r).view == sys.rp.view
  {
    hide RpT.IsLatestParent, RpT.DoomedRows, RpT.Backchannel, RpT.CommitCallback, RpT.ConsumeLogin, RpT.Delete,
      RpT.CheckedSession;
  }

  ghost predicate Initial(sys: System) {
    Op.Initial(sys.op) && Rp.Initial(sys.rp) && sys.rp.now == sys.op.now
  }

  ghost predicate IsRun(p: Policy, states: seq<System>, steps: seq<SystemStep>) {
    && |states| == |steps| + 1
    && forall i :: 0 <= i < |steps| ==>
       Enabled(p, states[i], steps[i])
       && states[i + 1] == Apply(p, states[i], steps[i])
  }

  lemma InitialInv(p: Policy, sys: System)
    requires Initial(sys)
    ensures Inv(p, sys)
  {
    hide OpI.Inv, RpI.Inv, Op.Initial, Rp.Initial, ViewOf;
    OpS.InitialInv(p, sys.op);
    RpI.InitialInv(p, sys.rp);
    InitialView(sys.op, sys.rp);
  }

  lemma InitialView(op: Op.World, rp: Rp.World)
    requires Op.Initial(op) && Rp.Initial(rp)
    ensures rp.view == ViewOf(op.h) && op.db.deliveries == map[]
  {
    EmptyView(op.h);
  }

  lemma EmptyView(h: Op.Hist)
    requires h.expiries == map[] && h.revokedAt == map[]
    ensures ViewOf(h) == Rp.View(map[], map[])
  {
  }

  lemma RunKeeps(p: Policy, states: seq<System>, steps: seq<SystemStep>, i: nat)
    requires IsRun(p, states, steps) && Initial(states[0]) && i < |states|
    ensures Inv(p, states[i])
  {
    hide Inv, Initial, Apply, Enabled;
    if i == 0 {
      InitialInv(p, states[0]);
    } else {
      RunKeeps(p, states, steps, i - 1);
      assert Enabled(p, states[i - 1], steps[i - 1]) && states[i - 1 + 1] == Apply(p, states[i - 1], steps[i - 1]);
      StepKeeps(p, states[i - 1], steps[i - 1]);
    }
  }

  lemma NotifiedStays(p: Policy, states: seq<System>, steps: seq<SystemStep>, i: nat, j: nat)
    requires IsRun(p, states, steps) && Initial(states[0]) && i <= j < |states|
    ensures states[i].rp.h.notified <= states[j].rp.h.notified
  {
    hide Inv, Initial, Apply, Enabled;
    if i < j {
      NotifiedStays(p, states, steps, i, j - 1);
      RunKeeps(p, states, steps, j - 1);
      assert Enabled(p, states[j - 1], steps[j - 1]) && states[j - 1 + 1] == Apply(p, states[j - 1], steps[j - 1]);
      StepKeeps(p, states[j - 1], steps[j - 1]);
    }
  }

  // ---------------------------------------------------------------- end to end

  /** Once the relying party has committed a back-channel logout, it never again holds a session of that sid,
      whatever provider, callbacks, refreshes and collectors do. */
  lemma NoResurrection(p: Policy, states: seq<System>, steps: seq<SystemStep>, i: nat, j: nat, sid: Id)
    requires IsRun(p, states, steps) && Initial(states[0]) && i <= j < |states| && sid in states[i].rp.h.notified
    ensures !RpTheorems.HasSession(states[j].rp.db, sid)
  {
    hide OpI.Inv, RpI.Inv, Initial, IsRun, ViewOf, DeliveredNotified, RpTheorems.HasSession;
    NotifiedStays(p, states, steps, i, j);
    RunKeeps(p, states, steps, j);
    RpTheorems.NotifiedGone(p, states[j].rp, sid);
  }

  /** When the provider has recorded a notification as delivered, the relying party has no session of that sid, then
      or at any later time. */
  lemma DeliveredMeansGone(p: Policy, states: seq<System>, steps: seq<SystemStep>, i: nat, j: nat, d: Id)
    requires IsRun(p, states, steps) && Initial(states[0]) && i <= j < |states|
    requires d in states[i].op.db.deliveries && states[i].op.db.deliveries[d].state.Delivered?
    ensures !RpTheorems.HasSession(states[j].rp.db, states[i].op.db.deliveries[d].key.sid)
  {
    hide OpI.Inv, RpI.Inv, Initial, IsRun, ViewOf, RpTheorems.HasSession;
    RunKeeps(p, states, steps, i);
    NoResurrection(p, states, steps, i, j, states[i].op.db.deliveries[d].key.sid);
  }

  /** Even if no notification ever arrives: a request is only accepted on a lease that was checked before the provider's
      revocation plus lease_ttl. */
  lemma BoundedStaleness(p: Policy, states: seq<System>, steps: seq<SystemStep>, i: nat, a: Rp.Accepted)
    requires IsRun(p, states, steps) && Initial(states[0]) && i < |states|
    requires a in states[i].rp.h.accepted && Key(CLIENT, a.sid) in states[i].op.h.revokedAt
    ensures a.checkedAt < states[i].op.h.revokedAt[Key(CLIENT, a.sid)] + p.leaseTtl
  {
    hide OpI.Inv, Initial, IsRun, ViewOf, DeliveredNotified, RpI.SessionsOk, RpI.ThreadsOk, RpI.NotifiedOk,
      RpI.Exclusive;
    RunKeeps(p, states, steps, i);
    ViewKeys(states[i].op.h, a.sid);
  }

  /** A request accepted while its stored lease is running is accepted before the provider's revocation plus lease_ttl,
      by the time of the commit itself. */
  lemma OnTimeWhileLeased(p: Policy, states: seq<System>, steps: seq<SystemStep>, i: nat, thread: Id)
    requires IsRun(p, states, steps) && Initial(states[0]) && i < |states|
    requires RpTheorems.WillAccept(states[i].rp, thread)
             && RpTheorems.TouchedSession(states[i].rp, thread).leaseUntil > states[i].rp.now
    ensures var key := Key(CLIENT, RpTheorems.TouchedSession(states[i].rp, thread).sid);
            key in states[i].op.h.revokedAt ==> states[i].op.now < states[i].op.h.revokedAt[key] + p.leaseTtl
  {
    hide OpI.Inv, RpI.Inv, Initial, IsRun, ViewOf, DeliveredNotified;
    RunKeeps(p, states, steps, i);
    RpTheorems.OnTimeWhileLeased(p, states[i].rp, thread, states[i].rp.now);
    ViewKeys(states[i].op.h, RpTheorems.TouchedSession(states[i].rp, thread).sid);
  }

  /** Every session the relying party holds is one the provider opened, and ends no later than its parent there. */
  lemma SessionsAreProviders(p: Policy, states: seq<System>, steps: seq<SystemStep>, i: nat, x: Id)
    requires IsRun(p, states, steps) && Initial(states[0]) && i < |states| && x in states[i].rp.db.appSessions
    ensures var s, h := states[i].rp.db.appSessions[x], states[i].op.h;
            Key(CLIENT, s.sid) in h.expiries && s.parentExpires == h.expiries[Key(CLIENT, s.sid)]
            && s.leaseUntil <= s.parentExpires && s.idleExpires <= s.parentExpires
  {
    hide OpI.Inv, Initial, IsRun, ViewOf, DeliveredNotified, RpI.ThreadsOk, RpI.NotifiedOk, RpI.AcceptedOk;
    RunKeeps(p, states, steps, i);
    ViewKeys(states[i].op.h, states[i].rp.db.appSessions[x].sid);
  }
}
