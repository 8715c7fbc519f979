/** Whole collection passes: budget, safety at every cut, invisibility, and convergence to an empty database. */
module OpGcPasses {
  import opened Wrappers
  import opened RuntimePolicy
  import opened Sets
  import opened OpTables
  import opened OpBatches
  import opened OpGc
  import opened OpMachine
  import opened OpInvariants
  import opened OpStepsGc
  import opened OpGcTheorems

  /** One pass: table i loses `picks[i]`, as many doomed rows as the remaining budget allows; `ws` are the cuts.
      A spent budget takes nothing more, which is what leaving the loop does. */
  ghost predicate IsPass(p: Policy, at: int, ws: seq<World>, picks: seq<set<RowId>>) {
    && |picks| == |TARGETS| && |ws| == |TARGETS| + 1
    && forall i :: 0 <= i < |TARGETS| ==> Cut(p, at, ws, picks, i)
  }

  ghost predicate Cut(p: Policy, at: int, ws: seq<World>, picks: seq<set<RowId>>, i: nat)
    requires i < |TARGETS| && i < |picks| && i + 1 < |ws|
  {
    && Taken(picks, i) <= p.gcBatch
    && LimitOf(picks[i], DoomedRows(ws[i].db, TARGETS[i], at), p.gcBatch - Taken(picks, i))
    && ws[i + 1] == AfterCollect(ws[i], TARGETS[i], picks[i])
  }

  /** A pass never deletes more than gc_batch_size rows. */
  lemma {:induction false} BudgetKept(p: Policy, at: int, ws: seq<World>, picks: seq<set<RowId>>, i: nat)
    requires IsPass(p, at, ws, picks) && i <= |TARGETS|
    ensures Taken(picks, i) <= p.gcBatch
  {
    hide DoomedRows, AfterCollect;
    if i > 0 { assert Cut(p, at, ws, picks, i - 1); }
  }

  lemma CutLegal(p: Policy, at: int, ws: seq<World>, picks: seq<set<RowId>>, i: nat)
    requires IsPass(p, at, ws, picks) && i < |TARGETS|
    ensures picks[i] <= DoomedRows(ws[i].db, TARGETS[i], at) && ws[i + 1] == AfterCollect(ws[i], TARGETS[i], picks[i])
    ensures Taken(picks, i) <= p.gcBatch && |picks[i]| == Min(|DoomedRows(ws[i].db, TARGETS[i], at)|,
            p.gcBatch - Taken(picks, i))
  {
    hide DoomedRows, AfterCollect;
    assert Cut(p, at, ws, picks, i);
  }

  /** Wherever a pass stops, every child row still has its parent and the whole invariant holds. */
  lemma {:induction false} CutSafe(p: Policy, at: int, ws: seq<World>, picks: seq<set<RowId>>, i: nat)
    requires IsPass(p, at, ws, picks) && i <= |TARGETS| && Inv(p, ws[0]) && at <= ws[0].now
    ensures Inv(p, ws[i]) && Refs(ws[i].db) && ws[i].now == ws[0].now
  {
    hide Inv, IsPass, AfterCollect, DoomedRows, Refs;
    PassBounds(p, at, ws, picks);
    if i > 0 {
      CutSafe(p, at, ws, picks, i - 1);
      CutLegal(p, at, ws, picks, i - 1);
      CollectKeeps(p, ws[i - 1], TARGETS[i - 1], at, picks[i - 1]);
      SameClock(ws[i - 1], TARGETS[i - 1], picks[i - 1]);
    }
    InvRefs(p, ws[i]);
  }

  lemma PassBounds(p: Policy, at: int, ws: seq<World>, picks: seq<set<RowId>>)
    requires IsPass(p, at, ws, picks)
    ensures |picks| == |TARGETS| && |ws| == |TARGETS| + 1
  {
    hide Cut;
  }

  lemma SameClock(w: World, table: Table, victims: set<RowId>)
    ensures AfterCollect(w, table, victims).now == w.now
            && AfterCollect(w, table, victims).db == Delete(w.db, table, victims)
  {
    hide Delete;
  }

  lemma InvRefs(p: Policy, w: World)
    requires Inv(p, w)
    ensures Refs(w.db)
  {
    hide SentOk, RegistrationsOnce, SessionCap, ClientSessionCap, AssertionsKept, ViewInv, NotifiedRevoked, UsedHistory,
      UsedIds, EpochBound, RevocationsPast, StaleCovered, RevocationsRetained, EventsDead, UniqueEvents, EventsRetained,
      RowsOk, UniqueRows, DeadlinesAgree, LeasesMatch, InFlightBound, CodesOnce;
  }

  /** A pass at time a is invisible to every authentication query at every t >= a, at every cut. */
  lemma {:induction false} PassInvisible(p: Policy, at: int, ws: seq<World>, picks: seq<set<RowId>>, i: nat, t: int)
    requires IsPass(p, at, ws, picks) && i <= |TARGETS| && t >= at
    ensures SameAnswers(p, ws[0].db, ws[i].db, t)
  {
    hide IsPass, AfterCollect, DoomedRows, SsoLookup, LoginOpen, CeremonyOpen, Eligible, SessionCheck, UserInfo, Delete;
    PassBounds(p, at, ws, picks);
    if i > 0 {
      PassInvisible(p, at, ws, picks, i - 1, t);
      CutLegal(p, at, ws, picks, i - 1);
      SameClock(ws[i - 1], TARGETS[i - 1], picks[i - 1]);
      CollectInvisible(p, ws[i - 1].db, TARGETS[i - 1], at, picks[i - 1], t);
    }
  }

  // ---------------------------------------------------------------- sizes

  lemma PlainLeft(ids: set<Id>, victims: set<RowId>)
    requires victims <= PlainRows(ids)
    ensures PlainRows(ids - Ids(victims)) == PlainRows(ids) - victims
  {
    forall i | i in ids ensures i in Ids(victims) <==> Plain(i) in victims {
      assert Plain(i).Plain?;
    }
  }

  lemma PairLeft(keys: set<Key>, victims: set<RowId>)
    requires victims <= PairRows(keys)
    ensures PairRows(keys - Keys(victims)) == PairRows(keys) - victims
  {
    forall k | k in keys ensures k in Keys(victims) <==> Pair(k) in victims {
      assert Pair(k).Pair?;
    }
  }

  /** A DELETE removes its victims from its table and leaves the other tables alone. */
  lemma RowsAfter(db: Db, table: Table, victims: set<RowId>, other: Table)
    requires victims <= Rows(db, table)
    ensures Rows(Delete(db, table, victims), other) == if other == table then Rows(db, table) - victims
            else Rows(db, other)
  {
    if other == table { RowsLeft(db, table, victims); } else { OtherRows(db, table, victims, other); }
  }

  lemma OtherRows(db: Db, table: Table, victims: set<RowId>, other: Table)
    requires other != table
    ensures Rows(Delete(db, table, victims), other) == Rows(db, other)
  {
    hide Ids, Keys, PlainRows, PairRows;
  }

  lemma RowsLeft(db: Db, table: Table, victims: set<RowId>)
    requires victims <= Rows(db, table)
    ensures Rows(Delete(db, table, victims), table) == Rows(db, table) - victims
  {
    hide Ids, Keys, PlainRows, PairRows;
    if table.Assertions? || table.ClientSessions? {
      PairLeft(if table.Assertions? then db.assertions.Keys else db.clientSessions.Keys, victims);
    } else {
      forall ids | victims <= PlainRows(ids) ensures PlainRows(ids - Ids(victims)) == PlainRows(ids) - victims {
        PlainLeft(ids, victims);
      }
    }
  }

  /** Position of a table in the pass order. */
  function Position(table: Table): (i: nat)
    ensures i < |TARGETS| && TARGETS[i] == table && forall j :: 0 <= j < |TARGETS| && TARGETS[j] == table ==> j == i
  {
    match table
    case Ceremonies => 0 case Logins => 1 case LogoutTxs => 2 case Assertions => 3 case Rates => 4
    case Revocations => 5 case Audits => 6 case Deliveries => 7 case Events => 8 case Tokens => 9
    case CodeContexts => 10 case Codes => 11 case ClientSessions => 12 case Contexts => 13 case Sessions => 14
  }

  /** Number of rows in the first `n` collected tables. */
  function SizeUpTo(db: Db, n: nat): nat
    requires n <= |TARGETS|
  {
    if n == 0 then 0 else SizeUpTo(db, n - 1) + |Rows(db, TARGETS[n - 1])|
  }

  /** Number of rows in all collected tables. */
  function Size(db: Db): nat { SizeUpTo(db, |TARGETS|) }

  lemma {:induction false} DeleteSize(db: Db, table: Table, victims: set<RowId>, n: nat)
    requires victims <= Rows(db, table) && n <= |TARGETS|
    ensures SizeUpTo(Delete(db, table, victims), n) == SizeUpTo(db, n) - if Position(table) < n then |victims| else 0
  {
    hide Rows, Delete;
    if n > 0 {
      DeleteSize(db, table, victims, n - 1);
      RowsAfter(db, table, victims, TARGETS[n - 1]);
      assert Position(table) == n - 1 <==> TARGETS[n - 1] == table;
      assert Rows(db, table) == (Rows(db, table) - victims) + victims;
    }
  }

  lemma VictimsStored(db: Db, table: Table, at: int, victims: set<RowId>)
    requires victims <= DoomedRows(db, table, at)
    ensures victims <= Rows(db, table)
  {
    hide Rows, Doomed;
  }

  /** A pass removes exactly the rows it counts. */
  lemma {:induction false} PassSize(p: Policy, at: int, ws: seq<World>, picks: seq<set<RowId>>, i: nat)
    requires IsPass(p, at, ws, picks) && i <= |TARGETS|
    ensures Size(ws[i].db) + Taken(picks, i) == Size(ws[0].db)
  {
    hide IsPass, AfterCollect, DoomedRows, Delete, Rows, SizeUpTo;
    PassBounds(p, at, ws, picks);
    if i > 0 {
      PassSize(p, at, ws, picks, i - 1);
      CutLegal(p, at, ws, picks, i - 1);
      SameClock(ws[i - 1], TARGETS[i - 1], picks[i - 1]);
      VictimsStored(ws[i - 1].db, TARGETS[i - 1], at, picks[i - 1]);
      DeleteSize(ws[i - 1].db, TARGETS[i - 1], picks[i - 1], |TARGETS|);
    }
  }

  // ---------------------------------------------------------------- convergence

  ghost predicate RipeLogins(ceremonies: map<Id, Ceremony>, logins: map<Id, Login>, at: int) {
    && (forall i :: i in ceremonies ==> ceremonies[i].gcAfter <= at && ceremonies[i].expiresAt <= at)
    && (forall i :: i in logins ==> logins[i].gcAfter <= at && logins[i].expiresAt <= at)
  }

  ghost predicate RipeUses(logoutTxs: map<Id, LogoutTx>, assertions: map<Key, AssertionUse>, rates: map<Id, int>,
                           at: int)
  {
    && (forall i :: i in logoutTxs ==> logoutTxs[i].gcAfter <= at && logoutTxs[i].expiresAt <= at)
    && (forall i :: i in assertions ==> assertions[i].gcAfter <= at && assertions[i].retainUntil <= at)
    && (forall i :: i in rates ==> rates[i] <= at)
  }

  ghost predicate RipeRecords(revocations: map<Id, Revocation>, audits: map<Id, Audit>, at: int) {
    && (forall i :: i in revocations ==> revocations[i].gcAfter <= at && revocations[i].expanded)
    && (forall i :: i in audits ==> audits[i].gcAfter <= at)
  }

  ghost predicate RipeOutbox(deliveries: map<Id, Delivery>, events: map<Id, Event>, at: int) {
    && (forall i :: i in deliveries ==> RipeDelivery(deliveries[i], at))
    && (forall i :: i in events ==> events[i].gcAfter <= at && events[i].deadline <= at && events[i].expanded)
  }

  ghost predicate RipeSessions(sessions: map<Id, Session>, at: int) {
    forall i :: i in sessions ==> sessions[i].gcAfter <= at && sessions[i].expiresAt <= at
  }

  /** The clock is past every stored bound, every event and revocation is expanded, every delivery is finished. */
  ghost predicate Ripe(db: Db, at: int) {
    && RipeLogins(db.ceremonies, db.logins, at)
    && RipeUses(db.logoutTxs, db.assertions, db.rates, at)
    && RipeRecords(db.revocations, db.audits, at)
    && RipeOutbox(db.deliveries, db.events, at)
    && RipeSessions(db.sessions, at)
  }

  ghost predicate RipeDelivery(d: Delivery, at: int) {
    d.Terminal() && d.deadline <= at && (d.gcAfter.Some? ==> d.gcAfter.value <= at)
  }

  lemma RipeLoginsAfter(db: Db, ids: set<Id>, at: int)
    requires Ripe(db, at)
    ensures RipeLogins(db.ceremonies - ids, db.logins, at) && RipeLogins(db.ceremonies, db.logins - ids, at)
    ensures RipeSessions(db.sessions - ids, at)
  {
    hide RipeUses, RipeRecords, RipeOutbox;
  }

  lemma RipeUsesAfter(db: Db, ids: set<Id>, keys: set<Key>, at: int)
    requires Ripe(db, at)
    ensures RipeUses(db.logoutTxs - ids, db.assertions, db.rates, at)
            && RipeUses(db.logoutTxs, db.assertions - keys, db.rates, at)
    ensures RipeUses(db.logoutTxs, db.assertions, db.rates - ids, at)
  {
    hide RipeLogins, RipeRecords, RipeOutbox, RipeSessions;
  }

  lemma RipeOutboxAfter(db: Db, ids: set<Id>, at: int)
    requires Ripe(db, at)
    ensures RipeRecords(db.revocations - ids, db.audits, at) && RipeRecords(db.revocations, db.audits - ids, at)
    ensures RipeOutbox(db.deliveries - ids, db.events, at) && RipeOutbox(db.deliveries, db.events - ids, at)
  {
    hide RipeLogins, RipeUses, RipeSessions, RipeDelivery;
  }

  lemma RipeAfter(db: Db, table: Table, victims: set<RowId>, at: int)
    requires Ripe(db, at)
    ensures Ripe(Delete(db, table, victims), at)
  {
    hide Ids, Keys, RipeLogins, RipeUses, RipeRecords, RipeOutbox, RipeSessions;
    RipeLoginsAfter(db, Ids(victims), at);
    RipeUsesAfter(db, Ids(victims), Keys(victims), at);
    RipeOutboxAfter(db, Ids(victims), at);
  }

  predicate Deferred(table: Table) { table.Revocations? || table.Audits? }

  /** The first `n` tables are empty, apart from the two that precede the rows that block them. */
  ghost predicate EmptyUpTo(db: Db, n: nat)
    requires n <= |TARGETS|
  {
    forall i :: 0 <= i < n && !Deferred(TARGETS[i]) ==> Rows(db, TARGETS[i]) == {}
  }

  lemma EmptyBefore(db: Db, table: Table, other: Table)
    requires EmptyUpTo(db, Position(table)) && Position(other) < Position(table) && !Deferred(other)
    ensures Rows(db, other) == {}
  {
    hide Rows;
  }

  lemma NoPlain(ids: set<Id>)
    ensures PlainRows(ids) == {} ==> ids == {}
  {
    if ids != {} {
      var i := Pick(ids);
      assert Plain(i) in PlainRows(ids);
    }
  }

  lemma NoPair(keys: set<Key>)
    ensures PairRows(keys) == {} ==> keys == {}
  {
    if keys != {} {
      var k := Pick(keys);
      assert Pair(k) in PairRows(keys);
    }
  }

  lemma BookkeepingDoomed(db: Db, table: Table, at: int)
    requires Ripe(db, at) && (table.Ceremonies? || table.Logins? || table.LogoutTxs? || table.Assertions?
             || table.Rates?)
    requires table.Logins? ==> db.ceremonies == map[]
    ensures DoomedRows(db, table, at) == Rows(db, table)
  {
    hide RipeDelivery, DoomedDelivery, DoomedEvent, DoomedSession, ExpiredParent;
  }

  lemma DeliveriesDoomed(p: Policy, db: Db, at: int)
    requires Ripe(db, at) && DeliveryRefs(db.deliveries, db.events) && RowsOk(p, db.deliveries)
    ensures DoomedRows(db, Deliveries, at) == Rows(db, Deliveries)
  {
    hide DoomedEvent, DoomedSession, ExpiredParent;
  }

  lemma EventsDoomed(db: Db, at: int)
    requires Ripe(db, at) && db.deliveries == map[]
    ensures DoomedRows(db, Events, at) == Rows(db, Events)
  {
    hide DoomedDelivery, DoomedSession, ExpiredParent;
  }

  lemma RipeParent(db: Db, sso: Id, at: int)
    requires Ripe(db, at) && db.events == map[] && sso in db.sessions
    ensures ExpiredParent(db, sso, at)
  {
    hide RipeDelivery;
  }

  lemma EvidenceDoomed(db: Db, table: Table, at: int)
    requires Ripe(db, at) && db.events == map[] && Refs(db)
    requires table.Tokens? || table.CodeContexts? || table.Codes? || table.ClientSessions? || table.Contexts?
    requires table.Codes? ==> db.tokens == map[] && db.codeContexts == map[]
    requires table.ClientSessions? ==> db.codes == map[]
    ensures DoomedRows(db, table, at) == Rows(db, table)
  {
    hide Ripe, ExpiredParent;
    forall sso | sso in db.sessions ensures ExpiredParent(db, sso, at) { RipeParent(db, sso, at); }
  }

  lemma SessionsDoomed(db: Db, at: int)
    requires Ripe(db, at) && db.events == map[] && db.clientSessions == map[] && db.contexts == map[]
             && db.logoutTxs == map[]
    ensures DoomedRows(db, Sessions, at) == Rows(db, Sessions)
  {
    hide Ripe, ExpiredParent;
    forall sso | sso in db.sessions ensures ExpiredParent(db, sso, at) { RipeParent(db, sso, at); }
  }

  lemma DeferredDoomed(db: Db, table: Table, at: int)
    requires Ripe(db, at) && Deferred(table) && db.events == map[] && db.sessions == map[]
    ensures DoomedRows(db, table, at) == Rows(db, table)
  {
    hide RipeDelivery, DoomedDelivery, DoomedEvent, DoomedSession, ExpiredParent;
  }

  /** A table whose blockers are gone can lose every row. */
  lemma WholeTableDoomed(p: Policy, w: World, table: Table, at: int)
    requires Inv(p, w) && Ripe(w.db, at)
    requires if Deferred(table) then Rows(w.db, Events) == {} && Rows(w.db, Sessions) == {}
             else EmptyUpTo(w.db, Position(table))
    ensures DoomedRows(w.db, table, at) == Rows(w.db, table)
  {
    hide Inv, Ripe, DoomedRows, Rows, Refs, DeliveryRefs, RowsOk, EmptyUpTo;
    InvRefs(p, w);
    RowFacts(p, w);
    match table
    case Revocations | Audits =>
      GoneRows(w.db);
      DeferredDoomed(w.db, table, at);
    case Deliveries => DeliveriesDoomed(p, w.db, at);
    case Events =>
      EmptyBefore(w.db, table, Deliveries);
      GoneRows(w.db);
      EventsDoomed(w.db, at);
    case Tokens | CodeContexts | Codes | ClientSessions | Contexts =>
      EmptyBefore(w.db, table, Events);
      if table.Codes? { EmptyBefore(w.db, table, Tokens); EmptyBefore(w.db, table, CodeContexts); }
      if table.ClientSessions? { EmptyBefore(w.db, table, Codes); }
      GoneRows(w.db);
      EvidenceDoomed(w.db, table, at);
    case Sessions =>
      EmptyBefore(w.db, table, Events);
      EmptyBefore(w.db, table, ClientSessions);
      EmptyBefore(w.db, table, Contexts);
      EmptyBefore(w.db, table, LogoutTxs);
      GoneRows(w.db);
      SessionsDoomed(w.db, at);
    case _ =>
      if table.Logins? { EmptyBefore(w.db, table, Ceremonies); }
      GoneRows(w.db);
      BookkeepingDoomed(w.db, table, at);
  }

  /** No rows, empty table. */
  lemma GoneRows(db: Db)
    ensures Rows(db, Ceremonies) == {} ==> db.ceremonies == map[]
    ensures Rows(db, LogoutTxs) == {} ==> db.logoutTxs == map[]
    ensures Rows(db, Deliveries) == {} ==> db.deliveries == map[]
    ensures Rows(db, Events) == {} ==> db.events == map[]
    ensures Rows(db, Tokens) == {} ==> db.tokens == map[]
    ensures Rows(db, CodeContexts) == {} ==> db.codeContexts == map[]
    ensures Rows(db, Codes) == {} ==> db.codes == map[]
    ensures Rows(db, ClientSessions) == {} ==> db.clientSessions == map[]
    ensures Rows(db, Contexts) == {} ==> db.contexts == map[]
    ensures Rows(db, Sessions) == {} ==> db.sessions == map[]
  {
    hide PlainRows, PairRows;
    forall ids ensures PlainRows(ids) == {} ==> ids == {} { NoPlain(ids); }
    forall keys ensures PairRows(keys) == {} ==> keys == {} { NoPair(keys); }
  }

  lemma RowFacts(p: Policy, w: World)
    requires Inv(p, w)
    ensures DeliveryRefs(w.db.deliveries, w.db.events) && RowsOk(p, w.db.deliveries)
  {
    hide AccountInv, EventInv, SentOk, LoginInv, RegistrationsOnce, CodeInv, SessionCap, ClientSessionCap,
      AssertionsKept, ViewInv, NotifiedRevoked, UsedHistory, UsedIds, RowsOk, DeliveryRefs, UniqueRows, DeadlinesAgree,
      LeasesMatch, InFlightBound;
  }

  /** A quiescent database stays quiescent while it is collected. */
  lemma {:induction false} RipeCut(p: Policy, at: int, ws: seq<World>, picks: seq<set<RowId>>, i: nat, bound: int)
    requires IsPass(p, at, ws, picks) && i <= |TARGETS| && Ripe(ws[0].db, bound)
    ensures Ripe(ws[i].db, bound)
  {
    hide Ripe, IsPass, AfterCollect, DoomedRows, Delete;
    PassBounds(p, at, ws, picks);
    if i > 0 {
      RipeCut(p, at, ws, picks, i - 1, bound);
      CutLegal(p, at, ws, picks, i - 1);
      SameClock(ws[i - 1], TARGETS[i - 1], picks[i - 1]);
      RipeAfter(ws[i - 1].db, TARGETS[i - 1], picks[i - 1], bound);
    }
  }

  /** A pass that does not use up its budget takes every doomed row of every table it visits. */
  lemma TakesAll(p: Policy, at: int, ws: seq<World>, picks: seq<set<RowId>>, i: nat)
    requires IsPass(p, at, ws, picks) && i < |TARGETS| && Taken(picks, |TARGETS|) < p.gcBatch
    ensures picks[i] == DoomedRows(ws[i].db, TARGETS[i], at)
  {
    hide IsPass, AfterCollect, DoomedRows;
    PassBounds(p, at, ws, picks);
    CutLegal(p, at, ws, picks, i);
    TakenGrows(picks, i + 1, |TARGETS|);
    WholeSet(picks[i], DoomedRows(ws[i].db, TARGETS[i], at));
  }

  lemma WholeSet<T>(a: set<T>, b: set<T>)
    requires a <= b && |a| >= |b|
    ensures a == b
  {
    assert b == a + (b - a);
  }

  /** Deleting from the next table keeps the earlier ones empty, and empties that one too if all of it goes. */
  lemma EmptyExtends(db: Db, i: nat, victims: set<RowId>)
    requires i < |TARGETS| && EmptyUpTo(db, i) && victims <= Rows(db, TARGETS[i])
    requires Deferred(TARGETS[i]) || victims == Rows(db, TARGETS[i])
    ensures EmptyUpTo(Delete(db, TARGETS[i], victims), i + 1)
  {
    hide Rows, Delete;
    forall j | 0 <= j < i + 1 && !Deferred(TARGETS[j]) ensures Rows(Delete(db, TARGETS[i], victims), TARGETS[j]) == {} {
      RowsAfter(db, TARGETS[i], victims, TARGETS[j]);
    }
  }

  lemma EmptyAtStart(db: Db)
    ensures EmptyUpTo(db, 0)
  {
  }

  /** After a pass with budget to spare only revocations and retry audits can be left. */
  lemma {:induction false} SparePassEmpties(p: Policy, at: int, ws: seq<World>, picks: seq<set<RowId>>, i: nat)
    requires IsPass(p, at, ws, picks) && i <= |TARGETS| && Taken(picks, |TARGETS|) < p.gcBatch
    requires Inv(p, ws[0]) && at <= ws[0].now && Ripe(ws[0].db, at)
    ensures EmptyUpTo(ws[i].db, i)
  {
    hide Inv, Ripe, IsPass, AfterCollect, DoomedRows, Delete, Rows, EmptyUpTo, Refs;
    PassBounds(p, at, ws, picks);
    if i == 0 {
      EmptyAtStart(ws[0].db);
    } else {
      SparePassEmpties(p, at, ws, picks, i - 1);
      var w, table := ws[i - 1], TARGETS[i - 1];
      CutLegal(p, at, ws, picks, i - 1);
      CutSafe(p, at, ws, picks, i - 1);
      RipeCut(p, at, ws, picks, i - 1, at);
      TakesAll(p, at, ws, picks, i - 1);
      SameClock(w, table, picks[i - 1]);
      VictimsStored(w.db, table, at, picks[i - 1]);
      if !Deferred(table) { WholeTableDoomed(p, w, table, at); }
      EmptyExtends(w.db, i - 1, picks[i - 1]);
    }
  }

  /** Once a spare pass has emptied the others, the next one also takes every revocation and retry audit. */
  lemma {:induction false} SecondSparePass(p: Policy, at: int, ws: seq<World>, picks: seq<set<RowId>>, i: nat)
    requires IsPass(p, at, ws, picks) && i <= |TARGETS| && Taken(picks, |TARGETS|) < p.gcBatch
    requires Inv(p, ws[0]) && at <= ws[0].now && Ripe(ws[0].db, at) && EmptyUpTo(ws[0].db, |TARGETS|)
    ensures EmptyUpTo(ws[i].db, |TARGETS|) && SizeUpTo(ws[i].db, i) == 0
  {
    hide Inv, Ripe, IsPass, AfterCollect, DoomedRows, Delete, Rows, EmptyUpTo, Refs;
    PassBounds(p, at, ws, picks);
    if i > 0 {
      SecondSparePass(p, at, ws, picks, i - 1);
      var w, table := ws[i - 1], TARGETS[i - 1];
      CutLegal(p, at, ws, picks, i - 1);
      CutSafe(p, at, ws, picks, i - 1);
      RipeCut(p, at, ws, picks, i - 1, at);
      TakesAll(p, at, ws, picks, i - 1);
      SameClock(w, table, picks[i - 1]);
      VictimsStored(w.db, table, at, picks[i - 1]);
      if Deferred(table) {
        EmptyThere(w.db, Events);
        EmptyThere(w.db, Sessions);
        WholeTableDoomed(p, w, table, at);
      } else {
        EmptyThere(w.db, table);
      }
      RowsAfter(w.db, table, picks[i - 1], table);
      EmptyStays(w.db, table, picks[i - 1]);
      DeleteSize(w.db, table, picks[i - 1], i - 1);
    }
  }

  lemma EmptyThere(db: Db, table: Table)
    requires EmptyUpTo(db, |TARGETS|) && !Deferred(table)
    ensures Rows(db, table) == {}
  {
    hide Rows;
    assert TARGETS[Position(table)] == table;
  }

  lemma EmptyStays(db: Db, table: Table, victims: set<RowId>)
    requires EmptyUpTo(db, |TARGETS|) && victims <= Rows(db, table)
    ensures EmptyUpTo(Delete(db, table, victims), |TARGETS|)
  {
    hide Rows, Delete;
    forall j | 0 <= j < |TARGETS| && !Deferred(TARGETS[j]) ensures Rows(Delete(db, table, victims), TARGETS[j]) == {} {
      RowsAfter(db, table, victims, TARGETS[j]);
    }
  }

  /** Some pass at `at` leads from `w` to `w'` and deletes `count` rows. */
  ghost predicate Passes(p: Policy, at: int, w: World, w': World, count: nat) {
    exists ws, picks :: IsPass(p, at, ws, picks) && ws[0] == w && ws[|TARGETS|] == w'
      && Taken(picks, |TARGETS|) == count
  }

  lemma CutsOf(p: Policy, at: int, w: World, w': World, count: nat) returns (ws: seq<World>, picks: seq<set<RowId>>)
    requires Passes(p, at, w, w', count)
    ensures IsPass(p, at, ws, picks) && |ws| == |TARGETS| + 1 && |picks| == |TARGETS|
    ensures ws[0] == w && ws[|TARGETS|] == w' && Taken(picks, |TARGETS|) == count
  {
    hide Cut, Taken;
    ws, picks :| IsPass(p, at, ws, picks) && ws[0] == w && ws[|TARGETS|] == w' && Taken(picks, |TARGETS|) == count;
  }

  lemma {:induction false} EmptyKept(p: Policy, at: int, ws: seq<World>, picks: seq<set<RowId>>, i: nat)
    requires IsPass(p, at, ws, picks) && i <= |TARGETS| && EmptyUpTo(ws[0].db, |TARGETS|)
    ensures EmptyUpTo(ws[i].db, |TARGETS|)
  {
    hide IsPass, AfterCollect, DoomedRows, Delete, Rows, EmptyUpTo;
    PassBounds(p, at, ws, picks);
    if i > 0 {
      EmptyKept(p, at, ws, picks, i - 1);
      CutLegal(p, at, ws, picks, i - 1);
      SameClock(ws[i - 1], TARGETS[i - 1], picks[i - 1]);
      VictimsStored(ws[i - 1].db, TARGETS[i - 1], at, picks[i - 1]);
      EmptyStays(ws[i - 1].db, TARGETS[i - 1], picks[i - 1]);
    }
  }

  /** What one pass over a quiescent database achieves. */
  lemma PassProgress(p: Policy, at: int, w: World, w': World, count: nat, bound: int)
    requires Passes(p, at, w, w', count) && Inv(p, w) && bound <= at <= w.now && Ripe(w.db, bound)
    ensures Inv(p, w') && w'.now == w.now && Ripe(w'.db, bound)
    ensures count <= p.gcBatch && Size(w'.db) + count == Size(w.db)
    ensures count < p.gcBatch ==> EmptyUpTo(w'.db, |TARGETS|)
    ensures EmptyUpTo(w.db, |TARGETS|) ==> EmptyUpTo(w'.db, |TARGETS|)
    ensures count < p.gcBatch && EmptyUpTo(w.db, |TARGETS|) ==> Size(w'.db) == 0
  {
    hide Inv, Ripe, IsPass, EmptyUpTo, SizeUpTo, Refs, Taken;
    var ws, picks := CutsOf(p, at, w, w', count);
    PassBounds(p, at, ws, picks);
    CutSafe(p, at, ws, picks, |TARGETS|);
    RipeCut(p, at, ws, picks, |TARGETS|, bound);
    BudgetKept(p, at, ws, picks, |TARGETS|);
    PassSize(p, at, ws, picks, |TARGETS|);
    RipeLater(w.db, bound, at);
    if count < p.gcBatch { SparePassEmpties(p, at, ws, picks, |TARGETS|); }
    if EmptyUpTo(w.db, |TARGETS|) { EmptyKept(p, at, ws, picks, |TARGETS|); }
    if count < p.gcBatch && EmptyUpTo(w.db, |TARGETS|) { SecondSparePass(p, at, ws, picks, |TARGETS|); }
  }

  lemma RipeLater(db: Db, at: int, later: int)
    requires Ripe(db, at) && at <= later
    ensures Ripe(db, later)
  {
  }

  lemma SameRowsEmpty(p: Policy, at: int, ws: seq<World>, picks: seq<set<RowId>>, i: nat)
    requires IsPass(p, at, ws, picks) && i <= |TARGETS| && Taken(picks, |TARGETS|) == 0
    ensures forall table :: Rows(ws[i].db, table) == Rows(ws[0].db, table)
  {
    hide IsPass, AfterCollect, DoomedRows, Delete, Rows;
    PassBounds(p, at, ws, picks);
    if i > 0 {
      SameRowsEmpty(p, at, ws, picks, i - 1);
      CutLegal(p, at, ws, picks, i - 1);
      TakenGrows(picks, i, |TARGETS|);
      assert picks[i - 1] == {};
      SameClock(ws[i - 1], TARGETS[i - 1], picks[i - 1]);
      VictimsStored(ws[i - 1].db, TARGETS[i - 1], at, picks[i - 1]);
      forall table ensures Rows(ws[i].db, table) == Rows(ws[i - 1].db, table) {
        RowsAfter(ws[i - 1].db, TARGETS[i - 1], picks[i - 1], table);
      }
    }
  }

  lemma EmptySame(db: Db, db': Db)
    requires forall table :: Rows(db', table) == Rows(db, table)
    ensures EmptyUpTo(db', |TARGETS|) ==> EmptyUpTo(db, |TARGETS|)
  {
    hide Rows;
  }

  /** A pass over a quiescent database deletes nothing exactly when there is nothing left. */
  lemma CountZeroMeansEmpty(p: Policy, at: int, w: World, w': World, count: nat, bound: int)
    requires Passes(p, at, w, w', count) && Inv(p, w) && bound <= at <= w.now && Ripe(w.db, bound)
    ensures count == 0 <==> Size(w.db) == 0
  {
    hide Inv, Ripe, IsPass, EmptyUpTo, SizeUpTo, Taken, Rows;
    PassProgress(p, at, w, w', count, bound);
    var ws, picks := CutsOf(p, at, w, w', count);
    if count == 0 {
      SameRowsEmpty(p, at, ws, picks, |TARGETS|);
      EmptySame(w.db, w'.db);
    }
  }

  /** Repeated passes, each at its own time from `bound` on. */
  ghost predicate Rounds(p: Policy, bound: int, ats: seq<int>, rounds: seq<World>, counts: seq<nat>) {
    && |rounds| == |counts| + 1 && |ats| == |counts|
    && (forall k :: 0 <= k < |counts| ==> bound <= ats[k] <= rounds[0].now)
    && (forall k :: 0 <= k < |counts| ==> Passes(p, ats[k], rounds[k], rounds[k + 1], counts[k]))
  }

  /** How far k passes have got: everything gone, or all of them full, or all but one full and only the two
      deferred tables left. */
  lemma {:induction false} RoundsProgress(p: Policy, bound: int, ats: seq<int>, rounds: seq<World>, counts: seq<nat>,
                                          k: nat)
    requires Rounds(p, bound, ats, rounds, counts) && k <= |counts| && Inv(p, rounds[0]) && Ripe(rounds[0].db, bound)
    ensures Inv(p, rounds[k]) && rounds[k].now == rounds[0].now && Ripe(rounds[k].db, bound)
    ensures Size(rounds[k].db) == 0 || Size(rounds[k].db) + k * p.gcBatch == Size(rounds[0].db)
            || (EmptyUpTo(rounds[k].db, |TARGETS|) && Size(rounds[k].db) + (k - 1) * p.gcBatch <= Size(rounds[0].db))
  {
    hide Inv, Ripe, Passes, EmptyUpTo, SizeUpTo;
    if k > 0 {
      RoundsProgress(p, bound, ats, rounds, counts, k - 1);
      PassProgress(p, ats[k - 1], rounds[k - 1], rounds[k], counts[k - 1], bound);
      assert k * p.gcBatch == (k - 1) * p.gcBatch + p.gcBatch && (k - 1) * p.gcBatch == (k - 2) * p.gcBatch + p.gcBatch;
    }
  }

  /** Every non-empty quiescent database strictly shrinks; each pass deletes nothing exactly when nothing is left;
      and n / gc_batch_size + 2 passes empty n rows, although two tables precede the rows that block them. */
  lemma CollectionConverges(p: Policy, bound: int, ats: seq<int>, rounds: seq<World>, counts: seq<nat>)
    requires Rounds(p, bound, ats, rounds, counts) && Inv(p, rounds[0]) && Ripe(rounds[0].db, bound)
    ensures forall k :: 0 <= k < |counts| ==>
              Size(rounds[k + 1].db) == Size(rounds[k].db) - counts[k]
              && (counts[k] == 0 <==> Size(rounds[k].db) == 0)
    ensures |counts| >= Size(rounds[0].db) / p.gcBatch + 2 ==> Size(rounds[|counts|].db) == 0
  {
    hide Inv, Ripe, Passes, EmptyUpTo, SizeUpTo, Rounds;
    assert |rounds| == |counts| + 1 by { RoundBounds(p, bound, ats, rounds, counts); }
    forall k | 0 <= k < |counts|
      ensures Size(rounds[k + 1].db) == Size(rounds[k].db) - counts[k] && (counts[k] == 0 <==> Size(rounds[k].db) == 0)
    {
      RoundBounds(p, bound, ats, rounds, counts);
      RoundsProgress(p, bound, ats, rounds, counts, k);
      PassProgress(p, ats[k], rounds[k], rounds[k + 1], counts[k], bound);
      CountZeroMeansEmpty(p, ats[k], rounds[k], rounds[k + 1], counts[k], bound);
    }
    RoundsProgress(p, bound, ats, rounds, counts, |counts|);
    EnoughRounds(Size(rounds[0].db), |counts|, p.gcBatch);
  }

  lemma RoundBounds(p: Policy, bound: int, ats: seq<int>, rounds: seq<World>, counts: seq<nat>)
    requires Rounds(p, bound, ats, rounds, counts)
    ensures |rounds| == |counts| + 1 && |ats| == |counts|
    ensures forall k :: 0 <= k < |counts| ==>
              bound <= ats[k] <= rounds[0].now
              && Passes(p, ats[k], rounds[k], rounds[k + 1], counts[k])
  {
    hide Passes;
  }

  lemma EnoughRounds(n: nat, k: nat, batch: int)
    requires batch > 0
    ensures k >= n / batch + 2 ==> k * batch > n && (k - 1) * batch > n
  {
    if k >= n / batch + 2 {
      assert (k - 1) * batch >= (n / batch + 1) * batch;
      assert (n / batch + 1) * batch == n / batch * batch + batch;
      assert n == n / batch * batch + n % batch;
      assert k * batch == (k - 1) * batch + batch;
    }
  }

  // ---------------------------------------------------------------- building a pass cut by cut

  /** The first |picks| deletions of a pass. */
  ghost predicate PassSoFar(p: Policy, at: int, ws: seq<World>, picks: seq<set<RowId>>) {
    && |picks| <= |TARGETS| && |ws| == |picks| + 1
    && forall i :: 0 <= i < |picks| ==> Cut(p, at, ws, picks, i)
  }

  /** One more deletion. */
  lemma NextCut(p: Policy, at: int, ws: seq<World>, picks: seq<set<RowId>>, pick: set<RowId>)
    requires PassSoFar(p, at, ws, picks) && |picks| < |TARGETS| && Taken(picks, |picks|) <= p.gcBatch
    requires LimitOf(pick, DoomedRows(ws[|picks|].db, TARGETS[|picks|], at), p.gcBatch - Taken(picks, |picks|))
    ensures PassSoFar(p, at, ws + [AfterCollect(ws[|picks|], TARGETS[|picks|], pick)], picks + [pick])
    ensures Taken(picks + [pick], |picks| + 1) == Taken(picks, |picks|) + |pick|
  {
    hide DoomedRows, AfterCollect, LimitOf;
    var n := |picks|;
    var picks' := picks + [pick];
    var ws' := ws + [AfterCollect(ws[n], TARGETS[n], pick)];
    forall i | 0 <= i < |picks'| ensures Cut(p, at, ws', picks', i) {
      TakenPrefix(picks, pick, i);
      assert i < n ==> Cut(p, at, ws, picks, i);
      assert ws'[i] == ws[i] && (i < n ==> ws'[i + 1] == ws[i + 1] && picks'[i] == picks[i]);
    }
    TakenPrefix(picks, pick, n);
  }

  lemma DeleteNothing(db: Db, table: Table)
    ensures Delete(db, table, {}) == db
  {
    assert Ids({}) == {} && Keys({}) == {};
    hide Ids, Keys;
  }

  lemma TakeNothing(p: Policy, at: int, w: World, table: Table)
    ensures LimitOf({}, DoomedRows(w.db, table, at), 0) && AfterCollect(w, table, {}) == w
  {
    assert Ids({}) == {} && w.h.sent - {} == w.h.sent;
    hide DoomedRows, Ids, Delete;
    DeleteNothing(w.db, table);
  }

  /** Once the budget is spent the remaining deletions take nothing. */
  lemma {:induction false} RestEmpty(p: Policy, at: int, ws: seq<World>, picks: seq<set<RowId>>)
    requires PassSoFar(p, at, ws, picks) && Taken(picks, |picks|) <= p.gcBatch
    requires |picks| < |TARGETS| ==> Taken(picks, |picks|) == p.gcBatch
    ensures Passes(p, at, ws[0], ws[|picks|], Taken(picks, |picks|))
    decreases |TARGETS| - |picks|
  {
    hide AfterCollect, DoomedRows, Cut, LimitOf;
    var n := |picks|;
    if n < |TARGETS| {
      TakeNothing(p, at, ws[n], TARGETS[n]);
      NextCut(p, at, ws, picks, {});
      RestEmpty(p, at, ws + [ws[n]], picks + [{}]);
    } else {
      assert IsPass(p, at, ws, picks);
    }
  }
}
