/** Progress of fanout while everything else goes on: until another event is created, no step of any kind adds a missing
    delivery row, so the number of fanout calls that are needed does not depend on what is interleaved. */
module OpFanoutTheorems {
  import opened Wrappers
  import opened RuntimePolicy
  import opened RetryTiming
  import opened Sets
  import opened OpTables
  import opened OpBatches
  import opened OpGc
  import opened OpMachine
  import opened OpInvariants
  import opened OpStepsDelivery
  import opened OpFrames
  import opened OpDeliveryTheorems
  import opened OpEventTheorems
  import opened OpAccountTheorems
  import opened OpRemovalTheorems
  import opened OpExpansionTheorems

  /** Event e still lacks the row of client session k. */
  ghost predicate Missing(db: Db, e: Id, k: Key) {
    e in db.events && !db.events[e].expanded && Member(db.clientSessions, db.events[e].sso, k)
      && !HasDelivery(db.deliveries, e, k)
  }

  lemma MissingExactly(db: Db, e: Id, k: Key)
    ensures (e, k) in MissingRows(db) <==> Missing(db, e, k)
  {
    hide HasDelivery;
  }

  /** A row of an event that is not fully fanned out stays. */
  lemma RowStays(p: Policy, w: World, s: Step, e: Id, k: Key)
    requires Enabled(p, w, s) && e in w.db.events && !w.db.events[e].expanded && HasDelivery(w.db.deliveries, e, k)
    ensures HasDelivery(Apply(p, w, s).db.deliveries, e, k)
  {
    hide Apply, Enabled;
    var d :| d in w.db.deliveries && w.db.deliveries[d].event == e && w.db.deliveries[d].key == k;
    var w' := Apply(p, w, s);
    if d !in w'.db.deliveries { DeliveryRemoved(p, w, s, d); }
    DeliveredAbsorbs(p, w, s);
    assert d in w'.db.deliveries && w'.db.deliveries[d].event == e && w'.db.deliveries[d].key == k;
  }

  lemma MissedBefore(p: Policy, w: World, s: Step, e: Id, k: Key)
    requires Inv(p, w) && Enabled(p, w, s) && e in w.db.events && Missing(Apply(p, w, s).db, e, k)
    ensures Missing(w.db, e, k)
  {
    hide Inv, Apply, Enabled, HasDelivery, Dead;
    EventsAgeStep(p, w, s);
    MembershipFrozenStep(p, w, s, e);
    if HasDelivery(w.db.deliveries, e, k) { RowStays(p, w, s, e, k); }
  }

  /** Apart from creating an event, no step adds a missing row: the members of a stored event are frozen, and the rows
      of an event that still lacks some are not collected. */
  lemma NothingMissing(p: Policy, w: World, s: Step)
    requires Inv(p, w) && Enabled(p, w, s) && Apply(p, w, s).db.events.Keys <= w.db.events.Keys
    ensures MissingRows(Apply(p, w, s).db) <= MissingRows(w.db)
  {
    hide Inv, Apply, Enabled, MissingRows;
    var w' := Apply(p, w, s);
    forall x | x in MissingRows(w'.db) ensures x in MissingRows(w.db) {
      var (e, k) := x;
      MissingExactly(w'.db, e, k);
      MissedBefore(p, w, s, e, k);
      MissingExactly(w.db, e, k);
    }
  }

  /** The combinations for which a fanout inserts rows. */
  function Chosen(rows: map<Id, (Id, Key)>): set<(Id, Key)> { set d | d in rows :: rows[d] }

  lemma ChosenFilled(w: World, rows: map<Id, (Id, Key)>)
    requires forall d :: d in rows ==> rows[d].0 in w.db.events
    ensures MissingRows(AfterFanout(w, rows).db) !! Chosen(rows)
  {
    hide FannedOut;
    var db' := AfterFanout(w, rows).db;
    hide AfterFanout, MissingRows, HasDelivery;
    forall x | x in Chosen(rows) ensures x !in MissingRows(db') {
      var d :| d in rows && rows[d] == x;
      InsertedRow(w, rows, d);
      MissingExactly(db', x.0, x.1);
    }
  }

  lemma InsertedRow(w: World, rows: map<Id, (Id, Key)>, d: Id)
    requires d in rows && forall d :: d in rows ==> rows[d].0 in w.db.events
    ensures HasDelivery(AfterFanout(w, rows).db.deliveries, rows[d].0, rows[d].1)
  {
    hide FannedOut;
    var deliveries := AfterFanout(w, rows).db.deliveries;
    assert d in deliveries && deliveries[d].event == rows[d].0 && deliveries[d].key == rows[d].1;
  }

  /** An event left unflagged lacks a row. */
  lemma UnflaggedMisses(w: World, rows: map<Id, (Id, Key)>, e: Id)
    requires (forall d :: d in rows ==> rows[d].0 in w.db.events) && e in w.db.events
             && !AfterFanout(w, rows).db.events[e].expanded
    ensures MissingRows(AfterFanout(w, rows).db) != {}
  {
    hide NewDelivery, HasDelivery;
    var db1, db' := InsertDeliveries(w.db, rows), AfterFanout(w, rows).db;
    assert !FannedOut(db1, e);
    var k :| k in db1.clientSessions && db1.clientSessions[k].sso == db1.events[e].sso
      && !HasDelivery(db1.deliveries, e, k);
    assert Missing(db', e, k);
    hide MissingRows, AfterFanout;
    MissingExactly(db', e, k);
  }

  lemma FanoutAdds(p: Policy, w: World, rows: map<Id, (Id, Key)>)
    requires LegalFanout(p, w.db, rows) && forall d :: d in rows ==> rows[d].0 in w.db.events
    ensures LimitOf(Chosen(rows), MissingRows(w.db), p.fanoutBatch)
    ensures AfterFanout(w, rows).db.events.Keys == w.db.events.Keys
    ensures MissingRows(AfterFanout(w, rows).db) !! Chosen(rows)
    ensures MissingRows(AfterFanout(w, rows).db) == {} ==>
              forall e :: e in w.db.events ==> AfterFanout(w, rows).db.events[e].expanded
  {
    ChosenFilled(w, rows);
    hide MissingRows, FannedOut, NewDelivery;
    forall e | e in w.db.events && !AfterFanout(w, rows).db.events[e].expanded
      ensures MissingRows(AfterFanout(w, rows).db) != {}
    {
      UnflaggedMisses(w, rows, e);
    }
  }

  // ---------------------------------------------------------------- fanout under any interleaving

  /** No event is created between i and j. */
  ghost predicate NoneCreated(states: seq<World>, i: nat, j: nat)
    requires i <= j < |states|
  {
    forall k :: i <= k < j ==> states[k + 1].db.events.Keys <= states[k].db.events.Keys
  }

  /** Number of fanout calls between i and j. */
  function Fanouts(steps: seq<Step>, i: nat, j: nat): nat
    requires i <= j <= |steps|
  {
    if i == j then 0 else Fanouts(steps, i, j - 1) + if steps[j - 1].Fanout? then 1 else 0
  }

  /** k fanout calls leave at most n - k * fanout_batch_size of n missing rows, whatever happens between them. */
  lemma {:induction false} MissingBounded(p: Policy, states: seq<World>, steps: seq<Step>, i: nat, j: nat)
    requires IsRun(p, states, steps) && Initial(states[0]) && i <= j <= |steps| && |states| == |steps| + 1
    requires NoneCreated(states, i, j)
    ensures |MissingRows(states[j].db)| <= Max(0, |MissingRows(states[i].db)| - Fanouts(steps, i, j) * p.fanoutBatch)
    decreases j
  {
    hide Inv, Initial, IsRun, Apply, Enabled, MissingRows, AfterFanout, LegalFanout, LimitOf, Chosen;
    if i < j {
      MissingBounded(p, states, steps, i, j - 1);
      RunStep(p, states, steps, j - 1);
      var w, s := states[j - 1], steps[j - 1];
      var before, after := MissingRows(w.db), MissingRows(states[j].db);
      NothingMissing(p, w, s);
      if s.Fanout? {
        OpEventTheorems.FanoutStep(p, w, s);
        FanoutAdds(p, w, s.rows);
        ChosenCard(before, Chosen(s.rows), p.fanoutBatch);
        SubsetCard(after, before - Chosen(s.rows));
        CallCount(|before|, |MissingRows(states[i].db)|, Fanouts(steps, i, j - 1), p.fanoutBatch,
          |before - Chosen(s.rows)|);
      } else {
        SubsetCard(after, before);
      }
    } else {
      assert 0 * p.fanoutBatch == 0;
    }
  }

  ghost predicate AllFannedOut(db: Db) {
    forall e :: e in db.events ==> db.events[e].expanded
  }

  /** Once the calls since state i have had room for the n rows then missing, every event is fully fanned out, and stays
      so until another event is created. */
  lemma {:induction false} FanoutFinishes(p: Policy, states: seq<World>, steps: seq<Step>, i: nat, j: nat)
    requires IsRun(p, states, steps) && Initial(states[0]) && i <= j <= |steps| && |states| == |steps| + 1
    requires NoneCreated(states, i, j)
    requires Fanouts(steps, i, j) >= 1 && |MissingRows(states[i].db)| <= Fanouts(steps, i, j) * p.fanoutBatch
    ensures AllFannedOut(states[j].db)
    decreases j
  {
    hide Inv, Initial, IsRun, Apply, Enabled, MissingRows, AfterFanout, LegalFanout;
    RunStep(p, states, steps, j - 1);
    var w, s := states[j - 1], steps[j - 1];
    if s.Fanout? {
      MissingBounded(p, states, steps, i, j);
      OpEventTheorems.FanoutStep(p, w, s);
      FanoutAdds(p, w, s.rows);
    } else {
      FanoutFinishes(p, states, steps, i, j - 1);
      EventsAgeStep(p, w, s);
    }
  }
}
