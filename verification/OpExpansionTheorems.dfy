/** Progress of account expansion while everything else goes on: until an account is revoked again, no step of any kind
    adds work for it, so the number of expansion calls that are needed does not depend on what is interleaved. */
module OpExpansionTheorems {
  import opened Wrappers
  import opened RuntimePolicy
  import opened RetryTiming
  import opened Sets
  import opened OpTables
  import opened OpBatches
  import opened OpGc
  import opened OpMachine
  import opened OpInvariants
  import opened OpFrames
  import opened OpDeliveryTheorems
  import opened OpEventTheorems
  import opened OpAccountTheorems
  import opened OpRemovalTheorems

  // ---------------------------------------------------------------- which steps touch the revocations

  /** Every open revocation was open before. */
  ghost predicate NoneOpened(revocations: map<Id, Revocation>, revocations': map<Id, Revocation>) {
    forall r :: r in revocations' && !revocations'[r].expanded ==> r in revocations && revocations[r] == revocations'[r]
  }

  lemma MarkingOpensNone(db: Db)
    ensures NoneOpened(db.revocations, MarkExpanded(db).revocations)
  {
    hide FullyExpanded;
  }

  lemma ExpandRevocations(p: Policy, w: World, chosen: set<Id>)
    requires chosen <= Uncovered(w.db)
    ensures NoneOpened(w.db.revocations, AfterExpand(p, w, chosen).db.revocations)
  {
    hide Uncovered, MarkExpanded, ExpandedEventRow;
    assert NoneOpened(w.db.revocations, w.db.revocations);
    hide NoneOpened;
    var inserted := InsertExpanded(p, w.db, chosen);
    if inserted.Some? { MarkingOpensNone(inserted.value); }
  }

  lemma CollectRevocations(w: World, table: Table, victims: set<RowId>)
    ensures NoneOpened(w.db.revocations, AfterCollect(w, table, victims).db.revocations)
  {
    hide Ids, Keys;
  }

  lemma NoneOpenedStep(p: Policy, w: World, s: Step)
    requires Enabled(p, w, s) && !s.RevokeAccount?
    ensures NoneOpened(w.db.revocations, Apply(p, w, s).db.revocations)
  {
    assert NoneOpened(w.db.revocations, w.db.revocations);
    hide Apply, Enabled, AfterExpand, AfterCollect, NoneOpened;
    OutboxFrame(p, w, s);
    if s.Expand? {
      ExpandStep(p, w, s);
      ExpandRevocations(p, w, s.chosen);
    } else if s.Collect? {
      CollectStep(p, w, s);
      CollectRevocations(w, s.table, s.victims);
    }
  }

  // ---------------------------------------------------------------- no step adds work

  /** An open revocation covers no session that it did not cover before. */
  lemma CoverageClosed(p: Policy, w: World, s: Step, r: Id, sso: Id)
    requires Inv(p, w) && Enabled(p, w, s) && r in w.db.revocations
    requires sso in Apply(p, w, s).db.sessions && Covers(w.db.revocations[r], Apply(p, w, s).db.sessions[sso])
    ensures sso in w.db.sessions && Covers(w.db.revocations[r], w.db.sessions[sso])
  {
    hide Inv, Apply, Enabled, WritesSessions;
    var revocation, w' := w.db.revocations[r], Apply(p, w, s);
    RevokedEpochLeft(p, w, r);
    assert sso in CoveredSessions(w'.db.sessions, revocation.account, revocation.through);
    if WritesSessions(s) {
      WriterCloses(p, w, s, revocation.account, revocation.through);
    } else {
      SessionFrame(p, w, s);
    }
    assert sso in CoveredSessions(w.db.sessions, revocation.account, revocation.through);
  }

  /** The event of a session that an open revocation covers stays. */
  lemma EventKept(p: Policy, w: World, s: Step, r: Id, sso: Id)
    requires Enabled(p, w, s) && r in w.db.revocations && !w.db.revocations[r].expanded
    requires sso in w.db.sessions && Covers(w.db.revocations[r], w.db.sessions[sso]) && HasEvent(w.db.events, sso)
    ensures HasEvent(Apply(p, w, s).db.events, sso)
  {
    hide Apply, Enabled, Covers;
    var e :| e in w.db.events && w.db.events[e].sso == sso;
    assert Pursued(w.db, sso);
    var w' := Apply(p, w, s);
    if e !in w'.db.events { EventRemoved(p, w, s, e); }
    EventsAgeStep(p, w, s);
    assert e in w'.db.events && w'.db.events[e].sso == sso;
  }

  /** Apart from revoking an account, no step adds an uncovered session. */
  lemma NothingUncovered(p: Policy, w: World, s: Step)
    requires Inv(p, w) && Enabled(p, w, s) && (s.RevokeAccount? ==> Apply(p, w, s) == w)
    ensures Uncovered(Apply(p, w, s).db) <= Uncovered(w.db)
  {
    hide Inv, Apply, Enabled, HasEvent, Covers;
    if !s.RevokeAccount? {
      var w' := Apply(p, w, s);
      NoneOpenedStep(p, w, s);
      forall sso | sso in Uncovered(w'.db) ensures sso in Uncovered(w.db) {
        var r := Pick(Pursuing(w'.db.revocations, w'.db.sessions[sso]).Keys);
        assert r in w.db.revocations && w.db.revocations[r] == w'.db.revocations[r];
        CoverageClosed(p, w, s, r, sso);
        if HasEvent(w.db.events, sso) { EventKept(p, w, s, r, sso); }
        assert r in Pursuing(w.db.revocations, w.db.sessions[sso]);
      }
    }
  }

  // ---------------------------------------------------------------- expansion under any interleaving

  /** No account is revoked between i and j; other requests, scheduled runs and operators go on. */
  ghost predicate NoneRevoked(states: seq<World>, steps: seq<Step>, i: nat, j: nat)
    requires i <= j <= |steps| && |states| == |steps| + 1
  {
    forall k :: i <= k < j && steps[k].RevokeAccount? ==> states[k + 1] == states[k]
  }

  /** Number of expansion calls between i and j. */
  function Calls(steps: seq<Step>, i: nat, j: nat): nat
    requires i <= j <= |steps|
  {
    if i == j then 0 else Calls(steps, i, j - 1) + if steps[j - 1].Expand? then 1 else 0
  }

  lemma CallCount(left: nat, n: nat, k: nat, batch: int, taken: nat)
    requires batch > 0 && left <= Max(0, n - k * batch) && taken == Max(0, left - batch)
    ensures taken <= Max(0, n - (k + 1) * batch)
  {
    assert (k + 1) * batch == k * batch + batch;
  }

  /** k expansion calls leave at most n - k * fanout_batch_size of n uncovered sessions, whatever happens between
      them. */
  lemma {:induction false} UncoveredBounded(p: Policy, states: seq<World>, steps: seq<Step>, i: nat, j: nat)
    requires IsRun(p, states, steps) && Initial(states[0]) && i <= j <= |steps| && |states| == |steps| + 1
    requires NoneRevoked(states, steps, i, j)
    ensures |Uncovered(states[j].db)| <= Max(0, |Uncovered(states[i].db)| - Calls(steps, i, j) * p.fanoutBatch)
    decreases j
  {
    hide Inv, Initial, IsRun, Apply, Enabled, Uncovered, AfterExpand, LimitOf;
    if i < j {
      UncoveredBounded(p, states, steps, i, j - 1);
      RunStep(p, states, steps, j - 1);
      var before, after := Uncovered(states[j - 1].db), Uncovered(states[j].db);
      if steps[j - 1].Expand? {
        ExpandStep(p, states[j - 1], steps[j - 1]);
        ExpandUncovers(p, states[j - 1], steps[j - 1].chosen);
        ChosenCard(before, steps[j - 1].chosen, p.fanoutBatch);
        CallCount(|before|, |Uncovered(states[i].db)|, Calls(steps, i, j - 1), p.fanoutBatch, |after|);
      } else {
        NothingUncovered(p, states[j - 1], steps[j - 1]);
        SubsetCard(after, before);
      }
    } else {
      assert 0 * p.fanoutBatch == 0;
    }
  }

  ghost predicate AllExpanded(db: Db) {
    forall r :: r in db.revocations ==> db.revocations[r].expanded
  }

  /** Once the calls since state i have had room for the n sessions then uncovered, every revocation is expanded, and
      stays so until an account is revoked again. */
  lemma {:induction false} ExpansionFinishes(p: Policy, states: seq<World>, steps: seq<Step>, i: nat, j: nat)
    requires IsRun(p, states, steps) && Initial(states[0]) && i <= j <= |steps| && |states| == |steps| + 1
    requires NoneRevoked(states, steps, i, j)
    requires Calls(steps, i, j) >= 1 && |Uncovered(states[i].db)| <= Calls(steps, i, j) * p.fanoutBatch
    ensures AllExpanded(states[j].db)
    decreases j
  {
    hide Inv, Initial, IsRun, Apply, Enabled, Uncovered, AfterExpand;
    RunStep(p, states, steps, j - 1);
    if steps[j - 1].Expand? {
      UncoveredBounded(p, states, steps, i, j);
      ExpandStep(p, states[j - 1], steps[j - 1]);
      DoneMeansExpanded(p, states[j - 1], steps[j - 1].chosen);
    } else {
      ExpansionFinishes(p, states, steps, i, j - 1);
      if !steps[j - 1].RevokeAccount? { NoneOpenedStep(p, states[j - 1], steps[j - 1]); }
    }
  }
}
