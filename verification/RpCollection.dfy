/** Garbage collection of the relying party: invisible to sessions, within budget, and finished after exactly as many
    passes as the rows need. */
module RpCollection {
  import opened Wrappers
  import opened RuntimePolicy
  import opened Sets
  import opened RpTables

  /** Collection at `at` changes no session lookup, no login and no logout transaction at any later time, and unblocks
      no sid that has a session. */
  lemma CollectInvisible(db: Tables, table: Table, at: int, victims: set<Id>, t: int, hash: Id, state: Id, browser: Id)
    requires victims <= DoomedRows(db, table, at) && t >= at
    ensures var db' := Delete(db, table, victims);
            && (Current(db', hash, t) <==> Current(db, hash, t))
            && (Current(db, hash, t) ==> db'.appSessions[hash] == db.appSessions[hash])
            && (ConsumeLogin(db', state, browser, t).Some? <==> ConsumeLogin(db, state, browser, t).Some?)
            && (FinishLogout(db', state, browser, t).Some? <==> FinishLogout(db, state, browser, t).Some?)
            && (forall x :: x in db.appSessions && db.appSessions[x].sid in db.tombstones ==>
               db.appSessions[x].sid in db'.tombstones)
  {
    forall row | row in victims ensures row in Rows(db, table) && Doomed(db, table, row, at) {
      assert row in DoomedRows(db, table, at);
    }
  }

  // ---------------------------------------------------------------- passes

  ghost predicate Cut(p: Policy, at: int, dbs: seq<Tables>, picks: seq<set<Id>>, i: nat)
    requires i < |TARGETS| && i < |picks| && i + 1 < |dbs|
  {
    && Taken(picks, i) <= p.gcBatch
    && LimitOf(picks[i], DoomedRows(dbs[i], TARGETS[i], at), p.gcBatch - Taken(picks, i))
    && dbs[i + 1] == Delete(dbs[i], TARGETS[i], picks[i])
  }

  /** The first |picks| deletions of a pass; a whole one visits every table. */
  ghost predicate PassSoFar(p: Policy, at: int, dbs: seq<Tables>, picks: seq<set<Id>>) {
    && |picks| <= |TARGETS| && |dbs| == |picks| + 1
    && forall i :: 0 <= i < |picks| ==> Cut(p, at, dbs, picks, i)
  }

  /** Some pass at `at` leads from `db` to `db'` and deletes `count` rows. */
  ghost predicate Passes(p: Policy, at: int, db: Tables, db': Tables, count: nat) {
    exists dbs, picks ::
      PassSoFar(p, at, dbs, picks) && |picks| == |TARGETS| && dbs[0] == db && dbs[|TARGETS|] == db'
        && Taken(picks, |TARGETS|) == count
  }

  function SizeUpTo(db: Tables, n: nat): nat
    requires n <= |TARGETS|
  {
    if n == 0 then 0 else SizeUpTo(db, n - 1) + |Rows(db, TARGETS[n - 1])|
  }

  /** Number of rows in the collected tables. */
  function Size(db: Tables): nat { SizeUpTo(db, |TARGETS|) }

  lemma RowsAfter(db: Tables, table: Table, victims: set<Id>, other: Table)
    ensures Rows(Delete(db, table, victims), other) == if other == table then Rows(db, table) - victims
            else Rows(db, other)
  {
  }

  /** The clock is past every stored bound, and no sid has both a tombstone and a session. */
  ghost predicate Ripe(db: Tables, at: int) {
    && (forall i :: i in db.logins ==> db.logins[i].gcAfter <= at && db.logins[i].expiresAt <= at)
    && (forall i :: i in db.logoutTxs ==> db.logoutTxs[i].gcAfter <= at && db.logoutTxs[i].expiresAt <= at)
    && (forall i :: i in db.appSessions ==> db.appSessions[i].gcAfter <= at && db.appSessions[i].parentExpires <= at)
    && (forall i :: i in db.logoutUses ==> db.logoutUses[i] <= at)
    && (forall i :: i in db.tombstones ==> db.tombstones[i] <= at)
    && (forall x :: x in db.appSessions ==> db.appSessions[x].sid !in db.tombstones)
  }

  lemma RipeAfter(db: Tables, table: Table, victims: set<Id>, at: int)
    requires Ripe(db, at)
    ensures Ripe(Delete(db, table, victims), at) && forall t :: DoomedRows(db, t, at) == Rows(db, t)
  {
  }

  /** After i deletions min(gc_batch_size, size of the first i tables) rows are gone; later tables are untouched. */
  lemma {:induction false} CutCount(p: Policy, at: int, dbs: seq<Tables>, picks: seq<set<Id>>, i: nat, bound: int)
    requires PassSoFar(p, at, dbs, picks) && i <= |picks| && Ripe(dbs[0], bound) && bound <= at
    ensures Ripe(dbs[i], bound)
    ensures Taken(picks, i) == Min(p.gcBatch, SizeUpTo(dbs[0], i))
    ensures Size(dbs[i]) + Taken(picks, i) == Size(dbs[0])
    ensures forall j :: i <= j < |TARGETS| ==> Rows(dbs[i], TARGETS[j]) == Rows(dbs[0], TARGETS[j])
  {
    hide Ripe, Rows, Delete, DoomedRows;
    if i > 0 {
      CutCount(p, at, dbs, picks, i - 1, bound);
      assert Cut(p, at, dbs, picks, i - 1);
      RipeLater(dbs[i - 1], bound, at);
      RipeAfter(dbs[i - 1], TARGETS[i - 1], picks[i - 1], bound);
      RipeAfter(dbs[i - 1], TARGETS[i - 1], picks[i - 1], at);
      forall t
        ensures Rows(dbs[i], t) == if t == TARGETS[i - 1] then Rows(dbs[i - 1], t) - picks[i - 1]
                else Rows(dbs[i - 1], t)
      {
        RowsAfter(dbs[i - 1], TARGETS[i - 1], picks[i - 1], t);
      }
      DeleteSize(dbs[i - 1], i - 1, picks[i - 1], |TARGETS|);
    }
  }

  lemma RipeLater(db: Tables, bound: int, at: int)
    requires Ripe(db, bound) && bound <= at
    ensures Ripe(db, at)
  {
  }

  lemma {:induction false} DeleteSize(db: Tables, k: nat, victims: set<Id>, n: nat)
    requires k < |TARGETS| && victims <= Rows(db, TARGETS[k]) && n <= |TARGETS|
    ensures SizeUpTo(Delete(db, TARGETS[k], victims), n) == SizeUpTo(db, n) - if k < n then |victims| else 0
  {
    hide Rows, Delete;
    if n > 0 {
      DeleteSize(db, k, victims, n - 1);
      RowsAfter(db, TARGETS[k], victims, TARGETS[n - 1]);
      if k == n - 1 { assert Rows(db, TARGETS[k]) == (Rows(db, TARGETS[k]) - victims) + victims; }
    }
  }

  /** A pass over ripe tables deletes exactly min(gc_batch_size, size) rows. */
  lemma PassCount(p: Policy, at: int, db: Tables, db': Tables, count: nat, bound: int)
    requires Passes(p, at, db, db', count) && Ripe(db, bound) && bound <= at
    ensures Ripe(db', bound) && count == Min(p.gcBatch, Size(db)) && Size(db') == Size(db) - count
  {
    hide Ripe, SizeUpTo, Cut, Taken;
    var dbs, picks := CutsOf(p, at, db, db', count);
    CutCount(p, at, dbs, picks, |TARGETS|, bound);
  }

  lemma CutsOf(p: Policy, at: int, db: Tables, db': Tables, count: nat) returns (dbs: seq<Tables>, picks: seq<set<Id>>)
    requires Passes(p, at, db, db', count)
    ensures PassSoFar(p, at, dbs, picks) && |picks| == |TARGETS| && dbs[0] == db && dbs[|TARGETS|] == db'
            && Taken(picks, |TARGETS|) == count
  {
    hide Cut, Taken;
    dbs, picks :| PassSoFar(p, at, dbs, picks) && |picks| == |TARGETS| && dbs[0] == db && dbs[|TARGETS|] == db'
      && Taken(picks, |TARGETS|) == count;
  }

  /** Repeated passes, each at its own time from `bound` on, with nothing else running. */
  ghost predicate Rounds(p: Policy, bound: int, ats: seq<int>, rounds: seq<Tables>, counts: seq<nat>) {
    && |rounds| == |counts| + 1 && |ats| == |counts|
    && forall k :: 0 <= k < |counts| ==> bound <= ats[k] && Passes(p, ats[k], rounds[k], rounds[k + 1], counts[k])
  }

  /** k passes leave max(0, n - k * gc_batch_size) of n ripe rows, so ceil(n / gc_batch_size) passes empty the
      tables. */
  lemma {:induction false} CollectionConverges(p: Policy, bound: int, ats: seq<int>, rounds: seq<Tables>,
                                               counts: seq<nat>, k: nat)
    requires Rounds(p, bound, ats, rounds, counts) && k <= |counts| && Ripe(rounds[0], bound)
    ensures Ripe(rounds[k], bound) && Size(rounds[k]) == Max(0, Size(rounds[0]) - k * p.gcBatch)
  {
    hide Ripe, Passes, SizeUpTo;
    if k > 0 {
      CollectionConverges(p, bound, ats, rounds, counts, k - 1);
      PassCount(p, ats[k - 1], rounds[k - 1], rounds[k], counts[k - 1], bound);
      assert k * p.gcBatch == (k - 1) * p.gcBatch + p.gcBatch;
    }
  }

  // ---------------------------------------------------------------- building a pass cut by cut

  lemma NextCut(p: Policy, at: int, dbs: seq<Tables>, picks: seq<set<Id>>, pick: set<Id>)
    requires PassSoFar(p, at, dbs, picks) && |picks| < |TARGETS| && Taken(picks, |picks|) <= p.gcBatch
    requires LimitOf(pick, DoomedRows(dbs[|picks|], TARGETS[|picks|], at), p.gcBatch - Taken(picks, |picks|))
    ensures PassSoFar(p, at, dbs + [Delete(dbs[|picks|], TARGETS[|picks|], pick)], picks + [pick])
    ensures Taken(picks + [pick], |picks| + 1) == Taken(picks, |picks|) + |pick|
  {
    hide DoomedRows, Delete, LimitOf;
    var n := |picks|;
    var picks', dbs' := picks + [pick], dbs + [Delete(dbs[n], TARGETS[n], pick)];
    forall i | 0 <= i < |picks'| ensures Cut(p, at, dbs', picks', i) {
      TakenPrefix(picks, pick, i);
      assert i < n ==> Cut(p, at, dbs, picks, i);
      assert dbs'[i] == dbs[i] && (i < n ==> dbs'[i + 1] == dbs[i + 1] && picks'[i] == picks[i]);
    }
    TakenPrefix(picks, pick, n);
  }

  lemma TakeNothing(db: Tables, table: Table, at: int)
    ensures LimitOf({}, DoomedRows(db, table, at), 0) && Delete(db, table, {}) == db
  {
  }

  /** Once the budget is spent the remaining deletions take nothing. */
  lemma {:induction false} RestEmpty(p: Policy, at: int, dbs: seq<Tables>, picks: seq<set<Id>>)
    requires PassSoFar(p, at, dbs, picks) && Taken(picks, |picks|) <= p.gcBatch
    requires |picks| < |TARGETS| ==> Taken(picks, |picks|) == p.gcBatch
    ensures Passes(p, at, dbs[0], dbs[|picks|], Taken(picks, |picks|))
    decreases |TARGETS| - |picks|
  {
    hide Delete, DoomedRows, Cut, LimitOf;
    var n := |picks|;
    if n < |TARGETS| {
      TakeNothing(dbs[n], TARGETS[n], at);
      NextCut(p, at, dbs, picks, {});
      RestEmpty(p, at, dbs + [dbs[n]], picks + [{}]);
    } else {
      assert PassSoFar(p, at, dbs, picks) && Taken(picks, |TARGETS|) == Taken(picks, n);
    }
  }
}
