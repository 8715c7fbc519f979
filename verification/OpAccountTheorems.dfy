/** Main results about account revocation: expansion into per-session events is complete, bounded and permanent. */
module OpAccountTheorems {
  import opened Wrappers
  import opened RuntimePolicy
  import opened RetryTiming
  import opened Sets
  import opened OpTables
  import opened OpBatches
  import opened OpGc
  import opened OpMachine
  import opened OpInvariants
  import opened OpStepsLogout
  import opened OpStepsIssue
  import opened OpStepsGc
  import opened OpSafety
  import opened OpFrames
  import opened OpDeliveryTheorems

  // ---------------------------------------------------------------- one expansion

  /** The event that expansion generates carries the earliest creation time and deadline of the revocations that
      pursue its session, and is retained at least as long as each of them and as the session. */
  lemma GeneratedEvent(p: Policy, revocations: map<Id, Revocation>, s: Session, sso: Id)
    requires Pursuing(revocations, s).Keys != {}
    ensures var row, rs := ExpandedEventRow(p, revocations, s, sso), Pursuing(revocations, s);
            && row.sso == sso && row.revision == 0 && !row.expanded
            && (exists r :: r in rs && rs[r].deadline == row.deadline)
            && (exists r :: r in rs && rs[r].createdAt == row.createdAt)
            && (forall r :: r in rs ==>
               row.createdAt <= rs[r].createdAt && row.deadline <= rs[r].deadline
               && row.gcAfter >= rs[r].gcAfter)
            && row.gcAfter >= s.gcAfter && row.gcAfter >= p.Retained(s.expiresAt)
            && ((exists r :: r in rs && rs[r].gcAfter == row.gcAfter) || row.gcAfter == s.gcAfter
               || row.gcAfter == p.Retained(s.expiresAt))
  {
    var rs := Pursuing(revocations, s);
    BoundsExist(rs);
    assert Least(Deadlines(rs)) in Deadlines(rs) && Least(CreatedTimes(rs)) in CreatedTimes(rs)
      && Greatest(RetentionBounds(rs)) in RetentionBounds(rs);
    forall r | r in rs
      ensures Least(CreatedTimes(rs)) <= rs[r].createdAt && Least(Deadlines(rs)) <= rs[r].deadline
              && Greatest(RetentionBounds(rs)) >= rs[r].gcAfter
    {
      assert rs[r].createdAt in CreatedTimes(rs) && rs[r].deadline in Deadlines(rs)
        && rs[r].gcAfter in RetentionBounds(rs);
    }
  }

  /** Reusing the session id as event id never collides in a reachable state, so the batch commits. */
  lemma ExpandCommits(p: Policy, w: World, chosen: set<Id>)
    requires Inv(p, w) && chosen <= Uncovered(w.db)
    ensures ExpandBatch(p, w.db, chosen).Some?
  {
    hide AccountInv, RowInv, SentOk, LoginInv, RegistrationsOnce, CodeInv, SessionCap, ClientSessionCap, AssertionsKept,
      ViewInv, NotifiedRevoked, UsedHistory, UsedIds, EventsDead, EventsRetained, ExpandedEventRow, Pursuing;
    forall e | e in chosen ensures e !in w.db.events {
      if e in w.db.events { OwnEvent(w.db.events, e); }
    }
  }

  lemma OwnEvent(events: map<Id, Event>, e: Id)
    requires e in events
    ensures HasEvent(events, events[e].sso)
  {
  }

  /** Exactly the chosen sessions get an event; stored events are untouched. */
  lemma ExpandShape(p: Policy, w: World, chosen: set<Id>)
    requires Inv(p, w) && chosen <= Uncovered(w.db)
    ensures var w' := AfterExpand(p, w, chosen);
            && w'.db.sessions == w.db.sessions && w'.db.revocations.Keys == w.db.revocations.Keys
            && w'.db.events.Keys == w.db.events.Keys + chosen
            && (forall e :: e in w.db.events ==> w'.db.events[e] == w.db.events[e])
            && (forall e :: e in chosen ==>
               e in w.db.sessions
               && Pursuing(w.db.revocations, w.db.sessions[e]).Keys != {})
            && (forall e :: e in chosen ==> w'.db.events[e] == ExpandedEventRow(p, w.db.revocations, w.db.sessions[e],
               e))
  {
    hide Inv, ExpandedEventRow, Pursuing, HasEvent, FullyExpanded;
    ExpandCommits(p, w, chosen);
    ChosenNew(p, w, chosen);
  }

  lemma ChosenNew(p: Policy, w: World, chosen: set<Id>)
    requires chosen <= Uncovered(w.db) && ExpandBatch(p, w.db, chosen).Some?
    ensures forall e :: e in chosen ==> e !in w.db.events
  {
    hide Uncovered, ExpandedEventRow, FullyExpanded;
    assert chosen * w.db.events.Keys == {};
    forall e | e in chosen ensures e !in w.db.events {
      assert e in chosen * w.db.events.Keys <==> e in w.db.events;
    }
  }

  /** A revocation is marked expanded exactly when every session it covers has a logout event. */
  lemma ExpandedExactly(p: Policy, w: World, chosen: set<Id>, r: Id)
    requires Inv(p, w) && chosen <= Uncovered(w.db) && r in w.db.revocations
    ensures var w' := AfterExpand(p, w, chosen);
            && r in w'.db.revocations
            && w'.db.revocations[r] == w.db.revocations[r].(expanded := w'.db.revocations[r].expanded)
            && (w'.db.revocations[r].expanded <==>
               w.db.revocations[r].expanded
               || FullyExpanded(w'.db, w.db.revocations[r]))
  {
    hide Inv, ExpandedEventRow, Uncovered, HasEvent, Covers;
    ExpandCommits(p, w, chosen);
    var db1 := InsertExpanded(p, w.db, chosen).value;
    SameCoverage(db1, AfterExpand(p, w, chosen).db, w.db.revocations[r]);
  }

  lemma FlagIrrelevant(db: Db, r: Revocation, r': Revocation)
    requires r' == r.(expanded := r'.expanded)
    ensures FullyExpanded(db, r) <==> FullyExpanded(db, r')
  {
  }

  lemma SameCoverage(db: Db, db': Db, r: Revocation)
    requires db.sessions == db'.sessions && db.events == db'.events
    ensures FullyExpanded(db, r) <==> FullyExpanded(db', r)
  {
    hide HasEvent, Covers;
  }

  // ---------------------------------------------------------------- number of expansions

  lemma ExpandUncovers(p: Policy, w: World, chosen: set<Id>)
    requires Inv(p, w) && chosen <= Uncovered(w.db)
    ensures Uncovered(AfterExpand(p, w, chosen).db) == Uncovered(w.db) - chosen
  {
    hide Inv, ExpandedEventRow, FullyExpanded;
    var w' := AfterExpand(p, w, chosen);
    ExpandShape(p, w, chosen);
    EventSsos(p, w, chosen);
    forall s | s in w.db.sessions ensures s in Uncovered(w'.db) <==> s in Uncovered(w.db) && s !in chosen {
      if !HasEvent(w'.db.events, s) {
        forall r | r in w.db.revocations
          ensures Covers(w.db.revocations[r], w.db.sessions[s]) ==>
                  w'.db.revocations[r].expanded == w.db.revocations[r].expanded
        {
          ExpandedExactly(p, w, chosen, r);
          if Covers(w.db.revocations[r], w.db.sessions[s]) { NotCovered(w'.db, w.db.revocations[r], s); }
        }
        SamePursuers(w.db.revocations, w'.db.revocations, w.db.sessions[s]);
      }
    }
  }

  lemma NotCovered(db: Db, r: Revocation, s: Id)
    requires s in db.sessions && !HasEvent(db.events, s) && Covers(r, db.sessions[s])
    ensures !FullyExpanded(db, r)
  {
  }

  lemma SamePursuers(revocations: map<Id, Revocation>, revocations': map<Id, Revocation>, s: Session)
    requires revocations'.Keys == revocations.Keys
    requires forall r :: r in revocations ==> revocations'[r] == revocations[r].(expanded := revocations'[r].expanded)
    requires forall r :: r in revocations && Covers(revocations[r], s) ==>
             revocations'[r].expanded == revocations[r].expanded
    ensures Pursuing(revocations', s).Keys == Pursuing(revocations, s).Keys
  {
    forall r | r in revocations ensures r in Pursuing(revocations', s) <==> r in Pursuing(revocations, s) {
      SameCover(revocations[r], revocations'[r], s);
    }
  }

  /** After expansion a session has an event exactly when it had one or was chosen. */
  lemma EventSsos(p: Policy, w: World, chosen: set<Id>)
    requires Inv(p, w) && chosen <= Uncovered(w.db)
    ensures forall s :: HasEvent(AfterExpand(p, w, chosen).db.events, s) <==> HasEvent(w.db.events, s) || s in chosen
  {
    hide Inv, Uncovered, AfterExpand, Pursuing, ExpandedEventRow;
    var w' := AfterExpand(p, w, chosen);
    ExpandShape(p, w, chosen);
    forall e | e in chosen ensures w'.db.events[e].sso == e {
      GeneratedEvent(p, w.db.revocations, w.db.sessions[e], e);
    }
    forall s | HasEvent(w.db.events, s) ensures HasEvent(w'.db.events, s) {
      var e :| e in w.db.events && w.db.events[e].sso == s;
      assert e in w'.db.events && w'.db.events[e].sso == s;
    }
    forall s | s in chosen ensures HasEvent(w'.db.events, s) { assert s in w'.db.events && w'.db.events[s].sso == s; }
  }

  lemma UnfinishedUncovered(db: Db, r: Id)
    requires r in db.revocations && !db.revocations[r].expanded && !FullyExpanded(db, db.revocations[r])
    ensures Uncovered(db) != {}
  {
    var s :| s in db.sessions && Covers(db.revocations[r], db.sessions[s]) && !HasEvent(db.events, s);
    assert r in Pursuing(db.revocations, db.sessions[s]);
    assert s in Uncovered(db);
  }

  /** Nothing is left uncovered exactly when every revocation is expanded. */
  lemma DoneMeansExpanded(p: Policy, w: World, chosen: set<Id>)
    requires Inv(p, w) && chosen <= Uncovered(w.db)
    ensures var db := AfterExpand(p, w, chosen).db;
            Uncovered(db) == {} <==> forall r :: r in db.revocations ==> db.revocations[r].expanded
  {
    hide Inv, AfterExpand, HasEvent, Covers;
    var db := AfterExpand(p, w, chosen).db;
    ExpandShape(p, w, chosen);
    if Uncovered(db) == {} {
      forall r | r in db.revocations ensures db.revocations[r].expanded {
        ExpandedExactly(p, w, chosen, r);
        FlagIrrelevant(db, w.db.revocations[r], db.revocations[r]);
        if !db.revocations[r].expanded {
          UnfinishedUncovered(db, r);
        }
      }
    } else {
      var s := Pick(Uncovered(db));
      var r := Pick(Pursuing(db.revocations, db.sessions[s]).Keys);
      assert r in db.revocations && !db.revocations[r].expanded;
    }
  }

  lemma SameCover(r: Revocation, r': Revocation, s: Session)
    requires r' == r.(expanded := r'.expanded)
    ensures Covers(r, s) <==> Covers(r', s)
  {
  }

  /** Consecutive expansion calls. */
  ghost predicate Expansions(steps: seq<Step>, i: nat, j: nat)
    requires i <= j <= |steps|
  {
    forall k :: i <= k < j ==> steps[k].Expand?
  }

  /** Every call covers fanout_batch_size more sessions, until none is left. */
  lemma UncoveredShrinks(p: Policy, states: seq<World>, steps: seq<Step>, i: nat, j: nat)
    requires IsRun(p, states, steps) && Initial(states[0]) && i <= j <= |steps| && |states| == |steps| + 1
             && Expansions(steps, i, j)
    ensures |Uncovered(states[j].db)| == Max(0, |Uncovered(states[i].db)| - (j - i) * p.fanoutBatch)
  {
    hide Inv, Initial, IsRun, Apply, Enabled, Uncovered, AfterExpand, LimitOf;
    if i < j {
      UncoveredShrinks(p, states, steps, i, j - 1);
      RunStep(p, states, steps, j - 1);
      ExpandStep(p, states[j - 1], steps[j - 1]);
      var before, chosen := Uncovered(states[j - 1].db), steps[j - 1].chosen;
      ExpandUncovers(p, states[j - 1], chosen);
      ChosenCard(before, chosen, p.fanoutBatch);
      RoundCount(|Uncovered(states[i].db)|, |before|, j - i, p.fanoutBatch);
    } else {
      assert 0 * p.fanoutBatch == 0;
    }
  }

  lemma ChosenCard<T>(before: set<T>, chosen: set<T>, limit: int)
    requires LimitOf(chosen, before, limit)
    ensures |before - chosen| == if |before| < limit then 0 else |before| - limit
  {
    assert before == (before - chosen) + chosen;
  }

  lemma RoundCount(n: nat, before: nat, k: nat, batch: int)
    requires k > 0 && batch > 0 && before == Max(0, n - (k - 1) * batch)
    ensures Max(0, n - k * batch) == if before < batch then 0 else before - batch
  {
    assert k * batch == (k - 1) * batch + batch;
  }

  lemma ExpandStep(p: Policy, w: World, s: Step)
    requires Enabled(p, w, s) && s.Expand?
    ensures s.chosen <= Uncovered(w.db) && LimitOf(s.chosen, Uncovered(w.db), p.fanoutBatch)
    ensures Apply(p, w, s) == AfterExpand(p, w, s.chosen)
  {
    hide AfterExpand, Uncovered;
  }

  /** max(1, ceil(n / fanout_batch_size)) calls finish n uncovered sessions, and no fewer do: after j - i >= 1 calls
      every revocation is expanded exactly when the calls had room for all n. */
  lemma ExpansionRounds(p: Policy, states: seq<World>, steps: seq<Step>, i: nat, j: nat)
    requires IsRun(p, states, steps) && Initial(states[0]) && i < j <= |steps| && |states| == |steps| + 1
             && Expansions(steps, i, j)
    ensures (forall r :: r in states[j].db.revocations ==> states[j].db.revocations[r].expanded)
            <==> |Uncovered(states[i].db)| <= (j - i) * p.fanoutBatch
  {
    hide Inv, Initial, IsRun, Apply, Enabled, Uncovered, AfterExpand;
    UncoveredShrinks(p, states, steps, i, j);
    RunStep(p, states, steps, j - 1);
    ExpandStep(p, states[j - 1], steps[j - 1]);
    DoneMeansExpanded(p, states[j - 1], steps[j - 1].chosen);
  }

  // ---------------------------------------------------------------- no session escapes a revocation

  /** Sessions of an account with an epoch up to `through`. */
  function CoveredSessions(sessions: map<Id, Session>, account: Id, through: nat): set<Id> {
    set s | s in sessions && sessions[s].account == account && sessions[s].epoch <= through
  }

  /** The account has left the epoch, and has no other covered session than before. */
  ghost predicate Closed(sessions: map<Id, Session>, sessions': map<Id, Session>, accounts': map<Id, Account>,
                         account: Id, through: nat)
  {
    && account in accounts' && accounts'[account].epoch > through
    && CoveredSessions(sessions', account, through) <= CoveredSessions(sessions, account, through)
  }

  predicate WritesSessions(s: Step) {
    s.Finish? || s.Consent? || s.Exchange? || s.Logout? || s.RevokeAccount? || (s.Collect? && s.table == Sessions)
  }

  ghost predicate SameSessions(w: World, w': World) {
    w'.db.sessions == w.db.sessions && w'.db.accounts == w.db.accounts
  }

  lemma LoginSessions(p: Policy, w: World, s: Step)
    requires Enabled(p, w, s) && (s.BeginLogin? || s.StartCeremony? || s.FailCeremony? || s.ReplayedCode? || s.Accept?
             || s.StartLogout? || s.Rate? || s.Tick?)
    ensures SameSessions(w, Apply(p, w, s))
  {
    hide Enabled, LoginOpen;
  }

  lemma OutboxSessions(p: Policy, w: World, s: Step)
    requires Enabled(p, w, s) && (s.Fanout? || s.Claim? || s.Settle? || s.Expire? || s.Retry?)
    ensures SameSessions(w, Apply(p, w, s))
  {
    hide FannedOut, RetryGuard, AuditConflict, Outcome, Claimable;
  }

  lemma ExpandSessions(p: Policy, w: World, chosen: set<Id>)
    requires chosen <= Uncovered(w.db)
    ensures SameSessions(w, AfterExpand(p, w, chosen))
  {
    hide Uncovered, ExpandedEventRow, FullyExpanded;
  }

  lemma CollectSessions(w: World, table: Table, victims: set<RowId>)
    ensures var w' := AfterCollect(w, table, victims);
            w'.db.accounts == w.db.accounts && if table == Sessions then w'.db.sessions == w.db.sessions - Ids(victims)
              else w'.db.sessions == w.db.sessions
  {
    hide Ids, Keys;
  }

  lemma SessionFrame(p: Policy, w: World, s: Step)
    requires Enabled(p, w, s) && !WritesSessions(s)
    ensures SameSessions(w, Apply(p, w, s))
  {
    hide Apply, Enabled;
    if s.Expand? {
      ExpandStep(p, w, s);
      ExpandSessions(p, w, s.chosen);
    } else if s.Collect? {
      CollectStep(p, w, s);
      CollectSessions(w, s.table, s.victims);
    } else if s.Fanout? || s.Claim? || s.Settle? || s.Expire? || s.Retry? {
      OutboxSessions(p, w, s);
    } else {
      LoginSessions(p, w, s);
    }
  }

  lemma CollectStep(p: Policy, w: World, s: Step)
    requires Enabled(p, w, s) && s.Collect?
    ensures Apply(p, w, s) == AfterCollect(w, s.table, s.victims) && s.victims <= DoomedRows(w.db, s.table, s.at)
            && s.at <= w.now
  {
    hide AfterCollect, DoomedRows;
  }

  lemma SameCloses(sessions: map<Id, Session>, accounts: map<Id, Account>, account: Id, through: nat)
    requires account in accounts && accounts[account].epoch > through
    ensures Closed(sessions, sessions, accounts, account, through)
  {
  }

  lemma ClosesTogether(sessions: map<Id, Session>, sessions1: map<Id, Session>, sessions2: map<Id, Session>,
                       accounts1: map<Id, Account>, accounts2: map<Id, Account>, account: Id, through: nat)
    requires Closed(sessions, sessions1, accounts1, account, through)
             && Closed(sessions1, sessions2, accounts2, account, through)
    ensures Closed(sessions, sessions2, accounts2, account, through)
  {
  }

  lemma AgeCloses(sessions: map<Id, Session>, sessions': map<Id, Session>, accounts': map<Id, Account>, account: Id,
                  through: nat)
    requires SessionsAge(sessions, sessions') && account in accounts' && accounts'[account].epoch > through
    ensures Closed(sessions, sessions', accounts', account, through)
  {
    forall s | s in CoveredSessions(sessions', account, through)
      ensures s in CoveredSessions(sessions, account, through)
    {
      assert s in sessions'.Keys;
    }
  }

  lemma CreateCloses(p: Policy, db: Db, now: int, owner: Id, credential: Id, sso: Id, secret: Id, at: int, account: Id,
                     through: nat)
    requires account in db.accounts && db.accounts[account].epoch > through
             && CreateSession(p, db, now, owner, credential, sso, secret, at).Some?
    ensures var db' := CreateSession(p, db, now, owner, credential, sso, secret, at).value;
            db'.accounts == db.accounts && Closed(db.sessions, db'.sessions, db'.accounts, account, through)
  {
    hide ActiveSessions;
  }

  lemma ConsentCloses(p: Policy, w: World, login: Id, browser: Id, sso: Id, sid: Id, code: Id, nonce: Id, at: int,
                      account: Id, through: nat)
    requires account in w.db.accounts && w.db.accounts[account].epoch > through
    ensures var w' := AfterConsent(p, w, login, browser, sso, sid, code, nonce, at);
            Closed(w.db.sessions, w'.db.sessions, w'.db.accounts, account, through)
  {
    hide IssueCode, Closed, SessionsAge;
    SameCloses(w.db.sessions, w.db.accounts, account, through);
    if IssueCode(p, w.db, w.now, login, browser, sso, sid, code, nonce, at).Some? {
      IssueShape(p, w, login, browser, sso, sid, code, nonce, at);
      AgeCloses(w.db.sessions, IssueCode(p, w.db, w.now, login, browser, sso, sid, code, nonce, at).value.sessions,
        w.db.accounts, account, through);
    }
  }

  /** A finish request is authentication, a new session, and then one issued code; any of them may abort it. */
  lemma FinishAsConsent(p: Policy, w: World, login: Id, browser: Id, ceremony: Id, credential: Id, readEpoch: nat,
                        sso: Id, secret: Id, sid: Id, code: Id, nonce: Id, at: int)
    requires AuthenticateWrites(p, w.db, w.now, login, browser, ceremony, credential, readEpoch).Some?
    requires var (db1, owner) := AuthenticateWrites(p, w.db, w.now, login, browser, ceremony, credential,
             readEpoch).value;
             CreateSession(p, db1, w.now, owner, credential, sso, secret, at).Some?
    ensures var (db1, owner) := AuthenticateWrites(p, w.db, w.now, login, browser, ceremony, credential,
            readEpoch).value;
            var db2 := CreateSession(p, db1, w.now, owner, credential, sso, secret, at).value;
            var w2 := AfterSession(AfterWrites(w, ceremony, db1), sso, secret, db2);
            AfterFinish(p, w, login, browser, ceremony, credential, readEpoch, sso, secret, sid, code, nonce, at)
            == if IssueCode(p, db2, w.now, login, browser, sso, sid, code, nonce, at).Some? then AfterConsent(p, w2,
              login, browser, sso, sid, code, nonce, at)
               else w
  {
    hide IssueCode, AuthenticateWrites, CreateSession, Registered;
  }

  lemma FinishCloses(p: Policy, w: World, login: Id, browser: Id, ceremony: Id, credential: Id, readEpoch: nat, sso: Id,
                     secret: Id, sid: Id, code: Id, nonce: Id, at: int, account: Id, through: nat)
    requires account in w.db.accounts && w.db.accounts[account].epoch > through
    ensures var w' := AfterFinish(p, w, login, browser, ceremony, credential, readEpoch, sso, secret, sid, code, nonce,
            at);
            Closed(w.db.sessions, w'.db.sessions, w'.db.accounts, account, through)
  {
    hide IssueCode, AuthenticateWrites, CreateSession, Closed, AfterConsent, CoveredSessions, Registered;
    SameCloses(w.db.sessions, w.db.accounts, account, through);
    var writes := AuthenticateWrites(p, w.db, w.now, login, browser, ceremony, credential, readEpoch);
    if writes.Some? {
      var (db1, owner) := writes.value;
      WritesShape(p, w.db, w.now, login, browser, ceremony, credential, readEpoch);
      var created := CreateSession(p, db1, w.now, owner, credential, sso, secret, at);
      if created.Some? {
        var w2 := AfterSession(AfterWrites(w, ceremony, db1), sso, secret, created.value);
        CreateCloses(p, db1, w.now, owner, credential, sso, secret, at, account, through);
        ConsentCloses(p, w2, login, browser, sso, sid, code, nonce, at, account, through);
        FinishAsConsent(p, w, login, browser, ceremony, credential, readEpoch, sso, secret, sid, code, nonce, at);
        var w3 := AfterConsent(p, w2, login, browser, sso, sid, code, nonce, at);
        ClosesTogether(w.db.sessions, w2.db.sessions, w3.db.sessions, w2.db.accounts, w3.db.accounts, account, through);
      }
    }
  }

  lemma ExchangeCloses(p: Policy, w: World, code: Id, operation: Id, access: Id, keysActive: bool, at: int, account: Id,
                       through: nat)
    requires account in w.db.accounts && w.db.accounts[account].epoch > through
    ensures var w' := AfterExchange(p, w, code, operation, access, keysActive, at);
            Closed(w.db.sessions, w'.db.sessions, w'.db.accounts, account, through)
  {
    hide ExchangeBatch, Closed, SessionsAge;
    SameCloses(w.db.sessions, w.db.accounts, account, through);
    if ExchangeBatch(p, w.db, w.now, code, operation, access, keysActive, at).Some? {
      ExchangeShape(p, w.db, w.now, code, operation, access, keysActive, at);
      AgeCloses(w.db.sessions, ExchangeBatch(p, w.db, w.now, code, operation, access, keysActive, at).value.sessions,
        w.db.accounts, account, through);
    }
  }

  lemma LogoutCloses(p: Policy, w: World, csrf: Id, sso: Id, event: Id, at: int, account: Id, through: nat)
    requires account in w.db.accounts && w.db.accounts[account].epoch > through
    ensures var w' := AfterLogout(p, w, csrf, sso, event, at);
            Closed(w.db.sessions, w'.db.sessions, w'.db.accounts, account, through)
  {
    hide AfterLogout;
    LogoutShape(p, w, csrf, sso, event, at);
  }

  lemma RevokeAdvances(p: Policy, w: World, operation: Id, target: Id, epoch: nat, at: int, account: Id)
    requires account in w.db.accounts
    ensures var w' := AfterRevokeAccount(p, w, operation, target, epoch, at);
            w'.db.sessions == w.db.sessions && account in w'.db.accounts
              && w'.db.accounts[account].epoch >= w.db.accounts[account].epoch
  {
    hide MarkRevoked, KeysOfEpoch;
  }

  lemma RevokeCloses(p: Policy, w: World, operation: Id, target: Id, epoch: nat, at: int, account: Id, through: nat)
    requires account in w.db.accounts && w.db.accounts[account].epoch > through
    ensures var w' := AfterRevokeAccount(p, w, operation, target, epoch, at);
            Closed(w.db.sessions, w'.db.sessions, w'.db.accounts, account, through)
  {
    hide AfterRevokeAccount, CoveredSessions;
    RevokeAdvances(p, w, operation, target, epoch, at, account);
  }

  lemma WriterCloses(p: Policy, w: World, s: Step, account: Id, through: nat)
    requires Enabled(p, w, s) && WritesSessions(s) && account in w.db.accounts && w.db.accounts[account].epoch > through
    ensures Closed(w.db.sessions, Apply(p, w, s).db.sessions, Apply(p, w, s).db.accounts, account, through)
  {
    hide AfterBeginLogin, AfterRate, AfterReplay, AfterFailCeremony, AfterStartCeremony, AfterFinish, AfterConsent,
      AfterExchange, AfterAccept, AfterStartLogout, AfterLogout, AfterRevokeAccount, AfterExpand, AfterFanout,
      AfterClaim, AfterSettle, AfterExpire, AfterRetry, AfterCollect, LegalFanout, IsNextClaim, LimitOf, Fresh,
      RetryParameters, DoomedRows, Closed;
    match s
    case Finish(login, browser, ceremony, credential, readEpoch, sso, secret, sid, code, nonce, at) =>
      FinishCloses(p, w, login, browser, ceremony, credential, readEpoch, sso, secret, sid, code, nonce, at, account,
        through);
    case Consent(login, browser, sso, sid, code, nonce, at) =>
      ConsentCloses(p, w, login, browser, sso, sid, code, nonce, at, account, through);
    case Exchange(code, operation, access, keysActive, at) =>
      ExchangeCloses(p, w, code, operation, access, keysActive, at, account, through);
    case Logout(csrf, sso, event, at) => LogoutCloses(p, w, csrf, sso, event, at, account, through);
    case RevokeAccount(operation, target, epoch, at) => RevokeCloses(p, w, operation, target, epoch, at, account,
      through);
    case Collect(table, at, victims) => CollectCloses(w, table, victims, account, through);
    case _ =>
  }

  lemma CollectCloses(w: World, table: Table, victims: set<RowId>, account: Id, through: nat)
    requires account in w.db.accounts && w.db.accounts[account].epoch > through
    ensures var w' := AfterCollect(w, table, victims); Closed(w.db.sessions, w'.db.sessions, w'.db.accounts, account,
            through)
  {
    hide AfterCollect, Ids;
    CollectSessions(w, table, victims);
  }

  /** Once an account has left an epoch, no step of any kind ever adds a session of that epoch. */
  lemma EpochStaysClosed(p: Policy, states: seq<World>, steps: seq<Step>, i: nat, j: nat, account: Id, through: nat)
    requires IsRun(p, states, steps) && i <= j < |states|
    requires account in states[i].db.accounts && states[i].db.accounts[account].epoch > through
    ensures Closed(states[i].db.sessions, states[j].db.sessions, states[j].db.accounts, account, through)
  {
    hide IsRun, Apply, Enabled, WritesSessions;
    if i < j {
      EpochStaysClosed(p, states, steps, i, j - 1, account, through);
      OneStep(p, states, steps, j - 1);
      if WritesSessions(steps[j - 1]) {
        WriterCloses(p, states[j - 1], steps[j - 1], account, through);
      } else {
        SessionFrame(p, states[j - 1], steps[j - 1]);
      }
    }
  }

  lemma OneStep(p: Policy, states: seq<World>, steps: seq<Step>, i: nat)
    requires IsRun(p, states, steps) && i + 1 < |states|
    ensures i < |steps| && Enabled(p, states[i], steps[i]) && states[i + 1] == Apply(p, states[i], steps[i])
  {
    hide Apply, Enabled;
  }

  /** When step i marks a revocation expanded, every session that the revocation covers at any later time, in
      particular every one whose creation was still under way, already has its logout event at that point. */
  lemma NoSessionEscapes(p: Policy, states: seq<World>, steps: seq<Step>, i: nat, j: nat, r: Id, sso: Id)
    requires IsRun(p, states, steps) && Initial(states[0]) && i < j < |states| && |states| == |steps| + 1
             && steps[i].Expand?
    requires r in states[i].db.revocations && !states[i].db.revocations[r].expanded
    requires r in states[i + 1].db.revocations && states[i + 1].db.revocations[r].expanded
    requires sso in states[j].db.sessions && Covers(states[i].db.revocations[r], states[j].db.sessions[sso])
    ensures HasEvent(states[i + 1].db.events, sso)
  {
    hide Inv, IsRun, Initial, Apply, Enabled, AfterExpand, HasEvent;
    var revocation := states[i].db.revocations[r];
    RunStep(p, states, steps, i);
    ExpandStep(p, states[i], steps[i]);
    ExpandedExactly(p, states[i], steps[i].chosen, r);
    RevokedEpochLeft(p, states[i + 1], r);
    EpochStaysClosed(p, states, steps, i + 1, j, revocation.account, revocation.through);
    assert sso in CoveredSessions(states[j].db.sessions, revocation.account, revocation.through);
    assert sso in CoveredSessions(states[i + 1].db.sessions, revocation.account, revocation.through);
  }

  lemma RevokedEpochLeft(p: Policy, w: World, r: Id)
    requires Inv(p, w) && r in w.db.revocations
    ensures w.db.revocations[r].account in w.db.accounts
            && w.db.accounts[w.db.revocations[r].account].epoch > w.db.revocations[r].through
  {
    hide EventInv, RowInv, SentOk, LoginInv, RegistrationsOnce, CodeInv, SessionCap, ClientSessionCap, AssertionsKept,
      ViewInv, NotifiedRevoked, UsedHistory, UsedIds;
  }
}
