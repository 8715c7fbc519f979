/** What has happened is never rewritten: the history of a run only grows. */
module OpHistory {
  import opened Wrappers
  import opened RuntimePolicy
  import opened Sets
  import opened RetryTiming
  import opened OpTables
  import opened OpBatches
  import opened OpGc
  import opened OpMachine
  import opened OpInvariants
  import opened OpStepsLogout
  import opened OpStepsIssue
  import opened OpSafety
  import opened OpFrames
  import opened OpDeliveryTheorems
  import opened OpAccountTheorems

  /** Revocations are dated by the commit that first made them. */
  ghost predicate RevokedGrows(revokedAt: map<Key, int>, revokedAt': map<Key, int>, now: int) {
    && (forall k :: k in revokedAt ==> k in revokedAt' && revokedAt'[k] == revokedAt[k])
    && (forall k :: k in revokedAt' && k !in revokedAt ==> revokedAt'[k] == now)
  }

  ghost predicate CodesGrow(codesOf: map<Id, set<Id>>, codesOf': map<Id, set<Id>>) {
    forall l :: l in codesOf ==> l in codesOf' && codesOf[l] <= codesOf'[l]
  }

  ghost predicate Extends<K, V>(m: map<K, V>, m': map<K, V>) {
    forall k :: k in m ==> k in m' && m'[k] == m[k]
  }

  ghost predicate HistoryGrows(h: Hist, h': Hist, now: int) {
    && RevokedGrows(h.revokedAt, h'.revokedAt, now)
    && CodesGrow(h.codesOf, h'.codesOf)
    && Extends(h.expiries, h'.expiries)
    && Extends(h.issued, h'.issued)
    && h.accepted <= h'.accepted
  }

  ghost predicate SameRecord(h: Hist, h': Hist) {
    h'.revokedAt == h.revokedAt && h'.codesOf == h.codesOf && h'.expiries == h.expiries && h'.issued == h.issued
      && h'.accepted == h.accepted
  }

  lemma SameGrows(h: Hist, h': Hist, now: int)
    requires SameRecord(h, h')
    ensures HistoryGrows(h, h', now)
  {
  }

  predicate Recorded(s: Step) {
    s.Finish? || s.Consent? || s.Accept? || s.Logout? || s.RevokeAccount? || s.Claim?
  }

  lemma LoginRecord(p: Policy, w: World, s: Step)
    requires Enabled(p, w, s) && (s.BeginLogin? || s.StartCeremony? || s.FailCeremony? || s.ReplayedCode?
             || s.StartLogout? || s.Rate? || s.Tick?)
    ensures SameRecord(w.h, Apply(p, w, s).h)
  {
    hide Enabled, StartCeremonyBatch, BeginLogout, OpenLogin, CeremonyFailure, RevokeToken, RateHit;
  }

  lemma OutboxRecord(p: Policy, w: World, s: Step)
    requires Enabled(p, w, s) && (s.Fanout? || s.Settle? || s.Expire? || s.Retry? || s.Exchange?)
    ensures SameRecord(w.h, Apply(p, w, s).h)
  {
    hide FanoutBatch, SettleBatch, ExpireBatch, RetryBatch, ExchangeBatch, Outcome, AddRows;
  }

  lemma ExpandRecord(p: Policy, w: World, chosen: set<Id>)
    requires chosen <= Uncovered(w.db)
    ensures SameRecord(w.h, AfterExpand(p, w, chosen).h)
  {
    hide Uncovered, ExpandBatch, AddEvents;
  }

  lemma CollectRecord(w: World, table: Table, victims: set<RowId>)
    ensures SameRecord(w.h, AfterCollect(w, table, victims).h)
  {
    hide Delete, Ids;
  }

  lemma CodeGrows(p: Policy, w: World, login: Id, sso: Id, sid: Id, code: Id, db: Db)
    requires sso in w.db.sessions && Key(CLIENT, sid) !in w.h.expiries
    ensures HistoryGrows(w.h, AfterCode(w, login, sso, sid, code, db).h, w.now)
  {
  }

  lemma SidUnknown(p: Policy, w: World, sid: Id)
    requires Inv(p, w) && sid !in w.h.used
    ensures Key(CLIENT, sid) !in w.h.expiries
  {
    hide AccountInv, EventInv, RowInv, SentOk, LoginInv, RegistrationsOnce, CodeInv, SessionCap, ClientSessionCap,
      AssertionsKept, ViewInv, NotifiedRevoked, UsedIds;
  }

  lemma ConsentGrows(p: Policy, w: World, login: Id, browser: Id, sso: Id, sid: Id, code: Id, nonce: Id, at: int)
    requires Key(CLIENT, sid) !in w.h.expiries
    ensures HistoryGrows(w.h, AfterConsent(p, w, login, browser, sso, sid, code, nonce, at).h, w.now)
  {
    hide IssueCode, HistoryGrows, AfterCode;
    SameGrows(w.h, w.h, w.now);
    if IssueCode(p, w.db, w.now, login, browser, sso, sid, code, nonce, at).Some? {
      IssueShape(p, w, login, browser, sso, sid, code, nonce, at);
      CodeGrows(p, w, login, sso, sid, code, IssueCode(p, w.db, w.now, login, browser, sso, sid, code, nonce,
        at).value);
    }
  }

  lemma FinishGrows(p: Policy, w: World, login: Id, browser: Id, ceremony: Id, credential: Id, readEpoch: nat, sso: Id,
                    secret: Id, sid: Id, code: Id, nonce: Id, at: int)
    requires Key(CLIENT, sid) !in w.h.expiries
    ensures HistoryGrows(w.h, AfterFinish(p, w, login, browser, ceremony, credential, readEpoch, sso, secret, sid, code,
            nonce, at).h, w.now)
  {
    hide IssueCode, AuthenticateWrites, CreateSession, AfterConsent, HistoryGrows, Registered;
    SameGrows(w.h, w.h, w.now);
    var writes := AuthenticateWrites(p, w.db, w.now, login, browser, ceremony, credential, readEpoch);
    if writes.Some? {
      var (db1, owner) := writes.value;
      var created := CreateSession(p, db1, w.now, owner, credential, sso, secret, at);
      if created.Some? {
        var w2 := AfterSession(AfterWrites(w, ceremony, db1), sso, secret, created.value);
        WritesRecord(w, ceremony, db1, sso, secret, created.value);
        ConsentGrows(p, w2, login, browser, sso, sid, code, nonce, at);
        FinishAsConsent(p, w, login, browser, ceremony, credential, readEpoch, sso, secret, sid, code, nonce, at);
        SameThenGrows(w.h, w2.h, AfterConsent(p, w2, login, browser, sso, sid, code, nonce, at).h, w.now);
      }
    }
  }

  lemma WritesRecord(w: World, ceremony: Id, db1: Db, sso: Id, secret: Id, db2: Db)
    ensures SameRecord(w.h, AfterSession(AfterWrites(w, ceremony, db1), sso, secret, db2).h)
    ensures AfterSession(AfterWrites(w, ceremony, db1), sso, secret, db2).now == w.now
  {
  }

  lemma SameThenGrows(h: Hist, h1: Hist, h2: Hist, now: int)
    requires SameRecord(h, h1) && HistoryGrows(h1, h2, now)
    ensures HistoryGrows(h, h2, now)
  {
  }

  lemma AcceptGrows(p: Policy, w: World, key: Key, exp: int, keysActive: bool)
    ensures HistoryGrows(w.h, AfterAccept(p, w, key, exp, keysActive).h, w.now)
  {
    hide AcceptAssertion;
  }

  lemma MarkGrows(h: Hist, h1: Hist, keys: set<Key>, now: int)
    requires SameRecord(h, h1)
    ensures var h' := MarkRevoked(h1, keys, now);
            HistoryGrows(h, h', now) && h'.revokedAt.Keys == h.revokedAt.Keys + keys
  {
  }

  lemma LogoutGrows(p: Policy, w: World, csrf: Id, sso: Id, event: Id, at: int)
    ensures HistoryGrows(w.h, AfterLogout(p, w, csrf, sso, event, at).h, w.now)
  {
    hide LogoutBatch, KeysOfSso, AddEvents, MarkRevoked, HistoryGrows;
    SameGrows(w.h, w.h, w.now);
    MarkGrows(w.h, Use(w.h, {event}), KeysOfSso(w.db, sso), w.now);
    var marked := MarkRevoked(Use(w.h, {event}), KeysOfSso(w.db, sso), w.now);
    GrowsThenSame(w.h, marked, marked.(sent := AddEvents(w.h.sent, {event})), w.now);
  }

  lemma GrowsThenSame(h: Hist, h1: Hist, h2: Hist, now: int)
    requires HistoryGrows(h, h1, now) && SameRecord(h1, h2)
    ensures HistoryGrows(h, h2, now)
  {
  }

  lemma RevokeGrows(p: Policy, w: World, operation: Id, account: Id, epoch: nat, at: int)
    ensures HistoryGrows(w.h, AfterRevokeAccount(p, w, operation, account, epoch, at).h, w.now)
  {
    hide RevokeAccountBatch, KeysOfEpoch, MarkRevoked, HistoryGrows;
    SameGrows(w.h, w.h, w.now);
    MarkGrows(w.h, Use(w.h, {operation}), KeysOfEpoch(w.db, account, epoch), w.now);
  }

  lemma ClaimGrows(p: Policy, w: World, pick: Option<Id>, lease: Id, at: int)
    requires IsNextClaim(p, w.db.deliveries, at, pick) && lease !in w.h.issued
    ensures HistoryGrows(w.h, AfterClaim(p, w, pick, lease, at).h, w.now)
  {
    hide Claimable, ClaimRow, TaskOf;
  }

  lemma LeaseUnknown(p: Policy, w: World, lease: Id)
    requires Inv(p, w) && lease !in w.h.used
    ensures lease !in w.h.issued
  {
    hide AccountInv, EventInv, RowInv, SentOk, LoginInv, RegistrationsOnce, CodeInv, SessionCap, ClientSessionCap,
      AssertionsKept, ViewInv, NotifiedRevoked, UsedIds;
  }

  lemma RecordedGrows(p: Policy, w: World, s: Step)
    requires Inv(p, w) && Enabled(p, w, s) && Recorded(s)
    ensures HistoryGrows(w.h, Apply(p, w, s).h, w.now)
  {
    hide AfterBeginLogin, AfterRate, AfterReplay, AfterFailCeremony, AfterStartCeremony, AfterFinish, AfterConsent,
      AfterExchange, AfterAccept, AfterStartLogout, AfterLogout, AfterRevokeAccount, AfterExpand, AfterFanout,
      AfterClaim, AfterSettle, AfterExpire, AfterRetry, AfterCollect, LegalFanout, IsNextClaim, LimitOf, Fresh,
      RetryParameters, DoomedRows, Inv, HistoryGrows;
    match s
    case Finish(login, browser, ceremony, credential, readEpoch, sso, secret, sid, code, nonce, at) =>
      FreshFour(w, sso, secret, sid, code);
      SidUnknown(p, w, sid);
      FinishGrows(p, w, login, browser, ceremony, credential, readEpoch, sso, secret, sid, code, nonce, at);
    case Consent(login, browser, sso, sid, code, nonce, at) =>
      FreshTwo(w, sid, code);
      SidUnknown(p, w, sid);
      ConsentGrows(p, w, login, browser, sso, sid, code, nonce, at);
    case Accept(key, exp, keysActive) => AcceptGrows(p, w, key, exp, keysActive);
    case Logout(csrf, sso, event, at) => LogoutGrows(p, w, csrf, sso, event, at);
    case RevokeAccount(operation, account, epoch, at) => RevokeGrows(p, w, operation, account, epoch, at);
    case Claim(pick, lease, at) => FreshOne(w, lease); LeaseUnknown(p, w, lease); ClaimGrows(p, w, pick, lease, at);
    case _ =>
  }

  lemma Unrecorded(p: Policy, w: World, s: Step)
    requires Enabled(p, w, s) && !Recorded(s)
    ensures SameRecord(w.h, Apply(p, w, s).h)
  {
    hide Apply, Enabled, SameRecord;
    if s.Expand? {
      ExpandStep(p, w, s);
      ExpandRecord(p, w, s.chosen);
    } else if s.Collect? {
      CollectStep(p, w, s);
      CollectRecord(w, s.table, s.victims);
    } else if s.Fanout? || s.Settle? || s.Expire? || s.Retry? || s.Exchange? {
      OutboxRecord(p, w, s);
    } else {
      LoginRecord(p, w, s);
    }
  }

  /** No step rewrites the history. */
  lemma HistoryStep(p: Policy, w: World, s: Step)
    requires Inv(p, w) && Enabled(p, w, s)
    ensures HistoryGrows(w.h, Apply(p, w, s).h, w.now)
  {
    hide Inv, Apply, Enabled, HistoryGrows, SameRecord;
    if Recorded(s) {
      RecordedGrows(p, w, s);
    } else {
      Unrecorded(p, w, s);
      SameGrows(w.h, Apply(p, w, s).h, w.now);
    }
  }

  lemma ClockStep(p: Policy, w: World, s: Step)
    requires Enabled(p, w, s)
    ensures Apply(p, w, s).now == if s.Tick? then s.to else w.now
    ensures Apply(p, w, s).now >= w.now
  {
    hide StartCeremonyBatch, BeginLogout, OpenLogin, CeremonyFailure, RevokeToken, RateHit, AuthenticateWrites,
      CreateSession, IssueCode, ExchangeBatch, AcceptAssertion, LogoutBatch, RevokeAccountBatch, ExpandBatch,
      FanoutBatch, SettleBatch, ExpireBatch, RetryBatch, Delete, ClaimRow, TaskOf, MarkRevoked, KeysOfSso, KeysOfEpoch,
      AddRows, AddEvents, Outcome, Registered, Fresh, LegalFanout, IsNextClaim, LimitOf, DoomedRows;
  }

  /** Over a run the clock does not go back and the history only grows. */
  lemma HistoryKept(p: Policy, states: seq<World>, steps: seq<Step>, i: nat, j: nat)
    requires IsRun(p, states, steps) && Initial(states[0]) && i <= j < |states|
    ensures states[i].now <= states[j].now
    ensures Extends(states[i].h.revokedAt, states[j].h.revokedAt)
    ensures CodesGrow(states[i].h.codesOf, states[j].h.codesOf) && Extends(states[i].h.expiries, states[j].h.expiries)
    ensures Extends(states[i].h.issued, states[j].h.issued) && states[i].h.accepted <= states[j].h.accepted
  {
    hide Inv, Initial, IsRun, Apply, Enabled;
    if i < j {
      HistoryKept(p, states, steps, i, j - 1);
      RunBounds(p, states, steps);
      RunStep(p, states, steps, j - 1);
      HistoryStep(p, states[j - 1], steps[j - 1]);
      ClockStep(p, states[j - 1], steps[j - 1]);
    }
  }
}
