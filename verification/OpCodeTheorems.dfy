/** Authorization codes are redeemed at most once over whole runs. */
module OpCodeTheorems {
  import opened Wrappers
  import opened RuntimePolicy
  import opened RetryTiming
  import opened Sets
  import opened OpTables
  import opened OpBatches
  import opened OpGc
  import opened OpMachine
  import opened OpInvariants
  import opened OpStepsLogout
  import opened OpStepsIssue
  import opened OpFrames
  import opened OpSafety
  import opened OpDeliveryTheorems
  import opened OpEventTheorems
  import opened OpAccountTheorems

  /** Stored codes are committed identifiers; identifiers stay committed; a committed identifier never becomes a new
      code; and a consumed code stays consumed. */
  ghost predicate CodesAge(w: World, w': World) {
    && w.h.used <= w'.h.used
    && (forall c :: c in w'.db.codes ==> c in w.db.codes || (c !in w.h.used && c in w'.h.used))
    && (forall c :: c in w'.db.codes && c in w.db.codes && w.db.codes[c].consumedBy.Some? ==>
       w'.db.codes[c].consumedBy.Some?)
  }

  lemma SameCodes(w: World, w': World)
    requires w.h.used <= w'.h.used && w'.db.codes == w.db.codes
    ensures CodesAge(w, w')
  {
  }

  lemma ConsentCodes(p: Policy, w: World, login: Id, browser: Id, sso: Id, sid: Id, code: Id, nonce: Id, at: int)
    requires code !in w.h.used
    ensures CodesAge(w, AfterConsent(p, w, login, browser, sso, sid, code, nonce, at))
  {
    hide IssueCode;
    if IssueCode(p, w.db, w.now, login, browser, sso, sid, code, nonce, at).Some? {
      IssueShape(p, w, login, browser, sso, sid, code, nonce, at);
    }
  }

  lemma FinishCodes(p: Policy, w: World, login: Id, browser: Id, ceremony: Id, credential: Id, readEpoch: nat, sso: Id,
                    secret: Id, sid: Id, code: Id, nonce: Id, at: int)
    requires code !in w.h.used && code != sso && code != secret
    ensures CodesAge(w, AfterFinish(p, w, login, browser, ceremony, credential, readEpoch, sso, secret, sid, code,
            nonce, at))
  {
    hide IssueCode, AuthenticateWrites, CreateSession, AfterConsent, CodesAge, Registered;
    SameCodes(w, w);
    var writes := AuthenticateWrites(p, w.db, w.now, login, browser, ceremony, credential, readEpoch);
    if writes.Some? {
      var (db1, owner) := writes.value;
      WritesShape(p, w.db, w.now, login, browser, ceremony, credential, readEpoch);
      var created := CreateSession(p, db1, w.now, owner, credential, sso, secret, at);
      if created.Some? {
        var w2 := AfterSession(AfterWrites(w, ceremony, db1), sso, secret, created.value);
        SessionCodes(p, w, ceremony, db1, owner, credential, sso, secret, at);
        ConsentCodes(p, w2, login, browser, sso, sid, code, nonce, at);
        FinishAsConsent(p, w, login, browser, ceremony, credential, readEpoch, sso, secret, sid, code, nonce, at);
        CodesAgeOn(w, w2, AfterConsent(p, w2, login, browser, sso, sid, code, nonce, at));
      }
    }
  }

  lemma SessionCodes(p: Policy, w: World, ceremony: Id, db1: Db, owner: Id, credential: Id, sso: Id, secret: Id,
                     at: int)
    requires db1.codes == w.db.codes && CreateSession(p, db1, w.now, owner, credential, sso, secret, at).Some?
    ensures var w2 := AfterSession(AfterWrites(w, ceremony, db1), sso, secret,
            CreateSession(p, db1, w.now, owner, credential, sso, secret, at).value);
            w2.db.codes == w.db.codes && w2.h.used == w.h.used + {sso, secret}
  {
    hide ActiveSessions;
  }

  lemma CodesAgeOn(w: World, w2: World, w3: World)
    requires w2.db.codes == w.db.codes && w.h.used <= w2.h.used && CodesAge(w2, w3)
    ensures CodesAge(w, w3)
  {
  }

  lemma ExchangeCodes(p: Policy, w: World, code: Id, operation: Id, access: Id, keysActive: bool, at: int)
    ensures var w' := AfterExchange(p, w, code, operation, access, keysActive, at);
            CodesAge(w, w') && (w' != w ==>
              code in w.db.codes && w.db.codes[code].consumedBy.None?
              && code in w'.db.codes && w'.db.codes[code].consumedBy.Some?)
  {
    hide Live;
  }

  lemma OtherCodes(p: Policy, w: World, s: Step)
    requires Enabled(p, w, s) && (s.BeginLogin? || s.StartCeremony? || s.FailCeremony? || s.ReplayedCode? || s.Accept?
             || s.StartLogout? || s.Rate? || s.Tick?)
    ensures w.h.used <= Apply(p, w, s).h.used && Apply(p, w, s).db.codes == w.db.codes
  {
    hide Enabled, LoginOpen;
  }

  lemma ClaimCodes(p: Policy, w: World, s: Step)
    requires Enabled(p, w, s) && s.Claim?
    ensures w.h.used <= Apply(p, w, s).h.used && Apply(p, w, s).db.codes == w.db.codes
  {
    hide Claimable, ClaimRow, TaskOf, Fresh;
  }

  lemma SendCodes(p: Policy, w: World, s: Step)
    requires Enabled(p, w, s) && (s.Claim? || s.Settle? || s.Expire?)
    ensures w.h.used <= Apply(p, w, s).h.used && Apply(p, w, s).db.codes == w.db.codes
  {
    hide Outcome, SettleRow, SettlesOn, Expires, ExpireRow, Fresh, IsNextClaim, AfterClaim;
    if s.Claim? { ClaimCodes(p, w, s); }
  }

  lemma FanoutCodes(w: World, rows: map<Id, (Id, Key)>)
    requires forall d :: d in rows ==> rows[d].0 in w.db.events
    ensures AfterFanout(w, rows).h.used == w.h.used && AfterFanout(w, rows).db.codes == w.db.codes
  {
    hide FannedOut, NewDelivery, AddRows;
  }

  lemma RetryCodes(p: Policy, w: World, operation: Id, event: Id, revision: nat, deadline: int, retainUntil: int,
                   at: int)
    ensures var w' := AfterRetry(p, w, operation, event, revision, deadline, retainUntil, at);
            w.h.used <= w'.h.used && w'.db.codes == w.db.codes
  {
    hide RetryGuard, AuditConflict, RetryRow;
  }

  lemma OutboxCodes(p: Policy, w: World, s: Step)
    requires Enabled(p, w, s) && (s.Fanout? || s.Claim? || s.Settle? || s.Expire? || s.Retry?)
    ensures w.h.used <= Apply(p, w, s).h.used && Apply(p, w, s).db.codes == w.db.codes
  {
    hide Apply, Enabled;
    if s.Fanout? {
      FanoutStep(p, w, s);
      FanoutCodes(w, s.rows);
    } else if s.Retry? {
      Effects(p, w, s);
      RetryCodes(p, w, s.operation, s.event, s.revision, s.deadline, s.retainUntil, s.at);
    } else {
      SendCodes(p, w, s);
    }
  }

  lemma RevocationCodes(p: Policy, w: World, s: Step)
    requires Enabled(p, w, s) && (s.Logout? || s.RevokeAccount?)
    ensures w.h.used <= Apply(p, w, s).h.used && Apply(p, w, s).db.codes == w.db.codes
  {
    hide MarkRevoked, KeysOfEpoch, KeysOfSso, AddEvents, HasEvent, LogoutEventRow;
    assert forall h, keys, now :: MarkRevoked(h, keys, now).used == h.used by { MarkKeepsUsed(); }
  }

  lemma MarkKeepsUsed()
    ensures forall h, keys, now :: MarkRevoked(h, keys, now).used == h.used
  {
  }

  lemma ExpandCodes(p: Policy, w: World, chosen: set<Id>)
    requires chosen <= Uncovered(w.db)
    ensures AfterExpand(p, w, chosen).h.used == w.h.used && AfterExpand(p, w, chosen).db.codes == w.db.codes
  {
    hide Uncovered, ExpandedEventRow, FullyExpanded;
  }

  lemma CollectCodes(w: World, table: Table, victims: set<RowId>)
    ensures CodesAge(w, AfterCollect(w, table, victims))
  {
    hide Ids, Keys;
  }

  lemma IssuerCodes(p: Policy, w: World, s: Step)
    requires Enabled(p, w, s) && (s.Finish? || s.Consent? || s.Exchange?)
    ensures CodesAge(w, Apply(p, w, s))
    ensures s.Exchange? && Apply(p, w, s) != w ==>
              s.code in w.db.codes && w.db.codes[s.code].consumedBy.None? && s.code in Apply(p, w, s).db.codes
                && Apply(p, w, s).db.codes[s.code].consumedBy.Some?
  {
    hide AfterFinish, AfterConsent, AfterExchange, CodesAge, Fresh;
    match s
    case Finish(login, browser, ceremony, credential, readEpoch, sso, secret, sid, code, nonce, at) =>
      FreshFour(w, sso, secret, sid, code);
      CodeDiffers(w, sso, secret, sid, code);
      FinishCodes(p, w, login, browser, ceremony, credential, readEpoch, sso, secret, sid, code, nonce, at);
    case Consent(login, browser, sso, sid, code, nonce, at) =>
      FreshTwo(w, sid, code); ConsentCodes(p, w, login, browser, sso, sid, code, nonce, at);
    case Exchange(code, operation, access, keysActive, at) =>
      ExchangeCodes(p, w, code, operation, access, keysActive, at);
    case _ =>
  }

  lemma CodeDiffers(w: World, a: Id, b: Id, c: Id, d: Id)
    requires Fresh(w, [a, b, c, d])
    ensures d != a && d != b
  {
    var ids := [a, b, c, d];
    assert ids[0] == a && ids[1] == b && ids[3] == d;
  }

  lemma CodesStep(p: Policy, w: World, s: Step)
    requires Enabled(p, w, s)
    ensures CodesAge(w, Apply(p, w, s))
  {
    hide Apply, Enabled, CodesAge;
    if s.Finish? || s.Consent? || s.Exchange? {
      IssuerCodes(p, w, s);
    } else if s.Collect? {
      CollectStep(p, w, s);
      CollectCodes(w, s.table, s.victims);
    } else {
      if s.Expand? {
        ExpandStep(p, w, s);
        ExpandCodes(p, w, s.chosen);
      } else if s.Fanout? || s.Claim? || s.Settle? || s.Expire? || s.Retry? {
        OutboxCodes(p, w, s);
      } else if s.Logout? || s.RevokeAccount? {
        RevocationCodes(p, w, s);
      } else {
        OtherCodes(p, w, s);
      }
      SameCodes(w, Apply(p, w, s));
    }
  }

  /** A code that has been redeemed: it can neither be redeemed nor issued again. */
  ghost predicate Redeemed(w: World, code: Id) {
    code in w.h.used && (code in w.db.codes ==> w.db.codes[code].consumedBy.Some?)
  }

  ghost predicate CodesUsed(w: World) { forall c :: c in w.db.codes ==> c in w.h.used }

  lemma {:induction false} CodesUsedAlways(p: Policy, states: seq<World>, steps: seq<Step>, i: nat)
    requires IsRun(p, states, steps) && Initial(states[0]) && i < |states|
    ensures CodesUsed(states[i])
  {
    hide IsRun, Apply, Enabled;
    if i > 0 {
      CodesUsedAlways(p, states, steps, i - 1);
      OneStep(p, states, steps, i - 1);
      CodesStep(p, states[i - 1], steps[i - 1]);
    }
  }

  lemma {:induction false} RedeemedStays(p: Policy, states: seq<World>, steps: seq<Step>, i: nat, j: nat, code: Id)
    requires IsRun(p, states, steps) && i <= j < |states| && Redeemed(states[i], code)
    ensures Redeemed(states[j], code)
  {
    hide IsRun, Apply, Enabled;
    if i < j {
      RedeemedStays(p, states, steps, i, j - 1, code);
      OneStep(p, states, steps, j - 1);
      CodesStep(p, states[j - 1], steps[j - 1]);
    }
  }

  /** Section 4.1.2 of RFC 6749: once a code has been exchanged, every later exchange of it changes nothing, also after
      the code itself has been collected. */
  lemma CodeRedeemedOnce(p: Policy, states: seq<World>, steps: seq<Step>, i: nat, j: nat)
    requires IsRun(p, states, steps) && Initial(states[0]) && i < j < |steps|
    requires steps[i].Exchange? && steps[j].Exchange? && steps[i].code == steps[j].code && states[i + 1] != states[i]
    ensures states[j + 1] == states[j]
  {
    hide IsRun, Initial, Apply, Enabled, CodesAge;
    RunBounds(p, states, steps);
    OneStep(p, states, steps, i);
    IssuerCodes(p, states[i], steps[i]);
    CodesUsedAlways(p, states, steps, i + 1);
    RedeemedStays(p, states, steps, i + 1, j, steps[i].code);
    OneStep(p, states, steps, j);
    IssuerCodes(p, states[j], steps[j]);
  }
}
