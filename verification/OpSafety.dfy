/** Safety of whole runs of the OpenID provider. */
module OpSafety {
  import opened Wrappers
  import opened RuntimePolicy
  import opened RetryTiming
  import opened Sets
  import opened OpTables
  import opened OpBatches
  import opened OpGc
  import opened OpMachine
  import opened OpInvariants
  import opened OpStepsDelivery
  import opened OpStepsLogout
  import opened OpStepsIssue
  import opened OpStepsGc

  lemma NothingInFlight(p: Policy, now: int)
    ensures InFlightBound(p, map[], now) && ClientSessionCap(p, map[]) && SessionCap(p, map[], map[], now)
  {
    forall client, t ensures |InFlight(map[], client, t)| == 0 { assert InFlight(map[], client, t) == {}; }
    forall sso, client ensures |ActiveClientSessions(map[], sso, client)| == 0 {
      assert ActiveClientSessions(map[], sso, client) == {};
    }
  }

  lemma NoAccounts(p: Policy)
    ensures AccountInv(p, map[], map[], map[], map[], map[]) && EventInv(p, map[], map[], map[])
  {
  }

  lemma NoSessions(now: int)
    ensures SentOk(map[], map[], map[], map[]) && CodeInv(map[], map[], map[], map[], map[])
    ensures ViewInv(map[], map[], map[], map[], map[], now) && NotifiedRevoked(map[], map[], map[])
  {
  }

  lemma NothingIssued(p: Policy, now: int, invitations: map<Id, Invitation>)
    ensures RowInv(p, map[], map[], map[], now) && LoginInv(map[], map[], map[]) && AssertionsKept(p, map[], {}, now)
    ensures RegistrationsOnce(invitations, map[], {}, false)
    ensures UsedIds({}, map[], map[], map[]) && UsedHistory({}, map[], map[], map[])
  {
    hide InFlightBound;
    NothingInFlight(p, now);
  }

  lemma InitialInv(p: Policy, w: World)
    requires Initial(w)
    ensures Inv(p, w)
  {
    hide AccountInv, EventInv, RowInv, SentOk, LoginInv, RegistrationsOnce, CodeInv, SessionCap, ClientSessionCap,
      AssertionsKept, ViewInv, NotifiedRevoked, UsedIds, UsedHistory;
    NoAccounts(p);
    NoSessions(w.now);
    NothingIssued(p, w.now, w.db.invitations);
    NothingInFlight(p, w.now);
  }

  /** Every step of every request, schedule and operator keeps the invariant. */
  lemma StepKeeps(p: Policy, w: World, s: Step)
    requires Inv(p, w) && Enabled(p, w, s)
    ensures Inv(p, Apply(p, w, s))
  {
    hide Inv, LegalFanout, IsNextClaim, LimitOf;
    match s
    case Tick(to) => TickKeeps(p, w, to);
    case BeginLogin(login, browser, at) => FreshOne(w, login); BeginLoginKeeps(p, w, login, browser, at);
    case StartCeremony(login, browser, ceremony, register, account, invitation, at) =>
      StartCeremonyKeeps(p, w, login, browser, ceremony, register, account, invitation, at);
    case FailCeremony(ceremony) => FailCeremonyKeeps(p, w, ceremony);
    case Finish(login, browser, ceremony, credential, readEpoch, sso, secret, sid, code, nonce, at) =>
      FreshFour(w, sso, secret, sid, code);
      FinishKeeps(p, w, login, browser, ceremony, credential, readEpoch, sso, secret, sid, code, nonce, at);
    case Consent(login, browser, sso, sid, code, nonce, at) =>
      FreshTwo(w, sid, code); ConsentKeeps(p, w, login, browser, sso, sid, code, nonce, at);
    case Exchange(code, operation, access, keysActive, at) =>
      ExchangeKeeps(p, w, code, operation, access, keysActive, at);
    case ReplayedCode(code) => ReplayKeeps(p, w, code);
    case Accept(key, exp, keysActive) => AcceptKeeps(p, w, key, exp, keysActive);
    case StartLogout(csrf, browser, sso, at) => StartLogoutKeeps(p, w, csrf, browser, sso, at);
    case Logout(csrf, sso, event, at) => FreshOne(w, event); LogoutKeeps(p, w, csrf, sso, event, at);
    case RevokeAccount(operation, account, epoch, at) => RevokeAccountKeeps(p, w, operation, account, epoch, at);
    case Expand(chosen) => LimitInside(chosen, Uncovered(w.db), p.fanoutBatch); ExpandKeeps(p, w, chosen);
    case Fanout(rows) => FanoutKeeps(p, w, rows);
    case Claim(pick, lease, at) => FreshOne(w, lease); ClaimKeeps(p, w, pick, lease, at);
    case Settle(lease, status, retryAfter, random, decidedAt, at) =>
      SettleKeeps(p, w, lease, status, retryAfter, random, decidedAt, at);
    case Expire(at) => ExpireKeeps(p, w, at);
    case Retry(operation, event, revision, deadline, retainUntil, at) =>
      RetryKeeps(p, w, operation, event, revision, deadline, retainUntil, at);
    case Rate(bucket, gcAfter) => RateKeeps(p, w, bucket, gcAfter);
    case Collect(table, at, victims) => CollectKeeps(p, w, table, at, victims);
  }

  lemma FreshOne(w: World, a: Id)
    requires Fresh(w, [a])
    ensures a !in w.h.used
  {
    assert [a][0] == a;
  }

  lemma FreshTwo(w: World, a: Id, b: Id)
    requires Fresh(w, [a, b])
    ensures a !in w.h.used && b !in w.h.used && a != b
  {
    assert [a, b][0] == a && [a, b][1] == b;
  }

  lemma FreshFour(w: World, a: Id, b: Id, c: Id, d: Id)
    requires Fresh(w, [a, b, c, d])
    ensures a !in w.h.used && b !in w.h.used && c !in w.h.used && d !in w.h.used && c != a && c != b
  {
    var ids := [a, b, c, d];
    assert ids[0] == a && ids[1] == b && ids[2] == c && ids[3] == d;
  }

  /** The invariant holds in every state of every run. */
  lemma RunKeeps(p: Policy, states: seq<World>, steps: seq<Step>, i: nat)
    requires IsRun(p, states, steps) && Initial(states[0]) && i < |states|
    ensures Inv(p, states[i])
  {
    hide Inv, Initial, Apply, Enabled;
    if i == 0 {
      InitialInv(p, states[0]);
    } else {
      RunKeeps(p, states, steps, i - 1);
      assert Enabled(p, states[i - 1], steps[i - 1]) && states[i - 1 + 1] == Apply(p, states[i - 1], steps[i - 1]);
      StepKeeps(p, states[i - 1], steps[i - 1]);
    }
  }
}
