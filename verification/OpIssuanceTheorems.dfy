/** Main results about issuance: single-use login transactions, invitations and client assertions, and session caps. */
module OpIssuanceTheorems {
  import opened Wrappers
  import opened RuntimePolicy
  import opened RetryTiming
  import opened OpTables
  import opened OpBatches
  import opened OpGc
  import opened OpMachine
  import opened OpInvariants
  import opened OpStepsIssue
  import opened OpSafety
  import opened OpFrames
  import opened OpDeliveryTheorems
  import opened OpAccountTheorems
  import opened OpHistory

  /** In every reachable state: one code per login transaction over its three issuing paths, one account per
      invitation, one administrator, and both session caps now and at every later time. */
  lemma IssuedAtMostOnce(p: Policy, states: seq<World>, steps: seq<Step>, i: nat, login: Id, invitation: Id,
                         account: Id, sso: Id, client: Id, t: int)
    requires IsRun(p, states, steps) && Initial(states[0]) && i < |states| && t >= states[i].now
    ensures var w := states[i];
            && (login in w.h.codesOf ==> AtMostOne(w.h.codesOf[login]))
            && (invitation in w.h.registered ==> AtMostOne(w.h.registered[invitation]))
            && AtMostOne(w.db.roles)
            && (account in w.db.accounts ==>
               |ActiveSessions(w.db.sessions, account, w.db.accounts[account].epoch,
               t)| <= p.ssoCap)
            && |ActiveClientSessions(w.db.clientSessions, sso, client)| <= p.clientSessionCap
  {
    hide Initial, IsRun, AccountInv, EventInv, RowInv, SentOk, CodeInv, AssertionsKept, ViewInv, NotifiedRevoked,
      UsedHistory, UsedIds;
    RunKeeps(p, states, steps, i);
  }

  /** The steps that end in `issueCode`. */
  predicate Issues(s: Step) { s.Finish? || s.Consent? }

  /** A login transaction that can no longer issue. */
  ghost predicate Spent(w: World, login: Id) {
    login in w.h.codesOf && (login in w.db.logins ==> w.db.logins[login].consumed)
  }

  lemma ConsentSpends(p: Policy, w: World, login: Id, browser: Id, sso: Id, sid: Id, code: Id, nonce: Id, at: int)
    ensures AfterConsent(p, w, login, browser, sso, sid, code, nonce, at) != w ==>
            login in AfterConsent(p, w, login, browser, sso, sid, code, nonce, at).h.codesOf
    ensures Spent(w, login) ==> AfterConsent(p, w, login, browser, sso, sid, code, nonce, at) == w
  {
    hide IssueCode;
    if IssueCode(p, w.db, w.now, login, browser, sso, sid, code, nonce, at).Some? {
      IssueShape(p, w, login, browser, sso, sid, code, nonce, at);
    }
  }

  lemma FinishSpends(p: Policy, w: World, login: Id, browser: Id, ceremony: Id, credential: Id, readEpoch: nat, sso: Id,
                     secret: Id, sid: Id, code: Id, nonce: Id, at: int)
    ensures var w' := AfterFinish(p, w, login, browser, ceremony, credential, readEpoch, sso, secret, sid, code, nonce,
            at);
            && (w' != w ==> login in w'.h.codesOf)
            && (Spent(w, login) ==> w' == w)
  {
    hide IssueCode, CreateSession, Registered, CeremonyOpen;
    if Spent(w, login) { assert !LoginOpen(w.db, login, browser, w.now); }
  }

  lemma IssueSpends(p: Policy, w: World, s: Step)
    requires Enabled(p, w, s) && Issues(s)
    ensures Apply(p, w, s) != w ==> s.login in Apply(p, w, s).h.codesOf
    ensures Spent(w, s.login) ==> Apply(p, w, s) == w
  {
    hide AfterFinish, AfterConsent, Spent;
    match s
    case Finish(login, browser, ceremony, credential, readEpoch, sso, secret, sid, code, nonce, at) =>
      FinishSpends(p, w, login, browser, ceremony, credential, readEpoch, sso, secret, sid, code, nonce, at);
    case Consent(login, browser, sso, sid, code, nonce, at) =>
      ConsentSpends(p, w, login, browser, sso, sid, code, nonce, at);
  }

  lemma CodesMeanSpent(p: Policy, w: World, login: Id)
    requires Inv(p, w) && login in w.h.codesOf
    ensures Spent(w, login)
  {
    hide AccountInv, EventInv, RowInv, SentOk, RegistrationsOnce, CodeInv, SessionCap, ClientSessionCap, AssertionsKept,
      ViewInv, NotifiedRevoked, UsedHistory, UsedIds;
  }

  /** Whichever way a login transaction issued its code, every later attempt to issue on it changes nothing. */
  lemma LoginIssuesOnce(p: Policy, states: seq<World>, steps: seq<Step>, i: nat, j: nat)
    requires IsRun(p, states, steps) && Initial(states[0]) && i < j < |steps|
    requires Issues(steps[i]) && Issues(steps[j]) && steps[i].login == steps[j].login && states[i + 1] != states[i]
    ensures states[j + 1] == states[j]
  {
    hide Inv, Initial, IsRun, Apply, Enabled, Spent;
    RunBounds(p, states, steps);
    RunStep(p, states, steps, i);
    IssueSpends(p, states[i], steps[i]);
    HistoryKept(p, states, steps, i + 1, j);
    RunStep(p, states, steps, j);
    CodesMeanSpent(p, states[j], steps[j].login);
    IssueSpends(p, states[j], steps[j]);
  }

  // ---------------------------------------------------------------- client assertions (section 3 of RFC 7523)

  /** The branches of an acceptance. */
  lemma AcceptedExactly(p: Policy, w: World, key: Key, exp: int, keysActive: bool)
    ensures var w' := AfterAccept(p, w, key, exp, keysActive);
            if key !in w.db.assertions && key.client in w.db.clients && w.db.clients[key.client].active && keysActive
              && exp + p.skew > w.now
            then w'.h.accepted == w.h.accepted + {Acceptance(key, exp, w.now)} && w' != w
            else w' == w
  {
    var w' := AfterAccept(p, w, key, exp, keysActive);
    if key !in w.db.assertions && key.client in w.db.clients && w.db.clients[key.client].active && keysActive
      && exp + p.skew > w.now {
      assert key in w'.db.assertions;
    }
  }

  lemma AcceptedStored(p: Policy, w: World, a: Acceptance)
    requires Inv(p, w) && a in w.h.accepted && a.key !in w.db.assertions
    ensures p.Retained(a.exp + p.skew) <= w.now
  {
    hide AccountInv, EventInv, RowInv, SentOk, LoginInv, RegistrationsOnce, CodeInv, SessionCap, ClientSessionCap,
      ViewInv, NotifiedRevoked, UsedHistory, UsedIds;
  }

  /** A jti is accepted a second time only under an assertion that expires more than the clock skew and the grace
      period after the first, whatever was collected in between. */
  lemma ReacceptedLater(p: Policy, states: seq<World>, steps: seq<Step>, i: nat, j: nat)
    requires IsRun(p, states, steps) && Initial(states[0]) && i < j < |steps|
    requires steps[i].Accept? && steps[j].Accept? && steps[i].key == steps[j].key
    requires states[i + 1] != states[i] && states[j + 1] != states[j]
    ensures steps[j].exp > steps[i].exp + p.skew + p.grace
  {
    hide Inv, Initial, IsRun, Apply, Enabled, AfterAccept;
    RunBounds(p, states, steps);
    RunStep(p, states, steps, i);
    Effects(p, states[i], steps[i]);
    AcceptedExactly(p, states[i], steps[i].key, steps[i].exp, steps[i].keysActive);
    HistoryKept(p, states, steps, i + 1, j);
    RunStep(p, states, steps, j);
    Effects(p, states[j], steps[j]);
    AcceptedExactly(p, states[j], steps[j].key, steps[j].exp, steps[j].keysActive);
    AcceptedStored(p, states[j], Acceptance(steps[i].key, steps[i].exp, states[i].now));
  }

  /** No client assertion is accepted twice, even after its row has been collected. */
  lemma NoAssertionReplay(p: Policy, states: seq<World>, steps: seq<Step>, i: nat, j: nat)
    requires IsRun(p, states, steps) && Initial(states[0]) && i < j < |steps|
    requires steps[i].Accept? && steps[j].Accept? && steps[i].key == steps[j].key && steps[i].exp == steps[j].exp
    requires states[i + 1] != states[i]
    ensures states[j + 1] == states[j]
  {
    hide Inv, Initial, IsRun, Apply, Enabled, AfterAccept;
    RunBounds(p, states, steps);
    if states[j + 1] != states[j] { ReacceptedLater(p, states, steps, i, j); }
  }

  // ---------------------------------------------------------------- when a jti can come back

  /** In this run steps i and j both accept the jti, first under an assertion that expires at `e`, then at `e'`. */
  ghost predicate AcceptsTwice(p: Policy, states: seq<World>, steps: seq<Step>, i: nat, j: nat, key: Key, e: int,
                               e': int)
  {
    && IsRun(p, states, steps) && Initial(states[0]) && i < j < |steps|
    && steps[i].Accept? && steps[i].key == key && steps[i].exp == e && states[i + 1] != states[i]
    && steps[j].Accept? && steps[j].key == key && steps[j].exp == e' && states[j + 1] != states[j]
  }

  function EmptyDb(client: Id): Db {
    Db(map[], map[], map[client := Client(1, true)], map[], {}, map[], false, map[], map[], map[], map[], map[], map[],
      map[], map[],
       map[], map[], map[], map[], map[], map[], map[])
  }

  const EMPTY_HIST := Hist({}, map[], map[], map[], map[], map[], {}, map[])

  /** When the first assertion is presented, when its row may be collected, and when the second one is presented. */
  function FirstAt(e: int): int { Max(0, e - 1) }

  function CollectedAt(p: Policy, e: int): int { p.Retained(e + p.skew) }

  function SecondAt(p: Policy, e: int, e': int): int { Max(CollectedAt(p, e), e' - 1) }

  /** Accept, wait until expiry, skew and grace have passed, collect the row, and accept the jti again. */
  function ReplaySteps(p: Policy, key: Key, e: int, e': int): seq<Step> {
    [Tick(FirstAt(e)), Accept(key, e, true), Tick(CollectedAt(p, e)),
      Collect(Assertions, CollectedAt(p, e), {Pair(key)}),
     Tick(SecondAt(p, e, e')), Accept(key, e', true)]
  }

  function ReplayStates(p: Policy, key: Key, e: int, e': int): seq<World> {
    var empty := EmptyDb(key.client);
    var stored := empty.(assertions := map[key := AssertionUse(e + p.skew, p.Retained(e + p.skew))]);
    var once := EMPTY_HIST.(accepted := {Acceptance(key, e, FirstAt(e))});
    var again := empty.(assertions := map[key := AssertionUse(e' + p.skew, p.Retained(e' + p.skew))]);
    var twice := once.(accepted := once.accepted + {Acceptance(key, e', SecondAt(p, e, e'))});
    [World(0, empty, EMPTY_HIST), World(FirstAt(e), empty, EMPTY_HIST), World(FirstAt(e), stored, once),
      World(CollectedAt(p, e), stored, once),
     World(CollectedAt(p, e), empty, once), World(SecondAt(p, e, e'), empty, once),
       World(SecondAt(p, e, e'), again, twice)]
  }

  ghost predicate ReplayStep(p: Policy, key: Key, e: int, e': int, i: nat)
    requires i < 6
  {
    var states, steps := ReplayStates(p, key, e, e'), ReplaySteps(p, key, e, e');
    Enabled(p, states[i], steps[i]) && states[i + 1] == Apply(p, states[i], steps[i])
  }

  lemma ReplayTicksAndAccepts(p: Policy, key: Key, e: int, e': int)
    requires e + p.skew > 0 && e' > e + p.skew + p.grace
    ensures ReplayStep(p, key, e, e', 0) && ReplayStep(p, key, e, e', 2) && ReplayStep(p, key, e, e', 4)
    ensures ReplayStep(p, key, e, e', 1) && ReplayStep(p, key, e, e', 5)
  {
  }

  lemma ReplayCollects(p: Policy, key: Key, e: int, e': int)
    requires e + p.skew > 0 && e' > e + p.skew + p.grace
    ensures ReplayStep(p, key, e, e', 3)
  {
    var states, steps := ReplayStates(p, key, e, e'), ReplaySteps(p, key, e, e');
    var stored := states[3].db;
    assert Pair(key) in Rows(stored, Assertions);
    assert Pair(key) in DoomedRows(stored, Assertions, CollectedAt(p, e));
    assert Pair(key) in steps[3].victims;
    assert stored.assertions - Keys(steps[3].victims) == map[];
  }

  lemma ReplayRun(p: Policy, key: Key, e: int, e': int)
    requires e + p.skew > 0 && e' > e + p.skew + p.grace
    ensures AcceptsTwice(p, ReplayStates(p, key, e, e'), ReplaySteps(p, key, e, e'), 1, 5, key, e, e')
  {
    hide Enabled, Apply;
    ReplayTicksAndAccepts(p, key, e, e');
    ReplayCollects(p, key, e, e');
    assert forall i :: 0 <= i < 6 ==> ReplayStep(p, key, e, e', i);
    var states := ReplayStates(p, key, e, e');
    assert key in states[2].db.assertions && key in states[6].db.assertions;
  }

  lemma ClockStarts(p: Policy, states: seq<World>, steps: seq<Step>, i: nat)
    requires IsRun(p, states, steps) && Initial(states[0]) && i < |states|
    ensures states[i].now >= 0
  {
    hide IsRun, Apply, Enabled;
    HistoryKept(p, states, steps, 0, i);
  }

  /** A bare jti is not unique for ever. A run can accept it under an assertion that expires at `e` and later under one
      that expires at `e'` if and only if the first one can be accepted at all, and the second one expires more than the
      clock skew and the grace period after it. */
  lemma JtiReusableExactly(p: Policy, key: Key, e: int, e': int)
    ensures (exists states: seq<World>, steps: seq<Step>, i: nat, j: nat ::
            AcceptsTwice(p, states, steps, i, j, key, e, e')) <==> e + p.skew > 0 && e' > e + p.skew + p.grace
  {
    hide Initial, IsRun, Apply, Enabled, AfterAccept, ReplayStates, ReplaySteps, Inv;
    if e + p.skew > 0 && e' > e + p.skew + p.grace { ReplayRun(p, key, e, e'); }
    forall states: seq<World>, steps: seq<Step>, i: nat, j: nat | AcceptsTwice(p, states, steps, i, j, key, e, e')
      ensures e + p.skew > 0 && e' > e + p.skew + p.grace
    {
      RunBounds(p, states, steps);
      ReacceptedLater(p, states, steps, i, j);
      RunStep(p, states, steps, i);
      Effects(p, states[i], steps[i]);
      AcceptedExactly(p, states[i], key, e, steps[i].keysActive);
      ClockStarts(p, states, steps, i);
    }
  }

  /** With the example policy: jti 7 is accepted under an expiry of 60 and again under one of 86530. */
  lemma JtiComesBack()
    ensures exists states: seq<World>, steps: seq<Step>, i: nat, j: nat ::
            AcceptsTwice(EXAMPLE, states, steps, i, j, Key(CLIENT, 7), 60, 86530)
  {
    hide AcceptsTwice;
    JtiReusableExactly(EXAMPLE, Key(CLIENT, 7), 60, 86530);
  }
}
