/** Main results about relying party sessions over whole runs. */
module RpTheorems {
  import opened Wrappers
  import opened RuntimePolicy
  import T = RpTables
  import opened RpMachine
  import opened RpInvariants

  // ---------------------------------------------------------------- no resurrection

  predicate HasSession(db: T.Tables, sid: Id) {
    exists x :: x in db.appSessions && db.appSessions[x].sid == sid
  }

  lemma HistoryGrows(p: Policy, w: World, s: Step)
    requires Enabled(p, w, s)
    ensures w.h.notified <= Apply(p, w, s).h.notified && w.h.accepted <= Apply(p, w, s).h.accepted
  {
    hide T.IsLatestParent, T.DoomedRows, T.Backchannel, T.CommitCallback, T.ConsumeLogin, T.Delete, T.CheckedSession,
      SaysActive, ViewGrows;
  }

  lemma NotifiedStays(p: Policy, states: seq<World>, steps: seq<Step>, i: nat, j: nat, sid: Id)
    requires IsRun(p, states, steps) && i <= j < |states| && sid in states[i].h.notified
    ensures sid in states[j].h.notified
  {
    hide Apply, Possible, Honest;
    if i < j {
      NotifiedStays(p, states, steps, i, j - 1, sid);
      assert Enabled(p, states[j - 1], steps[j - 1]) && states[j - 1 + 1] == Apply(p, states[j - 1], steps[j - 1]);
      HistoryGrows(p, states[j - 1], steps[j - 1]);
    }
  }

  lemma LogoutRecorded(p: Policy, w: World, s: Step)
    requires Enabled(p, w, s) && s.CommitLogout?
    ensures w.threads[s.thread].sid in Apply(p, w, s).h.notified
  {
    hide T.IsLatestParent, T.Backchannel;
  }

  lemma NotifiedGone(p: Policy, w: World, sid: Id)
    requires Inv(p, w) && sid in w.h.notified
    ensures !HasSession(w.db, sid) && sid in w.view.revokedAt
  {
    hide SessionsOk, ThreadsOk, AcceptedOk;
  }

  /** Once a back-channel logout of a sid has committed, no later state holds a session of that sid: not by a
      callback or a refresh paused across the commit, and not after the tombstone has been collected. */
  lemma NoResurrection(p: Policy, states: seq<World>, steps: seq<Step>, i: nat, j: nat)
    requires IsRun(p, states, steps) && Initial(states[0]) && i < j < |states| && i < |steps|
    requires steps[i].CommitLogout? && Enabled(p, states[i], steps[i])
    ensures !HasSession(states[j].db, states[i].threads[steps[i].thread].sid)
  {
    hide Inv, Initial, Apply, HasSession;
    var sid := states[i].threads[steps[i].thread].sid;
    LogoutRecorded(p, states[i], steps[i]);
    NotifiedStays(p, states, steps, i + 1, j, sid);
    RunKeeps(p, states, steps, j);
    NotifiedGone(p, states[j], sid);
  }

  // ---------------------------------------------------------------- bounded staleness

  /** Every request that `current` ever accepted had checked its lease at a clock reading before the revocation of
      its sid plus lease_ttl. */
  lemma BoundedStaleness(p: Policy, states: seq<World>, steps: seq<Step>, i: nat, a: Accepted)
    requires IsRun(p, states, steps) && Initial(states[0]) && i < |states|
    requires a in states[i].h.accepted && a.sid in states[i].view.revokedAt
    ensures a.checkedAt < states[i].view.revokedAt[a.sid] + p.leaseTtl
  {
    hide Initial, IsRun, SessionsOk, ThreadsOk, NotifiedOk, Exclusive;
    RunKeeps(p, states, steps, i);
  }

  /** In every reachable state: lease and idle bounds stay within the parent's, the parent's is the provider's, and
      no sid has both a tombstone and a session. */
  lemma SessionBounds(p: Policy, states: seq<World>, steps: seq<Step>, i: nat, x: Id)
    requires IsRun(p, states, steps) && Initial(states[0]) && i < |states| && x in states[i].db.appSessions
    ensures var s := states[i].db.appSessions[x];
            && s.leaseUntil <= s.parentExpires && s.idleExpires <= s.parentExpires
            && s.sid in states[i].view.expires && s.parentExpires == states[i].view.expires[s.sid]
            && s.sid !in states[i].db.tombstones
  {
    hide Initial, IsRun, ThreadsOk, NotifiedOk, AcceptedOk, LeaseBounded;
    RunKeeps(p, states, steps, i);
  }

  // ---------------------------------------------------------------- the lease is not checked again

  /** The last UPDATE of `current` is about to accept the request of this thread. */
  predicate WillAccept(w: World, thread: Id) {
    thread in w.threads && w.threads[thread].Touching? && T.Current(w.db, w.threads[thread].hash, w.now)
  }

  function TouchedSession(w: World, thread: Id): T.AppSession
    requires WillAccept(w, thread)
  {
    w.db.appSessions[w.threads[thread].hash]
  }

  /** A request whose lease is still running at commit is accepted before the revocation plus lease_ttl: this is the
      test that the last UPDATE leaves out. */
  lemma OnTimeWhileLeased(p: Policy, w: World, thread: Id, at: int)
    requires Inv(p, w) && at <= w.now && WillAccept(w, thread) && TouchedSession(w, thread).leaseUntil > w.now
    ensures var s := TouchedSession(w, thread);
            && Accepted(s.sid, w.threads[thread].checkedAt, w.now) in AfterCommitTouch(p, w, thread, at).h.accepted
            && (s.sid in w.view.revokedAt ==> w.now < w.view.revokedAt[s.sid] + p.leaseTtl)
  {
    hide ThreadsOk, NotifiedOk, AcceptedOk, Exclusive;
    assert SessionOk(p, w.view, w.now, w.h.owners, w.threads[thread].hash, TouchedSession(w, thread));
  }

  /** In this run step i accepts a request at time c, on a stored row with these bounds, although its sid was revoked
      at time r, lease_ttl ago or more. */
  ghost predicate AcceptsLate(p: Policy, states: seq<World>, steps: seq<Step>, i: nat, lease: int, idle: int,
                              parent: int, r: int, c: int)
  {
    && IsRun(p, states, steps) && Initial(states[0]) && i < |steps| && steps[i].CommitTouch?
    && var w := states[i];
    && WillAccept(w, steps[i].thread) && w.now == c
    && var s := TouchedSession(w, steps[i].thread);
    && s.leaseUntil == lease && s.idleExpires == idle && s.parentExpires == parent
    && s.sid in w.view.revokedAt && w.view.revokedAt[s.sid] == r && c >= r + p.leaseTtl
  }

  /** When the session is checked for the lease. */
  function CheckedWhen(p: Policy, lease: int): int { Max(0, lease - p.leaseTtl) }

  /** A login, a request that finds its lease running, the revocation at time r, and then the request's last UPDATE at
      time c. */
  function LateSteps(p: Policy, lease: int, idle: int, parent: int, r: int, c: int): seq<Step> {
    var t := CheckedWhen(p, lease);
    [ProviderMoves(View(map[9 := parent], map[])), StartLogin(1, 2, t), BeginCallback(1, 1, 2, t, 0),
      TokenAnswer(1, 9, 3, 0),
     CheckAnswer(1, T.Answer(parent, 3, 0, lease - t, idle - t)), Bound(1), CommitCallback(1, 5), BeginCurrent(2, 5, t),
     Tick(r), ProviderMoves(View(map[9 := parent], map[9 := r])), Tick(c), CommitTouch(2, c)]
  }

  function LateLogin(p: Policy, r: int, consumed: bool): T.Tables {
    T.Tables(map[1 := T.Login(2, r + p.loginTtl, p.Retained(r + p.loginTtl), consumed)], map[], map[], map[], map[])
  }

  function LateSession(p: Policy, lease: int, idle: int, parent: int): T.AppSession {
    T.AppSession(9, 3, 0, lease, parent, idle, p.Retained(parent))
  }

  function LateStates(p: Policy, lease: int, idle: int, parent: int, r: int, c: int): seq<World> {
    var t := CheckedWhen(p, lease);
    var none := T.Tables(map[], map[], map[], map[], map[]);
    var seen, revoked := View(map[9 := parent], map[]), View(map[9 := parent], map[9 := r]);
    var quiet, owned := Hist({}, {}, map[]), Hist({}, {}, map[5 := 9]);
    var taken := LateLogin(p, t, true);
    var s := LateSession(p, lease, idle, parent);
    var held := taken.(appSessions := map[5 := s]);
    var for9 := NewSession(t + p.loginTtl, 0);
    [World(t, View(map[], map[]), none, map[], quiet), World(t, seen, none, map[], quiet),
      World(t, seen, LateLogin(p, t, false), map[], quiet),
     World(t, seen, taken, map[1 := Exchanging(t + p.loginTtl, 0)], quiet),
     World(t, seen, taken, map[1 := Checking(for9, 9, 3, 0, t)], quiet),
     World(t, seen, taken, map[1 := Answered(for9, 9, 3, 0, t, T.Answer(parent, 3, 0, lease - t, idle - t))], quiet),
     World(t, seen, taken, map[1 := Ready(for9, 9, 3, 0, t, T.Checked(lease, parent, idle))], quiet),
     World(t, seen, held, map[], owned), World(t, seen, held, map[2 := Touching(5, 9, t)], owned),
     World(r, seen, held, map[2 := Touching(5, 9, t)], owned),
     World(r, revoked, held, map[2 := Touching(5, 9, t)], owned),
       World(c, revoked, held, map[2 := Touching(5, 9, t)], owned),
     World(c, revoked, held.(appSessions := map[5 := s.(idleExpires := Min(c + p.idleTimeout, parent))]), map[],
           owned.(accepted := {Accepted(9, t, c)}))]
  }

  /** The bounds under which the run exists. */
  predicate LatePossible(p: Policy, lease: int, idle: int, parent: int, r: int, c: int) {
    0 <= r && 0 < lease <= r + p.leaseTtl <= c < idle <= parent
  }

  ghost predicate LateStep(p: Policy, lease: int, idle: int, parent: int, r: int, c: int, i: nat)
    requires i < 12
  {
    var states, steps := LateStates(p, lease, idle, parent, r, c), LateSteps(p, lease, idle, parent, r, c);
    Enabled(p, states[i], steps[i]) && states[i + 1] == Apply(p, states[i], steps[i])
  }

  lemma LateStarts(p: Policy, lease: int, idle: int, parent: int, r: int, c: int)
    requires LatePossible(p, lease, idle, parent, r, c)
    ensures LateStep(p, lease, idle, parent, r, c, 0) && LateStep(p, lease, idle, parent, r, c, 1)
  {
  }

  lemma LateExchanges(p: Policy, lease: int, idle: int, parent: int, r: int, c: int)
    requires LatePossible(p, lease, idle, parent, r, c)
    ensures LateStep(p, lease, idle, parent, r, c, 2) && LateStep(p, lease, idle, parent, r, c, 3)
  {
  }

  lemma LateChecks(p: Policy, lease: int, idle: int, parent: int, r: int, c: int)
    requires LatePossible(p, lease, idle, parent, r, c)
    ensures LateStep(p, lease, idle, parent, r, c, 4) && LateStep(p, lease, idle, parent, r, c, 5)
  {
  }

  lemma LateCommits(p: Policy, lease: int, idle: int, parent: int, r: int, c: int)
    requires LatePossible(p, lease, idle, parent, r, c)
    ensures LateStep(p, lease, idle, parent, r, c, 6)
  {
    var w := LateStates(p, lease, idle, parent, r, c)[6];
    assert w.threads - {1} == map[];
    assert w.db.appSessions - {0} == map[];
  }

  lemma LateRequests(p: Policy, lease: int, idle: int, parent: int, r: int, c: int)
    requires LatePossible(p, lease, idle, parent, r, c)
    ensures LateStep(p, lease, idle, parent, r, c, 7) && LateStep(p, lease, idle, parent, r, c, 8)
    ensures LateStep(p, lease, idle, parent, r, c, 9) && LateStep(p, lease, idle, parent, r, c, 10)
  {
  }

  lemma LateTouches(p: Policy, lease: int, idle: int, parent: int, r: int, c: int)
    requires LatePossible(p, lease, idle, parent, r, c)
    ensures LateStep(p, lease, idle, parent, r, c, 11)
  {
    assert LateStates(p, lease, idle, parent, r, c)[11].threads - {2} == map[];
  }

  lemma LateRun(p: Policy, lease: int, idle: int, parent: int, r: int, c: int)
    requires LatePossible(p, lease, idle, parent, r, c)
    ensures AcceptsLate(p, LateStates(p, lease, idle, parent, r, c), LateSteps(p, lease, idle, parent, r, c), 11, lease,
            idle, parent, r, c)
  {
    hide Possible, Honest, Apply;
    LateStarts(p, lease, idle, parent, r, c);
    LateExchanges(p, lease, idle, parent, r, c);
    LateChecks(p, lease, idle, parent, r, c);
    LateCommits(p, lease, idle, parent, r, c);
    LateRequests(p, lease, idle, parent, r, c);
    LateTouches(p, lease, idle, parent, r, c);
    assert forall i :: 0 <= i < 12 ==> LateStep(p, lease, idle, parent, r, c, i);
  }

  lemma LateBounds(p: Policy, states: seq<World>, steps: seq<Step>, i: nat, lease: int, idle: int, parent: int, r: int,
                   c: int)
    requires AcceptsLate(p, states, steps, i, lease, idle, parent, r, c)
    ensures LatePossible(p, lease, idle, parent, r, c)
  {
    hide Initial, IsRun, ThreadsOk, NotifiedOk, AcceptedOk, Exclusive;
    RunBounds(p, states, steps);
    RunKeeps(p, states, steps, i);
    var w, thread := states[i], steps[i].thread;
    if TouchedSession(w, thread).leaseUntil > w.now { OnTimeWhileLeased(p, w, thread, w.now); }
    assert SessionOk(p, w.view, w.now, w.h.owners, w.threads[thread].hash, TouchedSession(w, thread));
  }

  lemma RunBounds(p: Policy, states: seq<World>, steps: seq<Step>)
    requires IsRun(p, states, steps)
    ensures |states| == |steps| + 1
  {
    hide Apply, Possible, Honest;
  }

  /** Exactly when a request can be accepted at commit time c although its sid was revoked at time r, lease_ttl ago or
      more: when the lease on the stored row was granted by then, so that it has run out, and c is within the row's idle
      and parent bounds. A test of the lease in the last UPDATE would exclude every such run. */
  lemma LateExactly(p: Policy, lease: int, idle: int, parent: int, r: int, c: int)
    ensures (exists states: seq<World>, steps: seq<Step>, i: nat ::
            AcceptsLate(p, states, steps, i, lease, idle, parent, r, c))
            <==> 0 <= r && 0 < lease <= r + p.leaseTtl <= c < idle <= parent
  {
    hide AcceptsLate, LateStates, LateSteps;
    if LatePossible(p, lease, idle, parent, r, c) { LateRun(p, lease, idle, parent, r, c); }
    forall states: seq<World>, steps: seq<Step>, i: nat | AcceptsLate(p, states, steps, i, lease, idle, parent, r, c)
      ensures LatePossible(p, lease, idle, parent, r, c)
    {
      LateBounds(p, states, steps, i, lease, idle, parent, r, c);
    }
  }

  /** With the example policy: revoked at 0, and accepted at 400 although lease_ttl is 300. */
  lemma LateAcceptance()
    ensures exists states: seq<World>, steps: seq<Step>, i: nat ::
            AcceptsLate(EXAMPLE, states, steps, i, 300, 604800, 1000000, 0, 400)
  {
    hide AcceptsLate;
    LateExactly(EXAMPLE, 300, 604800, 1000000, 0, 400);
  }
}
