/** The batches of the relying party written out row by row, and what they mean for a session over whole runs. */
module RpSessionLaw {
  import opened Wrappers
  import opened RuntimePolicy
  import T = RpTables
  import opened RpMachine
  import opened RpInvariants
  import opened RpTheorems

  ghost predicate Earlier(t: int, a: int, b: int) { t <= a && t <= b && (t == a || t == b) }

  // ---------------------------------------------------------------- the batches

  /** An answer is good exactly if it is about this subject and this authentication, grants a positive lease within
      policy, and the lease is still running; the lease counts from before the request was sent. */
  lemma CheckedExactly(p: Policy, answer: T.Answer, sub: Id, authTime: int, started: int, at: int)
    ensures var r := T.CheckedSession(p, answer, sub, authTime, started, at);
            && (r.Some? <==>
               answer.sub == sub && answer.authTime == authTime && 0 < answer.leaseTtl <= p.leaseTtl
               && at < started + answer.leaseTtl && at < answer.expires)
            && (r.Some? ==>
               && Earlier(r.value.lease, started + answer.leaseTtl, answer.expires)
               && r.value.parent == answer.expires && Earlier(r.value.idle, at + answer.idleTtl, answer.expires))
  {
  }

  /** The sessions that a committed callback leaves: the browser's old session is gone, the new one has the bounds that
      were checked, and no other session changes. */
  ghost predicate Replaces(p: Policy, before: map<Id, T.AppSession>, after: map<Id, T.AppSession>, t: Thread, hash: Id)
    requires t.Ready? && t.purpose.NewSession?
  {
    && after.Keys == before.Keys - {t.purpose.replaced} + {hash}
    && (forall x :: x in before && x != t.purpose.replaced && x != hash ==> x in after && after[x] == before[x])
    && hash in after
    && after[hash] == T.AppSession(t.sid, t.sub, t.authTime, t.checked.lease, t.checked.parent, t.checked.idle,
                                   t.checked.parent + p.skew + p.grace)
  }

  /** A callback commits exactly if its sid has not been logged out, its lease and its login transaction are still
      running, and its new secret is unused. */
  lemma CallbackExactly(p: Policy, w: World, thread: Id, hash: Id)
    requires thread in w.threads && w.threads[thread].Ready? && w.threads[thread].purpose.NewSession?
    ensures var t, w' := w.threads[thread], AfterCommitCallback(p, w, thread, hash);
            if t.sid !in w.db.tombstones && w.now < t.checked.lease && w.now < t.purpose.loginExpires
               && (hash in w.db.appSessions ==> hash == t.purpose.replaced) then
              && Replaces(p, w.db.appSessions, w'.db.appSessions, t, hash)
              && w'.db == w.db.(appSessions := w'.db.appSessions)
              && w'.h == w.h.(owners := w.h.owners[hash := t.sid])
            else w' == Done(w, thread)
  {
  }

  /** A refresh commits exactly against the lease that was read, of a sid that has not been logged out; it changes
      nothing but that lease, which never passes the parent's end. */
  lemma RefreshExactly(db: T.Tables, hash: Id, seen: int, lease: int)
    ensures var r := T.RefreshLease(db, hash, seen, lease);
            && (r.Some? <==>
               hash in db.appSessions && db.appSessions[hash].leaseUntil == seen
               && db.appSessions[hash].sid !in db.tombstones)
            && (r.Some? ==>
               hash in r.value.appSessions
               && Earlier(r.value.appSessions[hash].leaseUntil, lease, db.appSessions[hash].parentExpires)
               && r.value == db.(appSessions := db.appSessions[hash :=
                    db.appSessions[hash].(leaseUntil := r.value.appSessions[hash].leaseUntil)]))
  {
  }

  /** The last UPDATE of a request finds its session exactly within the idle and the parent bound, of a sid that has not
      been logged out; it moves the idle bound to idle_timeout from the reading, or to the parent's end. */
  lemma TouchExactly(p: Policy, db: T.Tables, now: int, hash: Id, at: int)
    ensures var r := T.Touch(p, db, now, hash, at);
            && (r.Some? <==>
               hash in db.appSessions && now < db.appSessions[hash].idleExpires
               && now < db.appSessions[hash].parentExpires && db.appSessions[hash].sid !in db.tombstones)
            && (r.Some? ==>
               hash in r.value.appSessions
               && Earlier(r.value.appSessions[hash].idleExpires, at + p.idleTimeout, db.appSessions[hash].parentExpires)
               && r.value == db.(appSessions := db.appSessions[hash :=
                    db.appSessions[hash].(idleExpires := r.value.appSessions[hash].idleExpires)]))
  {
  }

  /** Everything that a tombstone written at reading `at` has to outlive, counted without skew and grace. */
  ghost function Outlived(p: Policy, at: int): set<int> {
    {at + p.ssoTtl, at + p.retryDeadline, at + p.loginTtl, at + p.codeTtl + p.idTokenTtl}
  }

  /** A back-channel logout drops exactly the sessions of its sid, remembers its token until skew and grace after its
      expiry, and leaves a tombstone until skew and grace after everything it has to outlive. */
  lemma BackchannelExactly(p: Policy, db: T.Tables, sid: Id, jti: Id, exp: int, at: int, latestParent: int)
    requires T.IsLatestParent(db, sid, latestParent)
    ensures var db' := T.Backchannel(p, db, sid, jti, exp, at, latestParent);
            && (forall x :: x in db'.appSessions <==> x in db.appSessions && db.appSessions[x].sid != sid)
            && (forall x :: x in db'.appSessions ==> db'.appSessions[x] == db.appSessions[x])
            && db'.logoutUses == (if jti in db.logoutUses then db.logoutUses
               else db.logoutUses[jti := exp + p.skew + p.grace])
            && sid in db'.tombstones && db'.tombstones == db.tombstones[sid := db'.tombstones[sid]]
            && (forall t :: t in Outlived(p, at) ==> t + p.skew + p.grace <= db'.tombstones[sid])
            && (forall x :: x in db.appSessions && db.appSessions[x].sid == sid ==>
               db.appSessions[x].parentExpires + p.skew + p.grace <= db'.tombstones[sid])
            && (sid in db.tombstones ==> db.tombstones[sid] <= db'.tombstones[sid])
            && ((sid in db.tombstones && db'.tombstones[sid] == db.tombstones[sid])
               || db'.tombstones[sid] - p.skew - p.grace in Outlived(p, at)
               || db'.tombstones[sid] - p.skew - p.grace == latestParent)
            && db'.logins == db.logins && db'.logoutTxs == db.logoutTxs
  {
  }

  /** Logging out locally drops the browser's session and opens a transaction for the return. */
  lemma LocalLogoutExactly(p: Policy, db: T.Tables, hash: Id, state: Id, browser: Id, at: int)
    ensures var r := T.LocalLogout(p, db, hash, state, browser, at);
            && (r.Some? <==> state !in db.logoutTxs)
            && (r.Some? ==> r.value == db.(appSessions := db.appSessions - {hash}, logoutTxs := db.logoutTxs[state :=
               T.LogoutTx(browser, at + p.loginTtl, at + p.loginTtl + p.skew + p.grace)]))
  {
  }

  /** The return from the provider counts exactly for the browser that logged out, before its transaction expires, and
      only once. */
  lemma FinishLogoutExactly(db: T.Tables, state: Id, browser: Id, at: int)
    ensures var r := T.FinishLogout(db, state, browser, at);
            && (r.Some? <==>
               state in db.logoutTxs && db.logoutTxs[state].browser == browser && at < db.logoutTxs[state].expiresAt)
            && (r.Some? ==> r.value == db.(logoutTxs := db.logoutTxs - {state}))
  {
  }

  // ---------------------------------------------------------------- what a step does to the sessions

  /** What a step may do to a stored session. */
  ghost predicate SessionMoves(p: Policy, w: World, s: Step, x: Id, row: T.AppSession, row': T.AppSession) {
    || row' == row
    || (s.CommitRefresh? && s.thread in w.threads && w.threads[s.thread].Ready?
        && w.threads[s.thread].purpose == Refresh(x, row.leaseUntil)
        && Earlier(row'.leaseUntil, w.threads[s.thread].checked.lease, row.parentExpires)
        && row' == row.(leaseUntil := row'.leaseUntil))
    || (s.CommitTouch? && s.thread in w.threads && w.threads[s.thread].Touching? && w.threads[s.thread].hash == x
        && w.now < row.idleExpires && w.now < row.parentExpires
        && Earlier(row'.idleExpires, s.at + p.idleTimeout, row.parentExpires)
        && row' == row.(idleExpires := row'.idleExpires))
  }

  /** The session that a committed callback has just opened. */
  ghost predicate OpenedBy(p: Policy, w: World, s: Step, x: Id, row: T.AppSession) {
    && s.CommitCallback? && s.hash == x && s.thread in w.threads && w.threads[s.thread].Ready?
    && w.threads[s.thread].purpose.NewSession?
    && var t := w.threads[s.thread];
    && row == T.AppSession(t.sid, t.sub, t.authTime, t.checked.lease, t.checked.parent, t.checked.idle,
                           t.checked.parent + p.skew + p.grace)
    && w.now < t.checked.lease && w.now < t.purpose.loginExpires && t.sid !in w.db.tombstones
  }

  /** Sessions are opened by callbacks, under secrets never used before, and otherwise only move their bounds. */
  ghost predicate SessionsMove(p: Policy, w: World, s: Step, after: map<Id, T.AppSession>) {
    forall x :: x in after ==>
      if x in w.db.appSessions then SessionMoves(p, w, s, x, w.db.appSessions[x], after[x])
      else x !in w.h.owners && OpenedBy(p, w, s, x, after[x])
  }

  lemma SameSessions(p: Policy, w: World, s: Step)
    ensures SessionsMove(p, w, s, w.db.appSessions)
  {
  }

  lemma Owned(p: Policy, w: World)
    requires Inv(p, w)
    ensures forall x :: x in w.db.appSessions ==> x in w.h.owners
  {
    hide ThreadsOk, NotifiedOk, AcceptedOk, Exclusive;
  }

  lemma CallbackSessions(p: Policy, w: World, s: Step)
    requires s.CommitCallback? && Possible(p, w, s) && forall x :: x in w.db.appSessions ==> x in w.h.owners
    ensures SessionsMove(p, w, s, AfterCommitCallback(p, w, s.thread, s.hash).db.appSessions)
  {
    hide SessionMoves;
    CallbackExactly(p, w, s.thread, s.hash);
    SameSessionMoves(p, w, s);
  }

  lemma SameSessionMoves(p: Policy, w: World, s: Step)
    ensures forall x, row :: SessionMoves(p, w, s, x, row, row)
  {
  }

  lemma RefreshSessions(p: Policy, w: World, s: Step)
    requires s.CommitRefresh? && Possible(p, w, s)
    ensures SessionsMove(p, w, s, AfterCommitRefresh(w, s.thread).db.appSessions)
  {
    hide OpenedBy;
    var t := w.threads[s.thread];
    RefreshExactly(w.db, t.purpose.hash, t.purpose.seen, t.checked.lease);
  }

  lemma TouchSessions(p: Policy, w: World, s: Step)
    requires s.CommitTouch? && Possible(p, w, s)
    ensures SessionsMove(p, w, s, AfterCommitTouch(p, w, s.thread, s.at).db.appSessions)
  {
    hide OpenedBy;
    TouchExactly(p, w.db, w.now, w.threads[s.thread].hash, s.at);
  }

  lemma DroppedSessions(p: Policy, w: World, s: Step)
    requires Possible(p, w, s) && (s.CommitLogout? || s.LocalLogout? || s.Collect?)
    ensures SessionsMove(p, w, s, Apply(p, w, s).db.appSessions)
  {
    hide OpenedBy, SessionMoves, T.IsLatestParent, T.DoomedRows;
    SameSessionMoves(p, w, s);
  }

  lemma OtherSessions(p: Policy, w: World, s: Step)
    requires Possible(p, w, s)
    requires !s.CommitCallback? && !s.CommitRefresh? && !s.CommitTouch? && !s.CommitLogout? && !s.LocalLogout?
    requires !s.Collect?
    ensures Apply(p, w, s).db.appSessions == w.db.appSessions
  {
    hide T.Current, T.CheckedSession;
  }

  lemma StepIs(p: Policy, w: World, s: Step)
    requires Enabled(p, w, s)
    ensures s.CommitCallback? ==> Possible(p, w, s) && Apply(p, w, s) == AfterCommitCallback(p, w, s.thread, s.hash)
    ensures s.CommitRefresh? ==> Possible(p, w, s) && Apply(p, w, s) == AfterCommitRefresh(w, s.thread)
    ensures s.CommitTouch? ==> Possible(p, w, s) && Apply(p, w, s) == AfterCommitTouch(p, w, s.thread, s.at)
    ensures s.LocalLogout? ==> Apply(p, w, s) == AfterLocalLogout(p, w, s.hash, s.state, s.browser, s.at)
  {
    hide AfterCommitCallback, AfterCommitRefresh, AfterCommitTouch, AfterLocalLogout, Honest;
  }

  /** What one step of the relying party does to its sessions. */
  lemma SessionStep(p: Policy, w: World, s: Step)
    requires Inv(p, w) && Enabled(p, w, s)
    ensures SessionsMove(p, w, s, Apply(p, w, s).db.appSessions)
  {
    hide Inv, Apply, Possible, Honest, SessionsMove, AfterCommitCallback, AfterCommitRefresh, AfterCommitTouch;
    StepIs(p, w, s);
    if s.CommitCallback? {
      Owned(p, w);
      CallbackSessions(p, w, s);
    } else if s.CommitRefresh? {
      RefreshSessions(p, w, s);
    } else if s.CommitTouch? {
      TouchSessions(p, w, s);
    } else if s.CommitLogout? || s.LocalLogout? || s.Collect? {
      DroppedSessions(p, w, s);
    } else {
      OtherSessions(p, w, s);
      SameSessions(p, w, s);
    }
  }

  lemma OwnersGrow(p: Policy, w: World, s: Step)
    requires Enabled(p, w, s)
    ensures w.h.owners.Keys <= Apply(p, w, s).h.owners.Keys
  {
    hide T.IsLatestParent, T.DoomedRows, T.Backchannel, T.CommitCallback, T.ConsumeLogin, T.Delete, T.CheckedSession,
      SaysActive, ViewGrows;
  }

  lemma RunStep(p: Policy, states: seq<World>, steps: seq<Step>, i: nat)
    requires IsRun(p, states, steps) && Initial(states[0]) && i < |steps|
    ensures |states| == |steps| + 1 && Inv(p, states[i])
    ensures Enabled(p, states[i], steps[i]) && states[i + 1] == Apply(p, states[i], steps[i])
  {
    hide Inv, Initial, Apply, Possible, Honest;
    RunKeeps(p, states, steps, i);
  }

  // ---------------------------------------------------------------- sessions that stay gone

  /** A cookie secret that has been used and no longer opens a session never does again. */
  ghost predicate Retired(w: World, x: Id) { x in w.h.owners && x !in w.db.appSessions }

  lemma {:induction false} RetiredStays(p: Policy, states: seq<World>, steps: seq<Step>, i: nat, j: nat, x: Id)
    requires IsRun(p, states, steps) && Initial(states[0]) && i <= j < |states| && Retired(states[i], x)
    ensures Retired(states[j], x)
  {
    hide Inv, IsRun, Initial, Apply, Possible, Honest, OpenedBy, SessionMoves;
    if i < j {
      RetiredStays(p, states, steps, i, j - 1, x);
      RunBounds(p, states, steps);
      RunStep(p, states, steps, j - 1);
      SessionStep(p, states[j - 1], steps[j - 1]);
      OwnersGrow(p, states[j - 1], steps[j - 1]);
    }
  }

  /** Signing in again ends the browser's old session: after a callback has committed in a browser with a stored session
      under another secret, no later state holds a session under that secret. */
  lemma ReplacedForGood(p: Policy, states: seq<World>, steps: seq<Step>, i: nat, j: nat)
    requires IsRun(p, states, steps) && Initial(states[0]) && i < j < |states|
    requires i < |steps| && steps[i].CommitCallback? && steps[i].hash in states[i + 1].db.appSessions
    requires steps[i].thread in states[i].threads && states[i].threads[steps[i].thread].Ready?
             && states[i].threads[steps[i].thread].purpose.NewSession?
    requires states[i].threads[steps[i].thread].purpose.replaced in states[i].db.appSessions
    ensures states[i].threads[steps[i].thread].purpose.replaced !in states[j].db.appSessions
    ensures Replaces(p, states[i].db.appSessions, states[i + 1].db.appSessions, states[i].threads[steps[i].thread],
              steps[i].hash)
  {
    hide Inv, IsRun, Initial, Apply, Honest, AfterCommitCallback;
    var s := steps[i];
    RunStep(p, states, steps, i);
    StepIs(p, states[i], s);
    Owned(p, states[i]);
    CallbackExactly(p, states[i], s.thread, s.hash);
    RetiredStays(p, states, steps, i + 1, j, states[i].threads[s.thread].purpose.replaced);
  }

  /** Logging out locally is final for the browser's cookie. */
  lemma LocalLogoutForGood(p: Policy, states: seq<World>, steps: seq<Step>, i: nat, j: nat)
    requires IsRun(p, states, steps) && Initial(states[0]) && i < j < |states|
    requires i < |steps| && steps[i].LocalLogout? && steps[i].hash in states[i].db.appSessions
    requires steps[i].state !in states[i].db.logoutTxs
    ensures steps[i].hash !in states[j].db.appSessions
  {
    hide Inv, IsRun, Initial, Apply, Possible, Honest;
    var s := steps[i];
    RunStep(p, states, steps, i);
    StepIs(p, states[i], s);
    Owned(p, states[i]);
    LocalLogoutExactly(p, states[i].db, s.hash, s.state, s.browser, s.at);
    RetiredStays(p, states, steps, i + 1, j, s.hash);
  }

  // ---------------------------------------------------------------- idle and parent bounds

  /** Step s set the idle bound of session x to `idle`: by accepting a request, idle_timeout from its reading, or by
      opening the session. */
  ghost predicate IdleSetBy(p: Policy, w: World, s: Step, x: Id, row: T.AppSession) {
    || (s.CommitTouch? && s.thread in w.threads && w.threads[s.thread].Touching? && w.threads[s.thread].hash == x
        && Earlier(row.idleExpires, s.at + p.idleTimeout, row.parentExpires))
    || (s.CommitCallback? && s.hash == x && s.thread in w.threads && w.threads[s.thread].Ready?
        && row.idleExpires == w.threads[s.thread].checked.idle
           && row.parentExpires == w.threads[s.thread].checked.parent)
  }

  lemma IdleKept(p: Policy, w: World, s: Step, w': World, s': Step, x: Id, row: T.AppSession, row': T.AppSession)
    requires IdleSetBy(p, w, s, x, row) && SessionMoves(p, w', s', x, row, row')
    ensures IdleSetBy(p, w, s, x, row') || IdleSetBy(p, w', s', x, row')
  {
  }

  /** The idle bound of every stored session was set by its last accepted request, or by the callback that opened it. */
  lemma {:induction false} IdleOrigin(p: Policy, states: seq<World>, steps: seq<Step>, j: nat, x: Id)
    requires IsRun(p, states, steps) && Initial(states[0]) && j < |states| && |states| == |steps| + 1
    requires x in states[j].db.appSessions
    ensures exists i :: 0 <= i < j && IdleSetBy(p, states[i], steps[i], x, states[j].db.appSessions[x])
  {
    hide Inv, IsRun, Apply, Possible, Honest, IdleSetBy, SessionMoves, OpenedBy;
    if j > 0 {
      RunStep(p, states, steps, j - 1);
      SessionStep(p, states[j - 1], steps[j - 1]);
      if x in states[j - 1].db.appSessions {
        IdleOrigin(p, states, steps, j - 1, x);
        var i :| 0 <= i < j - 1 && IdleSetBy(p, states[i], steps[i], x, states[j - 1].db.appSessions[x]);
        IdleKept(p, states[i], steps[i], states[j - 1], steps[j - 1], x, states[j - 1].db.appSessions[x],
          states[j].db.appSessions[x]);
      } else {
        OpenedSetsIdle(p, states[j - 1], steps[j - 1], x, states[j].db.appSessions[x]);
      }
    }
  }

  lemma OpenedSetsIdle(p: Policy, w: World, s: Step, x: Id, row: T.AppSession)
    requires OpenedBy(p, w, s, x, row)
    ensures IdleSetBy(p, w, s, x, row)
  {
  }

  lemma AcceptedWithin(p: Policy, w: World, s: Step)
    requires Enabled(p, w, s) && s.CommitTouch? && Apply(p, w, s).db != w.db
    ensures s.thread in w.threads && w.threads[s.thread].Touching? && w.threads[s.thread].hash in w.db.appSessions
    ensures var row := w.db.appSessions[w.threads[s.thread].hash]; w.now < row.idleExpires && w.now < row.parentExpires
  {
    hide Apply, Honest;
    StepIs(p, w, s);
    TouchExactly(p, w.db, w.now, w.threads[s.thread].hash, s.at);
  }

  /** Step s accepts a request on session x, or opens it. */
  ghost predicate Uses(w: World, s: Step, x: Id) {
    s.CommitTouch? && s.thread in w.threads && w.threads[s.thread].Touching? && w.threads[s.thread].hash == x
  }

  ghost predicate Opens(w: World, s: Step, x: Id) {
    s.CommitCallback? && s.hash == x && s.thread in w.threads && w.threads[s.thread].Ready?
  }

  /** A request is only ever accepted on a session that was used, or opened, recently enough: before idle_timeout has
      passed since the reading of an earlier accepted request on it, or within the bounds that its opening check
      gave. */
  lemma IdleEnds(p: Policy, states: seq<World>, steps: seq<Step>, j: nat, x: Id)
    requires IsRun(p, states, steps) && Initial(states[0]) && j < |steps| && |states| == |steps| + 1
    requires Uses(states[j], steps[j], x) && states[j + 1].db != states[j].db
    ensures exists i :: 0 <= i < j
              && ((Uses(states[i], steps[i], x) && states[j].now < steps[i].at + p.idleTimeout)
                  || (Opens(states[i], steps[i], x) && states[j].now < states[i].threads[steps[i].thread].checked.idle
                      && states[j].now < states[i].threads[steps[i].thread].checked.parent))
  {
    hide Inv, IsRun, Initial, Apply, Possible, Honest;
    RunStep(p, states, steps, j);
    AcceptedWithin(p, states[j], steps[j]);
    IdleOrigin(p, states, steps, j, x);
  }

  // ---------------------------------------------------------------- tombstones

  /** The sid is blocked until skew and grace after everything that a tombstone written at reading `at` outlives. */
  ghost predicate Blocked(p: Policy, tombstones: map<Id, int>, sid: Id, at: int) {
    sid in tombstones && forall t :: t in Outlived(p, at) ==> t + p.skew + p.grace <= tombstones[sid]
  }

  ghost predicate NothingOutlived(p: Policy, at: int, now: int) {
    forall t :: t in Outlived(p, at) ==> t + p.skew + p.grace <= now
  }

  /** Tombstones are only raised, and only collected after their time. */
  ghost predicate TombstonesMove(w: World, s: Step, after: map<Id, int>) {
    forall sid :: sid in w.db.tombstones ==>
      if sid in after then w.db.tombstones[sid] <= after[sid]
      else s.Collect? && s.table == T.Tombstones && w.db.tombstones[sid] <= w.now
  }

  lemma TombstoneStep(p: Policy, w: World, s: Step)
    requires Enabled(p, w, s)
    ensures TombstonesMove(w, s, Apply(p, w, s).db.tombstones)
  {
    hide T.IsLatestParent, T.CommitCallback, T.ConsumeLogin, T.CheckedSession, SaysActive, ViewGrows, T.Current;
    if s.Collect? {
      forall row | row in s.victims ensures row in T.Rows(w.db, s.table) && T.Doomed(w.db, s.table, row, s.at) {
        assert row in T.DoomedRows(w.db, s.table, s.at);
      }
    } else if s.CommitCallback? {
      StepIs(p, w, s);
      CallbackExactly(p, w, s.thread, s.hash);
    } else if s.BeginCallback? {
      LoginsOnly(w, s.thread, s.state, s.browser, s.at, s.replaced);
    }
  }

  lemma LoginsOnly(w: World, thread: Id, state: Id, browser: Id, at: int, replaced: Id)
    ensures AfterBeginCallback(w, thread, state, browser, at, replaced).db.tombstones == w.db.tombstones
  {
  }

  lemma BlockedStarts(p: Policy, w: World, s: Step)
    requires Enabled(p, w, s) && s.CommitLogout?
    ensures s.thread in w.threads && w.threads[s.thread].Notifying?
    ensures Blocked(p, Apply(p, w, s).db.tombstones, w.threads[s.thread].sid, w.threads[s.thread].at)
  {
    hide T.Backchannel, T.IsLatestParent;
    var t := w.threads[s.thread];
    BackchannelExactly(p, w.db, t.sid, t.jti, t.exp, t.at, s.latestParent);
  }

  /** A back-channel logout blocks its sid for as long as any login, code, token, session or redelivery that was under
      way when its token was read may last: from then on the sid has a tombstone of at least that length, until a
      collection comes after it. */
  lemma {:induction false} TombstoneLasts(p: Policy, states: seq<World>, steps: seq<Step>, i: nat, j: nat, sid: Id,
                                          at: int)
    requires IsRun(p, states, steps) && Initial(states[0]) && i < j < |states| && |states| == |steps| + 1
    requires steps[i].CommitLogout? && steps[i].thread in states[i].threads
    requires states[i].threads[steps[i].thread].Notifying? && states[i].threads[steps[i].thread].sid == sid
    requires states[i].threads[steps[i].thread].at == at
    ensures Blocked(p, states[j].db.tombstones, sid, at)
            || exists k :: i < k < j && steps[k].Collect? && NothingOutlived(p, at, states[k].now)
  {
    hide Inv, IsRun, Initial, Apply, Possible, Honest;
    if j == i + 1 {
      RunStep(p, states, steps, i);
      BlockedStarts(p, states[i], steps[i]);
    } else {
      TombstoneLasts(p, states, steps, i, j - 1, sid, at);
      RunStep(p, states, steps, j - 1);
      TombstoneStep(p, states[j - 1], steps[j - 1]);
    }
  }

  // ---------------------------------------------------------------- login transactions

  /** Some login transaction of the run, opened before step j, ends at `e`. */
  ghost predicate Started(p: Policy, steps: seq<Step>, j: nat, e: int)
    requires j <= |steps|
  {
    exists i :: 0 <= i < j && steps[i].StartLogin? && steps[i].at + p.loginTtl == e
  }

  /** The end of the login transaction that a callback in this thread came from. */
  ghost function LoginEnd(t: Thread): Option<int> {
    match t
    case Exchanging(e, _) => Some(e)
    case Checking(NewSession(e, _), _, _, _, _) => Some(e)
    case Answered(NewSession(e, _), _, _, _, _, _) => Some(e)
    case Ready(NewSession(e, _), _, _, _, _, _) => Some(e)
    case _ => None
  }

  ghost predicate LoginsStarted(p: Policy, steps: seq<Step>, j: nat, w: World)
    requires j <= |steps|
  {
    && (forall l :: l in w.db.logins ==> Started(p, steps, j, w.db.logins[l].expiresAt))
    && (forall t :: t in w.threads && LoginEnd(w.threads[t]).Some? ==>
       Started(p, steps, j, LoginEnd(w.threads[t]).value))
  }

  /** Login ends only come from StartLogin and are passed on from a transaction to its callback. */
  ghost predicate LoginsMove(p: Policy, w: World, s: Step, w': World) {
    && (forall l :: l in w'.db.logins ==>
       || (l in w.db.logins && w'.db.logins[l].expiresAt == w.db.logins[l].expiresAt)
       || (s.StartLogin? && s.state == l && w'.db.logins[l] == T.Login(s.browser, s.at + p.loginTtl,
            s.at + p.loginTtl + p.skew + p.grace, false)))
    && (forall t :: t in w'.threads && LoginEnd(w'.threads[t]).Some? ==>
       || (t in w.threads && LoginEnd(w'.threads[t]) == LoginEnd(w.threads[t]))
       || (s.BeginCallback? && s.thread == t && s.state in w.db.logins && w.db.logins[s.state].browser == s.browser
           && s.at < w.db.logins[s.state].expiresAt && !w.db.logins[s.state].consumed
           && LoginEnd(w'.threads[t]) == Some(w.db.logins[s.state].expiresAt)))
  }

  lemma LoginStep(p: Policy, w: World, s: Step)
    requires Enabled(p, w, s)
    ensures LoginsMove(p, w, s, Apply(p, w, s))
  {
    hide T.IsLatestParent, T.DoomedRows, T.CommitCallback, T.CheckedSession, SaysActive, ViewGrows, T.Current;
    if s.CommitCallback? {
      StepIs(p, w, s);
      CallbackExactly(p, w, s.thread, s.hash);
    }
  }

  lemma StartedLonger(p: Policy, steps: seq<Step>, j: nat, e: int)
    requires j < |steps| && Started(p, steps, j, e)
    ensures Started(p, steps, j + 1, e)
  {
  }

  lemma {:induction false} LoginOrigin(p: Policy, states: seq<World>, steps: seq<Step>, j: nat)
    requires IsRun(p, states, steps) && Initial(states[0]) && j < |states| && |states| == |steps| + 1
    ensures LoginsStarted(p, steps, j, states[j])
  {
    hide Inv, IsRun, Apply, Possible, Honest, Started, LoginEnd;
    if j > 0 {
      RunStep(p, states, steps, j - 1);
      LoginOrigin(p, states, steps, j - 1);
      LoginStep(p, states[j - 1], steps[j - 1]);
      forall e | Started(p, steps, j - 1, e) ensures Started(p, steps, j, e) { StartedLonger(p, steps, j - 1, e); }
      if steps[j - 1].StartLogin? { StartedNow(p, steps, j - 1); }
    }
  }

  lemma StartedNow(p: Policy, steps: seq<Step>, j: nat)
    requires j < |steps| && steps[j].StartLogin?
    ensures Started(p, steps, j + 1, steps[j].at + p.loginTtl)
  {
  }

  /** A session is only ever opened within transaction_ttl of the start of a login. */
  lemma LoginEndsInTime(p: Policy, states: seq<World>, steps: seq<Step>, j: nat)
    requires IsRun(p, states, steps) && Initial(states[0]) && j < |steps| && |states| == |steps| + 1
    requires steps[j].CommitCallback? && states[j + 1].db != states[j].db
    ensures exists i :: 0 <= i < j && steps[i].StartLogin? && states[j].now < steps[i].at + p.loginTtl
  {
    hide Inv, IsRun, Initial, Apply, Honest;
    RunStep(p, states, steps, j);
    StepIs(p, states[j], steps[j]);
    CallbackExactly(p, states[j], steps[j].thread, steps[j].hash);
    LoginOrigin(p, states, steps, j);
    assert LoginEnd(states[j].threads[steps[j].thread]).Some?;
  }

  // ---------------------------------------------------------------- what ends a session

  /** Step s ends session x: a new login in its browser, its own logout, the logout of its sid, or a collection skew and
      grace after its parent's end. */
  ghost predicate EndsSession(p: Policy, w: World, s: Step, x: Id, sid: Id, parent: int) {
    || (s.CommitCallback? && s.thread in w.threads && w.threads[s.thread].Ready?
        && w.threads[s.thread].purpose.NewSession? && w.threads[s.thread].purpose.replaced == x)
    || (s.LocalLogout? && s.hash == x)
    || (s.CommitLogout? && s.thread in w.threads && w.threads[s.thread].Notifying? && w.threads[s.thread].sid == sid)
    || (s.Collect? && s.table == T.AppSessions && parent + p.skew + p.grace <= w.now)
  }

  lemma SessionGone(p: Policy, w: World, s: Step, x: Id)
    requires Inv(p, w) && Enabled(p, w, s) && x in w.db.appSessions && x !in Apply(p, w, s).db.appSessions
    ensures EndsSession(p, w, s, x, w.db.appSessions[x].sid, w.db.appSessions[x].parentExpires)
  {
    hide Inv, Apply, Honest, T.IsLatestParent, T.DoomedRows;
    OneSession(p, w, x);
    StepIs(p, w, s);
    if s.CommitCallback? {
      CallbackExactly(p, w, s.thread, s.hash);
    } else if s.CommitRefresh? {
      var t := w.threads[s.thread];
      RefreshExactly(w.db, t.purpose.hash, t.purpose.seen, t.checked.lease);
    } else if s.CommitTouch? {
      TouchExactly(p, w.db, w.now, w.threads[s.thread].hash, s.at);
    } else if s.CommitLogout? || s.Collect? || s.LocalLogout? {
      DroppedBy(p, w, s, x);
    } else {
      OtherSessions(p, w, s);
    }
  }

  lemma DroppedBy(p: Policy, w: World, s: Step, x: Id)
    requires Enabled(p, w, s) && x in w.db.appSessions && x !in Apply(p, w, s).db.appSessions
    requires s.CommitLogout? || s.Collect? || s.LocalLogout?
    ensures s.LocalLogout? ==> s.hash == x
    ensures s.CommitLogout? ==> s.thread in w.threads && w.threads[s.thread].Notifying?
                                && w.threads[s.thread].sid == w.db.appSessions[x].sid
    ensures s.Collect? ==> s.table == T.AppSessions && w.db.appSessions[x].gcAfter <= w.now
  {
    hide T.IsLatestParent;
    if s.Collect? { assert x in s.victims ==> x in T.DoomedRows(w.db, s.table, s.at); }
  }

  /** A session stays, with its subject, authentication time and parent bound, until one of these ends it. */
  lemma {:induction false} SessionLasts(p: Policy, states: seq<World>, steps: seq<Step>, i: nat, j: nat, x: Id,
                                        row: T.AppSession)
    requires IsRun(p, states, steps) && Initial(states[0]) && i <= j < |states| && |states| == |steps| + 1
    requires x in states[i].db.appSessions && SamePerson(states[i].db.appSessions[x], row)
    ensures (x in states[j].db.appSessions && SamePerson(states[j].db.appSessions[x], row))
            || exists k :: i <= k < j && EndsSession(p, states[k], steps[k], x, row.sid, row.parentExpires)
    decreases j - i
  {
    hide Inv, IsRun, Initial, Apply, Possible, Honest, EndsSession;
    if i < j {
      RunStep(p, states, steps, i);
      SessionStep(p, states[i], steps[i]);
      if x in states[i + 1].db.appSessions {
        SessionLasts(p, states, steps, i + 1, j, x, row);
      } else {
        SessionGone(p, states[i], steps[i], x);
      }
    }
  }

  ghost predicate SamePerson(s: T.AppSession, s': T.AppSession) {
    s'.sid == s.sid && s'.sub == s.sub && s'.authTime == s.authTime && s'.parentExpires == s.parentExpires
    && s'.gcAfter == s.gcAfter
  }

  // ---------------------------------------------------------------- collection

  /** Which rows a collection at time t may take. */
  ghost predicate Expendable(db: T.Tables, table: T.Table, row: Id, t: int)
    requires row in T.Rows(db, table)
  {
    match table
    case Logins => db.logins[row].expiresAt <= t && db.logins[row].gcAfter <= t
    case LogoutTxs => db.logoutTxs[row].expiresAt <= t && db.logoutTxs[row].gcAfter <= t
    case AppSessions => db.appSessions[row].parentExpires <= t && db.appSessions[row].gcAfter <= t
    case LogoutUses => db.logoutUses[row] <= t
    case Tombstones => db.tombstones[row] <= t && forall x :: x in db.appSessions ==> db.appSessions[x].sid != row
  }

  /** The five DELETE statements select exactly the expendable rows. */
  lemma DoomedExactly(db: T.Tables, table: T.Table, r: Id, at: int)
    ensures r in T.DoomedRows(db, table, at) <==> r in T.Rows(db, table) && Expendable(db, table, r, at)
  {
  }

  /** A collection removes only expendable rows, and only of its own table. */
  lemma CollectedOnly(p: Policy, w: World, s: Step, table: T.Table, r: Id)
    requires Enabled(p, w, s) && s.Collect?
    requires r in T.Rows(w.db, table) && r !in T.Rows(Apply(p, w, s).db, table)
    ensures s.table == table && r in s.victims && Expendable(w.db, table, r, w.now)
  {
    hide Honest, T.DoomedRows, Expendable;
    DoomedExactly(w.db, s.table, r, s.at);
    TakenRow(w, s, table, r);
    assert r in T.DoomedRows(w.db, table, s.at);
    StillExpendable(w.db, table, r, s.at, w.now);
  }

  lemma TakenRow(w: World, s: Step, table: T.Table, r: Id)
    requires s.Collect? && r in T.Rows(w.db, table) && r !in T.Rows(T.Delete(w.db, s.table, s.victims), table)
    ensures s.table == table && r in s.victims
  {
  }

  lemma StillExpendable(db: T.Tables, table: T.Table, r: Id, at: int, now: int)
    requires r in T.Rows(db, table) && Expendable(db, table, r, at) && at <= now
    ensures Expendable(db, table, r, now)
  {
  }
}
