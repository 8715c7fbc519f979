/** What holds in every reachable state of the relying party. */
module RpInvariants {
  import opened Wrappers
  import opened RuntimePolicy
  import T = RpTables
  import opened RpMachine

  type Id = T.Id

  /** A lease never outlives the revocation of its sid by more than lease_ttl, now or when it gets revoked. */
  ghost predicate LeaseBounded(p: Policy, view: View, now: int, sid: Id, lease: int) {
    lease <= p.leaseTtl + if sid in view.revokedAt then view.revokedAt[sid] else now
  }

  ghost predicate SessionOk(p: Policy, view: View, now: int, owners: map<Id, Id>, hash: Id, s: T.AppSession) {
    && 0 < s.leaseUntil <= s.parentExpires && s.idleExpires <= s.parentExpires
       && s.gcAfter == p.Retained(s.parentExpires)
    && s.sid in view.expires && view.expires[s.sid] == s.parentExpires
    && LeaseBounded(p, view, now, s.sid, s.leaseUntil)
    && hash in owners && owners[hash] == s.sid
  }

  ghost predicate SessionsOk(p: Policy, view: View, now: int, owners: map<Id, Id>, sessions: map<Id, T.AppSession>) {
    forall x :: x in sessions ==> SessionOk(p, view, now, owners, x, sessions[x])
  }

  /** No sid has both a tombstone and a session. */
  ghost predicate Exclusive(db: T.Tables) {
    forall x :: x in db.appSessions ==> db.appSessions[x].sid !in db.tombstones
  }

  ghost predicate PurposeOk(owners: map<Id, Id>, purpose: Purpose, sid: Id) {
    purpose.Refresh? ==> purpose.hash in owners && owners[purpose.hash] == sid
  }

  ghost predicate ThreadOk(p: Policy, view: View, now: int, owners: map<Id, Id>, t: Thread) {
    match t
    case Exchanging(_, _) => true
    case LeaseOver(hash, _, sid, _, _) => hash in owners && owners[hash] == sid
    case Checking(purpose, sid, _, _, started) => started <= now && PurposeOk(owners, purpose, sid)
    case Answered(purpose, sid, _, _, started, answer) =>
      && started <= now && PurposeOk(owners, purpose, sid)
      && sid in view.expires && view.expires[sid] == answer.expires
      && (sid in view.revokedAt ==> started <= view.revokedAt[sid])
    case Ready(purpose, sid, _, _, checkedAt, checked) =>
      && 0 <= checkedAt <= now && checkedAt < checked.lease && PurposeOk(owners, purpose, sid)
      && checked.lease <= checked.parent && checked.idle <= checked.parent
      && sid in view.expires && view.expires[sid] == checked.parent
      && LeaseBounded(p, view, now, sid, checked.lease)
    case Touching(hash, sid, checkedAt) =>
      && hash in owners && owners[hash] == sid
      && checkedAt <= now && (sid in view.revokedAt ==> checkedAt < view.revokedAt[sid] + p.leaseTtl)
    case Notifying(sid, _, _, at) => sid in view.revokedAt && view.revokedAt[sid] <= at <= now
  }

  ghost predicate ThreadsOk(p: Policy, view: View, now: int, owners: map<Id, Id>, threads: map<Id, Thread>) {
    forall t :: t in threads ==> ThreadOk(p, view, now, owners, threads[t])
  }

  /** A notified sid has no session. Its tombstone outlives every lease a paused callback may still carry; once it
      has been collected no such lease is running. */
  ghost predicate NotifiedOk(p: Policy, view: View, now: int, db: T.Tables, notified: set<Id>) {
    forall sid :: sid in notified ==>
      && sid in view.revokedAt
      && (forall x :: x in db.appSessions ==> db.appSessions[x].sid != sid)
      && if sid in db.tombstones then db.tombstones[sid] > view.revokedAt[sid] + p.leaseTtl
         else now >= view.revokedAt[sid] + p.leaseTtl
  }

  ghost predicate AcceptedOk(p: Policy, view: View, now: int, accepted: set<Accepted>) {
    forall a :: a in accepted ==>
      a.checkedAt <= now && (a.sid in view.revokedAt ==> a.checkedAt < view.revokedAt[a.sid] + p.leaseTtl)
  }

  /** The clock starts at or after 0, and revocations are dated by it. */
  ghost predicate ViewPast(view: View, now: int) {
    now >= 0 && forall k :: k in view.revokedAt ==> 0 <= view.revokedAt[k] <= now
  }

  ghost predicate Inv(p: Policy, w: World) {
    && SessionsOk(p, w.view, w.now, w.h.owners, w.db.appSessions)
    && Exclusive(w.db)
    && ThreadsOk(p, w.view, w.now, w.h.owners, w.threads)
    && NotifiedOk(p, w.view, w.now, w.db, w.h.notified)
    && AcceptedOk(p, w.view, w.now, w.h.accepted)
    && ViewPast(w.view, w.now)
  }

  lemma InitialInv(p: Policy, w: World)
    requires Initial(w)
    ensures Inv(p, w)
  {
  }

  /** A thread of an unchanged world may be replaced by any good thread. */
  lemma ThreadReplaced(p: Policy, w: World, thread: Id, t: Thread)
    requires Inv(p, w) && ThreadOk(p, w.view, w.now, w.h.owners, t)
    ensures Inv(p, w.(threads := w.threads[thread := t]))
  {
    hide ThreadOk, SessionOk;
  }

  lemma ThreadDone(p: Policy, w: World, thread: Id)
    requires Inv(p, w)
    ensures Inv(p, Done(w, thread))
  {
    hide ThreadOk, SessionOk;
  }

  lemma TickKeeps(p: Policy, w: World, to: int)
    requires Inv(p, w) && to >= w.now
    ensures Inv(p, w.(now := to))
  {
  }

  lemma ProviderKeeps(p: Policy, w: World, view: View)
    requires Inv(p, w) && ViewGrows(w.view, view, w.now)
    ensures Inv(p, w.(view := view))
  {
  }

  lemma LoginsKeep(p: Policy, w: World, db: T.Tables)
    requires Inv(p, w) && db.appSessions == w.db.appSessions && db.tombstones == w.db.tombstones
    ensures Inv(p, w.(db := db))
  {
    hide ThreadOk, SessionOk;
  }

  /** Dropping sessions, and tombstones that have run out, is safe. */
  lemma DropsKeep(p: Policy, w: World, db: T.Tables)
    requires Inv(p, w)
    requires forall x :: x in db.appSessions ==> x in w.db.appSessions && db.appSessions[x] == w.db.appSessions[x]
    requires forall sid :: sid in db.tombstones ==> sid in w.db.tombstones && db.tombstones[sid] == w.db.tombstones[sid]
    requires forall sid :: sid in w.db.tombstones && sid !in db.tombstones ==> w.db.tombstones[sid] <= w.now
    ensures Inv(p, w.(db := db))
  {
    hide ThreadOk, SessionOk;
  }

  lemma BoundKeeps(p: Policy, w: World, thread: Id)
    requires Inv(p, w) && thread in w.threads && w.threads[thread].Answered?
    ensures Inv(p, AfterBound(p, w, thread))
  {
    hide Inv;
    ThreadDone(p, w, thread);
    OneThread(p, w, thread);
    var t := w.threads[thread];
    var checked := T.CheckedSession(p, t.answer, t.sub, t.authTime, t.started, w.now);
    if checked.Some? { ThreadReplaced(p, w, thread, Ready(t.purpose, t.sid, t.sub, t.authTime, w.now, checked.value)); }
  }

  lemma OneThread(p: Policy, w: World, thread: Id)
    requires Inv(p, w) && thread in w.threads
    ensures ThreadOk(p, w.view, w.now, w.h.owners, w.threads[thread]) && ViewPast(w.view, w.now)
  {
    hide ThreadOk, SessionOk;
  }

  lemma CheckKeeps(p: Policy, w: World, thread: Id, answer: T.Answer)
    requires Inv(p, w) && thread in w.threads && w.threads[thread].Checking?
             && SaysActive(w.view, w.now, w.threads[thread].sid, answer)
    ensures Inv(p, AfterCheckAnswer(w, thread, answer))
  {
    hide Inv;
    OneThread(p, w, thread);
    var t := w.threads[thread];
    ThreadReplaced(p, w, thread, Answered(t.purpose, t.sid, t.sub, t.authTime, t.started, answer));
  }

  /** A callback that was paused across a back-channel logout of its sid cannot commit: either the tombstone is still
      there, or the lease it carries has run out. */
  lemma PausedCallbackFails(p: Policy, w: World, thread: Id, hash: Id)
    requires Inv(p, w) && thread in w.threads && w.threads[thread].Ready? && w.threads[thread].purpose.NewSession?
    requires w.threads[thread].sid in w.h.notified
    ensures AfterCommitCallback(p, w, thread, hash) == Done(w, thread)
  {
    hide SessionOk;
    OneThread(p, w, thread);
  }

  lemma CommitCallbackKeeps(p: Policy, w: World, thread: Id, hash: Id)
    requires Inv(p, w) && thread in w.threads && w.threads[thread].Ready? && w.threads[thread].purpose.NewSession?
             && hash !in w.h.owners
    ensures Inv(p, AfterCommitCallback(p, w, thread, hash))
  {
    var t := w.threads[thread];
    ThreadDone(p, w, thread);
    if t.sid in w.h.notified {
      PausedCallbackFails(p, w, thread, hash);
    } else {
      OneThread(p, w, thread);
    }
  }

  lemma BeginCurrentKeeps(p: Policy, w: World, thread: Id, hash: Id, at: int)
    requires Inv(p, w) && at <= w.now
    ensures Inv(p, AfterBeginCurrent(w, thread, hash, at))
  {
    hide NotifiedOk, AcceptedOk, Exclusive, ThreadsOk;
    if T.Current(w.db, hash, at) {
      var s := w.db.appSessions[hash];
      assert SessionOk(p, w.view, w.now, w.h.owners, hash, s);
      ThreadReplaced(p, w, thread, if s.leaseUntil <= at then LeaseOver(hash, s.leaseUntil, s.sid, s.sub, s.authTime)
                                   else Touching(hash, s.sid, at));
    }
  }

  lemma SendKeeps(p: Policy, w: World, thread: Id)
    requires Inv(p, w) && thread in w.threads && w.threads[thread].LeaseOver?
    ensures Inv(p, AfterSendCheck(w, thread))
  {
    hide Inv;
    OneThread(p, w, thread);
    var t := w.threads[thread];
    ThreadReplaced(p, w, thread, Checking(Refresh(t.hash, t.seen), t.sid, t.sub, t.authTime, w.now));
  }

  lemma SessionUpdated(p: Policy, w: World, hash: Id, s: T.AppSession)
    requires Inv(p, w) && hash in w.db.appSessions && s.sid == w.db.appSessions[hash].sid
    requires SessionOk(p, w.view, w.now, w.h.owners, hash, s)
    ensures Inv(p, w.(db := w.db.(appSessions := w.db.appSessions[hash := s])))
  {
    hide ThreadOk, SessionOk;
  }

  lemma OneSession(p: Policy, w: World, hash: Id)
    requires Inv(p, w) && hash in w.db.appSessions
    ensures SessionOk(p, w.view, w.now, w.h.owners, hash, w.db.appSessions[hash])
  {
    hide ThreadOk, SessionOk;
  }

  lemma CommitRefreshKeeps(p: Policy, w: World, thread: Id)
    requires Inv(p, w) && thread in w.threads && w.threads[thread].Ready? && w.threads[thread].purpose.Refresh?
    ensures Inv(p, AfterCommitRefresh(w, thread))
  {
    hide Inv;
    var t := w.threads[thread];
    ThreadDone(p, w, thread);
    OneThread(p, w, thread);
    var hash := t.purpose.hash;
    if T.RefreshLease(w.db, hash, t.purpose.seen, t.checked.lease).Some? {
      OneSession(p, w, hash);
      var s := w.db.appSessions[hash];
      SessionUpdated(p, w, hash, s.(leaseUntil := Min(t.checked.lease, s.parentExpires)));
      var w1 := w.(db := T.RefreshLease(w.db, hash, t.purpose.seen, t.checked.lease).value);
      ThreadReplaced(p, w1, thread, Touching(hash, s.sid, t.checkedAt));
    }
  }

  lemma CommitTouchKeeps(p: Policy, w: World, thread: Id, at: int)
    requires Inv(p, w) && thread in w.threads && w.threads[thread].Touching? && at <= w.now
    ensures Inv(p, AfterCommitTouch(p, w, thread, at))
  {
    hide Inv;
    var t := w.threads[thread];
    ThreadDone(p, w, thread);
    OneThread(p, w, thread);
    if T.Touch(p, w.db, w.now, t.hash, at).Some? {
      OneSession(p, w, t.hash);
      var s := w.db.appSessions[t.hash];
      var done := Done(w, thread);
      SessionUpdated(p, done, t.hash, s.(idleExpires := Min(at + p.idleTimeout, s.parentExpires)));
      var w1 := done.(db := T.Touch(p, w.db, w.now, t.hash, at).value);
      AcceptedAdded(p, w1, Accepted(s.sid, t.checkedAt, w.now));
    }
  }

  lemma AcceptedAdded(p: Policy, w: World, a: Accepted)
    requires Inv(p, w) && a.checkedAt <= w.now && (a.sid in w.view.revokedAt ==>
             a.checkedAt < w.view.revokedAt[a.sid] + p.leaseTtl)
    ensures Inv(p, w.(h := w.h.(accepted := w.h.accepted + {a})))
  {
    hide ThreadOk, SessionOk;
  }

  lemma CommitLogoutKeeps(p: Policy, w: World, thread: Id, latestParent: int)
    requires Inv(p, w) && thread in w.threads && w.threads[thread].Notifying?
             && T.IsLatestParent(w.db, w.threads[thread].sid, latestParent)
    ensures Inv(p, AfterCommitLogout(p, w, thread, latestParent))
  {
    hide ThreadOk, SessionOk, T.IsLatestParent;
    ThreadDone(p, w, thread);
    NotifyingBound(p, w, thread, latestParent);
  }

  /** The tombstone of a back-channel logout outlives every lease granted before the revocation. */
  lemma NotifyingBound(p: Policy, w: World, thread: Id, latestParent: int)
    requires Inv(p, w) && thread in w.threads && w.threads[thread].Notifying?
    ensures var t := w.threads[thread]; var db := T.Backchannel(p, w.db, t.sid, t.jti, t.exp, t.at, latestParent);
            t.sid in w.view.revokedAt && t.sid in db.tombstones
              && db.tombstones[t.sid] > w.view.revokedAt[t.sid] + p.leaseTtl
  {
    hide Inv;
    OneThread(p, w, thread);
  }

  lemma CollectKeeps(p: Policy, w: World, table: T.Table, at: int, victims: set<Id>)
    requires Inv(p, w) && at <= w.now && victims <= T.DoomedRows(w.db, table, at)
    ensures Inv(p, w.(db := T.Delete(w.db, table, victims)))
  {
    hide Inv;
    forall row | row in victims ensures row in T.Rows(w.db, table) && T.Doomed(w.db, table, row, at) {
      assert row in T.DoomedRows(w.db, table, at);
    }
    DropsKeep(p, w, T.Delete(w.db, table, victims));
  }

  /** Every step of every request, of the provider and of the collector keeps the invariant. */
  lemma StepKeeps(p: Policy, w: World, s: Step)
    requires Inv(p, w) && Enabled(p, w, s)
    ensures Inv(p, Apply(p, w, s))
  {
    hide Inv, T.IsLatestParent, T.DoomedRows, ViewGrows, SaysActive;
    match s
    case Tick(to) => TickKeeps(p, w, to);
    case ProviderMoves(view) => ProviderKeeps(p, w, view);
    case StartLogin(state, browser, at) => LoginsKeep(p, w, T.StartLogin(p, w.db, state, browser, at));
    case BeginCallback(thread, state, browser, at, replaced) =>
      BeginCallbackKeeps(p, w, thread, state, browser, at, replaced);
    case TokenAnswer(thread, sid, sub, authTime) =>
      var t := w.threads[thread];
      ThreadReplaced(p, w, thread, Checking(NewSession(t.loginExpires, t.replaced), sid, sub, authTime, w.now));
    case CheckAnswer(thread, answer) => CheckKeeps(p, w, thread, answer);
    case Bound(thread) => BoundKeeps(p, w, thread);
    case CommitCallback(thread, hash) => CommitCallbackKeeps(p, w, thread, hash);
    case BeginCurrent(thread, hash, at) => BeginCurrentKeeps(p, w, thread, hash, at);
    case SendCheck(thread) => SendKeeps(p, w, thread);
    case CommitRefresh(thread) => CommitRefreshKeeps(p, w, thread);
    case CommitTouch(thread, at) => CommitTouchKeeps(p, w, thread, at);
    case ReceiveLogout(thread, sid, jti, exp) => ReceiveKeeps(p, w, thread, sid, jti, exp);
    case CommitLogout(thread, latestParent) => CommitLogoutKeeps(p, w, thread, latestParent);
    case LocalLogout(hash, state, browser, at) => LocalLogoutKeeps(p, w, hash, state, browser, at);
    case FinishLogout(state, browser, at) => FinishLogoutKeeps(p, w, state, browser, at);
    case Crash(thread) => ThreadDone(p, w, thread);
    case Collect(table, at, victims) => CollectKeeps(p, w, table, at, victims);
  }

  lemma BeginCallbackKeeps(p: Policy, w: World, thread: Id, state: Id, browser: Id, at: int, replaced: Id)
    requires Inv(p, w)
    ensures Inv(p, AfterBeginCallback(w, thread, state, browser, at, replaced))
  {
    hide Inv;
    var r := T.ConsumeLogin(w.db, state, browser, at);
    if r.Some? {
      LoginsKeep(p, w, r.value.0);
      ThreadReplaced(p, w.(db := r.value.0), thread, Exchanging(r.value.1, replaced));
    }
  }

  lemma ReceiveKeeps(p: Policy, w: World, thread: Id, sid: Id, jti: Id, exp: int)
    requires Inv(p, w) && sid in w.view.revokedAt
    ensures Inv(p, AfterReceiveLogout(w, thread, sid, jti, exp))
  {
    hide SessionsOk, ThreadsOk, NotifiedOk, AcceptedOk, Exclusive;
    ThreadReplaced(p, w, thread, Notifying(sid, jti, exp, w.now));
  }

  lemma LocalLogoutKeeps(p: Policy, w: World, hash: Id, state: Id, browser: Id, at: int)
    requires Inv(p, w)
    ensures Inv(p, AfterLocalLogout(p, w, hash, state, browser, at))
  {
    hide Inv;
    var r := T.LocalLogout(p, w.db, hash, state, browser, at);
    if r.Some? { DropsKeep(p, w, r.value); }
  }

  lemma FinishLogoutKeeps(p: Policy, w: World, state: Id, browser: Id, at: int)
    requires Inv(p, w)
    ensures Inv(p, AfterFinishLogout(w, state, browser, at))
  {
    hide Inv;
    var r := T.FinishLogout(w.db, state, browser, at);
    if r.Some? { LoginsKeep(p, w, r.value); }
  }

  /** The invariant holds in every state of every run. */
  lemma RunKeeps(p: Policy, states: seq<World>, steps: seq<Step>, i: nat)
    requires IsRun(p, states, steps) && Initial(states[0]) && i < |states|
    ensures Inv(p, states[i])
  {
    hide Inv, Initial, Apply, Possible, Honest;
    if i == 0 {
      InitialInv(p, states[0]);
    } else {
      RunKeeps(p, states, steps, i - 1);
      assert Enabled(p, states[i - 1], steps[i - 1]) && states[i - 1 + 1] == Apply(p, states[i - 1], steps[i - 1]);
      StepKeeps(p, states[i - 1], steps[i - 1]);
    }
  }
}
