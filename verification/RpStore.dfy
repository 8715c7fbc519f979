/** The relying party's database as an object. Each method is one stretch of a request between two awaits; the values a
    request keeps across an await are passed in as its thread. Every method is proved against its step of
    `RpMachine`. */
module RpStore {
  import opened Wrappers
  import opened RuntimePolicy
  import opened Sets
  import T = RpTables
  import opened RpMachine
  import opened RpInvariants
  import RpCollection

  class Store {
    const p: Policy
    var now: int
    var logins: map<Id, T.Login>
    var appSessions: map<Id, T.AppSession>
    var tombstones: map<Id, int>
    var logoutUses: map<Id, int>
    var logoutTxs: map<Id, T.LogoutTx>
    ghost var view: View
    ghost var threads: map<Id, Thread>
    ghost var h: Hist

    function Tables(): T.Tables
      reads this
    {
      T.Tables(logins, appSessions, tombstones, logoutUses, logoutTxs)
    }

    ghost function State(): World
      reads this
    {
      World(now, view, Tables(), threads, h)
    }

    ghost predicate Valid()
      reads this
    {
      Inv(p, State())
    }

    constructor (p: Policy, now: int)
      requires now >= 0
      ensures Valid() && Initial(State()) && this.p == p && this.now == now
    {
      this.p, this.now := p, now;
      logins, appSessions, tombstones, logoutUses, logoutTxs := map[], map[], map[], map[], map[];
      view, threads, h := View(map[], map[]), map[], Hist({}, {}, map[]);
      new;
      hide Inv;
      InitialInv(p, State());
    }

    /** POST /login */
    method StartLogin(state: Id, browser: Id, at: int)
      requires Valid() && at <= now
      modifies this`logins
      ensures Valid() && Tables() == T.StartLogin(p, old(Tables()), state, browser, at)
    {
      hide Inv;
      LoginsKeep(p, State(), T.StartLogin(p, Tables(), state, browser, at));
      logins := logins[state := T.Login(browser, at + p.loginTtl, p.Retained(at + p.loginTtl), false)];
    }

    /** GET /callback, up to the code exchange: the transaction is consumed once. */
    method BeginCallback(ghost thread: Id, state: Id, browser: Id, at: int, replaced: Id) returns (t: Option<Thread>)
      requires Valid() && thread !in threads && at <= now
      modifies this`logins, this`threads
      ensures Valid() && State() == AfterBeginCallback(old(State()), thread, state, browser, at, replaced)
      ensures t.Some? <==>
                state in old(logins) && old(logins)[state].browser == browser && !old(logins)[state].consumed
                && old(logins)[state].expiresAt > at
      ensures t.Some? ==> thread in threads && threads[thread] == t.value && logins[state].consumed
    {
      hide Inv;
      BeginCallbackKeeps(p, State(), thread, state, browser, at, replaced);
      if state !in logins || logins[state].browser != browser || logins[state].consumed
        || logins[state].expiresAt <= at {
        return None;
      }
      var l := logins[state];
      logins := logins[state := l.(consumed := true)];
      threads := threads[thread := Exchanging(l.expiresAt, replaced)];
      return Some(Exchanging(l.expiresAt, replaced));
    }

    /** `checkedSession` once the answer is there. */
    method Bound(ghost thread: Id, t: Thread) returns (r: Option<Thread>)
      requires Valid() && thread in threads && threads[thread] == t && t.Answered?
      modifies this`threads
      ensures Valid() && State() == AfterBound(p, old(State()), thread)
      ensures r.Some? ==>
                thread in threads && threads[thread] == r.value && r.value.Ready?
                && r.value.checked.lease > now
    {
      hide Inv;
      BoundKeeps(p, State(), thread);
      if t.answer.sub != t.sub || t.answer.authTime != t.authTime || t.answer.leaseTtl <= 0
        || t.answer.leaseTtl > p.leaseTtl {
        threads := threads - {thread};
        return None;
      }
      var lease := Min(t.started + t.answer.leaseTtl, t.answer.expires);
      if lease <= now {
        threads := threads - {thread};
        return None;
      }
      var checked := T.Checked(lease, t.answer.expires, Min(now + t.answer.idleTtl, t.answer.expires));
      r := Some(Ready(t.purpose, t.sid, t.sub, t.authTime, now, checked));
      threads := threads[thread := r.value];
    }

    /** The batch that ends a callback. */
    method CommitCallback(ghost thread: Id, t: Thread, hash: Id) returns (ok: bool)
      requires Valid() && thread in threads && threads[thread] == t && t.Ready? && t.purpose.NewSession?
               && hash !in h.owners
      modifies this`appSessions, this`threads, this`h
      ensures Valid() && State() == AfterCommitCallback(p, old(State()), thread, hash)
      ensures ok <==>
                t.sid !in old(tombstones) && now < t.checked.lease && now < t.purpose.loginExpires
                && (hash in old(appSessions) ==> hash == t.purpose.replaced)
      ensures ok ==>
                && appSessions.Keys == old(appSessions).Keys - {t.purpose.replaced} + {hash}
                && (forall x :: x in old(appSessions) && x != t.purpose.replaced ==>
                   x in appSessions && appSessions[x] == old(appSessions)[x])
                && appSessions[hash] == T.AppSession(t.sid, t.sub, t.authTime, t.checked.lease, t.checked.parent,
                     t.checked.idle, t.checked.parent + p.skew + p.grace)
                && t.sid !in tombstones && t.sid !in h.notified
      ensures !ok ==> appSessions == old(appSessions)
    {
      hide Inv;
      CommitCallbackKeeps(p, State(), thread, hash);
      NotifiedRefused(p, State(), thread, hash);
      ghost var w := State();
      threads := threads - {thread};
      // guard: no tombstone, a running lease, an unexpired transaction
      if t.sid in tombstones || t.checked.lease <= now || t.purpose.loginExpires <= now { return false; }
      var before := appSessions;
      appSessions := appSessions - {t.purpose.replaced};
      // PRIMARY KEY(hash)
      if hash in appSessions {
        appSessions := before;
        return false;
      }
      appSessions := appSessions[hash := T.AppSession(t.sid, t.sub, t.authTime, t.checked.lease, t.checked.parent,
        t.checked.idle,
                                                      p.Retained(t.checked.parent))];
      h := h.(owners := h.owners[hash := t.sid]);
      return true;
    }

    /** `current`, up to the first decision: None if there is no such session. */
    method BeginCurrent(ghost thread: Id, hash: Id, at: int) returns (t: Option<Thread>)
      requires Valid() && thread !in threads && at <= now
      modifies this`threads
      ensures Valid() && State() == AfterBeginCurrent(old(State()), thread, hash, at)
      ensures t.Some? <==> T.Current(Tables(), hash, at)
      ensures t.Some? ==>
                thread in threads && threads[thread] == t.value
                && (t.value.LeaseOver? <==> appSessions[hash].leaseUntil <= at)
    {
      hide Inv;
      BeginCurrentKeeps(p, State(), thread, hash, at);
      if !T.Current(Tables(), hash, at) { return None; }
      var s := appSessions[hash];
      if s.leaseUntil <= at {
        t := Some(LeaseOver(hash, s.leaseUntil, s.sid, s.sub, s.authTime));
      } else {
        t := Some(Touching(hash, s.sid, at));
      }
      threads := threads[thread := t.value];
    }

    /** `checkedSession` before the request is sent: the lease will count from this moment. */
    method SendCheck(ghost thread: Id, t: Thread) returns (r: Thread)
      requires Valid() && thread in threads && threads[thread] == t && t.LeaseOver?
      modifies this`threads
      ensures Valid() && State() == AfterSendCheck(old(State()), thread)
      ensures thread in threads && threads[thread] == r && r.Checking? && r.started == now
              && r.purpose == Refresh(t.hash, t.seen)
    {
      hide Inv;
      SendKeeps(p, State(), thread);
      r := Checking(Refresh(t.hash, t.seen), t.sid, t.sub, t.authTime, now);
      threads := threads[thread := r];
    }

    /** The lease refresh of `current`: only against the lease that was read, and never for a tombstoned sid. */
    method CommitRefresh(ghost thread: Id, t: Thread) returns (r: Option<Thread>)
      requires Valid() && thread in threads && threads[thread] == t && t.Ready? && t.purpose.Refresh?
      modifies this`appSessions, this`threads
      ensures Valid() && State() == AfterCommitRefresh(old(State()), thread)
      ensures r.Some? ==>
                thread in threads && threads[thread] == r.value
                && r.value == Touching(t.purpose.hash, t.sid, t.checkedAt)
      ensures r.None? ==> appSessions == old(appSessions)
    {
      hide Inv;
      CommitRefreshKeeps(p, State(), thread);
      SameOwner(p, State(), thread);
      var hash := t.purpose.hash;
      if hash !in appSessions || appSessions[hash].leaseUntil != t.purpose.seen || appSessions[hash].sid in tombstones {
        threads := threads - {thread};
        return None;
      }
      var s := appSessions[hash];
      appSessions := appSessions[hash := s.(leaseUntil := Min(t.checked.lease, s.parentExpires))];
      threads := threads[thread := Touching(hash, s.sid, t.checkedAt)];
      return Some(Touching(hash, s.sid, t.checkedAt));
    }

    /** The final UPDATE of `current`; the request is accepted exactly if it returns the session. */
    method CommitTouch(ghost thread: Id, t: Thread, at: int) returns (s: Option<T.AppSession>)
      requires Valid() && thread in threads && threads[thread] == t && t.Touching? && at <= now
      modifies this`appSessions, this`threads, this`h
      ensures Valid() && State() == AfterCommitTouch(p, old(State()), thread, at)
      ensures s.Some? <==> T.Current(old(Tables()), t.hash, now)
      ensures s.Some? ==>
                t.hash in appSessions && appSessions[t.hash] == s.value
                && s.value.idleExpires <= s.value.parentExpires
    {
      hide Inv;
      CommitTouchKeeps(p, State(), thread, at);
      threads := threads - {thread};
      if !T.Current(Tables(), t.hash, now) { return None; }
      var row := appSessions[t.hash];
      row := row.(idleExpires := Min(at + p.idleTimeout, row.parentExpires));
      appSessions := appSessions[t.hash := row];
      h := h.(accepted := h.accepted + {Accepted(row.sid, t.checkedAt, now)});
      return Some(row);
    }

    /** MAX(parent_expires_at) over the sid's sessions, 0 if there are none. */
    method LatestParent(sid: Id) returns (parent: int)
      ensures T.IsLatestParent(Tables(), sid, parent)
    {
      var mine := set x | x in appSessions && appSessions[x].sid == sid;
      if mine == {} {
        assert !exists x :: x in appSessions && appSessions[x].sid == sid by {
          assert forall x :: x in appSessions && appSessions[x].sid == sid ==> x in mine;
        }
        return 0;
      }
      var x := PickOne(mine);
      parent := appSessions[x].parentExpires;
      var left := mine - {x};
      while left != {}
        invariant left <= mine && (exists y :: y in mine && appSessions[y].parentExpires == parent)
        invariant forall y :: y in mine && y !in left ==> appSessions[y].parentExpires <= parent
        decreases left
      {
        var y := PickOne(left);
        parent := Max(parent, appSessions[y].parentExpires);
        left := left - {y};
      }
    }

    /** The back-channel logout batch of a verified logout token. */
    method CommitLogout(ghost thread: Id, t: Thread) returns (latestParent: int)
      requires Valid() && thread in threads && threads[thread] == t && t.Notifying?
      modifies this`appSessions, this`tombstones, this`logoutUses, this`threads, this`h
      ensures Valid() && T.IsLatestParent(old(Tables()), t.sid, latestParent)
      ensures State() == AfterCommitLogout(p, old(State()), thread, latestParent)
      ensures t.sid in tombstones && t.sid in h.notified && (forall x :: x in appSessions ==>
              appSessions[x].sid != t.sid)
    {
      hide Inv, T.IsLatestParent;
      latestParent := LatestParent(t.sid);
      CommitLogoutKeeps(p, State(), thread, latestParent);
      ghost var before := Tables();
      if t.jti !in logoutUses { logoutUses := logoutUses[t.jti := p.Retained(t.exp)]; }
      var bound := Max(p.Retained(t.at + T.TombstoneTtl(p)), latestParent + p.Retained(0));
      if t.sid in tombstones { bound := Max(tombstones[t.sid], bound); }
      tombstones := tombstones[t.sid := bound];
      appSessions := map x | x in appSessions && appSessions[x].sid != t.sid :: appSessions[x];
      threads := threads - {thread};
      h := h.(notified := h.notified + {t.sid});
    }

    /** POST /logout, after `current` accepted the request. */
    method LocalLogout(hash: Id, state: Id, browser: Id, at: int) returns (ok: bool)
      requires Valid() && at <= now
      modifies this`appSessions, this`logoutTxs
      ensures Valid() && State() == AfterLocalLogout(p, old(State()), hash, state, browser, at)
      ensures ok ==> hash !in appSessions && state in logoutTxs
    {
      hide Inv;
      LocalLogoutKeeps(p, State(), hash, state, browser, at);
      var before := appSessions;
      appSessions := appSessions - {hash};
      if state in logoutTxs {
        appSessions := before;
        return false;
      }
      logoutTxs := logoutTxs[state := T.LogoutTx(browser, at + p.loginTtl, p.Retained(at + p.loginTtl))];
      return true;
    }

    /** GET /logout/callback: the transaction is spent once. */
    method FinishLogout(state: Id, browser: Id, at: int) returns (ok: bool)
      requires Valid() && at <= now
      modifies this`logoutTxs
      ensures Valid() && State() == AfterFinishLogout(old(State()), state, browser, at) && (ok ==> state !in logoutTxs)
    {
      hide Inv;
      FinishLogoutKeeps(p, State(), state, browser, at);
      if state !in logoutTxs || logoutTxs[state].browser != browser || logoutTxs[state].expiresAt <= at {
        return false;
      }
      logoutTxs := logoutTxs - {state};
      return true;
    }

    method Remove(table: T.Table, victims: set<Id>)
      modifies this`logins, this`logoutTxs, this`appSessions, this`logoutUses, this`tombstones
      ensures Tables() == T.Delete(old(Tables()), table, victims)
    {
      match table
      case Logins => logins := logins - victims;
      case LogoutTxs => logoutTxs := logoutTxs - victims;
      case AppSessions => appSessions := appSessions - victims;
      case LogoutUses => logoutUses := logoutUses - victims;
      case Tombstones => tombstones := tombstones - victims;
    }

    /** One collection pass: tables in order until the budget is spent. */
    method Collect(at: int) returns (count: nat)
      requires Valid() && at <= now
      modifies this`logins, this`logoutTxs, this`appSessions, this`logoutUses, this`tombstones
      ensures Valid() && RpCollection.Passes(p, at, old(Tables()), Tables(), count) && count <= p.gcBatch
    {
      hide Inv, RpCollection.Cut, T.DoomedRows, T.Rows, T.Delete, LimitOf, Taken;
      var remaining: nat := p.gcBatch;
      ghost var dbs, picks := [Tables()], [];
      StartPass(p, at, Tables());
      var i := 0;
      while i < |T.TARGETS|
        invariant 0 <= i <= |T.TARGETS| == 5 && |picks| == i && |dbs| == i + 1 && dbs[i] == Tables()
                  && dbs[0] == old(Tables())
        invariant RpCollection.PassSoFar(p, at, dbs, picks) && Taken(picks, i) == p.gcBatch - remaining
                  && remaining <= p.gcBatch
        invariant Valid() && at <= now
      {
        if remaining == 0 { break; }
        var table := T.TARGETS[i];
        var victims := TakeSome(T.DoomedRows(Tables(), table, at), remaining);
        LimitInside(victims, T.DoomedRows(Tables(), table, at), remaining);
        CollectKeeps(p, State(), table, at, victims);
        RpCollection.NextCut(p, at, dbs, picks, victims);
        Remove(table, victims);
        dbs, picks := dbs + [Tables()], picks + [victims];
        remaining := remaining - |victims|;
        i := i + 1;
      }
      count := p.gcBatch - remaining;
      RpCollection.RestEmpty(p, at, dbs, picks);
    }
  }

  lemma StartPass(p: Policy, at: int, db: T.Tables)
    ensures RpCollection.PassSoFar(p, at, [db], []) && Taken<Id>([], 0) == 0
  {
  }

  lemma NotifiedRefused(p: Policy, w: World, thread: Id, hash: Id)
    requires Inv(p, w) && thread in w.threads && w.threads[thread].Ready? && w.threads[thread].purpose.NewSession?
    ensures w.threads[thread].sid in w.h.notified ==>
              w.threads[thread].sid in w.db.tombstones || w.threads[thread].checked.lease <= w.now
  {
    hide SessionOk;
    OneThread(p, w, thread);
  }

  /** A refresh finds the session of the sid it checked. */
  lemma SameOwner(p: Policy, w: World, thread: Id)
    requires Inv(p, w) && thread in w.threads && w.threads[thread].Ready? && w.threads[thread].purpose.Refresh?
    ensures var hash := w.threads[thread].purpose.hash;
            hash in w.db.appSessions ==> w.db.appSessions[hash].sid == w.threads[thread].sid
  {
    hide Inv;
    OneThread(p, w, thread);
    var hash := w.threads[thread].purpose.hash;
    if hash in w.db.appSessions { OneSession(p, w, hash); }
  }
}
