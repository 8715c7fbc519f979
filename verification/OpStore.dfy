/** The provider's database as an object: each method runs one atomic batch statement by statement, and rolls its
    tables back when a guard or a constraint fails. Every method is proved against its step of `OpMachine`. */
module OpStore {
  import opened Wrappers
  import opened RuntimePolicy
  import opened RetryTiming
  import opened Sets
  import opened OpTables
  import opened OpBatches
  import opened OpGc
  import opened OpMachine
  import opened OpInvariants
  import opened OpStepsDelivery
  import opened OpStepsLogout
  import opened OpStepsIssue
  import opened OpStepsGc
  import opened OpSafety
  import opened OpDeliveryTheorems
  import opened OpAccountTheorems
  import opened OpGcPasses

  /** The database as batches see it; `now` is its clock. */
  class Store {
    const p: Policy
    var now: int
    var db: Db
    ghost var h: Hist

    ghost function State(): World
      reads this
    {
      World(now, db, h)
    }

    ghost predicate Valid()
      reads this
    {
      Inv(p, State())
    }

    constructor (p: Policy, clients: map<Id, Client>, invitations: map<Id, Invitation>, now: int)
      requires now >= 0 && forall i :: i in invitations ==> invitations[i].usedBy.None?
      ensures Valid() && Initial(State()) && this.p == p && this.now == now
      ensures db.clients == clients && db.invitations == invitations
    {
      this.p, this.now := p, now;
      db := Db(map[], map[], clients, map[], {}, invitations, false, map[], map[], map[], map[], map[], map[], map[],
        map[],
               map[], map[], map[], map[], map[], map[], map[]);
      h := Hist({}, map[], map[], map[], map[], map[], {}, map[]);
      new;
      hide Inv;
      InitialInv(p, State());
    }

    /** The confirmed browser logout. */
    method Logout(csrf: Id, sso: Id, event: Id, at: int) returns (ok: bool)
      requires Valid() && at <= now && event !in h.used
      modifies this`db, this`h
      ensures Valid() && State() == AfterLogout(p, old(State()), csrf, sso, event, at)
      ensures ok <==> LogoutBatch(p, old(db), now, csrf, sso, event, at).Some?
    {
      hide Inv, KeysOfSso, AddEvents, MarkRevoked, LogoutEventRow;
      LogoutKeeps(p, State(), csrf, sso, event, at);
      var before := db;
      // DELETE FROM logout_transaction ... ; guard(changes() = 1)
      if csrf !in db.logoutTxs || db.logoutTxs[csrf].expiresAt <= now { return false; }
      db := db.(logoutTxs := db.logoutTxs - {csrf});
      if sso in db.sessions {
        // INSERT INTO sso_logout_event: UNIQUE(sso_id)
        if HasEvent(db.events, sso) || event in db.events {
          db := before;
          return false;
        }
        db := db.(events := db.events[event := LogoutEventRow(p, db.sessions[sso], sso, at)]);
        db := db.(sessions := db.sessions[sso := db.sessions[sso].(revoked := true)]);
        db := db.(clientSessions := map k | k in db.clientSessions ::
                    if db.clientSessions[k].sso == sso then db.clientSessions[k].(revoked := true)
                      else db.clientSessions[k]);
        h := MarkRevoked(Use(h, {event}), KeysOfSso(before, sso), now).(sent := AddEvents(h.sent, {event}));
      }
      return true;
    }

    /** `revokeAccountSessions` */
    method RevokeAccount(operation: Id, account: Id, epoch: nat, at: int) returns (ok: bool)
      requires Valid() && at <= now
      modifies this`db, this`h
      ensures Valid() && State() == AfterRevokeAccount(p, old(State()), operation, account, epoch, at)
      ensures ok <==> RevokeAccountBatch(p, old(db), operation, account, epoch, at).Some?
    {
      hide Inv, KeysOfEpoch, MarkRevoked;
      RevokeAccountKeeps(p, State(), operation, account, epoch, at);
      var before := db;
      // UPDATE account_security SET epoch = epoch + 1 ... ; guard(changes() = 1)
      if account !in db.accounts || db.accounts[account].epoch != epoch || !db.accounts[account].active {
        return false;
      }
      db := db.(accounts := db.accounts[account := db.accounts[account].(epoch := epoch + 1)]);
      // INSERT INTO revocation_event
      if operation in db.revocations {
        db := before;
        return false;
      }
      var deadline := at + p.retryDeadline;
      db := db.(revocations := db.revocations[operation := Revocation(account, epoch, at, deadline,
                                                                      p.Retained(Max(deadline, at + p.auditTtl)),
                                                                        false)]);
      h := MarkRevoked(Use(h, {operation}), KeysOfEpoch(before, account, epoch), now);
      return true;
    }

    /** `expandAccountRevocations`, for the rows `chosen` that the INSERT ... SELECT ... LIMIT returned. It never
        fails. */
    method Expand(chosen: set<Id>)
      requires Valid() && LimitOf(chosen, Uncovered(db), p.fanoutBatch)
      modifies this`db, this`h
      ensures Valid() && chosen <= Uncovered(old(db)) && State() == AfterExpand(p, old(State()), chosen)
              && h.used == old(h.used)
      ensures ExpandBatch(p, old(db), chosen).Some?
    {
      hide Inv, ExpandedEventRow, FullyExpanded, AddEvents, Uncovered, LimitOf;
      LimitInside(chosen, Uncovered(db), p.fanoutBatch);
      ExpandKeeps(p, State(), chosen);
      ExpandCommits(p, State(), chosen);
      db := InsertExpanded(p, db, chosen).value;
      db := MarkExpanded(db);
      h := h.(sent := AddEvents(h.sent, chosen));
    }

    /** `fanout`, for the rows that the INSERT ... SELECT ... LIMIT returned and their new row ids. */
    method Fanout(rows: map<Id, (Id, Key)>)
      requires Valid() && LegalFanout(p, db, rows)
      modifies this`db, this`h
      ensures Valid() && (forall d :: d in rows ==> rows[d].0 in old(db.events))
              && State() == AfterFanout(old(State()), rows) && h.used == old(h.used)
    {
      hide Inv, FannedOut, MissingRows, AddRows;
      FanoutKeeps(p, State(), rows);
      db := InsertDeliveries(db, rows);
      db := MarkFannedOut(db);
      h := h.(sent := AddRows(h.sent, rows));
    }

    /** `claim`: take the earliest claimable row, and only if there is one. */
    method Claim(lease: Id, at: int) returns (task: Option<Task>)
      requires Valid() && 0 <= at <= now && lease !in h.used
      modifies this`db, this`h
      ensures Valid()
      ensures var pick := if task.Some? then Some(task.value.id) else None;
              IsNextClaim(p, old(db.deliveries), at, pick) && State() == AfterClaim(p, old(State()), pick, lease, at)
      ensures task.Some? ==>
                task.value.id in db.deliveries && lease in h.issued && h.issued[lease] == task.value
                && task.value.lease == lease && task.value.attempts > 0
                && db.deliveries[task.value.id].leaseUntil == Some(at + p.deliveryLease)
      ensures h.used == if task.Some? then old(h.used) + {lease} else old(h.used)
    {
      hide Inv, Claimable;
      var candidates := set d | d in db.deliveries && Claimable(p, db.deliveries, d, at);
      if candidates == {} {
        assert forall d :: d in db.deliveries && Claimable(p, db.deliveries, d, at) ==> d in candidates;
        return None;
      }
      FirstExists(db.deliveries, candidates);
      var d :| d in candidates && forall d' :: d' in candidates ==> NotAfter(db.deliveries, d, d');
      assert IsNextClaim(p, db.deliveries, at, Some(d));
      ClaimKeeps(p, State(), Some(d), lease, at);
      var row := ClaimRow(p, db.deliveries[d], lease, at);
      db := db.(deliveries := db.deliveries[d := row]);
      h := h.(used := h.used + {lease}, issued := h.issued[lease := TaskOf(p, d, row, lease)]);
      return Some(TaskOf(p, d, row, lease));
    }

    /** `settle(task, outcome(task, response))` */
    method Settle(task: Task, status: int, retryAfter: RetryAfter, random: real, decidedAt: int, at: int)
      requires Valid() && task.lease in h.issued && h.issued[task.lease] == task && task.attempts > 0
      requires decidedAt <= at <= now && 0.0 <= random < 1.0
      modifies this`db
      ensures Valid() && State() == AfterSettle(p, old(State()), task.lease, status, retryAfter, random, decidedAt, at)
      ensures db.events == old(db.events)
    {
      hide Inv, Outcome, SettleRow, SettlesOn;
      SettleKeeps(p, State(), task.lease, status, retryAfter, random, decidedAt, at);
      var verdict := Outcome(p, task.deadline, task.attempts, status, retryAfter, decidedAt, random);
      if task.id in db.deliveries && SettlesOn(db.deliveries[task.id], task.lease, at) {
        var next := if verdict.ToPending? then verdict.next else decidedAt;
        db := db.(deliveries := db.deliveries[task.id := SettleRow(p, db.deliveries[task.id], verdict, next, at)]);
      }
    }

    /** `expire` */
    method Expire(at: int)
      requires Valid() && at <= now
      modifies this`db
      ensures Valid() && State() == AfterExpire(p, old(State()), at)
    {
      hide Inv;
      ExpireKeeps(p, State(), at);
      db := db.(deliveries := map d | d in db.deliveries ::
                  if Expires(p, db.deliveries[d], at) then ExpireRow(p, db.deliveries[d], at) else db.deliveries[d]);
    }

    /** `retryLogout`: Failure for invalid parameters, otherwise whether the batch committed. */
    method Retry(operation: Id, event: Id, revision: nat, deadline: int, retainUntil: int, at: int) returns (ok: bool)
      requires Valid() && at <= now
      modifies this`db, this`h
      ensures Valid()
      ensures !RetryParameters(p, deadline, retainUntil, at) ==> !ok && State() == old(State())
      ensures RetryParameters(p, deadline, retainUntil, at) ==>
                State() == AfterRetry(p, old(State()), operation, event, revision, deadline, retainUntil, at)
                && (ok <==>
                   RetryGuard(old(db), now, event, revision, deadline)
                   && !AuditConflict(old(db), operation, event, revision))
    {
      hide Inv, FannedOut, RetryRow;
      if !RetryParameters(p, deadline, retainUntil, at) { return false; }
      RetryKeeps(p, State(), operation, event, revision, deadline, retainUntil, at);
      if !RetryGuard(db, now, event, revision, deadline) { return false; }
      // INSERT INTO logout_retry_audit: PRIMARY KEY(operation_id), UNIQUE(event_id, revision)
      if AuditConflict(db, operation, event, revision) { return false; }
      var e := db.events[event];
      db := db.(audits := db.audits[operation := Audit(event, e.revision, e.deadline, deadline,
        Max(retainUntil, p.Retained(at + p.auditTtl)))]);
      db := db.(events := db.events[event := e.(revision := e.revision + 1, deadline := deadline, gcAfter :=
        Max(e.gcAfter, retainUntil))]);
      db := db.(deliveries := map d | d in db.deliveries ::
                  if db.deliveries[d].event == event && (db.deliveries[d].state.Failed?
                    || db.deliveries[d].state.Expired?)
                  then RetryRow(db.deliveries[d], deadline, retainUntil, at) else db.deliveries[d]);
      h := Use(h, {operation});
      return true;
    }

    /** `acceptClient`, after the assertion itself has been verified. */
    method AcceptClient(key: Key, exp: int, keysActive: bool) returns (ok: bool)
      requires Valid()
      modifies this`db, this`h
      ensures Valid() && State() == AfterAccept(p, old(State()), key, exp, keysActive)
      ensures ok <==> AcceptAssertion(p, old(db), now, key, exp, keysActive).Some?
    {
      hide Inv;
      AcceptKeeps(p, State(), key, exp, keysActive);
      var retainUntil := exp + p.skew;
      if key.client !in db.clients || !db.clients[key.client].active || !keysActive || retainUntil <= now {
        return false;
      }
      // INSERT INTO assertion_use: PRIMARY KEY(client_id, jti)
      if key in db.assertions { return false; }
      db := db.(assertions := db.assertions[key := AssertionUse(retainUntil, p.Retained(retainUntil))]);
      h := h.(accepted := h.accepted + {Acceptance(key, exp, now)});
      return true;
    }

    /** app_connection, then client_session under its cap; nothing is inserted for an unknown session. */
    method JoinWrites(before: Db, sso: Id, key: Key) returns (ok: bool)
      modifies this`db
      ensures var r := OpenClientSession(p, old(db), sso, key);
              if ok then r == Some(db) else r.None? && db == before
    {
      if sso !in db.sessions || key in db.clientSessions || |ActiveClientSessions(db.clientSessions, sso,
        key.client)| >= p.clientSessionCap {
        db := before;
        return false;
      }
      var s := db.sessions[sso];
      var link := (s.account, key.client);
      if link in db.connections {
        SameUpdate(db.connections, link);
      } else {
        db := db.(connections := db.connections[link := Connection(1, true)]);
      }
      db := db.(clientSessions := db.clientSessions[key :=
        ClientSession(sso, s.account, db.connections[link].version, false)]);
      return true;
    }

    /** The writes of `issueCode` on the tables: either all of them, or a rollback to `before`. */
    method IssueWrites(before: Db, login: Id, browser: Id, sso: Id, sid: Id, code: Id, nonce: Id,
                       at: int) returns (ok: bool)
      modifies this`db
      ensures ok <==> IssueCode(p, old(db), now, login, browser, sso, sid, code, nonce, at).Some?
      ensures db == if ok then IssueCode(p, old(db), now, login, browser, sso, sid, code, nonce, at).value else before
    {
      hide Eligible, OpenClientSession;
      var key := Key(CLIENT, sid);
      JoinShape(p, db, sso, key);
      // transactionGuard
      if !LoginOpen(db, login, browser, now) || code in db.codes { db := before; return false; }
      ok := JoinWrites(before, sso, key);
      if !ok { return false; }
      // guard(eligible_client_session)
      if !Eligible(db, key, now) { db := before; return false; }
      EligibleStored(db, key, now);
      var s := db.sessions[sso];
      db := db.(codes := db.codes[code := Code(key, db.clients[CLIENT].revision, Min(at + p.codeTtl, s.expiresAt),
        None)]);
      db := db.(codeContexts := db.codeContexts[code := nonce]);
      db := db.(logins := db.logins[login := db.logins[login].(consumed := true)]);
      db := db.(sessions := db.sessions[sso := s.(gcAfter := Max(s.gcAfter, p.Retained(at + p.auditTtl)))]);
    }

    /** Consent, or a request that finds a live session: one code, or nothing changes. */
    method Issue(login: Id, browser: Id, sso: Id, sid: Id, code: Id, nonce: Id, at: int) returns (ok: bool)
      requires Valid() && at <= now && sid !in h.used && code !in h.used && sid != code
      modifies this`db, this`h
      ensures Valid() && State() == AfterConsent(p, old(State()), login, browser, sso, sid, code, nonce, at)
    {
      hide Inv, IssueCode;
      ConsentKeeps(p, State(), login, browser, sso, sid, code, nonce, at);
      var before := db;
      ok := IssueWrites(db, login, browser, sso, sid, code, nonce, at);
      if ok {
        IssueShape(p, World(now, before, h), login, browser, sso, sid, code, nonce, at);
        h := AfterCode(World(now, before, h), login, sso, sid, code, db).h;
      }
    }

    /** The authentication writes of a finish request on the tables. */
    method AuthenticationWrites(before: Db, login: Id, browser: Id, ceremony: Id, credential: Id,
                                readEpoch: nat) returns (account: Option<Id>)
      modifies this`db
      ensures var r := AuthenticateWrites(p, old(db), now, login, browser, ceremony, credential, readEpoch);
              if account.Some? then r == Some((db, account.value)) else r.None? && db == before
    {
      if !LoginOpen(db, login, browser, now) || !CeremonyOpen(db, p, ceremony, browser, now) {
        db := before;
        return None;
      }
      var c := db.ceremonies[ceremony];
      db := db.(ceremonies := db.ceremonies[ceremony := c.(consumed := true)]);
      if c.register {
        // spend the invitation, and close bootstrap if it was the bootstrap one
        if c.invitation !in db.invitations || db.invitations[c.invitation].usedBy.Some?
          || db.invitations[c.invitation].expiresAt <= now {
          db := before;
          return None;
        }
        var i := db.invitations[c.invitation];
        db := db.(invitations := db.invitations[c.invitation := i.(usedBy := Some(c.account))]);
        if i.bootstrap {
          if db.bootstrapClosed { db := before; return None; }
          db := db.(bootstrapClosed := true);
        }
        if c.account in db.accounts || credential in db.credentials { db := before; return None; }
        db := db.(accounts := db.accounts[c.account := Account(0, true)]);
        db := db.(credentials := db.credentials[credential := Credential(c.account, true)]);
        if i.bootstrap { db := db.(roles := db.roles + {c.account}); }
        return Some(c.account);
      }
      if credential !in db.credentials || !db.credentials[credential].active { db := before; return None; }
      var a := db.credentials[credential].account;
      if a !in db.accounts || !db.accounts[a].active || db.accounts[a].epoch != readEpoch { db := before; return None; }
      return Some(a);
    }

    /** INSERT INTO sso_session under the cap, its context and its retention bound. */
    method SessionWrites(before: Db, account: Id, credential: Id, sso: Id, secret: Id, at: int) returns (ok: bool)
      modifies this`db
      ensures var r := CreateSession(p, old(db), now, account, credential, sso, secret, at);
              if ok then r == Some(db) else r.None? && db == before
    {
      hide ActiveSessions;
      if account !in db.accounts || !db.accounts[account].active
         || |ActiveSessions(db.sessions, account, db.accounts[account].epoch, now)| >= p.ssoCap || sso in db.sessions {
        db := before;
        return false;
      }
      var expires := at + p.ssoTtl;
      db := db.(sessions := db.sessions[sso := Session(account, credential, db.accounts[account].epoch, expires, false,
        0)]);
      db := db.(contexts := db.contexts[sso := Context(secret, at)]);
      var gcAfter := Max(p.Retained(expires), p.Retained(at + p.auditTtl));
      db := db.(sessions := db.sessions[sso := db.sessions[sso].(gcAfter := gcAfter)]);
      LastUpdate(old(db.sessions), sso, Session(account, credential, db.accounts[account].epoch, expires, false, 0),
        gcAfter);
      return true;
    }

    /** The finish batch: authentication, session and code commit together or not at all. */
    method Finish(login: Id, browser: Id, ceremony: Id, credential: Id, readEpoch: nat, sso: Id, secret: Id, sid: Id,
                  code: Id, nonce: Id, at: int)
      returns (ok: bool)
      requires Valid() && at <= now && Fresh(State(), [sso, secret, sid, code])
      modifies this`db, this`h
      ensures Valid() && State() == AfterFinish(p, old(State()), login, browser, ceremony, credential, readEpoch, sso,
              secret, sid, code, nonce, at)
      ensures ok <==> FinishBatch(p, old(db), now, login, browser, ceremony, credential, readEpoch, sso, secret, sid,
              code, nonce, at).Some?
    {
      hide Inv, IssueCode, AuthenticateWrites, CreateSession, Registered, Fresh;
      FreshFour(State(), sso, secret, sid, code);
      FinishKeeps(p, State(), login, browser, ceremony, credential, readEpoch, sso, secret, sid, code, nonce, at);
      ghost var start := State();
      var before := db;
      var account := AuthenticationWrites(before, login, browser, ceremony, credential, readEpoch);
      if account.None? { return false; }
      ghost var db1 := db;
      ok := SessionWrites(before, account.value, credential, sso, secret, at);
      if !ok { return false; }
      ghost var db2 := db;
      ghost var w2 := AfterSession(AfterWrites(start, ceremony, db1), sso, secret, db2);
      ok := IssueWrites(before, login, browser, sso, sid, code, nonce, at);
      if ok {
        IssueShape(p, w2, login, browser, sso, sid, code, nonce, at);
        h := AfterCode(w2, login, sso, sid, code, db).h;
      }
    }

    /** The code exchange of `token()`. */
    method Exchange(code: Id, operation: Id, access: Id, keysActive: bool, at: int) returns (ok: bool)
      requires Valid() && at <= now
      modifies this`db, this`h
      ensures Valid() && State() == AfterExchange(p, old(State()), code, operation, access, keysActive, at)
      ensures ok <==> ExchangeBatch(p, old(db), now, code, operation, access, keysActive, at).Some?
    {
      hide Inv, Live;
      ExchangeKeeps(p, State(), code, operation, access, keysActive, at);
      if code !in db.codes || code in db.tokens || !keysActive { return false; }
      var c := db.codes[code];
      if c.consumedBy.Some? || c.expiresAt <= now || !Eligible(db, c.key, now)
        || c.revision != db.clients[c.key.client].revision {
        return false;
      }
      var before := db;
      EligibleStored(db, c.key, now);
      db := db.(codes := db.codes[code := c.(consumedBy := Some(operation))]);
      var sso := db.clientSessions[c.key].sso;
      var s := db.sessions[sso];
      var expires := Min(Min(at + p.accessTtl, s.expiresAt), s.expiresAt);
      if expires <= now {
        db := before;
        return false;
      }
      db := db.(tokens := db.tokens[code := Token(access, expires, false)]);
      db := db.(sessions := db.sessions[sso := s.(gcAfter := Max(s.gcAfter, p.Retained(at + p.auditTtl)))]);
      h := Use(h, {operation, access});
      return true;
    }

    /** One collection pass: tables in order until the budget is spent. `deleted` counts what each table lost. */
    method Collect(at: int) returns (count: nat, deleted: map<Table, nat>)
      requires Valid() && at <= now
      modifies this`db, this`h
      ensures Valid() && Passes(p, at, old(State()), State(), count) && count <= p.gcBatch
      ensures forall t :: |Rows(old(db), t)| == |Rows(db, t)| + if t in deleted then deleted[t] else 0
    {
      hide Inv, Cut, AfterCollect, DoomedRows, Rows, Delete, LimitOf, Taken;
      var remaining: nat := p.gcBatch;
      deleted := map[];
      ghost var ws, picks := [State()], [];
      StartPass(p, at, State());
      var i := 0;
      while i < |TARGETS|
        invariant 0 <= i <= |TARGETS| == 15 && |picks| == i && |ws| == i + 1 && ws[i] == State()
                  && ws[0] == old(State())
        invariant PassSoFar(p, at, ws, picks) && Taken(picks, i) == p.gcBatch - remaining && remaining <= p.gcBatch
        invariant Valid() && at <= now
        invariant forall t :: t in deleted ==> Position(t) < i
        invariant forall t :: |Rows(old(db), t)| == |Rows(db, t)| + if t in deleted then deleted[t] else 0
      {
        if remaining == 0 { break; }
        var table := TARGETS[i];
        var victims := TakeSome(DoomedRows(db, table, at), remaining);
        LimitInside(victims, DoomedRows(db, table, at), remaining);
        ghost var w := State();
        CollectKeeps(p, w, table, at, victims);
        CollectedWorld(w, table, victims);
        VictimsStored(db, table, at, victims);
        LostRows(db, table, victims);
        NextCut(p, at, ws, picks, victims);
        assert Position(table) == i;
        deleted := deleted[table := |victims|];
        h := AfterCollect(w, table, victims).h;
        db := Delete(db, table, victims);
        ws, picks := ws + [State()], picks + [victims];
        LimitCount(victims, DoomedRows(w.db, table, at), remaining);
        remaining := remaining - |victims|;
        i := i + 1;
      }
      count := p.gcBatch - remaining;
      RestEmpty(p, at, ws, picks);
    }

    /** The first half of a delivery run: expand, fan out, expire. */
    method Prepare() returns (ghost states: seq<World>, ghost steps: seq<Step>)
      requires Valid() && now >= 0
      modifies this`db, this`h
      ensures Valid() && h.used == old(h.used) && RunBetween(p, states, steps, old(State()), State())
    {
      hide Inv, Apply, Enabled, AfterExpand, AfterFanout, AfterExpire, Uncovered, MissingRows, LimitOf, LegalFanout,
        IsRun;
      ghost var w0 := State();
      var chosen := TakeSome(Uncovered(db), p.fanoutBatch);
      Expand(chosen);
      ExpandEnabled(p, w0, chosen);
      ghost var w1 := State();
      var pairs := TakeSome(MissingRows(db), p.fanoutBatch);
      var rows := NewRows(pairs, db.deliveries.Keys);
      FanoutEnabled(p, w1, pairs, rows);
      Fanout(rows);
      ghost var w2 := State();
      Expire(now);
      ExpireEnabled(p, w2, now);
      states, steps := ThreeSteps(p, w0, Step.Expand(chosen), w1, Step.Fanout(rows), w2, Step.Expire(now), State());
    }

    /** One round of the delivery loop: claim, send for `send.delay` seconds, settle. False if nothing is claimable. */
    method Attempt(send: Send) returns (sent: bool, ghost states: seq<World>, ghost steps: seq<Step>)
      requires Valid() && now >= 0 && send.lease !in h.used && 0.0 <= send.random < 1.0
      modifies this
      ensures Valid() && now >= old(now) && h.used <= old(h.used) + {send.lease}
              && RunBetween(p, states, steps, old(State()), State())
      ensures !sent ==> forall d :: d in db.deliveries ==> !Claimable(p, db.deliveries, d, now)
    {
      hide Inv, Apply, Enabled, AfterClaim, AfterSettle, Claimable, IsNextClaim, IsRun;
      ghost var w0 := State();
      var task := Claim(send.lease, now);
      ghost var pick := if task.Some? then Some(task.value.id) else None;
      ClaimEnabled(p, w0, pick, send.lease, now);
      ghost var w1 := State();
      if task.None? {
        NothingClaimable(p, w0, send.lease, now, w1);
        states, steps := OneStepRun(p, w0, Step.Claim(pick, send.lease, now), w1);
        return false, states, steps;
      }
      ghost var to := now + send.delay;
      TickEnabled(p, w1, to);
      TickKeeps(p, w1, to);
      now := now + send.delay;
      ghost var w2 := State();
      Settle(task.value, send.status, send.retryAfter, send.random, now, now);
      SettleEnabled(p, w2, send, now);
      states, steps := ThreeSteps(p, w0, Step.Claim(pick, send.lease, to - send.delay), w1, Step.Tick(to), w2,
                                  Step.Settle(send.lease, send.status, send.retryAfter, send.random, now, now),
                                    State());
      return true, states, steps;
    }

    /** The scheduled delivery run: expand, fan out, expire, then claim, send and settle one row at a time. `sends`
        holds what the world contributes: a new lease id, how long the send takes, and the receiver's answer. The
        run is returned as a run of the state machine, so everything proved about runs holds of it. */
    method Deliver(sends: seq<Send>) returns (attempts: nat, ghost states: seq<World>, ghost steps: seq<Step>)
      requires Valid() && now >= 0 && |sends| == p.claimBatch
      requires forall i :: 0 <= i < |sends| ==> sends[i].lease !in h.used && 0.0 <= sends[i].random < 1.0
      requires forall i, j :: 0 <= i < j < |sends| ==> sends[i].lease != sends[j].lease
      modifies this
      ensures Valid() && RunBetween(p, states, steps, old(State()), State())
      ensures attempts <= p.claimBatch
      ensures attempts < p.claimBatch ==> forall d :: d in db.deliveries ==> !Claimable(p, db.deliveries, d, now)
    {
      hide Inv, RunBetween, Claimable;
      states, steps := Prepare();
      attempts := 0;
      while attempts < p.claimBatch
        invariant 0 <= attempts <= |sends| && Valid() && now >= 0 && RunBetween(p, states, steps, old(State()), State())
        invariant forall i :: attempts <= i < |sends| ==> sends[i].lease !in h.used
      {
        ghost var w := State();
        ghost var more, moreSteps;
        var sent;
        sent, more, moreSteps := Attempt(sends[attempts]);
        RunsJoin(p, states, steps, more, moreSteps, old(State()), w, State());
        states, steps := states + more[1..], steps + moreSteps;
        if !sent { return; }
        attempts := attempts + 1;
      }
    }
  }

  /** A run that starts at `w` and ends at `w'`. */
  ghost predicate RunBetween(p: Policy, states: seq<World>, steps: seq<Step>, w: World, w': World) {
    |states| == |steps| + 1 && IsRun(p, states, steps) && states[0] == w && states[|steps|] == w'
  }

  /** Runs that meet can be joined. */
  lemma RunsJoin(p: Policy, states: seq<World>, steps: seq<Step>, states': seq<World>, steps': seq<Step>, w: World,
                 w1: World, w2: World)
    requires RunBetween(p, states, steps, w, w1) && RunBetween(p, states', steps', w1, w2)
    ensures |states'| > 0 && RunBetween(p, states + states'[1..], steps + steps', w, w2)
  {
    hide Enabled, Apply;
    var all, allSteps := states + states'[1..], steps + steps';
    assert forall i :: 0 <= i <= |steps'| ==> all[|steps| + i] == states'[i];
    forall i | 0 <= i < |allSteps|
      ensures Enabled(p, all[i], allSteps[i]) && all[i + 1] == Apply(p, all[i], allSteps[i])
    {
      if i < |steps| {
        assert Enabled(p, states[i], steps[i]) && all[i + 1] == states[i + 1];
      } else {
        var k := i - |steps|;
        assert Enabled(p, states'[k], steps'[k]) && all[|steps| + k] == states'[k]
          && all[|steps| + (k + 1)] == states'[k + 1];
      }
    }
  }

  lemma OneStepRun(p: Policy, w: World, s: Step, w': World) returns (states: seq<World>, steps: seq<Step>)
    requires Enabled(p, w, s) && w' == Apply(p, w, s)
    ensures RunBetween(p, states, steps, w, w')
  {
    hide Enabled, Apply;
    states, steps := [w, w'], [s];
  }

  lemma ThreeSteps(p: Policy, w0: World, s0: Step, w1: World, s1: Step, w2: World, s2: Step, w3: World)
    returns (states: seq<World>, steps: seq<Step>)
    requires Enabled(p, w0, s0) && w1 == Apply(p, w0, s0)
    requires Enabled(p, w1, s1) && w2 == Apply(p, w1, s1)
    requires Enabled(p, w2, s2) && w3 == Apply(p, w2, s2)
    ensures RunBetween(p, states, steps, w0, w3)
  {
    hide Enabled, Apply;
    states, steps := [w0, w1, w2, w3], [s0, s1, s2];
  }

  /** One attempt as the network and the random source decide it. Status 0 is a failed transport. */
  datatype Send = Send(lease: Id, delay: nat, status: int, retryAfter: RetryAfter, random: real)

  lemma ExpandEnabled(p: Policy, w: World, chosen: set<Id>)
    requires LimitOf(chosen, Uncovered(w.db), p.fanoutBatch) && chosen <= Uncovered(w.db)
    ensures Enabled(p, w, Step.Expand(chosen)) && Apply(p, w, Step.Expand(chosen)) == AfterExpand(p, w, chosen)
  {
    hide AfterExpand, LimitOf, Uncovered;
  }

  lemma FanoutEnabled(p: Policy, w: World, pairs: set<(Id, Key)>, rows: map<Id, (Id, Key)>)
    requires LimitOf(pairs, MissingRows(w.db), p.fanoutBatch) && NewRowsOf(rows, pairs, w.db.deliveries.Keys)
    ensures LegalFanout(p, w.db, rows) && (forall d :: d in rows ==> rows[d].0 in w.db.events)
    ensures Enabled(p, w, Step.Fanout(rows)) && Apply(p, w, Step.Fanout(rows)) == AfterFanout(w, rows)
  {
    hide AfterFanout, HasDelivery;
    assert (set d | d in rows :: rows[d]) == pairs;
  }

  lemma ExpireEnabled(p: Policy, w: World, at: int)
    requires at <= w.now
    ensures Enabled(p, w, Step.Expire(at)) && Apply(p, w, Step.Expire(at)) == AfterExpire(p, w, at)
  {
    hide AfterExpire;
  }

  lemma TickEnabled(p: Policy, w: World, to: int)
    requires to >= w.now
    ensures Enabled(p, w, Step.Tick(to)) && Apply(p, w, Step.Tick(to)) == w.(now := to)
  {
  }

  lemma ClaimEnabled(p: Policy, w: World, pick: Option<Id>, lease: Id, at: int)
    requires 0 <= at <= w.now && lease !in w.h.used && IsNextClaim(p, w.db.deliveries, at, pick)
    ensures Enabled(p, w, Step.Claim(pick, lease, at)) && Apply(p, w, Step.Claim(pick, lease, at))
            == AfterClaim(p, w, pick, lease, at)
  {
    hide AfterClaim, IsNextClaim;
  }

  lemma NothingClaimable(p: Policy, w: World, lease: Id, at: int, w': World)
    requires IsNextClaim(p, w.db.deliveries, at, None) && w' == AfterClaim(p, w, None, lease, at)
    ensures forall d :: d in w'.db.deliveries ==> !Claimable(p, w'.db.deliveries, d, at)
  {
    hide Claimable;
  }

  lemma SettleEnabled(p: Policy, w: World, send: Send, at: int)
    requires at <= w.now && send.lease in w.h.issued && w.h.issued[send.lease].attempts > 0 && 0.0 <= send.random < 1.0
    ensures var s := Step.Settle(send.lease, send.status, send.retryAfter, send.random, at, at);
            Enabled(p, w, s) && Apply(p, w, s) == AfterSettle(p, w, send.lease, send.status, send.retryAfter,
              send.random, at, at)
  {
    hide AfterSettle;
  }

  /** `rows` gives each of `pairs` one row id that is not taken. */
  ghost predicate NewRowsOf(rows: map<Id, (Id, Key)>, pairs: set<(Id, Key)>, taken: set<Id>) {
    && rows.Keys !! taken
    && (forall d :: d in rows ==> rows[d] in pairs)
    && (forall x :: x in pairs ==> exists d :: d in rows && rows[d] == x)
    && (forall d, d' :: d in rows && d' in rows && d != d' ==> rows[d] != rows[d'])
  }

  /** Row ids for inserted rows: the next integers. */
  method NewRows(pairs: set<(Id, Key)>, taken: set<Id>) returns (rows: map<Id, (Id, Key)>)
    ensures NewRowsOf(rows, pairs, taken)
  {
    var next := Above(taken);
    rows := map[];
    var left := pairs;
    while left != {}
      invariant left <= pairs && NewRowsOf(rows, pairs - left, taken)
      invariant (forall d :: d in taken ==> d < next) && (forall d :: d in rows ==> d < next)
      decreases left
    {
      var x := PickOne(left);
      NewRowAdded(rows, pairs - left, taken, next, x);
      assert pairs - (left - {x}) == (pairs - left) + {x};
      rows := rows[next := x];
      left, next := left - {x}, next + 1;
    }
    assert pairs - left == pairs;
  }

  lemma NewRowAdded(rows: map<Id, (Id, Key)>, pairs: set<(Id, Key)>, taken: set<Id>, next: Id, x: (Id, Key))
    requires NewRowsOf(rows, pairs, taken) && next !in taken && next !in rows && x !in pairs
    ensures NewRowsOf(rows[next := x], pairs + {x}, taken)
  {
    var rows' := rows[next := x];
    forall y | y in pairs + {x} ensures exists d :: d in rows' && rows'[d] == y {
      if y == x {
        assert next in rows' && rows'[next] == y;
      } else {
        var d :| d in rows && rows[d] == y;
        assert d in rows' && rows'[d] == y;
      }
    }
  }

  /** One more than the largest row id. */
  method Above(ids: set<Id>) returns (n: Id)
    ensures forall i :: i in ids ==> i < n
  {
    n := 1;
    var left := ids;
    while left != {}
      invariant left <= ids && forall i :: i in ids && i !in left ==> i < n
      decreases left
    {
      var i := PickOne(left);
      if n <= i { n := i + 1; }
      left := left - {i};
    }
  }

  lemma StartPass(p: Policy, at: int, w: World)
    ensures PassSoFar(p, at, [w], []) && Taken<RowId>([], 0) == 0
  {
  }

  lemma CollectedWorld(w: World, table: Table, victims: set<RowId>)
    ensures var w' := AfterCollect(w, table, victims); w' == World(w.now, Delete(w.db, table, victims), w'.h)
  {
    hide Delete;
  }

  lemma LostRows(db: Db, table: Table, victims: set<RowId>)
    requires victims <= Rows(db, table)
    ensures forall t :: |Rows(db, t)| == |Rows(Delete(db, table, victims), t)| + if t == table then |victims| else 0
  {
    hide Rows, Delete;
    forall t ensures |Rows(db, t)| == |Rows(Delete(db, table, victims), t)| + if t == table then |victims| else 0 {
      RowsAfter(db, table, victims, t);
      if t == table { assert Rows(db, t) == (Rows(db, t) - victims) + victims; }
    }
  }

  lemma LimitCount<T>(chosen: set<T>, candidates: set<T>, limit: nat)
    requires LimitOf(chosen, candidates, limit)
    ensures |chosen| <= limit
  {
  }

  lemma EligibleStored(db: Db, key: Key, t: int)
    requires Eligible(db, key, t)
    ensures key in db.clientSessions && db.clientSessions[key].sso in db.sessions && key.client in db.clients
  {
  }

  lemma JoinShape(p: Policy, db: Db, sso: Id, key: Key)
    ensures var r := OpenClientSession(p, db, sso, key);
            r.Some? ==> sso in db.sessions && r.value == db.(connections := r.value.connections, clientSessions :=
              r.value.clientSessions)
  {
    hide ActiveClientSessions;
  }

  lemma LastUpdate(sessions: map<Id, Session>, sso: Id, s: Session, gcAfter: int)
    ensures sessions[sso := s][sso := s.(gcAfter := gcAfter)] == sessions[sso := s.(gcAfter := gcAfter)]
  {
  }

  lemma SameUpdate<K, V>(m: map<K, V>, k: K)
    requires k in m
    ensures m[k := m[k]] == m
  {
  }

  /** Among any rows there is a first one in ORDER BY next_at, id. */
  lemma {:induction false} FirstExists(deliveries: map<Id, Delivery>, rows: set<Id>)
    requires rows != {} && rows <= deliveries.Keys
    ensures exists d :: d in rows && forall d' :: d' in rows ==> NotAfter(deliveries, d, d')
    decreases rows
  {
    var x := Pick(rows);
    var rest := rows - {x};
    assert rows == rest + {x};
    if rest == {} {
      assert forall d' :: d' in rows ==> d' == x;
      assert NotAfter(deliveries, x, x);
    } else {
      FirstExists(deliveries, rest);
      var d :| d in rest && forall d' :: d' in rest ==> NotAfter(deliveries, d, d');
      var k := if NotAfter(deliveries, d, x) then d else x;
      assert forall d' :: d' in rows ==> d' == x || d' in rest;
      assert k in rows && forall d' :: d' in rows ==> NotAfter(deliveries, k, d');
    }
  }
}
