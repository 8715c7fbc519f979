/** The relying party as a state machine. A request that waits for the database, the provider or the clock is a
    thread, and every step of every other request, of the provider and of the collector can run in between. */
module RpMachine {
  import opened Wrappers
  import opened RuntimePolicy
  import opened RpTables

  /** What the provider has decided about client sessions so far: their absolute expiry, and since when a sid is
      revoked. */
  datatype View = View(expires: map<Id, int>, revokedAt: map<Id, int>)

  /** What a session check is for: a callback that will insert a session, or a request refreshing the lease it read. */
  datatype Purpose =
    | NewSession(loginExpires: int, replaced: Id)
    | Refresh(hash: Id, seen: int)

  datatype Thread =
    | Exchanging(loginExpires: int, replaced: Id)                                  // waits for /token
    | LeaseOver(hash: Id, seen: int, sid: Id, sub: Id, authTime: int)              // about to ask the provider
    | Checking(purpose: Purpose, sid: Id, sub: Id, authTime: int, started: int)    // waits for /session/check
    | Answered(purpose: Purpose, sid: Id, sub: Id, authTime: int, started: int, answer: Answer)
    | Ready(purpose: Purpose, sid: Id, sub: Id, authTime: int, checkedAt: int, checked: Checked)   // about to write
    | Touching(hash: Id, sid: Id, checkedAt: int)                                  // about to extend the idle bound
    | Notifying(sid: Id, jti: Id, exp: int, at: int)                      // verified logout token, about to write

  /** A request that `current` accepted: the clock reading at which its lease was still running. */
  datatype Accepted = Accepted(sid: Id, checkedAt: int, at: int)

  /** No batch reads this: the sids whose back-channel logout has committed, the accepted requests, and the sid for
      which each random cookie secret was drawn. */
  datatype Hist = Hist(notified: set<Id>, accepted: set<Accepted>, owners: map<Id, Id>)

  datatype World = World(now: int, view: View, db: Tables, threads: map<Id, Thread>, h: Hist)

  datatype Step =
    | Tick(to: int)
    | ProviderMoves(view: View)
    | StartLogin(state: Id, browser: Id, at: int)
    | BeginCallback(thread: Id, state: Id, browser: Id, at: int, replaced: Id)
    | TokenAnswer(thread: Id, sid: Id, sub: Id, authTime: int)
    | CheckAnswer(thread: Id, answer: Answer)
    | Bound(thread: Id)
    | CommitCallback(thread: Id, hash: Id)
    | BeginCurrent(thread: Id, hash: Id, at: int)
    | SendCheck(thread: Id)
    | CommitRefresh(thread: Id)
    | CommitTouch(thread: Id, at: int)
    | ReceiveLogout(thread: Id, sid: Id, jti: Id, exp: int)
    | CommitLogout(thread: Id, latestParent: int)
    | LocalLogout(hash: Id, state: Id, browser: Id, at: int)
    | FinishLogout(state: Id, browser: Id, at: int)
    | Crash(thread: Id)
    | Collect(table: Table, at: int, victims: set<Id>)

  /** The provider only adds sessions and revocations, and dates a revocation with the current time. */
  ghost predicate ViewGrows(view: View, view': View, now: int) {
    && (forall k :: k in view.expires ==> k in view'.expires && view'.expires[k] == view.expires[k])
    && (forall k :: k in view.revokedAt ==> k in view'.revokedAt && view'.revokedAt[k] == view.revokedAt[k])
    && (forall k :: k in view'.revokedAt && k !in view.revokedAt ==> view'.revokedAt[k] == now)
  }

  /** /session/check answers `active` only for an unrevoked, unexpired session, with its real expiry. */
  predicate SaysActive(view: View, now: int, sid: Id, answer: Answer) {
    sid in view.expires && sid !in view.revokedAt && view.expires[sid] == answer.expires && answer.expires > now
  }

  /** What the relying party itself asks of a step: the thread waits for it, clock readings are not in the future,
      random secrets do not repeat, and a DELETE takes rows that it may take. */
  predicate Possible(p: Policy, w: World, s: Step) {
    match s
    case Tick(to) => to >= w.now
    case ProviderMoves(_) => true
    case StartLogin(state, _, at) => at <= w.now && state !in w.db.logins
    case BeginCallback(thread, _, _, at, _) => thread !in w.threads && at <= w.now
    case TokenAnswer(thread, _, _, _) => thread in w.threads && w.threads[thread].Exchanging?
    case CheckAnswer(thread, _) => thread in w.threads && w.threads[thread].Checking?
    case Bound(thread) => thread in w.threads && w.threads[thread].Answered?
    case CommitCallback(thread, hash) =>
      thread in w.threads && w.threads[thread].Ready? && w.threads[thread].purpose.NewSession? && hash !in w.h.owners
    case BeginCurrent(thread, _, at) => thread !in w.threads && at <= w.now
    case SendCheck(thread) => thread in w.threads && w.threads[thread].LeaseOver?
    case CommitRefresh(thread) => thread in w.threads && w.threads[thread].Ready? && w.threads[thread].purpose.Refresh?
    case CommitTouch(thread, at) => thread in w.threads && w.threads[thread].Touching? && at <= w.now
    case ReceiveLogout(thread, _, _, _) => thread !in w.threads
    case CommitLogout(thread, latestParent) =>
      thread in w.threads && w.threads[thread].Notifying? && IsLatestParent(w.db, w.threads[thread].sid, latestParent)
    case LocalLogout(_, _, _, at) => at <= w.now
    case FinishLogout(_, _, at) => at <= w.now
    case Crash(_) => true
    case Collect(table, at, victims) => at <= w.now && victims <= DoomedRows(w.db, table, at)
  }

  /** What the provider must guarantee: its history grows, `active` answers are true, logout tokens are for revoked
      sids. */
  ghost predicate Honest(p: Policy, w: World, s: Step)
    requires Possible(p, w, s)
  {
    match s
    case ProviderMoves(view) => ViewGrows(w.view, view, w.now)
    case CheckAnswer(thread, answer) => SaysActive(w.view, w.now, w.threads[thread].sid, answer)
    case ReceiveLogout(_, sid, _, _) => sid in w.view.revokedAt
    case _ => true
  }

  ghost predicate Enabled(p: Policy, w: World, s: Step) { Possible(p, w, s) && Honest(p, w, s) }

  function Done(w: World, thread: Id): World { w.(threads := w.threads - {thread}) }

  function AfterBeginCallback(w: World, thread: Id, state: Id, browser: Id, at: int, replaced: Id): World {
    match ConsumeLogin(w.db, state, browser, at)
    case None => w
    case Some((db, expires)) => w.(db := db, threads := w.threads[thread := Exchanging(expires, replaced)])
  }

  /** The session check starts as soon as the ID token has been verified. */
  function AfterTokenAnswer(w: World, thread: Id, sid: Id, sub: Id, authTime: int): World
    requires thread in w.threads && w.threads[thread].Exchanging?
  {
    var t := w.threads[thread];
    w.(threads := w.threads[thread := Checking(NewSession(t.loginExpires, t.replaced), sid, sub, authTime, w.now)])
  }

  function AfterCheckAnswer(w: World, thread: Id, answer: Answer): World
    requires thread in w.threads && w.threads[thread].Checking?
  {
    var t := w.threads[thread];
    w.(threads := w.threads[thread := Answered(t.purpose, t.sid, t.sub, t.authTime, t.started, answer)])
  }

  function AfterBound(p: Policy, w: World, thread: Id): World
    requires thread in w.threads && w.threads[thread].Answered?
  {
    var t := w.threads[thread];
    match CheckedSession(p, t.answer, t.sub, t.authTime, t.started, w.now)
    case None => Done(w, thread)
    case Some(checked) => w.(threads := w.threads[thread := Ready(t.purpose, t.sid, t.sub, t.authTime, w.now, checked)])
  }

  function AfterCommitCallback(p: Policy, w: World, thread: Id, hash: Id): World
    requires thread in w.threads && w.threads[thread].Ready? && w.threads[thread].purpose.NewSession?
  {
    var t := w.threads[thread];
    match RpTables.CommitCallback(p, w.db, w.now, t.sid, t.sub, t.authTime, t.checked, t.purpose.loginExpires,
      t.purpose.replaced, hash)
    case None => Done(w, thread)
    case Some(db) => Done(w, thread).(db := db, h := w.h.(owners := w.h.owners[hash := t.sid]))
  }

  /** A request that finds its session: with a running lease it goes on to extend the idle bound, otherwise it has to
      ask the provider first. */
  function AfterBeginCurrent(w: World, thread: Id, hash: Id, at: int): World {
    if !Current(w.db, hash, at) then w else
    var s := w.db.appSessions[hash];
    w.(threads := w.threads[thread := if s.leaseUntil <= at then LeaseOver(hash, s.leaseUntil, s.sid, s.sub, s.authTime)
                                      else Touching(hash, s.sid, at)])
  }

  /** The new lease will count from this reading of the clock, just before the request is sent. */
  function AfterSendCheck(w: World, thread: Id): World
    requires thread in w.threads && w.threads[thread].LeaseOver?
  {
    var t := w.threads[thread];
    w.(threads := w.threads[thread := Checking(Refresh(t.hash, t.seen), t.sid, t.sub, t.authTime, w.now)])
  }

  function AfterCommitRefresh(w: World, thread: Id): World
    requires thread in w.threads && w.threads[thread].Ready? && w.threads[thread].purpose.Refresh?
  {
    var t := w.threads[thread];
    match RefreshLease(w.db, t.purpose.hash, t.purpose.seen, t.checked.lease)
    case None => Done(w, thread)
    case Some(db) => w.(db := db, threads := w.threads[thread :=
      Touching(t.purpose.hash, db.appSessions[t.purpose.hash].sid, t.checkedAt)])
  }

  function AfterCommitTouch(p: Policy, w: World, thread: Id, at: int): World
    requires thread in w.threads && w.threads[thread].Touching?
  {
    var t := w.threads[thread];
    match Touch(p, w.db, w.now, t.hash, at)
    case None => Done(w, thread)
    case Some(db) => Done(w, thread).(db := db, h := w.h.(accepted :=
      w.h.accepted + {Accepted(db.appSessions[t.hash].sid, t.checkedAt, w.now)}))
  }

  function AfterReceiveLogout(w: World, thread: Id, sid: Id, jti: Id, exp: int): World {
    w.(threads := w.threads[thread := Notifying(sid, jti, exp, w.now)])
  }

  function AfterCommitLogout(p: Policy, w: World, thread: Id, latestParent: int): World
    requires thread in w.threads && w.threads[thread].Notifying?
  {
    var t := w.threads[thread];
    Done(w, thread).(db := Backchannel(p, w.db, t.sid, t.jti, t.exp, t.at, latestParent), h :=
      w.h.(notified := w.h.notified + {t.sid}))
  }

  function AfterLocalLogout(p: Policy, w: World, hash: Id, state: Id, browser: Id, at: int): World {
    match RpTables.LocalLogout(p, w.db, hash, state, browser, at)
    case None => w
    case Some(db) => w.(db := db)
  }

  function AfterFinishLogout(w: World, state: Id, browser: Id, at: int): World {
    match RpTables.FinishLogout(w.db, state, browser, at)
    case None => w
    case Some(db) => w.(db := db)
  }

  function Apply(p: Policy, w: World, s: Step): World
    requires Possible(p, w, s)
  {
    match s
    case Tick(to) => w.(now := to)
    case ProviderMoves(view) => w.(view := view)
    case StartLogin(state, browser, at) => w.(db := RpTables.StartLogin(p, w.db, state, browser, at))
    case BeginCallback(thread, state, browser, at, replaced) =>
      AfterBeginCallback(w, thread, state, browser, at, replaced)
    case TokenAnswer(thread, sid, sub, authTime) => AfterTokenAnswer(w, thread, sid, sub, authTime)
    case CheckAnswer(thread, answer) => AfterCheckAnswer(w, thread, answer)
    case Bound(thread) => AfterBound(p, w, thread)
    case CommitCallback(thread, hash) => AfterCommitCallback(p, w, thread, hash)
    case BeginCurrent(thread, hash, at) => AfterBeginCurrent(w, thread, hash, at)
    case SendCheck(thread) => AfterSendCheck(w, thread)
    case CommitRefresh(thread) => AfterCommitRefresh(w, thread)
    case CommitTouch(thread, at) => AfterCommitTouch(p, w, thread, at)
    case ReceiveLogout(thread, sid, jti, exp) => AfterReceiveLogout(w, thread, sid, jti, exp)
    case CommitLogout(thread, latestParent) => AfterCommitLogout(p, w, thread, latestParent)
    case LocalLogout(hash, state, browser, at) => AfterLocalLogout(p, w, hash, state, browser, at)
    case FinishLogout(state, browser, at) => AfterFinishLogout(w, state, browser, at)
    case Crash(thread) => Done(w, thread)
    case Collect(table, at, victims) => w.(db := Delete(w.db, table, victims))
  }

  predicate Initial(w: World) {
    w.now >= 0 && w.view == View(map[], map[]) && w.db == Tables(map[], map[], map[], map[], map[])
      && w.threads == map[] && w.h == Hist({}, {}, map[])
  }

  ghost predicate IsRun(p: Policy, states: seq<World>, steps: seq<Step>) {
    && |states| == |steps| + 1
    && forall i :: 0 <= i < |steps| ==>
       Enabled(p, states[i], steps[i])
       && states[i + 1] == Apply(p, states[i], steps[i])
  }
}
