/** The life of recipient keys (scripts/recipient-key-admin.ts) over the constraints and triggers of
    crates/worker/migrations/0001_owner_vault_initial.sql. An operator first reads, then runs a batch; other operators
    run in between. */
module RecipientKeys {
  import opened Wrappers

  type Id = int

  datatype KeyState = Staged | Active | DecryptOnly | Disabled

  datatype Key = Key(publicKey: Id, secretRef: Id, generation: int, state: KeyState, revision: int, createdAt: int,
                     activatedAt: Option<int>, retiredAt: Option<int>)

  datatype Action = Stage | Activate | Rotate | Disable

  datatype Audit = Audit(key: Id, action: Action, revision: int, at: int)

  datatype Db = Db(keys: map<Id, Key>, audit: seq<Audit>)

  // ---------------------------------------------------------------- constraints and triggers

  /** The CHECK on state and timestamps. */
  predicate WellFormed(k: Key) {
    && k.revision > 0 && k.createdAt > 0 && k.generation > 0
    && (k.activatedAt.Some? ==> k.activatedAt.value > 0) && (k.retiredAt.Some? ==> k.retiredAt.value > 0)
    && match k.state
       case Staged => k.activatedAt.None? && k.retiredAt.None?
       case Active => k.activatedAt.Some? && k.retiredAt.None?
       case DecryptOnly => k.activatedAt.Some? && k.retiredAt.Some?
       case Disabled => k.retiredAt.Some?
  }

  /** Keys only move forward: staged, active, decrypt_only, disabled. */
  predicate Forward(a: KeyState, b: KeyState) {
    match a
    case Staged => b.Active? || b.Disabled?
    case Active => b.DecryptOnly? || b.Disabled?
    case DecryptOnly => b.Disabled?
    case Disabled => false
  }

  /** The update triggers: immutable identity, one revision per change, forward transitions, sane timestamps. */
  predicate UpdateAllowed(before: Key, after: Key) {
    && after.publicKey == before.publicKey && after.secretRef == before.secretRef
       && after.generation == before.generation && after.createdAt == before.createdAt
    && (before.activatedAt.Some? ==> after.activatedAt == before.activatedAt)
    && (before.retiredAt.Some? ==> after.retiredAt == before.retiredAt)
    && after.revision == before.revision + 1 && Forward(before.state, after.state)
    && (before.state.Staged? && after.activatedAt.Some? ==> after.activatedAt.value >= before.createdAt)
    && ((after.state.DecryptOnly? || after.state.Disabled?) && after.retiredAt.Some? ==>
          after.retiredAt.value >= if after.activatedAt.Some? then after.activatedAt.value else before.createdAt)
    && WellFormed(after)
  }

  /** One row update: None when a trigger or a constraint aborts the batch. */
  function Update(db: Db, id: Id, k: Key): Option<Db>
    requires id in db.keys
  {
    if UpdateAllowed(db.keys[id], k) then Some(db.(keys := db.keys[id := k])) else None
  }

  function Note(db: Db, a: Audit): Db { db.(audit := db.audit + [a]) }

  predicate SomeActive(db: Db) { exists id :: id in db.keys && db.keys[id].state.Active? }

  // ---------------------------------------------------------------- batches

  /** `stageKey`, for a record that `validatePublicRecord` accepted. */
  function StageBatch(db: Db, id: Id, publicKey: Id, secretRef: Id, generation: int, now: int): Option<Db> {
    var k := Key(publicKey, secretRef, generation, Staged, 1, now, None, None);
    if id in db.keys || !WellFormed(k) || (exists x ::
      x in db.keys
      && (db.keys[x].secretRef == secretRef || db.keys[x].generation == generation)) then None
    else Some(Note(db.(keys := db.keys[id := k]), Audit(id, Stage, 1, now)))
  }

  /** The batch of `activateKey` for the revision that was read: guarded by changes() = 1. */
  function ActivateBatch(db: Db, id: Id, revision: int, now: int): Option<Db> {
    if id !in db.keys || !db.keys[id].state.Staged? || db.keys[id].revision != revision || SomeActive(db) then None else
    var k := db.keys[id];
    var db1 :- Update(db, id, k.(state := Active, revision := k.revision + 1, activatedAt := Some(now)));
    Some(Note(db1, Audit(id, Activate, revision + 1, now)))
  }

  /** The batch of `rotateKey` for the two revisions that were read: both updates are guarded. */
  function RotateBatch(db: Db, from: Id, fromRevision: int, to: Id, toRevision: int, now: int): Option<Db> {
    if from !in db.keys || !db.keys[from].state.Active? || db.keys[from].revision != fromRevision then None else
    var a := db.keys[from];
    var db1 :- Update(db, from, a.(state := DecryptOnly, revision := a.revision + 1, retiredAt := Some(now)));
    if to !in db1.keys || !db1.keys[to].state.Staged? || db1.keys[to].revision != toRevision then None else
    var b := db1.keys[to];
    var db2 :- Update(db1, to, b.(state := Active, revision := b.revision + 1, activatedAt := Some(now)));
    Some(Note(Note(db2, Audit(from, Rotate, fromRevision + 1, now)), Audit(to, Rotate, toRevision + 1, now)))
  }

  /** The batch of `disableKey` has no guard: it commits even when the update matched nothing. */
  function DisableBatch(db: Db, id: Id, revision: int, now: int): Option<Db> {
    var updates := id in db.keys && db.keys[id].revision == revision && !db.keys[id].state.Disabled?;
    var db1 :- if updates then
                 var k := db.keys[id];
                 Update(db, id, k.(state := Disabled, revision := revision + 1, retiredAt :=
                   if k.retiredAt.Some? then k.retiredAt else Some(now)))
               else Some(db);
    if id in db1.keys && db1.keys[id].state.Disabled? && db1.keys[id].revision == revision + 1 then
      Some(Note(db1, Audit(id, Disable, revision + 1, now)))
    else
      Some(db1)
  }

  // ---------------------------------------------------------------- operators

  /** What an operator has read and not yet used. */
  datatype Thread =
    | Activating(id: Id, revision: int)
    | Rotating(from: Id, fromRevision: int, to: Id, toRevision: int)
    | RotatingFrom(from: Id, fromRevision: int, to: Id)
    | Disabling(id: Id, revision: int)

  datatype World = World(db: Db, threads: map<Id, Thread>)

  datatype Step =
    | StageKey(id: Id, publicKey: Id, secretRef: Id, generation: int, now: int)
    | ReadActivate(thread: Id, id: Id)
    | ReadRotateFrom(thread: Id, from: Id, to: Id)
    | ReadRotateTo(thread: Id)
    | ReadDisable(thread: Id, id: Id)
    | Commit(thread: Id, now: int)

  /** `from` is what SELECT ... WHERE state = 'active' returned. */
  predicate Enabled(w: World, s: Step) {
    match s
    case ReadRotateFrom(thread, from, _) => thread !in w.threads && from in w.db.keys && w.db.keys[from].state.Active?
    case ReadActivate(thread, _) => thread !in w.threads
    case ReadDisable(thread, _) => thread !in w.threads
    case ReadRotateTo(thread) => thread in w.threads && w.threads[thread].RotatingFrom?
    case Commit(thread, _) => thread in w.threads && !w.threads[thread].RotatingFrom?
    case StageKey(_, _, _, _, _) => true
  }

  function Committed(w: World, thread: Id, now: int): Option<Db>
    requires thread in w.threads && !w.threads[thread].RotatingFrom?
  {
    match w.threads[thread]
    case Activating(id, revision) => ActivateBatch(w.db, id, revision, now)
    case Rotating(from, fromRevision, to, toRevision) => RotateBatch(w.db, from, fromRevision, to, toRevision, now)
    case Disabling(id, revision) => DisableBatch(w.db, id, revision, now)
  }

  function Apply(w: World, s: Step): World
    requires Enabled(w, s)
  {
    match s
    case StageKey(id, publicKey, secretRef, generation, now) =>
      var r := StageBatch(w.db, id, publicKey, secretRef, generation, now);
      if r.Some? then w.(db := r.value) else w
    case ReadActivate(thread, id) =>
      if id in w.db.keys && w.db.keys[id].state.Staged? && !SomeActive(w.db) then w.(threads :=
        w.threads[thread := Activating(id, w.db.keys[id].revision)]) else w
    case ReadRotateFrom(thread, from, to) => w.(threads :=
      w.threads[thread := RotatingFrom(from, w.db.keys[from].revision, to)])
    case ReadRotateTo(thread) =>
      var t := w.threads[thread];
      if t.to in w.db.keys && w.db.keys[t.to].state.Staged? then
        w.(threads := w.threads[thread := Rotating(t.from, t.fromRevision, t.to, w.db.keys[t.to].revision)])
      else w.(threads := w.threads - {thread})
    case ReadDisable(thread, id) =>
      if id in w.db.keys && !w.db.keys[id].state.Disabled? then w.(threads :=
        w.threads[thread := Disabling(id, w.db.keys[id].revision)]) else w
    case Commit(thread, now) =>
      var r := Committed(w, thread, now);
      World(if r.Some? then r.value else w.db, w.threads - {thread})
  }

  ghost predicate IsRun(states: seq<World>, steps: seq<Step>) {
    && |states| == |steps| + 1
    && forall i :: 0 <= i < |steps| ==> Enabled(states[i], steps[i]) && states[i + 1] == Apply(states[i], steps[i])
  }

  predicate Initial(w: World) { w == World(Db(map[], []), map[]) }

  // ---------------------------------------------------------------- what always holds

  /** The unique index on active keys never has anything to refuse. */
  ghost predicate OneActive(db: Db) {
    forall a, b :: a in db.keys && b in db.keys && db.keys[a].state.Active? && db.keys[b].state.Active? ==> a == b
  }

  predicate Noted(audit: seq<Audit>, id: Id, revision: int) {
    exists i :: 0 <= i < |audit| && audit[i].key == id && audit[i].revision == revision
  }

  /** Every revision of every key is audited, and nothing else is; only disabling can leave two rows for one
      revision. */
  ghost predicate Audited(db: Db) {
    && (forall id, r :: id in db.keys && 1 <= r <= db.keys[id].revision ==> Noted(db.audit, id, r))
    && (forall i :: 0 <= i < |db.audit| ==>
       db.audit[i].key in db.keys
       && 1 <= db.audit[i].revision <= db.keys[db.audit[i].key].revision)
    && (forall i, j :: 0 <= i < j < |db.audit| && db.audit[i].key == db.audit[j].key
                       && db.audit[i].revision == db.audit[j].revision ==>
          db.audit[j].action.Disable? && db.keys[db.audit[j].key].state.Disabled?
            && db.keys[db.audit[j].key].revision == db.audit[j].revision)
  }

  ghost predicate Inv(db: Db) {
    && (forall id :: id in db.keys ==> WellFormed(db.keys[id]))
    && OneActive(db)
    && Audited(db)
  }

  /** Keys are never deleted; each either is unchanged or moved forward by one revision, with its identity intact. */
  ghost predicate Moves(db: Db, db': Db) {
    forall id :: id in db.keys ==>
      id in db'.keys && (db'.keys[id] == db.keys[id]
      || UpdateAllowed(db.keys[id], db'.keys[id]))
  }

  lemma NotedMore(audit: seq<Audit>, a: Audit)
    ensures forall id, r :: Noted(audit, id, r) ==> Noted(audit + [a], id, r)
    ensures Noted(audit + [a], a.key, a.revision)
  {
    forall id, r | Noted(audit, id, r) ensures Noted(audit + [a], id, r) {
      var i :| 0 <= i < |audit| && audit[i].key == id && audit[i].revision == r;
      assert (audit + [a])[i] == audit[i];
    }
    assert (audit + [a])[|audit|] == a;
  }

  /** An update together with the audit row of its new revision. */
  lemma UpdateNoted(db: Db, id: Id, k: Key, a: Audit)
    requires Audited(db) && id in db.keys && k.revision == db.keys[id].revision + 1 && k.revision > 1
             && !db.keys[id].state.Disabled?
    requires a.key == id && a.revision == k.revision
    ensures Audited(Note(db.(keys := db.keys[id := k]), a))
  {
    NotedMore(db.audit, a);
    var db' := Note(db.(keys := db.keys[id := k]), a);
    forall x, r | x in db'.keys && 1 <= r <= db'.keys[x].revision ensures Noted(db'.audit, x, r) {
      if x == id && r == k.revision {} else { assert Noted(db.audit, x, r); }
    }
  }

  lemma StageKeeps(db: Db, id: Id, publicKey: Id, secretRef: Id, generation: int, now: int)
    requires Inv(db) && StageBatch(db, id, publicKey, secretRef, generation, now).Some?
    ensures var db' := StageBatch(db, id, publicKey, secretRef, generation, now).value; Inv(db') && Moves(db, db')
  {
    NotedMore(db.audit, Audit(id, Stage, 1, now));
  }

  lemma ActivateKeeps(db: Db, id: Id, revision: int, now: int)
    requires Inv(db) && ActivateBatch(db, id, revision, now).Some?
    ensures var db' := ActivateBatch(db, id, revision, now).value; Inv(db') && Moves(db, db')
  {
    hide Audited;
    var k := db.keys[id];
    UpdateNoted(db, id, k.(state := Active, revision := k.revision + 1, activatedAt := Some(now)),
      Audit(id, Activate, revision + 1, now));
  }

  lemma DisableKeeps(db: Db, id: Id, revision: int, now: int)
    requires Inv(db) && DisableBatch(db, id, revision, now).Some?
    ensures var db' := DisableBatch(db, id, revision, now).value; Inv(db') && Moves(db, db')
  {
    var a := Audit(id, Disable, revision + 1, now);
    NotedMore(db.audit, a);
    if id in db.keys && db.keys[id].revision == revision && !db.keys[id].state.Disabled? {
      var k := db.keys[id];
      UpdateNoted(db, id, k.(state := Disabled, revision := revision + 1, retiredAt :=
        if k.retiredAt.Some? then k.retiredAt else Some(now)), a);
    }
  }

  lemma RotateKeeps(db: Db, from: Id, fromRevision: int, to: Id, toRevision: int, now: int)
    requires Inv(db) && RotateBatch(db, from, fromRevision, to, toRevision, now).Some?
    ensures var db' := RotateBatch(db, from, fromRevision, to, toRevision, now).value;
            && Inv(db') && Moves(db, db') && from != to
            && to in db'.keys && db'.keys[to].state.Active? && from in db'.keys && db'.keys[from].state.DecryptOnly?
  {
    hide Audited;
    var a := db.keys[from];
    var retired := a.(state := DecryptOnly, revision := a.revision + 1, retiredAt := Some(now));
    var n1, n2 := Audit(from, Rotate, fromRevision + 1, now), Audit(to, Rotate, toRevision + 1, now);
    var db1 := Note(db.(keys := db.keys[from := retired]), n1);
    UpdateNoted(db, from, retired, n1);
    var b := db1.keys[to];
    UpdateNoted(db1, to, b.(state := Active, revision := b.revision + 1, activatedAt := Some(now)), n2);
  }

  /** Every step of every operator keeps the invariant, and keys only move forward, one revision at a time. */
  lemma StepKeeps(w: World, s: Step)
    requires Inv(w.db) && Enabled(w, s)
    ensures Inv(Apply(w, s).db) && Moves(w.db, Apply(w, s).db)
  {
    hide Inv, Moves, StageBatch, ActivateBatch, RotateBatch, DisableBatch, SomeActive;
    NoMove(w.db);
    match s
    case StageKey(id, publicKey, secretRef, generation, now) =>
      if StageBatch(w.db, id, publicKey, secretRef, generation, now).Some? {
        StageKeeps(w.db, id, publicKey, secretRef, generation, now);
      }
    case Commit(thread, now) =>
      if Committed(w, thread, now).Some? {
        match w.threads[thread]
        case Activating(id, revision) => ActivateKeeps(w.db, id, revision, now);
        case Rotating(from, fromRevision, to, toRevision) => RotateKeeps(w.db, from, fromRevision, to, toRevision, now);
        case Disabling(id, revision) => DisableKeeps(w.db, id, revision, now);
      }
    case _ =>
  }

  lemma NoMove(db: Db)
    ensures Moves(db, db)
  {
  }

  lemma {:induction false} RunKeeps(states: seq<World>, steps: seq<Step>, i: nat)
    requires IsRun(states, steps) && Initial(states[0]) && i < |states|
    ensures Inv(states[i].db)
  {
    hide Inv, Apply, Enabled;
    if i == 0 {
      EmptyInv(states[0].db);
    } else {
      RunKeeps(states, steps, i - 1);
      assert Enabled(states[i - 1], steps[i - 1]) && states[i - 1 + 1] == Apply(states[i - 1], steps[i - 1]);
      StepKeeps(states[i - 1], steps[i - 1]);
    }
  }

  lemma EmptyInv(db: Db)
    requires db == Db(map[], [])
    ensures Inv(db)
  {
  }

  // ---------------------------------------------------------------- main results

  /** Progress of a key as a number: later states are larger. */
  function Rank(s: KeyState): nat { match s case Staged => 0 case Active => 1 case DecryptOnly => 2 case Disabled => 3 }

  /** Over whole runs with any number of concurrent operators: keys stay, states only move forward, the revision counts
      the state changes, and the identity never changes. */
  lemma {:induction false} ForwardOnly(states: seq<World>, steps: seq<Step>, i: nat, j: nat, id: Id)
    requires IsRun(states, steps) && Initial(states[0]) && i <= j < |states| && id in states[i].db.keys
    ensures id in states[j].db.keys
    ensures var k, k' := states[i].db.keys[id], states[j].db.keys[id];
            && Rank(k'.state) >= Rank(k.state) && k'.revision - k.revision <= Rank(k'.state) - Rank(k.state)
            && (k'.revision == k.revision <==> k' == k) && k'.revision >= k.revision
            && k'.publicKey == k.publicKey && k'.secretRef == k.secretRef && k'.generation == k.generation
  {
    hide Inv, Apply, Enabled;
    if i < j {
      ForwardOnly(states, steps, i, j - 1, id);
      RunKeeps(states, steps, j - 1);
      assert Enabled(states[j - 1], steps[j - 1]) && states[j - 1 + 1] == Apply(states[j - 1], steps[j - 1]);
      StepKeeps(states[j - 1], steps[j - 1]);
    }
  }

  /** At most one key is active in every reachable state, and every revision of every key has its audit row. */
  lemma OneActiveAlways(states: seq<World>, steps: seq<Step>, i: nat, a: Id, b: Id, r: int)
    requires IsRun(states, steps) && Initial(states[0]) && i < |states|
    requires a in states[i].db.keys && b in states[i].db.keys
    ensures states[i].db.keys[a].state.Active? && states[i].db.keys[b].state.Active? ==> a == b
    ensures 1 <= r <= states[i].db.keys[a].revision ==> Noted(states[i].db.audit, a, r)
  {
    hide Apply, Enabled;
    RunKeeps(states, steps, i);
  }

  /** A committed rotation leaves exactly one active key, the new one, whatever ran between its reads and its batch. */
  lemma RotationLeavesOne(states: seq<World>, steps: seq<Step>, i: nat)
    requires IsRun(states, steps) && Initial(states[0]) && i < |steps| && steps[i].Commit?
    requires Enabled(states[i], steps[i]) && states[i].threads[steps[i].thread].Rotating?
    requires Committed(states[i], steps[i].thread, steps[i].now).Some?
    ensures var t, db := states[i].threads[steps[i].thread], states[i + 1].db;
            forall id :: id in db.keys ==> (db.keys[id].state.Active? <==> id == t.to)
    ensures var t := states[i].threads[steps[i].thread];
            t.to in states[i + 1].db.keys && states[i + 1].db.keys[t.from].state.DecryptOnly?
  {
    hide RotateBatch, Audited;
    RunKeeps(states, steps, i);
    var t := states[i].threads[steps[i].thread];
    RotateKeeps(states[i].db, t.from, t.fromRevision, t.to, t.toRevision, steps[i].now);
  }

  /** The unguarded batch of `disableKey`, case by case. It disables the key and writes one audit row exactly when
      nobody changed the key since it was read. If somebody else disabled it in exactly one step meanwhile, the batch
      still appends a second audit row for that revision before the operator is told that the update failed. */
  lemma DisableExactly(db: Db, id: Id, revision: int, now: int)
    requires Inv(db) && DisableBatch(db, id, revision, now).Some?
    ensures var db' := DisableBatch(db, id, revision, now).value;
            && (db'.keys != db.keys <==>
               id in db.keys && db.keys[id].revision == revision
               && !db.keys[id].state.Disabled?)
            && (db'.keys != db.keys ==>
               db'.keys[id].state.Disabled?
               && db'.audit == db.audit + [Audit(id, Disable, revision + 1, now)])
            && (db'.keys == db.keys && db'.audit != db.audit
                <==> id in db.keys && db.keys[id].state.Disabled? && db.keys[id].revision == revision + 1)
  {
    hide Audited, OneActive;
    if id in db.keys && db.keys[id].revision == revision && !db.keys[id].state.Disabled? {
      var db' := DisableBatch(db, id, revision, now).value;
      assert db'.keys[id].revision == revision + 1;
    }
  }

  /** Two operators disable the same staged key after both have read it: one revision, two audit rows. */
  lemma DoubleAudit()
    ensures var states := DoubleStates();
            IsRun(states, DoubleSteps()) && Initial(states[0])
            && states[5].db.audit[1].key == states[5].db.audit[2].key
               && states[5].db.audit[1].revision == states[5].db.audit[2].revision
  {
    assert DoubleStates()[3].threads - {1} == map[2 := Disabling(7, 1)];
    assert DoubleStates()[4].threads - {2} == map[];
  }

  function DoubleSteps(): seq<Step> { [StageKey(7, 1, 1, 1, 10), ReadDisable(1, 7), ReadDisable(2, 7), Commit(1, 20),
                       Commit(2, 30)] }

  function DoubleStates(): seq<World> {
    var staged := Db(map[7 := Key(1, 1, 1, Staged, 1, 10, None, None)], [Audit(7, Stage, 1, 10)]);
    var disabled := Db(map[7 := Key(1, 1, 1, Disabled, 2, 10, None, Some(20))],
      staged.audit + [Audit(7, Disable, 2, 20)]);
    [World(Db(map[], []), map[]), World(staged, map[]), World(staged, map[1 := Disabling(7, 1)]),
     World(staged, map[1 := Disabling(7, 1), 2 := Disabling(7, 1)]), World(disabled, map[2 := Disabling(7, 1)]),
     World(Note(disabled, Audit(7, Disable, 2, 30)), map[])]
  }
}
