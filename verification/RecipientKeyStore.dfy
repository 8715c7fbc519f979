/** The recipient key administration as an object over the key tables: each method is the read or the batch half of a
    command, statement by statement, with rollback when a guard, a trigger or a constraint aborts the batch. */
module RecipientKeyStore {
  import opened Wrappers
  import opened RecipientKeys

  datatype Failure = NotStaged | ActiveExists | NoActive | Missing | Aborted | Concurrent

  class KeyStore {
    var keys: map<Id, Key>
    var audit: seq<Audit>

    ghost function Tables(): Db
      reads this
    {
      Db(keys, audit)
    }

    ghost predicate Valid()
      reads this
    {
      Inv(Tables())
    }

    constructor ()
      ensures Valid() && Tables() == Db(map[], [])
    {
      keys, audit := map[], [];
      new;
      EmptyInv(Tables());
    }

    /** One UPDATE of a row, under the triggers. */
    method Set(id: Id, k: Key) returns (ok: bool)
      requires id in keys
      modifies this`keys
      ensures ok <==> Update(old(Tables()), id, k).Some?
      ensures Tables() == if ok then Update(old(Tables()), id, k).value else old(Tables())
    {
      if !UpdateAllowed(keys[id], k) { return false; }
      keys := keys[id := k];
      return true;
    }

    /** `stageKey` */
    method Stage(id: Id, publicKey: Id, secretRef: Id, generation: int, now: int) returns (ok: bool)
      requires Valid()
      modifies this
      ensures Valid() && Moves(old(Tables()), Tables())
      ensures var r := StageBatch(old(Tables()), id, publicKey, secretRef, generation, now);
              (ok <==> r.Some?) && Tables() == if ok then r.value else old(Tables())
    {
      hide Inv, Moves;
      NoMove(Tables());
      var k := Key(publicKey, secretRef, generation, KeyState.Staged, 1, now, None, None);
      if id in keys || !WellFormed(k) || exists x ::
        x in keys
        && (keys[x].secretRef == secretRef || keys[x].generation == generation) {
        return false;
      }
      StageKeeps(Tables(), id, publicKey, secretRef, generation, now);
      keys := keys[id := k];
      audit := audit + [Audit(id, Action.Stage, 1, now)];
      return true;
    }

    /** First half of `activateKey`: the revision of a staged key, while no key is active. */
    method ReadActivate(id: Id) returns (r: Result<int, Failure>)
      ensures r.Success? <==> id in keys && keys[id].state.Staged? && !SomeActive(Tables())
      ensures r.Success? ==> r.value == keys[id].revision
    {
      if id !in keys || !keys[id].state.Staged? { return Result.Failure(NotStaged); }
      if exists x :: x in keys && keys[x].state.Active? { return Result.Failure(ActiveExists); }
      return Success(keys[id].revision);
    }

    /** Second half of `activateKey`, after the binding has been verified. */
    method CommitActivate(id: Id, revision: int, now: int) returns (ok: bool)
      requires Valid()
      modifies this
      ensures Valid() && Moves(old(Tables()), Tables())
      ensures var r := ActivateBatch(old(Tables()), id, revision, now);
              (ok <==> r.Some?) && Tables() == if ok then r.value else old(Tables())
    {
      hide Inv, Moves, UpdateAllowed;
      NoMove(Tables());
      // UPDATE ... AND NOT EXISTS(active); guard(changes() = 1)
      if id !in keys || !keys[id].state.Staged? || keys[id].revision != revision || exists x ::
        x in keys
        && keys[x].state.Active? {
        return false;
      }
      if ActivateBatch(Tables(), id, revision, now).Some? { ActivateKeeps(Tables(), id, revision, now); }
      ok := Set(id, keys[id].(state := KeyState.Active, revision := keys[id].revision + 1, activatedAt := Some(now)));
      if ok { audit := audit + [Audit(id, Action.Activate, revision + 1, now)]; }
    }

    /** First read of `rotateKey`: the active key, if there is one. */
    method ReadActive() returns (r: Result<(Id, int), Failure>)
      requires Valid()
      ensures r.Success? <==> SomeActive(Tables())
      ensures r.Success? ==> r.value.0 in keys && keys[r.value.0].revision == r.value.1
                             && forall id :: id in keys ==> (keys[id].state.Active? <==> id == r.value.0)
    {
      if !exists x :: x in keys && keys[x].state.Active? { return Result.Failure(NoActive); }
      var id :| id in keys && keys[id].state.Active?;
      return Success((id, keys[id].revision));
    }

    /** Second read of `rotateKey`: the revision of the staged key. */
    method ReadStaged(id: Id) returns (r: Result<int, Failure>)
      ensures r.Success? <==> id in keys && keys[id].state.Staged?
      ensures r.Success? ==> r.value == keys[id].revision
    {
      if id !in keys || !keys[id].state.Staged? { return Result.Failure(NotStaged); }
      return Success(keys[id].revision);
    }

    /** First half of `disableKey`. */
    method ReadDisable(id: Id) returns (r: Result<int, Failure>)
      ensures r.Success? <==> id in keys && !keys[id].state.Disabled?
      ensures r.Success? ==> r.value == keys[id].revision
    {
      if id !in keys || keys[id].state.Disabled? { return Result.Failure(Missing); }
      return Success(keys[id].revision);
    }

    /** Second half of `rotateKey`, after both bindings have been verified. */
    method CommitRotate(from: Id, fromRevision: int, to: Id, toRevision: int, now: int) returns (ok: bool)
      requires Valid()
      modifies this
      ensures Valid() && Moves(old(Tables()), Tables())
      ensures var r := RotateBatch(old(Tables()), from, fromRevision, to, toRevision, now);
              (ok <==> r.Some?) && Tables() == if ok then r.value else old(Tables())
      ensures ok ==> forall id :: id in keys ==> (keys[id].state.Active? <==> id == to)
    {
      hide Moves, UpdateAllowed, Audited, WellFormed;
      NoMove(Tables());
      var before := keys;
      if RotateBatch(Tables(), from, fromRevision, to, toRevision, now).Some? {
        RotateKeeps(Tables(), from, fromRevision, to, toRevision, now);
      }
      if from !in keys || !keys[from].state.Active? || keys[from].revision != fromRevision { return false; }
      ok := Set(from, keys[from].(state := DecryptOnly, revision := keys[from].revision + 1, retiredAt := Some(now)));
      if !ok { return; }
      if to !in keys || !keys[to].state.Staged? || keys[to].revision != toRevision {
        keys := before;
        return false;
      }
      ok := Set(to, keys[to].(state := KeyState.Active, revision := keys[to].revision + 1, activatedAt := Some(now)));
      if !ok {
        keys := before;
        return;
      }
      audit := audit + [Audit(from, Action.Rotate, fromRevision + 1, now)];
      audit := audit + [Audit(to, Action.Rotate, toRevision + 1, now)];
    }

    /** Second half of `disableKey`: the change counts are looked at only after the batch has committed. */
    method CommitDisable(id: Id, revision: int, now: int) returns (r: Result<(), Failure>)
      requires Valid()
      modifies this
      ensures Valid() && Moves(old(Tables()), Tables())
      ensures var b := DisableBatch(old(Tables()), id, revision, now);
              Tables() == if b.Some? then b.value else old(Tables())
      ensures r.Success? ==>
                id in keys && keys[id].state.Disabled? && keys[id].revision == revision + 1
                && keys != old(keys)
      ensures r == Result.Failure(Concurrent) ==> keys == old(keys)
    {
      hide Inv, Moves, UpdateAllowed;
      NoMove(Tables());
      if DisableBatch(Tables(), id, revision, now).Some? { DisableKeeps(Tables(), id, revision, now); }
      var updated := false;
      if id in keys && keys[id].revision == revision && !keys[id].state.Disabled? {
        var k := keys[id];
        updated := Set(id, k.(state := Disabled, revision := revision + 1, retiredAt :=
          if k.retiredAt.Some? then k.retiredAt else Some(now)));
        if !updated { return Result.Failure(Aborted); }
      }
      var noted := id in keys && keys[id].state.Disabled? && keys[id].revision == revision + 1;
      if noted { audit := audit + [Audit(id, Action.Disable, revision + 1, now)]; }
      if !updated || !noted { return Result.Failure(Concurrent); }
      return Success(());
    }
  }
}
