/**
 * `TokenStore` of `src/auth/token-store.ts` and one call of `authenticateUplink` of
 * `src/auth/index.ts`, as objects. Each method is tied to the change it makes in the step system
 * `Tokens`.
 */
module TokenStore {
  import opened Common
  import opened Tokens
  import opened TokenAnswers

  /** `TokenStore` */
  class Store {
    var rows: Table

    ghost predicate Valid()
      reads this
    {
      TableOk(rows)
    }

    constructor ()
      ensures Valid() && rows == map[]
    {
      rows := map[];
    }

    /** `create`, with the generated id and the hash of the generated secret; false is a throw. */
    method CreateToken(id: string, hash: string, role: Role) returns (created: bool)
      requires Valid()
      modifies this
      ensures Valid()
      ensures created <==> Inserted(old(rows), id, hash, role).Some?
      ensures created <==> id !in old(rows) && forall other :: other in old(rows) ==> old(rows)[other].hash != hash
      ensures rows == if created then old(rows)[id := Row(hash, role, None)] else old(rows)
    {
      created := id !in rows && !HashTaken(rows, hash);
      if created {
        rows := rows[id := Row(hash, role, None)];
      }
    }

    /** `revoke` */
    method RevokeToken(id: string) returns (existed: bool)
      requires Valid()
      modifies this
      ensures Valid() && rows == old(rows) - {id} && existed == (id in old(rows))
    {
      existed := id in rows;
      rows := rows - {id};
    }

    /** `pinWorker`: one transaction of the update and the read that decides. */
    method PinWorker(id: string, worker: string) returns (pinned: bool)
      requires Valid()
      modifies this
      ensures Valid() && rows == Updated(old(rows), id, worker)
      ensures pinned <==> id in rows && rows[id].pin == Some(worker)
      ensures pinned <==> id in old(rows)
                          && (|| old(rows)[id].pin == Some(worker)
                              || (old(rows)[id].pin.None?
                                  && forall other :: other in old(rows) ==> old(rows)[other].pin != Some(worker)))
      ensures rows == if pinned then old(rows)[id := old(rows)[id].(pin := Some(worker))] else old(rows)
    {
      UpdatedOk(rows, id, worker);
      if id in rows && rows[id].pin.None? && !PinTaken(rows, worker) {
        rows := rows[id := rows[id].(pin := Some(worker))];
      }
      pinned := id in rows && rows[id].pin == Some(worker);
    }

    /** `verify`, with the hash of the secret. */
    method FindByHash(hash: string) returns (record: Option<Record>)
      ensures record.Some? ==>
                && record.value.id in rows && rows[record.value.id] == record.value.row
                && record.value.row.hash == hash
      ensures record.None? <==> forall id :: id in rows ==> rows[id].hash != hash
    {
      record := None;
      if HashTaken(rows, hash) {
        var id :| id in rows && rows[id].hash == hash;
        record := Some(Record(id, rows[id]));
      }
    }
  }

  /** One call of `authenticateUplink`. */
  class UplinkJoin {
    const store: Store
    var join: Join

    /** Up to the await of `verify`. */
    constructor (store: Store, credential: Option<string>, worker: Option<string>)
      requires store.Valid()
      ensures this.store == store && join == Begun(store.rows, credential, worker)
    {
      this.store := store;
      var phase := Answered(Unauthenticated);
      if credential.Some? {
        var record := store.FindByHash(credential.value);
        phase := Verified(record);
      }
      join := Join(worker, phase);
    }

    /** From one await to the next, or to the answer. */
    method ResumeJoin()
      requires store.Valid()
      modifies this`join, store
      ensures store.Valid()
      ensures (store.rows, join) == Resumed(old(store.rows), old(join))
      ensures forall outcome ::
                join.phase == Answered(outcome) && old(join).phase != Answered(outcome)
                <==> AnsweredFor(old(join), outcome)
    {
      AllAnswers(store.rows, join);
      var phase := join.phase;
      match phase
      case Verified(None) =>
        join := join.(phase := Answered(Unauthenticated));
      case Verified(Some(record)) =>
        if record.row.role != Worker {
          join := join.(phase := Answered(Forbidden));
        } else if join.worker.None? || !WorkerIdOk(join.worker.value) {
          join := join.(phase := Answered(Mismatch));
        } else if record.row.pin.None? {
          var pinned := store.PinWorker(record.id, join.worker.value);
          join := join.(phase := Pinning(record.id, pinned));
        } else {
          join := join.(phase := Answered(if record.row.pin == join.worker then Accept(record.id) else Mismatch));
        }
      case Pinning(id, pinned) =>
        join := join.(phase := Answered(if pinned then Accept(id) else Mismatch));
      case Answered(_) =>
    }
  }
}
