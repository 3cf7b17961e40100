/** The durable store, `postgres_state.py`, behind the row trigger of migration 000008.
    Each function is one SQL statement (or one transaction) as a change of the database; the
    class performs the same changes on its own fields. */
module Store {
  import opened Collections
  import opened CatalogConfig
  import opened Schemas
  import opened PullOperations

  datatype OperationRow = OperationRow(
    origin: UserKey,
    requestHash: RequestHash,
    status: PullOperationStatus,
    response: Option<PullResponse>,
    event: Option<PullCompletedEvent>,
    errorCode: Option<string>,
    context: Option<PullRecoveryContext>,
    token: Option<Uuid>,
    leaseUntil: Option<Time>,
    lockedUntil: Option<Time>,
    updatedAt: Time)

  datatype PityKey = PityKey(user: Uuid, pityGroupId: string)

  /** The tables, with the unique index on (user, idempotency key). */
  datatype Database = Database(
    operations: map<Uuid, OperationRow>,
    byUserKey: map<UserKey, Uuid>,
    pity: map<PityKey, PitySnapshot>)

  datatype StoreError = NotFound | EvidenceImmutable | OwnershipLost

  const EMPTY_DATABASE := Database(map[], map[], map[])

  function OperationOf(row: OperationRow): (operation: PullOperation)
  {
    PullOperation(row.status, row.requestHash, row.response, row.event, row.errorCode, row.context)
  }

  /** `get_snapshot` */
  function StoredPity(db: Database, key: PityKey): (snapshot: PitySnapshot)
  {
    if key in db.pity then db.pity[key] else INITIAL_SNAPSHOT
  }

  /** `protect_pull_audit_evidence` for an update. */
  predicate TriggerAllows(old_: OperationRow, new_: OperationRow)
  {
    && !old_.status.Succeeded?
    && (old_.status.EventPending? || old_.status.EventPublished? ==>
          && (new_.status == old_.status || new_.status.EventPublished? || new_.status.Succeeded?)
          && new_.requestHash == old_.requestHash
          && new_.response == old_.response
          && new_.event == old_.event)
  }

  function Put(db: Database, id: Uuid, row: OperationRow): (db': Database)
  {
    db.(operations := db.operations[id := row])
  }

  predicate Lapsed(until: Option<Time>, now: Time)
  {
    until.None? || until.value < now
  }

  /** INSERT_PULL_OPERATION_SQL: None on a conflict with the unique index. */
  function Insert(db: Database, id: Uuid, origin: UserKey, requestHash: RequestHash, token: Uuid, until: Time,
                  context: PullRecoveryContext, now: Time)
    : (r: Option<Database>)
  {
    if origin in db.byUserKey then None
    else
      var row := OperationRow(origin, requestHash, Processing, None, None, None, Some(context), Some(token),
                              Some(until), None, now);
      Some(Put(db, id, row).(byUserKey := db.byUserKey[origin := id]))
  }

  /** CLAIM_PROCESSING_OPERATION_SQL */
  function Claim(db: Database, origin: UserKey, requestHash: RequestHash, token: Uuid, until: Time,
                 context: PullRecoveryContext, now: Time)
    : (r: Option<Database>)
  {
    if origin !in db.byUserKey || db.byUserKey[origin] !in db.operations then None
    else
      var row := db.operations[db.byUserKey[origin]];
      if row.requestHash != requestHash || !row.status.Processing? || !Lapsed(row.leaseUntil, now) then None
      else Some(Put(db, db.byUserKey[origin], row.(
        token := Some(token), leaseUntil := Some(until),
        context := (if row.context.Some? then row.context else Some(context)), updatedAt := now)))
  }

  /** CLAIM_EXPIRED_PROCESSING_OPERATION_SQL */
  function ClaimExpired(db: Database, id: Uuid, token: Uuid, until: Time, now: Time): (r: Option<Database>)
  {
    if id !in db.operations then None
    else
      var row := db.operations[id];
      if !row.status.Processing? || row.context.None? || !Lapsed(row.leaseUntil, now) then None
      else Some(Put(db, id, row.(token := Some(token), leaseUntil := Some(until), updatedAt := now)))
  }

  predicate AwaitsRecovery(status: PullOperationStatus)
  {
    status.EventPending? || status.EventPublished? || status.RefundPending?
  }

  /** CLAIM_PENDING_OPERATION_SQL */
  function ClaimPending(db: Database, id: Uuid, expected: PullOperationStatus, until: Time, now: Time)
    : (r: Option<Database>)
  {
    if id !in db.operations then None
    else
      var row := db.operations[id];
      if row.status != expected || !AwaitsRecovery(row.status) || !Lapsed(row.lockedUntil, now) then None
      else Some(Put(db, id, row.(lockedUntil := Some(until), updatedAt := now)))
  }

  /** RELEASE_PENDING_OPERATION_SQL */
  function Release(db: Database, id: Uuid, now: Time): (db': Database)
  {
    if id !in db.operations || !AwaitsRecovery(db.operations[id].status) then db
    else Put(db, id, db.operations[id].(lockedUntil := None, updatedAt := now))
  }

  function Saved(row: OperationRow, operation: PullOperation, now: Time): (row': OperationRow)
  {
    row.(status := operation.status, response := operation.response, event := operation.event,
         errorCode := operation.errorCode, context := operation.recoveryContext, lockedUntil := None,
         token := None, leaseUntil := None, updatedAt := now)
  }

  /** UPDATE_PULL_OPERATION_SQL: checks neither status nor token, only the trigger does. */
  function SaveByKey(db: Database, id: Uuid, operation: PullOperation, now: Time): (r: Result<Database, StoreError>)
  {
    if id !in db.operations then Err(NotFound)
    else
      var row := Saved(db.operations[id], operation, now);
      if !TriggerAllows(db.operations[id], row) then Err(EvidenceImmutable) else Ok(Put(db, id, row))
  }

  /** SAVE_PULL_OPERATION_SQL */
  function SaveByUserKey(db: Database, origin: UserKey, operation: PullOperation, now: Time)
    : (r: Result<Database, StoreError>)
  {
    if origin !in db.byUserKey || db.byUserKey[origin] !in db.operations
       || db.operations[db.byUserKey[origin]].requestHash != operation.requestHash
    then Err(NotFound)
    else SaveByKey(db, db.byUserKey[origin], operation, now)
  }

  predicate Owns(db: Database, id: Uuid, user: Uuid, requestHash: RequestHash, token: Uuid)
  {
    && id in db.operations
    && db.operations[id].origin.user == user
    && db.operations[id].requestHash == requestHash
    && db.operations[id].status.Processing?
    && db.operations[id].token == Some(token)
  }

  /** TRANSITION_PROCESSING_OPERATION_SQL, fenced by the token. */
  function Transition(db: Database, id: Uuid, user: Uuid, requestHash: RequestHash, token: Uuid,
                      operation: PullOperation, now: Time)
    : (r: Result<Database, StoreError>)
  {
    if !Owns(db, id, user, requestHash, token) then Err(OwnershipLost)
    else Ok(Put(db, id, Saved(db.operations[id], operation, now).(lockedUntil := db.operations[id].lockedUntil)))
  }

  datatype CommitOutcome =
    | CommitDone(db: Database) | VersionConflict(current: nat) | NotOwner | CommitFailed

  /** `compare_and_set_with_pull_operation`: one transaction that moves the pity version and the
      operation together, or neither. */
  function Commit(db: Database, id: Uuid, key: PityKey, requestHash: RequestHash, expected: nat,
                  next: PityState, operation: PullOperation, token: Uuid, now: Time)
    : (r: CommitOutcome)
  {
    if id !in db.operations || db.operations[id].origin.user != key.user
       || db.operations[id].requestHash != requestHash
    then CommitFailed
    else if !db.operations[id].status.Processing? || db.operations[id].token != Some(token) then NotOwner
    else
      var stored := StoredPity(db, key);
      if stored.version != expected then VersionConflict(stored.version)
      else CommitDone(Put(db, id, Saved(db.operations[id], operation, now))
                      .(pity := db.pity[key := PitySnapshot(next, expected + 1)]))
  }

  /** The trigger never stops a claim, a release, a fenced transition or a commit; it stops only
      the unfenced saves. */
  lemma TriggerStopsOnlySaves(db: Database, id: Uuid, until: Time, now: Time, token: Uuid, operation: PullOperation,
                              requestHash: RequestHash, expected: nat, next: PityState, key: PityKey,
                              status: PullOperationStatus)
    requires id in db.operations
    ensures var old_ := db.operations[id];
            var taken := ClaimExpired(db, id, token, until, now);
            var locked := ClaimPending(db, id, status, until, now);
            var failed := Transition(db, id, key.user, requestHash, token, operation, now);
            var committed := Commit(db, id, key, requestHash, expected, next, operation, token, now);
            && (taken.Some? ==> TriggerAllows(old_, taken.value.operations[id]))
            && (locked.Some? ==> TriggerAllows(old_, locked.value.operations[id]))
            && (Release(db, id, now) != db ==> TriggerAllows(old_, Release(db, id, now).operations[id]))
            && (failed.Ok? ==> TriggerAllows(old_, failed.value.operations[id]))
            && (committed.CommitDone? ==> TriggerAllows(old_, committed.db.operations[id]))
  {
  }

  /** Every row but the given one, and every index entry, is as it was. */
  ghost predicate OnlyRowChanges(db: Database, db': Database, id: Uuid)
  {
    && db'.byUserKey == db.byUserKey && db'.operations.Keys == db.operations.Keys
    && (forall other :: other in db.operations && other != id ==> db'.operations[other] == db.operations[other])
    && (id in db.operations ==>
          && db'.operations[id].origin == db.operations[id].origin
          && db'.operations[id].requestHash == db.operations[id].requestHash)
  }

  lemma PutTouchesOneRow(db: Database, id: Uuid, row: OperationRow)
    requires id in db.operations
    requires row.origin == db.operations[id].origin && row.requestHash == db.operations[id].requestHash
    ensures OnlyRowChanges(db, Put(db, id, row), id)
  {
  }

  /** No claim, lock or release touches another row, or the owner or request hash of its own. */
  lemma ClaimsTouchOneRow(db: Database, id: Uuid, origin: UserKey, requestHash: RequestHash, token: Uuid, until: Time,
                          context: PullRecoveryContext, status: PullOperationStatus, now: Time)
    ensures var claimed := Claim(db, origin, requestHash, token, until, context, now);
            claimed.Some? ==> OnlyRowChanges(db, claimed.value, db.byUserKey[origin]) && claimed.value.pity == db.pity
    ensures var taken := ClaimExpired(db, id, token, until, now);
            taken.Some? ==> OnlyRowChanges(db, taken.value, id) && taken.value.pity == db.pity
    ensures var locked := ClaimPending(db, id, status, until, now);
            locked.Some? ==> OnlyRowChanges(db, locked.value, id) && locked.value.pity == db.pity
    ensures OnlyRowChanges(db, Release(db, id, now), id) && Release(db, id, now).pity == db.pity
  {
  }

  /** No save or failure does either, and a save by user key meets only a row of its own request. */
  lemma SavesTouchOneRow(db: Database, id: Uuid, origin: UserKey, user: Uuid, requestHash: RequestHash, token: Uuid,
                         operation: PullOperation, now: Time)
    ensures var saved := SaveByUserKey(db, origin, operation, now);
            saved.Ok? ==>
              && OnlyRowChanges(db, saved.value, db.byUserKey[origin]) && saved.value.pity == db.pity
              && db.operations[db.byUserKey[origin]].requestHash == operation.requestHash
    ensures var saved := SaveByKey(db, id, operation, now);
            saved.Ok? ==> OnlyRowChanges(db, saved.value, id) && saved.value.pity == db.pity
    ensures var failed := Transition(db, id, user, requestHash, token, operation, now);
            failed.Ok? ==> OnlyRowChanges(db, failed.value, id) && failed.value.pity == db.pity
  {
  }

  /** A commit moves one row and one pity, the pity by one version. */
  lemma CommitTouchesOnePity(db: Database, id: Uuid, key: PityKey, requestHash: RequestHash, expected: nat,
                             next: PityState, operation: PullOperation, token: Uuid, now: Time)
    requires Commit(db, id, key, requestHash, expected, next, operation, token, now).CommitDone?
    ensures var db' := Commit(db, id, key, requestHash, expected, next, operation, token, now).db;
            && OnlyRowChanges(db, db', id) && db'.pity.Keys == db.pity.Keys + {key}
            && StoredPity(db', key).version == StoredPity(db, key).version + 1
            && forall other :: other in db.pity && other != key ==> db'.pity[other] == db.pity[other]
  {
    PutTouchesOneRow(db, id, Saved(db.operations[id], operation, now));
  }

  /** Until a lease lapses, no request and no recovery worker can claim the operation again;
      from then on either can, with any token. */
  lemma LeaseExcludesClaims(db: Database, id: Uuid, token: Uuid, until: Time, now: Time,
                            token': Uuid, until': Time, now': Time, context: PullRecoveryContext)
    requires ClaimExpired(db, id, token, until, now).Some?
    ensures var db' := ClaimExpired(db, id, token, until, now).value;
            var row := db.operations[id];
            && (ClaimExpired(db', id, token', until', now').Some? <==> until < now')
            && (row.origin in db.byUserKey && db.byUserKey[row.origin] == id ==>
                  (Claim(db', row.origin, row.requestHash, token', until', context, now').Some? <==> until < now'))
  {
  }

  /** Until a recovery lock lapses, is released or is cleared by a save, no other recovery worker
      claims the row. */
  lemma LockExcludesClaims(db: Database, id: Uuid, status: PullOperationStatus, until: Time, now: Time,
                           until': Time, now': Time)
    requires ClaimPending(db, id, status, until, now).Some?
    ensures var db' := ClaimPending(db, id, status, until, now).value;
            && (ClaimPending(db', id, status, until', now').Some? <==> until < now')
            && ClaimPending(Release(db', id, now), id, status, until', now').Some?
  {
  }

  /** A fresh operation, and one a request claims, is as safe from other claims until its lease
      lapses. */
  lemma BeginningExcludesClaims(db: Database, id: Uuid, origin: UserKey, requestHash: RequestHash, token: Uuid,
                                until: Time, context: PullRecoveryContext, now: Time, token': Uuid, until': Time,
                                context': PullRecoveryContext, now': Time)
    ensures var r := Insert(db, id, origin, requestHash, token, until, context, now);
            r.Some? ==>
              && (ClaimExpired(r.value, id, token', until', now').Some? <==> until < now')
              && (Claim(r.value, origin, requestHash, token', until', context', now').Some? <==> until < now')
    ensures var r := Claim(db, origin, requestHash, token, until, context, now);
            r.Some? ==>
              && (ClaimExpired(r.value, db.byUserKey[origin], token', until', now').Some? <==> until < now')
              && (Claim(r.value, origin, requestHash, token', until', context', now').Some? <==> until < now')
  {
  }

  /** An unfenced save goes through exactly when its row exists, has not succeeded, and, if it is
      committed, keeps its hash, response and event and moves no further back; then the row holds
      what was saved, and no claim or lock any more. */
  lemma SavesExactly(db: Database, id: Uuid, operation: PullOperation, now: Time)
    ensures var r := SaveByKey(db, id, operation, now);
            if id !in db.operations then r == Err(NotFound)
            else
              var row := db.operations[id];
              if row.status == Succeeded
                 || (row.status in {EventPending, EventPublished}
                     && (operation.response != row.response || operation.event != row.event
                         || (operation.status != row.status && operation.status !in {EventPublished, Succeeded})))
              then r == Err(EvidenceImmutable)
              else
                && r.Ok? && id in r.value.operations
                && OperationOf(r.value.operations[id]) == operation.(requestHash := row.requestHash)
                && r.value.operations[id].token.None? && r.value.operations[id].leaseUntil.None?
                && r.value.operations[id].lockedUntil.None?
  {
  }

  /** A fenced failure and a commit free their row of its claim as well. */
  lemma OwnersLetGo(db: Database, id: Uuid, user: Uuid, requestHash: RequestHash, token: Uuid, operation: PullOperation,
                    key: PityKey, expected: nat, next: PityState, now: Time)
    ensures var r := Transition(db, id, user, requestHash, token, operation, now);
            r.Ok? ==> id in r.value.operations && r.value.operations[id].token.None?
                      && r.value.operations[id].leaseUntil.None?
                      && OperationOf(r.value.operations[id]) == operation.(requestHash := requestHash)
    ensures var r := Commit(db, id, key, requestHash, expected, next, operation, token, now);
            r.CommitDone? ==> id in r.db.operations && r.db.operations[id].token.None?
                              && r.db.operations[id].leaseUntil.None? && r.db.operations[id].lockedUntil.None?
                              && OperationOf(r.db.operations[id]) == operation.(requestHash := requestHash)
                              && r.db.pity[key].pity == next
  {
  }

  /** Who may begin or take over an operation: an insert needs a new user and key; a claim, a row
      still processing whose lease has run out, for a request of the same hash or, with a stored
      context, for recovery; a recovery lock, a row awaiting recovery whose lock has run out. */
  lemma WhoMayClaim(db: Database, id: Uuid, origin: UserKey, requestHash: RequestHash, token: Uuid, until: Time,
                    context: PullRecoveryContext, expected: PullOperationStatus, now: Time)
    ensures Insert(db, id, origin, requestHash, token, until, context, now).Some? <==> origin !in db.byUserKey
    ensures Claim(db, origin, requestHash, token, until, context, now).Some? <==>
              && origin in db.byUserKey && db.byUserKey[origin] in db.operations
              && var row := db.operations[db.byUserKey[origin]];
                 && row.requestHash == requestHash && row.status == Processing
                 && (row.leaseUntil.Some? ==> row.leaseUntil.value < now)
    ensures ClaimExpired(db, id, token, until, now).Some? <==>
              && id in db.operations && db.operations[id].status == Processing && db.operations[id].context.Some?
              && (db.operations[id].leaseUntil.Some? ==> db.operations[id].leaseUntil.value < now)
    ensures ClaimPending(db, id, expected, until, now).Some? <==>
              && id in db.operations && db.operations[id].status == expected
              && expected in {EventPending, EventPublished, RefundPending}
              && (db.operations[id].lockedUntil.Some? ==> db.operations[id].lockedUntil.value < now)
  {
  }

  /** Who may finish one: a failure and a commit need the row's own user, its request hash, its
      processing status and its token; a commit also the expected version, zero for a group without
      a pity.  A commit that is refused says which of these it missed. */
  lemma WhoMayFinish(db: Database, id: Uuid, user: Uuid, requestHash: RequestHash, token: Uuid,
                     operation: PullOperation, group: string, expected: nat, next: PityState, now: Time)
    ensures var key := PityKey(user, group);
            var failed := Transition(db, id, user, requestHash, token, operation, now);
            var committed := Commit(db, id, key, requestHash, expected, next, operation, token, now);
            var version := if key in db.pity then db.pity[key].version else 0;
            if id !in db.operations || db.operations[id].origin.user != user
               || db.operations[id].requestHash != requestHash
            then failed == Err(OwnershipLost) && committed == CommitFailed
            else if db.operations[id].status != Processing || db.operations[id].token != Some(token)
            then failed == Err(OwnershipLost) && committed == NotOwner
            else
              failed.Ok?
              && if version == expected then committed.CommitDone? else committed == VersionConflict(version)
  {
  }

  /** Every row of one database that another does not have as it is was written at this time. */
  ghost predicate Stamped(db: Database, db': Database, now: Time)
  {
    forall id :: id in db'.operations && (id in db.operations ==> db.operations[id] != db'.operations[id]) ==>
                   db'.operations[id].updatedAt == now
  }

  /** No statement changes a row without its time: the order of every scan rests on it. */
  lemma ClaimsAreStamped(db: Database, id: Uuid, origin: UserKey, requestHash: RequestHash, token: Uuid, until: Time,
                         context: PullRecoveryContext, status: PullOperationStatus, now: Time)
    ensures var r := Insert(db, id, origin, requestHash, token, until, context, now);
            r.Some? ==> Stamped(db, r.value, now)
    ensures var r := Claim(db, origin, requestHash, token, until, context, now); r.Some? ==> Stamped(db, r.value, now)
    ensures var r := ClaimExpired(db, id, token, until, now); r.Some? ==> Stamped(db, r.value, now)
    ensures var r := ClaimPending(db, id, status, until, now); r.Some? ==> Stamped(db, r.value, now)
    ensures Stamped(db, Release(db, id, now), now)
  {
  }

  lemma SavesAreStamped(db: Database, id: Uuid, origin: UserKey, requestHash: RequestHash, token: Uuid,
                        operation: PullOperation, key: PityKey, expected: nat, next: PityState, now: Time)
    ensures var r := SaveByUserKey(db, origin, operation, now); r.Ok? ==> Stamped(db, r.value, now)
    ensures var r := SaveByKey(db, id, operation, now); r.Ok? ==> Stamped(db, r.value, now)
    ensures var r := Transition(db, id, key.user, requestHash, token, operation, now);
            r.Ok? ==> Stamped(db, r.value, now)
    ensures var r := Commit(db, id, key, requestHash, expected, next, operation, token, now);
            r.CommitDone? ==> Stamped(db, r.db, now)
  {
  }

  datatype BeginOutcome = Acquired(id: Uuid, operation: PullOperation) | Existing(id: Uuid, operation: PullOperation)
                        | Disappeared

  /** `PostgresGachaStateStore`, holding the tables it updates. */
  class PostgresGachaStateStore {
    var operations: map<Uuid, OperationRow>
    var byUserKey: map<UserKey, Uuid>
    var pity: map<PityKey, PitySnapshot>

    constructor ()
      ensures Contents() == EMPTY_DATABASE
    {
      operations, byUserKey, pity := map[], map[], map[];
    }

    function Contents(): (db: Database)
      reads this
    {
      Database(operations, byUserKey, pity)
    }

    method GetSnapshot(key: PityKey) returns (snapshot: PitySnapshot)
      ensures snapshot == StoredPity(Contents(), key)
    {
      if key in pity {
        return pity[key];
      }
      return INITIAL_SNAPSHOT;
    }

    method GetPullOperationByKey(id: Uuid) returns (operation: Option<PullOperation>)
      ensures operation == if id in operations then Some(OperationOf(operations[id])) else None
    {
      if id !in operations {
        return None;
      }
      return Some(OperationOf(operations[id]));
    }

    /** Insert, else claim, else read: who gets a token is decided by the database alone. */
    method BeginPullOperation(id: Uuid, origin: UserKey, requestHash: RequestHash, token: Uuid, until: Time,
                              context: PullRecoveryContext, now: Time)
      returns (r: BeginOutcome)
      modifies this
      ensures var db := old(Contents());
              var inserted := Insert(db, id, origin, requestHash, token, until, context, now);
              var claimed := Claim(db, origin, requestHash, token, until, context, now);
              if inserted.Some? then
                Contents() == inserted.value && r == Acquired(id, OperationOf(operations[id]))
              else if claimed.Some? then
                && Contents() == claimed.value
                && r == Acquired(byUserKey[origin], OperationOf(operations[byUserKey[origin]]))
              else
                && Contents() == db
                && r == (if origin in byUserKey && byUserKey[origin] in operations
                         then Existing(byUserKey[origin], OperationOf(operations[byUserKey[origin]]))
                         else Disappeared)
    {
      if origin !in byUserKey {
        operations := operations[id := OperationRow(origin, requestHash, Processing, None, None, None,
                                                    Some(context), Some(token), Some(until), None, now)];
        byUserKey := byUserKey[origin := id];
        return Acquired(id, OperationOf(operations[id]));
      }
      var key := byUserKey[origin];
      if key !in operations {
        return Disappeared;
      }
      var row := operations[key];
      if row.requestHash == requestHash && row.status.Processing? && Lapsed(row.leaseUntil, now) {
        row := row.(token := Some(token), leaseUntil := Some(until), updatedAt := now);
        if row.context.None? {
          row := row.(context := Some(context));
        }
        operations := operations[key := row];
        return Acquired(key, OperationOf(row));
      }
      return Existing(key, OperationOf(row));
    }

    method ClaimExpiredProcessing(id: Uuid, token: Uuid, until: Time, now: Time) returns (claimed: bool)
      modifies this`operations
      ensures var r := ClaimExpired(old(Contents()), id, token, until, now);
              claimed == r.Some? && Contents() == if r.Some? then r.value else old(Contents())
    {
      claimed := id in operations && operations[id].status.Processing? && operations[id].context.Some?
                 && Lapsed(operations[id].leaseUntil, now);
      if claimed {
        var row := operations[id].(token := Some(token), leaseUntil := Some(until), updatedAt := now);
        operations := operations[id := row];
      }
    }

    method ClaimPullOperationRecovery(id: Uuid, expected: PullOperationStatus, until: Time, now: Time)
      returns (claimed: bool)
      modifies this`operations
      ensures var r := ClaimPending(old(Contents()), id, expected, until, now);
              claimed == r.Some? && Contents() == if r.Some? then r.value else old(Contents())
    {
      claimed := id in operations && operations[id].status == expected && AwaitsRecovery(expected)
                 && Lapsed(operations[id].lockedUntil, now);
      if claimed {
        operations := operations[id := operations[id].(lockedUntil := Some(until), updatedAt := now)];
      }
    }

    method ReleasePullOperationRecovery(id: Uuid, now: Time)
      modifies this`operations
      ensures Contents() == Release(old(Contents()), id, now)
    {
      if id in operations && AwaitsRecovery(operations[id].status) {
        operations := operations[id := operations[id].(lockedUntil := None, updatedAt := now)];
      }
    }

    method SavePullOperationByKey(id: Uuid, operation: PullOperation, now: Time) returns (error: Option<StoreError>)
      modifies this`operations
      ensures match SaveByKey(old(Contents()), id, operation, now)
              case Ok(db) => error == None && Contents() == db
              case Err(e) => error == Some(e) && Contents() == old(Contents())
    {
      if id !in operations {
        return Some(NotFound);
      }
      var row := operations[id].(status := operation.status, response := operation.response);
      row := row.(event := operation.event, errorCode := operation.errorCode, context := operation.recoveryContext);
      row := row.(lockedUntil := None, token := None, leaseUntil := None, updatedAt := now);
      if !TriggerAllows(operations[id], row) {
        return Some(EvidenceImmutable);
      }
      operations := operations[id := row];
      return None;
    }

    method SavePullOperation(origin: UserKey, operation: PullOperation, now: Time) returns (error: Option<StoreError>)
      modifies this`operations
      ensures match SaveByUserKey(old(Contents()), origin, operation, now)
              case Ok(db) => error == None && Contents() == db
              case Err(e) => error == Some(e) && Contents() == old(Contents())
    {
      if origin !in byUserKey || byUserKey[origin] !in operations
         || operations[byUserKey[origin]].requestHash != operation.requestHash {
        return Some(NotFound);
      }
      error := SavePullOperationByKey(byUserKey[origin], operation, now);
    }

    method TransitionFromProcessing(id: Uuid, user: Uuid, requestHash: RequestHash, token: Uuid,
                                    operation: PullOperation, now: Time)
      returns (error: Option<StoreError>)
      modifies this`operations
      ensures match Transition(old(Contents()), id, user, requestHash, token, operation, now)
              case Ok(db) => error == None && Contents() == db
              case Err(e) => error == Some(e) && Contents() == old(Contents())
    {
      if !Owns(Contents(), id, user, requestHash, token) {
        return Some(OwnershipLost);
      }
      var row := operations[id].(status := operation.status, response := operation.response);
      row := row.(event := operation.event, errorCode := operation.errorCode, context := operation.recoveryContext);
      row := row.(token := None, leaseUntil := None, updatedAt := now);
      operations := operations[id := row];
      return None;
    }

    method CompareAndSetWithPullOperation(id: Uuid, key: PityKey, requestHash: RequestHash, expected: nat,
                                          next: PityState, operation: PullOperation, token: Uuid, now: Time)
      returns (r: CommitOutcome)
      modifies this`operations, this`pity
      ensures r == Commit(old(Contents()), id, key, requestHash, expected, next, operation, token, now)
      ensures Contents() == if r.CommitDone? then r.db else old(Contents())
    {
      if id !in operations || operations[id].origin.user != key.user || operations[id].requestHash != requestHash {
        return CommitFailed;
      }
      if !operations[id].status.Processing? || operations[id].token != Some(token) {
        return NotOwner;
      }
      var stored := GetSnapshot(key);
      if stored.version != expected {
        return VersionConflict(stored.version);
      }
      pity := pity[key := PitySnapshot(next, stored.version + 1)];
      operations := operations[id := Saved(operations[id], operation, now)];
      return CommitDone(Contents());
    }
  }
}
