/** `recover_pending_pull_events_once`, run by one worker with answering store calls: because a
    claim moves a row behind every row not yet claimed, no undeliverable event starves another. */
module ScanRotation {
  import opened Collections
  import opened CatalogConfig
  import opened Schemas
  import opened PullOperations
  import opened Store

  /** The database clock: every statement reads a later time than the one before. */
  class Clock {
    const readings: nat -> Time
    var position: nat

    constructor (readings: nat -> Time)
      ensures this.readings == readings && position == 0
    {
      this.readings, position := readings, 0;
    }

    ghost predicate Valid()
    {
      forall i: nat, j: nat :: i < j ==> readings(i) < readings(j)
    }

    /** Later than everything read before. */
    function Next(): (t: Time)
      reads this
    {
      readings(position)
    }

    method Read() returns (now: Time)
      requires Valid()
      modifies this
      ensures now == old(Next()) < Next()
    {
      now := readings(position);
      position := position + 1;
    }
  }

  predicate Undelivered(row: OperationRow)
  {
    row.status.EventPending? || row.status.EventPublished?
  }

  function Pending(db: Database): (ids: set<Uuid>)
  {
    set id | id in db.operations && Undelivered(db.operations[id])
  }

  /** `order by updated_at, id` */
  predicate Precedes(db: Database, x: Uuid, y: Uuid)
  {
    && x in db.operations && y in db.operations
    && var s, t := db.operations[x].updatedAt, db.operations[y].updatedAt;
       (s < t || (s == t && x < y))
  }

  /** The pending rows are well-formed, nobody holds a lock on one, and no row is from the future. */
  ghost predicate Quiet(db: Database, next: Time)
  {
    && (forall id :: id in db.operations ==> db.operations[id].updatedAt < next)
    && (forall id :: id in Pending(db) ==>
          && db.operations[id].response.Some? && db.operations[id].event.Some?
          && Lapsed(db.operations[id].lockedUntil, next))
  }

  function First(db: Database, ids: set<Uuid>): (id: Uuid)
    requires ids != {} && ids <= db.operations.Keys
    ensures id in ids && forall other :: other in ids && other != id ==> Precedes(db, id, other)
  {
    var times: set<int> := set i | i in ids :: db.operations[i].updatedAt;
    assert times != {} by {
      var i := Element(ids);
      assert db.operations[i].updatedAt in times;
    }
    assert forall i :: i in ids ==> db.operations[i].updatedAt in times;
    var earliest := Minimum(times);
    var candidates: set<int> := set i | i in ids && db.operations[i].updatedAt == earliest;
    assert exists i :: i in ids && db.operations[i].updatedAt == earliest && i in candidates;
    var id := Minimum(candidates);
    assert forall other :: other in ids && other != id ==> Precedes(db, id, other) by {
      forall other | other in ids && other != id
        ensures Precedes(db, id, other)
      {
        assert db.operations[other].updatedAt == earliest ==> other in candidates;
      }
    }
    id
  }

  /** The first rows of the queue, as many as the limit allows. */
  ghost predicate Heads(db: Database, ids: set<Uuid>, limit: nat)
  {
    && ids <= Pending(db)
    && |ids| == (if |Pending(db)| < limit then |Pending(db)| else limit)
    && forall x, y :: x in ids && y in Pending(db) && y !in ids ==> Precedes(db, x, y)
  }

  /** A scan below its limit has listed every event_pending and every event_published row, and
      nothing else. */
  lemma ShortScanListsAll(db: Database, ids: set<Uuid>, limit: nat)
    requires Heads(db, ids, limit) && |ids| < limit
    ensures forall id :: id in ids <==>
              id in db.operations && db.operations[id].status in {EventPending, EventPublished}
  {
    assert Pending(db) == ids + (Pending(db) - ids);
    forall id
      ensures id in ids <==> id in db.operations && db.operations[id].status in {EventPending, EventPublished}
    {
      assert id !in Pending(db) - ids;
      assert id in Pending(db) <==> id in db.operations && Undelivered(db.operations[id]);
    }
  }

  /** The rows taken from the queue so far, in order, and those still in it. */
  ghost predicate Scanned(db: Database, ids: seq<Uuid>, operations: seq<PullOperation>, rest: set<Uuid>)
  {
    && rest == Pending(db) - Elements(ids) && Elements(ids) <= Pending(db)
    && |operations| == |ids|
    && (forall i, j :: 0 <= i < j < |ids| ==> Precedes(db, ids[i], ids[j]))
    && (forall i :: 0 <= i < |ids| ==> ids[i] in db.operations && operations[i] == OperationOf(db.operations[ids[i]]))
    && (forall x, y :: x in ids && y in rest ==> Precedes(db, x, y))
  }

  lemma ScannedNext(db: Database, ids: seq<Uuid>, operations: seq<PullOperation>, rest: set<Uuid>, first: Uuid)
    requires Scanned(db, ids, operations, rest) && first in rest
    requires forall other :: other in rest && other != first ==> Precedes(db, first, other)
    ensures Scanned(db, ids + [first], operations + [OperationOf(db.operations[first])], rest - {first})
  {
    assert Elements(ids + [first]) == Elements(ids) + {first};
    assert forall i :: 0 <= i < |ids| ==> ids[i] in ids;
  }

  /** SELECT_PENDING_OPERATIONS_SQL: the first rows of the queue, in queue order. */
  method IterEventPendingPullOperations(store: PostgresGachaStateStore, limit: nat)
    returns (ids: seq<Uuid>, operations: seq<PullOperation>)
    ensures Heads(store.Contents(), Elements(ids), limit)
    ensures forall i, j :: 0 <= i < j < |ids| ==> Precedes(store.Contents(), ids[i], ids[j])
    ensures |operations| == |ids|
    ensures forall i :: 0 <= i < |ids| ==>
              ids[i] in store.operations && operations[i] == OperationOf(store.operations[ids[i]])
  {
    var db := store.Contents();
    var rest := Pending(db);
    ids, operations := [], [];
    while rest != {} && |ids| < limit
      invariant Scanned(db, ids, operations, rest) && |ids| <= limit && rest <= db.operations.Keys
      decreases |rest|
    {
      var first := First(db, rest);
      ScannedNext(db, ids, operations, rest, first);
      ids := ids + [first];
      operations := operations + [OperationOf(db.operations[first])];
      rest := rest - {first};
    }
    ListedHeads(db, ids, limit);
  }

  lemma ListedHeads(db: Database, ids: seq<Uuid>, limit: nat)
    requires Elements(ids) <= Pending(db) && |ids| <= limit
    requires |ids| == limit || Pending(db) - Elements(ids) == {}
    requires forall i, j :: 0 <= i < j < |ids| ==> Precedes(db, ids[i], ids[j])
    requires forall x, y :: x in ids && y in Pending(db) - Elements(ids) ==> Precedes(db, x, y)
    ensures Heads(db, Elements(ids), limit)
  {
    DistinctCount(ids);
    assert Pending(db) == Elements(ids) + (Pending(db) - Elements(ids));
  }

  datatype Receipt = Applied | NotApplied | Unreachable

  /** What the outside answers about one row during a pass. */
  datatype Outcome = Outcome(published: bool, receipt: Receipt)

  /** Only the given rows changed, and each was last written at `start` or later. */
  ghost predicate OnlyMoved(db: Database, db': Database, moved: set<Uuid>, start: Time)
  {
    && db'.operations.Keys == db.operations.Keys && moved <= db.operations.Keys
    && (forall id :: id in db.operations && id !in moved ==> db'.operations[id] == db.operations[id])
    && (forall id :: id in moved ==> start <= db'.operations[id].updatedAt)
  }

  lemma MovedAgain(db: Database, db': Database, db'': Database, moved: set<Uuid>, more: set<Uuid>,
                   start: Time, later: Time)
    requires OnlyMoved(db, db', moved, start) && OnlyMoved(db', db'', more, later) && start <= later
    ensures OnlyMoved(db, db'', moved + more, start)
  {
  }

  /** Publish a pending event, or succeed, or publish again, a published one. */
  method Deliver(store: PostgresGachaStateStore, clock: Clock, id: Uuid, operation: PullOperation, outcome: Outcome)
    returns (recovered: bool)
    requires clock.Valid() && id in store.operations && Undelivered(store.operations[id])
    requires operation == OperationOf(store.operations[id])
    modifies store`operations, clock
    ensures old(clock.Next()) <= clock.Next()
    ensures store.operations.Keys == old(store.operations).Keys
    ensures forall other :: other in store.operations && other != id ==>
              store.operations[other] == old(store.operations)[other]
    ensures store.operations[id].response == operation.response && store.operations[id].event == operation.event
    ensures store.operations[id].status == Outcomes(operation.status, outcome).0
    ensures store.operations[id].status.Succeeded? ==>
              && store.operations[id].lockedUntil.None?
              && old(clock.Next()) <= store.operations[id].updatedAt < clock.Next()
    ensures store.operations[id].status != operation.status ==>
              && store.operations[id].requestHash == operation.requestHash
              && store.operations[id].errorCode.None? && store.operations[id].context.None?
    ensures recovered == Outcomes(operation.status, outcome).1
    ensures operation.status == EventPending ==>
              && recovered == outcome.published
              && store.operations[id].status == (if outcome.published then EventPublished else EventPending)
    ensures operation.status == EventPublished ==>
              && recovered == (outcome.receipt == Applied || (outcome.receipt == NotApplied && outcome.published))
              && store.operations[id].status == (if outcome.receipt == Applied then Succeeded else EventPublished)
  {
    recovered := false;
    if operation.status.EventPending? {
      if outcome.published {
        var now := clock.Read();
        var error := store.SavePullOperationByKey(id, Resaved(operation, EventPublished), now);
        recovered := error.None?;
      }
    } else if outcome.receipt.Applied? {
      var now := clock.Read();
      var error := store.SavePullOperationByKey(id, Resaved(operation, Succeeded), now);
      recovered := error.None?;
    } else {
      recovered := outcome.receipt.NotApplied? && outcome.published;
    }
  }

  /** The status a delivery leaves behind, and whether it counts as recovered. */
  function Outcomes(status: PullOperationStatus, outcome: Outcome): (r: (PullOperationStatus, bool))
  {
    if status.EventPending? then (if outcome.published then (EventPublished, true) else (EventPending, false))
    else if outcome.receipt.Applied? then (Succeeded, true)
    else (EventPublished, outcome.receipt.NotApplied? && outcome.published)
  }

  lemma StillQuiet(db: Database, db': Database, id: Uuid, start: Time, next: Time)
    requires Quiet(db, start) && start < next && OnlyMoved(db, db', {id}, start)
    requires var row := db'.operations[id];
             && row.updatedAt < next && row.lockedUntil.None? && row.response.Some? && row.event.Some?
    ensures Quiet(db', next)
  {
  }

  /** Claim one row, deliver it, then give its lock back, whatever came of it. */
  method RecoverOne(store: PostgresGachaStateStore, clock: Clock, id: Uuid, operation: PullOperation,
                    lockTtlSeconds: nat, outcome: Outcome)
    returns (claimed: bool, recovered: bool)
    requires clock.Valid() && Quiet(store.Contents(), clock.Next())
    requires id in store.operations && Undelivered(store.operations[id])
    requires operation == OperationOf(store.operations[id])
    modifies store`operations, clock
    ensures claimed
    ensures Quiet(store.Contents(), clock.Next()) && old(clock.Next()) < clock.Next()
    ensures OnlyMoved(old(store.Contents()), store.Contents(), {id}, old(clock.Next()))
    ensures store.operations[id].status == Outcomes(operation.status, outcome).0
    ensures recovered == Outcomes(operation.status, outcome).1
  {
    var now := clock.Read();
    claimed := store.ClaimPullOperationRecovery(id, operation.status, now + lockTtlSeconds, now);
    if !claimed {
      return false, false;
    }
    recovered := Deliver(store, clock, id, operation, outcome);
    now := clock.Read();
    store.ReleasePullOperationRecovery(id, now);
    StillQuiet(old(store.Contents()), store.Contents(), id, old(clock.Next()), clock.Next());
  }

  function Resaved(operation: PullOperation, status: PullOperationStatus): (o: PullOperation)
  {
    PullOperation(status, operation.requestHash, operation.response, operation.event, None, None)
  }

  /** The listed copy of a row is still accurate when the pass reaches it. */
  lemma NotYetMoved(db: Database, db': Database, ids: seq<Uuid>, i: nat, start: Time)
    requires i < |ids| && ids[i] in Pending(db) && OnlyMoved(db, db', Elements(ids[..i]), start)
    requires forall i, j :: 0 <= i < j < |ids| ==> Precedes(db, ids[i], ids[j])
    ensures ids[i] in db'.operations && db'.operations[ids[i]] == db.operations[ids[i]]
  {
    assert ids[i] !in Elements(ids[..i]);
  }

  lemma MovedNext(db: Database, db': Database, db'': Database, ids: seq<Uuid>, i: nat, start: Time, later: Time)
    requires i < |ids| && OnlyMoved(db, db', Elements(ids[..i]), start)
    requires OnlyMoved(db', db'', {ids[i]}, later) && start <= later
    ensures Elements(ids[..i + 1]) == Elements(ids[..i]) + {ids[i]}
    ensures OnlyMoved(db, db'', Elements(ids[..i + 1]), start)
  {
    MovedAgain(db, db', db'', Elements(ids[..i]), {ids[i]}, start, later);
    assert Elements(ids[..i + 1]) == Elements(ids[..i]) + {ids[i]};
  }

  /** The rows among these that are delivered, or sent once more, under these outcomes. */
  ghost function Recovering(db: Database, ids: set<Uuid>, outcomes: Uuid -> Outcome): (recovering: set<Uuid>)
    requires ids <= db.operations.Keys
  {
    set id | id in ids && if db.operations[id].status.EventPublished? && !outcomes(id).receipt.NotApplied?
                          then outcomes(id).receipt.Applied? else outcomes(id).published
  }

  lemma RecoveringNext(db: Database, ids: set<Uuid>, id: Uuid, outcomes: Uuid -> Outcome)
    requires ids + {id} <= db.operations.Keys && id !in ids && Undelivered(db.operations[id])
    ensures |Recovering(db, ids + {id}, outcomes)|
         == |Recovering(db, ids, outcomes)| + if Outcomes(db.operations[id].status, outcomes(id)).1 then 1 else 0
  {
    if Outcomes(db.operations[id].status, outcomes(id)).1 {
      assert Recovering(db, ids + {id}, outcomes) == Recovering(db, ids, outcomes) + {id};
    } else {
      assert Recovering(db, ids + {id}, outcomes) == Recovering(db, ids, outcomes);
    }
  }

  /** The first i listed rows are claimed and counted, and nothing else has changed. */
  ghost predicate PassedBy(db: Database, db': Database, ids: seq<Uuid>, i: nat, claimed: set<Uuid>, count: nat,
                           outcomes: Uuid -> Outcome, start: Time)
  {
    && i <= |ids| && claimed == Elements(ids[..i]) && OnlyMoved(db, db', claimed, start)
    && count == |Recovering(db, claimed, outcomes)|
  }

  lemma PassesNext(db: Database, db': Database, db'': Database, ids: seq<Uuid>, i: nat, claimed: set<Uuid>, count: nat,
                   outcomes: Uuid -> Outcome, start: Time, later: Time, recovered: bool)
    requires i < |ids| && ids[i] in Pending(db) && PassedBy(db, db', ids, i, claimed, count, outcomes, start)
    requires forall i, j :: 0 <= i < j < |ids| ==> Precedes(db, ids[i], ids[j])
    requires OnlyMoved(db', db'', {ids[i]}, later) && start <= later
    requires recovered == Outcomes(db.operations[ids[i]].status, outcomes(ids[i])).1
    ensures PassedBy(db, db'', ids, i + 1, claimed + {ids[i]}, if recovered then count + 1 else count, outcomes, start)
  {
    assert ids[i] !in Elements(ids[..i]);
    MovedNext(db, db', db'', ids, i, start, later);
    RecoveringNext(db, claimed, ids[i], outcomes);
  }

  /** One pass: the rows that come first in the queue are all claimed, and end up behind every
      row the pass left alone; the pass counts those it delivered or sent once more. */
  method RecoverPendingPullEventsOnce(store: PostgresGachaStateStore, clock: Clock, limit: nat, lockTtlSeconds: nat,
                                      outcomes: Uuid -> Outcome)
    returns (recoveredCount: nat, claimed: set<Uuid>)
    requires clock.Valid() && Quiet(store.Contents(), clock.Next())
    modifies store`operations, clock
    ensures Quiet(store.Contents(), clock.Next()) && old(clock.Next()) <= clock.Next()
    ensures Heads(old(store.Contents()), claimed, limit)
    ensures OnlyMoved(old(store.Contents()), store.Contents(), claimed, old(clock.Next()))
    ensures recoveredCount == |Recovering(old(store.Contents()), claimed, outcomes)|
  {
    ghost var db, start := store.Contents(), clock.Next();
    var ids, operations := IterEventPendingPullOperations(store, limit);
    recoveredCount, claimed := 0, {};
    var i := 0;
    while i < |ids|
      invariant 0 <= i <= |ids|
      invariant Quiet(store.Contents(), clock.Next()) && start <= clock.Next()
      invariant PassedBy(db, store.Contents(), ids, i, claimed, recoveredCount, outcomes, start)
    {
      ghost var before, later := store.Contents(), clock.Next();
      assert ids[i] in Elements(ids);
      NotYetMoved(db, before, ids, i, start);
      var _, recovered := RecoverOne(store, clock, ids[i], operations[i], lockTtlSeconds, outcomes(ids[i]));
      PassesNext(db, before, store.Contents(), ids, i, claimed, recoveredCount, outcomes, start, later, recovered);
      if recovered {
        recoveredCount := recoveredCount + 1;
      }
      claimed := claimed + {ids[i]};
      i := i + 1;
    }
    assert ids[..i] == ids;
  }

  /** A pass over a queue whose unclaimed rows come before all claimed ones claims only
      unclaimed rows, or all of them. */
  lemma PassShrinks(db: Database, left: set<Uuid>, claimed: set<Uuid>, limit: nat, start: Time)
    requires left <= Pending(db) && Heads(db, claimed, limit)
    requires forall id :: id in left ==> db.operations[id].updatedAt < start
    requires forall id :: id in Pending(db) && id !in left ==> start <= db.operations[id].updatedAt
    ensures left <= claimed || |left - claimed| == |left| - limit
  {
    if left - claimed != {} {
      var y := Element(left - claimed);
      forall x | x in claimed
        ensures x in left
      {
        assert Precedes(db, x, y);
      }
      assert claimed + (left - claimed) == left;
      assert Pending(db) == claimed + (Pending(db) - claimed);
      assert y in Pending(db) - claimed;
    } else {
      forall id | id in left
        ensures id in claimed
      {
        assert id !in left - claimed;
      }
    }
  }

  /** What is left of the queue is where it was, ahead of everything claimed. */
  lemma LeftAhead(db: Database, db': Database, claimed: set<Uuid>, start: Time)
    requires Quiet(db, start) && OnlyMoved(db, db', claimed, start)
    ensures Pending(db) - claimed <= Pending(db')
    ensures forall id :: id in Pending(db) - claimed ==> db'.operations[id].updatedAt < start
    ensures forall id :: id in Pending(db') && id !in Pending(db) - claimed ==> start <= db'.operations[id].updatedAt
  {
  }

  /** With n undelivered events, ceil(n / limit) passes claim every one of them at least once, even
      if every publication and every receipt check fails. */
  method RecoverRepeatedly(store: PostgresGachaStateStore, clock: Clock, limit: nat, lockTtlSeconds: nat, passes: nat,
                           outcomes: (nat, Uuid) -> Outcome)
    returns (claimed: set<Uuid>)
    requires clock.Valid() && Quiet(store.Contents(), clock.Next()) && limit > 0
    modifies store`operations, clock
    ensures OnlyMoved(old(store.Contents()), store.Contents(), claimed, old(clock.Next()))
    ensures passes * limit >= |Pending(old(store.Contents()))| ==> Pending(old(store.Contents())) <= claimed
  {
    ghost var db, start := store.Contents(), clock.Next();
    claimed := {};
    var pass: nat := 0;
    ghost var bound := |Pending(db)|;
    while pass < passes
      invariant 0 <= pass <= passes
      invariant Quiet(store.Contents(), clock.Next()) && start <= clock.Next()
      invariant OnlyMoved(db, store.Contents(), claimed, start)
      invariant bound == |Pending(db)| - pass * limit
      invariant Pending(db) <= claimed || |Pending(db) - claimed| <= bound
    {
      ghost var before, later := store.Contents(), clock.Next();
      var _, more := RecoverPendingPullEventsOnce(store, clock, limit, lockTtlSeconds,
                                                  (id: Uuid) => outcomes(pass, id));
      MovedAgain(db, before, store.Contents(), claimed, more, start, later);
      QueueShrinks(db, before, claimed, more, limit, start);
      claimed := claimed + more;
      pass := pass + 1;
      bound := bound - limit;
    }
    AllClaimed(Pending(db), claimed);
  }

  lemma QueueShrinks(db: Database, db': Database, claimed: set<Uuid>, more: set<Uuid>, limit: nat, start: Time)
    requires Quiet(db, start) && OnlyMoved(db, db', claimed, start) && Heads(db', more, limit)
    ensures Pending(db) <= claimed + more
            || |Pending(db) - (claimed + more)| == |Pending(db) - claimed| - limit
  {
    var left := Pending(db) - claimed;
    LeftAhead(db, db', claimed, start);
    PassShrinks(db', left, more, limit, start);
    assert Pending(db) - (claimed + more) == left - more;
    if left <= more {
      assert forall id :: id in Pending(db) ==> id in claimed || id in left;
    }
  }

  lemma AllClaimed(queue: set<Uuid>, claimed: set<Uuid>)
    ensures |queue - claimed| <= 0 ==> queue <= claimed
  {
    if |queue - claimed| <= 0 {
      assert queue - claimed == {};
      forall id | id in queue
        ensures id in claimed
      {
        assert id !in queue - claimed;
      }
    }
  }
}
