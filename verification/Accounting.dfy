/** Money and versions over whole runs: each operation commits, is charged and is refunded at
    most once, for exactly what was frozen when it was first claimed. */
module Accounting {
  import opened Collections
  import opened CatalogConfig
  import opened Schemas
  import opened Engine
  import opened EngineRules
  import opened PullOperations
  import opened Store
  import opened Protocol
  import opened Invariant
  import opened Linearizability
  import opened Safety

  lemma {:induction false} RunJoins(w: World, actions: seq<Action>, more: seq<Action>)
    ensures Run(w, actions + more) == Run(Run(w, actions), more)
    decreases |actions|
  {
    if actions == [] {
      assert actions + more == more;
    } else {
      RunJoins(Apply(w, actions[0]), actions[1..], more);
      assert (actions + more)[1..] == actions[1..] + more;
    }
  }

  // ---- commits ----------------------------------------------------------------------------

  /** Whatever stale token holders do, the pity version of a group is the number of its
      operations that are event_pending, event_published or succeeded. */
  lemma VersionCountsCommits(w0: World, actions: seq<Action>, key: PityKey)
    requires Init(w0)
    ensures var db := Run(w0, actions).db;
            StoredPity(db, key).version == |set id | id in db.operations && CommittedTo(db.operations[id], key)|
  {
    ReachableInv(w0, actions);
    CommitsCounted(Run(w0, actions), key);
  }

  lemma RowsCounted(db: Database, key: PityKey, ids: seq<Uuid>)
    requires InVersionOrder(db, key, ids)
    ensures |ids| == |set id | id in db.operations && CommittedTo(db.operations[id], key)|
  {
    DistinctCount(ids);
    var committed := set id | id in db.operations && CommittedTo(db.operations[id], key);
    forall id | id in committed
      ensures id in Elements(ids)
    {
      assert ids[db.operations[id].response.value.stateVersion - 1] == id;
    }
    assert committed == Elements(ids);
  }

  lemma CommitsCounted(w: World, key: PityKey)
    requires Inv(w)
    ensures StoredPity(w.db, key).version
         == |set id | id in w.db.operations && CommittedTo(w.db.operations[id], key)|
  {
    EntriesInVersionOrder(w, key);
    EntriesChained(w, key);
    RowsCounted(w.db, key, IdsOf(w, key));
  }

  /** The commit at place i of the group's history is the operation's. */
  ghost predicate CommitsAt(w: World, key: PityKey, i: nat, o: UserKey)
  {
    i < |Hist(w, key)| && Hist(w, key)[i].origin == o
  }

  /** An operation has been committed to a group's history exactly when its row says so, and
      then exactly once in all histories. */
  lemma CommittedExactlyOnce(w0: World, actions: seq<Action>, o: UserKey)
    requires Init(w0) && o in Run(w0, actions).db.byUserKey
    ensures var w := Run(w0, actions);
            && Known(w, o)
            && (PullOperations.Committed(RowAt(w, o).status)
                <==> exists key, i :: CommitsAt(w, key, i, o))
            && (forall key, i, key', i' :: CommitsAt(w, key, i, o) && CommitsAt(w, key', i', o) ==>
                  key == key' && i == i')
  {
    ReachableInv(w0, actions);
    CommittedOnce(Run(w0, actions), o);
  }

  lemma CommittedOnce(w: World, o: UserKey)
    requires Inv(w) && o in w.db.byUserKey
    ensures Known(w, o)
    ensures PullOperations.Committed(RowAt(w, o).status)
        <==> exists key, i :: CommitsAt(w, key, i, o)
    ensures forall key, i, key', i' :: CommitsAt(w, key, i, o) && CommitsAt(w, key', i', o) ==>
              key == key' && i == i'
  {
    KnownRow(w, o);
    var row := RowAt(w, o);
    if PullOperations.Committed(row.status) {
      var key := KeyOf(o, ContextAt(w, o));
      assert CommitsAt(w, key, row.response.value.stateVersion - 1, o);
    }
    forall key, i | CommitsAt(w, key, i, o)
      ensures PullOperations.Committed(row.status)
    {
      assert EntryOk(w, key, i);
    }
    forall key, i, key', i' | CommitsAt(w, key, i, o) && CommitsAt(w, key', i', o)
      ensures key == key' && i == i'
    {
      OneEntryPerOperation(w, key, i, key', i');
    }
  }

  // ---- charges ----------------------------------------------------------------------------

  /** All spend calls ever put on the wire under one key, by any worker at any time of a run,
      are the same call, and it is the one frozen with the operation's first claim. */
  lemma SpendCallsNeverDiffer(w0: World, actions: seq<Action>, more: seq<Action>, call: SpendCall, call': SpendCall)
    requires Init(w0)
    requires call in Run(w0, actions).ledger.spendCalls && call' in Run(w0, actions + more).ledger.spendCalls
    requires call.charge.eventId.origin == call'.charge.eventId.origin
    ensures call == call'
    ensures var o, w := call.charge.eventId.origin, Run(w0, actions);
            && o in w.frozen && call == SpendCall(o.user, ChargeOf(w.frozen[o].context))
            && w.frozen[o].context.amountMinor == w.frozen[o].context.count * ASTRITE_PER_PULL
  {
    var w := Run(w0, actions);
    RunJoins(w0, actions, more);
    ReachableInv(w0, actions);
    RunSafe(w, more);
    SpendGrows(w, Run(w, more), call);
    SpendsAgree(Run(w, more), call, call');
    assert SpendOk(w, call) && FrozenOk(w, call.charge.eventId.origin);
  }

  /** A committed operation was charged, once, exactly 160 for each of its records. */
  lemma CommittedIsChargedPerRecord(w0: World, actions: seq<Action>, rng: RandomSource, id: Uuid)
    requires Init(w0) && w0.engine == PullEngine(rng)
    requires id in Run(w0, actions).db.operations
    requires PullOperations.Committed(Run(w0, actions).db.operations[id].status)
    ensures var w := Run(w0, actions);
            var row := w.db.operations[id];
            && row.response.Some? && row.origin in w.ledger.charged
            && w.ledger.charged[row.origin].user == row.origin.user
            && w.ledger.charged[row.origin].charge.eventId == row.response.value.eventId
            && w.ledger.charged[row.origin].charge.amountMinor
               == |row.response.value.records| * 160
            && w.ledger.charged[row.origin].charge.metadata.count == |row.response.value.records|
  {
    InitialEngine(w0, actions);
    ChargedPerRecord(Run(w0, actions), rng, id);
  }

  lemma ChargedPerRecord(w: World, rng: RandomSource, id: Uuid)
    requires Inv(w) && w.engine == PullEngine(rng) && id in w.db.operations
    requires PullOperations.Committed(w.db.operations[id].status)
    ensures var row := w.db.operations[id];
            && row.response.Some? && row.origin in w.ledger.charged
            && w.ledger.charged[row.origin].user == row.origin.user
            && w.ledger.charged[row.origin].charge.eventId == row.response.value.eventId
            && w.ledger.charged[row.origin].charge.amountMinor == |row.response.value.records| * 160
            && w.ledger.charged[row.origin].charge.metadata.count == |row.response.value.records|
  {
    RowKnown(w, id);
    CommittedHasItsCount(w, rng, w.db.operations[id]);
    var o := w.db.operations[id].origin;
    assert ChargedOk(w, o) && SpendOk(w, w.ledger.charged[o]);
  }

  lemma CommittedHasItsCount(w: World, rng: RandomSource, row: OperationRow)
    requires Inv(w) && w.engine == PullEngine(rng) && Known(w, row.origin) && FrozenOk(w, row.origin)
    requires row.origin !in w.legacy && CommittedRowOk(w, row) && RowAt(w, row.origin) == row
    ensures |row.response.value.records| == ContextAt(w, row.origin).count
  {
    var context, response := ContextAt(w, row.origin), row.response.value;
    assert EntryOk(w, KeyOf(row.origin, context), response.stateVersion - 1);
    assert w.engine(context, response.previousPity.pity)
        == Pulls(rng, context.ToBannerConfig(), context.count, response.previousPity.pity, context.seed);
    EngineCounters(rng, context.ToBannerConfig(), context.count, response.previousPity.pity, context.seed);
  }

  /** What the operations of a list of rows were charged. */
  ghost function TotalCharged(w: World, ids: seq<Uuid>): (total: int)
    requires forall i :: 0 <= i < |ids| ==> ids[i] in w.db.operations
                                            && w.db.operations[ids[i]].origin in w.ledger.charged
  {
    if ids == [] then 0
    else TotalCharged(w, ids[..|ids| - 1])
         + w.ledger.charged[w.db.operations[ids[|ids| - 1]].origin].charge.amountMinor
  }

  /** Conservation: what a user paid for the committed pulls of a group is 160 for every record
      ever delivered to it, whatever happened on the way. */
  lemma ChargesMatchRecords(w0: World, actions: seq<Action>, rng: RandomSource, key: PityKey, ids: seq<Uuid>)
    requires Init(w0) && w0.engine == PullEngine(rng) && InVersionOrder(Run(w0, actions).db, key, ids)
    ensures var w := Run(w0, actions);
            && (forall i :: 0 <= i < |ids| ==> w.db.operations[ids[i]].origin in w.ledger.charged)
            && TotalCharged(w, ids) == |AllRecords(Responses(w.db, ids))| * 160
  {
    InitialEngine(w0, actions);
    var w := Run(w0, actions);
    forall i | 0 <= i < |ids|
      ensures w.db.operations[ids[i]].origin in w.ledger.charged
    {
      ChargedPerRecord(w, rng, ids[i]);
    }
    TotalIsPerRecord(w, rng, ids);
  }

  lemma {:induction false} TotalIsPerRecord(w: World, rng: RandomSource, ids: seq<Uuid>)
    requires Inv(w) && w.engine == PullEngine(rng)
    requires forall i :: 0 <= i < |ids| ==>
               && ids[i] in w.db.operations && PullOperations.Committed(w.db.operations[ids[i]].status)
               && w.db.operations[ids[i]].response.Some?
               && w.db.operations[ids[i]].origin in w.ledger.charged
    ensures TotalCharged(w, ids) == |AllRecords(Responses(w.db, ids))| * 160
  {
    if ids != [] {
      TotalIsPerRecord(w, rng, ids[..|ids| - 1]);
      ChargedPerRecord(w, rng, ids[|ids| - 1]);
      assert Responses(w.db, ids)[..|ids| - 1] == Responses(w.db, ids[..|ids| - 1]);
    }
  }

  // ---- failures and refunds ---------------------------------------------------------------

  /** From a fresh database no credit is ever asked for, let alone given. */
  lemma NoCreditsFromFreshDatabase(w0: World, actions: seq<Action>)
    requires FreshInit(w0)
    ensures Run(w0, actions).ledger.creditCalls == {} && Run(w0, actions).ledger.credited == map[]
  {
    var w := Run(w0, actions);
    InitInv(w0);
    RunSafe(w0, actions);
    assert w.legacy == {};
    forall call: CreditCall
      ensures call !in w.ledger.creditCalls
    {
      assert call in w.ledger.creditCalls ==> CreditOk(w, call);
    }
    forall o: UserKey
      ensures o !in w.ledger.credited
    {
      assert o in w.ledger.credited ==> CreditedOk(w, o);
    }
  }

  /** When Asset's first definite answer for a key is final, an operation that fails was never
      charged and never will be, and it never commits, whatever stale and current workers do. */
  lemma FailureIsFree(w0: World, actions: seq<Action>, more: seq<Action>, o: UserKey)
    requires Init(w0) && w0.sticky && o !in w0.legacy
    requires var w := Run(w0, actions); o in w.db.byUserKey && Known(w, o) && RowAt(w, o).status.Failed?
    ensures o !in Run(w0, actions).ledger.charged
    ensures var later := Run(w0, actions + more);
            Known(later, o) && RowAt(later, o).status.Failed? && o !in later.ledger.charged
  {
    var w := Run(w0, actions);
    RunJoins(w0, actions, more);
    InitInv(w0);
    RunSafe(w0, actions);
    RunSafe(w, more);
    KnownGrows(w, Run(w, more), o);
    FailedUncharged(w, o);
    FailedUncharged(Run(w, more), o);
  }

  lemma FailedUncharged(w: World, o: UserKey)
    requires Inv(w) && w.sticky && o !in w.legacy && Known(w, o) && RowAt(w, o).status.Failed?
    ensures o !in w.ledger.charged
  {
    KnownRow(w, o);
    assert o in w.ledger.charged ==> ChargedOk(w, o);
  }

  /** A charged operation that was not left over from before can therefore not fail. */
  lemma ChargedNeverFails(w0: World, actions: seq<Action>, more: seq<Action>, o: UserKey)
    requires Init(w0) && w0.sticky && o !in w0.legacy
    requires o in Run(w0, actions).ledger.charged
    ensures var later := Run(w0, actions + more); Known(later, o) && !RowAt(later, o).status.Failed?
  {
    var w := Run(w0, actions);
    RunJoins(w0, actions, more);
    InitInv(w0);
    RunSafe(w0, actions);
    RunSafe(w, more);
    assert ChargedOk(w, o) && SpendOk(w, w.ledger.charged[o]);
    KnownRow(w, o);
    KnownGrows(w, Run(w, more), o);
    var later := Run(w, more);
    if RowAt(later, o).status.Failed? {
      FailedUncharged(later, o);
      assert false;
    }
  }

  /** A row left in refund_pending is credited at most once, with the amount and the reason it
      carried at the start, by whichever mix of request and recovery workers; and it is failed
      only once the credit is applied.  It is never charged again and never committed. */
  lemma RefundIsExact(w0: World, actions: seq<Action>, o: UserKey)
    requires Init(w0) && o in w0.legacy
    ensures var w, row0 := Run(w0, actions), w0.db.operations[w0.db.byUserKey[o]];
            && Known(w, o)
            && (RowAt(w, o).status.RefundPending? || RowAt(w, o).status.Failed?)
            && (RowAt(w, o).status.Failed? ==> o in w.ledger.credited)
            && (o in w.ledger.credited ==>
                  w.ledger.credited[o]
                  == CreditCall(o.user, ChargeOf(row0.context.value),
                                if row0.errorCode == None || row0.errorCode == Some("") then "pull_refunded"
                                else row0.errorCode.value))
            && o !in w.ledger.charged
  {
    InitInv(w0);
    RunSafe(w0, actions);
    LegacyFroze(w0, o);
    LegacyIsRefunded(Run(w0, actions), o);
  }

  lemma LegacyFroze(w0: World, o: UserKey)
    requires Init(w0) && o in w0.legacy
    ensures o in w0.db.byUserKey && w0.db.byUserKey[o] in w0.db.operations && o in w0.frozen
    ensures var row0 := w0.db.operations[w0.db.byUserKey[o]];
            && row0.context.Some?
            && w0.frozen[o] == Frozen(row0.context.value,
                                      if row0.errorCode == None || row0.errorCode == Some("") then "pull_refunded"
                                      else row0.errorCode.value)
  {
    assert o in w0.frozen.Keys && o in w0.db.byUserKey.Keys;
  }

  lemma LegacyIsRefunded(w: World, o: UserKey)
    requires Inv(w) && o in w.legacy && o in w.frozen
    ensures Known(w, o) && (RowAt(w, o).status.RefundPending? || RowAt(w, o).status.Failed?)
    ensures RowAt(w, o).status.Failed? ==> o in w.ledger.credited
    ensures o in w.ledger.credited ==>
              w.ledger.credited[o] == CreditCall(o.user, ChargeOf(ContextAt(w, o)), w.frozen[o].reason)
    ensures o !in w.ledger.charged
  {
    KnownRow(w, o);
    assert o in w.ledger.credited ==> CreditedOk(w, o) && CreditOk(w, w.ledger.credited[o]);
    assert o in w.ledger.charged ==> ChargedOk(w, o) && SpendOk(w, w.ledger.charged[o]);
  }
}
