/** `generate_and_commit_pull_with_retry`: the optimistic loop around the pity version. */
module RetryLoop {
  import opened Collections
  import opened CatalogConfig
  import opened Schemas
  import opened Engine
  import opened PullOperations
  import opened Store
  import opened Protocol
  import opened Invariant
  import opened Safety

  // ---- the loop itself, whatever others do meanwhile --------------------------------------

  datatype RetryOutcome =
    | Generated(response: PullResponse, event: PullCompletedEvent)
    | RecoveryPending
    | OwnershipGone
    | StoreFailure
    | EngineFailure(error: EngineError)

  /** What other workers make of the database before the pity read of attempt k + 1, and between
      that read and its commit: anything; and what becomes of that read and that commit. */
  datatype Others = Others(before: (nat, Database) -> Database, between: (nat, Database) -> Database,
                           answered: nat -> bool, fate: nat -> Fate)

  /** The database that attempt k + 1 reads, if every attempt before it changed nothing. */
  function AtRead(others: Others, db: Database, k: nat): (read: Database)
    decreases k, 0
  {
    others.before(k, if k == 0 then db else AtCommit(others, db, k - 1))
  }

  /** The database that attempt k + 1 tries to commit to. */
  function AtCommit(others: Others, db: Database, k: nat): (met: Database)
    decreases k, 1
  {
    others.between(k, AtRead(others, db, k))
  }

  method OthersAct(store: PostgresGachaStateStore, act: Database -> Database)
    modifies store
    ensures store.Contents() == act(old(store.Contents()))
  {
    var db := act(store.Contents());
    store.operations, store.byUserKey, store.pity := db.operations, db.byUserKey, db.pity;
  }

  function PullsFor(rng: RandomSource, context: PullRecoveryContext, pity: PityState): (r: Result<Batch, EngineError>)
  {
    Pulls(rng, context.ToBannerConfig(), context.count, pity, context.seed)
  }

  predicate OwnsJob(db: Database, job: Job)
  {
    Owns(db, job.id, job.origin.user, job.requestHash, job.token)
  }

  ghost function CommitOf(job: Job, response: PullResponse, met: Database, now: Time): (r: CommitOutcome)
  {
    Commit(met, job.id, KeyOf(job.origin, job.context), job.requestHash, response.previousPity.version,
           response.nextPity.pity, CommittedOperation(job, response), job.token, now)
  }

  /** What a commit leaves of the database it met. */
  function Landed(outcome: CommitOutcome, met: Database, fate: Fate): (db: Database)
  {
    if outcome.CommitDone? && !fate.Dropped? then outcome.db else met
  }

  /** One attempt: read the pity, pull, and commit both or neither, while others act in between.
      A commit that does not answer has failed as far as the worker knows. */
  method AttemptOnce(store: PostgresGachaStateStore, rng: RandomSource, job: Job, between: Database -> Database,
                     fate: Fate, now: Time)
    returns (r: Result<(PullResponse, CommitOutcome), EngineError>)
    modifies store
    ensures var key, read := KeyOf(job.origin, job.context), old(store.Contents());
            var batch, met := PullsFor(rng, job.context, StoredPity(read, key).pity), between(read);
            match r
            case Err(e) => batch == Err(e) && store.Contents() == read
            case Ok((response, outcome)) =>
              && batch.Ok? && response == MakeResponse(job.context, StoredPity(read, key), batch.value)
              && outcome == (if fate.Acked? then CommitOf(job, response, met, now) else CommitFailed)
              && store.Contents() == Landed(CommitOf(job, response, met, now), met, fate)
  {
    var key := PityKey(job.origin.user, job.context.pityGroupId);
    var previous := store.GetSnapshot(key);
    var batch := PerformPulls(rng, job.context.ToBannerConfig(), job.context.count, previous.pity, job.context.seed);
    if batch.Err? {
      return Err(batch.error);
    }
    var response := MakeResponse(job.context, previous, batch.value);
    OthersAct(store, between);
    var outcome := CommitFailed;
    if !fate.Dropped? {
      outcome := store.CompareAndSetWithPullOperation(
        job.id, key, job.requestHash, previous.version, response.nextPity.pity, CommittedOperation(job, response),
        job.token, now);
    }
    return Ok((response, if fate.Acked? then outcome else CommitFailed));
  }

  /** Attempt k + 1 heard from the store, and at its commit still owned the operation, but the pity
      version had moved. */
  ghost predicate Contested(job: Job, others: Others, db: Database, k: nat)
  {
    && others.answered(k) && others.fate(k).Acked? && OwnsJob(AtCommit(others, db, k), job)
    && StoredPity(AtCommit(others, db, k), KeyOf(job.origin, job.context)).version
       != StoredPity(AtRead(others, db, k), KeyOf(job.origin, job.context)).version
  }

  /** What the loop returns after its attempt n, and what it leaves in the database. */
  ghost predicate RetryEnds(rng: RandomSource, job: Job, others: Others, now: Time, db: Database, db': Database,
                            n: nat, result: RetryOutcome)
    requires n >= 1
  {
    var key, read, met := KeyOf(job.origin, job.context), AtRead(others, db, n - 1), AtCommit(others, db, n - 1);
    var batch := PullsFor(rng, job.context, StoredPity(read, key).pity);
    var heard := others.answered(n - 1) && batch.Ok? && others.fate(n - 1).Acked?;
    match result
    case Generated(response, event) =>
      && heard && OwnsJob(met, job) && !Contested(job, others, db, n - 1)
      && response == MakeResponse(job.context, StoredPity(read, key), batch.value)
      && event == MakeEvent(job.origin.user, job.context, response)
      && db'.pity == met.pity[key := response.nextPity] && db'.byUserKey == met.byUserKey
      && db'.operations
         == met.operations[job.id := Saved(met.operations[job.id], CommittedOperation(job, response), now)]
    case RecoveryPending => n == 5 && Contested(job, others, db, n - 1) && db' == met
    case EngineFailure(e) => others.answered(n - 1) && batch == Err(e) && db' == read
    case OwnershipGone => heard && job.id in met.operations && !OwnsJob(met, job) && db' == met
    case StoreFailure =>
      || (!others.answered(n - 1) && db' == read)
      || (heard && db' == met
          && (job.id !in met.operations || met.operations[job.id].origin.user != job.origin.user
              || met.operations[job.id].requestHash != job.requestHash))
      || (others.answered(n - 1) && batch.Ok? && !others.fate(n - 1).Acked?
          && db' == Landed(CommitOf(job, MakeResponse(job.context, StoredPity(read, key), batch.value), met, now), met,
                           others.fate(n - 1)))
  }

  lemma AttemptEnds(rng: RandomSource, job: Job, others: Others, now: Time, db: Database, n: nat,
                    response: PullResponse, outcome: CommitOutcome)
    requires n >= 1 && others.answered(n - 1)
    requires var key := KeyOf(job.origin, job.context);
             var read, met := AtRead(others, db, n - 1), AtCommit(others, db, n - 1);
             var batch := PullsFor(rng, job.context, StoredPity(read, key).pity);
             && batch.Ok? && response == MakeResponse(job.context, StoredPity(read, key), batch.value)
             && outcome == (if others.fate(n - 1).Acked? then CommitOf(job, response, met, now) else CommitFailed)
    ensures outcome.CommitDone? ==>
              RetryEnds(rng, job, others, now, db, outcome.db, n,
                        Generated(response, MakeEvent(job.origin.user, job.context, response)))
    ensures outcome.VersionConflict? ==> Contested(job, others, db, n - 1)
    ensures outcome.NotOwner? ==>
              RetryEnds(rng, job, others, now, db, AtCommit(others, db, n - 1), n, OwnershipGone)
    ensures outcome.CommitFailed? ==>
              var met := AtCommit(others, db, n - 1);
              RetryEnds(rng, job, others, now, db,
                        Landed(CommitOf(job, response, met, now), met, others.fate(n - 1)), n, StoreFailure)
  {
  }

  /** Attempt k + 1 as the loop meets it; None if it lost to a moved version. */
  method Attempt(store: PostgresGachaStateStore, rng: RandomSource, job: Job, others: Others, now: Time, k: nat,
                 ghost db: Database)
    returns (ended: Option<RetryOutcome>)
    requires store.Contents() == if k == 0 then db else AtCommit(others, db, k - 1)
    modifies store
    ensures ended.None? ==> Contested(job, others, db, k) && store.Contents() == AtCommit(others, db, k)
    ensures ended.Some? ==> !ended.value.RecoveryPending?
                            && RetryEnds(rng, job, others, now, db, store.Contents(), k + 1, ended.value)
  {
    OthersAct(store, database => others.before(k, database));
    if !others.answered(k) {
      return Some(StoreFailure);
    }
    var r := AttemptOnce(store, rng, job, database => others.between(k, database), others.fate(k), now);
    if r.Err? {
      return Some(EngineFailure(r.error));
    }
    var (response, outcome) := r.value;
    AttemptEnds(rng, job, others, now, db, k + 1, response, outcome);
    match outcome {
      case CommitDone(_) => return Some(Generated(response, MakeEvent(job.origin.user, job.context, response)));
      case VersionConflict(_) => return None;
      case NotOwner => return Some(OwnershipGone);
      case CommitFailed => return Some(StoreFailure);
    }
  }

  /** The loop, with others doing anything at any moment.  Every attempt before the last was lost
      to a moved version, on a row still owned; the last one committed the response computed from
      the pity it had read, which was still the stored one, or lost to a moved version for the
      fifth time, or found the operation taken over or gone, or the engine or the store without an
      answer.  Nothing but the commit changes the database. */
  method GenerateAndCommitPullWithRetry(store: PostgresGachaStateStore, rng: RandomSource, job: Job,
                                        others: Others, now: Time)
    returns (result: RetryOutcome, ghost attempts: nat)
    modifies store
    ensures 1 <= attempts <= 5
    ensures forall k :: 0 <= k < attempts - 1 ==> Contested(job, others, old(store.Contents()), k)
    ensures RetryEnds(rng, job, others, now, old(store.Contents()), store.Contents(), attempts, result)
  {
    ghost var db := store.Contents();
    var attempt: nat := 1;
    while attempt <= PITY_COMMIT_MAX_ATTEMPTS
      invariant 1 <= attempt <= PITY_COMMIT_MAX_ATTEMPTS
      invariant store.Contents() == if attempt == 1 then db else AtCommit(others, db, attempt - 2)
      invariant forall k :: 0 <= k < attempt - 1 ==> Contested(job, others, db, k)
    {
      var ended := Attempt(store, rng, job, others, now, attempt - 1, db);
      if ended.Some? {
        return ended.value, attempt;
      }
      if attempt == PITY_COMMIT_MAX_ATTEMPTS {
        return RecoveryPending, attempt;
      }
      attempt := attempt + 1;
    }
    return RecoveryPending, attempt;
  }

  /** After a commit whose outcome is unknown: read the operation again, and go on as its status
      says.  It is the reconciliation step of the protocol. */
  method ReconcileClaimedPull(store: PostgresGachaStateStore, job: Job, answered: bool, ghost w: World, ghost i: nat)
    returns (r: Option<Reaction>)
    requires store.Contents() == w.db && PcOf(w, i) == Reconciling(job)
    ensures DoReconcile(w, i, answered)
         == if r.None? then Go(w, i, Idle) else DoReact(w, i, job.origin, job.requestHash, r.value)
    ensures r.Some? ==> answered && job.id in w.db.operations && !w.db.operations[job.id].status.Processing?
  {
    var reconciled := None;
    if answered {
      reconciled := store.GetPullOperationByKey(job.id);
    }
    if reconciled.None? || reconciled.value.status.Processing? {
      return None;
    }
    return Some(React(ById(job.id), job.origin, job.requestHash, reconciled.value, ChargeOf(job.context)));
  }

  // ---- the loop among everything else -----------------------------------------------------

  /** In the protocol, too: a commit that is acknowledged publishes the event it stored, to answer
      its request; one whose answer is lost is reconciled. */
  lemma CommitLeadsOn(w: World, i: nat, now: Time, fate: Fate)
    requires PcOf(w, i).Committing? && !fate.Dropped?
    requires CommitOutcomeOf(w, PcOf(w, i).job, PcOf(w, i).response, now).CommitDone?
    ensures var Committing(job, _, _, response) := PcOf(w, i);
            var w' := DoCommit(w, i, now, fate);
            && job.id in w'.db.operations && w'.db.operations[job.id].response == Some(response)
            && w'.db.operations[job.id].event.Some?
            && PcOf(w', i) == (if fate.AckLost? then Reconciling(job)
                               else Publishing(Delivery(ById(job.id), job.origin, job.requestHash, response,
                                                        w'.db.operations[job.id].event.value, Reply), 0))
  {
  }

  /** The entries of a history from a place on are distinct operations other than the given one. */
  ghost predicate DistinctOthers(h: seq<HistoryEntry>, start: nat, o: UserKey)
  {
    && (forall m :: start <= m < |h| ==> h[m].origin != o)
    && (forall m, n :: start <= m < n < |h| ==> h[m].origin != h[n].origin)
  }

  /** When a worker's fifth attempt loses the version race, at least five distinct other
      operations committed to its group since its loop began (at `start` commits); the loop gives
      up without a trace: its own operation is still processing, still owned, charged, and no
      refund of it was ever asked for. */
  lemma LosersLetOthersThrough(w0: World, actions: seq<Action>, i: nat, now: Time)
    requires Init(w0)
    requires var w := Run(w0, actions);
             && PcOf(w, i).Committing? && PcOf(w, i).attempt == PITY_COMMIT_MAX_ATTEMPTS
             && CommitOutcomeOf(w, PcOf(w, i).job, PcOf(w, i).response, now).VersionConflict?
    ensures var w := Run(w0, actions);
            var Committing(job, _, start, _) := PcOf(w, i);
            var h := Hist(w, KeyOf(job.origin, job.context));
            && start + 5 <= |h| && DistinctOthers(h, start, job.origin)
            && DoCommit(w, i, now, Acked) == Go(w, i, Idle)
            && Owns(w.db, job.id, job.origin.user, job.requestHash, job.token)
            && job.origin in w.ledger.charged
            && job.origin !in w.ledger.credited
            && forall call :: call in w.ledger.creditCalls ==> call.charge.eventId.origin != job.origin
  {
    ReachableInv(w0, actions);
    FifthConflict(Run(w0, actions), i, now);
  }

  lemma FifthConflict(w: World, i: nat, now: Time)
    requires Inv(w) && PcOf(w, i).Committing? && PcOf(w, i).attempt == PITY_COMMIT_MAX_ATTEMPTS
    requires CommitOutcomeOf(w, PcOf(w, i).job, PcOf(w, i).response, now).VersionConflict?
    ensures var Committing(job, _, start, _) := PcOf(w, i);
            var h := Hist(w, KeyOf(job.origin, job.context));
            && start + 5 <= |h| && DistinctOthers(h, start, job.origin)
            && DoCommit(w, i, now, Acked) == Go(w, i, Idle)
            && Owns(w.db, job.id, job.origin.user, job.requestHash, job.token)
            && job.origin in w.ledger.charged
            && job.origin !in w.ledger.credited
            && forall call :: call in w.ledger.creditCalls ==> call.charge.eventId.origin != job.origin
  {
    WorkerFact(w, i);
    var Committing(job, attempt, start, response) := PcOf(w, i);
    var key := KeyOf(job.origin, job.context);
    assert PityOk(w, key);
    OthersAreDistinct(w, key, start, job.origin);
    NeverRefunded(w, job.origin);
  }

  lemma OthersAreDistinct(w: World, key: PityKey, start: nat, o: UserKey)
    requires Inv(w) && Known(w, o) && RowAt(w, o).status.Processing?
    ensures DistinctOthers(Hist(w, key), start, o)
  {
    forall m | 0 <= m < |Hist(w, key)|
      ensures Hist(w, key)[m].origin != o
    {
      assert EntryOk(w, key, m);
    }
    forall m, n | 0 <= m < n < |Hist(w, key)|
      ensures Hist(w, key)[m].origin != Hist(w, key)[n].origin
    {
      assert EntryOk(w, key, m) && EntryOk(w, key, n);
    }
  }

  lemma NeverRefunded(w: World, o: UserKey)
    requires Inv(w) && o !in w.legacy
    ensures o !in w.ledger.credited
    ensures forall call :: call in w.ledger.creditCalls ==> call.charge.eventId.origin != o
  {
    assert o in w.ledger.credited ==> CreditedOk(w, o) && CreditOk(w, w.ledger.credited[o]);
    forall call | call in w.ledger.creditCalls
      ensures call.charge.eventId.origin != o
    {
      assert CreditOk(w, call);
    }
  }
}
