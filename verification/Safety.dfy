/** Every action keeps the invariant and only grows the world; so does every run. */
module Safety {
  import opened Collections
  import opened CatalogConfig
  import opened Schemas
  import opened PullOperations
  import opened PullAudit
  import opened CatalogAssembly
  import opened CatalogRepository
  import opened Store
  import opened Protocol
  import opened Invariant

  ghost predicate Safe(w: World, w': World)
  {
    Grows(w, w') && Inv(w')
  }

  // ---- what an action leaves alone --------------------------------------------------------

  lemma RowsUntouched(w: World, w': World)
    requires RowsInv(w) && w'.db == w.db && w'.frozen == w.frozen
    ensures RowChangesOk(w, w')
  {
  }

  lemma HistoryUntouched(w: World, w': World)
    requires w'.history == w.history && w'.db.pity == w.db.pity
    ensures HistoryChangesOk(w, w') && forall key :: Hist(w', key) == Hist(w, key)
  {
    assert forall key :: Hist(w', key) == Hist(w, key) && StoredPity(w'.db, key) == StoredPity(w.db, key);
  }

  lemma LedgerUntouched(w: World, w': World)
    requires w'.ledger == w.ledger
    ensures LedgerChangesOk(w, w')
  {
  }

  lemma EventsUntouched(w: World, w': World)
    requires w'.sent == w.sent && w'.log == w.log && w'.rewards == w.rewards && DeliveryInv(w)
    requires forall a :: a in w'.answers ==> a in w.answers || AnswerOk(w', a)
    ensures DeliveryChangesOk(w, w')
  {
  }

  lemma WorkersUntouched(w: World, w': World)
    requires w'.workers == w.workers
    ensures WorkerChangesOk(w, w')
  {
  }

  lemma OneWorkerMoves(w: World, w': World, i: nat)
    requires i in w'.workers && w'.workers == w.workers[i := w'.workers[i]] && PcOk(w', w'.workers[i])
    ensures WorkerChangesOk(w, w')
  {
  }

  // ---- shapes of change -------------------------------------------------------------------

  lemma MoveGrows(w: World, w': World, i: nat)
    requires i in w'.workers
    requires w' == w.(workers := w.workers[i := w'.workers[i]], issued := w'.issued, answers := w'.answers)
    requires w.issued <= w'.issued && w.answers <= w'.answers
    ensures Grows(w, w')
  {
    assert forall key :: Hist(w', key) == Hist(w, key);
  }

  /** Only worker i moves, possibly issuing tokens or answering. */
  lemma MoveSafe(w: World, w': World, i: nat)
    requires Inv(w) && i in w'.workers
    requires w' == w.(workers := w.workers[i := w'.workers[i]], issued := w'.issued, answers := w'.answers)
    requires w.issued <= w'.issued && w.answers <= w'.answers
    requires PcOk(w', w'.workers[i])
    requires forall a :: a in w'.answers ==> a in w.answers || AnswerOk(w', a)
    ensures Safe(w, w')
  {
    MoveGrows(w, w', i);
    RowsUntouched(w, w');
    HistoryUntouched(w, w');
    LedgerUntouched(w, w');
    EventsUntouched(w, w');
    OneWorkerMoves(w, w', i);
    Preserved(w, w');
  }

  /** Worker i moves and the row `id` is rewritten. */
  ghost predicate RowStep(w: World, w': World, i: nat, id: Uuid)
  {
    && i in w'.workers && id in w.db.operations && id in w'.db.operations
    && w' == w.(db := Put(w.db, id, w'.db.operations[id]), workers := w.workers[i := w'.workers[i]],
                issued := w'.issued, answers := w'.answers)
    && w.issued <= w'.issued && w.answers <= w'.answers
    && RowGrows(w.db.operations[id], w'.db.operations[id])
  }

  lemma RowStepGrows(w: World, w': World, i: nat, id: Uuid)
    requires RowStep(w, w', i, id)
    ensures Grows(w, w')
  {
    assert forall key :: Hist(w', key) == Hist(w, key);
  }

  lemma RowStepRows(w: World, w': World, i: nat, id: Uuid)
    requires RowsInv(w) && RowStep(w, w', i, id) && Grows(w, w')
    requires w'.db.operations[id].origin in w'.frozen && StatusOk(w', w'.db.operations[id])
    ensures RowChangesOk(w, w')
  {
    assert RowOk(w, id);
  }

  lemma RowStepSafe(w: World, w': World, i: nat, id: Uuid)
    requires Inv(w) && RowStep(w, w', i, id)
    requires w'.db.operations[id].origin in w'.frozen && StatusOk(w', w'.db.operations[id])
    requires PcOk(w', w'.workers[i])
    requires forall a :: a in w'.answers ==> a in w.answers || AnswerOk(w', a)
    ensures Safe(w, w')
  {
    RowStepGrows(w, w', i, id);
    RowStepRows(w, w', i, id);
    HistoryUntouched(w, w');
    LedgerUntouched(w, w');
    EventsUntouched(w, w');
    OneWorkerMoves(w, w', i);
    Preserved(w, w');
  }

  lemma IdleSafe(w: World, i: nat)
    requires Inv(w)
    ensures Safe(w, Go(w, i, Idle))
  {
    MoveSafe(w, Go(w, i, Idle), i);
  }

  /** Worker i moves and nothing else changes. */
  lemma GoSafe(w: World, i: nat, pc: Pc)
    requires Inv(w) && PcOk(w, pc)
    ensures Safe(w, Go(w, i, pc))
  {
    var w' := Go(w, i, pc);
    MoveGrows(w, w', i);
    PcGrows(w, w', pc);
    MoveSafe(w, w', i);
  }

  /** Worker i moves after asking for a fresh token that the store did not record. */
  lemma IssueSafe(w: World, i: nat, token: Uuid, pc: Pc)
    requires Inv(w) && PcOk(w, pc)
    ensures Safe(w, Go(w.(issued := w.issued + {token}), i, pc))
  {
    var w' := Go(w.(issued := w.issued + {token}), i, pc);
    MoveGrows(w, w', i);
    PcGrows(w, w', pc);
    MoveSafe(w, w', i);
  }

  lemma StaySafe(w: World)
    requires Inv(w)
    ensures Safe(w, w)
  {
    GrowsReflexive(w);
  }

  /** A processing row gets a new owner, who keeps its frozen context. */
  lemma OwnerFacts(w: World, w': World, i: nat, id: Uuid, token: Uuid, pc: Pc)
    requires id in w.db.operations && RowStep(w, w', i, id) && token in w'.issued && Grows(w, w')
    requires var row := w.db.operations[id];
             && Known(w, row.origin) && w.db.byUserKey[row.origin] == id && FrozenOk(w, row.origin)
             && StatusOk(w, row) && row.status.Processing?
    requires var row, row' := w.db.operations[id], w'.db.operations[id];
             && row' == row.(token := Some(token), leaseUntil := row'.leaseUntil, updatedAt := row'.updatedAt)
             && (pc == Idle || pc == Charging(Job(id, row.origin, row.requestHash, token, row.context.value)))
    ensures w'.db.operations[id].origin in w'.frozen && StatusOk(w', w'.db.operations[id]) && PcOk(w', pc)
  {
    KnownGrows(w, w', w.db.operations[id].origin);
  }

  lemma OwnerSafe(w: World, w': World, i: nat, id: Uuid, token: Uuid)
    requires Inv(w) && id in w.db.operations && w.db.operations[id].status.Processing?
    requires i in w'.workers && id in w'.db.operations
    requires w' == w.(db := Put(w.db, id, w'.db.operations[id]), workers := w.workers[i := w'.workers[i]],
                      issued := w.issued + {token})
    requires var row, row', pc := w.db.operations[id], w'.db.operations[id], w'.workers[i];
             && row' == row.(token := Some(token), leaseUntil := row'.leaseUntil, updatedAt := row'.updatedAt)
             && row.context.Some?
             && (pc == Idle || pc == Charging(Job(id, row.origin, row.requestHash, token, row.context.value)))
    ensures Safe(w, w')
  {
    RowKnown(w, id);
    RowStepGrows(w, w', i, id);
    OwnerFacts(w, w', i, id, token, w'.workers[i]);
    RowStepSafe(w, w', i, id);
  }

  lemma KnownRow(w: World, o: UserKey)
    requires Inv(w) && (o in w.frozen || o in w.db.byUserKey)
    ensures Known(w, o) && RowOk(w, w.db.byUserKey[o]) && FrozenOk(w, o) && StatusOk(w, RowAt(w, o))
    ensures RowOf(w.db, o) == Some(RowAt(w, o))
  {
    assert o in w.db.byUserKey.Keys && o in w.frozen.Keys;
    assert FrozenOk(w, o);
    assert RowOk(w, w.db.byUserKey[o]);
  }

  lemma RowKnown(w: World, id: Uuid)
    requires Inv(w) && id in w.db.operations
    ensures Known(w, w.db.operations[id].origin) && w.db.byUserKey[w.db.operations[id].origin] == id
    ensures FrozenOk(w, w.db.operations[id].origin) && StatusOk(w, w.db.operations[id])
  {
    assert RowOk(w, id);
    KnownRow(w, w.db.operations[id].origin);
  }

  lemma WorkerFact(w: World, i: nat)
    requires Inv(w)
    ensures PcOk(w, PcOf(w, i))
  {
    assert WorkerOk(w, i);
  }

  /** A call is put on the wire. */
  ghost predicate Called(w: World, w': World)
  {
    && w' == w.(workers := w'.workers, ledger := w.ledger.(spendCalls := w'.ledger.spendCalls,
                                                          creditCalls := w'.ledger.creditCalls), sent := w'.sent)
    && w.ledger.spendCalls <= w'.ledger.spendCalls && w.ledger.creditCalls <= w'.ledger.creditCalls && w.sent <= w'.sent
  }

  lemma CallGrows(w: World, w': World)
    requires Called(w, w')
    ensures Grows(w, w')
  {
    assert forall key :: Hist(w', key) == Hist(w, key);
  }

  lemma CallSafe(w: World, w': World, i: nat)
    requires Inv(w) && Called(w, w') && i in w'.workers && w'.workers == w.workers[i := w'.workers[i]]
    requires PcOk(w', w'.workers[i])
    requires forall call :: call in w'.ledger.spendCalls ==> call in w.ledger.spendCalls || SpendOk(w', call)
    requires forall call :: call in w'.ledger.creditCalls ==> call in w.ledger.creditCalls || CreditOk(w', call)
    requires forall e :: e in w'.sent ==> e in w.sent || EventOk(w', e)
    ensures Safe(w, w')
  {
    CallGrows(w, w');
    RowsUntouched(w, w');
    HistoryUntouched(w, w');
    OneWorkerMoves(w, w', i);
    Preserved(w, w');
  }

  // ---- requests ---------------------------------------------------------------------------

  /** The context a request freezes carries the request's own event id, price, count and seed. */
  lemma RequestContextFits(snapshot: CatalogSnapshot, origin: UserKey, bannerId: string, count: int, seed: string,
                           acceptedAt: Time, engineVersion: string, engineBuildSha: string)
    requires count in {1, 10}
    ensures match RequestContext(snapshot, origin, bannerId, count, seed, acceptedAt, engineVersion, engineBuildSha)
            case Ok(Some(context)) =>
              context.eventId == EventId(origin) && Fits(context, RequestHash(bannerId, count, seed))
            case _ => true
  {
  }

  lemma StartSafe(w: World, i: nat, origin: UserKey, request: PullRequest, source: Source, acceptedAt: Time,
                  engineVersion: string, engineBuildSha: string)
    requires Inv(w)
    ensures Safe(w, DoStart(w, i, origin, request, source, acceptedAt, engineVersion, engineBuildSha))
  {
    StaySafe(w);
    if PcOf(w, i).Idle? && request.count in {1, 10} && SnapshotOf(w, source).Ok? {
      var snapshot := SnapshotOf(w, source).value;
      var seed := if request.seed.Some? then request.seed.value else w.seedOf(origin);
      var requestHash := RequestHash(request.bannerId, request.count, seed);
      RequestContextFits(snapshot, origin, request.bannerId, request.count, seed, acceptedAt, engineVersion,
                         engineBuildSha);
      match RequestContext(snapshot, origin, request.bannerId, request.count, seed, acceptedAt, engineVersion,
                           engineBuildSha)
      case Err(_) =>
      case Ok(None) => GoSafe(w, i, LookingUp(origin, requestHash));
      case Ok(Some(context)) => GoSafe(w, i, Inserting(origin, requestHash, context));
    }
  }

  /** Reacting to the row as it is now: answers and deliveries carry its committed response and
      event, refunds its frozen charge. */
  lemma ReactionOk(w: World, target: Target, origin: UserKey, requestHash: RequestHash, charge: Charge)
    requires Known(w, origin) && FrozenOk(w, origin) && StatusOk(w, RowAt(w, origin)) && TargetKnown(w, origin, target)
    requires RowAt(w, origin).status.RefundPending? ==> charge == ChargeOf(ContextAt(w, origin))
    ensures match React(target, origin, requestHash, OperationOf(RowAt(w, origin)), charge)
            case Next(pc) => PcOk(w, pc)
            case Respond(response) => AnswerOk(w, Answer(origin, requestHash, response))
  {
  }

  lemma ReactSafe(w: World, i: nat, target: Target, origin: UserKey, requestHash: RequestHash, charge: Charge)
    requires Inv(w) && Known(w, origin) && TargetKnown(w, origin, target)
    requires RowAt(w, origin).status.RefundPending? ==> charge == ChargeOf(ContextAt(w, origin))
    ensures Safe(w, DoReact(w, i, origin, requestHash,
                            React(target, origin, requestHash, OperationOf(RowAt(w, origin)), charge)))
  {
    KnownRow(w, origin);
    ReactionOk(w, target, origin, requestHash, charge);
    match React(target, origin, requestHash, OperationOf(RowAt(w, origin)), charge)
    case Next(pc) => GoSafe(w, i, pc);
    case Respond(response) => AnswerSafe(w, i, Answer(origin, requestHash, response));
  }

  lemma AnswerSafe(w: World, i: nat, a: Answer)
    requires Inv(w) && AnswerOk(w, a)
    ensures Safe(w, Go(w, i, Idle).(answers := w.answers + {a}))
  {
    var w' := Go(w, i, Idle).(answers := w.answers + {a});
    MoveGrows(w, w', i);
    AnswerGrows(w, w', a);
    MoveSafe(w, w', i);
  }

  ghost predicate TargetKnown(w: World, origin: UserKey, target: Target)
  {
    target == ByUserKey(origin) || (origin in w.db.byUserKey && target == ById(w.db.byUserKey[origin]))
  }

  lemma LookUpSafe(w: World, i: nat)
    requires Inv(w)
    ensures Safe(w, DoLookUp(w, i))
  {
    StaySafe(w);
    IdleSafe(w, i);
    match PcOf(w, i)
    case LookingUp(origin, requestHash) =>
      if RowOf(w.db, origin).Some? {
        KnownRow(w, origin);
        var row := RowAt(w, origin);
        if row.context.Some? {
          GoSafe(w, i, Inserting(origin, requestHash, row.context.value));
        } else {
          ReactSafe(w, i, ByUserKey(origin), origin, requestHash, RequestCharge(origin, requestHash, OperationOf(row)));
        }
      }
    case _ =>
  }

  lemma SelectSafe(w: World, i: nat)
    requires Inv(w)
    ensures Safe(w, DoSelect(w, i))
  {
    StaySafe(w);
    IdleSafe(w, i);
    match PcOf(w, i)
    case Selecting(origin, requestHash, context) =>
      if RowOf(w.db, origin).Some? {
        KnownRow(w, origin);
        var row := RowAt(w, origin);
        var claimed := if row.context.Some? then row.context.value else context;
        ReactSafe(w, i, ByUserKey(origin), origin, requestHash, ChargeOf(claimed));
      }
    case _ =>
  }

  /** A new row, its index entry and its frozen context appear together. */
  lemma InsertedSafe(w: World, w': World, i: nat, id: Uuid, origin: UserKey, context: PullRecoveryContext)
    requires Inv(w) && i in w'.workers && id !in w.db.operations && id in w'.db.operations
    requires origin !in w.db.byUserKey
    requires w' == w.(db := Put(w.db, id, w'.db.operations[id]).(byUserKey := w.db.byUserKey[origin := id]),
                      workers := w.workers[i := w'.workers[i]], issued := w'.issued,
                      frozen := w.frozen[origin := Frozen(context, "")])
    requires w.issued <= w'.issued && origin !in w.legacy
    requires var row := w'.db.operations[id];
             && row.origin == origin && row.status.Processing? && row.context == Some(context)
             && row.response.None? && row.event.None?
             && context.eventId == EventId(origin) && Fits(context, row.requestHash)
    requires PcOk(w', w'.workers[i])
    ensures Safe(w, w')
  {
    assert origin !in w.frozen by {
      assert w.db.byUserKey.Keys == w.frozen.Keys;
    }
    InsertedGrows(w, w', id, origin, context);
    InsertedRows(w, w', id, origin);
    HistoryUntouched(w, w');
    LedgerUntouched(w, w');
    EventsUntouched(w, w');
    OneWorkerMoves(w, w', i);
    Preserved(w, w');
  }

  lemma InsertedGrows(w: World, w': World, id: Uuid, origin: UserKey, context: PullRecoveryContext)
    requires id !in w.db.operations && id in w'.db.operations
    requires origin !in w.db.byUserKey && origin !in w.frozen
    requires w' == w.(db := Put(w.db, id, w'.db.operations[id]).(byUserKey := w.db.byUserKey[origin := id]),
                      workers := w'.workers, issued := w'.issued,
                      frozen := w.frozen[origin := Frozen(context, "")])
    requires w.issued <= w'.issued
    ensures Grows(w, w')
  {
    assert forall key :: Hist(w', key) == Hist(w, key);
  }

  lemma InsertedRows(w: World, w': World, id: Uuid, origin: UserKey)
    requires RowsInv(w) && Grows(w, w') && id !in w.db.operations && id in w'.db.operations
    requires w'.db.operations == w.db.operations[id := w'.db.operations[id]]
    requires w'.db.byUserKey == w.db.byUserKey[origin := id]
    requires w'.frozen.Keys == w.frozen.Keys + {origin} && origin !in w.frozen && origin !in w.legacy
    requires var row := w'.db.operations[id];
             && row.origin == origin && row.status.Processing? && row.context == Some(w'.frozen[origin].context)
             && row.response.None? && row.event.None?
             && w'.frozen[origin].context.eventId == EventId(origin) && Fits(w'.frozen[origin].context, row.requestHash)
    ensures RowChangesOk(w, w')
  {
  }

  lemma RowInserted(w: World, i: nat, id: Uuid, token: Uuid, until: Time, now: Time, fate: Fate)
    requires PcOf(w, i).Inserting? && id !in w.db.operations && token !in w.issued && !fate.Dropped?
    requires PcOf(w, i).origin !in w.db.byUserKey
    ensures var w', Inserting(origin, requestHash, context) := DoInsert(w, i, id, token, until, now, fate), PcOf(w, i);
            && i in w'.workers && id in w'.db.operations && w.issued <= w'.issued
            && w' == w.(db := Put(w.db, id, w'.db.operations[id]).(byUserKey := w.db.byUserKey[origin := id]),
                        workers := w.workers[i := w'.workers[i]], issued := w'.issued,
                        frozen := w.frozen[origin := Frozen(context, "")])
            && w'.db.operations[id] == OperationRow(origin, requestHash, Processing, None, None, None, Some(context),
                                                    Some(token), Some(until), None, now)
            && (w'.workers[i] == Idle || w'.workers[i] == Charging(Job(id, origin, requestHash, token, context)))
            && token in w'.issued
  {
  }

  lemma InsertSafe(w: World, i: nat, id: Uuid, token: Uuid, until: Time, now: Time, fate: Fate)
    requires Inv(w)
    ensures Safe(w, DoInsert(w, i, id, token, until, now, fate))
  {
    if !PcOf(w, i).Inserting? || id in w.db.operations || token in w.issued {
      StaySafe(w);
    } else {
      WorkerFact(w, i);
      var Inserting(origin, requestHash, context) := PcOf(w, i);
      if origin in w.db.byUserKey {
        IssueSafe(w, i, token, if fate.Acked? then Claiming(origin, requestHash, context) else Idle);
      } else if fate.Dropped? {
        IssueSafe(w, i, token, Idle);
      } else {
        assert origin !in w.db.byUserKey.Keys;
        RowInserted(w, i, id, token, until, now, fate);
        InsertedSafe(w, DoInsert(w, i, id, token, until, now, fate), i, id, origin, context);
      }
    }
  }

  /** A processing row keeps its frozen context whatever is offered with the claim. */
  lemma ClaimSafe(w: World, i: nat, token: Uuid, until: Time, now: Time, fate: Fate)
    requires Inv(w)
    ensures Safe(w, DoClaim(w, i, token, until, now, fate))
  {
    if !PcOf(w, i).Claiming? || token in w.issued {
      StaySafe(w);
    } else {
      WorkerFact(w, i);
      var Claiming(origin, requestHash, context) := PcOf(w, i);
      if Store.Claim(w.db, origin, requestHash, token, until, context, now).None? {
        IssueSafe(w, i, token, if fate.Acked? then Selecting(origin, requestHash, context) else Idle);
      } else if fate.Dropped? {
        IssueSafe(w, i, token, Idle);
      } else {
        KnownRow(w, origin);
        OwnerSafe(w, DoClaim(w, i, token, until, now, fate), i, w.db.byUserKey[origin], token);
      }
    }
  }

  // ---- execution --------------------------------------------------------------------------

  lemma SendSpendSafe(w: World, i: nat)
    requires Inv(w)
    ensures Safe(w, DoSendSpend(w, i))
  {
    if !PcOf(w, i).Charging? {
      StaySafe(w);
    } else {
      WorkerFact(w, i);
      var job := PcOf(w, i).job;
      var w' := DoSendSpend(w, i);
      CallGrows(w, w');
      JobGrows(w, w', job);
      CallSafe(w, w', i);
    }
  }

  lemma HearSpendSafe(w: World, i: nat, reply: SpendReply)
    requires Inv(w)
    ensures Safe(w, DoHearSpend(w, i, reply))
  {
    WorkerFact(w, i);
    var w' := DoHearSpend(w, i, reply);
    if !PcOf(w, i).AwaitingCharge? || w' == w {
      StaySafe(w);
    } else {
      assert PcOk(w, w'.workers[i]);
      GoSafe(w, i, w'.workers[i]);
    }
  }

  lemma RejectedStatus(w: World, w': World, job: Job, row': OperationRow)
    requires Grows(w, w') && JobOk(w, job) && job.origin in w.ledger.rejected
    requires row'.origin == job.origin && row'.status.Failed?
    requires row'.context.None? && row'.response.None? && row'.event.None?
    ensures job.origin in w'.frozen && StatusOk(w', row')
  {
  }

  lemma FailSafe(w: World, i: nat, now: Time, fate: Fate)
    requires Inv(w)
    ensures Safe(w, DoFail(w, i, now, fate))
  {
    if !PcOf(w, i).Rejecting? {
      StaySafe(w);
    } else {
      WorkerFact(w, i);
      var Rejecting(job, code) := PcOf(w, i);
      var r := Transition(w.db, job.id, job.origin.user, job.requestHash, job.token,
                          FailedOperation(job.requestHash, code), now);
      if r.Err? || fate.Dropped? {
        IdleSafe(w, i);
      } else {
        var w' := Go(w.(db := r.value), i, Idle);
        RowStepGrows(w, w', i, job.id);
        RejectedStatus(w, w', job, w'.db.operations[job.id]);
        RowStepSafe(w, w', i, job.id);
      }
    }
  }

  lemma CandidateMade(w: World, job: Job, attempt: nat, start: nat)
    requires AttemptOk(w, job, attempt, start) && PityOk(w, KeyOf(job.origin, job.context))
    ensures var previous := StoredPity(w.db, KeyOf(job.origin, job.context));
            w.engine(job.context, previous.pity).Ok? ==>
              CandidateOk(w, job, attempt, start,
                          MakeResponse(job.context, previous, w.engine(job.context, previous.pity).value))
  {
  }

  lemma ReadPitySafe(w: World, i: nat, answered: bool)
    requires Inv(w)
    ensures Safe(w, DoReadPity(w, i, answered))
  {
    if !PcOf(w, i).ReadingPity? {
      StaySafe(w);
    } else {
      WorkerFact(w, i);
      var ReadingPity(job, attempt, start) := PcOf(w, i);
      var key := KeyOf(job.origin, job.context);
      assert PityOk(w, key);
      CandidateMade(w, job, attempt, start);
      var previous := StoredPity(w.db, key);
      if !answered {
        GoSafe(w, i, Reconciling(job));
      } else if w.engine(job.context, previous.pity).Err? {
        IdleSafe(w, i);
      } else {
        var response := MakeResponse(job.context, previous, w.engine(job.context, previous.pity).value);
        GoSafe(w, i, Committing(job, attempt, start, response));
      }
    }
  }

  /** The one action that moves pity: a commit whose expected version is the stored one. */
  lemma CommitGrows(w: World, w': World, i: nat, job: Job, response: PullResponse, now: Time)
    requires Inv(w) && JobOk(w, job)
    requires CommitOutcomeOf(w, job, response, now).CommitDone?
    requires var key := KeyOf(job.origin, job.context);
             w' == w.(db := CommitOutcomeOf(w, job, response, now).db, workers := w'.workers,
                      history := w.history[key := Hist(w, key) + [HistoryEntry(job.origin, job.context, response)]])
    ensures Grows(w, w')
  {
    var key := KeyOf(job.origin, job.context);
    assert forall other :: other != key ==> Hist(w', other) == Hist(w, other);
    assert Hist(w, key) <= Hist(w', key);
  }

  lemma CommitFacts(w: World, w': World, job: Job, response: PullResponse, now: Time)
    requires RowsInv(w) && HistoryInv(w) && Grows(w, w') && ChargedJob(w, job) && CandidateOk(w, job, 1, 0, response)
    requires CommitOutcomeOf(w, job, response, now).CommitDone?
    requires var key := KeyOf(job.origin, job.context);
             && w'.db == CommitOutcomeOf(w, job, response, now).db
             && w'.frozen == w.frozen
             && w'.history == w.history[key := Hist(w, key) + [HistoryEntry(job.origin, job.context, response)]]
    ensures var key := KeyOf(job.origin, job.context);
            && EntryOk(w', key, |Hist(w, key)|) && PityOk(w', key)
            && RowOk(w', job.id)
            && CommittedAs(w', job.origin, response, MakeEvent(job.origin.user, job.context, response))
  {
    var key := KeyOf(job.origin, job.context);
    assert PityOk(w, key);
    assert response.previousPity.version == |Hist(w, key)|;
    HistGrows(w, w', key);
    KnownGrows(w, w', job.origin);
    assert Hist(w', key)[|Hist(w, key)|] == HistoryEntry(job.origin, job.context, response);
  }

  lemma CommitDoneChanges(w: World, w': World, job: Job, response: PullResponse, now: Time)
    requires RowsInv(w) && HistoryInv(w) && Grows(w, w') && ChargedJob(w, job) && CandidateOk(w, job, 1, 0, response)
    requires CommitOutcomeOf(w, job, response, now).CommitDone?
    requires var key := KeyOf(job.origin, job.context);
             && w'.db == CommitOutcomeOf(w, job, response, now).db
             && w'.frozen == w.frozen
             && w'.history == w.history[key := Hist(w, key) + [HistoryEntry(job.origin, job.context, response)]]
    ensures RowChangesOk(w, w') && HistoryChangesOk(w, w')
    ensures CommittedAs(w', job.origin, response, MakeEvent(job.origin.user, job.context, response))
  {
    var key := KeyOf(job.origin, job.context);
    CommitFacts(w, w', job, response, now);
    forall other | other != key
      ensures Hist(w', other) == Hist(w, other) && StoredPity(w'.db, other) == StoredPity(w.db, other)
    {
    }
  }

  /** After a commit, its worker reconciles it or publishes its event. */
  lemma CommitterOk(w: World, w': World, job: Job, response: PullResponse)
    requires Grows(w, w') && ChargedJob(w, job)
    requires CommittedAs(w', job.origin, response, MakeEvent(job.origin.user, job.context, response))
    ensures PcOk(w', Reconciling(job))
    ensures PcOk(w', Publishing(Delivery(ById(job.id), job.origin, job.requestHash, response,
                                         MakeEvent(job.origin.user, job.context, response), Reply), 0))
  {
    JobGrows(w, w', job);
  }

  lemma CommitDoneSafe(w: World, w': World, i: nat, job: Job, response: PullResponse, now: Time)
    requires Inv(w) && ChargedJob(w, job) && CandidateOk(w, job, 1, 0, response) && i in w'.workers
    requires CommitOutcomeOf(w, job, response, now).CommitDone?
    requires var key := KeyOf(job.origin, job.context);
             w' == w.(db := CommitOutcomeOf(w, job, response, now).db, workers := w.workers[i := w'.workers[i]],
                      history := w.history[key := Hist(w, key) + [HistoryEntry(job.origin, job.context, response)]])
    requires w'.workers[i] == Reconciling(job)
             || w'.workers[i] == Publishing(Delivery(ById(job.id), job.origin, job.requestHash, response,
                                                     MakeEvent(job.origin.user, job.context, response), Reply), 0)
    ensures Safe(w, w')
  {
    CommitGrows(w, w', i, job, response, now);
    CommitDoneChanges(w, w', job, response, now);
    CommitterOk(w, w', job, response);
    LedgerUntouched(w, w');
    EventsUntouched(w, w');
    OneWorkerMoves(w, w', i);
    Preserved(w, w');
  }

  /** After a commit that changed nothing: retry while attempts remain, each retry having seen
      one more commit, else reconcile or give up. */
  lemma CommitMissed(w: World, job: Job, attempt: nat, start: nat, response: PullResponse, now: Time, fate: Fate)
    returns (pc: Pc)
    requires AttemptOk(w, job, attempt, start) && CandidateOk(w, job, attempt, start, response)
    requires PityOk(w, KeyOf(job.origin, job.context))
    requires CommitOutcomeOf(w, job, response, now).CommitDone? ==> fate.Dropped?
    ensures pc == match CommitOutcomeOf(w, job, response, now)
                  case CommitDone(_) => Reconciling(job)
                  case VersionConflict(_) =>
                    if !fate.Acked? then Reconciling(job)
                    else if attempt < PITY_COMMIT_MAX_ATTEMPTS then ReadingPity(job, attempt + 1, start)
                    else Idle
                  case NotOwner => if fate.Acked? then Idle else Reconciling(job)
                  case CommitFailed => Reconciling(job)
    ensures PcOk(w, pc)
  {
    match CommitOutcomeOf(w, job, response, now)
    case CommitDone(_) => pc := Reconciling(job);
    case VersionConflict(_) =>
      pc := if !fate.Acked? then Reconciling(job)
            else if attempt < PITY_COMMIT_MAX_ATTEMPTS then ReadingPity(job, attempt + 1, start) else Idle;
    case NotOwner => pc := if fate.Acked? then Idle else Reconciling(job);
    case CommitFailed => pc := Reconciling(job);
  }

  lemma CommitMissedSafe(w: World, i: nat, now: Time, fate: Fate)
    requires Inv(w) && PcOf(w, i).Committing? && PcOk(w, PcOf(w, i))
    requires CommitOutcomeOf(w, PcOf(w, i).job, PcOf(w, i).response, now).CommitDone? ==> fate.Dropped?
    ensures Safe(w, DoCommit(w, i, now, fate))
  {
    var Committing(job, attempt, start, response) := PcOf(w, i);
    assert PityOk(w, KeyOf(job.origin, job.context));
    var pc := CommitMissed(w, job, attempt, start, response, now, fate);
    assert DoCommit(w, i, now, fate) == Go(w, i, pc);
    GoSafe(w, i, pc);
  }

  lemma CommitSafe(w: World, i: nat, now: Time, fate: Fate)
    requires Inv(w)
    ensures Safe(w, DoCommit(w, i, now, fate))
  {
    if !PcOf(w, i).Committing? {
      StaySafe(w);
    } else {
      WorkerFact(w, i);
      var Committing(job, _, _, response) := PcOf(w, i);
      if CommitOutcomeOf(w, job, response, now).CommitDone? && !fate.Dropped? {
        CommitDoneSafe(w, DoCommit(w, i, now, fate), i, job, response, now);
      } else {
        CommitMissedSafe(w, i, now, fate);
      }
    }
  }

  lemma ReconcileSafe(w: World, i: nat, answered: bool)
    requires Inv(w)
    ensures Safe(w, DoReconcile(w, i, answered))
  {
    WorkerFact(w, i);
    if !PcOf(w, i).Reconciling? {
      StaySafe(w);
    } else if DoReconcile(w, i, answered) == Go(w, i, Idle) {
      IdleSafe(w, i);
    } else {
      var job := PcOf(w, i).job;
      KnownRow(w, job.origin);
      ReactSafe(w, i, ById(job.id), job.origin, job.requestHash, ChargeOf(job.context));
    }
  }

  // ---- delivery ---------------------------------------------------------------------------

  lemma SendEventSafe(w: World, i: nat)
    requires Inv(w)
    ensures Safe(w, DoSendEvent(w, i))
  {
    if !PcOf(w, i).Publishing? {
      StaySafe(w);
    } else {
      WorkerFact(w, i);
      var Publishing(d, tries) := PcOf(w, i);
      var w' := Go(w, i, AwaitingAck(d, tries)).(sent := w.sent + {d.event});
      CallGrows(w, w');
      DeliveryGrows(w, w', d);
      assert EventOk(w', d.event);
      CallSafe(w, w', i);
    }
  }

  lemma AckMoves(w: World, i: nat, acked: bool) returns (pc: Pc)
    requires PcOf(w, i).AwaitingAck? && PcOk(w, PcOf(w, i))
    requires acked ==> PcOf(w, i).delivery.event in w.log
    ensures DoHearAck(w, i, acked) == Go(w, i, pc) && PcOk(w, pc)
  {
    var AwaitingAck(d, tries) := PcOf(w, i);
    pc := if acked && !d.purpose.Redeliver? then SavingPublished(d)
          else if !acked && tries + 1 < PUBLISH_MAX_ATTEMPTS then Publishing(d, tries + 1) else Ended(d);
  }

  lemma HearAckSafe(w: World, i: nat, acked: bool)
    requires Inv(w)
    ensures Safe(w, DoHearAck(w, i, acked))
  {
    if !PcOf(w, i).AwaitingAck? || (acked && PcOf(w, i).delivery.event !in w.log) {
      StaySafe(w);
    } else {
      WorkerFact(w, i);
      var pc := AckMoves(w, i, acked);
      GoSafe(w, i, pc);
    }
  }

  /** An unfenced save of a committed row either is stopped by the trigger or moves the status
      forward and changes neither response nor event. */
  lemma DeliveredRow(w: World, d: Delivery, status: PullOperationStatus, now: Time, fate: Fate)
    requires DeliveryOk(w, d) && (status.EventPublished? || status.Succeeded?)
    ensures var db' := Attempted(w.db, d.target, Delivered(d, status), now, fate);
            var id := w.db.byUserKey[d.origin];
            || db' == w.db
            || (&& db' == Put(w.db, id, Saved(RowAt(w, d.origin), Delivered(d, status), now))
                && !RowAt(w, d.origin).status.Succeeded?)
  {
  }

  lemma DeliveredStatus(w: World, w': World, d: Delivery, row': OperationRow)
    requires Grows(w, w') && DeliveryOk(w, d) && StatusOk(w, RowAt(w, d.origin)) && d.event in w.log
    requires row'.origin == d.origin && row'.response == Some(d.response) && row'.event == Some(d.event)
    requires row'.context.None?
    requires row'.status.EventPublished? || (row'.status.Succeeded? && d.origin in w.rewards)
    ensures StatusOk(w', row')
  {
    CommittedRowGrows(w, w', RowAt(w, d.origin));
  }

  lemma SavedStep(w: World, w': World, i: nat, d: Delivery, row': OperationRow)
    requires DeliveryOk(w, d) && i in w'.workers
    requires w' == w.(db := Put(w.db, w.db.byUserKey[d.origin], row'), workers := w.workers[i := w'.workers[i]],
                      answers := w'.answers)
    requires w.answers <= w'.answers
    requires row'.origin == d.origin && row'.requestHash == d.requestHash
    requires row'.response == Some(d.response) && row'.event == Some(d.event)
    requires row'.status.Succeeded? || (row'.status.EventPublished? && !RowAt(w, d.origin).status.Succeeded?)
    ensures RowStep(w, w', i, w.db.byUserKey[d.origin])
  {
  }

  lemma SavedAnswers(w: World, w': World, d: Delivery)
    requires Grows(w, w') && DeliveryOk(w, d)
    requires w'.answers <= w.answers + {Answer(d.origin, d.requestHash, d.response)}
    ensures forall a :: a in w'.answers ==> a in w.answers || AnswerOk(w', a)
  {
    DeliveryAnswerOk(w, w', d);
  }

  lemma SavedOk(w: World, w': World, i: nat, d: Delivery, row': OperationRow)
    requires DeliveryOk(w, d) && StatusOk(w, RowAt(w, d.origin)) && d.event in w.log
    requires RowStep(w, w', i, w.db.byUserKey[d.origin]) && w'.db.operations[w.db.byUserKey[d.origin]] == row'
    requires w'.answers <= w.answers + {Answer(d.origin, d.requestHash, d.response)}
    requires row'.origin == d.origin && row'.response == Some(d.response) && row'.event == Some(d.event)
    requires row'.context.None?
    requires row'.status.EventPublished? || (row'.status.Succeeded? && d.origin in w.rewards)
    ensures row'.origin in w'.frozen && StatusOk(w', row')
    ensures forall a :: a in w'.answers ==> a in w.answers || AnswerOk(w', a)
  {
    RowStepGrows(w, w', i, w.db.byUserKey[d.origin]);
    DeliveredStatus(w, w', d, row');
    SavedAnswers(w, w', d);
  }

  /** A worker ends a delivery with an unfenced save that the trigger let through. */
  lemma SavedSafe(w: World, w': World, i: nat, d: Delivery, row': OperationRow)
    requires Inv(w) && DeliveryOk(w, d) && StatusOk(w, RowAt(w, d.origin)) && i in w'.workers
    requires d.event in w.log
    requires w' == w.(db := Put(w.db, w.db.byUserKey[d.origin], row'), workers := w.workers[i := w'.workers[i]],
                      answers := w'.answers)
    requires w.answers <= w'.answers <= w.answers + {Answer(d.origin, d.requestHash, d.response)}
    requires w'.workers[i].Idle? || w'.workers[i].Releasing?
    requires row'.origin == d.origin && row'.requestHash == d.requestHash && row'.context.None?
    requires row'.response == Some(d.response) && row'.event == Some(d.event)
    requires row'.status.EventPublished? || (row'.status.Succeeded? && d.origin in w.rewards)
    requires !RowAt(w, d.origin).status.Succeeded?
    ensures Safe(w, w')
  {
    SavedStep(w, w', i, d, row');
    SavedOk(w, w', i, d, row');
    RowStepSafe(w, w', i, w.db.byUserKey[d.origin]);
  }

  lemma DeliveryAnswerOk(w: World, w': World, d: Delivery)
    requires Grows(w, w') && DeliveryOk(w, d)
    ensures AnswerOk(w', Answer(d.origin, d.requestHash, d.response))
  {
    KnownGrows(w, w', d.origin);
  }

  /** A worker ends a delivery with an unfenced save that changed nothing. */
  lemma UnsavedSafe(w: World, w': World, i: nat, d: Delivery)
    requires Inv(w) && DeliveryOk(w, d) && i in w'.workers && (w'.workers[i].Idle? || w'.workers[i].Releasing?)
    requires w' == w.(workers := w.workers[i := w'.workers[i]], answers := w'.answers)
    requires w.answers <= w'.answers <= w.answers + {Answer(d.origin, d.requestHash, d.response)}
    ensures Safe(w, w')
  {
    MoveGrows(w, w', i);
    DeliveryAnswerOk(w, w', d);
    MoveSafe(w, w', i);
  }

  /** A worker ends a delivery with an unfenced save, whatever becomes of it. */
  lemma UnfencedSafe(w: World, i: nat, d: Delivery, status: PullOperationStatus, now: Time, fate: Fate, pc: Pc,
                     answers: set<Answer>)
    requires Inv(w) && DeliveryOk(w, d) && (pc.Idle? || pc.Releasing?)
    requires d.event in w.log && (status.EventPublished? || (status.Succeeded? && d.origin in w.rewards))
    requires w.answers <= answers <= w.answers + {Answer(d.origin, d.requestHash, d.response)}
    ensures Safe(w, Go(w, i, pc).(db := Attempted(w.db, d.target, Delivered(d, status), now, fate), answers := answers))
  {
    var w' := Go(w, i, pc).(db := Attempted(w.db, d.target, Delivered(d, status), now, fate), answers := answers);
    DeliveredRow(w, d, status, now, fate);
    if w'.db == w.db {
      UnsavedSafe(w, w', i, d);
    } else {
      KnownRow(w, d.origin);
      SavedSafe(w, w', i, d, Saved(RowAt(w, d.origin), Delivered(d, status), now));
    }
  }

  lemma SavePublishedSafe(w: World, i: nat, now: Time, fate: Fate)
    requires Inv(w)
    ensures Safe(w, DoSavePublished(w, i, now, fate))
  {
    if !PcOf(w, i).SavingPublished? {
      StaySafe(w);
    } else {
      WorkerFact(w, i);
      var d := PcOf(w, i).delivery;
      UnfencedSafe(w, i, d, EventPublished, now, fate, Ended(d), w.answers + ReplyOf(d));
    }
  }

  lemma SaveSucceededSafe(w: World, i: nat, now: Time, fate: Fate)
    requires Inv(w)
    ensures Safe(w, DoSaveSucceeded(w, i, now, fate))
  {
    if !PcOf(w, i).SavingSucceeded? {
      StaySafe(w);
    } else {
      WorkerFact(w, i);
      var d := PcOf(w, i).delivery;
      KnownRow(w, d.origin);
      UnfencedSafe(w, i, d, Succeeded, now, fate, Ended(d), w.answers);
    }
  }

  // ---- recovery workers -------------------------------------------------------------------

  lemma ScanExpiredSafe(w: World, i: nat, id: Uuid, now: Time)
    requires Inv(w)
    ensures Safe(w, DoScanExpired(w, i, id, now))
  {
    StaySafe(w);
    GoSafe(w, i, ClaimingExpired(id));
  }

  lemma ExpiredOwned(w: World, i: nat, token: Uuid, until: Time, now: Time, fate: Fate)
    requires PcOf(w, i).ClaimingExpired? && token !in w.issued && !fate.Dropped?
    requires Store.ClaimExpired(w.db, PcOf(w, i).id, token, until, now).Some?
    ensures var id, w' := PcOf(w, i).id, DoTakeExpired(w, i, token, until, now, fate);
            var row := w.db.operations[id];
            && i in w'.workers && id in w'.db.operations
            && w' == w.(db := Put(w.db, id, w'.db.operations[id]), workers := w.workers[i := w'.workers[i]],
                        issued := w.issued + {token})
            && w'.db.operations[id] == row.(token := Some(token), leaseUntil := Some(until), updatedAt := now)
            && (w'.workers[i] == Idle
                || w'.workers[i] == Charging(Job(id, row.origin, row.requestHash, token, row.context.value)))
  {
  }

  lemma TakeExpiredSafe(w: World, i: nat, token: Uuid, until: Time, now: Time, fate: Fate)
    requires Inv(w)
    ensures Safe(w, DoTakeExpired(w, i, token, until, now, fate))
  {
    if !PcOf(w, i).ClaimingExpired? || token in w.issued {
      StaySafe(w);
    } else {
      var id := PcOf(w, i).id;
      if Store.ClaimExpired(w.db, id, token, until, now).None? || fate.Dropped? {
        IssueSafe(w, i, token, Idle);
      } else {
        ExpiredOwned(w, i, token, until, now, fate);
        OwnerSafe(w, DoTakeExpired(w, i, token, until, now, fate), i, id, token);
      }
    }
  }

  lemma ScanPendingSafe(w: World, i: nat, id: Uuid)
    requires Inv(w)
    ensures Safe(w, DoScanPending(w, i, id))
  {
    StaySafe(w);
    if DoScanPending(w, i, id) != w {
      RowKnown(w, id);
      GoSafe(w, i, ClaimingPending(id, OperationOf(w.db.operations[id])));
    }
  }

  lemma LockedRow(w: World, w': World, row: OperationRow, row': OperationRow)
    requires Grows(w, w') && row.origin in w.frozen && StatusOk(w, row)
    requires row' == row.(lockedUntil := row'.lockedUntil, updatedAt := row'.updatedAt)
    ensures StatusOk(w', row')
  {
    if PullOperations.Committed(row.status) {
      CommittedRowGrows(w, w', row);
    }
  }

  lemma LockedSafe(w: World, w': World, i: nat, id: Uuid, row': OperationRow)
    requires Inv(w) && i in w'.workers && id in w.db.operations
    requires w' == w.(db := Put(w.db, id, row'), workers := w.workers[i := w'.workers[i]])
    requires row' == w.db.operations[id].(lockedUntil := row'.lockedUntil, updatedAt := row'.updatedAt)
    requires Grows(w, w') ==> PcOk(w', w'.workers[i])
    ensures Safe(w, w')
  {
    RowKnown(w, id);
    RowStepGrows(w, w', i, id);
    LockedRow(w, w', w.db.operations[id], row');
    RowStepSafe(w, w', i, id);
  }

  /** What a recovery worker does with the copy it locked. */
  lemma LockedCopyOk(w: World, w': World, id: Uuid, copy: PullOperation)
    requires Grows(w, w') && CopyOk(w, id, copy) && PullOperations.Committed(copy.status)
    ensures var d := Delivery(ById(id), copy.event.value.eventId.origin, copy.requestHash, copy.response.value,
                              copy.event.value, if copy.status.EventPending? then Recover else Redeliver);
            PcOk(w', if copy.status.EventPending? then Publishing(d, 0) else CheckingReceipt(d))
  {
    CopyGrows(w, w', id, copy);
  }

  /** What the worker goes on with, and what it changed, when it locks a pending event. */
  lemma PendingLocked(w: World, i: nat, until: Time, now: Time, fate: Fate)
    requires PcOf(w, i).ClaimingPending? && PcOk(w, PcOf(w, i)) && !fate.Dropped?
    requires Store.ClaimPending(w.db, PcOf(w, i).id, PcOf(w, i).copy.status, until, now).Some?
    ensures var ClaimingPending(id, copy) := PcOf(w, i);
            var w', row' := DoTakePending(w, i, until, now, fate), w.db.operations[id].(lockedUntil := Some(until),
                                                                                        updatedAt := now);
            && i in w'.workers && w' == w.(db := Put(w.db, id, row'), workers := w.workers[i := w'.workers[i]])
            && (Grows(w, w') ==> PcOk(w', w'.workers[i]))
  {
    var ClaimingPending(id, copy) := PcOf(w, i);
    var w' := DoTakePending(w, i, until, now, fate);
    if Grows(w, w') {
      LockedCopyOk(w, w', id, copy);
    }
  }

  lemma TakePendingSafe(w: World, i: nat, until: Time, now: Time, fate: Fate)
    requires Inv(w)
    ensures Safe(w, DoTakePending(w, i, until, now, fate))
  {
    if !PcOf(w, i).ClaimingPending? {
      StaySafe(w);
    } else {
      WorkerFact(w, i);
      var ClaimingPending(id, copy) := PcOf(w, i);
      if Store.ClaimPending(w.db, id, copy.status, until, now).None? || fate.Dropped? {
        IdleSafe(w, i);
      } else {
        PendingLocked(w, i, until, now, fate);
        LockedSafe(w, DoTakePending(w, i, until, now, fate), i, id,
                   w.db.operations[id].(lockedUntil := Some(until), updatedAt := now));
      }
    }
  }

  lemma HearReceiptSafe(w: World, i: nat, answered: bool)
    requires Inv(w)
    ensures Safe(w, DoHearReceipt(w, i, answered))
  {
    WorkerFact(w, i);
    if !PcOf(w, i).CheckingReceipt? {
      StaySafe(w);
    } else {
      GoSafe(w, i, DoHearReceipt(w, i, answered).workers[i]);
    }
  }

  lemma ScanRefundSafe(w: World, i: nat, id: Uuid)
    requires Inv(w)
    ensures Safe(w, DoScanRefund(w, i, id))
  {
    StaySafe(w);
    if DoScanRefund(w, i, id) != w {
      RowKnown(w, id);
      GoSafe(w, i, ClaimingRefund(id, w.db.operations[id].origin.user, OperationOf(w.db.operations[id])));
    }
  }

  lemma LockedRefundOk(w: World, w': World, id: Uuid, user: Uuid, copy: PullOperation)
    requires Grows(w, w') && CopyOk(w, id, copy) && copy.status.RefundPending?
    requires user == w.db.operations[id].origin.user
    ensures var context := copy.recoveryContext.value;
            PcOk(w', Crediting(Refund(ById(id), context.eventId.origin, copy.requestHash,
                                      CreditCall(user, ChargeOf(context), ReasonOf(copy.errorCode)), true)))
  {
    CopyGrows(w, w', id, copy);
  }

  /** And when it locks a refund. */
  lemma RefundLocked(w: World, i: nat, until: Time, now: Time, fate: Fate)
    requires PcOf(w, i).ClaimingRefund? && PcOk(w, PcOf(w, i)) && !fate.Dropped?
    requires Store.ClaimPending(w.db, PcOf(w, i).id, RefundPending, until, now).Some?
    ensures var ClaimingRefund(id, user, copy) := PcOf(w, i);
            var w', row' := DoTakeRefund(w, i, until, now, fate), w.db.operations[id].(lockedUntil := Some(until),
                                                                                       updatedAt := now);
            && i in w'.workers && w' == w.(db := Put(w.db, id, row'), workers := w.workers[i := w'.workers[i]])
            && (Grows(w, w') ==> PcOk(w', w'.workers[i]))
  {
    var ClaimingRefund(id, user, copy) := PcOf(w, i);
    var w' := DoTakeRefund(w, i, until, now, fate);
    if Grows(w, w') {
      LockedRefundOk(w, w', id, user, copy);
    }
  }

  lemma TakeRefundSafe(w: World, i: nat, until: Time, now: Time, fate: Fate)
    requires Inv(w)
    ensures Safe(w, DoTakeRefund(w, i, until, now, fate))
  {
    if !PcOf(w, i).ClaimingRefund? {
      StaySafe(w);
    } else {
      WorkerFact(w, i);
      var ClaimingRefund(id, user, copy) := PcOf(w, i);
      if Store.ClaimPending(w.db, id, RefundPending, until, now).None? || fate.Dropped? {
        IdleSafe(w, i);
      } else {
        RefundLocked(w, i, until, now, fate);
        LockedSafe(w, DoTakeRefund(w, i, until, now, fate), i, id,
                   w.db.operations[id].(lockedUntil := Some(until), updatedAt := now));
      }
    }
  }

  lemma CreditSentSafe(w: World, w': World, i: nat, refund: Refund)
    requires Inv(w) && RefundOk(w, refund) && Called(w, w') && w'.workers == w.workers[i := AwaitingCredit(refund)]
    requires w'.ledger.creditCalls == w.ledger.creditCalls + {refund.call}
    requires w'.ledger.spendCalls == w.ledger.spendCalls && w'.sent == w.sent
    ensures Safe(w, w')
  {
    CallGrows(w, w');
    RefundGrows(w, w', refund);
    CallSafe(w, w', i);
  }

  lemma SendCreditSafe(w: World, i: nat)
    requires Inv(w)
    ensures Safe(w, DoSendCredit(w, i))
  {
    if !PcOf(w, i).Crediting? {
      StaySafe(w);
    } else {
      WorkerFact(w, i);
      CreditSentSafe(w, DoSendCredit(w, i), i, PcOf(w, i).refund);
    }
  }

  lemma HearCreditSafe(w: World, i: nat, answered: bool)
    requires Inv(w)
    ensures Safe(w, DoHearCredit(w, i, answered))
  {
    if !PcOf(w, i).AwaitingCredit? {
      StaySafe(w);
    } else {
      WorkerFact(w, i);
      var refund := PcOf(w, i).refund;
      if !answered {
        GoSafe(w, i, RefundEnded(refund));
      } else if refund.origin in w.ledger.credited && w.ledger.credited[refund.origin] == refund.call {
        GoSafe(w, i, SavingFailed(refund));
      } else {
        StaySafe(w);
      }
    }
  }

  /** An unfenced save of a refund can only turn a refund_pending row into a failed one. */
  lemma RefundedRow(w: World, r: Refund, now: Time, fate: Fate)
    requires RefundOk(w, r) && StatusOk(w, RowAt(w, r.origin))
    ensures var db' := Attempted(w.db, r.target, FailedOperation(r.requestHash, r.call.reason), now, fate);
            var id := w.db.byUserKey[r.origin];
            || db' == w.db
            || db' == Put(w.db, id, Saved(RowAt(w, r.origin), FailedOperation(r.requestHash, r.call.reason), now))
    ensures RowAt(w, r.origin).status.RefundPending? || RowAt(w, r.origin).status.Failed?
  {
  }

  lemma RefundedStatus(w: World, w': World, r: Refund, row': OperationRow)
    requires Grows(w, w') && RefundOk(w, r) && r.origin in w.ledger.credited
    requires row'.origin == r.origin && row'.status.Failed?
    requires row'.context.None? && row'.response.None? && row'.event.None?
    ensures r.origin in w'.frozen && StatusOk(w', row')
  {
  }

  lemma RefundSavedSafe(w: World, w': World, i: nat, r: Refund, row': OperationRow)
    requires Inv(w) && RefundOk(w, r) && r.origin in w.ledger.credited && i in w'.workers
    requires RowAt(w, r.origin).status.RefundPending? || RowAt(w, r.origin).status.Failed?
    requires w' == w.(db := Put(w.db, w.db.byUserKey[r.origin], row'), workers := w.workers[i := w'.workers[i]])
    requires row'.origin == r.origin && row'.requestHash == RowAt(w, r.origin).requestHash && row'.status.Failed?
    requires row'.context.None? && row'.response.None? && row'.event.None?
    requires w'.workers[i].Idle? || w'.workers[i].Releasing?
    ensures Safe(w, w')
  {
    RowStepGrows(w, w', i, w.db.byUserKey[r.origin]);
    RefundedStatus(w, w', r, row');
    RowStepSafe(w, w', i, w.db.byUserKey[r.origin]);
  }

  lemma RefundSaveSafe(w: World, i: nat, r: Refund, now: Time, fate: Fate)
    requires Inv(w) && RefundOk(w, r) && r.origin in w.ledger.credited
    ensures Safe(w, Go(w, i, RefundEnded(r))
                    .(db := Attempted(w.db, r.target, FailedOperation(r.requestHash, r.call.reason), now, fate)))
  {
    KnownRow(w, r.origin);
    RefundedRow(w, r, now, fate);
    var failed := FailedOperation(r.requestHash, r.call.reason);
    var db' := Attempted(w.db, r.target, failed, now, fate);
    var w' := Go(w, i, RefundEnded(r)).(db := db');
    if db' == w.db {
      assert w' == Go(w, i, RefundEnded(r));
      GoSafe(w, i, RefundEnded(r));
    } else {
      RefundSavedSafe(w, w', i, r, Saved(RowAt(w, r.origin), failed, now));
    }
  }

  lemma SaveFailedSafe(w: World, i: nat, now: Time, fate: Fate)
    requires Inv(w)
    ensures Safe(w, DoSaveFailed(w, i, now, fate))
  {
    if !PcOf(w, i).SavingFailed? {
      StaySafe(w);
    } else {
      WorkerFact(w, i);
      RefundSaveSafe(w, i, PcOf(w, i).refund, now, fate);
    }
  }

  lemma UnlockedSafe(w: World, w': World, i: nat, id: Uuid, now: Time)
    requires Inv(w) && id in w.db.operations && i in w'.workers && w'.workers[i].Idle?
    requires w' == w.(db := Put(w.db, id, w.db.operations[id].(lockedUntil := None, updatedAt := now)),
                      workers := w.workers[i := Idle])
    ensures Safe(w, w')
  {
    LockedSafe(w, w', i, id, w.db.operations[id].(lockedUntil := None, updatedAt := now));
  }

  lemma ReleaseUnlocks(w: World, i: nat, now: Time, fate: Fate)
    requires PcOf(w, i).Releasing?
    ensures var id, w' := PcOf(w, i).id, DoReleaseLock(w, i, now, fate);
            || w' == Go(w, i, Idle)
            || (&& id in w.db.operations
                && w' == w.(db := Put(w.db, id, w.db.operations[id].(lockedUntil := None, updatedAt := now)),
                            workers := w.workers[i := Idle]))
  {
  }

  lemma ReleaseLockSafe(w: World, i: nat, now: Time, fate: Fate)
    requires Inv(w)
    ensures Safe(w, DoReleaseLock(w, i, now, fate))
  {
    if !PcOf(w, i).Releasing? {
      StaySafe(w);
    } else {
      ReleaseUnlocks(w, i, now, fate);
      if DoReleaseLock(w, i, now, fate) == Go(w, i, Idle) {
        IdleSafe(w, i);
      } else {
        UnlockedSafe(w, DoReleaseLock(w, i, now, fate), i, PcOf(w, i).id, now);
      }
    }
  }

  // ---- the outside ------------------------------------------------------------------------

  lemma LedgerStepSafe(w: World, w': World)
    requires Inv(w) && w' == w.(ledger := w'.ledger) && LedgerGrows(w.ledger, w'.ledger) && LedgerChangesOk(w, w')
    ensures Safe(w, w')
  {
    RowsUntouched(w, w');
    HistoryUntouched(w, w');
    EventsUntouched(w, w');
    WorkersUntouched(w, w');
    Preserved(w, w');
  }

  lemma LedgerChargeSafe(w: World, spend: SpendCall)
    requires Inv(w)
    ensures Safe(w, DoLedgerCharge(w, spend))
  {
    StaySafe(w);
    var w' := DoLedgerCharge(w, spend);
    if w' != w {
      LedgerStepSafe(w, w');
    }
  }

  /** Since every spend call of a key is the same call, a charged key is never rejected. */
  lemma LedgerRejectSafe(w: World, spend: SpendCall)
    requires Inv(w)
    ensures Safe(w, DoLedgerReject(w, spend))
  {
    var w' := DoLedgerReject(w, spend);
    if w' == w {
      StaySafe(w);
    } else {
      var key := spend.charge.eventId.origin;
      if key in w.ledger.charged {
        assert ChargedOk(w, key);
        SpendsAgree(w, spend, w.ledger.charged[key]);
      }
      forall o | o in w.ledger.charged
        ensures o in w'.ledger.rejected ==> o in w.ledger.rejected
      {
      }
      LedgerStepSafe(w, w');
    }
  }

  lemma SpendsAgree(w: World, call: SpendCall, call': SpendCall)
    requires LedgerInv(w) && call in w.ledger.spendCalls && call' in w.ledger.spendCalls
    requires call.charge.eventId.origin == call'.charge.eventId.origin
    ensures call == call'
  {
    assert SpendOk(w, call) && SpendOk(w, call');
  }

  lemma LedgerCreditSafe(w: World, credit: CreditCall)
    requires Inv(w)
    ensures Safe(w, DoLedgerCredit(w, credit))
  {
    StaySafe(w);
    var w' := DoLedgerCredit(w, credit);
    if w' != w {
      LedgerStepSafe(w, w');
    }
  }

  lemma LogAppendSafe(w: World, event: PullCompletedEvent)
    requires Inv(w)
    ensures Safe(w, DoLogAppend(w, event))
  {
    StaySafe(w);
    var w' := DoLogAppend(w, event);
    if w' != w {
      RowsUntouched(w, w');
      HistoryUntouched(w, w');
      LedgerUntouched(w, w');
      WorkersUntouched(w, w');
      assert w.log <= w'.log;
      Preserved(w, w');
    }
  }

  lemma BackpackApplySafe(w: World, event: PullCompletedEvent)
    requires Inv(w)
    ensures Safe(w, DoBackpackApply(w, event))
  {
    StaySafe(w);
    var w' := DoBackpackApply(w, event);
    if w' != w {
      RowsUntouched(w, w');
      HistoryUntouched(w, w');
      LedgerUntouched(w, w');
      WorkersUntouched(w, w');
      Preserved(w, w');
    }
  }

  lemma PublishReleaseSafe(w: World, release: Release)
    requires Inv(w)
    ensures Safe(w, DoPublishRelease(w, release))
  {
    StaySafe(w);
    var w' := DoPublishRelease(w, release);
    if w' != w {
      RowsUntouched(w, w');
      HistoryUntouched(w, w');
      LedgerUntouched(w, w');
      EventsUntouched(w, w');
      WorkersUntouched(w, w');
      Preserved(w, w');
    }
  }

  // ---- every action, every run ------------------------------------------------------------

  lemma RequestSafe(w: World, a: Action)
    requires Inv(w) && IsRequest(a)
    ensures Safe(w, ApplyRequest(w, a))
  {
    match a
    case Crash(i) => IdleSafe(w, i);
    case Start(i, origin, request, source, acceptedAt, version, sha) =>
      StartSafe(w, i, origin, request, source, acceptedAt, version, sha);
    case LookUp(i) => LookUpSafe(w, i);
    case InsertRow(i, id, token, until, now, fate) => InsertSafe(w, i, id, token, until, now, fate);
    case ClaimRow(i, token, until, now, fate) => ClaimSafe(w, i, token, until, now, fate);
    case SelectRow(i) => SelectSafe(w, i);
  }

  lemma ExecutionSafe(w: World, a: Action)
    requires Inv(w) && IsExecution(a)
    ensures Safe(w, ApplyExecution(w, a))
  {
    match a
    case SendSpend(i) => SendSpendSafe(w, i);
    case HearSpend(i, reply) => HearSpendSafe(w, i, reply);
    case Fail(i, now, fate) => FailSafe(w, i, now, fate);
    case ReadPity(i, answered) => ReadPitySafe(w, i, answered);
    case CommitPull(i, now, fate) => CommitSafe(w, i, now, fate);
    case Reconcile(i, answered) => ReconcileSafe(w, i, answered);
  }

  lemma DeliverySafe(w: World, a: Action)
    requires Inv(w) && IsDelivery(a)
    ensures Safe(w, ApplyDelivery(w, a))
  {
    match a
    case SendEvent(i) => SendEventSafe(w, i);
    case HearAck(i, acked) => HearAckSafe(w, i, acked);
    case SavePublished(i, now, fate) => SavePublishedSafe(w, i, now, fate);
    case ScanPending(i, id) => ScanPendingSafe(w, i, id);
    case TakePending(i, until, now, fate) => TakePendingSafe(w, i, until, now, fate);
    case HearReceipt(i, answered) => HearReceiptSafe(w, i, answered);
    case SaveSucceeded(i, now, fate) => SaveSucceededSafe(w, i, now, fate);
  }

  lemma RecoverySafe(w: World, a: Action)
    requires Inv(w) && IsRecovery(a)
    ensures Safe(w, ApplyRecovery(w, a))
  {
    match a
    case ScanExpired(i, id, now) => ScanExpiredSafe(w, i, id, now);
    case TakeExpired(i, token, until, now, fate) => TakeExpiredSafe(w, i, token, until, now, fate);
    case ScanRefund(i, id) => ScanRefundSafe(w, i, id);
    case TakeRefund(i, until, now, fate) => TakeRefundSafe(w, i, until, now, fate);
    case SendCredit(i) => SendCreditSafe(w, i);
    case HearCredit(i, answered) => HearCreditSafe(w, i, answered);
    case SaveFailed(i, now, fate) => SaveFailedSafe(w, i, now, fate);
    case ReleaseLock(i, now, fate) => ReleaseLockSafe(w, i, now, fate);
  }

  lemma OutsideSafe(w: World, a: Action)
    requires Inv(w) && IsOutside(a)
    ensures Safe(w, ApplyOutside(w, a))
  {
    match a
    case LedgerCharge(spend) => LedgerChargeSafe(w, spend);
    case LedgerReject(spend) => LedgerRejectSafe(w, spend);
    case LedgerCredit(credit) => LedgerCreditSafe(w, credit);
    case LogAppend(event) => LogAppendSafe(w, event);
    case BackpackApply(event) => BackpackApplySafe(w, event);
    case PublishRelease(release) => PublishReleaseSafe(w, release);
  }

  /** No action of any worker or of the outside breaks the invariant or takes anything back. */
  lemma ActionSafe(w: World, a: Action)
    requires Inv(w)
    ensures Safe(w, Apply(w, a))
  {
    if IsRequest(a) {
      RequestSafe(w, a);
    } else if IsExecution(a) {
      ExecutionSafe(w, a);
    } else if IsDelivery(a) {
      DeliverySafe(w, a);
    } else if IsRecovery(a) {
      RecoverySafe(w, a);
    } else {
      OutsideSafe(w, a);
    }
  }

  lemma {:induction false} RunSafe(w: World, actions: seq<Action>)
    requires Inv(w)
    ensures Safe(w, Run(w, actions))
    decreases |actions|
  {
    if actions == [] {
      StaySafe(w);
    } else {
      ActionSafe(w, actions[0]);
      RunSafe(Apply(w, actions[0]), actions[1..]);
      GrowsTransitive(w, Apply(w, actions[0]), Run(w, actions));
    }
  }

  /** Every reachable world satisfies the invariant. */
  lemma ReachableInv(w: World, actions: seq<Action>)
    requires Init(w)
    ensures Inv(Run(w, actions))
  {
    InitInv(w);
    RunSafe(w, actions);
  }
}
