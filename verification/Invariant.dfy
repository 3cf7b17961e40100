/** What holds in every reachable world of the protocol, and how worlds grow.

    `Inv` says of every row, frozen context, history entry, ledger entry, event, answer and
    worker what the rest of the world guarantees about it.  `Grows` says what no action ever
    takes back.  Each single fact of `Inv` survives growth, so an action has to re-establish
    only the facts about what it changed. */
module Invariant {
  import opened Collections
  import opened CatalogConfig
  import opened Schemas
  import opened PullOperations
  import opened Store
  import opened Protocol

  // ---- growth -----------------------------------------------------------------------------

  predicate StatusReaches(s: PullOperationStatus, s': PullOperationStatus)
  {
    || s == s'
    || (s.Processing? && !s'.RefundPending?)
    || (s.EventPending? && (s'.EventPublished? || s'.Succeeded?))
    || (s.EventPublished? && s'.Succeeded?)
    || (s.RefundPending? && s'.Failed?)
  }

  ghost predicate RowGrows(r: OperationRow, r': OperationRow)
  {
    && r'.origin == r.origin && r'.requestHash == r.requestHash
    && StatusReaches(r.status, r'.status)
    && (PullOperations.Committed(r.status) ==> r'.response == r.response && r'.event == r.event)
  }

  ghost predicate SameService(w: World, w': World)
  {
    w'.engine == w.engine && w'.seedOf == w.seedOf && w'.staticCatalog == w.staticCatalog
    && w'.sticky == w.sticky && w'.legacy == w.legacy
  }

  ghost predicate RowsGrow(w: World, w': World)
  {
    && (forall id :: id in w.db.operations ==>
          id in w'.db.operations && RowGrows(w.db.operations[id], w'.db.operations[id]))
    && Grown(w.db.byUserKey, w'.db.byUserKey)
  }

  ghost predicate LedgerGrows(l: Ledger, l': Ledger)
  {
    && l.spendCalls <= l'.spendCalls && Grown(l.charged, l'.charged) && l.rejected <= l'.rejected
    && l.creditCalls <= l'.creditCalls && Grown(l.credited, l'.credited)
  }

  ghost predicate HistoryGrows(w: World, w': World)
  {
    forall key :: Hist(w, key) <= Hist(w', key)
  }

  ghost predicate Grows(w: World, w': World)
  {
    && SameService(w, w')
    && Grown(w.releases, w'.releases)
    && RowsGrow(w, w')
    && LedgerGrows(w.ledger, w'.ledger)
    && w.sent <= w'.sent && w.log <= w'.log && Grown(w.rewards, w'.rewards)
    && Grown(w.frozen, w'.frozen)
    && HistoryGrows(w, w')
    && w.issued <= w'.issued && w.answers <= w'.answers
  }

  // ---- single facts -----------------------------------------------------------------------

  ghost predicate Known(w: World, o: UserKey)
  {
    && o in w.frozen && o in w.db.byUserKey && w.db.byUserKey[o] in w.db.operations
    && w.db.operations[w.db.byUserKey[o]].origin == o
  }

  ghost function RowAt(w: World, o: UserKey): (row: OperationRow)
    requires Known(w, o)
  {
    w.db.operations[w.db.byUserKey[o]]
  }

  ghost function ContextAt(w: World, o: UserKey): (context: PullRecoveryContext)
    requires o in w.frozen
  {
    w.frozen[o].context
  }

  /** The context prices its own count, and its count and seed are the hashed request's. */
  ghost predicate Fits(context: PullRecoveryContext, requestHash: RequestHash)
  {
    && context.count in {1, 10} && context.amountMinor == context.count * ASTRITE_PER_PULL
    && requestHash.count == context.count && requestHash.seed == context.seed
  }

  ghost predicate FrozenOk(w: World, o: UserKey)
    requires o in w.frozen
  {
    && Known(w, o)
    && ContextAt(w, o).eventId == EventId(o)
    && (o !in w.legacy ==> Fits(ContextAt(w, o), RowAt(w, o).requestHash))
  }

  /** The row of o is committed with this response and this event. */
  ghost predicate CommittedAs(w: World, o: UserKey, response: PullResponse, event: PullCompletedEvent)
  {
    && Known(w, o) && PullOperations.Committed(RowAt(w, o).status)
    && RowAt(w, o).response == Some(response) && RowAt(w, o).event == Some(event)
    && event.eventId == EventId(o)
  }

  ghost function KeyOf(o: UserKey, context: PullRecoveryContext): (key: PityKey)
  {
    PityKey(o.user, context.pityGroupId)
  }

  ghost predicate InHistory(w: World, key: PityKey, c: HistoryEntry)
  {
    && 1 <= c.response.stateVersion <= |Hist(w, key)|
    && Hist(w, key)[c.response.stateVersion - 1] == c
  }

  ghost predicate CommittedRowOk(w: World, row: OperationRow)
    requires row.origin in w.frozen
  {
    var context := ContextAt(w, row.origin);
    && row.context.None? && row.response.Some? && row.event.Some?
    && row.response.value.eventId == EventId(row.origin)
    && row.event.value == MakeEvent(row.origin.user, context, row.response.value)
    && row.origin in w.ledger.charged
    && InHistory(w, KeyOf(row.origin, context), HistoryEntry(row.origin, context, row.response.value))
  }

  ghost predicate StatusOk(w: World, row: OperationRow)
    requires row.origin in w.frozen
  {
    match row.status
    case Processing =>
      && row.origin !in w.legacy && row.context == Some(ContextAt(w, row.origin))
      && row.response.None? && row.event.None?
    case EventPending => row.origin !in w.legacy && CommittedRowOk(w, row)
    case EventPublished => row.origin !in w.legacy && CommittedRowOk(w, row) && row.event.value in w.log
    case Succeeded =>
      row.origin !in w.legacy && CommittedRowOk(w, row) && row.event.value in w.log && row.origin in w.rewards
    case RefundPending =>
      && row.origin in w.legacy && row.context == Some(ContextAt(w, row.origin))
      && row.response.None? && row.event.None? && ReasonOf(row.errorCode) == w.frozen[row.origin].reason
    case Failed =>
      && row.context.None? && row.response.None? && row.event.None?
      && (if row.origin in w.legacy then row.origin in w.ledger.credited else row.origin in w.ledger.rejected)
  }

  ghost predicate RowOk(w: World, id: Uuid)
    requires id in w.db.operations
  {
    var row := w.db.operations[id];
    && row.origin in w.db.byUserKey && w.db.byUserKey[row.origin] == id && row.origin in w.frozen
    && StatusOk(w, row)
  }

  /** The pity snapshot after the first n commits. */
  ghost function SnapshotAt(h: seq<HistoryEntry>, n: nat): (s: PitySnapshot)
    requires n <= |h|
  {
    if n == 0 then INITIAL_SNAPSHOT else h[n - 1].response.nextPity
  }

  /** The response is what the engine makes of its own starting pity. */
  ghost predicate EngineMade(w: World, context: PullRecoveryContext, r: PullResponse)
  {
    && w.engine(context, r.previousPity.pity).Ok?
    && r == MakeResponse(context, r.previousPity, w.engine(context, r.previousPity.pity).value)
  }

  ghost predicate EntryOk(w: World, key: PityKey, i: nat)
    requires i < |Hist(w, key)|
  {
    var c := Hist(w, key)[i];
    && Known(w, c.origin) && c.origin !in w.legacy
    && ContextAt(w, c.origin) == c.context && key == KeyOf(c.origin, c.context)
    && PullOperations.Committed(RowAt(w, c.origin).status) && RowAt(w, c.origin).response == Some(c.response)
    && c.response.stateVersion == i + 1
    && c.response.previousPity == SnapshotAt(Hist(w, key), i)
    && c.response.previousPity.version == i
    && EngineMade(w, c.context, c.response)
  }

  ghost predicate PityOk(w: World, key: PityKey)
  {
    && StoredPity(w.db, key) == SnapshotAt(Hist(w, key), |Hist(w, key)|)
    && StoredPity(w.db, key).version == |Hist(w, key)|
  }

  ghost predicate SpendOk(w: World, call: SpendCall)
  {
    var o := call.charge.eventId.origin;
    o in w.frozen && o !in w.legacy && call == SpendCall(o.user, ChargeOf(ContextAt(w, o)))
  }

  ghost predicate CreditOk(w: World, call: CreditCall)
  {
    var o := call.charge.eventId.origin;
    o in w.frozen && o in w.legacy && call == CreditCall(o.user, ChargeOf(ContextAt(w, o)), w.frozen[o].reason)
  }

  ghost predicate EventOk(w: World, e: PullCompletedEvent)
  {
    var o := e.eventId.origin;
    && Known(w, o) && PullOperations.Committed(RowAt(w, o).status)
    && RowAt(w, o).event == Some(e) && e.eventId == EventId(o)
  }

  ghost predicate AnswerOk(w: World, a: Answer)
  {
    && Known(w, a.origin) && PullOperations.Committed(RowAt(w, a.origin).status)
    && RowAt(w, a.origin).response == Some(a.response) && RowAt(w, a.origin).requestHash == a.requestHash
  }

  // ---- workers ----------------------------------------------------------------------------

  ghost predicate JobOk(w: World, job: Job)
  {
    && Known(w, job.origin) && job.origin !in w.legacy
    && w.db.byUserKey[job.origin] == job.id && RowAt(w, job.origin).requestHash == job.requestHash
    && job.context == ContextAt(w, job.origin) && job.context.eventId == EventId(job.origin)
    && job.token in w.issued
  }

  ghost predicate TargetOk(w: World, o: UserKey, target: Target)
    requires Known(w, o)
  {
    match target
    case ById(id) => w.db.byUserKey[o] == id
    case ByUserKey(origin) => origin == o
  }

  ghost predicate DeliveryOk(w: World, d: Delivery)
  {
    && CommittedAs(w, d.origin, d.response, d.event)
    && RowAt(w, d.origin).requestHash == d.requestHash
    && TargetOk(w, d.origin, d.target)
    && (d.purpose.Redeliver? ==> !RowAt(w, d.origin).status.EventPending?)
  }

  ghost predicate RefundOk(w: World, r: Refund)
  {
    && Known(w, r.origin) && r.origin in w.legacy
    && RowAt(w, r.origin).requestHash == r.requestHash
    && TargetOk(w, r.origin, r.target)
    && r.call.charge.eventId == EventId(r.origin) && CreditOk(w, r.call)
  }

  /** A context a request may insert or claim with: its row's own, or one it made itself. */
  ghost predicate OfferOk(w: World, o: UserKey, requestHash: RequestHash, context: PullRecoveryContext)
  {
    context.eventId == EventId(o) && (o in w.frozen || Fits(context, requestHash))
  }

  /** A copy of a row taken some time ago. */
  ghost predicate CopyOk(w: World, id: Uuid, copy: PullOperation)
  {
    && id in w.db.operations
    && var row := w.db.operations[id];
    && Known(w, row.origin) && w.db.byUserKey[row.origin] == id
    && copy.requestHash == row.requestHash
    && (PullOperations.Committed(copy.status) ==>
          && copy.response.Some? && copy.event.Some?
          && CommittedAs(w, row.origin, copy.response.value, copy.event.value)
          && (!copy.status.EventPending? ==> !row.status.EventPending?))
    && (copy.status.RefundPending? ==>
          && row.origin in w.legacy
          && copy.recoveryContext == Some(ContextAt(w, row.origin))
          && ContextAt(w, row.origin).eventId == EventId(row.origin)
          && ReasonOf(copy.errorCode) == w.frozen[row.origin].reason)
  }

  ghost predicate ChargedJob(w: World, job: Job)
  {
    JobOk(w, job) && job.origin in w.ledger.charged
  }

  ghost predicate AttemptOk(w: World, job: Job, attempt: nat, start: nat)
  {
    && ChargedJob(w, job) && 1 <= attempt <= PITY_COMMIT_MAX_ATTEMPTS
    && start + attempt - 1 <= |Hist(w, KeyOf(job.origin, job.context))|
  }

  ghost predicate CandidateOk(w: World, job: Job, attempt: nat, start: nat, r: PullResponse)
  {
    var h := Hist(w, KeyOf(job.origin, job.context));
    && start + attempt - 1 <= r.previousPity.version <= |h|
    && r.previousPity == SnapshotAt(h, r.previousPity.version)
    && EngineMade(w, job.context, r)
  }

  ghost predicate PcOk(w: World, pc: Pc)
  {
    match pc
    case Idle => true
    case LookingUp(_, _) => true
    case Inserting(o, requestHash, context) => OfferOk(w, o, requestHash, context)
    case Claiming(o, requestHash, context) => OfferOk(w, o, requestHash, context)
    case Selecting(o, requestHash, context) => OfferOk(w, o, requestHash, context)
    case Charging(job) => JobOk(w, job)
    case AwaitingCharge(job) => JobOk(w, job)
    case Rejecting(job, _) => JobOk(w, job) && job.origin in w.ledger.rejected
    case ReadingPity(job, attempt, start) => AttemptOk(w, job, attempt, start)
    case Committing(job, attempt, start, r) =>
      AttemptOk(w, job, attempt, start) && CandidateOk(w, job, attempt, start, r)
    case Reconciling(job) => ChargedJob(w, job)
    case Publishing(d, _) => DeliveryOk(w, d)
    case AwaitingAck(d, _) => DeliveryOk(w, d)
    case SavingPublished(d) => DeliveryOk(w, d) && d.event in w.log
    case ClaimingExpired(_) => true
    case ClaimingPending(id, copy) => CopyOk(w, id, copy) && PullOperations.Committed(copy.status)
    case CheckingReceipt(d) => DeliveryOk(w, d) && d.purpose.Redeliver?
    case SavingSucceeded(d) => DeliveryOk(w, d) && d.purpose.Redeliver? && d.origin in w.rewards
    case ClaimingRefund(id, user, copy) =>
      CopyOk(w, id, copy) && copy.status.RefundPending? && user == w.db.operations[id].origin.user
    case Crediting(r) => RefundOk(w, r)
    case AwaitingCredit(r) => RefundOk(w, r)
    case SavingFailed(r) => RefundOk(w, r) && r.origin in w.ledger.credited
    case Releasing(_) => true
  }

  // ---- the invariant ----------------------------------------------------------------------

  ghost predicate ChargedOk(w: World, o: UserKey)
    requires o in w.ledger.charged
  {
    && w.ledger.charged[o] in w.ledger.spendCalls && w.ledger.charged[o].charge.eventId.origin == o
    && (w.sticky ==> o !in w.ledger.rejected)
  }

  ghost predicate CreditedOk(w: World, o: UserKey)
    requires o in w.ledger.credited
  {
    w.ledger.credited[o] in w.ledger.creditCalls && w.ledger.credited[o].charge.eventId.origin == o
  }

  ghost predicate RewardOk(w: World, o: UserKey)
    requires o in w.rewards
  {
    w.rewards[o] in w.log && w.rewards[o].eventId.origin == o
  }

  // Each fact is asked for by name, so a proof sees only the facts it mentions.

  ghost predicate RowsInv(w: World)
  {
    && (forall id {:trigger RowOk(w, id)} :: id in w.db.operations ==> RowOk(w, id))
    && (forall o {:trigger FrozenOk(w, o)} :: o in w.frozen ==> FrozenOk(w, o))
    && w.db.byUserKey.Keys == w.frozen.Keys
    && w.legacy <= w.frozen.Keys
  }

  ghost predicate HistoryInv(w: World)
  {
    && (forall key, i {:trigger EntryOk(w, key, i)} :: 0 <= i < |Hist(w, key)| ==> EntryOk(w, key, i))
    && (forall key {:trigger PityOk(w, key)} :: PityOk(w, key))
  }

  ghost predicate LedgerInv(w: World)
  {
    && (forall call {:trigger SpendOk(w, call)} :: call in w.ledger.spendCalls ==> SpendOk(w, call))
    && (forall o {:trigger ChargedOk(w, o)} :: o in w.ledger.charged ==> ChargedOk(w, o))
    && (forall call {:trigger CreditOk(w, call)} :: call in w.ledger.creditCalls ==> CreditOk(w, call))
    && (forall o {:trigger CreditedOk(w, o)} :: o in w.ledger.credited ==> CreditedOk(w, o))
  }

  ghost predicate DeliveryInv(w: World)
  {
    && (forall e {:trigger EventOk(w, e)} :: e in w.sent ==> EventOk(w, e))
    && (forall e :: e in w.log ==> e in w.sent)
    && (forall o {:trigger RewardOk(w, o)} :: o in w.rewards ==> RewardOk(w, o))
    && (forall a {:trigger AnswerOk(w, a)} :: a in w.answers ==> AnswerOk(w, a))
  }

  ghost predicate WorkerOk(w: World, i: nat)
  {
    PcOk(w, PcOf(w, i))
  }

  ghost predicate WorkersInv(w: World)
  {
    forall i {:trigger WorkerOk(w, i)} :: WorkerOk(w, i)
  }

  ghost predicate Inv(w: World)
  {
    RowsInv(w) && HistoryInv(w) && LedgerInv(w) && DeliveryInv(w) && WorkersInv(w)
  }

  // ---- facts survive growth ---------------------------------------------------------------

  lemma KnownGrows(w: World, w': World, o: UserKey)
    requires Grows(w, w') && Known(w, o)
    ensures Known(w', o) && RowGrows(RowAt(w, o), RowAt(w', o)) && ContextAt(w', o) == ContextAt(w, o)
    ensures w'.db.byUserKey[o] == w.db.byUserKey[o]
  {
  }

  lemma HistGrows(w: World, w': World, key: PityKey)
    requires Grows(w, w')
    ensures |Hist(w, key)| <= |Hist(w', key)|
    ensures forall i :: 0 <= i < |Hist(w, key)| ==> Hist(w', key)[i] == Hist(w, key)[i]
    ensures forall n :: 0 <= n <= |Hist(w, key)| ==> SnapshotAt(Hist(w', key), n) == SnapshotAt(Hist(w, key), n)
  {
    assert Hist(w, key) <= Hist(w', key);
  }

  lemma FrozenGrows(w: World, w': World, o: UserKey)
    requires Grows(w, w') && o in w.frozen && FrozenOk(w, o)
    ensures FrozenOk(w', o)
  {
    KnownGrows(w, w', o);
  }

  lemma RowKept(w: World, w': World, id: Uuid)
    requires Grows(w, w') && id in w.db.operations && RowOk(w, id)
    requires w'.db.operations[id] == w.db.operations[id]
    ensures RowOk(w', id)
  {
    var row := w.db.operations[id];
    if PullOperations.Committed(row.status) {
      CommittedRowGrows(w, w', row);
    }
  }

  lemma CommittedRowGrows(w: World, w': World, row: OperationRow)
    requires Grows(w, w') && row.origin in w.frozen && CommittedRowOk(w, row)
    ensures CommittedRowOk(w', row)
  {
    HistGrows(w, w', KeyOf(row.origin, ContextAt(w, row.origin)));
  }

  lemma EntryGrows(w: World, w': World, key: PityKey, i: nat)
    requires Grows(w, w') && i < |Hist(w, key)| && EntryOk(w, key, i)
    ensures i < |Hist(w', key)| && EntryOk(w', key, i)
  {
    HistGrows(w, w', key);
    KnownGrows(w, w', Hist(w, key)[i].origin);
  }

  lemma EventGrows(w: World, w': World, e: PullCompletedEvent)
    requires Grows(w, w') && EventOk(w, e)
    ensures EventOk(w', e)
  {
    KnownGrows(w, w', e.eventId.origin);
  }

  lemma AnswerGrows(w: World, w': World, a: Answer)
    requires Grows(w, w') && AnswerOk(w, a)
    ensures AnswerOk(w', a)
  {
    KnownGrows(w, w', a.origin);
  }

  lemma JobGrows(w: World, w': World, job: Job)
    requires Grows(w, w') && JobOk(w, job)
    ensures JobOk(w', job)
  {
    KnownGrows(w, w', job.origin);
  }

  lemma DeliveryGrows(w: World, w': World, d: Delivery)
    requires Grows(w, w') && DeliveryOk(w, d)
    ensures DeliveryOk(w', d)
  {
    KnownGrows(w, w', d.origin);
  }

  lemma RefundGrows(w: World, w': World, r: Refund)
    requires Grows(w, w') && RefundOk(w, r)
    ensures RefundOk(w', r)
  {
    KnownGrows(w, w', r.origin);
  }

  lemma CopyGrows(w: World, w': World, id: Uuid, copy: PullOperation)
    requires Grows(w, w') && CopyOk(w, id, copy)
    ensures CopyOk(w', id, copy)
  {
    KnownGrows(w, w', w.db.operations[id].origin);
  }

  lemma OfferGrows(w: World, w': World, o: UserKey, requestHash: RequestHash, context: PullRecoveryContext)
    requires Grows(w, w') && OfferOk(w, o, requestHash, context)
    ensures OfferOk(w', o, requestHash, context)
  {
  }

  lemma AttemptGrows(w: World, w': World, job: Job, attempt: nat, start: nat)
    requires Grows(w, w') && AttemptOk(w, job, attempt, start)
    ensures AttemptOk(w', job, attempt, start)
  {
    JobGrows(w, w', job);
    HistGrows(w, w', KeyOf(job.origin, job.context));
  }

  lemma CandidateGrows(w: World, w': World, job: Job, attempt: nat, start: nat, r: PullResponse)
    requires Grows(w, w') && CandidateOk(w, job, attempt, start, r)
    ensures CandidateOk(w', job, attempt, start, r)
  {
    HistGrows(w, w', KeyOf(job.origin, job.context));
  }

  lemma SpendGrows(w: World, w': World, call: SpendCall)
    requires Grows(w, w') && SpendOk(w, call)
    ensures SpendOk(w', call)
  {
  }

  lemma CreditGrows(w: World, w': World, call: CreditCall)
    requires Grows(w, w') && CreditOk(w, call)
    ensures CreditOk(w', call)
  {
  }

  /** A worker that holds a claimed job. */
  ghost predicate Executing(pc: Pc)
  {
    pc.Charging? || pc.AwaitingCharge? || pc.Rejecting? || pc.ReadingPity? || pc.Committing? || pc.Reconciling?
  }

  ghost predicate Delivering(pc: Pc)
  {
    pc.Publishing? || pc.AwaitingAck? || pc.SavingPublished? || pc.CheckingReceipt? || pc.SavingSucceeded?
  }

  lemma ExecutingGrows(w: World, w': World, pc: Pc)
    requires Grows(w, w') && PcOk(w, pc) && Executing(pc)
    ensures PcOk(w', pc)
  {
    JobGrows(w, w', pc.job);
    if pc.ReadingPity? || pc.Committing? {
      AttemptGrows(w, w', pc.job, pc.attempt, pc.start);
    }
    if pc.Committing? {
      CandidateGrows(w, w', pc.job, pc.attempt, pc.start, pc.response);
    }
  }

  lemma DeliveringGrows(w: World, w': World, pc: Pc)
    requires Grows(w, w') && PcOk(w, pc) && Delivering(pc)
    ensures PcOk(w', pc)
  {
    DeliveryGrows(w, w', pc.delivery);
  }

  lemma PcGrows(w: World, w': World, pc: Pc)
    requires Grows(w, w') && PcOk(w, pc)
    ensures PcOk(w', pc)
  {
    if Executing(pc) {
      ExecutingGrows(w, w', pc);
    } else if Delivering(pc) {
      DeliveringGrows(w, w', pc);
    } else {
      match pc
      case ClaimingPending(id, copy) => CopyGrows(w, w', id, copy);
      case ClaimingRefund(id, _, copy) => CopyGrows(w, w', id, copy);
      case Crediting(r) => RefundGrows(w, w', r);
      case AwaitingCredit(r) => RefundGrows(w, w', r);
      case SavingFailed(r) => RefundGrows(w, w', r);
      case Inserting(o, requestHash, context) => OfferGrows(w, w', o, requestHash, context);
      case Claiming(o, requestHash, context) => OfferGrows(w, w', o, requestHash, context);
      case Selecting(o, requestHash, context) => OfferGrows(w, w', o, requestHash, context);
      case _ =>
    }
  }

  lemma GrowsReflexive(w: World)
    ensures Grows(w, w)
  {
  }

  lemma GrowsTransitive(w: World, w': World, w'': World)
    requires Grows(w, w') && Grows(w', w'')
    ensures Grows(w, w'')
  {
    forall key
      ensures Hist(w, key) <= Hist(w'', key)
    {
      assert Hist(w, key) <= Hist(w', key) <= Hist(w'', key);
    }
  }

  // ---- an action only has to account for what it changed ----------------------------------

  ghost predicate RowChangesOk(w: World, w': World)
  {
    && (forall id :: id in w'.db.operations ==>
          (id in w.db.operations && w'.db.operations[id] == w.db.operations[id]) || RowOk(w', id))
    && (forall o :: o in w'.frozen ==> o in w.frozen || FrozenOk(w', o))
    && w'.db.byUserKey.Keys == w'.frozen.Keys
  }

  ghost predicate HistoryChangesOk(w: World, w': World)
  {
    && (forall key, i {:trigger EntryOk(w', key, i)} ::
          0 <= i < |Hist(w', key)| ==> i < |Hist(w, key)| || EntryOk(w', key, i))
    && (forall key {:trigger PityOk(w', key)} ::
          (StoredPity(w'.db, key) == StoredPity(w.db, key) && |Hist(w', key)| == |Hist(w, key)|) || PityOk(w', key))
  }

  ghost predicate LedgerChangesOk(w: World, w': World)
  {
    var l, l' := w.ledger, w'.ledger;
    && (forall call :: call in l'.spendCalls ==> call in l.spendCalls || SpendOk(w', call))
    && (forall o :: o in l'.charged ==> (o in l.charged && (o in l'.rejected ==> o in l.rejected)) || ChargedOk(w', o))
    && (forall call :: call in l'.creditCalls ==> call in l.creditCalls || CreditOk(w', call))
    && (forall o :: o in l'.credited ==> o in l.credited || CreditedOk(w', o))
  }

  ghost predicate DeliveryChangesOk(w: World, w': World)
  {
    && (forall e :: e in w'.sent ==> e in w.sent || EventOk(w', e))
    && (forall e :: e in w'.log ==> e in w.log || e in w'.sent)
    && (forall o :: o in w'.rewards ==> o in w.rewards || RewardOk(w', o))
    && (forall a :: a in w'.answers ==> a in w.answers || AnswerOk(w', a))
  }

  ghost predicate WorkerChangesOk(w: World, w': World)
  {
    forall i {:trigger WorkerOk(w', i)} :: PcOf(w', i) == PcOf(w, i) || WorkerOk(w', i)
  }

  /** Everything in w' that was not in w satisfies its fact. */
  ghost predicate ChangesOk(w: World, w': World)
  {
    && RowChangesOk(w, w') && HistoryChangesOk(w, w') && LedgerChangesOk(w, w') && DeliveryChangesOk(w, w')
    && WorkerChangesOk(w, w')
  }

  lemma RowsPreserved(w: World, w': World)
    requires RowsInv(w) && Grows(w, w') && RowChangesOk(w, w')
    ensures RowsInv(w')
  {
    forall id | id in w'.db.operations
      ensures RowOk(w', id)
    {
      if id in w.db.operations && w'.db.operations[id] == w.db.operations[id] {
        assert RowOk(w, id);
        RowKept(w, w', id);
      }
    }
    forall o | o in w'.frozen
      ensures FrozenOk(w', o)
    {
      if o in w.frozen {
        assert FrozenOk(w, o);
        FrozenGrows(w, w', o);
      }
    }
  }

  lemma HistoryPreserved(w: World, w': World)
    requires HistoryInv(w) && Grows(w, w') && HistoryChangesOk(w, w')
    ensures HistoryInv(w')
  {
    forall key, i | 0 <= i < |Hist(w', key)|
      ensures EntryOk(w', key, i)
    {
      if i < |Hist(w, key)| {
        assert EntryOk(w, key, i);
        EntryGrows(w, w', key, i);
      }
    }
    forall key
      ensures PityOk(w', key)
    {
      HistGrows(w, w', key);
      assert PityOk(w, key);
    }
  }

  lemma LedgerPreserved(w: World, w': World)
    requires LedgerInv(w) && Grows(w, w') && LedgerChangesOk(w, w')
    ensures LedgerInv(w')
  {
    forall call | call in w'.ledger.spendCalls
      ensures SpendOk(w', call)
    {
      if call in w.ledger.spendCalls {
        assert SpendOk(w, call);
        SpendGrows(w, w', call);
      }
    }
    forall o | o in w'.ledger.charged
      ensures ChargedOk(w', o)
    {
      if o in w.ledger.charged {
        assert ChargedOk(w, o);
      }
    }
    forall call | call in w'.ledger.creditCalls
      ensures CreditOk(w', call)
    {
      if call in w.ledger.creditCalls {
        assert CreditOk(w, call);
        CreditGrows(w, w', call);
      }
    }
    forall o | o in w'.ledger.credited
      ensures CreditedOk(w', o)
    {
      if o in w.ledger.credited {
        assert CreditedOk(w, o);
      }
    }
  }

  lemma DeliveryPreserved(w: World, w': World)
    requires DeliveryInv(w) && Grows(w, w') && DeliveryChangesOk(w, w')
    ensures DeliveryInv(w')
  {
    forall e | e in w'.sent
      ensures EventOk(w', e)
    {
      if e in w.sent {
        assert EventOk(w, e);
        EventGrows(w, w', e);
      }
    }
    forall a | a in w'.answers
      ensures AnswerOk(w', a)
    {
      if a in w.answers {
        assert AnswerOk(w, a);
        AnswerGrows(w, w', a);
      }
    }
    forall o | o in w'.rewards
      ensures RewardOk(w', o)
    {
      if o in w.rewards {
        assert RewardOk(w, o) && w.log <= w'.log;
      }
    }
  }

  lemma WorkersPreserved(w: World, w': World)
    requires WorkersInv(w) && Grows(w, w') && WorkerChangesOk(w, w')
    ensures WorkersInv(w')
  {
    forall i
      ensures WorkerOk(w', i)
    {
      if PcOf(w', i) == PcOf(w, i) {
        assert WorkerOk(w, i);
        PcGrows(w, w', PcOf(w, i));
      }
    }
  }

  lemma Preserved(w: World, w': World)
    requires Inv(w) && Grows(w, w') && ChangesOk(w, w')
    ensures Inv(w')
  {
    RowsPreserved(w, w');
    HistoryPreserved(w, w');
    LedgerPreserved(w, w');
    DeliveryPreserved(w, w');
    WorkersPreserved(w, w');
  }

  lemma InitInv(w: World)
    requires Init(w)
    ensures Inv(w)
  {
  }
}
