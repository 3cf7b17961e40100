/** What single actions can do: who moves, who owns an operation, and how its status moves. */
module Steps {
  import opened Collections
  import opened CatalogConfig
  import opened Schemas
  import opened PullOperations
  import opened Store
  import opened Protocol
  import opened Invariant
  import opened Safety

  /** The worker that takes an action, if it is not the outside's. */
  function ActorOf(a: Action): (i: Option<nat>)
  {
    if IsOutside(a) then None else Some(a.i)
  }

  // ---- who moves, and with which token ----------------------------------------------------

  /** A worker goes on with the job it has, starts one with a fresh token, or holds none. */
  ghost predicate JobStep(w: World, pc: Pc, pc': Pc)
  {
    Executing(pc') ==> (Executing(pc) && pc'.job == pc.job) || pc'.job.token !in w.issued
  }

  /** A row keeps its token, loses it, or gets a fresh one. */
  ghost predicate TokenStep(w: World, row: OperationRow, row': OperationRow)
  {
    row'.token == row.token || row'.token.None? || row'.token.value !in w.issued
  }

  ghost function TargetId(db: Database, target: Target): (id: Option<Uuid>)
  {
    match target
    case ById(id) => Some(id)
    case ByUserKey(origin) => if origin in db.byUserKey then Some(db.byUserKey[origin]) else None
  }

  /** A status changes only to failed, to event_pending by a commit of its own operation on the
      stored pity version, or by the save of the delivery whose row it is. */
  ghost predicate StatusMove(w: World, pc: Pc, id: Uuid, row: OperationRow, row': OperationRow)
  {
    || row'.status == row.status || row'.status.Failed?
    || (row'.status.EventPending? && pc.Committing? && pc.job.id == id
        && StoredPity(w.db, KeyOf(pc.job.origin, pc.job.context)).version == pc.response.previousPity.version)
    || (row'.status.EventPublished? && pc.SavingPublished? && TargetId(w.db, pc.delivery.target) == Some(id))
    || (row'.status.Succeeded? && pc.SavingSucceeded? && TargetId(w.db, pc.delivery.target) == Some(id))
  }

  ghost predicate RowMove(w: World, pc: Pc, id: Uuid, row': OperationRow)
  {
    id in w.db.operations ==>
      TokenStep(w, w.db.operations[id], row') && StatusMove(w, pc, id, w.db.operations[id], row')
  }

  ghost predicate RowsStep(w: World, w': World, pc: Pc)
  {
    forall id :: id in w.db.operations && id in w'.db.operations ==> RowMove(w, pc, id, w'.db.operations[id])
  }

  /** The context a snapshot the service can have makes of some request of this key. */
  ghost predicate Requested(w: World, o: UserKey, context: PullRecoveryContext)
  {
    exists source, bannerId, count, seed, acceptedAt, version, sha ::
      && SnapshotOf(w, source).Ok?
      && RequestContext(SnapshotOf(w, source).value, o, bannerId, count, seed, acceptedAt, version, sha)
         == Ok(Some(context))
  }

  /** A worker offers a context it made of its request, or one that a row already keeps. */
  ghost predicate OfferStep(w: World, pc: Pc, pc': Pc)
  {
    pc'.Inserting? ==> pc' == pc || pc'.origin in w.db.byUserKey || Requested(w, pc'.origin, pc'.context)
  }

  /** Contexts are frozen by the insertion of their row, and never again; workers do not touch
      releases. */
  ghost predicate FrozenStep(w: World, w': World, pc: Pc)
  {
    && w'.releases == w.releases
    && (|| w'.frozen == w.frozen
        || (pc.Inserting? && pc.origin !in w.db.byUserKey
            && w'.frozen == w.frozen[pc.origin := Frozen(pc.context, "")]))
  }

  /** Only worker i moves, and it changes rows and contexts only this way. */
  ghost predicate Step(w: World, w': World, i: nat)
  {
    && (forall j :: j != i ==> PcOf(w', j) == PcOf(w, j))
    && JobStep(w, PcOf(w, i), PcOf(w', i)) && OfferStep(w, PcOf(w, i), PcOf(w', i))
    && FrozenStep(w, w', PcOf(w, i))
    && RowsStep(w, w', PcOf(w, i))
  }

  lemma GoStep(w: World, i: nat, pc: Pc)
    requires JobStep(w, PcOf(w, i), pc) && OfferStep(w, PcOf(w, i), pc)
    ensures Step(w, Go(w, i, pc), i) && Step(w, w, i)
  {
  }

  lemma PutStep(w: World, w': World, i: nat, pc: Pc, id: Uuid, row': OperationRow)
    requires w'.workers == w.workers[i := pc] && JobStep(w, PcOf(w, i), pc) && !pc.Inserting?
    requires FrozenStep(w, w', PcOf(w, i))
    requires w'.db.operations == w.db.operations[id := row']
    requires RowMove(w, PcOf(w, i), id, row')
    ensures Step(w, w', i)
  {
  }

  lemma KeptStep(w: World, w': World, i: nat, pc: Pc)
    requires w'.workers == w.workers[i := pc] && JobStep(w, PcOf(w, i), pc) && !pc.Inserting?
    requires FrozenStep(w, w', PcOf(w, i))
    requires w'.db.operations == w.db.operations
    ensures Step(w, w', i)
  {
  }

  lemma StartStep(w: World, i: nat, origin: UserKey, request: PullRequest, source: Source, acceptedAt: Time,
                  engineVersion: string, engineBuildSha: string)
    ensures Step(w, DoStart(w, i, origin, request, source, acceptedAt, engineVersion, engineBuildSha), i)
  {
    GoStep(w, i, Idle);
    if PcOf(w, i).Idle? && request.count in {1, 10} && SnapshotOf(w, source).Ok? {
      var seed := if request.seed.Some? then request.seed.value else w.seedOf(origin);
      var requestHash := RequestHash(request.bannerId, request.count, seed);
      match RequestContext(SnapshotOf(w, source).value, origin, request.bannerId, request.count, seed, acceptedAt,
                           engineVersion, engineBuildSha)
      case Err(_) =>
      case Ok(None) => GoStep(w, i, LookingUp(origin, requestHash));
      case Ok(Some(context)) =>
        assert Requested(w, origin, context);
        GoStep(w, i, Inserting(origin, requestHash, context));
    }
  }

  lemma ReactStep(w: World, i: nat, target: Target, origin: UserKey, requestHash: RequestHash, copy: PullOperation,
                  charge: Charge)
    ensures Step(w, DoReact(w, i, origin, requestHash, React(target, origin, requestHash, copy, charge)), i)
  {
    match React(target, origin, requestHash, copy, charge)
    case Next(pc) => GoStep(w, i, pc);
    case Respond(response) => KeptStep(w, DoReact(w, i, origin, requestHash, Respond(response)), i, Idle);
  }

  lemma LookUpStep(w: World, i: nat)
    ensures Step(w, DoLookUp(w, i), i)
  {
    GoStep(w, i, Idle);
    match PcOf(w, i)
    case LookingUp(origin, requestHash) =>
      match RowOf(w.db, origin) {
        case None =>
        case Some(row) =>
         if row.context.Some? {
           GoStep(w, i, Inserting(origin, requestHash, row.context.value));
         } else {
           ReactStep(w, i, ByUserKey(origin), origin, requestHash, OperationOf(row),
                     RequestCharge(origin, requestHash, OperationOf(row)));
          }
      }
    case _ =>
  }

  lemma SelectStep(w: World, i: nat)
    ensures Step(w, DoSelect(w, i), i)
  {
    GoStep(w, i, Idle);
    match PcOf(w, i)
    case Selecting(origin, requestHash, context) =>
      match RowOf(w.db, origin) {
        case None =>
        case Some(row) =>
         var claimed := if row.context.Some? then row.context.value else context;
         ReactStep(w, i, ByUserKey(origin), origin, requestHash, OperationOf(row), ChargeOf(claimed));
      }
    case _ =>
  }

  /** A claim or insertion that stores nothing only uses up its token. */
  lemma TokenUsedStep(w: World, i: nat, token: Uuid, pc: Pc)
    requires !Executing(pc) && !pc.Inserting?
    ensures Step(w, Go(w.(issued := w.issued + {token}), i, pc), i)
  {
    KeptStep(w, Go(w.(issued := w.issued + {token}), i, pc), i, pc);
  }

  lemma InsertLands(w: World, i: nat, id: Uuid, token: Uuid, until: Time, now: Time, fate: Fate)
    requires PcOf(w, i).Inserting? && id !in w.db.operations && token !in w.issued && !fate.Dropped?
    requires PcOf(w, i).origin !in w.db.byUserKey
    ensures var Inserting(origin, requestHash, context) := PcOf(w, i);
            var w' := DoInsert(w, i, id, token, until, now, fate);
            && w'.workers
               == w.workers[i := if fate.Acked? then Charging(Job(id, origin, requestHash, token, context)) else Idle]
            && w'.releases == w.releases && w'.frozen == w.frozen[origin := Frozen(context, "")]
            && id in w'.db.operations && w'.db.operations == w.db.operations[id := w'.db.operations[id]]
  {
  }

  lemma InsertStep(w: World, i: nat, id: Uuid, token: Uuid, until: Time, now: Time, fate: Fate)
    ensures Step(w, DoInsert(w, i, id, token, until, now, fate), i)
  {
    GoStep(w, i, Idle);
    if PcOf(w, i).Inserting? && id !in w.db.operations && token !in w.issued {
      var Inserting(origin, requestHash, context) := PcOf(w, i);
      TokenUsedStep(w, i, token, Idle);
      TokenUsedStep(w, i, token, Claiming(origin, requestHash, context));
      if origin !in w.db.byUserKey && !fate.Dropped? {
        var w' := DoInsert(w, i, id, token, until, now, fate);
        InsertLands(w, i, id, token, until, now, fate);
        PutStep(w, w', i, w'.workers[i], id, w'.db.operations[id]);
      }
    }
  }

  lemma ClaimLands(w: World, i: nat, token: Uuid, until: Time, now: Time, fate: Fate)
    requires PcOf(w, i).Claiming? && token !in w.issued && !fate.Dropped?
    requires var Claiming(origin, requestHash, context) := PcOf(w, i);
             Claim(w.db, origin, requestHash, token, until, context, now).Some?
    ensures var Claiming(origin, requestHash, context) := PcOf(w, i);
            var w', id := DoClaim(w, i, token, until, now, fate), w.db.byUserKey[origin];
            && i in w'.workers && w'.workers == w.workers[i := w'.workers[i]]
            && (Executing(w'.workers[i]) ==> w'.workers[i].job.token == token) && !w'.workers[i].Inserting?
            && w'.releases == w.releases && w'.frozen == w.frozen && id in w'.db.operations
            && w'.db.operations == w.db.operations[id := w'.db.operations[id]]
            && w'.db.operations[id].token == Some(token)
            && w'.db.operations[id].status == w.db.operations[id].status
  {
  }

  lemma ClaimStep(w: World, i: nat, token: Uuid, until: Time, now: Time, fate: Fate)
    ensures Step(w, DoClaim(w, i, token, until, now, fate), i)
  {
    GoStep(w, i, Idle);
    if PcOf(w, i).Claiming? && token !in w.issued {
      var Claiming(origin, requestHash, context) := PcOf(w, i);
      TokenUsedStep(w, i, token, Idle);
      TokenUsedStep(w, i, token, Selecting(origin, requestHash, context));
      if Claim(w.db, origin, requestHash, token, until, context, now).Some? && !fate.Dropped? {
        var w', id := DoClaim(w, i, token, until, now, fate), w.db.byUserKey[origin];
        ClaimLands(w, i, token, until, now, fate);
        PutStep(w, w', i, w'.workers[i], id, w'.db.operations[id]);
      }
    }
  }

  lemma RequestStep(w: World, a: Action)
    requires IsRequest(a)
    ensures Step(w, ApplyRequest(w, a), a.i)
  {
    match a
    case Crash(i) => GoStep(w, i, Idle);
    case Start(i, origin, request, source, acceptedAt, version, sha) =>
      StartStep(w, i, origin, request, source, acceptedAt, version, sha);
    case LookUp(i) => LookUpStep(w, i);
    case InsertRow(i, id, token, until, now, fate) => InsertStep(w, i, id, token, until, now, fate);
    case ClaimRow(i, token, until, now, fate) => ClaimStep(w, i, token, until, now, fate);
    case SelectRow(i) => SelectStep(w, i);
  }

  lemma FailStep(w: World, i: nat, now: Time, fate: Fate)
    ensures Step(w, DoFail(w, i, now, fate), i)
  {
    GoStep(w, i, Idle);
    if PcOf(w, i).Rejecting? {
      var Rejecting(job, code) := PcOf(w, i);
      var r := Transition(w.db, job.id, job.origin.user, job.requestHash, job.token,
                          FailedOperation(job.requestHash, code), now);
      if r.Ok? && !fate.Dropped? {
        PutStep(w, DoFail(w, i, now, fate), i, Idle, job.id, r.value.operations[job.id]);
      }
    }
  }

  lemma ReadPityStep(w: World, i: nat, answered: bool)
    ensures Step(w, DoReadPity(w, i, answered), i)
  {
    GoStep(w, i, Idle);
    if PcOf(w, i).ReadingPity? {
      var ReadingPity(job, attempt, start) := PcOf(w, i);
      var previous := StoredPity(w.db, PityKey(job.origin.user, job.context.pityGroupId));
      GoStep(w, i, Reconciling(job));
      match w.engine(job.context, previous.pity)
      case Err(_) =>
      case Ok(batch) => GoStep(w, i, Committing(job, attempt, start, MakeResponse(job.context, previous, batch)));
    }
  }

  lemma MissedCommitGoes(w: World, i: nat, now: Time, fate: Fate) returns (pc: Pc)
    requires PcOf(w, i).Committing?
    requires CommitOutcomeOf(w, PcOf(w, i).job, PcOf(w, i).response, now).CommitDone? ==> fate.Dropped?
    ensures DoCommit(w, i, now, fate) == Go(w, i, pc)
    ensures !pc.Inserting? && (Executing(pc) ==> pc.job == PcOf(w, i).job)
  {
    var Committing(job, attempt, start, response) := PcOf(w, i);
    match CommitOutcomeOf(w, job, response, now)
    case CommitDone(_) => pc := Reconciling(job);
    case VersionConflict(_) =>
      pc := if !fate.Acked? then Reconciling(job)
            else if attempt < PITY_COMMIT_MAX_ATTEMPTS then ReadingPity(job, attempt + 1, start) else Idle;
    case NotOwner => pc := if fate.Acked? then Idle else Reconciling(job);
    case CommitFailed => pc := Reconciling(job);
  }

  lemma CommitDoneStep(w: World, i: nat, now: Time, fate: Fate)
    requires PcOf(w, i).Committing? && !fate.Dropped?
    requires CommitOutcomeOf(w, PcOf(w, i).job, PcOf(w, i).response, now).CommitDone?
    ensures Step(w, DoCommit(w, i, now, fate), i)
  {
    var Committing(job, attempt, start, response) := PcOf(w, i);
    var w' := DoCommit(w, i, now, fate);
    var row' := Saved(w.db.operations[job.id], CommittedOperation(job, response), now);
    PutStep(w, w', i, w'.workers[i], job.id, row');
  }

  lemma CommitStep(w: World, i: nat, now: Time, fate: Fate)
    ensures Step(w, DoCommit(w, i, now, fate), i)
  {
    GoStep(w, i, Idle);
    if PcOf(w, i).Committing? {
      if CommitOutcomeOf(w, PcOf(w, i).job, PcOf(w, i).response, now).CommitDone? && !fate.Dropped? {
        CommitDoneStep(w, i, now, fate);
      } else {
        var pc := MissedCommitGoes(w, i, now, fate);
        GoStep(w, i, pc);
      }
    }
  }

  lemma ReconcileStep(w: World, i: nat, answered: bool)
    ensures Step(w, DoReconcile(w, i, answered), i)
  {
    GoStep(w, i, Idle);
    if PcOf(w, i).Reconciling? && DoReconcile(w, i, answered) != Go(w, i, Idle) {
      var job := PcOf(w, i).job;
      ReactStep(w, i, ById(job.id), job.origin, job.requestHash, OperationOf(w.db.operations[job.id]),
                ChargeOf(job.context));
    }
  }

  lemma SendSpendStep(w: World, i: nat)
    ensures Step(w, DoSendSpend(w, i), i)
  {
    GoStep(w, i, Idle);
    if PcOf(w, i).Charging? {
      KeptStep(w, DoSendSpend(w, i), i, AwaitingCharge(PcOf(w, i).job));
    }
  }

  lemma HearSpendStep(w: World, i: nat, reply: SpendReply)
    ensures Step(w, DoHearSpend(w, i, reply), i)
  {
    GoStep(w, i, Idle);
    if PcOf(w, i).AwaitingCharge? {
      var job := PcOf(w, i).job;
      match reply
      case SpendAccepted =>
        GoStep(w, i, ReadingPity(job, 1, |Hist(w, PityKey(job.origin.user, job.context.pityGroupId))|));
      case SpendRejected(code) => GoStep(w, i, Rejecting(job, code));
      case SpendUnknown =>
    }
  }

  lemma ExecutionStep(w: World, a: Action)
    requires IsExecution(a)
    ensures Step(w, ApplyExecution(w, a), a.i)
  {
    match a
    case SendSpend(i) => SendSpendStep(w, i);
    case HearSpend(i, reply) => HearSpendStep(w, i, reply);
    case Fail(i, now, fate) => FailStep(w, i, now, fate);
    case ReadPity(i, answered) => ReadPityStep(w, i, answered);
    case CommitPull(i, now, fate) => CommitStep(w, i, now, fate);
    case Reconcile(i, answered) => ReconcileStep(w, i, answered);
  }

  lemma SavedStep(w: World, w': World, i: nat, target: Target, operation: PullOperation, now: Time, fate: Fate)
    requires w'.db == Attempted(w.db, target, operation, now, fate)
    requires i in w'.workers && w'.workers == w.workers[i := w'.workers[i]]
    requires w'.frozen == w.frozen && w'.releases == w.releases
    requires !Executing(w'.workers[i]) && !w'.workers[i].Inserting?
    requires || operation.status.Failed?
             || (operation.status.EventPublished? && PcOf(w, i).SavingPublished?
                 && PcOf(w, i).delivery.target == target)
             || (operation.status.Succeeded? && PcOf(w, i).SavingSucceeded? && PcOf(w, i).delivery.target == target)
    ensures Step(w, w', i)
  {
    if w'.db == w.db {
      KeptStep(w, w', i, w'.workers[i]);
    } else {
      var id := if target.ById? then target.id else w.db.byUserKey[target.origin];
      PutStep(w, w', i, w'.workers[i], id, Saved(w.db.operations[id], operation, now));
    }
  }

  lemma SendEventStep(w: World, i: nat)
    ensures Step(w, DoSendEvent(w, i), i)
  {
    GoStep(w, i, Idle);
    if PcOf(w, i).Publishing? {
      KeptStep(w, DoSendEvent(w, i), i, AwaitingAck(PcOf(w, i).delivery, PcOf(w, i).tries));
    }
  }

  lemma HearAckStep(w: World, i: nat, acked: bool)
    ensures Step(w, DoHearAck(w, i, acked), i)
  {
    GoStep(w, i, Idle);
    if PcOf(w, i).AwaitingAck? {
      var AwaitingAck(d, tries) := PcOf(w, i);
      if acked && !d.purpose.Redeliver? {
        GoStep(w, i, SavingPublished(d));
      } else if !acked && tries + 1 < PUBLISH_MAX_ATTEMPTS {
        GoStep(w, i, Publishing(d, tries + 1));
      } else {
        GoStep(w, i, Ended(d));
      }
    }
  }

  lemma SavePublishedStep(w: World, i: nat, now: Time, fate: Fate)
    ensures Step(w, DoSavePublished(w, i, now, fate), i)
  {
    GoStep(w, i, Idle);
    if PcOf(w, i).SavingPublished? {
      var d := PcOf(w, i).delivery;
      var db' := Attempted(w.db, d.target, Delivered(d, EventPublished), now, fate);
      SavedStep(w, Go(w, i, Ended(d)).(db := db', answers := w.answers + ReplyOf(d)), i, d.target,
                Delivered(d, EventPublished), now, fate);
    }
  }

  lemma SaveSucceededStep(w: World, i: nat, now: Time, fate: Fate)
    ensures Step(w, DoSaveSucceeded(w, i, now, fate), i)
  {
    GoStep(w, i, Idle);
    if PcOf(w, i).SavingSucceeded? {
      var d := PcOf(w, i).delivery;
      SavedStep(w, DoSaveSucceeded(w, i, now, fate), i, d.target, Delivered(d, Succeeded), now, fate);
    }
  }

  lemma ScanPendingStep(w: World, i: nat, id: Uuid)
    ensures Step(w, DoScanPending(w, i, id), i)
  {
    GoStep(w, i, Idle);
    if DoScanPending(w, i, id) != w {
      GoStep(w, i, ClaimingPending(id, OperationOf(w.db.operations[id])));
    }
  }

  lemma HearReceiptStep(w: World, i: nat, answered: bool)
    ensures Step(w, DoHearReceipt(w, i, answered), i)
  {
    GoStep(w, i, Idle);
    if PcOf(w, i).CheckingReceipt? {
      var d := PcOf(w, i).delivery;
      GoStep(w, i, if !answered then Ended(d)
                   else if d.event.eventId.origin in w.rewards then SavingSucceeded(d) else Publishing(d, 0));
    }
  }

  ghost predicate Locked(w: World, w': World, i: nat, id: Uuid, until: Time, now: Time)
  {
    && i in w'.workers && w'.workers == w.workers[i := w'.workers[i]]
    && !Executing(w'.workers[i]) && !w'.workers[i].Inserting?
    && w'.releases == w.releases && w'.frozen == w.frozen && id in w.db.operations
    && w'.db == Put(w.db, id, w.db.operations[id].(lockedUntil := Some(until), updatedAt := now))
  }

  /** A recovery lock on a row, taken by a worker that goes on without a job. */
  lemma LockedStep(w: World, w': World, i: nat, id: Uuid, until: Time, now: Time)
    requires Locked(w, w', i, id, until, now)
    ensures Step(w, w', i)
  {
    PutStep(w, w', i, w'.workers[i], id, w'.db.operations[id]);
  }

  lemma TakePendingLocks(w: World, i: nat, until: Time, now: Time, fate: Fate)
    requires PcOf(w, i).ClaimingPending? && !fate.Dropped?
    requires PcOf(w, i).copy.response.Some? && PcOf(w, i).copy.event.Some?
    requires Store.ClaimPending(w.db, PcOf(w, i).id, PcOf(w, i).copy.status, until, now).Some?
    ensures Locked(w, DoTakePending(w, i, until, now, fate), i, PcOf(w, i).id, until, now)
  {
  }

  lemma TakePendingStep(w: World, i: nat, until: Time, now: Time, fate: Fate)
    ensures Step(w, DoTakePending(w, i, until, now, fate), i)
  {
    GoStep(w, i, Idle);
    if PcOf(w, i).ClaimingPending? {
      var ClaimingPending(id, copy) := PcOf(w, i);
      if copy.response.Some? && copy.event.Some? && !fate.Dropped?
         && Store.ClaimPending(w.db, id, copy.status, until, now).Some? {
        TakePendingLocks(w, i, until, now, fate);
        LockedStep(w, DoTakePending(w, i, until, now, fate), i, id, until, now);
      }
    }
  }

  lemma DeliveryStep(w: World, a: Action)
    requires IsDelivery(a)
    ensures Step(w, ApplyDelivery(w, a), a.i)
  {
    match a
    case SendEvent(i) => SendEventStep(w, i);
    case HearAck(i, acked) => HearAckStep(w, i, acked);
    case SavePublished(i, now, fate) => SavePublishedStep(w, i, now, fate);
    case ScanPending(i, id) => ScanPendingStep(w, i, id);
    case TakePending(i, until, now, fate) => TakePendingStep(w, i, until, now, fate);
    case HearReceipt(i, answered) => HearReceiptStep(w, i, answered);
    case SaveSucceeded(i, now, fate) => SaveSucceededStep(w, i, now, fate);
  }

  lemma ScanExpiredStep(w: World, i: nat, id: Uuid, now: Time)
    ensures Step(w, DoScanExpired(w, i, id, now), i)
  {
    GoStep(w, i, ClaimingExpired(id));
  }

  lemma TakeExpiredLands(w: World, i: nat, token: Uuid, until: Time, now: Time, fate: Fate)
    requires PcOf(w, i).ClaimingExpired? && token !in w.issued && !fate.Dropped?
    requires Store.ClaimExpired(w.db, PcOf(w, i).id, token, until, now).Some?
    ensures var w', id := DoTakeExpired(w, i, token, until, now, fate), PcOf(w, i).id;
            && i in w'.workers && w'.workers == w.workers[i := w'.workers[i]]
            && (Executing(w'.workers[i]) ==> w'.workers[i].job.token == token) && !w'.workers[i].Inserting?
            && w'.releases == w.releases && w'.frozen == w.frozen && id in w'.db.operations
            && w'.db.operations == w.db.operations[id := w'.db.operations[id]]
            && w'.db.operations[id].token == Some(token)
            && w'.db.operations[id].status == w.db.operations[id].status
  {
  }

  lemma TakeExpiredStep(w: World, i: nat, token: Uuid, until: Time, now: Time, fate: Fate)
    ensures Step(w, DoTakeExpired(w, i, token, until, now, fate), i)
  {
    GoStep(w, i, Idle);
    if PcOf(w, i).ClaimingExpired? && token !in w.issued {
      var id := PcOf(w, i).id;
      TokenUsedStep(w, i, token, Idle);
      if Store.ClaimExpired(w.db, id, token, until, now).Some? && !fate.Dropped? {
        var w' := DoTakeExpired(w, i, token, until, now, fate);
        TakeExpiredLands(w, i, token, until, now, fate);
        PutStep(w, w', i, w'.workers[i], id, w'.db.operations[id]);
      }
    }
  }

  lemma ScanRefundStep(w: World, i: nat, id: Uuid)
    ensures Step(w, DoScanRefund(w, i, id), i)
  {
    GoStep(w, i, Idle);
    if DoScanRefund(w, i, id) != w {
      GoStep(w, i, ClaimingRefund(id, w.db.operations[id].origin.user, OperationOf(w.db.operations[id])));
    }
  }

  lemma TakeRefundLocks(w: World, i: nat, until: Time, now: Time, fate: Fate)
    requires PcOf(w, i).ClaimingRefund? && !fate.Dropped? && PcOf(w, i).copy.recoveryContext.Some?
    requires Store.ClaimPending(w.db, PcOf(w, i).id, RefundPending, until, now).Some?
    ensures Locked(w, DoTakeRefund(w, i, until, now, fate), i, PcOf(w, i).id, until, now)
  {
  }

  lemma TakeRefundStep(w: World, i: nat, until: Time, now: Time, fate: Fate)
    ensures Step(w, DoTakeRefund(w, i, until, now, fate), i)
  {
    GoStep(w, i, Idle);
    if PcOf(w, i).ClaimingRefund? {
      var ClaimingRefund(id, _, copy) := PcOf(w, i);
      if copy.recoveryContext.Some? && !fate.Dropped?
         && Store.ClaimPending(w.db, id, RefundPending, until, now).Some? {
        TakeRefundLocks(w, i, until, now, fate);
        LockedStep(w, DoTakeRefund(w, i, until, now, fate), i, id, until, now);
      }
    }
  }

  lemma SendCreditStep(w: World, i: nat)
    ensures Step(w, DoSendCredit(w, i), i)
  {
    GoStep(w, i, Idle);
    if PcOf(w, i).Crediting? {
      KeptStep(w, DoSendCredit(w, i), i, AwaitingCredit(PcOf(w, i).refund));
    }
  }

  lemma HearCreditStep(w: World, i: nat, answered: bool)
    ensures Step(w, DoHearCredit(w, i, answered), i)
  {
    GoStep(w, i, Idle);
    if PcOf(w, i).AwaitingCredit? {
      var refund := PcOf(w, i).refund;
      GoStep(w, i, if answered then SavingFailed(refund) else RefundEnded(refund));
    }
  }

  lemma SaveFailedStep(w: World, i: nat, now: Time, fate: Fate)
    ensures Step(w, DoSaveFailed(w, i, now, fate), i)
  {
    GoStep(w, i, Idle);
    if PcOf(w, i).SavingFailed? {
      var r := PcOf(w, i).refund;
      SavedStep(w, DoSaveFailed(w, i, now, fate), i, r.target, FailedOperation(r.requestHash, r.call.reason), now,
                fate);
    }
  }

  lemma ReleaseLockStep(w: World, i: nat, now: Time, fate: Fate)
    ensures Step(w, DoReleaseLock(w, i, now, fate), i)
  {
    GoStep(w, i, Idle);
    if PcOf(w, i).Releasing? && !fate.Dropped? {
      var id := PcOf(w, i).id;
      var w' := Go(w, i, Idle).(db := Store.Release(w.db, id, now));
      if w'.db != w.db {
        PutStep(w, w', i, Idle, id, w.db.operations[id].(lockedUntil := None, updatedAt := now));
      }
    }
  }

  lemma RecoveryStep(w: World, a: Action)
    requires IsRecovery(a)
    ensures Step(w, ApplyRecovery(w, a), a.i)
  {
    match a
    case ScanExpired(i, id, now) => ScanExpiredStep(w, i, id, now);
    case TakeExpired(i, token, until, now, fate) => TakeExpiredStep(w, i, token, until, now, fate);
    case ScanRefund(i, id) => ScanRefundStep(w, i, id);
    case TakeRefund(i, until, now, fate) => TakeRefundStep(w, i, until, now, fate);
    case SendCredit(i) => SendCreditStep(w, i);
    case HearCredit(i, answered) => HearCreditStep(w, i, answered);
    case SaveFailed(i, now, fate) => SaveFailedStep(w, i, now, fate);
    case ReleaseLock(i, now, fate) => ReleaseLockStep(w, i, now, fate);
  }

  // ---- whole actions ----------------------------------------------------------------------

  lemma AppliesRequest(w: World, a: Action)
    requires IsRequest(a)
    ensures Apply(w, a) == ApplyRequest(w, a)
  {
  }

  lemma AppliesExecution(w: World, a: Action)
    requires IsExecution(a)
    ensures Apply(w, a) == ApplyExecution(w, a)
  {
  }

  lemma AppliesDelivery(w: World, a: Action)
    requires IsDelivery(a)
    ensures Apply(w, a) == ApplyDelivery(w, a)
  {
    assert !IsRequest(a) && !IsExecution(a);
  }

  lemma AppliesRecovery(w: World, a: Action)
    requires IsRecovery(a)
    ensures Apply(w, a) == ApplyRecovery(w, a)
  {
    assert !IsRequest(a) && !IsExecution(a) && !IsDelivery(a);
  }

  lemma AppliesOutside(w: World, a: Action)
    requires IsOutside(a)
    ensures Apply(w, a) == ApplyOutside(w, a)
  {
    assert !IsRequest(a) && !IsExecution(a) && !IsDelivery(a) && !IsRecovery(a);
  }

  lemma ActionStep(w: World, a: Action)
    requires ActorOf(a).Some?
    ensures Step(w, Apply(w, a), a.i)
  {
    if IsRequest(a) {
      RequestStep(w, a);
    } else if IsExecution(a) {
      ExecutionStep(w, a);
    } else if IsDelivery(a) {
      DeliveryStep(w, a);
    } else {
      RecoveryStep(w, a);
    }
  }

  /** What the outside does touches neither workers nor rows. */
  ghost predicate Untouched(w: World, w': World)
  {
    w'.workers == w.workers && w'.db == w.db && w'.frozen == w.frozen
  }

  lemma ChargeTouchesLedger(w: World, spend: SpendCall)
    ensures Untouched(w, DoLedgerCharge(w, spend))
  {
  }

  lemma RejectTouchesLedger(w: World, spend: SpendCall)
    ensures Untouched(w, DoLedgerReject(w, spend))
  {
  }

  lemma CreditTouchesLedger(w: World, credit: CreditCall)
    ensures Untouched(w, DoLedgerCredit(w, credit))
  {
  }

  lemma EventsTouchNoRow(w: World, event: PullCompletedEvent)
    ensures Untouched(w, DoLogAppend(w, event)) && Untouched(w, DoBackpackApply(w, event))
  {
  }

  lemma OutsideKeeps(w: World, a: Action)
    requires IsOutside(a)
    ensures Untouched(w, ApplyOutside(w, a))
  {
    match a
    case LedgerCharge(spend) => ChargeTouchesLedger(w, spend);
    case LedgerReject(spend) => RejectTouchesLedger(w, spend);
    case LedgerCredit(credit) => CreditTouchesLedger(w, credit);
    case LogAppend(event) => EventsTouchNoRow(w, event);
    case BackpackApply(event) => EventsTouchNoRow(w, event);
    case PublishRelease(release) =>
  }

  lemma OutsideStep(w: World, a: Action)
    requires ActorOf(a).None?
    ensures Untouched(w, Apply(w, a))
  {
    assert !IsRequest(a) && !IsExecution(a) && !IsDelivery(a) && !IsRecovery(a);
    OutsideKeeps(w, a);
  }
}
