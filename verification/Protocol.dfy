/** The durable pull protocol: request handlers and recovery workers of `main.py`, the store,
    Asset's ledger, Kafka's log and Backpack, as one transition system.

    A worker is a program counter with its local variables.  Every SQL statement or transaction
    is one action; an external call is a request put on the wire, an effect its server applies
    whenever it likes (even after the caller gave up), and a reply that may be lost.  Workers
    crash between any two actions.  An action carries every choice the environment makes, so a
    run is a sequence of actions; an action that is not enabled changes nothing. */
module Protocol {
  import opened Collections
  import opened CatalogConfig
  import opened Schemas
  import opened Engine
  import opened PullOperations
  import opened PullAudit
  import opened CatalogAssembly
  import opened CatalogRepository
  import opened Store

  const ASTRITE_PER_PULL := 160
  const PITY_COMMIT_MAX_ATTEMPTS := 5
  const PUBLISH_MAX_ATTEMPTS := 3

  // ---- calls to the outside ---------------------------------------------------------------

  /** `pull_asset_metadata` */
  datatype Metadata = Metadata(eventId: EventId, bannerId: string, pityGroupId: Option<string>,
                               bannerVersionId: Option<string>, count: int, audit: Option<PullAuditMetadata>)

  /** The idempotency key (one per event id), the amount and the metadata of a ledger entry. */
  datatype Charge = Charge(eventId: EventId, amountMinor: int, metadata: Metadata)

  function ChargeOf(context: PullRecoveryContext): (charge: Charge)
  {
    Charge(context.eventId, context.amountMinor,
           Metadata(context.eventId, context.banner.id, Some(context.pityGroupId), context.bannerVersionId,
                    context.count, context.audit))
  }

  datatype SpendCall = SpendCall(user: Uuid, charge: Charge)
  datatype CreditCall = CreditCall(user: Uuid, charge: Charge, reason: string)

  /** Asset: the calls ever put on the wire, and what the ledger made of each key. */
  datatype Ledger = Ledger(
    spendCalls: set<SpendCall>,
    charged: map<UserKey, SpendCall>,
    rejected: set<UserKey>,
    creditCalls: set<CreditCall>,
    credited: map<UserKey, CreditCall>)

  function MakeResponse(context: PullRecoveryContext, previous: PitySnapshot, batch: Batch): (r: PullResponse)
  {
    var next := PitySnapshot(batch.pity, previous.version + 1);
    PullResponse(context.eventId, context.acceptedAt, context.pityGroupId, context.bannerVersionId, context.seed,
                 batch.records, previous, next, next.version, context.audit)
  }

  function MakeEvent(user: Uuid, context: PullRecoveryContext, r: PullResponse): (e: PullCompletedEvent)
  {
    PullCompletedEvent(r.eventId, r.acceptedAt, user, context.banner.id, r.pityGroupId, r.bannerVersionId, r.seed,
                       r.records, r.previousPity, r.nextPity, r.stateVersion, r.audit)
  }

  // ---- workers ----------------------------------------------------------------------------

  /** A claimed operation being executed. */
  datatype Job = Job(id: Uuid, origin: UserKey, requestHash: RequestHash, token: Uuid, context: PullRecoveryContext)

  datatype Target = ById(id: Uuid) | ByUserKey(origin: UserKey)

  /** Why an event is published: to answer a request, to recover a pending event, or to deliver
      again what Backpack has not confirmed. */
  datatype Purpose = Reply | Recover | Redeliver

  datatype Delivery = Delivery(target: Target, origin: UserKey, requestHash: RequestHash, response: PullResponse,
                               event: PullCompletedEvent, purpose: Purpose)

  datatype Refund = Refund(target: Target, origin: UserKey, requestHash: RequestHash, call: CreditCall,
                           fromRecovery: bool)

  datatype Pc =
    | Idle
    | LookingUp(origin: UserKey, requestHash: RequestHash)
    | Inserting(origin: UserKey, requestHash: RequestHash, context: PullRecoveryContext)
    | Claiming(origin: UserKey, requestHash: RequestHash, context: PullRecoveryContext)
    | Selecting(origin: UserKey, requestHash: RequestHash, context: PullRecoveryContext)
    | Charging(job: Job)
    | AwaitingCharge(job: Job)
    | Rejecting(job: Job, code: string)
    | ReadingPity(job: Job, attempt: nat, start: nat)
    | Committing(job: Job, attempt: nat, start: nat, response: PullResponse)
    | Reconciling(job: Job)
    | Publishing(delivery: Delivery, tries: nat)
    | AwaitingAck(delivery: Delivery, tries: nat)
    | SavingPublished(delivery: Delivery)
    | ClaimingExpired(id: Uuid)
    | ClaimingPending(id: Uuid, copy: PullOperation)
    | CheckingReceipt(delivery: Delivery)
    | SavingSucceeded(delivery: Delivery)
    | ClaimingRefund(id: Uuid, user: Uuid, copy: PullOperation)
    | Crediting(refund: Refund)
    | AwaitingCredit(refund: Refund)
    | SavingFailed(refund: Refund)
    | Releasing(id: Uuid)

  // ---- the world --------------------------------------------------------------------------

  /** The inputs an operation froze, and the refund reason of its row if it started as one. */
  datatype Frozen = Frozen(context: PullRecoveryContext, reason: string)

  datatype HistoryEntry = HistoryEntry(origin: UserKey, context: PullRecoveryContext, response: PullResponse)

  datatype Answer = Answer(origin: UserKey, requestHash: RequestHash, response: PullResponse)

  type EngineFunction = (PullRecoveryContext, PityState) -> Result<Batch, EngineError>

  /** `frozen`, `history`, `issued` and `answers` record the past; no action depends on them
      except that new tokens are new.  `legacy` names the rows that were refund_pending from the
      start.  `sticky` says whether Asset's first definite answer for a key is final. */
  datatype World = World(
    engine: EngineFunction,
    seedOf: UserKey -> string,
    staticCatalog: CatalogSnapshot,
    sticky: bool,
    legacy: set<UserKey>,
    releases: map<string, Release>,
    db: Database,
    workers: map<nat, Pc>,
    ledger: Ledger,
    sent: set<PullCompletedEvent>,
    log: seq<PullCompletedEvent>,
    rewards: map<UserKey, PullCompletedEvent>,
    frozen: map<UserKey, Frozen>,
    history: map<PityKey, seq<HistoryEntry>>,
    issued: set<Uuid>,
    answers: set<Answer>)

  function PcOf(w: World, i: nat): (pc: Pc)
  {
    if i in w.workers then w.workers[i] else Idle
  }

  function Go(w: World, i: nat, pc: Pc): (w': World)
  {
    w.(workers := w.workers[i := pc])
  }

  function Hist(w: World, key: PityKey): (h: seq<HistoryEntry>)
  {
    if key in w.history then w.history[key] else []
  }

  /** A store call takes effect and answers, takes effect and loses its answer, or does neither. */
  datatype Fate = Acked | AckLost | Dropped

  /** Where a request's snapshot comes from: the built-in catalog, some load of a release, or the
      empty snapshot served when no release is current. */
  datatype Source = FromStatic | FromRelease(releaseId: string, loadedAt: Time) | FromNoRelease(loadedAt: Time)

  datatype SpendReply = SpendAccepted | SpendRejected(code: string) | SpendUnknown

  datatype Action =
    | Crash(i: nat)
    | Start(i: nat, origin: UserKey, request: PullRequest, source: Source, acceptedAt: Time,
            engineVersion: string, engineBuildSha: string)
    | LookUp(i: nat)
    | InsertRow(i: nat, id: Uuid, token: Uuid, until: Time, now: Time, fate: Fate)
    | ClaimRow(i: nat, token: Uuid, until: Time, now: Time, fate: Fate)
    | SelectRow(i: nat)
    | SendSpend(i: nat)
    | HearSpend(i: nat, reply: SpendReply)
    | Fail(i: nat, now: Time, fate: Fate)
    | ReadPity(i: nat, answered: bool)
    | CommitPull(i: nat, now: Time, fate: Fate)
    | Reconcile(i: nat, answered: bool)
    | SendEvent(i: nat)
    | HearAck(i: nat, acked: bool)
    | SavePublished(i: nat, now: Time, fate: Fate)
    | ScanExpired(i: nat, id: Uuid, now: Time)
    | TakeExpired(i: nat, token: Uuid, until: Time, now: Time, fate: Fate)
    | ScanPending(i: nat, id: Uuid)
    | TakePending(i: nat, until: Time, now: Time, fate: Fate)
    | HearReceipt(i: nat, answered: bool)
    | SaveSucceeded(i: nat, now: Time, fate: Fate)
    | ScanRefund(i: nat, id: Uuid)
    | TakeRefund(i: nat, until: Time, now: Time, fate: Fate)
    | SendCredit(i: nat)
    | HearCredit(i: nat, answered: bool)
    | SaveFailed(i: nat, now: Time, fate: Fate)
    | ReleaseLock(i: nat, now: Time, fate: Fate)
    | LedgerCharge(spend: SpendCall)
    | LedgerReject(spend: SpendCall)
    | LedgerCredit(credit: CreditCall)
    | LogAppend(event: PullCompletedEvent)
    | BackpackApply(event: PullCompletedEvent)
    | PublishRelease(release: Release)

  // ---- requests ---------------------------------------------------------------------------

  function SnapshotOf(w: World, source: Source): (r: Result<CatalogSnapshot, LoadError>)
  {
    match source
    case FromStatic => Ok(w.staticCatalog)
    case FromRelease(id, loadedAt) =>
      if id in w.releases then BuildSnapshot(w.releases[id], loadedAt) else Err(CatalogLoadError)
    case FromNoRelease(loadedAt) => Ok(EmptySnapshot(loadedAt))
  }

  /** The context `create_pull` freezes, if the snapshot offers the banner and its evidence. */
  function RequestContext(snapshot: CatalogSnapshot, origin: UserKey, bannerId: string, count: int, seed: string,
                          acceptedAt: Time, engineVersion: string, engineBuildSha: string)
    : (r: Result<Option<PullRecoveryContext>, AuditError>)
  {
    match snapshot.BannerConfigAt(bannerId, acceptedAt)
    case Err(e) => Err(AuditError.Catalog(e))
    case Ok(None) => Ok(None)
    case Ok(Some(c)) =>
      match BuildPullAuditMetadata(snapshot, c, engineVersion, engineBuildSha)
      case Err(e) => Err(e)
      case Ok(audit) =>
        Ok(Some(FromBannerConfig(c, count, seed, EventId(origin), count * ASTRITE_PER_PULL,
                                 Some(acceptedAt), Some(audit))))
  }

  function DoStart(w: World, i: nat, origin: UserKey, request: PullRequest, source: Source, acceptedAt: Time,
                   engineVersion: string, engineBuildSha: string): (w': World)
  {
    if !PcOf(w, i).Idle? || request.count !in {1, 10} || SnapshotOf(w, source).Err? then w
    else
      var seed := if request.seed.Some? then request.seed.value else w.seedOf(origin);
      var requestHash := RequestHash(request.bannerId, request.count, seed);
      match RequestContext(SnapshotOf(w, source).value, origin, request.bannerId, request.count, seed, acceptedAt,
                           engineVersion, engineBuildSha)
      case Err(_) => w
      case Ok(None) => Go(w, i, LookingUp(origin, requestHash))
      case Ok(Some(context)) => Go(w, i, Inserting(origin, requestHash, context))
  }

  function ReasonOf(errorCode: Option<string>): (reason: string)
  {
    if errorCode.None? || errorCode.value == "" then "pull_refunded" else errorCode.value
  }

  /** `handle_existing_pull_operation` and `handle_claimed_pull_operation`: what to do next with
      a copy of an operation, or the response to answer with. */
  datatype Reaction = Next(pc: Pc) | Respond(response: PullResponse)

  function React(target: Target, origin: UserKey, requestHash: RequestHash, copy: PullOperation, charge: Charge)
    : (r: Reaction)
  {
    if copy.requestHash != requestHash then Next(Idle)
    else if (copy.status.EventPublished? || copy.status.Succeeded?) && copy.response.Some? then
      Respond(copy.response.value)
    else if copy.status.EventPending? && copy.response.Some? && copy.event.Some? then
      Next(Publishing(Delivery(target, origin, requestHash, copy.response.value, copy.event.value, Reply), 0))
    else if copy.status.RefundPending? then
      Next(Crediting(Refund(target, origin, requestHash,
                            CreditCall(origin.user, charge, ReasonOf(copy.errorCode)), false)))
    else Next(Idle)
  }

  function DoReact(w: World, i: nat, origin: UserKey, requestHash: RequestHash, reaction: Reaction): (w': World)
  {
    match reaction
    case Next(pc) => Go(w, i, pc)
    case Respond(response) =>
      Go(w, i, Idle).(answers := w.answers + {Answer(origin, requestHash, response)})
  }

  /** The charge `handle_existing_pull_request` would refund when the row keeps no context. */
  function RequestCharge(origin: UserKey, requestHash: RequestHash, copy: PullOperation): (charge: Charge)
  {
    var eventId := if copy.event.Some? then copy.event.value.eventId else EventId(origin);
    var bannerId := if copy.event.Some? then copy.event.value.bannerId else requestHash.bannerId;
    var group := if copy.response.Some? then Some(copy.response.value.pityGroupId)
                 else if copy.event.Some? then Some(copy.event.value.pityGroupId) else None;
    var version := if copy.response.Some? then copy.response.value.bannerVersionId
                   else if copy.event.Some? then copy.event.value.bannerVersionId else None;
    var audit := if copy.response.Some? then copy.response.value.audit
                 else if copy.event.Some? then copy.event.value.audit else None;
    Charge(eventId, requestHash.count * ASTRITE_PER_PULL,
           Metadata(eventId, bannerId, group, version, requestHash.count, audit))
  }

  /** The row an index entry points at. */
  function RowOf(db: Database, origin: UserKey): (row: Option<OperationRow>)
  {
    if origin in db.byUserKey && db.byUserKey[origin] in db.operations
    then Some(db.operations[db.byUserKey[origin]]) else None
  }

  function DoLookUp(w: World, i: nat): (w': World)
  {
    match PcOf(w, i)
    case LookingUp(origin, requestHash) =>
      (match RowOf(w.db, origin)
       case None => Go(w, i, Idle)
       case Some(row) =>
         if row.context.Some? then Go(w, i, Inserting(origin, requestHash, row.context.value))
         else
           var copy := OperationOf(row);
           DoReact(w, i, origin, requestHash,
                   React(ByUserKey(origin), origin, requestHash, copy, RequestCharge(origin, requestHash, copy))))
    case _ => w
  }

  function DoInsert(w: World, i: nat, id: Uuid, token: Uuid, until: Time, now: Time, fate: Fate): (w': World)
  {
    match PcOf(w, i)
    case Inserting(origin, requestHash, context) =>
      if id in w.db.operations || token in w.issued then w
      else
        var w1 := w.(issued := w.issued + {token});
        (match Insert(w.db, id, origin, requestHash, token, until, context, now)
         case None => Go(w1, i, if fate.Acked? then Claiming(origin, requestHash, context) else Idle)
         case Some(db') =>
           if fate.Dropped? then Go(w1, i, Idle)
           else
             var w2 := w1.(db := db', frozen := w.frozen[origin := Frozen(context, "")]);
             Go(w2, i, if fate.Acked? then Charging(Job(id, origin, requestHash, token, context)) else Idle))
    case _ => w
  }

  function DoClaim(w: World, i: nat, token: Uuid, until: Time, now: Time, fate: Fate): (w': World)
  {
    match PcOf(w, i)
    case Claiming(origin, requestHash, context) =>
      if token in w.issued then w
      else
        var w1 := w.(issued := w.issued + {token});
        (match Claim(w.db, origin, requestHash, token, until, context, now)
         case None => Go(w1, i, if fate.Acked? then Selecting(origin, requestHash, context) else Idle)
         case Some(db') =>
           if fate.Dropped? then Go(w1, i, Idle)
           else
             var id := w.db.byUserKey[origin];
             Go(w1.(db := db'), i,
                if fate.Acked?
                then Charging(Job(id, origin, requestHash, token, db'.operations[id].context.value)) else Idle))
    case _ => w
  }

  function DoSelect(w: World, i: nat): (w': World)
  {
    match PcOf(w, i)
    case Selecting(origin, requestHash, context) =>
      (match RowOf(w.db, origin)
       case None => Go(w, i, Idle)
       case Some(row) =>
         var claimed := if row.context.Some? then row.context.value else context;
         DoReact(w, i, origin, requestHash,
                 React(ByUserKey(origin), origin, requestHash, OperationOf(row), ChargeOf(claimed))))
    case _ => w
  }

  // ---- execution of a claimed pull --------------------------------------------------------

  function DoSendSpend(w: World, i: nat): (w': World)
  {
    match PcOf(w, i)
    case Charging(job) =>
      Go(w, i, AwaitingCharge(job))
      .(ledger := w.ledger.(spendCalls := w.ledger.spendCalls + {SpendCall(job.origin.user, ChargeOf(job.context))}))
    case _ => w
  }

  function DoHearSpend(w: World, i: nat, reply: SpendReply): (w': World)
  {
    match PcOf(w, i)
    case AwaitingCharge(job) =>
      var key := job.context.eventId.origin;
      (match reply
       case SpendAccepted =>
         if key in w.ledger.charged && w.ledger.charged[key] == SpendCall(job.origin.user, ChargeOf(job.context))
         then Go(w, i, ReadingPity(job, 1, |Hist(w, PityKey(job.origin.user, job.context.pityGroupId))|))
         else w
       case SpendRejected(code) => if key in w.ledger.rejected then Go(w, i, Rejecting(job, code)) else w
       case SpendUnknown => Go(w, i, Idle))
    case _ => w
  }

  function FailedOperation(requestHash: RequestHash, code: string): (operation: PullOperation)
  {
    PullOperation(Failed, requestHash, None, None, Some(code), None)
  }

  function DoFail(w: World, i: nat, now: Time, fate: Fate): (w': World)
  {
    match PcOf(w, i)
    case Rejecting(job, code) =>
      (match Transition(w.db, job.id, job.origin.user, job.requestHash, job.token,
                        FailedOperation(job.requestHash, code), now)
       case Err(_) => Go(w, i, Idle)
       case Ok(db') => if fate.Dropped? then Go(w, i, Idle) else Go(w.(db := db'), i, Idle))
    case _ => w
  }

  function DoReadPity(w: World, i: nat, answered: bool): (w': World)
  {
    match PcOf(w, i)
    case ReadingPity(job, attempt, start) =>
      if !answered then Go(w, i, Reconciling(job))
      else
        var previous := StoredPity(w.db, PityKey(job.origin.user, job.context.pityGroupId));
        (match w.engine(job.context, previous.pity)
         case Err(_) => Go(w, i, Idle)
         case Ok(batch) => Go(w, i, Committing(job, attempt, start, MakeResponse(job.context, previous, batch))))
    case _ => w
  }

  function CommittedOperation(job: Job, response: PullResponse): (operation: PullOperation)
  {
    PullOperation(EventPending, job.requestHash, Some(response),
                  Some(MakeEvent(job.origin.user, job.context, response)), None, None)
  }

  function CommitOutcomeOf(w: World, job: Job, response: PullResponse, now: Time): (r: CommitOutcome)
  {
    Commit(w.db, job.id, PityKey(job.origin.user, job.context.pityGroupId), job.requestHash,
                 response.previousPity.version, response.nextPity.pity, CommittedOperation(job, response),
                 job.token, now)
  }

  function DoCommit(w: World, i: nat, now: Time, fate: Fate): (w': World)
  {
    match PcOf(w, i)
    case Committing(job, attempt, start, response) =>
      (match CommitOutcomeOf(w, job, response, now)
       case CommitDone(db') =>
         if fate.Dropped? then Go(w, i, Reconciling(job))
         else
           var key := PityKey(job.origin.user, job.context.pityGroupId);
           var committed := HistoryEntry(job.origin, job.context, response);
           var w1 := w.(db := db', history := w.history[key := Hist(w, key) + [committed]]);
           Go(w1, i,
              if fate.Acked?
              then Publishing(Delivery(ById(job.id), job.origin, job.requestHash, response,
                                       MakeEvent(job.origin.user, job.context, response), Reply), 0)
              else Reconciling(job))
       case VersionConflict(_) =>
         Go(w, i, if !fate.Acked? then Reconciling(job)
                  else if attempt < PITY_COMMIT_MAX_ATTEMPTS then ReadingPity(job, attempt + 1, start)
                  else Idle)
       case NotOwner => Go(w, i, if fate.Acked? then Idle else Reconciling(job))
       case CommitFailed => Go(w, i, Reconciling(job)))
    case _ => w
  }

  function DoReconcile(w: World, i: nat, answered: bool): (w': World)
  {
    match PcOf(w, i)
    case Reconciling(job) =>
      if !answered || job.id !in w.db.operations || w.db.operations[job.id].status.Processing? then Go(w, i, Idle)
      else DoReact(w, i, job.origin, job.requestHash,
                   React(ById(job.id), job.origin, job.requestHash, OperationOf(w.db.operations[job.id]),
                         ChargeOf(job.context)))
    case _ => w
  }

  // ---- delivery ---------------------------------------------------------------------------

  function DoSendEvent(w: World, i: nat): (w': World)
  {
    match PcOf(w, i)
    case Publishing(d, tries) => Go(w, i, AwaitingAck(d, tries)).(sent := w.sent + {d.event})
    case _ => w
  }

  /** Where a delivery ends: a recovery worker always releases its lock. */
  function Ended(d: Delivery): (pc: Pc)
  {
    if d.purpose.Reply? || d.target.ByUserKey? then Idle else Releasing(d.target.id)
  }

  function DoHearAck(w: World, i: nat, acked: bool): (w': World)
  {
    match PcOf(w, i)
    case AwaitingAck(d, tries) =>
      if acked then
        if d.event !in w.log then w
        else Go(w, i, if d.purpose.Redeliver? then Ended(d) else SavingPublished(d))
      else Go(w, i, if tries + 1 < PUBLISH_MAX_ATTEMPTS then Publishing(d, tries + 1) else Ended(d))
    case _ => w
  }

  function SaveTo(db: Database, target: Target, operation: PullOperation, now: Time): (r: Result<Database, StoreError>)
  {
    match target
    case ById(id) => SaveByKey(db, id, operation, now)
    case ByUserKey(origin) => SaveByUserKey(db, origin, operation, now)
  }

  /** An unfenced save; its failure is logged, never raised. */
  function Attempted(db: Database, target: Target, operation: PullOperation, now: Time, fate: Fate): (db': Database)
  {
    var r := SaveTo(db, target, operation, now);
    if fate.Dropped? || r.Err? then db else r.value
  }

  function Delivered(d: Delivery, status: PullOperationStatus): (operation: PullOperation)
  {
    PullOperation(status, d.requestHash, Some(d.response), Some(d.event), None, None)
  }

  /** Only a delivery made for a request answers it. */
  function ReplyOf(d: Delivery): (answers: set<Answer>)
  {
    if d.purpose.Reply? then {Answer(d.origin, d.requestHash, d.response)} else {}
  }

  function DoSavePublished(w: World, i: nat, now: Time, fate: Fate): (w': World)
  {
    match PcOf(w, i)
    case SavingPublished(d) =>
      Go(w, i, Ended(d)).(db := Attempted(w.db, d.target, Delivered(d, EventPublished), now, fate),
                          answers := w.answers + ReplyOf(d))
    case _ => w
  }

  // ---- recovery workers -------------------------------------------------------------------

  function DoScanExpired(w: World, i: nat, id: Uuid, now: Time): (w': World)
  {
    if !PcOf(w, i).Idle? || id !in w.db.operations || !w.db.operations[id].status.Processing?
       || w.db.operations[id].context.None? || !Lapsed(w.db.operations[id].leaseUntil, now)
    then w
    else Go(w, i, ClaimingExpired(id))
  }

  function DoTakeExpired(w: World, i: nat, token: Uuid, until: Time, now: Time, fate: Fate): (w': World)
  {
    match PcOf(w, i)
    case ClaimingExpired(id) =>
      if token in w.issued then w
      else
        var w1 := w.(issued := w.issued + {token});
        (match Store.ClaimExpired(w.db, id, token, until, now)
         case None => Go(w1, i, Idle)
         case Some(db') =>
           if fate.Dropped? then Go(w1, i, Idle)
           else
             var row := w.db.operations[id];
             Go(w1.(db := db'), i,
                if fate.Acked? then Charging(Job(id, row.origin, row.requestHash, token, row.context.value)) else Idle))
    case _ => w
  }

  function DoScanPending(w: World, i: nat, id: Uuid): (w': World)
  {
    if !PcOf(w, i).Idle? || id !in w.db.operations
       || !(w.db.operations[id].status.EventPending? || w.db.operations[id].status.EventPublished?)
    then w
    else Go(w, i, ClaimingPending(id, OperationOf(w.db.operations[id])))
  }

  function DoTakePending(w: World, i: nat, until: Time, now: Time, fate: Fate): (w': World)
  {
    match PcOf(w, i)
    case ClaimingPending(id, copy) =>
      if copy.response.None? || copy.event.None? then Go(w, i, Idle)
      else (match Store.ClaimPending(w.db, id, copy.status, until, now)
        case None => Go(w, i, Idle)
        case Some(db') =>
          if fate.Dropped? then Go(w, i, Idle)
          else
            var d := Delivery(ById(id), copy.event.value.eventId.origin, copy.requestHash, copy.response.value,
                              copy.event.value, if copy.status.EventPending? then Recover else Redeliver);
            Go(w.(db := db'), i,
               if fate.AckLost? then Idle
               else if copy.status.EventPending? then Publishing(d, 0) else CheckingReceipt(d)))
    case _ => w
  }

  function DoHearReceipt(w: World, i: nat, answered: bool): (w': World)
  {
    match PcOf(w, i)
    case CheckingReceipt(d) =>
      Go(w, i, if !answered then Ended(d)
               else if d.event.eventId.origin in w.rewards then SavingSucceeded(d)
               else Publishing(d, 0))
    case _ => w
  }

  function DoSaveSucceeded(w: World, i: nat, now: Time, fate: Fate): (w': World)
  {
    match PcOf(w, i)
    case SavingSucceeded(d) =>
      Go(w, i, Ended(d)).(db := Attempted(w.db, d.target, Delivered(d, Succeeded), now, fate))
    case _ => w
  }

  function DoScanRefund(w: World, i: nat, id: Uuid): (w': World)
  {
    if !PcOf(w, i).Idle? || id !in w.db.operations || !w.db.operations[id].status.RefundPending?
       || w.db.operations[id].context.None?
    then w
    else Go(w, i, ClaimingRefund(id, w.db.operations[id].origin.user, OperationOf(w.db.operations[id])))
  }

  function DoTakeRefund(w: World, i: nat, until: Time, now: Time, fate: Fate): (w': World)
  {
    match PcOf(w, i)
    case ClaimingRefund(id, user, copy) =>
      if copy.recoveryContext.None? then Go(w, i, Idle)
      else (match Store.ClaimPending(w.db, id, RefundPending, until, now)
        case None => Go(w, i, Idle)
        case Some(db') =>
          if fate.Dropped? then Go(w, i, Idle)
          else
            var context := copy.recoveryContext.value;
            Go(w.(db := db'), i,
               if fate.AckLost? then Idle
               else Crediting(Refund(ById(id), context.eventId.origin, copy.requestHash,
                                     CreditCall(user, ChargeOf(context), ReasonOf(copy.errorCode)), true))))
    case _ => w
  }

  function DoSendCredit(w: World, i: nat): (w': World)
  {
    match PcOf(w, i)
    case Crediting(refund) =>
      Go(w, i, AwaitingCredit(refund))
      .(ledger := w.ledger.(creditCalls := w.ledger.creditCalls + {refund.call}))
    case _ => w
  }

  function RefundEnded(refund: Refund): (pc: Pc)
  {
    if refund.fromRecovery && refund.target.ById? then Releasing(refund.target.id) else Idle
  }

  function DoHearCredit(w: World, i: nat, answered: bool): (w': World)
  {
    match PcOf(w, i)
    case AwaitingCredit(refund) =>
      if !answered then Go(w, i, RefundEnded(refund))
      else
        var key := refund.call.charge.eventId.origin;
        if key in w.ledger.credited && w.ledger.credited[key] == refund.call then Go(w, i, SavingFailed(refund)) else w
    case _ => w
  }

  function DoSaveFailed(w: World, i: nat, now: Time, fate: Fate): (w': World)
  {
    match PcOf(w, i)
    case SavingFailed(refund) =>
      Go(w, i, RefundEnded(refund))
      .(db := Attempted(w.db, refund.target, FailedOperation(refund.requestHash, refund.call.reason), now, fate))
    case _ => w
  }

  function DoReleaseLock(w: World, i: nat, now: Time, fate: Fate): (w': World)
  {
    match PcOf(w, i)
    case Releasing(id) =>
      Go(w, i, Idle).(db := if fate.Dropped? then w.db else Store.Release(w.db, id, now))
    case _ => w
  }

  // ---- the outside ------------------------------------------------------------------------

  /** Asset charges a key once; a sticky ledger never charges what it has rejected. */
  function DoLedgerCharge(w: World, spend: SpendCall): (w': World)
  {
    var key := spend.charge.eventId.origin;
    if spend !in w.ledger.spendCalls || key in w.ledger.charged || (w.sticky && key in w.ledger.rejected) then w
    else w.(ledger := w.ledger.(charged := w.ledger.charged[key := spend]))
  }

  /** Asset rejects a key it has not charged, or one it charged for a different call. */
  function DoLedgerReject(w: World, spend: SpendCall): (w': World)
  {
    var key := spend.charge.eventId.origin;
    if spend !in w.ledger.spendCalls || (key in w.ledger.charged && w.ledger.charged[key] == spend) then w
    else w.(ledger := w.ledger.(rejected := w.ledger.rejected + {key}))
  }

  function DoLedgerCredit(w: World, credit: CreditCall): (w': World)
  {
    var key := credit.charge.eventId.origin;
    if credit !in w.ledger.creditCalls || key in w.ledger.credited then w
    else w.(ledger := w.ledger.(credited := w.ledger.credited[key := credit]))
  }

  /** Kafka appends any event put on the wire, any number of times. */
  function DoLogAppend(w: World, event: PullCompletedEvent): (w': World)
  {
    if event !in w.sent then w else w.(log := w.log + [event])
  }

  /** Backpack applies a logged event whose id it has not applied. */
  function DoBackpackApply(w: World, event: PullCompletedEvent): (w': World)
  {
    if event !in w.log || event.eventId.origin in w.rewards then w
    else w.(rewards := w.rewards[event.eventId.origin := event])
  }

  function DoPublishRelease(w: World, release: Release): (w': World)
  {
    if release.id in w.releases then w else w.(releases := w.releases[release.id := release])
  }

  // ---- one action -------------------------------------------------------------------------

  predicate IsRequest(a: Action)
  {
    a.Crash? || a.Start? || a.LookUp? || a.InsertRow? || a.ClaimRow? || a.SelectRow?
  }

  function ApplyRequest(w: World, a: Action): (w': World)
    requires IsRequest(a)
  {
    match a
    case Crash(i) => Go(w, i, Idle)
    case Start(i, origin, request, source, acceptedAt, version, sha) =>
      DoStart(w, i, origin, request, source, acceptedAt, version, sha)
    case LookUp(i) => DoLookUp(w, i)
    case InsertRow(i, id, token, until, now, fate) => DoInsert(w, i, id, token, until, now, fate)
    case ClaimRow(i, token, until, now, fate) => DoClaim(w, i, token, until, now, fate)
    case SelectRow(i) => DoSelect(w, i)
  }

  predicate IsExecution(a: Action)
  {
    a.SendSpend? || a.HearSpend? || a.Fail? || a.ReadPity? || a.CommitPull? || a.Reconcile?
  }

  function ApplyExecution(w: World, a: Action): (w': World)
    requires IsExecution(a)
  {
    match a
    case SendSpend(i) => DoSendSpend(w, i)
    case HearSpend(i, reply) => DoHearSpend(w, i, reply)
    case Fail(i, now, fate) => DoFail(w, i, now, fate)
    case ReadPity(i, answered) => DoReadPity(w, i, answered)
    case CommitPull(i, now, fate) => DoCommit(w, i, now, fate)
    case Reconcile(i, answered) => DoReconcile(w, i, answered)
  }

  predicate IsDelivery(a: Action)
  {
    || a.SendEvent? || a.HearAck? || a.SavePublished? || a.ScanPending? || a.TakePending? || a.HearReceipt?
    || a.SaveSucceeded?
  }

  function ApplyDelivery(w: World, a: Action): (w': World)
    requires IsDelivery(a)
  {
    match a
    case SendEvent(i) => DoSendEvent(w, i)
    case HearAck(i, acked) => DoHearAck(w, i, acked)
    case SavePublished(i, now, fate) => DoSavePublished(w, i, now, fate)
    case ScanPending(i, id) => DoScanPending(w, i, id)
    case TakePending(i, until, now, fate) => DoTakePending(w, i, until, now, fate)
    case HearReceipt(i, answered) => DoHearReceipt(w, i, answered)
    case SaveSucceeded(i, now, fate) => DoSaveSucceeded(w, i, now, fate)
  }

  predicate IsRecovery(a: Action)
  {
    || a.ScanExpired? || a.TakeExpired? || a.ScanRefund? || a.TakeRefund? || a.SendCredit? || a.HearCredit?
    || a.SaveFailed? || a.ReleaseLock?
  }

  function ApplyRecovery(w: World, a: Action): (w': World)
    requires IsRecovery(a)
  {
    match a
    case ScanExpired(i, id, now) => DoScanExpired(w, i, id, now)
    case TakeExpired(i, token, until, now, fate) => DoTakeExpired(w, i, token, until, now, fate)
    case ScanRefund(i, id) => DoScanRefund(w, i, id)
    case TakeRefund(i, until, now, fate) => DoTakeRefund(w, i, until, now, fate)
    case SendCredit(i) => DoSendCredit(w, i)
    case HearCredit(i, answered) => DoHearCredit(w, i, answered)
    case SaveFailed(i, now, fate) => DoSaveFailed(w, i, now, fate)
    case ReleaseLock(i, now, fate) => DoReleaseLock(w, i, now, fate)
  }

  predicate IsOutside(a: Action)
  {
    || a.LedgerCharge? || a.LedgerReject? || a.LedgerCredit? || a.LogAppend? || a.BackpackApply?
    || a.PublishRelease?
  }

  function ApplyOutside(w: World, a: Action): (w': World)
    requires IsOutside(a)
  {
    match a
    case LedgerCharge(spend) => DoLedgerCharge(w, spend)
    case LedgerReject(spend) => DoLedgerReject(w, spend)
    case LedgerCredit(credit) => DoLedgerCredit(w, credit)
    case LogAppend(event) => DoLogAppend(w, event)
    case BackpackApply(event) => DoBackpackApply(w, event)
    case PublishRelease(release) => DoPublishRelease(w, release)
  }

  function Apply(w: World, a: Action): (w': World)
  {
    if IsRequest(a) then ApplyRequest(w, a)
    else if IsExecution(a) then ApplyExecution(w, a)
    else if IsDelivery(a) then ApplyDelivery(w, a)
    else if IsRecovery(a) then ApplyRecovery(w, a)
    else ApplyOutside(w, a)
  }

  function Run(w: World, actions: seq<Action>): (w': World)
    decreases |actions|
  {
    if actions == [] then w else Run(Apply(w, actions[0]), actions[1..])
  }

  // ---- initial worlds ---------------------------------------------------------------------

  /** A row the service left in refund_pending before it stopped writing that status. */
  ghost predicate LegacyRow(row: OperationRow)
  {
    && row.status.RefundPending? && row.response.None? && row.event.None?
    && row.context.Some? && row.context.value.eventId == EventId(row.origin)
  }

  /** No worker runs and nothing has happened; the only rows are legacy refund_pending ones. */
  ghost predicate Init(w: World)
  {
    && w.staticCatalog.releaseId.None?
    && w.releases == map[] && w.workers == map[]
    && w.ledger == Ledger({}, map[], {}, {}, map[])
    && w.sent == {} && w.log == [] && w.rewards == map[]
    && w.history == map[] && w.db.pity == map[] && w.issued == {} && w.answers == {}
    && (forall id :: id in w.db.operations ==>
          && LegacyRow(w.db.operations[id])
          && w.db.operations[id].origin in w.db.byUserKey
          && w.db.byUserKey[w.db.operations[id].origin] == id)
    && (forall o :: o in w.db.byUserKey ==>
          w.db.byUserKey[o] in w.db.operations && w.db.operations[w.db.byUserKey[o]].origin == o)
    && w.legacy == w.db.byUserKey.Keys
    && w.frozen.Keys == w.db.byUserKey.Keys
    && (forall o :: o in w.frozen ==>
          var row := w.db.operations[w.db.byUserKey[o]];
          w.frozen[o] == Frozen(row.context.value, ReasonOf(row.errorCode)))
  }

  /** A fresh database. */
  ghost predicate FreshInit(w: World)
  {
    Init(w) && w.db == EMPTY_DATABASE
  }
}
