/** Delivery and answers over whole runs: what reaches Kafka, Backpack and the player is the one
    committed outcome of a charged operation. */
module DeliveryOverRuns {
  import opened Collections
  import opened CatalogConfig
  import opened Schemas
  import opened PullOperations
  import opened Store
  import opened Protocol
  import opened Invariant
  import opened Safety
  import opened Steps
  import Accounting

  // ---- the delivery chain -----------------------------------------------------------------

  /** The event tells what the response told, and whose it is. */
  ghost predicate Retells(e: PullCompletedEvent, response: PullResponse, user: Uuid)
  {
    && e.userId == user && e.eventId == response.eventId && e.acceptedAt == response.acceptedAt
    && e.pityGroupId == response.pityGroupId && e.bannerVersionId == response.bannerVersionId
    && e.seed == response.seed && e.records == response.records
    && e.previousPity == response.previousPity && e.nextPity == response.nextPity
    && e.stateVersion == response.stateVersion && e.audit == response.audit
  }

  /** The charge is for this event: under its id, for its user, and described by its banner, group,
      version and audit. */
  ghost predicate PaysFor(call: SpendCall, e: PullCompletedEvent)
  {
    var metadata := call.charge.metadata;
    && call.user == e.userId && call.charge.eventId == e.eventId && metadata.eventId == e.eventId
    && metadata.bannerId == e.bannerId && metadata.pityGroupId == Some(e.pityGroupId)
    && metadata.bannerVersionId == e.bannerVersionId && metadata.audit == e.audit
  }

  /** The event is the one its operation committed with its response, and it was paid for. */
  ghost predicate PaidAndCommitted(w: World, e: PullCompletedEvent)
  {
    var o := e.eventId.origin;
    && Known(w, o) && PullOperations.Committed(RowAt(w, o).status) && RowAt(w, o).event == Some(e)
    && RowAt(w, o).response.Some? && Retells(e, RowAt(w, o).response.value, o.user)
    && o in w.ledger.charged && PaysFor(w.ledger.charged[o], e)
  }

  /** Everything ever put on the wire to Kafka, appended to its log or applied by Backpack is a
      committed, charged event. */
  lemma OnlyPaidCommittedEvents(w0: World, actions: seq<Action>, e: PullCompletedEvent)
    requires Init(w0)
    requires var w := Run(w0, actions);
             e in w.sent || e in w.log || (e.eventId.origin in w.rewards && w.rewards[e.eventId.origin] == e)
    ensures PaidAndCommitted(Run(w0, actions), e)
  {
    ReachableInv(w0, actions);
    SentIsPaid(Run(w0, actions), e);
  }

  lemma SentIsPaid(w: World, e: PullCompletedEvent)
    requires Inv(w)
    requires e in w.sent || e in w.log || (e.eventId.origin in w.rewards && w.rewards[e.eventId.origin] == e)
    ensures PaidAndCommitted(w, e)
  {
    var o := e.eventId.origin;
    assert o in w.rewards ==> RewardOk(w, o);
    assert EventOk(w, e);
    KnownRow(w, o);
    assert ChargedOk(w, o) && SpendOk(w, w.ledger.charged[o]);
    assert EntryOk(w, KeyOf(o, ContextAt(w, o)), RowAt(w, o).response.value.stateVersion - 1);
  }

  /** Every publication of an event id, by any worker at any two moments of a run, carries the
      same payload; so it does not matter which copy Backpack applies. */
  lemma PublicationsNeverDiffer(w0: World, actions: seq<Action>, more: seq<Action>,
                                e: PullCompletedEvent, e': PullCompletedEvent)
    requires Init(w0)
    requires e in Run(w0, actions).sent && e' in Run(w0, actions + more).sent
    requires e.eventId == e'.eventId
    ensures e == e'
  {
    var w := Run(w0, actions);
    Accounting.RunJoins(w0, actions, more);
    ReachableInv(w0, actions);
    RunSafe(w, more);
    assert EventOk(w, e);
    EventGrows(w, Run(w, more), e);
    assert EventOk(Run(w, more), e');
  }

  /** An event_published operation has its event in Kafka's log; a succeeded one has been rewarded
      with exactly that event, and still is at any later time. */
  lemma StatusTellsDelivery(w0: World, actions: seq<Action>, more: seq<Action>, id: Uuid)
    requires Init(w0) && id in Run(w0, actions).db.operations
    ensures var row, later := Run(w0, actions).db.operations[id], Run(w0, actions + more);
            && (row.status.EventPublished? || row.status.Succeeded? ==>
                  row.event.Some? && row.event.value in Run(w0, actions).log)
            && (row.status.Succeeded? ==>
                  && row.origin in later.rewards && Some(later.rewards[row.origin]) == row.event
                  && row.origin in later.ledger.charged)
  {
    var w := Run(w0, actions);
    Accounting.RunJoins(w0, actions, more);
    ReachableInv(w0, actions);
    RunSafe(w, more);
    RowKnown(w, id);
    var o := w.db.operations[id].origin;
    if w.db.operations[id].status.Succeeded? {
      assert RewardOk(w, o);
      assert EventOk(w, w.rewards[o]);
    }
  }

  // ---- recovery locks ---------------------------------------------------------------------

  /** A recovery worker that holds the lock of a row it delivers. */
  ghost predicate DeliversUnderLock(pc: Pc)
  {
    Delivering(pc) && !pc.delivery.purpose.Reply? && pc.delivery.target.ById?
  }

  /** It goes on with the delivery, or turns to releasing the lock. */
  ghost predicate KeepsOrReleases(pc: Pc, pc': Pc)
    requires DeliversUnderLock(pc)
  {
    || (Delivering(pc') && pc'.delivery == pc.delivery)
    || pc' == Releasing(pc.delivery.target.id)
  }

  lemma SendKeepsDelivery(w: World, i: nat)
    requires DeliversUnderLock(PcOf(w, i))
    ensures KeepsOrReleases(PcOf(w, i), PcOf(DoSendEvent(w, i), i))
  {
  }

  lemma AckKeepsOrReleases(w: World, i: nat, acked: bool)
    requires DeliversUnderLock(PcOf(w, i))
    ensures KeepsOrReleases(PcOf(w, i), PcOf(DoHearAck(w, i, acked), i))
  {
  }

  lemma ReceiptKeepsOrReleases(w: World, i: nat, answered: bool)
    requires DeliversUnderLock(PcOf(w, i))
    ensures KeepsOrReleases(PcOf(w, i), PcOf(DoHearReceipt(w, i, answered), i))
  {
  }

  lemma SavesRelease(w: World, i: nat, now: Time, fate: Fate)
    requires DeliversUnderLock(PcOf(w, i))
    ensures KeepsOrReleases(PcOf(w, i), PcOf(DoSavePublished(w, i, now, fate), i))
    ensures KeepsOrReleases(PcOf(w, i), PcOf(DoSaveSucceeded(w, i, now, fate), i))
  {
  }

  lemma DeliveryKeepsOrReleases(w: World, a: Action)
    requires IsDelivery(a) && DeliversUnderLock(PcOf(w, a.i))
    ensures KeepsOrReleases(PcOf(w, a.i), PcOf(ApplyDelivery(w, a), a.i))
  {
    match a
    case SendEvent(i) => SendKeepsDelivery(w, i);
    case HearAck(i, acked) => AckKeepsOrReleases(w, i, acked);
    case SavePublished(i, now, fate) => SavesRelease(w, i, now, fate);
    case ScanPending(i, id) =>
    case TakePending(i, until, now, fate) =>
    case HearReceipt(i, answered) => ReceiptKeepsOrReleases(w, i, answered);
    case SaveSucceeded(i, now, fate) => SavesRelease(w, i, now, fate);
  }

  lemma RequestsIgnoreDeliveries(w: World, a: Action)
    requires IsRequest(a) && !a.Crash? && DeliversUnderLock(PcOf(w, a.i))
    ensures ApplyRequest(w, a) == w
  {
  }

  lemma ExecutionIgnoresDeliveries(w: World, a: Action)
    requires IsExecution(a) && DeliversUnderLock(PcOf(w, a.i))
    ensures ApplyExecution(w, a) == w
  {
  }

  lemma RecoveryIgnoresDeliveries(w: World, a: Action)
    requires IsRecovery(a) && DeliversUnderLock(PcOf(w, a.i))
    ensures ApplyRecovery(w, a) == w
  {
  }

  /** Whatever fails on the way, a recovery worker that does not crash leaves a delivery only by
      releasing the lock it took for it. */
  lemma LockIsReleased(w: World, a: Action)
    requires ActorOf(a).Some? && !a.Crash? && DeliversUnderLock(PcOf(w, a.i))
    ensures KeepsOrReleases(PcOf(w, a.i), PcOf(Apply(w, a), a.i))
  {
    if IsDelivery(a) {
      DeliveryKeepsOrReleases(w, a);
    } else if IsRequest(a) {
      RequestsIgnoreDeliveries(w, a);
    } else if IsExecution(a) {
      ExecutionIgnoresDeliveries(w, a);
    } else {
      RecoveryIgnoresDeliveries(w, a);
    }
  }

  /** Releasing gives the lock back: unless the release is lost, a row still awaiting recovery can be
      locked again at any time, and otherwise holds what it held. */
  lemma LockIsGivenBack(w: World, i: nat, now: Time, fate: Fate, until: Time, later: Time)
    requires PcOf(w, i).Releasing?
    ensures var w', id := DoReleaseLock(w, i, now, fate), PcOf(w, i).id;
            && PcOf(w', i) == Idle && (fate.Dropped? ==> w'.db == w.db)
            && (!fate.Dropped? && id in w.db.operations
                && w.db.operations[id].status in {EventPending, EventPublished, RefundPending} ==>
                  && ClaimPending(w'.db, id, w.db.operations[id].status, until, later).Some?
                  && OperationOf(w'.db.operations[id]) == OperationOf(w.db.operations[id]))
  {
  }

  /** A recovery worker that holds the lock of a row it refunds. */
  ghost predicate RefundsUnderLock(pc: Pc)
  {
    (pc.Crediting? || pc.AwaitingCredit? || pc.SavingFailed?) && pc.refund.fromRecovery && pc.refund.target.ById?
  }

  /** It goes on with the refund, or turns to releasing the lock. */
  ghost predicate RefundsOrReleases(pc: Pc, pc': Pc)
    requires RefundsUnderLock(pc)
  {
    || ((pc'.Crediting? || pc'.AwaitingCredit? || pc'.SavingFailed?) && pc'.refund == pc.refund)
    || pc' == Releasing(pc.refund.target.id)
  }

  /** Sending a credit, or hearing of it, a recovery worker keeps to its refund or, unanswered, turns
      to releasing its lock. */
  lemma CreditKeepsOrReleases(w: World, i: nat, answered: bool)
    requires RefundsUnderLock(PcOf(w, i))
    ensures RefundsOrReleases(PcOf(w, i), PcOf(DoSendCredit(w, i), i))
    ensures RefundsOrReleases(PcOf(w, i), PcOf(DoHearCredit(w, i, answered), i))
    ensures PcOf(w, i).AwaitingCredit? ==>
              PcOf(DoHearCredit(w, i, false), i) == Releasing(PcOf(w, i).refund.target.id)
  {
  }

  /** Once the failure is saved, or not, it releases too. */
  lemma RefundLockIsReleased(w: World, i: nat, now: Time, fate: Fate)
    requires RefundsUnderLock(PcOf(w, i)) && PcOf(w, i).SavingFailed?
    ensures PcOf(DoSaveFailed(w, i, now, fate), i) == Releasing(PcOf(w, i).refund.target.id)
  {
  }

  /** A delivery's save that gets through leaves the delivered response and event, the new status
      and neither error, context, claim nor lock. */
  lemma DeliveredRowTells(w: World, i: nat, id: Uuid, now: Time, fate: Fate)
    requires PcOf(w, i).SavingPublished? || PcOf(w, i).SavingSucceeded?
    requires id in w.db.operations
    requires var d := PcOf(w, i).delivery;
             var w' := if PcOf(w, i).SavingPublished? then DoSavePublished(w, i, now, fate)
                       else DoSaveSucceeded(w, i, now, fate);
             id in w'.db.operations && w'.db.operations[id] != w.db.operations[id]
    ensures var d := PcOf(w, i).delivery;
            var w' := if PcOf(w, i).SavingPublished? then DoSavePublished(w, i, now, fate)
                      else DoSaveSucceeded(w, i, now, fate);
            var row := w'.db.operations[id];
            && row.status == (if PcOf(w, i).SavingPublished? then EventPublished else Succeeded)
            && row.response == Some(d.response) && row.event == Some(d.event) && row.errorCode.None?
            && row.context.None? && row.token.None? && row.leaseUntil.None? && row.lockedUntil.None?
  {
  }

  /** A failure that gets through keeps why: the code Asset rejected with, or the refund's reason. */
  lemma FailureTellsWhy(w: World, i: nat, id: Uuid, now: Time, fate: Fate)
    requires PcOf(w, i).Rejecting? || PcOf(w, i).SavingFailed?
    requires id in w.db.operations
    requires var w' := if PcOf(w, i).Rejecting? then DoFail(w, i, now, fate) else DoSaveFailed(w, i, now, fate);
             id in w'.db.operations && w'.db.operations[id] != w.db.operations[id]
    ensures var w' := if PcOf(w, i).Rejecting? then DoFail(w, i, now, fate) else DoSaveFailed(w, i, now, fate);
            var row := w'.db.operations[id];
            && row.status == Failed && row.response.None? && row.event.None? && row.context.None?
            && row.errorCode == Some(if PcOf(w, i).Rejecting? then PcOf(w, i).code else PcOf(w, i).refund.call.reason)
  {
  }

  /** What a recovery worker hears of the receipt decides: nothing, and it ends; received, and it
      saves that; not received, and it publishes the event again. */
  lemma ReceiptDecides(w: World, i: nat, answered: bool)
    requires Inv(w) && PcOf(w, i).CheckingReceipt?
    ensures var d, w' := PcOf(w, i).delivery, DoHearReceipt(w, i, answered);
            && w' == w.(workers := w'.workers)
            && PcOf(w', i) == (if answered && d.origin in w.rewards then SavingSucceeded(d)
                               else if answered then Publishing(d, 0)
                               else if d.target.ById? then Releasing(d.target.id) else Idle)
  {
    WorkerFact(w, i);
  }

  // ---- answers ----------------------------------------------------------------------------

  /** Only a delivery made for a request answers anyone, and only that request. */
  lemma OnlyRepliesAnswer(w: World, a: Action)
    requires IsDelivery(a)
    ensures var w', pc := ApplyDelivery(w, a), PcOf(w, a.i);
            w'.answers == w.answers
            || (a.SavePublished? && pc.SavingPublished? && pc.delivery.purpose.Reply?
                && w'.answers
                   == w.answers + {Answer(pc.delivery.origin, pc.delivery.requestHash, pc.delivery.response)})
  {
    match a
    case SendEvent(i) =>
    case HearAck(i, acked) =>
    case SavePublished(i, now, fate) => SaveAnswers(w, i, now, fate);
    case ScanPending(i, id) =>
    case TakePending(i, until, now, fate) =>
    case HearReceipt(i, answered) =>
    case SaveSucceeded(i, now, fate) =>
  }

  lemma SaveAnswers(w: World, i: nat, now: Time, fate: Fate)
    ensures var w', pc := DoSavePublished(w, i, now, fate), PcOf(w, i);
            if pc.SavingPublished? && pc.delivery.purpose.Reply?
            then w'.answers
                 == w.answers + {Answer(pc.delivery.origin, pc.delivery.requestHash, pc.delivery.response)}
            else w'.answers == w.answers
  {
  }

  /** Any two successful answers for one user and idempotency key, from first executions, lost-ack
      reconciliations or replays at any two moments, carry the identical response and answered
      the identical request. */
  lemma AnswersAgree(w0: World, actions: seq<Action>, more: seq<Action>, a: Answer, a': Answer)
    requires Init(w0)
    requires a in Run(w0, actions).answers && a' in Run(w0, actions + more).answers
    requires a.origin == a'.origin
    ensures a == a'
  {
    var w := Run(w0, actions);
    Accounting.RunJoins(w0, actions, more);
    ReachableInv(w0, actions);
    RunSafe(w, more);
    assert AnswerOk(w, a);
    AnswerGrows(w, Run(w, more), a);
    assert AnswerOk(Run(w, more), a');
  }

  /** A worker serving a request whose key already belongs to a different request. */
  ghost predicate Conflicting(w: World, i: nat)
  {
    var pc := PcOf(w, i);
    && (pc.LookingUp? || pc.Inserting? || pc.Claiming? || pc.Selecting?)
    && RowOf(w.db, pc.origin).Some? && RowOf(w.db, pc.origin).value.requestHash != pc.requestHash
  }

  /** Nothing changed but where worker i is, and which tokens were asked for. */
  ghost predicate Silent(w: World, w': World, i: nat)
  {
    w' == w.(workers := w'.workers, issued := w'.issued) && forall j :: j != i ==> PcOf(w', j) == PcOf(w, j)
  }

  lemma ConflictingStep(w: World, a: Action)
    requires IsRequest(a) && Conflicting(w, a.i)
    ensures var w' := ApplyRequest(w, a);
            Silent(w, w', a.i) && (PcOf(w', a.i).Idle? || Conflicting(w', a.i))
  {
    if a.LookUp? {
      ConflictingLookUp(w, a.i);
    } else if a.InsertRow? {
      ConflictingInsert(w, a);
    } else if a.ClaimRow? {
      ConflictingClaim(w, a);
    } else if a.SelectRow? {
      ConflictingSelect(w, a.i);
    }
  }

  lemma ConflictingLookUp(w: World, i: nat)
    requires Conflicting(w, i)
    ensures var w' := DoLookUp(w, i); Silent(w, w', i) && (PcOf(w', i).Idle? || Conflicting(w', i))
  {
    if PcOf(w, i).LookingUp? {
      var LookingUp(origin, requestHash) := PcOf(w, i);
      var row := RowOf(w.db, origin).value;
      if row.context.Some? {
        assert DoLookUp(w, i) == Go(w, i, Inserting(origin, requestHash, row.context.value));
      } else {
        assert DoLookUp(w, i) == Go(w, i, Idle);
      }
    }
  }

  lemma ConflictingInsert(w: World, a: Action)
    requires a.InsertRow? && Conflicting(w, a.i)
    ensures var w' := DoInsert(w, a.i, a.id, a.token, a.until, a.now, a.fate);
            Silent(w, w', a.i) && (PcOf(w', a.i).Idle? || Conflicting(w', a.i))
  {
  }

  lemma ConflictingClaim(w: World, a: Action)
    requires a.ClaimRow? && Conflicting(w, a.i)
    ensures var w' := DoClaim(w, a.i, a.token, a.until, a.now, a.fate);
            Silent(w, w', a.i) && (PcOf(w', a.i).Idle? || Conflicting(w', a.i))
  {
  }

  lemma ConflictingSelect(w: World, i: nat)
    requires Conflicting(w, i)
    ensures var w' := DoSelect(w, i); Silent(w, w', i) && (PcOf(w', i).Idle? || Conflicting(w', i))
  {
  }

  lemma ConflictingElsewhere(w: World, a: Action)
    requires ActorOf(a).Some? && !IsRequest(a) && Conflicting(w, a.i)
    ensures Apply(w, a) == w
  {
    if IsExecution(a) {
      ConflictingExecutes(w, a);
    } else if IsDelivery(a) {
      ConflictingDelivers(w, a);
    } else {
      ConflictingRecovers(w, a);
    }
  }

  lemma ConflictingExecutes(w: World, a: Action)
    requires IsExecution(a) && Conflicting(w, a.i)
    ensures ApplyExecution(w, a) == w
  {
  }

  lemma ConflictingDelivers(w: World, a: Action)
    requires IsDelivery(a) && Conflicting(w, a.i)
    ensures ApplyDelivery(w, a) == w
  {
  }

  lemma ConflictingRecovers(w: World, a: Action)
    requires IsRecovery(a) && Conflicting(w, a.i)
    ensures ApplyRecovery(w, a) == w
  {
  }

  /** Until worker i is idle again, each of its own actions is silent. */
  ghost predicate SilentUntilIdle(w: World, actions: seq<Action>, i: nat)
    decreases |actions|
  {
    if actions == [] || PcOf(w, i).Idle? then true
    else
      && (ActorOf(actions[0]) == Some(i) ==> Silent(w, Apply(w, actions[0]), i))
      && SilentUntilIdle(Apply(w, actions[0]), actions[1..], i)
  }

  /** A request that reuses a key with a different hash changes no row, ledger, log, reward or
      answer, whatever other workers do meanwhile. */
  lemma {:induction false} ConflictingRequestChangesNothing(w: World, actions: seq<Action>, i: nat)
    requires Inv(w) && Conflicting(w, i)
    ensures SilentUntilIdle(w, actions, i)
    decreases |actions|
  {
    if actions != [] {
      var a := actions[0];
      var w' := Apply(w, a);
      ActionSafe(w, a);
      ConflictPersists(w, a, i);
      if !PcOf(w', i).Idle? {
        ConflictingRequestChangesNothing(w', actions[1..], i);
      } else {
        IdleIsSilent(w', actions[1..], i);
      }
    }
  }

  lemma IdleIsSilent(w: World, actions: seq<Action>, i: nat)
    requires PcOf(w, i).Idle?
    ensures SilentUntilIdle(w, actions, i)
  {
  }

  lemma ConflictPersists(w: World, a: Action, i: nat)
    requires Inv(w) && Conflicting(w, i)
    ensures ActorOf(a) == Some(i) ==> Silent(w, Apply(w, a), i)
    ensures PcOf(Apply(w, a), i).Idle? || Conflicting(Apply(w, a), i)
  {
    if ActorOf(a) == Some(i) {
      if IsRequest(a) {
        ConflictingStep(w, a);
      } else {
        ConflictingElsewhere(w, a);
      }
    } else {
      ActionSafe(w, a);
      if ActorOf(a).Some? {
        ActionStep(w, a);
      } else {
        OutsideStep(w, a);
      }
      ConflictSurvivesGrowth(w, Apply(w, a), i);
    }
  }

  lemma ConflictSurvivesGrowth(w: World, w': World, i: nat)
    requires Inv(w) && Conflicting(w, i) && Grows(w, w') && PcOf(w', i) == PcOf(w, i)
    ensures Conflicting(w', i)
  {
    KnownRow(w, PcOf(w, i).origin);
    KnownGrows(w, w', PcOf(w, i).origin);
  }

  /** The request step itself: starting a request under a key that belongs to a different one
      gets no further than that. */
  lemma StartingAConflict(w: World, i: nat, origin: UserKey, request: PullRequest, source: Source, acceptedAt: Time,
                          engineVersion: string, engineBuildSha: string)
    requires PcOf(w, i).Idle? && RowOf(w.db, origin).Some?
    requires var seed := if request.seed.Some? then request.seed.value else w.seedOf(origin);
             RowOf(w.db, origin).value.requestHash != RequestHash(request.bannerId, request.count, seed)
    ensures var w' := DoStart(w, i, origin, request, source, acceptedAt, engineVersion, engineBuildSha);
            Silent(w, w', i) && (PcOf(w', i).Idle? || Conflicting(w', i))
  {
    if request.count in {1, 10} && SnapshotOf(w, source).Ok? {
      var seed := if request.seed.Some? then request.seed.value else w.seedOf(origin);
      var requestHash := RequestHash(request.bannerId, request.count, seed);
      match RequestContext(SnapshotOf(w, source).value, origin, request.bannerId, request.count, seed, acceptedAt,
                           engineVersion, engineBuildSha)
      case Err(_) =>
      case Ok(None) => ConflictFound(w, i, LookingUp(origin, requestHash));
      case Ok(Some(context)) => ConflictFound(w, i, Inserting(origin, requestHash, context));
    }
  }

  lemma ConflictFound(w: World, i: nat, pc: Pc)
    requires pc.LookingUp? || pc.Inserting?
    requires RowOf(w.db, pc.origin).Some? && RowOf(w.db, pc.origin).value.requestHash != pc.requestHash
    ensures Silent(w, Go(w, i, pc), i) && Conflicting(Go(w, i, pc), i)
  {
  }
}
