/** Failure is free exactly when Asset's first definite answer is final: without that, a rejected
    spend that Asset later charges leaves a failed operation that the player paid for. */
module StickyAnswers {
  import opened Collections
  import opened CatalogConfig
  import opened Schemas
  import opened PullOperations
  import opened Store
  import opened Protocol
  import opened Invariant
  import opened Safety
  import opened Recoverability
  import opened AcceptedPulls

  lemma RejectionTaken(w: World, call: SpendCall)
    requires call in w.ledger.spendCalls && call.charge.eventId.origin !in w.ledger.charged
    ensures DoLedgerReject(w, call)
         == w.(ledger := w.ledger.(rejected := w.ledger.rejected + {call.charge.eventId.origin}))
  {
  }

  /** Asset's rejection of a spend reaches the worker, which has still to save it. */
  lemma GetsRefused(step: StepFunction, w: World, i: nat, job: Job) returns (actions: seq<Action>)
    requires ExecutionRuns(step) && OutsideRuns(step) && PcOf(w, i) == Charging(job)
    requires job.context.eventId.origin !in w.ledger.charged
    ensures var w' := RunWith(step, w, actions);
            && PcOf(w', i) == Rejecting(job, "rejected") && w'.db == w.db && w'.frozen == w.frozen
            && w'.sticky == w.sticky && w'.ledger.charged == w.ledger.charged
            && CallOf(job) in w'.ledger.spendCalls
  {
    var refused, heard := [SendSpend(i), LedgerReject(CallOf(job))], HearSpend(i, SpendRejected("rejected"));
    SpendSent(w, i, job);
    RunTwo(step, w, SendSpend(i), LedgerReject(CallOf(job)));
    RejectionTaken(DoSendSpend(w, i), CallOf(job));
    var w1 := RunWith(step, w, refused);
    actions := refused + [heard];
    RunWithJoins(step, w, refused, [heard]);
    RunOne(step, w1, heard);
    RejectionHeard(w1, i, job);
  }

  lemma ChargedAfterAll(w: World, call: SpendCall)
    requires call in w.ledger.spendCalls && call.charge.eventId.origin !in w.ledger.charged && !w.sticky
    ensures DoLedgerCharge(w, call)
         == w.(ledger := w.ledger.(charged := w.ledger.charged[call.charge.eventId.origin := call]))
  {
  }

  lemma FailureSaved(w: World, i: nat, job: Job)
    requires PcOf(w, i) == Rejecting(job, "rejected")
    requires Owns(w.db, job.id, job.origin.user, job.requestHash, job.token)
    ensures var w' := DoFail(w, i, 0, Acked);
            && job.id in w'.db.operations && w'.db.operations[job.id].status.Failed?
            && w'.db.operations[job.id].origin == w.db.operations[job.id].origin
            && w'.db.byUserKey == w.db.byUserKey && w'.frozen == w.frozen && w'.ledger == w.ledger
  {
  }

  /** Asset charges after all, and then the failure is saved. */
  lemma ChargedThenFailed(step: StepFunction, w: World, i: nat, job: Job) returns (actions: seq<Action>)
    requires ExecutionRuns(step) && OutsideRuns(step) && PcOf(w, i) == Rejecting(job, "rejected")
    requires Owns(w.db, job.id, job.origin.user, job.requestHash, job.token)
    requires CallOf(job) in w.ledger.spendCalls && job.context.eventId.origin !in w.ledger.charged && !w.sticky
    ensures var w' := RunWith(step, w, actions);
            && job.id in w'.db.operations && w'.db.operations[job.id].status.Failed?
            && w'.db.operations[job.id].origin == w.db.operations[job.id].origin
            && w'.db.byUserKey == w.db.byUserKey && w'.frozen == w.frozen
            && job.context.eventId.origin in w'.ledger.charged
  {
    actions := [LedgerCharge(CallOf(job)), Fail(i, 0, Acked)];
    RunTwo(step, w, LedgerCharge(CallOf(job)), Fail(i, 0, Acked));
    ChargedAfterAll(w, CallOf(job));
    FailureSaved(DoLedgerCharge(w, CallOf(job)), i, job);
  }

  lemma PaysForFailure(step: StepFunction, w: World, i: nat, arrival: Arrival, context: PullRecoveryContext)
    returns (actions: seq<Action>)
    requires AllRuns(step) && !w.sticky && Freezes(w, arrival, context)
    requires arrival.origin !in w.db.byUserKey && arrival.origin !in w.ledger.charged
    ensures var w' := RunWith(step, w, actions);
            Known(w', arrival.origin) && RowAt(w', arrival.origin).status.Failed?
            && arrival.origin in w'.ledger.charged
  {
    FreezesItsKey(w, arrival, context);
    var accepted, job := GetsAccepted(step, w, i, arrival, context);
    var w1 := RunWith(step, w, accepted);
    var refused := GetsRefused(step, w1, i, job);
    var failed := ChargedThenFailed(step, RunWith(step, w1, refused), i, job);
    actions := accepted + (refused + failed);
    RunWithJoins(step, w1, refused, failed);
    RunWithJoins(step, w, accepted, refused + failed);
  }

  lemma NewKeysAreUncharged(w: World, o: UserKey)
    requires Inv(w) && o !in w.db.byUserKey
    ensures o !in w.ledger.charged
  {
    assert o !in w.frozen.Keys && o !in w.db.byUserKey.Keys;
    assert o in w.ledger.charged ==> ChargedOk(w, o) && SpendOk(w, w.ledger.charged[o]);
  }

  /** If Asset's answers are not final, then in every reachable world, and for every new request
      the service would serve from any catalog, there is a way on to a failed operation that was
      charged. */
  lemma FailureCanCost(w0: World, before: seq<Action>, i: nat, arrival: Arrival, context: PullRecoveryContext)
    returns (actions: seq<Action>)
    requires Init(w0) && !w0.sticky
    requires Freezes(Run(w0, before), arrival, context) && arrival.origin !in Run(w0, before).db.byUserKey
    ensures var w := Run(Run(w0, before), actions);
            && Known(w, arrival.origin) && RowAt(w, arrival.origin).status.Failed?
            && arrival.origin in w.ledger.charged
  {
    InitInv(w0);
    RunSafe(w0, before);
    NewKeysAreUncharged(Run(w0, before), arrival.origin);
    ApplyRuns();
    actions := PaysForFailure(Apply, Run(w0, before), i, arrival, context);
    RunIsRunWith(Run(w0, before), actions);
  }
}
