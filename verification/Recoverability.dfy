/** Nothing gets stuck: from every reachable world, one worker and answering services take every
    unfinished operation to succeeded or failed, each round moving its status one step along. */
module Recoverability {
  import opened Collections
  import opened CatalogConfig
  import opened Schemas
  import opened Engine
  import opened EngineRules
  import opened PullOperations
  import opened Store
  import opened Protocol
  import opened Invariant
  import opened Steps
  import opened Safety
  import opened Lifecycle
  import opened Linearizability
  import opened Accounting

  // The schedules below are run by an abstract step function that is known only to act on each
  // group of actions as the protocol does; `Apply` is such a function.

  type StepFunction = (World, Action) -> World

  function RunWith(step: StepFunction, w: World, actions: seq<Action>): (w': World)
    decreases |actions|
  {
    if actions == [] then w else RunWith(step, step(w, actions[0]), actions[1..])
  }

  ghost predicate RequestRuns(step: StepFunction)
  {
    forall w, a {:trigger step(w, a)} :: IsRequest(a) ==> step(w, a) == ApplyRequest(w, a)
  }

  ghost predicate ExecutionRuns(step: StepFunction)
  {
    forall w, a {:trigger step(w, a)} :: IsExecution(a) ==> step(w, a) == ApplyExecution(w, a)
  }

  ghost predicate DeliveryRuns(step: StepFunction)
  {
    forall w, a {:trigger step(w, a)} :: IsDelivery(a) ==> step(w, a) == ApplyDelivery(w, a)
  }

  ghost predicate RecoveryRuns(step: StepFunction)
  {
    forall w, a {:trigger step(w, a)} :: IsRecovery(a) ==> step(w, a) == ApplyRecovery(w, a)
  }

  ghost predicate OutsideRuns(step: StepFunction)
  {
    forall w, a {:trigger step(w, a)} :: IsOutside(a) ==> step(w, a) == ApplyOutside(w, a)
  }

  ghost predicate AllRuns(step: StepFunction)
  {
    RequestRuns(step) && ExecutionRuns(step) && DeliveryRuns(step) && RecoveryRuns(step) && OutsideRuns(step)
  }

  lemma {:induction false} RunWithJoins(step: StepFunction, w: World, actions: seq<Action>, more: seq<Action>)
    ensures RunWith(step, w, actions + more) == RunWith(step, RunWith(step, w, actions), more)
    decreases |actions|
  {
    if actions == [] {
      assert actions + more == more;
    } else {
      RunWithJoins(step, step(w, actions[0]), actions[1..], more);
      assert (actions + more)[1..] == actions[1..] + more;
    }
  }

  lemma RunTwo(step: StepFunction, w: World, a: Action, b: Action)
    ensures RunWith(step, w, [a, b]) == step(step(w, a), b)
  {
    assert [a, b][1..] == [b] && [b][1..] == [];
    assert RunWith(step, step(w, a), [b]) == RunWith(step, step(step(w, a), b), []);
  }

  lemma RunThree(step: StepFunction, w: World, a: Action, b: Action, c: Action)
    ensures RunWith(step, w, [a, b, c]) == step(step(step(w, a), b), c)
  {
    assert [a, b, c][1..] == [b, c];
    RunTwo(step, step(w, a), b, c);
  }

  /** A moment after a lease or lock has run out. */
  function After(until: Option<Time>): (now: Time)
    ensures Lapsed(until, now)
  {
    if until.None? then 0 else until.value + 1
  }

  lemma {:induction false} FreshToken(issued: set<Uuid>) returns (token: Uuid)
    ensures forall t :: t in issued ==> t < token
  {
    if issued == {} {
      token := 0;
    } else {
      var t := Element(issued);
      var beyond := FreshToken(issued - {t});
      token := if beyond > t then beyond else t + 1;
      assert forall u :: u in issued ==> u == t || u in issued - {t};
    }
  }

  // ---- scans ------------------------------------------------------------------------------

  /** An idle worker takes up exactly the rows that await its scan: processing ones with a context
      whose lease has lapsed, */
  lemma ScansExactly(w: World, i: nat, id: Uuid, now: Time)
    requires PcOf(w, i).Idle?
    ensures PcOf(DoScanExpired(w, i, id, now), i) == ClaimingExpired(id) <==>
              && id in w.db.operations && w.db.operations[id].status == Processing
              && w.db.operations[id].context.Some?
              && (w.db.operations[id].leaseUntil.Some? ==> w.db.operations[id].leaseUntil.value < now)
  {
  }

  /** committed ones short of succeeded, and pending refunds with a context. */
  lemma PendingScansExactly(w: World, i: nat, id: Uuid)
    requires PcOf(w, i).Idle?
    ensures PcOf(DoScanPending(w, i, id), i).ClaimingPending? <==>
              id in w.db.operations && w.db.operations[id].status in {EventPending, EventPublished}
    ensures PcOf(DoScanRefund(w, i, id), i).ClaimingRefund? <==>
              && id in w.db.operations && w.db.operations[id].status == RefundPending
              && w.db.operations[id].context.Some?
  {
  }

  // ---- processing -------------------------------------------------------------------------

  lemma ExpiredFound(w: World, i: nat, id: Uuid, now: Time)
    requires PcOf(w, i).Idle? && id in w.db.operations
    requires var row := w.db.operations[id];
             row.status.Processing? && row.context.Some? && Lapsed(row.leaseUntil, now)
    ensures DoScanExpired(w, i, id, now) == Go(w, i, ClaimingExpired(id))
  {
  }

  lemma ExpiredTaken(w: World, i: nat, id: Uuid, token: Uuid, now: Time)
    requires PcOf(w, i) == ClaimingExpired(id) && token !in w.issued && id in w.db.operations
    requires var row := w.db.operations[id];
             row.status.Processing? && row.context.Some? && Lapsed(row.leaseUntil, now)
    ensures var row, w' := w.db.operations[id], DoTakeExpired(w, i, token, now, now, Acked);
            && PcOf(w', i) == Charging(Job(id, row.origin, row.requestHash, token, row.context.value))
            && w'.db == Put(w.db, id, row.(token := Some(token), leaseUntil := Some(now), updatedAt := now))
            && w'.ledger == w.ledger && w'.engine == w.engine
  {
  }

  /** Recovery takes over an expired claim, on the context frozen with it. */
  lemma TakesOver(step: StepFunction, w: World, i: nat, id: Uuid) returns (actions: seq<Action>, job: Job)
    requires RequestRuns(step) && RecoveryRuns(step) && id in w.db.operations
    requires w.db.operations[id].status.Processing? && w.db.operations[id].context.Some?
    ensures var w' := RunWith(step, w, actions);
            && PcOf(w', i) == Charging(job) && Owns(w'.db, id, job.origin.user, job.requestHash, job.token)
            && job.id == id && job.origin == w.db.operations[id].origin
            && job.context == w.db.operations[id].context.value
            && w'.ledger == w.ledger && w'.engine == w.engine && w'.db.pity == w.db.pity
  {
    var row := w.db.operations[id];
    var token := FreshToken(w.issued);
    var now := After(row.leaseUntil);
    actions := [Crash(i), ScanExpired(i, id, now), TakeExpired(i, token, now, now, Acked)];
    RunThree(step, w, Crash(i), ScanExpired(i, id, now), TakeExpired(i, token, now, now, Acked));
    var crashed := Go(w, i, Idle);
    var found := Go(crashed, i, ClaimingExpired(id));
    ExpiredFound(crashed, i, id, now);
    assert step(w, Crash(i)) == crashed && step(crashed, ScanExpired(i, id, now)) == found;
    ExpiredTaken(found, i, id, token, now);
    job := Job(id, row.origin, row.requestHash, token, row.context.value);
  }

  ghost function CallOf(job: Job): (call: SpendCall)
  {
    SpendCall(job.origin.user, ChargeOf(job.context))
  }

  lemma SpendSent(w: World, i: nat, job: Job)
    requires PcOf(w, i) == Charging(job)
    ensures var w' := DoSendSpend(w, i);
            && PcOf(w', i) == AwaitingCharge(job) && CallOf(job) in w'.ledger.spendCalls
            && w' == w.(ledger := w'.ledger, workers := w'.workers)
            && w'.ledger == w.ledger.(spendCalls := w'.ledger.spendCalls)
  {
  }

  lemma ChargeTaken(w: World, call: SpendCall)
    requires var key := call.charge.eventId.origin;
             call in w.ledger.spendCalls && key !in w.ledger.charged && key !in w.ledger.rejected
    ensures var w', key := DoLedgerCharge(w, call), call.charge.eventId.origin;
            && w' == w.(ledger := w'.ledger) && key in w'.ledger.charged && w'.ledger.charged[key] == call
  {
  }

  lemma ChargeHeard(w: World, i: nat, job: Job)
    requires PcOf(w, i) == AwaitingCharge(job)
    requires var key := job.context.eventId.origin; key in w.ledger.charged && w.ledger.charged[key] == CallOf(job)
    ensures DoHearSpend(w, i, SpendAccepted)
         == Go(w, i, ReadingPity(job, 1, |Hist(w, PityKey(job.origin.user, job.context.pityGroupId))|))
  {
  }

  /** The spend is on the wire, and Asset has charged it, before or now. */
  lemma SpendIsApplied(step: StepFunction, w: World, i: nat, job: Job) returns (actions: seq<Action>)
    requires ExecutionRuns(step) && OutsideRuns(step) && PcOf(w, i) == Charging(job)
    requires var key := job.context.eventId.origin;
             if key in w.ledger.charged then w.ledger.charged[key] == CallOf(job) else key !in w.ledger.rejected
    ensures var w', key := RunWith(step, w, actions), job.context.eventId.origin;
            && w' == w.(ledger := w'.ledger, workers := w'.workers) && PcOf(w', i) == AwaitingCharge(job)
            && key in w'.ledger.charged && w'.ledger.charged[key] == CallOf(job)
  {
    SpendSent(w, i, job);
    if job.context.eventId.origin in w.ledger.charged {
      actions := [SendSpend(i)];
      RunOne(step, w, SendSpend(i));
    } else {
      actions := [SendSpend(i), LedgerCharge(CallOf(job))];
      RunTwo(step, w, SendSpend(i), LedgerCharge(CallOf(job)));
      ChargeTaken(DoSendSpend(w, i), CallOf(job));
    }
  }

  /** Asset, asked again under the same key, answers what it did or charges now. */
  lemma GetsCharged(step: StepFunction, w: World, i: nat, job: Job) returns (actions: seq<Action>, start: nat)
    requires ExecutionRuns(step) && OutsideRuns(step) && PcOf(w, i) == Charging(job)
    requires var key := job.context.eventId.origin;
             if key in w.ledger.charged then w.ledger.charged[key] == CallOf(job) else key !in w.ledger.rejected
    ensures var w' := RunWith(step, w, actions);
            && PcOf(w', i) == ReadingPity(job, 1, start) && w'.db == w.db && w'.engine == w.engine
            && w'.releases == w.releases && w'.legacy == w.legacy && w'.frozen == w.frozen
            && job.context.eventId.origin in w'.ledger.charged
  {
    var applied := SpendIsApplied(step, w, i, job);
    var w1 := RunWith(step, w, applied);
    start := |Hist(w1, PityKey(job.origin.user, job.context.pityGroupId))|;
    actions := applied + [HearSpend(i, SpendAccepted)];
    RunWithJoins(step, w, applied, [HearSpend(i, SpendAccepted)]);
    RunOne(step, w1, HearSpend(i, SpendAccepted));
    ChargeHeard(w1, i, job);
  }

  lemma GetsRejected(step: StepFunction, w: World, i: nat, job: Job) returns (actions: seq<Action>)
    requires ExecutionRuns(step) && PcOf(w, i) == Charging(job)
    requires job.context.eventId.origin in w.ledger.rejected
    requires Owns(w.db, job.id, job.origin.user, job.requestHash, job.token)
    ensures var w' := RunWith(step, w, actions);
            job.id in w'.db.operations && w'.db.operations[job.id].status.Failed?
  {
    actions := [SendSpend(i), HearSpend(i, SpendRejected("rejected")), Fail(i, 0, Acked)];
    RunThree(step, w, SendSpend(i), HearSpend(i, SpendRejected("rejected")), Fail(i, 0, Acked));
    SpendSent(w, i, job);
    RejectionHeard(DoSendSpend(w, i), i, job);
    FailureLands(Go(DoSendSpend(w, i), i, Rejecting(job, "rejected")), i, job);
  }

  lemma RejectionHeard(w: World, i: nat, job: Job)
    requires PcOf(w, i) == AwaitingCharge(job) && job.context.eventId.origin in w.ledger.rejected
    ensures DoHearSpend(w, i, SpendRejected("rejected")) == Go(w, i, Rejecting(job, "rejected"))
  {
  }

  lemma FailureLands(w: World, i: nat, job: Job)
    requires PcOf(w, i) == Rejecting(job, "rejected")
    requires Owns(w.db, job.id, job.origin.user, job.requestHash, job.token)
    ensures var w' := DoFail(w, i, 0, Acked);
            job.id in w'.db.operations && w'.db.operations[job.id].status.Failed?
  {
  }

  lemma PityIsRead(w: World, i: nat, job: Job, start: nat)
    requires PcOf(w, i) == ReadingPity(job, 1, start)
    requires w.engine(job.context, StoredPity(w.db, KeyOf(job.origin, job.context)).pity).Ok?
    ensures var previous := StoredPity(w.db, KeyOf(job.origin, job.context));
            DoReadPity(w, i, true)
            == Go(w, i, Committing(job, 1, start, MakeResponse(job.context, previous,
                                                               w.engine(job.context, previous.pity).value)))
  {
  }

  lemma CommitLands(w: World, i: nat, job: Job, start: nat, response: PullResponse)
    requires PcOf(w, i) == Committing(job, 1, start, response)
    requires Owns(w.db, job.id, job.origin.user, job.requestHash, job.token)
    requires response.previousPity == StoredPity(w.db, KeyOf(job.origin, job.context))
    ensures var w' := DoCommit(w, i, 0, Acked);
            && job.id in w'.db.operations && w'.db.operations[job.id].status.EventPending?
            && w'.db.operations[job.id].response == Some(response)
            && w'.db.operations[job.id].origin == w.db.operations[job.id].origin
            && w'.releases == w.releases
  {
  }

  /** With no one else about, the first commit attempt succeeds. */
  lemma GetsCommitted(step: StepFunction, w: World, i: nat, job: Job, start: nat) returns (actions: seq<Action>)
    requires ExecutionRuns(step) && PcOf(w, i) == ReadingPity(job, 1, start)
    requires Owns(w.db, job.id, job.origin.user, job.requestHash, job.token)
    requires w.engine(job.context, StoredPity(w.db, KeyOf(job.origin, job.context)).pity).Ok?
    ensures var w' := RunWith(step, w, actions);
            && job.id in w'.db.operations && w'.db.operations[job.id].status.EventPending?
            && w'.db.operations[job.id].response.Some?
            && w'.db.operations[job.id].response.value.audit == job.context.audit
            && w'.db.operations[job.id].origin == w.db.operations[job.id].origin
            && w'.releases == w.releases
  {
    actions := [ReadPity(i, true), CommitPull(i, 0, Acked)];
    RunTwo(step, w, ReadPity(i, true), CommitPull(i, 0, Acked));
    var previous := StoredPity(w.db, KeyOf(job.origin, job.context));
    var response := MakeResponse(job.context, previous, w.engine(job.context, previous.pity).value);
    PityIsRead(w, i, job, start);
    CommitLands(Go(w, i, Committing(job, 1, start, response)), i, job, start, response);
  }

  /** The engine has an answer for a processing operation on the pity it would start from. */
  ghost predicate EngineAnswers(w: World, id: Uuid)
    requires id in w.db.operations
  {
    var row := w.db.operations[id];
    row.status.Processing? && row.context.Some? ==>
      w.engine(row.context.value, StoredPity(w.db, KeyOf(row.origin, row.context.value)).pity).Ok?
  }

  lemma GetsPulled(step: StepFunction, w: World, i: nat, job: Job) returns (actions: seq<Action>)
    requires ExecutionRuns(step) && OutsideRuns(step) && PcOf(w, i) == Charging(job)
    requires Owns(w.db, job.id, job.origin.user, job.requestHash, job.token)
    requires var key := job.context.eventId.origin;
             if key in w.ledger.charged then w.ledger.charged[key] == CallOf(job) else key !in w.ledger.rejected
    requires w.engine(job.context, StoredPity(w.db, KeyOf(job.origin, job.context)).pity).Ok?
    ensures var w' := RunWith(step, w, actions);
            job.id in w'.db.operations && w'.db.operations[job.id].status.EventPending?
  {
    var charged, start := GetsCharged(step, w, i, job);
    var committed := GetsCommitted(step, RunWith(step, w, charged), i, job, start);
    actions := charged + committed;
    RunWithJoins(step, w, charged, committed);
  }

  lemma ProcessingAdvances(step: StepFunction, w: World, i: nat, id: Uuid) returns (actions: seq<Action>)
    requires AllRuns(step) && Inv(w) && id in w.db.operations && w.db.operations[id].status.Processing?
    requires EngineAnswers(w, id)
    ensures var w' := RunWith(step, w, actions);
            && id in w'.db.operations
            && (w'.db.operations[id].status.EventPending? || w'.db.operations[id].status.Failed?)
  {
    RowKnown(w, id);
    var o := w.db.operations[id].origin;
    ChargedAsFrozen(w, o);
    var taken, job := TakesOver(step, w, i, id);
    var w1 := RunWith(step, w, taken);
    var decided;
    if o in w.ledger.rejected && o !in w.ledger.charged {
      decided := GetsRejected(step, w1, i, job);
    } else {
      decided := GetsPulled(step, w1, i, job);
    }
    actions := taken + decided;
    RunWithJoins(step, w, taken, decided);
  }

  lemma ChargedAsFrozen(w: World, o: UserKey)
    requires Inv(w) && Known(w, o)
    ensures o in w.ledger.charged ==> w.ledger.charged[o] == SpendCall(o.user, ChargeOf(ContextAt(w, o)))
  {
    assert o in w.ledger.charged ==> ChargedOk(w, o) && SpendOk(w, w.ledger.charged[o]);
  }

  // ---- delivery ---------------------------------------------------------------------------

  ghost predicate Carries(row: OperationRow, d: Delivery)
  {
    && row.requestHash == d.requestHash && row.response == Some(d.response) && row.event == Some(d.event)
  }

  lemma PendingFound(w: World, i: nat, id: Uuid)
    requires PcOf(w, i).Idle? && id in w.db.operations
    requires w.db.operations[id].status.EventPending? || w.db.operations[id].status.EventPublished?
    ensures DoScanPending(w, i, id) == Go(w, i, ClaimingPending(id, OperationOf(w.db.operations[id])))
  {
  }

  lemma PendingTaken(w: World, i: nat, id: Uuid, now: Time)
    requires id in w.db.operations && PcOf(w, i) == ClaimingPending(id, OperationOf(w.db.operations[id]))
    requires var row := w.db.operations[id];
             && (row.status.EventPending? || row.status.EventPublished?) && row.response.Some? && row.event.Some?
             && Lapsed(row.lockedUntil, now)
    ensures var row, w' := w.db.operations[id], DoTakePending(w, i, now, now, Acked);
            var d := Delivery(ById(id), row.event.value.eventId.origin, row.requestHash, row.response.value,
                              row.event.value, if row.status.EventPending? then Recover else Redeliver);
            && PcOf(w', i) == (if row.status.EventPending? then Publishing(d, 0) else CheckingReceipt(d))
            && w'.db == Put(w.db, id, row.(lockedUntil := Some(now), updatedAt := now))
            && w'.log == w.log && w'.rewards == w.rewards
  {
  }

  lemma LocksPending(step: StepFunction, w: World, i: nat, id: Uuid) returns (actions: seq<Action>, d: Delivery)
    requires RequestRuns(step) && DeliveryRuns(step) && id in w.db.operations
    requires var row := w.db.operations[id];
             (row.status.EventPending? || row.status.EventPublished?) && row.response.Some? && row.event.Some?
    ensures var row, w' := w.db.operations[id], RunWith(step, w, actions);
            && PcOf(w', i) == (if row.status.EventPending? then Publishing(d, 0) else CheckingReceipt(d))
            && d.target == ById(id) && Carries(row, d)
            && d.purpose == (if row.status.EventPending? then Recover else Redeliver)
            && id in w'.db.operations && Carries(w'.db.operations[id], d)
            && w'.db.operations[id].status == row.status
            && w'.log == w.log && w'.rewards == w.rewards
  {
    var row := w.db.operations[id];
    var now := After(row.lockedUntil);
    actions := [Crash(i), ScanPending(i, id), TakePending(i, now, now, Acked)];
    RunThree(step, w, Crash(i), ScanPending(i, id), TakePending(i, now, now, Acked));
    var crashed := Go(w, i, Idle);
    var found := Go(crashed, i, ClaimingPending(id, OperationOf(row)));
    PendingFound(crashed, i, id);
    assert step(w, Crash(i)) == crashed && step(crashed, ScanPending(i, id)) == found;
    PendingTaken(found, i, id, now);
    d := Delivery(ById(id), row.event.value.eventId.origin, row.requestHash, row.response.value, row.event.value,
                  if row.status.EventPending? then Recover else Redeliver);
  }

  lemma EventSent(w: World, i: nat, d: Delivery)
    requires PcOf(w, i) == Publishing(d, 0)
    ensures var w' := DoSendEvent(w, i);
            PcOf(w', i) == AwaitingAck(d, 0) && d.event in w'.sent && w'.db == w.db && w'.answers == w.answers
  {
  }

  lemma EventAppended(w: World, event: PullCompletedEvent)
    requires event in w.sent
    ensures DoLogAppend(w, event) == w.(log := w.log + [event])
  {
  }

  lemma AckHeard(w: World, i: nat, d: Delivery)
    requires PcOf(w, i) == AwaitingAck(d, 0) && d.event in w.log && !d.purpose.Redeliver?
    ensures DoHearAck(w, i, true) == Go(w, i, SavingPublished(d))
  {
  }

  lemma GetsAcked(step: StepFunction, w: World, i: nat, d: Delivery) returns (actions: seq<Action>)
    requires DeliveryRuns(step) && OutsideRuns(step) && PcOf(w, i) == Publishing(d, 0) && !d.purpose.Redeliver?
    ensures var w' := RunWith(step, w, actions); PcOf(w', i) == SavingPublished(d) && w'.db == w.db
  {
    actions := [SendEvent(i), LogAppend(d.event), HearAck(i, true)];
    RunThree(step, w, SendEvent(i), LogAppend(d.event), HearAck(i, true));
    EventSent(w, i, d);
    EventAppended(DoSendEvent(w, i), d.event);
    AckHeard(DoLogAppend(DoSendEvent(w, i), d.event), i, d);
  }

  lemma SaveLands(w: World, id: Uuid, d: Delivery, status: PullOperationStatus)
    requires id in w.db.operations && Carries(w.db.operations[id], d)
    requires w.db.operations[id].status.EventPending? || w.db.operations[id].status.EventPublished?
    requires status.EventPublished? || status.Succeeded?
    ensures Attempted(w.db, ById(id), Delivered(d, status), 0, Acked)
         == Put(w.db, id, Saved(w.db.operations[id], Delivered(d, status), 0))
  {
  }

  lemma GetsPublished(step: StepFunction, w: World, i: nat, id: Uuid, d: Delivery)
    requires DeliveryRuns(step) && PcOf(w, i) == SavingPublished(d) && d.target == ById(id)
    requires id in w.db.operations && w.db.operations[id].status.EventPending? && Carries(w.db.operations[id], d)
    ensures var w' := RunWith(step, w, [SavePublished(i, 0, Acked)]);
            id in w'.db.operations && w'.db.operations[id].status.EventPublished?
  {
    RunOne(step, w, SavePublished(i, 0, Acked));
    SaveLands(w, id, d, EventPublished);
  }

  lemma RunOne(step: StepFunction, w: World, a: Action)
    ensures RunWith(step, w, [a]) == step(w, a)
  {
    assert [a][1..] == [];
    assert RunWith(step, step(w, a), []) == step(w, a);
  }

  lemma PendingAdvances(step: StepFunction, w: World, i: nat, id: Uuid) returns (actions: seq<Action>)
    requires AllRuns(step) && Inv(w) && id in w.db.operations && w.db.operations[id].status.EventPending?
    ensures var w' := RunWith(step, w, actions);
            id in w'.db.operations && w'.db.operations[id].status.EventPublished?
  {
    RowKnown(w, id);
    var locked, d := LocksPending(step, w, i, id);
    var w1 := RunWith(step, w, locked);
    var acked := GetsAcked(step, w1, i, d);
    var w2 := RunWith(step, w1, acked);
    GetsPublished(step, w2, i, id, d);
    var saved := [SavePublished(i, 0, Acked)];
    actions := locked + (acked + saved);
    RunWithJoins(step, w1, acked, saved);
    RunWithJoins(step, w, locked, acked + saved);
  }

  lemma RewardApplied(w: World, event: PullCompletedEvent)
    requires event in w.log && event.eventId.origin !in w.rewards
    ensures DoBackpackApply(w, event) == w.(rewards := w.rewards[event.eventId.origin := event])
  {
  }

  lemma ReceiptHeard(w: World, i: nat, d: Delivery)
    requires PcOf(w, i) == CheckingReceipt(d) && d.event.eventId.origin in w.rewards
    ensures DoHearReceipt(w, i, true) == Go(w, i, SavingSucceeded(d))
  {
  }

  lemma ReceiptIsThere(step: StepFunction, w: World, i: nat, d: Delivery)
    requires DeliveryRuns(step) && PcOf(w, i) == CheckingReceipt(d) && d.event.eventId.origin in w.rewards
    ensures RunWith(step, w, [HearReceipt(i, true)]) == Go(w, i, SavingSucceeded(d))
  {
    RunOne(step, w, HearReceipt(i, true));
    ReceiptHeard(w, i, d);
  }

  lemma RewardComes(step: StepFunction, w: World, event: PullCompletedEvent)
    requires OutsideRuns(step) && event in w.log && event.eventId.origin !in w.rewards
    ensures RunWith(step, w, [BackpackApply(event)]) == w.(rewards := w.rewards[event.eventId.origin := event])
  {
    RunOne(step, w, BackpackApply(event));
    RewardApplied(w, event);
  }

  lemma GetsReceipt(step: StepFunction, w: World, i: nat, d: Delivery) returns (actions: seq<Action>)
    requires DeliveryRuns(step) && OutsideRuns(step) && PcOf(w, i) == CheckingReceipt(d) && d.event in w.log
    ensures var w' := RunWith(step, w, actions); PcOf(w', i) == SavingSucceeded(d) && w'.db == w.db
  {
    var confirmed := [HearReceipt(i, true)];
    if d.event.eventId.origin in w.rewards {
      actions := confirmed;
      ReceiptIsThere(step, w, i, d);
    } else {
      var applied := [BackpackApply(d.event)];
      actions := applied + confirmed;
      RunWithJoins(step, w, applied, confirmed);
      RewardComes(step, w, d.event);
      ReceiptIsThere(step, RunWith(step, w, applied), i, d);
    }
  }

  lemma GetsSucceeded(step: StepFunction, w: World, i: nat, id: Uuid, d: Delivery)
    requires DeliveryRuns(step) && PcOf(w, i) == SavingSucceeded(d) && d.target == ById(id)
    requires id in w.db.operations && w.db.operations[id].status.EventPublished? && Carries(w.db.operations[id], d)
    ensures var w' := RunWith(step, w, [SaveSucceeded(i, 0, Acked)]);
            id in w'.db.operations && w'.db.operations[id].status.Succeeded?
  {
    RunOne(step, w, SaveSucceeded(i, 0, Acked));
    SaveLands(w, id, d, Succeeded);
  }

  lemma PublishedAdvances(step: StepFunction, w: World, i: nat, id: Uuid) returns (actions: seq<Action>)
    requires AllRuns(step) && Inv(w) && id in w.db.operations && w.db.operations[id].status.EventPublished?
    ensures var w' := RunWith(step, w, actions);
            id in w'.db.operations && w'.db.operations[id].status.Succeeded?
  {
    RowKnown(w, id);
    var locked, d := LocksPending(step, w, i, id);
    var w1 := RunWith(step, w, locked);
    var confirmed := GetsReceipt(step, w1, i, d);
    var w2 := RunWith(step, w1, confirmed);
    GetsSucceeded(step, w2, i, id, d);
    var saved := [SaveSucceeded(i, 0, Acked)];
    actions := locked + (confirmed + saved);
    RunWithJoins(step, w1, confirmed, saved);
    RunWithJoins(step, w, locked, confirmed + saved);
  }

  // ---- refunds ----------------------------------------------------------------------------

  lemma RefundFound(w: World, i: nat, id: Uuid)
    requires PcOf(w, i).Idle? && id in w.db.operations
    requires w.db.operations[id].status.RefundPending? && w.db.operations[id].context.Some?
    ensures DoScanRefund(w, i, id)
         == Go(w, i, ClaimingRefund(id, w.db.operations[id].origin.user, OperationOf(w.db.operations[id])))
  {
  }

  ghost function RefundOf(id: Uuid, row: OperationRow): (r: Refund)
    requires row.context.Some?
  {
    Refund(ById(id), row.context.value.eventId.origin, row.requestHash,
           CreditCall(row.origin.user, ChargeOf(row.context.value), ReasonOf(row.errorCode)), true)
  }

  lemma RefundTaken(w: World, i: nat, id: Uuid, now: Time)
    requires id in w.db.operations
    requires var row := w.db.operations[id];
             && PcOf(w, i) == ClaimingRefund(id, row.origin.user, OperationOf(row))
             && row.status.RefundPending? && row.context.Some? && Lapsed(row.lockedUntil, now)
    ensures var row, w' := w.db.operations[id], DoTakeRefund(w, i, now, now, Acked);
            && PcOf(w', i) == Crediting(RefundOf(id, row))
            && w'.db == Put(w.db, id, row.(lockedUntil := Some(now), updatedAt := now)) && w'.ledger == w.ledger
  {
  }

  lemma RefundScanned(step: StepFunction, w: World, i: nat, id: Uuid)
    requires RequestRuns(step) && RecoveryRuns(step) && id in w.db.operations
    requires w.db.operations[id].status.RefundPending? && w.db.operations[id].context.Some?
    ensures var row := w.db.operations[id];
            RunWith(step, w, [Crash(i), ScanRefund(i, id)])
            == Go(Go(w, i, Idle), i, ClaimingRefund(id, row.origin.user, OperationOf(row)))
  {
    RunTwo(step, w, Crash(i), ScanRefund(i, id));
    RefundFound(Go(w, i, Idle), i, id);
  }

  lemma LocksRefund(step: StepFunction, w: World, i: nat, id: Uuid) returns (actions: seq<Action>)
    requires RequestRuns(step) && RecoveryRuns(step) && id in w.db.operations
    requires w.db.operations[id].status.RefundPending? && w.db.operations[id].context.Some?
    ensures var w' := RunWith(step, w, actions);
            && PcOf(w', i) == Crediting(RefundOf(id, w.db.operations[id])) && w'.ledger == w.ledger
            && id in w'.db.operations && w'.db.operations[id].status.RefundPending?
  {
    var now := After(w.db.operations[id].lockedUntil);
    var scan, take := [Crash(i), ScanRefund(i, id)], TakeRefund(i, now, now, Acked);
    RefundScanned(step, w, i, id);
    var found := RunWith(step, w, scan);
    actions := scan + [take];
    RunWithJoins(step, w, scan, [take]);
    RunOne(step, found, take);
    RefundTaken(found, i, id, now);
  }

  lemma CreditTaken(w: World, call: CreditCall)
    requires call in w.ledger.creditCalls && call.charge.eventId.origin !in w.ledger.credited
    ensures var w', key := DoLedgerCredit(w, call), call.charge.eventId.origin;
            && w' == w.(ledger := w'.ledger) && key in w'.ledger.credited && w'.ledger.credited[key] == call
  {
  }

  lemma CreditHeard(w: World, i: nat, r: Refund)
    requires PcOf(w, i) == AwaitingCredit(r)
    requires var key := r.call.charge.eventId.origin; key in w.ledger.credited && w.ledger.credited[key] == r.call
    ensures DoHearCredit(w, i, true) == Go(w, i, SavingFailed(r))
  {
  }

  lemma CreditSent(w: World, i: nat, r: Refund)
    requires PcOf(w, i) == Crediting(r)
    ensures var w' := DoSendCredit(w, i);
            && PcOf(w', i) == AwaitingCredit(r) && r.call in w'.ledger.creditCalls && w'.db == w.db
            && w'.ledger.credited == w.ledger.credited
  {
  }

  /** Asset, asked again under the same key, has credited it or credits it now. */
  lemma CreditIsApplied(step: StepFunction, w: World, i: nat, r: Refund) returns (actions: seq<Action>)
    requires RecoveryRuns(step) && OutsideRuns(step) && PcOf(w, i) == Crediting(r)
    requires var key := r.call.charge.eventId.origin;
             key in w.ledger.credited ==> w.ledger.credited[key] == r.call
    ensures var w', key := RunWith(step, w, actions), r.call.charge.eventId.origin;
            && PcOf(w', i) == AwaitingCredit(r) && w'.db == w.db
            && key in w'.ledger.credited && w'.ledger.credited[key] == r.call
  {
    CreditSent(w, i, r);
    if r.call.charge.eventId.origin in w.ledger.credited {
      actions := [SendCredit(i)];
      RunOne(step, w, SendCredit(i));
    } else {
      actions := [SendCredit(i), LedgerCredit(r.call)];
      RunTwo(step, w, SendCredit(i), LedgerCredit(r.call));
      CreditTaken(DoSendCredit(w, i), r.call);
    }
  }

  lemma GetsCredited(step: StepFunction, w: World, i: nat, r: Refund) returns (actions: seq<Action>)
    requires RecoveryRuns(step) && OutsideRuns(step) && PcOf(w, i) == Crediting(r)
    requires var key := r.call.charge.eventId.origin;
             key in w.ledger.credited ==> w.ledger.credited[key] == r.call
    ensures var w' := RunWith(step, w, actions); PcOf(w', i) == SavingFailed(r) && w'.db == w.db
  {
    var asked := CreditIsApplied(step, w, i, r);
    var w1 := RunWith(step, w, asked);
    actions := asked + [HearCredit(i, true)];
    RunWithJoins(step, w, asked, [HearCredit(i, true)]);
    RunOne(step, w1, HearCredit(i, true));
    CreditHeard(w1, i, r);
  }

  lemma RefundSaveLands(w: World, id: Uuid, r: Refund)
    requires id in w.db.operations && w.db.operations[id].status.RefundPending?
    ensures var failed := FailedOperation(r.requestHash, r.call.reason);
            Attempted(w.db, ById(id), failed, 0, Acked) == Put(w.db, id, Saved(w.db.operations[id], failed, 0))
  {
  }

  lemma GetsFailed(step: StepFunction, w: World, i: nat, id: Uuid, r: Refund)
    requires RecoveryRuns(step) && PcOf(w, i) == SavingFailed(r) && r.target == ById(id)
    requires id in w.db.operations && w.db.operations[id].status.RefundPending?
    ensures var w' := RunWith(step, w, [SaveFailed(i, 0, Acked)]);
            id in w'.db.operations && w'.db.operations[id].status.Failed?
  {
    RunOne(step, w, SaveFailed(i, 0, Acked));
    RefundSaveLands(w, id, r);
  }

  lemma RefundAdvances(step: StepFunction, w: World, i: nat, id: Uuid) returns (actions: seq<Action>)
    requires AllRuns(step) && Inv(w) && id in w.db.operations && w.db.operations[id].status.RefundPending?
    ensures var w' := RunWith(step, w, actions);
            id in w'.db.operations && w'.db.operations[id].status.Failed?
  {
    RowKnown(w, id);
    var o := w.db.operations[id].origin;
    assert o in w.ledger.credited ==> CreditedOk(w, o) && CreditOk(w, w.ledger.credited[o]);
    var locked := LocksRefund(step, w, i, id);
    var r := RefundOf(id, w.db.operations[id]);
    var w1 := RunWith(step, w, locked);
    var credited := GetsCredited(step, w1, i, r);
    var w2 := RunWith(step, w1, credited);
    GetsFailed(step, w2, i, id, r);
    var saved := [SaveFailed(i, 0, Acked)];
    actions := locked + (credited + saved);
    RunWithJoins(step, w1, credited, saved);
    RunWithJoins(step, w, locked, credited + saved);
  }

  // ---- every unfinished operation ---------------------------------------------------------

  lemma ApplyRuns()
    ensures AllRuns(Apply)
  {
    forall w: World, a: Action | IsRequest(a) ensures Apply(w, a) == ApplyRequest(w, a) { AppliesRequest(w, a); }
    forall w: World, a: Action | IsExecution(a) ensures Apply(w, a) == ApplyExecution(w, a) { AppliesExecution(w, a); }
    forall w: World, a: Action | IsDelivery(a) ensures Apply(w, a) == ApplyDelivery(w, a) { AppliesDelivery(w, a); }
    forall w: World, a: Action | IsRecovery(a) ensures Apply(w, a) == ApplyRecovery(w, a) { AppliesRecovery(w, a); }
    forall w: World, a: Action | IsOutside(a) ensures Apply(w, a) == ApplyOutside(w, a) { AppliesOutside(w, a); }
  }

  lemma {:induction false} RunIsRunWith(w: World, actions: seq<Action>)
    ensures Run(w, actions) == RunWith(Apply, w, actions)
    decreases |actions|
  {
    if actions != [] {
      RunIsRunWith(Apply(w, actions[0]), actions[1..]);
    }
  }

  /** Every unfinished operation keeps what its recovery needs. */
  lemma HoldsWhatRecoveryNeeds(w0: World, actions: seq<Action>, id: Uuid)
    requires Init(w0) && id in Run(w0, actions).db.operations
    ensures var row := Run(w0, actions).db.operations[id];
            && (row.status.Processing? || row.status.RefundPending? ==>
                  row.context.Some? && row.context.value.eventId == EventId(row.origin))
            && (PullOperations.Committed(row.status) ==> row.response.Some? && row.event.Some?)
  {
    ReachableInv(w0, actions);
    RowKnown(Run(w0, actions), id);
  }

  lemma Advances(step: StepFunction, w: World, i: nat, id: Uuid) returns (actions: seq<Action>)
    requires AllRuns(step) && Inv(w) && id in w.db.operations && EngineAnswers(w, id)
    requires Rank(w.db.operations[id].status) > 0
    ensures var w' := RunWith(step, w, actions);
            && id in w'.db.operations
            && Follows(w.db.operations[id].status, w'.db.operations[id].status)
  {
    match w.db.operations[id].status
    case Processing => actions := ProcessingAdvances(step, w, i, id);
    case EventPending => actions := PendingAdvances(step, w, i, id);
    case EventPublished => actions := PublishedAdvances(step, w, i, id);
    case RefundPending => actions := RefundAdvances(step, w, i, id);
  }

  /** One round of recovery, as a run. */
  lemma AdvancesByARun(w: World, i: nat, id: Uuid) returns (actions: seq<Action>)
    requires Inv(w) && id in w.db.operations && EngineAnswers(w, id) && Rank(w.db.operations[id].status) > 0
    ensures var w' := Run(w, actions);
            && Inv(w') && id in w'.db.operations
            && Follows(w.db.operations[id].status, w'.db.operations[id].status)
  {
    ApplyRuns();
    actions := Advances(Apply, w, i, id);
    RunIsRunWith(w, actions);
    RunSafe(w, actions);
  }

  /** From every reachable world, whatever all other workers were doing, any one worker brings any
      operation to succeeded or failed by a finite schedule in which the services answer, if the
      engine has an answer for it; every round of the schedule lowers the rank of its status. */
  lemma {:induction false} Recoverable(w: World, i: nat, id: Uuid) returns (actions: seq<Action>)
    requires Inv(w) && id in w.db.operations && EngineAnswers(w, id)
    ensures var w' := Run(w, actions);
            && id in w'.db.operations
            && (w'.db.operations[id].status.Succeeded? || w'.db.operations[id].status.Failed?)
    decreases Rank(w.db.operations[id].status)
  {
    if Rank(w.db.operations[id].status) == 0 {
      actions := [];
    } else {
      var round := AdvancesByARun(w, i, id);
      var rest := Recoverable(Run(w, round), i, id);
      actions := round + rest;
      RunJoins(w, round, rest);
    }
  }

  /** So it is in every reachable world: no crash, lost answer or expired lease leaves an operation
      without a way to its end, if the configuration it froze can be served. */
  lemma EveryOperationRecovers(w0: World, before: seq<Action>, rng: RandomSource, i: nat, id: Uuid)
    returns (actions: seq<Action>)
    requires Init(w0) && w0.engine == PullEngine(rng)
    requires var w := Run(w0, before);
             && id in w.db.operations
             && (w.db.operations[id].context.Some? ==>
                   Servable(w.db.operations[id].context.value.ToBannerConfig()))
    ensures var w' := Run(Run(w0, before), actions);
            && id in w'.db.operations
            && (w'.db.operations[id].status.Succeeded? || w'.db.operations[id].status.Failed?)
  {
    InitialEngine(w0, before);
    ServableAnswers(Run(w0, before), rng, id);
    actions := Recoverable(Run(w0, before), i, id);
  }

  lemma ServableAnswers(w: World, rng: RandomSource, id: Uuid)
    requires w.engine == PullEngine(rng) && id in w.db.operations
    requires w.db.operations[id].context.Some? ==> Servable(w.db.operations[id].context.value.ToBannerConfig())
    ensures EngineAnswers(w, id)
  {
    var row := w.db.operations[id];
    if row.context.Some? {
      var context := row.context.value;
      var pity := StoredPity(w.db, KeyOf(row.origin, context)).pity;
      ServablePullsSucceed(context.ToBannerConfig(), rng, context.seed, 0, context.count, pity, 0);
      assert w.engine(context, pity) == Pulls(rng, context.ToBannerConfig(), context.count, pity, context.seed);
    }
  }
}
