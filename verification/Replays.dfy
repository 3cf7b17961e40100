/** What a repeated request gets: the steps that meet an existing row, told by the row itself, and
    that every finished pull is answered again with its stored response. */
module Replays {
  import opened Collections
  import opened CatalogConfig
  import opened Schemas
  import opened PullOperations
  import opened PullAudit
  import opened CatalogAssembly
  import opened CatalogRepository
  import opened Store
  import opened Protocol
  import opened Invariant
  import opened Safety
  import opened Recoverability
  import opened AcceptedPulls

  // ---- steps that meet an existing row ----------------------------------------------------

  /** Worker i goes idle, and this is answered. */
  ghost predicate AnswersOnly(w: World, w': World, i: nat, answer: Answer)
  {
    w' == w.(workers := w.workers[i := Idle], answers := w.answers + {answer})
  }

  /** Worker i goes on with this, and nothing else changes. */
  ghost predicate MovesOnly(w: World, w': World, i: nat, pc: Pc)
  {
    w' == w.(workers := w.workers[i := pc])
  }

  /** Worker i starts to publish the row's event, to answer with its response. */
  ghost predicate Republishes(w: World, w': World, i: nat, row: OperationRow, requestHash: RequestHash)
  {
    && row.response.Some? && row.event.Some? && i in w'.workers
    && MovesOnly(w, w', i, w'.workers[i]) && w'.workers[i].Publishing? && w'.workers[i].tries == 0
    && var d := w'.workers[i].delivery;
       && d.origin == row.origin && d.requestHash == requestHash && d.purpose == Reply
       && d.response == row.response.value && d.event == row.event.value
  }

  /** Worker i starts to credit what the operation's frozen context was charged. */
  ghost predicate Refunds(w: World, w': World, i: nat, o: UserKey)
    requires o in w.frozen
  {
    && i in w'.workers && MovesOnly(w, w', i, w'.workers[i]) && w'.workers[i].Crediting?
    && w'.workers[i].refund.call == CreditCall(o.user, ChargeOf(w.frozen[o].context), w.frozen[o].reason)
    && !w'.workers[i].refund.fromRecovery
  }

  /** The reaction to a row, status by status: only a request of the same hash gets anything; a
      finished pull is answered with its response, a committed one that is not yet published is
      published to be answered, a pending refund is credited. */
  ghost predicate Reacts(w: World, w': World, i: nat, row: OperationRow, requestHash: RequestHash)
    requires row.origin in w.frozen
  {
    if row.requestHash != requestHash then MovesOnly(w, w', i, Idle)
    else
      match row.status
      case EventPublished =>
        row.response.Some? && AnswersOnly(w, w', i, Answer(row.origin, requestHash, row.response.value))
      case Succeeded =>
        row.response.Some? && AnswersOnly(w, w', i, Answer(row.origin, requestHash, row.response.value))
      case EventPending => Republishes(w, w', i, row, requestHash)
      case RefundPending => Refunds(w, w', i, row.origin)
      case Processing => MovesOnly(w, w', i, Idle)
      case Failed => MovesOnly(w, w', i, Idle)
  }

  lemma CommittedReaction(w: World, i: nat, target: Target, row: OperationRow, requestHash: RequestHash, charge: Charge)
    requires row.origin in w.frozen && PullOperations.Committed(row.status) && row.response.Some? && row.event.Some?
    ensures Reacts(w, DoReact(w, i, row.origin, requestHash,
                              React(target, row.origin, requestHash, OperationOf(row), charge)), i, row, requestHash)
  {
  }

  lemma UncommittedReaction(w: World, i: nat, target: Target, row: OperationRow, requestHash: RequestHash,
                            charge: Charge)
    requires row.origin in w.frozen && !PullOperations.Committed(row.status)
    requires row.status.RefundPending? ==>
               && charge == ChargeOf(w.frozen[row.origin].context)
               && ReasonOf(row.errorCode) == w.frozen[row.origin].reason
    ensures Reacts(w, DoReact(w, i, row.origin, requestHash,
                              React(target, row.origin, requestHash, OperationOf(row), charge)), i, row, requestHash)
  {
  }

  lemma ReactionFollowsRow(w: World, i: nat, target: Target, o: UserKey, requestHash: RequestHash, charge: Charge)
    requires Inv(w) && Known(w, o)
    requires RowAt(w, o).status.RefundPending? ==> charge == ChargeOf(ContextAt(w, o))
    ensures Reacts(w, DoReact(w, i, o, requestHash, React(target, o, requestHash, OperationOf(RowAt(w, o)), charge)), i,
                   RowAt(w, o), requestHash)
  {
    KnownRow(w, o);
    if PullOperations.Committed(RowAt(w, o).status) {
      CommittedReaction(w, i, target, RowAt(w, o), requestHash, charge);
    } else {
      UncommittedReaction(w, i, target, RowAt(w, o), requestHash, charge);
    }
  }

  /** A request that could neither insert nor claim reacts to the row it finds. */
  lemma SelectReacts(w: World, i: nat)
    requires Inv(w) && PcOf(w, i).Selecting? && PcOf(w, i).origin in w.db.byUserKey
    ensures var Selecting(o, requestHash, _) := PcOf(w, i);
            Known(w, o) && Reacts(w, DoSelect(w, i), i, RowAt(w, o), requestHash)
  {
    var Selecting(o, requestHash, context) := PcOf(w, i);
    KnownRow(w, o);
    var claimed := if RowAt(w, o).context.Some? then RowAt(w, o).context.value else context;
    ReactionFollowsRow(w, i, ByUserKey(o), o, requestHash, ChargeOf(claimed));
  }

  /** The charge rebuilt from a committed row that keeps no context is the frozen one. */
  lemma RebuiltChargeIsFrozen(w: World, o: UserKey)
    requires Inv(w) && Known(w, o) && PullOperations.Committed(RowAt(w, o).status) && o !in w.legacy
    ensures RequestCharge(o, RowAt(w, o).requestHash, OperationOf(RowAt(w, o))) == ChargeOf(ContextAt(w, o))
  {
    KnownRow(w, o);
    var context, response := ContextAt(w, o), RowAt(w, o).response.value;
    assert EntryOk(w, KeyOf(o, context), response.stateVersion - 1);
  }

  /** A request for a banner that is no longer offered reacts to a row that keeps no context. */
  lemma LookUpReacts(w: World, i: nat)
    requires Inv(w) && PcOf(w, i).LookingUp? && PcOf(w, i).origin in w.db.byUserKey
    ensures var LookingUp(o, requestHash) := PcOf(w, i);
            && Known(w, o)
            && (RowAt(w, o).context.None? ==> Reacts(w, DoLookUp(w, i), i, RowAt(w, o), requestHash))
            && (RowAt(w, o).context.Some? ==>
                  MovesOnly(w, DoLookUp(w, i), i, Inserting(o, requestHash, RowAt(w, o).context.value)))
  {
    var LookingUp(o, requestHash) := PcOf(w, i);
    KnownRow(w, o);
    if RowAt(w, o).context.None? {
      ReactionFollowsRow(w, i, ByUserKey(o), o, requestHash,
                         RequestCharge(o, requestHash, OperationOf(RowAt(w, o))));
    }
  }

  /** A worker unsure of its commit reacts to the row as it now is, unless it is still processing. */
  lemma ReconcileReacts(w: World, i: nat)
    requires Inv(w) && PcOf(w, i).Reconciling?
    ensures var job := PcOf(w, i).job;
            Known(w, job.origin) && RowAt(w, job.origin).requestHash == job.requestHash
            && Reacts(w, DoReconcile(w, i, true), i, RowAt(w, job.origin), job.requestHash)
  {
    WorkerFact(w, i);
    var job := PcOf(w, i).job;
    KnownRow(w, job.origin);
    ReactionFollowsRow(w, i, ById(job.id), job.origin, job.requestHash, ChargeOf(job.context));
  }

  // ---- publications -----------------------------------------------------------------------

  /** An acknowledged publication made for a request is answered after its save, whatever became
      of the save. */
  lemma AcknowledgedIsAnswered(w: World, i: nat, now: Time, fate: Fate)
    requires PcOf(w, i).AwaitingAck? && PcOf(w, i).delivery.purpose.Reply? && PcOf(w, i).delivery.event in w.log
    ensures var d := PcOf(w, i).delivery;
            var saving := DoHearAck(w, i, true);
            && MovesOnly(w, saving, i, SavingPublished(d))
            && var w' := DoSavePublished(saving, i, now, fate);
               && w'.answers == w.answers + {Answer(d.origin, d.requestHash, d.response)} && PcOf(w', i) == Idle
  {
  }

  /** An unacknowledged publication is tried again, and given up after the third try. */
  lemma UnacknowledgedIsRetried(w: World, i: nat)
    requires PcOf(w, i).AwaitingAck?
    ensures var AwaitingAck(d, tries) := PcOf(w, i);
            var w' := DoHearAck(w, i, false);
            if tries < 2 then MovesOnly(w, w', i, Publishing(d, tries + 1))
            else if d.purpose.Reply? || d.target.ByUserKey? then MovesOnly(w, w', i, Idle)
            else MovesOnly(w, w', i, Releasing(d.target.id))
  {
  }

  // ---- a repeated request is answered -----------------------------------------------------

  /** The service can look at the request: its count is served and its catalog can be had. */
  ghost predicate Readable(w: World, arrival: Arrival)
  {
    && arrival.request.count in {1, 10} && SnapshotOf(w, arrival.source).Ok?
    && RequestContext(SnapshotOf(w, arrival.source).value, arrival.origin, arrival.request.bannerId,
                      arrival.request.count, SeedFor(w, arrival), arrival.acceptedAt, arrival.engineVersion,
                      arrival.engineBuildSha).Ok?
  }

  /** The row of this key is committed, and by this request. */
  ghost predicate CommittedBy(w: World, o: UserKey, requestHash: RequestHash)
  {
    && RowOf(w.db, o).Some?
    && var row := RowOf(w.db, o).value;
       && PullOperations.Committed(row.status) && row.requestHash == requestHash
       && row.context.None? && row.response.Some? && row.event.Some?
  }

  ghost function StoredAnswer(w: World, o: UserKey, requestHash: RequestHash): (answer: Answer)
    requires CommittedBy(w, o, requestHash)
  {
    Answer(o, requestHash, RowOf(w.db, o).value.response.value)
  }

  /** The worker has the answer out, or is about to publish the event it answers with. */
  ghost predicate OnItsWay(w: World, i: nat, answer: Answer)
  {
    || answer in w.answers
    || (PcOf(w, i).Publishing? && PcOf(w, i).tries == 0
        && var d := PcOf(w, i).delivery; d.purpose.Reply? && answer == Answer(d.origin, d.requestHash, d.response))
  }

  lemma SelectFinds(w: World, i: nat, o: UserKey, requestHash: RequestHash, context: PullRecoveryContext)
    requires PcOf(w, i) == Selecting(o, requestHash, context) && CommittedBy(w, o, requestHash)
    ensures OnItsWay(DoSelect(w, i), i, StoredAnswer(w, o, requestHash))
  {
  }

  lemma LookUpFinds(w: World, i: nat, o: UserKey, requestHash: RequestHash)
    requires PcOf(w, i) == LookingUp(o, requestHash) && CommittedBy(w, o, requestHash)
    ensures OnItsWay(DoLookUp(w, i), i, StoredAnswer(w, o, requestHash))
  {
  }

  lemma InsertConflicts(w: World, i: nat, o: UserKey, requestHash: RequestHash, context: PullRecoveryContext, id: Uuid,
                        token: Uuid)
    requires PcOf(w, i) == Inserting(o, requestHash, context) && o in w.db.byUserKey
    requires id !in w.db.operations && token !in w.issued
    ensures DoInsert(w, i, id, token, 0, 0, Acked)
         == Go(w.(issued := w.issued + {token}), i, Claiming(o, requestHash, context))
  {
  }

  lemma ClaimMisses(w: World, i: nat, o: UserKey, requestHash: RequestHash, context: PullRecoveryContext, token: Uuid)
    requires PcOf(w, i) == Claiming(o, requestHash, context) && token !in w.issued
    requires CommittedBy(w, o, requestHash)
    ensures DoClaim(w, i, token, 0, 0, Acked)
         == Go(w.(issued := w.issued + {token}), i, Selecting(o, requestHash, context))
  {
  }

  /** The offered banner: insert, claim and select. */
  lemma OfferedFinds(step: StepFunction, w: World, i: nat, o: UserKey, requestHash: RequestHash,
                     context: PullRecoveryContext)
    returns (actions: seq<Action>)
    requires RequestRuns(step) && PcOf(w, i) == Inserting(o, requestHash, context) && CommittedBy(w, o, requestHash)
    ensures OnItsWay(RunWith(step, w, actions), i, StoredAnswer(w, o, requestHash))
  {
    var id := FreshToken(w.db.operations.Keys);
    var token := FreshToken(w.issued);
    var insert := [InsertRow(i, id, token, 0, 0, Acked)];
    RunOne(step, w, insert[0]);
    InsertConflicts(w, i, o, requestHash, context, id, token);
    var claiming := Go(w.(issued := w.issued + {token}), i, Claiming(o, requestHash, context));
    var found := ClaimFinds(step, claiming, i, o, requestHash, context);
    actions := insert + found;
    RunWithJoins(step, w, insert, found);
  }

  lemma ClaimFinds(step: StepFunction, w: World, i: nat, o: UserKey, requestHash: RequestHash,
                   context: PullRecoveryContext)
    returns (actions: seq<Action>)
    requires RequestRuns(step) && PcOf(w, i) == Claiming(o, requestHash, context) && CommittedBy(w, o, requestHash)
    ensures OnItsWay(RunWith(step, w, actions), i, StoredAnswer(w, o, requestHash))
  {
    var token := FreshToken(w.issued);
    var claim := ClaimRow(i, token, 0, 0, Acked);
    actions := [claim, SelectRow(i)];
    RunTwo(step, w, claim, SelectRow(i));
    ClaimMisses(w, i, o, requestHash, context, token);
    var selecting := Go(w.(issued := w.issued + {token}), i, Selecting(o, requestHash, context));
    SelectFinds(selecting, i, o, requestHash, context);
  }

  lemma PublishingEnds(step: StepFunction, w: World, i: nat, d: Delivery) returns (actions: seq<Action>)
    requires DeliveryRuns(step) && OutsideRuns(step) && PcOf(w, i) == Publishing(d, 0) && d.purpose.Reply?
    ensures Answer(d.origin, d.requestHash, d.response) in RunWith(step, w, actions).answers
  {
    var acked := GetsAcked(step, w, i, d);
    var w1 := RunWith(step, w, acked);
    actions := acked + [SavePublished(i, 0, Acked)];
    RunWithJoins(step, w, acked, [SavePublished(i, 0, Acked)]);
    RunOne(step, w1, SavePublished(i, 0, Acked));
  }

  lemma BeginsToRead(w: World, i: nat, arrival: Arrival) returns (pc: Pc)
    requires Readable(w, arrival) && PcOf(w, i).Idle?
    ensures DoStart(w, i, arrival.origin, arrival.request, arrival.source, arrival.acceptedAt, arrival.engineVersion,
                    arrival.engineBuildSha)
         == Go(w, i, pc)
    ensures pc == LookingUp(arrival.origin, HashFor(w, arrival))
            || exists context :: pc == Inserting(arrival.origin, HashFor(w, arrival), context)
  {
    match RequestContext(SnapshotOf(w, arrival.source).value, arrival.origin, arrival.request.bannerId,
                         arrival.request.count, SeedFor(w, arrival), arrival.acceptedAt, arrival.engineVersion,
                         arrival.engineBuildSha)
    case Ok(None) => pc := LookingUp(arrival.origin, HashFor(w, arrival));
    case Ok(Some(context)) => pc := Inserting(arrival.origin, HashFor(w, arrival), context);
  }

  /** Crash and start again: the worker reads the request, whether the banner is offered or not. */
  lemma StartsReading(step: StepFunction, w: World, i: nat, arrival: Arrival) returns (pc: Pc)
    requires RequestRuns(step) && Readable(w, arrival)
    ensures RunWith(step, w, [Crash(i), StartOf(i, arrival)]) == Go(Go(w, i, Idle), i, pc)
    ensures pc == LookingUp(arrival.origin, HashFor(w, arrival))
            || exists context :: pc == Inserting(arrival.origin, HashFor(w, arrival), context)
  {
    var crashed := Go(w, i, Idle);
    RunTwo(step, w, Crash(i), StartOf(i, arrival));
    assert step(w, Crash(i)) == crashed;
    assert SnapshotOf(crashed, arrival.source) == SnapshotOf(w, arrival.source);
    pc := BeginsToRead(crashed, i, arrival);
  }

  lemma ReplayFinds(step: StepFunction, w: World, i: nat, arrival: Arrival) returns (actions: seq<Action>)
    requires RequestRuns(step) && Readable(w, arrival) && CommittedBy(w, arrival.origin, HashFor(w, arrival))
    ensures OnItsWay(RunWith(step, w, actions), i, StoredAnswer(w, arrival.origin, HashFor(w, arrival)))
  {
    var o, requestHash := arrival.origin, HashFor(w, arrival);
    var pc := StartsReading(step, w, i, arrival);
    var begin := [Crash(i), StartOf(i, arrival)];
    var w1 := RunWith(step, w, begin);
    var found;
    if pc.LookingUp? {
      found := [LookUp(i)];
      RunOne(step, w1, LookUp(i));
      LookUpFinds(w1, i, o, requestHash);
    } else {
      found := OfferedFinds(step, w1, i, o, requestHash, pc.context);
    }
    actions := begin + found;
    RunWithJoins(step, w, begin, found);
  }

  lemma ReplayEnds(step: StepFunction, w: World, i: nat, arrival: Arrival) returns (actions: seq<Action>)
    requires AllRuns(step) && Readable(w, arrival) && CommittedBy(w, arrival.origin, HashFor(w, arrival))
    ensures StoredAnswer(w, arrival.origin, HashFor(w, arrival)) in RunWith(step, w, actions).answers
  {
    var found := ReplayFinds(step, w, i, arrival);
    var w1 := RunWith(step, w, found);
    if StoredAnswer(w, arrival.origin, HashFor(w, arrival)) in w1.answers {
      actions := found;
    } else {
      var published := PublishingEnds(step, w1, i, PcOf(w1, i).delivery);
      actions := found + published;
      RunWithJoins(step, w, found, published);
    }
  }

  /** From every reachable world in which a pull is committed, a request repeated under its key and
      hash, whether its banner is still offered or not, can end answered with the response stored
      for it, if the service can read the request and Kafka answers. */
  lemma ReplayIsAnswered(w0: World, before: seq<Action>, i: nat, arrival: Arrival) returns (actions: seq<Action>)
    requires Init(w0)
    requires var w := Run(w0, before);
             && Readable(w, arrival) && arrival.origin in w.db.byUserKey
             && Known(w, arrival.origin) && PullOperations.Committed(RowAt(w, arrival.origin).status)
             && RowAt(w, arrival.origin).requestHash == HashFor(w, arrival)
    ensures var w := Run(w0, before);
            && RowAt(w, arrival.origin).response.Some?
            && Answer(arrival.origin, HashFor(w, arrival), RowAt(w, arrival.origin).response.value)
               in Run(w, actions).answers
  {
    InitInv(w0);
    RunSafe(w0, before);
    KnownRow(Run(w0, before), arrival.origin);
    ApplyRuns();
    actions := ReplayEnds(Apply, Run(w0, before), i, arrival);
    RunIsRunWith(Run(w0, before), actions);
  }
}
