/** Charged pulls the engine cannot answer: when a charged operation that is still processing can
    come to an end, exactly, and a run that ends with one that never does. */
module StuckPulls {
  import opened Collections
  import opened CatalogConfig
  import opened Schemas
  import opened Engine
  import opened PullOperations
  import opened CatalogAssembly
  import opened CatalogRepository
  import opened Store
  import opened Protocol
  import opened Invariant
  import opened Steps
  import opened Safety
  import opened Lifecycle
  import opened Linearizability
  import opened Accounting
  import opened RetryLoop
  import opened Recoverability
  import opened AcceptedPulls
  import opened SampleReleases

  /** The operation is paid for and not yet pulled. */
  ghost predicate Waiting(w: World, id: Uuid)
  {
    && id in w.db.operations && w.db.operations[id].status.Processing?
    && w.db.operations[id].origin in w.ledger.charged && w.db.operations[id].origin !in w.legacy
  }

  /** It is waiting, and the engine has an answer for it on the pity now stored. */
  ghost predicate Answerable(w: World, id: Uuid)
  {
    Waiting(w, id) && EngineAnswers(w, id)
  }

  ghost predicate Ended(w: World, id: Uuid)
  {
    && id in w.db.operations
    && (w.db.operations[id].status.Succeeded? || w.db.operations[id].status.Failed?)
  }

  // ---- one action -------------------------------------------------------------------------

  lemma WaitingNeverFails(w: World, w': World, id: Uuid)
    requires Inv(w) && w.sticky && Waiting(w, id) && Inv(w') && Grows(w, w')
    ensures id in w'.db.operations && !w'.db.operations[id].status.Failed?
    ensures w'.db.operations[id].status.Processing? ==> Waiting(w', id)
  {
    RowKnown(w, id);
    var o := w.db.operations[id].origin;
    KnownGrows(w, w', o);
    if RowAt(w', o).status.Failed? {
      FailedUncharged(w', o);
      assert false;
    }
  }

  /** The commit that moves a row was computed from the pity stored when it lands. */
  lemma CommittingAnswers(w: World, i: nat, id: Uuid)
    requires Inv(w) && Waiting(w, id) && PcOf(w, i).Committing? && PcOf(w, i).job.id == id
    requires var pc := PcOf(w, i);
             StoredPity(w.db, KeyOf(pc.job.origin, pc.job.context)).version == pc.response.previousPity.version
    ensures EngineAnswers(w, id)
  {
    WorkerFact(w, i);
    RowKnown(w, id);
    var Committing(job, attempt, start, response) := PcOf(w, i);
    assert PityOk(w, KeyOf(job.origin, job.context));
  }

  /** A waiting operation goes on waiting, unless the engine has an answer for it now. */
  lemma WaitsUnlessAnswered(w: World, a: Action, id: Uuid)
    requires Inv(w) && w.sticky && Waiting(w, id)
    ensures Waiting(Apply(w, a), id) || Answerable(w, id)
  {
    ActionSafe(w, a);
    StatusFollows(w, a, id);
    WaitingNeverFails(w, Apply(w, a), id);
    if Apply(w, a).db.operations[id].status.EventPending? {
      MovedByCommit(w, a, id);
    }
  }

  lemma MovedByCommit(w: World, a: Action, id: Uuid)
    requires Inv(w) && Waiting(w, id)
    requires id in Apply(w, a).db.operations && Apply(w, a).db.operations[id].status.EventPending?
    ensures EngineAnswers(w, id)
  {
    if ActorOf(a).None? {
      OutsideStep(w, a);
      assert false;
    } else {
      ActionStep(w, a);
      assert RowMove(w, PcOf(w, a.i), id, Apply(w, a).db.operations[id]);
      CommittingAnswers(w, a.i, id);
    }
  }

  // ---- whole runs -------------------------------------------------------------------------

  lemma {:induction false} WaitsOrIsAnswered(w: World, actions: seq<Action>, id: Uuid) returns (before: seq<Action>)
    requires Inv(w) && w.sticky && Waiting(w, id)
    ensures Waiting(Run(w, actions), id) || Answerable(Run(w, before), id)
    decreases |actions|
  {
    before := [];
    if actions != [] && !EngineAnswers(w, id) {
      var a := actions[0];
      WaitsUnlessAnswered(w, a, id);
      ActionSafe(w, a);
      var later := WaitsOrIsAnswered(Apply(w, a), actions[1..], id);
      before := [a] + later;
      assert before[1..] == later;
    }
  }

  /** Some way on ends the operation. */
  ghost predicate CanEnd(w: World, id: Uuid)
  {
    exists more {:trigger Run(w, more)} :: Ended(Run(w, more), id)
  }

  /** Some way on leads to a point at which the engine has an answer for it. */
  ghost predicate CanBeAnswered(w: World, id: Uuid)
  {
    exists more {:trigger Run(w, more)} :: Answerable(Run(w, more), id)
  }

  /** With final answers, a charged operation that is still processing can come to an end exactly
      when the world can come to a point at which the engine has an answer for it on the pity then
      stored.  Nothing else ends it: no refund, no failure, no other worker. */
  lemma EndsExactlyWhenAnswered(w0: World, actions: seq<Action>, i: nat, id: Uuid)
    requires Init(w0) && w0.sticky && Waiting(Run(w0, actions), id)
    ensures CanEnd(Run(w0, actions), id) <==> CanBeAnswered(Run(w0, actions), id)
  {
    InitInv(w0);
    RunSafe(w0, actions);
    EndsIffAnswered(Run(w0, actions), i, id);
  }

  lemma EndsIffAnswered(w: World, i: nat, id: Uuid)
    requires Inv(w) && w.sticky && Waiting(w, id)
    ensures CanEnd(w, id) <==> CanBeAnswered(w, id)
  {
    if CanEnd(w, id) {
      EndedWasAnswered(w, id);
    }
    if CanBeAnswered(w, id) {
      AnsweredEnds(w, i, id);
    }
  }

  lemma EndedWasAnswered(w: World, id: Uuid)
    requires Inv(w) && w.sticky && Waiting(w, id) && CanEnd(w, id)
    ensures CanBeAnswered(w, id)
  {
    var more :| Ended(Run(w, more), id);
    var before := WaitsOrIsAnswered(w, more, id);
    assert Answerable(Run(w, before), id);
  }

  lemma EndsAfter(w: World, more: seq<Action>, i: nat, id: Uuid) returns (actions: seq<Action>)
    requires Inv(w) && Answerable(Run(w, more), id)
    ensures Ended(Run(w, actions), id)
  {
    RunSafe(w, more);
    var rest := Recoverable(Run(w, more), i, id);
    actions := more + rest;
    RunJoins(w, more, rest);
  }

  lemma AnsweredEnds(w: World, i: nat, id: Uuid)
    requires Inv(w) && CanBeAnswered(w, id)
    ensures CanEnd(w, id)
  {
    var more :| Answerable(Run(w, more), id);
    var actions := EndsAfter(w, more, i, id);
  }

  /** So one the engine answers at no pity waits for ever: still processing, still charged, and
      never asked or paid a refund. */
  lemma UnansweredNeverEnds(w0: World, actions: seq<Action>, more: seq<Action>, id: Uuid)
    requires Init(w0) && w0.sticky && Waiting(Run(w0, actions), id)
    requires var row := Run(w0, actions).db.operations[id];
             row.context.Some? && forall pity :: w0.engine(row.context.value, pity).Err?
    ensures var w, o := Run(Run(w0, actions), more), Run(w0, actions).db.operations[id].origin;
            && Waiting(w, id) && w.db.operations[id].origin == o
            && o !in w.ledger.credited
            && forall call :: call in w.ledger.creditCalls ==> call.charge.eventId.origin != o
  {
    var w := Run(w0, actions);
    InitInv(w0);
    RunSafe(w0, actions);
    RunSafe(w, more);
    var before := WaitsOrIsAnswered(w, more, id);
    UnansweredAtEveryPity(w, before, id);
    NeverRefunded(Run(w, more), w.db.operations[id].origin);
  }

  lemma UnansweredAtEveryPity(w: World, more: seq<Action>, id: Uuid)
    requires Inv(w) && Waiting(w, id) && w.db.operations[id].context.Some?
    requires forall pity :: w.engine(w.db.operations[id].context.value, pity).Err?
    ensures !Answerable(Run(w, more), id)
  {
    var w' := Run(w, more);
    RunSafe(w, more);
    RowKnown(w, id);
    KnownGrows(w, w', w.db.operations[id].origin);
    RowKnown(w', id);
  }

  // ---- a pull that is never finished ------------------------------------------------------

  /** From a fresh database, with any generator, there is a run on a release the loader accepts
      that ends with a pull charged and never finished, whatever happens from then on. */
  lemma PaidAndStuck(w0: World, rng: RandomSource, i: nat, o: UserKey) returns (actions: seq<Action>, id: Uuid)
    requires FreshInit(w0) && w0.sticky && w0.engine == PullEngine(rng)
    ensures Waiting(Run(w0, actions), id) && Run(w0, actions).db.operations[id].origin == o
    ensures forall more :: Waiting(Run(Run(w0, actions), more), id)
  {
    var published := [PublishRelease(Unservable())];
    var w1 := Run(w0, published);
    FirstPublished(w0, Unservable());
    UnservableLoads();
    var arrival, context := OfferedFreezes(w1, o, "r", 5, "b", 1, "seed");
    ApplyRuns();
    var paid, job, start := GetsPaid(Apply, w1, i, arrival, context);
    RunIsRunWith(w1, paid);
    actions, id := published + paid, job.id;
    RunJoins(w0, published, paid);
    StaysUnanswered(w0, actions, rng, context, id);
  }

  lemma StaysUnanswered(w0: World, actions: seq<Action>, rng: RandomSource, context: PullRecoveryContext, id: Uuid)
    requires Init(w0) && w0.sticky && w0.engine == PullEngine(rng) && Waiting(Run(w0, actions), id)
    requires Run(w0, actions).db.operations[id].context == Some(context) && context.count > 0
    requires "three" in ItemsById([THREE]) && context.ToBannerConfig() == ConfigOf("v1", [THREE], ["three"], "", [], 1)
    ensures forall more :: Waiting(Run(Run(w0, actions), more), id)
  {
    forall pity
      ensures w0.engine(context, pity).Err?
    {
      UnservableNeverAnswers(rng, context.count, pity, context.seed);
      assert w0.engine(context, pity) == Pulls(rng, context.ToBannerConfig(), context.count, pity, context.seed);
    }
    forall more
      ensures Waiting(Run(Run(w0, actions), more), id)
    {
      UnansweredNeverEnds(w0, actions, more, id);
    }
  }
}
