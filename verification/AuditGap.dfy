/** A committed pull whose audit cannot be had: its release loaded when the pull was accepted, and
    since then a second version of the banner has come into force. */
module AuditGap {
  import opened Collections
  import opened CatalogConfig
  import opened Schemas
  import opened Engine
  import opened EngineRules
  import opened PullOperations
  import opened PullAudit
  import opened CatalogAssembly
  import opened CatalogRepository
  import opened Store
  import opened Protocol
  import opened Invariant
  import opened Linearizability
  import opened Accounting
  import opened Recoverability
  import opened AcceptedPulls
  import opened AuditOverRuns
  import opened SampleReleases

  /** The first version's configuration, served from the overlapping release, pulls from any pity. */
  lemma OverlappingPulls(rng: RandomSource, context: PullRecoveryContext, pity: PityState)
    requires forall id :: id in POOL ==> id in ItemsById([FIVE, FOUR, THREE])
    requires context.ToBannerConfig() == ConfigOf("v1", [FIVE, FOUR, THREE], POOL, "", [], 90)
    ensures PullEngine(rng)(context, pity).Ok?
  {
    SampleIsServable(90);
    ServablePullsSucceed(context.ToBannerConfig(), rng, context.seed, 0, context.count, pity, 0);
    assert PullEngine(rng)(context, pity) == Pulls(rng, context.ToBannerConfig(), context.count, pity, context.seed);
  }

  /** From a fresh database, with either kind of Asset and any generator, a pull accepted at 5 is
      committed from a release that no longer loads at 20. */
  lemma CommittedThenOverlapping(w0: World, rng: RandomSource, i: nat, o: UserKey)
    returns (actions: seq<Action>, id: Uuid, response: PullResponse)
    requires FreshInit(w0) && w0.engine == PullEngine(rng)
    ensures var w := Run(w0, actions);
            && w.releases == map["r" := Overlapping()] && CommittedFrom(w, id, "r", response)
            && OverlapsAt(Overlapping(), 20) && BuildSnapshot(Overlapping(), 20).Err?
  {
    var published := [PublishRelease(Overlapping())];
    var w1 := Run(w0, published);
    FirstPublished(w0, Overlapping());
    OverlappingLoads();
    LoadsExactly(Overlapping(), 20);
    var arrival, context := OfferedFreezes(w1, o, "r", 5, "b", 1, "seed");
    OverlappingPulls(rng, context, StoredPity(w1.db, KeyOf(o, context)).pity);
    ApplyRuns();
    var done;
    done, id := GetsDone(Apply, w1, i, arrival, context);
    RunIsRunWith(w1, done);
    actions := published + done;
    RunJoins(w0, published, done);
    response := Run(w0, actions).db.operations[id].response.value;
  }

  /** The audit of that pull at 20, with a cache that has moved on: there is no verdict. */
  method AuditAtTwenty(rng: RandomSource, response: PullResponse, ghost w0: World, ghost actions: seq<Action>,
                       ghost id: Uuid)
    returns (r: Option<Result<Verification, AuditError>>)
    requires Init(w0) && w0.engine == PullEngine(rng) && Run(w0, actions).releases == map["r" := Overlapping()]
    requires CommittedFrom(Run(w0, actions), id, "r", response)
    ensures r == None
  {
    var provider := new CachedCatalogProvider(30);
    OverlappingLoads();
    r := AuditPull(provider, map["r" := Overlapping()], Some("r"), true, rng, response, 20, w0, actions, id);
  }
}
