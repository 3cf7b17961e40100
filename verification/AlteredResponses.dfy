/** What verification says of a committed response that was changed afterwards: a changed record,
    next pity, version or recorded identity is a mismatch; dropping records at the end is one
    exactly when the counters or the guarantee tell. */
module AlteredResponses {
  import opened Collections
  import opened CatalogConfig
  import opened Schemas
  import opened Engine
  import opened EngineRules
  import opened PullOperations
  import opened PullAudit
  import opened CatalogAssembly
  import opened CatalogRepository
  import opened Protocol
  import opened Linearizability
  import opened AuditOverRuns
  import opened SampleReleases

  /** The same accepted request, with other results or another recorded identity of the same
      release; the first record still names the banner. */
  ghost predicate Retold(response: PullResponse, altered: PullResponse)
  {
    && HasEvidence(response) && HasEvidence(altered)
    && altered.acceptedAt == response.acceptedAt && altered.seed == response.seed
    && altered.previousPity == response.previousPity
    && altered.records[0].bannerId == response.records[0].bannerId
    && var audit, audit' := response.audit.value, altered.audit.value;
       && audit'.releaseId == audit.releaseId && audit'.rngAlgorithmVersion == audit.rngAlgorithmVersion
       && audit'.releaseNumber.Some? && audit'.releaseSnapshotSha256.Some?
  }

  /** Everything verification compares is as it was. */
  ghost predicate SameResult(response: PullResponse, altered: PullResponse)
    requires HasEvidence(response) && HasEvidence(altered)
  {
    && altered.records == response.records && altered.nextPity == response.nextPity
    && altered.stateVersion == response.stateVersion
    && var audit, audit' := response.audit.value, altered.audit.value;
       && audit'.releaseNumber == audit.releaseNumber
       && audit'.releaseSnapshotSha256 == audit.releaseSnapshotSha256
       && audit'.bannerVersionId == audit.bannerVersionId
       && audit'.bannerConfigSha256 == audit.bannerConfigSha256
  }

  /** Of a response that reproduces, another telling of the same length is a mismatch exactly when
      something verification compares was changed. */
  lemma RetoldDiffers(rng: RandomSource, response: PullResponse, altered: PullResponse, snapshot: CatalogSnapshot)
    requires Reproduces(rng, response, snapshot) && Retold(response, altered)
    requires |altered.records| == |response.records|
    ensures Differs(rng, altered, snapshot) <==> !SameResult(response, altered)
    ensures Reproduces(rng, altered, snapshot) <==> SameResult(response, altered)
  {
    var c := snapshot.BannerConfigAt(response.records[0].bannerId, response.acceptedAt.value).value.value;
    assert Finds(altered, snapshot, c) && Finds(response, snapshot, c);
    ReproducesWhen(rng, response, snapshot, c, Replayed(rng, response, c).value);
    ReproducesWhen(rng, altered, snapshot, c, Replayed(rng, altered, c).value);
    FoundVerdict(rng, altered, snapshot, c);
  }

  /** Over runs: whatever is changed in the records of a committed response, in its next pity, its
      version or its recorded release number, digests or banner version, its audit at any time the
      release loads is a mismatch. */
  lemma AlteredIsMismatch(w0: World, actions: seq<Action>, rng: RandomSource, id: Uuid, releaseId: string,
                          response: PullResponse, altered: PullResponse, at: Time)
    requires Init(w0) && w0.engine == PullEngine(rng)
    requires CommittedFrom(Run(w0, actions), id, releaseId, response)
    requires releaseId in Run(w0, actions).releases && !OverlapsAt(Run(w0, actions).releases[releaseId], at)
    requires Retold(response, altered) && |altered.records| == |response.records| && !SameResult(response, altered)
    ensures var release := Run(w0, actions).releases[releaseId];
            BuildSnapshot(release, at).Ok? && Differs(rng, altered, BuildSnapshot(release, at).value)
  {
    CommittedResponsesVerify(w0, actions, rng, id, releaseId, response, at);
    RetoldDiffers(rng, response, altered, BuildSnapshot(Run(w0, actions).releases[releaseId], at).value);
  }

  // ---- dropped records --------------------------------------------------------------------

  function Truncated(response: PullResponse, m: nat): (altered: PullResponse)
    requires m <= |response.records|
  {
    response.(records := response.records[..m])
  }

  /** Fewer pulls from the same position are the first of the more. */
  lemma {:induction false} FewerPulls(c: BannerConfig, rng: RandomSource, seed: string, index: nat, count: int,
                                      fewer: int, pity: PityState, p: nat)
    requires PullsAt(c, rng, seed, index, count, pity, p).Ok? && index <= fewer <= count
    ensures PullsAt(c, rng, seed, index, fewer, pity, p).Ok?
    ensures var records := PullsAt(c, rng, seed, index, count, pity, p).value.records;
            |records| == count - index
            && PullsAt(c, rng, seed, index, fewer, pity, p).value.records == records[..fewer - index]
    decreases count - index
  {
    if index < fewer {
      var pulled := PullOnceAt(c, rng, seed, index, pity, p).value;
      FewerPulls(c, rng, seed, index + 1, count, fewer, pulled.value.pity, pulled.position);
      var rest := PullsAt(c, rng, seed, index + 1, count, pulled.value.pity, pulled.position).value.records;
      var records := PullsAt(c, rng, seed, index, count, pity, p).value.records;
      assert records == [pulled.value.record] + rest;
      assert records[..fewer - index] == [pulled.value.record] + rest[..fewer - index - 1];
    } else {
      var h := BatchIsLegal(c, rng, seed, index, count, pity, p);
      assert |PullsAt(c, rng, seed, index, count, pity, p).value.records| == |Records(h)|;
    }
  }

  /** The pity that records of one configuration leave, told from the records. */
  ghost predicate LeavesPity(c: BannerConfig, start: PityState, records: seq<PullRecord>, end: PityState)
  {
    && 5 in c.pityRules
    && end.sinceFive == PullsSince(start.sinceFive, Rarities(records), {5})
    && end.sinceFour
       == PullsSince(start.sinceFour, Rarities(records), FourMarks(c.pityRules[5].resetsLowerRarity))
    && end.guaranteedFeaturedFive == GuaranteeAfter(c, start.guaranteedFeaturedFive, records)
  }

  /** A response cut short still reproduces exactly when the records kept leave the recorded next
      pity; verification does not know how many records there were. */
  lemma TruncatedReproduces(rng: RandomSource, response: PullResponse, snapshot: CatalogSnapshot, c: BannerConfig,
                            m: nat)
    requires Reproduces(rng, response, snapshot) && Finds(response, snapshot, c) && 0 < m <= |response.records|
    ensures Reproduces(rng, Truncated(response, m), snapshot) <==>
            LeavesPity(c, response.previousPity.pity, response.records[..m], response.nextPity.pity)
    ensures Differs(rng, Truncated(response, m), snapshot) <==>
            !LeavesPity(c, response.previousPity.pity, response.records[..m], response.nextPity.pity)
  {
    var altered, pity := Truncated(response, m), response.previousPity.pity;
    FewerPulls(c, rng, response.seed, 0, |response.records|, m, pity, 0);
    assert altered.records[0] == response.records[0] && Finds(altered, snapshot, c);
    EnginePity(rng, c, m, pity, response.seed);
    ReproducesWhen(rng, response, snapshot, c, Replayed(rng, response, c).value);
    ReproducesWhen(rng, altered, snapshot, c, Replayed(rng, altered, c).value);
    FoundVerdict(rng, altered, snapshot, c);
  }

  lemma PullsNeedRules(rng: RandomSource, c: BannerConfig, count: int, pity: PityState, seed: string)
    requires count > 0 && Pulls(rng, c, count, pity, seed).Ok?
    ensures 5 in c.pityRules
  {
  }

  /** A banner with a five-star on every pull. */
  function AlwaysFive(): (p: Payload)
  {
    PayloadOf([FIVE, FOUR, THREE], [VersionOf("v1", 0)], PoolRows("v1", POOL, ""), [], 1)
  }

  lemma AlwaysFiveBuilds()
    ensures BuildConfig(AlwaysFive(), VersionOf("v1", 0)).Ok?
    ensures var c := BuildConfig(AlwaysFive(), VersionOf("v1", 0)).value.config;
            && Servable(c) && 5 in c.pityRules && c.pityRules[5].hardPity == 1 && c.pityRules[5].resetsLowerRarity
            && 5 !in c.featuredRules
  {
    ItemsOfAllRarities();
    RowsOfVersion(PoolRows("v1", POOL, ""), "v1");
    VersionBuilds([FIVE, FOUR, THREE], [VersionOf("v1", 0)], PoolRows("v1", POOL, ""), [], 1, "v1", 0, POOL, "");
    SampleIsServable(1);
  }

  lemma OnlyFives(c: BannerConfig, rng: RandomSource, count: int, pity: PityState, seed: string)
    requires 5 in c.pityRules && c.pityRules[5].hardPity <= 1 && Pulls(rng, c, count, pity, seed).Ok?
    ensures forall i :: 0 <= i < |Pulls(rng, c, count, pity, seed).value.records| ==>
              Pulls(rng, c, count, pity, seed).value.records[i].rarity == 5
  {
    var h := BatchIsLegal(c, rng, seed, 0, count, pity, 0);
    forall i | 0 <= i < |h|
      ensures Records(h)[i].rarity == 5
    {
      assert LegalPull(h[i]) && SureAt(c, 5, h[i].before.sinceFive + 1);
    }
  }

  /** Five-stars that reset everything leave one pity, however many there are. */
  lemma FivesLeaveNothing(c: BannerConfig, start: PityState, records: seq<PullRecord>)
    requires 5 in c.pityRules && c.pityRules[5].resetsLowerRarity && 5 !in c.featuredRules && records != []
    requires forall i :: 0 <= i < |records| ==> records[i].rarity == 5
    ensures LeavesPity(c, start, records, PityState(0, 0, false))
  {
    var rs := Rarities(records);
    assert rs[|rs| - 1] == 5;
    assert LastAmong(rs, {5}) == |rs| - 1 && LastAmong(rs, {4, 5}) == |rs| - 1;
  }

  lemma FivesUnseen(c: BannerConfig, rng: RandomSource, seed: string, count: int, m: nat)
    requires Servable(c) && c.pityRules[5].hardPity <= 1 && c.pityRules[5].resetsLowerRarity
    requires 5 !in c.featuredRules && 0 < m <= count
    ensures var batch := Pulls(rng, c, count, INITIAL_PITY, seed);
            && batch.Ok? && |batch.value.records| == count
            && LeavesPity(c, INITIAL_PITY, batch.value.records[..m], batch.value.pity)
  {
    ServablePullsSucceed(c, rng, seed, 0, count, INITIAL_PITY, 0);
    OnlyFives(c, rng, count, INITIAL_PITY, seed);
    EnginePity(rng, c, count, INITIAL_PITY, seed);
    var batch := Pulls(rng, c, count, INITIAL_PITY, seed).value;
    FivesLeaveNothing(c, INITIAL_PITY, batch.records);
    FivesLeaveNothing(c, INITIAL_PITY, batch.records[..m]);
    assert batch.pity == PityState(0, 0, false);
  }

  /** There a batch of any length cut anywhere leaves the same pity, so nothing tells. */
  lemma TruncationUnseen(rng: RandomSource, seed: string, count: int, m: nat)
    requires 0 < m <= count
    ensures BuildConfig(AlwaysFive(), VersionOf("v1", 0)).Ok?
    ensures var c := BuildConfig(AlwaysFive(), VersionOf("v1", 0)).value.config;
            var batch := Pulls(rng, c, count, INITIAL_PITY, seed);
            && batch.Ok? && |batch.value.records| == count
            && LeavesPity(c, INITIAL_PITY, batch.value.records[..m], batch.value.pity)
  {
    AlwaysFiveBuilds();
    FivesUnseen(BuildConfig(AlwaysFive(), VersionOf("v1", 0)).value.config, rng, seed, count, m);
  }

  lemma EnginePity(rng: RandomSource, c: BannerConfig, count: int, pity: PityState, seed: string)
    requires count > 0 && Pulls(rng, c, count, pity, seed).Ok?
    ensures var batch := Pulls(rng, c, count, pity, seed).value;
            |batch.records| == count && LeavesPity(c, pity, batch.records, batch.pity)
  {
    PullsNeedRules(rng, c, count, pity, seed);
    EngineCounters(rng, c, count, pity, seed);
    EngineGuarantee(rng, c, count, pity, seed);
  }
}
