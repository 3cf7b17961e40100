/** Pull evidence and deterministic verification, `pull_audit.py`. */
module PullAudit {
  import opened Collections
  import opened CatalogConfig
  import opened Schemas
  import opened Engine

  const RNG_ALGORITHM_VERSION := "wuwa-gacha-rng-v1"

  /** The rarities the banner's own pool covers. */
  function ExplicitRarities(c: BannerConfig): (rs: set<int>)
  {
    set id | id in c.banner.itemPool && id in c.itemById :: c.itemById[id].rarity
  }

  /** The pooled items, and all items of the rarities the pool does not cover. */
  function SelectedIds(c: BannerConfig): (ids: set<string>)
  {
    (set id | id in c.banner.itemPool)
    + (set item | item in c.allItems && item.rarity !in ExplicitRarities(c) :: item.id)
  }

  function WithIds(items: seq<GachaItem>, ids: set<string>): (kept: seq<GachaItem>)
  {
    if items == [] then []
    else (if items[0].id in ids then [items[0]] else []) + WithIds(items[1..], ids)
  }

  function EffectiveItems(c: BannerConfig): (items: seq<GachaItem>)
  {
    WithIds(c.allItems, SelectedIds(c))
  }

  lemma {:induction false} WithIdsAppend(items: seq<GachaItem>, item: GachaItem, ids: set<string>)
    ensures WithIds(items + [item], ids) == WithIds(items, ids) + (if item.id in ids then [item] else [])
  {
    if items != [] {
      assert (items + [item])[1..] == items[1..] + [item];
      WithIdsAppend(items[1..], item, ids);
    } else {
      assert items + [item] == [item];
    }
  }

  /** `_effective_items`: the set of selected ids grows item by item, then filters the items. */
  method CollectEffectiveItems(c: BannerConfig) returns (items: seq<GachaItem>)
    ensures items == EffectiveItems(c)
  {
    var explicit := ExplicitRarities(c);
    var selected := set id | id in c.banner.itemPool;
    var i := 0;
    while i < |c.allItems|
      invariant 0 <= i <= |c.allItems|
      invariant selected == (set id | id in c.banner.itemPool)
                            + (set item | item in c.allItems[..i] && item.rarity !in explicit :: item.id)
    {
      assert c.allItems[..i + 1] == c.allItems[..i] + [c.allItems[i]];
      if c.allItems[i].rarity !in explicit {
        selected := selected + {c.allItems[i].id};
      }
      i := i + 1;
    }
    assert c.allItems[..i] == c.allItems;
    items := [];
    i := 0;
    while i < |c.allItems|
      invariant 0 <= i <= |c.allItems|
      invariant items == WithIds(c.allItems[..i], selected)
    {
      assert c.allItems[..i + 1] == c.allItems[..i] + [c.allItems[i]];
      WithIdsAppend(c.allItems[..i], c.allItems[i], selected);
      if c.allItems[i].id in selected {
        items := items + [c.allItems[i]];
      }
      i := i + 1;
    }
    assert c.allItems[..i] == c.allItems;
  }

  /** `banner_config_evidence` */
  function ConfigEvidence(c: BannerConfig): (e: Evidence)
  {
    Evidence(c.banner, c.pityGroupId, c.bannerVersionId, c.version, EffectiveItems(c),
             SortedValues(c.rarityRates), SortedValues(c.featuredRules), SortedValues(c.pityRules),
             c.featuredItemIdsByRarity)
  }

  datatype AuditError = MissingReleaseEvidence | Catalog(catalogError: CatalogError) | Replay(engineError: EngineError)

  function BuildPullAuditMetadata(snapshot: CatalogSnapshot, c: BannerConfig, engineVersion: string,
                                  engineBuildSha: string)
    : (r: Result<PullAuditMetadata, AuditError>)
  {
    if snapshot.source.Postgres?
       && (snapshot.releaseId.None? || snapshot.releaseNumber.None? || snapshot.snapshotSha256.None?)
    then Err(MissingReleaseEvidence)
    else Ok(PullAuditMetadata(snapshot.releaseId, snapshot.releaseNumber, snapshot.snapshotSha256,
                              c.bannerVersionId, Sha256(ConfigEvidence(c)), RNG_ALGORITHM_VERSION,
                              engineVersion, engineBuildSha))
  }

  /** Evidence is refused exactly when a release's snapshot does not name it in full; what the audit
      then says of release, version, configuration and builds is theirs. */
  lemma EvidenceIsTaken(snapshot: CatalogSnapshot, c: BannerConfig, engineVersion: string, engineBuildSha: string)
    ensures var r := BuildPullAuditMetadata(snapshot, c, engineVersion, engineBuildSha);
            if snapshot.source == Postgres
               && (snapshot.releaseId == None || snapshot.releaseNumber == None || snapshot.snapshotSha256 == None)
            then r == Err(MissingReleaseEvidence)
            else
              && r.Ok? && r.value.releaseId == snapshot.releaseId && r.value.releaseNumber == snapshot.releaseNumber
              && r.value.releaseSnapshotSha256 == snapshot.snapshotSha256
              && r.value.bannerVersionId == c.bannerVersionId
              && r.value.bannerConfigSha256.evidence == ConfigEvidence(c)
              && r.value.rngAlgorithmVersion == "wuwa-gacha-rng-v1"
              && r.value.engineVersion == engineVersion && r.value.engineBuildSha == engineBuildSha
  {
  }

  datatype VerificationStatus = Verified | Mismatch | Unverifiable

  datatype Check =
    | ImmutableReleaseIdentity | BannerConfiguration
    | ReleaseId | ReleaseNumber | ReleaseSnapshotSha256 | BannerVersionId | BannerConfigSha256
    | RngAlgorithmVersion | ResultRecords | NextPityCheck | StateVersion

  datatype Verification = Verification(status: VerificationStatus, checks: map<Check, bool>,
                                       replayed: Option<Batch>)

  /** The response names a release, and the snapshot is of that release. */
  predicate HasEvidence(response: PullResponse)
  {
    response.audit.Some? && response.acceptedAt.Some? && response.records != []
  }

  predicate HasReleaseIdentity(audit: PullAuditMetadata, snapshot: CatalogSnapshot)
  {
    && audit.releaseId.Some? && audit.releaseNumber.Some? && audit.releaseSnapshotSha256.Some?
    && snapshot.releaseId.Some? && snapshot.releaseNumber.Some? && snapshot.snapshotSha256.Some?
  }

  /** The recorded release and configuration are the snapshot's. */
  ghost predicate SameRelease(audit: PullAuditMetadata, snapshot: CatalogSnapshot, c: BannerConfig)
  {
    && snapshot.releaseId == audit.releaseId
    && snapshot.releaseNumber == audit.releaseNumber
    && snapshot.snapshotSha256 == audit.releaseSnapshotSha256
    && c.bannerVersionId == audit.bannerVersionId
    && audit.bannerConfigSha256 == Sha256(ConfigEvidence(c))
    && audit.rngAlgorithmVersion == RNG_ALGORITHM_VERSION
  }

  /** What an auditor wants to know of a recorded response: the release it names is this one,
      the configuration it digests is the one in force there when it was accepted, and running
      the engine again on its seed and starting pity gives its records and its next pity. */
  ghost predicate Reproduces(rng: RandomSource, response: PullResponse, snapshot: CatalogSnapshot)
  {
    && HasEvidence(response) && HasReleaseIdentity(response.audit.value, snapshot)
    && var audit := response.audit.value;
       var lookup := snapshot.BannerConfigAt(response.records[0].bannerId, response.acceptedAt.value);
    && lookup.Ok? && lookup.value.Some?
    && var c := lookup.value.value;
    && SameRelease(audit, snapshot, c)
    && Pulls(rng, c, |response.records|, response.previousPity.pity, response.seed)
       == Ok(Batch(response.records, response.nextPity.pity))
    && response.nextPity.version == response.previousPity.version + 1
    && response.stateVersion == response.previousPity.version + 1
  }

  /** The configuration the release offers for the banner and the time the response records. */
  ghost predicate Finds(response: PullResponse, snapshot: CatalogSnapshot, c: BannerConfig)
    requires HasEvidence(response)
  {
    snapshot.BannerConfigAt(response.records[0].bannerId, response.acceptedAt.value) == Ok(Some(c))
  }

  /** The response has records, an acceptance time and audit metadata, and both it and the snapshot
      name a release by id, number and digest. */
  ghost predicate Identified(response: PullResponse, snapshot: CatalogSnapshot)
  {
    && |response.records| > 0 && response.acceptedAt != None && response.audit != None
    && var audit := response.audit.value;
       && audit.releaseId != None && audit.releaseNumber != None && audit.releaseSnapshotSha256 != None
       && snapshot.releaseId != None && snapshot.releaseNumber != None && snapshot.snapshotSha256 != None
  }

  /** The engine, run again on what the response records. */
  ghost function Replayed(rng: RandomSource, response: PullResponse, c: BannerConfig): (r: Result<Batch, EngineError>)
  {
    Pulls(rng, c, |response.records|, response.previousPity.pity, response.seed)
  }

  /** No verdict is possible: evidence or release identity is missing, or the response was drawn by
      another generator. */
  ghost predicate CannotVerify(response: PullResponse, snapshot: CatalogSnapshot)
  {
    || !Identified(response, snapshot)
    || exists c :: Finds(response, snapshot, c) && response.audit.value.rngAlgorithmVersion != RNG_ALGORITHM_VERSION
  }

  /** The response is not what the release gives: the banner is absent, or the replay or one of the
      recorded identities differs. */
  ghost predicate Differs(rng: RandomSource, response: PullResponse, snapshot: CatalogSnapshot)
  {
    && Identified(response, snapshot)
    && (|| snapshot.BannerConfigAt(response.records[0].bannerId, response.acceptedAt.value) == Ok(None)
        || exists c ::
             && Finds(response, snapshot, c) && response.audit.value.rngAlgorithmVersion == RNG_ALGORITHM_VERSION
             && Replayed(rng, response, c).Ok? && !Reproduces(rng, response, snapshot))
  }

  /** Verification itself fails: two schedules overlap, or the engine has no answer. */
  ghost predicate CannotReplay(rng: RandomSource, response: PullResponse, snapshot: CatalogSnapshot)
  {
    && Identified(response, snapshot)
    && (|| snapshot.BannerConfigAt(response.records[0].bannerId, response.acceptedAt.value).Err?
        || exists c ::
             && Finds(response, snapshot, c) && response.audit.value.rngAlgorithmVersion == RNG_ALGORITHM_VERSION
             && Replayed(rng, response, c).Err?)
  }

  /** Every response meets exactly one of the four. */
  lemma OneVerdict(rng: RandomSource, response: PullResponse, snapshot: CatalogSnapshot)
    ensures CannotVerify(response, snapshot) || Differs(rng, response, snapshot)
            || CannotReplay(rng, response, snapshot) || Reproduces(rng, response, snapshot)
    ensures Reproduces(rng, response, snapshot) ==>
              !CannotVerify(response, snapshot) && !Differs(rng, response, snapshot)
              && !CannotReplay(rng, response, snapshot)
    ensures !(CannotVerify(response, snapshot) && Differs(rng, response, snapshot))
    ensures !(CannotVerify(response, snapshot) && CannotReplay(rng, response, snapshot))
    ensures !(Differs(rng, response, snapshot) && CannotReplay(rng, response, snapshot))
  {
    if Identified(response, snapshot) {
      var lookup := snapshot.BannerConfigAt(response.records[0].bannerId, response.acceptedAt.value);
      if lookup.Ok? && lookup.value.Some? {
        assert Finds(response, snapshot, lookup.value.value);
      }
    }
  }

  /** Once the configuration is found and replayed, only the comparisons are left. */
  lemma ReproducesWhen(rng: RandomSource, response: PullResponse, snapshot: CatalogSnapshot, c: BannerConfig,
                       replay: Batch)
    requires HasEvidence(response) && HasReleaseIdentity(response.audit.value, snapshot)
    requires snapshot.BannerConfigAt(response.records[0].bannerId, response.acceptedAt.value) == Ok(Some(c))
    requires Pulls(rng, c, |response.records|, response.previousPity.pity, response.seed) == Ok(replay)
    ensures Reproduces(rng, response, snapshot) <==>
              && SameRelease(response.audit.value, snapshot, c)
              && replay == Batch(response.records, response.nextPity.pity)
              && response.nextPity.version == response.previousPity.version + 1
              && response.stateVersion == response.previousPity.version + 1
  {
  }

  const RELEASE_CHECKS: set<Check> :=
    {ReleaseId, ReleaseNumber, ReleaseSnapshotSha256, BannerVersionId, BannerConfigSha256, RngAlgorithmVersion}
  const REPLAY_CHECKS: set<Check> := {ResultRecords, NextPityCheck, StateVersion}

  /** Each check of release and configuration is true exactly of what its name says. */
  ghost predicate ReleaseChecks(audit: PullAuditMetadata, snapshot: CatalogSnapshot, c: BannerConfig,
                                checks: map<Check, bool>)
  {
    && RELEASE_CHECKS <= checks.Keys
    && (checks[ReleaseId] <==> audit.releaseId == snapshot.releaseId)
    && (checks[ReleaseNumber] <==> audit.releaseNumber == snapshot.releaseNumber)
    && (checks[ReleaseSnapshotSha256] <==> audit.releaseSnapshotSha256 == snapshot.snapshotSha256)
    && (checks[BannerVersionId] <==> audit.bannerVersionId == c.bannerVersionId)
    && (checks[BannerConfigSha256] <==> audit.bannerConfigSha256.evidence == ConfigEvidence(c))
    && (checks[RngAlgorithmVersion] <==> audit.rngAlgorithmVersion == "wuwa-gacha-rng-v1")
  }

  /** And so is each check of the replay. */
  ghost predicate ReplayChecks(response: PullResponse, replay: Batch, checks: map<Check, bool>)
  {
    && REPLAY_CHECKS <= checks.Keys
    && (checks[ResultRecords] <==> response.records == replay.records)
    && (checks[NextPityCheck] <==> response.nextPity == PitySnapshot(replay.pity, response.previousPity.version + 1))
    && (checks[StateVersion] <==> response.stateVersion == response.previousPity.version + 1)
  }

  predicate AllPass(checks: map<Check, bool>)
  {
    forall name :: name in checks ==> checks[name]
  }

  lemma AddedCheck(checks: map<Check, bool>, name: Check, passed: bool)
    requires name !in checks
    ensures AllPass(checks[name := passed]) <==> AllPass(checks) && passed
  {
    assert forall other :: other in checks ==> checks[name := passed][other] == checks[other];
    assert checks[name := passed][name] == passed;
  }

  /** The checks of the release and of the configuration, filled in one by one. */
  method CheckRelease(audit: PullAuditMetadata, snapshot: CatalogSnapshot, c: BannerConfig)
    returns (checks: map<Check, bool>)
    ensures checks.Keys == RELEASE_CHECKS
    ensures ReleaseChecks(audit, snapshot, c, checks)
    ensures AllPass(checks) <==> SameRelease(audit, snapshot, c)
  {
    checks := map[];
    var passed := snapshot.releaseId == audit.releaseId;
    AddedCheck(checks, ReleaseId, passed);
    checks := checks[ReleaseId := passed];
    passed := snapshot.releaseNumber == audit.releaseNumber;
    AddedCheck(checks, ReleaseNumber, passed);
    checks := checks[ReleaseNumber := passed];
    passed := snapshot.snapshotSha256 == audit.releaseSnapshotSha256;
    AddedCheck(checks, ReleaseSnapshotSha256, passed);
    checks := checks[ReleaseSnapshotSha256 := passed];
    passed := c.bannerVersionId == audit.bannerVersionId;
    AddedCheck(checks, BannerVersionId, passed);
    checks := checks[BannerVersionId := passed];
    passed := Sha256(ConfigEvidence(c)) == audit.bannerConfigSha256;
    AddedCheck(checks, BannerConfigSha256, passed);
    checks := checks[BannerConfigSha256 := passed];
    passed := audit.rngAlgorithmVersion == RNG_ALGORITHM_VERSION;
    AddedCheck(checks, RngAlgorithmVersion, passed);
    checks := checks[RngAlgorithmVersion := passed];
  }

  /** The checks of the records, the next pity and the version are added to them. */
  method CheckReplay(released: map<Check, bool>, response: PullResponse, replay: Batch)
    returns (checks: map<Check, bool>)
    requires ResultRecords !in released && NextPityCheck !in released && StateVersion !in released
    ensures checks.Keys == released.Keys + REPLAY_CHECKS
    ensures (forall name :: name in released ==> checks[name] == released[name])
            && ReplayChecks(response, replay, checks)
    ensures AllPass(checks) <==>
              && AllPass(released) && replay == Batch(response.records, response.nextPity.pity)
              && response.nextPity.version == response.previousPity.version + 1
              && response.stateVersion == response.previousPity.version + 1
  {
    var next := PitySnapshot(replay.pity, response.previousPity.version + 1);
    var passed := replay.records == response.records;
    AddedCheck(released, ResultRecords, passed);
    checks := released[ResultRecords := passed];
    passed := next == response.nextPity;
    AddedCheck(checks, NextPityCheck, passed);
    checks := checks[NextPityCheck := passed];
    passed := response.stateVersion == next.version;
    AddedCheck(checks, StateVersion, passed);
    checks := checks[StateVersion := passed];
  }

  /** With the configuration found, the verdict turns on generator and replay alone. */
  lemma FoundVerdict(rng: RandomSource, response: PullResponse, snapshot: CatalogSnapshot, c: BannerConfig)
    requires Identified(response, snapshot) && Finds(response, snapshot, c)
    ensures var sameRng, replay := response.audit.value.rngAlgorithmVersion == RNG_ALGORITHM_VERSION,
                                   Replayed(rng, response, c);
            && (CannotVerify(response, snapshot) <==> !sameRng)
            && (CannotReplay(rng, response, snapshot) <==> sameRng && replay.Err?)
            && (Differs(rng, response, snapshot) <==> sameRng && replay.Ok? && !Reproduces(rng, response, snapshot))
            && (Reproduces(rng, response, snapshot) ==> sameRng && replay.Ok?)
  {
  }

  /** What the verification reports besides its verdict, of a configuration it has found. */
  ghost predicate ChecksTell(rng: RandomSource, response: PullResponse, snapshot: CatalogSnapshot, c: BannerConfig,
                             v: Verification)
    requires Identified(response, snapshot)
  {
    && ReleaseChecks(response.audit.value, snapshot, c, v.checks)
    && if response.audit.value.rngAlgorithmVersion == RNG_ALGORITHM_VERSION then
         && v.replayed.Some? && Replayed(rng, response, c) == Ok(v.replayed.value)
         && ReplayChecks(response, v.replayed.value, v.checks) && v.checks.Keys == RELEASE_CHECKS + REPLAY_CHECKS
       else v.replayed.None? && v.checks.Keys == RELEASE_CHECKS
  }

  /** The answer once the configuration is found: an error exactly when the replay fails, else checks
      that tell the truth and a verdict that follows from them. */
  ghost predicate FoundAnswer(rng: RandomSource, response: PullResponse, snapshot: CatalogSnapshot, c: BannerConfig,
                              r: Result<Verification, AuditError>)
    requires Identified(response, snapshot)
  {
    var sameRng, replay := response.audit.value.rngAlgorithmVersion == RNG_ALGORITHM_VERSION,
                           Replayed(rng, response, c);
    if sameRng && replay.Err? then r == Err(Replay(replay.error))
    else
      && r.Ok? && ChecksTell(rng, response, snapshot, c, r.value)
      && r.value.status == (if !sameRng then Unverifiable
                            else if Reproduces(rng, response, snapshot) then Verified else Mismatch)
      && (AllPass(r.value.checks) <==> r.value.status == Verified)
  }

  lemma ReplayAnswers(rng: RandomSource, response: PullResponse, snapshot: CatalogSnapshot, c: BannerConfig,
                      released: map<Check, bool>, replay: Batch, checks: map<Check, bool>)
    requires Identified(response, snapshot) && Finds(response, snapshot, c) && Replayed(rng, response, c) == Ok(replay)
    requires ReleaseChecks(response.audit.value, snapshot, c, released) && released[RngAlgorithmVersion]
    requires released.Keys == RELEASE_CHECKS && checks.Keys == released.Keys + REPLAY_CHECKS
    requires AllPass(released) <==> SameRelease(response.audit.value, snapshot, c)
    requires (forall name :: name in released ==> checks[name] == released[name])
             && ReplayChecks(response, replay, checks)
    requires AllPass(checks) <==>
               && AllPass(released) && replay == Batch(response.records, response.nextPity.pity)
               && response.nextPity.version == response.previousPity.version + 1
               && response.stateVersion == response.previousPity.version + 1
    ensures FoundAnswer(rng, response, snapshot, c,
                        Ok(Verification(if AllPass(checks) then Verified else Mismatch, checks, Some(replay))))
  {
    ReproducesWhen(rng, response, snapshot, c, replay);
  }

  lemma OtherGeneratorAnswers(rng: RandomSource, response: PullResponse, snapshot: CatalogSnapshot, c: BannerConfig,
                              released: map<Check, bool>)
    requires Identified(response, snapshot) && released.Keys == RELEASE_CHECKS
    requires ReleaseChecks(response.audit.value, snapshot, c, released) && !released[RngAlgorithmVersion]
    ensures FoundAnswer(rng, response, snapshot, c, Ok(Verification(Unverifiable, released, None)))
  {
  }

  /** `verify_pull_response`, once the configuration is found. */
  method VerifyFound(rng: RandomSource, response: PullResponse, snapshot: CatalogSnapshot, c: BannerConfig)
    returns (r: Result<Verification, AuditError>)
    requires Identified(response, snapshot) && Finds(response, snapshot, c)
    ensures FoundAnswer(rng, response, snapshot, c, r)
  {
    var released := CheckRelease(response.audit.value, snapshot, c);
    if !released[RngAlgorithmVersion] {
      OtherGeneratorAnswers(rng, response, snapshot, c, released);
      return Ok(Verification(Unverifiable, released, None));
    }
    var replay := PerformPulls(rng, c, |response.records|, response.previousPity.pity, response.seed);
    if replay.Err? {
      return Err(Replay(replay.error));
    }
    var checks := CheckReplay(released, response, replay.value);
    ReplayAnswers(rng, response, snapshot, c, released, replay.value, checks);
    var passed := AllPass(checks);
    return Ok(Verification(if passed then Verified else Mismatch, checks, Some(replay.value)));
  }

  /** `verify_pull_response`: an exact verdict, or the exact reason there is none. */
  method VerifyPullResponse(rng: RandomSource, response: PullResponse, snapshot: CatalogSnapshot)
    returns (r: Result<Verification, AuditError>)
    ensures r.Err? <==> CannotReplay(rng, response, snapshot)
    ensures Reproduces(rng, response, snapshot) ==> r.Ok?
    ensures r.Ok? ==> (r.value.status == Verified <==> Reproduces(rng, response, snapshot))
    ensures r.Ok? ==> (r.value.status == Mismatch <==> Differs(rng, response, snapshot))
    ensures r.Ok? ==> (r.value.status == Unverifiable <==> CannotVerify(response, snapshot))
    ensures r.Ok? && Identified(response, snapshot) ==> (r.value.status == Verified <==> AllPass(r.value.checks))
    ensures r.Ok? && Identified(response, snapshot) ==>
              forall c :: Finds(response, snapshot, c) ==> ChecksTell(rng, response, snapshot, c, r.value)
    ensures !HasEvidence(response) ==> r == Ok(Verification(Unverifiable, map[], None))
    ensures HasEvidence(response) && !HasReleaseIdentity(response.audit.value, snapshot) ==>
              r == Ok(Verification(Unverifiable, map[ImmutableReleaseIdentity := false], None))
    ensures HasEvidence(response) && HasReleaseIdentity(response.audit.value, snapshot)
            && snapshot.BannerConfigAt(response.records[0].bannerId, response.acceptedAt.value) == Ok(None) ==>
              r == Ok(Verification(Mismatch, map[BannerConfiguration := false], None))
  {
    if !HasEvidence(response) {
      return Ok(Verification(Unverifiable, map[], None));
    }
    if !HasReleaseIdentity(response.audit.value, snapshot) {
      return Ok(Verification(Unverifiable, map[ImmutableReleaseIdentity := false], None));
    }
    var lookup := snapshot.BannerConfigAt(response.records[0].bannerId, response.acceptedAt.value);
    if lookup.Err? {
      return Err(Catalog(lookup.error));
    }
    if lookup.value.None? {
      var checks := map[BannerConfiguration := false];
      assert BannerConfiguration in checks && !checks[BannerConfiguration];
      return Ok(Verification(Mismatch, checks, None));
    }
    FoundVerdict(rng, response, snapshot, lookup.value.value);
    r := VerifyFound(rng, response, snapshot, lookup.value.value);
  }
}
