/** Request, response and event schemas.  Identifiers derived by hashing are modelled by
    injective constructors: a digest is the evidence it digests, a record id is the tuple of
    values it is derived from, an event id is the (user, idempotency key) it is derived from. */
module Schemas {
  import opened Collections
  import opened CatalogConfig

  type Uuid = nat

  datatype PityState = PityState(sinceFive: nat, sinceFour: nat, guaranteedFeaturedFive: bool)

  const INITIAL_PITY := PityState(0, 0, false)

  datatype PitySnapshot = PitySnapshot(pity: PityState, version: nat)

  const INITIAL_SNAPSHOT := PitySnapshot(INITIAL_PITY, 0)

  datatype RecordId = RecordId(seed: string, index: nat, bannerId: string, itemId: string,
                               pityAtFive: nat, pityAtFour: nat)

  datatype PullRecord = PullRecord(id: RecordId, index: nat, itemId: string, rarity: int,
                                   bannerId: string, pityAtFive: nat, pityAtFour: nat,
                                   isFeatured: bool)

  datatype Batch = Batch(records: seq<PullRecord>, pity: PityState)

  datatype PullRequest = PullRequest(bannerId: string, count: int, seed: Option<string>)

  /** The canonical configuration that can affect a pull result. */
  datatype Evidence = Evidence(
    banner: Banner,
    pityGroupId: string,
    bannerVersionId: Option<string>,
    bannerVersion: int,
    items: seq<GachaItem>,
    rarityRates: seq<RarityRate>,
    featuredRules: seq<FeaturedRule>,
    pityRules: seq<PityRule>,
    featuredItemIdsByRarity: map<int, seq<string>>)

  datatype Digest = Sha256(evidence: Evidence)

  datatype PullAuditMetadata = PullAuditMetadata(
    releaseId: Option<string>,
    releaseNumber: Option<int>,
    releaseSnapshotSha256: Option<string>,
    bannerVersionId: Option<string>,
    bannerConfigSha256: Digest,
    rngAlgorithmVersion: string,
    engineVersion: string,
    engineBuildSha: string)

  datatype UserKey = UserKey(user: Uuid, idempotencyKey: string)

  datatype EventId = EventId(origin: UserKey)

  /** `pull_request_hash`: the digest of the banner, the count and the seed. */
  datatype RequestHash = RequestHash(bannerId: string, count: int, seed: string)

  datatype PullResponse = PullResponse(
    eventId: EventId,
    acceptedAt: Option<Time>,
    pityGroupId: string,
    bannerVersionId: Option<string>,
    seed: string,
    records: seq<PullRecord>,
    previousPity: PitySnapshot,
    nextPity: PitySnapshot,
    stateVersion: nat,
    audit: Option<PullAuditMetadata>)

  datatype PullCompletedEvent = PullCompletedEvent(
    eventId: EventId,
    acceptedAt: Option<Time>,
    userId: Uuid,
    bannerId: string,
    pityGroupId: string,
    bannerVersionId: Option<string>,
    seed: string,
    records: seq<PullRecord>,
    previousPity: PitySnapshot,
    nextPity: PitySnapshot,
    stateVersion: nat,
    audit: Option<PullAuditMetadata>)
}
