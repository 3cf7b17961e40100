/** Durable pull operation state, `pull_operations.py`: the inputs a charged pull freezes so
    that any worker can finish it. */
module PullOperations {
  import opened Collections
  import opened CatalogConfig
  import opened Schemas

  datatype PullRecoveryContext = PullRecoveryContext(
    banner: Banner,
    pityGroupId: string,
    bannerVersionId: Option<string>,
    bannerVersion: int,
    items: seq<GachaItem>,
    rarityRates: seq<RarityRate>,
    featuredRules: seq<FeaturedRule>,
    pityRules: seq<PityRule>,
    featuredItemIdsByRarity: map<int, seq<string>>,
    count: int,
    seed: string,
    eventId: EventId,
    amountMinor: int,
    acceptedAt: Option<Time>,
    audit: Option<PullAuditMetadata>)
  {
    function ToBannerConfig(): (c: BannerConfig)
    {
      BannerConfig(
        banner, pityGroupId, bannerVersionId, bannerVersion, items, ItemsById(items),
        Keyed(rarityRates, (rate: RarityRate) => rate.rarity),
        Keyed(featuredRules, (rule: FeaturedRule) => rule.rarity),
        Keyed(pityRules, (rule: PityRule) => rule.rarity),
        featuredItemIdsByRarity)
    }
  }

  function FromBannerConfig(c: BannerConfig, count: int, seed: string, eventId: EventId, amountMinor: int,
                            acceptedAt: Option<Time>, audit: Option<PullAuditMetadata>)
    : (context: PullRecoveryContext)
  {
    PullRecoveryContext(
      c.banner, c.pityGroupId, c.bannerVersionId, c.version, c.allItems,
      SortedValues(c.rarityRates), SortedValues(c.featuredRules), SortedValues(c.pityRules),
      c.featuredItemIdsByRarity, count, seed, eventId, amountMinor, acceptedAt, audit)
  }

  /** Freezing a configuration and thawing it gives the configuration back, so a pull resumed
      by another worker runs on exactly the configuration that accepted it. */
  lemma FrozenConfigThaws(c: BannerConfig, count: int, seed: string, eventId: EventId, amountMinor: int,
                          acceptedAt: Option<Time>, audit: Option<PullAuditMetadata>)
    requires c.WellFiled()
    ensures FromBannerConfig(c, count, seed, eventId, amountMinor, acceptedAt, audit).ToBannerConfig() == c
  {
    KeyedSortedValues(c.rarityRates, (rate: RarityRate) => rate.rarity);
    KeyedSortedValues(c.featuredRules, (rule: FeaturedRule) => rule.rarity);
    KeyedSortedValues(c.pityRules, (rule: PityRule) => rule.rarity);
  }

  datatype PullOperationStatus =
    Processing | EventPending | EventPublished | Succeeded | RefundPending | Failed

  datatype PullOperation = PullOperation(
    status: PullOperationStatus,
    requestHash: RequestHash,
    response: Option<PullResponse>,
    event: Option<PullCompletedEvent>,
    errorCode: Option<string>,
    recoveryContext: Option<PullRecoveryContext>)

  predicate Committed(status: PullOperationStatus)
  {
    status.EventPending? || status.EventPublished? || status.Succeeded?
  }
}
