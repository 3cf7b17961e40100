/** Runtime catalog and rule models: `catalog_config.py` with the item and banner schemas
    it uses.  Display fields are not part of the model. */
module CatalogConfig {
  import opened Collections

  /** An instant; every timestamp the service handles carries a timezone. */
  type Time = int

  datatype GachaItem = GachaItem(id: string, rarity: int)

  datatype Banner = Banner(id: string, featuredFiveId: Option<string>,
                           featuredFourIds: seq<string>, itemPool: seq<string>)

  datatype RarityRate = RarityRate(rarity: int, baseRatePpm: int, rollOrder: int)

  datatype FeaturedRule = FeaturedRule(rarity: int, featuredGroup: string, featuredRatePpm: int,
                                       guaranteeAfterMiss: bool, missSetsGuarantee: bool,
                                       guaranteeStateKey: Option<string>)

  datatype PityRule = PityRule(rarity: int, counterKey: string, hardPity: int,
                               softPityStart: Option<int>, softPityIncrementPpm: int,
                               resetsLowerRarity: bool)

  /** `item_by_id[item_id] for item_id in ids if ...` */
  function Listed(itemById: map<string, GachaItem>, rarity: int, excluded: set<string>,
                  ids: seq<string>): (pool: seq<GachaItem>)
  {
    if ids == [] then []
    else
      var rest := Listed(itemById, rarity, excluded, ids[1..]);
      if ids[0] in itemById && itemById[ids[0]].rarity == rarity && ids[0] !in excluded
      then [itemById[ids[0]]] + rest
      else rest
  }

  /** `item for item in items if item.rarity == rarity and item.id not in excluded` */
  function OfRarity(items: seq<GachaItem>, rarity: int, excluded: set<string>): (pool: seq<GachaItem>)
  {
    if items == [] then []
    else
      var rest := OfRarity(items[1..], rarity, excluded);
      if items[0].rarity == rarity && items[0].id !in excluded then [items[0]] + rest else rest
  }

  function ItemsById(items: seq<GachaItem>): (m: map<string, GachaItem>)
  {
    Keyed(items, (item: GachaItem) => item.id)
  }

  datatype BannerConfig = BannerConfig(
    banner: Banner,
    pityGroupId: string,
    bannerVersionId: Option<string>,
    version: int,
    allItems: seq<GachaItem>,
    itemById: map<string, GachaItem>,
    rarityRates: map<int, RarityRate>,
    featuredRules: map<int, FeaturedRule>,
    pityRules: map<int, PityRule>,
    featuredItemIdsByRarity: map<int, seq<string>>)
  {
    /** The banner's own items of a rarity, or, when that leaves none, all items of it. */
    function PoolForRarity(rarity: int, excluded: set<string>): (pool: seq<GachaItem>)
    {
      var listed := Listed(itemById, rarity, excluded, banner.itemPool);
      if listed != [] then listed else OfRarity(allItems, rarity, excluded)
    }

    function FeaturedIds(rarity: int): (ids: seq<string>)
    {
      if rarity in featuredItemIdsByRarity then featuredItemIdsByRarity[rarity] else []
    }

    /** What both ways of building a configuration guarantee: rules are filed under the rarity
        they carry, and items under their ids. */
    ghost predicate WellFiled()
    {
      && (forall k :: k in rarityRates ==> rarityRates[k].rarity == k)
      && (forall k :: k in featuredRules ==> featuredRules[k].rarity == k)
      && (forall k :: k in pityRules ==> pityRules[k].rarity == k)
      && itemById == ItemsById(allItems)
    }
  }

  datatype ScheduledBannerConfig = ScheduledBannerConfig(
    config: BannerConfig, effectiveFrom: Option<Time>, effectiveTo: Option<Time>)
  {
    predicate IsEffectiveAt(at: Time)
    {
      && (effectiveFrom.None? || effectiveFrom.value <= at)
      && (effectiveTo.None? || at < effectiveTo.value)
    }
  }

  /** The configurations of the schedules in force at an instant. */
  function Effective(schedules: seq<ScheduledBannerConfig>, at: Time): (configs: seq<BannerConfig>)
  {
    if schedules == [] then []
    else
      (if schedules[0].IsEffectiveAt(at) then [schedules[0].config] else []) + Effective(schedules[1..], at)
  }

  lemma {:induction false} EffectiveIsScheduled(schedules: seq<ScheduledBannerConfig>, at: Time, c: BannerConfig)
    requires c in Effective(schedules, at)
    ensures exists i :: 0 <= i < |schedules| && schedules[i].config == c && schedules[i].IsEffectiveAt(at)
  {
    if schedules[0].IsEffectiveAt(at) && c == schedules[0].config {
    } else {
      EffectiveIsScheduled(schedules[1..], at, c);
      var i :| 0 <= i < |schedules[1..]| && schedules[1..][i].config == c && schedules[1..][i].IsEffectiveAt(at);
      assert schedules[i + 1].config == c;
    }
  }

  datatype CatalogError = OverlappingSchedules

  datatype SnapshotSource = Static | Postgres

  datatype CatalogSnapshot = CatalogSnapshot(
    source: SnapshotSource,
    loadedAt: Time,
    bannerConfigsById: map<string, BannerConfig>,
    bannerSchedulesById: map<string, seq<ScheduledBannerConfig>>,
    releaseId: Option<string>,
    releaseNumber: Option<int>,
    snapshotSha256: Option<string>)
  {
    function BannerConfigAt(bannerId: string, at: Time): (r: Result<Option<BannerConfig>, CatalogError>)
    {
      if bannerId !in bannerSchedulesById || bannerSchedulesById[bannerId] == [] then
        Ok(if bannerId in bannerConfigsById then Some(bannerConfigsById[bannerId]) else None)
      else
        var effective := Effective(bannerSchedulesById[bannerId], at);
        if |effective| > 1 then Err(OverlappingSchedules)
        else if effective == [] then Ok(None)
        else Ok(Some(effective[0]))
    }
  }

  /** A banner without schedules, as in the built-in catalog, is offered at every instant as it is
      configured; one with schedules only as they say. */
  lemma UnscheduledIsOffered(snapshot: CatalogSnapshot, bannerId: string, at: Time)
    ensures var offer, schedules := snapshot.BannerConfigAt(bannerId, at), snapshot.bannerSchedulesById;
            if bannerId in schedules && |schedules[bannerId]| > 0
            then offer.Ok? && offer.value.Some? ==>
                   exists i :: 0 <= i < |schedules[bannerId]| && schedules[bannerId][i].config == offer.value.value
                               && schedules[bannerId][i].IsEffectiveAt(at)
            else offer == Ok(if bannerId in snapshot.bannerConfigsById then Some(snapshot.bannerConfigsById[bannerId])
                             else None)
  {
    if bannerId in snapshot.bannerSchedulesById {
      var effective := Effective(snapshot.bannerSchedulesById[bannerId], at);
      if effective != [] {
        EffectiveIsScheduled(snapshot.bannerSchedulesById[bannerId], at, effective[0]);
      }
    }
  }
}
