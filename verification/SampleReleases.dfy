/** Releases the loader accepts, on which promises that look unconditional fail: one whose versions
    overlap later, one whose banner cannot be served, and one whose only five-star is featured. */
module SampleReleases {
  import opened Collections
  import opened CatalogConfig
  import opened Schemas
  import opened Engine
  import opened EngineRules
  import opened CatalogAssembly
  import opened CatalogRepository

  const FIVE := GachaItem("five", 5)
  const FOUR := GachaItem("four", 4)
  const THREE := GachaItem("three", 3)

  const RATES: map<int, RarityRate> := map[5 := RarityRate(5, 8_000, 1), 4 := RarityRate(4, 60_000, 2)]

  function PityRules(fiveHardPity: int): (rules: map<int, PityRule>)
  {
    map[5 := PityRule(5, "five_star", fiveHardPity, None, 0, true), 4 := PityRule(4, "four_star", 10, None, 0, false)]
  }

  /** Items pooled by a version, those of one name featured. */
  function PoolRows(versionId: string, ids: seq<string>, featured: string): (rows: seq<BannerItemRow>)
  {
    seq(|ids|, i requires 0 <= i < |ids| => BannerItemRow(versionId, ids[i], if ids[i] == featured then "up" else ""))
  }

  function VersionOf(versionId: string, from: Time): (row: VersionRow)
  {
    VersionRow(versionId, "b", Some("rules"), 1, Some(from), None)
  }

  /** One banner, whose versions share one rule set. */
  function PayloadOf(items: seq<GachaItem>, versions: seq<VersionRow>, rows: seq<BannerItemRow>,
                     featuredRules: seq<FeaturedRule>, fiveHardPity: int): (p: Payload)
  {
    Payload(items, map["b" := None], versions, rows, [], [], [],
            [Owned("rules", RATES[5]), Owned("rules", RATES[4])],
            seq(|featuredRules|, i requires 0 <= i < |featuredRules| => Owned("rules", featuredRules[i])),
            [Owned("rules", PityRules(fiveHardPity)[5]), Owned("rules", PityRules(fiveHardPity)[4])])
  }

  // ---- what their versions build ----------------------------------------------------------

  lemma OneOwner<V>(rarityOf: V -> int, a: V)
    ensures ByOwner([Owned("rules", a)], rarityOf) == map["rules" := map[rarityOf(a) := a]]
  {
    assert [Owned("rules", a)][..0] == [];
  }

  lemma TwoOwned<V>(rarityOf: V -> int, a: V, b: V)
    ensures ByOwner([Owned("rules", a), Owned("rules", b)], rarityOf)
         == map["rules" := map[rarityOf(a) := a][rarityOf(b) := b]]
  {
    OneOwner(rarityOf, a);
    assert [Owned("rules", a), Owned("rules", b)][..1] == [Owned("rules", a)];
  }

  lemma SharedRules(items: seq<GachaItem>, versions: seq<VersionRow>, rows: seq<BannerItemRow>,
                    featuredRules: seq<FeaturedRule>, fiveHardPity: int, row: VersionRow)
    requires row.ruleSetId == Some("rules") && |featuredRules| <= 1
    ensures var p := PayloadOf(items, versions, rows, featuredRules, fiveHardPity);
            && RatesOf(p, row) == RATES && PityRulesOf(p, row) == PityRules(fiveHardPity)
            && FeaturedRulesOf(p, row)
               == if featuredRules == [] then map[] else map[featuredRules[0].rarity := featuredRules[0]]
  {
    TwoOwned(RATE_RARITY, RATES[5], RATES[4]);
    TwoOwned(PITY_RARITY, PityRules(fiveHardPity)[5], PityRules(fiveHardPity)[4]);
    if featuredRules != [] {
      OneOwner(FEATURED_RARITY, featuredRules[0]);
      assert PayloadOf(items, versions, rows, featuredRules, fiveHardPity).ruleSetFeaturedRules
          == [Owned("rules", featuredRules[0])];
    }
  }

  lemma {:induction false} RowsOfVersion(rows: seq<BannerItemRow>, versionId: string)
    ensures (forall row :: row in rows ==> row.versionId == versionId) ==> ItemRowsOf(rows, versionId) == rows
    ensures (forall row :: row in rows ==> row.versionId != versionId) ==> ItemRowsOf(rows, versionId) == []
  {
    if rows != [] {
      RowsOfVersion(rows[1..], versionId);
      assert rows[0] in rows && rows == [rows[0]] + rows[1..];
    }
  }

  /** The configuration of a version with the given pool. */
  function ConfigOf(versionId: string, items: seq<GachaItem>, ids: seq<string>, featured: string,
                    featuredRules: seq<FeaturedRule>, fiveHardPity: int): (c: BannerConfig)
    requires forall id :: id in ids ==> id in ItemsById(items)
    requires |featuredRules| <= 1
  {
    var byRarity := FeaturedByRarity(PoolRows(versionId, ids, featured), ItemsById(items));
    BannerConfig(
      Banner("b", if 5 in byRarity && byRarity[5] != [] then Some(byRarity[5][0]) else None,
             if 4 in byRarity then byRarity[4] else [], ids),
      "b", Some(versionId), 1, items, ItemsById(items), RATES,
      if featuredRules == [] then map[] else map[featuredRules[0].rarity := featuredRules[0]],
      PityRules(fiveHardPity), byRarity)
  }

  lemma PooledAsListed(versionId: string, ids: seq<string>, featured: string)
    ensures PooledIds(PoolRows(versionId, ids, featured)) == ids
    ensures forall row :: row in PoolRows(versionId, ids, featured) ==> row.itemId in ids
  {
  }

  lemma VersionBuilds(items: seq<GachaItem>, versions: seq<VersionRow>, rows: seq<BannerItemRow>,
                      featuredRules: seq<FeaturedRule>, fiveHardPity: int, versionId: string, from: Time,
                      ids: seq<string>, featured: string)
    requires |featuredRules| <= 1 && ids != [] && (forall id :: id in ids ==> id in ItemsById(items))
    requires ItemRowsOf(rows, versionId) == PoolRows(versionId, ids, featured)
    ensures BuildConfig(PayloadOf(items, versions, rows, featuredRules, fiveHardPity), VersionOf(versionId, from))
         == Ok(ScheduledBannerConfig(ConfigOf(versionId, items, ids, featured, featuredRules, fiveHardPity),
                                     Some(from), None))
  {
    SharedRules(items, versions, rows, featuredRules, fiveHardPity, VersionOf(versionId, from));
    PooledAsListed(versionId, ids, featured);
    var pool := PoolRows(versionId, ids, featured);
    assert |pool| > 0 && forall i :: 0 <= i < |pool| ==> pool[i].itemId in ItemsById(items);
    assert ValidPityGroup("b");
  }

  lemma OneScheduled(build: Builder, row: VersionRow, s: ScheduledBannerConfig)
    requires build(row) == Ok(s)
    ensures Schedules(build, [row]) == Ok(map[row.bannerId := [s]])
  {
    assert [row][..0] == [] && Schedules(build, []) == Ok(map[]);
    assert InsertSchedule([], s) == [s];
  }

  lemma TwoScheduled(build: Builder, row: VersionRow, later: VersionRow, s: ScheduledBannerConfig,
                     s': ScheduledBannerConfig)
    requires build(row) == Ok(s) && build(later) == Ok(s') && row.bannerId == later.bannerId && !StartsBefore(s', s)
    ensures Schedules(build, [row, later]) == Ok(map[row.bannerId := [s, s']])
  {
    OneScheduled(build, row, s);
    var rows := [row, later];
    assert rows[..1] == [row] && rows[|rows| - 1] == later;
    assert Schedules(build, rows[..1]) == Ok(map[row.bannerId := [s]]);
    assert InsertSchedule([s], s') == [s, s'];
    assert AddSchedule(map[row.bannerId := [s]], later, s') == map[row.bannerId := [s, s']];
  }

  /** A release whose first schedule alone is in force offers it. */
  lemma FirstOffered(release: Release, at: Time, s: ScheduledBannerConfig, later: seq<ScheduledBannerConfig>)
    requires Buildable(release) && !OverlapsAt(release, at)
    requires Schedules(BuilderOf(release.payload), release.payload.versions) == Ok(map["b" := [s] + later])
    requires s.IsEffectiveAt(at) && |later| <= 1 && (later != [] ==> !later[0].IsEffectiveAt(at))
    ensures BuildSnapshot(release, at).Ok?
    ensures BuildSnapshot(release, at).value.BannerConfigAt("b", at) == Ok(Some(s.config))
  {
    LoadsExactly(release, at);
    assert ([s] + later)[1..] == later && (later != [] ==> later[1..] == []);
    assert Effective(later, at) == [];
  }

  /** A release of two versions, of which the first alone is in force at the instant. */
  lemma EarlierOffered(release: Release, at: Time, s: ScheduledBannerConfig, s': ScheduledBannerConfig)
    requires release.checksumValid && |release.payload.versions| == 2
    requires var rows, build := release.payload.versions, BuilderOf(release.payload);
             && rows[0].bannerId == "b" == rows[1].bannerId && build(rows[0]) == Ok(s) && build(rows[1]) == Ok(s')
             && InForceAt(rows[0], at) && !InForceAt(rows[1], at)
    requires s.IsEffectiveAt(at) && !s'.IsEffectiveAt(at) && !StartsBefore(s', s)
    ensures BuildSnapshot(release, at).Ok?
    ensures BuildSnapshot(release, at).value.BannerConfigAt("b", at) == Ok(Some(s.config))
  {
    var rows, build := release.payload.versions, BuilderOf(release.payload);
    assert rows == [rows[0], rows[1]];
    TwoScheduled(build, rows[0], rows[1], s, s');
    SchedulesExactly(build, rows);
    assert [s] + [s'] == [s, s'];
    FirstOffered(release, at, s, [s']);
  }

  /** A release of one version in force. */
  lemma OnlyOneOffered(release: Release, at: Time, s: ScheduledBannerConfig)
    requires release.checksumValid && |release.payload.versions| == 1
    requires var rows, build := release.payload.versions, BuilderOf(release.payload);
             rows[0].bannerId == "b" && build(rows[0]) == Ok(s)
    requires s.IsEffectiveAt(at)
    ensures BuildSnapshot(release, at).Ok?
    ensures BuildSnapshot(release, at).value.BannerConfigAt("b", at) == Ok(Some(s.config))
  {
    var rows, build := release.payload.versions, BuilderOf(release.payload);
    assert rows == [rows[0]];
    OneScheduled(build, rows[0], s);
    SchedulesExactly(build, rows);
    assert [s] + [] == [s];
    FirstOffered(release, at, s, []);
  }

  // ---- versions that overlap later --------------------------------------------------------

  const POOL: seq<string> := ["five", "four", "three"]

  /** The first version is in force from 0 on, the second from 10 on. */
  function Overlapping(): (release: Release)
  {
    Release("r", Some(1), Some("sha"), true,
            PayloadOf([FIVE, FOUR, THREE], [VersionOf("v1", 0), VersionOf("v2", 10)],
                      PoolRows("v1", POOL, "") + PoolRows("v2", POOL, ""), [], 90))
  }

  lemma ItemsOfAllRarities()
    ensures ItemsById([FIVE, FOUR, THREE]) == map["five" := FIVE, "four" := FOUR, "three" := THREE]
  {
    var key := (item: GachaItem) => item.id;
    assert [FIVE, FOUR, THREE][1..] == [FOUR, THREE] && [FOUR, THREE][1..] == [THREE] && [THREE][1..] == [];
    assert Keyed([THREE], key) == map["three" := THREE];
    assert Keyed([FOUR, THREE], key) == map["four" := FOUR, "three" := THREE];
  }

  lemma OverlappingBuilds()
    ensures forall id :: id in POOL ==> id in ItemsById([FIVE, FOUR, THREE])
    ensures var build := BuilderOf(Overlapping().payload);
            && build(VersionOf("v1", 0))
               == Ok(ScheduledBannerConfig(ConfigOf("v1", [FIVE, FOUR, THREE], POOL, "", [], 90), Some(0), None))
            && build(VersionOf("v2", 10))
               == Ok(ScheduledBannerConfig(ConfigOf("v2", [FIVE, FOUR, THREE], POOL, "", [], 90), Some(10), None))
  {
    ItemsOfAllRarities();
    var rows := PoolRows("v1", POOL, "") + PoolRows("v2", POOL, "");
    forall v, other | v in {"v1", "v2"} && other in {"v1", "v2"}
      ensures ItemRowsOf(PoolRows(v, POOL, ""), other) == if v == other then PoolRows(v, POOL, "") else []
    {
      RowsOfVersion(PoolRows(v, POOL, ""), other);
    }
    RowsJoin(PoolRows("v1", POOL, ""), PoolRows("v2", POOL, ""), "v1");
    RowsJoin(PoolRows("v1", POOL, ""), PoolRows("v2", POOL, ""), "v2");
    var versions := [VersionOf("v1", 0), VersionOf("v2", 10)];
    VersionBuilds([FIVE, FOUR, THREE], versions, rows, [], 90, "v1", 0, POOL, "");
    VersionBuilds([FIVE, FOUR, THREE], versions, rows, [], 90, "v2", 10, POOL, "");
  }

  /** It loads at 5, and offers the first version then, which can be served; at 20 both versions
      are in force. */
  lemma OverlappingLoads()
    ensures forall id :: id in POOL ==> id in ItemsById([FIVE, FOUR, THREE])
    ensures BuildSnapshot(Overlapping(), 5).Ok? && OverlapsAt(Overlapping(), 20)
    ensures BuildSnapshot(Overlapping(), 5).value.BannerConfigAt("b", 5)
         == Ok(Some(ConfigOf("v1", [FIVE, FOUR, THREE], POOL, "", [], 90)))
  {
    var rows := Overlapping().payload.versions;
    var build := BuilderOf(Overlapping().payload);
    OverlappingBuilds();
    assert InForceAt(rows[0], 20) && InForceAt(rows[1], 20) && !InForceAt(rows[1], 5);
    EarlierOffered(Overlapping(), 5, build(rows[0]).value, build(rows[1]).value);
  }

  lemma SampleIsServable(fiveHardPity: int)
    ensures forall id :: id in POOL ==> id in ItemsById([FIVE, FOUR, THREE])
    ensures Servable(ConfigOf("v1", [FIVE, FOUR, THREE], POOL, "", [], fiveHardPity))
  {
    ItemsOfAllRarities();
    var c := ConfigOf("v1", [FIVE, FOUR, THREE], POOL, "", [], fiveHardPity);
    forall rarity | rarity in {3, 4, 5}
      ensures ServableRarity(c, rarity)
    {
      PoolKeeps(c.itemById, rarity, POOL, if rarity == 5 then 0 else if rarity == 4 then 1 else 2);
    }
  }

  /** A listed item of the rarity keeps the listing from being empty. */
  lemma {:induction false} PoolKeeps(itemById: map<string, GachaItem>, rarity: int, ids: seq<string>, k: nat)
    requires k < |ids| && ids[k] in itemById && itemById[ids[k]].rarity == rarity
    ensures Listed(itemById, rarity, {}, ids) != []
  {
    if k > 0 {
      PoolKeeps(itemById, rarity, ids[1..], k - 1);
    }
  }

  // ---- banners that cannot be served ------------------------------------------------------

  /** Only a three-star, and a five-star due on every pull. */
  function Unservable(): (release: Release)
  {
    Release("r", Some(1), Some("sha"), true,
            PayloadOf([THREE], [VersionOf("v1", 0)], PoolRows("v1", ["three"], ""), [], 1))
  }

  lemma OnlyThree()
    ensures ItemsById([THREE]) == map["three" := THREE]
  {
    var key := (item: GachaItem) => item.id;
    assert [THREE][1..] == [] && Keyed([THREE], key) == map["three" := THREE];
  }

  /** It loads, and its banner is offered. */
  lemma UnservableLoads()
    ensures "three" in ItemsById([THREE])
    ensures BuildSnapshot(Unservable(), 5).Ok?
    ensures BuildSnapshot(Unservable(), 5).value.BannerConfigAt("b", 5)
         == Ok(Some(ConfigOf("v1", [THREE], ["three"], "", [], 1)))
  {
    OnlyThree();
    RowsOfVersion(PoolRows("v1", ["three"], ""), "v1");
    var rows := Unservable().payload.versions;
    VersionBuilds([THREE], rows, PoolRows("v1", ["three"], ""), [], 1, "v1", 0, ["three"], "");
    OnlyOneOffered(Unservable(), 5, BuilderOf(Unservable().payload)(rows[0]).value);
  }

  /** The engine has no answer for it, at any pity, seed or count. */
  lemma UnservableNeverAnswers(rng: RandomSource, count: int, pity: PityState, seed: string)
    requires count > 0
    ensures "three" in ItemsById([THREE])
    ensures Pulls(rng, ConfigOf("v1", [THREE], ["three"], "", [], 1), count, pity, seed).Err?
  {
    OnlyThree();
    var c := ConfigOf("v1", [THREE], ["three"], "", [], 1);
    assert c.banner.itemPool[1..] == [] && c.allItems[1..] == [];
    assert RollRarityAt(c, pity, rng, seed, 0) == Ok(Rolled(5, 0));
    assert Listed(c.itemById, 5, {}, ["three"][1..]) == [] && OfRarity([THREE][1..], 5, {}) == [];
    assert Listed(c.itemById, 5, {}, ["three"]) == [] && OfRarity([THREE], 5, {}) == [];
  }

  lemma NoThreeAmong()
    ensures ItemsById([FIVE, FOUR]) == map["five" := FIVE, "four" := FOUR]
    ensures !ServableRarity(ConfigOf("v1", [FIVE, FOUR], ["five", "four"], "", [], 90), 3)
  {
    var key := (item: GachaItem) => item.id;
    assert [FIVE, FOUR][1..] == [FOUR] && [FOUR][1..] == [];
    assert Keyed([FOUR], key) == map["four" := FOUR];
    var itemById := ItemsById([FIVE, FOUR]);
    assert ["five", "four"][1..] == ["four"] && ["four"][1..] == [];
    assert Listed(itemById, 3, {}, ["four"]) == [] && OfRarity([FOUR], 3, {}) == [];
    assert Listed(itemById, 3, {}, ["five", "four"]) == [] && OfRarity([FIVE, FOUR], 3, {}) == [];
  }

  /** A version with one five-star and one four-star is accepted too, and a three-star roll fails. */
  lemma NoThreeStarIsAccepted()
    ensures var p := PayloadOf([FIVE, FOUR], [VersionOf("v1", 0)], PoolRows("v1", ["five", "four"], ""), [], 90);
            && BuildConfig(p, VersionOf("v1", 0)).Ok?
            && !Servable(BuildConfig(p, VersionOf("v1", 0)).value.config)
  {
    NoThreeAmong();
    RowsOfVersion(PoolRows("v1", ["five", "four"], ""), "v1");
    VersionBuilds([FIVE, FOUR], [VersionOf("v1", 0)], PoolRows("v1", ["five", "four"], ""), [], 90, "v1", 0,
                  ["five", "four"], "");
  }
}
