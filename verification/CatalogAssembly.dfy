/** The schedules and active configurations that the rows of a release payload describe,
    `_build_snapshot` of `catalog_repository.py`. */
module CatalogAssembly {
  import opened Collections
  import opened CatalogConfig

  datatype VersionRow = VersionRow(
    versionId: string, bannerId: string, ruleSetId: Option<string>, version: int,
    effectiveFrom: Option<Time>, effectiveTo: Option<Time>)

  datatype BannerItemRow = BannerItemRow(versionId: string, itemId: string, featuredGroup: string)

  /** A rule row with the banner version or the rule set it belongs to. */
  datatype Owned<V> = Owned(owner: string, value: V)

  datatype Payload = Payload(
    items: seq<GachaItem>,
    pityGroupOfBanner: map<string, Option<string>>,
    versions: seq<VersionRow>,
    bannerItems: seq<BannerItemRow>,
    rarityRates: seq<Owned<RarityRate>>,
    featuredRules: seq<Owned<FeaturedRule>>,
    pityRules: seq<Owned<PityRule>>,
    ruleSetRarityRates: seq<Owned<RarityRate>>,
    ruleSetFeaturedRules: seq<Owned<FeaturedRule>>,
    ruleSetPityRules: seq<Owned<PityRule>>)

  datatype LoadError = CatalogLoadError

  // ---- rules by owner ---------------------------------------------------------------------

  function ByOwner<V>(rows: seq<Owned<V>>, rarityOf: V -> int): (m: map<string, map<int, V>>)
  {
    if rows == [] then map[]
    else
      var before := ByOwner(rows[..|rows| - 1], rarityOf);
      var row := rows[|rows| - 1];
      before[row.owner :=
        (if row.owner in before then before[row.owner] else map[])[rarityOf(row.value) := row.value]]
  }

  /** `_rarity_rates_by_owner`, `_featured_rules_by_owner`, `_pity_rules_by_owner` */
  method GroupByOwner<V>(rows: seq<Owned<V>>, rarityOf: V -> int) returns (m: map<string, map<int, V>>)
    ensures m == ByOwner(rows, rarityOf)
    ensures LastRowsWin(rows, rarityOf, m)
  {
    m := map[];
    var i := 0;
    while i < |rows|
      invariant 0 <= i <= |rows|
      invariant m == ByOwner(rows[..i], rarityOf)
    {
      assert rows[..i + 1][..i] == rows[..i];
      var row := rows[i];
      if row.owner !in m {
        m := m[row.owner := map[]];
      }
      m := m[row.owner := m[row.owner][rarityOf(row.value) := row.value]];
      i := i + 1;
    }
    assert rows[..i] == rows;
    ByOwnerLast(rows, rarityOf);
  }

  ghost predicate FiledUnder<V>(row: Owned<V>, rarityOf: V -> int, owner: string, rarity: int)
  {
    row.owner == owner && rarityOf(row.value) == rarity
  }

  /** No later row has the owner and the rarity of row i. */
  ghost predicate IsLast<V>(rows: seq<Owned<V>>, rarityOf: V -> int, i: nat)
    requires i < |rows|
  {
    forall j :: i < j < |rows| ==> !FiledUnder(rows[j], rarityOf, rows[i].owner, rarityOf(rows[i].value))
  }

  /** The owners and rarities are those of the rows, and each pair maps to its last row. */
  ghost predicate LastRowsWin<V>(rows: seq<Owned<V>>, rarityOf: V -> int, m: map<string, map<int, V>>)
  {
    && (forall owner :: owner in m <==> exists i :: 0 <= i < |rows| && rows[i].owner == owner)
    && (forall owner, rarity :: owner in m && rarity in m[owner] ==>
          exists i :: 0 <= i < |rows| && FiledUnder(rows[i], rarityOf, owner, rarity))
    && (forall i :: 0 <= i < |rows| && IsLast(rows, rarityOf, i) ==>
          && rows[i].owner in m && rarityOf(rows[i].value) in m[rows[i].owner]
          && m[rows[i].owner][rarityOf(rows[i].value)] == rows[i].value)
  }

  lemma {:induction false} ByOwnerLast<V>(rows: seq<Owned<V>>, rarityOf: V -> int)
    ensures LastRowsWin(rows, rarityOf, ByOwner(rows, rarityOf))
  {
    if rows != [] {
      var front := rows[..|rows| - 1];
      ByOwnerLast(front, rarityOf);
      LastRowAdded(front, rows[|rows| - 1], rarityOf, ByOwner(front, rarityOf), ByOwner(rows, rarityOf));
      assert rows == front + [rows[|rows| - 1]];
    }
  }

  lemma LastRowAdded<V>(front: seq<Owned<V>>, row: Owned<V>, rarityOf: V -> int, m: map<string, map<int, V>>,
                        m': map<string, map<int, V>>)
    requires LastRowsWin(front, rarityOf, m)
    requires m' == m[row.owner :=
               (if row.owner in m then m[row.owner] else map[])[rarityOf(row.value) := row.value]]
    ensures LastRowsWin(front + [row], rarityOf, m')
  {
    var rows := front + [row];
    assert rows[|front|] == row;
    forall owner
      ensures owner in m' <==> exists i :: 0 <= i < |rows| && rows[i].owner == owner
    {
      if exists i :: 0 <= i < |front| && front[i].owner == owner {
        var i :| 0 <= i < |front| && front[i].owner == owner;
        assert rows[i].owner == owner;
      }
    }
    forall owner, rarity | owner in m' && rarity in m'[owner]
      ensures exists i :: 0 <= i < |rows| && FiledUnder(rows[i], rarityOf, owner, rarity)
    {
      OwnedAfter(front, row, rarityOf, m, owner, rarity);
    }
    forall i | 0 <= i < |rows| && IsLast(rows, rarityOf, i)
      ensures rows[i].owner in m' && rarityOf(rows[i].value) in m'[rows[i].owner]
      ensures m'[rows[i].owner][rarityOf(rows[i].value)] == rows[i].value
    {
      if i < |front| {
        LastBefore(front, row, rarityOf, i);
      }
    }
  }

  lemma OwnedAfter<V>(front: seq<Owned<V>>, row: Owned<V>, rarityOf: V -> int, m: map<string, map<int, V>>,
                      owner: string, rarity: int)
    requires LastRowsWin(front, rarityOf, m)
    requires FiledUnder(row, rarityOf, owner, rarity) || (owner in m && rarity in m[owner])
    ensures exists i :: 0 <= i < |front + [row]| && FiledUnder((front + [row])[i], rarityOf, owner, rarity)
  {
    var rows := front + [row];
    if FiledUnder(row, rarityOf, owner, rarity) {
      assert FiledUnder(rows[|front|], rarityOf, owner, rarity);
    } else {
      var i :| 0 <= i < |front| && FiledUnder(front[i], rarityOf, owner, rarity);
      assert FiledUnder(rows[i], rarityOf, owner, rarity);
    }
  }

  lemma LastBefore<V>(front: seq<Owned<V>>, row: Owned<V>, rarityOf: V -> int, i: nat)
    requires i < |front| && IsLast(front + [row], rarityOf, i)
    ensures IsLast(front, rarityOf, i) && !FiledUnder(row, rarityOf, front[i].owner, rarityOf(front[i].value))
  {
    var rows := front + [row];
    assert !FiledUnder(rows[|front|], rarityOf, rows[i].owner, rarityOf(rows[i].value));
    assert forall j :: i < j < |front| ==> front[j] == rows[j];
  }

  /** Rules grouped by owner are filed under the rarity they carry. */
  lemma {:induction false} ByOwnerFiled<V>(rows: seq<Owned<V>>, rarityOf: V -> int, owner: string, rarity: int)
    requires owner in ByOwner(rows, rarityOf) && rarity in ByOwner(rows, rarityOf)[owner]
    ensures rarityOf(ByOwner(rows, rarityOf)[owner][rarity]) == rarity
  {
    var row := rows[|rows| - 1];
    if !(row.owner == owner && rarityOf(row.value) == rarity) {
      ByOwnerFiled(rows[..|rows| - 1], rarityOf, owner, rarity);
    }
  }

  /** A version's rules: those of its rule set when that owns any, else its own. */
  function RulesOf<V>(ruleSetId: Option<string>, byRuleSet: map<string, map<int, V>>,
                      versionId: string, byVersion: map<string, map<int, V>>): (rules: map<int, V>)
  {
    if ruleSetId.Some? && ruleSetId.value in byRuleSet then byRuleSet[ruleSetId.value]
    else if versionId in byVersion then byVersion[versionId]
    else map[]
  }

  // ---- one banner version -----------------------------------------------------------------

  function ItemRowsOf(rows: seq<BannerItemRow>, versionId: string): (ids: seq<BannerItemRow>)
  {
    if rows == [] then []
    else (if rows[0].versionId == versionId then [rows[0]] else []) + ItemRowsOf(rows[1..], versionId)
  }

  lemma Reassociated<T>(a: seq<T>, b: seq<T>, c: seq<T>)
    ensures a + (b + c) == (a + b) + c
  {
  }

  lemma {:induction false} RowsJoin(rows: seq<BannerItemRow>, more: seq<BannerItemRow>, versionId: string)
    ensures ItemRowsOf(rows + more, versionId) == ItemRowsOf(rows, versionId) + ItemRowsOf(more, versionId)
  {
    if rows == [] {
      assert rows + more == more;
    } else {
      var first := if rows[0].versionId == versionId then [rows[0]] else [];
      RowsJoin(rows[1..], more, versionId);
      assert (rows + more)[1..] == rows[1..] + more;
      Reassociated(first, ItemRowsOf(rows[1..], versionId), ItemRowsOf(more, versionId));
    }
  }

  function PooledIds(rows: seq<BannerItemRow>): (ids: seq<string>)
  {
    seq(|rows|, i requires 0 <= i < |rows| => rows[i].itemId)
  }

  /** The featured ids of a version, filed under the rarity of their items. */
  function FeaturedByRarity(rows: seq<BannerItemRow>, itemById: map<string, GachaItem>)
    : (m: map<int, seq<string>>)
    requires forall row :: row in rows ==> row.itemId in itemById
  {
    if rows == [] then map[]
    else
      var before := FeaturedByRarity(rows[..|rows| - 1], itemById);
      var row := rows[|rows| - 1];
      if row.featuredGroup == "" then before
      else
        var rarity := itemById[row.itemId].rarity;
        before[rarity := (if rarity in before then before[rarity] else []) + [row.itemId]]
  }

  lemma {:induction false} FeaturedIsPooled(rows: seq<BannerItemRow>, itemById: map<string, GachaItem>,
                                            rarity: int, id: string)
    requires forall row :: row in rows ==> row.itemId in itemById
    requires rarity in FeaturedByRarity(rows, itemById) && id in FeaturedByRarity(rows, itemById)[rarity]
    ensures id in PooledIds(rows) && id in itemById && itemById[id].rarity == rarity
  {
    var before := rows[..|rows| - 1];
    var row := rows[|rows| - 1];
    assert PooledIds(rows)[|rows| - 1] == row.itemId;
    if !(row.featuredGroup != "" && itemById[row.itemId].rarity == rarity && row.itemId == id) {
      FeaturedIsPooled(before, itemById, rarity, id);
      var i :| 0 <= i < |before| && PooledIds(before)[i] == id;
      assert PooledIds(rows)[i] == id;
    }
  }

  /** `str.isspace`, what `str.strip` removes at both ends. */
  predicate IsSpace(c: char)
  {
    || '\t' <= c <= '\r' || '\U{1C}' <= c <= ' ' || c == '\U{85}' || c == '\U{A0}' || c == '\U{1680}'
    || '\U{2000}' <= c <= '\U{200A}' || c == '\U{2028}' || c == '\U{2029}' || c == '\U{202F}'
    || c == '\U{205F}' || c == '\U{3000}'
  }

  predicate ValidPityGroup(id: string)
  {
    0 < |id| <= 100 && !IsSpace(id[0]) && !IsSpace(id[|id| - 1])
  }

  const RATE_RARITY: RarityRate -> int := (rate: RarityRate) => rate.rarity
  const FEATURED_RARITY: FeaturedRule -> int := (rule: FeaturedRule) => rule.rarity
  const PITY_RARITY: PityRule -> int := (rule: PityRule) => rule.rarity

  function RatesOf(p: Payload, row: VersionRow): (rules: map<int, RarityRate>)
  {
    RulesOf(row.ruleSetId, ByOwner(p.ruleSetRarityRates, RATE_RARITY),
            row.versionId, ByOwner(p.rarityRates, RATE_RARITY))
  }

  function FeaturedRulesOf(p: Payload, row: VersionRow): (rules: map<int, FeaturedRule>)
  {
    RulesOf(row.ruleSetId, ByOwner(p.ruleSetFeaturedRules, FEATURED_RARITY),
            row.versionId, ByOwner(p.featuredRules, FEATURED_RARITY))
  }

  function PityRulesOf(p: Payload, row: VersionRow): (rules: map<int, PityRule>)
  {
    RulesOf(row.ruleSetId, ByOwner(p.ruleSetPityRules, PITY_RARITY),
            row.versionId, ByOwner(p.pityRules, PITY_RARITY))
  }

  function BuildConfig(p: Payload, row: VersionRow): (r: Result<ScheduledBannerConfig, LoadError>)
  {
    var itemById := ItemsById(p.items);
    var itemRows := ItemRowsOf(p.bannerItems, row.versionId);
    if row.bannerId !in p.pityGroupOfBanner || itemRows == []
       || exists i :: 0 <= i < |itemRows| && itemRows[i].itemId !in itemById
    then Err(CatalogLoadError)
    else
      var featured := FeaturedByRarity(itemRows, itemById);
      var fives := if 5 in featured then featured[5] else [];
      var fours := if 4 in featured then featured[4] else [];
      var banner := Banner(row.bannerId, if fives == [] then None else Some(fives[0]), fours, PooledIds(itemRows));
      var rates := RatesOf(p, row);
      var rules := FeaturedRulesOf(p, row);
      var pity := PityRulesOf(p, row);
      var named := p.pityGroupOfBanner[row.bannerId];
      var group := if named.Some? && named.value != "" then named.value else row.bannerId;
      if 5 !in rates || 4 !in rates || 5 !in pity || 4 !in pity || !ValidPityGroup(group)
      then Err(CatalogLoadError)
      else Ok(ScheduledBannerConfig(
        BannerConfig(banner, group, Some(row.versionId), row.version, p.items, itemById, rates, rules, pity, featured),
        row.effectiveFrom, row.effectiveTo))
  }

  /** What every configuration built from a release offers the engine and the audit. */
  ghost predicate WellBuilt(c: BannerConfig)
  {
    && c.WellFiled()
    && 5 in c.rarityRates && 4 in c.rarityRates && 5 in c.pityRules && 4 in c.pityRules
    && c.banner.itemPool != []
    && (forall id :: id in c.banner.itemPool ==> id in c.itemById)
    && (forall rarity, id :: rarity in c.featuredItemIdsByRarity && id in c.featuredItemIdsByRarity[rarity] ==>
          id in c.banner.itemPool && id in c.itemById && c.itemById[id].id == id && c.itemById[id].rarity == rarity)
  }

  lemma RulesFiled<V>(rows: seq<Owned<V>>, setRows: seq<Owned<V>>, ruleSetId: Option<string>, versionId: string,
                      rarityOf: V -> int, k: int)
    requires k in RulesOf(ruleSetId, ByOwner(setRows, rarityOf), versionId, ByOwner(rows, rarityOf))
    ensures rarityOf(RulesOf(ruleSetId, ByOwner(setRows, rarityOf), versionId, ByOwner(rows, rarityOf))[k]) == k
  {
    if ruleSetId.Some? && ruleSetId.value in ByOwner(setRows, rarityOf) {
      ByOwnerFiled(setRows, rarityOf, ruleSetId.value, k);
    } else {
      ByOwnerFiled(rows, rarityOf, versionId, k);
    }
  }

  lemma VersionRulesFiled(p: Payload, row: VersionRow)
    ensures forall k :: k in RatesOf(p, row) ==> RatesOf(p, row)[k].rarity == k
    ensures forall k :: k in FeaturedRulesOf(p, row) ==> FeaturedRulesOf(p, row)[k].rarity == k
    ensures forall k :: k in PityRulesOf(p, row) ==> PityRulesOf(p, row)[k].rarity == k
  {
    forall k | k in RatesOf(p, row) ensures RatesOf(p, row)[k].rarity == k {
      RulesFiled(p.rarityRates, p.ruleSetRarityRates, row.ruleSetId, row.versionId, RATE_RARITY, k);
    }
    forall k | k in FeaturedRulesOf(p, row) ensures FeaturedRulesOf(p, row)[k].rarity == k {
      RulesFiled(p.featuredRules, p.ruleSetFeaturedRules, row.ruleSetId, row.versionId, FEATURED_RARITY, k);
    }
    forall k | k in PityRulesOf(p, row) ensures PityRulesOf(p, row)[k].rarity == k {
      RulesFiled(p.pityRules, p.ruleSetPityRules, row.ruleSetId, row.versionId, PITY_RARITY, k);
    }
  }

  lemma FeaturedIsWellFiled(p: Payload, itemRows: seq<BannerItemRow>, rarity: int, id: string)
    requires forall i :: 0 <= i < |itemRows| ==> itemRows[i].itemId in ItemsById(p.items)
    requires var featured := FeaturedByRarity(itemRows, ItemsById(p.items));
             rarity in featured && id in featured[rarity]
    ensures var itemById := ItemsById(p.items);
            id in PooledIds(itemRows) && id in itemById && itemById[id].id == id && itemById[id].rarity == rarity
  {
    FeaturedIsPooled(itemRows, ItemsById(p.items), rarity, id);
    KeyedMember(p.items, (item: GachaItem) => item.id, id);
  }

  lemma BuiltConfigIsWellBuilt(p: Payload, row: VersionRow)
    requires BuildConfig(p, row).Ok?
    ensures WellBuilt(BuildConfig(p, row).value.config)
    ensures BuildConfig(p, row).value.config.banner.id == row.bannerId
  {
    var c := BuildConfig(p, row).value.config;
    var itemRows := ItemRowsOf(p.bannerItems, row.versionId);
    VersionRulesFiled(p, row);
    forall rarity, id | rarity in c.featuredItemIdsByRarity && id in c.featuredItemIdsByRarity[rarity]
      ensures id in c.banner.itemPool && id in c.itemById && c.itemById[id].id == id && c.itemById[id].rarity == rarity
    {
      FeaturedIsWellFiled(p, itemRows, rarity, id);
    }
    PooledIsFiled(itemRows, c.itemById);
  }

  lemma PooledIsFiled(itemRows: seq<BannerItemRow>, itemById: map<string, GachaItem>)
    requires forall i :: 0 <= i < |itemRows| ==> itemRows[i].itemId in itemById
    ensures forall id :: id in PooledIds(itemRows) ==> id in itemById
  {
    forall id | id in PooledIds(itemRows)
      ensures id in itemById
    {
      var i :| 0 <= i < |PooledIds(itemRows)| && PooledIds(itemRows)[i] == id;
    }
  }

  // ---- schedules --------------------------------------------------------------------------

  predicate StartsBefore(s: ScheduledBannerConfig, s': ScheduledBannerConfig)
  {
    s'.effectiveFrom.Some? && (s.effectiveFrom.None? || s.effectiveFrom.value < s'.effectiveFrom.value)
  }

  /** Stable insertion by start of effect, a missing start counting as the earliest. */
  function InsertSchedule(sorted: seq<ScheduledBannerConfig>, s: ScheduledBannerConfig)
    : (r: seq<ScheduledBannerConfig>)
    ensures |r| == |sorted| + 1
    ensures forall x :: x in r <==> x in sorted || x == s
    ensures multiset(r) == multiset(sorted) + multiset{s}
  {
    if sorted == [] || !StartsBefore(s, sorted[|sorted| - 1]) then sorted + [s]
    else
      var front := InsertSchedule(sorted[..|sorted| - 1], s);
      assert sorted == sorted[..|sorted| - 1] + [sorted[|sorted| - 1]];
      front + [sorted[|sorted| - 1]]
  }

  /** What one version row adds. */
  function AddSchedule(schedules: map<string, seq<ScheduledBannerConfig>>, row: VersionRow, s: ScheduledBannerConfig)
    : (r: map<string, seq<ScheduledBannerConfig>>)
  {
    schedules[row.bannerId := InsertSchedule(if row.bannerId in schedules then schedules[row.bannerId] else [], s)]
  }

  function AddActive(configs: map<string, BannerConfig>, row: VersionRow, s: ScheduledBannerConfig, at: Time)
    : (r: Result<map<string, BannerConfig>, LoadError>)
  {
    if !s.IsEffectiveAt(at) then Ok(configs)
    else if row.bannerId in configs then Err(CatalogLoadError)
    else Ok(configs[row.bannerId := s.config])
  }

  type Builder = VersionRow -> Result<ScheduledBannerConfig, LoadError>

  /** The schedules of each banner after the given version rows, each list in start order. */
  function Schedules(build: Builder, rows: seq<VersionRow>)
    : (r: Result<map<string, seq<ScheduledBannerConfig>>, LoadError>)
  {
    if rows == [] then Ok(map[])
    else
      var before := Schedules(build, rows[..|rows| - 1]);
      var row := rows[|rows| - 1];
      if before.Err? || build(row).Err? then Err(CatalogLoadError)
      else Ok(AddSchedule(before.value, row, build(row).value))
  }

  /** The configurations in force at an instant; two for one banner are an error. */
  function Active(build: Builder, rows: seq<VersionRow>, at: Time): (r: Result<map<string, BannerConfig>, LoadError>)
  {
    if rows == [] then Ok(map[])
    else
      var before := Active(build, rows[..|rows| - 1], at);
      var row := rows[|rows| - 1];
      if before.Err? || build(row).Err? then Err(CatalogLoadError)
      else AddActive(before.value, row, build(row).value, at)
  }

  // ---- what the schedules and the active configurations are -------------------------------

  /** A missing start is the earliest. */
  ghost predicate NoLater(s: ScheduledBannerConfig, s': ScheduledBannerConfig)
  {
    s.effectiveFrom.None? || (s'.effectiveFrom.Some? && s.effectiveFrom.value <= s'.effectiveFrom.value)
  }

  /** Each entry starts no earlier than the ones before it. */
  ghost predicate InStartOrder(schedules: seq<ScheduledBannerConfig>)
  {
    forall i, j :: 0 <= i < j < |schedules| ==> NoLater(schedules[i], schedules[j])
  }

  /** The entries that start at one instant, in the order they stand in. */
  ghost function StartingAt(schedules: seq<ScheduledBannerConfig>, start: Option<Time>)
    : (r: seq<ScheduledBannerConfig>)
  {
    if schedules == [] then []
    else
      StartingAt(schedules[..|schedules| - 1], start) + Only(schedules[|schedules| - 1], start)
  }

  lemma StartingAtAppend(schedules: seq<ScheduledBannerConfig>, s: ScheduledBannerConfig, start: Option<Time>)
    ensures StartingAt(schedules + [s], start) == StartingAt(schedules, start) + Only(s, start)
  {
    assert (schedules + [s])[..|schedules|] == schedules;
  }

  /** Inserting keeps the order. */
  lemma {:induction false} InsertedInOrder(sorted: seq<ScheduledBannerConfig>, s: ScheduledBannerConfig)
    requires InStartOrder(sorted)
    ensures InStartOrder(InsertSchedule(sorted, s))
  {
    if sorted != [] && StartsBefore(s, sorted[|sorted| - 1]) {
      var front, last := sorted[..|sorted| - 1], sorted[|sorted| - 1];
      InsertedInOrder(front, s);
      forall x | x in InsertSchedule(front, s)
        ensures NoLater(x, last)
      {
        if x in front {
          var k :| 0 <= k < |front| && front[k] == x;
          assert sorted[k] == x;
        }
      }
    }
  }

  ghost function Only(s: ScheduledBannerConfig, start: Option<Time>): (r: seq<ScheduledBannerConfig>)
  {
    if s.effectiveFrom == start then [s] else []
  }

  lemma EarlierIsApart(s: ScheduledBannerConfig, last: ScheduledBannerConfig, before: seq<ScheduledBannerConfig>,
                       start: Option<Time>)
    requires StartsBefore(s, last)
    ensures before + Only(s, start) + Only(last, start) == before + Only(last, start) + Only(s, start)
  {
    assert Only(s, start) == [] || Only(last, start) == [];
  }

  /** The inserted entry comes behind every entry with the same start. */
  lemma {:induction false} InsertedLast(sorted: seq<ScheduledBannerConfig>, s: ScheduledBannerConfig,
                                        start: Option<Time>)
    ensures StartingAt(InsertSchedule(sorted, s), start) == StartingAt(sorted, start) + Only(s, start)
  {
    if sorted == [] || !StartsBefore(s, sorted[|sorted| - 1]) {
      StartingAtAppend(sorted, s, start);
    } else {
      var front, last := sorted[..|sorted| - 1], sorted[|sorted| - 1];
      InsertedLast(front, s, start);
      StartingAtAppend(InsertSchedule(front, s), last, start);
      EarlierIsApart(s, last, StartingAt(front, start), start);
    }
  }

  /** A banner's scheduled configurations, in the order of the version rows. */
  ghost function Listing(build: Builder, rows: seq<VersionRow>, bannerId: string): (r: seq<ScheduledBannerConfig>)
  {
    if rows == [] then []
    else
      var row := rows[|rows| - 1];
      Listing(build, rows[..|rows| - 1], bannerId)
      + (if row.bannerId == bannerId && build(row).Ok? then [build(row).value] else [])
  }

  ghost predicate AllBuild(build: Builder, rows: seq<VersionRow>)
  {
    forall i :: 0 <= i < |rows| ==> build(rows[i]).Ok?
  }

  /** The banners are those of the rows, and each banner's schedules are its rows' in start order,
      rows of one start keeping their order. */
  ghost predicate SortsSchedules(build: Builder, rows: seq<VersionRow>,
                                 schedules: map<string, seq<ScheduledBannerConfig>>)
  {
    && (forall b :: b in schedules.Keys <==> exists i :: 0 <= i < |rows| && rows[i].bannerId == b)
    && (forall b :: b in schedules ==> SortsBanner(build, rows, b, schedules[b]))
  }

  ghost predicate SortsBanner(build: Builder, rows: seq<VersionRow>, bannerId: string,
                              sorted: seq<ScheduledBannerConfig>)
  {
    && InStartOrder(sorted)
    && multiset(sorted) == multiset(Listing(build, rows, bannerId))
    && forall start :: StartingAt(sorted, start) == StartingAt(Listing(build, rows, bannerId), start)
  }

  lemma ListingAppend(build: Builder, front: seq<VersionRow>, row: VersionRow, bannerId: string)
    ensures Listing(build, front + [row], bannerId)
         == Listing(build, front, bannerId)
            + (if row.bannerId == bannerId && build(row).Ok? then [build(row).value] else [])
  {
    assert (front + [row])[..|front|] == front;
  }

  lemma BannerSorted(build: Builder, front: seq<VersionRow>, row: VersionRow, sorted: seq<ScheduledBannerConfig>)
    requires SortsBanner(build, front, row.bannerId, sorted) && build(row).Ok?
    ensures SortsBanner(build, front + [row], row.bannerId, InsertSchedule(sorted, build(row).value))
  {
    var s := build(row).value;
    ListingAppend(build, front, row, row.bannerId);
    InsertedInOrder(sorted, s);
    forall start
      ensures StartingAt(InsertSchedule(sorted, s), start)
           == StartingAt(Listing(build, front, row.bannerId) + [s], start)
    {
      InsertedLast(sorted, s, start);
      StartingAtAppend(Listing(build, front, row.bannerId), s, start);
    }
  }

  lemma OtherBannerSorted(build: Builder, front: seq<VersionRow>, row: VersionRow, bannerId: string,
                          sorted: seq<ScheduledBannerConfig>)
    requires SortsBanner(build, front, bannerId, sorted) && row.bannerId != bannerId
    ensures SortsBanner(build, front + [row], bannerId, sorted)
  {
    ListingAppend(build, front, row, bannerId);
    assert Listing(build, front + [row], bannerId) == Listing(build, front, bannerId);
  }

  lemma {:induction false} NothingListed(build: Builder, rows: seq<VersionRow>, bannerId: string)
    requires forall i :: 0 <= i < |rows| ==> rows[i].bannerId != bannerId
    ensures Listing(build, rows, bannerId) == []
  {
    if rows != [] {
      NothingListed(build, rows[..|rows| - 1], bannerId);
    }
  }

  lemma BannersAdded(front: seq<VersionRow>, row: VersionRow, before: set<string>)
    requires forall b :: b in before <==> exists i :: 0 <= i < |front| && front[i].bannerId == b
    ensures forall b :: b in before + {row.bannerId} <==>
              exists i :: 0 <= i < |front + [row]| && (front + [row])[i].bannerId == b
  {
    var rows := front + [row];
    assert rows[|front|] == row;
    forall b
      ensures b in before + {row.bannerId} <==> exists i :: 0 <= i < |rows| && rows[i].bannerId == b
    {
      if exists i :: 0 <= i < |front| && front[i].bannerId == b {
        var i :| 0 <= i < |front| && front[i].bannerId == b;
        assert rows[i].bannerId == b;
      }
    }
  }

  lemma SchedulesSorted(build: Builder, front: seq<VersionRow>, row: VersionRow,
                        schedules: map<string, seq<ScheduledBannerConfig>>)
    requires SortsSchedules(build, front, schedules) && build(row).Ok?
    ensures SortsSchedules(build, front + [row], AddSchedule(schedules, row, build(row).value))
  {
    var added := AddSchedule(schedules, row, build(row).value);
    BannersAdded(front, row, schedules.Keys);
    assert added.Keys == schedules.Keys + {row.bannerId};
    forall b | b in added
      ensures SortsBanner(build, front + [row], b, added[b])
    {
      if b != row.bannerId {
        OtherBannerSorted(build, front, row, b, schedules[b]);
      } else if b in schedules {
        BannerSorted(build, front, row, schedules[b]);
      } else {
        NothingListed(build, front, b);
        BannerSorted(build, front, row, []);
      }
    }
  }

  /** The schedules exist exactly when every version row builds, and then sort each banner's rows. */
  lemma {:induction false} SchedulesExactly(build: Builder, rows: seq<VersionRow>)
    ensures Schedules(build, rows).Ok? <==> AllBuild(build, rows)
    ensures Schedules(build, rows).Ok? ==> SortsSchedules(build, rows, Schedules(build, rows).value)
  {
    if rows != [] {
      var front, row := rows[..|rows| - 1], rows[|rows| - 1];
      SchedulesExactly(build, front);
      assert rows == front + [row];
      if Schedules(build, rows).Ok? {
        SchedulesSorted(build, front, row, Schedules(build, front).value);
      }
    }
  }

  ghost predicate InForce(build: Builder, row: VersionRow, at: Time)
  {
    build(row).Ok? && build(row).value.IsEffectiveAt(at)
  }

  /** No two version rows of one banner are in force. */
  ghost predicate NoneOverlap(build: Builder, rows: seq<VersionRow>, at: Time)
  {
    forall i, j :: 0 <= i < j < |rows| && rows[i].bannerId == rows[j].bannerId ==>
      !(InForce(build, rows[i], at) && InForce(build, rows[j], at))
  }

  /** The active configurations are those of the rows in force. */
  ghost predicate ListsActive(build: Builder, rows: seq<VersionRow>, at: Time, configs: map<string, BannerConfig>)
  {
    && (forall b :: b in configs ==>
          exists i :: 0 <= i < |rows| && rows[i].bannerId == b && InForce(build, rows[i], at))
    && (forall i :: 0 <= i < |rows| && InForce(build, rows[i], at) ==>
          rows[i].bannerId in configs && configs[rows[i].bannerId] == build(rows[i]).value.config)
  }

  lemma ActiveAdded(build: Builder, front: seq<VersionRow>, row: VersionRow, at: Time,
                    configs: map<string, BannerConfig>)
    requires ListsActive(build, front, at, configs) && NoneOverlap(build, front, at) && build(row).Ok?
    ensures AddActive(configs, row, build(row).value, at).Ok? <==> NoneOverlap(build, front + [row], at)
    ensures AddActive(configs, row, build(row).value, at).Ok? ==>
              ListsActive(build, front + [row], at, AddActive(configs, row, build(row).value, at).value)
  {
    var rows := front + [row];
    assert rows[|front|] == row;
    if row.bannerId in configs {
      var i :| 0 <= i < |front| && front[i].bannerId == row.bannerId && InForce(build, front[i], at);
      assert rows[i] == front[i];
    }
    if AddActive(configs, row, build(row).value, at).Ok? {
      var added := AddActive(configs, row, build(row).value, at).value;
      forall b | b in added
        ensures exists i :: 0 <= i < |rows| && rows[i].bannerId == b && InForce(build, rows[i], at)
      {
        if b in configs {
          var i :| 0 <= i < |front| && front[i].bannerId == b && InForce(build, front[i], at);
          assert rows[i] == front[i];
        } else {
          assert rows[|front|].bannerId == b;
        }
      }
    }
  }

  /** The active configurations exist exactly when every version row builds and no two rows of one
      banner are in force, and then are those of the rows in force. */
  lemma {:induction false} ActiveExactly(build: Builder, rows: seq<VersionRow>, at: Time)
    ensures Active(build, rows, at).Ok? <==> AllBuild(build, rows) && NoneOverlap(build, rows, at)
    ensures Active(build, rows, at).Ok? ==> ListsActive(build, rows, at, Active(build, rows, at).value)
  {
    if rows != [] {
      var front, row := rows[..|rows| - 1], rows[|rows| - 1];
      ActiveExactly(build, front, at);
      assert rows == front + [row];
      if Active(build, front, at).Ok? && build(row).Ok? {
        ActiveAdded(build, front, row, at, Active(build, front, at).value);
      }
    }
  }

  /** A failure at a prefix is a failure of the whole. */
  lemma FailureSpreads(build: Builder, rows: seq<VersionRow>, at: Time, n: nat)
    requires n <= |rows|
    requires Schedules(build, rows[..n]).Err? || Active(build, rows[..n], at).Err?
    ensures !(AllBuild(build, rows) && NoneOverlap(build, rows, at))
  {
    SchedulesExactly(build, rows[..n]);
    ActiveExactly(build, rows[..n], at);
  }

  /** What one more version row makes of the schedules and the active configurations. */
  lemma AssembledNext(build: Builder, rows: seq<VersionRow>, i: nat, at: Time)
    requires i < |rows| && Schedules(build, rows[..i]).Ok? && Active(build, rows[..i], at).Ok?
    ensures Schedules(build, rows[..i + 1])
         == if build(rows[i]).Err? then Err(CatalogLoadError)
            else Ok(AddSchedule(Schedules(build, rows[..i]).value, rows[i], build(rows[i]).value))
    ensures Active(build, rows[..i + 1], at)
         == if build(rows[i]).Err? then Err(CatalogLoadError)
            else AddActive(Active(build, rows[..i], at).value, rows[i], build(rows[i]).value, at)
  {
    assert rows[..i + 1][..i] == rows[..i];
  }

  /** The loop of `_build_snapshot`: each version row extends the schedules and, when in force,
      the active configurations. */
  method Assemble(build: Builder, rows: seq<VersionRow>, at: Time)
    returns (ok: bool, schedules: map<string, seq<ScheduledBannerConfig>>, configs: map<string, BannerConfig>)
    ensures ok <==> AllBuild(build, rows) && NoneOverlap(build, rows, at)
    ensures ok ==> SortsSchedules(build, rows, schedules) && ListsActive(build, rows, at, configs)
    ensures ok ==> Schedules(build, rows) == Ok(schedules) && Active(build, rows, at) == Ok(configs)
  {
    configs, schedules := map[], map[];
    var i := 0;
    while i < |rows|
      invariant 0 <= i <= |rows|
      invariant Schedules(build, rows[..i]) == Ok(schedules) && Active(build, rows[..i], at) == Ok(configs)
    {
      AssembledNext(build, rows, i, at);
      var row := rows[i];
      var built := build(row);
      if built.Err? || (built.value.IsEffectiveAt(at) && row.bannerId in configs) {
        FailureSpreads(build, rows, at, i + 1);
        return false, schedules, configs;
      }
      var listed := if row.bannerId in schedules then schedules[row.bannerId] else [];
      schedules := schedules[row.bannerId := InsertSchedule(listed, built.value)];
      if built.value.IsEffectiveAt(at) {
        configs := configs[row.bannerId := built.value.config];
      }
      i := i + 1;
    }
    assert rows[..i] == rows;
    SchedulesExactly(build, rows);
    ActiveExactly(build, rows, at);
    ok := true;
  }

  lemma {:induction false} ActiveIsScheduled(build: Builder, rows: seq<VersionRow>, at: Time)
    requires Schedules(build, rows).Ok? && Active(build, rows, at).Ok?
    ensures Active(build, rows, at).value.Keys <= Schedules(build, rows).value.Keys
    ensures forall b :: b in Schedules(build, rows).value ==> Schedules(build, rows).value[b] != []
  {
    if rows != [] {
      ActiveIsScheduled(build, rows[..|rows| - 1], at);
    }
  }

  lemma {:induction false} ScheduledIsBuilt(build: Builder, rows: seq<VersionRow>, b: string, s: ScheduledBannerConfig)
    requires Schedules(build, rows).Ok? && b in Schedules(build, rows).value && s in Schedules(build, rows).value[b]
    ensures exists i :: 0 <= i < |rows| && rows[i].bannerId == b && build(rows[i]) == Ok(s)
  {
    var before := rows[..|rows| - 1];
    var row := rows[|rows| - 1];
    if !(row.bannerId == b && build(row) == Ok(s)) {
      ScheduledIsBuilt(build, before, b, s);
      var i :| 0 <= i < |before| && before[i].bannerId == b && build(before[i]) == Ok(s);
      assert rows[i] == before[i];
    }
  }
}
