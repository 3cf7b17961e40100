/** What a banner version builds, told by the rows of its payload: when it builds at all, its pity
    group, its pool and featured items, and where each of its rules comes from. */
module VersionRows {
  import opened Collections
  import opened CatalogConfig
  import opened Schemas
  import opened CatalogAssembly
  import opened CatalogRepository

  // ---- rules ------------------------------------------------------------------------------

  ghost predicate OwnsAny<V>(rows: seq<Owned<V>>, owner: string)
  {
    exists i :: 0 <= i < |rows| && rows[i].owner == owner
  }

  ghost predicate OwnsRarity<V>(rows: seq<Owned<V>>, rarityOf: V -> int, owner: string, rarity: int)
  {
    exists i :: 0 <= i < |rows| && FiledUnder(rows[i], rarityOf, owner, rarity)
  }

  /** The value of the owner's last row of this rarity. */
  ghost predicate IsLastRule<V>(rows: seq<Owned<V>>, rarityOf: V -> int, owner: string, rarity: int, value: V)
  {
    exists i :: 0 <= i < |rows| && FiledUnder(rows[i], rarityOf, owner, rarity) && IsLast(rows, rarityOf, i)
                && rows[i].value == value
  }

  /** The owner's rules: one for each rarity it has a row for, the last. */
  ghost predicate OwnersRules<V>(rules: map<int, V>, rows: seq<Owned<V>>, rarityOf: V -> int, owner: string)
  {
    && (forall rarity :: rarity in rules <==> OwnsRarity(rows, rarityOf, owner, rarity))
    && (forall rarity :: rarity in rules ==> IsLastRule(rows, rarityOf, owner, rarity, rules[rarity]))
  }

  /** The rules of the version's rule set when that has any row, else the version's own. */
  ghost predicate RulesOfRows<V>(rules: map<int, V>, rows: seq<Owned<V>>, setRows: seq<Owned<V>>, rarityOf: V -> int,
                                 row: VersionRow)
  {
    if row.ruleSetId.Some? && OwnsAny(setRows, row.ruleSetId.value)
    then OwnersRules(rules, setRows, rarityOf, row.ruleSetId.value)
    else OwnersRules(rules, rows, rarityOf, row.versionId)
  }

  lemma {:induction false} SomeRowIsLast<V>(rows: seq<Owned<V>>, rarityOf: V -> int, owner: string, rarity: int)
    returns (i: nat)
    requires OwnsRarity(rows, rarityOf, owner, rarity)
    ensures i < |rows| && FiledUnder(rows[i], rarityOf, owner, rarity) && IsLast(rows, rarityOf, i)
  {
    var front := rows[..|rows| - 1];
    if FiledUnder(rows[|rows| - 1], rarityOf, owner, rarity) {
      i := |rows| - 1;
    } else {
      var k :| 0 <= k < |rows| && FiledUnder(rows[k], rarityOf, owner, rarity);
      assert front[k] == rows[k];
      i := SomeRowIsLast(front, rarityOf, owner, rarity);
      assert forall j :: i < j < |front| ==> rows[j] == front[j];
    }
  }

  lemma FiledAreOwners<V>(rows: seq<Owned<V>>, rarityOf: V -> int, owner: string)
    ensures var m := ByOwner(rows, rarityOf);
            && (owner in m <==> OwnsAny(rows, owner))
            && OwnersRules(if owner in m then m[owner] else map[], rows, rarityOf, owner)
  {
    var m := ByOwner(rows, rarityOf);
    ByOwnerLast(rows, rarityOf);
    forall rarity | OwnsRarity(rows, rarityOf, owner, rarity)
      ensures owner in m && rarity in m[owner] && IsLastRule(rows, rarityOf, owner, rarity, m[owner][rarity])
    {
      var i := SomeRowIsLast(rows, rarityOf, owner, rarity);
    }
  }

  lemma RulesFollowRows<V>(rows: seq<Owned<V>>, setRows: seq<Owned<V>>, rarityOf: V -> int, row: VersionRow)
    ensures RulesOfRows(RulesOf(row.ruleSetId, ByOwner(setRows, rarityOf), row.versionId, ByOwner(rows, rarityOf)),
                        rows, setRows, rarityOf, row)
  {
    FiledAreOwners(rows, rarityOf, row.versionId);
    if row.ruleSetId.Some? {
      FiledAreOwners(setRows, rarityOf, row.ruleSetId.value);
    }
  }

  // ---- items ------------------------------------------------------------------------------

  /** The rows of the version. */
  ghost function RowsOf(versionId: string): (keep: BannerItemRow -> bool)
  {
    (row: BannerItemRow) => row.versionId == versionId
  }

  ghost function ItemIdOf(): (value: BannerItemRow -> string)
  {
    (row: BannerItemRow) => row.itemId
  }

  /** The item of an id, the last listed. */
  ghost predicate Names(items: seq<GachaItem>, id: string, item: GachaItem)
  {
    exists i :: 0 <= i < |items| && items[i] == item && item.id == id
                && forall j :: i < j < |items| ==> items[j].id != id
  }

  ghost predicate FeaturedRow(items: seq<GachaItem>, versionId: string, rarity: int, row: BannerItemRow)
  {
    && row.versionId == versionId && row.featuredGroup != ""
    && exists item :: Names(items, row.itemId, item) && item.rarity == rarity
  }

  /** The rows of the version with a featured group whose item has this rarity. */
  ghost function FeaturedRowsOf(items: seq<GachaItem>, versionId: string, rarity: int): (keep: BannerItemRow -> bool)
  {
    (row: BannerItemRow) => FeaturedRow(items, versionId, rarity, row)
  }

  lemma PooledHead(rows: seq<BannerItemRow>, versionId: string)
    requires rows != []
    ensures var rest := PooledIds(ItemRowsOf(rows[1..], versionId));
            PooledIds(ItemRowsOf(rows, versionId))
            == if rows[0].versionId == versionId then [rows[0].itemId] + rest else rest
  {
    var rest := ItemRowsOf(rows[1..], versionId);
    assert ItemRowsOf(rows, versionId) == if rows[0].versionId == versionId then [rows[0]] + rest else rest;
  }

  lemma {:induction false} PoolSiftsRows(rows: seq<BannerItemRow>, versionId: string)
    ensures Sifts(rows, RowsOf(versionId), ItemIdOf(), PooledIds(ItemRowsOf(rows, versionId)))
  {
    if rows == [] {
      SiftsNothing(rows, RowsOf(versionId), ItemIdOf());
      assert PooledIds([]) == [];
    } else {
      PoolSiftsRows(rows[1..], versionId);
      SiftsHead(rows, RowsOf(versionId), ItemIdOf(), PooledIds(ItemRowsOf(rows[1..], versionId)));
      PooledHead(rows, versionId);
    }
  }

  lemma {:induction false} LastIsNamed(items: seq<GachaItem>, id: string)
    ensures id in ItemsById(items) <==> exists i :: 0 <= i < |items| && items[i].id == id
    ensures id in ItemsById(items) ==> Names(items, id, ItemsById(items)[id])
  {
    if items != [] {
      LastIsNamed(items[1..], id);
      if id in ItemsById(items[1..]) {
        var i :| 0 <= i < |items[1..]| && items[1..][i] == ItemsById(items[1..])[id]
                 && forall j :: i < j < |items[1..]| ==> items[1..][j].id != id;
        assert items[i + 1] == ItemsById(items)[id];
        forall j | i + 1 < j < |items|
          ensures items[j].id != id
        {
          assert items[j] == items[1..][j - 1];
        }
      } else if items[0].id == id {
        assert items[0] == ItemsById(items)[id];
        forall j | 0 < j < |items|
          ensures items[j].id != id
        {
          assert items[j] == items[1..][j - 1];
        }
      } else {
        assert forall i :: 0 < i < |items| ==> items[i] == items[1..][i - 1];
      }
    }
  }

  lemma FeaturedByItsItem(items: seq<GachaItem>, versionId: string, rarity: int, row: BannerItemRow)
    requires row.itemId in ItemsById(items)
    ensures FeaturedRow(items, versionId, rarity, row) <==>
            && row.versionId == versionId && row.featuredGroup != ""
            && ItemsById(items)[row.itemId].rarity == rarity
  {
    LastIsNamed(items, row.itemId);
  }

  ghost function ListedUnder(featured: map<int, seq<string>>, rarity: int): (ids: seq<string>)
  {
    if rarity in featured then featured[rarity] else []
  }

  lemma {:induction false} VersionRowsKnown(rows: seq<BannerItemRow>, versionId: string)
    ensures forall row :: row in ItemRowsOf(rows, versionId) <==> row in rows && row.versionId == versionId
  {
    if rows != [] {
      VersionRowsKnown(rows[1..], versionId);
      assert forall row :: row in rows <==> row == rows[0] || row in rows[1..];
    }
  }

  ghost predicate AllKnown(rows: seq<BannerItemRow>, m: map<string, GachaItem>)
  {
    forall row :: row in rows ==> row.itemId in m
  }

  /** What one more row adds to the featured items of a rarity. */
  lemma FeaturedLast(itemRows: seq<BannerItemRow>, row: BannerItemRow, m: map<string, GachaItem>, rarity: int)
    requires AllKnown(itemRows + [row], m) && AllKnown(itemRows, m)
    requires rarity in FeaturedByRarity(itemRows, m) ==> FeaturedByRarity(itemRows, m)[rarity] != []
    ensures var before, after := FeaturedByRarity(itemRows, m), FeaturedByRarity(itemRows + [row], m);
            && ListedUnder(after, rarity)
               == (if row.featuredGroup != "" && m[row.itemId].rarity == rarity
                   then ListedUnder(before, rarity) + [row.itemId] else ListedUnder(before, rarity))
            && (rarity in after ==> after[rarity] != [])
  {
    assert (itemRows + [row])[..|itemRows|] == itemRows && row in itemRows + [row];
  }

  lemma OneMoreRow(front: seq<BannerItemRow>, row: BannerItemRow, versionId: string)
    ensures ItemRowsOf(front + [row], versionId)
         == if row.versionId == versionId then ItemRowsOf(front, versionId) + [row] else ItemRowsOf(front, versionId)
  {
    RowsJoin(front, [row], versionId);
    assert [row][1..] == [] && ItemRowsOf([row], versionId) == if row.versionId == versionId then [row] else [];
  }

  lemma {:induction false} FeaturedSiftsRows(rows: seq<BannerItemRow>, versionId: string, items: seq<GachaItem>,
                                             rarity: int)
    requires AllKnown(ItemRowsOf(rows, versionId), ItemsById(items))
    ensures var featured := FeaturedByRarity(ItemRowsOf(rows, versionId), ItemsById(items));
            && Sifts(rows, FeaturedRowsOf(items, versionId, rarity), ItemIdOf(), ListedUnder(featured, rarity))
            && (rarity in featured ==> featured[rarity] != [])
  {
    if rows == [] {
      SiftsNothing(rows, FeaturedRowsOf(items, versionId, rarity), ItemIdOf());
    } else {
      var front, row, m := rows[..|rows| - 1], rows[|rows| - 1], ItemsById(items);
      assert rows == front + [row];
      OneMoreRow(front, row, versionId);
      FeaturedSiftsRows(front, versionId, items, rarity);
      var before := FeaturedByRarity(ItemRowsOf(front, versionId), m);
      SiftsLast(rows, FeaturedRowsOf(items, versionId, rarity), ItemIdOf(), ListedUnder(before, rarity));
      if row.versionId == versionId {
        assert row in ItemRowsOf(front, versionId) + [row];
        FeaturedByItsItem(items, versionId, rarity, row);
        FeaturedLast(ItemRowsOf(front, versionId), row, m, rarity);
      }
    }
  }

  // ---- one version ------------------------------------------------------------------------

  /** The group the payload names for the banner, if it names one; else the banner is its own. */
  function GroupOf(p: Payload, bannerId: string): (group: string)
  {
    if bannerId in p.pityGroupOfBanner && p.pityGroupOfBanner[bannerId].Some?
       && p.pityGroupOfBanner[bannerId].value != ""
    then p.pityGroupOfBanner[bannerId].value else bannerId
  }

  ghost predicate HasRule<V>(rows: seq<Owned<V>>, setRows: seq<Owned<V>>, rarityOf: V -> int, row: VersionRow,
                             rarity: int)
  {
    if row.ruleSetId.Some? && OwnsAny(setRows, row.ruleSetId.value)
    then OwnsRarity(setRows, rarityOf, row.ruleSetId.value, rarity)
    else OwnsRarity(rows, rarityOf, row.versionId, rarity)
  }

  /** The version has items, and all are listed. */
  ghost predicate ItemsListed(p: Payload, row: VersionRow)
  {
    && (exists i :: 0 <= i < |p.bannerItems| && p.bannerItems[i].versionId == row.versionId)
    && (forall i :: 0 <= i < |p.bannerItems| && p.bannerItems[i].versionId == row.versionId ==>
          exists k :: 0 <= k < |p.items| && p.items[k].id == p.bannerItems[i].itemId)
  }

  /** It has rates and pity rules for five- and four-stars. */
  ghost predicate RulesListed(p: Payload, row: VersionRow)
  {
    forall rarity :: rarity in {4, 5} ==>
      && HasRule(p.rarityRates, p.ruleSetRarityRates, RATE_RARITY, row, rarity)
      && HasRule(p.pityRules, p.ruleSetPityRules, PITY_RARITY, row, rarity)
  }

  /** The characters Unicode calls white space, with the four separators Python adds. */
  const WHITESPACE: set<char> :=
    {'\U{9}', '\U{A}', '\U{B}', '\U{C}', '\U{D}', '\U{1C}', '\U{1D}', '\U{1E}', '\U{1F}', ' ', '\U{85}',
     '\U{A0}', '\U{1680}', '\U{2000}', '\U{2001}', '\U{2002}', '\U{2003}', '\U{2004}', '\U{2005}', '\U{2006}',
     '\U{2007}', '\U{2008}', '\U{2009}', '\U{200A}', '\U{2028}', '\U{2029}', '\U{202F}', '\U{205F}', '\U{3000}'}

  lemma SpaceIsWhitespace(c: char)
    ensures IsSpace(c) <==> c in WHITESPACE
  {
  }

  /** Its banner is listed too, and its group is not empty, nor blank at either end, nor longer than
      100 characters. */
  ghost predicate PassesChecks(p: Payload, row: VersionRow)
  {
    && row.bannerId in p.pityGroupOfBanner && ItemsListed(p, row) && RulesListed(p, row)
    && var group := GroupOf(p, row.bannerId);
       0 < |group| <= 100 && group[0] !in WHITESPACE && group[|group| - 1] !in WHITESPACE
  }

  /** The configuration's identity is the version's. */
  ghost predicate IdentityOf(p: Payload, row: VersionRow, c: BannerConfig)
  {
    && c.banner.id == row.bannerId && c.pityGroupId == GroupOf(p, row.bannerId)
    && c.bannerVersionId == Some(row.versionId) && c.version == row.version
  }

  /** Its items are the payload's, its pool lists the items of the version's rows, and its featured
      items those of the rows with a featured group, by rarity of the item. */
  ghost predicate ItemsOf(p: Payload, row: VersionRow, c: BannerConfig)
  {
    && c.allItems == p.items
    && (forall id :: id in c.itemById <==> exists i :: 0 <= i < |p.items| && p.items[i].id == id)
    && (forall id :: id in c.itemById ==> Names(p.items, id, c.itemById[id]))
    && Sifts(p.bannerItems, RowsOf(row.versionId), ItemIdOf(), c.banner.itemPool)
    && (forall rarity :: Sifts(p.bannerItems, FeaturedRowsOf(p.items, row.versionId, rarity), ItemIdOf(),
                               c.FeaturedIds(rarity)))
    && c.banner.featuredFiveId == (if c.FeaturedIds(5) == [] then None else Some(c.FeaturedIds(5)[0]))
    && c.banner.featuredFourIds == c.FeaturedIds(4)
  }

  /** Each kind of rule is its rule set's when that has any row of the kind, else its own. */
  ghost predicate RulesFrom(p: Payload, row: VersionRow, c: BannerConfig)
  {
    && RulesOfRows(c.rarityRates, p.rarityRates, p.ruleSetRarityRates, RATE_RARITY, row)
    && RulesOfRows(c.featuredRules, p.featuredRules, p.ruleSetFeaturedRules, FEATURED_RARITY, row)
    && RulesOfRows(c.pityRules, p.pityRules, p.ruleSetPityRules, PITY_RARITY, row)
  }

  ghost predicate BuiltAs(p: Payload, row: VersionRow, s: ScheduledBannerConfig)
  {
    && IdentityOf(p, row, s.config) && ItemsOf(p, row, s.config) && RulesFrom(p, row, s.config)
    && s.effectiveFrom == row.effectiveFrom && s.effectiveTo == row.effectiveTo
  }

  lemma ItemsFollowRows(p: Payload, row: VersionRow)
    requires BuildConfig(p, row).Ok?
    ensures ItemsOf(p, row, BuildConfig(p, row).value.config)
  {
    var c, itemRows := BuildConfig(p, row).value.config, ItemRowsOf(p.bannerItems, row.versionId);
    forall id
      ensures id in c.itemById <==> exists i :: 0 <= i < |p.items| && p.items[i].id == id
      ensures id in c.itemById ==> Names(p.items, id, c.itemById[id])
    {
      LastIsNamed(p.items, id);
    }
    PoolSiftsRows(p.bannerItems, row.versionId);
    VersionRowsKnown(p.bannerItems, row.versionId);
    forall rarity
      ensures Sifts(p.bannerItems, FeaturedRowsOf(p.items, row.versionId, rarity), ItemIdOf(), c.FeaturedIds(rarity))
    {
      FeaturedSiftsRows(p.bannerItems, row.versionId, p.items, rarity);
    }
    FeaturedSiftsRows(p.bannerItems, row.versionId, p.items, 5);
  }

  lemma RulesFollowPayload(p: Payload, row: VersionRow)
    requires BuildConfig(p, row).Ok?
    ensures RulesFrom(p, row, BuildConfig(p, row).value.config)
  {
    RulesFollowRows(p.rarityRates, p.ruleSetRarityRates, RATE_RARITY, row);
    RulesFollowRows(p.featuredRules, p.ruleSetFeaturedRules, FEATURED_RARITY, row);
    RulesFollowRows(p.pityRules, p.ruleSetPityRules, PITY_RARITY, row);
  }

  /** What the loader asks of the version's item rows. */
  ghost predicate RowsPass(p: Payload, row: VersionRow)
  {
    var itemRows := ItemRowsOf(p.bannerItems, row.versionId);
    itemRows != [] && forall i :: 0 <= i < |itemRows| ==> itemRows[i].itemId in ItemsById(p.items)
  }

  lemma ItemChecks(p: Payload, row: VersionRow)
    ensures RowsPass(p, row) <==> ItemsListed(p, row)
  {
    var itemRows := ItemRowsOf(p.bannerItems, row.versionId);
    VersionRowsKnown(p.bannerItems, row.versionId);
    forall id
      ensures id in ItemsById(p.items) <==> exists k :: 0 <= k < |p.items| && p.items[k].id == id
    {
      LastIsNamed(p.items, id);
    }
    if itemRows != [] {
      assert itemRows[0] in itemRows;
    }
    forall i | 0 <= i < |p.bannerItems| && p.bannerItems[i].versionId == row.versionId
      ensures p.bannerItems[i] in itemRows
    {
    }
    forall i | 0 <= i < |itemRows|
      ensures itemRows[i] in p.bannerItems && itemRows[i].versionId == row.versionId
    {
      assert itemRows[i] in itemRows;
    }
  }

  lemma RuleChecked<V>(rows: seq<Owned<V>>, setRows: seq<Owned<V>>, rarityOf: V -> int, row: VersionRow, rarity: int)
    ensures rarity in RulesOf(row.ruleSetId, ByOwner(setRows, rarityOf), row.versionId, ByOwner(rows, rarityOf)) <==>
            HasRule(rows, setRows, rarityOf, row, rarity)
  {
    RulesFollowRows(rows, setRows, rarityOf, row);
  }

  lemma RuleChecks(p: Payload, row: VersionRow)
    ensures 5 in RatesOf(p, row) && 4 in RatesOf(p, row) && 5 in PityRulesOf(p, row) && 4 in PityRulesOf(p, row) <==>
            RulesListed(p, row)
  {
    forall rarity | rarity in {4, 5}
      ensures rarity in RatesOf(p, row) <==> HasRule(p.rarityRates, p.ruleSetRarityRates, RATE_RARITY, row, rarity)
      ensures rarity in PityRulesOf(p, row) <==> HasRule(p.pityRules, p.ruleSetPityRules, PITY_RARITY, row, rarity)
    {
      RuleChecked(p.rarityRates, p.ruleSetRarityRates, RATE_RARITY, row, rarity);
      RuleChecked(p.pityRules, p.ruleSetPityRules, PITY_RARITY, row, rarity);
    }
  }

  lemma SucceedsExactly(p: Payload, row: VersionRow)
    ensures BuildConfig(p, row).Ok? <==>
            && row.bannerId in p.pityGroupOfBanner && RowsPass(p, row)
            && 5 in RatesOf(p, row) && 4 in RatesOf(p, row) && 5 in PityRulesOf(p, row) && 4 in PityRulesOf(p, row)
            && ValidPityGroup(GroupOf(p, row.bannerId))
  {
  }

  lemma GroupChecked(group: string)
    ensures ValidPityGroup(group) <==>
            0 < |group| <= 100 && group[0] !in WHITESPACE && group[|group| - 1] !in WHITESPACE
  {
    if group != [] {
      SpaceIsWhitespace(group[0]);
      SpaceIsWhitespace(group[|group| - 1]);
    }
  }

  lemma IdentityFollowsRow(p: Payload, row: VersionRow)
    requires BuildConfig(p, row).Ok?
    ensures var s := BuildConfig(p, row).value;
            IdentityOf(p, row, s.config) && s.effectiveFrom == row.effectiveFrom && s.effectiveTo == row.effectiveTo
  {
  }

  /** A version builds exactly when it passes the checks, and then is what its rows say. */
  lemma BuildsExactly(p: Payload, row: VersionRow)
    ensures BuildConfig(p, row).Ok? <==> PassesChecks(p, row)
    ensures BuildConfig(p, row).Ok? ==> BuiltAs(p, row, BuildConfig(p, row).value)
  {
    ItemChecks(p, row);
    RuleChecks(p, row);
    SucceedsExactly(p, row);
    GroupChecked(GroupOf(p, row.bannerId));
    if BuildConfig(p, row).Ok? {
      IdentityFollowsRow(p, row);
      ItemsFollowRows(p, row);
      RulesFollowPayload(p, row);
    }
  }
}
