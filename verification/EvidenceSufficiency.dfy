/** When does equal evidence mean equal pulls?  Exactly when no reachable miss of a featured
    item falls back to items the evidence omits. */
module EvidenceSufficiency {
  import opened Collections
  import opened CatalogConfig
  import opened Schemas
  import opened Engine
  import opened PullAudit
  import opened CatalogAssembly
  import opened SampleReleases

  /** Rules and items filed under their own keys, featured ids in the pool. */
  ghost predicate Proper(c: BannerConfig)
  {
    && c.WellFiled()
    && forall r, id :: r in c.featuredItemIdsByRarity && id in c.featuredItemIdsByRarity[r] ==>
         id in c.banner.itemPool
  }

  ghost function FeaturedSet(c: BannerConfig, rarity: int): (ids: set<string>)
  {
    set id | id in c.FeaturedIds(rarity)
  }

  /** A miss of this rarity's featured items would leave the banner's pool although the pool
      covers the rarity. */
  ghost predicate Escapes(c: BannerConfig, rarity: int)
  {
    && c.FeaturedIds(rarity) != [] && rarity in c.featuredRules
    && c.featuredRules[rarity].missSetsGuarantee
    && c.featuredRules[rarity].featuredRatePpm < PPM
    && rarity in ExplicitRarities(c)
    && Listed(c.itemById, rarity, FeaturedSet(c, rarity), c.banner.itemPool) == []
  }

  /** Some draws roll this rarity from this pity. */
  ghost predicate CanRoll(c: BannerConfig, pity: PityState, rarity: int)
  {
    && 5 in c.pityRules && 4 in c.pityRules
    && if pity.sinceFive + 1 >= c.pityRules[5].hardPity then rarity == 5
       else
         var five := RarityRatePpm(c, 5, pity.sinceFive + 1);
         && five.Ok?
         && ((rarity == 5 && five.value > 0)
             || (five.value < PPM
                 && if pity.sinceFour + 1 >= c.pityRules[4].hardPity then rarity == 4
                    else
                      var four := RarityRatePpm(c, 4, pity.sinceFour + 1);
                      four.Ok? && ((rarity == 4 && four.value > 0) || (rarity == 3 && four.value < PPM))))
  }

  /** Every pity from which an escaping rarity can be rolled holds that rarity's guarantee. */
  ghost predicate FallbackContained(c: BannerConfig)
  {
    forall rarity, pity :: Escapes(c, rarity) && CanRoll(c, pity, rarity) ==>
      HasFeaturedGuarantee(pity, c.featuredRules[rarity])
  }

  /** The evidence of `a` determines its pulls among proper configurations. */
  ghost predicate EvidenceDeterminesPulls(a: BannerConfig)
  {
    forall b, rng, count, pity, seed :: Proper(b) && ConfigEvidence(b) == ConfigEvidence(a) ==>
      Pulls(rng, b, count, pity, seed) == Pulls(rng, a, count, pity, seed)
  }

  ghost predicate Builds(p: Payload, row: VersionRow, c: BannerConfig)
  {
    BuildConfig(p, row).Ok? && BuildConfig(p, row).value.config == c
  }

  /** Some payload the loader accepts builds it. */
  ghost predicate Built(c: BannerConfig)
  {
    exists p, row :: Builds(p, row, c)
  }

  /** The evidence of `a` determines its pulls among configurations the loader can build. */
  ghost predicate EvidenceDeterminesBuiltPulls(a: BannerConfig)
  {
    forall b, rng, count, pity, seed :: Built(b) && ConfigEvidence(b) == ConfigEvidence(a) ==>
      Pulls(rng, b, count, pity, seed) == Pulls(rng, a, count, pity, seed)
  }

  lemma BuiltIsProper(c: BannerConfig)
    requires Built(c)
    ensures WellBuilt(c) && Proper(c)
  {
    var p, row :| Builds(p, row, c);
    BuildsWell(p, row, c);
    WellBuiltIsProper(c);
  }

  lemma BuildsWell(p: Payload, row: VersionRow, c: BannerConfig)
    requires Builds(p, row, c)
    ensures WellBuilt(c)
  {
    BuiltConfigIsWellBuilt(p, row);
  }

  lemma WellBuiltIsProper(c: BannerConfig)
    requires WellBuilt(c)
    ensures Proper(c)
  {
  }

  // ---- what equal evidence shares ---------------------------------------------------------

  /** Items of the given ids are looked up as before among the items of those ids alone. */
  lemma {:induction false} KeptLookup(items: seq<GachaItem>, ids: set<string>, id: string)
    requires id in ids
    ensures id in ItemsById(WithIds(items, ids)) <==> id in ItemsById(items)
    ensures id in ItemsById(items) ==> ItemsById(WithIds(items, ids))[id] == ItemsById(items)[id]
  {
    if items != [] {
      KeptLookup(items[1..], ids, id);
      var kept := WithIds(items[1..], ids);
      if items[0].id in ids {
        assert WithIds(items, ids) == [items[0]] + kept && ([items[0]] + kept)[1..] == kept;
      } else {
        assert WithIds(items, ids) == kept;
      }
    }
  }

  lemma SharedLookup(a: BannerConfig, b: BannerConfig, id: string)
    requires Proper(a) && Proper(b) && ConfigEvidence(a) == ConfigEvidence(b)
    requires id in a.banner.itemPool
    ensures id in b.itemById <==> id in a.itemById
    ensures id in a.itemById ==> b.itemById[id] == a.itemById[id]
  {
    KeptLookup(a.allItems, SelectedIds(a), id);
    KeptLookup(b.allItems, SelectedIds(b), id);
  }

  lemma SharedLookups(a: BannerConfig, b: BannerConfig)
    requires Proper(a) && Proper(b) && ConfigEvidence(a) == ConfigEvidence(b)
    ensures forall id :: id in a.banner.itemPool ==> (id in a.itemById <==> id in b.itemById)
    ensures forall id :: id in a.banner.itemPool && id in a.itemById ==> a.itemById[id] == b.itemById[id]
    ensures ExplicitRarities(a) == ExplicitRarities(b)
  {
    forall id | id in a.banner.itemPool
      ensures id in a.itemById <==> id in b.itemById
      ensures id in a.itemById ==> a.itemById[id] == b.itemById[id]
    {
      SharedLookup(a, b, id);
    }
    assert ExplicitRarities(a) <= ExplicitRarities(b);
    assert ExplicitRarities(b) <= ExplicitRarities(a);
  }

  /** Equal evidence means the same banner, group, version and rules. */
  lemma EvidenceFixesRules(a: BannerConfig, b: BannerConfig)
    requires Proper(a) && Proper(b) && ConfigEvidence(a) == ConfigEvidence(b)
    ensures a.pityGroupId == b.pityGroupId && a.bannerVersionId == b.bannerVersionId && a.version == b.version
    ensures a.banner == b.banner && a.rarityRates == b.rarityRates && a.featuredRules == b.featuredRules
    ensures a.pityRules == b.pityRules && a.featuredItemIdsByRarity == b.featuredItemIdsByRarity
  {
    KeyedSortedValues(a.rarityRates, (rate: RarityRate) => rate.rarity);
    KeyedSortedValues(b.rarityRates, (rate: RarityRate) => rate.rarity);
    KeyedSortedValues(a.featuredRules, (rule: FeaturedRule) => rule.rarity);
    KeyedSortedValues(b.featuredRules, (rule: FeaturedRule) => rule.rarity);
    KeyedSortedValues(a.pityRules, (rule: PityRule) => rule.rarity);
    KeyedSortedValues(b.pityRules, (rule: PityRule) => rule.rarity);
  }

  lemma {:induction false} SharedListing(m: map<string, GachaItem>, m': map<string, GachaItem>, rarity: int,
                                         excluded: set<string>, ids: seq<string>)
    requires forall id :: id in ids ==> (id in m <==> id in m')
    requires forall id :: id in ids && id in m ==> m[id] == m'[id]
    ensures Listed(m, rarity, excluded, ids) == Listed(m', rarity, excluded, ids)
  {
    if ids != [] {
      assert ids[0] in ids;
      SharedListing(m, m', rarity, excluded, ids[1..]);
    }
  }

  lemma {:induction false} ListedNone(m: map<string, GachaItem>, rarity: int, excluded: set<string>, ids: seq<string>)
    ensures Listed(m, rarity, excluded, ids) == [] <==>
            forall id :: id in ids && id in m && id !in excluded ==> m[id].rarity != rarity
  {
    if ids != [] {
      ListedNone(m, rarity, excluded, ids[1..]);
      assert ids[0] in ids;
      assert forall id :: id in ids <==> id == ids[0] || id in ids[1..];
    }
  }

  lemma {:induction false} FilteredRarity(items: seq<GachaItem>, ids: set<string>, rarity: int, excluded: set<string>)
    requires forall item :: item in items && item.rarity == rarity ==> item.id in ids
    ensures OfRarity(WithIds(items, ids), rarity, excluded) == OfRarity(items, rarity, excluded)
  {
    if items != [] {
      FilteredRarity(items[1..], ids, rarity, excluded);
      assert items[0] in items;
      var kept := WithIds(items[1..], ids);
      if items[0].id in ids {
        assert WithIds(items, ids) == [items[0]] + kept;
        assert WithIds(items, ids)[1..] == kept;
      } else {
        assert WithIds(items, ids) == kept;
      }
    }
  }

  lemma SharedPool(a: BannerConfig, b: BannerConfig, rarity: int, excluded: set<string>)
    requires Proper(a) && Proper(b) && ConfigEvidence(a) == ConfigEvidence(b)
    requires rarity in ExplicitRarities(a) ==> Listed(a.itemById, rarity, excluded, a.banner.itemPool) != []
    ensures a.PoolForRarity(rarity, excluded) == b.PoolForRarity(rarity, excluded)
  {
    SharedLookups(a, b);
    SharedListing(a.itemById, b.itemById, rarity, excluded, a.banner.itemPool);
    if rarity !in ExplicitRarities(a) {
      FilteredRarity(a.allItems, SelectedIds(a), rarity, excluded);
      FilteredRarity(b.allItems, SelectedIds(b), rarity, excluded);
    }
  }

  lemma WholePoolExplicit(c: BannerConfig, rarity: int)
    requires rarity in ExplicitRarities(c)
    ensures Listed(c.itemById, rarity, {}, c.banner.itemPool) != []
  {
    ListedNone(c.itemById, rarity, {}, c.banner.itemPool);
  }

  lemma {:induction false} SharedFeatured(m: map<string, GachaItem>, m': map<string, GachaItem>, ids: seq<string>)
    requires forall id :: id in ids ==> (id in m <==> id in m')
    requires forall id :: id in ids && id in m ==> m[id] == m'[id]
    ensures LookUpAll(m, ids) == LookUpAll(m', ids)
  {
    if ids != [] {
      assert ids[0] in ids;
      SharedFeatured(m, m', ids[1..]);
    }
  }

  // ---- sufficiency ------------------------------------------------------------------------

  /** Equal evidence rolls equal items, unless the roll misses an escaping rarity. */
  lemma SameItem(a: BannerConfig, b: BannerConfig, rarity: int, pity: PityState, rng: RandomSource, seed: string,
                 p: nat)
    requires Proper(a) && Proper(b) && ConfigEvidence(a) == ConfigEvidence(b)
    requires Escapes(a, rarity) ==> HasFeaturedGuarantee(pity, a.featuredRules[rarity])
    ensures RollItemAt(a, rarity, pity, rng, seed, p) == RollItemAt(b, rarity, pity, rng, seed, p)
  {
    EvidenceFixesRules(a, b);
    SharedLookups(a, b);
    if rarity in ExplicitRarities(a) {
      WholePoolExplicit(a, rarity);
    }
    SharedPool(a, b, rarity, {});
    assert a.FeaturedIds(rarity) == b.FeaturedIds(rarity);
    SharedFeatured(a.itemById, b.itemById, a.FeaturedIds(rarity));
    if !(rarity in ExplicitRarities(a)
         && Listed(a.itemById, rarity, FeaturedSet(a, rarity), a.banner.itemPool) == []) {
      SharedPool(a, b, rarity, FeaturedSet(a, rarity));
    }
    SameRoll(a, b, rarity, pity, rng, seed, p);
  }

  lemma SameRoll(a: BannerConfig, b: BannerConfig, rarity: int, pity: PityState, rng: RandomSource, seed: string,
                 p: nat)
    requires a.featuredRules == b.featuredRules && a.featuredItemIdsByRarity == b.featuredItemIdsByRarity
    requires LookUpAll(a.itemById, a.FeaturedIds(rarity)) == LookUpAll(b.itemById, a.FeaturedIds(rarity))
    requires a.PoolForRarity(rarity, {}) == b.PoolForRarity(rarity, {})
    requires a.PoolForRarity(rarity, FeaturedSet(a, rarity)) == b.PoolForRarity(rarity, FeaturedSet(a, rarity))
             || rarity !in a.featuredRules || a.FeaturedIds(rarity) == []
             || !a.featuredRules[rarity].missSetsGuarantee || HasFeaturedGuarantee(pity, a.featuredRules[rarity])
             || a.featuredRules[rarity].featuredRatePpm >= PPM
    ensures RollItemAt(a, rarity, pity, rng, seed, p) == RollItemAt(b, rarity, pity, rng, seed, p)
  {
    if rarity in a.featuredRules && a.featuredRules[rarity].featuredRatePpm >= PPM {
      CertainHit(rng.uniform(seed, p), a.featuredRules[rarity].featuredRatePpm);
    }
  }

  lemma CertainHit(u: Unit, ratePpm: int)
    requires ratePpm >= PPM
    ensures Hits(u, ratePpm)
  {
    assert u * (PPM as real) < PPM as real;
  }

  lemma RolledIsReachable(c: BannerConfig, pity: PityState, rng: RandomSource, seed: string, p: nat)
    requires RollRarityAt(c, pity, rng, seed, p).Ok?
    ensures CanRoll(c, pity, RollRarityAt(c, pity, rng, seed, p).value.value)
  {
  }

  lemma ReachableContained(c: BannerConfig, pity: PityState, rng: RandomSource, seed: string, p: nat)
    requires FallbackContained(c) && RollRarityAt(c, pity, rng, seed, p).Ok?
    ensures var rarity := RollRarityAt(c, pity, rng, seed, p).value.value;
            Escapes(c, rarity) ==> HasFeaturedGuarantee(pity, c.featuredRules[rarity])
  {
    RolledIsReachable(c, pity, rng, seed, p);
  }

  lemma SameRarity(a: BannerConfig, b: BannerConfig, rng: RandomSource, seed: string, pity: PityState, p: nat)
    requires a.rarityRates == b.rarityRates && a.pityRules == b.pityRules
    ensures RollRarityAt(a, pity, rng, seed, p) == RollRarityAt(b, pity, rng, seed, p)
  {
  }

  lemma SamePull(a: BannerConfig, b: BannerConfig, rng: RandomSource, seed: string, index: nat, pity: PityState, p: nat)
    requires Proper(a) && Proper(b) && ConfigEvidence(a) == ConfigEvidence(b) && FallbackContained(a)
    ensures PullOnceAt(a, rng, seed, index, pity, p) == PullOnceAt(b, rng, seed, index, pity, p)
  {
    EvidenceFixesRules(a, b);
    SameRarity(a, b, rng, seed, pity, p);
    if RollRarityAt(a, pity, rng, seed, p).Ok? {
      var rarity := RollRarityAt(a, pity, rng, seed, p).value;
      ReachableContained(a, pity, rng, seed, p);
      SameItem(a, b, rarity.value, pity, rng, seed, rarity.position);
      assert forall item :: IsFeaturedItem(a, item) == IsFeaturedItem(b, item);
    }
  }

  lemma {:induction false} SamePulls(a: BannerConfig, b: BannerConfig, rng: RandomSource, seed: string, index: nat,
                                     count: int, pity: PityState, p: nat)
    requires Proper(a) && Proper(b) && ConfigEvidence(a) == ConfigEvidence(b) && FallbackContained(a)
    ensures PullsAt(a, rng, seed, index, count, pity, p) == PullsAt(b, rng, seed, index, count, pity, p)
    decreases count - index
  {
    if index < count {
      SamePull(a, b, rng, seed, index, pity, p);
      if PullOnceAt(a, rng, seed, index, pity, p).Ok? {
        var pulled := PullOnceAt(a, rng, seed, index, pity, p).value;
        SamePulls(a, b, rng, seed, index + 1, count, pulled.value.pity, pulled.position);
      }
    }
  }

  // ---- necessity --------------------------------------------------------------------------

  lemma {:induction false} FreshId(ids: seq<string>) returns (unused: string)
    ensures forall id :: id in ids ==> |id| < |unused|
  {
    if ids == [] {
      unused := "";
    } else {
      var shorter := FreshId(ids[1..]);
      unused := shorter + ids[0] + "+";
      assert forall id :: id in ids ==> id == ids[0] || id in ids[1..];
    }
  }

  lemma {:induction false} KeyedAppend(items: seq<GachaItem>, item: GachaItem)
    ensures ItemsById(items + [item]) == ItemsById(items)[item.id := item]
  {
    var key := (i: GachaItem) => i.id;
    if items == [] {
      assert items + [item] == [item];
      assert Keyed([item][1..], key) == map[];
    } else {
      assert (items + [item])[1..] == items[1..] + [item];
      KeyedAppend(items[1..], item);
      assert ItemsById(items[1..]) == Keyed(items[1..], key);
    }
  }

  lemma {:induction false} OfRarityAppend(items: seq<GachaItem>, item: GachaItem, excluded: set<string>)
    requires item.id !in excluded
    ensures OfRarity(items + [item], item.rarity, excluded) == OfRarity(items, item.rarity, excluded) + [item]
  {
    if items == [] {
      assert items + [item] == [item];
    } else {
      assert (items + [item])[1..] == items[1..] + [item];
      OfRarityAppend(items[1..], item, excluded);
    }
  }

  lemma {:induction false} OfRarityMember(items: seq<GachaItem>, rarity: int, excluded: set<string>, item: GachaItem)
    requires item in OfRarity(items, rarity, excluded)
    ensures item in items
  {
    if !(items[0].rarity == rarity && items[0].id !in excluded && item == items[0]) {
      OfRarityMember(items[1..], rarity, excluded, item);
    }
  }

  /** The configuration with one more item of a rarity the pool covers, outside the pool. */
  ghost function Extended(a: BannerConfig, item: GachaItem): (b: BannerConfig)
  {
    a.(allItems := a.allItems + [item], itemById := ItemsById(a.allItems + [item]))
  }

  ghost predicate Foreign(a: BannerConfig, item: GachaItem)
  {
    && item.rarity in ExplicitRarities(a)
    && item.id !in a.banner.itemPool
    && forall i :: 0 <= i < |a.allItems| ==> a.allItems[i].id != item.id
  }

  lemma ForeignItem(a: BannerConfig, rarity: int) returns (item: GachaItem)
    requires Proper(a) && rarity in ExplicitRarities(a)
    ensures Foreign(a, item) && item.rarity == rarity
  {
    var taken := a.banner.itemPool + seq(|a.allItems|, i requires 0 <= i < |a.allItems| => a.allItems[i].id);
    var id := FreshId(taken);
    item := GachaItem(id, rarity);
    forall i | 0 <= i < |a.allItems|
      ensures a.allItems[i].id != id
    {
      assert taken[|a.banner.itemPool| + i] == a.allItems[i].id;
    }
    forall pooled | pooled in a.banner.itemPool
      ensures pooled != id
    {
      assert pooled in taken;
    }
  }

  /** An item the evidence omits does not change the evidence. */
  lemma ForeignItemUnseen(a: BannerConfig, item: GachaItem)
    requires Proper(a) && Foreign(a, item)
    ensures Proper(Extended(a, item)) && ConfigEvidence(Extended(a, item)) == ConfigEvidence(a)
    ensures forall id :: id in a.banner.itemPool ==>
              (id in a.itemById <==> id in Extended(a, item).itemById)
    ensures forall id :: id in a.banner.itemPool && id in a.itemById ==>
              a.itemById[id] == Extended(a, item).itemById[id]
  {
    var b := Extended(a, item);
    KeyedAppend(a.allItems, item);
    assert ExplicitRarities(b) == ExplicitRarities(a);
    assert SelectedIds(b) == SelectedIds(a);
    assert item.id !in SelectedIds(a);
    WithIdsAppend(a.allItems, item, SelectedIds(a));
  }

  /** Draws that roll `rarity` from `pity`, then miss its feature, then pick index `k`. */
  ghost function MissingDraws(a: BannerConfig, rarity: int, rolls: nat, k: nat): (rng: RandomSource)
    requires Escapes(a, rarity)
  {
    var rate := a.featuredRules[rarity].featuredRatePpm;
    var miss: Unit := if rate <= 0 then 0.0 else rate as real / PPM as real;
    var fiveMiss: Unit := (PPM - 1) as real / PPM as real;
    RandomSource(
      (seed: string, p: nat) =>
        if p >= rolls then miss
        else if rarity == 5 || (rarity == 4 && p == 1) then 0.0
        else fiveMiss,
      (seed: string, p: nat, n: nat) => k,
      (seed: string, p: nat, n: nat) => 0)
  }

  lemma MissOccurs(u: Unit, rate: int)
    requires u == (if rate <= 0 then 0.0 else rate as real / PPM as real)
    ensures !Hits(u, rate)
  {
    if rate > 0 {
      assert (rate as real / PPM as real) * (PPM as real) == rate as real;
    }
  }

  lemma RollsAs(a: BannerConfig, pity: PityState, rarity: int, k: nat) returns (rolls: nat)
    requires Escapes(a, rarity) && CanRoll(a, pity, rarity)
    ensures RollRarityAt(a, pity, MissingDraws(a, rarity, rolls, k), "", 0) == Ok(Rolled(rarity, rolls))
  {
    var fiveMiss: Unit := (PPM - 1) as real / PPM as real;
    assert fiveMiss * (PPM as real) == (PPM - 1) as real;
    if pity.sinceFive + 1 >= a.pityRules[5].hardPity {
      rolls := 0;
    } else if rarity == 5 || (rarity == 4 && pity.sinceFour + 1 >= a.pityRules[4].hardPity) {
      rolls := 1;
    } else {
      rolls := 2;
    }
  }

  lemma ExtendedEscapes(a: BannerConfig, item: GachaItem)
    requires Proper(a) && Foreign(a, item) && Escapes(a, item.rarity)
    ensures Escapes(Extended(a, item), item.rarity)
    ensures Outside(Extended(a, item), item.rarity) == Outside(a, item.rarity) + [item]
  {
    var b := Extended(a, item);
    ForeignItemUnseen(a, item);
    SharedListing(a.itemById, b.itemById, item.rarity, FeaturedSet(a, item.rarity), a.banner.itemPool);
    SharedLookups(a, b);
    assert item.id !in FeaturedSet(a, item.rarity);
    OfRarityAppend(a.allItems, item, FeaturedSet(a, item.rarity));
  }

  lemma SinglePull(c: BannerConfig, pity: PityState, rng: RandomSource, rarity: int, p: nat)
    requires RollRarityAt(c, pity, rng, "", 0) == Ok(Rolled(rarity, p))
    ensures match RollItemAt(c, rarity, pity, rng, "", p)
            case Err(e) => Pulls(rng, c, 1, pity, "") == Err(e)
            case Ok(item) =>
              && Pulls(rng, c, 1, pity, "").Ok?
              && |Pulls(rng, c, 1, pity, "").value.records| == 1
              && Pulls(rng, c, 1, pity, "").value.records[0].itemId == item.value.id
  {
    if RollItemAt(c, rarity, pity, rng, "", p).Ok? {
      var pulled := PullOnceAt(c, rng, "", 0, pity, 0).value;
      assert PullsAt(c, rng, "", 1, 1, pulled.value.pity, pulled.position) == Ok(Batch([], pulled.value.pity));
    }
  }

  ghost function Outside(c: BannerConfig, rarity: int): (items: seq<GachaItem>)
  {
    OfRarity(c.allItems, rarity, FeaturedSet(c, rarity))
  }

  /** A single pull that misses an escaping rarity picks among all items of the rarity that are
      not featured. */
  lemma MissedPull(c: BannerConfig, pity: PityState, rarity: int, rng: RandomSource, p: nat)
    requires Escapes(c, rarity) && !HasFeaturedGuarantee(pity, c.featuredRules[rarity])
    requires RollRarityAt(c, pity, rng, "", 0) == Ok(Rolled(rarity, p))
    requires !Hits(rng.uniform("", p), c.featuredRules[rarity].featuredRatePpm)
    ensures PulledItem(c, pity, rng) == PickedItem(Outside(c, rarity), rng, p + 1)
  {
    assert RollItemAt(c, rarity, pity, rng, "", p) == PickAt(Outside(c, rarity), rng, "", p + 1);
    SinglePull(c, pity, rng, rarity, p);
  }

  ghost function PulledItem(c: BannerConfig, pity: PityState, rng: RandomSource): (id: Option<string>)
  {
    match Pulls(rng, c, 1, pity, "")
    case Err(_) => None
    case Ok(batch) => if batch.records == [] then None else Some(batch.records[0].itemId)
  }

  ghost function PickedItem(items: seq<GachaItem>, rng: RandomSource, p: nat): (id: Option<string>)
  {
    match PickAt(items, rng, "", p)
    case Err(_) => None
    case Ok(item) => Some(item.value.id)
  }

  // ---- the extended configuration is one the loader builds --------------------------------

  lemma {:induction false} SameFeatured(rows: seq<BannerItemRow>, m: map<string, GachaItem>, m': map<string, GachaItem>)
    requires forall row :: row in rows ==> row.itemId in m && row.itemId in m' && m'[row.itemId] == m[row.itemId]
    ensures FeaturedByRarity(rows, m') == FeaturedByRarity(rows, m)
  {
    if rows != [] {
      SameFeatured(rows[..|rows| - 1], m, m');
      assert rows[|rows| - 1] in rows;
    }
  }

  lemma ExtendedIsBuiltFrom(p: Payload, row: VersionRow, item: GachaItem)
    requires BuildConfig(p, row).Ok? && Foreign(BuildConfig(p, row).value.config, item)
    ensures Builds(p.(items := p.items + [item]), row, Extended(BuildConfig(p, row).value.config, item))
  {
    var itemRows, m, m' := ItemRowsOf(p.bannerItems, row.versionId), ItemsById(p.items), ItemsById(p.items + [item]);
    KeyedAppend(p.items, item);
    forall r | r in itemRows
      ensures r.itemId in m && r.itemId in m' && m'[r.itemId] == m[r.itemId]
    {
      var k :| 0 <= k < |itemRows| && itemRows[k] == r;
      assert PooledIds(itemRows)[k] == r.itemId;
    }
    SameFeatured(itemRows, m, m');
  }

  lemma ExtendedIsBuilt(a: BannerConfig, item: GachaItem)
    requires Built(a) && Foreign(a, item)
    ensures Built(Extended(a, item)) && WellBuilt(Extended(a, item))
  {
    var p, row :| Builds(p, row, a);
    ExtendedIsBuiltFrom(p, row, item);
    BuiltIsProper(Extended(a, item));
  }

  lemma ExtendedIsWellBuilt(a: BannerConfig, item: GachaItem)
    requires WellBuilt(a) && Foreign(a, item)
    ensures WellBuilt(Extended(a, item))
  {
    KeyedAppend(a.allItems, item);
  }

  /** If an escaping rarity can be missed, another configuration with the same evidence pulls a
      different item; one that is well built, or built by the loader, if the first is. */
  lemma EscapeIsVisible(a: BannerConfig, pity: PityState, rarity: int)
    returns (b: BannerConfig, rng: RandomSource)
    requires Proper(a) && Escapes(a, rarity) && CanRoll(a, pity, rarity)
    requires !HasFeaturedGuarantee(pity, a.featuredRules[rarity])
    ensures Proper(b) && ConfigEvidence(b) == ConfigEvidence(a)
    ensures (WellBuilt(a) ==> WellBuilt(b)) && (Built(a) ==> Built(b))
    ensures PulledItem(b, pity, rng) != PulledItem(a, pity, rng)
  {
    var item := ForeignItem(a, rarity);
    ForeignItemUnseen(a, item);
    b := Extended(a, item);
    if WellBuilt(a) {
      ExtendedIsWellBuilt(a, item);
    }
    if Built(a) {
      ExtendedIsBuilt(a, item);
    }
    var rolls := RollsAs(a, pity, rarity, |Outside(a, rarity)|);
    rng := MissingDraws(a, rarity, rolls, |Outside(a, rarity)|);
    MissOccurs(rng.uniform("", rolls), a.featuredRules[rarity].featuredRatePpm);
    ExtendedPullsDiffer(a, item, pity, rng, rolls);
  }

  lemma ExtendedPullsDiffer(a: BannerConfig, item: GachaItem, pity: PityState, rng: RandomSource, rolls: nat)
    requires Proper(a) && Foreign(a, item) && Escapes(a, item.rarity)
    requires !HasFeaturedGuarantee(pity, a.featuredRules[item.rarity])
    requires RollRarityAt(a, pity, rng, "", 0) == Ok(Rolled(item.rarity, rolls))
    requires !Hits(rng.uniform("", rolls), a.featuredRules[item.rarity].featuredRatePpm)
    requires rng.below("", rolls + 1, |Outside(a, item.rarity)| + 1) == |Outside(a, item.rarity)|
    ensures PulledItem(Extended(a, item), pity, rng) != PulledItem(a, pity, rng)
  {
    ExtendedEscapes(a, item);
    MissedPull(a, pity, item.rarity, rng, rolls);
    MissedPull(Extended(a, item), pity, item.rarity, rng, rolls);
    PicksDiffer(a, item, rng, rolls + 1);
  }

  lemma PicksDiffer(a: BannerConfig, item: GachaItem, rng: RandomSource, p: nat)
    requires Foreign(a, item)
    requires rng.below("", p, |Outside(a, item.rarity)| + 1) == |Outside(a, item.rarity)|
    ensures PickedItem(Outside(a, item.rarity) + [item], rng, p) == Some(item.id)
    ensures PickedItem(Outside(a, item.rarity), rng, p) != Some(item.id)
  {
    var outside := Outside(a, item.rarity);
    var n := |outside|;
    assert n % (n + 1) == n;
    if outside != [] {
      var other := PickAt(outside, rng, "", p).value.value;
      assert other in outside;
      OfRarityMember(a.allItems, item.rarity, FeaturedSet(a, item.rarity), other);
    }
  }

  /** The evidence determines the pulls if and only if every fallback stays contained. */
  lemma EvidenceDeterminesPullsExactly(a: BannerConfig)
    requires Proper(a)
    ensures EvidenceDeterminesPulls(a) <==> FallbackContained(a)
  {
    if FallbackContained(a) {
      forall b, rng, count, pity, seed | Proper(b) && ConfigEvidence(b) == ConfigEvidence(a)
        ensures Pulls(rng, b, count, pity, seed) == Pulls(rng, a, count, pity, seed)
      {
        SamePulls(a, b, rng, seed, 0, count, pity, 0);
      }
    } else {
      var rarity, pity :| Escapes(a, rarity) && CanRoll(a, pity, rarity)
                          && !HasFeaturedGuarantee(pity, a.featuredRules[rarity]);
      var b, rng := EscapeIsVisible(a, pity, rarity);
      assert Pulls(rng, b, 1, pity, "") != Pulls(rng, a, 1, pity, "");
    }
  }

  lemma ContainedIsDetermined(a: BannerConfig)
    requires Proper(a) && FallbackContained(a)
    ensures EvidenceDeterminesBuiltPulls(a)
  {
    forall b, rng, count, pity, seed | Built(b) && ConfigEvidence(b) == ConfigEvidence(a)
      ensures Pulls(rng, b, count, pity, seed) == Pulls(rng, a, count, pity, seed)
    {
      BuiltIsProper(b);
      SamePulls(a, b, rng, seed, 0, count, pity, 0);
    }
  }

  lemma EscapeIsUndetermined(a: BannerConfig)
    requires Built(a) && Proper(a) && !FallbackContained(a)
    ensures !EvidenceDeterminesBuiltPulls(a)
  {
    var rarity, pity :| Escapes(a, rarity) && CanRoll(a, pity, rarity)
                        && !HasFeaturedGuarantee(pity, a.featuredRules[rarity]);
    var b, rng := EscapeIsVisible(a, pity, rarity);
    assert Pulls(rng, b, 1, pity, "") != Pulls(rng, a, 1, pity, "");
  }

  /** So it is among the configurations the loader can build. */
  lemma EvidenceDeterminesBuiltPullsExactly(a: BannerConfig)
    requires Built(a)
    ensures EvidenceDeterminesBuiltPulls(a) <==> FallbackContained(a)
  {
    BuiltIsProper(a);
    if FallbackContained(a) {
      ContainedIsDetermined(a);
    } else {
      EscapeIsUndetermined(a);
    }
  }

  const FIVE_UP := FeaturedRule(5, "five_up", 500_000, true, true, Some("guaranteed_featured_five"))

  /** A banner whose only pooled five-star is featured, with real rates, pools and pity rules. */
  function SoleFeatured(): (p: Payload)
  {
    PayloadOf([FIVE, FOUR, THREE], [VersionOf("v1", 0)], PoolRows("v1", POOL, "five"), [FIVE_UP], 90)
  }

  lemma SoleFeaturedBuilds()
    ensures forall id :: id in POOL ==> id in ItemsById([FIVE, FOUR, THREE])
    ensures BuildConfig(SoleFeatured(), VersionOf("v1", 0)).Ok?
    ensures BuildConfig(SoleFeatured(), VersionOf("v1", 0)).value.config
         == ConfigOf("v1", [FIVE, FOUR, THREE], POOL, "five", [FIVE_UP], 90)
  {
    ItemsOfAllRarities();
    RowsOfVersion(PoolRows("v1", POOL, "five"), "v1");
    VersionBuilds([FIVE, FOUR, THREE], [VersionOf("v1", 0)], PoolRows("v1", POOL, "five"), [FIVE_UP], 90, "v1", 0,
                  POOL, "five");
  }

  lemma FeaturesOnlyFive()
    ensures forall id :: id in POOL ==> id in ItemsById([FIVE, FOUR, THREE])
    ensures FeaturedByRarity(PoolRows("v1", POOL, "five"), ItemsById([FIVE, FOUR, THREE])) == map[5 := ["five"]]
  {
    ItemsOfAllRarities();
    var m, rows := ItemsById([FIVE, FOUR, THREE]), PoolRows("v1", POOL, "five");
    var ids: seq<string> := [];
    assert rows[..0] == [] && rows[..1][..0] == [] && ids + ["five"] == ["five"];
    assert FeaturedByRarity(rows[..1], m) == map[5 := ["five"]];
    assert rows[..2][..1] == rows[..1];
    assert FeaturedByRarity(rows[..2], m) == map[5 := ["five"]];
    assert rows[..3] == rows && rows[..3][..2] == rows[..2];
  }

  /** The first pull can roll the five-star, and miss. */
  lemma SoleFeaturedCanMiss()
    ensures forall id :: id in POOL ==> id in ItemsById([FIVE, FOUR, THREE])
    ensures !FallbackContained(ConfigOf("v1", [FIVE, FOUR, THREE], POOL, "five", [FIVE_UP], 90))
  {
    FeaturesOnlyFive();
    ItemsOfAllRarities();
    var c := ConfigOf("v1", [FIVE, FOUR, THREE], POOL, "five", [FIVE_UP], 90);
    assert POOL[0] in c.banner.itemPool && c.itemById["five"] == FIVE;
    assert 5 in ExplicitRarities(c) && c.FeaturedIds(5)[0] in FeaturedSet(c, 5);
    ListedNone(c.itemById, 5, FeaturedSet(c, 5), c.banner.itemPool);
    assert Escapes(c, 5);
    assert CanRoll(c, INITIAL_PITY, 5) && !HasFeaturedGuarantee(INITIAL_PITY, c.featuredRules[5]);
  }

  /** For it, equal evidence does not mean equal pulls, not even among built configurations. */
  lemma SoleFeaturedEscapes()
    ensures BuildConfig(SoleFeatured(), VersionOf("v1", 0)).Ok?
    ensures var c := BuildConfig(SoleFeatured(), VersionOf("v1", 0)).value.config;
            Built(c) && WellBuilt(c) && !EvidenceDeterminesPulls(c) && !EvidenceDeterminesBuiltPulls(c)
  {
    SoleFeaturedBuilds();
    SoleFeaturedCanMiss();
    var c := BuildConfig(SoleFeatured(), VersionOf("v1", 0)).value.config;
    assert Builds(SoleFeatured(), VersionOf("v1", 0), c);
    BuiltIsProper(c);
    EvidenceDeterminesPullsExactly(c);
    EvidenceDeterminesBuiltPullsExactly(c);
  }

  /** The proviso a catalog author can check: a covered rarity whose misses set a guarantee
      keeps a pooled item that is not featured. */
  ghost predicate KeepsOffRateItems(c: BannerConfig)
  {
    forall rarity :: rarity in c.featuredRules && c.featuredRules[rarity].missSetsGuarantee
                     && rarity in ExplicitRarities(c) && c.FeaturedIds(rarity) != [] ==>
      exists id :: id in c.banner.itemPool && id in c.itemById && c.itemById[id].rarity == rarity
                   && id !in c.FeaturedIds(rarity)
  }

  /** Two proper configurations with equal evidence give equal pulls for all seeds, counts and
      pities, when the first keeps off-rate items. */
  lemma EqualEvidenceEqualPulls(a: BannerConfig, b: BannerConfig, rng: RandomSource, count: int, pity: PityState,
                                seed: string)
    requires Proper(a) && Proper(b) && ConfigEvidence(a) == ConfigEvidence(b) && KeepsOffRateItems(a)
    ensures Pulls(rng, a, count, pity, seed) == Pulls(rng, b, count, pity, seed)
  {
    forall rarity
      ensures !Escapes(a, rarity)
    {
      ListedNone(a.itemById, rarity, FeaturedSet(a, rarity), a.banner.itemPool);
    }
    SamePulls(a, b, rng, seed, 0, count, pity, 0);
  }
}
