/** What the engine makes of its draws, in the numbers and lists of the configuration itself: which
    rarity a draw rolls, which item it picks from which list, and what the record says of it.
    Nothing here is told in terms of the engine's own steps. */
module DrawRules {
  import opened Collections
  import opened CatalogConfig
  import opened Schemas
  import opened Engine
  import opened EngineRules

  // ---- rarities ---------------------------------------------------------------------------

  ghost predicate Under(u: Unit, ppm: int)
  {
    u < ppm as real / 1_000_000.0
  }

  /** From position p the draws roll this rarity and leave position q: five-star for sure at hard
      pity, else on a first draw under its chance; then four-star for sure at its hard pity, else
      on a second draw under its chance; else three-star. */
  ghost predicate Rolls(c: BannerConfig, pity: PityState, rng: RandomSource, seed: string, p: nat, rarity: int, q: nat)
    requires 5 in c.pityRules && 4 in c.pityRules
  {
    var five, four := pity.sinceFive + 1, pity.sinceFour + 1;
    if five >= c.pityRules[5].hardPity then rarity == 5 && q == p
    else
      && 5 in c.rarityRates
      && if Under(rng.uniform(seed, p), Chance(c, 5, five)) then rarity == 5 && q == p + 1
         else if four >= c.pityRules[4].hardPity then rarity == 4 && q == p + 1
         else
           && 4 in c.rarityRates && q == p + 2
           && rarity == if Under(rng.uniform(seed, p + 1), Chance(c, 4, four)) then 4 else 3
  }

  lemma DrawUnder(u: Unit, ppm: int)
    ensures Hits(u, ppm) <==> Under(u, ppm)
  {
    assert ppm as real / 1_000_000.0 * 1_000_000.0 == ppm as real;
  }

  lemma RateIsChance(c: BannerConfig, rarity: int, count: int)
    ensures RarityRatePpm(c, rarity, count)
         == if rarity in c.rarityRates then Ok(Chance(c, rarity, count)) else Err(MissingKey)
  {
  }

  /** The engine rolls a rarity exactly when the draws do, and fails only for missing rules. */
  lemma RarityFollowsDraws(c: BannerConfig, pity: PityState, rng: RandomSource, seed: string, p: nat, rarity: int,
                           q: nat)
    ensures RollRarityAt(c, pity, rng, seed, p) == Ok(Rolled(rarity, q)) <==>
            5 in c.pityRules && 4 in c.pityRules && Rolls(c, pity, rng, seed, p, rarity, q)
    ensures RollRarityAt(c, pity, rng, seed, p).Err? ==>
              && RollRarityAt(c, pity, rng, seed, p).error == MissingKey
              && (5 !in c.pityRules || 4 !in c.pityRules || 5 !in c.rarityRates || 4 !in c.rarityRates)
  {
    RateIsChance(c, 5, pity.sinceFive + 1);
    RateIsChance(c, 4, pity.sinceFour + 1);
    if 5 in c.rarityRates {
      DrawUnder(rng.uniform(seed, p), Chance(c, 5, pity.sinceFive + 1));
    }
    if 4 in c.rarityRates {
      DrawUnder(rng.uniform(seed, p + 1), Chance(c, 4, pity.sinceFour + 1));
    }
  }

  // ---- pools ------------------------------------------------------------------------------

  /** A pooled id of this rarity that is not excluded. */
  ghost predicate Qualifies(m: map<string, GachaItem>, rarity: int, excluded: set<string>, id: string)
  {
    id in m && m[id].rarity == rarity && id !in excluded
  }

  ghost function Qualifying(m: map<string, GachaItem>, rarity: int, excluded: set<string>): (keep: string -> bool)
  {
    id => Qualifies(m, rarity, excluded, id)
  }

  ghost function ItemNamed(m: map<string, GachaItem>): (value: string -> GachaItem)
  {
    id => if id in m then m[id] else GachaItem(id, 0)
  }

  ghost function QualifyingItem(rarity: int, excluded: set<string>): (keep: GachaItem -> bool)
  {
    (item: GachaItem) => item.rarity == rarity && item.id !in excluded
  }

  ghost function Itself(): (value: GachaItem -> GachaItem)
  {
    item => item
  }

  /** The pool lists, in their order, the items of all ids of the banner's pool that qualify; if
      none does, all items that do. */
  ghost predicate IsPool(c: BannerConfig, rarity: int, excluded: set<string>, pool: seq<GachaItem>)
  {
    if exists id :: id in c.banner.itemPool && Qualifies(c.itemById, rarity, excluded, id) then
      Sifts(c.banner.itemPool, Qualifying(c.itemById, rarity, excluded), ItemNamed(c.itemById), pool)
    else Sifts(c.allItems, QualifyingItem(rarity, excluded), Itself(), pool)
  }

  lemma {:induction false} ListedSifts(m: map<string, GachaItem>, rarity: int, excluded: set<string>, ids: seq<string>)
    ensures Sifts(ids, Qualifying(m, rarity, excluded), ItemNamed(m), Listed(m, rarity, excluded, ids))
  {
    if ids == [] {
      SiftsNothing(ids, Qualifying(m, rarity, excluded), ItemNamed(m));
    } else {
      ListedSifts(m, rarity, excluded, ids[1..]);
      SiftsHead(ids, Qualifying(m, rarity, excluded), ItemNamed(m), Listed(m, rarity, excluded, ids[1..]));
    }
  }

  lemma {:induction false} ListedNothing(m: map<string, GachaItem>, rarity: int, excluded: set<string>,
                                         ids: seq<string>)
    ensures Listed(m, rarity, excluded, ids) == [] <==>
              forall id :: id in ids ==> !Qualifies(m, rarity, excluded, id)
  {
    if ids != [] {
      ListedNothing(m, rarity, excluded, ids[1..]);
      assert ids[0] in ids && (Listed(m, rarity, excluded, ids) == [] ==> !Qualifies(m, rarity, excluded, ids[0]));
      assert forall id :: id in ids <==> id == ids[0] || id in ids[1..];
    }
  }

  lemma {:induction false} OfRaritySifts(items: seq<GachaItem>, rarity: int, excluded: set<string>)
    ensures Sifts(items, QualifyingItem(rarity, excluded), Itself(), OfRarity(items, rarity, excluded))
  {
    if items == [] {
      SiftsNothing(items, QualifyingItem(rarity, excluded), Itself());
    } else {
      OfRaritySifts(items[1..], rarity, excluded);
      SiftsHead(items, QualifyingItem(rarity, excluded), Itself(), OfRarity(items[1..], rarity, excluded));
    }
  }

  lemma PoolSifts(c: BannerConfig, rarity: int, excluded: set<string>)
    ensures IsPool(c, rarity, excluded, c.PoolForRarity(rarity, excluded))
  {
    ListedSifts(c.itemById, rarity, excluded, c.banner.itemPool);
    ListedNothing(c.itemById, rarity, excluded, c.banner.itemPool);
    OfRaritySifts(c.allItems, rarity, excluded);
  }

  // ---- items ------------------------------------------------------------------------------

  /** One of n, as `randrange` draws it at this position. */
  ghost predicate DrawsIndex(rng: RandomSource, seed: string, p: nat, n: nat, k: nat, end: nat)
  {
    n > 0 && k == rng.below(seed, p, n) % n && end == p + 1 + rng.extra(seed, p, n)
  }

  ghost predicate PicksFeatured(c: BannerConfig, ids: seq<string>, rng: RandomSource, seed: string, p: nat,
                                item: GachaItem, end: nat)
  {
    && (forall id :: id in ids ==> id in c.itemById)
    && exists k :: 0 <= k < |ids| && DrawsIndex(rng, seed, p, |ids|, k, end) && item == c.itemById[ids[k]]
  }

  ghost predicate PicksPooled(c: BannerConfig, rarity: int, excluded: set<string>, rng: RandomSource, seed: string,
                              p: nat, item: GachaItem, end: nat)
  {
    exists pool, k ::
      && IsPool(c, rarity, excluded, pool)
      && 0 <= k < |pool| && DrawsIndex(rng, seed, p, |pool|, k, end) && item == pool[k]
  }

  /** The guarantee the rule reads from the pity state. */
  ghost predicate Guaranteed(pity: PityState, rule: FeaturedRule)
  {
    || (rule.guaranteeStateKey == Some("guaranteed_featured_five") && pity.guaranteedFeaturedFive)
    || (rule.guaranteeStateKey == Some("since_five") && pity.sinceFive > 0)
    || (rule.guaranteeStateKey == Some("since_four") && pity.sinceFour > 0)
  }

  /** The rarity has a featured rule and something to feature. */
  ghost predicate Ruled(c: BannerConfig, rarity: int)
  {
    rarity in c.featuredItemIdsByRarity && c.featuredItemIdsByRarity[rarity] != [] && rarity in c.featuredRules
  }

  /** With a rule and featured ids for the rarity, a guarantee or a draw under the featured rate
      picks a featured one; a draw above picks from the pool, without the featured ones if a miss
      sets the guarantee.  Without them the whole pool is picked from. */
  ghost predicate Picks(c: BannerConfig, rarity: int, pity: PityState, rng: RandomSource, seed: string, q: nat,
                        item: GachaItem, end: nat)
  {
    if !Ruled(c, rarity) then PicksPooled(c, rarity, {}, rng, seed, q, item, end)
    else
      var ids, rule := c.featuredItemIdsByRarity[rarity], c.featuredRules[rarity];
      if Guaranteed(pity, rule) then PicksFeatured(c, ids, rng, seed, q, item, end)
      else if Under(rng.uniform(seed, q), rule.featuredRatePpm) then
        PicksFeatured(c, ids, rng, seed, q + 1, item, end)
      else
        PicksPooled(c, rarity, if rule.missSetsGuarantee then (set id | id in ids) else {}, rng, seed, q + 1, item, end)
  }

  lemma {:induction false} LookedUpInOrder(itemById: map<string, GachaItem>, ids: seq<string>)
    ensures LookUpAll(itemById, ids).Ok? <==> forall id :: id in ids ==> id in itemById
    ensures LookUpAll(itemById, ids).Ok? ==>
              && |LookUpAll(itemById, ids).value| == |ids|
              && forall k :: 0 <= k < |ids| ==>
                   ids[k] in itemById && LookUpAll(itemById, ids).value[k] == itemById[ids[k]]
    ensures LookUpAll(itemById, ids).Err? ==> LookUpAll(itemById, ids).error == MissingKey
  {
    if ids != [] {
      LookedUpInOrder(itemById, ids[1..]);
      assert forall id :: id in ids <==> id == ids[0] || id in ids[1..];
    }
  }

  lemma PoolIsPicked(c: BannerConfig, rarity: int, excluded: set<string>, rng: RandomSource, seed: string, p: nat)
    ensures var r := PickAt(c.PoolForRarity(rarity, excluded), rng, seed, p);
            if r.Ok? then PicksPooled(c, rarity, excluded, rng, seed, p, r.value.value, r.value.position)
            else r.error == EmptyPool && IsPool(c, rarity, excluded, [])
  {
    PoolSifts(c, rarity, excluded);
    var pool := c.PoolForRarity(rarity, excluded);
    if pool != [] {
      var k := rng.below(seed, p, |pool|) % |pool|;
      assert DrawsIndex(rng, seed, p, |pool|, k, p + 1 + rng.extra(seed, p, |pool|));
    }
  }

  lemma FeaturedIsPicked(c: BannerConfig, ids: seq<string>, rng: RandomSource, seed: string, p: nat)
    requires ids != []
    ensures LookUpAll(c.itemById, ids).Err? ==>
              LookUpAll(c.itemById, ids).error == MissingKey && exists id :: id in ids && id !in c.itemById
    ensures LookUpAll(c.itemById, ids).Ok? ==>
              var r := PickAt(LookUpAll(c.itemById, ids).value, rng, seed, p);
              r.Ok? && PicksFeatured(c, ids, rng, seed, p, r.value.value, r.value.position)
  {
    LookedUpInOrder(c.itemById, ids);
    if LookUpAll(c.itemById, ids).Ok? {
      var k := rng.below(seed, p, |ids|) % |ids|;
      assert DrawsIndex(rng, seed, p, |ids|, k, p + 1 + rng.extra(seed, p, |ids|));
    }
  }

  lemma HitRolls(c: BannerConfig, rarity: int, pity: PityState, rng: RandomSource, seed: string, q: nat)
    requires Ruled(c, rarity)
    requires Guaranteed(pity, c.featuredRules[rarity])
             || Under(rng.uniform(seed, q), c.featuredRules[rarity].featuredRatePpm)
    ensures var r := RollItemAt(c, rarity, pity, rng, seed, q);
            if r.Ok? then Picks(c, rarity, pity, rng, seed, q, r.value.value, r.value.position)
            else r.error.MissingKey? && exists id :: id in c.FeaturedIds(rarity) && id !in c.itemById
  {
    var rule := c.featuredRules[rarity];
    DrawUnder(rng.uniform(seed, q), rule.featuredRatePpm);
    FeaturedIsPicked(c, c.FeaturedIds(rarity), rng, seed, if Guaranteed(pity, rule) then q else q + 1);
  }

  lemma MissRolls(c: BannerConfig, rarity: int, pity: PityState, rng: RandomSource, seed: string, q: nat)
    requires Ruled(c, rarity) && !Guaranteed(pity, c.featuredRules[rarity])
    requires !Under(rng.uniform(seed, q), c.featuredRules[rarity].featuredRatePpm)
    ensures var r := RollItemAt(c, rarity, pity, rng, seed, q);
            if r.Ok? then Picks(c, rarity, pity, rng, seed, q, r.value.value, r.value.position)
            else r.error.EmptyPool? && exists excluded :: IsPool(c, rarity, excluded, [])
  {
    var ids, rule := c.FeaturedIds(rarity), c.featuredRules[rarity];
    DrawUnder(rng.uniform(seed, q), rule.featuredRatePpm);
    PoolIsPicked(c, rarity, if rule.missSetsGuarantee then (set id | id in ids) else {}, rng, seed, q + 1);
  }

  /** The item the engine rolls is the one the draws pick; it fails only on a featured id without
      an item or on an empty pool. */
  lemma ItemFollowsDraws(c: BannerConfig, rarity: int, pity: PityState, rng: RandomSource, seed: string, q: nat)
    ensures var r := RollItemAt(c, rarity, pity, rng, seed, q);
            if r.Ok? then Picks(c, rarity, pity, rng, seed, q, r.value.value, r.value.position)
            else if r.error.MissingKey? then exists id :: id in c.FeaturedIds(rarity) && id !in c.itemById
            else exists excluded :: IsPool(c, rarity, excluded, [])
  {
    if !Ruled(c, rarity) {
      PoolIsPicked(c, rarity, {}, rng, seed, q);
    } else if Guaranteed(pity, c.featuredRules[rarity])
              || Under(rng.uniform(seed, q), c.featuredRules[rarity].featuredRatePpm) {
      HitRolls(c, rarity, pity, rng, seed, q);
    } else {
      MissRolls(c, rarity, pity, rng, seed, q);
    }
  }

  // ---- batches ----------------------------------------------------------------------------

  /** What one pull of a batch drew: the pity before it, its rarity from position `start` to
      `rolled`, its item from there to `end`. */
  datatype Draw = Draw(pity: PityState, start: nat, rarity: int, rolled: nat, item: GachaItem, end: nat)

  ghost predicate Drawn(c: BannerConfig, rng: RandomSource, seed: string, d: Draw)
  {
    && 5 in c.pityRules && 4 in c.pityRules
    && Rolls(c, d.pity, rng, seed, d.start, d.rarity, d.rolled)
    && Picks(c, d.rarity, d.pity, rng, seed, d.rolled, d.item, d.end)
  }

  /** The record of pull `index` tells its draw: nothing in it comes from anywhere else. */
  ghost predicate Tells(c: BannerConfig, seed: string, index: nat, d: Draw, record: PullRecord)
  {
    && record.index == index && record.rarity == d.rarity && record.itemId == d.item.id
    && record.bannerId == c.banner.id
    && record.pityAtFive == d.pity.sinceFive + 1 && record.pityAtFour == d.pity.sinceFour + 1
    && record.id == RecordId(seed, index, c.banner.id, d.item.id, record.pityAtFive, record.pityAtFour)
    && (record.isFeatured <==>
          d.item.rarity in c.featuredItemIdsByRarity && d.item.id in c.featuredItemIdsByRarity[d.item.rarity])
  }

  /** The draws of a batch follow each other on one stream from its first position. */
  ghost predicate OneStream(draws: seq<Draw>, start: nat)
  {
    && (draws != [] ==> draws[0].start == start)
    && (forall i, j :: 0 <= i < |draws| && j == i + 1 < |draws| ==> draws[j].start == draws[i].end)
  }

  type Telling = (nat, Draw, PullRecord) -> bool

  /** The record tells a draw of this configuration from this seed's stream. */
  ghost function Told(c: BannerConfig, rng: RandomSource, seed: string): (told: Telling)
  {
    (index: nat, d: Draw, record: PullRecord) => Drawn(c, rng, seed, d) && Tells(c, seed, index, d, record)
  }

  ghost predicate Reads(told: Telling, index: nat, draws: seq<Draw>, records: seq<PullRecord>)
  {
    |draws| == |records| && forall i :: 0 <= i < |draws| ==> told(index + i, draws[i], records[i])
  }

  /** The pulls of a history start from the pities of the draws. */
  ghost predicate StartsAs(h: seq<Pull>, draws: seq<Draw>)
  {
    |h| == |draws| && forall i :: 0 <= i < |h| ==> h[i].before == draws[i].pity
  }

  /** The pull the engine makes here is told by some draw. */
  ghost predicate PullIsTold(told: Telling, index: nat, pity: PityState, p: nat, pulled: Rolled<Pulled>)
  {
    exists d :: told(index, d, pulled.value.record) && d.pity == pity && d.start == p && d.end == pulled.position
  }

  ghost predicate EveryPullIsTold(told: Telling, c: BannerConfig, rng: RandomSource, seed: string)
  {
    forall index, pity, p {:trigger PullOnceAt(c, rng, seed, index, pity, p)} ::
      PullOnceAt(c, rng, seed, index, pity, p).Ok? ==>
        PullIsTold(told, index, pity, p, PullOnceAt(c, rng, seed, index, pity, p).value)
  }

  lemma ReadsOneMore(told: Telling, index: nat, d: Draw, record: PullRecord, draws: seq<Draw>,
                     records: seq<PullRecord>)
    requires told(index, d, record) && Reads(told, index + 1, draws, records) && OneStream(draws, d.end)
    ensures Reads(told, index, [d] + draws, [record] + records) && OneStream([d] + draws, d.start)
  {
    forall i | 0 <= i < |[d] + draws|
      ensures told(index + i, ([d] + draws)[i], ([record] + records)[i])
    {
      if i > 0 {
        assert told(index + 1 + (i - 1), draws[i - 1], records[i - 1]);
      }
    }
  }

  lemma {:induction false} BatchIsRead(told: Telling, c: BannerConfig, rng: RandomSource, seed: string, index: nat,
                                       count: int, pity: PityState, p: nat)
    returns (draws: seq<Draw>, h: seq<Pull>)
    requires EveryPullIsTold(told, c, rng, seed) && PullsAt(c, rng, seed, index, count, pity, p).Ok?
    ensures var batch := PullsAt(c, rng, seed, index, count, pity, p).value;
            && Reads(told, index, draws, batch.records) && OneStream(draws, p)
            && Legal(h) && Spans(h, pity, batch.pity) && Records(h) == batch.records && StartsAs(h, draws)
            && forall i :: 0 <= i < |h| ==> h[i].config == c
    decreases count - index
  {
    if index >= count {
      draws, h := [], [];
    } else {
      var pulled := PullOnceAt(c, rng, seed, index, pity, p).value;
      assert PullIsTold(told, index, pity, p, pulled);
      var first :| told(index, first, pulled.value.record) && first.pity == pity && first.start == p
                   && first.end == pulled.position;
      var rest, later := BatchIsRead(told, c, rng, seed, index + 1, count, pulled.value.pity, pulled.position);
      var batch := PullsAt(c, rng, seed, index + 1, count, pulled.value.pity, pulled.position).value;
      ReadsOneMore(told, index, first, pulled.value.record, rest, batch.records);
      PullOnceIsLegal(c, rng, seed, index, pity, p);
      var pull := Pull(c, pity, pulled.value.record, pulled.value.pity);
      Joined([pull], later, pity, pulled.value.pity, batch.pity);
      draws, h := [first] + rest, [pull] + later;
    }
  }

  lemma PullFollowsDraws(c: BannerConfig, rng: RandomSource, seed: string, index: nat, pity: PityState, p: nat)
    requires PullOnceAt(c, rng, seed, index, pity, p).Ok?
    ensures PullIsTold(Told(c, rng, seed), index, pity, p, PullOnceAt(c, rng, seed, index, pity, p).value)
  {
    var rarity := RollRarityAt(c, pity, rng, seed, p).value;
    var item := RollItemAt(c, rarity.value, pity, rng, seed, rarity.position).value;
    RarityFollowsDraws(c, pity, rng, seed, p, rarity.value, rarity.position);
    ItemFollowsDraws(c, rarity.value, pity, rng, seed, rarity.position);
    var d := Draw(pity, p, rarity.value, rarity.position, item.value, item.position);
    assert Drawn(c, rng, seed, d);
    assert Tells(c, seed, index, d, PullOnceAt(c, rng, seed, index, pity, p).value.value.record);
    assert Told(c, rng, seed)(index, d, PullOnceAt(c, rng, seed, index, pity, p).value.value.record);
  }

  lemma EngineTells(c: BannerConfig, rng: RandomSource, seed: string)
    ensures EveryPullIsTold(Told(c, rng, seed), c, rng, seed)
  {
    forall index: nat, pity, p: nat | PullOnceAt(c, rng, seed, index, pity, p).Ok?
      ensures PullIsTold(Told(c, rng, seed), index, pity, p, PullOnceAt(c, rng, seed, index, pity, p).value)
    {
      PullFollowsDraws(c, rng, seed, index, pity, p);
    }
  }

  lemma GuaranteeBefore(h: seq<Pull>, c: BannerConfig, i: nat)
    requires Legal(h) && i < |h| && forall j :: 0 <= j < |h| ==> h[j].config == c
    ensures h[i].before.guaranteedFeaturedFive
         == GuaranteeAfter(c, h[0].before.guaranteedFeaturedFive, Records(h)[..i])
  {
    assert Rarities(Records(h)[..i]) == Rarities(Records(h))[..i];
    if i > 0 {
      GuaranteeRestatesHistory(h, i);
      assert h[i].before == h[i - 1].after;
    }
  }

  /** The pity before each draw is what the records before it leave. */
  ghost predicate PitiesRestated(c: BannerConfig, pity: PityState, draws: seq<Draw>, records: seq<PullRecord>)
    requires |draws| == |records|
  {
    forall i :: 0 <= i < |draws| ==>
      && 5 in c.pityRules
      && draws[i].pity.sinceFive == PullsSince(pity.sinceFive, Rarities(records)[..i], {5})
      && draws[i].pity.sinceFour
         == PullsSince(pity.sinceFour, Rarities(records)[..i], FourMarks(c.pityRules[5].resetsLowerRarity))
      && draws[i].pity.guaranteedFeaturedFive == GuaranteeAfter(c, pity.guaranteedFeaturedFive, records[..i])
  }

  lemma HistoryRestatesPities(h: seq<Pull>, c: BannerConfig, draws: seq<Draw>, pity: PityState, end: PityState)
    requires Legal(h) && Spans(h, pity, end) && StartsAs(h, draws) && forall j :: 0 <= j < |h| ==> h[j].config == c
    ensures PitiesRestated(c, pity, draws, Records(h))
  {
    forall i | 0 <= i < |draws|
      ensures 5 in c.pityRules
      ensures draws[i].pity.sinceFive == PullsSince(pity.sinceFive, Rarities(Records(h))[..i], {5})
      ensures draws[i].pity.sinceFour
           == PullsSince(pity.sinceFour, Rarities(Records(h))[..i], FourMarks(c.pityRules[5].resetsLowerRarity))
      ensures draws[i].pity.guaranteedFeaturedFive
           == GuaranteeAfter(c, pity.guaranteedFeaturedFive, Records(h)[..i])
    {
      assert LegalPull(h[i]) && h[i].before == draws[i].pity;
      RecordCounters(h, c, i);
      GuaranteeBefore(h, c, i);
    }
  }

  /** A batch read off its seed's stream: pull by pull, the record tells a draw made under the
      counters and the guarantee that the records before it leave. */
  lemma PullsFollowDraws(rng: RandomSource, c: BannerConfig, count: int, pity: PityState, seed: string)
    returns (draws: seq<Draw>)
    requires Pulls(rng, c, count, pity, seed).Ok?
    ensures var records := Pulls(rng, c, count, pity, seed).value.records;
            && |records| == (if count > 0 then count else 0)
            && Reads(Told(c, rng, seed), 0, draws, records) && OneStream(draws, 0)
            && PitiesRestated(c, pity, draws, records)
  {
    EngineTells(c, rng, seed);
    var h;
    draws, h := BatchIsRead(Told(c, rng, seed), c, rng, seed, 0, count, pity, 0);
    EngineCounters(rng, c, count, pity, seed);
    HistoryRestatesPities(h, c, draws, pity, Pulls(rng, c, count, pity, seed).value.pity);
  }
}
