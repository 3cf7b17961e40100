/** What the pull rules guarantee over any history of pulls, whichever configurations the
    pulls used and however they were cut into batches: the counters restate the history, and
    hard pity and the featured guarantee bound every gap. */
module EngineRules {
  import opened Collections
  import opened CatalogConfig
  import opened Schemas
  import opened Engine

  /** One pull with the configuration it used and the pity around it. */
  datatype Pull = Pull(config: BannerConfig, before: PityState, record: PullRecord, after: PityState)

  /** The five-star rule of a configuration that promises a featured five-star after a miss. */
  ghost predicate PromisesFeatured(c: BannerConfig)
  {
    && 5 in c.featuredRules
    && c.featuredRules[5].missSetsGuarantee
    && c.featuredRules[5].guaranteeStateKey == Some("guaranteed_featured_five")
    && c.FeaturedIds(5) != []
    && forall id :: id in c.FeaturedIds(5) && id in c.itemById ==>
         c.itemById[id].id == id && c.itemById[id].rarity == 5
  }

  /** The chance of a rarity at a pity count, in parts per million: the base rate below the soft
      start and without one; from the soft start on one increment more at each count, up to
      certainty. */
  ghost function Chance(c: BannerConfig, rarity: int, count: int): (ppm: int)
    requires rarity in c.rarityRates
  {
    var base := c.rarityRates[rarity].baseRatePpm;
    var increments := if rarity in c.pityRules && c.pityRules[rarity].softPityStart.Some?
                         && count >= c.pityRules[rarity].softPityStart.value
                      then count - c.pityRules[rarity].softPityStart.value + 1 else 0;
    if increments == 0 then base
    else
      var sum := base + increments * c.pityRules[rarity].softPityIncrementPpm;
      if sum > 1_000_000 then 1_000_000 else sum
  }

  /** At this count no draw can miss the rarity: hard pity has come, or the chance is full. */
  ghost predicate SureAt(c: BannerConfig, rarity: int, count: int)
    requires rarity in c.pityRules
  {
    count >= c.pityRules[rarity].hardPity || (rarity in c.rarityRates && Chance(c, rarity, count) >= 1_000_000)
  }

  /** And at no later count either. */
  ghost predicate SureFrom(c: BannerConfig, rarity: int, count: int)
    requires rarity in c.pityRules
  {
    forall n :: n >= count ==> SureAt(c, rarity, n)
  }

  lemma HardPityIsSure(c: BannerConfig, rarity: int, count: int)
    requires rarity in c.pityRules && c.pityRules[rarity].hardPity <= count
    ensures SureFrom(c, rarity, count)
  {
  }

  /** Soft pity makes a rarity sure from the count on at which base rate and increments reach
      certainty, however far hard pity is. */
  lemma SoftPityIsSure(c: BannerConfig, rarity: int, count: int)
    requires rarity in c.pityRules && rarity in c.rarityRates
    requires var rule := c.pityRules[rarity];
             && rule.softPityStart.Some? && rule.softPityStart.value <= count && rule.softPityIncrementPpm >= 0
             && c.rarityRates[rarity].baseRatePpm
                + (count - rule.softPityStart.value + 1) * rule.softPityIncrementPpm >= 1_000_000
    ensures SureFrom(c, rarity, count)
  {
    var rule := c.pityRules[rarity];
    var start := rule.softPityStart.value;
    forall n | n >= count
      ensures SureAt(c, rarity, n)
    {
      MoreIncrements(count - start + 1, n - start + 1, rule.softPityIncrementPpm);
    }
  }

  lemma MoreIncrements(k: int, n: int, increment: int)
    requires k <= n && increment >= 0
    ensures k * increment <= n * increment
  {
    assert (n - k) * increment >= 0;
    assert n * increment == k * increment + (n - k) * increment;
  }

  /** What one pull does to the pity, and what the pity before it says about its record. */
  ghost predicate LegalPull(q: Pull)
  {
    && 5 in q.config.pityRules && 4 in q.config.pityRules
    && q.record.rarity in {3, 4, 5}
    && q.record.pityAtFive == q.before.sinceFive + 1
    && q.record.pityAtFour == q.before.sinceFour + 1
    && (q.record.rarity != 5 ==> !SureAt(q.config, 5, q.before.sinceFive + 1))
    && (q.record.rarity == 3 ==> !SureAt(q.config, 4, q.before.sinceFour + 1))
    && q.after.sinceFive == (if q.record.rarity == 5 then 0 else q.before.sinceFive + 1)
    && q.after.sinceFour == (if q.record.rarity in FourMarks(q.config.pityRules[5].resetsLowerRarity) then 0
                             else q.before.sinceFour + 1)
    && q.after.guaranteedFeaturedFive
       == (if q.record.rarity == 5 then MissedWithGuarantee(q) else q.before.guaranteedFeaturedFive)
    && (q.record.rarity == 5 && q.before.guaranteedFeaturedFive && PromisesFeatured(q.config)
        ==> q.record.isFeatured)
  }

  /** The item was not featured, and the five-star rule makes up for that. */
  ghost predicate MissedWithGuarantee(q: Pull)
  {
    5 in q.config.featuredRules && q.config.featuredRules[5].missSetsGuarantee && !q.record.isFeatured
  }

  /** The rarities that start the four-star counter again. */
  ghost function FourMarks(resetsLowerRarity: bool): (marks: set<int>)
  {
    if resetsLowerRarity then {4, 5} else {4}
  }

  /** A history of pulls, each starting from the pity the one before it left. */
  ghost predicate Legal(h: seq<Pull>)
  {
    && (forall i :: 0 <= i < |h| ==> LegalPull(h[i]))
    && (forall i, j :: 0 <= i < |h| && j == i + 1 < |h| ==> h[j].before == h[i].after)
  }

  ghost predicate Spans(h: seq<Pull>, start: PityState, end: PityState)
  {
    if h == [] then start == end else h[0].before == start && h[|h| - 1].after == end
  }

  ghost function Records(h: seq<Pull>): (rs: seq<PullRecord>)
  {
    seq(|h|, i requires 0 <= i < |h| => h[i].record)
  }

  ghost function Rarities(records: seq<PullRecord>): (rs: seq<int>)
  {
    seq(|records|, i requires 0 <= i < |records| => records[i].rarity)
  }

  // ---- the engine's batches are legal histories -------------------------------------------

  lemma {:induction false} LookedUpFrom(itemById: map<string, GachaItem>, ids: seq<string>, item: GachaItem)
    requires LookUpAll(itemById, ids).Ok? && item in LookUpAll(itemById, ids).value
    ensures exists id :: id in ids && id in itemById && itemById[id] == item
  {
    if item == itemById[ids[0]] {
      assert ids[0] in ids;
    } else {
      LookedUpFrom(itemById, ids[1..], item);
      var id :| id in ids[1..] && id in itemById && itemById[id] == item;
      assert id in ids;
    }
  }

  lemma GuaranteedIsFeatured(c: BannerConfig, pity: PityState, rng: RandomSource, seed: string, p: nat)
    requires PromisesFeatured(c) && pity.guaranteedFeaturedFive
    requires RollItemAt(c, 5, pity, rng, seed, p).Ok?
    ensures IsFeaturedItem(c, RollItemAt(c, 5, pity, rng, seed, p).value.value)
  {
    var item := RollItemAt(c, 5, pity, rng, seed, p).value.value;
    var items := LookUpAll(c.itemById, c.FeaturedIds(5)).value;
    assert item in items;
    LookedUpFrom(c.itemById, c.FeaturedIds(5), item);
  }

  lemma PullOnceIsLegal(c: BannerConfig, rng: RandomSource, seed: string, index: nat, pity: PityState, p: nat)
    requires PullOnceAt(c, rng, seed, index, pity, p).Ok?
    ensures var q := PullOnceAt(c, rng, seed, index, pity, p).value.value;
            LegalPull(Pull(c, pity, q.record, q.pity))
  {
    var rarity := RollRarityAt(c, pity, rng, seed, p).value;
    if rarity.value == 5 && pity.guaranteedFeaturedFive && PromisesFeatured(c) {
      GuaranteedIsFeatured(c, pity, rng, seed, rarity.position);
    }
  }

  lemma Joined(h: seq<Pull>, h': seq<Pull>, start: PityState, mid: PityState, end: PityState)
    requires Legal(h) && Spans(h, start, mid) && Legal(h') && Spans(h', mid, end)
    ensures Legal(h + h') && Spans(h + h', start, end) && Records(h + h') == Records(h) + Records(h')
  {
    var g := h + h';
    forall i, j | 0 <= i < |g| && j == i + 1 < |g|
      ensures g[j].before == g[i].after
    {
      if i == |h| - 1 {
        assert g[i] == h[i] && g[j] == h'[0];
      }
    }
  }

  /** Every batch the engine returns is a legal history from the pity it was given to the pity
      it returns, of exactly the requested length. */
  lemma {:induction false} BatchIsLegal(c: BannerConfig, rng: RandomSource, seed: string, index: nat,
                                        count: int, pity: PityState, p: nat)
    returns (h: seq<Pull>)
    requires PullsAt(c, rng, seed, index, count, pity, p).Ok?
    ensures Legal(h) && Spans(h, pity, PullsAt(c, rng, seed, index, count, pity, p).value.pity)
    ensures Records(h) == PullsAt(c, rng, seed, index, count, pity, p).value.records
    ensures |h| == if index < count then count - index else 0
    ensures forall i :: 0 <= i < |h| ==> h[i].config == c
    decreases count - index
  {
    if index >= count {
      h := [];
    } else {
      var pulled := PullOnceAt(c, rng, seed, index, pity, p).value;
      PullOnceIsLegal(c, rng, seed, index, pity, p);
      var rest := BatchIsLegal(c, rng, seed, index + 1, count, pulled.value.pity, pulled.position);
      var first := Pull(c, pity, pulled.value.record, pulled.value.pity);
      Joined([first], rest, pity, pulled.value.pity,
             PullsAt(c, rng, seed, index + 1, count, pulled.value.pity, pulled.position).value.pity);
      h := [first] + rest;
    }
  }

  // ---- when the engine answers ------------------------------------------------------------

  /** Rates and pity rules for five- and four-stars, featured items that exist, and something to
      pick for every rarity on a hit and on a miss. */
  ghost predicate Servable(c: BannerConfig)
  {
    && 5 in c.pityRules && 4 in c.pityRules && 5 in c.rarityRates && 4 in c.rarityRates
    && forall rarity :: rarity in {3, 4, 5} ==> ServableRarity(c, rarity)
  }

  ghost predicate ServableRarity(c: BannerConfig, rarity: int)
  {
    var ids := c.FeaturedIds(rarity);
    if ids == [] || rarity !in c.featuredRules then c.PoolForRarity(rarity, {}) != []
    else
      && (forall id :: id in ids ==> id in c.itemById)
      && c.PoolForRarity(rarity, if c.featuredRules[rarity].missSetsGuarantee then (set id | id in ids) else {}) != []
  }

  lemma {:induction false} LookUpSucceeds(itemById: map<string, GachaItem>, ids: seq<string>)
    requires forall id :: id in ids ==> id in itemById
    ensures LookUpAll(itemById, ids).Ok? && |LookUpAll(itemById, ids).value| == |ids|
  {
    if ids != [] {
      LookUpSucceeds(itemById, ids[1..]);
    }
  }

  lemma ServableOnce(c: BannerConfig, rng: RandomSource, seed: string, index: nat, pity: PityState, p: nat)
    requires Servable(c)
    ensures PullOnceAt(c, rng, seed, index, pity, p).Ok?
  {
    var rarity := RollRarityAt(c, pity, rng, seed, p).value.value;
    assert ServableRarity(c, rarity);
    if c.FeaturedIds(rarity) != [] && rarity in c.featuredRules {
      LookUpSucceeds(c.itemById, c.FeaturedIds(rarity));
    }
  }

  /** On a servable configuration the engine answers, whatever the pity, the seed and the count. */
  lemma {:induction false} ServablePullsSucceed(c: BannerConfig, rng: RandomSource, seed: string, index: nat,
                                                count: int, pity: PityState, p: nat)
    requires Servable(c)
    ensures PullsAt(c, rng, seed, index, count, pity, p).Ok?
    decreases count - index
  {
    if index < count {
      ServableOnce(c, rng, seed, index, pity, p);
      var pulled := PullOnceAt(c, rng, seed, index, pity, p).value;
      ServablePullsSucceed(c, rng, seed, index + 1, count, pulled.value.pity, pulled.position);
    }
  }

  // ---- hard and soft pity -----------------------------------------------------------------

  lemma {:induction false} FiveDrought(h: seq<Pull>, i: nat, n: nat)
    requires Legal(h) && i + n <= |h|
    requires forall j :: i <= j < i + n ==> h[j].record.rarity != 5
    ensures n > 0 ==> h[i + n - 1].after.sinceFive >= n
  {
    if n > 1 {
      FiveDrought(h, i, n - 1);
      assert h[i + n - 1].before == h[i + n - 2].after;
    }
  }

  /** If under every configuration used a five-star is sure from count `hard` on, by hard or by
      soft pity, every `hard` consecutive pulls contain a five-star. */
  lemma FiveStarWindow(h: seq<Pull>, hard: int, i: nat)
    requires Legal(h) && hard >= 1 && i + hard <= |h|
    requires forall j :: 0 <= j < |h| ==> SureFrom(h[j].config, 5, hard)
    ensures exists j :: i <= j < i + hard && h[j].record.rarity == 5
  {
    if forall j :: i <= j < i + hard ==> h[j].record.rarity != 5 {
      FiveDrought(h, i, hard);
      assert false;
    }
  }

  lemma {:induction false} ThreeRun(h: seq<Pull>, i: nat, n: nat)
    requires Legal(h) && i + n <= |h|
    requires forall j :: i <= j < i + n ==> h[j].record.rarity == 3
    ensures n > 0 ==> h[i + n - 1].after.sinceFour >= n
  {
    if n > 1 {
      ThreeRun(h, i, n - 1);
      assert h[i + n - 1].before == h[i + n - 2].after;
    }
  }

  /** Every `hard` consecutive pulls contain something better than a three-star, when under every
      configuration used a four-star is sure from count `hard` on. */
  lemma FourStarWindow(h: seq<Pull>, hard: int, i: nat)
    requires Legal(h) && hard >= 1 && i + hard <= |h|
    requires forall j :: 0 <= j < |h| ==> SureFrom(h[j].config, 4, hard)
    ensures exists j :: i <= j < i + hard && h[j].record.rarity != 3
  {
    if forall j :: i <= j < i + hard ==> h[j].record.rarity == 3 {
      ThreeRun(h, i, hard);
      assert false;
    }
  }

  // ---- the featured guarantee -------------------------------------------------------------

  ghost predicate FeaturedFive(record: PullRecord)
  {
    record.rarity == 5 && record.isFeatured
  }

  /** How many more pulls a featured five-star can at most be away. */
  ghost function Countdown(hard: int, pity: PityState): (d: int)
  {
    (hard - pity.sinceFive) + (if pity.guaranteedFeaturedFive then 0 else hard)
  }

  ghost predicate Promising(q: Pull, hard: int)
    requires 5 in q.config.pityRules
  {
    PromisesFeatured(q.config) && SureFrom(q.config, 5, hard)
  }

  /** Every pull that is not a featured five-star brings it closer, and none overruns. */
  lemma CountdownFalls(q: Pull, hard: int)
    requires LegalPull(q) && Promising(q, hard) && q.before.sinceFive < hard
    ensures q.after.sinceFive < hard
    ensures !FeaturedFive(q.record) ==> 1 <= Countdown(hard, q.after) <= Countdown(hard, q.before) - 1
  {
  }

  lemma {:induction false} FeaturedDrought(h: seq<Pull>, hard: int, i: nat, n: nat)
    requires Legal(h) && 0 < n && i + n <= |h|
    requires forall j :: 0 <= j < |h| ==> Promising(h[j], hard)
    requires h[i].before.sinceFive < hard
    requires forall j :: i <= j < i + n ==> !FeaturedFive(h[j].record)
    ensures 1 <= Countdown(hard, h[i + n - 1].after) <= Countdown(hard, h[i].before) - n
    ensures h[i + n - 1].after.sinceFive < hard
  {
    if n > 1 {
      FeaturedDrought(h, hard, i, n - 1);
      assert h[i + n - 1].before == h[i + n - 2].after;
    }
    CountdownFalls(h[i + n - 1], hard);
  }

  /** From any pity below hard pity, a featured five-star arrives within the countdown. */
  lemma FeaturedWithinCountdown(h: seq<Pull>, hard: int, i: nat)
    requires Legal(h) && i < |h|
    requires forall j :: 0 <= j < |h| ==> Promising(h[j], hard)
    requires h[i].before.sinceFive < hard
    requires i + Countdown(hard, h[i].before) <= |h|
    ensures exists j :: i <= j < i + Countdown(hard, h[i].before) && FeaturedFive(h[j].record)
  {
    var n := Countdown(hard, h[i].before);
    if forall j :: i <= j < i + n ==> !FeaturedFive(h[j].record) {
      FeaturedDrought(h, hard, i, n);
      assert false;
    }
  }

  lemma {:induction false} BelowHardPity(h: seq<Pull>, hard: int, i: nat)
    requires Legal(h) && i < |h| && h[0].before.sinceFive < hard
    requires forall j :: 0 <= j < |h| ==> SureFrom(h[j].config, 5, hard)
    ensures h[i].before.sinceFive < hard
  {
    if i > 0 {
      BelowHardPity(h, hard, i - 1);
      assert h[i].before == h[i - 1].after;
    }
  }

  /** In a history that starts below hard pity, every `2 * hard` consecutive pulls contain a
      featured five-star. */
  lemma FeaturedWindow(h: seq<Pull>, hard: int, i: nat)
    requires Legal(h) && hard >= 1 && i + 2 * hard <= |h|
    requires forall j :: 0 <= j < |h| ==> Promising(h[j], hard)
    requires h[0].before.sinceFive < hard
    ensures exists j :: i <= j < i + 2 * hard && FeaturedFive(h[j].record)
  {
    BelowHardPity(h, hard, i);
    FeaturedWithinCountdown(h, hard, i);
  }

  // ---- the counters restate the history ---------------------------------------------------

  /** The last position whose rarity is among `marks`, or -1. */
  ghost function LastAmong(rs: seq<int>, marks: set<int>): (k: int)
    ensures -1 <= k < |rs|
    ensures k >= 0 ==> rs[k] in marks
    ensures forall j :: k < j < |rs| ==> rs[j] !in marks
  {
    if rs == [] then -1
    else if rs[|rs| - 1] in marks then |rs| - 1
    else LastAmong(rs[..|rs| - 1], marks)
  }

  /** The pulls since the last one among `marks`, continuing from a starting count. */
  ghost function PullsSince(start: nat, rs: seq<int>, marks: set<int>): (n: nat)
  {
    var k := LastAmong(rs, marks);
    if k == -1 then start + |rs| else |rs| - 1 - k
  }

  lemma PullsSinceStep(start: nat, rs: seq<int>, r: int, marks: set<int>)
    ensures PullsSince(start, rs + [r], marks) == if r in marks then 0 else PullsSince(start, rs, marks) + 1
  {
    assert (rs + [r])[..|rs|] == rs;
  }

  /** After any number of pulls of one configuration, both counters are closed forms of the
      starting counters and the rarities pulled so far. */
  lemma CountersRestateHistory(h: seq<Pull>, c: BannerConfig, n: nat)
    requires Legal(h) && 0 < n <= |h|
    requires forall j :: 0 <= j < |h| ==> h[j].config == c
    ensures h[n - 1].after.sinceFive == PullsSince(h[0].before.sinceFive, Rarities(Records(h))[..n], {5})
    ensures h[n - 1].after.sinceFour
         == PullsSince(h[0].before.sinceFour, Rarities(Records(h))[..n], FourMarks(c.pityRules[5].resetsLowerRarity))
  {
    FiveCounterRestatesHistory(h, n);
    FourCounterRestatesHistory(h, c.pityRules[5].resetsLowerRarity, n);
  }

  /** Whatever configurations the pulls used, as long as five-stars reset the four-star counter under
      all of them or under none, it counts the pulls since the last four-star, or since the last of
      either. */
  lemma {:induction false} FourCounterRestatesHistory(h: seq<Pull>, resets: bool, n: nat)
    requires Legal(h) && 0 < n <= |h|
    requires forall j :: 0 <= j < |h| ==> h[j].config.pityRules[5].resetsLowerRarity == resets
    ensures h[n - 1].after.sinceFour
         == PullsSince(h[0].before.sinceFour, Rarities(Records(h))[..n], FourMarks(resets))
  {
    var rs := Rarities(Records(h));
    assert rs[..n] == rs[..n - 1] + [rs[n - 1]];
    PullsSinceStep(h[0].before.sinceFour, rs[..n - 1], rs[n - 1], FourMarks(resets));
    if n > 1 {
      FourCounterRestatesHistory(h, resets, n - 1);
      assert h[n - 1].before == h[n - 2].after;
    } else {
      assert rs[..0] == [];
    }
  }

  /** Whatever configurations the pulls used, the five-star counter counts the pulls since the
      last five-star. */
  lemma {:induction false} FiveCounterRestatesHistory(h: seq<Pull>, n: nat)
    requires Legal(h) && 0 < n <= |h|
    ensures h[n - 1].after.sinceFive == PullsSince(h[0].before.sinceFive, Rarities(Records(h))[..n], {5})
  {
    var rs := Rarities(Records(h));
    assert rs[..n] == rs[..n - 1] + [rs[n - 1]];
    PullsSinceStep(h[0].before.sinceFive, rs[..n - 1], rs[n - 1], {5});
    if n > 1 {
      FiveCounterRestatesHistory(h, n - 1);
      assert h[n - 1].before == h[n - 2].after;
    } else {
      assert rs[..0] == [];
    }
  }

  /** Whatever configurations the pulls used, the guarantee is what the last five-star left: set if
      it was not featured and its configuration makes up for that; before any it is unchanged. */
  lemma {:induction false} GuaranteeRestatesHistory(h: seq<Pull>, n: nat)
    requires Legal(h) && 0 < n <= |h|
    ensures var k := LastAmong(Rarities(Records(h))[..n], {5});
            h[n - 1].after.guaranteedFeaturedFive
            == if k == -1 then h[0].before.guaranteedFeaturedFive else MissedWithGuarantee(h[k])
  {
    var rs := Rarities(Records(h));
    assert rs[..n][..n - 1] == rs[..n - 1] && rs[n - 1] == h[n - 1].record.rarity;
    if n > 1 {
      GuaranteeRestatesHistory(h, n - 1);
      assert h[n - 1].before == h[n - 2].after;
    } else {
      assert rs[..0] == [];
    }
  }

  /** The guarantee that records of one configuration leave: what the last five-star left, or what
      there was before if there is none. */
  ghost function GuaranteeAfter(c: BannerConfig, start: bool, records: seq<PullRecord>): (guarantee: bool)
  {
    var k := LastAmong(Rarities(records), {5});
    if k == -1 then start
    else 5 in c.featuredRules && c.featuredRules[5].missSetsGuarantee && !records[k].isFeatured
  }

  /** The guarantee the engine returns, from the one it was given and the records alone. */
  lemma EngineGuarantee(rng: RandomSource, c: BannerConfig, count: int, pity: PityState, seed: string)
    requires Pulls(rng, c, count, pity, seed).Ok?
    ensures var batch := Pulls(rng, c, count, pity, seed).value;
            batch.pity.guaranteedFeaturedFive == GuaranteeAfter(c, pity.guaranteedFeaturedFive, batch.records)
  {
    var h := BatchIsLegal(c, rng, seed, 0, count, pity, 0);
    if h != [] {
      GuaranteeRestatesHistory(h, |h|);
      var rs := Rarities(Records(h));
      assert rs[..|h|] == rs;
      var k := LastAmong(rs, {5});
      assert k >= 0 ==> Records(h)[k] == h[k].record;
    }
  }

  /** The engine's final pity and the pity shown on each record, from the rarities alone. */
  lemma EngineCounters(rng: RandomSource, c: BannerConfig, count: int, pity: PityState, seed: string)
    requires Pulls(rng, c, count, pity, seed).Ok?
    ensures var batch := Pulls(rng, c, count, pity, seed).value;
            var rs := Rarities(batch.records);
            var marks := if 5 in c.pityRules then FourMarks(c.pityRules[5].resetsLowerRarity) else {};
            && |batch.records| == (if count > 0 then count else 0)
            && batch.pity.sinceFive == PullsSince(pity.sinceFive, rs, {5})
            && batch.pity.sinceFour == PullsSince(pity.sinceFour, rs, marks)
            && (forall i :: 0 <= i < |rs| ==>
                  batch.records[i].pityAtFive == PullsSince(pity.sinceFive, rs[..i], {5}) + 1)
            && (forall i :: 0 <= i < |rs| ==>
                  batch.records[i].pityAtFour == PullsSince(pity.sinceFour, rs[..i], marks) + 1)
  {
    var batch := Pulls(rng, c, count, pity, seed).value;
    var h := BatchIsLegal(c, rng, seed, 0, count, pity, 0);
    if h != [] {
      CountersRestateHistory(h, c, |h|);
      assert Rarities(batch.records)[..|h|] == Rarities(batch.records);
      forall i | 0 <= i < |h|
        ensures batch.records[i] == h[i].record
        ensures h[i].record.pityAtFive == PullsSince(pity.sinceFive, Rarities(batch.records)[..i], {5}) + 1
        ensures h[i].record.pityAtFour
             == PullsSince(pity.sinceFour, Rarities(batch.records)[..i],
                           FourMarks(c.pityRules[5].resetsLowerRarity)) + 1
      {
        RecordCounters(h, c, i);
        assert Records(h)[i] == h[i].record;
      }
    }
  }

  /** Each record shows the counters the rarities before it leave, plus one. */
  lemma RecordCounters(h: seq<Pull>, c: BannerConfig, i: nat)
    requires Legal(h) && i < |h|
    requires forall j :: 0 <= j < |h| ==> h[j].config == c
    ensures var rs := Rarities(Records(h));
            && h[i].record.pityAtFive == PullsSince(h[0].before.sinceFive, rs[..i], {5}) + 1
            && h[i].record.pityAtFour
               == PullsSince(h[0].before.sinceFour, rs[..i], FourMarks(c.pityRules[5].resetsLowerRarity)) + 1
  {
    assert LegalPull(h[i]);
    if i > 0 {
      CountersRestateHistory(h, c, i);
      assert h[i].before == h[i - 1].after;
    } else {
      assert Rarities(Records(h))[..0] == [];
    }
  }

  /** Five-stars since the last four-star. */
  ghost function FivesSinceFour(rs: seq<int>): (n: nat)
  {
    if rs == [] || rs[|rs| - 1] == 4 then 0
    else (if rs[|rs| - 1] == 5 then 1 else 0) + FivesSinceFour(rs[..|rs| - 1])
  }

  /** From the initial pity the four-star counter stays below the four-star hard pity when
      every five-star resets it; when they do not, it exceeds `hard - 1` by at most the
      five-stars since the last four-star. */
  lemma {:induction false} FourCounterBound(h: seq<Pull>, hard: int, n: nat)
    requires Legal(h) && hard >= 1 && 0 < n <= |h| && h[0].before.sinceFour == 0
    requires forall j :: 0 <= j < |h| ==> SureFrom(h[j].config, 4, hard)
    ensures h[n - 1].after.sinceFour <= hard - 1 + FivesSinceFour(Rarities(Records(h))[..n])
    ensures (forall j :: 0 <= j < n ==> h[j].config.pityRules[5].resetsLowerRarity) ==>
              h[n - 1].after.sinceFour < hard
  {
    var rs := Rarities(Records(h));
    assert rs[..n][..n - 1] == rs[..n - 1];
    if n > 1 {
      FourCounterBound(h, hard, n - 1);
      assert h[n - 1].before == h[n - 2].after;
    } else {
      assert rs[..0] == [];
    }
  }
}
