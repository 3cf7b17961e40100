/** The pull engine, `engine.py`.  The generator is an abstract stream addressed by seed and
    position; rates are exact parts per million.  The functions say what each step of the
    engine yields from a stream position; the methods are the engine's own loop and draws,
    proved to yield the same. */
module Engine {
  import opened Collections
  import opened CatalogConfig
  import opened Schemas

  type Unit = u: real | 0.0 <= u < 1.0 witness 0.0

  /** `uniform(seed, p)` is what `random()` returns at position p; `below(seed, p, n) % n` is
      what `randrange(n)` returns there, after reading `1 + extra(seed, p, n)` positions. */
  datatype RandomSource = RandomSource(
    uniform: (string, nat) -> Unit,
    below: (string, nat, nat) -> nat,
    extra: (string, nat, nat) -> nat)

  datatype EngineError = EmptyPool | MissingKey

  /** A value and the stream position after computing it. */
  datatype Rolled<T> = Rolled(value: T, position: nat)

  const PPM := 1_000_000

  predicate Hits(u: Unit, ratePpm: int)
  {
    u * (PPM as real) < ratePpm as real
  }

  /** `get_rarity_rate` in parts per million. */
  function RarityRatePpm(c: BannerConfig, rarity: int, pityCount: int): (rate: Result<int, EngineError>)
  {
    if rarity !in c.rarityRates then Err(MissingKey)
    else
      var base := c.rarityRates[rarity].baseRatePpm;
      if rarity !in c.pityRules || c.pityRules[rarity].softPityStart.None?
         || pityCount < c.pityRules[rarity].softPityStart.value
      then Ok(base)
      else
        var rule := c.pityRules[rarity];
        var raised := base + (pityCount - rule.softPityStart.value + 1) * rule.softPityIncrementPpm;
        Ok(if raised < PPM then raised else PPM)
  }

  /** `getattr(pity, key, False)` read as a truth value. */
  predicate StateFlag(pity: PityState, key: string)
  {
    if key == "guaranteed_featured_five" then pity.guaranteedFeaturedFive
    else if key == "since_five" then pity.sinceFive != 0
    else if key == "since_four" then pity.sinceFour != 0
    else false
  }

  predicate HasFeaturedGuarantee(pity: PityState, rule: FeaturedRule)
  {
    rule.guaranteeStateKey.Some? && StateFlag(pity, rule.guaranteeStateKey.value)
  }

  predicate IsFeaturedItem(c: BannerConfig, item: GachaItem)
  {
    item.id in c.FeaturedIds(item.rarity)
  }

  predicate NextFeaturedGuarantee(c: BannerConfig, isFeatured: bool)
  {
    5 in c.featuredRules && c.featuredRules[5].missSetsGuarantee && !isFeatured
  }

  function RollRarityAt(c: BannerConfig, pity: PityState, rng: RandomSource, seed: string, p: nat)
    : (r: Result<Rolled<int>, EngineError>)
  {
    if 5 !in c.pityRules || 4 !in c.pityRules then Err(MissingKey)
    else if pity.sinceFive + 1 >= c.pityRules[5].hardPity then Ok(Rolled(5, p))
    else match RarityRatePpm(c, 5, pity.sinceFive + 1)
      case Err(e) => Err(e)
      case Ok(fiveRate) =>
        if Hits(rng.uniform(seed, p), fiveRate) then Ok(Rolled(5, p + 1))
        else if pity.sinceFour + 1 >= c.pityRules[4].hardPity then Ok(Rolled(4, p + 1))
        else match RarityRatePpm(c, 4, pity.sinceFour + 1)
          case Err(e) => Err(e)
          case Ok(fourRate) =>
            Ok(Rolled(if Hits(rng.uniform(seed, p + 1), fourRate) then 4 else 3, p + 2))
  }

  function PickAt(items: seq<GachaItem>, rng: RandomSource, seed: string, p: nat)
    : (r: Result<Rolled<GachaItem>, EngineError>)
  {
    if items == [] then Err(EmptyPool)
    else Ok(Rolled(items[rng.below(seed, p, |items|) % |items|], p + 1 + rng.extra(seed, p, |items|)))
  }

  /** `[item_by_id[item_id] for item_id in ids]` */
  function LookUpAll(itemById: map<string, GachaItem>, ids: seq<string>): (r: Result<seq<GachaItem>, EngineError>)
  {
    if ids == [] then Ok([])
    else if ids[0] !in itemById then Err(MissingKey)
    else match LookUpAll(itemById, ids[1..])
      case Err(e) => Err(e)
      case Ok(rest) => Ok([itemById[ids[0]]] + rest)
  }

  /** A guaranteed feature is decided without a draw; any other feature costs one. */
  function RollItemAt(c: BannerConfig, rarity: int, pity: PityState, rng: RandomSource, seed: string, p: nat)
    : (r: Result<Rolled<GachaItem>, EngineError>)
  {
    var featuredIds := c.FeaturedIds(rarity);
    if featuredIds == [] || rarity !in c.featuredRules then
      PickAt(c.PoolForRarity(rarity, {}), rng, seed, p)
    else
      var rule := c.featuredRules[rarity];
      var guaranteed := HasFeaturedGuarantee(pity, rule);
      var p' := if guaranteed then p else p + 1;
      if guaranteed || Hits(rng.uniform(seed, p), rule.featuredRatePpm) then
        match LookUpAll(c.itemById, featuredIds)
        case Err(e) => Err(e)
        case Ok(items) => PickAt(items, rng, seed, p')
      else if rule.missSetsGuarantee then
        PickAt(c.PoolForRarity(rarity, set id | id in featuredIds), rng, seed, p')
      else
        PickAt(c.PoolForRarity(rarity, {}), rng, seed, p')
  }

  /** The pity state after an item of the given rarity. */
  function NextPity(c: BannerConfig, pity: PityState, rarity: int, isFeatured: bool): (next: PityState)
    requires 5 in c.pityRules
  {
    if rarity == 5 then
      PityState(0, if c.pityRules[5].resetsLowerRarity then 0 else pity.sinceFour + 1,
                NextFeaturedGuarantee(c, isFeatured))
    else if rarity == 4 then
      pity.(sinceFive := pity.sinceFive + 1, sinceFour := 0)
    else
      pity.(sinceFive := pity.sinceFive + 1, sinceFour := pity.sinceFour + 1)
  }

  datatype Pulled = Pulled(record: PullRecord, pity: PityState)

  function MakeRecord(c: BannerConfig, pity: PityState, seed: string, index: nat, rarity: int, item: GachaItem)
    : (record: PullRecord)
  {
    PullRecord(RecordId(seed, index, c.banner.id, item.id, pity.sinceFive + 1, pity.sinceFour + 1),
               index, item.id, rarity, c.banner.id, pity.sinceFive + 1, pity.sinceFour + 1,
               IsFeaturedItem(c, item))
  }

  /** One turn of the pull loop. */
  function PullOnceAt(c: BannerConfig, rng: RandomSource, seed: string, index: nat, pity: PityState, p: nat)
    : (r: Result<Rolled<Pulled>, EngineError>)
  {
    match RollRarityAt(c, pity, rng, seed, p)
    case Err(e) => Err(e)
    case Ok(rarity) =>
      match RollItemAt(c, rarity.value, pity, rng, seed, rarity.position)
      case Err(e) => Err(e)
      case Ok(item) =>
        Ok(Rolled(Pulled(MakeRecord(c, pity, seed, index, rarity.value, item.value),
                         NextPity(c, pity, rarity.value, IsFeaturedItem(c, item.value))),
                  item.position))
  }

  /** The remaining pulls of a batch, from a stream position. */
  function PullsAt(c: BannerConfig, rng: RandomSource, seed: string, index: nat, count: int, pity: PityState, p: nat)
    : (r: Result<Batch, EngineError>)
    decreases count - index
  {
    if index >= count then Ok(Batch([], pity))
    else match PullOnceAt(c, rng, seed, index, pity, p)
      case Err(e) => Err(e)
      case Ok(pulled) =>
        match PullsAt(c, rng, seed, index + 1, count, pulled.value.pity, pulled.position)
        case Err(e) => Err(e)
        case Ok(rest) => Ok(Batch([pulled.value.record] + rest.records, rest.pity))
  }

  function Pulls(rng: RandomSource, c: BannerConfig, count: int, pity: PityState, seed: string)
    : (r: Result<Batch, EngineError>)
  {
    PullsAt(c, rng, seed, 0, count, pity, 0)
  }

  /** `random.Random(seed)` */
  class Rng {
    const source: RandomSource
    const seed: string
    var position: nat

    constructor (source: RandomSource, seed: string)
      ensures this.source == source && this.seed == seed && position == 0
    {
      this.source, this.seed, position := source, seed, 0;
    }

    method Random() returns (u: Unit)
      modifies this
      ensures u == source.uniform(seed, old(position)) && position == old(position) + 1
    {
      u := source.uniform(seed, position);
      position := position + 1;
    }

    method RandRange(n: nat) returns (k: nat)
      requires n > 0
      modifies this
      ensures k == source.below(seed, old(position), n) % n
      ensures position == old(position) + 1 + source.extra(seed, old(position), n)
    {
      k := source.below(seed, position, n) % n;
      position := position + 1 + source.extra(seed, position, n);
    }
  }

  /** A method's answer and the generator's new position are what the function says. */
  predicate Agrees<T(==)>(r: Result<T, EngineError>, position: nat, spec: Result<Rolled<T>, EngineError>)
  {
    match spec
    case Err(e) => r == Err(e)
    case Ok(rolled) => r == Ok(rolled.value) && position == rolled.position
  }

  method RollRarity(c: BannerConfig, pity: PityState, rng: Rng) returns (r: Result<int, EngineError>)
    modifies rng
    ensures Agrees(r, rng.position, RollRarityAt(c, pity, rng.source, rng.seed, old(rng.position)))
  {
    if 5 !in c.pityRules || 4 !in c.pityRules {
      return Err(MissingKey);
    }
    if pity.sinceFive + 1 >= c.pityRules[5].hardPity {
      return Ok(5);
    }
    var u := rng.Random();
    var fiveRate := RarityRatePpm(c, 5, pity.sinceFive + 1);
    if fiveRate.Err? {
      return Err(fiveRate.error);
    }
    if Hits(u, fiveRate.value) {
      return Ok(5);
    }
    if pity.sinceFour + 1 >= c.pityRules[4].hardPity {
      return Ok(4);
    }
    u := rng.Random();
    var fourRate := RarityRatePpm(c, 4, pity.sinceFour + 1);
    if fourRate.Err? {
      return Err(fourRate.error);
    }
    return Ok(if Hits(u, fourRate.value) then 4 else 3);
  }

  method PickRandom(items: seq<GachaItem>, rng: Rng) returns (r: Result<GachaItem, EngineError>)
    modifies rng
    ensures Agrees(r, rng.position, PickAt(items, rng.source, rng.seed, old(rng.position)))
  {
    if items == [] {
      return Err(EmptyPool);
    }
    var k := rng.RandRange(|items|);
    return Ok(items[k]);
  }

  method RollItem(c: BannerConfig, rarity: int, pity: PityState, rng: Rng) returns (r: Result<GachaItem, EngineError>)
    modifies rng
    ensures Agrees(r, rng.position, RollItemAt(c, rarity, pity, rng.source, rng.seed, old(rng.position)))
  {
    var featuredIds := c.FeaturedIds(rarity);
    if featuredIds != [] && rarity in c.featuredRules {
      var rule := c.featuredRules[rarity];
      var featured := HasFeaturedGuarantee(pity, rule);
      if !featured {
        var u := rng.Random();
        featured := Hits(u, rule.featuredRatePpm);
      }
      if featured {
        var items := LookUpAll(c.itemById, featuredIds);
        if items.Err? {
          return Err(items.error);
        }
        r := PickRandom(items.value, rng);
        return;
      }
      if rule.missSetsGuarantee {
        r := PickRandom(c.PoolForRarity(rarity, set id | id in featuredIds), rng);
        return;
      }
    }
    r := PickRandom(c.PoolForRarity(rarity, {}), rng);
  }

  /** The body of the pull loop: roll a rarity and an item, then move the counters and the
      guarantee. */
  method PullOnce(c: BannerConfig, index: nat, pity: PityState, rng: Rng) returns (r: Result<Pulled, EngineError>)
    modifies rng
    ensures Agrees(r, rng.position, PullOnceAt(c, rng.source, rng.seed, index, pity, old(rng.position)))
  {
    var rarity := RollRarity(c, pity, rng);
    if rarity.Err? {
      return Err(rarity.error);
    }
    var item := RollItem(c, rarity.value, pity, rng);
    if item.Err? {
      return Err(item.error);
    }
    var isFeatured := IsFeaturedItem(c, item.value);
    var current := pity;
    if rarity.value == 5 {
      current := current.(sinceFive := 0);
      if c.pityRules[5].resetsLowerRarity {
        current := current.(sinceFour := 0);
      } else {
        current := current.(sinceFour := current.sinceFour + 1);
      }
      current := current.(guaranteedFeaturedFive := NextFeaturedGuarantee(c, isFeatured));
    } else if rarity.value == 4 {
      current := current.(sinceFive := current.sinceFive + 1, sinceFour := 0);
    } else {
      current := current.(sinceFive := current.sinceFive + 1, sinceFour := current.sinceFour + 1);
    }
    return Ok(Pulled(MakeRecord(c, pity, rng.seed, index, rarity.value, item.value), current));
  }

  function Prepend(records: seq<PullRecord>, rest: Result<Batch, EngineError>): (r: Result<Batch, EngineError>)
  {
    match rest
    case Err(e) => Err(e)
    case Ok(batch) => Ok(Batch(records + batch.records, batch.pity))
  }

  lemma PrependOne(records: seq<PullRecord>, record: PullRecord, rest: Result<Batch, EngineError>)
    ensures Prepend([], rest) == rest
    ensures Prepend(records + [record], rest) == Prepend(records, Prepend([record], rest))
  {
    if rest.Ok? {
      assert [] + rest.value.records == rest.value.records;
      assert records + [record] + rest.value.records == records + ([record] + rest.value.records);
    }
  }

  /** The pull loop.  What it returns is the batch `Pulls` describes. */
  method PerformPulls(source: RandomSource, c: BannerConfig, count: int, pity: PityState, seed: string)
    returns (r: Result<Batch, EngineError>)
    ensures r == Pulls(source, c, count, pity, seed)
  {
    var rng := new Rng(source, seed);
    var current := pity;
    var records: seq<PullRecord> := [];
    var index: nat := 0;
    ghost var goal := Pulls(source, c, count, pity, seed);
    assert goal == Prepend([], goal) by {
      if goal.Ok? {
        assert [] + goal.value.records == goal.value.records;
      }
    }
    while index < count
      invariant rng.source == source && rng.seed == seed && fresh(rng)
      invariant goal == Prepend(records, PullsAt(c, source, seed, index, count, current, rng.position))
    {
      ghost var p := rng.position;
      var pulled := PullOnce(c, index, current, rng);
      if pulled.Err? {
        return Err(pulled.error);
      }
      PrependOne(records, pulled.value.record,
                 PullsAt(c, source, seed, index + 1, count, pulled.value.pity, rng.position));
      records := records + [pulled.value.record];
      current := pulled.value.pity;
      index := index + 1;
    }
    assert records + [] == records;
    return Ok(Batch(records, current));
  }
}
