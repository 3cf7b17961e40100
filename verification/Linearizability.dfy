/** The pulls committed to each (user, pity group) by any number of concurrent workers are one
    sequential run of the pull engine, in version order; so the pull rules hold over the whole
    history, across operations. */
module Linearizability {
  import opened Collections
  import opened CatalogConfig
  import opened Schemas
  import opened Engine
  import opened EngineRules
  import opened PullOperations
  import opened Store
  import opened Protocol
  import opened Invariant
  import Safety

  /** The engine the service runs: `perform_pulls` on the frozen configuration. */
  ghost function PullEngine(rng: RandomSource): (engine: EngineFunction)
  {
    (context: PullRecoveryContext, pity: PityState) =>
      Pulls(rng, context.ToBannerConfig(), context.count, pity, context.seed)
  }

  ghost predicate CommittedTo(row: OperationRow, key: PityKey)
  {
    && PullOperations.Committed(row.status) && row.origin.user == key.user
    && row.response.Some? && row.response.value.pityGroupId == key.pityGroupId
  }

  /** The rows committed to a group are exactly the listed ones, the one at place i carrying
      version i + 1. */
  ghost predicate InVersionOrder(db: Database, key: PityKey, ids: seq<Uuid>)
  {
    && (forall i :: 0 <= i < |ids| ==>
          && ids[i] in db.operations && CommittedTo(db.operations[ids[i]], key)
          && db.operations[ids[i]].response.value.stateVersion == i + 1)
    && (forall id :: id in db.operations && CommittedTo(db.operations[id], key) ==>
          && 1 <= db.operations[id].response.value.stateVersion <= |ids|
          && ids[db.operations[id].response.value.stateVersion - 1] == id)
  }

  ghost function Responses(db: Database, ids: seq<Uuid>): (rs: seq<PullResponse>)
    requires forall i :: 0 <= i < |ids| ==> ids[i] in db.operations && db.operations[ids[i]].response.Some?
  {
    seq(|ids|, i requires 0 <= i < |ids| => db.operations[ids[i]].response.value)
  }

  ghost predicate Linked(rs: seq<PullResponse>, i: nat)
    requires i < |rs|
  {
    rs[i].previousPity == if i == 0 then INITIAL_SNAPSHOT else rs[i - 1].nextPity
  }

  /** Each response starts from the snapshot the one before it left. */
  ghost predicate Chained(rs: seq<PullResponse>, last: PitySnapshot)
  {
    && (forall i :: 0 <= i < |rs| ==> Linked(rs, i))
    && last == if rs == [] then INITIAL_SNAPSHOT else rs[|rs| - 1].nextPity
  }

  ghost function AllRecords(rs: seq<PullResponse>): (records: seq<PullRecord>)
  {
    if rs == [] then [] else AllRecords(rs[..|rs| - 1]) + rs[|rs| - 1].records
  }

  /** One worker alone, pulling for each context in turn. */
  ghost function Sequential(engine: EngineFunction, contexts: seq<PullRecoveryContext>, pity: PityState)
    : (r: Result<Batch, EngineError>)
  {
    if contexts == [] then Ok(Batch([], pity))
    else
      match Sequential(engine, contexts[..|contexts| - 1], pity)
      case Err(e) => Err(e)
      case Ok(before) =>
        match engine(contexts[|contexts| - 1], before.pity)
        case Err(e) => Err(e)
        case Ok(batch) => Ok(Batch(before.records + batch.records, batch.pity))
  }

  // ---- the recorded history ---------------------------------------------------------------

  ghost function ContextsOf(h: seq<HistoryEntry>): (contexts: seq<PullRecoveryContext>)
  {
    seq(|h|, i requires 0 <= i < |h| => h[i].context)
  }

  ghost function ResponsesOf(h: seq<HistoryEntry>): (rs: seq<PullResponse>)
  {
    seq(|h|, i requires 0 <= i < |h| => h[i].response)
  }

  ghost function IdsOf(w: World, key: PityKey): (ids: seq<Uuid>)
    requires Inv(w)
  {
    seq(|Hist(w, key)|, i requires 0 <= i < |Hist(w, key)| => assert EntryOk(w, key, i);
                                                             w.db.byUserKey[Hist(w, key)[i].origin])
  }

  /** Two commits of one operation are the same commit. */
  lemma OneEntryPerOperation(w: World, key: PityKey, i: nat, key': PityKey, j: nat)
    requires Inv(w) && i < |Hist(w, key)| && j < |Hist(w, key')|
    requires Hist(w, key)[i].origin == Hist(w, key')[j].origin
    ensures key == key' && i == j
  {
    assert EntryOk(w, key, i) && EntryOk(w, key', j);
  }

  lemma EntryRow(w: World, key: PityKey, i: nat)
    requires Inv(w) && i < |Hist(w, key)|
    ensures var id := IdsOf(w, key)[i];
            && id in w.db.operations && CommittedTo(w.db.operations[id], key)
            && w.db.operations[id].response == Some(Hist(w, key)[i].response)
            && Hist(w, key)[i].response.stateVersion == i + 1
  {
    assert EntryOk(w, key, i);
  }

  /** The rows of the history's entries, in order, are rows committed to the group. */
  lemma EntriesAreRows(w: World, key: PityKey)
    requires Inv(w)
    ensures forall i :: 0 <= i < |IdsOf(w, key)| ==>
              && IdsOf(w, key)[i] in w.db.operations && CommittedTo(w.db.operations[IdsOf(w, key)[i]], key)
              && w.db.operations[IdsOf(w, key)[i]].response == Some(Hist(w, key)[i].response)
              && Hist(w, key)[i].response.stateVersion == i + 1
  {
    forall i | 0 <= i < |IdsOf(w, key)|
      ensures IdsOf(w, key)[i] in w.db.operations && CommittedTo(w.db.operations[IdsOf(w, key)[i]], key)
      ensures w.db.operations[IdsOf(w, key)[i]].response == Some(Hist(w, key)[i].response)
      ensures Hist(w, key)[i].response.stateVersion == i + 1
    {
      EntryRow(w, key, i);
    }
  }

  lemma EntriesInVersionOrder(w: World, key: PityKey)
    requires Inv(w)
    ensures InVersionOrder(w.db, key, IdsOf(w, key))
    ensures Responses(w.db, IdsOf(w, key)) == ResponsesOf(Hist(w, key))
  {
    var ids := IdsOf(w, key);
    EntriesAreRows(w, key);
    forall id | id in w.db.operations && CommittedTo(w.db.operations[id], key)
      ensures 1 <= w.db.operations[id].response.value.stateVersion <= |ids|
      ensures ids[w.db.operations[id].response.value.stateVersion - 1] == id
    {
      RowAtItsPlace(w, key, id);
    }
  }

  lemma RowAtItsPlace(w: World, key: PityKey, id: Uuid)
    requires Inv(w) && id in w.db.operations && CommittedTo(w.db.operations[id], key)
    ensures 1 <= w.db.operations[id].response.value.stateVersion <= |IdsOf(w, key)|
    ensures IdsOf(w, key)[w.db.operations[id].response.value.stateVersion - 1] == id
  {
    RowAtItsVersion(w, key, id);
  }

  lemma RowAtItsVersion(w: World, key: PityKey, id: Uuid)
    requires Inv(w) && id in w.db.operations && CommittedTo(w.db.operations[id], key)
    ensures var v := w.db.operations[id].response.value.stateVersion;
            1 <= v <= |Hist(w, key)| && Hist(w, key)[v - 1].origin == w.db.operations[id].origin
    ensures w.db.operations[id].origin in w.db.byUserKey && w.db.byUserKey[w.db.operations[id].origin] == id
  {
    assert RowOk(w, id);
    var row := w.db.operations[id];
    var found := KeyOf(row.origin, ContextAt(w, row.origin));
    var v := row.response.value.stateVersion;
    assert EntryOk(w, found, v - 1);
  }

  lemma {:induction false} HistoryIsSequential(w: World, key: PityKey, n: nat)
    requires Inv(w) && n <= |Hist(w, key)|
    ensures Sequential(w.engine, ContextsOf(Hist(w, key)[..n]), INITIAL_PITY)
         == Ok(Batch(AllRecords(ResponsesOf(Hist(w, key)[..n])), SnapshotAt(Hist(w, key), n).pity))
  {
    if n > 0 {
      HistoryIsSequential(w, key, n - 1);
      var h := Hist(w, key);
      assert EntryOk(w, key, n - 1);
      assert ContextsOf(h[..n])[..n - 1] == ContextsOf(h[..n - 1]);
      assert ResponsesOf(h[..n])[..n - 1] == ResponsesOf(h[..n - 1]);
    }
  }

  lemma EntryChained(w: World, key: PityKey, i: nat)
    requires Inv(w) && i < |Hist(w, key)|
    ensures Linked(ResponsesOf(Hist(w, key)), i)
  {
    assert EntryOk(w, key, i);
  }

  lemma EntriesChained(w: World, key: PityKey)
    requires Inv(w)
    ensures Chained(ResponsesOf(Hist(w, key)), StoredPity(w.db, key))
    ensures StoredPity(w.db, key).version == |Hist(w, key)|
  {
    assert PityOk(w, key);
    forall i | 0 <= i < |ResponsesOf(Hist(w, key))|
      ensures Linked(ResponsesOf(Hist(w, key)), i)
    {
      EntryChained(w, key, i);
    }
  }

  /** In every reachable world, whatever the interleaving, crashes, lost answers, expired leases
      and stale workers: the rows committed to a group carry the versions 1, 2, ... without gap
      or repetition up to the stored one, each starts from the pity the one before it left, and
      their records and the stored pity are what one worker alone would have computed, running
      the engine on their frozen contexts in that order from the initial pity. */
  lemma Linearizable(w0: World, actions: seq<Action>, key: PityKey)
    returns (ids: seq<Uuid>, contexts: seq<PullRecoveryContext>)
    requires Init(w0)
    ensures var w := Run(w0, actions);
            && InVersionOrder(w.db, key, ids)
            && |ids| == StoredPity(w.db, key).version
            && Chained(Responses(w.db, ids), StoredPity(w.db, key))
            && |contexts| == |ids|
            && (forall i :: 0 <= i < |ids| ==>
                  var o := w.db.operations[ids[i]].origin;
                  o in w.frozen && contexts[i] == w.frozen[o].context)
            && Sequential(w0.engine, contexts, INITIAL_PITY)
               == Ok(Batch(AllRecords(Responses(w.db, ids)), StoredPity(w.db, key).pity))
  {
    var w := Run(w0, actions);
    InitialEngine(w0, actions);
    var h := Hist(w, key);
    ids, contexts := IdsOf(w, key), ContextsOf(h);
    EntriesInVersionOrder(w, key);
    EntriesChained(w, key);
    HistoryIsSequential(w, key, |h|);
    assert h[..|h|] == h;
    forall i | 0 <= i < |ids|
      ensures var o := w.db.operations[ids[i]].origin; o in w.frozen && contexts[i] == w.frozen[o].context
    {
      assert EntryOk(w, key, i);
    }
    assert PityOk(w, key);
  }

  lemma InitialEngine(w0: World, actions: seq<Action>)
    requires Init(w0)
    ensures Inv(Run(w0, actions)) && Run(w0, actions).engine == w0.engine
  {
    InitInv(w0);
    Safety.RunSafe(w0, actions);
  }

  // ---- pity over whole histories ----------------------------------------------------------

  lemma EntryIsLegal(w: World, rng: RandomSource, key: PityKey, i: nat) returns (pulls: seq<Pull>)
    requires Inv(w) && w.engine == PullEngine(rng) && i < |Hist(w, key)|
    ensures Legal(pulls) && Spans(pulls, SnapshotAt(Hist(w, key), i).pity, SnapshotAt(Hist(w, key), i + 1).pity)
    ensures Records(pulls) == Hist(w, key)[i].response.records
    ensures forall j :: 0 <= j < |pulls| ==> pulls[j].config == Hist(w, key)[i].context.ToBannerConfig()
  {
    var c := Hist(w, key)[i];
    assert EntryOk(w, key, i);
    var config, pity := c.context.ToBannerConfig(), c.response.previousPity.pity;
    assert Pulls(rng, config, c.context.count, pity, c.context.seed) == w.engine(c.context, pity);
    pulls := BatchIsLegal(config, rng, c.context.seed, 0, c.context.count, pity, 0);
  }

  /** The pull used the configuration of one of the first n commits. */
  ghost predicate UsesOneOf(h: seq<HistoryEntry>, n: nat, c: BannerConfig)
    requires n <= |h|
  {
    exists i :: 0 <= i < n && c == h[i].context.ToBannerConfig()
  }

  lemma {:induction false} HistoryIsLegal(w: World, rng: RandomSource, key: PityKey, n: nat) returns (pulls: seq<Pull>)
    requires Inv(w) && w.engine == PullEngine(rng) && n <= |Hist(w, key)|
    ensures Legal(pulls) && Spans(pulls, INITIAL_PITY, SnapshotAt(Hist(w, key), n).pity)
    ensures Records(pulls) == AllRecords(ResponsesOf(Hist(w, key)[..n]))
    ensures forall q :: q in pulls ==> UsesOneOf(Hist(w, key), n, q.config)
  {
    if n == 0 {
      pulls := [];
    } else {
      var before := HistoryIsLegal(w, rng, key, n - 1);
      var batch := EntryIsLegal(w, rng, key, n - 1);
      pulls := before + batch;
      AppendedPulls(Hist(w, key), n, before, batch);
    }
  }

  lemma AppendedPulls(h: seq<HistoryEntry>, n: nat, before: seq<Pull>, batch: seq<Pull>)
    requires 1 <= n <= |h|
    requires Legal(before) && Spans(before, INITIAL_PITY, SnapshotAt(h, n - 1).pity)
    requires Records(before) == AllRecords(ResponsesOf(h[..n - 1]))
    requires forall q :: q in before ==> UsesOneOf(h, n - 1, q.config)
    requires Legal(batch) && Spans(batch, SnapshotAt(h, n - 1).pity, SnapshotAt(h, n).pity)
    requires Records(batch) == h[n - 1].response.records
    requires forall j :: 0 <= j < |batch| ==> batch[j].config == h[n - 1].context.ToBannerConfig()
    ensures Legal(before + batch) && Spans(before + batch, INITIAL_PITY, SnapshotAt(h, n).pity)
    ensures Records(before + batch) == AllRecords(ResponsesOf(h[..n]))
    ensures forall q :: q in before + batch ==> UsesOneOf(h, n, q.config)
  {
    Joined(before, batch, INITIAL_PITY, SnapshotAt(h, n - 1).pity, SnapshotAt(h, n).pity);
    RecordsAppended(h, n);
    AppendedConfigs(h, n, before, batch);
  }

  lemma RecordsAppended(h: seq<HistoryEntry>, n: nat)
    requires 1 <= n <= |h|
    ensures AllRecords(ResponsesOf(h[..n])) == AllRecords(ResponsesOf(h[..n - 1])) + h[n - 1].response.records
  {
    assert ResponsesOf(h[..n])[..n - 1] == ResponsesOf(h[..n - 1]);
  }

  lemma AppendedConfigs(h: seq<HistoryEntry>, n: nat, before: seq<Pull>, batch: seq<Pull>)
    requires 1 <= n <= |h|
    requires forall q :: q in before ==> UsesOneOf(h, n - 1, q.config)
    requires forall j :: 0 <= j < |batch| ==> batch[j].config == h[n - 1].context.ToBannerConfig()
    ensures forall q :: q in before + batch ==> UsesOneOf(h, n, q.config)
  {
  }

  /** Some operation committed to the group was accepted with this configuration. */
  ghost predicate UsedFor(w: World, key: PityKey, c: BannerConfig)
  {
    exists id :: id in w.db.operations && CommittedTo(w.db.operations[id], key)
      && w.db.operations[id].origin in w.frozen
      && w.frozen[w.db.operations[id].origin].context.ToBannerConfig() == c
  }

  lemma HistoryConfigs(w: World, rng: RandomSource, key: PityKey) returns (pulls: seq<Pull>)
    requires Inv(w) && w.engine == PullEngine(rng)
    ensures Legal(pulls) && Spans(pulls, INITIAL_PITY, StoredPity(w.db, key).pity)
    ensures Records(pulls) == AllRecords(ResponsesOf(Hist(w, key)))
    ensures forall j :: 0 <= j < |pulls| ==> UsedFor(w, key, pulls[j].config)
  {
    var h := Hist(w, key);
    pulls := HistoryIsLegal(w, rng, key, |h|);
    assert h[..|h|] == h;
    assert PityOk(w, key);
    forall j | 0 <= j < |pulls|
      ensures UsedFor(w, key, pulls[j].config)
    {
      assert UsesOneOf(h, |h|, pulls[j].config);
      var i :| 0 <= i < |h| && pulls[j].config == h[i].context.ToBannerConfig();
      assert EntryOk(w, key, i);
      assert CommittedTo(RowAt(w, h[i].origin), key);
    }
  }

  lemma OneOrder(db: Database, key: PityKey, ids: seq<Uuid>, ids': seq<Uuid>)
    requires InVersionOrder(db, key, ids) && InVersionOrder(db, key, ids')
    ensures ids == ids'
  {
    assert |ids| > 0 ==> ids[|ids| - 1] in ids;
    assert |ids'| > 0 ==> ids'[|ids'| - 1] in ids';
    forall i | 0 <= i < |ids|
      ensures i < |ids'| && ids'[i] == ids[i]
    {
    }
  }

  lemma RecordsInOrder(w: World, key: PityKey, ids: seq<Uuid>)
    requires Inv(w) && InVersionOrder(w.db, key, ids)
    ensures Responses(w.db, ids) == ResponsesOf(Hist(w, key))
  {
    EntriesInVersionOrder(w, key);
    OneOrder(w.db, key, ids, IdsOf(w, key));
  }

  lemma BoundedPulls(w: World, key: PityKey, pulls: seq<Pull>, hard: int)
    requires Legal(pulls) && forall j :: 0 <= j < |pulls| ==> UsedFor(w, key, pulls[j].config)
    requires forall c :: UsedFor(w, key, c) && 5 in c.pityRules ==> SureFrom(c, 5, hard)
    ensures forall j :: 0 <= j < |pulls| ==> SureFrom(pulls[j].config, 5, hard)
  {
    assert forall j :: 0 <= j < |pulls| ==> LegalPull(pulls[j]);
  }

  lemma PromisingPulls(w: World, key: PityKey, pulls: seq<Pull>, hard: int)
    requires Legal(pulls) && forall j :: 0 <= j < |pulls| ==> UsedFor(w, key, pulls[j].config)
    requires forall c :: UsedFor(w, key, c) ==>
               PromisesFeatured(c) && (5 in c.pityRules ==> SureFrom(c, 5, hard))
    ensures forall j :: 0 <= j < |pulls| ==> 5 in pulls[j].config.pityRules && Promising(pulls[j], hard)
  {
    assert forall j :: 0 <= j < |pulls| ==> LegalPull(pulls[j]);
  }

  lemma FiveStarRecorded(pulls: seq<Pull>, lo: nat, hi: nat)
    requires hi <= |pulls| && exists j :: lo <= j < hi && pulls[j].record.rarity == 5
    ensures exists j :: lo <= j < hi && Records(pulls)[j].rarity == 5
  {
    var j :| lo <= j < hi && pulls[j].record.rarity == 5;
    assert Records(pulls)[j].rarity == 5;
  }

  lemma FeaturedRecorded(pulls: seq<Pull>, lo: nat, hi: nat)
    requires hi <= |pulls| && exists j :: lo <= j < hi && FeaturedFive(pulls[j].record)
    ensures exists j :: lo <= j < hi && FeaturedFive(Records(pulls)[j])
  {
    var j :| lo <= j < hi && FeaturedFive(pulls[j].record);
    assert FeaturedFive(Records(pulls)[j]);
  }

  lemma HistoryFiveStarWindow(w: World, rng: RandomSource, key: PityKey, hard: int, i: nat)
    requires Inv(w) && w.engine == PullEngine(rng) && hard >= 1
    requires forall c :: UsedFor(w, key, c) && 5 in c.pityRules ==> SureFrom(c, 5, hard)
    requires i + hard <= |AllRecords(ResponsesOf(Hist(w, key)))|
    ensures exists j :: i <= j < i + hard && AllRecords(ResponsesOf(Hist(w, key)))[j].rarity == 5
  {
    var pulls := HistoryConfigs(w, rng, key);
    BoundedPulls(w, key, pulls, hard);
    FiveStarWindow(pulls, hard, i);
    FiveStarRecorded(pulls, i, i + hard);
  }

  lemma HistoryFeaturedWindow(w: World, rng: RandomSource, key: PityKey, hard: int, i: nat)
    requires Inv(w) && w.engine == PullEngine(rng) && hard >= 1
    requires forall c :: UsedFor(w, key, c) ==>
               PromisesFeatured(c) && (5 in c.pityRules ==> SureFrom(c, 5, hard))
    requires i + 2 * hard <= |AllRecords(ResponsesOf(Hist(w, key)))|
    ensures exists j :: i <= j < i + 2 * hard && FeaturedFive(AllRecords(ResponsesOf(Hist(w, key)))[j])
  {
    var pulls := HistoryConfigs(w, rng, key);
    PromisingPulls(w, key, pulls, hard);
    FeaturedWindow(pulls, hard, i);
    FeaturedRecorded(pulls, i, i + 2 * hard);
  }

  /** Over all records ever committed to a group, in version then index order, every `hard`
      consecutive ones contain a five-star, if under all configurations its committed operations
      were accepted with a five-star is sure from count `hard` on, by hard or by soft pity. */
  lemma WholeHistoryFiveStarWindow(w0: World, actions: seq<Action>, rng: RandomSource, key: PityKey,
                                   ids: seq<Uuid>, hard: int, i: nat)
    requires Init(w0) && w0.engine == PullEngine(rng) && hard >= 1
    requires var w := Run(w0, actions);
             && InVersionOrder(w.db, key, ids)
             && (forall c :: UsedFor(w, key, c) && 5 in c.pityRules ==> SureFrom(c, 5, hard))
             && i + hard <= |AllRecords(Responses(w.db, ids))|
    ensures var records := AllRecords(Responses(Run(w0, actions).db, ids));
            exists j :: i <= j < i + hard && records[j].rarity == 5
  {
    InitialEngine(w0, actions);
    RecordsInOrder(Run(w0, actions), key, ids);
    HistoryFiveStarWindow(Run(w0, actions), rng, key, hard, i);
  }

  /** And every `2 * hard` consecutive ones contain a featured five-star, when all those
      configurations set the guarantee on a miss, keep it in the guarantee the engine reads and
      have featured five-stars. */
  lemma WholeHistoryFeaturedWindow(w0: World, actions: seq<Action>, rng: RandomSource, key: PityKey,
                                   ids: seq<Uuid>, hard: int, i: nat)
    requires Init(w0) && w0.engine == PullEngine(rng) && hard >= 1
    requires var w := Run(w0, actions);
             && InVersionOrder(w.db, key, ids)
             && (forall c :: UsedFor(w, key, c) ==>
                   PromisesFeatured(c) && (5 in c.pityRules ==> SureFrom(c, 5, hard)))
             && i + 2 * hard <= |AllRecords(Responses(w.db, ids))|
    ensures var records := AllRecords(Responses(Run(w0, actions).db, ids));
            exists j :: i <= j < i + 2 * hard && FeaturedFive(records[j])
  {
    InitialEngine(w0, actions);
    RecordsInOrder(Run(w0, actions), key, ids);
    HistoryFeaturedWindow(Run(w0, actions), rng, key, hard, i);
  }

  /** The last five-star among the records, if there is one, was missed or not under a configuration
      the group used; that alone decides the guarantee. */
  ghost predicate LeavesGuarantee(w: World, key: PityKey, records: seq<PullRecord>, guarantee: bool)
  {
    var k := LastAmong(Rarities(records), {5});
    if k == -1 then !guarantee
    else
      exists c ::
        && UsedFor(w, key, c)
        && guarantee == (5 in c.featuredRules && c.featuredRules[5].missSetsGuarantee && !records[k].isFeatured)
  }

  /** Five-stars reset the four-star counter under every configuration the group used, or under none. */
  ghost predicate ResetsAlike(w: World, key: PityKey, resets: bool)
  {
    forall c :: UsedFor(w, key, c) && 5 in c.pityRules ==> c.pityRules[5].resetsLowerRarity == resets
  }

  ghost predicate LeavesFourCounter(w: World, key: PityKey, records: seq<PullRecord>, sinceFour: nat)
  {
    forall resets :: ResetsAlike(w, key, resets) ==> sinceFour == PullsSince(0, Rarities(records), FourMarks(resets))
  }

  lemma HistoryLeavesPity(w: World, rng: RandomSource, key: PityKey)
    requires Inv(w) && w.engine == PullEngine(rng)
    ensures var records, pity := AllRecords(ResponsesOf(Hist(w, key))), StoredPity(w.db, key).pity;
            && pity.sinceFive == PullsSince(0, Rarities(records), {5})
            && LeavesFourCounter(w, key, records, pity.sinceFour)
            && LeavesGuarantee(w, key, records, pity.guaranteedFeaturedFive)
  {
    var pulls := HistoryConfigs(w, rng, key);
    var end := StoredPity(w.db, key).pity;
    PullsLeavePity(pulls, end);
    var k := LastAmong(Rarities(Records(pulls)), {5});
    assert k >= 0 ==> UsedFor(w, key, pulls[k].config);
    forall resets | ResetsAlike(w, key, resets)
      ensures end.sinceFour == PullsSince(0, Rarities(Records(pulls)), FourMarks(resets))
    {
      PullsLeaveFourCounter(pulls, end, resets);
    }
  }

  lemma PullsLeaveFourCounter(pulls: seq<Pull>, end: PityState, resets: bool)
    requires Legal(pulls) && Spans(pulls, INITIAL_PITY, end)
    requires forall j :: 0 <= j < |pulls| ==> pulls[j].config.pityRules[5].resetsLowerRarity == resets
    ensures end.sinceFour == PullsSince(0, Rarities(Records(pulls)), FourMarks(resets))
  {
    if pulls != [] {
      FourCounterRestatesHistory(pulls, resets, |pulls|);
      assert Rarities(Records(pulls))[..|pulls|] == Rarities(Records(pulls));
    }
  }

  lemma PullsLeavePity(pulls: seq<Pull>, end: PityState)
    requires Legal(pulls) && Spans(pulls, INITIAL_PITY, end)
    ensures end.sinceFive == PullsSince(0, Rarities(Records(pulls)), {5})
    ensures var k := LastAmong(Rarities(Records(pulls)), {5});
            if k == -1 then !end.guaranteedFeaturedFive
            else
              && Records(pulls)[k] == pulls[k].record
              && end.guaranteedFeaturedFive == MissedWithGuarantee(pulls[k])
  {
    if pulls != [] {
      FiveCounterRestatesHistory(pulls, |pulls|);
      GuaranteeRestatesHistory(pulls, |pulls|);
      assert Rarities(Records(pulls))[..|pulls|] == Rarities(Records(pulls));
    }
  }

  /** The pity stored for a group restates all records ever committed to it: the five-star counter
      is the number of records since the last five-star, the four-star counter that since the last
      four-star, or since the last of either, and the guarantee is what the last five-star left. */
  lemma StoredPityRestatesRecords(w0: World, actions: seq<Action>, rng: RandomSource, key: PityKey, ids: seq<Uuid>)
    requires Init(w0) && w0.engine == PullEngine(rng) && InVersionOrder(Run(w0, actions).db, key, ids)
    ensures var w := Run(w0, actions);
            var records, pity := AllRecords(Responses(w.db, ids)), StoredPity(w.db, key).pity;
            && pity.sinceFive == PullsSince(0, Rarities(records), {5})
            && LeavesFourCounter(w, key, records, pity.sinceFour)
            && LeavesGuarantee(w, key, records, pity.guaranteedFeaturedFive)
  {
    InitialEngine(w0, actions);
    RecordsInOrder(Run(w0, actions), key, ids);
    HistoryLeavesPity(Run(w0, actions), rng, key);
  }
}
