/** New requests: in any world, and from any catalog that offers the banner, a pull of a new key
    can be accepted, charged and committed. */
module AcceptedPulls {
  import opened Collections
  import opened CatalogConfig
  import opened Schemas
  import opened PullOperations
  import opened PullAudit
  import opened CatalogAssembly
  import opened CatalogRepository
  import opened Store
  import opened Protocol
  import opened Invariant
  import opened Safety
  import opened Recoverability

  /** A pull request as it reaches the service, and the snapshot it is served from. */
  datatype Arrival = Arrival(origin: UserKey, request: PullRequest, source: Source, acceptedAt: Time,
                             engineVersion: string, engineBuildSha: string)

  function SeedFor(w: World, arrival: Arrival): (seed: string)
  {
    if arrival.request.seed.Some? then arrival.request.seed.value else w.seedOf(arrival.origin)
  }

  function HashFor(w: World, arrival: Arrival): (requestHash: RequestHash)
  {
    RequestHash(arrival.request.bannerId, arrival.request.count, SeedFor(w, arrival))
  }

  /** The request is one the service serves, with this context. */
  ghost predicate Freezes(w: World, arrival: Arrival, context: PullRecoveryContext)
  {
    && arrival.request.count in {1, 10} && SnapshotOf(w, arrival.source).Ok?
    && RequestContext(SnapshotOf(w, arrival.source).value, arrival.origin, arrival.request.bannerId,
                      arrival.request.count, SeedFor(w, arrival), arrival.acceptedAt, arrival.engineVersion,
                      arrival.engineBuildSha)
       == Ok(Some(context))
  }

  /** Where a request's catalog comes from: the built-in one is always there, and so is the empty one
      while no release is current; a release's is there exactly when it loads at that instant. */
  lemma CatalogsServe(w: World, source: Source)
    ensures source.FromStatic? ==> SnapshotOf(w, source) == Ok(w.staticCatalog)
    ensures source.FromNoRelease? ==> SnapshotOf(w, source) == Ok(EmptySnapshot(source.loadedAt))
    ensures source.FromRelease? ==>
              var release := if source.releaseId in w.releases then Some(w.releases[source.releaseId]) else None;
              && (SnapshotOf(w, source).Ok? <==>
                    release.Some? && Buildable(release.value) && !OverlapsAt(release.value, source.loadedAt))
              && (SnapshotOf(w, source).Ok? ==>
                    SnapshotOf(w, source).value.loadedAt == source.loadedAt
                    && SnapshotOf(w, source).value.releaseId == Some(release.value.id))
  {
    if source.FromRelease? && source.releaseId in w.releases {
      LoadsExactly(w.releases[source.releaseId], source.loadedAt);
    }
  }

  /** The context of a request, under its user and key: its price, count and seed, and the
      configuration, acceptance time and audit it was accepted with. */
  ghost predicate TakesRequest(context: PullRecoveryContext, o: UserKey, requestHash: RequestHash, c: BannerConfig,
                               acceptedAt: Time, audit: PullAuditMetadata)
  {
    && context.eventId == EventId(o) && context.acceptedAt == Some(acceptedAt) && context.audit == Some(audit)
    && context.count == requestHash.count && context.amountMinor == 160 * requestHash.count
    && context.seed == requestHash.seed && context.banner == c.banner && context.pityGroupId == c.pityGroupId
    && (c.WellFiled() ==> context.ToBannerConfig() == c)
  }

  /** What a new request meets in a snapshot: overlapping schedules or refused evidence, which end it;
      a banner not offered at its acceptance; or one it is taken with. */
  ghost predicate Meets(snapshot: CatalogSnapshot, arrival: Arrival, requestHash: RequestHash,
                        r: Result<Option<PullRecoveryContext>, AuditError>)
  {
    var offer := snapshot.BannerConfigAt(arrival.request.bannerId, arrival.acceptedAt);
    if offer.Err? then r.Err?
    else if offer.value.None? then r == Ok(None)
    else
      var c := offer.value.value;
      var audit := BuildPullAuditMetadata(snapshot, c, arrival.engineVersion, arrival.engineBuildSha);
      if audit.Err? then r.Err?
      else
        && r.Ok? && r.value.Some?
        && TakesRequest(r.value.value, arrival.origin, requestHash, c, arrival.acceptedAt, audit.value)
  }

  lemma ContextMeets(snapshot: CatalogSnapshot, arrival: Arrival, seed: string)
    ensures Meets(snapshot, arrival, RequestHash(arrival.request.bannerId, arrival.request.count, seed),
                  RequestContext(snapshot, arrival.origin, arrival.request.bannerId, arrival.request.count, seed,
                                 arrival.acceptedAt, arrival.engineVersion, arrival.engineBuildSha))
  {
    var offer := snapshot.BannerConfigAt(arrival.request.bannerId, arrival.acceptedAt);
    if offer.Ok? && offer.value.Some? && offer.value.value.WellFiled() {
      var c := offer.value.value;
      var audit := BuildPullAuditMetadata(snapshot, c, arrival.engineVersion, arrival.engineBuildSha);
      if audit.Ok? {
        FrozenConfigThaws(c, arrival.request.count, seed, EventId(arrival.origin),
                          arrival.request.count * ASTRITE_PER_PULL, Some(arrival.acceptedAt), Some(audit.value));
      }
    }
  }

  /** A new request ends without a trace, looks for a row of its key if its banner is not offered, or
      goes on with what it was taken with. */
  lemma StartsExactly(w: World, i: nat, arrival: Arrival) returns (met: Result<Option<PullRecoveryContext>, AuditError>)
    requires PcOf(w, i).Idle? && arrival.request.count in {1, 10} && SnapshotOf(w, arrival.source).Ok?
    ensures Meets(SnapshotOf(w, arrival.source).value, arrival, HashFor(w, arrival), met)
    ensures var w' := DoStart(w, i, arrival.origin, arrival.request, arrival.source, arrival.acceptedAt,
                              arrival.engineVersion, arrival.engineBuildSha);
            w' == if met.Err? then w
                  else if met.value.None? then Go(w, i, LookingUp(arrival.origin, HashFor(w, arrival)))
                  else Go(w, i, Inserting(arrival.origin, HashFor(w, arrival), met.value.value))
  {
    var snapshot, seed := SnapshotOf(w, arrival.source).value, SeedFor(w, arrival);
    ContextMeets(snapshot, arrival, seed);
    met := RequestContext(snapshot, arrival.origin, arrival.request.bannerId, arrival.request.count, seed,
                          arrival.acceptedAt, arrival.engineVersion, arrival.engineBuildSha);
  }

  function StartOf(i: nat, arrival: Arrival): (a: Action)
  {
    Start(i, arrival.origin, arrival.request, arrival.source, arrival.acceptedAt, arrival.engineVersion,
          arrival.engineBuildSha)
  }

  lemma Started(step: StepFunction, w: World, i: nat, arrival: Arrival, context: PullRecoveryContext)
    requires RequestRuns(step) && Freezes(w, arrival, context)
    ensures step(step(w, Crash(i)), StartOf(i, arrival))
         == Go(Go(w, i, Idle), i, Inserting(arrival.origin, HashFor(w, arrival), context))
  {
    var crashed := Go(w, i, Idle);
    assert step(w, Crash(i)) == crashed && IsRequest(StartOf(i, arrival));
    assert SnapshotOf(crashed, arrival.source) == SnapshotOf(w, arrival.source);
  }

  /** The row and the frozen context of an accepted pull are there, its worker holds them, and
      nothing else has changed. */
  ghost predicate AcceptedAs(w: World, w': World, i: nat, job: Job)
  {
    && PcOf(w', i) == Charging(job) && Owns(w'.db, job.id, job.origin.user, job.requestHash, job.token)
    && w'.db.operations[job.id].origin == job.origin && w'.db.operations[job.id].context == Some(job.context)
    && w'.db.byUserKey == w.db.byUserKey[job.origin := job.id] && w'.db.pity == w.db.pity
    && w'.ledger == w.ledger && w'.engine == w.engine && w'.sticky == w.sticky
    && w'.releases == w.releases && w'.legacy == w.legacy && job.origin in w'.frozen
  }

  lemma Inserted(w: World, i: nat, o: UserKey, requestHash: RequestHash, context: PullRecoveryContext, id: Uuid,
                 token: Uuid)
    requires PcOf(w, i) == Inserting(o, requestHash, context) && o !in w.db.byUserKey
    requires id !in w.db.operations && token !in w.issued
    ensures AcceptedAs(w, DoInsert(w, i, id, token, 0, 0, Acked), i, Job(id, o, requestHash, token, context))
  {
  }

  /** A request under a new key is accepted. */
  lemma GetsAccepted(step: StepFunction, w: World, i: nat, arrival: Arrival, context: PullRecoveryContext)
    returns (actions: seq<Action>, job: Job)
    requires RequestRuns(step) && Freezes(w, arrival, context) && arrival.origin !in w.db.byUserKey
    ensures job.origin == arrival.origin && job.context == context
    ensures AcceptedAs(w, RunWith(step, w, actions), i, job)
  {
    var id := FreshToken(w.db.operations.Keys);
    var token := FreshToken(w.issued);
    var start, insert := [Crash(i), StartOf(i, arrival)], InsertRow(i, id, token, 0, 0, Acked);
    RunTwo(step, w, Crash(i), StartOf(i, arrival));
    Started(step, w, i, arrival, context);
    var started := RunWith(step, w, start);
    actions := start + [insert];
    RunWithJoins(step, w, start, [insert]);
    job := Job(id, arrival.origin, HashFor(w, arrival), token, context);
    RunInsert(step, started, i, job);
  }

  lemma RunInsert(step: StepFunction, w: World, i: nat, job: Job)
    requires RequestRuns(step) && PcOf(w, i) == Inserting(job.origin, job.requestHash, job.context)
    requires job.origin !in w.db.byUserKey && job.id !in w.db.operations && job.token !in w.issued
    ensures AcceptedAs(w, RunWith(step, w, [InsertRow(i, job.id, job.token, 0, 0, Acked)]), i, job)
  {
    RunOne(step, w, InsertRow(i, job.id, job.token, 0, 0, Acked));
    Inserted(w, i, job.origin, job.requestHash, job.context, job.id, job.token);
  }

  /** The accepted pull is paid for, and its worker is about to pull. */
  ghost predicate PaidAs(w: World, w': World, i: nat, job: Job, start: nat)
  {
    && PcOf(w', i) == ReadingPity(job, 1, start)
    && Owns(w'.db, job.id, job.origin.user, job.requestHash, job.token)
    && w'.db.operations[job.id].origin == job.origin && w'.db.operations[job.id].context == Some(job.context)
    && w'.db.byUserKey == w.db.byUserKey[job.origin := job.id] && w'.db.pity == w.db.pity
    && job.origin in w'.ledger.charged && job.origin in w'.frozen && w'.engine == w.engine
    && w'.releases == w.releases && w'.legacy == w.legacy
  }

  /** A request whose key Asset does not know either is accepted and charged. */
  lemma GetsPaid(step: StepFunction, w: World, i: nat, arrival: Arrival, context: PullRecoveryContext)
    returns (actions: seq<Action>, job: Job, start: nat)
    requires AllRuns(step) && Freezes(w, arrival, context) && arrival.origin !in w.db.byUserKey
    requires arrival.origin !in w.ledger.charged && arrival.origin !in w.ledger.rejected
    ensures job.origin == arrival.origin && job.context == context
    ensures PaidAs(w, RunWith(step, w, actions), i, job, start)
  {
    var accepted;
    accepted, job := GetsAccepted(step, w, i, arrival, context);
    var w1 := RunWith(step, w, accepted);
    FreezesItsKey(w, arrival, context);
    var charged;
    charged, start := GetsCharged(step, w1, i, job);
    actions := accepted + charged;
    RunWithJoins(step, w, accepted, charged);
  }

  lemma FreezesItsKey(w: World, arrival: Arrival, context: PullRecoveryContext)
    requires Freezes(w, arrival, context)
    ensures context.eventId == EventId(arrival.origin) && Fits(context, HashFor(w, arrival))
  {
    RequestContextFits(SnapshotOf(w, arrival.source).value, arrival.origin, arrival.request.bannerId,
                       arrival.request.count, SeedFor(w, arrival), arrival.acceptedAt, arrival.engineVersion,
                       arrival.engineBuildSha);
  }

  /** And it is committed, if the engine has an answer for it. */
  lemma GetsDone(step: StepFunction, w: World, i: nat, arrival: Arrival, context: PullRecoveryContext)
    returns (actions: seq<Action>, id: Uuid)
    requires AllRuns(step) && Freezes(w, arrival, context) && arrival.origin !in w.db.byUserKey
    requires arrival.origin !in w.ledger.charged && arrival.origin !in w.ledger.rejected
    requires w.engine(context, StoredPity(w.db, KeyOf(arrival.origin, context)).pity).Ok?
    ensures var w' := RunWith(step, w, actions);
            && id in w'.db.operations && w'.db.operations[id].origin == arrival.origin
            && w'.db.operations[id].status.EventPending? && w'.db.operations[id].response.Some?
            && w'.db.operations[id].response.value.audit == context.audit && w'.releases == w.releases
  {
    var paid, job, start := GetsPaid(step, w, i, arrival, context);
    var w1 := RunWith(step, w, paid);
    var committed := GetsCommitted(step, w1, i, job, start);
    actions, id := paid + committed, job.id;
    RunWithJoins(step, w, paid, committed);
  }

  /** Whatever a release offers at some instant can be asked for. */
  lemma OfferedFreezes(w: World, o: UserKey, releaseId: string, at: Time, bannerId: string, count: int, seed: string)
    returns (arrival: Arrival, context: PullRecoveryContext)
    requires releaseId in w.releases && w.releases[releaseId].id == releaseId && count in {1, 10}
    requires w.releases[releaseId].number.Some? && w.releases[releaseId].sha256.Some?
    requires BuildSnapshot(w.releases[releaseId], at).Ok?
    requires var offer := BuildSnapshot(w.releases[releaseId], at).value.BannerConfigAt(bannerId, at);
             offer.Ok? && offer.value.Some?
    ensures arrival.origin == o && Freezes(w, arrival, context)
    ensures BuildSnapshot(w.releases[releaseId], at).value.BannerConfigAt(bannerId, at)
         == Ok(Some(context.ToBannerConfig()))
    ensures context.count == count && context.audit.Some? && context.audit.value.releaseId == Some(releaseId)
  {
    var s := BuildSnapshot(w.releases[releaseId], at).value;
    var c := s.BannerConfigAt(bannerId, at).value.value;
    var audit := BuildPullAuditMetadata(s, c, "", "").value;
    arrival := Arrival(o, PullRequest(bannerId, count, Some(seed)), FromRelease(releaseId, at), at, "", "");
    context := FromBannerConfig(c, count, seed, EventId(o), count * ASTRITE_PER_PULL, Some(at), Some(audit));
    OfferedIsWellBuilt(w.releases[releaseId], at, bannerId, at);
    FrozenConfigThaws(c, count, seed, EventId(o), count * ASTRITE_PER_PULL, Some(at), Some(audit));
  }

  /** Publishing a release in a world that has just begun. */
  lemma FirstPublished(w0: World, release: Release)
    requires Init(w0)
    ensures Run(w0, [PublishRelease(release)]) == w0.(releases := map[release.id := release])
  {
    ApplyRuns();
    RunIsRunWith(w0, [PublishRelease(release)]);
    RunOne(Apply, w0, PublishRelease(release));
  }
}
