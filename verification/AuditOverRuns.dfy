/** Every pull the service ever commits from a release verifies against that release. */
module AuditOverRuns {
  import opened Collections
  import opened CatalogConfig
  import opened Schemas
  import opened Engine
  import opened EngineRules
  import opened PullOperations
  import opened PullAudit
  import opened CatalogAssembly
  import opened CatalogRepository
  import opened Store
  import opened Protocol
  import opened Invariant
  import opened Safety
  import opened Steps
  import opened Linearizability

  // ---- where contexts come from -----------------------------------------------------------

  ghost predicate FrozenRequested(w: World, o: UserKey)
  {
    o in w.frozen && o !in w.legacy ==> Requested(w, o, w.frozen[o].context)
  }

  ghost predicate OfferRequested(w: World, i: nat)
  {
    var pc := PcOf(w, i);
    pc.Inserting? && pc.origin !in w.db.byUserKey ==> Requested(w, pc.origin, pc.context)
  }

  ghost predicate ReleasesFiled(w: World)
  {
    forall id :: id in w.releases ==> w.releases[id].id == id
  }

  /** Every context the service froze, or is about to, was made from a snapshot it could have. */
  ghost predicate AllRequested(w: World)
  {
    && ReleasesFiled(w)
    && (forall o {:trigger FrozenRequested(w, o)} :: FrozenRequested(w, o))
    && (forall i {:trigger OfferRequested(w, i)} :: OfferRequested(w, i))
  }

  lemma RequestedGrows(w: World, w': World, o: UserKey, context: PullRecoveryContext)
    requires Grows(w, w') && Requested(w, o, context)
    ensures Requested(w', o, context)
  {
    var source, bannerId, count, seed, acceptedAt, version, sha :|
      && SnapshotOf(w, source).Ok?
      && RequestContext(SnapshotOf(w, source).value, o, bannerId, count, seed, acceptedAt, version, sha)
         == Ok(Some(context));
    assert SnapshotOf(w', source) == SnapshotOf(w, source);
  }

  lemma WorkerKeepsRequested(w: World, w': World, i: nat)
    requires AllRequested(w) && Grows(w, w') && Step(w, w', i)
    ensures AllRequested(w')
  {
    forall o
      ensures FrozenRequested(w', o)
    {
      assert FrozenRequested(w, o) && OfferRequested(w, i);
      if o in w'.frozen && o !in w'.legacy {
        RequestedGrows(w, w', o, w'.frozen[o].context);
      }
    }
    forall j
      ensures OfferRequested(w', j)
    {
      assert OfferRequested(w, j);
      var pc := PcOf(w', j);
      if pc.Inserting? && pc.origin !in w'.db.byUserKey {
        assert pc.origin !in w.db.byUserKey;
        RequestedGrows(w, w', pc.origin, pc.context);
      }
    }
  }

  lemma OutsideFilesReleases(w: World, a: Action)
    requires IsOutside(a) && ReleasesFiled(w)
    ensures ReleasesFiled(ApplyOutside(w, a))
  {
  }

  lemma OutsideKeepsRequested(w: World, w': World)
    requires AllRequested(w) && Grows(w, w') && ReleasesFiled(w')
    requires w'.workers == w.workers && w'.db == w.db && w'.frozen == w.frozen
    ensures AllRequested(w')
  {
    forall o
      ensures FrozenRequested(w', o)
    {
      assert FrozenRequested(w, o);
      if o in w'.frozen && o !in w'.legacy {
        RequestedGrows(w, w', o, w'.frozen[o].context);
      }
    }
    forall j
      ensures OfferRequested(w', j)
    {
      assert OfferRequested(w, j);
      var pc := PcOf(w', j);
      if pc.Inserting? && pc.origin !in w'.db.byUserKey {
        RequestedGrows(w, w', pc.origin, pc.context);
      }
    }
  }

  lemma OutsideActionKeepsRequested(w: World, a: Action, w': World)
    requires AllRequested(w) && IsOutside(a) && w' == ApplyOutside(w, a) && Grows(w, w')
    ensures AllRequested(w')
  {
    OutsideKeeps(w, a);
    OutsideFilesReleases(w, a);
    OutsideKeepsRequested(w, w');
  }

  lemma WorkerActionKeepsRequested(w: World, a: Action, w': World)
    requires AllRequested(w) && ActorOf(a).Some? && w' == Apply(w, a) && Grows(w, w')
    ensures AllRequested(w')
  {
    ActionStep(w, a);
    WorkerKeepsRequested(w, w', a.i);
  }

  lemma ActionKeepsRequested(w: World, a: Action, w': World)
    requires AllRequested(w) && w' == Apply(w, a) && Grows(w, w')
    ensures AllRequested(w')
  {
    if IsOutside(a) {
      AppliesOutside(w, a);
      OutsideActionKeepsRequested(w, a, w');
    } else {
      WorkerActionKeepsRequested(w, a, w');
    }
  }

  lemma {:induction false} RunKeepsRequested(w: World, actions: seq<Action>)
    requires Inv(w) && AllRequested(w)
    ensures AllRequested(Run(w, actions))
    decreases |actions|
  {
    if actions != [] {
      ActionSafe(w, actions[0]);
      ActionKeepsRequested(w, actions[0], Apply(w, actions[0]));
      RunKeepsRequested(Apply(w, actions[0]), actions[1..]);
    }
  }

  lemma InitRequested(w: World)
    requires Init(w)
    ensures AllRequested(w)
  {
    assert w.frozen.Keys == w.legacy;
    forall o ensures FrozenRequested(w, o) { assert o in w.frozen ==> o in w.legacy; }
    forall i ensures OfferRequested(w, i) {}
  }

  // ---- replaying a committed response -----------------------------------------------------

  /** The context's release was loaded once, so it is buildable; the context thaws to the
      configuration the release offers, at any load, for its banner when it was accepted, and its
      audit names that release and digests that configuration. */
  ghost predicate ReleaseBacked(w: World, context: PullRecoveryContext, id: string)
  {
    && id in w.releases && context.acceptedAt.Some? && context.audit.Some? && Buildable(w.releases[id])
    && forall at :: BuildSnapshot(w.releases[id], at).Ok? ==>
         Offers(BuildSnapshot(w.releases[id], at).value, context)
  }

  ghost predicate Offers(s: CatalogSnapshot, context: PullRecoveryContext)
    requires context.acceptedAt.Some? && context.audit.Some?
  {
    && s.BannerConfigAt(context.banner.id, context.acceptedAt.value) == Ok(Some(context.ToBannerConfig()))
    && HasReleaseIdentity(context.audit.value, s)
    && SameRelease(context.audit.value, s, context.ToBannerConfig())
  }

  lemma RequestedFromRelease(releases: map<string, Release>, id: string, loadedAt: Time, o: UserKey, bannerId: string,
                             count: int, seed: string, acceptedAt: Time, version: string, sha: string,
                             context: PullRecoveryContext, at: Time)
    requires id in releases && releases[id].id == id
    requires BuildSnapshot(releases[id], loadedAt).Ok? && BuildSnapshot(releases[id], at).Ok?
    requires RequestContext(BuildSnapshot(releases[id], loadedAt).value, o, bannerId, count, seed, acceptedAt,
                            version, sha)
             == Ok(Some(context))
    ensures context.acceptedAt.Some? && context.audit.Some? && context.audit.value.releaseId == Some(id)
    ensures context.audit.value.engineVersion == version && context.audit.value.engineBuildSha == sha
    ensures Offers(BuildSnapshot(releases[id], at).value, context)
  {
    var s, s' := BuildSnapshot(releases[id], loadedAt).value, BuildSnapshot(releases[id], at).value;
    var c := s.BannerConfigAt(bannerId, acceptedAt).value.value;
    var audit := BuildPullAuditMetadata(s, c, version, sha).value;
    OfferedIsWellBuilt(releases[id], loadedAt, bannerId, acceptedAt);
    FrozenConfigThaws(c, count, seed, EventId(o), count * ASTRITE_PER_PULL, Some(acceptedAt), Some(audit));
    SnapshotsOfOneReleaseAgree(releases, s, s', bannerId, acceptedAt);
  }

  lemma FrozenIsBacked(w: World, o: UserKey, id: string)
    requires AllRequested(w) && o in w.frozen && o !in w.legacy && w.staticCatalog.releaseId.None?
    requires var context := w.frozen[o].context;
             context.audit.Some? && context.audit.value.releaseId == Some(id)
    ensures ReleaseBacked(w, w.frozen[o].context, id)
  {
    var context := w.frozen[o].context;
    assert FrozenRequested(w, o);
    var source, bannerId, count, seed, acceptedAt, version, sha :|
      && SnapshotOf(w, source).Ok?
      && RequestContext(SnapshotOf(w, source).value, o, bannerId, count, seed, acceptedAt, version, sha)
         == Ok(Some(context));
    SourceIsTheRelease(w, source, o, bannerId, count, seed, acceptedAt, version, sha, context, id);
    LoadsExactly(w.releases[id], source.loadedAt);
    forall at | BuildSnapshot(w.releases[id], at).Ok?
      ensures Offers(BuildSnapshot(w.releases[id], at).value, context)
    {
      RequestedFromRelease(w.releases, id, source.loadedAt, o, bannerId, count, seed, acceptedAt, version, sha,
                           context, at);
    }
  }

  lemma SourceIsTheRelease(w: World, source: Source, o: UserKey, bannerId: string, count: int, seed: string,
                           acceptedAt: Time, version: string, sha: string, context: PullRecoveryContext, id: string)
    requires ReleasesFiled(w) && w.staticCatalog.releaseId.None? && SnapshotOf(w, source).Ok?
    requires RequestContext(SnapshotOf(w, source).value, o, bannerId, count, seed, acceptedAt, version, sha)
             == Ok(Some(context))
    requires context.audit.Some? && context.audit.value.releaseId == Some(id)
    ensures source.FromRelease? && source.releaseId == id && id in w.releases && context.acceptedAt.Some?
  {
  }

  lemma FirstRecordIsOfBanner(rng: RandomSource, c: BannerConfig, count: int, pity: PityState, seed: string)
    requires count > 0 && Pulls(rng, c, count, pity, seed).Ok?
    ensures var records := Pulls(rng, c, count, pity, seed).value.records;
            |records| == count && records[0].bannerId == c.banner.id
  {
    EngineCounters(rng, c, count, pity, seed);
  }

  lemma BackedResponseReproduces(w: World, rng: RandomSource, context: PullRecoveryContext, response: PullResponse,
                                 s: CatalogSnapshot)
    requires w.engine == PullEngine(rng) && EngineMade(w, context, response) && context.count > 0
    requires context.acceptedAt.Some? && context.audit.Some? && Offers(s, context)
    ensures Reproduces(rng, response, s)
  {
    var c, pity := context.ToBannerConfig(), response.previousPity.pity;
    assert w.engine(context, pity) == Pulls(rng, c, context.count, pity, context.seed);
    FirstRecordIsOfBanner(rng, c, context.count, pity, context.seed);
  }

  lemma CommittedReproduces(w: World, rng: RandomSource, row: OperationRow, id: string, at: Time)
    requires Inv(w) && AllRequested(w) && w.engine == PullEngine(rng) && w.staticCatalog.releaseId.None?
    requires row.origin in w.frozen && row.origin !in w.legacy && CommittedRowOk(w, row)
    requires row.response.value.audit.Some? && row.response.value.audit.value.releaseId == Some(id)
    ensures id in w.releases && Buildable(w.releases[id])
    ensures BuildSnapshot(w.releases[id], at).Ok? ==>
              Reproduces(rng, row.response.value, BuildSnapshot(w.releases[id], at).value)
  {
    var o, context, response := row.origin, ContextAt(w, row.origin), row.response.value;
    assert EntryOk(w, KeyOf(o, context), response.stateVersion - 1);
    assert FrozenOk(w, o);
    FrozenIsBacked(w, o, id);
    if BuildSnapshot(w.releases[id], at).Ok? {
      BackedResponseReproduces(w, rng, context, response, BuildSnapshot(w.releases[id], at).value);
    }
  }

  /** The committed response of an operation, if its audit names this release. */
  ghost predicate CommittedFrom(w: World, id: Uuid, releaseId: string, response: PullResponse)
  {
    && id in w.db.operations && PullOperations.Committed(w.db.operations[id].status)
    && w.db.operations[id].response == Some(response)
    && response.audit.Some? && response.audit.value.releaseId == Some(releaseId)
  }

  /** Audit completeness: every response committed in any run whose audit names a release
      reproduces from that release at every load, even when the pull was finished by another worker
      after newer releases were published.  The release is there and buildable, so it loads at
      exactly the instants at which no two versions of one banner are in force. */
  lemma CommittedResponsesVerify(w0: World, actions: seq<Action>, rng: RandomSource, id: Uuid, releaseId: string,
                                 response: PullResponse, at: Time)
    requires Init(w0) && w0.engine == PullEngine(rng)
    requires CommittedFrom(Run(w0, actions), id, releaseId, response)
    ensures var w := Run(w0, actions);
            && releaseId in w.releases && Buildable(w.releases[releaseId])
            && (BuildSnapshot(w.releases[releaseId], at).Ok? <==> !OverlapsAt(w.releases[releaseId], at))
            && (!OverlapsAt(w.releases[releaseId], at) ==>
                  Reproduces(rng, response, BuildSnapshot(w.releases[releaseId], at).value))
  {
    var w := Run(w0, actions);
    InitInv(w0);
    RunSafe(w0, actions);
    InitRequested(w0);
    RunKeepsRequested(w0, actions);
    RowKnown(w, id);
    CommittedReproduces(w, rng, w.db.operations[id], releaseId, at);
    LoadsExactly(w.releases[releaseId], at);
  }

  lemma ReachableReleasesFiled(w0: World, actions: seq<Action>)
    requires Init(w0)
    ensures ReleasesFiled(Run(w0, actions))
  {
    InitInv(w0);
    InitRequested(w0);
    RunKeepsRequested(w0, actions);
  }

  /** The audit endpoint for a committed response; None when the recorded release cannot be had.
      A release-backed response is called verified exactly when its release is cached, or the
      database answers and no two versions of one banner of the release are in force now.  Any
      other response is called unverifiable. */
  method AuditPull(provider: CachedCatalogProvider, releases: map<string, Release>, head: Option<string>,
                   answered: bool, rng: RandomSource, response: PullResponse, now: Time,
                   ghost w0: World, ghost actions: seq<Action>, ghost id: Uuid)
    returns (r: Option<Result<Verification, AuditError>>)
    requires Init(w0) && w0.engine == PullEngine(rng)
    requires releases == Run(w0, actions).releases && provider.Valid(releases)
    requires var w := Run(w0, actions);
             && id in w.db.operations && PullOperations.Committed(w.db.operations[id].status)
             && w.db.operations[id].response == Some(response)
    modifies provider
    ensures provider.Valid(releases)
    ensures response.audit.Some? && response.audit.value.releaseId.Some? ==>
              var releaseId := response.audit.value.releaseId.value;
              && releaseId in releases
              && (if old(provider.Caches(releaseId)) || (answered && !OverlapsAt(releases[releaseId], now))
                  then r.Some? && r.value.Ok? && r.value.value.status == Verified
                  else r == None)
    ensures response.audit.None? || response.audit.value.releaseId.None? ==>
              if old(provider.Serves(releases, head, answered, now))
              then r.Some? && r.value.Ok? && r.value.value.status == Unverifiable
              else r == None
  {
    ReachableReleasesFiled(w0, actions);
    var snapshot;
    if response.audit.Some? && response.audit.value.releaseId.Some? {
      var releaseId := response.audit.value.releaseId.value;
      CommittedResponsesVerify(w0, actions, rng, id, releaseId, response, now);
      snapshot := provider.GetReleaseSnapshot(releases, releaseId, answered, now);
      if snapshot.Ok? {
        LoadsExactly(releases[releaseId], snapshot.value.loadedAt);
        CommittedResponsesVerify(w0, actions, rng, id, releaseId, response, snapshot.value.loadedAt);
      }
    } else {
      snapshot := provider.GetSnapshot(releases, head, answered, now);
    }
    if snapshot.Err? {
      return None;
    }
    var verification := VerifyPullResponse(rng, response, snapshot.value);
    return Some(verification);
  }
}
