/** Loading catalog snapshots from immutable releases, and the cache in front of it,
    `catalog_repository.py`. */
module CatalogRepository {
  import opened Collections
  import opened CatalogConfig
  import opened CatalogAssembly

  datatype Release = Release(id: string, number: Option<int>, sha256: Option<string>,
                             checksumValid: bool, payload: Payload)

  function BuilderOf(p: Payload): (build: Builder)
  {
    row => BuildConfig(p, row)
  }

  function BuildSnapshot(release: Release, at: Time): (r: Result<CatalogSnapshot, LoadError>)
  {
    var schedules := Schedules(BuilderOf(release.payload), release.payload.versions);
    var active := Active(BuilderOf(release.payload), release.payload.versions, at);
    if !release.checksumValid || schedules.Err? || active.Err? then Err(CatalogLoadError)
    else Ok(CatalogSnapshot(Postgres, at, active.value, schedules.value,
                            Some(release.id), release.number, release.sha256))
  }

  // ---- when a release loads ---------------------------------------------------------------

  /** The release can be loaded at some time at all: its checks pass and every version builds. */
  ghost predicate Buildable(release: Release)
  {
    release.checksumValid && AllBuild(BuilderOf(release.payload), release.payload.versions)
  }

  predicate InForceAt(row: VersionRow, at: Time)
  {
    (row.effectiveFrom.None? || row.effectiveFrom.value <= at) && (row.effectiveTo.None? || at < row.effectiveTo.value)
  }

  /** Two versions of one banner are in force at the instant, by their own dates. */
  ghost predicate OverlapsAt(release: Release, at: Time)
  {
    var rows := release.payload.versions;
    exists i, j :: 0 <= i < j < |rows| && rows[i].bannerId == rows[j].bannerId
                   && InForceAt(rows[i], at) && InForceAt(rows[j], at)
  }

  lemma BuiltWindow(p: Payload, row: VersionRow, at: Time)
    requires BuildConfig(p, row).Ok?
    ensures InForce(BuilderOf(p), row, at) <==> InForceAt(row, at)
  {
  }

  /** A buildable release loads exactly when no two versions of one banner are in force. */
  lemma LoadsExactly(release: Release, at: Time)
    ensures BuildSnapshot(release, at).Ok? <==> Buildable(release) && !OverlapsAt(release, at)
  {
    var build, rows := BuilderOf(release.payload), release.payload.versions;
    SchedulesExactly(build, rows);
    ActiveExactly(build, rows, at);
    if AllBuild(build, rows) {
      forall i | 0 <= i < |rows|
        ensures InForce(build, rows[i], at) <==> InForceAt(rows[i], at)
      {
        assert build(rows[i]).Ok?;
        BuiltWindow(release.payload, rows[i], at);
      }
    }
  }

  method LoadSnapshot(release: Release, at: Time) returns (r: Result<CatalogSnapshot, LoadError>)
    ensures r == BuildSnapshot(release, at)
    ensures r.Ok? <==> Buildable(release) && !OverlapsAt(release, at)
    ensures r.Ok? ==>
              && r.value.releaseId == Some(release.id) && r.value.loadedAt == at
              && SortsSchedules(BuilderOf(release.payload), release.payload.versions, r.value.bannerSchedulesById)
              && ListsActive(BuilderOf(release.payload), release.payload.versions, at, r.value.bannerConfigsById)
  {
    LoadsExactly(release, at);
    SchedulesExactly(BuilderOf(release.payload), release.payload.versions);
    ActiveExactly(BuilderOf(release.payload), release.payload.versions, at);
    if !release.checksumValid {
      return Err(CatalogLoadError);
    }
    var ok, schedules, configs := Assemble(BuilderOf(release.payload), release.payload.versions, at);
    if !ok {
      return Err(CatalogLoadError);
    }
    return Ok(CatalogSnapshot(Postgres, at, configs, schedules, Some(release.id), release.number, release.sha256));
  }

  /** Which configuration a release offers for a banner at an instant does not depend on when
      the release was loaded. */
  lemma LoadTimeIrrelevant(release: Release, at: Time, at': Time, bannerId: string, accepted: Time)
    requires BuildSnapshot(release, at).Ok? && BuildSnapshot(release, at').Ok?
    ensures BuildSnapshot(release, at).value.BannerConfigAt(bannerId, accepted)
         == BuildSnapshot(release, at').value.BannerConfigAt(bannerId, accepted)
  {
    ActiveIsScheduled(BuilderOf(release.payload), release.payload.versions, at);
    ActiveIsScheduled(BuilderOf(release.payload), release.payload.versions, at');
  }

  /** Every configuration a release offers is well built and is the banner's own. */
  lemma OfferedIsWellBuilt(release: Release, at: Time, bannerId: string, accepted: Time)
    requires BuildSnapshot(release, at).Ok?
    requires var offer := BuildSnapshot(release, at).value.BannerConfigAt(bannerId, accepted);
             offer.Ok? && offer.value.Some?
    ensures var offer := BuildSnapshot(release, at).value.BannerConfigAt(bannerId, accepted);
            WellBuilt(offer.value.value) && offer.value.value.banner.id == bannerId
  {
    var p := release.payload;
    ActiveIsScheduled(BuilderOf(p), p.versions, at);
    var schedules := Schedules(BuilderOf(p), p.versions).value[bannerId];
    var effective := Effective(schedules, accepted);
    EffectiveIsScheduled(schedules, accepted, effective[0]);
    var k :| 0 <= k < |schedules| && schedules[k].config == effective[0];
    ScheduledIsBuilt(BuilderOf(p), p.versions, bannerId, schedules[k]);
    var i :| 0 <= i < |p.versions| && p.versions[i].bannerId == bannerId
             && BuildConfig(p, p.versions[i]) == Ok(schedules[k]);
    BuiltConfigIsWellBuilt(p, p.versions[i]);
  }

  // ---- the provider -----------------------------------------------------------------------

  /** A snapshot is what loading its release at its load time gives. */
  ghost predicate LoadedFrom(releases: map<string, Release>, s: CatalogSnapshot)
  {
    && s.releaseId.Some? && s.releaseId.value in releases
    && releases[s.releaseId.value].id == s.releaseId.value
    && BuildSnapshot(releases[s.releaseId.value], s.loadedAt) == Ok(s)
  }

  /** Two snapshots of one release agree on everything an audit reads. */
  lemma SnapshotsOfOneReleaseAgree(releases: map<string, Release>, s: CatalogSnapshot, s': CatalogSnapshot,
                                   bannerId: string, accepted: Time)
    requires LoadedFrom(releases, s) && LoadedFrom(releases, s') && s.releaseId == s'.releaseId
    ensures s.BannerConfigAt(bannerId, accepted) == s'.BannerConfigAt(bannerId, accepted)
    ensures s.releaseNumber == s'.releaseNumber && s.snapshotSha256 == s'.snapshotSha256
  {
    LoadTimeIrrelevant(releases[s.releaseId.value], s.loadedAt, s'.loadedAt, bannerId, accepted);
  }

  /** What the service has when no release is current. */
  function EmptySnapshot(at: Time): (s: CatalogSnapshot)
  {
    CatalogSnapshot(Postgres, at, map[], map[], None, None, None)
  }

  lemma EmptyOffersNothing(at: Time, bannerId: string, accepted: Time)
    ensures EmptySnapshot(at).BannerConfigAt(bannerId, accepted) == Ok(None)
    ensures var empty := EmptySnapshot(at);
            empty.loadedAt == at && empty.releaseId == None && empty.source == Postgres
  {
  }

  class CachedCatalogProvider {
    const ttlSeconds: nat
    var snapshot: Option<CatalogSnapshot>
    var expiresAt: Time

    constructor (ttlSeconds: int)
      ensures snapshot.None? && this.ttlSeconds == if ttlSeconds > 0 then ttlSeconds else 0
    {
      this.ttlSeconds := if ttlSeconds < 0 then 0 else ttlSeconds;
      snapshot, expiresAt := None, 0;
    }

    /** The cached snapshot was loaded from a release that still exists, or when there was none;
        releases are immutable, so this survives new ones being published. */
    ghost predicate Valid(releases: map<string, Release>)
      reads this
    {
      snapshot.Some? ==>
        LoadedFrom(releases, snapshot.value) || snapshot.value == EmptySnapshot(snapshot.value.loadedAt)
    }

    predicate Unexpired(now: Time)
      reads this
    {
      snapshot.Some? && now < expiresAt
    }

    /** There is a snapshot to serve: an unexpired one, or the database answers and no release is
        current or the current one loads. */
    ghost predicate Serves(releases: map<string, Release>, head: Option<string>, answered: bool, now: Time)
      reads this
    {
      || Unexpired(now)
      || (answered && (head.Some? && head.value in releases ==>
                         Buildable(releases[head.value]) && !OverlapsAt(releases[head.value], now)))
    }

    /** The current snapshot: a fresh cached one, else a load of the current release, else an empty
        one.  A failure changes nothing. */
    method GetSnapshot(releases: map<string, Release>, head: Option<string>, answered: bool, now: Time)
      returns (r: Result<CatalogSnapshot, LoadError>)
      requires Valid(releases)
      requires forall id :: id in releases ==> releases[id].id == id
      modifies this
      ensures Valid(releases)
      ensures r.Ok? <==> old(Serves(releases, head, answered, now))
      ensures r.Ok? ==> r == if old(Unexpired(now)) then Ok(old(snapshot).value)
                             else if head.Some? && head.value in releases then BuildSnapshot(releases[head.value], now)
                             else Ok(EmptySnapshot(now))
      ensures if r.Ok? && !old(Unexpired(now)) then snapshot == Some(r.value) && expiresAt == now + ttlSeconds
              else snapshot == old(snapshot) && expiresAt == old(expiresAt)
      ensures if old(snapshot).Some? && now < old(expiresAt) then r == Ok(old(snapshot).value)
              else r.Ok? ==> r.value.loadedAt == now
    {
      if snapshot.Some? && now < expiresAt {
        return Ok(snapshot.value);
      }
      if !answered {
        return Err(CatalogLoadError);
      }
      if head.Some? && head.value in releases {
        r := LoadSnapshot(releases[head.value], now);
      } else {
        r := Ok(EmptySnapshot(now));
      }
      if r.Ok? {
        snapshot := Some(r.value);
        expiresAt := now + ttlSeconds;
      }
    }

    /** The asked release is in the cache, however old. */
    predicate Caches(releaseId: string)
      reads this
    {
      snapshot.Some? && snapshot.value.releaseId == Some(releaseId)
    }

    /** Whether from the cache or from the repository, the snapshot is of the asked release; there
        is one exactly when it is cached, or the database answers, has the release, and the release
        loads now. */
    method GetReleaseSnapshot(releases: map<string, Release>, releaseId: string, answered: bool, now: Time)
      returns (r: Result<CatalogSnapshot, LoadError>)
      requires Valid(releases)
      requires forall id :: id in releases ==> releases[id].id == id
      ensures r.Ok? <==> Caches(releaseId)
                         || (answered && releaseId in releases && Buildable(releases[releaseId])
                             && !OverlapsAt(releases[releaseId], now))
      ensures r.Ok? ==> LoadedFrom(releases, r.value) && r.value.releaseId == Some(releaseId)
      ensures if snapshot.Some? && snapshot.value.releaseId == Some(releaseId) then r == Ok(snapshot.value)
              else r.Ok? ==> r.value.loadedAt == now
    {
      if snapshot.Some? && snapshot.value.releaseId == Some(releaseId) {
        return Ok(snapshot.value);
      }
      if !answered || releaseId !in releases {
        return Err(CatalogLoadError);
      }
      r := LoadSnapshot(releases[releaseId], now);
    }
  }
}
