/** What a loaded release offers, told by its version rows; and what that makes of pity: banners of
    one group share it, over every run. */
module OfferedVersions {
  import opened Collections
  import opened CatalogConfig
  import opened Schemas
  import opened PullOperations
  import opened PullAudit
  import opened CatalogAssembly
  import opened CatalogRepository
  import opened VersionRows
  import opened Store
  import opened Protocol
  import opened Invariant
  import opened Safety
  import opened Steps
  import opened Accounting
  import opened AuditOverRuns

  // ---- schedules in force -----------------------------------------------------------------

  ghost predicate OneInForce(schedules: seq<ScheduledBannerConfig>, at: Time)
  {
    exists i :: 0 <= i < |schedules| && schedules[i].IsEffectiveAt(at)
  }

  ghost predicate TwoInForce(schedules: seq<ScheduledBannerConfig>, at: Time)
  {
    exists i, j :: 0 <= i < j < |schedules| && schedules[i].IsEffectiveAt(at) && schedules[j].IsEffectiveAt(at)
  }

  lemma {:induction false} EffectiveCounts(schedules: seq<ScheduledBannerConfig>, at: Time)
    ensures Effective(schedules, at) != [] <==> OneInForce(schedules, at)
    ensures |Effective(schedules, at)| > 1 <==> TwoInForce(schedules, at)
  {
    if schedules != [] {
      var rest := schedules[1..];
      EffectiveCounts(rest, at);
      if OneInForce(rest, at) {
        var i :| 0 <= i < |rest| && rest[i].IsEffectiveAt(at);
        assert schedules[i + 1].IsEffectiveAt(at);
      }
      if TwoInForce(rest, at) {
        var i, j :| 0 <= i < j < |rest| && rest[i].IsEffectiveAt(at) && rest[j].IsEffectiveAt(at);
        assert schedules[i + 1].IsEffectiveAt(at) && schedules[j + 1].IsEffectiveAt(at);
      }
      if TwoInForce(schedules, at) {
        var i, j :| 0 <= i < j < |schedules| && schedules[i].IsEffectiveAt(at) && schedules[j].IsEffectiveAt(at);
        assert rest[j - 1].IsEffectiveAt(at) && (i > 0 ==> rest[i - 1].IsEffectiveAt(at));
      }
      if OneInForce(schedules, at) && !schedules[0].IsEffectiveAt(at) {
        var i :| 0 <= i < |schedules| && schedules[i].IsEffectiveAt(at);
        assert rest[i - 1].IsEffectiveAt(at);
      }
    }
  }

  lemma {:induction false} Twice<T>(s: seq<T>, x: T)
    ensures multiset(s)[x] >= 2 <==> exists i, j :: 0 <= i < j < |s| && s[i] == x == s[j]
  {
    if s != [] {
      Twice(s[1..], x);
      assert s == [s[0]] + s[1..];
      if exists i, j :: 0 <= i < j < |s[1..]| && s[1..][i] == x == s[1..][j] {
        var i, j :| 0 <= i < j < |s[1..]| && s[1..][i] == x == s[1..][j];
        assert s[i + 1] == x == s[j + 1];
      }
      if x in s[1..] && s[0] == x {
        var j :| 0 <= j < |s[1..]| && s[1..][j] == x;
        assert s[0] == x == s[j + 1];
      }
      if exists i, j :: 0 <= i < j < |s| && s[i] == x == s[j] {
        var i, j :| 0 <= i < j < |s| && s[i] == x == s[j];
        assert s[1..][j - 1] == x && (i > 0 ==> s[1..][i - 1] == x);
      }
    }
  }

  lemma TwoRearranged(a: seq<ScheduledBannerConfig>, b: seq<ScheduledBannerConfig>, at: Time)
    requires multiset(a) == multiset(b) && TwoInForce(a, at)
    ensures TwoInForce(b, at)
  {
    var i, j :| 0 <= i < j < |a| && a[i].IsEffectiveAt(at) && a[j].IsEffectiveAt(at);
    if a[i] == a[j] {
      Twice(a, a[i]);
      Twice(b, a[i]);
      var k, l :| 0 <= k < l < |b| && b[k] == a[i] == b[l];
      assert b[k].IsEffectiveAt(at) && b[l].IsEffectiveAt(at);
    } else {
      assert a[i] in multiset(b) && a[j] in multiset(b);
      var k :| 0 <= k < |b| && b[k] == a[i];
      var l :| 0 <= l < |b| && b[l] == a[j];
      assert b[if k < l then k else l].IsEffectiveAt(at) && b[if k < l then l else k].IsEffectiveAt(at);
    }
  }

  lemma OneRearranged(a: seq<ScheduledBannerConfig>, b: seq<ScheduledBannerConfig>, at: Time)
    requires multiset(a) == multiset(b)
    ensures OneInForce(a, at) <==> OneInForce(b, at)
  {
    if OneInForce(a, at) {
      var i :| 0 <= i < |a| && a[i].IsEffectiveAt(at);
      assert a[i] in multiset(b);
    }
    if OneInForce(b, at) {
      var i :| 0 <= i < |b| && b[i].IsEffectiveAt(at);
      assert b[i] in multiset(a);
    }
  }

  // ---- the rows behind a banner's schedules -----------------------------------------------

  ghost predicate BannerInForce(rows: seq<VersionRow>, bannerId: string, at: Time)
  {
    exists i :: 0 <= i < |rows| && rows[i].bannerId == bannerId && InForceAt(rows[i], at)
  }

  ghost predicate BannerOverlaps(rows: seq<VersionRow>, bannerId: string, at: Time)
  {
    exists i, j :: 0 <= i < j < |rows| && rows[i].bannerId == bannerId == rows[j].bannerId
                   && InForceAt(rows[i], at) && InForceAt(rows[j], at)
  }

  /** The entries of a banner's listing are what its rows built, each row's at its place. */
  ghost predicate ComesFrom(build: Builder, rows: seq<VersionRow>, bannerId: string,
                            listing: seq<ScheduledBannerConfig>, places: seq<nat>)
  {
    && Ascending(places) && |places| == |listing|
    && (forall k :: 0 <= k < |places| ==>
          places[k] < |rows| && rows[places[k]].bannerId == bannerId && build(rows[places[k]]) == Ok(listing[k]))
    && (forall i :: 0 <= i < |rows| && rows[i].bannerId == bannerId ==> i in places)
  }

  lemma OtherRowComes(build: Builder, front: seq<VersionRow>, row: VersionRow, bannerId: string,
                      listing: seq<ScheduledBannerConfig>, places: seq<nat>)
    requires ComesFrom(build, front, bannerId, listing, places) && row.bannerId != bannerId
    ensures ComesFrom(build, front + [row], bannerId, listing, places)
  {
    assert forall i :: 0 <= i < |front| ==> (front + [row])[i] == front[i];
  }

  lemma OwnRowComes(build: Builder, front: seq<VersionRow>, row: VersionRow, bannerId: string,
                    listing: seq<ScheduledBannerConfig>, places: seq<nat>)
    requires ComesFrom(build, front, bannerId, listing, places) && row.bannerId == bannerId && build(row).Ok?
    ensures ComesFrom(build, front + [row], bannerId, listing + [build(row).value], places + [|front|])
  {
    var rows, all := front + [row], places + [|front|];
    forall i | 0 <= i < |rows| && rows[i].bannerId == bannerId
      ensures i in all
    {
      if i < |front| {
        assert front[i] == rows[i] && i in places;
      } else {
        assert all[|places|] == i;
      }
    }
  }

  lemma {:induction false} ListingComesFrom(build: Builder, rows: seq<VersionRow>, bannerId: string)
    returns (places: seq<nat>)
    requires AllBuild(build, rows)
    ensures ComesFrom(build, rows, bannerId, Listing(build, rows, bannerId), places)
  {
    if rows == [] {
      places := [];
    } else {
      var front, row := rows[..|rows| - 1], rows[|rows| - 1];
      assert rows == front + [row] && build(row).Ok?;
      var before := ListingComesFrom(build, front, bannerId);
      ListingAppend(build, front, row, bannerId);
      var listing := Listing(build, front, bannerId);
      if row.bannerId == bannerId {
        OwnRowComes(build, front, row, bannerId, listing, before);
        places := before + [|front|];
      } else {
        OtherRowComes(build, front, row, bannerId, listing, before);
        assert listing + [] == listing;
        places := before;
      }
    }
  }

  lemma WindowsAgree(p: Payload, row: VersionRow, s: ScheduledBannerConfig, at: Time)
    requires BuildConfig(p, row) == Ok(s)
    ensures s.IsEffectiveAt(at) <==> InForceAt(row, at)
  {
    BuildsExactly(p, row);
  }

  /** The listing and the rows it comes from are in force alike. */
  ghost predicate InForceAlike(listing: seq<ScheduledBannerConfig>, rows: seq<VersionRow>, places: seq<nat>,
                               bannerId: string, at: Time)
  {
    && Ascending(places) && |places| == |listing|
    && (forall k :: 0 <= k < |places| ==>
          && places[k] < |rows| && rows[places[k]].bannerId == bannerId
          && (listing[k].IsEffectiveAt(at) <==> InForceAt(rows[places[k]], at)))
    && (forall i :: 0 <= i < |rows| && rows[i].bannerId == bannerId ==> i in places)
  }

  lemma AlikeOne(listing: seq<ScheduledBannerConfig>, rows: seq<VersionRow>, places: seq<nat>, bannerId: string,
                 at: Time)
    requires InForceAlike(listing, rows, places, bannerId, at)
    ensures OneInForce(listing, at) <==> BannerInForce(rows, bannerId, at)
  {
    if BannerInForce(rows, bannerId, at) {
      var i :| 0 <= i < |rows| && rows[i].bannerId == bannerId && InForceAt(rows[i], at);
      var k :| 0 <= k < |places| && places[k] == i;
      assert listing[k].IsEffectiveAt(at);
    }
    if OneInForce(listing, at) {
      var k :| 0 <= k < |listing| && listing[k].IsEffectiveAt(at);
      assert InForceAt(rows[places[k]], at);
    }
  }

  lemma ListingOverlap(listing: seq<ScheduledBannerConfig>, rows: seq<VersionRow>, places: seq<nat>, bannerId: string,
                       at: Time)
    requires InForceAlike(listing, rows, places, bannerId, at) && TwoInForce(listing, at)
    ensures BannerOverlaps(rows, bannerId, at)
  {
    var k, l :| 0 <= k < l < |listing| && listing[k].IsEffectiveAt(at) && listing[l].IsEffectiveAt(at);
    assert InForceAt(rows[places[k]], at) && InForceAt(rows[places[l]], at);
  }

  lemma RowsOverlap(listing: seq<ScheduledBannerConfig>, rows: seq<VersionRow>, places: seq<nat>, bannerId: string,
                    at: Time)
    requires InForceAlike(listing, rows, places, bannerId, at) && BannerOverlaps(rows, bannerId, at)
    ensures TwoInForce(listing, at)
  {
    var i, j :| 0 <= i < j < |rows| && rows[i].bannerId == bannerId == rows[j].bannerId
                && InForceAt(rows[i], at) && InForceAt(rows[j], at);
    var k :| 0 <= k < |places| && places[k] == i;
    var l :| 0 <= l < |places| && places[l] == j;
    assert k < l && listing[k].IsEffectiveAt(at) && listing[l].IsEffectiveAt(at);
  }

  lemma ListingOverlaps(p: Payload, bannerId: string, at: Time)
    requires AllBuild(BuilderOf(p), p.versions)
    ensures var listing := Listing(BuilderOf(p), p.versions, bannerId);
            && (TwoInForce(listing, at) <==> BannerOverlaps(p.versions, bannerId, at))
            && (OneInForce(listing, at) <==> BannerInForce(p.versions, bannerId, at))
  {
    var listing, rows := Listing(BuilderOf(p), p.versions, bannerId), p.versions;
    var places := ListingComesFrom(BuilderOf(p), p.versions, bannerId);
    forall k | 0 <= k < |places|
      ensures listing[k].IsEffectiveAt(at) <==> InForceAt(rows[places[k]], at)
    {
      WindowsAgree(p, rows[places[k]], listing[k], at);
    }
    AlikeOne(listing, rows, places, bannerId, at);
    if TwoInForce(listing, at) {
      ListingOverlap(listing, rows, places, bannerId, at);
    }
    if BannerOverlaps(rows, bannerId, at) {
      RowsOverlap(listing, rows, places, bannerId, at);
    }
  }

  // ---- what a loaded release offers -------------------------------------------------------

  lemma SortedCounts(p: Payload, sorted: seq<ScheduledBannerConfig>, bannerId: string, at: Time)
    requires AllBuild(BuilderOf(p), p.versions) && SortsBanner(BuilderOf(p), p.versions, bannerId, sorted)
    ensures TwoInForce(sorted, at) <==> BannerOverlaps(p.versions, bannerId, at)
    ensures OneInForce(sorted, at) <==> BannerInForce(p.versions, bannerId, at)
  {
    var listing := Listing(BuilderOf(p), p.versions, bannerId);
    ListingOverlaps(p, bannerId, at);
    if TwoInForce(sorted, at) {
      TwoRearranged(sorted, listing, at);
    }
    if TwoInForce(listing, at) {
      TwoRearranged(listing, sorted, at);
    }
    OneRearranged(sorted, listing, at);
  }

  /** A version of the banner in force, and what it built. */
  ghost predicate OffersVersion(p: Payload, bannerId: string, at: Time, c: BannerConfig)
  {
    exists i, s :: 0 <= i < |p.versions| && p.versions[i].bannerId == bannerId && InForceAt(p.versions[i], at)
                   && BuiltAs(p, p.versions[i], s) && s.config == c
  }

  lemma EffectiveIsAVersion(p: Payload, sorted: seq<ScheduledBannerConfig>, bannerId: string, at: Time,
                            c: BannerConfig)
    requires AllBuild(BuilderOf(p), p.versions) && SortsBanner(BuilderOf(p), p.versions, bannerId, sorted)
    requires c in Effective(sorted, at)
    ensures OffersVersion(p, bannerId, at, c)
  {
    EffectiveIsScheduled(sorted, at, c);
    var i :| 0 <= i < |sorted| && sorted[i].config == c && sorted[i].IsEffectiveAt(at);
    var listing := Listing(BuilderOf(p), p.versions, bannerId);
    var places := ListingComesFrom(BuilderOf(p), p.versions, bannerId);
    assert sorted[i] in multiset(listing);
    var k :| 0 <= k < |listing| && listing[k] == sorted[i];
    WindowsAgree(p, p.versions[places[k]], listing[k], at);
    BuildsExactly(p, p.versions[places[k]]);
  }

  /** A loaded release offers a banner at an instant exactly if one version of it is in force by its
      own dates, and then what that version's rows say; none in force is no offer, and two are an
      error. */
  lemma OffersExactly(release: Release, loadedAt: Time, bannerId: string, at: Time)
    requires BuildSnapshot(release, loadedAt).Ok?
    ensures var offer, rows := BuildSnapshot(release, loadedAt).value.BannerConfigAt(bannerId, at),
                               release.payload.versions;
            && (offer.Err? <==> BannerOverlaps(rows, bannerId, at))
            && (offer == Ok(None) <==> !BannerInForce(rows, bannerId, at))
            && (offer.Ok? && offer.value.Some? ==> OffersVersion(release.payload, bannerId, at, offer.value.value))
  {
    var p := release.payload;
    var build, rows := BuilderOf(p), p.versions;
    SchedulesExactly(build, rows);
    ActiveExactly(build, rows, loadedAt);
    var schedules := BuildSnapshot(release, loadedAt).value.bannerSchedulesById;
    if bannerId in schedules {
      var sorted := schedules[bannerId];
      SortedCounts(p, sorted, bannerId, at);
      EffectiveCounts(sorted, at);
      NothingScheduled(p, sorted, bannerId);
      if |Effective(sorted, at)| == 1 {
        EffectiveIsAVersion(p, sorted, bannerId, at, Effective(sorted, at)[0]);
      }
    }
  }

  lemma NothingScheduled(p: Payload, sorted: seq<ScheduledBannerConfig>, bannerId: string)
    requires AllBuild(BuilderOf(p), p.versions) && SortsBanner(BuilderOf(p), p.versions, bannerId, sorted)
    requires exists i :: 0 <= i < |p.versions| && p.versions[i].bannerId == bannerId
    ensures sorted != []
  {
    var listing := Listing(BuilderOf(p), p.versions, bannerId);
    var places := ListingComesFrom(BuilderOf(p), p.versions, bannerId);
    assert |sorted| == |multiset(sorted)| == |multiset(listing)| == |listing|;
  }

  // ---- banners of one group share pity ----------------------------------------------------

  lemma OfferedGroup(release: Release, loadedAt: Time, bannerId: string, at: Time)
    requires BuildSnapshot(release, loadedAt).Ok?
    requires var offer := BuildSnapshot(release, loadedAt).value.BannerConfigAt(bannerId, at);
             offer.Ok? && offer.value.Some?
    ensures var c := BuildSnapshot(release, loadedAt).value.BannerConfigAt(bannerId, at).value.value;
            c.banner.id == bannerId && c.pityGroupId == GroupOf(release.payload, bannerId)
  {
    OffersExactly(release, loadedAt, bannerId, at);
  }

  /** The operation was accepted from a release, and froze the group that release names for its
      banner. */
  ghost predicate FrozeItsGroup(w: World, o: UserKey, releaseId: string)
    requires o in w.frozen
  {
    releaseId in w.releases
    && w.frozen[o].context.pityGroupId == GroupOf(w.releases[releaseId].payload, w.frozen[o].context.banner.id)
  }

  lemma FrozenGroup(w: World, o: UserKey, id: string)
    requires AllRequested(w) && o in w.frozen && o !in w.legacy && w.staticCatalog.releaseId.None?
    requires w.frozen[o].context.audit.Some? && w.frozen[o].context.audit.value.releaseId == Some(id)
    ensures FrozeItsGroup(w, o, id)
  {
    var context := w.frozen[o].context;
    assert FrozenRequested(w, o);
    var source, bannerId, count, seed, acceptedAt, version, sha :|
      && SnapshotOf(w, source).Ok?
      && RequestContext(SnapshotOf(w, source).value, o, bannerId, count, seed, acceptedAt, version, sha)
         == Ok(Some(context));
    SourceIsTheRelease(w, source, o, bannerId, count, seed, acceptedAt, version, sha, context, id);
    OfferedGroup(w.releases[id], source.loadedAt, bannerId, acceptedAt);
  }

  /** The operation was accepted from a release that puts its banner in this group. */
  ghost predicate AcceptedIn(w: World, o: UserKey, group: string)
  {
    && Known(w, o) && o !in w.legacy
    && var context := w.frozen[o].context;
       && context.audit.Some? && context.audit.value.releaseId.Some?
       && context.audit.value.releaseId.value in w.releases
       && GroupOf(w.releases[context.audit.value.releaseId.value].payload, context.banner.id) == group
  }

  lemma GroupIsPityKey(w0: World, actions: seq<Action>, o: UserKey, group: string)
    requires Init(w0) && AcceptedIn(Run(w0, actions), o, group)
    ensures var w := Run(w0, actions);
            && KeyOf(o, w.frozen[o].context) == PityKey(o.user, group)
            && (PullOperations.Committed(RowAt(w, o).status) ==> exists i :: CommitsAt(w, PityKey(o.user, group), i, o))
  {
    InitInv(w0);
    RunSafe(w0, actions);
    InitRequested(w0);
    RunKeepsRequested(w0, actions);
    AcceptedHasItsKey(Run(w0, actions), o, group);
  }

  lemma AcceptedHasItsKey(w: World, o: UserKey, group: string)
    requires Inv(w) && AllRequested(w) && w.staticCatalog.releaseId.None? && AcceptedIn(w, o, group)
    ensures KeyOf(o, w.frozen[o].context) == PityKey(o.user, group)
    ensures PullOperations.Committed(RowAt(w, o).status) ==> exists i :: CommitsAt(w, PityKey(o.user, group), i, o)
  {
    FrozenGroup(w, o, w.frozen[o].context.audit.value.releaseId.value);
    KnownRow(w, o);
    if PullOperations.Committed(RowAt(w, o).status) {
      assert CommitsAt(w, PityKey(o.user, group), RowAt(w, o).response.value.stateVersion - 1, o);
    }
  }

  /** A user's pulls on any banners, of any releases, that name one group share one pity: once
      committed they stand in one history, one after the other. */
  lemma OneGroupOnePity(w0: World, actions: seq<Action>, o: UserKey, o': UserKey, group: string)
    requires Init(w0) && AcceptedIn(Run(w0, actions), o, group) && AcceptedIn(Run(w0, actions), o', group)
    requires o.user == o'.user
    requires PullOperations.Committed(RowAt(Run(w0, actions), o).status)
    requires PullOperations.Committed(RowAt(Run(w0, actions), o').status)
    ensures var w, key := Run(w0, actions), PityKey(o.user, group);
            exists i, j :: CommitsAt(w, key, i, o) && CommitsAt(w, key, j, o') && (o != o' ==> i != j)
  {
    GroupIsPityKey(w0, actions, o, group);
    GroupIsPityKey(w0, actions, o', group);
  }
}
