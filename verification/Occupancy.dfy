// The two occupancy queries: one asked for an RSS release before it is
// enqueued, one asked for a mapping target before it is assigned.  They were
// written independently; each asks whether the target episode is already in
// the catalog, already imported, or being processed by somebody else.
module Occupancy {
  import opened Common

  // A nullable reference and a nullable number; NULL compares equal to nothing.
  datatype Ref = Null | Ref(id: Uuid)

  datatype Num = NoNum | Num(n: int)

  // `single`, `season`, `episode`, `fraction` are the parsed source payload.
  datatype Acq = Acq(
    entry: Ref, profile: Ref, deleting: bool, single: bool, season: Num, episode: Num, fraction: Num)

  datatype Entry = Entry(season: Num, episode: Num, fraction: int)

  datatype Mapping = Mapping(profile: Uuid, season: int, episode: int, fraction: int, target: Ref, mapped: bool)

  datatype Download = Download(acq: Uuid, cancelled: bool, attempt: int, deleted: bool)

  datatype File = File(download: Uuid, selectedVideo: bool, season: Num, episode: Num, fraction: Num)

  // `closed`: imported, rejected or cancelled.
  datatype Task = Task(acq: Uuid, mapping: Ref, closed: bool, imported: bool)

  datatype Resource = OnTask(task: Uuid) | OnDownload(download: Uuid) | Elsewhere

  // `live`: queued or running; `stopping`: cancellation requested or a cancel operation.
  datatype Op = Op(resource: Resource, live: bool, stopping: bool)

  datatype ItemKind = EpisodeItem | SeasonItem | SeriesItem | OtherItem

  datatype Item = Item(
    kind: ItemKind, present: bool, hasFile: bool, tmdb: set<int>, season: Num, episode: Num, parent: Ref, emby: Uuid)

  datatype Episode = Episode(season: Uuid, number: int, tmdb: Num)

  datatype Season = Season(series: Uuid, number: int)

  datatype Subscription = Subscription(series: Uuid, profile: Ref)

  datatype Db = Db(
    acqs: map<Uuid, Acq>, entries: map<Uuid, Entry>, mappings: map<Uuid, Mapping>,
    downloads: map<Uuid, Download>, files: map<Uuid, File>, tasks: map<Uuid, Task>, ops: map<Uuid, Op>,
    items: map<Uuid, Item>, episodes: map<Uuid, Episode>, seasons: map<Uuid, Season>,
    series: map<Uuid, int>, subscriptions: map<Uuid, Subscription>)

  // Foreign keys, and the unique key on the source coordinates of a profile.
  predicate Valid(db: Db) {
    && (forall t | t in db.tasks :: db.tasks[t].acq in db.acqs)
    && (forall a | a in db.acqs && db.acqs[a].entry.Ref? :: db.acqs[a].entry.id in db.entries)
    && (forall e | e in db.episodes :: db.episodes[e].season in db.seasons)
    && (forall s | s in db.seasons :: db.seasons[s].series in db.series)
    && (forall s | s in db.subscriptions :: db.subscriptions[s].series in db.series)
    && (forall m, n | m in db.mappings && n in db.mappings && SameSource(db.mappings[m], db.mappings[n]) :: m == n)
  }

  predicate SameSource(a: Mapping, b: Mapping) {
    a.profile == b.profile && a.season == b.season && a.episode == b.episode && a.fraction == b.fraction
  }

  // -------------------------------------------------------------------- target

  datatype Target = Target(episode: Uuid, tmdb: Num, season: int, number: int, series: int)

  // The target as the RSS query finds it: through the subscription's profile,
  // with the series of the subscription.
  predicate RssTarget(db: Db, sub: Uuid, season: int, episode: int, t: Target)
    requires Valid(db)
  {
    && sub in db.subscriptions
    && t.episode in db.episodes
    && (exists m :: m in db.mappings && MapsTo(db, m, t.episode) && db.mappings[m].mapped
          && Ref(db.mappings[m].profile) == db.subscriptions[sub].profile
          && db.mappings[m].season == season && db.mappings[m].episode == episode && db.mappings[m].fraction == 0)
    && t == Target(t.episode, db.episodes[t.episode].tmdb, db.seasons[db.episodes[t.episode].season].number,
                   db.episodes[t.episode].number, db.series[db.subscriptions[sub].series])
    && t.season > 0
  }

  // One release has at most one target, and never one among the specials.
  lemma RssTargetIsUnique(db: Db, sub: Uuid, season: int, episode: int, t: Target, u: Target)
    requires Valid(db) && RssTarget(db, sub, season, episode, t) && RssTarget(db, sub, season, episode, u)
    ensures t == u
    ensures db.seasons[db.episodes[t.episode].season].number > 0
  {
    var m :| m in db.mappings && MapsTo(db, m, t.episode) && db.mappings[m].mapped
          && Ref(db.mappings[m].profile) == db.subscriptions[sub].profile
          && db.mappings[m].season == season && db.mappings[m].episode == episode && db.mappings[m].fraction == 0;
    var n :| n in db.mappings && MapsTo(db, n, u.episode) && db.mappings[n].mapped
          && Ref(db.mappings[n].profile) == db.subscriptions[sub].profile
          && db.mappings[n].season == season && db.mappings[n].episode == episode && db.mappings[n].fraction == 0;
    assert SameSource(db.mappings[m], db.mappings[n]);
  }

  // The target as the mapping query finds it: by id, inside the given series.
  predicate MappingTarget(db: Db, episode: Uuid, series: Uuid, t: Target)
    requires Valid(db)
  {
    && episode in db.episodes
    && db.seasons[db.episodes[episode].season].series == series
    && t == Target(episode, db.episodes[episode].tmdb, db.seasons[db.episodes[episode].season].number,
                   db.episodes[episode].number, db.series[series])
  }

  predicate MapsTo(db: Db, m: Uuid, target: Uuid) { m in db.mappings && db.mappings[m].target == Ref(target) }

  // ------------------------------------------------------------- shared pieces

  predicate StoppingTask(db: Db, t: Uuid) {
    exists o :: o in db.ops && db.ops[o].resource == OnTask(t) && db.ops[o].live && db.ops[o].stopping
  }

  predicate StoppingDownload(db: Db, d: Uuid) {
    exists o :: o in db.ops && db.ops[o].resource == OnDownload(d) && db.ops[o].live && db.ops[o].stopping
  }

  predicate Busy(db: Db, t: Uuid) requires t in db.tasks { !db.tasks[t].closed || StoppingTask(db, t) }

  predicate Holding(db: Db, d: Uuid)
    requires d in db.downloads
  {
    !db.downloads[d].cancelled || StoppingDownload(db, d)
  }

  predicate Preferred(a: Download, b: Download) {
    (!a.cancelled && b.cancelled) || (a.cancelled == b.cancelled && a.attempt > b.attempt)
  }

  // ORDER BY (status = 'cancelled'), attempt DESC LIMIT 1
  predicate Current(db: Db, a: Uuid, d: Uuid) {
    && d in db.downloads && db.downloads[d].acq == a && !db.downloads[d].deleted
    && forall c | c in db.downloads && db.downloads[c].acq == a && !db.downloads[c].deleted ::
         !Preferred(db.downloads[c], db.downloads[d])
  }

  predicate NoTasks(db: Db, a: Uuid) { forall t | t in db.tasks :: db.tasks[t].acq != a }

  predicate CatalogPresent(db: Db, t: Target) {
    exists i :: i in db.items && InCatalog(db, t, db.items[i])
  }

  predicate InCatalog(db: Db, t: Target, item: Item) {
    && item.kind.EpisodeItem? && item.present && item.hasFile
    && ((t.tmdb.Num? && t.tmdb.n in item.tmdb)
        || (item.season == Num(t.season) && item.episode == Num(t.number)
            && exists s :: s in db.items && db.items[s].kind.SeriesItem? && db.items[s].present
                 && t.series in db.items[s].tmdb && Inside(db, item, db.items[s])))
  }

  predicate Inside(db: Db, item: Item, series: Item) {
    || item.parent == Ref(series.emby)
    || exists s :: s in db.items && db.items[s].kind.SeasonItem? && db.items[s].present
         && item.parent == Ref(db.items[s].emby) && db.items[s].parent == Ref(series.emby)
  }

  // -------------------------------------------------------- the RSS occupancy

  // IS DISTINCT FROM the excluded entry, or no entry excluded.
  predicate Kept(db: Db, a: Uuid, excluded: Ref)
    requires a in db.acqs
  {
    excluded.Null? || db.acqs[a].entry != excluded
  }

  predicate RssManaged(db: Db, target: Uuid, excluded: Ref)
    requires Valid(db)
  {
    exists t :: t in db.tasks && db.tasks[t].mapping.Ref? && MapsTo(db, db.tasks[t].mapping.id, target)
      && db.tasks[t].imported && Kept(db, db.tasks[t].acq, excluded)
  }

  predicate RssTask(db: Db, target: Uuid, excluded: Ref)
    requires Valid(db)
  {
    exists t :: t in db.tasks && db.tasks[t].mapping.Ref? && MapsTo(db, db.tasks[t].mapping.id, target)
      && !db.acqs[db.tasks[t].acq].deleting && Kept(db, db.tasks[t].acq, excluded) && Busy(db, t)
  }

  // An acquisition made from an RSS entry whose coordinates the mapping translates.
  predicate EntryOwns(db: Db, target: Uuid, excluded: Ref, m: Uuid, e: Uuid, a: Uuid, d: Uuid) {
    && MapsTo(db, m, target) && db.mappings[m].mapped
    && e in db.entries
    && db.entries[e].season == Num(db.mappings[m].season) && db.entries[e].episode == Num(db.mappings[m].episode)
    && db.entries[e].fraction == db.mappings[m].fraction
    && a in db.acqs && db.acqs[a].entry == Ref(e) && db.acqs[a].profile == Ref(db.mappings[m].profile)
    && Current(db, a, d) && !db.acqs[a].deleting && Kept(db, a, excluded) && Holding(db, d) && NoTasks(db, a)
  }

  ghost predicate RssEntryOwner(db: Db, target: Uuid, excluded: Ref) {
    exists m, e, a, d :: EntryOwns(db, target, excluded, m, e, a, d)
  }

  // A single-episode acquisition that does not come from RSS.
  predicate SingleOwns(db: Db, target: Uuid, m: Uuid, a: Uuid, d: Uuid) {
    && MapsTo(db, m, target) && db.mappings[m].mapped
    && a in db.acqs && db.acqs[a].profile == Ref(db.mappings[m].profile)
    && Current(db, a, d)
    && db.acqs[a].entry.Null? && db.acqs[a].single && !db.acqs[a].deleting
    && db.acqs[a].season == Num(db.mappings[m].season) && db.acqs[a].episode == Num(db.mappings[m].episode)
    && db.mappings[m].fraction == OrZero(db.acqs[a].fraction)
    && Holding(db, d) && NoTasks(db, a)
  }

  ghost predicate RssSingleOwner(db: Db, target: Uuid) { exists m, a, d :: SingleOwns(db, target, m, a, d) }

  function OrZero(x: Num): int { if x.Num? then x.n else 0 }

  predicate FileMatches(f: File, d: Uuid, m: Mapping) {
    && f.download == d && f.selectedVideo
    && f.season == Num(m.season) && f.episode == Num(m.episode) && f.fraction == Num(m.fraction)
  }

  predicate FileOwns(db: Db, target: Uuid, excluded: Ref, m: Uuid, f: Uuid) {
    && MapsTo(db, m, target) && db.mappings[m].mapped
    && f in db.files && db.files[f].download in db.downloads
    && FileMatches(db.files[f], db.files[f].download, db.mappings[m])
    && var d := db.files[f].download; var a := db.downloads[d].acq;
       && a in db.acqs && db.acqs[a].profile == Ref(db.mappings[m].profile)
       && !db.acqs[a].deleting && Kept(db, a, excluded) && !db.downloads[d].deleted
       && Holding(db, d) && Current(db, a, d) && NoTasks(db, a)
  }

  ghost predicate RssFileOwner(db: Db, target: Uuid, excluded: Ref) {
    exists m, f :: FileOwns(db, target, excluded, m, f)
  }

  ghost predicate RssProcessing(db: Db, target: Uuid, excluded: Ref)
    requires Valid(db)
  {
    RssTask(db, target, excluded) || RssEntryOwner(db, target, excluded) || RssSingleOwner(db, target)
    || RssFileOwner(db, target, excluded)
  }

  // ---------------------------------------------------- the mapping occupancy

  ghost predicate MappingManaged(db: Db, target: Uuid, excluded: Uuid) {
    exists m, t :: MapsTo(db, m, target) && t in db.tasks && db.tasks[t].mapping == Ref(m)
      && db.tasks[t].imported && db.tasks[t].acq != excluded
  }

  // The deletion mark of the owning acquisition is not looked at here.
  ghost predicate MappingTask(db: Db, target: Uuid, excluded: Uuid) {
    exists m, t :: MapsTo(db, m, target) && t in db.tasks && db.tasks[t].mapping == Ref(m)
      && db.tasks[t].acq != excluded && Busy(db, t)
  }

  // COALESCE(entry column, payload column when there is no entry)
  function SourceSeason(db: Db, a: Uuid): Num requires a in db.acqs {
    var acq := db.acqs[a];
    if acq.entry.Ref? && acq.entry.id in db.entries && db.entries[acq.entry.id].season.Num?
    then db.entries[acq.entry.id].season
    else if acq.entry.Null? && acq.single then acq.season else NoNum
  }

  function SourceEpisode(db: Db, a: Uuid): Num requires a in db.acqs {
    var acq := db.acqs[a];
    if acq.entry.Ref? && acq.entry.id in db.entries && db.entries[acq.entry.id].episode.Num?
    then db.entries[acq.entry.id].episode
    else if acq.entry.Null? && acq.single then acq.episode else NoNum
  }

  function SourceFraction(db: Db, a: Uuid): int requires a in db.acqs {
    var acq := db.acqs[a];
    if acq.entry.Ref? && acq.entry.id in db.entries then db.entries[acq.entry.id].fraction
    else if acq.entry.Null? && acq.single && acq.fraction.Num? then acq.fraction.n else 0
  }

  predicate AcqOwns(db: Db, target: Uuid, excluded: Uuid, m: Uuid, a: Uuid, d: Uuid) {
    && MapsTo(db, m, target) && a in db.acqs && db.acqs[a].profile == Ref(db.mappings[m].profile)
    && Current(db, a, d)
    && a != excluded && !db.acqs[a].deleting && db.mappings[m].mapped
    && SourceSeason(db, a) == Num(db.mappings[m].season) && SourceEpisode(db, a) == Num(db.mappings[m].episode)
    && db.mappings[m].fraction == SourceFraction(db, a)
    && Holding(db, d) && NoTasks(db, a)
  }

  ghost predicate MappingOwner(db: Db, target: Uuid, excluded: Uuid) {
    exists m, a, d :: AcqOwns(db, target, excluded, m, a, d)
  }

  predicate AcqFileOwns(db: Db, target: Uuid, excluded: Uuid, m: Uuid, a: Uuid, d: Uuid, f: Uuid) {
    && MapsTo(db, m, target) && a in db.acqs && db.acqs[a].profile == Ref(db.mappings[m].profile)
    && Current(db, a, d)
    && f in db.files && FileMatches(db.files[f], d, db.mappings[m])
    && a != excluded && !db.acqs[a].deleting && db.mappings[m].mapped
    && Holding(db, d) && NoTasks(db, a)
  }

  ghost predicate MappingFileOwner(db: Db, target: Uuid, excluded: Uuid) {
    exists m, a, d, f :: AcqFileOwns(db, target, excluded, m, a, d, f)
  }

  ghost predicate MappingProcessing(db: Db, target: Uuid, excluded: Uuid) {
    MappingTask(db, target, excluded) || MappingOwner(db, target, excluded) || MappingFileOwner(db, target, excluded)
  }

  // ---------------------------------------------------------------- agreement

  // The excluded acquisition is the one made from the excluded entry; the unique
  // key on acquisitions.rss_entry_id makes it the only one.  With no entry
  // excluded, the excluded id belongs to no acquisition.
  predicate SameExclusion(db: Db, entry: Ref, acq: Uuid) {
    forall a | a in db.acqs :: a == acq <==> entry.Ref? && db.acqs[a].entry == entry
  }

  // A busy task whose acquisition is already marked for deletion.
  predicate DeletingTask(db: Db, target: Uuid, excluded: Uuid)
    requires Valid(db)
  {
    exists t :: t in db.tasks && db.tasks[t].mapping.Ref? && MapsTo(db, db.tasks[t].mapping.id, target)
      && db.tasks[t].acq != excluded && db.acqs[db.tasks[t].acq].deleting && Busy(db, t)
  }

  lemma ManagedAgree(db: Db, target: Uuid, entry: Ref, acq: Uuid)
    requires Valid(db) && SameExclusion(db, entry, acq)
    ensures RssManaged(db, target, entry) <==> MappingManaged(db, target, acq)
  {
    if RssManaged(db, target, entry) {
      var t :| t in db.tasks && db.tasks[t].mapping.Ref? && MapsTo(db, db.tasks[t].mapping.id, target)
               && db.tasks[t].imported && Kept(db, db.tasks[t].acq, entry);
      assert db.tasks[t].mapping == Ref(db.tasks[t].mapping.id) && db.tasks[t].acq != acq;
    }
  }

  lemma TasksAgree(db: Db, target: Uuid, entry: Ref, acq: Uuid)
    requires Valid(db) && SameExclusion(db, entry, acq)
    ensures MappingTask(db, target, acq) <==> RssTask(db, target, entry) || DeletingTask(db, target, acq)
  {
    if RssTask(db, target, entry) {
      var t :| t in db.tasks && db.tasks[t].mapping.Ref? && MapsTo(db, db.tasks[t].mapping.id, target)
               && !db.acqs[db.tasks[t].acq].deleting && Kept(db, db.tasks[t].acq, entry) && Busy(db, t);
      assert db.tasks[t].mapping == Ref(db.tasks[t].mapping.id) && db.tasks[t].acq != acq;
    }
    if DeletingTask(db, target, acq) {
      var t :| t in db.tasks && db.tasks[t].mapping.Ref? && MapsTo(db, db.tasks[t].mapping.id, target)
               && db.tasks[t].acq != acq && db.acqs[db.tasks[t].acq].deleting && Busy(db, t);
      assert db.tasks[t].mapping == Ref(db.tasks[t].mapping.id);
    }
  }

  // The entry branch and the single-episode branch together are the one
  // coalescing branch of the other query.
  lemma OwnersAgree(db: Db, target: Uuid, entry: Ref, acq: Uuid)
    requires Valid(db) && SameExclusion(db, entry, acq)
    ensures MappingOwner(db, target, acq) <==> RssEntryOwner(db, target, entry) || RssSingleOwner(db, target)
  {
    if RssEntryOwner(db, target, entry) {
      var m, e, a, d :| EntryOwns(db, target, entry, m, e, a, d);
      assert AcqOwns(db, target, acq, m, a, d);
    }
    if RssSingleOwner(db, target) {
      var m, a, d :| SingleOwns(db, target, m, a, d);
      assert AcqOwns(db, target, acq, m, a, d);
    }
    if MappingOwner(db, target, acq) {
      var m, a, d :| AcqOwns(db, target, acq, m, a, d);
      if db.acqs[a].entry.Ref? {
        assert EntryOwns(db, target, entry, m, db.acqs[a].entry.id, a, d);
      } else {
        assert SingleOwns(db, target, m, a, d);
      }
    }
  }

  lemma FileOwnersAgree(db: Db, target: Uuid, entry: Ref, acq: Uuid)
    requires Valid(db) && SameExclusion(db, entry, acq)
    ensures MappingFileOwner(db, target, acq) <==> RssFileOwner(db, target, entry)
  {
    if RssFileOwner(db, target, entry) {
      var m, f :| FileOwns(db, target, entry, m, f);
      var d := db.files[f].download;
      assert AcqFileOwns(db, target, acq, m, db.downloads[d].acq, d, f);
    }
    if MappingFileOwner(db, target, acq) {
      var m, a, d, f :| AcqFileOwns(db, target, acq, m, a, d, f);
      assert FileOwns(db, target, entry, m, f);
    }
  }

  // For every database: the RSS answer implies the mapping answer, and the only
  // thing the mapping query sees beyond it is a busy task under deletion.
  lemma ProcessingDiffersByDeletion(db: Db, target: Uuid, entry: Ref, acq: Uuid)
    requires Valid(db) && SameExclusion(db, entry, acq)
    ensures MappingProcessing(db, target, acq) <==> RssProcessing(db, target, entry) || DeletingTask(db, target, acq)
  {
    TasksAgree(db, target, entry, acq);
    OwnersAgree(db, target, entry, acq);
    FileOwnersAgree(db, target, entry, acq);
  }

  // ------------------------------------------------------ what the flags mean

  // A path up the catalogue: an episode, possibly its season, and the series that holds it, all of them present.
  predicate Ascends(db: Db, path: seq<Uuid>) {
    && 2 <= |path| <= 3
    && (forall p | p in path :: p in db.items && db.items[p].present)
    && (forall k | 0 <= k < |path| - 1 :: db.items[path[k]].parent == Ref(db.items[path[k + 1]].emby))
    && db.items[path[0]].kind.EpisodeItem? && db.items[path[|path| - 1]].kind.SeriesItem?
    && (|path| == 3 ==> db.items[path[1]].kind.SeasonItem?)
  }

  // Main result: the target is in the catalogue exactly when a present episode item with a file carries its TMDB id,
  // or has its season and episode number and a path up to the item of its series.
  lemma CatalogIff(db: Db, t: Target)
    ensures CatalogPresent(db, t) <==>
              exists i :: i in db.items && db.items[i].kind.EpisodeItem? && db.items[i].present && db.items[i].hasFile
                && (|| (t.tmdb.Num? && t.tmdb.n in db.items[i].tmdb)
                    || (&& db.items[i].season == Num(t.season) && db.items[i].episode == Num(t.number)
                        && exists path :: Ascends(db, path) && path[0] == i
                             && t.series in db.items[path[|path| - 1]].tmdb))
  {
    forall i | i in db.items && db.items[i].kind.EpisodeItem? && db.items[i].present
      ensures (exists s :: s in db.items && db.items[s].kind.SeriesItem? && db.items[s].present
                 && t.series in db.items[s].tmdb && Inside(db, db.items[i], db.items[s]))
              <==> exists path :: Ascends(db, path) && path[0] == i && t.series in db.items[path[|path| - 1]].tmdb
    {
      PathIff(db, t, i);
    }
  }

  lemma PathIff(db: Db, t: Target, i: Uuid)
    requires i in db.items && db.items[i].kind.EpisodeItem? && db.items[i].present
    ensures (exists s :: s in db.items && db.items[s].kind.SeriesItem? && db.items[s].present
               && t.series in db.items[s].tmdb && Inside(db, db.items[i], db.items[s]))
            <==> exists path :: Ascends(db, path) && path[0] == i && t.series in db.items[path[|path| - 1]].tmdb
  {
    if s :| s in db.items && db.items[s].kind.SeriesItem? && db.items[s].present
            && t.series in db.items[s].tmdb && Inside(db, db.items[i], db.items[s]) {
      if db.items[i].parent == Ref(db.items[s].emby) {
        assert Ascends(db, [i, s]);
      } else {
        var c :| c in db.items && db.items[c].kind.SeasonItem? && db.items[c].present
                 && db.items[i].parent == Ref(db.items[c].emby) && db.items[c].parent == Ref(db.items[s].emby);
        assert Ascends(db, [i, c, s]);
      }
    }
    if path :| Ascends(db, path) && path[0] == i && t.series in db.items[path[|path| - 1]].tmdb {
      var s := path[|path| - 1];
      assert s in path && path[1] in path;
      assert Inside(db, db.items[i], db.items[s]);
    }
  }

  predicate LiveStop(db: Db, r: Resource) {
    exists o :: o in db.ops && db.ops[o].resource == r && db.ops[o].live && db.ops[o].stopping
  }

  // Neither the files of download d nor the release its acquisition was made from have the coordinates of a mapping
  // to the target in the acquisition's profile.
  predicate Unrelated(db: Db, d: Uuid, target: Uuid)
    requires Valid(db) && d in db.downloads
  {
    db.downloads[d].acq in db.acqs ==>
      var acq := db.acqs[db.downloads[d].acq];
      forall m | m in db.mappings && db.mappings[m].mapped && db.mappings[m].target == Ref(target)
                 && acq.profile == Ref(db.mappings[m].profile) ::
        && (forall f | f in db.files && db.files[f].download == d && db.files[f].selectedVideo ::
              || db.files[f].season != Num(db.mappings[m].season) || db.files[f].episode != Num(db.mappings[m].episode)
              || db.files[f].fraction != Num(db.mappings[m].fraction))
        && (acq.entry.Ref? ==>
              var entry := db.entries[acq.entry.id];
              || entry.season != Num(db.mappings[m].season) || entry.episode != Num(db.mappings[m].episode)
              || entry.fraction != db.mappings[m].fraction)
        && (acq.entry.Null? && acq.single ==>
              || acq.season != Num(db.mappings[m].season) || acq.episode != Num(db.mappings[m].episode)
              || db.mappings[m].fraction != (if acq.fraction.Num? then acq.fraction.n else 0))
  }

  // A download that does not speak for the target.
  predicate IdleDownload(db: Db, d: Uuid, target: Uuid)
    requires Valid(db) && d in db.downloads
  {
    || Unrelated(db, d, target)
    || (db.downloads[d].acq in db.acqs && db.acqs[db.downloads[d].acq].deleting)
    || (db.downloads[d].cancelled && !LiveStop(db, OnDownload(d)))
    || exists t :: t in db.tasks && db.tasks[t].acq == db.downloads[d].acq
  }

  lemma IdleOwnsNothing(db: Db, target: Uuid, entry: Ref, acq: Uuid, m: Uuid, e: Uuid, a: Uuid, d: Uuid)
    requires Valid(db) && d in db.downloads && IdleDownload(db, d, target)
    ensures !EntryOwns(db, target, entry, m, e, a, d) && !SingleOwns(db, target, m, a, d)
    ensures !AcqOwns(db, target, acq, m, a, d)
  {
  }

  lemma IdleOwnsNoFile(db: Db, target: Uuid, entry: Ref, acq: Uuid, m: Uuid, a: Uuid, d: Uuid, f: Uuid)
    requires Valid(db) && d in db.downloads && IdleDownload(db, d, target)
    ensures !AcqFileOwns(db, target, acq, m, a, d, f)
    ensures f in db.files && db.files[f].download == d ==> !FileOwns(db, target, entry, m, f)
  {
  }

  // A target is free for both queries once every task mapped to it is closed and not stopping, and every download has
  // nothing to do with it, or is being deleted with its acquisition, or is stopped with its operations ended; the
  // downloads of an acquisition that has tasks do not count, its tasks speak for it.
  lemma IdleTargetIsFree(db: Db, target: Uuid, entry: Ref, acq: Uuid)
    requires Valid(db)
    requires forall t, m | t in db.tasks && m in db.mappings && db.tasks[t].mapping == Ref(m)
                           && db.mappings[m].target == Ref(target) :: db.tasks[t].closed && !LiveStop(db, OnTask(t))
    requires forall d | d in db.downloads :: IdleDownload(db, d, target)
    ensures !RssProcessing(db, target, entry) && !MappingProcessing(db, target, acq)
  {
    assert !RssTask(db, target, entry) && !MappingTask(db, target, acq);
    forall m, e, a, d ensures !EntryOwns(db, target, entry, m, e, a, d) {
      if d in db.downloads { IdleOwnsNothing(db, target, entry, acq, m, e, a, d); }
    }
    forall m, a, d ensures !SingleOwns(db, target, m, a, d) && !AcqOwns(db, target, acq, m, a, d) {
      if d in db.downloads { IdleOwnsNothing(db, target, entry, acq, m, 0, a, d); }
    }
    forall m, f ensures !FileOwns(db, target, entry, m, f) {
      if f in db.files && db.files[f].download in db.downloads {
        IdleOwnsNoFile(db, target, entry, acq, m, 0, db.files[f].download, f);
      }
    }
    forall m, a, d, f ensures !AcqFileOwns(db, target, acq, m, a, d, f) {
      if d in db.downloads { IdleOwnsNoFile(db, target, entry, acq, m, a, d, f); }
    }
  }

  // Both queries call a target imported exactly when a task of another acquisition that is mapped to it is.
  lemma ManagedIff(db: Db, target: Uuid, entry: Ref, acq: Uuid)
    requires Valid(db) && SameExclusion(db, entry, acq)
    ensures RssManaged(db, target, entry) <==>
              exists t, m :: t in db.tasks && m in db.mappings && db.tasks[t].mapping == Ref(m)
                && db.mappings[m].target == Ref(target) && db.tasks[t].imported && db.tasks[t].acq != acq
    ensures MappingManaged(db, target, acq) <==> RssManaged(db, target, entry)
  {
    ManagedAgree(db, target, entry, acq);
    if t, m :| t in db.tasks && m in db.mappings && db.tasks[t].mapping == Ref(m)
               && db.mappings[m].target == Ref(target) && db.tasks[t].imported && db.tasks[t].acq != acq {
      assert MapsTo(db, m, target);
    }
  }

  // A task mapped to the target that is open, or still stopping, occupies it for every other acquisition; the RSS
  // query lets it go as soon as its own acquisition is being deleted.
  lemma OpenTaskOccupies(db: Db, target: Uuid, entry: Ref, acq: Uuid, t: Uuid, m: Uuid)
    requires Valid(db) && SameExclusion(db, entry, acq)
    requires t in db.tasks && m in db.mappings && db.tasks[t].mapping == Ref(m) && db.mappings[m].target == Ref(target)
    requires db.tasks[t].acq != acq && (!db.tasks[t].closed || LiveStop(db, OnTask(t)))
    ensures MappingProcessing(db, target, acq)
    ensures !db.acqs[db.tasks[t].acq].deleting ==> RssProcessing(db, target, entry)
  {
    assert MapsTo(db, m, target) && Busy(db, t);
  }

  // A download that runs, or is still stopping, occupies the target of each of its selected videos, as long as it is
  // the current one of an acquisition without tasks that is not being deleted.
  lemma OpenDownloadOccupies(db: Db, target: Uuid, entry: Ref, acq: Uuid, m: Uuid, f: Uuid)
    requires Valid(db) && SameExclusion(db, entry, acq)
    requires m in db.mappings && db.mappings[m].mapped && db.mappings[m].target == Ref(target)
    requires f in db.files && db.files[f].selectedVideo
    requires db.files[f].season == Num(db.mappings[m].season) && db.files[f].episode == Num(db.mappings[m].episode)
    requires db.files[f].fraction == Num(db.mappings[m].fraction)
    requires db.files[f].download in db.downloads && !db.downloads[db.files[f].download].deleted
    requires var d := db.files[f].download; !db.downloads[d].cancelled || LiveStop(db, OnDownload(d))
    requires forall c | c in db.downloads && db.downloads[c].acq == db.downloads[db.files[f].download].acq
                        && !db.downloads[c].deleted && c != db.files[f].download ::
               var d := db.files[f].download;
               || (db.downloads[c].cancelled && !db.downloads[d].cancelled)
               || (db.downloads[c].cancelled == db.downloads[d].cancelled
                   && db.downloads[c].attempt <= db.downloads[d].attempt)
    requires var a := db.downloads[db.files[f].download].acq;
             && a in db.acqs && a != acq && !db.acqs[a].deleting && db.acqs[a].profile == Ref(db.mappings[m].profile)
             && forall t | t in db.tasks :: db.tasks[t].acq != a
    ensures RssProcessing(db, target, entry) && MappingProcessing(db, target, acq)
  {
    var d := db.files[f].download;
    assert MapsTo(db, m, target) && Current(db, db.downloads[d].acq, d) && Holding(db, d);
    assert FileOwns(db, target, entry, m, f);
    ProcessingDiffersByDeletion(db, target, entry, acq);
  }

  datatype Flags = Flags(catalog: bool, managed: bool, processing: bool)

  ghost function RssOccupancy(db: Db, t: Target, excluded: Ref): Flags
    requires Valid(db)
  {
    Flags(CatalogPresent(db, t), RssManaged(db, t.episode, excluded), RssProcessing(db, t.episode, excluded))
  }

  // Without a target row every EXISTS over it is false.
  ghost function MappingOccupancy(db: Db, episode: Uuid, series: Uuid, excluded: Uuid): Flags
    requires Valid(db)
  {
    if exists t :: MappingTarget(db, episode, series, t) then
      var t :| MappingTarget(db, episode, series, t);
      Flags(CatalogPresent(db, t), MappingManaged(db, episode, excluded), MappingProcessing(db, episode, excluded))
    else Flags(false, false, false)
  }

  // For a target inside the subscription's series the two queries give the same
  // catalogue and managed-import flags, and the mapping query reports processing
  // exactly when the RSS query does or a busy task is under deletion.  Outside that
  // series the mapping query finds no target and reports nothing.
  lemma OccupanciesAgree(db: Db, sub: Uuid, season: int, episode: int, t: Target, entry: Ref, acq: Uuid)
    requires Valid(db) && RssTarget(db, sub, season, episode, t) && SameExclusion(db, entry, acq)
    ensures var rss, series := RssOccupancy(db, t, entry), db.subscriptions[sub].series;
            MappingOccupancy(db, t.episode, series, acq)
            == if db.seasons[db.episodes[t.episode].season].series == series
               then rss.(processing := rss.processing || DeletingTask(db, t.episode, acq))
               else Flags(false, false, false)
  {
    var series := db.subscriptions[sub].series;
    assert MappingTarget(db, t.episode, series, t) <==> db.seasons[db.episodes[t.episode].season].series == series;
    assert forall u :: MappingTarget(db, t.episode, series, u) ==> u == t;
    ManagedAgree(db, t.episode, entry, acq);
    ProcessingDiffersByDeletion(db, t.episode, entry, acq);
  }

  // One season with one episode, mapped by the profile of a subscription, and one
  // queued task for it whose acquisition is being deleted.
  const UNDER_DELETION := Db(
    map[7 := Acq(Null, Ref(5), true, false, NoNum, NoNum, NoNum)], map[],
    map[6 := Mapping(5, 1, 1, 0, Ref(3), true)], map[], map[], map[8 := Task(7, Ref(6), false, false)], map[], map[],
    map[3 := Episode(2, 1, NoNum)], map[2 := Season(1, 1)], map[1 := 100], map[4 := Subscription(1, Ref(5))])

  // The disagreement is real.
  lemma DeletionDisagrees()
    ensures var db, t := UNDER_DELETION, Target(3, NoNum, 1, 1, 100);
            && Valid(db) && RssTarget(db, 4, 1, 1, t) && SameExclusion(db, Null, 9)
            && RssOccupancy(db, t, Null) == Flags(false, false, false)
            && MappingOccupancy(db, 3, 1, 9) == Flags(false, false, true)
  {
    var db, t := UNDER_DELETION, Target(3, NoNum, 1, 1, 100);
    assert Valid(db) && SameExclusion(db, Null, 9);
    assert 6 in db.mappings && MapsTo(db, 6, 3);
    assert RssTarget(db, 4, 1, 1, t);
    assert 8 in db.tasks && Busy(db, 8) && MapsTo(db, db.tasks[8].mapping.id, 3);
    assert DeletingTask(db, 3, 9);
    assert !RssProcessing(db, 3, Null) && !RssManaged(db, 3, Null) && !CatalogPresent(db, t);
    OccupanciesAgree(db, 4, 1, 1, t, Null, 9);
  }
}
