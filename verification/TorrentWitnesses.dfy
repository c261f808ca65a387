// Concrete runs of the torrent model: one for every way in which an owner loses
// its torrent, and two in which a torrent is forgotten.
module TorrentWitnesses {
  import opened Common
  import opened SharedTorrents

  // Acquisition 1 of subscription 7 with download 3, acquisition 2 with download 4.
  function Pair(r3: Download, r4: Download, torrents: set<nat>, enqueues: map<Uuid, Enqueue>): World {
    World(map[1 := Acq(true, 7, false, Unlisted), 2 := Acq(false, 0, false, Unlisted)], map[3 := r3, 4 := r4],
          {}, torrents, enqueues)
  }

  function Row(acq: Uuid, status: Status): Download { Requested(acq).(hash := Hash(5), status := status) }

  lemma Arrive(before: seq<Step>, w: World, s: Step, n: World)
    requires Run(EMPTY, before) == w && Next(w, s) == n
    ensures Run(EMPTY, before + [s]) == n
  {
    Then(EMPTY, before, s);
  }

  lemma FourChanges(r3: Download, r4: Download, torrents: set<nat>, enqueues: map<Uuid, Enqueue>, m: Move)
    ensures var w := Pair(r3, r4, torrents, enqueues);
            Next(w, Change(4, m)) == Pair(r3, Moved(w, 4, m), torrents - HashSet(TakenBy(w, 4, m)), enqueues)
  {
  }

  lemma FourCommits(r3: Download, torrents: set<nat>, own: bool, reject: bool)
    requires r3.hash.NoHash?
    ensures Next(Pair(r3, Requested(2), torrents, map[4 := Added(5, own)]), Record(4, reject))
            == Pair(r3, Row(2, if reject then Rejected else Running).(stopping := reject), torrents, map[])
  {
    assert CanRecord(Pair(r3, Requested(2), torrents, map[4 := Added(5, own)]), 4);
  }

  lemma ThreeCommits(w: World, own: bool)
    requires 3 in w.downloads && w.downloads[3] == Requested(1) && 3 in w.enqueues && w.enqueues[3] == Added(5, own)
    requires forall o | o in w.downloads && o != 3 :: !Indexed(w, o, 5)
    ensures Next(w, Record(3, false))
            == w.(downloads := w.downloads[3 := Row(1, Running)], enqueues := w.enqueues - {3})
  {
  }

  lemma ThreeTakesOver(r4: Download, own: bool)
    requires r4.status.Stopped? || r4.deleted
    ensures Next(Pair(Requested(1), r4, {5}, map[3 := Added(5, own)]), Record(3, false))
            == Pair(Row(1, Running), r4, {5}, map[])
  {
    ThreeCommits(Pair(Requested(1), r4, {5}, map[3 := Added(5, own)]), own);
  }

  lemma ThreeIsRobbed(w: World)
    requires 3 in w.downloads && w.downloads[3] == Row(1, Running) && Counted(w, 1) && 5 !in w.torrents
    ensures !Safe(w)
  {
    assert Owner(w, 3);
  }

  // The worker of download 4 has added torrent 5.
  const START := [Acquire(1, true, 7), Acquire(2, false, 0), Request(3, 1)] + [Request(4, 2)]
  const ADDING := START + [Look(4, 5)] + [Post(4)]
  const ADDED := Pair(Requested(1), Requested(2), {5}, map[4 := Added(5, true)])

  lemma StartIsReachable()
    ensures Run(EMPTY, START) == Pair(Requested(1), Requested(2), {}, map[])
  {
    var w1 := EMPTY.(acqs := map[1 := Acq(true, 7, false, Unlisted)]);
    var w2 := w1.(acqs := w1.acqs[2 := Acq(false, 0, false, Unlisted)]);
    var w3 := w2.(downloads := map[3 := Requested(1)]);
    assert Next(EMPTY, Acquire(1, true, 7)) == w1 && Next(w1, Acquire(2, false, 0)) == w2;
    assert Next(w2, Request(3, 1)) == w3;
    RunThree(EMPTY, Acquire(1, true, 7), Acquire(2, false, 0), Request(3, 1));
    Arrive([Acquire(1, true, 7), Acquire(2, false, 0), Request(3, 1)], w3, Request(4, 2),
           Pair(Requested(1), Requested(2), {}, map[]));
  }

  lemma AddedIsReachable()
    ensures Run(EMPTY, ADDING) == ADDED
  {
    StartIsReachable();
    var w := Pair(Requested(1), Requested(2), {}, map[]);
    PostedIs(w, 4, 5);
    Arrive(START, w, Look(4, 5), Next(w, Look(4, 5)));
    Arrive(START + [Look(4, 5)], Next(w, Look(4, 5)), Post(4), ADDED);
  }

  // Download 4 is stopped while the worker of download 3 has found its torrent.
  const TAKING := ADDING + [Record(4, false)] + [Change(4, Cancel)] + [Look(3, 5)]
  const STOPPED := Row(2, Stopped).(stopping := true)
  const TAKEN := Pair(Requested(1), STOPPED, {5}, map[3 := Added(5, false)])

  lemma TakenIsReachable()
    ensures Run(EMPTY, TAKING) == TAKEN
  {
    AddedIsReachable();
    var w1, w2 := Pair(Requested(1), Row(2, Running), {5}, map[]), Pair(Requested(1), STOPPED, {5}, map[]);
    FourCommits(Requested(1), {5}, true, false);
    Arrive(ADDING, ADDED, Record(4, false), w1);
    FourChanges(Requested(1), Row(2, Running), {5}, map[], Cancel);
    Arrive(ADDING + [Record(4, false)], w1, Change(4, Cancel), w2);
    Arrive(ADDING + [Record(4, false)] + [Change(4, Cancel)], w2, Look(3, 5), TAKEN);
  }

  // ... and download 3 has recorded it.
  const OVER := Pair(Row(1, Running), STOPPED, {5}, map[])

  lemma OverIsReachable()
    ensures Run(EMPTY, TAKING + [Record(3, false)]) == OVER
  {
    TakenIsReachable();
    ThreeTakesOver(STOPPED, false);
    Arrive(TAKING, TAKEN, Record(3, false), OVER);
  }

  // A plain cancel takes the torrent from the download that took it over.
  lemma CancelLosesTorrent()
    ensures !Safe(Run(EMPTY, TAKING + [Record(3, false)] + [Change(4, Reconcile(false))]))
  {
    OverIsReachable();
    FourChanges(Row(1, Running), STOPPED, {5}, map[], Reconcile(false));
    var n := Pair(Row(1, Running), Row(2, Stopped), {}, map[]);
    Arrive(TAKING + [Record(3, false)], OVER, Change(4, Reconcile(false)), n);
    ThreeIsRobbed(n);
  }

  // The other way round, the enqueue commits the hash of a torrent that is gone.
  lemma EnqueueRecordsMissingTorrent()
    ensures !Safe(Run(EMPTY, TAKING + [Change(4, Reconcile(false))] + [Record(3, false)]))
  {
    TakenIsReachable();
    FourChanges(Requested(1), STOPPED, {5}, map[3 := Added(5, false)], Reconcile(false));
    var w := Pair(Requested(1), Row(2, Stopped), {}, map[3 := Added(5, false)]);
    Arrive(TAKING, TAKEN, Change(4, Reconcile(false)), w);
    ThreeCommits(w, false);
    Arrive(TAKING + [Change(4, Reconcile(false))], w, Record(3, false), Next(w, Record(3, false)));
    ThreeIsRobbed(Next(w, Record(3, false)));
  }

  // Acquisition 2 is marked, and its torrent 5 is listed for removal.
  function Condemned(w: World): World {
    w.(acqs := map[1 := Acq(true, 7, false, Unlisted), 2 := Acq(false, 0, true, Listed({5}))])
  }

  lemma DeletionLists(w: World)
    requires w.acqs == OVER.acqs && w.downloads.Keys == {3, 4} && w.downloads[4] == STOPPED
    requires w.downloads[3] == Requested(1) || (w.downloads[3] == Row(1, Running) && 7 in w.archived)
    ensures Next(Next(w, Mark(2)), List(2)) == Condemned(w)
  {
    var m := w.(acqs := map[1 := Acq(true, 7, false, Unlisted), 2 := Acq(false, 0, true, Unlisted)]);
    assert Next(w, Mark(2)) == m;
    DoomedIff(m, 2);
    assert !Preserved(m, 2, 5) && m.downloads[4].hash == Hash(5) && 4 in m.downloads;
    assert Doomed(m, 2) == {5};
    ListedIs(m, 2);
  }

  lemma TorrentStripped(w: World)
    requires w == Condemned(w)
    ensures var n := Next(w, Strip(2, 5));
            5 !in n.torrents && n.downloads == w.downloads && n.archived == w.archived
            && 1 in n.acqs && n.acqs[1] == Acq(true, 7, false, Unlisted)
  {
    StrippedIs(w, 2, {5}, 5);
  }

  // A deletion that listed torrent 5 before download 3 recorded it removes it afterwards.
  lemma StaleListingLosesTorrent()
    ensures !Safe(Run(EMPTY, TAKING + [Mark(2)] + [List(2)] + [Record(3, false)] + [Strip(2, 5)]))
  {
    TakenIsReachable();
    DeletionLists(TAKEN);
    Arrive(TAKING, TAKEN, Mark(2), Next(TAKEN, Mark(2)));
    Arrive(TAKING + [Mark(2)], Next(TAKEN, Mark(2)), List(2), Condemned(TAKEN));
    StaleListing(TAKING + [Mark(2)] + [List(2)]);
  }

  lemma StaleListing(before: seq<Step>)
    requires Run(EMPTY, before) == Condemned(TAKEN)
    ensures !Safe(Run(EMPTY, before + [Record(3, false)] + [Strip(2, 5)]))
  {
    var w := Condemned(TAKEN);
    ThreeCommits(w, false);
    var n := Next(w, Record(3, false));
    Arrive(before, w, Record(3, false), n);
    TorrentStripped(n);
    Arrive(before + [Record(3, false)], n, Strip(2, 5), Next(n, Strip(2, 5)));
    ThreeIsRobbed(Next(n, Strip(2, 5)));
  }

  // Deleting acquisition 2 removes the torrent that download 3 uses, because its
  // subscription is archived; re-activating the subscription comes too late.
  lemma ReactivationLosesTorrent()
    ensures !Safe(Run(EMPTY, TAKING + [Record(3, false)] + [Archive(7)] + [Mark(2)] + [List(2)] + [Strip(2, 5)]
                             + [Activate(7)]))
  {
    OverIsReachable();
    var w, steps := OVER.(archived := {7}), TAKING + [Record(3, false)] + [Archive(7)];
    Arrive(TAKING + [Record(3, false)], OVER, Archive(7), w);
    DeletionLists(w);
    Arrive(steps, w, Mark(2), Next(w, Mark(2)));
    Arrive(steps + [Mark(2)], Next(w, Mark(2)), List(2), Condemned(w));
    Reactivation(steps + [Mark(2)] + [List(2)]);
  }

  lemma Reactivation(before: seq<Step>)
    requires Run(EMPTY, before) == Condemned(OVER.(archived := {7}))
    ensures !Safe(Run(EMPTY, before + [Strip(2, 5)] + [Activate(7)]))
  {
    var w := Condemned(OVER.(archived := {7}));
    TorrentStripped(w);
    var n := Next(w, Strip(2, 5));
    Arrive(before, w, Strip(2, 5), n);
    Arrive(before + [Strip(2, 5)], n, Activate(7), Next(n, Activate(7)));
    ThreeIsRobbed(Next(n, Activate(7)));
  }

  // Two enqueues of one torrent: download 3 finds what the worker of download 4 added and
  // commits first; the worker of download 4 then fails and deletes its own torrent.
  lemma CompensationLosesTorrent()
    ensures !Safe(Run(EMPTY, ADDING + [Look(3, 5)] + [Record(3, false)] + [Fail(4)]))
  {
    AddedIsReachable();
    var w := ADDED.(enqueues := map[3 := Added(5, false), 4 := Added(5, true)]);
    Arrive(ADDING, ADDED, Look(3, 5), w);
    Compensation(ADDING + [Look(3, 5)]);
  }

  lemma Compensation(before: seq<Step>)
    requires Run(EMPTY, before) == ADDED.(enqueues := map[3 := Added(5, false), 4 := Added(5, true)])
    ensures !Safe(Run(EMPTY, before + [Record(3, false)] + [Fail(4)]))
  {
    var w := Run(EMPTY, before);
    ThreeCommits(w, false);
    var n := Next(w, Record(3, false));
    Then(EMPTY, before, Record(3, false));
    Compensated(n);
    Then(EMPTY, before + [Record(3, false)], Fail(4));
    ThreeIsRobbed(Next(n, Fail(4)));
  }

  lemma Compensated(w: World)
    requires 4 in w.enqueues && w.enqueues[4] == Added(5, true)
    ensures var n := Next(w, Fail(4));
            5 !in n.torrents && n.downloads == w.downloads && n.acqs == w.acqs && n.archived == w.archived
  {
  }

  // Download 4 is rejected and its torrent removed; accepting its manifest brings it back without.
  lemma RevivalLosesTorrent()
    ensures !Safe(Run(EMPTY, ADDING + [Record(4, true)] + [Change(4, Reconcile(false))] + [Change(4, Revive)]))
  {
    AddedIsReachable();
    var refused := Row(2, Rejected).(stopping := true);
    var w1, w2 := Pair(Requested(1), refused, {5}, map[]), Pair(Requested(1), Row(2, Rejected), {}, map[]);
    FourCommits(Requested(1), {5}, true, true);
    Arrive(ADDING, ADDED, Record(4, true), w1);
    FourChanges(Requested(1), refused, {5}, map[], Reconcile(false));
    Arrive(ADDING + [Record(4, true)], w1, Change(4, Reconcile(false)), w2);
    FourChanges(Requested(1), Row(2, Rejected), {}, map[], Revive);
    var n := Pair(Requested(1), Row(2, Running), {}, map[]);
    Arrive(ADDING + [Record(4, true)] + [Change(4, Reconcile(false))], w2, Change(4, Revive), n);
    assert 4 in n.downloads && Owner(n, 4);
  }

  // One task of download 4 is imported and another failed, so its clean-up waits; the download
  // is removed, and download 3 adds the same torrent.
  const WAITING := ADDING + [Record(4, false)] + [Change(4, Materialize)] + [Change(4, Work(Stalled))]
                   + [Change(4, Schedule)]
  const REPLACING := WAITING + [Change(4, Remove)] + [Change(4, Finish(true, false))]
                     + [Look(3, 5)] + [Post(3)] + [Record(3, false)]
  const DONE := Row(2, Materialized).(tasks := Stalled, cleanUp := Scheduled)
  const GONE := DONE.(removal := Ended, deleted := true)

  lemma WaitingIsReachable()
    ensures Run(EMPTY, WAITING) == Pair(Requested(1), DONE, {5}, map[])
  {
    AddedIsReachable();
    var r1, r2 := Row(2, Running), Row(2, Materialized).(tasks := Busy);
    var steps := ADDING + [Record(4, false)];
    FourCommits(Requested(1), {5}, true, false);
    Arrive(ADDING, ADDED, Record(4, false), Pair(Requested(1), r1, {5}, map[]));
    FourMoves(steps, r1, {5}, Materialize, r2, {5});
    FourMoves(steps + [Change(4, Materialize)], r2, {5}, Work(Stalled), r2.(tasks := Stalled), {5});
    FourMoves(steps + [Change(4, Materialize)] + [Change(4, Work(Stalled))],
              r2.(tasks := Stalled), {5}, Schedule, DONE, {5});
  }

  lemma FourMoves(before: seq<Step>, r4: Download, torrents: set<nat>, m: Move, now: Download, left: set<nat>)
    requires var w := Pair(Requested(1), r4, torrents, map[]);
             Run(EMPTY, before) == w && now == Moved(w, 4, m) && left == torrents - HashSet(TakenBy(w, 4, m))
    ensures Run(EMPTY, before + [Change(4, m)]) == Pair(Requested(1), now, left, map[])
  {
    FourChanges(Requested(1), r4, torrents, map[], m);
    Then(EMPTY, before, Change(4, m));
  }

  lemma ReplacedIsReachable()
    ensures Run(EMPTY, REPLACING) == Pair(Row(1, Running), GONE, {5}, map[])
  {
    WaitingIsReachable();
    assert !UsedByOther(Pair(Requested(1), DONE, {5}, map[]), 4);
    FourMoves(WAITING, DONE, {5}, Remove, DONE.(removal := Removing(false)), {5});
    FourMoves(WAITING + [Change(4, Remove)], DONE.(removal := Removing(false)), {5}, Finish(true, false), GONE, {});
    Replacement(WAITING + [Change(4, Remove)] + [Change(4, Finish(true, false))]);
  }

  lemma Replacement(before: seq<Step>)
    requires Run(EMPTY, before) == Pair(Requested(1), GONE, {}, map[])
    ensures Run(EMPTY, before + [Look(3, 5)] + [Post(3)] + [Record(3, false)])
            == Pair(Row(1, Running), GONE, {5}, map[])
  {
    var w, posted := Pair(Requested(1), GONE, {}, map[]), Pair(Requested(1), GONE, {5}, map[3 := Added(5, true)]);
    PairPosts(GONE);
    Arrive(before, w, Look(3, 5), Next(w, Look(3, 5)));
    Arrive(before + [Look(3, 5)], Next(w, Look(3, 5)), Post(3), posted);
    ThreeTakesOver(GONE, true);
    Arrive(before + [Look(3, 5)] + [Post(3)], posted, Record(3, false), Pair(Row(1, Running), GONE, {5}, map[]));
  }

  lemma PairPosts(r4: Download)
    ensures Next(Next(Pair(Requested(1), r4, {}, map[]), Look(3, 5)), Post(3))
            == Pair(Requested(1), r4, {5}, map[3 := Added(5, true)])
  {
    PostedIs(Pair(Requested(1), r4, {}, map[]), 3, 5);
  }

  // The failed task is cancelled, and the waiting clean-up takes the torrent of download 3.
  lemma CleanUpLosesTorrent()
    ensures !Safe(Run(EMPTY, REPLACING + [Change(4, Work(Settled))] + [Change(4, Begin)]
                             + [Change(4, Clear(NoCleanUp))]))
  {
    ReplacedIsReachable();
    var r3, settled := Row(1, Running), GONE.(tasks := Settled);
    var steps := REPLACING + [Change(4, Work(Settled))] + [Change(4, Begin)];
    FourChanges(r3, GONE, {5}, map[], Work(Settled));
    Arrive(REPLACING, Pair(r3, GONE, {5}, map[]), Change(4, Work(Settled)), Pair(r3, settled, {5}, map[]));
    FourChanges(r3, settled, {5}, map[], Begin);
    var begun := settled.(cleanUp := Begun);
    Arrive(REPLACING + [Change(4, Work(Settled))], Pair(r3, settled, {5}, map[]), Change(4, Begin),
           Pair(r3, begun, {5}, map[]));
    FourChanges(r3, begun, {5}, map[], Clear(NoCleanUp));
    var n := Pair(r3, settled.(cleanUp := NoCleanUp, cleaned := true), {}, map[]);
    Arrive(steps, Pair(r3, begun, {5}, map[]), Change(4, Clear(NoCleanUp)), n);
    ThreeIsRobbed(n);
  }

  // An enqueue worker that dies after adding the torrent leaves it unrecorded.
  lemma CrashForgetsTorrent()
    ensures var w := Run(EMPTY, ADDING + [Abandon(4)]); 5 in w.torrents && !Recorded(w, 5)
  {
    AddedIsReachable();
    Then(EMPTY, ADDING, Abandon(4));
    assert Next(ADDED, Abandon(4)) == Pair(Requested(1), Requested(2), {5}, map[]);
  }

  // Acquisition 1 is marked, and nothing is listed for removal.
  function Spared(w: World): World {
    w.(acqs := map[1 := Acq(true, 7, true, Listed({})), 2 := Acq(false, 0, false, Unlisted)])
  }

  lemma DeletionSparesForStopped()
    ensures var w := Pair(Row(1, Running), Row(2, Stopped), {5}, map[]);
            Next(Next(w, Mark(1)), List(1)) == Spared(w)
  {
    var w := Pair(Row(1, Running), Row(2, Stopped), {5}, map[]);
    var m := w.(acqs := map[1 := Acq(true, 7, true, Unlisted), 2 := Acq(false, 0, false, Unlisted)]);
    assert Next(w, Mark(1)) == m;
    assert 4 in m.downloads && Live(m, 4) && Preserved(m, 1, 5);
    DoomedIff(m, 1);
    assert Doomed(m, 1) == {};
    ListedIs(m, 1);
  }

  // The stopped download 4, whose cancel never reached the client, keeps the torrent there
  // when acquisition 1 is deleted; retrying it then forgets the torrent.
  lemma RetryForgetsTorrent()
    ensures var w := Run(EMPTY, TAKING + [Record(3, false)] + [Change(4, GiveUp)] + [Mark(1)] + [List(1)]
                                + [Change(4, Reset)]);
            5 in w.torrents && !Recorded(w, 5)
  {
    OverIsReachable();
    var w := Pair(Row(1, Running), Row(2, Stopped), {5}, map[]);
    var steps := TAKING + [Record(3, false)] + [Change(4, GiveUp)];
    FourChanges(Row(1, Running), STOPPED, {5}, map[], GiveUp);
    Arrive(TAKING + [Record(3, false)], OVER, Change(4, GiveUp), w);
    DeletionSparesForStopped();
    Arrive(steps, w, Mark(1), Next(w, Mark(1)));
    Arrive(steps + [Mark(1)], Next(w, Mark(1)), List(1), Spared(w));
    ResetForgets(w);
    Arrive(steps + [Mark(1)] + [List(1)], Spared(w), Change(4, Reset), Next(Spared(w), Change(4, Reset)));
  }

  lemma ResetForgets(w: World)
    requires w == Pair(Row(1, Running), Row(2, Stopped), {5}, map[])
    ensures var n := Next(Spared(w), Change(4, Reset)); 5 in n.torrents && !Recorded(n, 5)
  {
    assert CanReset(Spared(w), 4);
  }
}
