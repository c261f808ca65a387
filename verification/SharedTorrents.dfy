// Torrents in the download client and the rows that record them.  Several
// downloads may record one hash, but only one that is neither stopped nor
// removed.  Workers talk to the client outside every transaction: they read rows,
// add or delete torrents, and write rows later, each under its own rule.
module SharedTorrents {
  import opened Common

  datatype Hash = NoHash | Hash(h: nat)

  // Queued: enqueue_pending, or failed there, without a hash.  Rejected: failed because its
  // files were refused.  Stopped: cancelled.  Running: every other status with a hash.
  datatype Status = Queued | Running | Rejected | Stopped | Materialized

  // The episode tasks of the download.  Busy: one forbids a removal.  Stalled: none does, but
  // one has failed, so a clean-up has to wait.  Settled: all are imported, rejected or cancelled.
  datatype Tasks = Busy | Stalled | Settled

  // The user's removal; `preserve` was decided when it was requested.
  datatype Removal = Kept | Removing(preserve: bool) | Ended

  // The clean-up runs after imports.  Begun: one has read that no task is unfinished.
  datatype CleanUp = NoCleanUp | Scheduled | Begun

  // `stopping`: a download.cancel operation of a cancel or a rejection is still to reach the
  // client; `cleaned`: a clean-up took the torrent out of the client.
  datatype Download = Download(
    acq: Uuid, hash: Hash, status: Status, tasks: Tasks, deleted: bool, stopping: bool,
    removal: Removal, cleanUp: CleanUp, cleaned: bool)

  // An enqueue worker between looking into the client and its commit.  Looked: the torrent was
  // not there.  Added: it is known to be there, and `own` if this worker added it.
  datatype Enqueue = Looked(h: nat) | Added(h: nat, own: bool)

  // What the deletion worker listed and has not yet removed.
  datatype Listing = Unlisted | Listed(left: set<nat>)

  // `sub` is meaningful for acquisitions made from RSS; `marked` is deletion_requested_at.
  datatype Acq = Acq(rss: bool, sub: Uuid, marked: bool, listing: Listing)

  // `torrents` are the hashes present in the client, `archived` the subscriptions
  // with deleted_at set, `enqueues` the enqueue workers under way.
  datatype World = World(
    acqs: map<Uuid, Acq>, downloads: map<Uuid, Download>, archived: set<Uuid>, torrents: set<nat>,
    enqueues: map<Uuid, Enqueue>)

  const EMPTY := World(map[], map[], {}, {}, map[])

  function Requested(a: Uuid): Download {
    Download(a, NoHash, Queued, Settled, false, false, Kept, NoCleanUp, false)
  }

  predicate Counted(w: World, a: Uuid) {
    a in w.acqs && !w.acqs[a].marked && (w.acqs[a].rss ==> w.acqs[a].sub !in w.archived)
  }

  // An owner in the sense of the deletion query, which does not look at the status.
  predicate Live(w: World, d: Uuid) {
    d in w.downloads && !w.downloads[d].deleted && Counted(w, w.downloads[d].acq)
  }

  // preserve_torrent for hash h of a download of acquisition a.
  predicate Preserved(w: World, a: Uuid, h: nat) {
    exists o :: o in w.downloads && w.downloads[o].acq != a && Live(w, o) && w.downloads[o].hash == Hash(h)
  }

  // The torrents the deletion of acquisition a removes.
  function Doomed(w: World, a: Uuid): set<nat> {
    set d | d in w.downloads && w.downloads[d].acq == a && w.downloads[d].hash.Hash?
            && !Preserved(w, a, w.downloads[d].hash.h) :: w.downloads[d].hash.h
  }

  // The rows the unique index on the hash covers.
  predicate Indexed(w: World, d: Uuid, h: nat) {
    d in w.downloads && w.downloads[d].hash == Hash(h) && !w.downloads[d].status.Stopped? && !w.downloads[d].deleted
  }

  predicate UsedByOther(w: World, d: Uuid)
    requires d in w.downloads
  {
    w.downloads[d].hash.Hash? && exists o :: o in w.downloads && o != d && Indexed(w, o, w.downloads[d].hash.h)
  }

  // --------------------------------------------------------------------- steps

  // What happens to one row.
  datatype Move =
    | Revive                               // a refused manifest is accepted after all
    | Materialize
    | Work(tasks: Tasks)                   // the episode tasks move on
    | Schedule                             // a clean-up after an import
    | Begin                                // the clean-up reads its command
    | Clear(next: CleanUp)                 // ... and reaches the client
    | Cancel                               // row stopped, client still to be told
    | GiveUp                               // the cancel operation ends without the client
    | Remove                               // removal requested, sharing decided now
    | Reconcile(again: bool)               // the cancel operation reaches the client
    | Finish(commit: bool, again: bool)    // the removal operation reaches the client
    | Reset                                // retry of a stopped or rejected download
    | StopForDeletion

  datatype Step =
    | Acquire(acq: Uuid, rss: bool, sub: Uuid)
    | Request(download: Uuid, acq: Uuid)
    | Look(download: Uuid, h: nat)             // the enqueue worker looks for the torrent
    | Post(download: Uuid)                     // ... adds it if it was not there
    | Record(download: Uuid, reject: bool)     // ... commits the hash
    | Fail(download: Uuid)                     // ... or deletes what it added
    | Abandon(download: Uuid)                  // ... or dies
    | Change(download: Uuid, move: Move)
    | Mark(acq: Uuid)
    | List(acq: Uuid)                          // the deletion worker lists what to remove
    | Strip(acq: Uuid, h: nat)                 // ... and removes it, one torrent at a time
    | Delete(acq: Uuid)                        // rows of the acquisition, after that
    | Archive(sub: Uuid)
    | Activate(sub: Uuid)                      // retained after completion

  predicate CanRecord(w: World, d: Uuid) {
    && d in w.enqueues && w.enqueues[d].Added? && d in w.downloads && w.downloads[d].status.Queued?
    && forall o | o in w.downloads && o != d :: !Indexed(w, o, w.enqueues[d].h)
  }

  predicate CanReset(w: World, d: Uuid)
    requires d in w.downloads
  {
    var row := w.downloads[d];
    && (row.status.Stopped? || row.status.Rejected?) && !row.deleted && row.removal.Kept? && !row.stopping
    && d !in w.enqueues && Counted(w, row.acq)
  }

  function Moved(w: World, d: Uuid, m: Move): Download
    requires d in w.downloads
  {
    var row := w.downloads[d];
    match m
    case Revive => if row.status.Rejected? then row.(status := Running) else row
    case Materialize => if row.status.Running? then row.(status := Materialized, tasks := Busy) else row
    case Work(tasks) => if row.status.Materialized? then row.(tasks := tasks) else row
    case Schedule => if row.status.Materialized? && row.cleanUp.NoCleanUp? then row.(cleanUp := Scheduled) else row
    case Begin => if !row.cleanUp.NoCleanUp? && row.tasks.Settled? then row.(cleanUp := Begun) else row
    case Clear(next) => if row.cleanUp.Begun? then row.(cleaned := true, cleanUp := next) else row
    case Cancel =>
      if !row.status.Stopped? && !row.status.Materialized? then row.(status := Stopped, stopping := true) else row
    case GiveUp => row.(stopping := false)
    case Remove =>
      if !row.deleted && row.removal.Kept? && !row.tasks.Busy? && !row.status.Queued?
      then row.(removal := Removing(UsedByOther(w, d))) else row
    case Reconcile(again) => if row.stopping && d !in w.enqueues then row.(stopping := again) else row
    case Finish(commit, again) =>
      if row.removal.Removing? && !row.stopping
      then row.(deleted := row.deleted || commit, removal := if again then row.removal else Ended) else row
    case Reset => if CanReset(w, d) then row.(status := Queued, hash := NoHash) else row
    case StopForDeletion =>
      if row.acq in w.acqs && w.acqs[row.acq].marked && !row.deleted && (row.status.Queued? || row.status.Running?)
      then row.(status := Stopped) else row
  }

  // The hash whose torrent a move takes out of the client.
  function TakenBy(w: World, d: Uuid, m: Move): Hash {
    if d !in w.downloads then NoHash
    else
      var row := w.downloads[d];
      match m
      case Reconcile(_) => if row.stopping && d !in w.enqueues then row.hash else NoHash
      case Finish(_, _) => if row.removal == Removing(false) && !row.stopping then row.hash else NoHash
      case Clear(_) => if row.cleanUp.Begun? then row.hash else NoHash
      case _ => NoHash
  }

  // The torrent a step takes out of the client, and the one it puts in.
  function Removed(w: World, s: Step): Hash {
    match s
    case Fail(d) =>
      if d in w.enqueues && w.enqueues[d].Added? && w.enqueues[d].own then Hash(w.enqueues[d].h) else NoHash
    case Strip(a, h) =>
      if a in w.acqs && w.acqs[a].listing.Listed? && h in w.acqs[a].listing.left then Hash(h) else NoHash
    case Change(d, m) => TakenBy(w, d, m)
    case _ => NoHash
  }

  function Gained(w: World, s: Step): Hash {
    if s.Post? && s.download in w.enqueues && w.enqueues[s.download].Looked?
    then Hash(w.enqueues[s.download].h) else NoHash
  }

  function HashSet(h: Hash): set<nat> { if h.Hash? then {h.h} else {} }

  function Enqueued(w: World, d: Uuid, e: Enqueue): World { w.(enqueues := w.enqueues[d := e]) }

  // The rows and workers after a step.
  function Rows(w: World, s: Step): World {
    match s
    case Acquire(a, rss, sub) => if a in w.acqs then w else w.(acqs := w.acqs[a := Acq(rss, sub, false, Unlisted)])
    case Request(d, a) =>
      if a in w.acqs && d !in w.downloads && d !in w.enqueues
      then w.(downloads := w.downloads[d := Requested(a)]) else w
    case Look(d, h) =>
      if d in w.downloads && w.downloads[d].status.Queued? && d !in w.enqueues
      then Enqueued(w, d, if h in w.torrents then Added(h, false) else Looked(h)) else w
    case Post(d) =>
      if d in w.enqueues && w.enqueues[d].Looked? then Enqueued(w, d, Added(w.enqueues[d].h, true)) else w
    case Record(d, reject) =>
      if CanRecord(w, d) then
        var row := w.downloads[d].(
          hash := Hash(w.enqueues[d].h), status := if reject then Rejected else Running, stopping := reject);
        w.(downloads := w.downloads[d := row], enqueues := w.enqueues - {d})
      else w
    case Fail(d) => w.(enqueues := w.enqueues - {d})
    case Abandon(d) => w.(enqueues := w.enqueues - {d})
    case Change(d, m) => if d in w.downloads then w.(downloads := w.downloads[d := Moved(w, d, m)]) else w
    case Mark(a) => if a in w.acqs then w.(acqs := w.acqs[a := w.acqs[a].(marked := true)]) else w
    case List(a) =>
      if a in w.acqs && w.acqs[a].marked
      then w.(acqs := w.acqs[a := w.acqs[a].(listing := Listed(Doomed(w, a)))]) else w
    case Strip(a, h) =>
      if a in w.acqs && w.acqs[a].listing.Listed?
      then w.(acqs := w.acqs[a := w.acqs[a].(listing := Listed(w.acqs[a].listing.left - {h}))]) else w
    case Delete(a) =>
      if a in w.acqs && w.acqs[a].listing == Listed({})
      then w.(acqs := w.acqs - {a}, downloads := map d | d in w.downloads && w.downloads[d].acq != a :: w.downloads[d])
      else w
    case Archive(sub) => w.(archived := w.archived + {sub})
    case Activate(sub) => w.(archived := w.archived - {sub})
  }

  function Next(w: World, s: Step): World {
    Rows(w, s).(torrents := w.torrents - HashSet(Removed(w, s)) + HashSet(Gained(w, s)))
  }

  function Run(w: World, steps: seq<Step>): World {
    if steps == [] then w else Next(Run(w, steps[..|steps| - 1]), steps[|steps| - 1])
  }

  lemma Then(w: World, steps: seq<Step>, s: Step)
    ensures Run(w, steps + [s]) == Next(Run(w, steps), s)
  {
    assert (steps + [s])[..|steps + [s]| - 1] == steps;
  }

  lemma DoomedIff(w: World, a: Uuid)
    ensures forall h :: h in Doomed(w, a) <==>
              exists d :: d in w.downloads && w.downloads[d].acq == a && w.downloads[d].hash == Hash(h)
                          && !Preserved(w, a, h)
  {
    forall h, d | d in w.downloads && w.downloads[d].acq == a && w.downloads[d].hash == Hash(h) && !Preserved(w, a, h)
      ensures h in Doomed(w, a)
    {
      assert w.downloads[d].hash.h in Doomed(w, a);
    }
  }

  lemma {:induction false} RunConcat(w: World, a: seq<Step>, b: seq<Step>)
    ensures Run(w, a + b) == Run(Run(w, a), b)
  {
    if b == [] {
      assert a + b == a;
    } else {
      RunConcat(w, a, b[..|b| - 1]);
      assert (a + b)[..|a + b| - 1] == a + b[..|b| - 1];
    }
  }

  function Elements(hashes: seq<nat>): set<nat> { set h | h in hashes }

  predicate Distinct(hashes: seq<nat>) { forall i, j | 0 <= i < j < |hashes| :: hashes[i] != hashes[j] }

  // What a deletion means for a torrent: the acquisition records it, and no undeleted download of another
  // acquisition does that is neither being deleted itself nor from an archived subscription.
  ghost predicate DeletedWith(w: World, a: Uuid, h: nat) {
    && (exists d :: d in w.downloads && w.downloads[d].acq == a && w.downloads[d].hash == Hash(h))
    && forall o | o in w.downloads && w.downloads[o].acq != a && w.downloads[o].hash == Hash(h) ::
         || w.downloads[o].deleted || w.downloads[o].acq !in w.acqs || w.acqs[w.downloads[o].acq].marked
         || (w.acqs[w.downloads[o].acq].rss && w.acqs[w.downloads[o].acq].sub in w.archived)
  }

  lemma DeletionLaw(w: World, a: Uuid)
    ensures forall h :: h in Doomed(w, a) <==> DeletedWith(w, a, h)
  {
    DoomedIff(w, a);
    forall h ensures Preserved(w, a, h) <==>
      exists o :: o in w.downloads && w.downloads[o].acq != a && w.downloads[o].hash == Hash(h)
        && !w.downloads[o].deleted && w.downloads[o].acq in w.acqs && !w.acqs[w.downloads[o].acq].marked
        && !(w.acqs[w.downloads[o].acq].rss && w.acqs[w.downloads[o].acq].sub in w.archived)
    {
      if o :| o in w.downloads && w.downloads[o].acq != a && w.downloads[o].hash == Hash(h)
              && !w.downloads[o].deleted && w.downloads[o].acq in w.acqs && !w.acqs[w.downloads[o].acq].marked
              && !(w.acqs[w.downloads[o].acq].rss && w.acqs[w.downloads[o].acq].sub in w.archived) {
        assert Live(w, o);
      }
    }
  }

  function Strips(a: Uuid, hashes: seq<nat>): seq<Step> {
    if hashes == [] then [] else Strips(a, hashes[..|hashes| - 1]) + [Strip(a, hashes[|hashes| - 1])]
  }

  // The workers that talk to the client, each running alone.
  class TorrentWorkers {
    var w: World

    // The acquisition.delete worker collects the hashes to remove once each ...
    method CollectHashes(a: Uuid) returns (hashes: seq<nat>)
      ensures forall h :: h in hashes <==> h in Doomed(w, a)
      ensures Distinct(hashes)
    {
      var listed := set d | d in w.downloads && w.downloads[d].acq == a;
      var rest := listed;
      hashes := [];
      while rest != {}
        invariant rest <= listed
        invariant forall h :: h in hashes <==>
                    exists d :: d in listed - rest && w.downloads[d].hash == Hash(h) && !Preserved(w, a, h)
        invariant Distinct(hashes)
        decreases rest
      {
        var d :| d in rest;
        var hash := w.downloads[d].hash;
        if hash.Hash? && !Preserved(w, a, hash.h) && hash.h !in hashes {
          hashes := hashes + [hash.h];
        }
        rest := rest - {d};
      }
      DoomedIff(w, a);
    }

    // ... and removes them one by one.
    method RemoveListed(a: Uuid, hashes: seq<nat>)
      requires a in w.acqs && w.acqs[a].listing == Listed(Elements(hashes)) && Distinct(hashes)
      modifies this
      ensures w == Run(old(w), Strips(a, hashes))
      ensures w == WithListing(old(w), a, {}).(torrents := old(w).torrents - Elements(hashes))
    {
      ghost var was := w;
      var i, torrents := 0, w.torrents;
      while i < |hashes|
        invariant 0 <= i <= |hashes| && w == was && torrents == w.torrents - Elements(hashes[..i])
      {
        torrents := torrents - {hashes[i]};
        ElementsGrow(hashes, i);
        i := i + 1;
      }
      StripsRun(was, a, hashes, i);
      assert hashes[..i] == hashes && Elements(hashes) - Elements(hashes) == {};
      w := WithListing(w, a, {}).(torrents := torrents);
    }

    method RemoveTorrents(a: Uuid) returns (hashes: seq<nat>)
      modifies this
      ensures w == Run(old(w), [List(a)] + Strips(a, hashes))
      ensures a in old(w).acqs && old(w).acqs[a].marked ==>
                w == WithListing(old(w), a, {}).(torrents := old(w).torrents - Doomed(old(w), a))
    {
      ghost var was := w;
      RunThree(was, List(a), List(a), List(a));
      ListedIs(was, a);
      hashes := [];
      if a in w.acqs && w.acqs[a].marked {
        hashes := CollectHashes(a);
        assert Elements(hashes) == Doomed(w, a);
        w := WithListing(w, a, Elements(hashes));
        RemoveListed(a, hashes);
      }
      RunConcat(was, [List(a)], Strips(a, hashes));
    }

    // The download.cancel worker: only a removal that found another owner when it
    // was requested spares the torrent; a cancel asks nobody.
    method ReconcileCancellation(d: Uuid, remove: bool)
      modifies this
      ensures w == Next(old(w), Change(d, if remove then Finish(true, false) else Reconcile(false)))
    {
      if d !in w.downloads { return; }
      var row := w.downloads[d];
      if remove {
        if !row.removal.Removing? || row.stopping { return; }
        if !row.removal.preserve && row.hash.Hash? { w := w.(torrents := w.torrents - {row.hash.h}); }
        w := w.(downloads := w.downloads[d := row.(deleted := true, removal := Ended)]);
      } else {
        if !row.stopping || d in w.enqueues { return; }
        if row.hash.Hash? { w := w.(torrents := w.torrents - {row.hash.h}); }
        w := w.(downloads := w.downloads[d := row.(stopping := false)]);
      }
    }

    // The cleanup.run worker.
    method RunCleanUp(d: Uuid) returns (done: bool)
      modifies this
      ensures w == Run(old(w), [Change(d, Begin)] + if done then [Change(d, Clear(NoCleanUp))] else [])
      ensures done <==> d in old(w).downloads && old(w).downloads[d].tasks.Settled?
                        && !old(w).downloads[d].cleanUp.NoCleanUp?
      ensures done ==> d in w.downloads && w.downloads[d].cleaned
                       && w.torrents == old(w).torrents - HashSet(old(w).downloads[d].hash)
      ensures !done ==> w == old(w)
    {
      ghost var was := w;
      Then(was, [], Change(d, Begin));
      Then(was, [Change(d, Begin)], Change(d, Clear(NoCleanUp)));
      assert [] + [Change(d, Begin)] == [Change(d, Begin)] && [Change(d, Begin)] + [] == [Change(d, Begin)];
      if d !in w.downloads || w.downloads[d].cleanUp.NoCleanUp? || !w.downloads[d].tasks.Settled? { return false; }
      var row := w.downloads[d];
      if row.hash.Hash? { w := w.(torrents := w.torrents - {row.hash.h}); }
      w := w.(downloads := w.downloads[d := row.(cleaned := true, cleanUp := NoCleanUp)]);
      return true;
    }

    // The download.enqueue worker.  `faulty`: a step between adding the torrent and the
    // commit fails.
    method EnqueueTorrent(d: Uuid, h: nat, faulty: bool, reject: bool) returns (ok: bool)
      requires d !in w.enqueues
      modifies this
      ensures w == Run(old(w), [Look(d, h), Post(d), if ok then Record(d, reject) else Fail(d)])
      ensures ok <==> !faulty && d in old(w).downloads && old(w).downloads[d].status.Queued?
                      && forall o | o in old(w).downloads && o != d ::
                           || old(w).downloads[o].hash != Hash(h)
                           || old(w).downloads[o].status.Stopped? || old(w).downloads[o].deleted
      ensures ok ==> w.torrents == old(w).torrents + {h} && d in w.downloads && w.downloads[d].hash == Hash(h)
                     && w.downloads[d].status == if reject then Rejected else Running
      ensures !ok ==> w == old(w)
    {
      RunThree(w, Look(d, h), Post(d), Fail(d));
      RunThree(w, Look(d, h), Post(d), Record(d, reject));
      FailureUndoesEnqueue(w, d, h);
      if d !in w.downloads || !w.downloads[d].status.Queued? { return false; }
      ghost var was := w;
      var own := h !in w.torrents;
      w := w.(torrents := w.torrents + {h}, enqueues := w.enqueues[d := Added(h, own)]);
      PostedIs(was, d, h);
      ok := !faulty && forall o | o in w.downloads && o != d :: !Indexed(w, o, h);
      if ok {
        var row := w.downloads[d].(
          hash := Hash(h), status := if reject then Rejected else Running, stopping := reject);
        w := w.(downloads := w.downloads[d := row], enqueues := w.enqueues - {d});
      } else {
        if own { w := w.(torrents := w.torrents - {h}); }
        w := w.(enqueues := w.enqueues - {d});
        assert w == was;
      }
    }
  }

  function WithListing(w: World, a: Uuid, left: set<nat>): World
    requires a in w.acqs
  {
    w.(acqs := w.acqs[a := w.acqs[a].(listing := Listed(left))])
  }

  lemma StrippedIs(w: World, a: Uuid, left: set<nat>, h: nat)
    requires a in w.acqs && w.acqs[a].listing == Listed(left) && h in left
    ensures Next(w, Strip(a, h)) == WithListing(w, a, left - {h}).(torrents := w.torrents - {h})
  {
  }

  lemma ElementsGrow(hashes: seq<nat>, i: nat)
    requires i < |hashes|
    ensures Elements(hashes[..i + 1]) == Elements(hashes[..i]) + {hashes[i]}
  {
  }

  // The world after removing some of what was listed.
  function Stripped(w: World, a: Uuid, left: set<nat>, taken: set<nat>): World
    requires a in w.acqs
  {
    WithListing(w, a, left - taken).(torrents := w.torrents - taken)
  }

  lemma StrippedNone(w: World, a: Uuid, left: set<nat>)
    requires a in w.acqs && w.acqs[a].listing == Listed(left)
    ensures Stripped(w, a, left, {}) == w
  {
    assert left - {} == left && w.torrents - {} == w.torrents;
    assert w.acqs[a := w.acqs[a].(listing := Listed(left))] == w.acqs;
  }

  lemma StrippedMore(w: World, a: Uuid, left: set<nat>, taken: set<nat>, h: nat)
    requires a in w.acqs && h in left && h !in taken
    ensures Next(Stripped(w, a, left, taken), Strip(a, h)) == Stripped(w, a, left, taken + {h})
  {
    StrippedIs(Stripped(w, a, left, taken), a, left - taken, h);
    assert left - taken - {h} == left - (taken + {h}) && w.torrents - taken - {h} == w.torrents - (taken + {h});
  }

  lemma StripsGrow(w: World, a: Uuid, hashes: seq<nat>, i: nat)
    requires 0 < i <= |hashes|
    ensures Run(w, Strips(a, hashes[..i])) == Next(Run(w, Strips(a, hashes[..i - 1])), Strip(a, hashes[i - 1]))
  {
    assert hashes[..i][..i - 1] == hashes[..i - 1];
    Then(w, Strips(a, hashes[..i - 1]), Strip(a, hashes[i - 1]));
  }

  lemma {:induction false} StripsRun(w: World, a: Uuid, hashes: seq<nat>, i: nat)
    requires i <= |hashes| && a in w.acqs && w.acqs[a].listing == Listed(Elements(hashes)) && Distinct(hashes)
    ensures Run(w, Strips(a, hashes[..i])) == Stripped(w, a, Elements(hashes), Elements(hashes[..i]))
  {
    if i == 0 {
      assert Elements(hashes[..i]) == {} && hashes[..i] == [];
      StrippedNone(w, a, Elements(hashes));
    } else {
      var h, before := hashes[i - 1], Elements(hashes[..i - 1]);
      StripsRun(w, a, hashes, i - 1);
      ElementsGrow(hashes, i - 1);
      StripsGrow(w, a, hashes, i);
      assert h in Elements(hashes) && h !in before;
      StrippedMore(w, a, Elements(hashes), before, h);
    }
  }

  lemma ListedIs(w: World, a: Uuid)
    ensures Next(w, List(a)) == if a in w.acqs && w.acqs[a].marked then WithListing(w, a, Doomed(w, a)) else w
  {
  }

  lemma PostedIs(w: World, d: Uuid, h: nat)
    requires d !in w.enqueues && d in w.downloads && w.downloads[d].status.Queued?
    ensures Next(Next(w, Look(d, h)), Post(d))
            == w.(torrents := w.torrents + {h}, enqueues := w.enqueues[d := Added(h, h !in w.torrents)])
  {
  }

  // Left alone, an enqueue that fails leaves client and rows as they were.
  lemma FailureUndoesEnqueue(w: World, d: Uuid, h: nat)
    requires d !in w.enqueues
    ensures Next(Next(Next(w, Look(d, h)), Post(d)), Fail(d)) == w
  {
    if d in w.downloads && w.downloads[d].status.Queued? { PostedIs(w, d, h); }
  }

  lemma RunTwo(w: World, a: Step, b: Step)
    ensures Run(w, [a]) == Next(w, a) && Run(w, [a, b]) == Next(Next(w, a), b)
  {
    assert [a, b][..1] == [a] && [a][..0] == [];
    assert Run(w, [a]) == Next(w, a);
  }

  lemma RunThree(w: World, a: Step, b: Step, c: Step)
    ensures Run(w, [a]) == Next(w, a) && Run(w, [a, b]) == Next(Next(w, a), b)
    ensures Run(w, [a, b, c]) == Next(Next(Next(w, a), b), c)
  {
    RunTwo(w, a, b);
    assert [a, b, c][..2] == [a, b];
  }

  // --------------------------------------------------------------- one owner

  // Foreign keys, the unique index, and which columns go together.
  ghost predicate Valid(w: World) {
    && (forall d | d in w.downloads :: w.downloads[d].acq in w.acqs)
    && (forall a | a in w.acqs :: w.acqs[a].listing.Listed? ==> w.acqs[a].marked)
    && (forall d | d in w.downloads :: RowValid(w.downloads[d]))
    && (forall d | d in w.enqueues && d in w.downloads :: w.downloads[d].hash.NoHash?)
    && (forall d, o, h :: Indexed(w, d, h) && Indexed(w, o, h) ==> d == o)
  }

  predicate RowValid(row: Download) {
    && (row.status.Queued? ==> row.hash.NoHash? && !row.deleted && row.removal.Kept?)
    && (!row.cleanUp.NoCleanUp? || row.cleaned ==> row.status.Materialized?)
  }

  // No move brings a row under the index, or gives it another hash.
  lemma MovedRow(w: World, d: Uuid, m: Move)
    requires d in w.downloads && RowValid(w.downloads[d])
    ensures var row, now := w.downloads[d], Moved(w, d, m);
            && RowValid(now) && now.acq == row.acq && (now.hash == row.hash || now.hash.NoHash?)
            && (now.hash.Hash? && !now.status.Stopped? && !now.deleted ==> !row.status.Stopped? && !row.deleted)
  {
  }

  lemma IndexStays(w: World, s: Step, d: Uuid, h: nat)
    requires Valid(w) && Indexed(Next(w, s), d, h)
    ensures Indexed(w, d, h) || (s.Record? && s.download == d && CanRecord(w, d) && h == w.enqueues[d].h)
  {
    if s.Change? && s.download in w.downloads { MovedRow(w, s.download, s.move); }
  }

  lemma IndexIsUnique(w: World, s: Step, d: Uuid, o: Uuid, h: nat)
    requires Valid(w) && Indexed(Next(w, s), d, h) && Indexed(Next(w, s), o, h)
    ensures d == o
  {
    IndexStays(w, s, d, h);
    IndexStays(w, s, o, h);
  }

  lemma RowsStayValid(w: World, s: Step)
    requires Valid(w)
    ensures forall d | d in Next(w, s).downloads ::
              Next(w, s).downloads[d].acq in Next(w, s).acqs && RowValid(Next(w, s).downloads[d])
  {
    if s.Change? && s.download in w.downloads { MovedRow(w, s.download, s.move); }
  }

  lemma NextKeepsValid(w: World, s: Step)
    requires Valid(w)
    ensures Valid(Next(w, s))
  {
    var n := Next(w, s);
    RowsStayValid(w, s);
    if s.Change? && s.download in w.downloads { MovedRow(w, s.download, s.move); }
    forall d, o, h | Indexed(n, d, h) && Indexed(n, o, h) ensures d == o { IndexIsUnique(w, s, d, o, h); }
  }

  lemma {:induction false} RunsStayValid(w: World, steps: seq<Step>)
    requires Valid(w)
    ensures Valid(Run(w, steps))
  {
    if steps != [] {
      RunsStayValid(w, steps[..|steps| - 1]);
      NextKeepsValid(Run(w, steps[..|steps| - 1]), steps[|steps| - 1]);
    }
  }

  // A row that counts on its torrent, or will when its manifest is accepted.
  predicate Tracked(w: World, d: Uuid) {
    && d in w.downloads && w.downloads[d].hash.Hash? && !w.downloads[d].status.Stopped?
    && !w.downloads[d].deleted && w.downloads[d].removal.Kept? && !w.downloads[d].cleaned
  }

  // A download that needs its torrent, of an acquisition that is neither being deleted nor archived.
  predicate Owner(w: World, d: Uuid) {
    Tracked(w, d) && !w.downloads[d].status.Rejected? && Counted(w, w.downloads[d].acq)
  }

  // The hash whose torrent a download, or the worker enqueueing it, counts on.
  function Claim(w: World, d: Uuid): Hash {
    if d in w.enqueues then (if w.enqueues[d].Added? then Hash(w.enqueues[d].h) else NoHash)
    else if Tracked(w, d) then w.downloads[d].hash else NoHash
  }

  // The claims a step robs of their torrents.
  function Robbed(w: World, s: Step): set<Uuid> {
    set d | d in w.downloads.Keys + w.enqueues.Keys && Claim(w, d).Hash? && Claim(w, d) == Removed(w, s)
  }

  function StillLost(w: World, s: Step, lost: set<Uuid>): set<Uuid> {
    set d | d in lost + Robbed(w, s) && Claim(Next(w, s), d).Hash? && Claim(Next(w, s), d) != Gained(w, s)
  }

  // The claims that a run has robbed and not made good.
  function Lost(w: World, steps: seq<Step>): set<Uuid> {
    if steps == [] then {}
    else
      var before, s := steps[..|steps| - 1], steps[|steps| - 1];
      StillLost(Run(w, before), s, Lost(w, before))
  }

  predicate Accurate(w: World, lost: set<Uuid>) {
    && (forall d | d in lost :: Claim(w, d).Hash?)
    && (forall d | d in w.downloads.Keys + w.enqueues.Keys && Claim(w, d).Hash? ::
          d in lost <==> Claim(w, d).h !in w.torrents)
  }

  lemma ChangedClaim(w: World, d: Uuid, m: Move, o: Uuid)
    requires Valid(w)
    ensures Claim(Next(w, Change(d, m)), o) in {NoHash, Claim(w, o)}
  {
  }

  // A claim is older than the step, or is made on a torrent that is there.
  lemma ClaimStays(w: World, s: Step, d: Uuid)
    requires Valid(w) && Claim(Next(w, s), d).Hash?
    ensures || Claim(Next(w, s), d) == Claim(w, d)
            || (Claim(w, d).NoHash? && Claim(Next(w, s), d).h in Next(w, s).torrents)
  {
    if s.Change? { ChangedClaim(w, s.download, s.move, d); }
  }

  lemma RecordIsAccurate(w: World, s: Step, lost: set<Uuid>)
    requires Valid(w) && Accurate(w, lost)
    ensures Accurate(Next(w, s), StillLost(w, s, lost))
  {
    var n := Next(w, s);
    forall d | d in n.downloads.Keys + n.enqueues.Keys && Claim(n, d).Hash?
      ensures d in StillLost(w, s, lost) <==> Claim(n, d).h !in n.torrents
    {
      ClaimStays(w, s, d);
    }
  }

  // In every run the claims without a torrent are exactly those robbed.
  lemma {:induction false} LostIffMissing(steps: seq<Step>)
    ensures Accurate(Run(EMPTY, steps), Lost(EMPTY, steps))
  {
    if steps != [] {
      var before := steps[..|steps| - 1];
      LostIffMissing(before);
      RunsStayValid(EMPTY, before);
      RecordIsAccurate(Run(EMPTY, before), steps[|steps| - 1], Lost(EMPTY, before));
    }
  }

  // ------------------------------------------------------- owners keep torrents

  predicate Safe(w: World) {
    forall d | d in w.downloads && Owner(w, d) :: w.downloads[d].hash.h in w.torrents
  }

  // A download other than c needs the torrent with this hash.
  predicate WantedByOther(w: World, h: Hash, c: Uuid) {
    h.Hash? && exists d :: d in w.downloads && d != c && Owner(w, d) && w.downloads[d].hash == h
  }

  predicate Wanted(w: World, h: Hash) {
    h.Hash? && exists d :: d in w.downloads && Owner(w, d) && w.downloads[d].hash == h
  }

  // An acquisition that comes back with its subscription.
  predicate Unmarked(w: World, a: Uuid, sub: Uuid) {
    a in w.acqs && w.acqs[a].rss && w.acqs[a].sub == sub && !w.acqs[a].marked
  }

  // The steps that harm an owner.  A worker reaches the client while an owner needs the torrent:
  // the worker of a cancel, a rejection or a removal; a clean-up, when another download needs it;
  // a failed enqueue that added the torrent itself; a deletion working on an older listing.
  // Or a robbed download becomes an owner: its enqueue commits, its refused manifest is accepted,
  // or its archived subscription comes back.
  predicate Harmful(w: World, lost: set<Uuid>, s: Step) {
    match s
    case Change(c, m) =>
      if m.Clear? then WantedByOther(w, TakenBy(w, c, m), c)
      else if m.Revive? then
        c in lost && Tracked(w, c) && w.downloads[c].status.Rejected? && Counted(w, w.downloads[c].acq)
      else Wanted(w, TakenBy(w, c, m))
    case Fail(_) => Wanted(w, Removed(w, s))
    case Strip(_, _) => Wanted(w, Removed(w, s))
    case Record(d, reject) => !reject && d in lost && CanRecord(w, d) && Counted(w, w.downloads[d].acq)
    case Activate(sub) =>
      exists d :: d in lost && Tracked(w, d) && !w.downloads[d].status.Rejected? && Unmarked(w, w.downloads[d].acq, sub)
    case _ => false
  }

  // Who owns after a step owned before it, or is made an owner by it.
  predicate Promoted(w: World, s: Step, d: Uuid) {
    match s
    case Record(e, reject) => e == d && !reject && CanRecord(w, d) && Counted(w, w.downloads[d].acq)
    case Change(c, m) => c == d && m.Revive? && Tracked(w, d) && w.downloads[d].status.Rejected?
                         && Counted(w, w.downloads[d].acq)
    case Activate(sub) => Tracked(w, d) && !w.downloads[d].status.Rejected? && Unmarked(w, w.downloads[d].acq, sub)
    case _ => false
  }

  lemma ChangedOwner(w: World, c: Uuid, m: Move, d: Uuid)
    requires Valid(w) && Owner(Next(w, Change(c, m)), d)
    ensures Owner(w, d) || Promoted(w, Change(c, m), d)
    ensures d in w.downloads && Next(w, Change(c, m)).downloads[d].hash == w.downloads[d].hash
    ensures c == d ==> !m.Clear? || !w.downloads[d].cleanUp.Begun?
  {
  }

  lemma OwnersBefore(w: World, s: Step, d: Uuid)
    requires Valid(w) && Owner(Next(w, s), d)
    ensures Owner(w, d) || Promoted(w, s, d)
    ensures Next(w, s).downloads[d].hash == if s.Record? && !Owner(w, d) then Claim(w, d) else w.downloads[d].hash
  {
    if s.Change? { ChangedOwner(w, s.download, s.move, d); }
  }

  lemma PromotedClaims(w: World, lost: set<Uuid>, s: Step, d: Uuid)
    requires Valid(w) && Promoted(w, s, d)
    ensures Claim(w, d).Hash? && Removed(w, s).NoHash? && d in w.downloads.Keys + w.enqueues.Keys
    ensures d in lost ==> Harmful(w, lost, s)
    ensures Claim(w, d) == if s.Record? then Hash(w.enqueues[d].h) else w.downloads[d].hash
  {
  }

  // Every other step keeps every owner's torrent.
  lemma HarmlessKeepsSafe(w: World, lost: set<Uuid>, s: Step)
    requires Valid(w) && Safe(w) && Accurate(w, lost) && !Harmful(w, lost, s)
    ensures Safe(Next(w, s))
  {
    var n := Next(w, s);
    forall d | d in n.downloads && Owner(n, d) ensures n.downloads[d].hash.h in n.torrents {
      OwnersBefore(w, s, d);
      if Owner(w, d) { UnharmedOwner(w, lost, s, d); } else { PromotedClaims(w, lost, s, d); }
    }
  }

  lemma UnharmedOwner(w: World, lost: set<Uuid>, s: Step, d: Uuid)
    requires Valid(w) && Owner(w, d) && Owner(Next(w, s), d) && !Harmful(w, lost, s)
    ensures w.downloads[d].hash != Removed(w, s)
  {
    if s.Change? { ChangedOwner(w, s.download, s.move, d); }
  }

  lemma RobberyBreaksSafe(w: World, lost: set<Uuid>, s: Step, d: Uuid)
    requires Valid(w) && Owner(w, d) && w.downloads[d].hash == Removed(w, s)
    requires s.Fail? || s.Strip? || (s.Change? && (s.move.Clear? ==> d != s.download))
    ensures !Safe(Next(w, s))
  {
    var n := Next(w, s);
    assert d in n.downloads && Owner(n, d) && n.downloads[d].hash == w.downloads[d].hash;
  }

  lemma PromotionBreaksSafe(w: World, lost: set<Uuid>, s: Step, d: Uuid)
    requires Valid(w) && Accurate(w, lost) && Promoted(w, s, d) && d in lost
    ensures !Safe(Next(w, s))
  {
    PromotedClaims(w, lost, s, d);
    var n := Next(w, s);
    assert n.torrents == w.torrents;
    assert d in n.downloads && Owner(n, d) && n.downloads[d].hash == Claim(w, d);
  }

  lemma HarmfulBreaksSafe(w: World, lost: set<Uuid>, s: Step)
    requires Valid(w) && Accurate(w, lost) && Harmful(w, lost, s)
    ensures !Safe(Next(w, s))
  {
    if s.Record? || s.Activate? || (s.Change? && s.move.Revive?) {
      var d :| d in lost && Promoted(w, s, d);
      PromotionBreaksSafe(w, lost, s, d);
    } else {
      var d :| d in w.downloads && Owner(w, d) && w.downloads[d].hash == Removed(w, s)
               && (s.Change? && s.move.Clear? ==> d != s.download);
      RobberyBreaksSafe(w, lost, s, d);
    }
  }

  predicate NeverHarmful(steps: seq<Step>) {
    steps != [] ==>
      var before := steps[..|steps| - 1];
      NeverHarmful(before) && !Harmful(Run(EMPTY, before), Lost(EMPTY, before), steps[|steps| - 1])
  }

  predicate SafeThroughout(steps: seq<Step>) {
    Safe(Run(EMPTY, steps)) && (steps != [] ==> SafeThroughout(steps[..|steps| - 1]))
  }

  // Over all runs: every owner keeps its torrent exactly as long as no harmful step is taken.
  lemma {:induction false} OwnersKeepTorrentsIff(steps: seq<Step>)
    ensures SafeThroughout(steps) <==> NeverHarmful(steps)
  {
    if steps != [] {
      var before, s := steps[..|steps| - 1], steps[|steps| - 1];
      OwnersKeepTorrentsIff(before);
      LostIffMissing(before);
      RunsStayValid(EMPTY, before);
      if SafeThroughout(before) {
        var w, lost := Run(EMPTY, before), Lost(EMPTY, before);
        assert Safe(w);
        if Harmful(w, lost, s) { HarmfulBreaksSafe(w, lost, s); } else { HarmlessKeepsSafe(w, lost, s); }
      }
    }
  }

  // A subscription without acquisitions can always be re-activated.
  lemma EmptySubscriptionIsHarmless(w: World, lost: set<Uuid>, sub: Uuid)
    requires forall a | a in w.acqs :: w.acqs[a].rss ==> w.acqs[a].sub != sub
    ensures !Harmful(w, lost, Activate(sub))
  {
  }

  // A cancel, a removal or a clean-up takes the torrent of another download only
  // after its own download has been stopped or removed.
  lemma OnlyAfterTakeover(w: World, c: Uuid, m: Move, d: Uuid)
    requires Valid(w) && Owner(w, d) && d != c && TakenBy(w, c, m) == w.downloads[d].hash
    ensures w.downloads[c].status.Stopped? || w.downloads[c].deleted
    ensures m.Clear? ==> w.downloads[c].deleted
  {
    assert Indexed(w, d, w.downloads[d].hash.h);
    assert w.downloads[c].status.Stopped? || w.downloads[c].deleted || Indexed(w, c, w.downloads[d].hash.h);
  }

  // A removal is requested once, never while a task uses the files or before the download has a torrent.
  lemma RemoveIff(w: World, d: Uuid)
    requires d in w.downloads
    ensures var row, n := w.downloads[d], Next(w, Change(d, Remove)).downloads[d];
            if !row.deleted && row.removal.Kept? && !row.tasks.Busy? && !row.status.Queued?
            then n.removal.Removing? && n == row.(removal := n.removal) else n == row
  {
  }

  // Main result: a removal requested and finished with no step between deletes the row, changes no other one, and
  // leaves the torrent exactly when another download records it that is neither stopped nor removed.
  lemma RemovalLaw(w: World, d: Uuid)
    requires d in w.downloads && !w.downloads[d].deleted && w.downloads[d].removal.Kept? && !w.downloads[d].stopping
    requires !w.downloads[d].tasks.Busy? && !w.downloads[d].status.Queued?
    ensures var n := Next(Next(w, Change(d, Remove)), Change(d, Finish(true, false)));
            && n == w.(torrents := n.torrents, downloads := w.downloads[d := n.downloads[d]])
            && n.downloads[d].deleted && n.downloads[d].hash == w.downloads[d].hash
            && (w.downloads[d].hash.NoHash? ==> n.torrents == w.torrents)
            && (w.downloads[d].hash.Hash? ==>
                  n.torrents == if exists o :: o in w.downloads && o != d && w.downloads[o].hash == w.downloads[d].hash
                                                && !w.downloads[o].status.Stopped? && !w.downloads[o].deleted
                                then w.torrents else w.torrents - {w.downloads[d].hash.h})
  {
    var m := Next(w, Change(d, Remove));
    SharedIff(w, d);
    assert m == w.(downloads := m.downloads, torrents := m.torrents) && m.torrents == w.torrents;
    assert m.downloads == w.downloads[d := w.downloads[d].(removal := m.downloads[d].removal)];
    assert m.downloads[d].removal == Removing(Shared(w, d));
  }

  predicate Shared(w: World, d: Uuid)
    requires d in w.downloads
  {
    exists o :: o in w.downloads && o != d && w.downloads[o].hash.Hash? && w.downloads[o].hash == w.downloads[d].hash
      && !w.downloads[o].status.Stopped? && !w.downloads[o].deleted
  }

  lemma SharedIff(w: World, d: Uuid)
    requires d in w.downloads
    ensures UsedByOther(w, d) <==> Shared(w, d)
  {
    if o :| o in w.downloads && o != d && w.downloads[o].hash.Hash? && w.downloads[o].hash == w.downloads[d].hash
            && !w.downloads[o].status.Stopped? && !w.downloads[o].deleted {
      assert Indexed(w, o, w.downloads[d].hash.h);
    }
  }

  // So such a removal harms nobody.
  lemma PromptRemovalIsSafe(w: World, d: Uuid)
    requires Safe(w) && d in w.downloads && !w.downloads[d].deleted && w.downloads[d].removal.Kept?
    requires !w.downloads[d].stopping && !w.downloads[d].tasks.Busy? && !w.downloads[d].status.Queued?
    ensures Safe(Next(Next(w, Change(d, Remove)), Change(d, Finish(true, false))))
  {
    RemovalLaw(w, d);
    var n := Next(Next(w, Change(d, Remove)), Change(d, Finish(true, false)));
    forall o | o in n.downloads && Owner(n, o) ensures n.downloads[o].hash.h in n.torrents {
      assert o != d && Owner(w, o);
      if w.downloads[o].hash == w.downloads[d].hash { assert Shared(w, d); }
    }
  }

  // A cancel asks nobody: once it reaches the client the torrent is gone, whoever needs it.
  lemma CancelLaw(w: World, d: Uuid)
    requires d in w.downloads && d !in w.enqueues
    requires !w.downloads[d].status.Stopped? && !w.downloads[d].status.Materialized?
    ensures var n := Next(Next(w, Change(d, Cancel)), Change(d, Reconcile(false)));
            && n.torrents == w.torrents - HashSet(w.downloads[d].hash)
            && n.downloads == w.downloads[d := w.downloads[d].(status := Stopped, stopping := false)]
  {
  }

  // A deletion stops the queued and the running downloads of its acquisition, and only those.
  lemma DeletionStopsIff(w: World, d: Uuid)
    requires d in w.downloads
    ensures var n := Next(w, Change(d, StopForDeletion)).downloads[d];
            n == w.downloads[d].(status := n.status)
            && (n.status != w.downloads[d].status <==>
                  && (w.downloads[d].status.Queued? || w.downloads[d].status.Running?) && !w.downloads[d].deleted
                  && w.downloads[d].acq in w.acqs && w.acqs[w.downloads[d].acq].marked)
            && (n.status != w.downloads[d].status ==> n.status.Stopped?)
  {
  }

  // A retry starts a stopped or rejected download over without its torrent, exactly when none of its operations is
  // under way, no removal was requested and its acquisition is neither being deleted nor archived.
  lemma ResetIff(w: World, d: Uuid)
    requires Valid(w) && d in w.downloads
    ensures var row, n := w.downloads[d], Next(w, Change(d, Reset)).downloads[d];
            if && (row.status.Stopped? || row.status.Rejected?) && !row.deleted && row.removal.Kept? && !row.stopping
               && d !in w.enqueues && !w.acqs[row.acq].marked
               && !(w.acqs[row.acq].rss && w.acqs[row.acq].sub in w.archived)
            then n == row.(status := Queued, hash := NoHash) else n == row
  {
  }

  // What a deletion lists is free at that moment ...
  lemma StripSparesOwners(w: World, a: Uuid, d: Uuid)
    requires Owner(w, d) && a in w.acqs && w.acqs[a].marked
    ensures w.downloads[d].hash.h !in Doomed(w, a)
  {
    assert w.downloads[d].acq != a && Live(w, d);
    assert Preserved(w, a, w.downloads[d].hash.h);
    DoomedIff(w, a);
  }

  // ... and removing an earlier listing is safe exactly when none of its hashes has an owner by then.
  lemma StaleListingIff(w: World, hashes: set<nat>)
    requires Safe(w)
    ensures Safe(w.(torrents := w.torrents - hashes)) <==>
              forall d | d in w.downloads && Owner(w, d) :: w.downloads[d].hash.h !in hashes
  {
    var n := w.(torrents := w.torrents - hashes);
    assert forall d :: Owner(n, d) <==> Owner(w, d);
  }

  // ------------------------------------------------------------ no torrent left

  // Recorded by a row whose acquisition's deletion has still to remove the torrent, if it ever comes to that.
  predicate Unfinished(w: World, h: nat, d: Uuid) {
    && d in w.downloads && w.downloads[d].hash == Hash(h) && w.downloads[d].acq in w.acqs
    && var listing := w.acqs[w.downloads[d].acq].listing; listing.Listed? ==> h in listing.left
  }

  // Known to a worker that will record or remove it.
  predicate Underway(w: World, h: nat, d: Uuid) {
    d in w.enqueues && w.enqueues[d].Added? && w.enqueues[d].h == h
  }

  ghost predicate Recorded(w: World, h: nat) { exists d :: Unfinished(w, h, d) || Underway(w, h, d) }

  ghost predicate Accounted(w: World) { forall h | h in w.torrents :: Recorded(w, h) }

  ghost predicate Sole(w: World, h: nat, d: Uuid) {
    h in w.torrents && forall o | o != d :: !Unfinished(w, h, o) && !Underway(w, h, o)
  }

  // The steps that drop the only record of a torrent in the client: a retry clears the hash, an
  // enqueue worker dies, or fails without having added the torrent, or commits to an acquisition
  // whose deletion has listed its torrents already.
  ghost predicate Forgets(w: World, s: Step) {
    match s
    case Change(d, m) => m.Reset? && d in w.downloads && CanReset(w, d) && w.downloads[d].hash.Hash?
                         && Sole(w, w.downloads[d].hash.h, d)
    case Fail(d) => d in w.enqueues && w.enqueues[d].Added? && !w.enqueues[d].own && Sole(w, w.enqueues[d].h, d)
    case Abandon(d) => d in w.enqueues && w.enqueues[d].Added? && Sole(w, w.enqueues[d].h, d)
    case Record(d, _) =>
      CanRecord(w, d) && Sole(w, w.enqueues[d].h, d)
      && w.downloads[d].acq in w.acqs && var listing := w.acqs[w.downloads[d].acq].listing;
         listing.Listed? && w.enqueues[d].h !in listing.left
    case _ => false
  }

  // The step takes this record away.
  predicate Drops(w: World, s: Step, d: Uuid) {
    match s
    case Change(c, m) => c == d && m.Reset? && d in w.downloads && CanReset(w, d)
    case Fail(e) => e == d && d in w.enqueues
    case Abandon(e) => e == d && d in w.enqueues
    case Record(e, _) => e == d && CanRecord(w, d)
    case _ => false
  }

  lemma ListedRecord(w: World, a: Uuid, h: nat, d: Uuid)
    requires Valid(w) && Unfinished(w, h, d) && a in w.acqs && w.acqs[a].marked
    ensures Recorded(Next(w, List(a)), h)
  {
    var n := Next(w, List(a));
    if w.downloads[d].acq == a && h !in Doomed(w, a) {
      DoomedIff(w, a);
      assert Preserved(w, a, h);
      var o :| o in w.downloads && w.downloads[o].acq != a && Live(w, o) && w.downloads[o].hash == Hash(h);
      assert Unfinished(n, h, o);
    } else {
      assert Unfinished(n, h, d);
    }
  }

  lemma RecordedStays(w: World, s: Step, h: nat, d: Uuid)
    requires Valid(w) && (Unfinished(w, h, d) || Underway(w, h, d)) && !Drops(w, s, d) && h in Next(w, s).torrents
    ensures Recorded(Next(w, s), h)
  {
    var n := Next(w, s);
    if Underway(w, h, d) {
      assert Underway(n, h, d);
    } else if s.List? && s.acq in w.acqs && w.acqs[s.acq].marked {
      ListedRecord(w, s.acq, h, d);
    } else {
      RowStays(w, s, h, d);
    }
  }

  lemma RowStays(w: World, s: Step, h: nat, d: Uuid)
    requires Valid(w) && Unfinished(w, h, d) && !Drops(w, s, d) && h in Next(w, s).torrents
    requires s.List? ==> s.acq !in w.acqs || !w.acqs[s.acq].marked
    ensures Unfinished(Next(w, s), h, d)
  {
    if s.Change? { ChangedRowStays(w, s.download, s.move, h, d); }
  }

  lemma ChangedRowStays(w: World, c: Uuid, m: Move, h: nat, d: Uuid)
    requires Valid(w) && Unfinished(w, h, d) && !Drops(w, Change(c, m), d)
    ensures Unfinished(Next(w, Change(c, m)), h, d)
  {
    if c == d { MovedHash(w, c, m); }
  }

  lemma MovedHash(w: World, c: Uuid, m: Move)
    requires c in w.downloads && !(m.Reset? && CanReset(w, c))
    ensures Moved(w, c, m).hash == w.downloads[c].hash && Moved(w, c, m).acq == w.downloads[c].acq
  {
  }

  lemma ForgottenIsUnrecorded(w: World, s: Step)
    requires Valid(w) && Forgets(w, s)
    ensures !Accounted(Next(w, s))
  {
    var n := Next(w, s);
    var h := if s.Change? then w.downloads[s.download].hash.h else w.enqueues[s.download].h;
    assert h in n.torrents;
    forall d ensures !Unfinished(n, h, d) && !Underway(n, h, d) {
      if d != s.download { assert !Unfinished(w, h, d) && !Underway(w, h, d); }
    }
  }

  // A dropped record that was the only one has become the record of a row.
  lemma SoleStays(w: World, s: Step, h: nat, d: Uuid)
    requires Valid(w) && (Unfinished(w, h, d) || Underway(w, h, d)) && Drops(w, s, d) && Sole(w, h, d)
    requires !Forgets(w, s) && h in Next(w, s).torrents
    ensures Unfinished(Next(w, s), h, d)
  {
  }

  lemma UnforgottenIsRecorded(w: World, s: Step, h: nat)
    requires Valid(w) && Accounted(w) && !Forgets(w, s) && h in Next(w, s).torrents
    ensures Recorded(Next(w, s), h)
  {
    var n := Next(w, s);
    if h in w.torrents {
      var d :| Unfinished(w, h, d) || Underway(w, h, d);
      if !Drops(w, s, d) {
        RecordedStays(w, s, h, d);
      } else if Sole(w, h, d) {
        SoleStays(w, s, h, d);
      } else {
        var o :| o != d && (Unfinished(w, h, o) || Underway(w, h, o));
        RecordedStays(w, s, h, o);
      }
    } else {
      assert Underway(n, h, s.download);
    }
  }

  lemma AccountedStepIff(w: World, s: Step)
    requires Valid(w) && Accounted(w)
    ensures Accounted(Next(w, s)) <==> !Forgets(w, s)
  {
    if Forgets(w, s) {
      ForgottenIsUnrecorded(w, s);
    } else {
      forall h | h in Next(w, s).torrents ensures Recorded(Next(w, s), h) { UnforgottenIsRecorded(w, s, h); }
    }
  }

  ghost predicate NeverForgets(steps: seq<Step>) {
    steps != [] ==>
      var before := steps[..|steps| - 1];
      NeverForgets(before) && !Forgets(Run(EMPTY, before), steps[|steps| - 1])
  }

  ghost predicate AccountedThroughout(steps: seq<Step>) {
    Accounted(Run(EMPTY, steps)) && (steps != [] ==> AccountedThroughout(steps[..|steps| - 1]))
  }

  // Over all runs: every torrent in the client is recorded by an unprocessed acquisition, or
  // known to an enqueue worker under way, exactly as long as no step forgets one.
  lemma {:induction false} TorrentsAccountedIff(steps: seq<Step>)
    ensures AccountedThroughout(steps) <==> NeverForgets(steps)
  {
    if steps != [] {
      var before := steps[..|steps| - 1];
      TorrentsAccountedIff(before);
      RunsStayValid(EMPTY, before);
      if AccountedThroughout(before) {
        assert Accounted(Run(EMPTY, before));
        AccountedStepIff(Run(EMPTY, before), steps[|steps| - 1]);
      }
    }
  }

  // Once every acquisition that records a torrent has been marked and processed,
  // in whatever order, and no enqueue of it is under way, the torrent is gone from the client.
  lemma LastSharerRemovesTorrent(steps: seq<Step>, h: nat)
    requires NeverForgets(steps)
    requires forall d :: !Unfinished(Run(EMPTY, steps), h, d) && !Underway(Run(EMPTY, steps), h, d)
    ensures h !in Run(EMPTY, steps).torrents
  {
    TorrentsAccountedIff(steps);
    assert Accounted(Run(EMPTY, steps));
  }
}
