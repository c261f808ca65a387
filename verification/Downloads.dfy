// One download from enqueueing to materialization: the status graph, the
// recorded failure stage, the torrent hash and the progress column, which is
// kept in units of 1/100000 as the numeric(6,5) column allows.
module Downloads {
  import opened Common

  datatype Status = EnqueuePending | FileResolutionPending | Downloading | Completed | SelectingFiles
                  | Materialized | Failed | Cancelled

  // failure_stage; NoFailure is SQL NULL.
  datatype Stage = NoFailure | EnqueueStage | FileResolutionStage | SyncStage | MaterializeStage

  // The error codes the retry paths distinguish; NoError is SQL NULL.
  datatype Code = NoError | NoMainVideo | ManifestChanged | MappingIncomplete | OtherError

  const FULL: nat := 100000

  // `tasks` says whether episode tasks were created from the files of the download,
  // `deleting` whether its acquisition is marked for deletion.
  // `stopping`: an operation of the download itself refuses a retry, because it was asked to stop or
  // is a queued or running download.cancel, or because the download has stopped and it has not ended yet;
  // `hold` is what everything else says about a retry.
  datatype Download = Download(
    status: Status, failure: Stage, code: Code, hash: bool, progress: int, version: int,
    tasks: bool, removal: bool, removed: bool, deleting: bool, stopping: bool, hold: Hold)

  const CREATED :=
    Download(EnqueuePending, NoFailure, NoError, false, 0, 1, false, false, false, false, false, Free)

  function Least(a: int, b: int): int { if a <= b then a else b }

  // ---------------------------------------------------------------- statements

  function Fail(d: Download, stage: Stage, code: Code): Download {
    d.(status := Failed, failure := stage, code := code, version := d.version + 1)
  }

  function MoveTo(d: Download, status: Status): Download {
    d.(status := status, failure := NoFailure, code := NoError, version := d.version + 1)
  }

  function UpdateProgress(d: Download, scaled: int): Download {
    if d.status.Downloading? then d.(progress := Max(d.progress, Least(FULL, Max(0, scaled)))) else d
  }

  function MarkCompleted(d: Download): Option<Download> {
    if d.status.Downloading?
    then Some(d.(status := Completed, progress := FULL, failure := NoFailure, code := NoError)) else None
  }

  function MarkSelecting(d: Download): Option<Download> {
    if d.status.Completed? then Some(d.(status := SelectingFiles, version := d.version + 1)) else None
  }

  function MarkMaterialized(d: Download): Option<Download> {
    if d.status.SelectingFiles? then Some(d.(status := Materialized)) else None
  }

  function RequeueEnqueue(d: Download, expected: int): Option<Download> {
    if d.status.Failed? && d.failure.EnqueueStage? && d.version == expected
    then Some(MoveTo(d, EnqueuePending).(progress := 0)) else None
  }

  function RequeueFileResolution(d: Download, expected: int): Option<Download> {
    if d.status.Failed? && d.failure.FileResolutionStage? && d.hash && d.version == expected
    then Some(MoveTo(d, FileResolutionPending)) else None
  }

  function RequeueNoMainVideo(d: Download, expected: int): Option<Download> {
    if d.status.Failed? && d.failure.FileResolutionStage? && d.code.NoMainVideo? && d.hash && d.version == expected
    then Some(MoveTo(d, EnqueuePending).(hash := false, progress := 0)) else None
  }

  function RequeueSync(d: Download, expected: int): Option<Download> {
    if d.status.Failed? && d.failure.SyncStage? && d.hash && d.version == expected
    then Some(MoveTo(d, Downloading)) else None
  }

  function RequeueMaterialize(d: Download, expected: int): Option<Download> {
    if d.status.Failed? && d.failure.MaterializeStage? && d.hash && d.version == expected
    then Some(MoveTo(d, Completed)) else None
  }

  function RequeueCancelled(d: Download, expected: int): Option<Download> {
    if d.status.Cancelled? && !d.removed && !d.removal && d.version == expected && !d.tasks
    then Some(MoveTo(d, EnqueuePending).(hash := false, progress := 0)) else None
  }

  // --------------------------------------------------------------------- steps

  datatype Step =
    | EnqueueLegacy                       // torrent added, starts downloading
    | EnqueueManifest                     // torrent added, files still to be chosen
    | EnqueueFails(code: Code)
    | ChooseSource(expected: int)         // also revives a failed file resolution
    | ApplySelection
    | FileResolutionFails(code: Code)
    | Progress(scaled: int)
    | Complete
    | SyncFails(code: Code)
    | Materialize
    | MaterializeFails(code: Code)
    | MappingReady(expected: int)
    | Cancel(expected: int)
    | RequestDeletion
    | DeletionCancels
    | RequestRemoval(expected: int)
    | Remove
    // `reclassifiable`: the stored file list is not empty and now holds a main video.
    | Retry(expected: int, reclassifiable: bool)
    | Operations(stopping: bool)          // the download's own operations run on
    | Environment(hold: Hold)

  // An error code comes with every failure.
  predicate Failure(code: Code) { !code.NoError? }

  // The status in which the failure of a stage is raised.
  function Origin(stage: Stage): Status
    requires !stage.NoFailure?
  {
    match stage
    case EnqueueStage => EnqueuePending
    case FileResolutionStage => FileResolutionPending
    case SyncStage => Downloading
    case MaterializeStage => Completed
  }

  function Retried(d: Download, reclassifiable: bool): Download {
    if d.status.Cancelled? then
      if d.tasks then d else MoveTo(d, EnqueuePending).(hash := false, progress := 0)
    else if d.failure.EnqueueStage? then MoveTo(d, EnqueuePending).(progress := 0)
    else if !d.hash || d.failure.NoFailure? then d
    else if d.failure.FileResolutionStage? && d.code.NoMainVideo? && reclassifiable then
      MoveTo(d, EnqueuePending).(hash := false, progress := 0)
    else MoveTo(d, Origin(d.failure))
  }

  function Next(d: Download, s: Step): Download {
    match s
    case EnqueueLegacy =>
      if d.status.EnqueuePending? then MoveTo(d, Downloading).(hash := true, progress := 0) else d
    case EnqueueManifest =>
      if d.status.EnqueuePending? then MoveTo(d, FileResolutionPending).(hash := true, progress := 0) else d
    case EnqueueFails(code) =>
      if d.status.EnqueuePending? && Failure(code) then Fail(d, EnqueueStage, code) else d
    case ChooseSource(expected) =>
      if d.version == expected
         && (d.status.FileResolutionPending? || (d.status.Failed? && d.failure.FileResolutionStage?))
      then MoveTo(d, FileResolutionPending) else d
    case ApplySelection =>
      if d.status.FileResolutionPending? && d.hash then MoveTo(d, Downloading) else d
    case FileResolutionFails(code) =>
      if d.status.FileResolutionPending? && Failure(code)
      then Fail(d, FileResolutionStage, code).(stopping := d.stopping || code.NoMainVideo?) else d
    case Progress(scaled) => UpdateProgress(d, scaled)
    case Complete =>
      if d.status.Downloading?
      then d.(status := Completed, progress := FULL, failure := NoFailure, code := NoError) else d
    case SyncFails(code) =>
      if d.status.Downloading? && Failure(code) then Fail(d, SyncStage, code) else d
    case Materialize =>
      if d.status.Completed? then d.(status := Materialized, tasks := true, version := d.version + 1) else d
    case MaterializeFails(code) =>
      if (d.status.Completed? || d.status.SelectingFiles?) && Failure(code) then Fail(d, MaterializeStage, code) else d
    case MappingReady(expected) =>
      if d.status.Failed? && d.failure.MaterializeStage? && d.code.MappingIncomplete? && d.version == expected
      then MoveTo(d, Completed) else d
    case Cancel(expected) =>
      if d.version == expected && !d.status.Materialized? && !d.status.Cancelled?
      then MoveTo(d, Cancelled).(stopping := true) else d
    case RequestDeletion => d.(deleting := true)
    case DeletionCancels =>
      if d.deleting && !d.removed
         && (d.status.EnqueuePending? || d.status.Downloading? || d.status.Completed? || d.status.SelectingFiles?)
      then MoveTo(d, Cancelled) else d
    case RequestRemoval(expected) =>
      if !d.removed && !d.removal && d.version == expected
         && (d.status.Completed? || d.status.Materialized? || d.status.Failed? || d.status.Cancelled?)
      then d.(removal := true, stopping := true, version := d.version + 1) else d
    case Remove => if d.removal && !d.removed then d.(removed := true) else d
    case Retry(expected, reclassifiable) =>
      if d.version == expected && !d.removal && !d.removed && !d.deleting && !d.stopping && d.hold.Free?
         && (d.status.Failed? || d.status.Cancelled?) && !d.code.ManifestChanged?
      then Retried(d, reclassifiable) else d
    case Operations(stopping) => d.(stopping := stopping)
    case Environment(hold) => if d.hold.Taken? then d else d.(hold := hold)
  }

  function Run(d: Download, steps: seq<Step>): Download {
    if steps == [] then d else Next(Run(d, steps[..|steps| - 1]), steps[|steps| - 1])
  }

  // The workflow object, its transactions written statement by statement.
  class DownloadWorkflow {
    var download: Download

    constructor ()
      ensures download == CREATED
    {
      download := CREATED;
    }

    // The client reports a fraction; it is clamped, scaled and never lowers the column.
    method RecordProgress(fraction: real) returns (scaled: int)
      modifies this
      ensures 0 <= scaled <= FULL && download == Next(old(download), Progress(scaled))
      ensures 0.0 <= fraction <= 1.0 ==> scaled as real <= fraction * 100000.0 < scaled as real + 1.0
      ensures (fraction < 0.0 ==> scaled == 0) && (fraction > 1.0 ==> scaled == FULL)
      ensures if old(download).status.Downloading?
              then download == old(download).(progress := download.progress)
                   && download.progress == (if old(download).progress < scaled then scaled else old(download).progress)
              else download == old(download)
    {
      var p := if fraction < 0.0 then 0.0 else fraction;
      p := if p > 1.0 then 1.0 else p;
      scaled := (p * 100000.0).Floor;
      download := UpdateProgress(download, scaled);
    }

    method CompleteDownload() returns (ok: bool)
      modifies this
      ensures download == Next(old(download), Complete)
      ensures ok <==> download.status.Completed? || download.status.SelectingFiles? || download.status.Materialized?
    {
      if download.status.Completed? || download.status.SelectingFiles? || download.status.Materialized? { return true; }
      var completed := MarkCompleted(download);
      if completed.None? { return false; }
      download := completed.value;
      return true;
    }

    method MaterializeDownload() returns (ok: bool)
      modifies this
      ensures download == Next(old(download), Materialize)
      ensures ok <==> old(download).status.Completed?
    {
      var selecting := MarkSelecting(download);
      if selecting.None? { return false; }
      var finished := MarkMaterialized(selecting.value.(tasks := true));
      download := finished.value;
      return true;
    }

    // The row is stopped at once; the download.cancel operation queued with it ends later.
    method CancelDownload(expected: int) returns (ok: bool)
      modifies this
      ensures download == Next(old(download), Cancel(expected)) && (ok <==> download != old(download))
      ensures ok ==> forall e, r :: Next(download, Step.Retry(e, r)) == download
    {
      if download.version != expected || download.status.Materialized? || download.status.Cancelled? { return false; }
      download := MoveTo(download, Cancelled).(stopping := true);
      return true;
    }

    method RetryDownload(expected: int, files: nat, video: bool) returns (ok: bool)
      modifies this
      ensures download == Next(old(download), Step.Retry(expected, files > 0 && video))
      ensures ok <==> download != old(download)
    {
      ok := false;
      if download.deleting || download.stopping || !download.hold.Free? { return; }
      if download.version != expected || download.removal || download.removed { return; }
      if !download.status.Failed? && !download.status.Cancelled? { return; }
      if download.code.ManifestChanged? { return; }
      var stage := if download.status.Cancelled? then EnqueueStage else download.failure;
      var requeued := None;
      match stage {
        case EnqueueStage =>
          requeued := if download.status.Cancelled? then RequeueCancelled(download, expected)
                      else RequeueEnqueue(download, expected);
        case FileResolutionStage =>
          if download.code.NoMainVideo? && download.hash && files > 0 && video {
            requeued := RequeueNoMainVideo(download, expected);
          } else {
            requeued := RequeueFileResolution(download, expected);
          }
        case SyncStage => requeued := RequeueSync(download, expected);
        case MaterializeStage => requeued := RequeueMaterialize(download, expected);
        case NoFailure =>
      }
      if requeued.Some? {
        download := requeued.value;
        ok := true;
      }
    }
  }

  // ---------------------------------------------------------------- invariants

  predicate Complete?(d: Download) {
    d.status.Completed? || d.status.SelectingFiles? || d.status.Materialized? || d.failure.MaterializeStage?
  }

  // What every reachable download row satisfies.
  predicate Consistent(d: Download) {
    && (d.failure.NoFailure? <==> !d.status.Failed?)
    && (d.code.NoError? <==> !d.status.Failed?)
    && (d.status.FileResolutionPending? || d.status.Downloading? || Complete?(d) ==> d.hash)
    && (d.status.Failed? && !d.failure.EnqueueStage? ==> d.hash)
    && 0 <= d.progress <= FULL
    && (Complete?(d) ==> d.progress == FULL)
    && (d.status.EnqueuePending? || d.status.FileResolutionPending? ==> d.progress == 0)
    && (d.failure.EnqueueStage? || d.failure.FileResolutionStage? ==> d.progress == 0)
    && !d.status.SelectingFiles?
    && (d.tasks <==> d.status.Materialized?)
    && (d.removed ==> d.removal)
  }

  lemma NextKeepsConsistent(d: Download, s: Step)
    requires Consistent(d)
    ensures Consistent(Next(d, s))
  {
  }

  lemma {:induction false} RunsStayConsistent(d: Download, steps: seq<Step>)
    requires Consistent(d)
    ensures Consistent(Run(d, steps))
  {
    if steps != [] {
      RunsStayConsistent(d, steps[..|steps| - 1]);
      NextKeepsConsistent(Run(d, steps[..|steps| - 1]), steps[|steps| - 1]);
    }
  }

  // ------------------------------------------------------------ the state table

  // The transition table the services validate against.
  predicate Allowed(from: Status, to: Status) {
    match from
    case EnqueuePending => to.FileResolutionPending? || to.Downloading? || to.Failed? || to.Cancelled?
    case FileResolutionPending => to.Downloading? || to.Failed? || to.Cancelled?
    case Downloading => to.Completed? || to.Failed? || to.Cancelled?
    case Completed => to.SelectingFiles? || to.Failed? || to.Cancelled?
    case SelectingFiles => to.Materialized? || to.Failed? || to.Cancelled?
    case Failed => to.Cancelled?
    case _ => false
  }

  // Materializing passes through the selection of files.
  predicate Passes(from: Status, to: Status) {
    || from == to || Allowed(from, to)
    || (Allowed(from, SelectingFiles) && Allowed(SelectingFiles, to) && to.Materialized?)
  }

  // Where each transaction leads, when it leads anywhere.
  predicate Leads(s: Step, from: Status, to: Status) {
    match s
    case EnqueueLegacy => from.EnqueuePending? && to.Downloading?
    case EnqueueManifest => from.EnqueuePending? && to.FileResolutionPending?
    case EnqueueFails(_) => from.EnqueuePending? && to.Failed?
    case ChooseSource(_) => from.Failed? && to.FileResolutionPending?
    case ApplySelection => from.FileResolutionPending? && to.Downloading?
    case FileResolutionFails(_) => from.FileResolutionPending? && to.Failed?
    case Complete => from.Downloading? && to.Completed?
    case SyncFails(_) => from.Downloading? && to.Failed?
    case Materialize => from.Completed? && to.Materialized?
    case MaterializeFails(_) => from.Completed? && to.Failed?
    case MappingReady(_) => from.Failed? && to.Completed?
    case Cancel(_) => !from.Materialized? && to.Cancelled?
    case DeletionCancels => (from.EnqueuePending? || from.Downloading? || from.Completed?) && to.Cancelled?
    case Retry(_, _) =>
      (from.Failed? || from.Cancelled?)
      && (to.EnqueuePending? || to.FileResolutionPending? || to.Downloading? || to.Completed?)
    case _ => false
  }

  lemma StepLeads(d: Download, s: Step)
    requires Consistent(d)
    ensures Next(d, s).status == d.status || Leads(s, d.status, Next(d, s).status)
  {
    if s.EnqueueLegacy? || s.EnqueueManifest? || s.EnqueueFails? || s.ChooseSource? || s.ApplySelection? {
      EarlyStepLeads(d, s);
    } else if s.Retry? {
      RetryIff(d, s.expected, s.reclassifiable);
    }
  }

  lemma EarlyStepLeads(d: Download, s: Step)
    requires Consistent(d)
    requires s.EnqueueLegacy? || s.EnqueueManifest? || s.EnqueueFails? || s.ChooseSource? || s.ApplySelection?
    ensures Next(d, s).status == d.status || Leads(s, d.status, Next(d, s).status)
  {
  }

  // Nothing but its own operations forbids a retry.
  predicate Retriable(d: Download) { !d.removal && !d.deleting && d.hold.Free? }

  // Every step follows the table except the ways back from a failure or a stop: a retry, a file choice for a failed
  // resolution, and a mapping completed after a failed materialization.
  lemma TransitionsIff(d: Download, s: Step)
    requires Consistent(d)
    ensures Passes(d.status, Next(d, s).status) <==>
              !(|| (s.Retry? && Retriable(d) && !d.stopping && d.version == s.expected
                    && ((d.status.Failed? && !d.code.ManifestChanged?) || d.status.Cancelled?))
                || (s.ChooseSource? && d.version == s.expected && d.failure.FileResolutionStage?)
                || (s.MappingReady? && d.version == s.expected && d.failure.MaterializeStage?
                    && d.code.MappingIncomplete?))
  {
    StepLeads(d, s);
  }

  // The stage and code of a failure are those reported, and a failure is only recorded in the status that can
  // raise it.
  lemma FailureIsRecorded(d: Download, code: Code)
    requires Consistent(d) && !code.NoError?
    ensures var n := Next(d, EnqueueFails(code));
            if d.status.EnqueuePending? then n.failure.EnqueueStage? && n.code == code else n == d
    ensures var n := Next(d, FileResolutionFails(code));
            if d.status.FileResolutionPending? then n.failure.FileResolutionStage? && n.code == code else n == d
    ensures var n := Next(d, SyncFails(code));
            if d.status.Downloading? then n.failure.SyncStage? && n.code == code else n == d
    ensures var n := Next(d, MaterializeFails(code));
            if d.status.Completed? then n.failure.MaterializeStage? && n.code == code else n == d
  {
  }

  // An enqueue records the torrent of a pending download and starts it, or leaves its files to be chosen; choosing
  // them starts it.
  lemma EnqueueIff(d: Download)
    requires Consistent(d)
    ensures var n := Next(d, EnqueueLegacy);
            if d.status.EnqueuePending? then n.status.Downloading? && n.hash && n.progress == 0 else n == d
    ensures var n := Next(d, EnqueueManifest);
            if d.status.EnqueuePending? then n.status.FileResolutionPending? && n.hash && n.progress == 0 else n == d
    ensures var n := Next(d, ApplySelection);
            if d.status.FileResolutionPending? then n.status.Downloading? && n.hash && n.progress == 0 else n == d
  {
  }

  predicate Removable(d: Download, expected: int) {
    && !d.removed && d.version == expected
    && (d.status.Completed? || d.status.Materialized? || d.status.Failed? || d.status.Cancelled?)
  }

  // A removal is requested once, only for a download that is complete, failed or stopped, and nothing takes it back.
  lemma RemovalIff(d: Download, s: Step)
    requires Consistent(d)
    ensures Next(d, s).removal <==> d.removal || (s.RequestRemoval? && Removable(d, s.expected))
  {
  }

  // It is completed only after it was requested.
  lemma RemovedIff(d: Download, s: Step)
    requires Consistent(d)
    ensures Next(d, s).removed <==> d.removed || (s.Remove? && d.removal)
  {
  }

  // ------------------------------------------------------------------ progress

  // No step of the run sent the download back to the enqueue stage.
  predicate NeverReenqueued(d: Download, steps: seq<Step>) {
    steps != [] ==>
      var before := steps[..|steps| - 1];
      && NeverReenqueued(d, before)
      && (Run(d, steps).status.EnqueuePending? ==> Run(d, before).status.EnqueuePending?)
  }

  lemma StepKeepsProgress(d: Download, s: Step)
    requires Consistent(d) && (Next(d, s).status.EnqueuePending? ==> d.status.EnqueuePending?)
    ensures d.progress <= Next(d, s).progress
    ensures Complete?(d) || d.status.Cancelled? ==>
              Complete?(Next(d, s)) || Next(d, s).status.Cancelled?
  {
  }

  // Progress only ever falls through a re-enqueue, and then to zero.
  lemma {:induction false} ProgressIsMonotone(d: Download, steps: seq<Step>)
    requires Consistent(d) && NeverReenqueued(d, steps)
    ensures d.progress <= Run(d, steps).progress <= FULL
  {
    if steps != [] {
      var before := steps[..|steps| - 1];
      ProgressIsMonotone(d, before);
      RunsStayConsistent(d, before);
      StepKeepsProgress(Run(d, before), steps[|steps| - 1]);
      NextKeepsConsistent(Run(d, before), steps[|steps| - 1]);
    } else {
      assert Run(d, steps) == d;
    }
  }

  // A download that was complete stays complete, failed in materialization or
  // stopped, for as long as it is not enqueued again.
  lemma {:induction false} CompletionIsKept(d: Download, steps: seq<Step>)
    requires Consistent(d) && Complete?(d) && NeverReenqueued(d, steps)
    ensures Complete?(Run(d, steps)) || Run(d, steps).status.Cancelled?
  {
    if steps != [] {
      var before := steps[..|steps| - 1];
      CompletionIsKept(d, before);
      ProgressIsMonotone(d, before);
      RunsStayConsistent(d, before);
      StepKeepsProgress(Run(d, before), steps[|steps| - 1]);
    }
  }

  // ------------------------------------------------------------------- retries

  // While no operation of its own is stopping and nothing else holds the workflow
  // back, a retry takes effect exactly on failed downloads whose manifest is unchanged
  // and on every stopped one; it resumes at the stage that failed, except that a
  // stopped download and a reclassified one start over.
  lemma RetryIff(d: Download, expected: int, reclassifiable: bool)
    requires Consistent(d)
    ensures var n := Next(d, Step.Retry(expected, reclassifiable));
            && (n != d <==> d.version == expected && !d.removal && !d.deleting && !d.stopping && d.hold.Free?
                            && ((d.status.Failed? && !d.code.ManifestChanged?) || d.status.Cancelled?))
            && (n != d && (d.status.Cancelled?
                           || (d.failure.FileResolutionStage? && d.code.NoMainVideo? && reclassifiable))
                ==> n.status.EnqueuePending?)
            && (n != d && d.status.Failed? && !(d.failure.FileResolutionStage? && d.code.NoMainVideo? && reclassifiable)
                ==> n.status == Origin(d.failure))
            && (n != d ==> n.failure.NoFailure? && n.code.NoError?)
            && (n != d ==> n.progress == if n.status.EnqueuePending? then 0 else d.progress)
            && (n != d ==> n.hash == (d.hash && !d.status.Cancelled?
                                      && !(d.failure.FileResolutionStage? && d.code.NoMainVideo? && reclassifiable)))
  {
  }

  // Each stage's failure is raised in the very status its requeue returns to.
  lemma RetryUndoesFailure(d: Download, s: Step, reclassifiable: bool)
    requires Consistent(d) && !d.removal && !d.deleting && !d.stopping && d.hold.Free?
    requires Next(d, s).status.Failed? && !d.status.Failed?
    requires !Next(d, s).code.ManifestChanged? && !Next(d, s).code.NoMainVideo?
    ensures var failed := Next(d, s);
            Next(failed, Step.Retry(failed.version, reclassifiable)) == d.(version := d.version + 2)
  {
  }

  // The deletion path leaves exactly the downloads whose files are still being
  // chosen running: its status list does not name them.
  lemma DeletionMissesFileResolution(d: Download)
    requires Consistent(d) && !d.removed && d.deleting
    ensures var n := Next(d, DeletionCancels);
            (n.status.EnqueuePending? || n.status.FileResolutionPending?
             || n.status.Downloading? || n.status.Completed?)
            <==> d.status.FileResolutionPending?
  {
  }

  predicate Stops(d: Download, s: Step) {
    || (s.Cancel? && d.version == s.expected && !d.status.Materialized? && !d.status.Cancelled?)
    || (s.RequestRemoval? && !d.removal && Removable(d, s.expected))
    || (s.FileResolutionFails? && s.code.NoMainVideo? && d.status.FileResolutionPending?)
  }

  // The download's own operations refuse a retry from a cancel, a removal or a rejected manifest until they say
  // otherwise.
  lemma StoppingIff(d: Download, s: Step)
    requires Consistent(d)
    ensures Next(d, s).stopping <==> if s.Operations? then s.stopping else d.stopping || Stops(d, s)
  {
  }

  // Stopped by a cancel whose operations have not ended.
  predicate Halted(d: Download) { d.status.Cancelled? && d.failure.NoFailure? && d.stopping }

  lemma HaltedStays(d: Download, s: Step)
    requires Halted(d) && s != Operations(false)
    ensures Halted(Next(d, s))
  {
  }

  // A cancelled download stays cancelled, whatever else happens, until its own operations end.
  lemma {:induction false} CancelledUntilSettled(d: Download, expected: int, steps: seq<Step>)
    requires Next(d, Cancel(expected)) != d && Operations(false) !in steps
    ensures Halted(Run(Next(d, Cancel(expected)), steps))
  {
    if steps != [] {
      var before, s := steps[..|steps| - 1], steps[|steps| - 1];
      CancelledUntilSettled(d, expected, before);
      assert s in steps;
      HaltedStays(Run(Next(d, Cancel(expected)), before), s);
    }
  }

  predicate Command(s: Step, expected: int) {
    || (s.Cancel? && s.expected == expected) || (s.Retry? && s.expected == expected)
    || (s.RequestRemoval? && s.expected == expected) || (s.ChooseSource? && s.expected == expected)
    || (s.MappingReady? && s.expected == expected)
  }

  // Every change of status raises the version by one, except that the synchronization completes a download silently.
  lemma ChangesRaiseVersion(d: Download, s: Step)
    requires Consistent(d) && Next(d, s).status != d.status
    ensures Next(d, s).version == if s.Complete? then d.version else d.version + 1
  {
    if s.Cancel? || s.Retry? || s.RequestRemoval? || s.ChooseSource? || s.MappingReady? {
      CommandRaisesVersion(d, s.expected, s);
    }
  }

  lemma CommandRaisesVersion(d: Download, expected: int, s: Step)
    requires Consistent(d) && Command(s, expected) && Next(d, s) != d
    ensures Next(d, s).version == d.version + 1 == expected + 1
  {
    if s.Retry? { RetryIff(d, expected, s.reclassifiable); }
  }

  // Of two commands given for the same version only one takes effect, and none given for an older one.
  lemma OneCommandPerVersion(d: Download, expected: int, first: Step, second: Step)
    requires Consistent(d) && Command(first, expected) && Command(second, expected)
    ensures expected != d.version ==> Next(d, first) == d
    ensures Next(d, first) != d ==> Next(Next(d, first), second) == Next(d, first)
  {
    var n := Next(d, first);
    NextKeepsConsistent(d, first);
    if n != d { CommandRaisesVersion(d, expected, first); }
    if Next(n, second) != n { CommandRaisesVersion(n, expected, second); }
    if Next(d, first) != d && expected != d.version { CommandRaisesVersion(d, expected, first); }
  }

  // ------------------------------------------------------------------ liveness

  lemma Then(d: Download, steps: seq<Step>, s: Step)
    ensures Run(d, steps + [s]) == Next(Run(d, steps), s)
  {
    assert (steps + [s])[..|steps + [s]| - 1] == steps;
  }

  // The download can be materialized without a retry: it is under way, or its
  // failure is one that a file choice or a completed mapping resolves.
  predicate Forward(d: Download) {
    || d.status.EnqueuePending? || d.status.FileResolutionPending? || d.status.Downloading?
    || d.status.Completed? || d.status.Materialized?
    || d.failure.FileResolutionStage?
    || (d.failure.MaterializeStage? && d.code.MappingIncomplete?)
  }

  predicate Unaided(steps: seq<Step>) { forall s | s in steps :: !s.Environment? }

  lemma ForwardSteps(d: Download)
    requires Consistent(d) && Forward(d)
    ensures var a := Next(Next(d, MappingReady(d.version)), ChooseSource(d.version));
            var b := Next(Next(a, EnqueueLegacy), ApplySelection);
            Next(Next(b, Complete), Materialize).status.Materialized?
  {
  }

  lemma ForwardReaches(d: Download) returns (steps: seq<Step>)
    requires Consistent(d) && Forward(d)
    ensures Unaided(steps) && Run(d, steps).status.Materialized?
  {
    ForwardSteps(d);
    steps := [];
    Then(d, steps, MappingReady(d.version));
    steps := steps + [MappingReady(d.version)];
    Then(d, steps, ChooseSource(d.version));
    steps := steps + [ChooseSource(d.version)];
    Then(d, steps, EnqueueLegacy);
    steps := steps + [EnqueueLegacy];
    Then(d, steps, ApplySelection);
    steps := steps + [ApplySelection];
    Then(d, steps, Complete);
    steps := steps + [Complete];
    Then(d, steps, Materialize);
    steps := steps + [Materialize];
  }

  lemma StopAndStartOver(d: Download)
    requires Consistent(d) && Retriable(d) && !Forward(d)
    ensures var stopped := Next(Next(d, Cancel(d.version)), Operations(false));
            Next(stopped, Step.Retry(stopped.version, false)).status.EnqueuePending?
  {
  }

  lemma {:induction false} RunConcat(d: Download, a: seq<Step>, b: seq<Step>)
    ensures Run(d, a + b) == Run(Run(d, a), b)
  {
    if b == [] {
      assert a + b == a;
    } else {
      RunConcat(d, a, b[..|b| - 1]);
      assert (a + b)[..|a + b| - 1] == a + b[..|b| - 1];
    }
  }

  // Forward if possible, otherwise after stopping the download, letting its operations
  // end and starting it over.
  lemma ReachMaterialized(d: Download) returns (steps: seq<Step>)
    requires Consistent(d) && (Forward(d) || Retriable(d))
    ensures Unaided(steps) && Run(d, steps).status.Materialized?
  {
    if Forward(d) {
      steps := ForwardReaches(d);
    } else {
      var first := WayBack(d);
      var rest := ForwardReaches(Run(d, first));
      RunConcat(d, first, rest);
      steps := first + rest;
    }
  }

  lemma WayBack(d: Download) returns (steps: seq<Step>)
    requires Consistent(d) && !Forward(d) && Retriable(d)
    ensures Unaided(steps) && Consistent(Run(d, steps)) && Forward(Run(d, steps))
  {
    StopAndStartOver(d);
    var cancel := Cancel(d.version);
    var retry := Step.Retry(Next(d, cancel).version, false);
    Then(d, [], cancel);
    Then(d, [] + [cancel], Operations(false));
    Then(d, [] + [cancel] + [Operations(false)], retry);
    steps := [] + [cancel] + [Operations(false)] + [retry];
    RunsStayConsistent(d, steps);
  }

  predicate Stuck(d: Download, aided: bool) {
    !Forward(d) && (d.removal || d.deleting || (if aided then d.hold.Taken? else !d.hold.Free?))
  }

  lemma StuckStays(d: Download, s: Step, aided: bool)
    requires Consistent(d) && Stuck(d, aided) && (aided || !s.Environment?)
    ensures Stuck(Next(d, s), aided)
  {
  }

  lemma {:induction false} StuckForGood(d: Download, steps: seq<Step>, aided: bool)
    requires Consistent(d) && Stuck(d, aided) && (aided || Unaided(steps))
    ensures Stuck(Run(d, steps), aided)
  {
    if steps != [] {
      var before := steps[..|steps| - 1];
      assert forall s | s in before :: s in steps;
      StuckForGood(d, before, aided);
      RunsStayConsistent(d, before);
      StuckStays(Run(d, before), steps[|steps| - 1], aided);
    }
  }

  // While everything but the download and its own operations stands still, a download
  // can be materialized exactly when it has a way forward or nothing else forbids a retry.
  lemma MaterializableUnaidedIff(d: Download)
    requires Consistent(d)
    ensures (exists steps :: Unaided(steps) && Run(d, steps).status == Materialized) <==> Forward(d) || Retriable(d)
  {
    if Forward(d) || Retriable(d) {
      var steps := ReachMaterialized(d);
    } else {
      forall steps | Unaided(steps) ensures Run(d, steps).status != Materialized { StuckForGood(d, steps, false); }
    }
  }

  // Over all runs only removal, deletion and another acquisition's import are final.
  lemma MaterializableIff(d: Download)
    requires Consistent(d)
    ensures (exists steps :: Run(d, steps).status == Materialized) <==>
              Forward(d) || (!d.removal && !d.deleting && !d.hold.Taken?)
  {
    if Forward(d) {
      var steps := ForwardReaches(d);
    } else if !d.removal && !d.deleting && !d.hold.Taken? {
      Then(d, [], Environment(Free));
      NextKeepsConsistent(d, Environment(Free));
      assert [] + [Environment(Free)] == [Environment(Free)];
      var rest := ReachMaterialized(Next(d, Environment(Free)));
      RunConcat(d, [Environment(Free)], rest);
    } else {
      forall steps ensures Run(d, steps).status != Materialized { StuckForGood(d, steps, true); }
    }
  }

  // What is left of a download once its acquisition's deletion has stopped it: it can still be materialized exactly
  // when it already is, or its files were being chosen, or it failed where a file choice or a mapping helps.
  lemma DeletedMaterializableIff(d: Download)
    requires Consistent(d) && !d.removed
    ensures var n := Next(Next(d, RequestDeletion), DeletionCancels);
            (exists steps :: Run(n, steps).status == Materialized) <==>
              || d.status.Materialized? || d.status.FileResolutionPending? || d.failure.FileResolutionStage?
              || (d.failure.MaterializeStage? && d.code.MappingIncomplete?)
  {
    NextKeepsConsistent(d, RequestDeletion);
    NextKeepsConsistent(Next(d, RequestDeletion), DeletionCancels);
    MaterializableIff(Next(Next(d, RequestDeletion), DeletionCancels));
  }

  // The same for every download that was ever created.
  lemma ReachableDownloads(steps: seq<Step>)
    ensures var d := Run(CREATED, steps);
            Consistent(d) && ((exists more :: Run(d, more).status == Materialized) <==>
                                Forward(d) || (!d.removal && !d.deleting && !d.hold.Taken?))
  {
    RunsStayConsistent(CREATED, steps);
    MaterializableIff(Run(CREATED, steps));
  }
}
