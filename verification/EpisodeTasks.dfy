// One episode task from media processing to import: two media branches, a
// finalize stage, one review and the import attempts.  Every UPDATE is a
// function that finds no row (None) when its WHERE guard fails; every
// transaction of the workflow is a step of the state machine below.
module EpisodeTasks {
  import opened Common

  datatype State = MediaQueued | Processing | Finalizing | AwaitingReview | Approved | Rejected
                 | ImportQueued | Importing | Imported | Failed | Cancelled

  datatype Branch = BranchQueued | BranchRunning | BranchReady | BranchFailed | BranchCancelled

  // failure_stage; NoFailure is SQL NULL.
  datatype Stage = NoFailure | VideoStage | SubtitleStage | FinalizeStage | ImportStage

  // The decision of the review row; Unreviewed when there is no row.
  datatype Verdict = Unreviewed | Accepted | Refused

  datatype ImportStatus = Waiting | Running | Succeeded | Broken | Withdrawn

  // `imports` holds the import rows of the task in attempt order, `review` the
  // decision of its single review row, `deleting` the deletion mark of its acquisition.
  // `stopping`: an operation of the task itself refuses a retry, because it was asked to stop or
  // is a queued or running task.cancel, or because the task has stopped and it has not ended yet;
  // `hold` is what everything else says about a retry.
  datatype Task = Task(
    state: State, video: Branch, subtitle: Branch, failure: Stage, version: int,
    artifacts: bool, review: Verdict, imports: seq<ImportStatus>, deleting: bool, stopping: bool, hold: Hold)

  const CREATED :=
    Task(MediaQueued, BranchQueued, BranchQueued, NoFailure, 1, false, Unreviewed, [], false, false, Free)

  predicate Open(b: Branch) { b.BranchQueued? || b.BranchRunning? }

  predicate Stopped(b: Branch) { b.BranchReady? || b.BranchFailed? || b.BranchCancelled? }

  predicate BothReady(t: Task) { t.video.BranchReady? && t.subtitle.BranchReady? }

  // ---------------------------------------------------------------- statements

  function Touch(t: Task): Task { t.(version := t.version + 1) }

  function StartTaskVideo(t: Task): Option<Task> {
    if (t.state.MediaQueued? || t.state.Processing? || t.state.Failed?) && Open(t.video)
    then Some(Touch(t).(state := if t.state.MediaQueued? then Processing else t.state, video := BranchRunning))
    else None
  }

  function StartTaskSubtitle(t: Task): Option<Task> {
    if (t.state.MediaQueued? || t.state.Processing? || t.state.Failed?) && Open(t.subtitle)
    then Some(Touch(t).(state := if t.state.MediaQueued? then Processing else t.state, subtitle := BranchRunning))
    else None
  }

  function MarkVideoReady(t: Task): Option<Task> {
    if Open(t.video) then Some(Touch(t).(video := BranchReady)) else None
  }

  function MarkSubtitleReady(t: Task): Option<Task> {
    if Open(t.subtitle) then Some(Touch(t).(subtitle := BranchReady)) else None
  }

  function MarkFinalizingIfReady(t: Task): Option<Task> {
    if t.state.Processing? && BothReady(t) then Some(Touch(t).(state := Finalizing)) else None
  }

  function FailVideo(t: Task): Option<Task> {
    if Open(t.video)
    then Some(Touch(t).(state := Failed, video := BranchFailed, failure := VideoStage)) else None
  }

  function FailSubtitle(t: Task): Option<Task> {
    if Open(t.subtitle)
    then Some(Touch(t).(state := Failed, subtitle := BranchFailed, failure := SubtitleStage)) else None
  }

  function CancelVideo(t: Task): Option<Task> {
    if Open(t.video)
    then Some(Touch(t).(state := Cancelled, video := BranchCancelled, failure := NoFailure)) else None
  }

  function CancelSubtitle(t: Task): Option<Task> {
    if Open(t.subtitle)
    then Some(Touch(t).(state := Cancelled, subtitle := BranchCancelled, failure := NoFailure)) else None
  }

  function MarkAwaitingReview(t: Task): Option<Task> {
    if t.state.Finalizing? && BothReady(t) then Some(Touch(t).(state := AwaitingReview)) else None
  }

  function FailFinalize(t: Task): Option<Task> {
    if t.state.Finalizing? then Some(Touch(t).(state := Failed, failure := FinalizeStage)) else None
  }

  function CancelFinalize(t: Task): Option<Task> {
    if t.state.Finalizing? then Some(Touch(t).(state := Cancelled, failure := NoFailure)) else None
  }

  // The unique key on reviews.task_id rejects a second review.
  function CreateReview(t: Task, approve: bool): Option<Task> {
    if t.review.Unreviewed? then Some(t.(review := if approve then Accepted else Refused)) else None
  }

  function MarkReviewed(t: Task, approve: bool, expected: int): Option<Task> {
    if t.state.AwaitingReview? && t.version == expected && BothReady(t) && t.artifacts
    then Some(Touch(t).(state := if approve then Approved else Rejected)) else None
  }

  function CreateImport(t: Task): Task { t.(imports := t.imports + [Waiting]) }

  function MarkImportQueued(t: Task, expected: int): Option<Task> {
    if t.state.Approved? && t.version == expected && t.review == Accepted && t.artifacts
    then Some(Touch(t).(state := ImportQueued)) else None
  }

  function StartImport(t: Task, i: nat): Option<Task> {
    if i < |t.imports| && (t.imports[i].Waiting? || t.imports[i].Running?)
    then Some(t.(imports := t.imports[i := Running])) else None
  }

  function StartTaskImport(t: Task): Option<Task> {
    if (t.state.ImportQueued? || t.state.Importing?) then Some(Touch(t).(state := Importing)) else None
  }

  function FinishImport(t: Task, i: nat): Option<Task> {
    if i < |t.imports| && t.imports[i].Running? then Some(t.(imports := t.imports[i := Succeeded])) else None
  }

  function MarkImported(t: Task): Option<Task> {
    if t.state.Importing? then Some(Touch(t).(state := Imported, failure := NoFailure)) else None
  }

  // ORDER BY attempt DESC LIMIT 1 over the rows in one of the given statuses.
  function Latest(imports: seq<ImportStatus>, among: set<ImportStatus>): (r: Option<nat>)
    ensures r.Some? ==> r.value < |imports| && imports[r.value] in among
    ensures r.Some? ==> forall k :: r.value < k < |imports| ==> imports[k] !in among
    ensures r.None? ==> forall s :: s in imports ==> s !in among
  {
    if imports == [] then None
    else if imports[|imports| - 1] in among then Some(|imports| - 1)
    else Latest(imports[..|imports| - 1], among)
  }

  function SettleLatest(t: Task, among: set<ImportStatus>, status: ImportStatus): Option<Task> {
    match Latest(t.imports, among)
    case None => None
    case Some(i) => Some(t.(imports := t.imports[i := status]))
  }

  function FailTaskImport(t: Task): Option<Task> {
    if (t.state.ImportQueued? || t.state.Importing?)
    then Some(Touch(t).(state := Failed, failure := ImportStage)) else None
  }

  function CancelTaskImport(t: Task): Option<Task> {
    if (t.state.ImportQueued? || t.state.Importing?)
    then Some(Touch(t).(state := Cancelled, failure := NoFailure)) else None
  }

  function CancelIfActive(t: Task, expected: int): Option<Task> {
    if (!t.state.Imported? && !t.state.Cancelled? && !t.state.Rejected?) && t.version == expected
    then Some(Touch(t).(state := Cancelled, failure := NoFailure,
                        video := if Open(t.video) then BranchCancelled else t.video,
                        subtitle := if Open(t.subtitle) then BranchCancelled else t.subtitle))
    else None
  }

  function CancelForDeletion(t: Task): Option<Task> {
    if (!t.state.Imported? && !t.state.Cancelled?)
    then Some(Touch(t).(state := Cancelled, failure := NoFailure,
                        video := if t.video.BranchReady? then t.video else BranchCancelled,
                        subtitle := if t.subtitle.BranchReady? then t.subtitle else BranchCancelled))
    else None
  }

  function Redone(t: Task, b: Branch): Branch {
    if b.BranchFailed? || (t.state.Cancelled? && b.BranchCancelled?) then BranchQueued else b
  }

  predicate MediaRequeueable(t: Task) {
    || ((t.state.Failed? || t.state.Processing?) && (t.video.BranchFailed? || t.subtitle.BranchFailed?))
    || (t.state.Cancelled? && Stopped(t.video) && Stopped(t.subtitle) && !BothReady(t))
  }

  function RequeueMedia(t: Task, expected: int): Option<Task> {
    if t.version == expected && MediaRequeueable(t)
    then Some(Touch(t).(state := Processing, failure := NoFailure,
                        video := Redone(t, t.video), subtitle := Redone(t, t.subtitle)))
    else None
  }

  function RequeueFinalize(t: Task): Option<Task> {
    if t.state.Failed? && BothReady(t) && t.failure.FinalizeStage?
    then Some(Touch(t).(state := Finalizing, failure := NoFailure)) else None
  }

  function RequeueImport(t: Task): Option<Task> {
    if t.state.Failed? && t.failure.ImportStage? && Broken in t.imports
    then Some(Touch(t).(state := ImportQueued, failure := NoFailure)) else None
  }

  function RequeueAfterMedia(t: Task, next: State, expected: int): Option<Task> {
    if t.state.Cancelled? && BothReady(t) && t.version == expected
       && (next.Finalizing? || next.ImportQueued?) && Succeeded !in t.imports
    then Some(Touch(t).(state := next, failure := NoFailure)) else None
  }

  // -------------------------------------------------------------- transactions

  datatype Step =
    | StartVideo | StartSubtitle
    | CompleteVideo | CompleteSubtitle
    | VideoFails | SubtitleFails | VideoStops | SubtitleStops
    | CompleteFinalize(auto: bool) | FinalizeFails | FinalizeStops
    | Review(approve: bool, expected: int)
    | BeginImport(attempt: nat) | CompleteImport(attempt: nat) | ImportFails | ImportStops
    | Cancel(expected: int) | RequestDeletion | DeletionCancels
    | Retry(expected: int)
    | Operations(stopping: bool)   // the task's own operations run on
    | Environment(hold: Hold)

  function OrSame(t: Task, r: Option<Task>): Task { if r.Some? then r.value else t }

  // A branch completes and, in the same transaction, the task moves on to
  // finalizing when that was the last branch of a processing task.
  function Completed(t: Task): Task {
    if t.state.Processing? && BothReady(t) then t.(state := Finalizing, version := t.version + 2)
    else t.(version := t.version + 1)
  }

  // The net effect of an approved review: the task is queued with a new import.
  function QueuedByReview(t: Task): Task {
    t.(state := ImportQueued, review := Accepted, imports := t.imports + [Waiting], version := t.version + 2)
  }

  function Finalized(t: Task, auto: bool): Task {
    if !t.state.Finalizing? || !BothReady(t) || (auto && !t.review.Unreviewed?) then t
    else
      var waiting := t.(state := AwaitingReview, artifacts := true, version := t.version + 1);
      if auto then QueuedByReview(waiting) else waiting
  }

  function Reviewed(t: Task, approve: bool, expected: int): Task {
    if t.state.AwaitingReview? && t.version == expected && t.review.Unreviewed? && BothReady(t) && t.artifacts then
      if approve then QueuedByReview(t)
      else t.(state := Rejected, review := Refused, version := t.version + 1)
    else t
  }

  predicate Retryable(t: Task) {
    || t.state.Failed?
    || (t.state.Processing? && (t.video.BranchFailed? || t.subtitle.BranchFailed?))
    || (t.state.Cancelled? && Stopped(t.video) && Stopped(t.subtitle))
  }

  function Retried(t: Task): Task {
    if MediaRequeueable(t) then
      t.(state := Processing, failure := NoFailure, version := t.version + 1,
         video := Redone(t, t.video), subtitle := Redone(t, t.subtitle))
    else if t.state.Cancelled? then
      if |t.imports| == 0 then t.(state := Finalizing, failure := NoFailure, version := t.version + 1)
      else if t.review == Accepted && Succeeded !in t.imports then
        t.(state := ImportQueued, failure := NoFailure, version := t.version + 1,
           imports := t.imports[|t.imports| - 1 := Waiting])
      else t
    else if t.failure.FinalizeStage? && BothReady(t) then
      t.(state := Finalizing, failure := NoFailure, version := t.version + 1)
    else if t.failure.ImportStage? && Broken in t.imports then
      t.(state := ImportQueued, failure := NoFailure, version := t.version + 1,
         imports := t.imports[Latest(t.imports, {Broken}).value := Waiting])
    else t
  }

  function Next(t: Task, s: Step): Task {
    match s
    case StartVideo => OrSame(t, StartTaskVideo(t))
    case StartSubtitle => OrSame(t, StartTaskSubtitle(t))
    case CompleteVideo => if Open(t.video) then Completed(t.(video := BranchReady)) else t
    case CompleteSubtitle => if Open(t.subtitle) then Completed(t.(subtitle := BranchReady)) else t
    case VideoFails => OrSame(t, FailVideo(t))
    case SubtitleFails => OrSame(t, FailSubtitle(t))
    case VideoStops => OrSame(t, CancelVideo(t))
    case SubtitleStops => OrSame(t, CancelSubtitle(t))
    case CompleteFinalize(auto) => Finalized(t, auto)
    case FinalizeFails => OrSame(t, FailFinalize(t))
    case FinalizeStops => OrSame(t, CancelFinalize(t))
    case Review(approve, expected) => Reviewed(t, approve, expected)
    case BeginImport(i) =>
      if (t.state.ImportQueued? || t.state.Importing?)
         && i < |t.imports| && (t.imports[i].Waiting? || t.imports[i].Running?)
      then t.(state := Importing, imports := t.imports[i := Running], version := t.version + 1) else t
    case CompleteImport(i) =>
      if t.state.Importing? && i < |t.imports| && t.imports[i].Running?
      then t.(state := Imported, failure := NoFailure, imports := t.imports[i := Succeeded], version := t.version + 1)
      else t
    case ImportFails => ImportSettled(t, Broken, Failed, ImportStage)
    case ImportStops => ImportSettled(t, Withdrawn, Cancelled, NoFailure)
    case Cancel(expected) =>
      var cancelled := CancelIfActive(t, expected);
      if cancelled.Some? then cancelled.value.(stopping := true) else t
    case RequestDeletion => t.(deleting := true)
    case DeletionCancels => if t.deleting then OrSame(t, CancelForDeletion(t)) else t
    case Retry(expected) =>
      if !t.deleting && !t.stopping && t.hold.Free? && t.version == expected && Retryable(t) then Retried(t) else t
    case Operations(stopping) => t.(stopping := stopping)
    case Environment(hold) => if t.hold.Taken? then t else t.(hold := hold)
  }

  function ImportSettled(t: Task, status: ImportStatus, state: State, failure: Stage): Task {
    match Latest(t.imports, {Waiting, Running})
    case None => t
    case Some(i) =>
      var settled := t.(imports := t.imports[i := status]);
      if (t.state.ImportQueued? || t.state.Importing?)
      then settled.(state := state, failure := failure, version := t.version + 1) else settled
  }

  function Run(t: Task, steps: seq<Step>): Task {
    if steps == [] then t else Next(Run(t, steps[..|steps| - 1]), steps[|steps| - 1])
  }

  // Requeueing a last import that has not succeeded touches no other row.
  lemma LastIsLatest(imports: seq<ImportStatus>)
    requires |imports| > 0 && !imports[|imports| - 1].Succeeded?
    ensures Latest(imports, {Waiting, Running, Withdrawn, Broken}) == Some(|imports| - 1)
    ensures Succeeded in imports <==> Succeeded in imports[|imports| - 1 := Waiting]
  {
    var last := |imports| - 1;
    if Succeeded in imports {
      var k :| 0 <= k < |imports| && imports[k] == Succeeded;
      assert imports[last := Waiting][k] == Succeeded;
    }
  }

  // The workflow object: its transactions are written statement by statement,
  // and each is proved to have the net effect of one step.
  class TaskWorkflow {
    var task: Task

    constructor ()
      ensures task == CREATED
    {
      task := CREATED;
    }

    method CompleteArtifact(video: bool) returns (done: bool)
      modifies this
      ensures task == Next(old(task), if video then CompleteVideo else CompleteSubtitle)
      ensures done <==> Open(if video then old(task).video else old(task).subtitle)
    {
      var marked := if video then MarkVideoReady(task) else MarkSubtitleReady(task);
      if marked.None? { return false; }
      task := marked.value;
      var finalizing := MarkFinalizingIfReady(task);
      if finalizing.Some? { task := finalizing.value; }
      return true;
    }

    method FinishFinalize(auto: bool) returns (done: bool)
      modifies this
      ensures task == Next(old(task), CompleteFinalize(auto))
      ensures done <==> task != old(task)
    {
      var before := task;
      if !task.state.Finalizing? || !BothReady(task) { return false; }
      task := task.(artifacts := true);
      var waiting := MarkAwaitingReview(task);
      task := waiting.value;
      if auto {
        done := Approve(task.version);
        if !done { task := before; }
      } else {
        done := true;
      }
    }

    // Review, mark and queue in one transaction; on a failed guard the caller rolls back.
    method Approve(expected: int) returns (done: bool)
      modifies this
      ensures task == Reviewed(old(task), true, expected)
      ensures done <==> task != old(task)
    {
      var reviewed := CreateReview(task, true);
      if reviewed.None? { return false; }
      var marked := MarkReviewed(reviewed.value, true, expected);
      if marked.None? { return false; }
      var queued := MarkImportQueued(CreateImport(marked.value), marked.value.version);
      if queued.None? { return false; }
      task := queued.value;
      return true;
    }

    method ReviewTask(approve: bool, expected: int) returns (done: bool)
      modifies this
      ensures task == Next(old(task), Review(approve, expected))
      ensures done <==> task != old(task)
      ensures done && approve ==> task.state.ImportQueued? && task.review.Accepted?
                                  && task.imports == old(task).imports + [Waiting]
      ensures done && !approve ==> task.state.Rejected? && task.review.Refused? && task.imports == old(task).imports
    {
      if !task.review.Unreviewed? || task.version != expected || !task.state.AwaitingReview? { return false; }
      if approve {
        done := Approve(expected);
        return;
      }
      var reviewed := CreateReview(task, false);
      var marked := MarkReviewed(reviewed.value, false, expected);
      if marked.None? { return false; }
      task := marked.value;
      return true;
    }

    method RunImport(attempt: nat) returns (started: bool)
      modifies this
      ensures task == Next(old(task), BeginImport(attempt))
      ensures started ==> task.state.Importing? && attempt < |task.imports| && task.imports[attempt].Running?
    {
      if (!task.state.ImportQueued? && !task.state.Importing?) { return false; }
      var running := StartImport(task, attempt);
      if running.None? { return false; }
      var importing := StartTaskImport(running.value);
      task := importing.value;
      return true;
    }

    method SucceedImport(attempt: nat) returns (done: bool)
      modifies this
      ensures task == Next(old(task), CompleteImport(attempt))
      ensures done <==> task != old(task)
    {
      if !task.state.Importing? { return false; }
      var finished := FinishImport(task, attempt);
      if finished.None? { return false; }
      task := MarkImported(finished.value).value;
      return true;
    }

    method FailImport()
      modifies this
      ensures task == Next(old(task), ImportFails)
    {
      var settled := SettleLatest(task, {Waiting, Running}, Broken);
      if settled.None? { return; }
      task := OrSame(settled.value, FailTaskImport(settled.value));
    }

    method CancelImport()
      modifies this
      ensures task == Next(old(task), ImportStops)
    {
      var settled := SettleLatest(task, {Waiting, Running}, Withdrawn);
      if settled.None? { return; }
      task := OrSame(settled.value, CancelTaskImport(settled.value));
    }

    // The row is stopped at once; the task.cancel operation queued with it ends later.
    method CancelTask(expected: int) returns (done: bool)
      modifies this
      ensures task == Next(old(task), Cancel(expected)) && (done <==> task != old(task))
      ensures done ==> forall e :: Next(task, Step.Retry(e)) == task
    {
      if task.version != expected { return false; }
      var cancelled := CancelIfActive(task, expected);
      if cancelled.None? { return false; }
      task := cancelled.value.(stopping := true);
      return true;
    }

    method RetryTask(expected: int) returns (done: bool)
      modifies this
      ensures task == Next(old(task), Step.Retry(expected))
      ensures done <==> task != old(task)
    {
      done := false;
      if task.deleting || task.stopping || !task.hold.Free? { return; }
      if task.version != expected || !Retryable(task) { return; }
      var stopped := task.state.Cancelled?;
      var videoFailed := task.video.BranchFailed? || (stopped && task.video.BranchCancelled?);
      var subtitleFailed := task.subtitle.BranchFailed? || (stopped && task.subtitle.BranchCancelled?);
      if videoFailed || subtitleFailed {
        task := RequeueMedia(task, expected).value;
        return true;
      }
      if stopped {
        done := RetryAfterMedia(expected);
        return;
      }
      match task.failure {
        case FinalizeStage =>
          var queued := RequeueFinalize(task);
          if queued.None? { return; }
          task := queued.value;
          done := true;
        case ImportStage =>
          var queued := RequeueImport(task);
          if queued.None? { return; }
          var waiting := SettleLatest(queued.value, {Broken}, Waiting);
          task := waiting.value;
          done := true;
        case _ =>
      }
    }

    method RetryAfterMedia(expected: int) returns (done: bool)
      requires task.state.Cancelled? && BothReady(task) && task.version == expected
      modifies this
      ensures task == Retried(old(task))
      ensures done <==> task != old(task)
    {
      var next, retried := Finalizing, task;
      if |task.imports| > 0 {
        if task.review != Accepted || task.imports[|task.imports| - 1].Succeeded? { return false; }
        retried := SettleLatest(task, {Waiting, Running, Withdrawn, Broken}, Waiting).value;
        next := ImportQueued;
        LastIsLatest(task.imports);
      }
      var queued := RequeueAfterMedia(retried, next, expected);
      if queued.None? { return false; }
      task := queued.value;
      return true;
    }
  }

  // ---------------------------------------------------------------- invariants

  predicate LateState(s: State) {
    s.Finalizing? || s.AwaitingReview? || s.Approved? || s.Rejected? || s.ImportQueued? || s.Importing? || s.Imported?
  }

  // What every reachable task row satisfies.
  predicate Consistent(t: Task) {
    && (!t.failure.NoFailure? <==> t.state.Failed?)
    && (LateState(t.state) ==> BothReady(t))
    && ((t.state.MediaQueued? || t.state.Processing?) ==> !t.video.BranchFailed? && !t.subtitle.BranchFailed?)
    && (t.state.Processing? ==> !BothReady(t))
    && (t.failure.VideoStage? ==> t.video.BranchFailed?)
    && (t.failure.SubtitleStage? ==> t.subtitle.BranchFailed?)
    && (t.failure.FinalizeStage? || t.failure.ImportStage? ==> BothReady(t))
    && (t.state.AwaitingReview? ==> t.artifacts)
    && ReviewConsistent(t)
  }

  predicate Only(t: Task, status: ImportStatus) { |t.imports| == 1 && t.imports[0] == status }

  predicate ReviewConsistent(t: Task) {
    && !t.state.Approved?
    && (t.state.Rejected? ==> t.review == Refused)
    && (t.review == Refused ==> t.state.Rejected? || (t.state.Cancelled? && t.deleting))
    && (t.review.Accepted? <==> |t.imports| > 0)
    && |t.imports| <= 1
    && (!t.review.Unreviewed? ==> BothReady(t))
    && (|t.imports| > 0 ==>
          || t.state.ImportQueued? || t.state.Importing? || t.state.Imported? || t.state.Cancelled?
          || t.failure.ImportStage?)
    && (Only(t, Succeeded) <==> t.state.Imported?)
    && (t.failure.ImportStage? ==> Only(t, Broken))
    && ((t.state.ImportQueued? || t.state.Importing?) ==> Only(t, Waiting) || Only(t, Running))
  }

  lemma ImportsSettled(t: Task, among: set<ImportStatus>)
    requires |t.imports| <= 1
    ensures Latest(t.imports, among) ==
            if |t.imports| > 0 && t.imports[0] in among then Some(0) else None
  {
  }

  lemma MediaStepKeeps(t: Task, s: Step)
    requires Consistent(t)
    requires s.StartVideo? || s.StartSubtitle? || s.CompleteVideo? || s.CompleteSubtitle?
          || s.VideoFails? || s.SubtitleFails? || s.VideoStops? || s.SubtitleStops?
    ensures Consistent(Next(t, s))
  {
  }

  lemma ImportStepKeeps(t: Task, s: Step)
    requires Consistent(t)
    requires s.BeginImport? || s.CompleteImport? || s.ImportFails? || s.ImportStops?
    ensures Consistent(Next(t, s))
  {
    ImportsSettled(t, {Waiting, Running});
  }

  lemma RetryKeeps(t: Task, s: Step)
    requires Consistent(t) && s.Retry?
    ensures Consistent(Next(t, s))
  {
    ImportsSettled(t, {Broken});
  }

  lemma NextKeepsConsistent(t: Task, s: Step)
    requires Consistent(t)
    ensures Consistent(Next(t, s))
  {
    match s
    case StartVideo | StartSubtitle | CompleteVideo | CompleteSubtitle
       | VideoFails | SubtitleFails | VideoStops | SubtitleStops => MediaStepKeeps(t, s);
    case BeginImport(_) => ImportStepKeeps(t, s);
    case CompleteImport(_) => ImportStepKeeps(t, s);
    case ImportFails | ImportStops => ImportStepKeeps(t, s);
    case Retry(_) => RetryKeeps(t, s);
    case _ =>
  }

  // Every row reachable from a freshly created task is consistent: at most one
  // import row is ever created, a succeeded import exists exactly when the task
  // is imported, and a processing task always has an unfinished branch.
  lemma {:induction false} RunsStayConsistent(t: Task, steps: seq<Step>)
    requires Consistent(t)
    ensures Consistent(Run(t, steps))
  {
    if steps != [] {
      RunsStayConsistent(t, steps[..|steps| - 1]);
      NextKeepsConsistent(Run(t, steps[..|steps| - 1]), steps[|steps| - 1]);
    }
  }

  // Ready branches stay ready, versions never decrease, a review is never
  // withdrawn, and once both branches are ready and the task has left media
  // processing it never goes back there.
  predicate Advances(before: Task, after: Task) {
    && (before.video.BranchReady? ==> after.video.BranchReady?)
    && (before.subtitle.BranchReady? ==> after.subtitle.BranchReady?)
    && before.version <= after.version
    && (!before.review.Unreviewed? ==> after.review == before.review)
    && (before.state.Imported? ==> after.state.Imported? && after.imports == before.imports)
    && (before.deleting ==> after.deleting)
    && (BothReady(before) && (!before.state.MediaQueued? && !before.state.Processing?) ==>
          (!after.state.MediaQueued? && !after.state.Processing?))
  }

  lemma ImportStepAdvances(t: Task, s: Step)
    requires Consistent(t)
    requires s.BeginImport? || s.CompleteImport? || s.ImportFails? || s.ImportStops?
    ensures Advances(t, Next(t, s))
  {
    ImportsSettled(t, {Waiting, Running});
  }

  lemma LateStepAdvances(t: Task, s: Step)
    requires Consistent(t) && (s.Retry? || s.Review? || s.CompleteFinalize?)
    ensures Advances(t, Next(t, s))
  {
  }

  lemma MediaStepAdvances(t: Task, s: Step)
    requires Consistent(t)
    requires s.StartVideo? || s.StartSubtitle? || s.CompleteVideo? || s.CompleteSubtitle?
          || s.VideoFails? || s.SubtitleFails? || s.VideoStops? || s.SubtitleStops?
    ensures Advances(t, Next(t, s))
  {
  }

  lemma NextAdvances(t: Task, s: Step)
    requires Consistent(t)
    ensures Advances(t, Next(t, s))
  {
    match s
    case StartVideo | StartSubtitle | CompleteVideo | CompleteSubtitle
       | VideoFails | SubtitleFails | VideoStops | SubtitleStops => MediaStepAdvances(t, s);
    case BeginImport(_) => ImportStepAdvances(t, s);
    case CompleteImport(_) => ImportStepAdvances(t, s);
    case ImportFails | ImportStops => ImportStepAdvances(t, s);
    case Retry(_) => LateStepAdvances(t, s);
    case Review(_, _) => LateStepAdvances(t, s);
    case CompleteFinalize(_) => LateStepAdvances(t, s);
    case _ =>
  }

  lemma {:induction false} RunsAdvance(t: Task, steps: seq<Step>)
    requires Consistent(t)
    ensures Advances(t, Run(t, steps))
  {
    if steps != [] {
      RunsAdvance(t, steps[..|steps| - 1]);
      RunsStayConsistent(t, steps[..|steps| - 1]);
      NextAdvances(Run(t, steps[..|steps| - 1]), steps[|steps| - 1]);
    }
  }

  // A task that reached finalizing can no longer be moved by either branch.
  lemma BranchesCannotMoveLateTasks(t: Task, s: Step)
    requires Consistent(t) && LateState(t.state)
    requires s in {StartVideo, StartSubtitle, CompleteVideo, CompleteSubtitle,
                   VideoFails, SubtitleFails, VideoStops, SubtitleStops}
    ensures Next(t, s) == t
  {
  }

  // ----------------------------------------------------------- the state tables

  // The transition tables the services validate against.
  predicate Allowed(from: State, to: State) {
    match from
    case MediaQueued => to.Processing? || to.Failed? || to.Cancelled?
    case Processing => to.Finalizing? || to.Failed? || to.Cancelled?
    case Finalizing => to.AwaitingReview? || to.Failed? || to.Cancelled?
    case AwaitingReview => to.Approved? || to.Rejected? || to.Failed? || to.Cancelled?
    case Approved => to.ImportQueued? || to.Failed? || to.Cancelled?
    case ImportQueued => to.Importing? || to.Failed? || to.Cancelled?
    case Importing => to.Imported? || to.Failed? || to.Cancelled?
    case Failed => to.Processing? || to.ImportQueued? || to.Cancelled?
    case _ => false
  }

  // Through the states a transaction passes on its way.
  predicate Passes(from: State, to: State) {
    || from == to || Allowed(from, to)
    || (to.ImportQueued? && Allowed(from, AwaitingReview) && Allowed(AwaitingReview, Approved))
    || (to.ImportQueued? && Allowed(from, Approved) && Allowed(Approved, ImportQueued))
  }

  predicate AllowedBranch(from: Branch, to: Branch) {
    match from
    case BranchQueued => to.BranchRunning? || to.BranchFailed? || to.BranchCancelled?
    case BranchRunning => to.BranchReady? || to.BranchFailed? || to.BranchCancelled?
    case BranchFailed => to.BranchQueued?
    case _ => false
  }

  // Where each transaction leads, when it leads anywhere.
  predicate Leads(s: Step, from: State, to: State) {
    match s
    case StartVideo | StartSubtitle => from.MediaQueued? && to.Processing?
    case CompleteVideo | CompleteSubtitle => from.Processing? && to.Finalizing?
    case VideoFails | SubtitleFails => to.Failed?
    case VideoStops | SubtitleStops => to.Cancelled?
    case CompleteFinalize(auto) => from.Finalizing? && if auto then to.ImportQueued? else to.AwaitingReview?
    case FinalizeFails => from.Finalizing? && to.Failed?
    case FinalizeStops => from.Finalizing? && to.Cancelled?
    case Review(approve, _) => from.AwaitingReview? && if approve then to.ImportQueued? else to.Rejected?
    case BeginImport(_) => from.ImportQueued? && to.Importing?
    case CompleteImport(_) => from.Importing? && to.Imported?
    case ImportFails => (from.ImportQueued? || from.Importing?) && to.Failed?
    case ImportStops => (from.ImportQueued? || from.Importing?) && to.Cancelled?
    case Cancel(_) => !from.Imported? && !from.Rejected? && to.Cancelled?
    case DeletionCancels => !from.Imported? && to.Cancelled?
    case Retry(_) => (from.Failed? || from.Cancelled?) && (to.Processing? || to.Finalizing? || to.ImportQueued?)
    case _ => false
  }

  lemma StepLeads(t: Task, s: Step)
    requires Consistent(t)
    ensures Next(t, s).state == t.state || Leads(s, t.state, Next(t, s).state)
  {
    ImportsSettled(t, {Waiting, Running});
    ImportsSettled(t, {Broken});
  }

  // A retry that nothing forbids, of a task that failed or has come to a stop.
  predicate Retries(t: Task, s: Step) {
    && s.Retry? && !t.deleting && !t.stopping && t.hold.Free? && t.version == s.expected
    && (t.state.Failed? || (t.state.Cancelled? && Stopped(t.video) && Stopped(t.subtitle)))
  }

  // The steps that leave the table: a stopped task is retried, a failed finalize is retried, a branch of a task
  // already stopped fails late, or a rejected task is stopped with its acquisition.
  predicate OffTable(t: Task, s: Step) {
    || (Retries(t, s) && (t.state.Cancelled? || t.failure.FinalizeStage?))
    || (s.VideoFails? && t.state.Cancelled? && Open(t.video))
    || (s.SubtitleFails? && t.state.Cancelled? && Open(t.subtitle))
    || (s.DeletionCancels? && t.deleting && t.state.Rejected?)
  }

  // Over every step the states follow the table, except exactly there.
  lemma TransitionsIff(t: Task, s: Step)
    requires Consistent(t)
    ensures Passes(t.state, Next(t, s).state) <==> !OffTable(t, s)
  {
    StepLeads(t, s);
    if s.Retry? { RetryIff(t, s.expected); }
  }

  // The branches follow theirs, except that a queued branch may be completed at once, the stopped one of a stopped
  // task is queued again by a retry, and a failed one is stopped with its acquisition.
  lemma VideoTransitionsIff(t: Task, s: Step)
    requires Consistent(t)
    ensures var n := Next(t, s).video;
            (n == t.video || AllowedBranch(t.video, n)) <==>
              !(|| (s.CompleteVideo? && t.video.BranchQueued?)
                || (Retries(t, s) && t.state.Cancelled? && t.video.BranchCancelled?)
                || (s.DeletionCancels? && t.deleting && t.state.Failed? && t.video.BranchFailed?))
  {
    if s.Retry? { RetryIff(t, s.expected); }
  }

  lemma SubtitleTransitionsIff(t: Task, s: Step)
    requires Consistent(t)
    ensures var n := Next(t, s).subtitle;
            (n == t.subtitle || AllowedBranch(t.subtitle, n)) <==>
              !(|| (s.CompleteSubtitle? && t.subtitle.BranchQueued?)
                || (Retries(t, s) && t.state.Cancelled? && t.subtitle.BranchCancelled?)
                || (s.DeletionCancels? && t.deleting && t.state.Failed? && t.subtitle.BranchFailed?))
  {
    if s.Retry? { RetryIff(t, s.expected); }
  }

  // A report about one branch takes effect exactly while that branch is open, settles it as reported and leaves
  // the other one alone.
  lemma VideoReports(t: Task, s: Step)
    requires Consistent(t) && (s.CompleteVideo? || s.VideoFails? || s.VideoStops?)
    ensures var n := Next(t, s);
            && n.subtitle == t.subtitle && (n == t <==> !Open(t.video))
            && (Open(t.video) ==>
                  && n.video == (if s.CompleteVideo? then BranchReady
                                 else if s.VideoFails? then BranchFailed else BranchCancelled)
                  && (s.VideoFails? ==> n.failure.VideoStage?) && (s.VideoStops? ==> n.state.Cancelled?))
  {
  }

  lemma SubtitleReports(t: Task, s: Step)
    requires Consistent(t) && (s.CompleteSubtitle? || s.SubtitleFails? || s.SubtitleStops?)
    ensures var n := Next(t, s);
            && n.video == t.video && (n == t <==> !Open(t.subtitle))
            && (Open(t.subtitle) ==>
                  && n.subtitle == (if s.CompleteSubtitle? then BranchReady
                                    else if s.SubtitleFails? then BranchFailed else BranchCancelled)
                  && (s.SubtitleFails? ==> n.failure.SubtitleStage?) && (s.SubtitleStops? ==> n.state.Cancelled?))
  {
  }

  // A branch is started exactly while it is open and the task has not moved past its media; only that branch moves.
  lemma StartIff(t: Task)
    requires Consistent(t)
    ensures var n, starts := Next(t, StartVideo), t.state.MediaQueued? || t.state.Processing? || t.state.Failed?;
            n.subtitle == t.subtitle && n.video == if starts && Open(t.video) then BranchRunning else t.video
    ensures var n, starts := Next(t, StartSubtitle), t.state.MediaQueued? || t.state.Processing? || t.state.Failed?;
            n.video == t.video && n.subtitle == if starts && Open(t.subtitle) then BranchRunning else t.subtitle
  {
  }

  // A review takes effect exactly on a task that awaits it at the expected version.
  lemma ReviewIff(t: Task, approve: bool, expected: int)
    requires Consistent(t)
    ensures var n := Next(t, Review(approve, expected));
            && (n != t <==> t.state.AwaitingReview? && t.version == expected && t.review.Unreviewed?)
            && (n != t && approve ==> n.state.ImportQueued? && n.review.Accepted? && n.imports == [Waiting])
            && (n != t && !approve ==> n.state.Rejected? && n.review.Refused? && n.imports == t.imports == [])
  {
  }

  // Main result: a rejection is recorded as one, creates no import, and no later run imports the task.
  lemma RejectionIsFinal(t: Task, expected: int, steps: seq<Step>)
    requires Consistent(t) && Next(t, Review(false, expected)) != t
    ensures var n := Next(t, Review(false, expected));
            && n.state.Rejected? && n.review.Refused? && n.imports == t.imports
            && Run(n, steps).state != Imported && Run(n, steps).review.Refused? && Run(n, steps).imports == []
  {
    var n := Next(t, Review(false, expected));
    ReviewIff(t, false, expected);
    NextKeepsConsistent(t, Review(false, expected));
    RunsStayConsistent(n, steps);
    RunsAdvance(n, steps);
  }

  // A finalizing task ends as reported; nothing else listens to these reports.
  lemma FinalizeReports(t: Task, auto: bool)
    requires Consistent(t)
    ensures !t.state.Finalizing? ==>
              Next(t, CompleteFinalize(auto)) == Next(t, FinalizeFails) == Next(t, FinalizeStops) == t
    ensures t.state.Finalizing? ==>
              && Next(t, FinalizeFails).failure.FinalizeStage? && Next(t, FinalizeStops).state.Cancelled?
              && Next(t, CompleteFinalize(auto)).artifacts
              && Next(t, CompleteFinalize(auto)).state == (if auto then ImportQueued else AwaitingReview)
              && Next(t, CompleteFinalize(auto)).imports == (if auto then [Waiting] else [])
  {
  }

  // An import is recorded by the transaction that finishes it: the task is imported exactly through its import
  // row, and a failed or stopped import leaves the row and the task saying so.
  lemma ImportReports(t: Task)
    requires Consistent(t) && (t.state.ImportQueued? || t.state.Importing?)
    ensures var n := Next(t, ImportFails); n.state.Failed? && n.failure.ImportStage? && n.imports == [Broken]
    ensures var n := Next(t, ImportStops); n.state.Cancelled? && n.imports == [Withdrawn]
    ensures var n := Next(t, BeginImport(0)); n.state.Importing? && n.imports == [Running]
    ensures var n := Next(t, CompleteImport(0));
            if t.imports == [Running] && t.state.Importing? then n.state.Imported? && n.imports == [Succeeded]
            else n == t
  {
    ImportsSettled(t, {Waiting, Running});
    assert t.imports == [t.imports[0]];
  }

  // Retrying a failure as soon as nothing forbids it puts the task back where it failed, with only the failed
  // part to be done again.
  lemma RetryUndoesFailure(t: Task, s: Step)
    requires Consistent(t) && !t.deleting && !t.stopping && t.hold.Free? && !t.state.Failed? && !t.state.Cancelled?
    requires Next(t, s).state.Failed?
    ensures var failed := Next(t, s);
            var n := Next(failed, Step.Retry(failed.version));
            && n.state == (if t.state.MediaQueued? then Processing
                           else if t.state.Importing? then ImportQueued else t.state)
            && n.failure.NoFailure? && n.review == t.review && n.artifacts == t.artifacts
            && n.video == (if s.VideoFails? then BranchQueued else t.video)
            && n.subtitle == (if s.SubtitleFails? then BranchQueued else t.subtitle)
            && n.imports == (if s.ImportFails? then [Waiting] else t.imports)
  {
    StepLeads(t, s);
    ImportsSettled(t, {Waiting, Running});
    ImportsSettled(Next(t, s), {Broken});
  }

  // ------------------------------------------------------------------- retries

  // Of the media, finalize and import requeues exactly one finds its row in a
  // failed task, and it is the one for the recorded failure stage.
  lemma ExactlyOneRequeue(t: Task)
    requires Consistent(t) && t.state.Failed?
    ensures RequeueMedia(t, t.version).Some? <==> t.failure.VideoStage? || t.failure.SubtitleStage?
    ensures RequeueFinalize(t).Some? <==> t.failure.FinalizeStage?
    ensures RequeueImport(t).Some? <==> t.failure.ImportStage?
  {
  }

  // A retry takes effect exactly on failed tasks and on stopped tasks whose
  // branches have both stopped, while no operation of its own is stopping and
  // nothing else holds the workflow back; the retried task is runnable again.
  lemma RetryIff(t: Task, expected: int)
    requires Consistent(t)
    ensures Next(t, Step.Retry(expected)) != t <==>
              !t.deleting && !t.stopping && t.hold.Free? && t.version == expected
              && (t.state.Failed? || (t.state.Cancelled? && Stopped(t.video) && Stopped(t.subtitle)))
    ensures Next(t, Step.Retry(expected)) != t ==>
              var next := Next(t, Step.Retry(expected)).state;
              next.Processing? || next.Finalizing? || next.ImportQueued?
  {
    ImportsSettled(t, {Broken});
    assert |t.imports| == 1 ==> t.imports == [t.imports[0]];
  }

  // The task's own operations refuse a retry from a cancel that took effect until they say otherwise.
  lemma StoppingIff(t: Task, s: Step)
    requires Consistent(t)
    ensures Next(t, s).stopping <==>
              if s.Operations? then s.stopping
              else t.stopping || (s.Cancel? && t.version == s.expected
                                  && !t.state.Imported? && !t.state.Cancelled? && !t.state.Rejected?)
  {
    if s.BeginImport? || s.CompleteImport? || s.ImportFails? || s.ImportStops? {
      ImportsSettled(t, {Waiting, Running});
    }
  }

  // Stopped by a cancel whose operations have not ended.
  predicate Halted(t: Task) { t.state.Cancelled? && t.stopping && !Open(t.video) && !Open(t.subtitle) }

  lemma HaltedStays(t: Task, s: Step)
    requires Halted(t) && s != Operations(false)
    ensures Halted(Next(t, s))
  {
  }

  // A cancelled task stays cancelled, whatever else happens, until its own operations end.
  lemma {:induction false} CancelledUntilSettled(t: Task, expected: int, steps: seq<Step>)
    requires Next(t, Cancel(expected)) != t && Operations(false) !in steps
    ensures Halted(Run(Next(t, Cancel(expected)), steps))
  {
    if steps != [] {
      var before, s := steps[..|steps| - 1], steps[|steps| - 1];
      CancelledUntilSettled(t, expected, before);
      assert s in steps;
      HaltedStays(Run(Next(t, Cancel(expected)), before), s);
    }
  }

  predicate Command(s: Step, expected: int) {
    || (s.Review? && s.expected == expected) || (s.Cancel? && s.expected == expected)
    || (s.Retry? && s.expected == expected)
  }

  // Every change of state or of a branch raises the version ...
  lemma ChangesRaiseVersion(t: Task, s: Step)
    requires Consistent(t)
    requires Next(t, s).state != t.state || Next(t, s).video != t.video || Next(t, s).subtitle != t.subtitle
    ensures Next(t, s).version > t.version
  {
    match s
    case StartVideo | StartSubtitle | CompleteVideo | CompleteSubtitle
       | VideoFails | SubtitleFails | VideoStops | SubtitleStops => MediaRaisesVersion(t, s);
    case BeginImport(_) => ImportRaisesVersion(t, s);
    case CompleteImport(_) => ImportRaisesVersion(t, s);
    case ImportFails | ImportStops => ImportRaisesVersion(t, s);
    case Retry(_) => CommandRaisesVersion(t, s);
    case _ =>
  }

  lemma MediaRaisesVersion(t: Task, s: Step)
    requires s.StartVideo? || s.StartSubtitle? || s.CompleteVideo? || s.CompleteSubtitle?
          || s.VideoFails? || s.SubtitleFails? || s.VideoStops? || s.SubtitleStops?
    requires Next(t, s) != t
    ensures Next(t, s).version > t.version
  {
  }

  lemma ImportRaisesVersion(t: Task, s: Step)
    requires Consistent(t) && (s.BeginImport? || s.CompleteImport? || s.ImportFails? || s.ImportStops?)
    requires Next(t, s).state != t.state || Next(t, s).video != t.video || Next(t, s).subtitle != t.subtitle
    ensures Next(t, s).version > t.version
  {
    ImportsSettled(t, {Waiting, Running});
  }

  // ... so of two commands given for the same version only one takes effect, and none given for an older one.
  lemma OneCommandPerVersion(t: Task, expected: int, first: Step, second: Step)
    requires Consistent(t) && Command(first, expected) && Command(second, expected)
    ensures expected != t.version ==> Next(t, first) == t
    ensures Next(t, first) != t ==> Next(Next(t, first), second) == Next(t, first)
  {
    var n := Next(t, first);
    NextKeepsConsistent(t, first);
    if n != t { CommandRaisesVersion(t, first); }
    if second.Retry? { RetryIff(n, expected); }
  }

  lemma CommandRaisesVersion(t: Task, s: Step)
    requires Consistent(t) && (s.Review? || s.Cancel? || s.Retry?) && Next(t, s) != t
    ensures Next(t, s).version > t.version == s.expected
  {
    if s.Retry? { RetryIff(t, s.expected); }
  }

  // ------------------------------------------------------------------ liveness

  lemma {:induction false} RunConcat(t: Task, a: seq<Step>, b: seq<Step>)
    ensures Run(t, a + b) == Run(Run(t, a), b)
  {
    if b == [] {
      assert a + b == a;
    } else {
      RunConcat(t, a, b[..|b| - 1]);
      assert (a + b)[..|a + b| - 1] == a + b[..|b| - 1];
    }
  }

  lemma RunOne(t: Task, s: Step)
    ensures Run(t, [s]) == Next(t, s)
  {
    assert [s][..0] == [];
  }

  lemma Then(t: Task, steps: seq<Step>, s: Step)
    ensures Run(t, steps + [s]) == Next(Run(t, steps), s)
  {
    RunConcat(t, steps, [s]);
    RunOne(Run(t, steps), s);
  }

  predicate Usable(b: Branch) { Open(b) || b.BranchReady? }

  // The task can be imported without a retry: its branches can still finish, or
  // have finished, and no step has failed, stopped or rejected it.
  predicate Forward(t: Task) {
    || t.state.Finalizing? || t.state.AwaitingReview?
    || t.state.ImportQueued? || t.state.Importing? || t.state.Imported?
    || (t.state.Processing? && Usable(t.video) && Usable(t.subtitle))
    || (t.state.MediaQueued? && Usable(t.video) && Usable(t.subtitle) && !BothReady(t))
  }

  predicate Unaided(steps: seq<Step>) { forall s | s in steps :: !s.Environment? }

  lemma MediaStarts(t: Task)
    requires Consistent(t) && Forward(t) && (t.state.Processing? || t.state.MediaQueued?)
    ensures var r := Next(Next(t, StartVideo), StartSubtitle);
            r.state.Processing? && Usable(r.video) && Usable(r.subtitle) && !BothReady(r)
  {
  }

  lemma MediaCompletes(r: Task)
    requires r.state.Processing? && Usable(r.video) && Usable(r.subtitle) && !BothReady(r)
    ensures Next(Next(r, CompleteVideo), CompleteSubtitle).state.Finalizing?
  {
  }

  lemma FinalizeQueues(t: Task)
    requires Consistent(t) && (t.state.Finalizing? || t.state.AwaitingReview?)
    ensures Next(Next(t, CompleteFinalize(true)), Review(true, t.version)).state.ImportQueued?
  {
  }

  lemma QueuedImports(q: Task)
    requires Consistent(q) && (q.state.ImportQueued? || q.state.Importing?)
    ensures Next(Next(q, BeginImport(0)), CompleteImport(0)).state.Imported?
  {
  }

  lemma FinishMedia(t: Task) returns (steps: seq<Step>)
    requires Consistent(t) && Forward(t)
    ensures Unaided(steps) && Forward(Run(t, steps))
    ensures !Run(t, steps).state.Processing? && !Run(t, steps).state.MediaQueued?
  {
    steps := [];
    if t.state.Processing? || t.state.MediaQueued? {
      MediaStarts(t);
      MediaCompletes(Next(Next(t, StartVideo), StartSubtitle));
      Then(t, steps, StartVideo);
      steps := steps + [StartVideo];
      Then(t, steps, StartSubtitle);
      steps := steps + [StartSubtitle];
      Then(t, steps, CompleteVideo);
      steps := steps + [CompleteVideo];
      Then(t, steps, CompleteSubtitle);
      steps := steps + [CompleteSubtitle];
    }
  }

  lemma CompleteRoute(t: Task, before: seq<Step>) returns (steps: seq<Step>)
    requires Consistent(t) && Unaided(before)
    requires var f := Run(t, before); Forward(f) && !f.state.Processing? && !f.state.MediaQueued?
    ensures Unaided(steps) && Run(t, steps).state.Imported?
  {
    steps := before;
    RunsStayConsistent(t, steps);
    var f := Run(t, steps);
    if f.state.Finalizing? || f.state.AwaitingReview? {
      FinalizeQueues(f);
      Then(t, steps, CompleteFinalize(true));
      steps := steps + [CompleteFinalize(true)];
      Then(t, steps, Review(true, f.version));
      steps := steps + [Review(true, f.version)];
      RunsStayConsistent(t, steps);
    }
    if !Run(t, steps).state.Imported? {
      QueuedImports(Run(t, steps));
      Then(t, steps, BeginImport(0));
      steps := steps + [BeginImport(0)];
      Then(t, steps, CompleteImport(0));
      steps := steps + [CompleteImport(0)];
    }
  }

  lemma ForwardReaches(t: Task) returns (steps: seq<Step>)
    requires Consistent(t) && Forward(t)
    ensures Unaided(steps) && Run(t, steps).state.Imported?
  {
    steps := FinishMedia(t);
    steps := CompleteRoute(t, steps);
  }

  lemma CompletionHalts(t: Task)
    ensures var v, s := Next(t, CompleteVideo), Next(t, CompleteSubtitle);
            && Stopped(v.video) && v.subtitle == t.subtitle && Stopped(s.subtitle) && s.video == t.video
            && (v.state == t.state || v.state.Finalizing?) && (s.state == t.state || s.state.Finalizing?)
            && v.deleting == s.deleting == t.deleting && v.review == s.review == t.review && v.hold == s.hold == t.hold
  {
  }

  lemma CompletionsHalt(t: Task)
    requires !t.state.Imported? && !t.state.Rejected?
    ensures var h := Next(Next(t, CompleteVideo), CompleteSubtitle);
            Stopped(h.video) && Stopped(h.subtitle) && !h.state.Imported? && !h.state.Rejected?
            && h.deleting == t.deleting && h.review == t.review && h.hold == t.hold
  {
    CompletionHalts(t);
    CompletionHalts(Next(t, CompleteVideo));
  }

  lemma CancelStops(h: Task)
    requires Stopped(h.video) && Stopped(h.subtitle) && !h.state.Imported? && !h.state.Rejected?
    ensures var s := Next(h, Cancel(h.version));
            s.state.Cancelled? && Stopped(s.video) && Stopped(s.subtitle)
            && s.deleting == h.deleting && s.review == h.review && s.hold == h.hold
  {
  }

  lemma RetryReopens(s: Task)
    requires Consistent(s) && s.state.Cancelled? && Stopped(s.video) && Stopped(s.subtitle)
    requires !s.deleting && s.hold.Free?
    ensures Forward(Next(Next(s, Operations(false)), Step.Retry(s.version)))
  {
  }

  // Let both branches finish, stop the task, let its operations end and retry it:
  // it can go forward again.
  lemma Reopen(t: Task) returns (steps: seq<Step>)
    requires Consistent(t) && t.review != Refused && !t.deleting && t.hold.Free? && !t.state.Imported?
    ensures Unaided(steps) && Forward(Run(t, steps)) && Consistent(Run(t, steps))
  {
    var halted := Next(Next(t, CompleteVideo), CompleteSubtitle);
    steps := [CompleteVideo];
    RunOne(t, CompleteVideo);
    Then(t, steps, CompleteSubtitle);
    steps := steps + [CompleteSubtitle];
    CompletionsHalt(t);
    Then(t, steps, Cancel(halted.version));
    steps := steps + [Cancel(halted.version)];
    CancelStops(halted);
    RunsStayConsistent(t, steps);
    var stopped := Run(t, steps);
    RetryReopens(stopped);
    Then(t, steps, Operations(false));
    steps := steps + [Operations(false)];
    Then(t, steps, Step.Retry(stopped.version));
    steps := steps + [Step.Retry(stopped.version)];
    RunsStayConsistent(t, steps);
  }

  lemma ReachImported(t: Task) returns (steps: seq<Step>)
    requires Consistent(t) && (Forward(t) || (t.review != Refused && !t.deleting && t.hold.Free?))
    ensures Unaided(steps) && Run(t, steps).state.Imported?
  {
    if Forward(t) {
      steps := ForwardReaches(t);
    } else {
      var open := Reopen(t);
      var rest := ForwardReaches(Run(t, open));
      RunConcat(t, open, rest);
      steps := open + rest;
    }
  }

  // No way forward, and no retry: rejected, being deleted, or held back by
  // something that the given kind of run cannot change.
  predicate Stuck(t: Task, aided: bool) {
    !Forward(t) && (t.review.Refused? || t.deleting || (if aided then t.hold.Taken? else !t.hold.Free?))
  }

  lemma MediaStuck(t: Task, s: Step, aided: bool)
    requires Consistent(t) && Stuck(t, aided)
    requires s.StartVideo? || s.StartSubtitle? || s.CompleteVideo? || s.CompleteSubtitle?
          || s.VideoFails? || s.SubtitleFails? || s.VideoStops? || s.SubtitleStops?
    ensures Stuck(Next(t, s), aided)
  {
  }

  lemma StuckStays(t: Task, s: Step, aided: bool)
    requires Consistent(t) && Stuck(t, aided) && (aided || !s.Environment?)
    ensures Stuck(Next(t, s), aided)
  {
    match s
    case StartVideo | StartSubtitle | CompleteVideo | CompleteSubtitle
       | VideoFails | SubtitleFails | VideoStops | SubtitleStops => MediaStuck(t, s, aided);
    case BeginImport(_) => ImportStuck(t, s, aided);
    case CompleteImport(_) => ImportStuck(t, s, aided);
    case ImportFails | ImportStops => ImportStuck(t, s, aided);
    case Retry(expected) => RetryIff(t, expected);
    case _ =>
  }

  lemma ImportStuck(t: Task, s: Step, aided: bool)
    requires Consistent(t) && Stuck(t, aided)
    requires s.BeginImport? || s.CompleteImport? || s.ImportFails? || s.ImportStops?
    ensures Stuck(Next(t, s), aided)
  {
    ImportsSettled(t, {Waiting, Running});
  }

  lemma {:induction false} StuckForGood(t: Task, steps: seq<Step>, aided: bool)
    requires Consistent(t) && Stuck(t, aided) && (aided || Unaided(steps))
    ensures Stuck(Run(t, steps), aided)
  {
    if steps != [] {
      var before := steps[..|steps| - 1];
      assert forall s | s in before :: s in steps;
      StuckForGood(t, before, aided);
      RunsStayConsistent(t, before);
      StuckStays(Run(t, before), steps[|steps| - 1], aided);
    }
  }

  // While everything but the task and its own operations stands still, a task can
  // be imported exactly when it has a way forward, or is unrejected, not being deleted
  // and held back by nothing else.
  lemma ImportableUnaidedIff(t: Task)
    requires Consistent(t)
    ensures (exists steps :: Unaided(steps) && Run(t, steps).state == Imported) <==>
              Forward(t) || (t.review != Refused && !t.deleting && t.hold.Free?)
  {
    if Forward(t) || (t.review != Refused && !t.deleting && t.hold.Free?) {
      var steps := ReachImported(t);
    } else {
      forall steps | Unaided(steps) ensures Run(t, steps).state != Imported { StuckForGood(t, steps, false); }
    }
  }

  // Over all runs, whatever the rest of the system does short of giving up an
  // import: only a rejection, a deletion or another acquisition's import is final.
  lemma ImportableIff(t: Task)
    requires Consistent(t)
    ensures (exists steps :: Run(t, steps).state == Imported) <==>
              Forward(t) || (t.review != Refused && !t.deleting && !t.hold.Taken?)
  {
    if Forward(t) {
      var steps := ForwardReaches(t);
    } else if t.review != Refused && !t.deleting && !t.hold.Taken? {
      var freed := Next(t, Environment(Free));
      RunOne(t, Environment(Free));
      NextKeepsConsistent(t, Environment(Free));
      var rest := ReachImported(freed);
      RunConcat(t, [Environment(Free)], rest);
    } else {
      forall steps ensures Run(t, steps).state != Imported { StuckForGood(t, steps, true); }
    }
  }

  // Main result: a task that is stopped with its acquisition is never imported any more, unless it already was.
  lemma DeletionIsFinal(t: Task, steps: seq<Step>)
    requires Consistent(t) && !t.state.Imported?
    ensures var n := Next(Next(t, RequestDeletion), DeletionCancels);
            n.state.Cancelled? && Run(n, steps).state != Imported
  {
    var n := Next(Next(t, RequestDeletion), DeletionCancels);
    NextKeepsConsistent(t, RequestDeletion);
    NextKeepsConsistent(Next(t, RequestDeletion), DeletionCancels);
    StuckForGood(n, steps, true);
  }

  // What this means for every task that was ever created.
  lemma ReachableTasks(steps: seq<Step>)
    ensures var t := Run(CREATED, steps);
            && (t.state.Failed? <==> !t.failure.NoFailure?)
            && (LateState(t.state) ==> BothReady(t))
            && (t.state.Processing? ==> !BothReady(t))
            && |t.imports| <= 1
            && (Succeeded in t.imports <==> t.state.Imported?)
            && (t.imports != [] <==> t.review == Accepted)
  {
    RunsStayConsistent(CREATED, steps);
    var t := Run(CREATED, steps);
    assert |t.imports| == 1 ==> t.imports == [t.imports[0]];
  }

  lemma ReachableImportableIff(steps: seq<Step>)
    ensures var t := Run(CREATED, steps);
            (exists more :: Run(t, more).state == Imported) <==>
              Forward(t) || (t.review != Refused && !t.deleting && !t.hold.Taken?)
  {
    RunsStayConsistent(CREATED, steps);
    ImportableIff(Run(CREATED, steps));
  }
}
