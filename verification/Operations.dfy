// Operation lifecycle: the statements of the operations / operation_attempts tables, the transactions that
// compose them, the attempt ledger, and the drain that an acquisition deletion waits for.
module Operations {
  import opened Common

  datatype Status = Queued | Running | Succeeded | Failed | Cancelled
  datatype AttemptStatus = AttemptRunning | AttemptSucceeded | AttemptFailed | AttemptCancelled
  datatype Resource = Resource(kind: string, id: Uuid)

  // One operations row together with its operation_attempts rows, keyed by attempt number.
  datatype Operation = Operation(
    kind: string, resource: Option<Resource>, status: Status, riverJob: Option<int>,
    maxAttempts: nat, attemptCount: int, cancelRequestedAt: Option<Time>,
    heartbeatAt: Option<Time>, startedAt: Option<Time>, finishedAt: Option<Time>,
    attempts: map<int, AttemptStatus>)
  {
    predicate Pending() { status == Queued || status == Running }

    // No attempt rows, queued, never started: the row CreateOperation inserts.
    predicate Fresh() {
      && status == Queued && maxAttempts > 0 && attemptCount == 0 && attempts == map[]
      && cancelRequestedAt.None? && finishedAt.None?
    }
  }

  // ---------------------------------------------------------------- statements (None: no row matched)

  function Start(o: Operation, now: Time): Option<Operation> {
    if o.Pending() && o.cancelRequestedAt.None? && o.attemptCount < o.maxAttempts
    then Some(o.(status := Running, attemptCount := o.attemptCount + 1,
                 startedAt := Some(Coalesce(o.startedAt, now)), heartbeatAt := Some(now)))
    else None
  }

  function AbandonRunning(o: Operation): Operation {
    o.(attempts := map n | n in o.attempts :: if o.attempts[n] == AttemptRunning then AttemptFailed else o.attempts[n])
  }

  // Fails on the UNIQUE (operation_id, attempt) key and on the positive-number check.
  function CreateAttempt(o: Operation, n: int): Option<Operation> {
    if n <= 0 || n in o.attempts then None else Some(o.(attempts := o.attempts[n := AttemptRunning]))
  }

  predicate RunningAttempt(o: Operation, n: int) {
    n in o.attempts && o.attempts[n] == AttemptRunning
  }

  function FinishAttempt(o: Operation, n: int, outcome: AttemptStatus): Option<Operation> {
    if RunningAttempt(o, n) then Some(o.(attempts := o.attempts[n := outcome])) else None
  }

  function DeleteSnoozedAttempt(o: Operation, n: int): Option<Operation> {
    if RunningAttempt(o, n) then Some(o.(attempts := o.attempts - {n})) else None
  }

  function Retry(o: Operation, now: Time): Option<Operation> {
    if o.status == Running && o.cancelRequestedAt.None? && o.attemptCount < o.maxAttempts
    then Some(o.(status := Queued, heartbeatAt := Some(now))) else None
  }

  function Snooze(o: Operation, now: Time): Option<Operation> {
    if o.status == Running && o.cancelRequestedAt.None? && o.attemptCount > 0
    then Some(o.(status := Queued, attemptCount := o.attemptCount - 1, heartbeatAt := Some(now))) else None
  }

  function Complete(o: Operation, now: Time): Option<Operation> {
    if o.status == Running && o.cancelRequestedAt.None?
    then Some(o.(status := Succeeded, heartbeatAt := Some(now), finishedAt := Some(now))) else None
  }

  function Fail(o: Operation, now: Time): Option<Operation> {
    if o.Pending() then Some(o.(status := Failed, heartbeatAt := Some(now), finishedAt := Some(now))) else None
  }

  function Cancel(o: Operation, now: Time): Option<Operation> {
    if o.Pending()
    then Some(o.(status := Cancelled, cancelRequestedAt := Some(Coalesce(o.cancelRequestedAt, now)),
                 heartbeatAt := if o.status == Running then Some(now) else o.heartbeatAt, finishedAt := Some(now)))
    else None
  }

  function RequestCancel(o: Operation, now: Time): Option<Operation> {
    if o.Pending() then Some(o.(cancelRequestedAt := Some(Coalesce(o.cancelRequestedAt, now)))) else None
  }

  // ---------------------------------------------------------------- transactions

  // `n` is the attempt number the job queue hands to the worker.
  datatype Tx =
    | StartAttempt(n: int, now: Time)
    | SucceedAttempt(n: int, now: Time)
    | FailAttempt(n: int, retryable: bool, now: Time)
    | CancelAttempt(n: int, now: Time)
    | SnoozeAttempt(n: int, now: Time)
    | Beat(now: Time)
    | RequestCancellation(now: Time)

  // Commits the outcome of the last statement; rolls back to `o` when a statement matched no row.
  function Commit(o: Operation, result: Option<Operation>): Operation {
    if result.Some? then result.value else o
  }

  function Started(o: Operation, n: int, now: Time): Operation {
    var abandoned := AbandonRunning(o);
    match Start(abandoned, now)
    case Some(started) => Commit(o, CreateAttempt(started, n))
    case None => if o.cancelRequestedAt.Some? then Commit(o, Cancel(abandoned, now)) else o
  }

  function FailedAttempt(o: Operation, n: int, retryable: bool, now: Time): Operation {
    if o.cancelRequestedAt.Some? then
      match FinishAttempt(o, n, AttemptCancelled)
      case Some(finished) => Commit(o, Cancel(finished, now))
      case None => o
    else
      match FinishAttempt(o, n, AttemptFailed)
      case Some(finished) =>
        Commit(o, if retryable && o.attemptCount < o.maxAttempts then Retry(finished, now) else Fail(finished, now))
      case None => o
  }

  function Next(o: Operation, tx: Tx): Operation {
    match tx
    case StartAttempt(n, now) => Started(o, n, now)
    case SucceedAttempt(n, now) =>
      (match FinishAttempt(o, n, AttemptSucceeded)
       case Some(finished) => Commit(o, Complete(finished, now))
       case None => o)
    case FailAttempt(n, retryable, now) => FailedAttempt(o, n, retryable, now)
    case CancelAttempt(n, now) =>
      (match FinishAttempt(o, n, AttemptCancelled)
       case Some(finished) => Commit(o, Cancel(finished, now))
       case None => o)
    case SnoozeAttempt(n, now) =>
      (match DeleteSnoozedAttempt(o, n)
       case Some(deleted) => Commit(o, Snooze(deleted, now))
       case None => o)
    case Beat(now) => if o.status == Running && o.cancelRequestedAt.None? then o.(heartbeatAt := Some(now)) else o
    case RequestCancellation(now) => Commit(o, RequestCancel(o, now))
  }

  function Run(o: Operation, txs: seq<Tx>): Operation {
    if txs == [] then o else Next(Run(o, txs[..|txs| - 1]), txs[|txs| - 1])
  }

  // ---------------------------------------------------------------- attempt ledger

  // The attempt budget is respected, rows and counter agree, the operation runs exactly while one attempt
  // row does, and only terminal operations are finished.
  ghost predicate Ledger(o: Operation) {
    && 0 <= o.attemptCount <= o.maxAttempts && 0 < o.maxAttempts
    && |o.attempts| == o.attemptCount
    && (forall m, n | RunningAttempt(o, m) && RunningAttempt(o, n) :: m == n)
    && (o.status == Running <==> exists n :: RunningAttempt(o, n))
    && (o.finishedAt.Some? <==> !o.Pending())
  }

  lemma AbandonKeepsCount(o: Operation)
    ensures |AbandonRunning(o).attempts| == |o.attempts|
    ensures forall n :: !RunningAttempt(AbandonRunning(o), n)
  {
    assert AbandonRunning(o).attempts.Keys == o.attempts.Keys;
  }

  lemma DeleteKeepsCount(o: Operation, n: int)
    requires RunningAttempt(o, n)
    ensures |(o.attempts - {n})| == |o.attempts| - 1
  {
    assert (o.attempts - {n}).Keys == o.attempts.Keys - {n};
  }

  lemma StartKeepsLedger(o: Operation, n: int, now: Time)
    requires Ledger(o)
    ensures Ledger(Started(o, n, now))
  {
    AbandonKeepsCount(o);
    var o' := Started(o, n, now);
    if o' != o && o'.status == Running {
      assert RunningAttempt(o', n);
    }
  }

  lemma SnoozeKeepsLedger(o: Operation, n: int, now: Time)
    requires Ledger(o)
    ensures Ledger(Next(o, SnoozeAttempt(n, now)))
  {
    var o' := Next(o, SnoozeAttempt(n, now));
    if o' != o {
      DeleteKeepsCount(o, n);
      assert forall m :: RunningAttempt(o', m) <==> RunningAttempt(o, m) && m != n;
    }
  }

  // Finishing the running attempt and leaving the running status keeps the ledger.
  lemma FinishKeepsLedger(o: Operation, n: int, outcome: AttemptStatus, o': Operation)
    requires Ledger(o) && RunningAttempt(o, n) && outcome != AttemptRunning
    requires o'.attempts == o.attempts[n := outcome] && o'.status != Running
    requires o'.attemptCount == o.attemptCount && o'.maxAttempts == o.maxAttempts
    requires o'.finishedAt.Some? <==> !o'.Pending()
    ensures Ledger(o')
  {
    forall m ensures !RunningAttempt(o', m) {
      assert m != n ==> (RunningAttempt(o', m) <==> RunningAttempt(o, m));
    }
  }

  lemma NextKeepsLedger(o: Operation, tx: Tx)
    requires Ledger(o)
    ensures Ledger(Next(o, tx))
  {
    var o' := Next(o, tx);
    match tx
    case StartAttempt(n, now) => StartKeepsLedger(o, n, now);
    case SnoozeAttempt(n, now) => SnoozeKeepsLedger(o, n, now);
    case SucceedAttempt(n, now) => if o' != o { FinishKeepsLedger(o, n, AttemptSucceeded, o'); }
    case FailAttempt(n, _, now) =>
      if o' != o { FinishKeepsLedger(o, n, if o.cancelRequestedAt.Some? then AttemptCancelled else AttemptFailed, o'); }
    case CancelAttempt(n, now) => if o' != o { FinishKeepsLedger(o, n, AttemptCancelled, o'); }
    case _ => assert forall m :: RunningAttempt(o', m) <==> RunningAttempt(o, m);
  }

  // How a transaction changes the attempt budget: +1 for a committed start, -1 for a committed snooze.
  function Spent(o: Operation, tx: Tx): int {
    if tx.StartAttempt? && Next(o, tx).status == Running && Next(o, tx) != o then 1
    else if tx.SnoozeAttempt? && Next(o, tx) != o then -1
    else 0
  }

  lemma SpentMovesCounter(o: Operation, tx: Tx)
    requires Ledger(o)
    ensures Next(o, tx).attemptCount == o.attemptCount + Spent(o, tx)
  {
  }

  // Committed starts minus committed snoozes of a run.
  function Balance(o: Operation, txs: seq<Tx>): int {
    if txs == [] then 0
    else Balance(o, txs[..|txs| - 1]) + Spent(Run(o, txs[..|txs| - 1]), txs[|txs| - 1])
  }

  // Main result: in every run of a created operation the ledger holds and starts minus snoozes is the counter.
  lemma {:induction false} LedgerOverRuns(o: Operation, txs: seq<Tx>)
    requires o.Fresh()
    ensures Ledger(Run(o, txs)) && Balance(o, txs) == Run(o, txs).attemptCount
  {
    if txs != [] {
      var u := Run(o, txs[..|txs| - 1]);
      LedgerOverRuns(o, txs[..|txs| - 1]);
      NextKeepsLedger(u, txs[|txs| - 1]);
      SpentMovesCounter(u, txs[|txs| - 1]);
    }
  }

  // ---------------------------------------------------------------- attempt numbers

  // Attempt rows are numbered exactly 1..attempt_count and the running one is the last.
  ghost predicate Numbered(o: Operation) {
    && (forall n :: n in o.attempts <==> 1 <= n <= o.attemptCount)
    && (forall n | RunningAttempt(o, n) :: n == o.attemptCount)
  }

  // The worker was handed the next number of the operation's own counter.
  predicate HandedNext(o: Operation, tx: Tx) {
    Spent(o, tx) == 1 ==> tx.n == o.attemptCount + 1
  }

  lemma StartNumberedIff(o: Operation, tx: Tx)
    requires Ledger(o) && Numbered(o) && Spent(o, tx) == 1
    ensures Numbered(Next(o, tx)) <==> tx.n == o.attemptCount + 1
  {
    AbandonKeepsCount(o);
    assert RunningAttempt(Next(o, tx), tx.n);
  }

  lemma OtherStepsKeepNumbered(o: Operation, tx: Tx)
    requires Ledger(o) && Numbered(o) && Spent(o, tx) != 1
    ensures Numbered(Next(o, tx))
  {
    assert forall m :: RunningAttempt(Next(o, tx), m) ==> RunningAttempt(o, m);
  }

  lemma NumberedStepIff(o: Operation, tx: Tx)
    requires Ledger(o) && Numbered(o)
    ensures Numbered(Next(o, tx)) <==> HandedNext(o, tx)
  {
    if Spent(o, tx) == 1 { StartNumberedIff(o, tx); } else { OtherStepsKeepNumbered(o, tx); }
  }

  // Numbered after every prefix of the run.
  ghost predicate NumberedThroughout(o: Operation, txs: seq<Tx>) {
    Numbered(Run(o, txs)) && (txs == [] || NumberedThroughout(o, txs[..|txs| - 1]))
  }

  predicate HandedNextThroughout(o: Operation, txs: seq<Tx>) {
    txs == [] || (HandedNextThroughout(o, txs[..|txs| - 1]) && HandedNext(Run(o, txs[..|txs| - 1]), txs[|txs| - 1]))
  }

  // Main result: the rows are numbered 1..attempt_count at every point of a run exactly when every committed
  // start was handed attempt_count + 1.
  lemma {:induction false} NumberedRunIff(o: Operation, txs: seq<Tx>)
    requires o.Fresh()
    ensures NumberedThroughout(o, txs) <==> HandedNextThroughout(o, txs)
  {
    if txs != [] {
      var init := txs[..|txs| - 1];
      NumberedRunIff(o, init);
      if NumberedThroughout(o, init) {
        LedgerOverRuns(o, init);
        NumberedStepIff(Run(o, init), txs[|txs| - 1]);
      }
    }
  }

  // Every start was handed a number above all recorded ones.
  ghost predicate GrowingThroughout(o: Operation, txs: seq<Tx>) {
    txs == [] ||
    (var init, tx := txs[..|txs| - 1], txs[|txs| - 1];
     && GrowingThroughout(o, init)
     && (tx.StartAttempt? ==> forall m | m in Run(o, init).attempts :: m < tx.n))
  }

  ghost predicate RunsLast(o: Operation) {
    forall m, n | m in o.attempts && RunningAttempt(o, n) :: m <= n
  }

  // A queue that only hands out growing numbers keeps the running attempt the highest numbered one.
  lemma {:induction false} GrowingNumbersRunLast(o: Operation, txs: seq<Tx>)
    requires o.Fresh() && GrowingThroughout(o, txs)
    ensures RunsLast(Run(o, txs))
  {
    if txs != [] {
      var u, tx := Run(o, txs[..|txs| - 1]), txs[|txs| - 1];
      GrowingNumbersRunLast(o, txs[..|txs| - 1]);
      AbandonKeepsCount(u);
      if Spent(u, tx) == 1 {
        assert forall n | RunningAttempt(Next(u, tx), n) :: n == tx.n;
      } else {
        assert forall n | RunningAttempt(Next(u, tx), n) :: RunningAttempt(u, n);
      }
    }
  }

  lemma RecoveredStart(o: Operation)
    requires o.Fresh()
    ensures
      var o1 := Next(o, StartAttempt(1, 10));
      var o2 := Next(o1, SnoozeAttempt(1, 20));
      var o3 := Next(o2, StartAttempt(2, 30));
      && o1.attempts == map[1 := AttemptRunning] && o1.attemptCount == 1
      && o2.attempts == map[] && o2.attemptCount == 0
      && 2 in o3.attempts && o3.attemptCount == 1
  {
  }

  // The stale-operation recovery refunds the operation's counter but not the queue's: the next start is
  // handed a number one too high and the rows are no longer 1..attempt_count.
  lemma RecoveryBreaksNumbering(o: Operation)
    requires o.Fresh()
    ensures
      var recovered := [StartAttempt(1, 10), SnoozeAttempt(1, 20)];
      && NumberedThroughout(o, recovered)
      && !Numbered(Run(o, recovered + [StartAttempt(2, 30)]))
  {
    var a, b, c := StartAttempt(1, 10), SnoozeAttempt(1, 20), StartAttempt(2, 30);
    RecoveredStart(o);
    assert [a, b] + [c] == [a, b, c] && [a, b, c][..2] == [a, b] && [a, b][..1] == [a] && [a][..0] == [];
    assert Run(o, [a]) == Next(o, a);
    assert Run(o, [a, b]) == Next(Run(o, [a]), b);
    assert Run(o, [a, b, c]) == Next(Run(o, [a, b]), c);
  }

  // ---------------------------------------------------------------- cancellation and drain

  // What the deletion's quiescence count regards as active.
  predicate Active(o: Operation) {
    o.status == Running || (o.status == Queued && o.cancelRequestedAt.None?)
  }

  // A terminal operation is frozen: no transaction changes any of its columns or attempt rows.
  lemma TerminalIsFrozen(o: Operation, tx: Tx)
    requires Ledger(o) && !o.Pending()
    ensures Next(o, tx) == o
  {
  }

  // Over every run, once cancellation is requested the operation can only become cancelled: it never starts,
  // retries, snoozes, succeeds or fails, and it never becomes active again once inactive.
  lemma {:induction false} CancelledIsTheOnlyWayOut(o: Operation, txs: seq<Tx>)
    requires Ledger(o) && o.cancelRequestedAt.Some?
    ensures
      var o' := Run(o, txs);
      && Ledger(o') && o'.cancelRequestedAt.Some?
      && (o'.status == o.status || o'.status == Cancelled)
      && o'.attemptCount == o.attemptCount
  {
    if txs != [] {
      CancelledIsTheOnlyWayOut(o, txs[..|txs| - 1]);
      NextKeepsLedger(Run(o, txs[..|txs| - 1]), txs[|txs| - 1]);
    }
  }

  lemma InactiveStaysInactive(o: Operation, tx: Tx)
    requires Ledger(o) && !Active(o)
    ensures !Active(Next(o, tx))
  {
  }

  // ---------------------------------------------------------------- how an operation ends

  // A started attempt runs under the number it was handed, an earlier one left running has failed, and the
  // operation has one attempt less to go; nothing else can make an operation run.
  lemma StartIff(o: Operation, tx: Tx)
    requires Ledger(o)
    ensures
      var o', started := Next(o, tx), tx.StartAttempt? && o.Pending() && o.cancelRequestedAt.None?
                                      && o.attemptCount < o.maxAttempts && tx.n > 0 && tx.n !in o.attempts;
      && (started ==>
            && o'.status == Running && o'.attemptCount == o.attemptCount + 1 && RunningAttempt(o', tx.n)
            && o'.attempts.Keys == o.attempts.Keys + {tx.n}
            && o'.heartbeatAt == Some(tx.now)
            && o'.startedAt == (if o.startedAt.Some? then o.startedAt else Some(tx.now))
            && forall m | m in o.attempts ::
                 o'.attempts[m] == if RunningAttempt(o, m) then AttemptFailed else o.attempts[m])
      && (!started ==> o'.status == Running ==> o.status == Running && o'.attempts == o.attempts)
  {
  }

  // What the worker of the running attempt can report, and what becomes of the operation.
  lemma ReportOutcome(o: Operation, n: int, retryable: bool, now: Time)
    requires Ledger(o) && RunningAttempt(o, n) && o.cancelRequestedAt.None?
    ensures
      var o' := Next(o, FailAttempt(n, retryable, now));
      && o'.status == (if retryable && o.attemptCount < o.maxAttempts then Queued else Failed)
      && o'.attempts == o.attempts[n := AttemptFailed] && o'.attemptCount == o.attemptCount
    ensures
      var o' := Next(o, SucceedAttempt(n, now));
      o'.status == Succeeded && o'.attempts == o.attempts[n := AttemptSucceeded] && o'.attemptCount == o.attemptCount
    ensures
      var o' := Next(o, SnoozeAttempt(n, now));
      o'.status == Queued && o'.attempts == o.attempts - {n} && o'.attemptCount == o.attemptCount - 1
  {
    assert n in o.attempts.Keys;
  }

  // A worker that gives up cancels attempt and operation, requested or not.
  lemma GiveUpOutcome(o: Operation, n: int, now: Time)
    requires Ledger(o) && RunningAttempt(o, n)
    ensures
      var o' := Next(o, CancelAttempt(n, now));
      && o'.status == Cancelled && o'.attempts == o.attempts[n := AttemptCancelled]
      && o'.cancelRequestedAt == (if o.cancelRequestedAt.Some? then o.cancelRequestedAt else Some(now))
  {
  }

  // A report that arrives after a cancellation request cancels attempt and operation, or is refused.
  lemma ReportAfterRequest(o: Operation, n: int, retryable: bool, now: Time)
    requires Ledger(o) && RunningAttempt(o, n) && o.cancelRequestedAt.Some?
    ensures
      var o' := Next(o, FailAttempt(n, retryable, now));
      o'.status == Cancelled && o'.attempts == o.attempts[n := AttemptCancelled]
    ensures Next(o, SucceedAttempt(n, now)) == Next(o, SnoozeAttempt(n, now)) == o
  {
  }

  // A failure report that leaves no further attempt.
  predicate FailsForGood(o: Operation, tx: Tx) {
    && tx.FailAttempt? && RunningAttempt(o, tx.n) && o.cancelRequestedAt.None?
    && (!tx.retryable || o.attemptCount == o.maxAttempts)
  }

  predicate SucceedsNow(o: Operation, tx: Tx) {
    tx.SucceedAttempt? && RunningAttempt(o, tx.n) && o.cancelRequestedAt.None?
  }

  // A worker gives up its running attempt, or any report or start comes after a cancellation request.
  predicate CancelsNow(o: Operation, tx: Tx) {
    || (tx.CancelAttempt? && RunningAttempt(o, tx.n))
    || (tx.FailAttempt? && RunningAttempt(o, tx.n) && o.cancelRequestedAt.Some?)
    || (tx.StartAttempt? && o.Pending() && o.cancelRequestedAt.Some?)
  }

  lemma EndsNow(o: Operation, tx: Tx)
    requires Ledger(o) && o.Pending()
    ensures Next(o, tx).status == Failed <==> FailsForGood(o, tx)
    ensures Next(o, tx).status == Succeeded <==> SucceedsNow(o, tx)
    ensures Next(o, tx).status == Cancelled <==> CancelsNow(o, tx)
  {
  }

  // The run has a prefix after which the next transaction satisfies `ends`.
  ghost predicate Happened(o: Operation, txs: seq<Tx>, ends: (Operation, Tx) -> bool) {
    txs != [] &&
    (var init := txs[..|txs| - 1]; Happened(o, init, ends) || ends(Run(o, init), txs[|txs| - 1]))
  }

  // Main result: over every run, an operation has failed exactly when a failure report came that was not
  // retryable or found the budget spent, has succeeded exactly when a success was reported without a cancellation
  // request, and is cancelled exactly when a worker gave up or the request was noticed.
  lemma {:induction false} EndingIff(o: Operation, txs: seq<Tx>)
    requires o.Fresh()
    ensures Run(o, txs).status == Failed <==> Happened(o, txs, FailsForGood)
    ensures Run(o, txs).status == Succeeded <==> Happened(o, txs, SucceedsNow)
    ensures Run(o, txs).status == Cancelled <==> Happened(o, txs, CancelsNow)
  {
    if txs != [] {
      var init, tx := txs[..|txs| - 1], txs[|txs| - 1];
      EndingIff(o, init);
      LedgerOverRuns(o, init);
      if Run(o, init).Pending() { EndsNow(Run(o, init), tx); } else { EndedIsOver(Run(o, init), tx); }
    }
  }

  lemma EndedIsOver(o: Operation, tx: Tx)
    requires Ledger(o) && !o.Pending()
    ensures Next(o, tx) == o && !FailsForGood(o, tx) && !SucceedsNow(o, tx) && !CancelsNow(o, tx)
  {
    TerminalIsFrozen(o, tx);
    if RunningAttempt(o, if tx.Beat? || tx.RequestCancellation? then 0 else tx.n) { assert false; }
  }

  // An operation whose failures are all retryable fails only once its budget is spent: every attempt it may make
  // is on record.
  lemma {:induction false} RetryableFailsLast(o: Operation, txs: seq<Tx>)
    requires o.Fresh() && Run(o, txs).status == Failed
    requires forall tx | tx in txs && tx.FailAttempt? :: tx.retryable
    ensures Run(o, txs).attemptCount == o.maxAttempts == |Run(o, txs).attempts|
  {
    var init, tx := txs[..|txs| - 1], txs[|txs| - 1];
    LedgerOverRuns(o, init);
    LedgerOverRuns(o, txs);
    RunKeepsBudget(o, init);
    if Run(o, init).Pending() {
      assert tx in txs;
      EndsNow(Run(o, init), tx);
    } else {
      TerminalIsFrozen(Run(o, init), tx);
      RetryableFailsLast(o, init);
    }
  }

  lemma {:induction false} RunKeepsBudget(o: Operation, txs: seq<Tx>)
    ensures Run(o, txs).maxAttempts == o.maxAttempts
  {
    if txs != [] { RunKeepsBudget(o, txs[..|txs| - 1]); }
  }

  type Table = map<Uuid, Operation>

  ghost predicate Sound(ops: Table) {
    forall id | id in ops :: Ledger(ops[id])
  }

  predicate InScope(o: Operation, scope: set<Resource>) {
    o.resource.Some? && o.resource.value in scope
  }

  // The operations CountAcquisitionDeletionActiveOperations counts for the deleting operation `self`.
  function Blocking(ops: Table, self: Uuid, scope: set<Resource>): set<Uuid> {
    set id | id in ops && id != self && Active(ops[id]) && InScope(ops[id], scope)
  }

  // A lifecycle transaction on one operation, or the deletion's bulk cancellation request.
  datatype Step =
    | On(id: Uuid, tx: Tx)
    | RequestAll(excluded: Uuid, scope: set<Resource>, now: Time)

  const DELETE_KIND := "acquisition.delete"

  predicate Requested(o: Operation, id: Uuid, excluded: Uuid, scope: set<Resource>) {
    o.Pending() && o.kind != DELETE_KIND && id != excluded && InScope(o, scope)
  }

  function Apply(ops: Table, s: Step): Table {
    match s
    case On(id, tx) => if id in ops then ops[id := Next(ops[id], tx)] else ops
    case RequestAll(excluded, scope, now) =>
      map id | id in ops ::
        if Requested(ops[id], id, excluded, scope)
        then ops[id].(cancelRequestedAt := Some(Coalesce(ops[id].cancelRequestedAt, now))) else ops[id]
  }

  function RunAll(ops: Table, steps: seq<Step>): Table {
    if steps == [] then ops else Apply(RunAll(ops, steps[..|steps| - 1]), steps[|steps| - 1])
  }

  lemma NextKeepsIdentity(o: Operation, tx: Tx)
    ensures Next(o, tx).resource == o.resource && Next(o, tx).kind == o.kind
  {
  }

  lemma ApplyKeepsSound(ops: Table, s: Step)
    requires Sound(ops)
    ensures Sound(Apply(ops, s)) && Apply(ops, s).Keys == ops.Keys
  {
    if s.On? && s.id in ops {
      NextKeepsLedger(ops[s.id], s.tx);
    } else if s.RequestAll? {
      forall id | id in ops ensures Ledger(Apply(ops, s)[id]) {
        NextKeepsLedger(ops[id], RequestCancellation(s.now));
      }
    }
  }

  // Main result: while no operation is created, the set the deletion waits for never grows, under every
  // interleaving of lifecycle transactions and cancellation requests; so zero, once seen, is stable.
  lemma {:induction false} BlockingNeverGrows(ops: Table, steps: seq<Step>, self: Uuid, scope: set<Resource>)
    requires Sound(ops)
    ensures Sound(RunAll(ops, steps))
    ensures Blocking(RunAll(ops, steps), self, scope) <= Blocking(ops, self, scope)
    ensures |Blocking(RunAll(ops, steps), self, scope)| <= |Blocking(ops, self, scope)|
  {
    if steps != [] {
      var u, s := RunAll(ops, steps[..|steps| - 1]), steps[|steps| - 1];
      BlockingNeverGrows(ops, steps[..|steps| - 1], self, scope);
      ApplyKeepsSound(u, s);
      if s.On? && s.id in u {
        NextKeepsIdentity(u[s.id], s.tx);
        if !Active(u[s.id]) {
          InactiveStaysInactive(u[s.id], s.tx);
        }
      }
    }
    SubsetCardinality(Blocking(RunAll(ops, steps), self, scope), Blocking(ops, self, scope));
  }

  lemma {:induction false} SubsetCardinality<T>(a: set<T>, b: set<T>)
    requires a <= b
    ensures |a| <= |b|
  {
    if a != {} {
      var x :| x in a;
      SubsetCardinality(a - {x}, b - {x});
    }
  }

  // Neither running nor able to run: over, or queued and asked to cancel.
  predicate Quiet(o: Operation) { !o.Pending() || (o.status == Queued && o.cancelRequestedAt.Some?) }

  // Main result: once the deletion waits for nothing, no operation of its scope other than itself ever runs
  // again, under any interleaving; and it waits for nothing exactly when all of them are over, or queued and asked
  // to cancel.
  lemma QuietForGood(ops: Table, steps: seq<Step>, self: Uuid, scope: set<Resource>)
    requires Sound(ops)
    ensures Blocking(ops, self, scope) == {} <==>
              forall id | id in ops && id != self && InScope(ops[id], scope) :: Quiet(ops[id])
    ensures Blocking(ops, self, scope) == {} ==>
              forall id | id in ops && id != self && InScope(ops[id], scope) ::
                id in RunAll(ops, steps) && RunAll(ops, steps)[id].status != Running
                && forall n :: !RunningAttempt(RunAll(ops, steps)[id], n)
  {
    if Blocking(ops, self, scope) == {} {
      forall id | id in ops && id != self && InScope(ops[id], scope) ensures Quiet(ops[id]) {
        assert id !in Blocking(ops, self, scope);
      }
      BlockingNeverGrows(ops, steps, self, scope);
      RunKeepsScope(ops, steps);
      forall id | id in ops && id != self && InScope(ops[id], scope)
        ensures RunAll(ops, steps)[id].status != Running && forall n :: !RunningAttempt(RunAll(ops, steps)[id], n)
      {
        assert id !in Blocking(RunAll(ops, steps), self, scope);
      }
    }
  }

  lemma {:induction false} RunKeepsScope(ops: Table, steps: seq<Step>)
    ensures RunAll(ops, steps).Keys == ops.Keys
    ensures forall id | id in ops :: RunAll(ops, steps)[id].resource == ops[id].resource
  {
    if steps != [] {
      RunKeepsScope(ops, steps[..|steps| - 1]);
      var u, s := RunAll(ops, steps[..|steps| - 1]), steps[|steps| - 1];
      if s.On? && s.id in u { NextKeepsIdentity(u[s.id], s.tx); }
    }
  }

  // Every operation the deletion still waits for is running and asked to cancel.
  ghost predicate Draining(ops: Table, self: Uuid, scope: set<Resource>) {
    forall id | id in Blocking(ops, self, scope) :: ops[id].status == Running && ops[id].cancelRequestedAt.Some?
  }

  lemma RequestStartsDrain(ops: Table, self: Uuid, excluded: Uuid, scope: set<Resource>, now: Time)
    requires Sound(ops) && (excluded == self || excluded !in ops)
    requires forall id | id in ops && id != self && InScope(ops[id], scope) :: ops[id].kind != DELETE_KIND
    ensures Draining(Apply(ops, RequestAll(excluded, scope, now)), self, scope)
  {
  }

  lemma OneDrained(ops: Table, self: Uuid, scope: set<Resource>, id: Uuid, n: int, now: Time)
    requires Sound(ops) && Draining(ops, self, scope) && id in Blocking(ops, self, scope) && RunningAttempt(ops[id], n)
    ensures var ops' := Apply(ops, On(id, CancelAttempt(n, now)));
            Blocking(ops', self, scope) == Blocking(ops, self, scope) - {id} && Draining(ops', self, scope)
  {
    NextKeepsIdentity(ops[id], CancelAttempt(n, now));
  }

  // Main result: after the bulk request, cancelling the attempts still running empties the count, one per step.
  lemma {:induction false} DrainCompletes(ops: Table, self: Uuid, scope: set<Resource>, now: Time)
    returns (steps: seq<Step>)
    requires Sound(ops) && Draining(ops, self, scope)
    ensures |steps| == |Blocking(ops, self, scope)|
    ensures forall s | s in steps :: s.On? && s.tx.CancelAttempt?
    ensures Blocking(RunAll(ops, steps), self, scope) == {}
    decreases |Blocking(ops, self, scope)|
  {
    var waiting := Blocking(ops, self, scope);
    if waiting == {} {
      steps := [];
    } else {
      var id :| id in waiting;
      var n :| RunningAttempt(ops[id], n);
      var s := On(id, CancelAttempt(n, now));
      var ops' := Apply(ops, s);
      ApplyKeepsSound(ops, s);
      OneDrained(ops, self, scope, id, n, now);
      var rest := DrainCompletes(ops', self, scope, now);
      steps := [s] + rest;
      RunFromFront(ops, s, rest);
    }
  }

  lemma {:induction false} RunFromFront(ops: Table, s: Step, rest: seq<Step>)
    ensures RunAll(ops, [s] + rest) == RunAll(Apply(ops, s), rest)
  {
    if rest == [] {
      assert [s] + rest == [s] && [s][..0] == [];
    } else {
      assert ([s] + rest)[..|rest|] == [s] + rest[..|rest| - 1];
      RunFromFront(ops, s, rest[..|rest| - 1]);
    }
  }

  // ---------------------------------------------------------------- operations and their jobs

  // A job the queue has finished with, or pruned, is JobOther; job ids come from a sequence and are not reused.
  datatype JobState = JobRunning | JobRetryable | JobOther

  datatype Db = Db(ops: Table, jobs: map<int, JobState>)

  const EMPTY_DB := Db(map[], map[])

  // Operation row, new job and the attachment of one to the other are one transaction.
  function Scheduled(db: Db, id: Uuid, kind: string, resource: Option<Resource>, maxAttempts: int, job: int): Db {
    if 0 < maxAttempts <= 0x7fff_ffff && id !in db.ops && job !in db.jobs then
      Db(db.ops[id := Operation(kind, resource, Queued, Some(job), maxAttempts, 0, None, None, None, None, map[])],
         db.jobs[job := JobOther])
    else db
  }

  datatype Event =
    | Create(id: Uuid, kind: string, resource: Option<Resource>, maxAttempts: int, job: int)
    | Do(step: Step)
    | JobMoves(job: int, state: JobState)

  function Evolve(db: Db, e: Event): Db {
    match e
    case Create(id, kind, resource, maxAttempts, job) => Scheduled(db, id, kind, resource, maxAttempts, job)
    case Do(step) => db.(ops := Apply(db.ops, step))
    case JobMoves(job, state) => if job in db.jobs then db.(jobs := db.jobs[job := state]) else db
  }

  function Evolved(db: Db, events: seq<Event>): Db {
    if events == [] then db else Evolve(Evolved(db, events[..|events| - 1]), events[|events| - 1])
  }

  // Every operation has its own job.
  ghost predicate JobsDistinct(db: Db) {
    && (forall id | id in db.ops :: db.ops[id].riverJob.Some? && db.ops[id].riverJob.value in db.jobs)
    && (forall a, b | a in db.ops && b in db.ops && db.ops[a].riverJob == db.ops[b].riverJob :: a == b)
  }

  lemma NextKeepsJob(o: Operation, tx: Tx)
    ensures Next(o, tx).riverJob == o.riverJob
  {
  }

  lemma ApplyKeepsJobs(ops: Table, step: Step)
    ensures Apply(ops, step).Keys == ops.Keys
    ensures forall id | id in ops :: Apply(ops, step)[id].riverJob == ops[id].riverJob
  {
    if step.On? && step.id in ops { NextKeepsJob(ops[step.id], step.tx); }
  }

  lemma CreateKeepsJobs(db: Db, e: Event)
    requires Sound(db.ops) && JobsDistinct(db) && e.Create?
    ensures Sound(Evolve(db, e).ops) && JobsDistinct(Evolve(db, e))
  {
  }

  lemma EvolveKeepsJobs(db: Db, e: Event)
    requires Sound(db.ops) && JobsDistinct(db)
    ensures Sound(Evolve(db, e).ops) && JobsDistinct(Evolve(db, e))
  {
    match e
    case Create(_, _, _, _, _) => CreateKeepsJobs(db, e);
    case JobMoves(_, _) =>
    case Do(step) =>
      ApplyKeepsSound(db.ops, step);
      ApplyKeepsJobs(db.ops, step);
  }

  // Main result: however operations are scheduled and run, no two ever share a job, and every ledger holds.
  lemma {:induction false} JobsStayDistinct(events: seq<Event>)
    ensures Sound(Evolved(EMPTY_DB, events).ops) && JobsDistinct(Evolved(EMPTY_DB, events))
  {
    if events != [] {
      JobsStayDistinct(events[..|events| - 1]);
      EvolveKeepsJobs(Evolved(EMPTY_DB, events[..|events| - 1]), events[|events| - 1]);
    }
  }

  // ---------------------------------------------------------------- the tables in place

  datatype StartResult = AttemptStarted | CancelledBeforeAttempt | NotRunnable | StartRolledBack

  // The operations, operation_attempts and river_job tables, changed transaction by transaction.
  class OperationStore {
    var ops: Table
    var jobs: map<int, JobState>

    constructor ()
      ensures ops == map[] && jobs == map[]
    {
      ops, jobs := map[], map[];
    }

    // Idempotent insert followed by attaching a new job; false when the budget is
    // out of range or the idempotency key or id is taken.
    method Schedule(id: Uuid, kind: string, resource: Option<Resource>, maxAttempts: int, job: int)
      returns (created: bool)
      modifies this
      ensures created <==> id !in old(ops) && job !in old(jobs) && 0 < maxAttempts <= 0x7fff_ffff
      ensures Db(ops, jobs) == Scheduled(old(Db(ops, jobs)), id, kind, resource, maxAttempts, job)
      ensures created ==> id in ops && ops[id].Fresh() && ops[id].riverJob == Some(job)
      ensures created ==> ops[id].kind == kind && ops[id].resource == resource && ops[id].maxAttempts == maxAttempts
    {
      created := 0 < maxAttempts <= 0x7fff_ffff && id !in ops && job !in jobs;
      if created {
        var o := Operation(kind, resource, Queued, None, maxAttempts, 0, None, None, None, None, map[]);
        jobs := jobs[job := JobOther];
        ops := ops[id := o.(riverJob := Some(job))];
      }
    }

    method Begin(id: Uuid, n: int, now: Time) returns (result: StartResult)
      modifies `ops
      ensures ops == Apply(old(ops), On(id, StartAttempt(n, now)))
      ensures result == AttemptStarted ==> id in ops && RunningAttempt(ops[id], n)
      ensures result.NotRunnable? || result.StartRolledBack? ==> ops == old(ops)
    {
      if id !in ops {
        return NotRunnable;
      }
      var o := AbandonRunning(ops[id]);
      if o.Pending() && o.cancelRequestedAt.None? && o.attemptCount < o.maxAttempts {
        o := o.(status := Running, attemptCount := o.attemptCount + 1,
                startedAt := Some(Coalesce(o.startedAt, now)), heartbeatAt := Some(now));
        if n <= 0 || n in o.attempts {
          return StartRolledBack;
        }
        ops := ops[id := o.(attempts := o.attempts[n := AttemptRunning])];
        return AttemptStarted;
      }
      if o.cancelRequestedAt.Some? && o.Pending() {
        ops := ops[id := o.(status := Cancelled,
                            heartbeatAt := if o.status == Running then Some(now) else o.heartbeatAt,
                            finishedAt := Some(now))];
        return CancelledBeforeAttempt;
      }
      return NotRunnable;
    }

    method Succeed(id: Uuid, n: int, now: Time) returns (committed: bool)
      modifies `ops
      ensures ops == Apply(old(ops), On(id, SucceedAttempt(n, now)))
      ensures committed ==> id in ops && ops[id].status == Succeeded
    {
      committed := id in ops && RunningAttempt(ops[id], n)
                   && ops[id].status == Running && ops[id].cancelRequestedAt.None?;
      if committed {
        var o := ops[id].(attempts := ops[id].attempts[n := AttemptSucceeded]);
        ops := ops[id := o.(status := Succeeded, heartbeatAt := Some(now), finishedAt := Some(now))];
      }
    }

    method FailOrRetry(id: Uuid, n: int, retryable: bool, now: Time) returns (committed: bool)
      modifies `ops
      ensures ops == Apply(old(ops), On(id, FailAttempt(n, retryable, now)))
      ensures committed ==> id in ops && !RunningAttempt(ops[id], n) && id in old(ops)
      ensures committed && old(ops)[id].cancelRequestedAt.None? ==>
                ops[id].status == if retryable && old(ops)[id].attemptCount < old(ops)[id].maxAttempts
                                  then Queued else Failed
      ensures committed && old(ops)[id].cancelRequestedAt.Some? ==> ops[id].status == Cancelled
      ensures !committed ==> ops == old(ops)
    {
      if id !in ops || !RunningAttempt(ops[id], n) {
        return false;
      }
      var o := ops[id];
      if o.cancelRequestedAt.Some? {
        if !o.Pending() {
          return false;
        }
        o := o.(status := Cancelled, attempts := o.attempts[n := AttemptCancelled],
                heartbeatAt := if o.status == Running then Some(now) else o.heartbeatAt, finishedAt := Some(now));
      } else if retryable && o.attemptCount < o.maxAttempts {
        if o.status != Running {
          return false;
        }
        o := o.(status := Queued, attempts := o.attempts[n := AttemptFailed], heartbeatAt := Some(now));
      } else {
        if !o.Pending() {
          return false;
        }
        o := o.(status := Failed, attempts := o.attempts[n := AttemptFailed],
                heartbeatAt := Some(now), finishedAt := Some(now));
      }
      ops := ops[id := o];
      return true;
    }

    method CancelRunning(id: Uuid, n: int, now: Time) returns (committed: bool)
      modifies `ops
      ensures ops == Apply(old(ops), On(id, CancelAttempt(n, now)))
    {
      committed := id in ops && RunningAttempt(ops[id], n) && ops[id].Pending();
      if committed {
        var o := ops[id];
        ops := ops[id := o.(status := Cancelled, attempts := o.attempts[n := AttemptCancelled],
                            cancelRequestedAt := Some(Coalesce(o.cancelRequestedAt, now)),
                            heartbeatAt := if o.status == Running then Some(now) else o.heartbeatAt,
                            finishedAt := Some(now))];
      }
    }

    method SnoozeRunning(id: Uuid, n: int, now: Time) returns (committed: bool)
      modifies `ops
      ensures ops == Apply(old(ops), On(id, SnoozeAttempt(n, now)))
      ensures committed <==>
                id in old(ops) && DeleteSnoozedAttempt(old(ops)[id], n).Some? && Snooze(old(ops)[id], now).Some?
    {
      committed := false;
      if id in ops && RunningAttempt(ops[id], n) {
        var o := ops[id].(attempts := ops[id].attempts - {n});
        if o.status == Running && o.cancelRequestedAt.None? && o.attemptCount > 0 {
          ops := ops[id := o.(status := Queued, attemptCount := o.attemptCount - 1, heartbeatAt := Some(now))];
          committed := true;
        }
      }
    }

    method RequestAcquisitionCancellations(excluded: Uuid, scope: set<Resource>, now: Time)
      modifies `ops
      ensures ops == Apply(old(ops), RequestAll(excluded, scope, now))
      ensures ops.Keys == old(ops).Keys
      ensures forall id | id in ops ::
                var o := old(ops)[id];
                var asked := (o.status == Queued || o.status == Running) && id != excluded
                             && o.kind != "acquisition.delete" && o.resource.Some? && o.resource.value in scope;
                ops[id] == if asked && o.cancelRequestedAt.None? then o.(cancelRequestedAt := Some(now)) else o
    {
      ghost var before, after := ops, Apply(ops, RequestAll(excluded, scope, now));
      var todo := set id | id in ops && Requested(ops[id], id, excluded, scope);
      ghost var all := todo;
      assert after.Keys == before.Keys;
      while todo != {}
        invariant todo <= all && ops.Keys == before.Keys == after.Keys
        invariant forall id | id in before :: ops[id] == if id in todo then before[id] else after[id]
        decreases |todo|
      {
        var id :| id in todo;
        ops := ops[id := ops[id].(cancelRequestedAt := Some(Coalesce(ops[id].cancelRequestedAt, now)))];
        todo := todo - {id};
      }
      assert ops == after;
    }
  }
}
