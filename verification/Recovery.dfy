// The recover-stale-operations maintenance command: count, dry run, and the loop that returns interrupted
// operations to the queue one transaction at a time while the worker is stopped.
module Recovery {
  import opened Common
  import opened Operations

  const MINUTE: Time := 60_000_000

  datatype Candidate = Candidate(id: Uuid, attempt: int)

  datatype Outcome =
    | UsageError
    | DryRun(eligible: nat)
    | Recovered(eligible: nat, recovered: nat)
    | Aborted

  // Running, not cancelled, silent since before the cut-off, its job still marked running.
  predicate Stale(o: Operation, jobs: map<int, JobState>, cutoff: Time, kind: string) {
    && o.status == Running && o.cancelRequestedAt.None?
    && o.heartbeatAt.Some? && o.heartbeatAt.value < cutoff
    && o.riverJob.Some? && o.riverJob.value in jobs && jobs[o.riverJob.value] == JobRunning
    && (kind == "" || o.kind == kind)
  }

  // The rows of the candidate query: one per stale operation and running attempt.
  function Candidates(ops: Table, jobs: map<int, JobState>, cutoff: Time, kind: string): set<Candidate> {
    set id, n | id in ops && Stale(ops[id], jobs, cutoff, kind) && n in ops[id].attempts
                && ops[id].attempts[n] == AttemptRunning :: Candidate(id, n)
  }

  lemma CandidateIff(ops: Table, jobs: map<int, JobState>, cutoff: Time, kind: string, c: Candidate)
    ensures c in Candidates(ops, jobs, cutoff, kind) <==>
            c.id in ops && Stale(ops[c.id], jobs, cutoff, kind) && RunningAttempt(ops[c.id], c.attempt)
  {
    if c.id in ops && Stale(ops[c.id], jobs, cutoff, kind) && RunningAttempt(ops[c.id], c.attempt) {
      assert Candidate(c.id, c.attempt) == c;
    }
  }

  // The operations of those rows; the command announces their number, count(DISTINCT operation.id).
  ghost function Eligible(ops: Table, jobs: map<int, JobState>, cutoff: Time, kind: string): set<Uuid> {
    set id | id in ops && Stale(ops[id], jobs, cutoff, kind) && exists n :: RunningAttempt(ops[id], n)
  }

  function CandidateIds(ops: Table, jobs: map<int, JobState>, cutoff: Time, kind: string): set<Uuid> {
    set c | c in Candidates(ops, jobs, cutoff, kind) :: c.id
  }

  lemma EligibleIff(ops: Table, jobs: map<int, JobState>, cutoff: Time, kind: string)
    ensures Eligible(ops, jobs, cutoff, kind) == CandidateIds(ops, jobs, cutoff, kind)
  {
    var image := CandidateIds(ops, jobs, cutoff, kind);
    forall id | id in Eligible(ops, jobs, cutoff, kind) ensures id in image {
      var n :| RunningAttempt(ops[id], n);
      CandidateIff(ops, jobs, cutoff, kind, Candidate(id, n));
    }
    forall id | id in image ensures id in Eligible(ops, jobs, cutoff, kind) {
      var c :| c in Candidates(ops, jobs, cutoff, kind) && c.id == id;
      CandidateIff(ops, jobs, cutoff, kind, c);
    }
  }

  // ORDER BY heartbeat_at, id, attempt DESC.
  predicate Precedes(ops: Table, a: Candidate, b: Candidate)
    requires a.id in ops && b.id in ops && ops[a.id].heartbeatAt.Some? && ops[b.id].heartbeatAt.Some?
  {
    var ha, hb := ops[a.id].heartbeatAt.value, ops[b.id].heartbeatAt.value;
    ha < hb || (ha == hb && (a.id < b.id || (a.id == b.id && a.attempt >= b.attempt)))
  }

  // LIMIT 1 of the ordered candidate query.
  method LockCandidate(store: OperationStore, cutoff: Time, kind: string) returns (c: Option<Candidate>)
    ensures
      var all := Candidates(store.ops, store.jobs, cutoff, kind);
      && (c.None? <==> all == {})
      && (c.Some? ==> c.value in all && forall d | d in all :: Precedes(store.ops, c.value, d))
    // The one silent for longest; of several the smallest id; of its attempts the latest.
    ensures c.Some? ==>
              forall d | d in Candidates(store.ops, store.jobs, cutoff, kind) ::
                var mine, other := store.ops[c.value.id].heartbeatAt.value, store.ops[d.id].heartbeatAt.value;
                mine <= other && (mine == other ==> c.value.id <= d.id)
                && (c.value.id == d.id ==> d.attempt <= c.value.attempt)
  {
    var rest := Candidates(store.ops, store.jobs, cutoff, kind);
    if rest == {} {
      return None;
    }
    ghost var all := rest;
    var best :| best in rest;
    rest := rest - {best};
    while rest != {}
      invariant best in all && rest <= all && best !in rest
      invariant forall d | d in all && d !in rest :: Precedes(store.ops, best, d)
      decreases |rest|
    {
      var d :| d in rest;
      rest := rest - {d};
      if !Precedes(store.ops, best, d) {
        best := d;
      }
    }
    return Some(best);
  }

  // The jobs of a set of operations.
  ghost function JobsOf(ops: Table, ids: set<Uuid>): set<int> {
    set id | id in ids && id in ops && ops[id].riverJob.Some? :: ops[id].riverJob.value
  }

  ghost function RunningOps(ops: Table): set<Uuid> {
    set id | id in ops && ops[id].status == Running
  }

  // A stale operation returned to the queue with its attempt row gone and its attempt refunded.
  function Requeued(o: Operation, n: int, now: Time): Operation {
    o.(status := Queued, attempts := o.attempts - {n}, attemptCount := o.attemptCount - 1, heartbeatAt := Some(now))
  }

  ghost predicate Returned(o: Operation, o': Operation) {
    exists n, now :: RunningAttempt(o, n) && o' == Requeued(o, n, now)
  }

  // What the loop has done: `done` is back in the queue with its attempt refunded, its jobs are retryable,
  // everything else is as it was.
  ghost predicate Progress(ops0: Table, jobs0: map<int, JobState>, ops: Table, jobs: map<int, JobState>,
                           done: set<Uuid>, rescued: set<int>)
  {
    && ops.Keys == ops0.Keys && jobs.Keys == jobs0.Keys && done <= ops0.Keys
    && (forall id | id in ops && id !in done :: ops[id] == ops0[id])
    && (forall id | id in done :: Returned(ops0[id], ops[id]))
    && (forall j | j in jobs :: jobs[j] == if j in rescued then JobRetryable else jobs0[j])
  }

  // Where the loop started, where it is, and what it has done under a cut-off.
  datatype Record = Record(
    ops0: Table, jobs0: map<int, JobState>, ops: Table, jobs: map<int, JobState>,
    done: set<Uuid>, rescued: set<int>, cutoff: Time, kind: string)

  // The operations done were all eligible, one per rescued job.
  ghost predicate Underway(r: Record) {
    && Progress(r.ops0, r.jobs0, r.ops, r.jobs, r.done, r.rescued)
    && r.done <= Eligible(r.ops0, r.jobs0, r.cutoff, r.kind) && r.rescued == JobsOf(r.ops0, r.done)
  }

  type Trail = r: Record | Underway(r) witness Record(map[], map[], map[], map[], {}, {}, 0, "")

  lemma GrowWithClock(ops: Table, jobs: map<int, JobState>, a: Time, b: Time, kind: string)
    requires a <= b
    ensures Eligible(ops, jobs, a, kind) <= Eligible(ops, jobs, b, kind)
  {
  }

  // Operations `done` were returned, one for each job of those within reach.
  ghost predicate Returns(ops0: Table, jobs0: map<int, JobState>, ops: Table, jobs: map<int, JobState>,
                          done: set<Uuid>, reached: set<Uuid>)
  {
    && done <= reached && Progress(ops0, jobs0, ops, jobs, done, JobsOf(ops0, done))
    && JobsOf(ops0, done) == JobsOf(ops0, reached)
  }

  // Nothing is eligible any more; one operation was recovered for each distinct job of the operations eligible
  // at the start under this cut-off, and only such operations and jobs changed.
  ghost predicate Finished(ops0: Table, jobs0: map<int, JobState>, ops: Table, jobs: map<int, JobState>,
                           recovered: nat, cutoff: Time, kind: string)
  {
    var reached := Eligible(ops0, jobs0, cutoff, kind);
    && Candidates(ops, jobs, cutoff, kind) == {}
    && recovered == |JobsOf(ops0, reached)|
    && exists done :: Returns(ops0, jobs0, ops, jobs, done, reached)
  }

  // When no candidate is left, the rescued jobs are exactly the jobs of the operations that were eligible.
  lemma NothingLeft(r: Trail)
    requires Candidates(r.ops, r.jobs, r.cutoff, r.kind) == {}
    ensures Finished(r.ops0, r.jobs0, r.ops, r.jobs, |r.rescued|, r.cutoff, r.kind)
  {
    forall id | id in Eligible(r.ops0, r.jobs0, r.cutoff, r.kind)
      ensures r.ops0[id].riverJob.value in r.rescued
    {
      var n :| RunningAttempt(r.ops0[id], n);
      CandidateIff(r.ops, r.jobs, r.cutoff, r.kind, Candidate(id, n));
      var j := r.ops0[id].riverJob.value;
      if id in r.done {
        assert j in JobsOf(r.ops0, r.done);
      } else {
        assert r.jobs[j] != r.jobs0[j];
      }
    }
    assert r.rescued == JobsOf(r.ops0, Eligible(r.ops0, r.jobs0, r.cutoff, r.kind));
    assert Returns(r.ops0, r.jobs0, r.ops, r.jobs, r.done, Eligible(r.ops0, r.jobs0, r.cutoff, r.kind));
  }

  lemma SnoozeRequeues(o: Operation, n: int, now: Time)
    requires Ledger(o) && RunningAttempt(o, n) && o.cancelRequestedAt.None?
    ensures Next(o, SnoozeAttempt(n, now)) == Requeued(o, n, now) && Snooze(o, now).Some? && o.attemptCount > 0
  {
    assert n in o.attempts.Keys;
  }

  // One transaction: rescue the job of the first candidate, delete its running attempt and snooze it.
  method RecoverOne(store: OperationStore, cutoff: Time, kind: string, now: Time)
    returns (ok: bool, c: Option<Candidate>)
    requires Sound(store.ops)
    modifies store
    ensures ok && Sound(store.ops)
    ensures c.None? <==> Candidates(old(store.ops), old(store.jobs), cutoff, kind) == {}
    ensures c.None? ==> store.ops == old(store.ops) && store.jobs == old(store.jobs)
    ensures c.Some? ==>
              && c.value in Candidates(old(store.ops), old(store.jobs), cutoff, kind)
              && c.value.id in old(store.ops) && old(store.ops)[c.value.id].riverJob.Some?
              && store.ops == old(store.ops)[c.value.id := Requeued(old(store.ops)[c.value.id], c.value.attempt, now)]
              && store.jobs == old(store.jobs)[old(store.ops)[c.value.id].riverJob.value := JobRetryable]
  {
    ok := true;
    c := LockCandidate(store, cutoff, kind);
    if c.Some? {
      var id, n := c.value.id, c.value.attempt;
      CandidateIff(store.ops, store.jobs, cutoff, kind, c.value);
      ApplyKeepsSound(store.ops, On(id, SnoozeAttempt(n, now)));
      SnoozeRequeues(store.ops[id], n, now);
      store.jobs := store.jobs[store.ops[id].riverJob.value := JobRetryable];
      ok := store.SnoozeRunning(id, n, now);
    }
  }

  // The record after one recovered candidate.
  ghost function Extended(r: Record, c: Candidate, now: Time): Record
    requires c.id in r.ops && r.ops[c.id].riverJob.Some?
  {
    var j := r.ops[c.id].riverJob.value;
    r.(ops := r.ops[c.id := Requeued(r.ops[c.id], c.attempt, now)], jobs := r.jobs[j := JobRetryable],
       done := r.done + {c.id}, rescued := r.rescued + {j})
  }

  lemma ProgressStep(r: Trail, c: Candidate, now: Time)
    requires c in Candidates(r.ops, r.jobs, r.cutoff, r.kind)
    ensures c.id in r.ops && r.ops[c.id].riverJob.Some? && r.ops[c.id].riverJob.value !in r.rescued
    ensures Underway(Extended(r, c, now))
    ensures RunningOps(Extended(r, c, now).ops) < RunningOps(r.ops)
  {
    CandidateIff(r.ops, r.jobs, r.cutoff, r.kind, c);
    var j := r.ops[c.id].riverJob.value;
    assert r.jobs[j] == JobRunning;
    assert RunningAttempt(r.ops0[c.id], c.attempt);
    assert r.ops[c.id] == r.ops0[c.id];
    assert Returned(r.ops0[c.id], Requeued(r.ops0[c.id], c.attempt, now));
    var ops' := Extended(r, c, now).ops;
    assert c.id in RunningOps(r.ops) && c.id !in RunningOps(ops');
    assert JobsOf(r.ops0, r.done + {c.id}) == r.rescued + {j};
  }

  lemma UnderwayLater(r: Trail, later: Time)
    requires r.cutoff <= later
    ensures Underway(r.(cutoff := later))
  {
    GrowWithClock(r.ops0, r.jobs0, r.cutoff, later, r.kind);
  }

  ghost function Started(ops: Table, jobs: map<int, JobState>, cutoff: Time, kind: string): (r: Trail)
    ensures r == Record(ops, jobs, ops, jobs, {}, {}, cutoff, kind)
  {
    Record(ops, jobs, ops, jobs, {}, {}, cutoff, kind)
  }

  // The same record under the cut-off of a later reading of the clock.
  ghost function Later(r: Trail, cutoff: Time): (r': Trail)
    requires r.cutoff <= cutoff
    ensures r' == r.(cutoff := cutoff)
  {
    UnderwayLater(r, cutoff);
    r.(cutoff := cutoff)
  }

  // What the command promises, operation by operation: one that is running without a cancellation request, whose
  // heartbeat is older than the cut-off, whose job is marked running and whose kind was asked for is back in the
  // queue without its running attempt, one attempt refunded and its job rescued; every other one is as it was, and
  // so is every job of those.
  ghost predicate OneRecovered(
    o: Operation, jobs0: map<int, JobState>, o': Operation, jobs: map<int, JobState>, cutoff: Time, kind: string)
  {
    var job := o.riverJob;
    if o.status == Running && o.cancelRequestedAt.None? && o.heartbeatAt.Some? && o.heartbeatAt.value < cutoff
       && job.Some? && job.value in jobs0 && jobs0[job.value] == JobRunning && (kind == "" || o.kind == kind)
    then
      && o'.status == Queued && o'.attemptCount == o.attemptCount - 1 && o'.kind == o.kind
      && (forall n :: n in o'.attempts <==> n in o.attempts && o.attempts[n] != AttemptRunning)
      && (forall n | n in o'.attempts :: o'.attempts[n] == o.attempts[n])
      && job.value in jobs && jobs[job.value] == JobRetryable
    else
      o' == o && (job.Some? && job.value in jobs0 ==> job.value in jobs && jobs[job.value] == jobs0[job.value])
  }

  ghost predicate AllRecovered(
    ops0: Table, jobs0: map<int, JobState>, ops: Table, jobs: map<int, JobState>, cutoff: Time, kind: string)
  {
    && ops.Keys == ops0.Keys && jobs.Keys == jobs0.Keys
    && forall id | id in ops0 :: OneRecovered(ops0[id], jobs0, ops[id], jobs, cutoff, kind)
  }

  // With distinct jobs, rescued jobs tell which operations were returned.
  lemma DoneIsReached(db: Db, done: set<Uuid>, reached: set<Uuid>)
    requires JobsDistinct(db) && done <= reached <= db.ops.Keys && JobsOf(db.ops, done) == JobsOf(db.ops, reached)
    ensures done == reached
  {
    forall id | id in reached ensures id in done {
      assert db.ops[id].riverJob.value in JobsOf(db.ops, reached);
      var d :| d in done && d in db.ops && db.ops[d].riverJob.Some?
               && db.ops[d].riverJob.value == db.ops[id].riverJob.value;
      assert db.ops[d].riverJob == db.ops[id].riverJob;
    }
  }

  // Main result: the loop recovers every stale operation and touches nothing else.
  lemma RecoveryIsExact(db: Db, after: Db, recovered: nat, cutoff: Time, kind: string)
    requires Sound(db.ops) && JobsDistinct(db)
    requires Finished(db.ops, db.jobs, after.ops, after.jobs, recovered, cutoff, kind)
    ensures AllRecovered(db.ops, db.jobs, after.ops, after.jobs, cutoff, kind)
  {
    var reached := Eligible(db.ops, db.jobs, cutoff, kind);
    var done :| Returns(db.ops, db.jobs, after.ops, after.jobs, done, reached);
    DoneIsReached(db, done, reached);
    forall id | id in db.ops
      ensures OneRecovered(db.ops[id], db.jobs, after.ops[id], after.jobs, cutoff, kind)
    {
      if id in reached {
        ReachedIsRecovered(db, after, done, id, cutoff, kind);
      } else {
        OthersStay(db, after, done, id, cutoff, kind);
      }
    }
  }

  lemma ReachedIsRecovered(db: Db, after: Db, done: set<Uuid>, id: Uuid, cutoff: Time, kind: string)
    requires Sound(db.ops) && JobsDistinct(db) && id in done && done == Eligible(db.ops, db.jobs, cutoff, kind)
    requires Progress(db.ops, db.jobs, after.ops, after.jobs, done, JobsOf(db.ops, done))
    ensures id in after.ops && OneRecovered(db.ops[id], db.jobs, after.ops[id], after.jobs, cutoff, kind)
  {
    var o, o' := db.ops[id], after.ops[id];
    var j := o.riverJob.value;
    assert j in JobsOf(db.ops, done) && j in after.jobs && after.jobs[j] == JobRetryable;
    assert Returned(o, o');
    var n, now :| RunningAttempt(o, n) && o' == Requeued(o, n, now);
    forall m ensures m in o'.attempts <==> m in o.attempts && o.attempts[m] != AttemptRunning {
      assert RunningAttempt(o, m) ==> m == n;
    }
  }

  lemma JobStays(ops0: Table, jobs0: map<int, JobState>, ops: Table, jobs: map<int, JobState>,
                 done: set<Uuid>, rescued: set<int>, j: int)
    requires Progress(ops0, jobs0, ops, jobs, done, rescued) && j in jobs0 && j !in rescued
    ensures j in jobs && jobs[j] == jobs0[j]
  {
  }

  lemma NotOurs(db: Db, done: set<Uuid>, id: Uuid)
    requires JobsDistinct(db) && id in db.ops && id !in done
    ensures db.ops[id].riverJob.Some? && db.ops[id].riverJob.value !in JobsOf(db.ops, done)
  {
    forall d | d in done && d in db.ops && db.ops[d].riverJob.Some?
      ensures db.ops[d].riverJob.value != db.ops[id].riverJob.value
    {
      assert db.ops[d].riverJob != db.ops[id].riverJob;
    }
  }

  lemma OthersStay(db: Db, after: Db, done: set<Uuid>, id: Uuid, cutoff: Time, kind: string)
    requires Sound(db.ops) && JobsDistinct(db) && done == Eligible(db.ops, db.jobs, cutoff, kind)
    requires id in db.ops && id !in done
    requires Progress(db.ops, db.jobs, after.ops, after.jobs, done, JobsOf(db.ops, done))
    ensures id in after.ops && OneRecovered(db.ops[id], db.jobs, after.ops[id], after.jobs, cutoff, kind)
  {
    var o := db.ops[id];
    NotOurs(db, done, id);
    JobStays(db.ops, db.jobs, after.ops, after.jobs, done, JobsOf(db.ops, done), o.riverJob.value);
    assert o.status == Running ==> exists n :: RunningAttempt(o, n);
  }

  // An operation that beats is not stale: none whose last heartbeat is at or after the cut-off is touched.
  lemma BeatingIsNotStale(o: Operation, jobs: map<int, JobState>, now: Time, cutoff: Time, kind: string)
    requires Ledger(o) && cutoff <= now
    ensures !Stale(Next(o, Beat(now)), jobs, cutoff, kind)
    ensures forall n :: !Stale(Next(o, StartAttempt(n, now)), jobs, cutoff, kind) || Next(o, StartAttempt(n, now)) == o
  {
  }

  // One transaction with its record: either everything is finished, or one more job is rescued.
  method RecoverNext(store: OperationStore, cutoff: Time, kind: string, now: Time, ghost r: Trail)
    returns (ok: bool, more: bool, ghost r': Trail)
    requires Sound(store.ops) && r.ops == store.ops && r.jobs == store.jobs && r.cutoff == cutoff && r.kind == kind
    modifies store
    ensures ok && Sound(store.ops)
    ensures r' == r.(ops := store.ops, jobs := store.jobs, done := r'.done, rescued := r'.rescued)
    ensures !more ==> Finished(r.ops0, r.jobs0, store.ops, store.jobs, |r.rescued|, cutoff, kind)
    ensures more ==> |r'.rescued| == |r.rescued| + 1 && RunningOps(store.ops) < RunningOps(old(store.ops))
  {
    var found;
    ok, found := RecoverOne(store, cutoff, kind, now);
    more := found.Some?;
    r' := r;
    if more {
      ProgressStep(r, found.value, now);
      r' := Extended(r, found.value, now);
    } else {
      NothingLeft(r);
    }
  }

  // The loop. Every transaction reads a clock that does not run back; `cutoff` is the last cut-off used. Given
  // the attempt ledger no transaction fails, and the loop ends with nothing eligible.
  method RecoverAll(store: OperationStore, staleAfter: Time, kind: string, start: Time)
    returns (ok: bool, recovered: nat, cutoff: Time)
    requires Sound(store.ops)
    modifies store
    ensures ok && Sound(store.ops) && start - staleAfter <= cutoff
    ensures Finished(old(store.ops), old(store.jobs), store.ops, store.jobs, recovered, cutoff, kind)
  {
    var now := start;
    recovered, cutoff := 0, now - staleAfter;
    ghost var r := Started(store.ops, store.jobs, cutoff, kind);
    while true
      invariant Sound(store.ops) && start <= now && cutoff == now - staleAfter
      invariant r == Record(old(store.ops), old(store.jobs), store.ops, store.jobs, r.done, r.rescued, cutoff, kind)
      invariant |r.rescued| == recovered
      decreases RunningOps(store.ops)
    {
      var more;
      ok, more, r := RecoverNext(store, cutoff, kind, now, r);
      if !ok || !more {
        return;
      }
      recovered := recovered + 1;
      now :| now >= cutoff + staleAfter;
      cutoff := now - staleAfter;
      r := Later(r, cutoff);
    }
  }

  // count(DISTINCT operation.id) over the candidate rows.
  method CountEligible(store: OperationStore, cutoff: Time, kind: string) returns (count: nat)
    ensures count == |Eligible(store.ops, store.jobs, cutoff, kind)|
  {
    count := |CandidateIds(store.ops, store.jobs, cutoff, kind)|;
    EligibleIff(store.ops, store.jobs, cutoff, kind);
  }

  // What applying the command achieves between two states of the database.
  ghost predicate Achieved(
    db: Db, after: Db, eligible: nat, recovered: nat, announced: Time, cutoff: Time, kind: string)
  {
    && eligible == |Eligible(db.ops, db.jobs, announced, kind)|
    && announced <= cutoff && Finished(db.ops, db.jobs, after.ops, after.jobs, recovered, cutoff, kind)
    && (JobsDistinct(db) ==>
          && AllRecovered(db.ops, db.jobs, after.ops, after.jobs, cutoff, kind)
          && recovered == |Eligible(db.ops, db.jobs, cutoff, kind)|
          && eligible <= recovered && (cutoff == announced ==> recovered == eligible))
  }

  method ApplyRecovery(store: OperationStore, staleAfter: Time, kind: string, now: Time,
                       ghost announced: Time, ghost eligible: nat)
    returns (ok: bool, recovered: nat, cutoff: Time, ghost after: Db)
    requires Sound(store.ops) && announced == now - staleAfter
    requires eligible == |Eligible(store.ops, store.jobs, announced, kind)|
    modifies store
    ensures ok && Sound(store.ops) && after == Db(store.ops, store.jobs)
    ensures Achieved(Db(old(store.ops), old(store.jobs)), after, eligible, recovered, announced, cutoff, kind)
  {
    ghost var db := Db(store.ops, store.jobs);
    ok, recovered, cutoff := RecoverAll(store, staleAfter, kind, now);
    after := Db(store.ops, store.jobs);
    assert Finished(db.ops, db.jobs, after.ops, after.jobs, recovered, cutoff, kind);
    Conclude(db, after, eligible, recovered, announced, cutoff, kind);
  }

  lemma Conclude(
    db: Db, after: Db, eligible: nat, recovered: nat, announced: Time, cutoff: Time, kind: string)
    requires Sound(db.ops) && announced <= cutoff && eligible == |Eligible(db.ops, db.jobs, announced, kind)|
    requires Finished(db.ops, db.jobs, after.ops, after.jobs, recovered, cutoff, kind)
    ensures Achieved(db, after, eligible, recovered, announced, cutoff, kind)
  {
    if JobsDistinct(db) {
      CountsAgree(db, announced, cutoff, kind);
      RecoveryIsExact(db, after, recovered, cutoff, kind);
    }
  }

  // The command line around the loop: argument checks, the announced count, the dry run.
  method RecoverStaleOperations(store: OperationStore, apply: bool, workerStopped: bool, staleAfter: Time,
                                kind: string, now: Time)
    returns (outcome: Outcome, cutoff: Time, ghost announced: Time)
    requires Sound(store.ops)
    modifies store
    ensures Sound(store.ops) && announced == now - staleAfter
    ensures outcome == UsageError <==> staleAfter < 300_000_000 || (apply && !workerStopped)
    ensures !outcome.Aborted?
    ensures !outcome.Recovered? ==> store.ops == old(store.ops) && store.jobs == old(store.jobs)
    ensures outcome.DryRun? || outcome.Recovered? ==>
              outcome.eligible == |Eligible(old(store.ops), old(store.jobs), announced, kind)|
    ensures outcome.DryRun? ==> !apply || outcome.eligible == 0
    ensures outcome.Recovered? ==> apply && outcome.eligible > 0
    ensures outcome.Recovered? ==>
              Achieved(Db(old(store.ops), old(store.jobs)), Db(store.ops, store.jobs), outcome.eligible,
                       outcome.recovered, announced, cutoff, kind)
  {
    cutoff, announced := now - staleAfter, now - staleAfter;
    if staleAfter < 5 * MINUTE || (apply && !workerStopped) {
      return UsageError, cutoff, announced;
    }
    var eligible := CountEligible(store, cutoff, kind);
    if !apply || eligible == 0 {
      return DryRun(eligible), cutoff, announced;
    }
    var ok, recovered;
    ghost var after;
    ok, recovered, cutoff, after := ApplyRecovery(store, staleAfter, kind, now, announced, eligible);
    if !ok {
      return Aborted, cutoff, announced;
    }
    return Recovered(eligible, recovered), cutoff, announced;
  }

  // Operations with their own jobs have as many jobs as there are operations, and a later cut-off only adds
  // to the eligible ones.
  lemma CountsAgree(db: Db, announced: Time, cutoff: Time, kind: string)
    requires JobsDistinct(db) && announced <= cutoff
    ensures |JobsOf(db.ops, Eligible(db.ops, db.jobs, cutoff, kind))| == |Eligible(db.ops, db.jobs, cutoff, kind)|
    ensures |Eligible(db.ops, db.jobs, announced, kind)| <= |Eligible(db.ops, db.jobs, cutoff, kind)|
  {
    JobsCount(db, Eligible(db.ops, db.jobs, cutoff, kind));
    GrowWithClock(db.ops, db.jobs, announced, cutoff, kind);
    SubsetCardinality(Eligible(db.ops, db.jobs, announced, kind), Eligible(db.ops, db.jobs, cutoff, kind));
  }

  lemma {:induction false} JobsCount(db: Db, ids: set<Uuid>)
    requires JobsDistinct(db) && ids <= db.ops.Keys
    ensures |JobsOf(db.ops, ids)| == |ids|
    decreases |ids|
  {
    if ids == {} {
      assert JobsOf(db.ops, ids) == {};
    } else {
      var x :| x in ids;
      var rest, j := ids - {x}, db.ops[x].riverJob.value;
      JobsCount(db, rest);
      assert j !in JobsOf(db.ops, rest);
      assert JobsOf(db.ops, ids) == JobsOf(db.ops, rest) + {j};
    }
  }

  // Main result: on every database the scheduler and the lifecycle can produce, the operations eligible at a
  // cut-off are exactly as many as their jobs, which is what the loop recovers.
  lemma ReachableRecoveryIsComplete(events: seq<Event>, cutoff: Time, kind: string)
    ensures
      var db := Evolved(EMPTY_DB, events);
      |JobsOf(db.ops, Eligible(db.ops, db.jobs, cutoff, kind))| == |Eligible(db.ops, db.jobs, cutoff, kind)|
  {
    JobsStayDistinct(events);
    CountsAgree(Evolved(EMPTY_DB, events), cutoff, cutoff, kind);
  }
}
