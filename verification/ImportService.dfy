/**
 The import's entry points as they run: the synchronous import, the queue and its worker, mutating
 the tables one statement at a time, each proved to do what the specification functions say.
 */
module ImportService {
  import opened Prelude
  import opened Directory
  import opened UserImport
  import opened ImportAgreement
  import opened ImportQueue
  import opened ImportDrain
  import opened ImportFailures

  /** Applications all waiting rows can still cost: five less its attempts for each. */
  function RetryBudget(rows: seq<JobRow>): nat {
    if rows == [] then 0
    else
      var r := rows[|rows| - 1];
      RetryBudget(rows[..|rows| - 1])
      + if r.status.Waiting? && r.attempts < MAX_ROW_ATTEMPTS then MAX_ROW_ATTEMPTS - r.attempts else 0
  }

  lemma {:induction false} BudgetOfUpdate(rows: seq<JobRow>, i: nat, r: JobRow)
    requires i < |rows|
    ensures RetryBudget(rows[i := r]) - RetryBudget([r]) == RetryBudget(rows) - RetryBudget([rows[i]])
  {
    var n := |rows| - 1;
    if i < n {
      BudgetOfUpdate(rows[..n], i, r);
      assert rows[i := r][..n] == rows[..n][i := r];
    } else {
      assert rows[i := r][..n] == rows[..n];
    }
    assert [r][..0] == [] && [rows[i]][..0] == [];
  }

  lemma {:induction false} BudgetBound(rows: seq<JobRow>)
    ensures RetryBudget(rows) <= MAX_ROW_ATTEMPTS * |rows|
  {
    if rows != [] {
      BudgetBound(rows[..|rows| - 1]);
    }
  }

  /** The verdicts as a map from the row index each one carries. */
  method KeyVerdicts(verdicts: seq<Verdict>) returns (verdict: map<nat, Verdict>)
    requires forall n :: 0 <= n < |verdicts| ==> verdicts[n].index == n
    ensures forall n :: 0 <= n < |verdicts| ==> n in verdict && verdict[n] == verdicts[n]
  {
    verdict := map[];
    var k := 0;
    while k < |verdicts|
      invariant 0 <= k <= |verdicts|
      invariant forall n :: 0 <= n < k ==> n in verdict && verdict[n] == verdicts[n]
    {
      verdict := verdict[verdicts[k].index := verdicts[k]];
      k := k + 1;
    }
  }

  method StoredRows(
    users: seq<ImportUser>, ghost verdicts: seq<Verdict>, verdict: map<nat, Verdict>
  ) returns (rows: seq<JobRow>)
    requires |users| == |verdicts|
    requires forall n :: 0 <= n < |verdicts| ==> n in verdict && verdict[n] == verdicts[n]
    ensures rows == RowsFor(users, verdicts)
  {
    rows := [];
    var i := 0;
    while i < |users|
      invariant 0 <= i <= |users|
      invariant rows == RowsFor(users, verdicts)[..i]
    {
      rows := rows + [RowFor(users[i], verdict[i])];
      i := i + 1;
    }
  }

  lemma NothingTallied()
    ensures Tally([], Create) == Tally([], Skip) == Tally([], Update) == Tally([], Reject) == 0
  {
  }

  lemma TalliesAppend(rows: seq<Verdict>, v: Verdict)
    ensures Tally(rows + [v], Create) == Tally(rows, Create) + if v.outcome == Create then 1 else 0
    ensures Tally(rows + [v], Skip) == Tally(rows, Skip) + if v.outcome == Skip then 1 else 0
    ensures Tally(rows + [v], Update) == Tally(rows, Update) + if v.outcome == Update then 1 else 0
    ensures Tally(rows + [v], Reject) == Tally(rows, Reject) + if v.outcome == Reject then 1 else 0
  {
  }

  predicate WithinAttempts(rows: seq<JobRow>) {
    forall i :: 0 <= i < |rows| && rows[i].status.Waiting? ==> rows[i].attempts < MAX_ROW_ATTEMPTS
  }

  /** What a poll does to a job when applying row `row` went as it did. */
  function PollRow(job: Job, w: WorkerId, now: int, row: nat, applied: Option<(Outcome, Reason)>): Job
    requires row < |job.rows|
  {
    match applied
    case Some((o, reason)) => CountProgress(RecordOutcome(job, row, o, reason), w, o)
    case None =>
      if job.rows[row].attempts + 1 < MAX_ROW_ATTEMPTS
      then ClaimJob(ReleaseJob(CountFailure(job, row), w), w, now)  // claimed again at the next poll
      else CountProgress(RecordOutcome(job, row, Reject, GaveUp(job.rows[row].attempts + 1)), w, Reject)
  }

  /** One application of a row of a job, and the poll around it. */
  function Polled(f: Foreign, c: Context, w: WorkerId, d: Drained, row: nat, now: int, at: int, failed: bool): Drained
    requires row < |d.job.rows| && (ReadBack(d.job.rows[row]).identities == [] || c.scope.app.Some?)
  {
    if failed then Drained(d.db, PollRow(d.job, w, now, row, None))
    else
      var e := ApplyRow(f, c, d.db, ReadBack(d.job.rows[row]), at);
      Drained(e.db, PollRow(d.job, w, now, row, Some((e.outcome, e.reason))))
  }

  /** A poll settles the row or counts one more failure against it, and keeps the claim. */
  lemma PollUpdates(job: Job, w: WorkerId, now: int, row: nat, applied: Option<(Outcome, Reason)>)
    requires RowClaimable(job, w, row)
    ensures var job' := PollRow(job, w, now, row, applied);
            && job'.status == Running && Holds(job', w) && |job'.rows| == |job.rows|
            && job'.rows == job.rows[row := job'.rows[row]]
            && (job'.rows[row].status.Settled?
                || (job'.rows[row] == job.rows[row].(attempts := job.rows[row].attempts + 1)
                    && job'.rows[row].attempts < MAX_ROW_ATTEMPTS))
  {
  }

  lemma PollSpends(job: Job, w: WorkerId, now: int, row: nat, applied: Option<(Outcome, Reason)>)
    requires RowClaimable(job, w, row) && WithinAttempts(job.rows)
    ensures var job' := PollRow(job, w, now, row, applied);
            && job'.status == Running && Holds(job', w) && |job'.rows| == |job.rows| && WithinAttempts(job'.rows)
            && RetryBudget(job'.rows) < RetryBudget(job.rows)
            && forall i :: 0 <= i < |job.rows| && job'.rows[i].status.Waiting? ==>
                 job.rows[i].status.Waiting? && job'.rows[i].payload == job.rows[i].payload
  {
    PollUpdates(job, w, now, row, applied);
    hide PollRow;
    var job' := PollRow(job, w, now, row, applied);
    BudgetOfUpdate(job.rows, row, job'.rows[row]);
    BudgetOfOne(job.rows[row]);
    BudgetOfOne(job'.rows[row]);
    hide RetryBudget;
  }

  lemma BudgetOfOne(r: JobRow)
    ensures RetryBudget([r]) == if r.status.Waiting? && r.attempts < MAX_ROW_ATTEMPTS then MAX_ROW_ATTEMPTS - r.attempts else 0
  {
  }

  class ImportService {
    var db: Db
    var jobs: map<Id, Job>
    var nextJob: Id

    constructor (initial: Db)
      ensures db == initial && jobs == map[] && nextJob == 0
    {
      db, jobs, nextJob := initial, map[], 0;
    }

    /** One row: screened, and written unless it is refused. */
    method ImportOne(
      f: Foreign, c: Context, dryRun: bool, seen: map<string, nat>, rows: seq<Verdict>, u: ImportUser, at: int)
      returns (v: Verdict)
      modifies this`db
      ensures Run(db, Mark(f, seen, u, |rows|), rows + [v]) == RunRow(f, c, dryRun, Run(old(db), seen, rows), u, at)
    {
      hide CommitRow, Screen, Mark;
      match Screen(f, c, seen, u) {
        case Refused(email, reason) =>
          v := Verdict(|rows|, email, Reject, reason);
        case Passed(email, role) =>
          var e := CommitRow(f, c, dryRun, db, email, u, role, at);
          db := e.db;
          v := Verdict(|rows|, email, e.outcome, e.reason);
      }
    }

    /** One pass over the document, updating the addresses seen, the counters and the directory. */
    method RunImport(f: Foreign, c: Context, users: seq<ImportUser>, dryRun: bool, at: nat -> int)
      returns (res: Option<ImportResult>)
      modifies this`db
      ensures |users| > MAX_IMPORT_ROWS ==> res == None && db == old(db)
      ensures |users| <= MAX_IMPORT_ROWS ==>
                && res.Some?
                && db == RunAll(f, c, dryRun, old(db), users, at).db
                && res.value.rows == RunAll(f, c, dryRun, old(db), users, at).rows
                && res.value.dryRun == dryRun
                && res.value.total == |users|
                && res.value.created == Tally(res.value.rows, Create)
                && res.value.skipped == Tally(res.value.rows, Skip)
                && res.value.updated == Tally(res.value.rows, Update)
                && res.value.rejected == Tally(res.value.rows, Reject)
                && res.value.total == res.value.created + res.value.skipped + res.value.updated + res.value.rejected
    {
      hide RunRow, Tally, Mark;
      NothingTallied();
      if |users| > MAX_IMPORT_ROWS {
        return None;
      }
      var rows: seq<Verdict> := [];
      var seen: map<string, nat> := map[];
      var created, skipped, updated, rejected := 0, 0, 0, 0;
      var i := 0;
      while i < |users|
        invariant 0 <= i <= |users|
        invariant Run(db, seen, rows) == RunTo(f, c, dryRun, old(db), users, at, i)
        invariant created == Tally(rows, Create) && skipped == Tally(rows, Skip)
        invariant updated == Tally(rows, Update) && rejected == Tally(rows, Reject)
      {
        var v := ImportOne(f, c, dryRun, seen, rows, users[i], at(i));
        TalliesAppend(rows, v);
        seen := Mark(f, seen, users[i], i);
        rows := rows + [v];
        match v.outcome {
          case Create => created := created + 1;
          case Skip => skipped := skipped + 1;
          case Update => updated := updated + 1;
          case Reject => rejected := rejected + 1;
        }
        i := i + 1;
      }
      TalliesSum(rows);
      res := Some(ImportResult(dryRun, |users|, created, skipped, updated, rejected, rows));
    }

    /** The dry run again, its verdicts keyed by row, and one stored row for each uploaded one. */
    method EnqueueImport(f: Foreign, c: Context, users: seq<ImportUser>, at: nat -> int) returns (id: Option<Id>)
      modifies this
      ensures db == old(db)
      ensures |users| > MAX_IMPORT_ROWS ==> id == None && jobs == old(jobs) && nextJob == old(nextJob)
      ensures |users| <= MAX_IMPORT_ROWS ==>
                && id == Some(old(nextJob)) && nextJob == old(nextJob) + 1
                && jobs == old(jobs)[old(nextJob) := NewJob(c.scope, Document(users, c.updateExisting),
                                                            RunAll(f, c, true, old(db), users, at).rows)]
    {
      hide Tally, RowFor, RunAll, RowsFor;
      DryRunReport(f, c, db, users, at);
      var res := RunImport(f, c, users, true, at);
      if res.None? {
        return None;
      }
      var verdict := KeyVerdicts(res.value.rows);
      var rows := StoredRows(users, res.value.rows, verdict);
      var job := Job(c.scope, c.updateExisting, Pending, |users|, 0, 0, 0, 0, 0, None, 0, rows);
      if res.value.rejected > 0 {
        job := job.(rejected := res.value.rejected, processed := res.value.rejected);
      }
      jobs := jobs[nextJob := job];
      id := Some(nextJob);
      nextJob := nextJob + 1;
    }

    /** Two statements: the status, then the credentials of rows that will never run. */
    method CancelImportJob(j: Id, scope: Scope) returns (found: bool)
      modifies this`jobs
      ensures found <==> j in old(jobs) && old(jobs)[j].scope == scope
                         && (old(jobs)[j].status == Pending || old(jobs)[j].status == Running)
      ensures !found ==> jobs == old(jobs)
      ensures found ==> jobs == old(jobs)[j := ClearCredentials(CancelJob(old(jobs)[j]))]
      ensures found ==> jobs[j].status == Cancelled
                        && forall i :: 0 <= i < |jobs[j].rows| && jobs[j].rows[i].status.Waiting? ==>
                             jobs[j].rows[i].plaintext.None? && jobs[j].rows[i].payload.passwordHash == ""
    {
      if j !in jobs || jobs[j].scope != scope || (jobs[j].status != Pending && jobs[j].status != Running) {
        return false;
      }
      jobs := jobs[j := CancelJob(jobs[j])];
      jobs := jobs[j := ClearCredentials(jobs[j])];
      found := true;
    }

    /** The oldest job that is pending or whose lease has run out; ids are given out in order of creation. */
    method ClaimImportJob(w: WorkerId, now: int) returns (claimed: Option<Id>)
      requires forall j :: j in jobs ==> 0 <= j < nextJob
      modifies this`jobs
      ensures claimed.None? ==> jobs == old(jobs) && forall j :: j in old(jobs) ==> !Claimable(old(jobs)[j], now)
      ensures claimed.Some? ==>
                && claimed.value in old(jobs) && Claimable(old(jobs)[claimed.value], now)
                && (forall j :: j in old(jobs) && j < claimed.value ==> !Claimable(old(jobs)[j], now))
                && jobs == old(jobs)[claimed.value := ClaimJob(old(jobs)[claimed.value], w, now)]
    {
      var j := 0;
      while j < nextJob
        invariant 0 <= j && jobs == old(jobs)
        invariant forall k :: k in jobs && k < j ==> !Claimable(jobs[k], now)
      {
        if j in jobs && Claimable(jobs[j], now) {
          jobs := jobs[j := ClaimJob(jobs[j], w, now)];
          return Some(j);
        }
        j := j + 1;
      }
      claimed := None;
    }

    /** One row: claim it, apply it, record its outcome, count it. */
    method ProcessRow(f: Foreign, c: Context, w: WorkerId, j: Id, row: nat, at: int)
      requires j in jobs && RowClaimable(jobs[j], w, row)
      requires ReadBack(jobs[j].rows[row]).identities == [] || c.scope.app.Some?
      modifies this`db, this`jobs
      ensures var job := old(jobs)[j];
              var e := ApplyRow(f, c, old(db), ReadBack(job.rows[row]), at);
              && db == e.db
              && jobs == old(jobs)[j := CountProgress(RecordOutcome(job, row, e.outcome, e.reason), w, e.outcome)]
    {
      hide ApplyRow, RecordOutcome, CountProgress, ReadBack;
      var e := ApplyRow(f, c, db, ReadBack(jobs[j].rows[row]), at);
      db := e.db;
      jobs := jobs[j := RecordOutcome(jobs[j], row, e.outcome, e.reason)];
      jobs := jobs[j := CountProgress(jobs[j], w, e.outcome)];
    }

    /** The next row of a drain that has come past its first `n` rows. */
    method ProcessNext(
      f: Foreign, c: Context, w: WorkerId, j: Id, ghost start: Drained, at: nat -> int, ghost n: nat, row: nat)
      requires n <= |start.job.rows| && Applicable(c, start.job.rows) && j in jobs && NextRow(jobs[j], w) == Some(row)
      requires Drained(db, jobs[j]) == DrainPoint(f, c, w, start, at, n)
      modifies this`db, this`jobs
      ensures n <= row < |start.job.rows| && j in jobs && jobs == old(jobs)[j := jobs[j]]
      ensures Drained(db, jobs[j]) == DrainPoint(f, c, w, start, at, row + 1)
    {
      DrainsNext(f, c, w, start, at, n, row);
      hide *;
      ProcessRow(f, c, w, j, row, at(row));
    }

    /** A claimed job's rows one at a time until none is waiting. */
    method DrainRows(f: Foreign, c: Context, w: WorkerId, j: Id, at: nat -> int)
      requires j in jobs && jobs[j].status == Running && Holds(jobs[j], w) && Applicable(c, jobs[j].rows)
      modifies this`db, this`jobs
      ensures var done := DrainPoint(f, c, w, Drained(old(db), old(jobs)[j]), at, |old(jobs)[j].rows|);
              db == done.db && jobs == old(jobs)[j := done.job] && CompleteJob(done.job, w).status == Completed
    {
      hide *;
      ghost var start := Drained(db, jobs[j]);
      ghost var n := 0;
      var next := NextRow(jobs[j], w);
      StartOfDrain(f, c, w, start, at);
      while next.Some?
        invariant 0 <= n <= |start.job.rows| && j in jobs
        invariant Drained(db, jobs[j]) == DrainPoint(f, c, w, start, at, n)
        invariant jobs == old(jobs)[j := jobs[j]]
        invariant next == NextRow(jobs[j], w)
        decreases |start.job.rows| - n
      {
        var row := next.value;
        ghost var before := jobs[j];
        ProcessNext(f, c, w, j, start, at, n, row);
        UpdatedTwice(old(jobs), j, before, jobs[j]);
        n := row + 1;
        next := NextRow(jobs[j], w);
      }
      DrainsAll(f, c, w, start, at, n);
    }

    /** Its rows, then the job itself. */
    method DrainJob(f: Foreign, c: Context, w: WorkerId, j: Id, at: nat -> int)
      requires j in jobs && jobs[j].status == Running && Holds(jobs[j], w) && Applicable(c, jobs[j].rows)
      modifies this`db, this`jobs
      ensures var done := DrainPoint(f, c, w, Drained(old(db), old(jobs)[j]), at, |old(jobs)[j].rows|);
              db == done.db && jobs == old(jobs)[j := CompleteJob(done.job, w)]
      ensures jobs[j].status == Completed
    {
      hide DrainPoint, CompleteJob;
      DrainRows(f, c, w, j, at);
      UpdatedTwice(old(jobs), j, jobs[j], CompleteJob(jobs[j], w));
      jobs := jobs[j := CompleteJob(jobs[j], w)];
    }

    /** One application of a row, with what a poll does to the job after it. */
    method PollOnce(f: Foreign, c: Context, w: WorkerId, j: Id, row: nat, now: int, at: int, failed: bool)
      requires j in jobs && row < |jobs[j].rows| && (ReadBack(jobs[j].rows[row]).identities == [] || c.scope.app.Some?)
      modifies this`db, this`jobs
      ensures var polled := Polled(f, c, w, Drained(old(db), old(jobs)[j]), row, now, at, failed);
              db == polled.db && jobs == old(jobs)[j := polled.job]
    {
      hide ApplyRow, PollRow, ReadBack;
      var applied: Option<(Outcome, Reason)> := None;
      if !failed {
        var e := ApplyRow(f, c, db, ReadBack(jobs[j].rows[row]), at);
        db := e.db;
        applied := Some((e.outcome, e.reason));
      }
      jobs := jobs[j := PollRow(jobs[j], w, now, row, applied)];
    }

    /**
     A lone worker polling one job through storage failures: application `k` is of row `trail[k]` and
     fails when `fails(k)`.  The job completes.  Exactly the rows that met five failures are given up,
     every other one is applied once as in a drain without failures, and where none is given up the
     directory and the report are those of such a drain.
     */
    method DrainThroughFailures(f: Foreign, c: Context, w: WorkerId, j: Id, now: int, at: nat -> int, fails: nat -> bool)
      returns (trail: seq<nat>, gaveUp: set<nat>)
      requires j in jobs && jobs[j].status == Pending
      requires Applicable(c, jobs[j].rows)
      requires WithinAttempts(jobs[j].rows)
      modifies this`db, this`jobs
      ensures j in jobs && jobs == old(jobs)[j := jobs[j]] && jobs[j].status == Completed
      ensures |jobs[j].rows| == |old(jobs)[j].rows|
      ensures forall i :: 0 <= i < |jobs[j].rows| ==> jobs[j].rows[i].status.Settled?
      ensures forall i :: 0 <= i < |jobs[j].rows| ==> Accounted(trail, fails, i, old(jobs)[j].rows[i], gaveUp)
      ensures var start := Drained(old(db), ClaimJob(old(jobs)[j], w, now));
              var done := DrainExcept(f, c, w, start, at, gaveUp, |start.job.rows|);
              db == done.db && SameButAttempts(jobs[j], CompleteJob(done.job, w))
      ensures var start := Drained(old(db), ClaimJob(old(jobs)[j], w, now));
              var done := DrainTo(f, c, w, start, at, |start.job.rows|);
              gaveUp == {} ==> db == done.db && SameButAttempts(jobs[j], CompleteJob(done.job, w))
      ensures |trail| <= RetryBudget(old(jobs)[j].rows) <= MAX_ROW_ATTEMPTS * |old(jobs)[j].rows|
    {
      hide ClaimJob, RetryBudget, Midway, Accounted, SameButAttempts, DrainExcept, DrainTo, NextRow, CompleteJob, Applicable;
      BudgetBound(jobs[j].rows);
      ghost var start := Drained(db, ClaimJob(jobs[j], w, now));
      ghost var total := |jobs[j].rows|;
      FreshlyClaimed(jobs[j], w, now);
      jobs := jobs[j := ClaimJob(jobs[j], w, now)];
      trail, gaveUp := PollUntilDrained(f, c, w, j, now, at, fails);
      ghost var n :| Midway(f, c, w, start, at, fails, Drained(db, jobs[j]), trail, gaveUp, n);
      MidwayEnds(f, c, w, start, at, fails, Drained(db, jobs[j]), trail, gaveUp, n);
      NobodyGivenUp(f, c, w, start, at, total);
      CompletedAlike(jobs[j], DrainExcept(f, c, w, start, at, gaveUp, total).job, w);
      jobs := jobs[j := CompleteJob(jobs[j], w)];
    }

    /** The polls of a claimed job, one application each, until no row waits. */
    method PollUntilDrained(f: Foreign, c: Context, w: WorkerId, j: Id, now: int, at: nat -> int, fails: nat -> bool)
      returns (trail: seq<nat>, gaveUp: set<nat>)
      requires j in jobs && jobs[j].status == Running && Holds(jobs[j], w)
      requires Applicable(c, jobs[j].rows) && WithinAttempts(jobs[j].rows)
      modifies this`db, this`jobs
      ensures j in jobs && jobs == old(jobs)[j := jobs[j]] && jobs[j].status == Running && Holds(jobs[j], w)
      ensures NextRow(jobs[j], w).None?
      ensures exists n :: Midway(f, c, w, Drained(old(db), old(jobs)[j]), at, fails, Drained(db, jobs[j]), trail, gaveUp, n)
      ensures |trail| <= RetryBudget(old(jobs)[j].rows)
    {
      ghost var start := Drained(db, jobs[j]);
      hide Polled, RetryBudget, Midway, ReadBack, NextRow, Applicable, WithinAttempts;
      trail, gaveUp := [], {};
      MidwayStarts(f, c, w, start, at, fails);
      ghost var n := 0;
      var next := NextRow(jobs[j], w);
      while next.Some?
        invariant j in jobs && jobs == old(jobs)[j := jobs[j]] && jobs[j].status == Running && Holds(jobs[j], w)
        invariant Applicable(c, jobs[j].rows) && WithinAttempts(jobs[j].rows)
        invariant next == NextRow(jobs[j], w)
        invariant Midway(f, c, w, start, at, fails, Drained(db, jobs[j]), trail, gaveUp, n)
        invariant |trail| + RetryBudget(jobs[j].rows) <= RetryBudget(old(jobs)[j].rows)
        decreases RetryBudget(jobs[j].rows)
      {
        var row := next.value;
        ghost var before := Drained(db, jobs[j]);
        n := MidwayNext(f, c, w, start, at, fails, before, trail, gaveUp, n, row);
        var last := jobs[j].rows[row].attempts + 1 >= MAX_ROW_ATTEMPTS;
        var failed := fails(|trail|);
        PollOnce(f, c, w, j, row, now, at(row), failed);
        n := PollAdvances(f, c, w, start, at, fails, before, trail, gaveUp, row, now);
        UpdatedTwice(old(jobs), j, before.job, jobs[j]);
        if failed && last {
          gaveUp := gaveUp + {row};
        }
        trail := trail + [row];
        next := NextRow(jobs[j], w);
      }
    }
  }

  lemma FreshlyClaimed(job: Job, w: WorkerId, now: int)
    requires job.status == Pending
    ensures var job' := ClaimJob(job, w, now); job'.status == Running && Holds(job', w) && job'.rows == job.rows
  {
  }

  lemma CompletedAlike(a: Job, b: Job, w: WorkerId)
    requires SameButAttempts(a, b) && a.status == Running && Holds(a, w)
    ensures SameButAttempts(CompleteJob(a, w), CompleteJob(b, w)) && CompleteJob(a, w).status == Completed
    ensures CompleteJob(a, w).rows == a.rows
  {
  }

  /** The next row a worker reads is the first one still waiting. */
  lemma MidwayNext(
    f: Foreign, c: Context, w: WorkerId, start: Drained, at: nat -> int, fails: nat -> bool,
    now: Drained, trail: seq<nat>, gaveUp: set<nat>, n: nat, row: nat
  ) returns (m: nat)
    requires Midway(f, c, w, start, at, fails, now, trail, gaveUp, n) && NextRow(now.job, w) == Some(row)
    ensures m == row < |now.job.rows| == |start.job.rows| && RowClaimable(now.job, w, row)
    ensures Midway(f, c, w, start, at, fails, now, trail, gaveUp, row)
    ensures start.job.rows[row].status.Waiting?
    ensures Applicable(c, now.job.rows) ==> ReadBack(now.job.rows[row]).identities == [] || c.scope.app.Some?
  {
    var d := DrainExcept(f, c, w, start, at, gaveUp, n);
    assert forall i :: 0 <= i < |now.job.rows| ==> now.job.rows[i].status == d.job.rows[i].status;
    hide DrainExcept;
    MidwaySkips(f, c, w, start, at, fails, now, trail, gaveUp, n, row);
    m := row;
  }

  /** A poll spends of the budget and leaves the drain midway. */
  lemma PollAdvances(
    f: Foreign, c: Context, w: WorkerId, start: Drained, at: nat -> int, fails: nat -> bool,
    before: Drained, trail: seq<nat>, gaveUp: set<nat>, row: nat, now: int
  ) returns (n: nat)
    requires Midway(f, c, w, start, at, fails, before, trail, gaveUp, row) && RowClaimable(before.job, w, row)
    requires |start.job.rows| == |before.job.rows| && start.job.rows[row].status.Waiting?
    requires Applicable(c, before.job.rows) && WithinAttempts(before.job.rows)
    requires ReadBack(before.job.rows[row]).identities == [] || c.scope.app.Some?
    ensures var failed := fails(|trail|);
            var polled := Polled(f, c, w, before, row, now, at(row), failed);
            var given := if failed && before.job.rows[row].attempts + 1 >= MAX_ROW_ATTEMPTS then gaveUp + {row} else gaveUp;
            && Midway(f, c, w, start, at, fails, polled, trail + [row], given, n)
            && polled.job.status == Running && Holds(polled.job, w) && |polled.job.rows| == |before.job.rows|
            && Applicable(c, polled.job.rows) && WithinAttempts(polled.job.rows)
            && RetryBudget(polled.job.rows) < RetryBudget(before.job.rows)
  {
    hide Midway, ApplyRow, ReadBack, RetryBudget;
    var failed := fails(|trail|);
    var e := ApplyRow(f, c, before.db, ReadBack(before.job.rows[row]), at(row));
    PollSpends(before.job, w, now, row, if failed then None else Some((e.outcome, e.reason)));
    if !failed {
      MidwayApplies(f, c, w, start, at, fails, before, trail, gaveUp, row);
      n := row + 1;
    } else if before.job.rows[row].attempts + 1 < 5 {
      MidwayRetries(f, c, w, start, at, fails, before, trail, gaveUp, row, now);
      n := row;
    } else {
      MidwayGivesUp(f, c, w, start, at, fails, before, trail, gaveUp, row);
      n := row + 1;
    }
  }

  lemma MidwayEnds(
    f: Foreign, c: Context, w: WorkerId, start: Drained, at: nat -> int, fails: nat -> bool,
    now: Drained, trail: seq<nat>, gaveUp: set<nat>, n: nat)
    requires Midway(f, c, w, start, at, fails, now, trail, gaveUp, n)
    requires now.job.status == Running && Holds(now.job, w) && NextRow(now.job, w).None?
    ensures Applicable(c, start.job.rows)
    ensures var done := DrainExcept(f, c, w, start, at, gaveUp, |start.job.rows|);
            && now.db == done.db && SameButAttempts(now.job, done.job) && |now.job.rows| == |start.job.rows|
    ensures forall i :: 0 <= i < |now.job.rows| ==> now.job.rows[i].status.Settled?
    ensures forall i :: 0 <= i < |now.job.rows| ==> Accounted(trail, fails, i, start.job.rows[i], gaveUp)
  {
    var d := DrainExcept(f, c, w, start, at, gaveUp, n);
    assert forall i :: 0 <= i < |now.job.rows| ==> now.job.rows[i].status == d.job.rows[i].status;
    hide DrainExcept;
    MidwaySkips(f, c, w, start, at, fails, now, trail, gaveUp, n, |start.job.rows|);
  }

  /** A dry run leaves the directory alone and reports each row under its own index. */
  lemma DryRunReport(f: Foreign, c: Context, db: Db, users: seq<ImportUser>, at: nat -> int)
    ensures RunAll(f, c, true, db, users, at).db == db
    ensures forall i :: 0 <= i < |users| ==> RunAll(f, c, true, db, users, at).rows[i].index == i
  {
    hide RunRow, ScreenedAt;
    DryRunKeepsDb(f, c, db, users, at, |users|);
    RunShape(f, c, true, db, users, at, |users|);
  }

  lemma {:induction false} DryRunKeepsDb(f: Foreign, c: Context, db: Db, users: seq<ImportUser>, at: nat -> int, n: nat)
    requires n <= |users|
    ensures RunTo(f, c, true, db, users, at, n).db == db
  {
    hide CommitRow, RowFault;
    if n > 0 {
      DryRunKeepsDb(f, c, db, users, at, n - 1);
    }
  }

  lemma UpdatedTwice<K, V>(m: map<K, V>, k: K, a: V, b: V)
    ensures m[k := a][k := b] == m[k := b]
  {
  }

  /** Where a drain stands after its first `n` rows. */
  ghost function DrainPoint(f: Foreign, c: Context, w: WorkerId, d: Drained, at: nat -> int, n: nat): Drained
    requires n <= |d.job.rows| && Applicable(c, d.job.rows)
  {
    DrainTo(f, c, w, d, at, n)
  }

  lemma StartOfDrain(f: Foreign, c: Context, w: WorkerId, d: Drained, at: nat -> int)
    requires Applicable(c, d.job.rows)
    ensures DrainPoint(f, c, w, d, at, 0) == d
  {
  }

  /** The next row a worker reads is the next one the drain applies. */
  lemma DrainsNext(f: Foreign, c: Context, w: WorkerId, d: Drained, at: nat -> int, n: nat, row: nat)
    requires n <= |d.job.rows| && Applicable(c, d.job.rows)
    requires NextRow(DrainPoint(f, c, w, d, at, n).job, w) == Some(row)
    ensures var x := DrainPoint(f, c, w, d, at, n);
            && n <= row < |d.job.rows| == |x.job.rows| && RowClaimable(x.job, w, row)
            && (ReadBack(x.job.rows[row]).identities == [] || c.scope.app.Some?)
            && var e := ApplyRow(f, c, x.db, ReadBack(x.job.rows[row]), at(row));
               DrainPoint(f, c, w, d, at, row + 1) ==
               Drained(e.db, CountProgress(RecordOutcome(x.job, row, e.outcome, e.reason), w, e.outcome))
  {
    hide ApplyRow, RecordOutcome, CountProgress;
    var x := DrainTo(f, c, w, d, at, n);
    assert n <= row;
    DrainSkipsSettled(f, c, w, d, at, n, row);
    assert DrainTo(f, c, w, d, at, row + 1) == DrainRow(f, c, w, x, row, at(row));
  }

  /** When a worker that holds the lease finds no further row, the drain is complete. */
  lemma DrainsAll(f: Foreign, c: Context, w: WorkerId, d: Drained, at: nat -> int, n: nat)
    requires n <= |d.job.rows| && Applicable(c, d.job.rows) && d.job.status == Running && Holds(d.job, w)
    requires NextRow(DrainPoint(f, c, w, d, at, n).job, w).None?
    ensures var x := DrainPoint(f, c, w, d, at, n);
            x == DrainPoint(f, c, w, d, at, |d.job.rows|) && CompleteJob(x.job, w).status == Completed
  {
    hide ApplyRow, RecordOutcome, CountProgress;
    DrainSkipsSettled(f, c, w, d, at, n, |d.job.rows|);
  }

  /** Draining past rows that are already settled does nothing. */
  lemma {:induction false} DrainSkipsSettled(
    f: Foreign, c: Context, w: WorkerId, d: Drained, at: nat -> int, n: nat, m: nat)
    requires n <= m <= |d.job.rows| && Applicable(c, d.job.rows)
    requires forall i :: n <= i < m ==> d.job.rows[i].status.Settled?
    ensures DrainTo(f, c, w, d, at, m) == DrainTo(f, c, w, d, at, n)
  {
    hide ApplyRow, RecordOutcome, CountProgress;
    if n < m {
      DrainSkipsSettled(f, c, w, d, at, n, m - 1);
    }
  }
}
