/**
 The drain as the queue's protocol sees it: enqueueing a document and draining it undisturbed is one
 run of the workers' statements, so what holds of every run holds of it.
 */
module ImportReplay {
  import opened Prelude
  import opened Directory
  import opened UserImport
  import opened ImportAgreement
  import opened ImportQueue
  import opened ImportDrain
  import opened ImportProtocol
  import opened ImportRuns

  lemma {:induction false} RunsCompose(s: State, a: seq<Action>, b: seq<Action>)
    requires Possible(s, a) && Possible(After(s, a), b)
    ensures Possible(s, a + b) && After(s, a + b) == After(After(s, a), b)
    decreases |a|
  {
    hide Next, Enabled;
    if a == [] {
      assert a + b == b;
    } else {
      RunsCompose(Next(s, a[0]), a[1..], b);
      assert (a + b)[1..] == a[1..] + b && (a + b)[0] == a[0];
    }
  }

  lemma TwoSteps(s: State, a: Action, b: Action)
    requires Enabled(s, a) && Enabled(Next(s, a), b)
    ensures Possible(s, [a, b]) && After(s, [a, b]) == Next(Next(s, a), b)
  {
    hide Enabled, Next;
    var t := Next(s, a);
    assert [a, b][1..] == [b] && [b][1..] == [];
    assert Possible(t, [b]) && After(t, [b]) == After(Next(t, b), []);
  }

  /** Worker `w` works on job `j`, which is running under its lease. */
  predicate AtWork(s: State, w: WorkerId, j: Id) {
    PhaseOf(s, w) == Ready(j) && w !in s.lost && j in s.jobs && s.jobs[j].status == Running && Holds(s.jobs[j], w)
  }

  /** The statements on one row: read it, check it, apply it, record it, count it. */
  function RowActions(w: WorkerId, o: Outcome, reason: Reason): seq<Action> {
    [Read(w), Check(w)] + ([Judge(w, o, reason), Record(w)] + [Progress(w)])
  }

  lemma RowIsRun(s: State, w: WorkerId, j: Id, row: nat, o: Outcome, reason: Reason)
    requires !reason.GaveUp?
    requires AtWork(s, w, j) && NextRow(s.jobs[j], w) == Some(row) && row < |s.jobs[j].rows|
    ensures var acts := RowActions(w, o, reason);
            && Possible(s, acts) && AtWork(After(s, acts), w, j)
            && After(s, acts).jobs == s.jobs[j := CountProgress(RecordOutcome(s.jobs[j], row, o, reason), w, o)]
  {
    hide Next, Enabled, Possible, After, RecordOutcome, CountProgress, NextRow;
    ReadAndCheck(s, w, j, row);
    var t := After(s, [Read(w), Check(w)]);
    JudgeAndRecord(t, w, j, row, s.jobs[j].rows[row].attempts, o, reason);
    RecordKeepsLease(s.jobs[j], row, o, reason);
    var u := After(t, [Judge(w, o, reason), Record(w)]);
    CountIsRun(u, w, j, row, o);
    RunsCompose(t, [Judge(w, o, reason), Record(w)], [Progress(w)]);
    RunsCompose(s, [Read(w), Check(w)], [Judge(w, o, reason), Record(w)] + [Progress(w)]);
  }

  lemma RecordKeepsLease(job: Job, row: nat, o: Outcome, reason: Reason)
    ensures var job' := RecordOutcome(job, row, o, reason); job'.status == job.status && job'.lockedBy == job.lockedBy
  {
  }

  lemma CountIsRun(u: State, w: WorkerId, j: Id, row: nat, o: Outcome)
    requires PhaseOf(u, w) == Recorded(j, row, o) && w !in u.lost
    requires j in u.jobs && u.jobs[j].status == Running && Holds(u.jobs[j], w)
    ensures Possible(u, [Progress(w)])
    ensures var v := After(u, [Progress(w)]);
            AtWork(v, w, j) && v.jobs == u.jobs[j := CountProgress(u.jobs[j], w, o)]
  {
    var v := Next(u, Progress(w));
    assert [Progress(w)][1..] == [];
    assert Possible(v, []) && After(v, []) == v;
    assert After(u, [Progress(w)]) == v;
  }

  lemma ReadAndCheck(s: State, w: WorkerId, j: Id, row: nat)
    requires AtWork(s, w, j) && NextRow(s.jobs[j], w) == Some(row) && row < |s.jobs[j].rows|
    ensures Possible(s, [Read(w), Check(w)])
    ensures var t := After(s, [Read(w), Check(w)]);
            && t.jobs == s.jobs && t.lost == s.lost && PhaseOf(t, w) == Checked(j, row, s.jobs[j].rows[row].attempts)
  {
    hide Next, Enabled, Possible, After, NextRow;
    ReadStep(s, w, j, row);
    CheckStep(Next(s, Read(w)), w, j, row);
    TwoSteps(s, Read(w), Check(w));
  }

  lemma ReadStep(s: State, w: WorkerId, j: Id, row: nat)
    requires AtWork(s, w, j) && NextRow(s.jobs[j], w) == Some(row) && row < |s.jobs[j].rows|
    ensures Enabled(s, Read(w)) && RowClaimable(s.jobs[j], w, row)
    ensures Next(s, Read(w)) == Move(s, w, HasRow(j, row, s.jobs[j].rows[row].attempts))
  {
    hide FirstWaiting;
  }

  lemma CheckStep(t: State, w: WorkerId, j: Id, row: nat)
    requires PhaseOf(t, w).HasRow? && PhaseOf(t, w).job == j && PhaseOf(t, w).row == row
    requires j in t.jobs && RowClaimable(t.jobs[j], w, row)
    ensures Enabled(t, Check(w))
    ensures Next(t, Check(w)) == Move(t, w, Checked(j, row, PhaseOf(t, w).attempts))
  {
    hide RowClaimable;
  }

  lemma JudgeAndRecord(t: State, w: WorkerId, j: Id, row: nat, attempts: nat, o: Outcome, reason: Reason)
    requires PhaseOf(t, w) == Checked(j, row, attempts) && j in t.jobs && !reason.GaveUp?
    ensures Possible(t, [Judge(w, o, reason), Record(w)])
    ensures var u := After(t, [Judge(w, o, reason), Record(w)]);
            && u.jobs == t.jobs[j := RecordOutcome(t.jobs[j], row, o, reason)] && u.lost == t.lost
            && PhaseOf(u, w) == Recorded(j, row, o)
  {
    TwoSteps(t, Judge(w, o, reason), Record(w));
  }

  // ---------------------------------------------------------------------------------------
  // Applying a row never gives it up
  // ---------------------------------------------------------------------------------------

  lemma ApplyingNeverGivesUp(f: Foreign, c: Context, db: Db, u: ImportUser, at: int)
    requires u.identities == [] || c.scope.app.Some?
    ensures !ApplyRow(f, c, db, u, at).reason.GaveUp?
  {
  }

  lemma {:induction false} NoIdentityGivesUp(ids: seq<Identity>, seen: set<string>)
    ensures IdentitiesFault(ids, seen).Some? ==> !IdentitiesFault(ids, seen).value.GaveUp?
  {
    if ids != [] {
      NoIdentityGivesUp(ids[1..], seen + {ids[0].provider});
    }
  }

  lemma ImportingNeverGivesUp(f: Foreign, c: Context, dryRun: bool, r: Run, u: ImportUser, at: int)
    ensures !RunRow(f, c, dryRun, r, u, at).rows[|r.rows|].reason.GaveUp?
  {
    NoIdentityGivesUp(u.identities, {});
    hide IdentitiesFault, InsertUser, UpdateUser;
  }

  lemma {:induction false} NoVerdictGivesUp(
    f: Foreign, c: Context, dryRun: bool, db: Db, users: seq<ImportUser>, at: nat -> int, n: nat)
    requires n <= |users|
    ensures forall i :: 0 <= i < n ==> !RunTo(f, c, dryRun, db, users, at, n).rows[i].reason.GaveUp?
  {
    hide RunRow;
    if n > 0 {
      var r := RunTo(f, c, dryRun, db, users, at, n - 1);
      NoVerdictGivesUp(f, c, dryRun, db, users, at, n - 1);
      ImportingNeverGivesUp(f, c, dryRun, r, users[n - 1], at(n - 1));
      var r' := RunRow(f, c, dryRun, r, users[n - 1], at(n - 1));
      assert forall i :: 0 <= i < n - 1 ==> r'.rows[i] == r'.rows[..n - 1][i];
    }
  }

  /** Draining the first `n` rows is a run. */
  lemma {:induction false} DrainIsRun(
    f: Foreign, c: Context, w: WorkerId, s: State, j: Id, db: Db, at: nat -> int, n: nat
  ) returns (acts: seq<Action>)
    requires AtWork(s, w, j) && n <= |s.jobs[j].rows| && Applicable(c, s.jobs[j].rows)
    ensures Possible(s, acts) && AtWork(After(s, acts), w, j)
    ensures After(s, acts).jobs == s.jobs[j := DrainTo(f, c, w, Drained(db, s.jobs[j]), at, n).job]
  {
    hide ApplyRow, RecordOutcome, CountProgress, Next, Enabled, RowActions;
    if n == 0 {
      acts := [];
      assert After(s, acts) == s;
    } else {
      var row := n - 1;
      var before := DrainIsRun(f, c, w, s, j, db, at, row);
      var t := After(s, before);
      var d := DrainTo(f, c, w, Drained(db, s.jobs[j]), at, row);
      acts := before;
      if d.job.rows[row].status == Waiting {
        FirstWaitingIs(d.job.rows, row);
        assert d.job.rows[row].payload.identities == [] || c.scope.app.Some?;
        assert NextRow(t.jobs[j], w) == Some(row);
        var e := ApplyRow(f, c, d.db, ReadBack(d.job.rows[row]), at(row));
        ApplyingNeverGivesUp(f, c, d.db, ReadBack(d.job.rows[row]), at(row));
        RowIsRun(t, w, j, row, e.outcome, e.reason);
        RunsCompose(s, before, RowActions(w, e.outcome, e.reason));
        acts := before + RowActions(w, e.outcome, e.reason);
      }
    }
  }

  lemma FirstWaitingIs(rows: seq<JobRow>, row: nat)
    requires row < |rows| && rows[row].status == Waiting && forall i :: 0 <= i < row ==> rows[i].status.Settled?
    ensures FirstWaiting(rows, 0) == Some(row)
  {
    assert FirstWaiting(rows, 0).Some?;
  }

  /** Once no row waits, reading finds none and the job is completed. */
  lemma FinishIsRun(s: State, w: WorkerId, j: Id)
    requires AtWork(s, w, j) && NoneWaiting(s.jobs[j])
    ensures Possible(s, [Read(w), Finish(w)])
    ensures var t := After(s, [Read(w), Finish(w)]); t.jobs == s.jobs[j := CompleteJob(s.jobs[j], w)]
  {
    assert NextRow(s.jobs[j], w).None?;
    TwoSteps(s, Read(w), Finish(w));
  }

  // ---------------------------------------------------------------------------------------
  // Stopping short
  // ---------------------------------------------------------------------------------------

  lemma OneStep(s: State, a: Action)
    requires Enabled(s, a)
    ensures Possible(s, [a]) && After(s, [a]) == Next(s, a)
  {
    hide Enabled, Next;
    assert [a][1..] == [];
  }

  /** No row that waits has a credential left. */
  ghost predicate NoCredentials(job: Job) {
    forall i :: 0 <= i < |job.rows| && job.rows[i].status.Waiting? ==>
      job.rows[i].plaintext.None? && job.rows[i].payload.password == job.rows[i].payload.passwordHash == ""
  }

  /** A worker that cannot read its rows fails the job for good, and erases what it would not need again. */
  lemma FailIsRun(s: State, w: WorkerId, j: Id)
    requires AtWork(s, w, j)
    ensures Possible(s, [ReadError(w), Fail(w)] + [ClearFailed(w)])
    ensures var t := After(s, [ReadError(w), Fail(w)] + [ClearFailed(w)]);
            && PhaseOf(t, w).Idle? && t.jobs == s.jobs[j := ClearCredentials(FailJob(s.jobs[j], w))]
            && t.jobs[j].status == Failed && t.jobs[j].lockedBy == None && NoCredentials(t.jobs[j])
  {
    var u := Next(Next(s, ReadError(w)), Fail(w));
    FailingSteps(s, w, j);
    hide Enabled, Next, Possible, After, FailJob, ClearCredentials;
    TwoSteps(s, ReadError(w), Fail(w));
    OneStep(u, ClearFailed(w));
    RunsCompose(s, [ReadError(w), Fail(w)], [ClearFailed(w)]);
    ErasedAfterFailing(s.jobs[j], w);
  }

  lemma FailingSteps(s: State, w: WorkerId, j: Id)
    requires AtWork(s, w, j)
    ensures Enabled(s, ReadError(w)) && Enabled(Next(s, ReadError(w)), Fail(w))
    ensures var u := Next(Next(s, ReadError(w)), Fail(w));
            && Enabled(u, ClearFailed(w)) && PhaseOf(Next(u, ClearFailed(w)), w).Idle?
            && Next(u, ClearFailed(w)).jobs == s.jobs[j := ClearCredentials(FailJob(s.jobs[j], w))]
  {
    hide FailJob, ClearCredentials;
    var u := Next(Next(s, ReadError(w)), Fail(w));
    assert PhaseOf(u, w) == Clearing(j) && u.jobs == s.jobs[j := FailJob(s.jobs[j], w)];
  }

  lemma ErasedAfterFailing(job: Job, w: WorkerId)
    requires job.status == Running && Holds(job, w)
    ensures var failed := ClearCredentials(FailJob(job, w));
            failed.status == Failed && failed.lockedBy == None && NoCredentials(failed)
  {
  }

  /** A worker that shuts down hands the job back as it is, and anybody may claim it at once. */
  lemma ReleaseIsRun(s: State, w: WorkerId, j: Id, v: WorkerId)
    requires AtWork(s, w, j) && (v == w || PhaseOf(s, v).Idle?)
    ensures Possible(s, [Shutdown(w), Release(w)])
    ensures var t := After(s, [Shutdown(w), Release(w)]);
            && t.jobs == s.jobs[j := s.jobs[j].(status := Pending, lockedBy := None)]
            && Enabled(t, Claim(v, j)) && AtWork(Next(t, Claim(v, j)), v, j)
  {
    TwoSteps(s, Shutdown(w), Release(w));
    hide Possible, After;
  }

  /** An operator that cancels a job leaves it cancelled, its credentials erased, and no row of it to be applied. */
  lemma CancelIsRun(s: State, w: WorkerId, j: Id, row: nat)
    requires AtWork(s, w, j)
    ensures Possible(s, [Cancel(j), ClearCancelled(j)])
    ensures var t := After(s, [Cancel(j), ClearCancelled(j)]);
            && t.jobs == s.jobs[j := ClearCredentials(CancelJob(s.jobs[j]))] && t.jobs[j].status == Cancelled
            && NoCredentials(t.jobs[j]) && !RowClaimable(t.jobs[j], w, row)
  {
    TwoSteps(s, Cancel(j), ClearCancelled(j));
    hide Possible, After;
  }

  function Upload(f: Foreign, c: Context, db: Db, users: seq<ImportUser>, at: nat -> int): Job {
    NewJob(c.scope, Document(users, c.updateExisting), RunAll(f, c, true, db, users, at).rows)
  }

  /** Enqueueing and claiming is a run that puts the worker to work on the job. */
  lemma ClaimIsRun(f: Foreign, c: Context, db: Db, users: seq<ImportUser>, w: WorkerId, at: nat -> int)
    ensures var acts := [Enqueue(Upload(f, c, db, users, at)), Claim(w, 0)];
            && Possible(START, acts) && AtWork(After(START, acts), w, 0)
            && After(START, acts).jobs == map[0 := Queued(f, c, db, users, w, 0, at)]
  {
    var job := Upload(f, c, db, users, at);
    NewJobIsFresh(c.scope, Document(users, c.updateExisting), RunAll(f, c, true, db, users, at).rows);
    NoVerdictGivesUp(f, c, true, db, users, at, |users|);
    assert NobodyGaveUp(job);
    hide Upload, FreshJob, RunTo, NobodyGaveUp;
    FirstClaimIsRun(job, w);
  }

  lemma FirstClaimIsRun(job: Job, w: WorkerId)
    requires FreshJob(job) && NobodyGaveUp(job)
    ensures var acts := [Enqueue(job), Claim(w, 0)];
            && Possible(START, acts) && AtWork(After(START, acts), w, 0)
            && After(START, acts).jobs == map[0 := ClaimJob(job, w, 0)]
  {
    assert job.status == Pending;
    hide FreshJob, NobodyGaveUp, SettledRows;
    TwoSteps(START, Enqueue(job), Claim(w, 0));
    assert After(START, [Enqueue(job), Claim(w, 0)]).jobs == map[0 := ClaimJob(job, w, 0)];
  }

  /**
   Enqueueing a document and draining it is a run of the protocol from its start, and leaves the
   job completed with the report and the counts of committing the document directly.
   */
  lemma CommitIsRun(
    f: Foreign, c: Context, db: Db, users: seq<ImportUser>, w: WorkerId, at: nat -> int, at': nat -> int
  ) returns (acts: seq<Action>)
    ensures Possible(START, acts) && 0 in After(START, acts).jobs
    ensures var job := After(START, acts).jobs[0];
            var commit := RunAll(f, c, false, db, users, at');
            && job.status == Completed && |job.rows| == |users|
            && (forall i :: 0 <= i < |users| ==> Reports(job.rows[i], commit.rows[i]))
            && job.created == Tally(commit.rows, Create) && job.updated == Tally(commit.rows, Update)
            && job.skipped == Tally(commit.rows, Skip) && job.rejected == Tally(commit.rows, Reject)
            && job.processed == job.total == |users|
  {
    var job := Queued(f, c, db, users, w, 0, at);
    var claim := [Enqueue(Upload(f, c, db, users, at)), Claim(w, 0)];
    ClaimIsRun(f, c, db, users, w, at);
    QueueThenDrainIsCommit(f, c, db, users, w, 0, at, at');
    hide Next, Enabled, Upload, Queued, Applicable, DrainTo, RunTo;
    var s := After(START, claim);
    var drain := DrainIsRun(f, c, w, s, 0, db, at, |users|);
    var t := After(s, drain);
    FinishIsRun(t, w, 0);
    RunsCompose(START, claim, drain);
    RunsCompose(START, claim + drain, [Read(w), Finish(w)]);
    acts := claim + drain + [Read(w), Finish(w)];
  }
}
