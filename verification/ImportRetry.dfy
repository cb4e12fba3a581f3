/**
 The retry bound: while one worker runs at a time and its bookkeeping writes succeed, storage
 failures cost each row at most five applications.
 */
module ImportRetry {
  import opened Prelude
  import opened UserImport
  import opened ImportQueue
  import opened ImportProtocol
  import opened ImportRuns

  /** One worker at a time, no crash, no failed bookkeeping write. Applying a row may still fail. */
  predicate Serial(s: State, a: Action)
    requires Enabled(s, a)
  {
    match a
    case Claim(w, _) => forall v :: v in s.phases && v != w ==> s.phases[v].Idle?
    case ProgressError(_) => false
    case Crash(_) => false
    case _ => true
  }

  predicate SerialRun(s: State, acts: seq<Action>)
    requires Possible(s, acts)
    decreases |acts|
  {
    acts == [] || (Serial(s, acts[0]) && SerialRun(Next(s, acts[0]), acts[1..]))
  }

  predicate WaitsAt(job: Job, row: nat) {
    row < |job.rows| && job.rows[row].status.Waiting?
  }

  /** What a lone worker remembers about its row is what the table says. */
  predicate Remembers(p: Phase, job: Job) {
    && (HasARow(p) && !p.Recorded? ==> WaitsAt(job, p.row))
    && (p.HasRow? || p.Checked? ==> p.attempts == job.rows[p.row].attempts)
    && (p.Unjudged? ==> job.rows[p.row].attempts + 1 < MAX_ROW_ATTEMPTS)
  }

  predicate WithinBound(job: Job) {
    forall i :: 0 <= i < |job.rows| && job.rows[i].status.Waiting? ==> job.rows[i].attempts < MAX_ROW_ATTEMPTS
  }

  ghost predicate SerialInv(s: State) {
    && (forall j :: j in s.jobs ==> j < s.nextJob && WithinBound(s.jobs[j]))
    && (forall v, w :: v in s.phases && w in s.phases && !s.phases[v].Idle? && !s.phases[w].Idle? ==> v == w)
    && (forall w :: w in s.phases && !s.phases[w].Idle? ==> s.phases[w].job < s.nextJob)
    && (forall w :: w in s.phases && !s.phases[w].Idle? && s.phases[w].job in s.jobs ==>
          Remembers(s.phases[w], s.jobs[s.phases[w].job]))
  }

  /** A statement on a job no worker is at changes nothing a worker has read there. */
  predicate SameProgress(a: Job, b: Job) {
    && |a.rows| == |b.rows|
    && forall i :: 0 <= i < |a.rows| ==> a.rows[i].status == b.rows[i].status && a.rows[i].attempts == b.rows[i].attempts
  }

  lemma OtherStatementsKeepProgress(s: State, a: Action, j: Id)
    requires Enabled(s, a) && j in s.jobs && !a.Record? && !a.CountAttempt?
    ensures SameProgress(s.jobs[j], JobStep(s, a, j))
  {
  }

  lemma KeptProgressIsRemembered(p: Phase, job: Job, job': Job)
    requires SameProgress(job, job')
    ensures Remembers(p, job) ==> Remembers(p, job')
    ensures WithinBound(job) ==> WithinBound(job')
  {
  }

  /** The position a worker takes by a step, when the step is not one of the two row writes. */
  lemma PhaseStep(s: State, a: Action, w: WorkerId)
    requires SerialInv(s) && Enabled(s, a) && Serial(s, a) && !a.Record? && !a.CountAttempt?
    ensures var p := PhaseOf(Next(s, a), w);
            && (p == PhaseOf(s, w) || (!a.Tick? && !a.Enqueue? && !a.Cancel? && !a.ClearCancelled? && !a.Sweep? && a.w == w))
            && (!p.Idle? ==> p.job < s.nextJob && (p.job in s.jobs ==> Remembers(p, s.jobs[p.job])))
  {
    hide CancelJob, RenewLease, ClaimJob, CountFailure, RecordOutcome, ReleaseJob, CompleteJob, FailJob, ClearCredentials;
    hide CountProgress, WithinBound, FreshJob, NobodyGaveUp, SettledRows, Claimable;
  }

  /** Who acts: nobody becomes busy but a worker that claims while all others are idle. */
  lemma OnlyOneBusy(s: State, a: Action, v: WorkerId, w: WorkerId)
    requires SerialInv(s) && Enabled(s, a) && Serial(s, a)
    requires !PhaseOf(Next(s, a), v).Idle? && !PhaseOf(Next(s, a), w).Idle?
    ensures v == w
  {
    hide CancelJob, RenewLease, ClaimJob, CountFailure, RecordOutcome, ReleaseJob, CompleteJob, FailJob, ClearCredentials;
    hide CountProgress, WithinBound, Remembers, NextRow, RowClaimable, FreshJob, NobodyGaveUp, SettledRows;
  }

  lemma JobsWithinBound(s: State, a: Action, j: Id)
    requires SerialInv(s) && Enabled(s, a) && Serial(s, a) && j in Next(s, a).jobs
    ensures j < Next(s, a).nextJob && WithinBound(Next(s, a).jobs[j])
  {
    NextJobGrows(s, a);
    if j in s.jobs {
      hide Next;
      JobStepIs(s, a, j);
      if a.CountAttempt? {
        var p := PhaseOf(s, a.w);
        assert p.job == j ==> Remembers(p, s.jobs[j]);
      } else if !a.Record? {
        OtherStatementsKeepProgress(s, a, j);
        KeptProgressIsRemembered(Idle, s.jobs[j], JobStep(s, a, j));
      }
    } else {
      EnqueuedFresh(s, a, j);
    }
  }

  lemma EnqueuedFresh(s: State, a: Action, j: Id)
    requires Enabled(s, a) && j !in s.jobs && j in Next(s, a).jobs
    ensures a.Enqueue? && j == s.nextJob && Next(s, a).jobs[j] == a.job
  {
  }

  lemma BusyRemembers(s: State, a: Action, w: WorkerId)
    requires SerialInv(s) && Enabled(s, a) && Serial(s, a)
    requires !PhaseOf(Next(s, a), w).Idle?
    ensures var p := PhaseOf(Next(s, a), w);
            p.job < s.nextJob && (p.job in Next(s, a).jobs ==> Remembers(p, Next(s, a).jobs[p.job]))
  {
    var p := PhaseOf(Next(s, a), w);
    if a.Record? || a.CountAttempt? {
      RowWriteRemembers(s, a, w);
    } else {
      PhaseStep(s, a, w);
      if p.job in s.jobs {
        hide Next;
        JobStepIs(s, a, p.job);
        OtherStatementsKeepProgress(s, a, p.job);
        KeptProgressIsRemembered(p, s.jobs[p.job], JobStep(s, a, p.job));
      } else {
        if p.job in Next(s, a).jobs {
          EnqueuedFresh(s, a, p.job);
        }
      }
    }
  }

  lemma RowWriteRemembers(s: State, a: Action, w: WorkerId)
    requires SerialInv(s) && Enabled(s, a) && Serial(s, a) && (a.Record? || a.CountAttempt?)
    requires !PhaseOf(Next(s, a), w).Idle?
    ensures var p := PhaseOf(Next(s, a), w);
            p.job < s.nextJob && (p.job in Next(s, a).jobs ==> Remembers(p, Next(s, a).jobs[p.job]))
  {
  }

  lemma SerialStepKeepsInv(s: State, a: Action)
    requires SerialInv(s) && Enabled(s, a) && Serial(s, a)
    ensures SerialInv(Next(s, a))
  {
    var t := Next(s, a);
    NextJobGrows(s, a);
    hide Next, Enabled, Serial, Remembers, WithinBound;
    forall j | j in t.jobs
      ensures j < t.nextJob && WithinBound(t.jobs[j])
    {
      JobsWithinBound(s, a, j);
    }
    forall v, w | v in t.phases && w in t.phases && !t.phases[v].Idle? && !t.phases[w].Idle?
      ensures v == w
    {
      OnlyOneBusy(s, a, v, w);
    }
    forall w | w in t.phases && !t.phases[w].Idle?
      ensures t.phases[w].job < t.nextJob
      ensures t.phases[w].job in t.jobs ==> Remembers(t.phases[w], t.jobs[t.phases[w].job])
    {
      BusyRemembers(s, a, w);
    }
  }

  // ---------------------------------------------------------------------------------------
  // The measure
  // ---------------------------------------------------------------------------------------

  predicate AtRow(p: Phase, j: Id, row: nat) { HasARow(p) && p.job == j && p.row == row }

  predicate JudgedAt(s: State, j: Id, row: nat) {
    exists w :: w in s.phases && s.phases[w].Judged? && AtRow(s.phases[w], j, row)
  }

  predicate UnjudgedAt(s: State, j: Id, row: nat) {
    exists w :: w in s.phases && s.phases[w].Unjudged? && AtRow(s.phases[w], j, row)
  }

  predicate CheckedAt(s: State, j: Id, row: nat) {
    exists w :: w in s.phases && s.phases[w].Checked? && AtRow(s.phases[w], j, row)
  }

  /** Applications row `row` of job `j` can still cost: five less the attempts, for as long as it waits. */
  function Budget(s: State, j: Id, row: nat): int {
    if j >= s.nextJob then MAX_ROW_ATTEMPTS
    else if j !in s.jobs then if CheckedAt(s, j, row) then 1 else 0
    else if !WaitsAt(s.jobs[j], row) || JudgedAt(s, j, row) then 0
    else MAX_ROW_ATTEMPTS - s.jobs[j].rows[row].attempts - if UnjudgedAt(s, j, row) then 1 else 0
  }

  predicate Applies(s: State, a: Action, j: Id, row: nat)
    requires Enabled(s, a)
  {
    (a.Judge? || a.Infra?) && AtRow(PhaseOf(s, a.w), j, row)
  }

  lemma BudgetIsNat(s: State, j: Id, row: nat)
    requires SerialInv(s)
    ensures 0 <= Budget(s, j, row) <= MAX_ROW_ATTEMPTS
  {
  }

  /** Every application of a row takes one from its budget, and nothing gives any back. */
  lemma BudgetStep(s: State, a: Action, j: Id, row: nat)
    requires SerialInv(s) && Enabled(s, a) && Serial(s, a)
    ensures Budget(Next(s, a), j, row) + (if Applies(s, a, j, row) then 1 else 0) <= Budget(s, j, row)
  {
    var t := Next(s, a);
    SerialStepKeepsInv(s, a);
    BudgetIsNat(s, j, row);
    BudgetIsNat(t, j, row);
    NextJobGrows(s, a);
    if j < s.nextJob {
      if j !in t.jobs {
        SweptSpends(s, a, j, row);
      } else {
        PresentBefore(s, a, j);
        JobStepIs(s, a, j);
        if a.Judge? || a.Infra? {
          ApplyingSpends(s, a, j, row);
        } else if a.CountAttempt? || a.Record? {
          RowWriteSpends(s, a, j, row);
        } else {
          OtherStepsSpendNothing(s, a, j, row);
        }
      }
    }
  }

  lemma PresentBefore(s: State, a: Action, j: Id)
    requires Enabled(s, a) && j < s.nextJob && j in Next(s, a).jobs
    ensures j in s.jobs
  {
    if j !in s.jobs {
      GoneStaysGone(s, a, j);
    }
  }

  /** A worker past the check still applies its row once, even when the job has been swept meanwhile. */
  lemma SweptSpends(s: State, a: Action, j: Id, row: nat)
    requires SerialInv(s) && Enabled(s, a) && Serial(s, a) && j < s.nextJob && j !in Next(s, a).jobs
    ensures Budget(Next(s, a), j, row) + (if Applies(s, a, j, row) then 1 else 0) <= Budget(s, j, row)
  {
    NextJobGrows(s, a);
    if j in s.jobs {
      SweepSpends(s, a, j, row);
    } else {
      GoneSpends(s, a, j, row);
    }
  }

  lemma SweepSpends(s: State, a: Action, j: Id, row: nat)
    requires SerialInv(s) && Enabled(s, a) && j < s.nextJob <= Next(s, a).nextJob && j in s.jobs && j !in Next(s, a).jobs
    ensures Budget(Next(s, a), j, row) + (if Applies(s, a, j, row) then 1 else 0) <= Budget(s, j, row)
  {
    JobStepIs(s, a, j);
    assert a == Sweep(j) && Next(s, a).phases == s.phases;
    hide Next;
    if CheckedAt(s, j, row) {
      var w :| w in s.phases && s.phases[w].Checked? && AtRow(s.phases[w], j, row);
      assert Remembers(s.phases[w], s.jobs[j]);
      assert !JudgedAt(s, j, row) && !UnjudgedAt(s, j, row);
    } else {
      BudgetIsNat(s, j, row);
    }
  }

  lemma GoneSpends(s: State, a: Action, j: Id, row: nat)
    requires SerialInv(s) && Enabled(s, a) && j < s.nextJob <= Next(s, a).nextJob && j !in s.jobs && j !in Next(s, a).jobs
    ensures Budget(Next(s, a), j, row) + (if Applies(s, a, j, row) then 1 else 0) <= Budget(s, j, row)
  {
    var t := Next(s, a);
    if Applies(s, a, j, row) {
      AppliedIsChecked(s, a, j, row);
    } else if CheckedAt(t, j, row) {
      var w :| w in t.phases && t.phases[w].Checked? && AtRow(t.phases[w], j, row);
      CheckedBefore(s, a, w);
      assert CheckedAt(s, j, row);
    }
  }

  lemma AppliedIsChecked(s: State, a: Action, j: Id, row: nat)
    requires SerialInv(s) && Enabled(s, a) && Applies(s, a, j, row)
    ensures CheckedAt(s, j, row) && !CheckedAt(Next(s, a), j, row)
  {
  }

  lemma CheckedBefore(s: State, a: Action, w: WorkerId)
    requires Enabled(s, a) && PhaseOf(Next(s, a), w).Checked? && PhaseOf(Next(s, a), w).job !in s.jobs
    ensures PhaseOf(s, w) == PhaseOf(Next(s, a), w)
  {
    hide CancelJob, RenewLease, ClaimJob, CountFailure, RecordOutcome, ReleaseJob, CompleteJob, FailJob, ClearCredentials;
    hide CountProgress, NextRow, FreshJob, NobodyGaveUp, Claimable, SettledRows;
  }

  lemma ApplyingSpends(s: State, a: Action, j: Id, row: nat)
    requires SerialInv(s) && Enabled(s, a) && (a.Judge? || a.Infra?) && j in s.jobs
    ensures Budget(Next(s, a), j, row) + (if Applies(s, a, j, row) then 1 else 0) <= Budget(s, j, row)
  {
    var t := Next(s, a);
    var w := a.w;
    assert t.jobs == s.jobs;
    assert forall v :: v in s.phases && v != w ==> t.phases[v] == s.phases[v] && s.phases[v].Idle?;
    assert Remembers(s.phases[w], s.jobs[j]) || s.phases[w].job != j;
    assert !JudgedAt(s, j, row) && !UnjudgedAt(s, j, row);
    if Applies(s, a, j, row) {
      assert AtRow(t.phases[w], j, row);
    }
  }

  lemma RowWriteSpends(s: State, a: Action, j: Id, row: nat)
    requires SerialInv(s) && Enabled(s, a) && (a.CountAttempt? || a.Record?) && j in s.jobs
    ensures Budget(Next(s, a), j, row) <= Budget(s, j, row)
  {
  }

  lemma OtherStepsSpendNothing(s: State, a: Action, j: Id, row: nat)
    requires SerialInv(s) && Enabled(s, a) && Serial(s, a) && j in s.jobs && j in Next(s, a).jobs
    requires !a.Judge? && !a.Infra? && !a.CountAttempt? && !a.Record?
    ensures Budget(Next(s, a), j, row) <= Budget(s, j, row)
  {
    var t := Next(s, a);
    JobStepIs(s, a, j);
    OtherStatementsKeepProgress(s, a, j);
    NextJobGrows(s, a);
    JudgedStaysAt(s, a, j, row);
  }

  lemma JudgedStaysAt(s: State, a: Action, j: Id, row: nat)
    requires Enabled(s, a) && Serial(s, a) && !a.Judge? && !a.Infra? && !a.CountAttempt? && !a.Record?
    ensures JudgedAt(s, j, row) ==> JudgedAt(Next(s, a), j, row)
    ensures UnjudgedAt(s, j, row) ==> UnjudgedAt(Next(s, a), j, row)
  {
    var t := Next(s, a);
    forall w | w in s.phases && (s.phases[w].Judged? || s.phases[w].Unjudged?)
      ensures w in t.phases && t.phases[w] == s.phases[w]
    {
      StaysJudged(s, a, w);
    }
  }

  lemma StaysJudged(s: State, a: Action, w: WorkerId)
    requires Enabled(s, a) && Serial(s, a) && !a.Judge? && !a.Infra? && !a.CountAttempt? && !a.Record?
    requires w in s.phases && (s.phases[w].Judged? || s.phases[w].Unjudged?)
    ensures w in Next(s, a).phases && Next(s, a).phases[w] == s.phases[w]
  {
    hide CancelJob, RenewLease, ClaimJob, CountFailure, RecordOutcome, ReleaseJob, CompleteJob, FailJob, ClearCredentials;
    hide CountProgress, NextRow, RowClaimable, FreshJob, NobodyGaveUp;
  }

  // ---------------------------------------------------------------------------------------
  // The bound
  // ---------------------------------------------------------------------------------------

  function RowApplications(s: State, acts: seq<Action>, j: Id, row: nat): nat
    requires Possible(s, acts)
    decreases |acts|
  {
    if acts == [] then 0
    else (if Applies(s, acts[0], j, row) then 1 else 0) + RowApplications(Next(s, acts[0]), acts[1..], j, row)
  }

  lemma {:induction false} ApplicationsWithinBudget(s: State, acts: seq<Action>, j: Id, row: nat)
    requires SerialInv(s) && Possible(s, acts) && SerialRun(s, acts)
    ensures RowApplications(s, acts, j, row) <= Budget(s, j, row)
    decreases |acts|
  {
    hide Next, Enabled, Serial, SerialInv, Applies, Budget;
    if acts == [] {
      BudgetIsNat(s, j, row);
    } else {
      SerialStepKeepsInv(s, acts[0]);
      BudgetStep(s, acts[0], j, row);
      ApplicationsWithinBudget(Next(s, acts[0]), acts[1..], j, row);
    }
  }

  /** Whatever storage failures occur, no row of any job is applied more than five times. */
  lemma EveryRowAtMostFive(acts: seq<Action>, j: Id, row: nat)
    requires Possible(START, acts) && SerialRun(START, acts)
    ensures RowApplications(START, acts, j, row) <= MAX_ROW_ATTEMPTS
  {
    ApplicationsWithinBudget(START, acts, j, row);
    BudgetIsNat(START, j, row);
  }

  function JobApplications(s: State, acts: seq<Action>, j: Id, n: nat): nat
    requires Possible(s, acts)
  {
    if n == 0 then 0 else JobApplications(s, acts, j, n - 1) + RowApplications(s, acts, j, n - 1)
  }

  /** So the first `n` rows of a job cost at most 5n applications between them. */
  lemma {:induction false} JobAtMostFivePerRow(acts: seq<Action>, j: Id, n: nat)
    requires Possible(START, acts) && SerialRun(START, acts)
    ensures JobApplications(START, acts, j, n) <= MAX_ROW_ATTEMPTS * n
  {
    if n > 0 {
      JobAtMostFivePerRow(acts, j, n - 1);
      EveryRowAtMostFive(acts, j, n - 1);
    }
  }
}
