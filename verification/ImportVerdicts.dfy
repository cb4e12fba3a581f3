/**
 Where the verdicts of a job's rows come from, over every run: the dry run that enqueued it, an
 application, or five applications that failed.
 */
module ImportVerdicts {
  import opened Prelude
  import opened UserImport
  import opened ImportQueue
  import opened ImportProtocol
  import opened ImportRuns
  import opened ImportRetry

  /** A failed application of the row: what the attempts of the row are to count. */
  predicate FailsAt(s: State, a: Action, j: Id, row: nat)
    requires Enabled(s, a)
  {
    a.Infra? && AtRow(PhaseOf(s, a.w), j, row)
  }

  /** The verdict a step passes on the row: of the dry run behind an upload, or of an application. */
  function VerdictAt(s: State, a: Action, j: Id, row: nat): set<(Outcome, Reason)>
    requires Enabled(s, a)
  {
    match a
    case Judge(w, outcome, reason) => if AtRow(PhaseOf(s, w), j, row) then {(outcome, reason)} else {}
    case Enqueue(job) =>
      if j == s.nextJob && row < |job.rows| && job.rows[row].status.Settled?
      then {(job.rows[row].status.outcome, job.rows[row].reason)}
      else {}
    case _ => {}
  }

  function Failures(s: State, acts: seq<Action>, j: Id, row: nat): nat
    requires Possible(s, acts)
    decreases |acts|
  {
    if acts == [] then 0
    else (if FailsAt(s, acts[0], j, row) then 1 else 0) + Failures(Next(s, acts[0]), acts[1..], j, row)
  }

  function Verdicts(s: State, acts: seq<Action>, j: Id, row: nat): set<(Outcome, Reason)>
    requires Possible(s, acts)
    decreases |acts|
  {
    if acts == [] then {}
    else VerdictAt(s, acts[0], j, row) + Verdicts(Next(s, acts[0]), acts[1..], j, row)
  }

  /** A verdict that was passed on the row, or its fifth failure or a later one. */
  predicate Earned(o: Outcome, reason: Reason, failures: nat, passed: set<(Outcome, Reason)>) {
    if reason.GaveUp? then o == Reject && 5 <= reason.attempts <= failures else (o, reason) in passed
  }

  function UnjudgedWorkers(s: State, j: Id, row: nat): set<WorkerId> {
    set w | w in s.phases && s.phases[w].Unjudged? && AtRow(s.phases[w], j, row)
  }

  predicate PhaseEarned(p: Phase, failures: nat, passed: set<(Outcome, Reason)>) {
    && (p.HasRow? || p.Checked? ==> p.attempts <= failures)
    && (p.Judged? ==> Earned(p.outcome, p.reason, failures, passed))
  }

  predicate RowEarned(r: JobRow, unjudged: nat, failures: nat, passed: set<(Outcome, Reason)>) {
    && r.attempts + unjudged <= failures
    && (r.status.Settled? ==> Earned(r.status.outcome, r.reason, failures, passed))
  }

  /** What is stored of the row, and what any worker holds of it, is accounted for by what happened to it. */
  ghost predicate History(s: State, j: Id, row: nat, failures: nat, passed: set<(Outcome, Reason)>) {
    && (forall w :: w in s.phases && AtRow(s.phases[w], j, row) ==> PhaseEarned(s.phases[w], failures, passed))
    && (j in s.jobs && row < |s.jobs[j].rows| ==>
          RowEarned(s.jobs[j].rows[row], |UnjudgedWorkers(s, j, row)|, failures, passed))
  }

  predicate MovesNobody(a: Action) {
    a.Tick? || a.Enqueue? || a.Cancel? || a.ClearCancelled? || a.Sweep? || a.Renew? || a.NoticeLost?
  }

  lemma OthersStay(s: State, a: Action, v: WorkerId)
    requires Enabled(s, a) && (MovesNobody(a) || a.w != v)
    ensures PhaseOf(Next(s, a), v) == PhaseOf(s, v)
  {
    hide CancelJob, RenewLease, ClaimJob, CountFailure, RecordOutcome, ReleaseJob, CompleteJob, FailJob, ClearCredentials;
    hide CountProgress, FreshJob, SettledRows, NobodyGaveUp, Claimable, RowClaimable, NextRow;
  }

  /** The worker of a step moves as its own position says; nobody else moves. */
  lemma PositionEarned(s: State, a: Action, j: Id, row: nat, failures: nat, passed: set<(Outcome, Reason)>, w: WorkerId)
    requires Enabled(s, a) && History(s, j, row, failures, passed)
    requires AtRow(PhaseOf(Next(s, a), w), j, row)
    ensures var failures' := failures + if FailsAt(s, a, j, row) then 1 else 0;
            PhaseEarned(PhaseOf(Next(s, a), w), failures', passed + VerdictAt(s, a, j, row))
  {
    if MovesNobody(a) || a.w != w {
      OthersStay(s, a, w);
      hide Next;
      assert PhaseEarned(PhaseOf(s, w), failures, passed);
    } else {
      MoverEarned(s, a, j, row, failures, passed);
    }
  }

  lemma MoverEarned(s: State, a: Action, j: Id, row: nat, failures: nat, passed: set<(Outcome, Reason)>)
    requires Enabled(s, a) && History(s, j, row, failures, passed) && !MovesNobody(a)
    requires AtRow(PhaseOf(Next(s, a), a.w), j, row)
    ensures var failures' := failures + if FailsAt(s, a, j, row) then 1 else 0;
            PhaseEarned(PhaseOf(Next(s, a), a.w), failures', passed + VerdictAt(s, a, j, row))
  {
    var p := PhaseOf(s, a.w);
    assert AtRow(p, j, row) ==> PhaseEarned(p, failures, passed);
    if j in s.jobs && row < |s.jobs[j].rows| {
      assert s.jobs[j].rows[row].attempts <= failures;
    }
    hide CancelJob, RenewLease, ClaimJob, CountFailure, RecordOutcome, ReleaseJob, CompleteJob, FailJob, ClearCredentials;
    hide CountProgress, FreshJob, SettledRows, NobodyGaveUp, Claimable, RowClaimable, History;
  }

  /** The unjudged workers at a row: one more after its failure, one less after that is counted. */
  lemma UnjudgedStep(s: State, a: Action, j: Id, row: nat)
    requires Enabled(s, a)
    ensures var x, y := UnjudgedWorkers(s, j, row), UnjudgedWorkers(Next(s, a), j, row);
            && (FailsAt(s, a, j, row) ==> y <= x + {a.w})
            && (!FailsAt(s, a, j, row) ==> y <= x)
            && (a.CountAttempt? && AtRow(PhaseOf(s, a.w), j, row) ==> a.w in x && y <= x - {a.w})
  {
    hide CancelJob, RenewLease, ClaimJob, CountFailure, RecordOutcome, ReleaseJob, CompleteJob, FailJob, ClearCredentials;
    hide CountProgress, NextRow, RowClaimable, FreshJob, SettledRows, NobodyGaveUp;
  }

  lemma UnjudgedCount(s: State, a: Action, j: Id, row: nat)
    requires Enabled(s, a)
    ensures var x, y := |UnjudgedWorkers(s, j, row)|, |UnjudgedWorkers(Next(s, a), j, row)|;
            && y <= x + (if FailsAt(s, a, j, row) then 1 else 0)
            && (a.CountAttempt? && AtRow(PhaseOf(s, a.w), j, row) ==> y + 1 <= x)
  {
    var x, y := UnjudgedWorkers(s, j, row), UnjudgedWorkers(Next(s, a), j, row);
    UnjudgedStep(s, a, j, row);
    hide Next, UnjudgedWorkers;
    if FailsAt(s, a, j, row) {
      SubsetIsSmaller(y, x + {a.w});
    } else {
      SubsetIsSmaller(y, x);
      if a.CountAttempt? && AtRow(PhaseOf(s, a.w), j, row) {
        SubsetIsSmaller(y, x - {a.w});
      }
    }
  }

  lemma {:induction false} SubsetIsSmaller<T>(a: set<T>, b: set<T>)
    requires a <= b
    ensures |a| <= |b|
  {
    if a != {} {
      var x :| x in a;
      SubsetIsSmaller(a - {x}, b - {x});
    }
  }

  /** A statement leaves the row as it is, counts a failure against it, or records a verdict held in memory. */
  lemma RowStep(s: State, a: Action, j: Id, row: nat)
    requires Enabled(s, a) && j in s.jobs && row < |s.jobs[j].rows| && j in Next(s, a).jobs && j < s.nextJob
    ensures |Next(s, a).jobs[j].rows| == |s.jobs[j].rows|
    ensures var r, r' := s.jobs[j].rows[row], Next(s, a).jobs[j].rows[row];
            if a.CountAttempt? && AtRow(PhaseOf(s, a.w), j, row) then r' == r.(attempts := r.attempts + 1)
            else if a.Record? && AtRow(PhaseOf(s, a.w), j, row) then
              r'.attempts == r.attempts && r'.status == Settled(PhaseOf(s, a.w).outcome) && r'.reason == PhaseOf(s, a.w).reason
            else r'.attempts == r.attempts && r'.status == r.status && r'.reason == r.reason
  {
    JobStepIs(s, a, j);
    hide Next, Enabled, FreshJob, NobodyGaveUp, Claimable, NextRow, RowClaimable;
  }

  lemma RowEarnedStep(s: State, a: Action, j: Id, row: nat, failures: nat, passed: set<(Outcome, Reason)>)
    requires Enabled(s, a) && Inv(s) && History(s, j, row, failures, passed)
    requires j in s.jobs && j in Next(s, a).jobs && row < |Next(s, a).jobs[j].rows|
    ensures var failures' := failures + if FailsAt(s, a, j, row) then 1 else 0;
            RowEarned(Next(s, a).jobs[j].rows[row], |UnjudgedWorkers(Next(s, a), j, row)|, failures',
                      passed + VerdictAt(s, a, j, row))
  {
    SameRowCount(s, a, j);
    RowStep(s, a, j, row);
    UnjudgedCount(s, a, j, row);
    var counts := a.CountAttempt? && AtRow(PhaseOf(s, a.w), j, row);
    var records := a.Record? && AtRow(PhaseOf(s, a.w), j, row);
    if records {
      assert PhaseEarned(s.phases[a.w], failures, passed);
    }
    RowEarnedAfter(s.jobs[j].rows[row], Next(s, a).jobs[j].rows[row], |UnjudgedWorkers(s, j, row)|,
                   |UnjudgedWorkers(Next(s, a), j, row)|, failures, FailsAt(s, a, j, row), passed,
                   VerdictAt(s, a, j, row), counts, records);
    hide *;
  }

  lemma RowEarnedAfter(
    r: JobRow, r': JobRow, unjudged: nat, unjudged': nat, failures: nat, fails: bool, passed: set<(Outcome, Reason)>,
    more: set<(Outcome, Reason)>, counts: bool, records: bool)
    requires RowEarned(r, unjudged, failures, passed)
    requires unjudged' <= unjudged + (if fails then 1 else 0) && (counts ==> unjudged' + 1 <= unjudged)
    requires r'.attempts == r.attempts + if counts then 1 else 0
    requires records ==> r'.status.Settled? && Earned(r'.status.outcome, r'.reason, failures, passed)
    requires !records ==> r'.status == r.status && r'.reason == r.reason
    ensures RowEarned(r', unjudged', failures + if fails then 1 else 0, passed + more)
  {
  }

  lemma SameRowCount(s: State, a: Action, j: Id)
    requires Enabled(s, a) && Inv(s) && j in s.jobs && j in Next(s, a).jobs
    ensures |Next(s, a).jobs[j].rows| == |s.jobs[j].rows| && j < s.nextJob
  {
    JobStepIs(s, a, j);
    KeepsItsRows(s, a, j);
    hide Next;
  }

  lemma KeepsItsRows(s: State, a: Action, j: Id)
    requires Enabled(s, a) && j in s.jobs
    ensures |JobStep(s, a, j).rows| == |s.jobs[j].rows|
  {
  }

  /** An uploaded job carries its refusals, no attempts, and nobody is at it. */
  lemma UploadEarned(s: State, a: Action, j: Id, row: nat, failures: nat, passed: set<(Outcome, Reason)>)
    requires Enabled(s, a) && Inv(s) && j !in s.jobs && j in Next(s, a).jobs && row < |Next(s, a).jobs[j].rows|
    ensures RowEarned(Next(s, a).jobs[j].rows[row], |UnjudgedWorkers(Next(s, a), j, row)|, failures,
                      passed + VerdictAt(s, a, j, row))
  {
    EnqueuedFresh(s, a, j);
    assert Next(s, a).phases == s.phases && j == s.nextJob;
    assert FreshJob(a.job) && NobodyGaveUp(a.job);
    hide Next, FreshJob, NobodyGaveUp, SettledRows, Enabled;
    forall w
      ensures w !in UnjudgedWorkers(s, j, row)
    {
    }
    assert UnjudgedWorkers(s, j, row) == {};
    assert UnjudgedWorkers(Next(s, a), j, row) == UnjudgedWorkers(s, j, row);
  }

  lemma HistoryStep(s: State, a: Action, j: Id, row: nat, failures: nat, passed: set<(Outcome, Reason)>)
    requires Enabled(s, a) && Inv(s) && History(s, j, row, failures, passed)
    ensures var failures' := failures + if FailsAt(s, a, j, row) then 1 else 0;
            History(Next(s, a), j, row, failures', passed + VerdictAt(s, a, j, row))
  {
    var t := Next(s, a);
    var failures' := failures + if FailsAt(s, a, j, row) then 1 else 0;
    var passed' := passed + VerdictAt(s, a, j, row);
    forall w | w in t.phases && AtRow(t.phases[w], j, row)
      ensures PhaseEarned(t.phases[w], failures', passed')
    {
      PositionEarned(s, a, j, row, failures, passed, w);
    }
    hide Next, PhaseEarned, RowEarned, UnjudgedWorkers, VerdictAt;
    if j in t.jobs && row < |t.jobs[j].rows| {
      if j in s.jobs {
        RowEarnedStep(s, a, j, row, failures, passed);
      } else {
        UploadEarned(s, a, j, row, failures, passed);
        EnqueuedFresh(s, a, j);
      }
    }
  }

  lemma {:induction false} RunKeepsHistory(
    s: State, acts: seq<Action>, j: Id, row: nat, failures: nat, passed: set<(Outcome, Reason)>)
    requires Possible(s, acts) && Inv(s) && History(s, j, row, failures, passed)
    ensures History(After(s, acts), j, row, failures + Failures(s, acts, j, row), passed + Verdicts(s, acts, j, row))
    decreases |acts|
  {
    hide Next, Enabled, Inv, History, VerdictAt, FailsAt;
    if acts == [] {
      assert passed + {} == passed;
    } else {
      var a := acts[0];
      var failures' := failures + if FailsAt(s, a, j, row) then 1 else 0;
      var passed' := passed + VerdictAt(s, a, j, row);
      StepKeepsInv(s, a);
      HistoryStep(s, a, j, row, failures, passed);
      RunKeepsHistory(Next(s, a), acts[1..], j, row, failures', passed');
      assert passed + Verdicts(s, acts, j, row) == passed' + Verdicts(Next(s, a), acts[1..], j, row);
    }
  }

  /**
   Whatever the workers do: a row is given up only as rejected and only once five of its
   applications have failed, and every other verdict it carries was passed on it.
   */
  lemma VerdictsAreEarned(acts: seq<Action>, j: Id, row: nat)
    requires Possible(START, acts)
    requires j in After(START, acts).jobs && row < |After(START, acts).jobs[j].rows|
    ensures var r := After(START, acts).jobs[j].rows[row];
            && r.attempts <= Failures(START, acts, j, row)
            && (r.status.Settled? && r.reason.GaveUp? ==>
                  r.status.outcome == Reject && 5 <= r.reason.attempts <= Failures(START, acts, j, row))
            && (r.status.Settled? && !r.reason.GaveUp? ==>
                  (r.status.outcome, r.reason) in Verdicts(START, acts, j, row))
  {
    assert Inv(START) && History(START, j, row, 0, {});
    RunKeepsHistory(START, acts, j, row, 0, {});
    hide Failures, Verdicts, UnjudgedWorkers;
  }

  lemma {:induction false} FailuresAreApplications(s: State, acts: seq<Action>, j: Id, row: nat)
    requires Possible(s, acts)
    ensures Failures(s, acts, j, row) <= RowApplications(s, acts, j, row)
    decreases |acts|
  {
    hide Next, Enabled;
    if acts != [] {
      FailuresAreApplications(Next(s, acts[0]), acts[1..], j, row);
    }
  }

  /** With one worker at a time, exactly five: every application of a row that is given up failed. */
  lemma GivenUpAfterFive(acts: seq<Action>, j: Id, row: nat)
    requires Possible(START, acts) && SerialRun(START, acts)
    requires j in After(START, acts).jobs && row < |After(START, acts).jobs[j].rows|
    requires After(START, acts).jobs[j].rows[row].status.Settled?
    requires After(START, acts).jobs[j].rows[row].reason.GaveUp?
    ensures After(START, acts).jobs[j].rows[row].reason == GaveUp(5)
    ensures Failures(START, acts, j, row) == RowApplications(START, acts, j, row) == 5
  {
    VerdictsAreEarned(acts, j, row);
    FailuresAreApplications(START, acts, j, row);
    EveryRowAtMostFive(acts, j, row);
  }
}
