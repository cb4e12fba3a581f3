/**
 What holds over whole runs of the import queue, whatever the workers, the clock, the operator and
 the storage do.
 */
module ImportRuns {
  import opened Prelude
  import opened Directory
  import opened UserImport
  import opened ImportQueue
  import opened ImportProtocol

  predicate Possible(s: State, acts: seq<Action>)
    decreases |acts|
  {
    acts == [] || (Enabled(s, acts[0]) && Possible(Next(s, acts[0]), acts[1..]))
  }

  function After(s: State, acts: seq<Action>): State
    requires Possible(s, acts)
    decreases |acts|
  {
    if acts == [] then s else After(Next(s, acts[0]), acts[1..])
  }

  const START := State(0, map[], 0, map[], {}, {}, map[])

  lemma {:induction false} RunKeepsInv(s: State, acts: seq<Action>)
    requires Inv(s) && Possible(s, acts)
    ensures Inv(After(s, acts))
    decreases |acts|
  {
    hide Next, Inv;
    if acts != [] {
      StepKeepsInv(s, acts[0]);
      RunKeepsInv(Next(s, acts[0]), acts[1..]);
    }
  }

  lemma {:induction false} IndicesBelow(n: nat, k: set<nat>)
    requires forall i :: i in k ==> i < n
    ensures |k| <= n
  {
    if n == 0 {
      assert k == {};
    } else {
      IndicesBelow(n - 1, k - {n - 1});
      assert k <= (k - {n - 1}) + {n - 1};
    }
  }

  /**
   Over every run: a completed job has no waiting row; processed_rows is the sum of the four counts
   and never exceeds the settled rows, hence never total_rows; no settled row holds a credential and
   no payload a plaintext.
   */
  lemma EveryRun(acts: seq<Action>, j: Id)
    requires Possible(START, acts) && j in After(START, acts).jobs
    ensures var job := After(START, acts).jobs[j];
            && (job.status == Completed ==> NoneWaiting(job))
            && job.processed == job.created + job.updated + job.skipped + job.rejected
            && job.processed <= |SettledRows(job)| <= job.total == |job.rows|
            && (forall i :: 0 <= i < |job.rows| ==> job.rows[i].payload.password == "")
            && (forall i :: 0 <= i < |job.rows| && job.rows[i].status.Settled? ==>
                  job.rows[i].plaintext.None? && job.rows[i].payload.passwordHash == "")
  {
    RunKeepsInv(START, acts);
    var s := After(START, acts);
    var job := s.jobs[j];
    IndicesBelow(|job.rows|, SettledRows(job));
    SubsetIsSmaller(s.counted[j], SettledRows(job));
  }

  // ---------------------------------------------------------------------------------------
  // No row is counted twice
  // ---------------------------------------------------------------------------------------

  /** The (job, row) a step adds to processed_rows, if it adds one. */
  function CountedBy(s: State, a: Action): Option<(Id, nat)>
    requires Enabled(s, a)
  {
    if a.Progress? && WorkerHolds(s, a.w, PhaseOf(s, a.w).job)
    then Some((PhaseOf(s, a.w).job, PhaseOf(s, a.w).row))
    else None
  }

  function CountEvents(s: State, acts: seq<Action>): seq<(Id, nat)>
    requires Possible(s, acts)
    decreases |acts|
  {
    if acts == [] then []
    else
      var rest := CountEvents(Next(s, acts[0]), acts[1..]);
      match CountedBy(s, acts[0])
      case None => rest
      case Some(e) => [e] + rest
  }

  /** Not counted yet: its job is still to come, or is there and has the row uncounted. */
  predicate Countable(s: State, e: (Id, nat)) {
    if e.0 in s.jobs then e.1 !in Counted(s, e.0) else e.0 >= s.nextJob
  }

  lemma CountableStep(s: State, a: Action, e: (Id, nat))
    requires Inv(s) && Enabled(s, a) && Countable(Next(s, a), e)
    ensures Countable(s, e)
    ensures CountedBy(s, a) != Some(e)
  {
    CountedStep(s, a);
    NextJobGrows(s, a);
    if e.0 in s.jobs {
      KnownBelow(s, e.0);
    } else if e.0 < s.nextJob {
      GoneStaysGone(s, a, e.0);
    }
    hide Next, Enabled, SettledRows, JobInv, PhaseInv;
  }

  lemma CountedOnce(s: State, a: Action)
    requires Inv(s) && Enabled(s, a) && CountedBy(s, a).Some?
    ensures Countable(s, CountedBy(s, a).value)
  {
  }

  lemma {:induction false} NoRowCountedTwice(s: State, acts: seq<Action>)
    requires Inv(s) && Possible(s, acts)
    ensures forall k :: 0 <= k < |CountEvents(s, acts)| ==> Countable(s, CountEvents(s, acts)[k])
    ensures forall k, l :: 0 <= k < l < |CountEvents(s, acts)| ==> CountEvents(s, acts)[k] != CountEvents(s, acts)[l]
    decreases |acts|
  {
    hide Next, Inv, Countable, Enabled;
    if acts != [] {
      var a := acts[0];
      var t := Next(s, a);
      StepKeepsInv(s, a);
      NoRowCountedTwice(t, acts[1..]);
      var rest := CountEvents(t, acts[1..]);
      forall k | 0 <= k < |rest|
        ensures Countable(s, rest[k]) && CountedBy(s, a) != Some(rest[k])
      {
        CountableStep(s, a, rest[k]);
      }
      if CountedBy(s, a).Some? {
        CountedOnce(s, a);
      }
    }
  }

  // ---------------------------------------------------------------------------------------
  // One job's view of a step
  // ---------------------------------------------------------------------------------------

  /** The statement a step runs against job `j`, which is no statement at all for most. */
  function JobStep(s: State, a: Action, j: Id): Job
    requires Enabled(s, a) && j in s.jobs
  {
    var job := s.jobs[j];
    match a
    case Cancel(k) => if k == j then CancelJob(job) else job
    case ClearCancelled(k) => if k == j then ClearCredentials(job) else job
    case Renew(w, k) => if k == j then RenewLease(job, w, s.now) else job
    case Claim(w, k) => if k == j then ClaimJob(job, w, s.now) else job
    case CountAttempt(w) => if PhaseOf(s, w).job == j then CountFailure(job, PhaseOf(s, w).row) else job
    case Record(w) =>
      var p := PhaseOf(s, w);
      if p.job == j then RecordOutcome(job, p.row, p.outcome, p.reason) else job
    case Progress(w) => if PhaseOf(s, w).job == j then CountProgress(job, w, PhaseOf(s, w).outcome) else job
    case Release(w) => if PhaseOf(s, w).job == j then ReleaseJob(job, w) else job
    case Finish(w) => if PhaseOf(s, w).job == j then CompleteJob(job, w) else job
    case Fail(w) => if PhaseOf(s, w).job == j then FailJob(job, w) else job
    case ClearFailed(w) => if PhaseOf(s, w).job == j then ClearCredentials(job) else job
    case _ => job
  }

  lemma JobStepIs(s: State, a: Action, j: Id)
    requires Enabled(s, a) && j in s.jobs && j < s.nextJob
    ensures j in Next(s, a).jobs ==> Next(s, a).jobs[j] == JobStep(s, a, j)
    ensures j !in Next(s, a).jobs ==> a == Sweep(j) && Finished(s.jobs[j])
  {
    hide CancelJob, RenewLease, ClaimJob, CountFailure, RecordOutcome, ReleaseJob, CompleteJob, FailJob, ClearCredentials;
  }

  /** Only what has ended is swept away. */
  lemma {:induction false} LeavesWhenFinished(s: State, acts: seq<Action>, j: Id) returns (before: seq<Action>)
    requires Inv(s) && Possible(s, acts) && j in s.jobs && j !in After(s, acts).jobs
    ensures before <= acts && Possible(s, before) && j in After(s, before).jobs && Finished(After(s, before).jobs[j])
    decreases |acts|
  {
    hide Next, Enabled, Inv;
    var t := Next(s, acts[0]);
    StepKeepsInv(s, acts[0]);
    if j in t.jobs {
      var rest := LeavesWhenFinished(t, acts[1..], j);
      before := [acts[0]] + rest;
      assert before[1..] == rest;
    } else {
      assert j < s.nextJob by {
        KnownBelow(s, j);
      }
      JobStepIs(s, acts[0], j);
      before := [];
    }
  }

  lemma KnownBelow(s: State, j: Id)
    requires Inv(s) && j in s.jobs
    ensures j < s.nextJob
  {
  }

  // ---------------------------------------------------------------------------------------
  // Terminal states
  // ---------------------------------------------------------------------------------------

  /** Completed and failed are final; cancelled can only become failed. */
  predicate MayBecome(a: JobStatus, b: JobStatus) {
    match a
    case Completed => b == Completed
    case Failed => b == Failed
    case Cancelled => b == Cancelled || b == Failed
    case _ => true
  }

  lemma StatusStep(s: State, a: Action, j: Id)
    requires Inv(s) && Enabled(s, a) && j in s.jobs && j in Next(s, a).jobs
    ensures MayBecome(s.jobs[j].status, Next(s, a).jobs[j].status)
    ensures Finished(s.jobs[j]) ==> !(a.Claim? && a.j == j)
  {
    JobStepIs(s, a, j);
    KnownBelow(s, j);
    assert JobInv(s.jobs[j], s.counted[j]);
    LeasedStatus(s.jobs[j], s.counted[j]);
    hide JobInv, Inv, Next;
    StatementStatus(s, a, j);
    hide JobStep;
  }

  lemma StatementStatus(s: State, a: Action, j: Id)
    requires Enabled(s, a) && j in s.jobs
    requires s.jobs[j].lockedBy.Some? ==> s.jobs[j].status == Running || s.jobs[j].status == Cancelled
    ensures MayBecome(s.jobs[j].status, JobStep(s, a, j).status)
  {
    hide FreshJob, NobodyGaveUp, NextRow, RowClaimable, ClearCredentials, CountFailure, RecordOutcome;
    StatementKeepsStatus(s.jobs[j]);
  }

  lemma LeasedStatus(job: Job, counted: set<nat>)
    requires JobInv(job, counted)
    ensures job.lockedBy.Some? ==> job.status == Running || job.status == Cancelled
  {
  }

  lemma StatementKeepsStatus(job: Job)
    ensures ClearCredentials(job).status == job.status
    ensures forall i :: CountFailure(job, i).status == job.status
    ensures forall i, o, reason :: RecordOutcome(job, i, o, reason).status == job.status
  {
  }

  /** A job that has left the table never comes back under the same id. */
  lemma GoneStaysGone(s: State, a: Action, j: Id)
    requires Enabled(s, a) && j < s.nextJob && j !in s.jobs
    ensures j !in Next(s, a).jobs && j < Next(s, a).nextJob
  {
  }

  lemma {:induction false} GoneForGood(s: State, acts: seq<Action>, j: Id)
    requires Possible(s, acts) && j < s.nextJob && j !in s.jobs
    ensures j !in After(s, acts).jobs
    decreases |acts|
  {
    hide Next, Enabled;
    if acts != [] {
      GoneStaysGone(s, acts[0], j);
      GoneForGood(Next(s, acts[0]), acts[1..], j);
    }
  }

  lemma {:induction false} StatusOnlyAdvances(s: State, acts: seq<Action>, j: Id)
    requires Inv(s) && Possible(s, acts) && j in s.jobs && j in After(s, acts).jobs
    ensures MayBecome(s.jobs[j].status, After(s, acts).jobs[j].status)
    decreases |acts|
  {
    hide Next, Enabled;
    if acts != [] {
      var t := Next(s, acts[0]);
      StepKeepsInv(s, acts[0]);
      if j in t.jobs {
        StatusStep(s, acts[0], j);
        StatusOnlyAdvances(t, acts[1..], j);
      } else {
        LeavesForGood(s, acts[0], j);
        GoneForGood(t, acts[1..], j);
      }
    }
  }

  lemma LeavesForGood(s: State, a: Action, j: Id)
    requires Inv(s) && Enabled(s, a) && j in s.jobs
    ensures j < Next(s, a).nextJob
  {
    hide Next;
    NextJobGrows(s, a);
  }

  // ---------------------------------------------------------------------------------------
  // After a job has stopped
  // ---------------------------------------------------------------------------------------

  predicate AppliesTo(s: State, a: Action, j: Id, w: WorkerId)
    requires Enabled(s, a)
  {
    (a.Judge? || a.Infra?) && a.w == w && PhaseOf(s, w).job == j
  }

  function ApplicationsBy(s: State, acts: seq<Action>, j: Id, w: WorkerId): nat
    requires Possible(s, acts)
    decreases |acts|
  {
    if acts == [] then 0
    else (if AppliesTo(s, acts[0], j, w) then 1 else 0) + ApplicationsBy(Next(s, acts[0]), acts[1..], j, w)
  }

  /** Cancelled, completed, failed or swept. */
  predicate Stopped(s: State, j: Id) {
    j < s.nextJob && (j in s.jobs ==> Finished(s.jobs[j]))
  }

  predicate PastCheck(s: State, j: Id, w: WorkerId) {
    PhaseOf(s, w).Checked? && PhaseOf(s, w).job == j
  }

  lemma StoppedStep(s: State, a: Action, j: Id, w: WorkerId)
    requires Enabled(s, a) && Stopped(s, j)
    ensures Stopped(Next(s, a), j)
    ensures AppliesTo(s, a, j, w) ==> PastCheck(s, j, w) && !PastCheck(Next(s, a), j, w)
    ensures PastCheck(Next(s, a), j, w) ==> PastCheck(s, j, w)
  {
    StoppedStays(s, a, j);
    CheckNeedsRunning(s, a, j, w);
  }

  lemma StoppedStays(s: State, a: Action, j: Id)
    requires Enabled(s, a) && Stopped(s, j)
    ensures Stopped(Next(s, a), j)
  {
    if j in s.jobs {
      hide Next;
      JobStepIs(s, a, j);
      NextJobGrows(s, a);
    } else {
      GoneStaysGone(s, a, j);
    }
  }

  lemma NextJobGrows(s: State, a: Action)
    requires Enabled(s, a)
    ensures s.nextJob <= Next(s, a).nextJob
  {
    hide CancelJob, RenewLease, ClaimJob, CountFailure, RecordOutcome, ReleaseJob, CompleteJob, FailJob, ClearCredentials;
  }

  lemma CheckNeedsRunning(s: State, a: Action, j: Id, w: WorkerId)
    requires Enabled(s, a) && Stopped(s, j)
    ensures AppliesTo(s, a, j, w) ==> PastCheck(s, j, w) && !PastCheck(Next(s, a), j, w)
    ensures PastCheck(Next(s, a), j, w) ==> PastCheck(s, j, w)
  {
    hide CancelJob, RenewLease, ClaimJob, CountFailure, RecordOutcome, ReleaseJob, CompleteJob, FailJob, ClearCredentials;
    hide CountProgress, NextRow, FreshJob, NobodyGaveUp, SettledRows, Claimable;
  }

  /**
   Once a job has stopped, a worker applies at most one more of its rows, and none unless it was
   already past the row check when the job stopped.
   */
  lemma {:induction false} AtMostOneAfterStop(s: State, acts: seq<Action>, j: Id, w: WorkerId)
    requires Possible(s, acts) && Stopped(s, j)
    ensures ApplicationsBy(s, acts, j, w) <= if PastCheck(s, j, w) then 1 else 0
    decreases |acts|
  {
    hide Next, Enabled, Stopped, PastCheck, AppliesTo;
    if acts != [] {
      StoppedStep(s, acts[0], j, w);
      AtMostOneAfterStop(Next(s, acts[0]), acts[1..], j, w);
    }
  }

  // ---------------------------------------------------------------------------------------
  // The lease
  // ---------------------------------------------------------------------------------------

  function Elapsed(acts: seq<Action>): nat {
    if acts == [] then 0 else (if acts[0].Tick? then acts[0].seconds else 0) + Elapsed(acts[1..])
  }

  /** A step by which worker `w` gives up the job it is at. */
  predicate GivesUp(a: Action, w: WorkerId) { a == Release(w) || a == Finish(w) || a == Fail(w) }

  lemma LeaseStep(s: State, a: Action, j: Id, w: WorkerId)
    requires Enabled(s, a) && j in s.jobs && j < s.nextJob && j in Next(s, a).jobs && !GivesUp(a, w)
    requires Holds(s.jobs[j], w) && s.jobs[j].status != Pending
    requires s.now - LEASE_TTL <= s.jobs[j].lockedAt <= s.now
    ensures var job := Next(s, a).jobs[j];
            Holds(job, w) && job.status != Pending && s.jobs[j].lockedAt <= job.lockedAt <= Next(s, a).now
  {
    ClockStep(s, a);
    JobStepIs(s, a, j);
    hide Next, RecordOutcome, ClearCredentials, CountFailure;
  }

  lemma ClockStep(s: State, a: Action)
    requires Enabled(s, a)
    ensures Next(s, a).now == s.now + if a.Tick? then a.seconds else 0
  {
    hide CancelJob, RenewLease, ClaimJob, CountFailure, RecordOutcome, ReleaseJob, CompleteJob, FailJob, ClearCredentials;
    hide CountProgress, NextRow, RowClaimable, FreshJob, NobodyGaveUp;
  }

  lemma {:induction false} LeaseStands(s: State, acts: seq<Action>, j: Id, w: WorkerId)
    requires Inv(s) && Possible(s, acts) && j in s.jobs && Holds(s.jobs[j], w) && s.jobs[j].status != Pending
    requires s.now + Elapsed(acts) <= s.jobs[j].lockedAt + LEASE_TTL && s.jobs[j].lockedAt <= s.now
    requires forall k :: 0 <= k < |acts| ==> !GivesUp(acts[k], w)
    ensures j in After(s, acts).jobs ==> Holds(After(s, acts).jobs[j], w)
    decreases |acts|
  {
    hide Next, Enabled, GivesUp;
    if acts != [] {
      var t := Next(s, acts[0]);
      StepKeepsInv(s, acts[0]);
      ClockStep(s, acts[0]);
      if j in t.jobs {
        LeaseStep(s, acts[0], j, w);
        LeaseStands(t, acts[1..], j, w);
      } else {
        LeavesForGood(s, acts[0], j);
        GoneForGood(t, acts[1..], j);
      }
    }
  }

  /**
   For as long as its time to live after a claim or a renewal, the lease is its holder's: whatever
   anybody else does, nobody takes the job from a worker that does not give it up.
   */
  lemma LeaseProtects(s: State, a: Action, acts: seq<Action>, j: Id, w: WorkerId)
    requires Inv(s) && Enabled(s, a) && Possible(Next(s, a), acts) && j in s.jobs
    requires a == Claim(w, j) || (a == Renew(w, j) && Holds(s.jobs[j], w))
    requires Elapsed(acts) <= LEASE_TTL && forall k :: 0 <= k < |acts| ==> !GivesUp(acts[k], w)
    ensures var t := After(Next(s, a), acts);
            j in t.jobs ==> Holds(t.jobs[j], w)
  {
    var t := Next(s, a);
    StepKeepsInv(s, a);
    assert t.jobs[j].lockedAt == t.now && Holds(t.jobs[j], w);
    assert JobInv(t.jobs[j], t.counted[j]);
    hide Next;
    LeaseStands(t, acts, j, w);
  }

  /** And once it has run out, any idle worker can take the job over. */
  lemma ExpiredLeaseIsClaimable(s: State, seconds: nat, j: Id, v: WorkerId)
    requires j in s.jobs && s.jobs[j].status == Running && PhaseOf(s, v).Idle?
    requires s.now + seconds > s.jobs[j].lockedAt + LEASE_TTL
    ensures Enabled(Next(s, Tick(seconds)), Claim(v, j))
    ensures Holds(Next(Next(s, Tick(seconds)), Claim(v, j)).jobs[j], v)
  {
  }

  // ---------------------------------------------------------------------------------------
  // When the progress count is exact
  // ---------------------------------------------------------------------------------------

  /**
   A step that neither records a row without the lease nor comes between a worker's status write
   and its progress write.
   */
  predicate Orderly(s: State, a: Action)
    requires Enabled(s, a)
  {
    match a
    case Record(w) => PhaseOf(s, w).job in s.jobs ==> WorkerHolds(s, w, PhaseOf(s, w).job)
    case ProgressError(_) => false
    case Crash(w) => !PhaseOf(s, w).Recorded?
    case Claim(_, j) => forall v :: v in s.phases && s.phases[v].Recorded? ==> s.phases[v].job != j
    case _ => true
  }

  predicate OrderlyRun(s: State, acts: seq<Action>)
    requires Possible(s, acts)
    decreases |acts|
  {
    acts == [] || (Orderly(s, acts[0]) && OrderlyRun(Next(s, acts[0]), acts[1..]))
  }

  /** Every settled row of a job is counted, but for the one its lease holder is about to count. */
  ghost predicate JobLedger(s: State, j: Id)
    requires j in s.jobs
  {
    forall i :: i in SettledRows(s.jobs[j]) && i !in Counted(s, j) ==> LeaseOwes(s, j, i)
  }

  ghost predicate Ledger(s: State) {
    forall j :: j in s.jobs ==> JobLedger(s, j)
  }

  lemma LedgerStep(s: State, a: Action, j: Id)
    requires Inv(s) && Enabled(s, a) && Orderly(s, a)
    requires j in s.jobs ==> JobLedger(s, j)
    requires j in Next(s, a).jobs
    ensures JobLedger(Next(s, a), j)
  {
    hide Next, SettledRows;
    var t := Next(s, a);
    if j in s.jobs {
      JobStepIs(s, a, j);
      assert JobInv(s.jobs[j], s.counted[j]);
      forall i | i in SettledRows(t.jobs[j]) && i !in Counted(t, j)
        ensures LeaseOwes(t, j, i)
      {
        SettledBefore(s, a, j, i);
        CountedGrows(s, a, j, i);
        if i in SettledRows(s.jobs[j]) {
          assert LeaseOwes(s, j, i);
          OwedStays(s, a, j, i);
        } else {
          RecordOwes(s, a, j, i);
        }
      }
    } else {
      NewJobOwesNothing(s, a, j);
    }
  }

  /** The lease holder of `j` has recorded row `i` and not counted it. */
  ghost predicate LeaseOwes(s: State, j: Id, i: nat)
    requires j in s.jobs
  {
    && s.jobs[j].lockedBy.Some?
    && PhaseOf(s, s.jobs[j].lockedBy.value).Recorded?
    && PhaseOf(s, s.jobs[j].lockedBy.value).job == j
    && PhaseOf(s, s.jobs[j].lockedBy.value).row == i
  }

  /** A row settled after a step was settled before it, or the step recorded it. */
  lemma SettledBefore(s: State, a: Action, j: Id, i: nat)
    requires Enabled(s, a) && j in s.jobs && i in SettledRows(JobStep(s, a, j))
    ensures i in SettledRows(s.jobs[j]) || (a.Record? && PhaseOf(s, a.w).job == j && PhaseOf(s, a.w).row == i)
  {
  }

  /** Which steps touch the history of progress writes. */
  lemma CountedStep(s: State, a: Action)
    requires Enabled(s, a)
    ensures Next(s, a).counted ==
            match a
            case Enqueue(job) => s.counted[s.nextJob := SettledRows(job)]
            case Sweep(k) => s.counted - {k}
            case Progress(w) =>
              var p := PhaseOf(s, w);
              if WorkerHolds(s, w, p.job) then s.counted[p.job := Counted(s, p.job) + {p.row}] else s.counted
            case _ => s.counted
    ensures a.Sweep? ==> a.j !in Next(s, a).jobs
  {
    hide SettledRows, FreshJob, NobodyGaveUp, Counted;
    hide CancelJob, RenewLease, ClaimJob, CountFailure, RecordOutcome, ReleaseJob, CompleteJob, FailJob, ClearCredentials;
    hide CountProgress, NextRow, RowClaimable, Claimable;
  }

  lemma CountedGrows(s: State, a: Action, j: Id, i: nat)
    requires Enabled(s, a) && j in s.jobs && j < s.nextJob && j in Next(s, a).jobs
    ensures Counted(s, j) <= Counted(Next(s, a), j)
    ensures a.Progress? && PhaseOf(s, a.w).job == j && PhaseOf(s, a.w).row == i && WorkerHolds(s, a.w, j) ==>
              i in Counted(Next(s, a), j)
  {
    CountedStep(s, a);
    hide Next, SettledRows, FreshJob, NobodyGaveUp;
  }

  lemma RecordOwes(s: State, a: Action, j: Id, i: nat)
    requires Inv(s) && Enabled(s, a) && Orderly(s, a) && j in s.jobs && j in Next(s, a).jobs
    requires a.Record? && PhaseOf(s, a.w).job == j && PhaseOf(s, a.w).row == i
    ensures LeaseOwes(Next(s, a), j, i)
  {
  }

  /** The worker that owes the count keeps its place and its lease until it has counted. */
  lemma OwedStays(s: State, a: Action, j: Id, i: nat)
    requires Inv(s) && Enabled(s, a) && Orderly(s, a) && j in s.jobs && j in Next(s, a).jobs
    requires LeaseOwes(s, j, i) && i !in Counted(Next(s, a), j)
    ensures LeaseOwes(Next(s, a), j, i)
  {
    var w := s.jobs[j].lockedBy.value;
    JobStepIs(s, a, j);
    CountedGrows(s, a, j, i);
    OwedPhaseStays(s, a, j, w, i);
    OwedLeaseStays(s, a, j, w);
  }

  lemma OwedPhaseStays(s: State, a: Action, j: Id, w: WorkerId, i: nat)
    requires Enabled(s, a) && Orderly(s, a) && WorkerHolds(s, w, j)
    requires PhaseOf(s, w).Recorded? && PhaseOf(s, w).job == j && PhaseOf(s, w).row == i
    requires a != Progress(w)
    ensures PhaseOf(Next(s, a), w) == PhaseOf(s, w)
  {
    hide CancelJob, RenewLease, ClaimJob, CountFailure, RecordOutcome, ReleaseJob, CompleteJob, FailJob, ClearCredentials;
    hide CountProgress, NextRow, RowClaimable;
  }

  lemma OwedLeaseStays(s: State, a: Action, j: Id, w: WorkerId)
    requires Enabled(s, a) && Orderly(s, a) && WorkerHolds(s, w, j) && w in s.phases
    requires PhaseOf(s, w).Recorded? && PhaseOf(s, w).job == j
    ensures Holds(JobStep(s, a, j), w)
  {
  }

  lemma NewJobOwesNothing(s: State, a: Action, j: Id)
    requires Enabled(s, a) && j !in s.jobs && j in Next(s, a).jobs
    ensures SettledRows(Next(s, a).jobs[j]) <= Counted(Next(s, a), j)
  {
    hide SettledRows, FreshJob, NobodyGaveUp, NextRow, RowClaimable, CountProgress;
    hide CancelJob, RenewLease, ClaimJob, CountFailure, RecordOutcome, ReleaseJob, CompleteJob, FailJob, ClearCredentials;
  }

  lemma {:induction false} OrderlyKeepsLedger(s: State, acts: seq<Action>)
    requires Inv(s) && Ledger(s) && Possible(s, acts) && OrderlyRun(s, acts)
    ensures Ledger(After(s, acts))
    decreases |acts|
  {
    hide Next, Enabled, Orderly, Inv;
    if acts != [] {
      var t := Next(s, acts[0]);
      StepKeepsInv(s, acts[0]);
      forall j | j in t.jobs
        ensures JobLedger(t, j)
      {
        LedgerStep(s, acts[0], j);
      }
      OrderlyKeepsLedger(t, acts[1..]);
    }
  }

  /** After an orderly run, a job none of whose rows is between its two writes has counted every settled row. */
  lemma OrderlyCountIsExact(acts: seq<Action>, j: Id)
    requires Possible(START, acts) && OrderlyRun(START, acts) && j in After(START, acts).jobs
    requires var s := After(START, acts);
             forall v :: v in s.phases && s.phases[v].Recorded? ==> s.phases[v].job != j
    ensures var job := After(START, acts).jobs[j];
            job.processed == |SettledRows(job)|
  {
    RunKeepsInv(START, acts);
    OrderlyKeepsLedger(START, acts);
    var s := After(START, acts);
    assert SettledRows(s.jobs[j]) <= s.counted[j];
    assert SettledRows(s.jobs[j]) == s.counted[j];
  }

  /** A step credits a row to its job: refused at enqueueing, or by a progress write that matches the lease. */
  predicate Credits(s: State, a: Action, j: Id, i: nat)
    requires Enabled(s, a)
  {
    CountedBy(s, a) == Some((j, i)) || (a.Enqueue? && j == s.nextJob && i in SettledRows(a.job))
  }

  predicate CreditedIn(s: State, acts: seq<Action>, j: Id, i: nat)
    requires Possible(s, acts)
    decreases |acts|
  {
    acts != [] && (Credits(s, acts[0], j, i) || CreditedIn(Next(s, acts[0]), acts[1..], j, i))
  }

  lemma CreditStep(s: State, a: Action, j: Id, i: nat)
    requires Inv(s) && Enabled(s, a)
    ensures j in Next(s, a).jobs ==> (i in Counted(Next(s, a), j) <==> i in Counted(s, j) || Credits(s, a, j, i))
  {
    CountedStep(s, a);
    hide Next, SettledRows, FreshJob, NobodyGaveUp, JobInv, PhaseInv;
  }

  lemma UnknownStep(s: State, a: Action, j: Id, i: nat)
    requires Inv(s) && Enabled(s, a)
    ensures s.nextJob <= Next(s, a).nextJob && (j in Next(s, a).jobs && j !in s.jobs ==> j >= s.nextJob)
    ensures j !in Next(s, a).jobs && j >= Next(s, a).nextJob ==> i !in Counted(s, j) && !Credits(s, a, j, i)
  {
    hide SettledRows, FreshJob, NobodyGaveUp, JobInv, PhaseInv;
    hide CancelJob, RenewLease, ClaimJob, CountFailure, RecordOutcome, ReleaseJob, CompleteJob, FailJob, ClearCredentials;
    hide CountProgress, NextRow, RowClaimable, Claimable;
  }

  lemma {:induction false} StaysUnknown(s: State, acts: seq<Action>, j: Id)
    requires Inv(s) && Possible(s, acts) && j in After(s, acts).jobs && j !in s.jobs
    ensures j >= s.nextJob
    decreases |acts|
  {
    hide Next, Enabled, Inv;
    if acts != [] {
      StepKeepsInv(s, acts[0]);
      UnknownStep(s, acts[0], j, 0);
      if j !in Next(s, acts[0]).jobs {
        StaysUnknown(Next(s, acts[0]), acts[1..], j);
      }
    }
  }

  lemma {:induction false} CountedIffCredited(s: State, acts: seq<Action>, j: Id, i: nat)
    requires Inv(s) && Possible(s, acts) && j in After(s, acts).jobs
    ensures i in Counted(After(s, acts), j) <==> i in Counted(s, j) || CreditedIn(s, acts, j, i)
    decreases |acts|
  {
    hide Next, Enabled, Inv, Credits;
    if acts != [] {
      var t := Next(s, acts[0]);
      StepKeepsInv(s, acts[0]);
      CreditStep(s, acts[0], j, i);
      CountedIffCredited(t, acts[1..], j, i);
      if j !in t.jobs {
        StaysUnknown(t, acts[1..], j);
        UnknownStep(s, acts[0], j, i);
        UnknownIsUncounted(t, j);
      }
    }
  }

  lemma UnknownIsUncounted(s: State, j: Id)
    requires Inv(s) && j !in s.jobs
    ensures Counted(s, j) == {}
  {
  }

  /** The count is exact exactly when every settled row was credited: at enqueueing, or under the lease. */
  lemma CountIsExactIff(acts: seq<Action>, j: Id)
    requires Possible(START, acts) && j in After(START, acts).jobs
    ensures var job := After(START, acts).jobs[j];
            job.processed == |SettledRows(job)| <==> forall i :: i in SettledRows(job) ==> CreditedIn(START, acts, j, i)
  {
    RunKeepsInv(START, acts);
    var s := After(START, acts);
    var settled, counted := SettledRows(s.jobs[j]), s.counted[j];
    forall i: nat
      ensures i in counted <==> CreditedIn(START, acts, j, i)
    {
      CountedIffCredited(START, acts, j, i);
    }
    assert JobInv(s.jobs[j], counted);
    hide Possible, After, SettledRows, CreditedIn;
    assert settled <= counted <==> forall i :: i in settled ==> CreditedIn(START, acts, j, i);
    assert settled <= counted <==> settled == counted;
    if |counted| == |settled| {
      SubsetIsSmaller(counted, settled);
    }
  }

  // ---------------------------------------------------------------------------------------
  // A completed job whose count is short
  // ---------------------------------------------------------------------------------------

  const ONE_USER := ImportUser("a@b", "", "", true, true, "", "", "", [])
  const ONE_ROW_JOB :=
    Job(Scope(1, None), false, Pending, 1, 0, 0, 0, 0, 0, None, 0, [JobRow(ONE_USER, None, Waiting, NoReason, 0)])

  /** Worker 1 stalls past its lease while applying the only row, and records it after worker 2 took the job. */
  const STALLED_RUN := [
    Enqueue(ONE_ROW_JOB), Claim(1, 0), Read(1), Check(1), Tick(LEASE_TTL + 1), Claim(2, 0),
    Judge(1, Create, NoReason), Record(1), Progress(1), Read(2), Finish(2)]

  const LATE := LEASE_TTL + 1
  const FIRST_CLAIM := ClaimJob(ONE_ROW_JOB, 1, 0)
  const SECOND_CLAIM := ClaimJob(ONE_ROW_JOB, 2, LATE)
  const SETTLED := RecordOutcome(SECOND_CLAIM, 0, Create, NoReason)

  predicate Stands(s: State, now: int, job: Job, first: Phase, second: Phase) {
    && s.now == now && 0 in s.jobs && s.jobs[0] == job && s.lost == {}
    && PhaseOf(s, 1) == first && PhaseOf(s, 2) == second
  }

  /** Where the run stands before its action `i`. */
  predicate StalledAt(s: State, i: nat) {
    match i
    case 0 => s == START
    case 1 => Stands(s, 0, ONE_ROW_JOB, Idle, Idle)
    case 2 => Stands(s, 0, FIRST_CLAIM, Ready(0), Idle)
    case 3 => Stands(s, 0, FIRST_CLAIM, HasRow(0, 0, 0), Idle)
    case 4 => Stands(s, 0, FIRST_CLAIM, Checked(0, 0, 0), Idle)
    case 5 => Stands(s, LATE, FIRST_CLAIM, Checked(0, 0, 0), Idle)
    case 6 => Stands(s, LATE, SECOND_CLAIM, Checked(0, 0, 0), Ready(0))
    case 7 => Stands(s, LATE, SECOND_CLAIM, Judged(0, 0, Create, NoReason), Ready(0))
    case 8 => Stands(s, LATE, SETTLED, Recorded(0, 0, Create), Ready(0))
    case 9 => Stands(s, LATE, SETTLED, Ready(0), Ready(0))
    case 10 => Stands(s, LATE, SETTLED, Ready(0), Finishing(0))
    case _ => Stands(s, LATE, CompleteJob(SETTLED, 2), Ready(0), Idle)
  }

  lemma StalledEarly(s: State, i: nat)
    requires i < 5 && StalledAt(s, i)
    ensures Enabled(s, STALLED_RUN[i]) && StalledAt(Next(s, STALLED_RUN[i]), i + 1)
  {
  }

  lemma StalledOverlap(s: State, i: nat)
    requires 5 <= i < 9 && StalledAt(s, i)
    ensures Enabled(s, STALLED_RUN[i]) && StalledAt(Next(s, STALLED_RUN[i]), i + 1)
  {
  }

  lemma StalledLate(s: State, i: nat)
    requires 9 <= i < |STALLED_RUN| && StalledAt(s, i)
    ensures Enabled(s, STALLED_RUN[i]) && StalledAt(Next(s, STALLED_RUN[i]), i + 1)
  {
  }

  lemma {:induction false} StalledFrom(s: State, i: nat)
    requires i <= |STALLED_RUN| && StalledAt(s, i)
    ensures Possible(s, STALLED_RUN[i..]) && StalledAt(After(s, STALLED_RUN[i..]), |STALLED_RUN|)
    decreases |STALLED_RUN| - i
  {
    hide Next, Enabled, StalledAt;
    if i < |STALLED_RUN| {
      if i < 5 {
        StalledEarly(s, i);
      } else if i < 9 {
        StalledOverlap(s, i);
      } else {
        StalledLate(s, i);
      }
      StalledFrom(Next(s, STALLED_RUN[i]), i + 1);
      assert STALLED_RUN[i..][1..] == STALLED_RUN[i + 1..];
    }
  }

  /**
   No worker stops and none loses its lease between its two writes, yet the job completes with its
   one settled row uncounted: the status write itself was made without the lease.
   */
  lemma StalledRowGoesUncounted()
    ensures Possible(START, STALLED_RUN) && 0 in After(START, STALLED_RUN).jobs
    ensures var job := After(START, STALLED_RUN).jobs[0];
            job.status == Completed && job.processed == 0 && SettledRows(job) == {0}
  {
    hide Next, Enabled, Possible, After;
    assert STALLED_RUN[0..] == STALLED_RUN;
    StalledFrom(START, 0);
    assert SettledRows(CompleteJob(SETTLED, 2)) == {0};
  }
}
