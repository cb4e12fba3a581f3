/**
 The import queue under any number of workers: every SQL statement is one step, and between any
 two steps a worker may stall, crash or lose its lease, a job may be cancelled, failed or swept,
 and other workers may act.  What applying a row decides is left open, so nothing proved here
 depends on what else is writing to the directory.
 */
module ImportProtocol {
  import opened Prelude
  import opened UserImport
  import opened ImportQueue

  /** Where a worker stands between two statements, with what it holds in memory. */
  datatype Phase =
    | Idle
    | Ready(job: Id)
    | HasRow(job: Id, row: nat, attempts: nat)
    | Checked(job: Id, row: nat, attempts: nat)
    | Unjudged(job: Id, row: nat)
    | Judged(job: Id, row: nat, outcome: Outcome, reason: Reason)
    | Recorded(job: Id, row: nat, outcome: Outcome)
    | Releasing(job: Id)
    | Finishing(job: Id)
    | Failing(job: Id)
    | Clearing(job: Id)

  /**
   The queue, the workers, and which cancellations still owe their second statement.
   `counted` is a history: the rows of a job whose progress write took effect.
   */
  datatype State = State(
    now: int, jobs: map<Id, Job>, nextJob: Id, phases: map<WorkerId, Phase>, lost: set<WorkerId>,
    cancelling: set<Id>, counted: map<Id, set<nat>>)

  datatype Action =
    | Tick(seconds: nat)
    | Enqueue(job: Job)
    | Cancel(j: Id)
    | ClearCancelled(j: Id)
    | Sweep(j: Id)
    | Renew(w: WorkerId, j: Id)
    | NoticeLost(w: WorkerId)
    | Claim(w: WorkerId, j: Id)
    | Abandon(w: WorkerId)
    | Shutdown(w: WorkerId)
    | Read(w: WorkerId)
    | ReadError(w: WorkerId)
    | Check(w: WorkerId)
    | Judge(w: WorkerId, outcome: Outcome, reason: Reason)
    | Infra(w: WorkerId)
    | CountAttempt(w: WorkerId)
    | Record(w: WorkerId)
    | Progress(w: WorkerId)
    | ProgressError(w: WorkerId)
    | Release(w: WorkerId)
    | Finish(w: WorkerId)
    | Fail(w: WorkerId)
    | ClearFailed(w: WorkerId)
    | Crash(w: WorkerId)  // or a failed statement after which the worker gives the job up

  function PhaseOf(s: State, w: WorkerId): Phase { if w in s.phases then s.phases[w] else Idle }

  predicate WorkerHolds(s: State, w: WorkerId, j: Id) { j in s.jobs && Holds(s.jobs[j], w) }

  function Counted(s: State, j: Id): set<nat> { if j in s.counted then s.counted[j] else {} }

  /** Giving a row up is the worker's own verdict: neither the dry run nor an application says so. */
  predicate NobodyGaveUp(job: Job) {
    forall i :: 0 <= i < |job.rows| ==> !job.rows[i].reason.GaveUp?
  }

  predicate Finished(job: Job) { job.status != Pending && job.status != Running }

  // ---------------------------------------------------------------------------------------
  // Steps
  // ---------------------------------------------------------------------------------------

  predicate Enabled(s: State, a: Action) {
    match a
    case Tick(_) => true
    case Enqueue(job) => FreshJob(job) && NobodyGaveUp(job)
    case Cancel(j) => j in s.jobs && !Finished(s.jobs[j])
    case ClearCancelled(j) => j in s.cancelling
    case Sweep(j) => j in s.jobs && Finished(s.jobs[j])
    case Renew(w, j) => j in s.jobs
    case NoticeLost(w) => !PhaseOf(s, w).Idle? && !WorkerHolds(s, w, PhaseOf(s, w).job)
    case Claim(w, j) => PhaseOf(s, w).Idle? && j in s.jobs && Claimable(s.jobs[j], s.now)
    case Abandon(w) => PhaseOf(s, w).Ready? && w in s.lost
    case Shutdown(w) => PhaseOf(s, w).Ready?
    case Read(w) => PhaseOf(s, w).Ready? && w !in s.lost
    case ReadError(w) => PhaseOf(s, w).Ready?
    case Check(w) => PhaseOf(s, w).HasRow?
    case Judge(w, _, reason) => PhaseOf(s, w).Checked? && !reason.GaveUp?  // only failures give a row up
    case Infra(w) => PhaseOf(s, w).Checked?
    case CountAttempt(w) => PhaseOf(s, w).Unjudged?
    case Record(w) => PhaseOf(s, w).Judged?
    case Progress(w) => PhaseOf(s, w).Recorded?
    case ProgressError(w) => PhaseOf(s, w).Recorded?
    case Release(w) => PhaseOf(s, w).Releasing?
    case Finish(w) => PhaseOf(s, w).Finishing?
    case Fail(w) => PhaseOf(s, w).Failing?
    case ClearFailed(w) => PhaseOf(s, w).Clearing?
    case Crash(w) => true
  }

  function Move(s: State, w: WorkerId, p: Phase): State {
    s.(phases := s.phases[w := p])
  }

  function Put(s: State, j: Id, job: Job): State {
    s.(jobs := s.jobs[j := job])
  }

  function Next(s: State, a: Action): State
    requires Enabled(s, a)
  {
    match a
    case Tick(d) => s.(now := s.now + d)
    case Enqueue(job) =>
      Put(s, s.nextJob, job).(nextJob := s.nextJob + 1, counted := s.counted[s.nextJob := SettledRows(job)])
    case Cancel(j) => Put(s, j, CancelJob(s.jobs[j])).(cancelling := s.cancelling + {j})
    case ClearCancelled(j) =>
      (if j in s.jobs then Put(s, j, ClearCredentials(s.jobs[j])) else s).(cancelling := s.cancelling - {j})
    case Sweep(j) => s.(jobs := s.jobs - {j}, counted := s.counted - {j})
    case Renew(w, j) => Put(s, j, RenewLease(s.jobs[j], w, s.now))
    case NoticeLost(w) => s.(lost := s.lost + {w})
    case Claim(w, j) => Move(Put(s, j, ClaimJob(s.jobs[j], w, s.now)), w, Ready(j)).(lost := s.lost - {w})
    case Crash(w) => Move(s, w, Idle)
    case _ => WorkerStep(s, a, PhaseOf(s, a.w))
  }

  function WorkerStep(s: State, a: Action, p: Phase): State
    requires Enabled(s, a) && !a.Tick? && !a.Enqueue? && !a.Cancel? && !a.ClearCancelled? && !a.Sweep?
    requires !a.Renew? && !a.NoticeLost? && !a.Claim? && !a.Crash?
    requires p == PhaseOf(s, a.w)
  {
    var w := a.w;
    var j := p.job;
    match a
    case Abandon(_) => Move(s, w, Idle)
    case Shutdown(_) => Move(s, w, Releasing(j))
    case Read(_) =>
      if j in s.jobs && NextRow(s.jobs[j], w).Some?
      then var row := NextRow(s.jobs[j], w).value; Move(s, w, HasRow(j, row, s.jobs[j].rows[row].attempts))
      else Move(s, w, Finishing(j))
    case ReadError(_) => Move(s, w, Failing(j))
    case Check(_) =>
      if j in s.jobs && RowClaimable(s.jobs[j], w, p.row) then Move(s, w, Checked(j, p.row, p.attempts))
      else Move(s, w, Idle)
    case Judge(_, outcome, reason) => Move(s, w, Judged(j, p.row, outcome, reason))
    case Infra(_) =>
      if p.attempts + 1 < MAX_ROW_ATTEMPTS then Move(s, w, Unjudged(j, p.row))
      else Move(s, w, Judged(j, p.row, Reject, GaveUp(p.attempts + 1)))
    case CountAttempt(_) =>
      Move(if j in s.jobs then Put(s, j, CountFailure(s.jobs[j], p.row)) else s, w, Releasing(j))
    case Record(_) =>
      Move(if j in s.jobs then Put(s, j, RecordOutcome(s.jobs[j], p.row, p.outcome, p.reason)) else s,
           w, Recorded(j, p.row, p.outcome))
    case Progress(_) =>
      if WorkerHolds(s, w, j)
      then Move(Put(s, j, CountProgress(s.jobs[j], w, p.outcome)), w, Ready(j))
           .(counted := s.counted[j := Counted(s, j) + {p.row}])
      else Move(s, w, Ready(j))
    case ProgressError(_) => Move(s, w, Ready(j))
    case Release(_) => Move(if j in s.jobs then Put(s, j, ReleaseJob(s.jobs[j], w)) else s, w, Idle)
    case Finish(_) => Move(if j in s.jobs then Put(s, j, CompleteJob(s.jobs[j], w)) else s, w, Idle)
    case Fail(_) => Move(if j in s.jobs then Put(s, j, FailJob(s.jobs[j], w)) else s, w, Clearing(j))
    case ClearFailed(_) => Move(if j in s.jobs then Put(s, j, ClearCredentials(s.jobs[j])) else s, w, Idle)
  }

  // ---------------------------------------------------------------------------------------
  // The invariant
  // ---------------------------------------------------------------------------------------

  predicate NoneWaiting(job: Job) {
    forall i :: 0 <= i < |job.rows| ==> job.rows[i].status.Settled?
  }

  ghost predicate JobInv(job: Job, counted: set<nat>) {
    && job.total == |job.rows|
    && job.processed == job.created + job.updated + job.skipped + job.rejected
    && job.processed == |counted|
    && counted <= SettledRows(job)
    && (job.lockedBy.Some? ==> job.status == Running || job.status == Cancelled)
    && (job.status == Running ==> job.lockedBy.Some?)
    && (job.status == Completed ==> NoneWaiting(job))
    && forall i :: 0 <= i < |job.rows| ==> Scrubbed(job.rows[i])
  }

  predicate HasARow(p: Phase) { p.HasRow? || p.Checked? || p.Unjudged? || p.Judged? || p.Recorded? }

  /** What a worker's position promises about its job; the last two only while the lease is its own. */
  ghost predicate PhaseInv(p: Phase, w: WorkerId, job: Job, counted: set<nat>) {
    && (HasARow(p) ==> p.row < |job.rows|)
    && (p.Recorded? ==> job.rows[p.row].status.Settled?)
    && (Holds(job, w) ==>
      && (p.Finishing? && job.status == Running ==> NoneWaiting(job))
      && (HasARow(p) && !p.HasRow? ==> p.row !in counted))
  }

  ghost predicate Inv(s: State) {
    && s.counted.Keys == s.jobs.Keys
    && (forall j :: j in s.jobs ==> j < s.nextJob && JobInv(s.jobs[j], s.counted[j]))
    && (forall w :: w in s.phases && !s.phases[w].Idle? ==> s.phases[w].job < s.nextJob)
    && (forall w :: w in s.phases && !s.phases[w].Idle? && s.phases[w].job in s.jobs ==>
          PhaseInv(s.phases[w], w, s.jobs[s.phases[w].job], s.counted[s.phases[w].job]))
  }

  /** A statement on a job that takes nothing from any worker but `mover`. */
  ghost predicate Evolves(job: Job, counted: set<nat>, job': Job, counted': set<nat>, mover: Option<WorkerId>) {
    && |job'.rows| == |job.rows|
    && (forall i :: 0 <= i < |job.rows| && job.rows[i].status.Settled? ==> job'.rows[i].status.Settled?)
    && (forall v :: mover != Some(v) && Holds(job', v) ==>
          && Holds(job, v)
          && counted' == counted
          && (job'.status == Running ==> job.status == Running))
  }

  lemma EvolvesKeepsPhase(
    p: Phase, v: WorkerId, job: Job, counted: set<nat>, job': Job, counted': set<nat>, mover: Option<WorkerId>)
    requires Evolves(job, counted, job', counted', mover) && mover != Some(v)
    requires PhaseInv(p, v, job, counted)
    ensures PhaseInv(p, v, job', counted')
  {
  }

  /** One statement by worker `w` on its own job. */
  lemma StatementKeepsInv(s: State, w: WorkerId, j: Id, job': Job, counted': set<nat>, p: Phase, t: State)
    requires Inv(s) && j in s.jobs
    requires Evolves(s.jobs[j], s.counted[j], job', counted', Some(w))
    requires JobInv(job', counted')
    requires !p.Idle? ==> p.job == j && PhaseInv(p, w, job', counted')
    requires t.jobs == s.jobs[j := job'] && t.counted == s.counted[j := counted']
    requires t.phases == s.phases[w := p] && t.nextJob == s.nextJob
    ensures Inv(t)
  {
    forall v | v in t.phases && !t.phases[v].Idle? && t.phases[v].job in t.jobs
      ensures PhaseInv(t.phases[v], v, t.jobs[t.phases[v].job], t.counted[t.phases[v].job])
    {
      if v != w && t.phases[v].job == j {
        EvolvesKeepsPhase(t.phases[v], v, s.jobs[j], s.counted[j], job', counted', Some(w));
      }
    }
  }

  /** A statement that is no worker's. */
  lemma OutsideKeepsInv(s: State, j: Id, job': Job, t: State)
    requires Inv(s) && j in s.jobs
    requires Evolves(s.jobs[j], s.counted[j], job', s.counted[j], None)
    requires JobInv(job', s.counted[j])
    requires t.jobs == s.jobs[j := job'] && t.counted == s.counted && t.phases == s.phases && t.nextJob == s.nextJob
    ensures Inv(t)
  {
    forall v | v in t.phases && !t.phases[v].Idle? && t.phases[v].job in t.jobs
      ensures PhaseInv(t.phases[v], v, t.jobs[t.phases[v].job], t.counted[t.phases[v].job])
    {
      if t.phases[v].job == j {
        EvolvesKeepsPhase(t.phases[v], v, s.jobs[j], s.counted[j], job', s.counted[j], None);
      }
    }
  }

  /** A worker that only changes its own position. */
  lemma MoveKeepsInv(s: State, w: WorkerId, p: Phase, t: State)
    requires Inv(s)
    requires !p.Idle? ==> p.job < s.nextJob && (p.job in s.jobs ==> PhaseInv(p, w, s.jobs[p.job], s.counted[p.job]))
    requires t.jobs == s.jobs && t.counted == s.counted && t.phases == s.phases[w := p] && t.nextJob == s.nextJob
    ensures Inv(t)
  {
  }

  lemma ReadKeepsInv(s: State, w: WorkerId)
    requires Inv(s) && Enabled(s, Read(w))
    ensures Inv(Next(s, Read(w)))
  {
    var j := PhaseOf(s, w).job;
    var t := Next(s, Read(w));
    MoveKeepsInv(s, w, PhaseOf(t, w), t);
  }

  lemma RecordKeepsInv(s: State, w: WorkerId)
    requires Inv(s) && Enabled(s, Record(w))
    ensures Inv(Next(s, Record(w)))
  {
    var p := PhaseOf(s, w);
    var t := Next(s, Record(w));
    if p.job in s.jobs {
      var job := s.jobs[p.job];
      var job' := RecordOutcome(job, p.row, p.outcome, p.reason);
      assert SettledRows(job) <= SettledRows(job');
      StatementKeepsInv(s, w, p.job, job', s.counted[p.job], PhaseOf(t, w), t);
    } else {
      MoveKeepsInv(s, w, PhaseOf(t, w), t);
    }
  }

  lemma CountKeepsJobInv(job: Job, counted: set<nat>, w: WorkerId, row: nat, o: Outcome)
    requires JobInv(job, counted) && Holds(job, w)
    requires row < |job.rows| && job.rows[row].status.Settled? && row !in counted
    ensures JobInv(CountProgress(job, w, o), counted + {row})
    ensures Evolves(job, counted, CountProgress(job, w, o), counted + {row}, Some(w))
  {
  }

  lemma ProgressKeepsInv(s: State, w: WorkerId)
    requires Inv(s) && Enabled(s, Progress(w))
    ensures Inv(Next(s, Progress(w)))
  {
    hide CountProgress, JobInv, Evolves;
    var p := PhaseOf(s, w);
    var t := Next(s, Progress(w));
    if WorkerHolds(s, w, p.job) {
      CountKeepsJobInv(s.jobs[p.job], s.counted[p.job], w, p.row, p.outcome);
      StatementKeepsInv(s, w, p.job, CountProgress(s.jobs[p.job], w, p.outcome), s.counted[p.job] + {p.row}, Ready(p.job), t);
    } else {
      MoveKeepsInv(s, w, Ready(p.job), t);
    }
  }

  lemma ClearKeepsJobInv(job: Job, counted: set<nat>)
    requires JobInv(job, counted)
    ensures JobInv(ClearCredentials(job), counted)
    ensures Evolves(job, counted, ClearCredentials(job), counted, None)
  {
  }

  lemma CountAttemptKeepsInv(s: State, w: WorkerId)
    requires Inv(s) && Enabled(s, CountAttempt(w))
    ensures Inv(Next(s, CountAttempt(w)))
  {
    var p := PhaseOf(s, w);
    var t := Next(s, CountAttempt(w));
    if p.job in s.jobs {
      var job' := CountFailure(s.jobs[p.job], p.row);
      assert SettledRows(job') == SettledRows(s.jobs[p.job]);
      StatementKeepsInv(s, w, p.job, job', s.counted[p.job], Releasing(p.job), t);
    } else {
      MoveKeepsInv(s, w, Releasing(p.job), t);
    }
  }

  /** The statements that end a worker's claim, on the job row. */
  lemma HandBackKeepsJobInv(job: Job, counted: set<nat>, w: WorkerId)
    requires JobInv(job, counted)
    ensures job.status == Running && Holds(job, w) ==> (NoneWaiting(job) ==> JobInv(CompleteJob(job, w), counted))
    ensures !(job.status == Running && Holds(job, w)) ==> CompleteJob(job, w) == job
    ensures JobInv(FailJob(job, w), counted) && JobInv(ReleaseJob(job, w), counted)
    ensures Evolves(job, counted, CompleteJob(job, w), counted, Some(w))
    ensures Evolves(job, counted, FailJob(job, w), counted, Some(w))
    ensures Evolves(job, counted, ReleaseJob(job, w), counted, Some(w))
  {
  }

  /** Finish, Fail, Release and ClearFailed: one statement on the job, fenced on the lease. */
  lemma HandBackKeepsInv(s: State, a: Action)
    requires Inv(s) && Enabled(s, a) && (a.Finish? || a.Fail? || a.Release? || a.ClearFailed?)
    ensures Inv(Next(s, a))
  {
    hide CompleteJob, FailJob, ReleaseJob, ClearCredentials, JobInv;
    var p := PhaseOf(s, a.w);
    var t := Next(s, a);
    HandBackIs(s, a);
    if p.job in s.jobs {
      var job := s.jobs[p.job];
      HandBackKeepsJobInv(job, s.counted[p.job], a.w);
      ClearKeepsJobInv(job, s.counted[p.job]);
      assert PhaseInv(p, a.w, job, s.counted[p.job]);
      hide Next, WorkerStep;
      StatementKeepsInv(s, a.w, p.job, t.jobs[p.job], s.counted[p.job], PhaseOf(t, a.w), t);
    } else {
      MoveKeepsInv(s, a.w, PhaseOf(t, a.w), t);
    }
  }

  lemma HandBackIs(s: State, a: Action)
    requires Enabled(s, a) && (a.Finish? || a.Fail? || a.Release? || a.ClearFailed?)
    ensures var p, t := PhaseOf(s, a.w), Next(s, a);
            && t.phases == s.phases[a.w := if a.Fail? then Clearing(p.job) else Idle]
            && t.counted == s.counted && t.nextJob == s.nextJob
            && t.jobs == if p.job !in s.jobs then s.jobs else
                           s.jobs[p.job := match a
                                           case Finish(w) => CompleteJob(s.jobs[p.job], w)
                                           case Fail(w) => FailJob(s.jobs[p.job], w)
                                           case Release(w) => ReleaseJob(s.jobs[p.job], w)
                                           case _ => ClearCredentials(s.jobs[p.job])]
  {
    hide CompleteJob, FailJob, ReleaseJob, ClearCredentials;
  }

  /** What nobody but the operator, the clock and the renewal goroutine does. */
  lemma OutsideStepKeepsInv(s: State, a: Action)
    requires Inv(s) && Enabled(s, a)
    requires a.Tick? || a.Cancel? || a.ClearCancelled? || a.Renew? || a.NoticeLost?
    ensures Inv(Next(s, a))
  {
    var t := Next(s, a);
    match a
    case Cancel(j) =>
      assert SettledRows(CancelJob(s.jobs[j])) == SettledRows(s.jobs[j]);
      OutsideKeepsInv(s, j, CancelJob(s.jobs[j]), t);
    case ClearCancelled(j) =>
      if j in s.jobs {
        ClearKeepsJobInv(s.jobs[j], s.counted[j]);
        OutsideKeepsInv(s, j, ClearCredentials(s.jobs[j]), t);
      }
    case Renew(w, j) =>
      assert SettledRows(RenewLease(s.jobs[j], w, s.now)) == SettledRows(s.jobs[j]);
      OutsideKeepsInv(s, j, RenewLease(s.jobs[j], w, s.now), t);
    case _ =>
  }

  lemma EnqueueKeepsInv(s: State, job: Job)
    requires Inv(s) && Enabled(s, Enqueue(job))
    ensures Inv(Next(s, Enqueue(job)))
  {
  }

  lemma SweepKeepsInv(s: State, j: Id)
    requires Inv(s) && Enabled(s, Sweep(j))
    ensures Inv(Next(s, Sweep(j)))
  {
  }

  lemma ClaimKeepsInv(s: State, w: WorkerId, j: Id)
    requires Inv(s) && Enabled(s, Claim(w, j))
    ensures Inv(Next(s, Claim(w, j)))
  {
    var job' := ClaimJob(s.jobs[j], w, s.now);
    assert SettledRows(job') == SettledRows(s.jobs[j]);
    StatementKeepsInv(s, w, j, job', s.counted[j], Ready(j), Next(s, Claim(w, j)));
  }

  lemma StepKeepsInv(s: State, a: Action)
    requires Inv(s) && Enabled(s, a)
    ensures Inv(Next(s, a))
  {
    hide Next, WorkerStep, Inv;
    match a
    case Read(w) => ReadKeepsInv(s, w);
    case Record(w) => RecordKeepsInv(s, w);
    case Progress(w) => ProgressKeepsInv(s, w);
    case CountAttempt(w) => CountAttemptKeepsInv(s, w);
    case Finish(_) => HandBackKeepsInv(s, a);
    case Fail(_) => HandBackKeepsInv(s, a);
    case Release(_) => HandBackKeepsInv(s, a);
    case ClearFailed(_) => HandBackKeepsInv(s, a);
    case Enqueue(job) => EnqueueKeepsInv(s, job);
    case Sweep(j) => SweepKeepsInv(s, j);
    case Claim(w, j) => ClaimKeepsInv(s, w, j);
    case Tick(_) => OutsideStepKeepsInv(s, a);
    case Cancel(_) => OutsideStepKeepsInv(s, a);
    case ClearCancelled(_) => OutsideStepKeepsInv(s, a);
    case Renew(_, _) => OutsideStepKeepsInv(s, a);
    case NoticeLost(_) => OutsideStepKeepsInv(s, a);
    case _ => PositionStepKeepsInv(s, a);
  }

  /** Steps that read, decide or give up, and write nothing. */
  lemma PositionStepKeepsInv(s: State, a: Action)
    requires Inv(s) && Enabled(s, a)
    requires a.Abandon? || a.Shutdown? || a.ReadError? || a.Check? || a.Judge? || a.Infra? || a.ProgressError? || a.Crash?
    ensures Inv(Next(s, a))
  {
    var t := Next(s, a);
    var p := PhaseOf(s, a.w);
    MoveKeepsInv(s, a.w, PhaseOf(t, a.w), t);
  }
}
