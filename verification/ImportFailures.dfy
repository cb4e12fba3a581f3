/**
 Draining through storage failures: which rows are given up, and that every other row is treated as
 in a drain nothing went wrong with.
 */
module ImportFailures {
  import opened Prelude
  import opened Directory
  import opened UserImport
  import opened ImportAgreement
  import opened ImportQueue
  import opened ImportDrain

  /** Five failed applications, and the row is settled as rejected. */
  function GiveUpRow(job: Job, w: WorkerId, row: nat): Job {
    CountProgress(RecordOutcome(job, row, Reject, GaveUp(5)), w, Reject)
  }

  function SettleRow(
    f: Foreign, c: Context, w: WorkerId, d: Drained, row: nat, at: int, gaveUp: set<nat>
  ): (r: Drained)
    requires row < |d.job.rows| && Applicable(c, d.job.rows)
    ensures |r.job.rows| == |d.job.rows| && r.job.rows == d.job.rows[row := r.job.rows[row]]
    ensures r.job.rows[row].status.Settled?
    ensures r.job.status == d.job.status && r.job.lockedBy == d.job.lockedBy
  {
    if d.job.rows[row].status == Waiting && row in gaveUp then Drained(d.db, GiveUpRow(d.job, w, row))
    else DrainRow(f, c, w, d, row, at)
  }

  /** The first `n` rows drained as if nothing had gone wrong, but for those in `gaveUp`, which are given up. */
  function DrainExcept(
    f: Foreign, c: Context, w: WorkerId, d: Drained, at: nat -> int, gaveUp: set<nat>, n: nat
  ): (r: Drained)
    requires n <= |d.job.rows| && Applicable(c, d.job.rows)
    ensures |r.job.rows| == |d.job.rows| && Applicable(c, r.job.rows)
    ensures forall i :: 0 <= i < n ==> r.job.rows[i].status.Settled?
    ensures forall i :: n <= i < |d.job.rows| ==> r.job.rows[i] == d.job.rows[i]
    ensures r.job.status == d.job.status && r.job.lockedBy == d.job.lockedBy
  {
    if n == 0 then d
    else SettleRow(f, c, w, DrainExcept(f, c, w, d, at, gaveUp, n - 1), n - 1, at(n - 1), gaveUp)
  }

  lemma {:induction false} NobodyGivenUp(f: Foreign, c: Context, w: WorkerId, d: Drained, at: nat -> int, n: nat)
    requires n <= |d.job.rows| && Applicable(c, d.job.rows)
    ensures DrainExcept(f, c, w, d, at, {}, n) == DrainTo(f, c, w, d, at, n)
  {
    hide DrainRow;
    if n > 0 {
      NobodyGivenUp(f, c, w, d, at, n - 1);
    }
  }

  /** Only who is given up among the first `n` rows matters to them. */
  lemma {:induction false} GivenUpLater(
    f: Foreign, c: Context, w: WorkerId, d: Drained, at: nat -> int, a: set<nat>, b: set<nat>, n: nat)
    requires n <= |d.job.rows| && Applicable(c, d.job.rows)
    requires forall i :: 0 <= i < n ==> (i in a <==> i in b)
    ensures DrainExcept(f, c, w, d, at, a, n) == DrainExcept(f, c, w, d, at, b, n)
  {
    hide DrainRow, GiveUpRow;
    if n > 0 {
      GivenUpLater(f, c, w, d, at, a, b, n - 1);
    }
  }

  lemma {:induction false} SettledAreSkipped(
    f: Foreign, c: Context, w: WorkerId, d: Drained, at: nat -> int, gaveUp: set<nat>, n: nat, m: nat)
    requires n <= m <= |d.job.rows| && Applicable(c, d.job.rows)
    requires forall i :: n <= i < m ==> d.job.rows[i].status.Settled?
    ensures DrainExcept(f, c, w, d, at, gaveUp, m) == DrainExcept(f, c, w, d, at, gaveUp, n)
  {
    hide ApplyRow, RecordOutcome, CountProgress;
    if n < m {
      SettledAreSkipped(f, c, w, d, at, gaveUp, n, m - 1);
    }
  }

  /** Equal but for the attempts its rows cost and the instant of its lease. */
  predicate SameButAttempts(a: Job, b: Job) {
    && a == b.(rows := a.rows, lockedAt := a.lockedAt) && |a.rows| == |b.rows|
    && forall i :: 0 <= i < |a.rows| ==> a.rows[i] == b.rows[i].(attempts := a.rows[i].attempts)
  }

  lemma SettledAlike(a: Job, b: Job, w: WorkerId, row: nat, o: Outcome, reason: Reason)
    requires SameButAttempts(a, b)
    ensures SameButAttempts(CountProgress(RecordOutcome(a, row, o, reason), w, o),
                            CountProgress(RecordOutcome(b, row, o, reason), w, o))
  {
  }

  lemma RetriedAlike(a: Job, b: Job, w: WorkerId, now: int, row: nat)
    requires SameButAttempts(a, b) && row < |a.rows| && a.status == Running && Holds(a, w)
    ensures SameButAttempts(ClaimJob(ReleaseJob(CountFailure(a, row), w), w, now), b)
  {
  }

  // ---------------------------------------------------------------------------------------
  // The trail of applications
  // ---------------------------------------------------------------------------------------

  /** `trail[k]` is the row application `k` was of; how often row `i` was applied with that fate. */
  function Applications(trail: seq<nat>, fails: nat -> bool, i: nat, failed: bool): nat {
    if trail == [] then 0
    else
      var k := |trail| - 1;
      Applications(trail[..k], fails, i, failed) + if trail[k] == i && fails(k) == failed then 1 else 0
  }

  lemma OneMoreApplication(trail: seq<nat>, fails: nat -> bool, row: nat, i: nat, failed: bool)
    ensures Applications(trail + [row], fails, i, failed) ==
            Applications(trail, fails, i, failed) + if row == i && fails(|trail|) == failed then 1 else 0
  {
    assert (trail + [row])[..|trail|] == trail;
  }

  /**
   What row `i`, found with `before`, has cost: five failures in all if it is given up, one success after fewer
   if not.
   */
  predicate Accounted(trail: seq<nat>, fails: nat -> bool, i: nat, before: JobRow, gaveUp: set<nat>) {
    var failures, successes := Applications(trail, fails, i, true), Applications(trail, fails, i, false);
    if before.status.Settled? then i !in gaveUp && failures == successes == 0
    else if i in gaveUp then before.attempts + failures == 5 && successes == 0
    else before.attempts + failures < 5 && successes == 1
  }

  /** Row `i` still waits: it has met failures only, and they are in its attempts. */
  predicate StillWaits(trail: seq<nat>, fails: nat -> bool, i: nat, before: JobRow, now: JobRow) {
    if before.status.Settled?
    then Applications(trail, fails, i, true) == Applications(trail, fails, i, false) == 0
    else before.attempts + Applications(trail, fails, i, true) == now.attempts && Applications(trail, fails, i, false) == 0
  }

  /**
   A drain under way: the directory and the job are those of the first `n` rows drained but for the
   given up ones, and every application so far is accounted for.
   */
  ghost predicate Midway(
    f: Foreign, c: Context, w: WorkerId, start: Drained, at: nat -> int, fails: nat -> bool,
    now: Drained, trail: seq<nat>, gaveUp: set<nat>, n: nat)
  {
    && n <= |start.job.rows| && Applicable(c, start.job.rows)
    && (forall i :: i in gaveUp ==> i < n)
    && var e := DrainExcept(f, c, w, start, at, gaveUp, n);
       && now.db == e.db && SameButAttempts(now.job, e.job)
       && (forall i :: 0 <= i < n ==> Accounted(trail, fails, i, start.job.rows[i], gaveUp))
       && forall i :: n <= i < |start.job.rows| ==> StillWaits(trail, fails, i, start.job.rows[i], now.job.rows[i])
  }

  lemma MidwayStarts(f: Foreign, c: Context, w: WorkerId, start: Drained, at: nat -> int, fails: nat -> bool)
    requires Applicable(c, start.job.rows)
    ensures Midway(f, c, w, start, at, fails, start, [], {}, 0)
  {
  }

  lemma MidwaySkips(
    f: Foreign, c: Context, w: WorkerId, start: Drained, at: nat -> int, fails: nat -> bool,
    now: Drained, trail: seq<nat>, gaveUp: set<nat>, n: nat, m: nat)
    requires Midway(f, c, w, start, at, fails, now, trail, gaveUp, n) && n <= m <= |start.job.rows|
    requires forall i :: n <= i < m ==> start.job.rows[i].status.Settled?
    ensures Midway(f, c, w, start, at, fails, now, trail, gaveUp, m)
  {
    SettledAreSkipped(f, c, w, start, at, gaveUp, n, m);
    hide DrainExcept, SameButAttempts, Applicable;
    forall i | 0 <= i < m
      ensures Accounted(trail, fails, i, start.job.rows[i], gaveUp)
    {
      if i >= n {
        assert StillWaits(trail, fails, i, start.job.rows[i], now.job.rows[i]);
      }
    }
  }

  /** Applications of one row leave the accounts of the others. */
  lemma OthersAccounts(
    start: Drained, fails: nat -> bool, trail: seq<nat>, gaveUp: set<nat>, gaveUp': set<nat>, row: nat,
    before: Job, after: Job)
    requires row < |start.job.rows| == |before.rows| == |after.rows|
    requires forall i :: 0 <= i < row ==> Accounted(trail, fails, i, start.job.rows[i], gaveUp)
    requires forall i :: row < i < |start.job.rows| ==> StillWaits(trail, fails, i, start.job.rows[i], before.rows[i])
    requires gaveUp' == gaveUp || gaveUp' == gaveUp + {row}
    requires forall i :: row < i < |before.rows| ==> after.rows[i] == before.rows[i]
    ensures forall i :: 0 <= i < row ==> Accounted(trail + [row], fails, i, start.job.rows[i], gaveUp')
    ensures forall i :: row < i < |start.job.rows| ==> StillWaits(trail + [row], fails, i, start.job.rows[i], after.rows[i])
  {
    forall i | 0 <= i < |start.job.rows| && i != row
      ensures Applications(trail + [row], fails, i, true) == Applications(trail, fails, i, true)
      ensures Applications(trail + [row], fails, i, false) == Applications(trail, fails, i, false)
    {
      OneMoreApplication(trail, fails, row, i, true);
      OneMoreApplication(trail, fails, row, i, false);
    }
    hide Applications;
  }

  /** The application went through: the row is applied as in any drain. */
  lemma MidwayApplies(
    f: Foreign, c: Context, w: WorkerId, start: Drained, at: nat -> int, fails: nat -> bool,
    now: Drained, trail: seq<nat>, gaveUp: set<nat>, row: nat)
    requires Midway(f, c, w, start, at, fails, now, trail, gaveUp, row) && row < |start.job.rows| == |now.job.rows|
    requires start.job.rows[row].status.Waiting? && now.job.rows[row].attempts < 5 && !fails(|trail|)
    requires ReadBack(now.job.rows[row]).identities == [] || c.scope.app.Some?
    ensures var e := ApplyRow(f, c, now.db, ReadBack(now.job.rows[row]), at(row));
            Midway(f, c, w, start, at, fails,
                   Drained(e.db, CountProgress(RecordOutcome(now.job, row, e.outcome, e.reason), w, e.outcome)),
                   trail + [row], gaveUp, row + 1)
  {
    var d := DrainExcept(f, c, w, start, at, gaveUp, row);
    var e := ApplyRow(f, c, now.db, ReadBack(now.job.rows[row]), at(row));
    var job := CountProgress(RecordOutcome(now.job, row, e.outcome, e.reason), w, e.outcome);
    assert ReadBack(d.job.rows[row]) == ReadBack(now.job.rows[row]);
    SettledAlike(now.job, d.job, w, row, e.outcome, e.reason);
    OnlyTheRow(now.job, w, row, e.outcome, e.reason);
    hide ApplyRow, RecordOutcome, CountProgress, ReadBack, GiveUpRow;
    assert DrainExcept(f, c, w, start, at, gaveUp, row + 1) == DrainRow(f, c, w, d, row, at(row));
    OthersAccounts(start, fails, trail, gaveUp, gaveUp, row, now.job, job);
    OneMoreApplication(trail, fails, row, row, true);
    OneMoreApplication(trail, fails, row, row, false);
    assert StillWaits(trail, fails, row, start.job.rows[row], now.job.rows[row]);
    hide Applications, SameButAttempts, DrainExcept;
  }

  lemma OnlyTheRow(job: Job, w: WorkerId, row: nat, o: Outcome, reason: Reason)
    ensures var job' := CountProgress(RecordOutcome(job, row, o, reason), w, o);
            |job'.rows| == |job.rows| && forall i :: 0 <= i < |job.rows| && i != row ==> job'.rows[i] == job.rows[i]
  {
  }

  /** The fifth failure: the row is given up. */
  lemma MidwayGivesUp(
    f: Foreign, c: Context, w: WorkerId, start: Drained, at: nat -> int, fails: nat -> bool,
    now: Drained, trail: seq<nat>, gaveUp: set<nat>, row: nat)
    requires Midway(f, c, w, start, at, fails, now, trail, gaveUp, row) && row < |start.job.rows| == |now.job.rows|
    requires start.job.rows[row].status.Waiting? && now.job.rows[row].attempts + 1 == 5 && fails(|trail|)
    ensures Midway(f, c, w, start, at, fails, Drained(now.db, GiveUpRow(now.job, w, row)),
                   trail + [row], gaveUp + {row}, row + 1)
  {
    var d := DrainExcept(f, c, w, start, at, gaveUp, row);
    GivenUpLater(f, c, w, start, at, gaveUp, gaveUp + {row}, row);
    SettledAlike(now.job, d.job, w, row, Reject, GaveUp(5));
    OnlyTheRow(now.job, w, row, Reject, GaveUp(5));
    assert DrainExcept(f, c, w, start, at, gaveUp + {row}, row + 1) == Drained(d.db, GiveUpRow(d.job, w, row)) by {
      hide GiveUpRow, DrainRow;
    }
    OthersAccounts(start, fails, trail, gaveUp, gaveUp + {row}, row, now.job, GiveUpRow(now.job, w, row));
    OneMoreApplication(trail, fails, row, row, true);
    OneMoreApplication(trail, fails, row, row, false);
    assert StillWaits(trail, fails, row, start.job.rows[row], now.job.rows[row]);
    hide Applications, SameButAttempts, DrainExcept, RecordOutcome, CountProgress;
  }

  /** A failure before the fifth: the row stays, one attempt more. */
  lemma MidwayRetries(
    f: Foreign, c: Context, w: WorkerId, start: Drained, at: nat -> int, fails: nat -> bool,
    now: Drained, trail: seq<nat>, gaveUp: set<nat>, row: nat, instant: int)
    requires Midway(f, c, w, start, at, fails, now, trail, gaveUp, row) && row < |start.job.rows| == |now.job.rows|
    requires now.job.status == Running && Holds(now.job, w)
    requires start.job.rows[row].status.Waiting? && fails(|trail|)
    ensures var job := ClaimJob(ReleaseJob(CountFailure(now.job, row), w), w, instant);
            Midway(f, c, w, start, at, fails, Drained(now.db, job), trail + [row], gaveUp, row)
  {
    var job := ClaimJob(ReleaseJob(CountFailure(now.job, row), w), w, instant);
    RetriedAlike(now.job, DrainExcept(f, c, w, start, at, gaveUp, row).job, w, instant, row);
    OthersAccounts(start, fails, trail, gaveUp, gaveUp, row, now.job, job);
    OneMoreApplication(trail, fails, row, row, true);
    OneMoreApplication(trail, fails, row, row, false);
    assert StillWaits(trail, fails, row, start.job.rows[row], now.job.rows[row]);
    assert job.rows[row].attempts == now.job.rows[row].attempts + 1;
    hide Applications, SameButAttempts, DrainExcept, CountFailure;
  }
}
