/**
 The durable import queue: the job and row tables, each statement issued against them, and what
 enqueueing writes.  A job's rows are its user_import_job_rows in row_index order.
 */
module ImportQueue {
  import opened Prelude
  import opened Directory
  import opened UserImport

  type WorkerId = int

  datatype JobStatus = Pending | Running | Completed | Failed | Cancelled

  datatype RowStatus = Waiting | Settled(outcome: Outcome)

  /** The plaintext password has its own column, so that it can be erased before the report is. */
  datatype JobRow = JobRow(
    payload: ImportUser, plaintext: Option<string>, status: RowStatus, reason: Reason, attempts: nat)

  datatype Job = Job(
    scope: Scope, updateExisting: bool, status: JobStatus,
    total: nat, processed: nat, created: nat, updated: nat, skipped: nat, rejected: nat,
    lockedBy: Option<WorkerId>, lockedAt: int, rows: seq<JobRow>)

  /** Seconds after which a lease counts as abandoned, and failures one row may cost. */
  const LEASE_TTL := 120
  const MAX_ROW_ATTEMPTS := 5

  predicate Holds(job: Job, w: WorkerId) { job.lockedBy == Some(w) }

  function Redact(u: ImportUser): ImportUser { u.(password := "", passwordHash := "") }

  // ---------------------------------------------------------------------------------------
  // Statements on a job
  // ---------------------------------------------------------------------------------------

  predicate Claimable(job: Job, now: int) {
    job.status == Pending || (job.status == Running && job.lockedAt < now - LEASE_TTL)
  }

  function ClaimJob(job: Job, w: WorkerId, now: int): Job {
    job.(status := Running, lockedBy := Some(w), lockedAt := now)
  }

  function RenewLease(job: Job, w: WorkerId, now: int): Job {
    if Holds(job, w) then job.(lockedAt := now) else job
  }

  function CompleteJob(job: Job, w: WorkerId): Job {
    if job.status == Running && Holds(job, w) then job.(status := Completed, lockedBy := None) else job
  }

  /** Fenced on the lease alone: a cancelled job still carries its lease and can be failed. */
  function FailJob(job: Job, w: WorkerId): Job {
    if Holds(job, w) then job.(status := Failed, lockedBy := None) else job
  }

  function ReleaseJob(job: Job, w: WorkerId): Job {
    if job.status == Running && Holds(job, w) then job.(status := Pending, lockedBy := None) else job
  }

  function CancelJob(job: Job): Job {
    if job.status == Pending || job.status == Running then job.(status := Cancelled) else job
  }

  function CountProgress(job: Job, w: WorkerId, o: Outcome): Job {
    if !Holds(job, w) then job
    else
      var j := job.(processed := job.processed + 1);
      match o
      case Create => j.(created := j.created + 1)
      case Update => j.(updated := j.updated + 1)
      case Skip => j.(skipped := j.skipped + 1)
      case Reject => j.(rejected := j.rejected + 1)
  }

  // ---------------------------------------------------------------------------------------
  // Statements on rows
  // ---------------------------------------------------------------------------------------

  function FirstWaiting(rows: seq<JobRow>, start: nat): (r: Option<nat>)
    requires start <= |rows|
    ensures r.Some? ==> start <= r.value < |rows| && rows[r.value].status == Waiting
                        && forall i :: start <= i < r.value ==> rows[i].status != Waiting
    ensures r.None? ==> forall i :: start <= i < |rows| ==> rows[i].status != Waiting
    decreases |rows| - start
  {
    if start == |rows| then None
    else if rows[start].status == Waiting then Some(start)
    else FirstWaiting(rows, start + 1)
  }

  /** The next row, joined with the job's status and lease in the same statement. */
  function NextRow(job: Job, w: WorkerId): Option<nat> {
    if job.status == Running && Holds(job, w) then FirstWaiting(job.rows, 0) else None
  }

  predicate RowClaimable(job: Job, w: WorkerId, row: nat) {
    row < |job.rows| && job.rows[row].status == Waiting && job.status == Running && Holds(job, w)
  }

  function CountFailure(job: Job, row: nat): Job {
    if row < |job.rows|
    then job.(rows := job.rows[row := job.rows[row].(attempts := job.rows[row].attempts + 1)])
    else job
  }

  /** Not fenced on the lease; erases both credentials with the verdict. */
  function RecordOutcome(job: Job, row: nat, o: Outcome, reason: Reason): Job {
    if row < |job.rows|
    then job.(rows := job.rows[row := job.rows[row].(
      status := Settled(o), reason := reason, plaintext := None, payload := Redact(job.rows[row].payload))])
    else job
  }

  function ClearRow(r: JobRow): JobRow {
    if r.status == Waiting then r.(plaintext := None, payload := Redact(r.payload)) else r
  }

  function ClearCredentials(job: Job): Job {
    job.(rows := seq(|job.rows|, i requires 0 <= i < |job.rows| => ClearRow(job.rows[i])))
  }

  function ReadBack(r: JobRow): ImportUser {
    if r.plaintext.Some? then r.payload.(password := r.plaintext.value) else r.payload
  }

  // ---------------------------------------------------------------------------------------
  // What the statements do
  // ---------------------------------------------------------------------------------------

  /** Who may work on it, and its status: nothing else of the job. */
  predicate SameWork(a: Job, b: Job) { b == a.(status := b.status, lockedBy := b.lockedBy, lockedAt := b.lockedAt) }

  /** A claim is exclusive until the lease, stamped again by each renewal, has run out. */
  lemma ClaimedIs(job: Job, w: WorkerId, now: int, later: int)
    ensures var c := ClaimJob(job, w, now);
            && SameWork(job, c) && c.status == Running && (forall v :: Holds(c, v) <==> v == w)
            && (Claimable(c, later) <==> later > now + 120)
            && RenewLease(c, w, later) == ClaimJob(job, w, later)
    ensures !Holds(job, w) ==> RenewLease(job, w, now) == job
  {
  }

  /** The statements that end a worker's claim: fenced on the lease, and final but for the release. */
  lemma HandedBackIs(job: Job, w: WorkerId, now: int)
    ensures !Holds(job, w) ==> ReleaseJob(job, w) == CompleteJob(job, w) == FailJob(job, w) == job
    ensures job.status != Running ==> ReleaseJob(job, w) == CompleteJob(job, w) == job
    ensures job.status == Running && Holds(job, w) ==>
              && SameWork(job, ReleaseJob(job, w)) && ReleaseJob(job, w).lockedBy == None && Claimable(ReleaseJob(job, w), now)
              && SameWork(job, CompleteJob(job, w)) && CompleteJob(job, w).lockedBy == None
              && CompleteJob(job, w).status == Completed && !Claimable(CompleteJob(job, w), now)
    ensures Holds(job, w) ==>
              && SameWork(job, FailJob(job, w)) && FailJob(job, w).lockedBy == None
              && FailJob(job, w).status == Failed && !Claimable(FailJob(job, w), now)
  {
  }

  /** Cancelling stops a job that has not ended, and no other; the lease stays, but counts for no further row. */
  lemma CancelledIs(job: Job, w: WorkerId, row: nat, now: int)
    ensures var c := CancelJob(job);
            && SameWork(job, c) && c.lockedBy == job.lockedBy && !RowClaimable(c, w, row) && !Claimable(c, now)
            && (if job.status in {Pending, Running} then c.status == Cancelled else c == job)
  {
  }

  /** Progress is one row of one outcome, for the holder of the lease alone. */
  lemma CountedIs(job: Job, w: WorkerId, o: Outcome)
    ensures var c := CountProgress(job, w, o);
            && c == job.(processed := c.processed, created := c.created, updated := c.updated, skipped := c.skipped,
                         rejected := c.rejected)
            && (!Holds(job, w) ==> c == job)
            && (Holds(job, w) ==>
                  && c.processed == job.processed + 1
                  && c.created - job.created == (if o == Create then 1 else 0)
                  && c.updated - job.updated == (if o == Update then 1 else 0)
                  && c.skipped - job.skipped == (if o == Skip then 1 else 0)
                  && c.rejected - job.rejected == (if o == Reject then 1 else 0))
  {
  }

  /** Only the one row of the job differs. */
  ghost predicate OtherRowsKept(a: Job, b: Job, row: nat) {
    && b == a.(rows := b.rows) && |b.rows| == |a.rows|
    && forall i :: 0 <= i < |a.rows| && i != row ==> b.rows[i] == a.rows[i]
  }

  /** A verdict is stored with its reason, and the credentials go with it. */
  lemma RecordedIs(job: Job, row: nat, o: Outcome, reason: Reason)
    requires row < |job.rows|
    ensures var c := RecordOutcome(job, row, o, reason);
            && OtherRowsKept(job, c, row)
            && c.rows[row].status == Settled(o) && c.rows[row].reason == reason
            && c.rows[row].attempts == job.rows[row].attempts
            && c.rows[row].plaintext == None
            && c.rows[row].payload == job.rows[row].payload.(password := "", passwordHash := "")
  {
  }

  /** A failed application costs the row one attempt and leaves it to be read back as it was. */
  lemma FailedRowIs(job: Job, row: nat)
    requires row < |job.rows|
    ensures var c := CountFailure(job, row);
            && OtherRowsKept(job, c, row) && c.rows[row].attempts == job.rows[row].attempts + 1
            && c.rows[row].status == job.rows[row].status && c.rows[row].reason == job.rows[row].reason
            && ReadBack(c.rows[row]) == ReadBack(job.rows[row])
  {
  }

  /** The sweep over a stopped job's credentials: none is left in a row still waiting, and settled rows stay. */
  lemma ClearedIs(job: Job, i: nat)
    requires i < |job.rows|
    ensures var c := ClearCredentials(job);
            && c == job.(rows := c.rows) && |c.rows| == |job.rows|
            && (job.rows[i].status.Settled? ==> c.rows[i] == job.rows[i])
            && (job.rows[i].status.Waiting? ==>
                  && ReadBack(c.rows[i]) == job.rows[i].payload.(password := "", passwordHash := "")
                  && c.rows[i].plaintext == None
                  && c.rows[i] == job.rows[i].(payload := c.rows[i].payload, plaintext := None))
  {
  }

  // ---------------------------------------------------------------------------------------
  // Enqueueing
  // ---------------------------------------------------------------------------------------

  /** One stored row: refused rows are settled at once and carry no credential. */
  function RowFor(u: ImportUser, v: Verdict): JobRow {
    var stored := u.(password := "", email := if v.email != "" then v.email else u.email);
    if v.outcome == Reject then JobRow(Redact(stored), None, Settled(Reject), v.reason, 0)
    else JobRow(stored, if u.password != "" then Some(u.password) else None, Waiting, NoReason, 0)
  }

  function RowsFor(users: seq<ImportUser>, verdicts: seq<Verdict>): (rows: seq<JobRow>)
    requires |users| == |verdicts|
    ensures |rows| == |users|
  {
    seq(|users|, i requires 0 <= i < |users| => RowFor(users[i], verdicts[i]))
  }

  function NewJob(scope: Scope, doc: Document, verdicts: seq<Verdict>): Job
    requires |doc.users| == |verdicts|
  {
    var refused := Tally(verdicts, Reject);
    Job(scope, doc.updateExisting, Pending, |doc.users|, refused, 0, 0, 0, refused, None, 0,
        RowsFor(doc.users, verdicts))
  }

  function SettledRows(job: Job): set<nat> {
    set i: nat | i < |job.rows| && job.rows[i].status.Settled?
  }

  /** No credential in a settled row, and no plaintext in any payload. */
  predicate Scrubbed(r: JobRow) {
    && r.payload.password == ""
    && (r.status.Settled? ==> r.plaintext.None? && r.payload.passwordHash == "")
  }

  /** What the first insert of a job and its rows looks like to the workers. */
  predicate FreshJob(job: Job) {
    && job.status == Pending && job.lockedBy == None
    && job.total == |job.rows|
    && job.created == job.updated == job.skipped == 0
    && job.processed == job.rejected == |SettledRows(job)|
    && forall i :: 0 <= i < |job.rows| ==>
      && Scrubbed(job.rows[i])
      && job.rows[i].attempts == 0
      && (job.rows[i].status.Settled? ==> job.rows[i].status.outcome == Reject)
  }

  ghost function RefusedIndices(verdicts: seq<Verdict>): set<nat> {
    set i: nat | i < |verdicts| && verdicts[i].outcome == Reject
  }

  lemma {:induction false} TallyIsCardinality(verdicts: seq<Verdict>)
    ensures Tally(verdicts, Reject) == |RefusedIndices(verdicts)|
  {
    if verdicts != [] {
      var n := |verdicts| - 1;
      var rest := verdicts[..n];
      TallyIsCardinality(rest);
      if verdicts[n].outcome == Reject {
        assert RefusedIndices(verdicts) == RefusedIndices(rest) + {n};
      } else {
        assert RefusedIndices(verdicts) == RefusedIndices(rest);
      }
    }
  }

  /**
   What enqueueing writes is a fresh job for the scope and mode uploaded, with a row for each user:
   the refused ones settled for their reasons, and counted before any worker sees the job.
   */
  lemma NewJobIsFresh(scope: Scope, doc: Document, verdicts: seq<Verdict>)
    requires |doc.users| == |verdicts|
    ensures var job := NewJob(scope, doc, verdicts);
            && FreshJob(job) && job.scope == scope && job.updateExisting == doc.updateExisting
            && job.total == |job.rows| == |doc.users|
            && forall i :: 0 <= i < |job.rows| ==>
                 if verdicts[i].outcome == Reject
                 then job.rows[i].status == Settled(Reject) && job.rows[i].reason == verdicts[i].reason
                 else job.rows[i].status == Waiting && job.rows[i].reason == NoReason
  {
    var job := NewJob(scope, doc, verdicts);
    TallyIsCardinality(verdicts);
    assert SettledRows(job) == RefusedIndices(verdicts);
  }

  /** Reading a waiting row back gives the uploaded user under its normalised address. */
  lemma ReadBackRestores(u: ImportUser, v: Verdict)
    requires v.outcome != Reject
    ensures ReadBack(RowFor(u, v)) == u.(email := if v.email != "" then v.email else u.email)
  {
  }
}
