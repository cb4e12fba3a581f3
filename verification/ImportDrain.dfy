/**
 Draining a queued import, and what that amounts to: the same directory, report and counts as
 committing the document directly.
 */
module ImportDrain {
  import opened Prelude
  import opened Directory
  import opened UserImport
  import opened ImportAgreement
  import opened ImportQueue

  /** The worker's treatment of one row; the role is resolved again, the address already normalised. */
  function ApplyRow(f: Foreign, c: Context, db: Db, u: ImportUser, at: int): RowEffect
    requires u.identities == [] || c.scope.app.Some?
  {
    match ResolveRole(f, u.role, c.roles, c.fallback)
    case Unavailable => RowEffect(db, Reject, RoleUnavailable(u.role))
    case Chosen(role) =>
      match FindUser(db, c.scope, u.email)
      case Some(id) =>
        if !c.updateExisting then RowEffect(db, Skip, AlreadyExists)
        else
          var amended := AmendRole(f, u.role, role);
          var before := PrimaryRoleName(db, id);
          var after := if amended.named then RoleNameFor(c.roles, amended.id) else before;
          var d := UpdateUser(db, c.scope.tenant, id, u, amended, at);
          RowEffect(d, Update, if before == after then RoleUnchanged else RoleChanged(before, after))
      case None =>
        match InsertUser(f, db, c.scope, u.email, u, role, at)
        case Duplicate => RowEffect(db, Skip, AlreadyExists)
        case Inserted(d) => RowEffect(d, Create, NoReason)
  }

  /** The worker and the synchronous commit treat a screened row alike. */
  lemma ApplyIsCommit(f: Foreign, c: Context, db: Db, seen: map<string, nat>, u: ImportUser, at: int)
    requires Screen(f, c, seen, u).Passed?
    ensures var s := Screen(f, c, seen, u);
            ApplyRow(f, c, db, u.(email := s.email), at) == CommitRow(f, c, false, db, s.email, u, s.role, at)
  {
  }

  /**
   A row whose role has gone since it was enqueued is rejected for that and writes nothing; any other is
   committed under its address, with the role it names or else the default.
   */
  lemma AppliedIs(f: Foreign, c: Context, db: Db, u: ImportUser, at: int)
    requires u.identities == [] || c.scope.app.Some?
    ensures var named, role := f.trim(u.role) != "", FindRole(c.roles, f.trim(u.role));
            ApplyRow(f, c, db, u, at) ==
            if named && role.None? then RowEffect(db, Reject, RoleUnavailable(u.role))
            else CommitRow(f, c, false, db, u.email, u, if named then role else c.fallback, at)
  {
  }

  /** The rows a worker may be asked to apply: those whose identities have an application to go to. */
  predicate Applicable(c: Context, rows: seq<JobRow>) {
    forall i :: 0 <= i < |rows| && rows[i].status == Waiting ==>
      rows[i].payload.identities == [] || c.scope.app.Some?
  }

  datatype Drained = Drained(db: Db, job: Job)

  function DrainRow(f: Foreign, c: Context, w: WorkerId, d: Drained, row: nat, at: int): (r: Drained)
    requires row < |d.job.rows| && Applicable(c, d.job.rows)
    ensures |r.job.rows| == |d.job.rows| && r.job.rows == d.job.rows[row := r.job.rows[row]]
    ensures r.job.rows[row].status.Settled?
    ensures r.job.status == d.job.status && r.job.lockedBy == d.job.lockedBy
  {
    if d.job.rows[row].status != Waiting then d
    else
      var e := ApplyRow(f, c, d.db, ReadBack(d.job.rows[row]), at);
      Drained(e.db, CountProgress(RecordOutcome(d.job, row, e.outcome, e.reason), w, e.outcome))
  }

  /** The queue and the directory once the first `n` rows have been drained. */
  function DrainTo(f: Foreign, c: Context, w: WorkerId, d: Drained, at: nat -> int, n: nat): (r: Drained)
    requires n <= |d.job.rows| && Applicable(c, d.job.rows)
    ensures |r.job.rows| == |d.job.rows| && Applicable(c, r.job.rows)
    ensures forall i :: 0 <= i < n ==> r.job.rows[i].status.Settled?
    ensures forall i :: n <= i < |d.job.rows| ==> r.job.rows[i] == d.job.rows[i]
    ensures r.job.status == d.job.status && r.job.lockedBy == d.job.lockedBy
  {
    hide DrainRow;
    if n == 0 then d else DrainRow(f, c, w, DrainTo(f, c, w, d, at, n - 1), n - 1, at(n - 1))
  }

  // ---------------------------------------------------------------------------------------
  // The instant of a write decides nothing but its own stamp
  // ---------------------------------------------------------------------------------------

  lemma InsertUpToStamps(
    f: Foreign, a: Db, b: Db, scope: Scope, email: string, u: ImportUser, role: Option<Id>, at: int, at': int)
    requires SameAccess(a, b)
    requires u.identities == [] || scope.app.Some?
    ensures var x := InsertUser(f, a, scope, email, u, role, at);
            var y := InsertUser(f, b, scope, email, u, role, at');
            && x.Inserted? == y.Inserted?
            && (x.Inserted? ==> SameAccess(x.db, y.db))
  {
  }

  lemma UpdateUpToStamps(a: Db, b: Db, tenant: Id, id: Id, u: ImportUser, role: AmendedRole, at: int, at': int)
    requires SameAccess(a, b)
    ensures SameAccess(UpdateUser(a, tenant, id, u, role, at), UpdateUser(b, tenant, id, u, role, at'))
  {
  }

  lemma CommitRowUpToStamps(
    f: Foreign, c: Context, a: Db, b: Db, email: string, u: ImportUser, role: Option<Id>, at: int, at': int)
    requires SameAccess(a, b)
    requires u.identities == [] || c.scope.app.Some?
    ensures var x := CommitRow(f, c, false, a, email, u, role, at);
            var y := CommitRow(f, c, false, b, email, u, role, at');
            && x.outcome == y.outcome && x.reason == y.reason && SameAccess(x.db, y.db)
  {
    hide InsertUser, UpdateUser;
    match FindUser(a, c.scope, email)
    case Some(id) => UpdateUpToStamps(a, b, c.scope.tenant, id, u, AmendRole(f, u.role, role), at, at');
    case None => InsertUpToStamps(f, a, b, c.scope, email, u, role, at, at');
  }

  lemma {:induction false} RunUpToStamps(
    f: Foreign, c: Context, db: Db, users: seq<ImportUser>, at: nat -> int, at': nat -> int, n: nat)
    requires n <= |users|
    ensures var x := RunTo(f, c, false, db, users, at, n);
            var y := RunTo(f, c, false, db, users, at', n);
            x.rows == y.rows && SameAccess(x.db, y.db)
  {
    hide RunRow, CommitRow, ScreenedAt;
    if n > 0 {
      RunUpToStamps(f, c, db, users, at, at', n - 1);
      RunOneMore(f, c, false, db, users, at, n - 1);
      RunOneMore(f, c, false, db, users, at', n - 1);
      var s := ScreenedAt(f, c, users, n - 1);
      if s.Passed? {
        CommitRowUpToStamps(f, c, RunTo(f, c, false, db, users, at, n - 1).db, RunTo(f, c, false, db, users, at', n - 1).db,
                            s.email, users[n - 1], s.role, at(n - 1), at'(n - 1));
      }
      var x := RunTo(f, c, false, db, users, at, n).rows;
      var y := RunTo(f, c, false, db, users, at', n).rows;
      assert x == x[..n - 1] + [x[n - 1]] && y == y[..n - 1] + [y[n - 1]];
    }
  }

  // ---------------------------------------------------------------------------------------
  // Enqueue, then drain
  // ---------------------------------------------------------------------------------------

  /** A job as its worker finds it: enqueued from a dry run, then claimed. */
  function Queued(
    f: Foreign, c: Context, db: Db, users: seq<ImportUser>, w: WorkerId, now: int, at: nat -> int
  ): (job: Job)
    ensures |job.rows| == |users|
  {
    ClaimJob(NewJob(c.scope, Document(users, c.updateExisting), RunAll(f, c, true, db, users, at).rows), w, now)
  }

  /** What the report shows for a settled row. */
  predicate Reports(r: JobRow, v: Verdict) {
    r.status == Settled(v.outcome) && r.reason == v.reason && r.payload.email == v.email
  }

  lemma QueuedRow(f: Foreign, c: Context, db: Db, users: seq<ImportUser>, w: WorkerId, now: int, at: nat -> int, i: nat)
    requires i < |users|
    ensures var row := Queued(f, c, db, users, w, now, at).rows[i];
            var s := ScreenedAt(f, c, users, i);
            && (s.Refused? ==> Reports(row, Verdict(i, s.email, Reject, s.reason)))
            && (s.Passed? ==> row.status == Waiting && row.payload.email == s.email
                              && ReadBack(row) == users[i].(email := s.email))
  {
    RunShape(f, c, true, db, users, at, |users|);
    var v := RunAll(f, c, true, db, users, at).rows[i];
    if v.outcome != Reject {
      ReadBackRestores(users[i], v);
    }
  }

  lemma QueuedIsApplicable(f: Foreign, c: Context, db: Db, users: seq<ImportUser>, w: WorkerId, now: int, at: nat -> int)
    ensures Applicable(c, Queued(f, c, db, users, w, now, at).rows)
  {
    var rows := Queued(f, c, db, users, w, now, at).rows;
    forall i | 0 <= i < |rows| && rows[i].status == Waiting
      ensures rows[i].payload.identities == [] || c.scope.app.Some?
    {
      QueuedRow(f, c, db, users, w, now, at, i);
      assert ReadBack(rows[i]).identities == users[i].identities;
    }
  }

  lemma {:induction false} SameRefusals(a: seq<Verdict>, b: seq<Verdict>)
    requires |a| == |b| && forall i :: 0 <= i < |a| ==> (a[i].outcome == Reject <==> b[i].outcome == Reject)
    ensures Tally(a, Reject) == Tally(b, Reject)
  {
    if a != [] {
      SameRefusals(a[..|a| - 1], b[..|b| - 1]);
    }
  }

  /** The drain and the commit after the same `n` rows; refusals were counted when the job was written. */
  ghost predicate InStep(d: Drained, r: Run, refused: nat, n: nat)
    requires n <= |d.job.rows| && n <= |r.rows|
  {
    && d.db == r.db
    && (forall i :: 0 <= i < n ==> Reports(d.job.rows[i], r.rows[i]))
    && d.job.created == Tally(r.rows, Create)
    && d.job.updated == Tally(r.rows, Update)
    && d.job.skipped == Tally(r.rows, Skip)
    && d.job.rejected == refused
    && d.job.processed == refused + d.job.created + d.job.updated + d.job.skipped
  }

  lemma {:induction false} DrainInStep(
    f: Foreign, c: Context, db: Db, users: seq<ImportUser>, w: WorkerId, now: int, at: nat -> int, n: nat)
    requires n <= |users|
    requires Applicable(c, Queued(f, c, db, users, w, now, at).rows)
    ensures var d := DrainTo(f, c, w, Drained(db, Queued(f, c, db, users, w, now, at)), at, n);
            InStep(d, RunTo(f, c, false, db, users, at, n), Tally(RunAll(f, c, true, db, users, at).rows, Reject), n)
  {
    if n > 0 {
      DrainInStep(f, c, db, users, w, now, at, n - 1);
      RowInStep(f, c, db, users, w, now, at, n - 1);
    }
  }

  /** One more drained row, in terms of how the file screens it. */
  lemma DrainOneMore(
    f: Foreign, c: Context, db: Db, users: seq<ImportUser>, w: WorkerId, now: int, at: nat -> int, i: nat)
    requires i < |users|
    requires Applicable(c, Queued(f, c, db, users, w, now, at).rows)
    ensures var q := Drained(db, Queued(f, c, db, users, w, now, at));
            var d := DrainTo(f, c, w, q, at, i);
            var s := ScreenedAt(f, c, users, i);
            && (s.Refused? ==> DrainTo(f, c, w, q, at, i + 1) == d)
            && (s.Passed? ==>
                  var e := CommitRow(f, c, false, d.db, s.email, users[i], s.role, at(i));
                  && e.outcome != Reject
                  && DrainTo(f, c, w, q, at, i + 1) ==
                     Drained(e.db, CountProgress(RecordOutcome(d.job, i, e.outcome, e.reason), w, e.outcome)))
  {
    hide ApplyRow, CommitRow, RowFault, Queued, RunTo;
    var q := Drained(db, Queued(f, c, db, users, w, now, at));
    var d := DrainTo(f, c, w, q, at, i);
    var s := ScreenedAt(f, c, users, i);
    QueuedRow(f, c, db, users, w, now, at, i);
    assert d.job.rows[i] == q.job.rows[i];
    if s.Passed? {
      ApplyIsCommit(f, c, d.db, SeenTo(f, users, i), users[i], at(i));
    }
  }

  lemma RowInStep(
    f: Foreign, c: Context, db: Db, users: seq<ImportUser>, w: WorkerId, now: int, at: nat -> int, i: nat)
    requires i < |users|
    requires Applicable(c, Queued(f, c, db, users, w, now, at).rows)
    requires var d := DrainTo(f, c, w, Drained(db, Queued(f, c, db, users, w, now, at)), at, i);
             InStep(d, RunTo(f, c, false, db, users, at, i), Tally(RunAll(f, c, true, db, users, at).rows, Reject), i)
    ensures var d := DrainTo(f, c, w, Drained(db, Queued(f, c, db, users, w, now, at)), at, i + 1);
            InStep(d, RunTo(f, c, false, db, users, at, i + 1), Tally(RunAll(f, c, true, db, users, at).rows, Reject), i + 1)
  {
    hide RunRow, DrainRow, CommitRow, RowFault;
    var job := Queued(f, c, db, users, w, now, at);
    var d := DrainTo(f, c, w, Drained(db, job), at, i);
    var d' := DrainTo(f, c, w, Drained(db, job), at, i + 1);
    var refused := Tally(RunAll(f, c, true, db, users, at).rows, Reject);
    QueuedRow(f, c, db, users, w, now, at, i);
    RunOneMore(f, c, false, db, users, at, i);
    DrainOneMore(f, c, db, users, w, now, at, i);
    Advance(d, RunTo(f, c, false, db, users, at, i), d', RunTo(f, c, false, db, users, at, i + 1), w, refused,
            ScreenedAt(f, c, users, i),
            if ScreenedAt(f, c, users, i).Passed?
            then CommitRow(f, c, false, d.db, ScreenedAt(f, c, users, i).email, users[i], ScreenedAt(f, c, users, i).role, at(i))
            else RowEffect(d.db, Reject, NoReason));
  }

  lemma Advance(d: Drained, r: Run, d': Drained, r': Run, w: WorkerId, refused: nat, s: Screened, e: RowEffect)
    requires var i := |r.rows|;
             && i < |d.job.rows| && |r'.rows| == i + 1 && r'.rows[..i] == r.rows
             && InStep(d, r, refused, i) && Holds(d.job, w)
             && d.job.rows[i].payload.email == s.email
             && (s.Refused? ==>
                   && d' == d && r'.db == r.db
                   && r'.rows[i] == Verdict(i, s.email, Reject, s.reason) && Reports(d.job.rows[i], r'.rows[i]))
             && (s.Passed? ==>
                   && e.outcome != Reject
                   && d' == Drained(e.db, CountProgress(RecordOutcome(d.job, i, e.outcome, e.reason), w, e.outcome))
                   && r'.db == e.db && r'.rows[i] == Verdict(i, s.email, e.outcome, e.reason))
    ensures |d'.job.rows| == |d.job.rows| && InStep(d', r', refused, |r.rows| + 1)
  {
    assert r'.rows == r.rows + [r'.rows[|r.rows|]];
    match s
    case Passed(email, _) => AdvanceSettled(d, r, d', r', w, refused, email, e);
    case Refused(_, _) => AdvanceRefused(d, r, r', refused);
  }

  lemma AdvanceSettled(d: Drained, r: Run, d': Drained, r': Run, w: WorkerId, refused: nat, email: string, e: RowEffect)
    requires var i := |r.rows|;
             && i < |d.job.rows| && InStep(d, r, refused, i)
             && d.job.rows[i].payload.email == email && Holds(d.job, w)
             && e.outcome != Reject
             && d' == Drained(e.db, CountProgress(RecordOutcome(d.job, i, e.outcome, e.reason), w, e.outcome))
             && r'.db == e.db && r'.rows == r.rows + [Verdict(i, email, e.outcome, e.reason)]
    ensures InStep(d', r', refused, |r.rows| + 1)
  {
  }

  lemma AdvanceRefused(d: Drained, r: Run, r': Run, refused: nat)
    requires var i := |r.rows|;
             && i < |d.job.rows| && InStep(d, r, refused, i)
             && |r'.rows| == i + 1 && r'.rows == r.rows + [r'.rows[i]]
             && r'.rows[i].outcome == Reject && Reports(d.job.rows[i], r'.rows[i])
             && r'.db == r.db
    ensures InStep(d, r', refused, |r.rows| + 1)
  {
  }

  /**
   With no other writer and no storage failure, enqueueing a document and draining it gives the
   directory, the report and the four counts of committing it directly, at whatever instants the
   rows are written.
   */
  lemma QueueThenDrainIsCommit(
    f: Foreign, c: Context, db: Db, users: seq<ImportUser>, w: WorkerId, now: int, at: nat -> int, at': nat -> int)
    ensures Applicable(c, Queued(f, c, db, users, w, now, at).rows)
    ensures var done := DrainTo(f, c, w, Drained(db, Queued(f, c, db, users, w, now, at)), at, |users|);
            var job := CompleteJob(done.job, w);
            var commit := RunAll(f, c, false, db, users, at');
            && job.status == Completed
            && SameAccess(done.db, commit.db)
            && (forall i :: 0 <= i < |users| ==> Reports(job.rows[i], commit.rows[i]))
            && job.created == Tally(commit.rows, Create)
            && job.updated == Tally(commit.rows, Update)
            && job.skipped == Tally(commit.rows, Skip)
            && job.rejected == Tally(commit.rows, Reject)
            && job.processed == job.total == |users|
  {
    hide RunRow, DrainRow;
    QueuedIsApplicable(f, c, db, users, w, now, at);
    DrainInStep(f, c, db, users, w, now, at, |users|);
    RunUpToStamps(f, c, db, users, at, at', |users|);
    DrainKeepsTotal(f, c, w, Drained(db, Queued(f, c, db, users, w, now, at)), at, |users|);
    CommitCountsItsRefusals(f, c, db, users, at);
  }

  lemma CommitCountsItsRefusals(f: Foreign, c: Context, db: Db, users: seq<ImportUser>, at: nat -> int)
    ensures var dry := RunAll(f, c, true, db, users, at).rows;
            var wet := RunAll(f, c, false, db, users, at).rows;
            && Tally(dry, Reject) == Tally(wet, Reject)
            && |users| == Tally(wet, Create) + Tally(wet, Skip) + Tally(wet, Update) + Tally(wet, Reject)
  {
    RunShape(f, c, true, db, users, at, |users|);
    RunShape(f, c, false, db, users, at, |users|);
    SameRefusals(RunAll(f, c, true, db, users, at).rows, RunAll(f, c, false, db, users, at).rows);
    TalliesSum(RunAll(f, c, false, db, users, at).rows);
  }

  lemma {:induction false} DrainKeepsTotal(f: Foreign, c: Context, w: WorkerId, d: Drained, at: nat -> int, n: nat)
    requires n <= |d.job.rows| && Applicable(c, d.job.rows)
    ensures DrainTo(f, c, w, d, at, n).job.total == d.job.total
  {
    if n > 0 {
      DrainKeepsTotal(f, c, w, d, at, n - 1);
    }
  }
}
