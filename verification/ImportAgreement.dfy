/**
 What the import promises about whole documents: the shape of the report, when the dry run and
 the commit say the same thing, and what committing a document a second time does.
 */
module ImportAgreement {
  import opened Prelude
  import opened Directory
  import opened UserImport

  // ---------------------------------------------------------------------------------------
  // The addresses a file has used, which depend on nothing but the file
  // ---------------------------------------------------------------------------------------

  function SeenTo(f: Foreign, users: seq<ImportUser>, n: nat): map<string, nat>
    requires n <= |users|
  {
    if n == 0 then map[] else Mark(f, SeenTo(f, users, n - 1), users[n - 1], n - 1)
  }

  function ScreenedAt(f: Foreign, c: Context, users: seq<ImportUser>, i: nat): (s: Screened)
    requires i < |users|
    ensures s.Passed? ==> users[i].identities == [] || c.scope.app.Some?
    ensures s.Passed? ==> IdentitiesFault(users[i].identities, {}).None?
    ensures s.Passed? ==> s.email == f.normalize(users[i].email) && s.email !in SeenTo(f, users, i)
  {
    Screen(f, c, SeenTo(f, users, i), users[i])
  }

  lemma {:induction false} SeenGrows(f: Foreign, c: Context, users: seq<ImportUser>, i: nat, n: nat)
    requires i < n <= |users|
    ensures ScreenedAt(f, c, users, i).Passed? ==> ScreenedAt(f, c, users, i).email in SeenTo(f, users, n)
  {
    if i < n - 1 {
      SeenGrows(f, c, users, i, n - 1);
    }
  }

  /** Every row is judged on its own position, and a refusal is the file's alone. */
  lemma {:induction false} RunShape(
    f: Foreign, c: Context, dryRun: bool, db: Db, users: seq<ImportUser>, at: nat -> int, n: nat)
    requires n <= |users|
    ensures var r := RunTo(f, c, dryRun, db, users, at, n);
            && r.seen == SeenTo(f, users, n)
            && forall i :: 0 <= i < n ==>
              && r.rows[i].index == i
              && r.rows[i].email == ScreenedAt(f, c, users, i).email
              && (r.rows[i].outcome == Reject <==> ScreenedAt(f, c, users, i).Refused?)
              && (ScreenedAt(f, c, users, i).Refused? ==> r.rows[i].reason == ScreenedAt(f, c, users, i).reason)
  {
    hide CommitRow, Screen, Mark;
    if n > 0 {
      RunShape(f, c, dryRun, db, users, at, n - 1);
    }
  }

  /** The row decided at position `i` is never revised by later rows. */
  lemma {:induction false} RunPrefix(
    f: Foreign, c: Context, dryRun: bool, db: Db, users: seq<ImportUser>, at: nat -> int, i: nat, n: nat)
    requires i < n <= |users|
    ensures RunTo(f, c, dryRun, db, users, at, n).rows[i] == RunTo(f, c, dryRun, db, users, at, i + 1).rows[i]
  {
    hide RunRow;
    if i < n - 1 {
      RunPrefix(f, c, dryRun, db, users, at, i, n - 1);
    }
  }

  lemma {:induction false} TalliesSum(rows: seq<Verdict>)
    ensures |rows| == Tally(rows, Create) + Tally(rows, Skip) + Tally(rows, Update) + Tally(rows, Reject)
  {
    if rows != [] {
      TalliesSum(rows[..|rows| - 1]);
    }
  }

  // ---------------------------------------------------------------------------------------
  // What one row's write leaves alone
  // ---------------------------------------------------------------------------------------

  function IdentityKeys(scope: Scope, ids: seq<Identity>): set<IdentityKey> {
    if scope.app.None? then {}
    else set i | 0 <= i < |ids| :: IdentityKey(scope.tenant, scope.app.value, ids[i].provider, ids[i].sub)
  }

  lemma {:induction false} FreshProviders(ids: seq<Identity>, seen: set<string>)
    requires IdentitiesFault(ids, seen).None?
    ensures forall i :: 0 <= i < |ids| ==> ids[i].provider !in seen
  {
    if ids != [] {
      FreshProviders(ids[1..], seen + {ids[0].provider});
      assert forall i :: 0 < i < |ids| ==> ids[i] == ids[1..][i - 1];
    }
  }

  /** Validated identities are refused by the database exactly when one of them is already linked. */
  lemma {:induction false} InsertIdentitiesIff(
    taken: map<IdentityKey, Id>, scope: Scope, user: Id, ids: seq<Identity>, providers: set<string>)
    requires scope.app.Some?
    requires IdentitiesFault(ids, providers).None?
    ensures var r := InsertIdentities(taken, scope.tenant, scope.app.value, user, ids, providers);
            && (r.Some? <==> IdentityKeys(scope, ids) !! taken.Keys)
            && (r.Some? ==> r.value.Keys == taken.Keys + IdentityKeys(scope, ids))
    decreases |ids|
  {
    if ids != [] {
      var k := IdentityKey(scope.tenant, scope.app.value, ids[0].provider, ids[0].sub);
      var rest := ids[1..];
      FreshProviders(rest, providers + {ids[0].provider});
      assert forall i :: 0 < i < |ids| ==> ids[i] == rest[i - 1];
      assert forall i :: 0 <= i < |rest| ==> rest[i] == ids[i + 1];
      assert IdentityKeys(scope, ids) == {k} + IdentityKeys(scope, rest);
      assert k !in IdentityKeys(scope, rest);
      if k !in taken && ids[0].provider !in providers {
        InsertIdentitiesIff(taken[k := user], scope, user, rest, providers + {ids[0].provider});
      }
    }
  }

  predicate ProvidersDiffer(ids: seq<Identity>) {
    forall i, j :: 0 <= i < j < |ids| ==> ids[i].provider != ids[j].provider
  }

  /** Identities, validated or not, are taken up exactly when no provider repeats and none is linked already. */
  lemma {:induction false} InsertIdentitiesDecided(
    taken: map<IdentityKey, Id>, scope: Scope, user: Id, ids: seq<Identity>, providers: set<string>)
    requires scope.app.Some?
    ensures InsertIdentities(taken, scope.tenant, scope.app.value, user, ids, providers).Some? <==>
            && ProvidersDiffer(ids) && (forall i :: 0 <= i < |ids| ==> ids[i].provider !in providers)
            && IdentityKeys(scope, ids) !! taken.Keys
    decreases |ids|
  {
    if ids != [] {
      var k := IdentityKey(scope.tenant, scope.app.value, ids[0].provider, ids[0].sub);
      var rest := ids[1..];
      assert forall i :: 0 < i < |ids| ==> ids[i] == rest[i - 1];
      assert forall i :: 0 <= i < |rest| ==> rest[i] == ids[i + 1];
      assert IdentityKeys(scope, ids) == {k} + IdentityKeys(scope, rest);
      if k !in taken && ids[0].provider !in providers {
        InsertIdentitiesDecided(taken[k := user], scope, user, rest, providers + {ids[0].provider});
        if forall i :: 0 <= i < |rest| ==> rest[i].provider != ids[0].provider {
          assert k !in IdentityKeys(scope, rest);
        }
      }
    }
  }

  /** A user with a new address is inserted exactly when no provider repeats and no identity is linked already. */
  lemma InsertedIff(f: Foreign, db: Db, scope: Scope, email: string, u: ImportUser, role: Option<Id>, at: int)
    requires u.identities == [] || scope.app.Some?
    ensures InsertUser(f, db, scope, email, u, role, at).Inserted? <==>
            FindUser(db, scope, email).None? && ProvidersDiffer(u.identities)
            && IdentityKeys(scope, u.identities) !! db.identities.Keys
  {
    if scope.app.Some? {
      InsertIdentitiesDecided(db.identities, scope, db.nextUser, u.identities, {});
    }
  }

  /** Every link of `a` is still one of `b`, and to the same user. */
  ghost predicate LinksKept(a: map<IdentityKey, Id>, b: map<IdentityKey, Id>) {
    a.Keys <= b.Keys && forall k :: k in a ==> b[k] == a[k]
  }

  ghost predicate LinkedTo(links: map<IdentityKey, Id>, tenant: Id, app: Id, ids: seq<Identity>, user: Id) {
    forall i :: 0 <= i < |ids| ==>
      var k := IdentityKey(tenant, app, ids[i].provider, ids[i].sub);
      k in links && links[k] == user
  }

  /** Every link is to one of the users. */
  ghost predicate LinksLead(links: map<IdentityKey, Id>, users: set<Id>) {
    forall k :: k in links ==> links[k] in users
  }

  lemma {:induction false} InsertedLinksLead(
    taken: map<IdentityKey, Id>, tenant: Id, app: Id, user: Id, ids: seq<Identity>, providers: set<string>,
    users: set<Id>)
    requires user in users && LinksLead(taken, users)
    ensures var r := InsertIdentities(taken, tenant, app, user, ids, providers);
            r.Some? ==> LinksLead(r.value, users)
    decreases |ids|
  {
    if ids != [] {
      var k := IdentityKey(tenant, app, ids[0].provider, ids[0].sub);
      InsertedLinksLead(taken[k := user], tenant, app, user, ids[1..], providers + {ids[0].provider}, users);
    }
  }

  /** What is inserted is linked to the user, and no link is lost or moved. */
  lemma {:induction false} IdentitiesOnlyGrow(
    taken: map<IdentityKey, Id>, tenant: Id, app: Id, user: Id, ids: seq<Identity>, providers: set<string>)
    ensures var r := InsertIdentities(taken, tenant, app, user, ids, providers);
            r.Some? ==> LinksKept(taken, r.value) && LinkedTo(r.value, tenant, app, ids, user)
    decreases |ids|
  {
    if ids != [] {
      var k := IdentityKey(tenant, app, ids[0].provider, ids[0].sub);
      if k !in taken && ids[0].provider !in providers {
        var r := InsertIdentities(taken[k := user], tenant, app, user, ids[1..], providers + {ids[0].provider});
        IdentitiesOnlyGrow(taken[k := user], tenant, app, user, ids[1..], providers + {ids[0].provider});
        if r.Some? {
          assert k in taken[k := user] && r.value[k] == user;
          assert forall j :: j in taken ==> j in taken[k := user] && r.value[j] == taken[j];
          assert forall i :: 0 < i < |ids| ==> ids[i] == ids[1..][i - 1];
        }
      }
    }
  }

  /** A clash stays a clash while identities are only added. */
  lemma {:induction false} ClashPersists(
    small: map<IdentityKey, Id>, big: map<IdentityKey, Id>, tenant: Id, app: Id, u1: Id, u2: Id,
    ids: seq<Identity>, providers: set<string>)
    requires small.Keys <= big.Keys
    requires InsertIdentities(small, tenant, app, u1, ids, providers).None?
    ensures InsertIdentities(big, tenant, app, u2, ids, providers).None?
    decreases |ids|
  {
    var k := IdentityKey(tenant, app, ids[0].provider, ids[0].sub);
    if k !in big && ids[0].provider !in providers {
      ClashPersists(small[k := u1], big[k := u2], tenant, app, u1, u2, ids[1..], providers + {ids[0].provider});
    }
  }

  /** `b` differs from `a` at most in what belongs to the user with address `email` of `scope`. */
  ghost predicate ChangesOnly(a: Db, b: Db, scope: Scope, email: string) {
    && a.roles == b.roles
    && LinksKept(a.identities, b.identities)
    && a.nextUser <= b.nextUser
    && (forall k :: k in a.emails ==> k in b.emails && b.emails[k] == a.emails[k])
    && (forall k :: k in b.emails && k !in a.emails ==> k == UserKey(scope, email))
    && (forall id :: id in a.users ==> id in b.users)
    && (forall id :: id in a.users && FindUser(b, scope, email) != Some(id) ==> b.users[id] == a.users[id])
    && (forall k :: k in a.userRoles && FindUser(b, scope, email) != Some(k.0) ==>
          k in b.userRoles && b.userRoles[k] == a.userRoles[k])
    && (forall k :: k in b.userRoles && FindUser(b, scope, email) != Some(k.0) ==> k in a.userRoles)
  }

  lemma InsertConsistent(f: Foreign, db: Db, scope: Scope, email: string, u: ImportUser, role: Option<Id>, at: int)
    requires Consistent(db)
    requires u.identities == [] || scope.app.Some?
    requires InsertUser(f, db, scope, email, u, role, at).Inserted?
    ensures Consistent(InsertUser(f, db, scope, email, u, role, at).db)
  {
    var d := InsertUser(f, db, scope, email, u, role, at).db;
    var id := db.nextUser;
    var known := db.users.Keys + {id};
    var app := if scope.app.Some? then scope.app.value else 0;
    hide InsertIdentities;
    assert LinksLead(db.identities, known);
    InsertedLinksLead(db.identities, scope.tenant, app, id, u.identities, {}, known);
    var links := InsertIdentities(db.identities, scope.tenant, app, id, u.identities, {});
    assert links.Some? && d.identities == links.value;
    assert d.users.Keys == known;
    assert LinksLead(d.identities, d.users.Keys);
    assert id !in db.users && d.users[id].live && d.emails[UserKey(scope, email)] == id;
    assert UserKey(d.users[id].scope, d.users[id].email) == UserKey(scope, email);
    assert forall other :: other in db.users ==> d.users[other] == db.users[other];
  }

  lemma InsertChangesOnly(f: Foreign, db: Db, scope: Scope, email: string, u: ImportUser, role: Option<Id>, at: int)
    requires Consistent(db)
    requires u.identities == [] || scope.app.Some?
    requires InsertUser(f, db, scope, email, u, role, at).Inserted?
    ensures var d := InsertUser(f, db, scope, email, u, role, at).db;
            ChangesOnly(db, d, scope, email) && FindUser(d, scope, email) == Some(db.nextUser)
  {
    var d := InsertUser(f, db, scope, email, u, role, at).db;
    IdentitiesOnlyGrow(db.identities, scope.tenant, if scope.app.Some? then scope.app.value else 0,
                       db.nextUser, u.identities, {});
    assert db.nextUser !in db.users;
    assert forall k :: k in d.userRoles && k.0 != db.nextUser ==> k in db.userRoles;
  }

  lemma UpdateFrame(db: Db, scope: Scope, email: string, u: ImportUser, role: AmendedRole, at: int)
    requires Consistent(db)
    requires FindUser(db, scope, email).Some?
    ensures var d := UpdateUser(db, scope.tenant, FindUser(db, scope, email).value, u, role, at);
            && Consistent(d)
            && ChangesOnly(db, d, scope, email)
            && d.identities == db.identities
  {
    var id := FindUser(db, scope, email).value;
    var d := UpdateUser(db, scope.tenant, id, u, role, at);
    assert d.emails == db.emails;
    assert forall k :: k in d.userRoles && k.0 != id ==> k in db.userRoles && d.userRoles[k] == db.userRoles[k];
  }

  lemma CommitRowFrame(
    f: Foreign, c: Context, dryRun: bool, db: Db, email: string, u: ImportUser, role: Option<Id>, at: int)
    requires Consistent(db)
    requires u.identities == [] || c.scope.app.Some?
    ensures var e := CommitRow(f, c, dryRun, db, email, u, role, at);
            && Consistent(e.db)
            && ChangesOnly(db, e.db, c.scope, email)
            && (dryRun ==> e.db == db)
            && (e.outcome == Create && !dryRun ==> FindUser(e.db, c.scope, email).Some?)
  {
    hide InsertUser, UpdateUser;
    if FindUser(db, c.scope, email).Some? {
      UpdateFrame(db, c.scope, email, u, AmendRole(f, u.role, role), at);
    } else if InsertUser(f, db, c.scope, email, u, role, at).Inserted? {
      InsertConsistent(f, db, c.scope, email, u, role, at);
      InsertChangesOnly(f, db, c.scope, email, u, role, at);
    }
  }

  /** One more row of a run, in terms of how the file screens it. */
  lemma RunOneMore(f: Foreign, c: Context, dryRun: bool, db: Db, users: seq<ImportUser>, at: nat -> int, i: nat)
    requires i < |users|
    ensures var r := RunTo(f, c, dryRun, db, users, at, i);
            var s := ScreenedAt(f, c, users, i);
            var r' := RunTo(f, c, dryRun, db, users, at, i + 1);
            && r'.rows[..i] == r.rows
            && (s.Refused? ==> r'.db == r.db && r'.rows[i] == Verdict(i, s.email, Reject, s.reason))
            && (s.Passed? ==>
                  var e := CommitRow(f, c, dryRun, r.db, s.email, users[i], s.role, at(i));
                  r'.db == e.db && r'.rows[i] == Verdict(i, s.email, e.outcome, e.reason))
  {
    hide CommitRow;
    RunShape(f, c, dryRun, db, users, at, i);
  }

  // ---------------------------------------------------------------------------------------
  // The commit and the dry run side by side
  // ---------------------------------------------------------------------------------------

  /** The same roles, granted at the same instants. */
  ghost predicate SameGrants(a: Db, b: Db, id: Id) {
    forall r :: ((id, r) in b.userRoles <==> (id, r) in a.userRoles)
                && ((id, r) in a.userRoles ==> b.userRoles[(id, r)] == a.userRoles[(id, r)])
  }

  /** Whoever has this address, if anybody, is the same in both directories. */
  ghost predicate SameAt(a: Db, b: Db, scope: Scope, email: string) {
    && a.roles == b.roles
    && FindUser(b, scope, email) == FindUser(a, scope, email)
    && (FindUser(a, scope, email).Some? ==>
          var id := FindUser(a, scope, email).value;
          id in a.users && id in b.users && b.users[id] == a.users[id] && SameGrants(a, b, id))
  }

  /** Addresses the file has not reached yet are as they were before the import. */
  ghost predicate Untouched(a: Db, b: Db, scope: Scope, seen: map<string, nat>) {
    && a.roles == b.roles
    && a.identities.Keys <= b.identities.Keys
    && forall email :: email !in seen ==> SameAt(a, b, scope, email)
  }

  lemma {:induction false} RunFrame(
    f: Foreign, c: Context, dryRun: bool, db: Db, users: seq<ImportUser>, at: nat -> int, n: nat)
    requires Consistent(db) && n <= |users|
    ensures var r := RunTo(f, c, dryRun, db, users, at, n);
            && Consistent(r.db)
            && Untouched(db, r.db, c.scope, r.seen)
            && (dryRun ==> r.db == db)
  {
    hide CommitRow;
    if n > 0 {
      RunFrame(f, c, dryRun, db, users, at, n - 1);
      var r := RunTo(f, c, dryRun, db, users, at, n - 1);
      var u := users[n - 1];
      var s := Screen(f, c, r.seen, u);
      if s.Passed? {
        var e := CommitRow(f, c, dryRun, r.db, s.email, u, s.role, at(n - 1));
        CommitRowFrame(f, c, dryRun, r.db, s.email, u, s.role, at(n - 1));
        UntouchedStep(db, r.db, e.db, c.scope, r.seen, s.email, Mark(f, r.seen, u, n - 1));
      }
    }
  }

  lemma UntouchedStep(a: Db, b: Db, d: Db, scope: Scope, seen: map<string, nat>, email: string, seen': map<string, nat>)
    requires Consistent(b) && Consistent(d)
    requires Untouched(a, b, scope, seen) && ChangesOnly(b, d, scope, email)
    requires email in seen' && forall e :: e in seen ==> e in seen'
    ensures Untouched(a, d, scope, seen')
  {
  }

  /** Identities linked already, or about to be linked by the first `n` rows a dry run would create. */
  function Claimed(c: Context, db: Db, users: seq<ImportUser>, rows: seq<Verdict>, n: nat): set<IdentityKey>
    requires n <= |users| && n <= |rows|
  {
    if n == 0 then db.identities.Keys
    else Claimed(c, db, users, rows, n - 1)
         + if rows[n - 1].outcome == Create then IdentityKeys(c.scope, users[n - 1].identities) else {}
  }

  /** No row the dry run would create carries an identity somebody else has, in the directory or earlier in the file. */
  ghost predicate ClashFree(c: Context, db: Db, users: seq<ImportUser>, rows: seq<Verdict>, n: nat)
    requires n <= |users| && n <= |rows|
  {
    forall i :: 0 <= i < n && rows[i].outcome == Create ==>
      IdentityKeys(c.scope, users[i].identities) !! Claimed(c, db, users, rows, i)
  }

  /** A validated row whose address is free is inserted exactly when its identities are free too. */
  lemma InsertIff(f: Foreign, db: Db, scope: Scope, email: string, u: ImportUser, role: Option<Id>, at: int)
    requires IdentitiesFault(u.identities, {}).None? && (u.identities == [] || scope.app.Some?)
    requires FindUser(db, scope, email).None?
    ensures var r := InsertUser(f, db, scope, email, u, role, at);
            && (r.Inserted? <==> IdentityKeys(scope, u.identities) !! db.identities.Keys)
            && (r.Inserted? ==> r.db.identities.Keys == db.identities.Keys + IdentityKeys(scope, u.identities))
  {
    if scope.app.Some? {
      InsertIdentitiesIff(db.identities, scope, db.nextUser, u.identities, {});
    }
  }

  /** While nothing clashes the two runs agree row for row, and the commit has linked what was claimed. */
  lemma {:induction false} AgreeTo(f: Foreign, c: Context, db: Db, users: seq<ImportUser>, at: nat -> int, n: nat)
    requires Consistent(db) && n <= |users|
    requires ClashFree(c, db, users, RunAll(f, c, true, db, users, at).rows, n)
    ensures var rows := RunAll(f, c, true, db, users, at).rows;
            var r := RunTo(f, c, false, db, users, at, n);
            && (forall i :: 0 <= i < n ==> r.rows[i] == rows[i])
            && r.db.identities.Keys == Claimed(c, db, users, rows, n)
  {
    hide RunRow;
    if n > 0 {
      AgreeTo(f, c, db, users, at, n - 1);
      AgreeStep(f, c, db, users, at, n - 1);
    }
  }

  /** One more row: it agrees exactly when its identities are unclaimed. */
  lemma AgreeStep(f: Foreign, c: Context, db: Db, users: seq<ImportUser>, at: nat -> int, i: nat)
    requires Consistent(db) && i < |users|
    requires var rows := RunAll(f, c, true, db, users, at).rows;
             var r := RunTo(f, c, false, db, users, at, i);
             r.db.identities.Keys == Claimed(c, db, users, rows, i)
    ensures var rows := RunAll(f, c, true, db, users, at).rows;
            var r := RunTo(f, c, false, db, users, at, i + 1);
            var fits := rows[i].outcome == Create ==>
                          IdentityKeys(c.scope, users[i].identities) !! Claimed(c, db, users, rows, i);
            && (r.rows[i] == rows[i] <==> fits)
            && (fits ==> r.db.identities.Keys == Claimed(c, db, users, rows, i + 1))
  {
    hide RunRow, CommitRow, ScreenedAt;
    var rows := RunAll(f, c, true, db, users, at).rows;
    var wet := RunTo(f, c, false, db, users, at, i);
    var s := ScreenedAt(f, c, users, i);
    RunPrefix(f, c, true, db, users, at, i, |users|);
    RunOneMore(f, c, true, db, users, at, i);
    RunOneMore(f, c, false, db, users, at, i);
    RunFrame(f, c, true, db, users, at, i);
    RunFrame(f, c, false, db, users, at, i);
    RunShape(f, c, false, db, users, at, i);
    if s.Passed? {
      assert SameAt(db, wet.db, c.scope, s.email);
      RowAgrees(f, c, db, wet.db, s.email, users[i], s.role, at(i));
    }
  }

  /** A row judged against the original directory and against one the import has written to. */
  lemma RowAgrees(f: Foreign, c: Context, db: Db, wet: Db, email: string, u: ImportUser, role: Option<Id>, at: int)
    requires Consistent(db) && Consistent(wet) && SameAt(db, wet, c.scope, email)
    requires IdentitiesFault(u.identities, {}).None? && (u.identities == [] || c.scope.app.Some?)
    ensures var d := CommitRow(f, c, true, db, email, u, role, at);
            var w := CommitRow(f, c, false, wet, email, u, role, at);
            var keys := IdentityKeys(c.scope, u.identities);
            var fits := d.outcome == Create ==> keys !! wet.identities.Keys;
            && (d.outcome == w.outcome && d.reason == w.reason <==> fits)
            && (fits ==> w.db.identities.Keys == wet.identities.Keys + if d.outcome == Create then keys else {})
  {
    hide InsertUser, UpdateUser;
    if FindUser(db, c.scope, email).None? {
      InsertIff(f, wet, c.scope, email, u, role, at);
    } else {
      UpdateFrame(wet, c.scope, email, u, AmendRole(f, u.role, role), at);
    }
  }

  /**
   The dry run and the commit return the same verdict for every row if and only if no row the
   dry run would create carries an identity that is already linked or claimed by an earlier row.
   */
  lemma DryRunAgreesIff(f: Foreign, c: Context, db: Db, users: seq<ImportUser>, at: nat -> int)
    requires Consistent(db)
    ensures var dry := RunAll(f, c, true, db, users, at);
            var wet := RunAll(f, c, false, db, users, at);
            && dry.db == db
            && (dry.rows == wet.rows <==> ClashFree(c, db, users, dry.rows, |users|))
  {
    var dry := RunAll(f, c, true, db, users, at);
    var wet := RunAll(f, c, false, db, users, at);
    RunFrame(f, c, true, db, users, at, |users|);
    if ClashFree(c, db, users, dry.rows, |users|) {
      AgreeTo(f, c, db, users, at, |users|);
      assert dry.rows == wet.rows;
    } else {
      var i := FirstClash(c, db, users, dry.rows);
      AgreeTo(f, c, db, users, at, i);
      AgreeStep(f, c, db, users, at, i);
      RunPrefix(f, c, false, db, users, at, i, |users|);
      assert dry.rows[i] != wet.rows[i];
    }
  }

  lemma {:induction false} FirstClash(c: Context, db: Db, users: seq<ImportUser>, rows: seq<Verdict>) returns (i: nat)
    requires |users| == |rows|
    requires !ClashFree(c, db, users, rows, |users|)
    ensures i < |users| && ClashFree(c, db, users, rows, i) && !ClashFree(c, db, users, rows, i + 1)
  {
    i := 0;
    while ClashFree(c, db, users, rows, i + 1)
      invariant i < |users| && ClashFree(c, db, users, rows, i)
      decreases |users| - i
    {
      i := i + 1;
    }
  }

  const PLAIN := Foreign(x => x, x => x, x => Unknown, x => None, x => x)
  const LINKED := IdentityKey(1, 1, "google", "42")
  const LINKED_USER := User(Scope(1, Some(1)), "z@b", "", "", None, true, true, None, true)
  const LINKED_DB :=
    Db(map[0 := LINKED_USER], 1, map[UserKey(Scope(1, Some(1)), "z@b") := 0], map[LINKED := 0], map[], map[])
  const RETURNING := ImportUser("a@b", "", "", true, true, "", "", "", [Identity("google", "42", "a@b")])

  /** A new address carrying an identity another user has: the dry run promises a create, the commit skips. */
  lemma DryRunCanDisagree(at: nat -> int)
    ensures var c := Context(Scope(1, Some(1)), [], None, false);
            && Consistent(LINKED_DB)
            && RunAll(PLAIN, c, true, LINKED_DB, [RETURNING], at).rows == [Verdict(0, "a@b", Create, NoReason)]
            && RunAll(PLAIN, c, false, LINKED_DB, [RETURNING], at).rows == [Verdict(0, "a@b", Skip, AlreadyExists)]
  {
    var c := Context(Scope(1, Some(1)), [], None, false);
    assert "a@b"[1] == '@' && "a@b"[0] != "z@b"[0];
    assert !BadAddress(PLAIN, RETURNING);
    assert IdentitiesFault(RETURNING.identities[1..], {"google"}).None?;
    assert RowFault(PLAIN, c, RETURNING).None?;
    RunOneMore(PLAIN, c, true, LINKED_DB, [RETURNING], at, 0);
    RunOneMore(PLAIN, c, false, LINKED_DB, [RETURNING], at, 0);
  }

  // ---------------------------------------------------------------------------------------
  // Committing a document again
  // ---------------------------------------------------------------------------------------

  /** The row has nothing left to do: applying it again changes no access. */
  ghost predicate Absorbed(f: Foreign, c: Context, db: Db, email: string, u: ImportUser, role: Option<Id>) {
    var amended := AmendRole(f, u.role, role);
    match FindUser(db, c.scope, email)
    case None =>
      InsertIdentities(db.identities, c.scope.tenant, if c.scope.app.Some? then c.scope.app.value else 0,
                       db.nextUser, u.identities, {}).None?
    case Some(id) =>
      id in db.users && (c.updateExisting ==>
        && (u.first == "" || db.users[id].first == u.first)
        && (u.last == "" || db.users[id].last == u.last)
        && (amended.named ==>
          && db.users[id].role == amended.id
          && (forall k :: k in db.userRoles && k.0 == id && db.userRoles[k].tenant == c.scope.tenant ==>
                amended.id == Some(k.1))
          && (amended.id.Some? ==> (id, amended.id.value) in db.userRoles)))
  }

  lemma InsertAbsorbs(f: Foreign, c: Context, db: Db, email: string, u: ImportUser, role: Option<Id>, at: int)
    requires Consistent(db)
    requires u.identities == [] || c.scope.app.Some?
    requires InsertUser(f, db, c.scope, email, u, role, at).Inserted?
    ensures Absorbed(f, c, InsertUser(f, db, c.scope, email, u, role, at).db, email, u, role)
  {
  }

  lemma UpdateAbsorbs(f: Foreign, c: Context, db: Db, email: string, u: ImportUser, role: Option<Id>, at: int)
    requires Consistent(db)
    requires FindUser(db, c.scope, email).Some?
    ensures Absorbed(f, c, UpdateUser(db, c.scope.tenant, FindUser(db, c.scope, email).value, u, AmendRole(f, u.role, role), at),
                     email, u, role)
  {
  }

  lemma CommitAbsorbs(f: Foreign, c: Context, db: Db, email: string, u: ImportUser, role: Option<Id>, at: int)
    requires Consistent(db)
    requires u.identities == [] || c.scope.app.Some?
    ensures Absorbed(f, c, CommitRow(f, c, false, db, email, u, role, at).db, email, u, role)
  {
    if FindUser(db, c.scope, email).Some? {
      UpdateAbsorbs(f, c, db, email, u, role, at);
    } else if InsertUser(f, db, c.scope, email, u, role, at).Inserted? {
      InsertAbsorbs(f, c, db, email, u, role, at);
    }
  }

  lemma AbsorbedStable(
    f: Foreign, c: Context, a: Db, b: Db, other: string, email: string, u: ImportUser, role: Option<Id>)
    requires Consistent(a) && Consistent(b)
    requires ChangesOnly(a, b, c.scope, other) && other != email
    requires Absorbed(f, c, a, email, u, role)
    ensures Absorbed(f, c, b, email, u, role)
  {
    assert UserKey(c.scope, email) != UserKey(c.scope, other);
    assert FindUser(a, c.scope, email) == FindUser(b, c.scope, email);
    if FindUser(a, c.scope, email).None? {
      ClashPersists(a.identities, b.identities, c.scope.tenant, if c.scope.app.Some? then c.scope.app.value else 0,
                    a.nextUser, b.nextUser, u.identities, {});
    } else {
      var id := FindUser(a, c.scope, email).value;
      assert a.emails[UserKey(c.scope, email)] == id;
      assert FindUser(b, c.scope, other) != Some(id);
      assert b.users[id] == a.users[id];
    }
  }

  lemma AbsorbedIsNoOp(f: Foreign, c: Context, db: Db, email: string, u: ImportUser, role: Option<Id>, at: int)
    requires Consistent(db)
    requires u.identities == [] || c.scope.app.Some?
    requires Absorbed(f, c, db, email, u, role)
    ensures var e := CommitRow(f, c, false, db, email, u, role, at);
            && SameAccess(e.db, db)
            && e.outcome == (if c.updateExisting && FindUser(db, c.scope, email).Some? then Update else Skip)
  {
  }

  /** Applying a row that was already applied, as a worker does after a crash, is harmless. */
  lemma ReapplyIsHarmless(
    f: Foreign, c: Context, db: Db, email: string, u: ImportUser, role: Option<Id>, at: int, again: int)
    requires Consistent(db)
    requires u.identities == [] || c.scope.app.Some?
    ensures var once := CommitRow(f, c, false, db, email, u, role, at);
            var twice := CommitRow(f, c, false, once.db, email, u, role, again);
            && SameAccess(twice.db, once.db)
            && twice.outcome != Create
            && (once.outcome == Create ==> twice.outcome == if c.updateExisting then Update else Skip)
  {
    CommitRowFrame(f, c, false, db, email, u, role, at);
    CommitAbsorbs(f, c, db, email, u, role, at);
    AbsorbedIsNoOp(f, c, CommitRow(f, c, false, db, email, u, role, at).db, email, u, role, again);
  }

  /** After the first `n` rows, each of them is absorbed; whoever was created is there. */
  lemma {:induction false} AllAbsorbed(
    f: Foreign, c: Context, db: Db, users: seq<ImportUser>, at: nat -> int, n: nat, i: nat)
    requires Consistent(db) && i < n <= |users|
    requires ScreenedAt(f, c, users, i).Passed?
    ensures var r := RunTo(f, c, false, db, users, at, n);
            var s := ScreenedAt(f, c, users, i);
            && Absorbed(f, c, r.db, s.email, users[i], s.role)
            && (r.rows[i].outcome == Create ==> FindUser(r.db, c.scope, s.email).Some?)
  {
    hide RunRow, CommitRow, ScreenedAt, Absorbed, Consistent, Untouched, SeenTo;
    var before := RunTo(f, c, false, db, users, at, n - 1);
    var s := ScreenedAt(f, c, users, i);
    var t := ScreenedAt(f, c, users, n - 1);
    RunFrame(f, c, false, db, users, at, n - 1);
    RunOneMore(f, c, false, db, users, at, n - 1);
    if t.Passed? {
      CommitRowFrame(f, c, false, before.db, t.email, users[n - 1], t.role, at(n - 1));
      CommitAbsorbs(f, c, before.db, t.email, users[n - 1], t.role, at(n - 1));
    }
    if i < n - 1 {
      AllAbsorbed(f, c, db, users, at, n - 1, i);
      if t.Passed? {
        SeenGrows(f, c, users, i, n - 1);
        AbsorbedStable(f, c, before.db, CommitRow(f, c, false, before.db, t.email, users[n - 1], t.role, at(n - 1)).db,
                       t.email, s.email, users[i], s.role);
      }
    }
  }

  lemma AbsorbedUpToStamps(f: Foreign, c: Context, a: Db, b: Db, email: string, u: ImportUser, role: Option<Id>)
    requires SameAccess(a, b) && Absorbed(f, c, a, email, u, role)
    ensures Absorbed(f, c, b, email, u, role)
  {
  }

  lemma AbsorbedAgain(f: Foreign, c: Context, first: Db, db: Db, email: string, u: ImportUser, role: Option<Id>, at: int)
    requires Consistent(db) && SameAccess(db, first)
    requires u.identities == [] || c.scope.app.Some?
    requires Absorbed(f, c, first, email, u, role)
    ensures var e := CommitRow(f, c, false, db, email, u, role, at);
            && SameAccess(e.db, first)
            && e.outcome == if c.updateExisting && FindUser(first, c.scope, email).Some? then Update else Skip
  {
    AbsorbedUpToStamps(f, c, first, db, email, u, role);
    AbsorbedIsNoOp(f, c, db, email, u, role, at);
  }

  /** Every row of the second run finds its own work done. */
  lemma {:induction false} SecondRunTo(
    f: Foreign, c: Context, db: Db, users: seq<ImportUser>, at: nat -> int, again: nat -> int, n: nat)
    requires Consistent(db) && n <= |users|
    ensures var first := RunAll(f, c, false, db, users, at);
            SameAccess(RunTo(f, c, false, first.db, users, again, n).db, first.db)
  {
    if n > 0 {
      SecondRunTo(f, c, db, users, at, again, n - 1);
      SecondRunRow(f, c, db, users, at, again, n - 1);
    }
  }

  lemma SecondRunRow(
    f: Foreign, c: Context, db: Db, users: seq<ImportUser>, at: nat -> int, again: nat -> int, i: nat)
    requires Consistent(db) && i < |users|
    requires var first := RunAll(f, c, false, db, users, at);
             SameAccess(RunTo(f, c, false, first.db, users, again, i).db, first.db)
    ensures var first := RunAll(f, c, false, db, users, at);
            var r := RunTo(f, c, false, first.db, users, again, i + 1);
            var s := ScreenedAt(f, c, users, i);
            && SameAccess(r.db, first.db)
            && (s.Refused? ==> r.rows[i] == Verdict(i, s.email, Reject, s.reason))
            && (s.Passed? ==>
                  r.rows[i].outcome ==
                  if c.updateExisting && FindUser(first.db, c.scope, s.email).Some? then Update else Skip)
  {
    hide RunRow, CommitRow, ScreenedAt, Absorbed;
    var first := RunAll(f, c, false, db, users, at);
    RunFrame(f, c, false, db, users, at, |users|);
    RunFrame(f, c, false, first.db, users, again, i);
    RunOneMore(f, c, false, first.db, users, again, i);
    var s := ScreenedAt(f, c, users, i);
    if s.Passed? {
      AllAbsorbed(f, c, db, users, at, |users|, i);
      AbsorbedAgain(f, c, first.db, RunTo(f, c, false, first.db, users, again, i).db, s.email, users[i], s.role, again(i));
    }
  }

  /**
   Committing a document a second time, whenever that happens: nobody is created, the same rows are
   refused for the same reason, a row created before is a skip (an update with update_existing), and
   names, primary roles, role sets and identities are as the first run left them.
   */
  lemma SecondCommit(f: Foreign, c: Context, db: Db, users: seq<ImportUser>, at: nat -> int, again: nat -> int)
    requires Consistent(db)
    ensures var first := RunAll(f, c, false, db, users, at);
            var second := RunAll(f, c, false, first.db, users, again);
            && SameAccess(second.db, first.db)
            && forall i :: 0 <= i < |users| ==>
              && second.rows[i].outcome != Create
              && (second.rows[i].outcome == Reject <==> first.rows[i].outcome == Reject)
              && (first.rows[i].outcome == Reject ==> second.rows[i] == first.rows[i])
              && (first.rows[i].outcome == Create ==>
                    second.rows[i].outcome == if c.updateExisting then Update else Skip)
  {
    hide RunRow;
    var first := RunAll(f, c, false, db, users, at);
    SecondRunTo(f, c, db, users, at, again, |users|);
    RunShape(f, c, false, db, users, at, |users|);
    forall i | 0 <= i < |users|
      ensures var r := RunAll(f, c, false, first.db, users, again).rows[i];
              && r.outcome != Create
              && (r.outcome == Reject <==> first.rows[i].outcome == Reject)
              && (first.rows[i].outcome == Reject ==> r == first.rows[i])
              && (first.rows[i].outcome == Create ==> r.outcome == if c.updateExisting then Update else Skip)
    {
      SecondRunTo(f, c, db, users, at, again, i);
      SecondRunRow(f, c, db, users, at, again, i);
      RunPrefix(f, c, false, first.db, users, again, i, |users|);
      if ScreenedAt(f, c, users, i).Passed? {
        AllAbsorbed(f, c, db, users, at, |users|, i);
      }
    }
  }
}
