/**
 What an import means for each row: which rows it refuses and that the reason it gives is true, and
 what the directory holds for a row it reports as created or updated.
 */
module ImportOutcomes {
  import opened Prelude
  import opened Directory
  import opened UserImport
  import opened ImportAgreement

  // ---------------------------------------------------------------------------------------
  // Which rows are refused
  // ---------------------------------------------------------------------------------------

  predicate Named(roles: seq<RoleEntry>, name: string) {
    exists i :: 0 <= i < |roles| && roles[i].name == name
  }

  lemma {:induction false} FindRoleIff(roles: seq<RoleEntry>, name: string)
    ensures FindRole(roles, name).Some? <==> Named(roles, name)
    ensures FindRole(roles, name).Some? ==> RoleEntry(name, FindRole(roles, name).value) in roles
  {
    if roles != [] {
      var n := |roles| - 1;
      FindRoleIff(roles[..n], name);
      if roles[n].name == name {
        assert roles[n] == RoleEntry(name, roles[n].id);
      } else if i :| 0 <= i < |roles| && roles[i].name == name {
        assert roles[..n][i].name == name;
      }
    }
  }

  predicate DistinctProviders(ids: seq<Identity>) {
    && (forall i :: 0 <= i < |ids| ==> ids[i].provider != "" && ids[i].sub != "")
    && (forall i, j :: 0 <= i < j < |ids| ==> ids[i].provider != ids[j].provider)
  }

  lemma {:induction false} IdentitiesFaultIff(ids: seq<Identity>, seen: set<string>)
    ensures IdentitiesFault(ids, seen).None? <==>
            DistinctProviders(ids) && forall i :: 0 <= i < |ids| ==> ids[i].provider !in seen
  {
    if ids != [] {
      var rest := ids[1..];
      IdentitiesFaultIff(rest, seen + {ids[0].provider});
      assert forall i :: 0 <= i < |rest| ==> rest[i] == ids[i + 1];
      assert forall i :: 0 < i < |ids| ==> ids[i] == rest[i - 1];
    }
  }

  /** Exactly one credential or none, and if none another way to sign in. */
  predicate CredentialsOk(f: Foreign, u: ImportUser) {
    && !(u.passwordHash != "" && u.password != "")
    && (u.passwordHash == "" && u.password == "" ==> u.identities != [] || u.verified)
    && (u.passwordHash != "" ==> !f.identify(u.passwordHash).Unknown? && f.storedHashFault(u.passwordHash).None?)
    && (u.password != "" ==>
          MIN_PASSWORD_LEN <= |u.password| <= MAX_PASSWORD_LEN && f.identify(u.password).Unknown?)
  }

  predicate IdentitiesOk(c: Context, u: ImportUser) {
    DistinctProviders(u.identities) && (u.identities != [] ==> c.scope.app.Some? && u.verified)
  }

  predicate RoleOk(f: Foreign, c: Context, u: ImportUser) { f.trim(u.role) == "" || Named(c.roles, f.trim(u.role)) }

  /**
   A row whose address is new to the file is refused exactly when its credentials, its identities or its role
   will not do.
   */
  lemma RowAcceptedIff(f: Foreign, c: Context, u: ImportUser)
    ensures RowFault(f, c, u).None? <==> CredentialsOk(f, u) && IdentitiesOk(c, u) && RoleOk(f, c, u)
  {
    IdentitiesFaultIff(u.identities, {});
    FindRoleIff(c.roles, f.trim(u.role));
    hide IdentitiesFault, FindRole, Named, DistinctProviders;
  }

  /** What a reason asserts of the row it is given to. */
  predicate ReasonHolds(f: Foreign, c: Context, u: ImportUser, reason: Reason) {
    match reason
    case BothCredentials => u.passwordHash != "" && u.password != ""
    case NoWayIn => u.passwordHash == "" && u.password == "" && u.identities == [] && !u.verified
    case UnsupportedHash => u.passwordHash != "" && f.identify(u.passwordHash).Unknown?
    case UnusableHash(detail) => u.passwordHash != "" && f.storedHashFault(u.passwordHash) == Some(detail)
    case PasswordTooShort => 0 < |u.password| < MIN_PASSWORD_LEN
    case PasswordTooLong => |u.password| > MAX_PASSWORD_LEN
    case PasswordLooksHashed => u.password != "" && !f.identify(u.password).Unknown?
    case IdentitiesNeedApplication => u.identities != [] && c.scope.app.None?
    case IdentityIncomplete => exists i :: 0 <= i < |u.identities| && (u.identities[i].provider == "" || u.identities[i].sub == "")
    case IdentityRepeated(p) =>
      exists i, j :: 0 <= i < j < |u.identities| && u.identities[i].provider == p && u.identities[j].provider == p
    case IdentitiesNeedVerifiedEmail => u.identities != [] && !u.verified
    case RoleUnavailable(name) => name == f.trim(u.role) && name != "" && !Named(c.roles, name)
    case _ => false
  }

  function Providers(ids: seq<Identity>, n: nat): set<string>
    requires n <= |ids|
  {
    set i | 0 <= i < n :: ids[i].provider
  }

  lemma {:induction false} IdentityReasonHolds(ids: seq<Identity>, done: nat)
    requires done <= |ids|
    ensures match IdentitiesFault(ids[done..], Providers(ids, done))
            case None => true
            case Some(IdentityIncomplete) => exists i :: 0 <= i < |ids| && (ids[i].provider == "" || ids[i].sub == "")
            case Some(IdentityRepeated(p)) =>
              exists i, j :: 0 <= i < j < |ids| && ids[i].provider == p && ids[j].provider == p
            case Some(_) => false
    decreases |ids| - done
  {
    var seen := Providers(ids, done);
    if done < |ids| {
      assert ids[done..][0] == ids[done] && ids[done..][1..] == ids[done + 1..];
      if ids[done].provider in seen {
        var i :| 0 <= i < done && ids[i].provider == ids[done].provider;
      }
      assert seen + {ids[done].provider} == Providers(ids, done + 1);
      IdentityReasonHolds(ids, done + 1);
    }
  }

  /** The reason a refused row is given is true of it. */
  lemma RefusalIsTrue(f: Foreign, c: Context, u: ImportUser)
    requires RowFault(f, c, u).Some?
    ensures ReasonHolds(f, c, u, RowFault(f, c, u).value)
  {
    assert u.identities[0..] == u.identities;
    assert Providers(u.identities, 0) == {};
    IdentityReasonHolds(u.identities, 0);
    FindRoleIff(c.roles, f.trim(u.role));
    hide IdentitiesFault, FindRole, Named;
  }

  /** The row's address normalises to `email`, and that is one. */
  predicate HasAddress(f: Foreign, u: ImportUser, email: string) {
    f.normalize(u.email) == email && email != "" && '@' in email
  }

  /** Row `k` is the first with a usable address that normalises to `email`. */
  predicate FirstWithAddress(f: Foreign, users: seq<ImportUser>, k: nat, email: string) {
    k < |users| && HasAddress(f, users[k], email) && forall j :: 0 <= j < k ==> !HasAddress(f, users[j], email)
  }

  /** The addresses seen so far are those of the rows so far, each under its first row, refused or not. */
  lemma {:induction false} SeenIsFirst(f: Foreign, users: seq<ImportUser>, n: nat, email: string)
    requires n <= |users|
    ensures email in SeenTo(f, users, n) ==>
              SeenTo(f, users, n)[email] < n && FirstWithAddress(f, users, SeenTo(f, users, n)[email], email)
    ensures email !in SeenTo(f, users, n) ==>
              forall j :: 0 <= j < n ==> !HasAddress(f, users[j], email)
  {
    if n > 0 {
      SeenIsFirst(f, users, n - 1, email);
    }
  }

  /** A row is refused as a repeat exactly when an earlier row has its address, and it names the first such row. */
  lemma RepeatIff(f: Foreign, c: Context, users: seq<ImportUser>, i: nat)
    requires i < |users| && HasAddress(f, users[i], f.normalize(users[i].email))
    ensures var s := ScreenedAt(f, c, users, i);
            var email := f.normalize(users[i].email);
            && (s.Refused? && s.reason.DuplicateOfRow? <==> !FirstWithAddress(f, users, i, email))
            && (s.Refused? && s.reason.DuplicateOfRow? ==>
                  s.reason.first < i && FirstWithAddress(f, users, s.reason.first, email))
  {
    SeenIsFirst(f, users, i, f.normalize(users[i].email));
    if RowFault(f, c, users[i]).Some? {
      RefusalIsTrue(f, c, users[i]);
    }
    hide RowFault, SeenTo;
  }

  /** The role a row is to be given: the application's default if it names none, else an assignable one of that name. */
  predicate RoleFor(f: Foreign, c: Context, u: ImportUser, role: Option<Id>) {
    if f.trim(u.role) == "" then role == c.fallback else role.Some? && RoleEntry(f.trim(u.role), role.value) in c.roles
  }

  /**
   A row passes exactly when it has an address, is the first with it, and its credentials, identities
   and role will do; it then goes under its normalised address, with the role it is to be given.
   */
  lemma PassedIff(f: Foreign, c: Context, users: seq<ImportUser>, i: nat)
    requires i < |users|
    ensures var s := ScreenedAt(f, c, users, i);
            var u := users[i];
            var email := f.normalize(u.email);
            && (s.Passed? <==>
                  FirstWithAddress(f, users, i, email) && CredentialsOk(f, u) && IdentitiesOk(c, u) && RoleOk(f, c, u))
            && (s.Passed? ==> s.email == email && RoleFor(f, c, u, s.role))
            && (s.Refused? && s.reason == InvalidEmail <==> !HasAddress(f, u, email))
            && (s.Refused? ==> s.email == if s.reason == InvalidEmail then u.email else email)
  {
    var email := f.normalize(users[i].email);
    SeenIsFirst(f, users, i, email);
    RowAcceptedIff(f, c, users[i]);
    FindRoleIff(c.roles, f.trim(users[i].role));
    if RowFault(f, c, users[i]).Some? {
      RefusalIsTrue(f, c, users[i]);
    }
    hide RowFault, SeenTo, CredentialsOk, IdentitiesOk, Named, FindRole;
  }

  // ---------------------------------------------------------------------------------------
  // What becomes of a row that passed
  // ---------------------------------------------------------------------------------------

  /** Whether a row creates, updates or skips is decided by what the directory has. */
  lemma OutcomeIff(f: Foreign, c: Context, db: Db, email: string, u: ImportUser, role: Option<Id>, at: int)
    requires u.identities == [] || c.scope.app.Some?
    ensures var e := CommitRow(f, c, false, db, email, u, role, at);
            var known := FindUser(db, c.scope, email).Some?;
            && (e.outcome == Update <==> known && c.updateExisting)
            && (e.outcome == Create <==>
                !known && ProvidersDiffer(u.identities) && IdentityKeys(c.scope, u.identities) !! db.identities.Keys)
            && (e.outcome == Create ==> e.reason == NoReason)
            && (e.outcome != Update && e.outcome != Create ==> e.outcome == Skip && e.reason == AlreadyExists && e.db == db)
  {
    InsertedIff(f, db, c.scope, email, u, role, at);
  }

  lemma {:induction false} NameIsListed(roles: seq<RoleEntry>, id: Id)
    ensures var name := RoleNameFor(roles, Some(id));
            if exists n :: RoleEntry(n, id) in roles then RoleEntry(name, id) in roles else name == ""
  {
    if roles != [] {
      NameIsListed(roles[1..], id);
      assert forall n :: RoleEntry(n, id) in roles <==> RoleEntry(n, id) == roles[0] || RoleEntry(n, id) in roles[1..];
      if roles[0].id == id {
        assert roles[0] == RoleEntry(roles[0].name, id);
      }
    }
  }

  /** `name` is what the report calls a user's primary role. */
  predicate PrimaryIsNamed(db: Db, id: Id, name: string)
    requires id in db.users
  {
    match db.users[id].role
    case Some(r) => if r in db.roles then name == db.roles[r].name else name == ""
    case None => name == ""
  }

  /**
   An update is reported with the old and the new name of the primary role where they differ: the new one is
   a name the import knows the row's role by, and the old one where the row names no role.
   */
  lemma UpdateReport(f: Foreign, c: Context, db: Db, email: string, u: ImportUser, role: Option<Id>, at: int)
    requires Consistent(db) && (u.identities == [] || c.scope.app.Some?) && RoleFor(f, c, u, role)
    requires CommitRow(f, c, false, db, email, u, role, at).outcome == Update
    ensures var reason := CommitRow(f, c, false, db, email, u, role, at).reason;
            var id := FindUser(db, c.scope, email).value;
            && (reason.RoleChanged? ==>
                  && PrimaryIsNamed(db, id, reason.before) && reason.before != reason.after
                  && f.trim(u.role) != "" && role.Some? && RoleEntry(reason.after, role.value) in c.roles)
            && (!reason.RoleChanged? ==>
                  && reason == RoleUnchanged
                  && (f.trim(u.role) != "" ==>
                        exists name :: PrimaryIsNamed(db, id, name) && RoleEntry(name, role.value) in c.roles))
  {
    var id := FindUser(db, c.scope, email).value;
    var before := PrimaryRoleName(db, id);
    assert PrimaryIsNamed(db, id, before);
    if f.trim(u.role) != "" {
      NameIsListed(c.roles, role.value);
      assert RoleEntry(f.trim(u.role), role.value) in c.roles;
    }
    hide UpdateUser, InsertUser, RoleNameFor, PrimaryRoleName, PrimaryIsNamed;
  }

  // ---------------------------------------------------------------------------------------
  // What a commit leaves in the directory
  // ---------------------------------------------------------------------------------------

  /** A digest is kept as it is, a password is kept as its hash, and without either there is no credential. */
  predicate HasCredential(f: Foreign, u: ImportUser, credential: Option<string>) {
    if u.passwordHash != "" then credential == Some(u.passwordHash)
    else if u.password != "" then credential == Some(f.hash(u.password))
    else credential == None
  }

  /**
   The address belongs to a live user exactly as the row describes, holding the row's role and no other and
   linked to the row's identities.
   */
  ghost predicate Present(f: Foreign, db: Db, scope: Scope, email: string, u: ImportUser, role: Option<Id>) {
    && FindUser(db, scope, email).Some?
    && var id := FindUser(db, scope, email).value;
       && id in db.users
       && db.users[id] == User(scope, email, u.first, u.last, role, u.active, u.verified, db.users[id].credential, true)
       && HasCredential(f, u, db.users[id].credential)
       && (forall r :: (id, r) in db.userRoles <==> role == Some(r))
       && (scope.app.Some? ==> LinkedTo(db.identities, scope.tenant, scope.app.value, u.identities, id))
  }

  lemma InsertedIsPresent(f: Foreign, db: Db, scope: Scope, email: string, u: ImportUser, role: Option<Id>, at: int)
    requires Consistent(db) && (u.identities == [] || scope.app.Some?)
    requires InsertUser(f, db, scope, email, u, role, at).Inserted?
    ensures Present(f, InsertUser(f, db, scope, email, u, role, at).db, scope, email, u, role)
  {
    assert forall r :: (db.nextUser, r) !in db.userRoles;
    IdentitiesOnlyGrow(db.identities, scope.tenant, if scope.app.Some? then scope.app.value else 0,
                       db.nextUser, u.identities, {});
    hide InsertIdentities;
  }

  lemma PresentStays(
    f: Foreign, a: Db, b: Db, scope: Scope, other: string, email: string, u: ImportUser, role: Option<Id>)
    requires Consistent(a) && Consistent(b) && ChangesOnly(a, b, scope, other) && other != email
    requires Present(f, a, scope, email, u, role)
    ensures Present(f, b, scope, email, u, role)
  {
    var id := FindUser(a, scope, email).value;
    assert UserKey(scope, email) in b.emails && b.emails[UserKey(scope, email)] == id;
    assert FindUser(b, scope, other) != Some(id);
  }

  lemma CreatedIsPresent(f: Foreign, c: Context, db: Db, email: string, u: ImportUser, role: Option<Id>, at: int)
    requires Consistent(db) && (u.identities == [] || c.scope.app.Some?)
    requires CommitRow(f, c, false, db, email, u, role, at).outcome == Create
    ensures Present(f, CommitRow(f, c, false, db, email, u, role, at).db, c.scope, email, u, role)
  {
    hide InsertUser, UpdateUser, Present;
    InsertedIsPresent(f, db, c.scope, email, u, role, at);
  }

  /** Whoever a commit reports as created is there when it is over, as the file has them, later rows notwithstanding. */
  lemma {:induction false} CreatedAreThere(
    f: Foreign, c: Context, db: Db, users: seq<ImportUser>, at: nat -> int, n: nat, i: nat)
    requires Consistent(db) && i < n <= |users| && RunTo(f, c, false, db, users, at, n).rows[i].outcome == Create
    ensures var s := ScreenedAt(f, c, users, i);
            s.Passed? && Present(f, RunTo(f, c, false, db, users, at, n).db, c.scope, s.email, users[i], s.role)
  {
    hide RunRow, CommitRow, ScreenedAt, Present, Consistent, Untouched, SeenTo, ChangesOnly;
    var before := RunTo(f, c, false, db, users, at, n - 1);
    var t := ScreenedAt(f, c, users, n - 1);
    RunFrame(f, c, false, db, users, at, n - 1);
    RunOneMore(f, c, false, db, users, at, n - 1);
    if i < n - 1 {
      RunPrefix(f, c, false, db, users, at, i, n);
      RunPrefix(f, c, false, db, users, at, i, n - 1);
      CreatedAreThere(f, c, db, users, at, n - 1, i);
      if t.Passed? {
        SeenGrows(f, c, users, i, n - 1);
        CommitRowFrame(f, c, false, before.db, t.email, users[n - 1], t.role, at(n - 1));
        PresentStays(f, before.db, CommitRow(f, c, false, before.db, t.email, users[n - 1], t.role, at(n - 1)).db,
                     c.scope, t.email, ScreenedAt(f, c, users, i).email, users[i], ScreenedAt(f, c, users, i).role);
      }
    } else {
      CreatedIsPresent(f, c, before.db, t.email, users[i], t.role, at(i));
    }
  }

  /**
   The user was there before the import and differs from then only by the row's names and, where it names one,
   its role, which replaces all those of the tenant.
   */
  ghost predicate Amended(
    f: Foreign, before: Db, after: Db, scope: Scope, email: string, u: ImportUser, role: Option<Id>
  ) {
    && FindUser(before, scope, email).Some? && FindUser(after, scope, email) == FindUser(before, scope, email)
    && var id := FindUser(before, scope, email).value;
       && id in before.users && id in after.users
       && after.users[id] == before.users[id].(
            first := if u.first == "" then before.users[id].first else u.first,
            last := if u.last == "" then before.users[id].last else u.last,
            role := if f.trim(u.role) == "" then before.users[id].role else role)
       && forall r :: (id, r) in after.userRoles <==>
            || (f.trim(u.role) != "" && role == Some(r))
            || ((id, r) in before.userRoles && (f.trim(u.role) == "" || before.userRoles[(id, r)].tenant != scope.tenant))
  }

  lemma UpdateAmends(f: Foreign, c: Context, db: Db, wet: Db, email: string, u: ImportUser, role: Option<Id>, at: int)
    requires Consistent(wet) && SameAt(db, wet, c.scope, email) && (u.identities == [] || c.scope.app.Some?)
    requires CommitRow(f, c, false, wet, email, u, role, at).outcome == Update
    ensures Amended(f, db, CommitRow(f, c, false, wet, email, u, role, at).db, c.scope, email, u, role)
  {
  }

  lemma AmendedStays(
    f: Foreign, db: Db, a: Db, b: Db, scope: Scope, other: string, email: string, u: ImportUser, role: Option<Id>)
    requires Consistent(a) && Consistent(b) && ChangesOnly(a, b, scope, other) && other != email
    requires Amended(f, db, a, scope, email, u, role)
    ensures Amended(f, db, b, scope, email, u, role)
  {
    var id := FindUser(a, scope, email).value;
    assert UserKey(scope, email) in b.emails && b.emails[UserKey(scope, email)] == id;
    assert FindUser(b, scope, other) != Some(id);
  }

  /**
   Whoever a commit reports as updated was there before it, and when it is over has the row's names
   where the row carries them and its role where it names one, in place of every role held in the tenant;
   credential, verification and status are as they were.
   */
  lemma {:induction false} UpdatedAreAmended(
    f: Foreign, c: Context, db: Db, users: seq<ImportUser>, at: nat -> int, n: nat, i: nat)
    requires Consistent(db) && i < n <= |users| && RunTo(f, c, false, db, users, at, n).rows[i].outcome == Update
    ensures var s := ScreenedAt(f, c, users, i);
            s.Passed? && Amended(f, db, RunTo(f, c, false, db, users, at, n).db, c.scope, s.email, users[i], s.role)
  {
    hide RunRow, CommitRow, ScreenedAt, Amended, Consistent, SeenTo, ChangesOnly, SameAt;
    var before := RunTo(f, c, false, db, users, at, n - 1);
    var t := ScreenedAt(f, c, users, n - 1);
    RunFrame(f, c, false, db, users, at, n - 1);
    RunShape(f, c, false, db, users, at, n - 1);
    RunOneMore(f, c, false, db, users, at, n - 1);
    if i < n - 1 {
      RunPrefix(f, c, false, db, users, at, i, n);
      RunPrefix(f, c, false, db, users, at, i, n - 1);
      UpdatedAreAmended(f, c, db, users, at, n - 1, i);
      if t.Passed? {
        SeenGrows(f, c, users, i, n - 1);
        CommitRowFrame(f, c, false, before.db, t.email, users[n - 1], t.role, at(n - 1));
        AmendedStays(f, db, before.db, CommitRow(f, c, false, before.db, t.email, users[n - 1], t.role, at(n - 1)).db,
                     c.scope, t.email, ScreenedAt(f, c, users, i).email, users[i], ScreenedAt(f, c, users, i).role);
      }
    } else {
      assert SameAt(db, before.db, c.scope, t.email);
      UpdateAmends(f, c, db, before.db, t.email, users[i], t.role, at(i));
    }
  }
}
