/** Each writer of roles keeps the invariants; deleting a role changes exactly what it should. */
module RoleWriters {
  import opened Prelude
  import opened Directory
  import opened RoleStore
  import opened RoleInvariants
  import UserImport
  import ImportAgreement

  // ---------------------------------------------------------------------------------------
  // Writers that touch one user
  // ---------------------------------------------------------------------------------------

  /** The user of a write is left in order, and is not left without a primary by it. */
  ghost predicate GoodWrite(a: Db, b: Db, user: Id) {
    && WritesOnly(a, b, user) && UserOk(b, user) && (PrimarySet(a, user) ==> PrimarySet(b, user))
    && forall k :: k in b.userRoles ==> k.0 < b.nextUser
  }

  lemma GoodWriteKeeps(s: Store, b: Db, user: Id)
    requires Inv(s) && GoodWrite(s.db, b, user)
    ensures Inv(s.(db := b)) && (AllPrimariesSet(s.db) ==> AllPrimariesSet(b))
  {
    WriteKeepsRest(s, b, user);
    hide Inv;
    if AllPrimariesSet(s.db) {
      WriteKeepsSet(s.db, b, user);
    }
  }

  /** A check that passed: a role for new users of a scope, or a role for one user. */
  datatype Request = ForScope(scope: Scope, role: Id) | ForUser(tenant: Id, user: Id, role: Id)

  /** A check confined to one application passes only where this one does. */
  predicate Passes(db: Db, q: Request) {
    match q
    case ForScope(scope, role) => ValidateRoleForScope(db, scope, role).None?
    case ForUser(tenant, user, role) => ValidateRoleForUser(db, tenant, None, user, role).None?
  }

  /** What stays true of it whatever is written afterwards; that the role and the user are live does not. */
  predicate StillTrue(db: Db, q: Request) {
    match q
    case ForScope(scope, role) => role in db.roles && !db.roles[role].system && db.roles[role].scope == scope
    case ForUser(tenant, user, role) =>
      user in db.users && db.users[user].scope.tenant == tenant
      && role in db.roles && !db.roles[role].system && db.roles[role].scope == db.users[user].scope
  }

  predicate RoleLive(db: Db, role: Id) { role in db.roles && db.roles[role].live }

  /** A check passes exactly when what it finds is true and the role, and the user, are live. */
  lemma PassesIff(db: Db, q: Request)
    ensures Passes(db, q) <==>
            StillTrue(db, q) && RoleLive(db, q.role) && (q.ForUser? ==> db.users[q.user].live)
  {
  }

  lemma AssignIsGood(s: Store, tenant: Id, user: Id, role: Id, at: int)
    requires Inv(s) && StillTrue(s.db, ForUser(tenant, user, role)) && CommitAssign(s, tenant, user, role, at).Ok?
    ensures GoodWrite(s.db, CommitAssign(s, tenant, user, role, at).s.db, user)
  {
    var b := CommitAssign(s, tenant, user, role, at).s.db;
    HoldersAreKnown(s.db, user);
    assert HoldsRole(b, user, role);
    forall k | k in s.db.userRoles && k.0 == user
      ensures s.db.userRoles[k].tenant == tenant
    {
      assert GrantOk(s.db, k);
    }
    assert GrantOk(b, (user, role));
  }

  lemma AddIsGood(s: Store, tenant: Id, user: Id, role: Id, at: int)
    requires Inv(s) && StillTrue(s.db, ForUser(tenant, user, role))
    ensures var r := CommitAdd(s, tenant, user, role, at); r.Ok? && GoodWrite(s.db, r.s.db, user)
  {
    var b := CommitAdd(s, tenant, user, role, at).s.db;
    HoldersAreKnown(s.db, user);
    hide Consistent, DefaultsOk, PermissionsOk, OrgGrantsOk, PreviousOk;
    forall k | k in b.userRoles && k.0 == user
      ensures GrantOk(b, k)
    {
      assert k in s.db.userRoles ==> GrantOk(s.db, k);
    }
    assert PrimaryHeld(s.db, user);
    hide GrantsOk, AllPrimariesHeld, GrantOk;
    assert b.users[user].live && b.users[user].role.None? ==> false;
  }

  /** Promoting the earliest grant leaves a user in order whose grants are. */
  lemma RepointIsGood(a: Db, d: Db, user: Id)
    requires WritesOnly(a, d, user) && (forall k :: k in d.userRoles && k.0 == user ==> GrantOk(d, k))
    requires forall k :: k in d.userRoles ==> k.0 < d.nextUser
    ensures GoodWrite(a, Repointed(d, user), user)
  {
    EarliestExists(d, user);
    var b := Repointed(d, user);
    assert HoldsLive(b, user) <==> HoldsLive(d, user);
    forall k | k in b.userRoles && k.0 == user
      ensures GrantOk(b, k)
    {
      assert GrantOk(d, k);
    }
  }

  lemma RemoveIsGood(s: Store, tenant: Id, user: Id, role: Id)
    requires Inv(s) && CommitRemove(s, tenant, user, role).Ok?
    ensures GoodWrite(s.db, CommitRemove(s, tenant, user, role).s.db, user)
  {
    var d := s.db.(userRoles := s.db.userRoles - {(user, role)});
    assert GrantOk(s.db, (user, role));
    forall k | k in d.userRoles && k.0 == user
      ensures GrantOk(d, k)
    {
      assert GrantOk(s.db, k);
    }
    if d.users[user].role == Some(role) {
      RepointIsGood(s.db, d, user);
    } else {
      assert PrimaryHeld(s.db, user);
      assert HoldsLive(d, user) ==> HoldsLive(s.db, user);
    }
  }

  lemma {:induction false} GrantAllGrants(grants: map<(Id, Id), Grant>, user: Id, roles: seq<Id>, tenant: Id, at: int)
    ensures var g := GrantAll(grants, user, roles, tenant, at);
            && (forall k :: k in g <==> k in grants || (k.0 == user && k.1 in roles))
            && (forall k :: k in grants ==> g[k] == grants[k])
            && (forall k :: k in g && k !in grants ==> g[k] == Grant(tenant, at))
  {
    if roles != [] {
      var n := |roles| - 1;
      GrantAllGrants(grants, user, roles[..n], tenant, at);
      assert roles == roles[..n] + [roles[n]];
    }
  }

  lemma AppGrantsAreGood(
    s: Store, tenant: Id, app: Id, user: Id, names: seq<string>, resolved: map<string, Id>, cleared: map<(Id, Id), Grant>, at: int)
    requires Inv(s) && Resolves(s.db, Scope(tenant, Some(app)), names, resolved)
    requires user in s.db.users && s.db.users[user].scope == Scope(tenant, Some(app)) && forall n :: n in names ==> n in resolved
    requires cleared == s.db.userRoles || cleared == ClearRoles(s.db.userRoles, user, tenant)
    ensures var d := s.db.(userRoles := GrantAll(cleared, user, RolesFor(names, resolved), tenant, at));
            && WritesOnly(s.db, d, user) && (forall k :: k in d.userRoles ==> k.0 < d.nextUser)
            && forall k :: k in d.userRoles && k.0 == user ==> GrantOk(d, k)
  {
    var roles := RolesFor(names, resolved);
    var d := s.db.(userRoles := GrantAll(cleared, user, roles, tenant, at));
    AppGrantsWriteOnly(s.db, tenant, user, cleared, roles, at);
    GrantAllGrants(cleared, user, roles, tenant, at);
    assert forall k :: k in cleared ==> k in s.db.userRoles && cleared[k] == s.db.userRoles[k];
    hide GrantAll, ClearRoles, WritesOnly, Consistent, DefaultsOk, PermissionsOk, OrgGrantsOk, PreviousOk, AllPrimariesHeld;
    forall k | k in d.userRoles && k.0 == user
      ensures GrantOk(d, k)
    {
      if k in cleared {
        assert GrantOk(s.db, k);
      } else {
        NamedRoleFits(s.db, tenant, app, names, resolved, k.1);
      }
    }
  }

  lemma AppGrantsWriteOnly(
    db: Db, tenant: Id, user: Id, cleared: map<(Id, Id), Grant>, roles: seq<Id>, at: int)
    requires Consistent(db) && user in db.users
    requires cleared == db.userRoles || cleared == ClearRoles(db.userRoles, user, tenant)
    ensures var d := db.(userRoles := GrantAll(cleared, user, roles, tenant, at));
            WritesOnly(db, d, user) && forall k :: k in d.userRoles ==> k.0 < d.nextUser
  {
    GrantAllGrants(cleared, user, roles, tenant, at);
    HoldersAreKnown(db, user);
    hide GrantAll;
    assert forall k :: k in cleared ==> k in db.userRoles && cleared[k] == db.userRoles[k] && k.0 < db.nextUser;
    assert forall k :: k in db.userRoles && k.0 != user ==> k in cleared;
    assert db.users[user := db.users[user]] == db.users;
    hide ClearRoles, Consistent;
  }

  lemma NamedRoleFits(db: Db, tenant: Id, app: Id, names: seq<string>, resolved: map<string, Id>, role: Id)
    requires Resolves(db, Scope(tenant, Some(app)), names, resolved) && forall n :: n in names ==> n in resolved
    requires role in RolesFor(names, resolved)
    ensures role in db.roles && db.roles[role].scope == Scope(tenant, Some(app))
  {
    var roles := RolesFor(names, resolved);
    var i :| 0 <= i < |roles| && roles[i] == role;
    assert names[i] in names;
    assert RoleNamed(db, Scope(tenant, Some(app)), names[i], resolved[names[i]]);
  }

  lemma AppAssignIsGood(
    s: Store, tenant: Id, app: Id, user: Id, names: seq<string>, resolved: map<string, Id>, replace: bool, at: int)
    requires Inv(s) && Resolves(s.db, Scope(tenant, Some(app)), names, resolved)
    requires AssignAppUserRoles(s, tenant, app, user, names, resolved, replace, at).Ok?
    ensures GoodWrite(s.db, AssignAppUserRoles(s, tenant, app, user, names, resolved, replace, at).s.db, user)
  {
    var cleared := if replace then ClearRoles(s.db.userRoles, user, tenant) else s.db.userRoles;
    var d := s.db.(userRoles := GrantAll(cleared, user, RolesFor(names, resolved), tenant, at));
    AppGrantsAreGood(s, tenant, app, user, names, resolved, cleared, at);
    hide GrantAll, ClearRoles, Resolves, Earliest, Inv;
    RepointIsGood(s.db, d, user);
  }

  lemma AttachIsGood(s: Store, user: Id, role: Id, at: int)
    requires Inv(s) && user in s.db.users && AttachSystemRole(s, user, role, at) != s
    ensures GoodWrite(s.db, AttachSystemRole(s, user, role, at).db, user)
  {
    var b := AttachSystemRole(s, user, role, at).db;
    HoldersAreKnown(s.db, user);
    assert HoldsRole(b, user, role);
    forall k | k in b.userRoles && k.0 == user
      ensures GrantOk(b, k)
    {
      if k != (user, role) {
        assert GrantOk(s.db, k);
      } else if k in s.db.userRoles {
        assert GrantOk(s.db, k);
      }
    }
  }

  // ---------------------------------------------------------------------------------------
  // What the written user holds afterwards
  // ---------------------------------------------------------------------------------------

  /** Replacement leaves exactly the one role, and it is primary. */
  lemma AssignIsExact(s: Store, tenant: Id, user: Id, role: Id, at: int, r: Id)
    requires Inv(s) && CommitAssign(s, tenant, user, role, at).Ok?
    ensures var b := CommitAssign(s, tenant, user, role, at).s.db;
            (HoldsRole(b, user, r) <==> r == role) && b.users[user].role == Some(role)
  {
    if HoldsRole(s.db, user, r) {
      assert GrantOk(s.db, (user, r));
    }
  }

  /**
   Addition loses nothing, keeps the instants of what was held, and moves the primary only off
   nothing, for a user not deleted meanwhile.
   */
  lemma AddIsExact(s: Store, tenant: Id, user: Id, role: Id, at: int, r: Id)
    requires Inv(s) && StillTrue(s.db, ForUser(tenant, user, role))
    ensures CommitAdd(s, tenant, user, role, at).Ok?
    ensures var b := CommitAdd(s, tenant, user, role, at).s.db;
            && (HoldsRole(b, user, r) <==> HoldsRole(s.db, user, r) || r == role)
            && (HoldsRole(s.db, user, r) ==> b.userRoles[(user, r)] == s.db.userRoles[(user, r)])
            && b.users[user].role ==
               if s.db.users[user].role.None? && s.db.users[user].live then Some(role) else s.db.users[user].role
  {
  }

  /** `user`'s primary in `b` is the earliest grant of a live role still held, or nothing if there is none. */
  ghost predicate PrimaryIsEarliest(b: Db, user: Id)
    requires user in b.users
  {
    match b.users[user].role
    case Some(r) => IsEarliest(b, user, r)
    case None => !HoldsLive(b, user)
  }

  lemma RepointIsEarliest(d: Db, user: Id)
    requires user in d.users && forall k :: k in d.userRoles && k.0 == user ==> GrantOk(d, k)
    ensures PrimaryIsEarliest(Repointed(d, user), user)
  {
    EarliestExists(d, user);
    var b := Repointed(d, user);
    assert HoldsLive(b, user) <==> HoldsLive(d, user);
    if b.users[user].role.Some? {
      var r := b.users[user].role.value;
      assert forall q :: Candidate(b, user, q) <==> Candidate(d, user, q);
      assert forall q :: Candidate(d, user, q) ==> GrantedNoLater(d, user, r, q) && GrantedNoLater(b, user, r, q);
    }
  }

  /** Removal takes exactly the one role; if it was primary, the earliest of the others takes its place. */
  lemma RemoveIsExact(s: Store, tenant: Id, user: Id, role: Id, r: Id)
    requires Inv(s) && CommitRemove(s, tenant, user, role).Ok?
    ensures user in s.db.users
    ensures var b := CommitRemove(s, tenant, user, role).s.db;
            && user in b.users
            && (HoldsRole(b, user, r) <==> HoldsRole(s.db, user, r) && r != role)
            && (s.db.users[user].role != Some(role) ==> b.users[user] == s.db.users[user])
            && (s.db.users[user].role == Some(role) ==> PrimaryIsEarliest(b, user))
  {
    var d := s.db.(userRoles := s.db.userRoles - {(user, role)});
    assert GrantOk(s.db, (user, role));
    forall k | k in d.userRoles && k.0 == user
      ensures GrantOk(d, k)
    {
      assert GrantOk(s.db, k);
    }
    hide PrimaryIsEarliest, Earliest;
    if s.db.users[user].role == Some(role) {
      RepointIsEarliest(d, user);
    }
  }

  predicate Requested(names: seq<string>, resolved: map<string, Id>, role: Id) {
    exists n :: n in names && n in resolved && resolved[n] == role
  }

  /** The backend's user ends up with what was asked for, on top of what was held unless that was to be replaced. */
  lemma AppAssignIsExact(
    s: Store, tenant: Id, app: Id, user: Id, names: seq<string>, resolved: map<string, Id>, replace: bool, at: int, r: Id)
    requires Inv(s) && Resolves(s.db, Scope(tenant, Some(app)), names, resolved)
    requires AssignAppUserRoles(s, tenant, app, user, names, resolved, replace, at).Ok?
    ensures var b := AssignAppUserRoles(s, tenant, app, user, names, resolved, replace, at).s.db;
            && (HoldsRole(b, user, r) <==> (!replace && HoldsRole(s.db, user, r)) || Requested(names, resolved, r))
            && (if s.db.users[user].role.Some? && HoldsRole(b, user, s.db.users[user].role.value)
                then b.users[user] == s.db.users[user]
                else PrimaryIsEarliest(b, user))
  {
    var cleared := if replace then ClearRoles(s.db.userRoles, user, tenant) else s.db.userRoles;
    var roles := RolesFor(names, resolved);
    var d := s.db.(userRoles := GrantAll(cleared, user, roles, tenant, at));
    AppGrantsAreGood(s, tenant, app, user, names, resolved, cleared, at);
    GrantAllGrants(cleared, user, roles, tenant, at);
    RequestedIffListed(names, resolved, r);
    assert replace ==> (user, r) !in cleared by {
      if HoldsRole(s.db, user, r) {
        assert GrantOk(s.db, (user, r));
      }
    }
    hide GrantAll, Resolves, Earliest, Inv, PrimaryIsEarliest, Requested;
    RepointIsEarliest(d, user);
  }

  lemma RequestedIffListed(names: seq<string>, resolved: map<string, Id>, r: Id)
    requires forall n :: n in names ==> n in resolved
    ensures r in RolesFor(names, resolved) <==> Requested(names, resolved, r)
  {
    var roles := RolesFor(names, resolved);
    if r in roles {
      var i :| 0 <= i < |roles| && roles[i] == r;
      assert names[i] in names;
    }
    if n :| n in names && n in resolved && resolved[n] == r {
      var i :| 0 <= i < |names| && names[i] == n;
      assert roles[i] == r;
    }
  }

  // ---------------------------------------------------------------------------------------
  // Removing an administrator
  // ---------------------------------------------------------------------------------------

  predicate HoldsOrdinary(db: Db, user: Id) {
    exists k :: k in db.userRoles && k.0 == user && k.1 in db.roles && !db.roles[k.1].system && db.roles[k.1].live
  }

  /** The role half of removing an administrator keeps everything but, possibly, a primary for its user. */
  lemma RestoreKeepsInv(s: Store, admin: Id, at: int)
    requires Inv(s)
    ensures Inv(RestorePrevious(s, admin, at))
  {
    var t := RestorePrevious(s, admin, at);
    if t != s {
      RestoreWrites(s, admin, at);
      WriteKeepsRest(s, t.db, s.previous[admin].user);
      hide RestorePrevious, GrantsOk, AllPrimariesHeld, Consistent, UserOk;
    }
  }

  lemma RestoreWrites(s: Store, admin: Id, at: int)
    requires Inv(s) && admin in s.previous && s.previous[admin].user in s.db.users
    ensures var b := RestorePrevious(s, admin, at).db;
            && WritesOnly(s.db, b, s.previous[admin].user) && UserOk(b, s.previous[admin].user)
            && forall k :: k in b.userRoles ==> k.0 < b.nextUser
  {
  }

  /** It leaves a live user a primary exactly when a role was recorded to restore, or no ordinary role is held. */
  lemma RestorePrimaryIff(s: Store, admin: Id, at: int)
    requires Inv(s) && admin in s.previous
    ensures var user := s.previous[admin].user;
            user in s.db.users
            && (PrimarySet(RestorePrevious(s, admin, at).db, user) <==>
                s.db.users[user].live ==> s.previous[admin].role.Some? || !HoldsOrdinary(s.db, user))
  {
  }

  // ---------------------------------------------------------------------------------------
  // New users
  // ---------------------------------------------------------------------------------------

  /** One user more, holding at most the role it is created with. */
  ghost predicate AddsUser(a: Db, b: Db, user: User, at: int) {
    var id := a.nextUser;
    && b.users == a.users[id := user] && b.nextUser == id + 1 && b.roles == a.roles
    && b.userRoles == if user.role.Some? then a.userRoles[(id, user.role.value) := Grant(user.scope.tenant, at)] else a.userRoles
  }

  lemma NewUserHoldsNothing(db: Db)
    requires Consistent(db)
    ensures db.nextUser !in db.users && forall k :: k in db.userRoles ==> k.0 != db.nextUser
  {
  }

  lemma NewUserKeeps(s: Store, b: Db, user: User, at: int)
    requires Inv(s) && Consistent(b) && AddsUser(s.db, b, user, at)
    requires user.role.Some? ==> RoleInScope(b, s.db.nextUser, user.role.value)
    ensures Inv(s.(db := b)) && (AllPrimariesSet(s.db) ==> AllPrimariesSet(b))
  {
  }

  lemma CreateUserKeeps(
    s: Store, scope: Scope, email: string, first: string, last: string, credential: string, role: Option<Id>,
    at: int)
    requires Inv(s) && CommitCreate(s, scope, email, first, last, credential, role, at).Ok?
    requires role.Some? ==> StillTrue(s.db, ForScope(scope, role.value))
    ensures var t := CommitCreate(s, scope, email, first, last, credential, role, at).s;
            Inv(t) && (AllPrimariesSet(s.db) ==> AllPrimariesSet(t.db))
  {
    var t := CommitCreate(s, scope, email, first, last, credential, role, at).s;
    var user := User(scope, email, first, last, role, true, false, Some(credential), true);
    NewUserHoldsNothing(s.db);
    assert Consistent(t.db) by {
      var id := s.db.nextUser;
      assert t.db.users[id].live && UserKey(t.db.users[id].scope, t.db.users[id].email) == UserKey(scope, email);
      assert forall u :: u in s.db.users ==> u != id && t.db.users[u] == s.db.users[u];
    }
    NewUserKeeps(s, t.db, user, at);
  }

  /** Deleting a user takes nobody's role, and frees the address. */
  lemma DeleteUserKeeps(s: Store, tenant: Id, pin: Option<Id>, user: Id)
    requires Inv(s) && DeleteUser(s, tenant, pin, user).Ok?
    ensures var t := DeleteUser(s, tenant, pin, user).s;
            && Inv(t) && (AllPrimariesSet(s.db) ==> AllPrimariesSet(t.db)) && t.db.userRoles == s.db.userRoles
            && FindUser(t.db, s.db.users[user].scope, s.db.users[user].email).None?
  {
  }

  // ---------------------------------------------------------------------------------------
  // Imported rows
  // ---------------------------------------------------------------------------------------

  /** A role as the import resolved it before its first row: an assignable role of its scope, perhaps deleted since. */
  predicate Resolved(db: Db, scope: Scope, role: Option<Id>) {
    role.Some? ==> role.value in db.roles && !db.roles[role.value].system && db.roles[role.value].scope == scope
  }

  /**
   Whether applying the row grants its role to somebody: to the user found if rows amend users and this
   one names a role, to a new user unless an identity of the row is in the way.
   */
  predicate RowGrants(
    f: UserImport.Foreign, c: UserImport.Context, db: Db, email: string, u: UserImport.ImportUser, role: Option<Id>)
  {
    && role.Some?
    && if FindUser(db, c.scope, email).Some?
       then c.updateExisting && UserImport.AmendRole(f, u.role, role).named
       else ImportAgreement.ProvidersDiffer(u.identities)
            && ImportAgreement.IdentityKeys(c.scope, u.identities) !! db.identities.Keys
  }

  lemma ImportInsertKeeps(
    s: Store, f: UserImport.Foreign, scope: Scope, email: string, u: UserImport.ImportUser, role: Option<Id>,
    at: int)
    requires Inv(s) && (u.identities == [] || scope.app.Some?) && Resolved(s.db, scope, role)
    requires UserImport.InsertUser(f, s.db, scope, email, u, role, at).Inserted?
    ensures var b := UserImport.InsertUser(f, s.db, scope, email, u, role, at).db;
            Inv(s.(db := b)) && (AllPrimariesSet(s.db) ==> AllPrimariesSet(b))
  {
    var b := UserImport.InsertUser(f, s.db, scope, email, u, role, at).db;
    ImportAgreement.InsertConsistent(f, s.db, scope, email, u, role, at);
    NewUserHoldsNothing(s.db);
    hide Inv, Consistent;
    NewUserKeeps(s, b, b.users[s.db.nextUser], at);
  }

  lemma ImportUpdateIsGood(
    s: Store, scope: Scope, id: Id, u: UserImport.ImportUser, role: UserImport.AmendedRole, at: int)
    requires Inv(s) && id in s.db.users && s.db.users[id].scope == scope && s.db.users[id].live
    requires Resolved(s.db, scope, role.id)
    ensures GoodWrite(s.db, UserImport.UpdateUser(s.db, scope.tenant, id, u, role, at), id)
  {
  }

  lemma FoundUserIsThere(db: Db, scope: Scope, email: string)
    requires Consistent(db) && FindUser(db, scope, email).Some?
    ensures var id := FindUser(db, scope, email).value;
            id in db.users && db.users[id].live && db.users[id].scope == scope
  {
  }

  lemma ImportRowKeeps(
    s: Store, f: UserImport.Foreign, c: UserImport.Context, email: string, u: UserImport.ImportUser,
    role: Option<Id>, at: int)
    requires Inv(s) && (u.identities == [] || c.scope.app.Some?) && Resolved(s.db, c.scope, role)
    ensures var b := UserImport.CommitRow(f, c, false, s.db, email, u, role, at).db;
            Inv(s.(db := b)) && (AllPrimariesSet(s.db) ==> AllPrimariesSet(b))
  {
    var b := UserImport.CommitRow(f, c, false, s.db, email, u, role, at).db;
    match FindUser(s.db, c.scope, email)
    case Some(id) =>
      if c.updateExisting {
        FoundUserIsThere(s.db, c.scope, email);
        hide Inv, AllPrimariesSet, UserImport.UpdateUser, Consistent;
        ImportUpdateIsGood(s, c.scope, id, u, UserImport.AmendRole(f, u.role, role), at);
        GoodWriteKeeps(s, b, id);
      } else {
        assert s.(db := b) == s;
      }
    case None =>
      if UserImport.InsertUser(f, s.db, c.scope, email, u, role, at).Inserted? {
        hide Inv, AllPrimariesSet, UserImport.InsertUser;
        ImportInsertKeeps(s, f, c.scope, email, u, role, at);
      } else {
        assert s.(db := b) == s;
      }
  }

  // ---------------------------------------------------------------------------------------
  // A role deleted between its check and its grant
  // ---------------------------------------------------------------------------------------

  /** Every grant of `b` is one of `a`, or of `role`. */
  ghost predicate GrantsAtMost(a: Db, b: Db, role: Option<Id>) {
    b.roles == a.roles && forall k :: k in b.userRoles ==> k in a.userRoles || role == Some(k.1)
  }

  /** Grants of one role more keep every held role live exactly when that one is, if anybody now holds it. */
  lemma LiveIff(a: Db, b: Db, role: Option<Id>, holder: Id)
    requires AllLive(a) && GrantsAtMost(a, b, role) && (role.Some? ==> HoldsRole(b, holder, role.value))
    ensures AllLive(b) <==> (role.Some? ==> RoleLive(a, role.value))
  {
  }

  lemma CommitAssignGrants(s: Store, tenant: Id, user: Id, role: Id, at: int)
    requires CommitAssign(s, tenant, user, role, at).Ok?
    ensures var b := CommitAssign(s, tenant, user, role, at).s.db;
            GrantsAtMost(s.db, b, Some(role)) && HoldsRole(b, user, role)
  {
  }

  lemma CommitAddGrants(s: Store, tenant: Id, user: Id, role: Id, at: int)
    requires CommitAdd(s, tenant, user, role, at).Ok?
    ensures var b := CommitAdd(s, tenant, user, role, at).s.db;
            GrantsAtMost(s.db, b, Some(role)) && HoldsRole(b, user, role)
  {
  }

  lemma CommitCreateGrants(
    s: Store, scope: Scope, email: string, first: string, last: string, credential: string, role: Option<Id>,
    at: int)
    requires CommitCreate(s, scope, email, first, last, credential, role, at).Ok?
    ensures var b := CommitCreate(s, scope, email, first, last, credential, role, at).s.db;
            GrantsAtMost(s.db, b, role) && (role.Some? ==> HoldsRole(b, s.db.nextUser, role.value))
  {
  }

  /** The role an imported row grants, if it grants one. */
  function RowRole(
    f: UserImport.Foreign, c: UserImport.Context, db: Db, email: string, u: UserImport.ImportUser, role: Option<Id>
  ): Option<Id>
  {
    if RowGrants(f, c, db, email, u, role) then role else None
  }

  /** After the row nothing is granted but what was, and its role; and its role exactly when the guard says so. */
  lemma ImportRowGrants(
    f: UserImport.Foreign, c: UserImport.Context, db: Db, email: string, u: UserImport.ImportUser,
    role: Option<Id>, at: int)
    returns (holder: Id)
    requires Consistent(db) && (u.identities == [] || c.scope.app.Some?)
    ensures var b := UserImport.CommitRow(f, c, false, db, email, u, role, at).db;
            var granted := RowRole(f, c, db, email, u, role);
            GrantsAtMost(db, b, granted) && (granted.Some? ==> HoldsRole(b, holder, granted.value))
  {
    holder := db.nextUser;
    match FindUser(db, c.scope, email)
    case Some(id) =>
      FoundUserIsThere(db, c.scope, email);
      holder := id;
    case None =>
      ImportAgreement.InsertedIff(f, db, c.scope, email, u, role, at);
      hide ImportAgreement.ProvidersDiffer, ImportAgreement.IdentityKeys, UserImport.InsertIdentities;
  }

  // ---------------------------------------------------------------------------------------
  // Deleting a role
  // ---------------------------------------------------------------------------------------

  /** Every grant of a role and every primary pointing at it is in the role's own tenant. */
  lemma HoldersAreInTenant(s: Store, tenant: Id, role: Id)
    requires Inv(s) && Deletable(s.db, tenant, role)
    ensures forall k :: k in s.db.userRoles && k.1 == role ==> s.db.userRoles[k].tenant == tenant && k.0 in s.db.users
    ensures forall u :: u in s.db.users && s.db.users[u].role == Some(role) ==> s.db.users[u].scope.tenant == tenant
    ensures forall g :: g in s.orgGrants && g.role == role ==> g.user in s.db.users && s.db.users[g.user].scope.tenant == tenant
    ensures forall a :: a in s.previous && s.previous[a].role == Some(role) ==> s.previous[a].tenant == tenant
  {
  }

  /** After the detaching writes nothing refers to the role, and every other grant is as it was. */
  lemma DetachedIsClean(s: Store, tenant: Id, role: Id)
    requires Inv(s) && Deletable(s.db, tenant, role)
    ensures var d := Detached(s.db, tenant, role);
            && GrantsOk(d) && AllPrimariesHeld(d)
            && (forall k :: k in d.userRoles <==> k in s.db.userRoles && k.1 != role)
            && d.users.Keys == s.db.users.Keys
            && (forall u :: u in d.users ==>
                  d.users[u] == if s.db.users[u].role == Some(role) then s.db.users[u].(role := None) else s.db.users[u])
  {
    HoldersAreInTenant(s, tenant, role);
    DetachedTables(s.db, tenant, role);
    hide Consistent, DefaultsOk, PermissionsOk, OrgGrantsOk, PreviousOk;
    DetachedGrantsOk(s.db, Detached(s.db, tenant, role), role);
  }

  lemma DetachedTables(db: Db, tenant: Id, role: Id)
    requires role in db.roles
    requires forall k :: k in db.userRoles && k.1 == role ==> db.userRoles[k].tenant == tenant
    requires forall u :: u in db.users && db.users[u].role == Some(role) ==> db.users[u].scope.tenant == tenant
    ensures var d := Detached(db, tenant, role);
            && (forall k :: k in d.userRoles <==> k in db.userRoles && k.1 != role)
            && (forall k :: k in d.userRoles ==> d.userRoles[k] == db.userRoles[k])
            && d.users.Keys == db.users.Keys
            && (forall u :: u in d.users ==>
                  d.users[u] == if db.users[u].role == Some(role) then db.users[u].(role := None) else db.users[u])
            && (forall r :: r in db.roles && r != role ==> r in d.roles && d.roles[r] == db.roles[r])
  {
  }

  lemma DetachedGrantsOk(db: Db, d: Db, role: Id)
    requires GrantsOk(db) && AllPrimariesHeld(db)
    requires forall k :: k in d.userRoles <==> k in db.userRoles && k.1 != role
    requires forall k :: k in d.userRoles ==> d.userRoles[k] == db.userRoles[k]
    requires d.users.Keys == db.users.Keys
    requires forall u :: u in d.users ==>
               d.users[u] == if db.users[u].role == Some(role) then db.users[u].(role := None) else db.users[u]
    requires forall r :: r in db.roles && r != role ==> r in d.roles && d.roles[r] == db.roles[r]
    ensures GrantsOk(d) && AllPrimariesHeld(d)
  {
  }

  /** Promotion gives whoever has no primary the earliest live role held, if any, and changes nobody else. */
  lemma PromotedIsOk(d: Db, tenant: Id)
    requires GrantsOk(d) && AllPrimariesHeld(d)
    ensures var p := Promoted(d, tenant);
            && GrantsOk(p) && AllPrimariesHeld(p) && p.users.Keys == d.users.Keys && p.userRoles == d.userRoles
            && (forall u :: u in d.users && d.users[u].scope.tenant == tenant ==> PrimarySet(p, u))
            && (forall u :: u in d.users && (d.users[u].scope.tenant != tenant || d.users[u].role.Some?) ==> p.users[u] == d.users[u])
            && (forall u :: u in d.users && d.users[u].scope.tenant == tenant && d.users[u].role.None? ==>
                  p.users[u] == d.users[u].(role := Earliest(d, u)))
            && (forall u :: u in d.users ==> p.users[u] == d.users[u].(role := p.users[u].role))
  {
    var p := Promoted(d, tenant);
    forall k | k in p.userRoles
      ensures GrantOk(p, k)
    {
      assert GrantOk(d, k);
    }
    forall u | u in p.users
      ensures PrimaryHeld(p, u) && (d.users[u].scope.tenant == tenant ==> PrimarySet(p, u))
      ensures d.users[u].scope.tenant == tenant && d.users[u].role.None? ==> p.users[u] == d.users[u].(role := Earliest(d, u))
    {
      EarliestExists(d, u);
      assert HoldsLive(d, u) ==> HoldsAny(d, u);
      assert PrimaryHeld(d, u) && (HoldsLive(p, u) <==> HoldsLive(d, u));
    }
  }

  lemma DeletedDb(s: Store, tenant: Id, role: Id)
    requires Deletable(s.db, tenant, role)
    ensures DeleteRole(s, tenant, role).Ok?
    ensures DeleteRole(s, tenant, role).s.db == Promoted(Detached(s.db, tenant, role), tenant)
  {
    hide Promoted, Detached;
  }

  /** Of a user's row only the primary can change. */
  lemma DeleteTouchesOnlyPrimaries(s: Store, tenant: Id, role: Id)
    requires Inv(s) && Deletable(s.db, tenant, role)
    ensures var b := DeleteRole(s, tenant, role).s.db;
            && b.users.Keys == s.db.users.Keys && GrantsOk(b) && AllPrimariesHeld(b)
            && (forall u :: u in s.db.users ==> b.users[u] == s.db.users[u].(role := b.users[u].role))
            && (forall k :: k in b.userRoles ==> k in s.db.userRoles)
  {
    DeletedDb(s, tenant, role);
    DetachedIsClean(s, tenant, role);
    var d := Detached(s.db, tenant, role);
    PromotedIsOk(d, tenant);
    var b := DeleteRole(s, tenant, role).s.db;
    hide *;
    forall u | u in s.db.users
      ensures b.users[u] == s.db.users[u].(role := b.users[u].role)
    {
      assert d.users[u] == s.db.users[u].(role := d.users[u].role);
    }
  }

  lemma DeleteKeepsConsistent(a: Db, b: Db)
    requires Consistent(a) && b.users.Keys == a.users.Keys && b.nextUser == a.nextUser
    requires b.emails == a.emails && b.identities == a.identities
    requires forall u :: u in a.users ==> b.users[u] == a.users[u].(role := b.users[u].role)
    requires forall k :: k in b.userRoles ==> k in a.userRoles
    ensures Consistent(b)
  {
    assert forall u :: u in a.users ==> b.users[u].scope == a.users[u].scope && b.users[u].email == a.users[u].email
                                        && b.users[u].live == a.users[u].live;
  }

  lemma DeleteKeepsRoleTables(s: Store, tenant: Id, role: Id)
    requires DefaultsOk(s.db) && PermissionsOk(s) && Deletable(s.db, tenant, role) && forall r :: r in s.db.roles ==> r < s.nextRole
    ensures var t := DeleteRole(s, tenant, role).s;
            DefaultsOk(t.db) && PermissionsOk(t) && forall r :: r in t.db.roles ==> r < t.nextRole
  {
  }

  lemma DeleteKeepsReferences(s: Store, t: Store, tenant: Id, role: Id)
    requires OrgGrantsOk(s) && PreviousOk(s) && Deletable(s.db, tenant, role) && t == DeleteRole(s, tenant, role).s
    requires forall u :: u in s.db.users ==> u in t.db.users && t.db.users[u].scope == s.db.users[u].scope
    requires forall a :: a in s.previous && s.previous[a].role == Some(role) ==> s.previous[a].tenant == tenant
    ensures OrgGrantsOk(t) && PreviousOk(t)
  {
    assert t.db.roles == s.db.roles[role := s.db.roles[role].(live := false, isDefault := false)];
    hide Promoted, Detached;
    forall u, r | r != role && RoleFits(s.db, u, r)
      ensures RoleFits(t.db, u, r)
    {
    }
    hide RoleFits;
  }

  lemma DeleteRoleKeepsInv(s: Store, tenant: Id, role: Id)
    requires Inv(s) && Deletable(s.db, tenant, role)
    ensures Inv(DeleteRole(s, tenant, role).s)
  {
    var t := DeleteRole(s, tenant, role).s;
    DeleteTouchesOnlyPrimaries(s, tenant, role);
    DeleteKeepsConsistent(s.db, t.db);
    HoldersAreInTenant(s, tenant, role);
    DeleteKeepsRoleTables(s, tenant, role);
    hide GrantsOk, AllPrimariesHeld, Promoted, Detached, Consistent, DefaultsOk, PermissionsOk, OrgGrantsOk, PreviousOk;
    DeleteKeepsReferences(s, t, tenant, role);
  }

  lemma DeleteRoleKeepsSet(s: Store, tenant: Id, role: Id)
    requires Inv(s) && Deletable(s.db, tenant, role) && AllPrimariesSet(s.db)
    ensures AllPrimariesSet(DeleteRole(s, tenant, role).s.db)
  {
    var p := DeleteRole(s, tenant, role).s.db;
    var d := Detached(s.db, tenant, role);
    DetachedIsClean(s, tenant, role);
    PromotedIsOk(d, tenant);
    hide GrantsOk, AllPrimariesHeld, Earliest, Inv;
    forall u | u in p.users
      ensures PrimarySet(p, u)
    {
      if d.users[u].scope.tenant != tenant {
        assert PrimarySet(s.db, u);
        assert HoldsLive(p, u) ==> HoldsLive(s.db, u);
      }
    }
  }

  lemma DeleteRoleKeepsLive(s: Store, tenant: Id, role: Id)
    requires Inv(s) && Deletable(s.db, tenant, role) && AllLive(s.db)
    ensures AllLive(DeleteRole(s, tenant, role).s.db)
  {
    var t := DeleteRole(s, tenant, role).s;
    DetachedIsClean(s, tenant, role);
    hide Inv, GrantsOk, AllPrimariesHeld;
    assert t.db.userRoles == Detached(s.db, tenant, role).userRoles;
    assert t.db.roles == s.db.roles[role := s.db.roles[role].(live := false, isDefault := false)];
  }

  /** Who held the role, by any route. */
  predicate Held(s: Store, role: Id, user: Id) {
    user in s.db.users
    && (s.db.users[user].role == Some(role) || HoldsRole(s.db, user, role)
        || exists g :: g in s.orgGrants && g.user == user && g.role == role)
  }

  /** The users reported are exactly the live ones who held the role by any of its three routes, in whatever tenant. */
  lemma ReportedAreTheHolders(s: Store, tenant: Id, role: Id, user: Id)
    requires Inv(s) && Deletable(s.db, tenant, role)
    ensures ReportedHolder(s, tenant, role, user) <==> Held(s, role, user) && s.db.users[user].live
  {
  }

  /** The role is gone from everywhere it could be held, granted, reached, defaulted to or restored from. */
  predicate GoneEverywhere(s: Store, role: Id) {
    && role in s.db.roles && !s.db.roles[role].live && !s.db.roles[role].isDefault
    && (forall u :: u in s.db.users ==> s.db.users[u].role != Some(role))
    && (forall k :: k in s.db.userRoles ==> k.1 != role)
    && (forall k :: k in s.rolePerms ==> k.0 != role)
    && (forall g :: g in s.orgGrants ==> g.role != role)
    && (forall a :: a in s.previous ==> s.previous[a].role != Some(role))
  }

  lemma DeletedIsGone(s: Store, tenant: Id, role: Id)
    requires Inv(s) && Deletable(s.db, tenant, role)
    ensures GoneEverywhere(DeleteRole(s, tenant, role).s, role)
  {
    var t := DeleteRole(s, tenant, role).s;
    DeleteRoleKeepsInv(s, tenant, role);
    DetachedIsClean(s, tenant, role);
    HoldersAreInTenant(s, tenant, role);
    hide GrantsOk, Earliest, HoldsAny, Consistent, RoleFits;
    forall u | u in t.db.users
      ensures t.db.users[u].role != Some(role)
    {
      assert PrimaryHeld(t.db, u);
      assert t.db.userRoles == Detached(s.db, tenant, role).userRoles;
    }
  }

  /**
   Other roles stay granted to whoever had them, from when they had them.  Of users of the tenant,
   one whose primary this was and one without a primary get the earliest of the live roles still
   held, if any; everybody else's row is as it was.
   */
  lemma OthersUnchanged(s: Store, tenant: Id, role: Id, user: Id)
    requires Inv(s) && Deletable(s.db, tenant, role) && user in s.db.users
    ensures var t := DeleteRole(s, tenant, role).s;
            var row := s.db.users[user];
            && (forall r :: r != role ==>
                  (HoldsRole(t.db, user, r) <==> HoldsRole(s.db, user, r))
                  && (HoldsRole(s.db, user, r) ==> t.db.userRoles[(user, r)] == s.db.userRoles[(user, r)]))
            && (forall g :: g in s.orgGrants && g.role != role ==> g in t.orgGrants)
            && user in t.db.users
            && t.db.users[user] ==
               if row.scope.tenant == tenant && (row.role == Some(role) || row.role.None?)
               then row.(role := Earliest(Detached(s.db, tenant, role), user)) else row
  {
    var d := Detached(s.db, tenant, role);
    DetachedIsClean(s, tenant, role);
    PromotedIsOk(d, tenant);
    HoldersAreInTenant(s, tenant, role);
    hide GrantsOk, AllPrimariesHeld, Earliest, Inv, Promoted;
  }

  /** A live role other than `role` is held. */
  predicate HoldsLiveBeside(db: Db, user: Id, role: Id) {
    exists k :: k in db.userRoles && k.0 == user && k.1 != role && k.1 in db.roles && db.roles[k.1].live
  }

  lemma DetachedLive(s: Store, tenant: Id, role: Id, user: Id)
    requires Inv(s) && Deletable(s.db, tenant, role) && user in s.db.users
    ensures var d := Detached(s.db, tenant, role);
            user in d.users && (Earliest(d, user).Some? <==> HoldsLiveBeside(s.db, user, role))
  {
    var d := Detached(s.db, tenant, role);
    DetachedIsClean(s, tenant, role);
    assert forall k :: k in d.userRoles && k.0 == user ==> GrantOk(d, k);
    assert d.roles == s.db.roles[role := s.db.roles[role].(live := false, isDefault := false)];
    hide Inv, GrantsOk, AllPrimariesHeld, Earliest, GrantOk, Detached;
    EarliestExists(d, user);
    assert HoldsLive(d, user) <==> HoldsLiveBeside(s.db, user, role);
  }

  /**
   A user whose primary was another role, or who had none, notices nothing exactly when of another
   tenant, or with a primary, or holding no other live role.
   */
  lemma UnrelatedKeptIff(s: Store, tenant: Id, role: Id, user: Id)
    requires Inv(s) && Deletable(s.db, tenant, role) && user in s.db.users && s.db.users[user].role != Some(role)
    ensures var t := DeleteRole(s, tenant, role).s;
            user in t.db.users
            && (t.db.users[user] == s.db.users[user] <==>
                s.db.users[user].scope.tenant != tenant || s.db.users[user].role.Some? || !HoldsLiveBeside(s.db, user, role))
  {
    OthersUnchanged(s, tenant, role, user);
    DetachedLive(s, tenant, role, user);
    hide Earliest, Inv, DeleteRole, Detached, HoldsLiveBeside, Deletable;
  }

  /** So nobody does who is live and was in order. */
  lemma InOrderIsKept(s: Store, tenant: Id, role: Id, user: Id)
    requires Inv(s) && Deletable(s.db, tenant, role) && user in s.db.users && s.db.users[user].role != Some(role)
    requires s.db.users[user].live && PrimarySet(s.db, user)
    ensures var t := DeleteRole(s, tenant, role).s;
            user in t.db.users && t.db.users[user] == s.db.users[user]
  {
    UnrelatedKeptIff(s, tenant, role, user);
    hide DeleteRole, Inv;
    assert HoldsLiveBeside(s.db, user, role) ==> HoldsLive(s.db, user);
  }
}
