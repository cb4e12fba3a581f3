/** Whole runs of the role, permission, user, import and application-backend writers, in any order. */
module RoleRuns {
  import opened Prelude
  import opened Directory
  import opened RoleStore
  import opened RoleInvariants
  import opened RoleWriters
  import UserImport

  /** The tables, and every check that passed so far: its writer may commit at any time after. */
  datatype World = World(s: Store, checked: set<Request>)

  datatype Action =
    | AddPermission(permission: Id, scope: Scope)
    | DropPermission(permission: Id)
    | NewRole(scope: Scope, name: string, perms: seq<Id>)
    | SetPermissions(tenant: Id, role: Id, perms: seq<Id>)
    | SetDefault(tenant: Id, app: Id, role: Id)
    | DropRole(tenant: Id, role: Id)
    | Check(q: Request)
    | NewUser(scope: Scope, email: string, first: string, last: string, credential: string, initial: Option<Id>, at: int)
    | Assign(tenant: Id, user: Id, role: Id, at: int)
    | Add(tenant: Id, user: Id, role: Id, at: int)
    | Remove(tenant: Id, user: Id, role: Id)
    | DropUser(tenant: Id, pin: Option<Id>, user: Id)
    | AppAssign(tenant: Id, app: Id, user: Id, names: seq<string>, resolved: map<string, Id>, replace: bool, at: int)
    | ImportRow(f: UserImport.Foreign, c: UserImport.Context, email: string, u: UserImport.ImportUser,
                resolvedRole: Option<Id>, at: int)
    | GrantInOrganization(g: OrgGrant)
    | AppointAdmin(admin: Id, tenant: Id, user: Id)
    | ConfirmAdmin(user: Id, role: Id, at: int)
    | DismissAdmin(admin: Id, at: int)

  /**
   What the database or an earlier query assures of an action's arguments.  A role assigned, added,
   given to a new user or resolved for an import was checked some time before.  (An imported row whose user
   came or went between its lookup and its write changes nothing.)
   */
  ghost predicate Enabled(w: World, a: Action) {
    match a
    case AddPermission(p, _) => p !in w.s.permissions
    case Check(q) => Passes(w.s.db, q)
    case NewUser(scope, _, _, _, _, role, _) => role.Some? ==> ForScope(scope, role.value) in w.checked
    case Assign(tenant, user, role, _) => ForUser(tenant, user, role) in w.checked
    case Add(tenant, user, role, _) => ForUser(tenant, user, role) in w.checked
    case AppAssign(tenant, app, _, names, resolved, _, _) => Resolves(w.s.db, Scope(tenant, Some(app)), names, resolved)
    case ImportRow(_, c, _, u, role, _) =>
      (u.identities == [] || c.scope.app.Some?) && (role.Some? ==> ForScope(c.scope, role.value) in w.checked)
    case GrantInOrganization(g) => RoleFits(w.s.db, g.user, g.role)
    case _ => true
  }

  /** A refused writer changes nothing. */
  function Settle(s: Store, r: Result): Store { if r.Ok? then r.s else s }

  ghost function NextStore(s: Store, a: Action): Store
    requires a.ImportRow? ==> a.u.identities == [] || a.c.scope.app.Some?
    requires a.AppAssign? ==> Resolves(s.db, Scope(a.tenant, Some(a.app)), a.names, a.resolved)
  {
    match a
    case AddPermission(p, scope) => s.(permissions := s.permissions[p := scope])
    case DropPermission(p) => DeletePermission(s, p)
    case NewRole(scope, name, perms) => Settle(s, CreateRole(s, scope, name, perms))
    case SetPermissions(tenant, role, perms) => Settle(s, UpdateRolePermissions(s, tenant, role, perms))
    case SetDefault(tenant, app, role) => Settle(s, SetDefaultRole(s, tenant, app, role))
    case DropRole(tenant, role) => Settle(s, DeleteRole(s, tenant, role))
    case Check(_) => s
    case NewUser(scope, email, first, last, credential, role, at) =>
      Settle(s, CommitCreate(s, scope, email, first, last, credential, role, at))
    case Assign(tenant, user, role, at) => Settle(s, CommitAssign(s, tenant, user, role, at))
    case Add(tenant, user, role, at) => Settle(s, CommitAdd(s, tenant, user, role, at))
    case Remove(tenant, user, role) => Settle(s, CommitRemove(s, tenant, user, role))
    case DropUser(tenant, pin, user) => Settle(s, DeleteUser(s, tenant, pin, user))
    case AppAssign(tenant, app, user, names, resolved, replace, at) =>
      Settle(s, AssignAppUserRoles(s, tenant, app, user, names, resolved, replace, at))
    case ImportRow(f, c, email, u, role, at) => s.(db := UserImport.CommitRow(f, c, false, s.db, email, u, role, at).db)
    case GrantInOrganization(g) => s.(orgGrants := s.orgGrants + {g})
    case AppointAdmin(admin, tenant, user) => RecordPrevious(s, admin, tenant, user)
    case ConfirmAdmin(user, role, at) => AttachSystemRole(s, user, role, at)
    case DismissAdmin(admin, at) => RestorePrevious(s, admin, at)
  }

  ghost function Next(w: World, a: Action): World
    requires Enabled(w, a)
  {
    World(NextStore(w.s, a), if a.Check? then w.checked + {a.q} else w.checked)
  }

  /** The tables are in order, and so is everything that was ever checked, but that it may be deleted by now. */
  ghost predicate Ok(w: World) { Inv(w.s) && forall q :: q in w.checked ==> StillTrue(w.s.db, q) }

  // ---------------------------------------------------------------------------------------
  // Writers of roles and permissions
  // ---------------------------------------------------------------------------------------

  lemma NewRoleKeeps(s: Store, scope: Scope, name: string, perms: seq<Id>)
    requires Inv(s)
    ensures var t := Settle(s, CreateRole(s, scope, name, perms));
            Inv(t) && (AllPrimariesSet(s.db) ==> AllPrimariesSet(t.db))
  {
    var r := CreateRole(s, scope, name, perms);
    if r.Ok? {
      var t := r.s;
      assert s.nextRole !in s.db.roles;
      RolesOnlyGrow(s, t);
      forall k | k in t.rolePerms
        ensures k.0 in t.db.roles && k.1 in t.permissions && t.permissions[k.1] == t.db.roles[k.0].scope
      {
      }
    }
  }

  /** Grants, primaries and references survive a change of roles that leaves every live role live and in its scope. */
  lemma RolesOnlyGrow(s: Store, t: Store)
    requires Inv(s)
    requires t.db == s.db.(roles := t.db.roles) && t.orgGrants == s.orgGrants && t.previous == s.previous
    requires forall r :: r in s.db.roles ==>
               r in t.db.roles && t.db.roles[r].live == s.db.roles[r].live
               && t.db.roles[r].scope == s.db.roles[r].scope && t.db.roles[r].system == s.db.roles[r].system
    ensures Consistent(t.db) && GrantsOk(t.db) && AllPrimariesHeld(t.db) && OrgGrantsOk(t) && PreviousOk(t)
    ensures AllPrimariesSet(s.db) ==> AllPrimariesSet(t.db)
  {
  }

  lemma SetDefaultTouchesFlags(s: Store, tenant: Id, app: Id, role: Id)
    requires SetDefaultRole(s, tenant, app, role).Ok?
    ensures var t := SetDefaultRole(s, tenant, app, role).s;
            && t == s.(db := s.db.(roles := t.db.roles)) && t.db.roles.Keys == s.db.roles.Keys
            && forall r :: r in s.db.roles ==> t.db.roles[r] == s.db.roles[r].(isDefault := t.db.roles[r].isDefault)
  {
    var t := SetDefaultRole(s, tenant, app, role).s;
    forall r | r in s.db.roles
      ensures r in t.db.roles && t.db.roles[r] == s.db.roles[r].(isDefault := t.db.roles[r].isDefault)
    {
      if r == role || s.db.roles[r].scope == Scope(tenant, Some(app)) {
      }
    }
  }

  lemma SetDefaultKeepsDefaults(s: Store, tenant: Id, app: Id, role: Id)
    requires DefaultsOk(s.db) && SetDefaultRole(s, tenant, app, role).Ok?
    ensures DefaultsOk(SetDefaultRole(s, tenant, app, role).s.db)
  {
  }

  lemma FlagsKeepPermissions(s: Store, t: Store)
    requires PermissionsOk(s) && t == s.(db := s.db.(roles := t.db.roles)) && t.db.roles.Keys == s.db.roles.Keys
    requires forall r :: r in s.db.roles ==> t.db.roles[r] == s.db.roles[r].(isDefault := t.db.roles[r].isDefault)
    ensures PermissionsOk(t)
  {
    forall k | k in t.rolePerms
      ensures k.0 in t.db.roles && k.1 in t.permissions && t.permissions[k.1] == t.db.roles[k.0].scope
    {
      var r := k.0;
      assert r in s.db.roles;
      assert t.db.roles[r].scope == s.db.roles[r].scope;
    }
  }

  lemma SetDefaultKeeps(s: Store, tenant: Id, app: Id, role: Id)
    requires Inv(s)
    ensures var t := Settle(s, SetDefaultRole(s, tenant, app, role));
            Inv(t) && (AllPrimariesSet(s.db) ==> AllPrimariesSet(t.db))
  {
    var r := SetDefaultRole(s, tenant, app, role);
    if r.Ok? {
      SetDefaultTouchesFlags(s, tenant, app, role);
      SetDefaultKeepsDefaults(s, tenant, app, role);
      hide SetDefaultRole;
      RolesOnlyGrow(s, r.s);
      FlagsKeepPermissions(s, r.s);
      hide Consistent, GrantsOk, AllPrimariesHeld, OrgGrantsOk, PreviousOk, AllPrimariesSet, DefaultsOk, PermissionsOk;
    }
  }

  /** The chosen role becomes the application's one default; whatever was default there before is not. */
  lemma SetDefaultIsExclusive(s: Store, tenant: Id, app: Id, role: Id, other: Id)
    requires SetDefaultRole(s, tenant, app, role).Ok? && other in s.db.roles
    ensures var t := SetDefaultRole(s, tenant, app, role).s;
            && t.db.roles[role].isDefault
            && (other != role && s.db.roles[other].scope == Scope(tenant, Some(app)) ==> !t.db.roles[other].isDefault)
            && (s.db.roles[other].scope != Scope(tenant, Some(app)) ==> t.db.roles[other] == s.db.roles[other])
  {
  }

  /** A role's permissions become exactly the named ones, and no other role's change. */
  lemma SetPermissionsIsExact(s: Store, tenant: Id, role: Id, perms: seq<Id>, r: Id, p: Id)
    requires UpdateRolePermissions(s, tenant, role, perms).Ok?
    ensures var t := UpdateRolePermissions(s, tenant, role, perms).s;
            (r, p) in t.rolePerms <==> if r == role then p in perms else (r, p) in s.rolePerms
  {
  }

  lemma PermissionWritersKeep(s: Store, a: Action)
    requires Inv(s) && (a.AddPermission? || a.DropPermission? || a.SetPermissions?)
    requires a.AddPermission? ==> a.permission !in s.permissions
    ensures Inv(NextStore(s, a)) && NextStore(s, a).db == s.db
  {
    hide Consistent, GrantsOk, AllPrimariesHeld, DefaultsOk;
  }

  lemma AdminWritersKeep(s: Store, a: Action)
    requires Inv(s) && (a.GrantInOrganization? || a.AppointAdmin?)
    requires a.GrantInOrganization? ==> RoleFits(s.db, a.g.user, a.g.role)
    ensures Inv(NextStore(s, a)) && NextStore(s, a).db == s.db
  {
    hide Consistent, GrantsOk, DefaultsOk;
    if a.AppointAdmin? && a.user in s.db.users && s.db.users[a.user].role.Some? {
      PrimaryIsInScope(s, a.user);
    }
  }

  lemma PrimaryIsInScope(s: Store, user: Id)
    requires Inv(s) && user in s.db.users && s.db.users[user].role.Some?
    ensures RoleInScope(s.db, user, s.db.users[user].role.value)
  {
  }

  // ---------------------------------------------------------------------------------------
  // Every step
  // ---------------------------------------------------------------------------------------

  /** `t` is in order, and no live user lost a primary on the way. */
  ghost predicate Kept(s: Store, t: Store) { Inv(t) && (AllPrimariesSet(s.db) ==> AllPrimariesSet(t.db)) }

  predicate GrantWriter(a: Action) { a.Assign? || a.Add? || a.Remove? || a.AppAssign? || a.ConfirmAdmin? }

  lemma GrantWritersKeep(w: World, a: Action)
    requires Ok(w) && Enabled(w, a) && GrantWriter(a)
    ensures Kept(w.s, NextStore(w.s, a))
  {
    var t := NextStore(w.s, a);
    if t != w.s {
      GrantIsGood(w, a);
      hide Inv, GoodWrite, AllPrimariesSet;
      GoodWriteKeeps(w.s, t.db, a.user);
    }
  }

  lemma GrantIsGood(w: World, a: Action)
    requires Ok(w) && Enabled(w, a) && GrantWriter(a) && NextStore(w.s, a) != w.s
    ensures var t := NextStore(w.s, a); GoodWrite(w.s.db, t.db, a.user) && t == w.s.(db := t.db)
  {
    hide GoodWrite, Inv, AssignAppUserRoles, CommitRemove, CommitAssign, CommitAdd, Resolves, StillTrue;
    var s := w.s;
    match a
    case Assign(tenant, user, role, at) =>
      AssignIsGood(s, tenant, user, role, at);
      assert WholeStore(s, CommitAssign(s, tenant, user, role, at)) by { AssignIsWhole(s, tenant, user, role, at); }
    case Add(tenant, user, role, at) =>
      AddIsGood(s, tenant, user, role, at);
      assert WholeStore(s, CommitAdd(s, tenant, user, role, at)) by { AddIsWhole(s, tenant, user, role, at); }
    case Remove(tenant, user, role) =>
      RemoveIsGood(s, tenant, user, role);
      assert WholeStore(s, CommitRemove(s, tenant, user, role)) by { RemoveIsWhole(s, tenant, user, role); }
    case AppAssign(tenant, app, user, names, resolved, replace, at) =>
      AppAssignIsGood(s, tenant, app, user, names, resolved, replace, at);
      assert WholeStore(s, AssignAppUserRoles(s, tenant, app, user, names, resolved, replace, at)) by {
        AppAssignIsWhole(s, tenant, app, user, names, resolved, replace, at);
      }
    case ConfirmAdmin(user, role, at) =>
      AttachIsGood(s, user, role, at);
  }

  /** A writer of the directory leaves the other tables alone. */
  predicate WholeStore(s: Store, r: Result) { r.Ok? ==> r.s == s.(db := r.s.db) }

  lemma AssignIsWhole(s: Store, tenant: Id, user: Id, role: Id, at: int)
    ensures WholeStore(s, CommitAssign(s, tenant, user, role, at))
  {
  }

  lemma AddIsWhole(s: Store, tenant: Id, user: Id, role: Id, at: int)
    ensures WholeStore(s, CommitAdd(s, tenant, user, role, at))
  {
  }

  lemma RemoveIsWhole(s: Store, tenant: Id, user: Id, role: Id)
    ensures WholeStore(s, CommitRemove(s, tenant, user, role))
  {
  }

  lemma AppAssignIsWhole(
    s: Store, tenant: Id, app: Id, user: Id, names: seq<string>, resolved: map<string, Id>, replace: bool, at: int)
    ensures WholeStore(s, AssignAppUserRoles(s, tenant, app, user, names, resolved, replace, at))
  {
  }

  lemma DropRoleKeeps(s: Store, tenant: Id, role: Id)
    requires Inv(s)
    ensures Kept(s, Settle(s, DeleteRole(s, tenant, role)))
  {
    if Deletable(s.db, tenant, role) {
      DeleteRoleKeepsInv(s, tenant, role);
      hide Inv;
      if AllPrimariesSet(s.db) {
        DeleteRoleKeepsSet(s, tenant, role);
      }
    }
  }

  lemma ImportStepKeeps(w: World, a: Action)
    requires Ok(w) && Enabled(w, a) && a.ImportRow?
    ensures Kept(w.s, NextStore(w.s, a))
  {
    assert Resolved(w.s.db, a.c.scope, a.resolvedRole);
    hide Inv, UserImport.CommitRow;
    ImportRowKeeps(w.s, a.f, a.c, a.email, a.u, a.resolvedRole, a.at);
  }

  lemma UserStepKeeps(w: World, a: Action)
    requires Ok(w) && Enabled(w, a) && (a.NewUser? || a.DropUser?)
    ensures Kept(w.s, NextStore(w.s, a))
  {
    hide Inv, AllPrimariesSet, CommitCreate, DeleteUser;
    match a
    case NewUser(scope, email, first, last, credential, role, at) =>
      if CommitCreate(w.s, scope, email, first, last, credential, role, at).Ok? {
        CreateUserKeeps(w.s, scope, email, first, last, credential, role, at);
      }
    case DropUser(tenant, pin, user) =>
      if DeleteUser(w.s, tenant, pin, user).Ok? {
        DeleteUserKeeps(w.s, tenant, pin, user);
      }
  }

  lemma StoreStepKeeps(w: World, a: Action)
    requires Ok(w) && Enabled(w, a)
    ensures Inv(NextStore(w.s, a))
    ensures !a.DismissAdmin? && AllPrimariesSet(w.s.db) ==> AllPrimariesSet(NextStore(w.s, a).db)
  {
    var s := w.s;
    hide Inv, AllPrimariesSet, DeleteRole, CreateRole, SetDefaultRole, RestorePrevious;
    match a
    case NewRole(scope, name, perms) => NewRoleKeeps(s, scope, name, perms);
    case SetDefault(tenant, app, role) => SetDefaultKeeps(s, tenant, app, role);
    case DropRole(tenant, role) => DropRoleKeeps(s, tenant, role);
    case NewUser(_, _, _, _, _, _, _) => UserStepKeeps(w, a);
    case DropUser(_, _, _) => UserStepKeeps(w, a);
    case ImportRow(_, _, _, _, _, _) => ImportStepKeeps(w, a);
    case DismissAdmin(admin, at) => RestoreKeepsInv(s, admin, at);
    case Check(_) =>
    case _ =>
      if a.AddPermission? || a.DropPermission? || a.SetPermissions? {
        PermissionWritersKeep(s, a);
      } else if a.GrantInOrganization? || a.AppointAdmin? {
        AdminWritersKeep(s, a);
      } else {
        GrantWritersKeep(w, a);
      }
  }

  /** No writer moves a user or a role to another scope, makes a role a system role or forgets one of them. */
  ghost predicate Rooted(a: Db, b: Db) {
    && (forall u :: u in a.users ==> u in b.users && b.users[u].scope == a.users[u].scope)
    && (forall r :: r in a.roles ==>
          r in b.roles && b.roles[r].scope == a.roles[r].scope && b.roles[r].system == a.roles[r].system)
  }

  lemma ImportIsRooted(w: World, a: Action)
    requires Ok(w) && Enabled(w, a) && a.ImportRow?
    ensures Rooted(w.s.db, NextStore(w.s, a).db)
  {
    var db := w.s.db;
    hide UserImport.InsertUser, UserImport.UpdateUser;
    match FindUser(db, a.c.scope, a.email)
    case Some(id) => UpdateIsRooted(db, a.c.scope.tenant, id, a.u, UserImport.AmendRole(a.f, a.u.role, a.resolvedRole), a.at);
    case None =>
      NewUserHoldsNothing(db);
      InsertIsRooted(a.f, db, a.c.scope, a.email, a.u, a.resolvedRole, a.at);
  }

  lemma UpdateIsRooted(db: Db, tenant: Id, id: Id, u: UserImport.ImportUser, role: UserImport.AmendedRole, at: int)
    ensures Rooted(db, UserImport.UpdateUser(db, tenant, id, u, role, at))
  {
    hide ClearRoles, GrantRole;
  }

  lemma InsertIsRooted(
    f: UserImport.Foreign, db: Db, scope: Scope, email: string, u: UserImport.ImportUser, role: Option<Id>, at: int)
    requires db.nextUser !in db.users && (u.identities == [] || scope.app.Some?)
    ensures var r := UserImport.InsertUser(f, db, scope, email, u, role, at); r.Inserted? ==> Rooted(db, r.db)
  {
    hide UserImport.InsertIdentities, GrantRole;
  }

  lemma DropRoleIsRooted(s: Store, tenant: Id, role: Id)
    requires Inv(s)
    ensures Rooted(s.db, Settle(s, DeleteRole(s, tenant, role)).db)
  {
    if Deletable(s.db, tenant, role) {
      DeleteTouchesOnlyPrimaries(s, tenant, role);
      var b := DeleteRole(s, tenant, role).s.db;
      assert b.roles == s.db.roles[role := s.db.roles[role].(live := false, isDefault := false)];
      hide Inv, DeleteRole, GrantsOk, AllPrimariesHeld;
      assert forall u :: u in s.db.users ==> b.users[u].scope == s.db.users[u].scope;
    }
  }

  lemma GoodIsRooted(a: Db, b: Db, user: Id)
    requires GoodWrite(a, b, user)
    ensures Rooted(a, b)
  {
    hide UserOk, PrimarySet;
  }

  lemma GrantIsRooted(w: World, a: Action)
    requires Ok(w) && Enabled(w, a) && GrantWriter(a)
    ensures Rooted(w.s.db, NextStore(w.s, a).db)
  {
    var t := NextStore(w.s, a);
    hide NextStore, Ok, Enabled, GoodWrite;
    if t != w.s {
      GrantIsGood(w, a);
      GoodIsRooted(w.s.db, t.db, a.user);
    }
  }

  lemma NewRoleIsRooted(s: Store, scope: Scope, name: string, perms: seq<Id>)
    requires Inv(s)
    ensures Rooted(s.db, Settle(s, CreateRole(s, scope, name, perms)).db)
  {
    assert s.nextRole !in s.db.roles;
  }

  lemma NewUserIsRooted(
    s: Store, scope: Scope, email: string, first: string, last: string, credential: string, role: Option<Id>, at: int)
    requires Inv(s)
    ensures Rooted(s.db, Settle(s, CommitCreate(s, scope, email, first, last, credential, role, at)).db)
  {
    NewUserHoldsNothing(s.db);
    hide Inv;
  }

  lemma StepIsRooted(w: World, a: Action)
    requires Ok(w) && Enabled(w, a)
    ensures Rooted(w.s.db, NextStore(w.s, a).db)
  {
    if a.ImportRow? {
      ImportIsRooted(w, a);
    } else if a.DropRole? {
      DropRoleIsRooted(w.s, a.tenant, a.role);
    } else if GrantWriter(a) {
      GrantIsRooted(w, a);
    } else if a.SetDefault? {
      if SetDefaultRole(w.s, a.tenant, a.app, a.role).Ok? {
        SetDefaultTouchesFlags(w.s, a.tenant, a.app, a.role);
      }
      hide SetDefaultRole, Inv, Ok;
    } else if a.NewUser? {
      NewUserIsRooted(w.s, a.scope, a.email, a.first, a.last, a.credential, a.initial, a.at);
    } else if a.NewRole? {
      NewRoleIsRooted(w.s, a.scope, a.name, a.perms);
    } else if a.DismissAdmin? {
      if a.admin in w.s.previous {
        RestoreWrites(w.s, a.admin, a.at);
      }
      hide Inv, UserOk;
    } else {
      hide Inv, StillTrue, Ok;
      QuietIsRooted(w, a);
    }
  }

  lemma QuietIsRooted(w: World, a: Action)
    requires Enabled(w, a)
    requires a.AddPermission? || a.DropPermission? || a.SetPermissions? || a.Check? || a.DropUser? || a.GrantInOrganization?
             || a.AppointAdmin?
    ensures Rooted(w.s.db, NextStore(w.s, a).db)
  {
    hide AllInScope, Passes, RoleFits;
  }

  lemma StepKeeps(w: World, a: Action)
    requires Ok(w) && Enabled(w, a)
    ensures Ok(Next(w, a))
    ensures !a.DismissAdmin? && AllPrimariesSet(w.s.db) ==> AllPrimariesSet(Next(w, a).s.db)
  {
    StoreStepKeeps(w, a);
    StepIsRooted(w, a);
    hide NextStore, Inv, AllPrimariesSet;
    if a.Check? {
      PassesIff(w.s.db, a.q);
    }
  }

  // ---------------------------------------------------------------------------------------
  // A role deleted between its check and its grant
  // ---------------------------------------------------------------------------------------

  /** The role a step grants on the strength of an earlier check, if it grants one. */
  function GrantedBy(w: World, a: Action): Option<Id> {
    match a
    case NewUser(scope, email, _, _, _, role, _) => if UserKey(scope, email) in w.s.db.emails then None else role
    case Assign(tenant, user, role, _) => if UserIn(w.s.db, tenant, None, user) then Some(role) else None
    case Add(_, user, role, _) => if user in w.s.db.users then Some(role) else None
    case ImportRow(f, c, email, u, role, _) => RowRole(f, c, w.s.db, email, u, role)
    case _ => None
  }

  /** The role is still live when it is granted. */
  ghost predicate Timely(w: World, a: Action)
    requires Enabled(w, a)
  {
    GrantedBy(w, a).Some? ==> RoleLive(w.s.db, GrantedBy(w, a).value)
  }

  lemma CheckedGrantIff(w: World, a: Action)
    requires Ok(w) && Enabled(w, a) && AllLive(w.s.db) && (a.NewUser? || a.Assign? || a.Add? || a.ImportRow?)
    ensures AllLive(NextStore(w.s, a).db) <==> Timely(w, a)
  {
    hide Inv, StillTrue, AllLive, GrantsAtMost, HoldsRole, RowRole, RoleLive;
    hide CommitCreate, CommitAssign, CommitAdd, UserImport.CommitRow;
    var s := w.s;
    match a
    case NewUser(scope, email, first, last, credential, role, at) =>
      CreateIff(s, scope, email, first, last, credential, role, at);
    case Assign(tenant, user, role, at) => AssignIff(s, tenant, user, role, at);
    case Add(tenant, user, role, at) => AddIff(s, tenant, user, role, at);
    case ImportRow(f, c, email, u, role, at) => ImportIff(s, f, c, email, u, role, at);
  }

  /** A replacement leaves every held role live exactly when the user is gone or the role it grants is still live. */
  lemma AssignIff(s: Store, tenant: Id, user: Id, role: Id, at: int)
    requires AllLive(s.db)
    ensures AllLive(Settle(s, CommitAssign(s, tenant, user, role, at)).db) <==>
            (UserIn(s.db, tenant, None, user) ==> RoleLive(s.db, role))
  {
    if UserIn(s.db, tenant, None, user) {
      CommitAssignGrants(s, tenant, user, role, at);
      LiveIff(s.db, CommitAssign(s, tenant, user, role, at).s.db, Some(role), user);
    }
  }

  /** An addition does exactly when the role is still live, whether or not the user is. */
  lemma AddIff(s: Store, tenant: Id, user: Id, role: Id, at: int)
    requires AllLive(s.db)
    ensures AllLive(Settle(s, CommitAdd(s, tenant, user, role, at)).db) <==> (user in s.db.users ==> RoleLive(s.db, role))
  {
    if user in s.db.users {
      CommitAddGrants(s, tenant, user, role, at);
      LiveIff(s.db, CommitAdd(s, tenant, user, role, at).s.db, Some(role), user);
    }
  }

  /** A new user's insert does exactly when the address is taken or the role is still live. */
  lemma CreateIff(
    s: Store, scope: Scope, email: string, first: string, last: string, credential: string, role: Option<Id>, at: int)
    requires AllLive(s.db)
    ensures AllLive(Settle(s, CommitCreate(s, scope, email, first, last, credential, role, at)).db) <==>
            (UserKey(scope, email) !in s.db.emails && role.Some? ==> RoleLive(s.db, role.value))
  {
    if UserKey(scope, email) !in s.db.emails {
      CommitCreateGrants(s, scope, email, first, last, credential, role, at);
      LiveIff(s.db, CommitCreate(s, scope, email, first, last, credential, role, at).s.db, role, s.db.nextUser);
    }
  }

  /** An imported row does exactly when it grants nothing or the role it grants is still live. */
  lemma ImportIff(
    s: Store, f: UserImport.Foreign, c: UserImport.Context, email: string, u: UserImport.ImportUser,
    role: Option<Id>, at: int)
    requires Inv(s) && AllLive(s.db) && (u.identities == [] || c.scope.app.Some?)
    ensures var granted := RowRole(f, c, s.db, email, u, role);
            AllLive(UserImport.CommitRow(f, c, false, s.db, email, u, role, at).db) <==>
            (granted.Some? ==> RoleLive(s.db, granted.value))
  {
    var holder := ImportRowGrants(f, c, s.db, email, u, role, at);
    hide AllLive, GrantsAtMost, UserImport.CommitRow, RowRole, RoleLive, Inv;
    LiveIff(s.db, UserImport.CommitRow(f, c, false, s.db, email, u, role, at).db,
            RowRole(f, c, s.db, email, u, role), holder);
  }

  /** The other writers never grant a deleted role. */
  lemma OtherStepsKeepLive(w: World, a: Action)
    requires Ok(w) && Enabled(w, a) && AllLive(w.s.db) && !a.NewUser? && !a.Assign? && !a.Add? && !a.ImportRow?
    ensures AllLive(NextStore(w.s, a).db)
  {
    var s, t := w.s, NextStore(w.s, a);
    if a.DropRole? {
      hide Inv, AllLive, DeleteRole;
      if Deletable(s.db, a.tenant, a.role) {
        DeleteRoleKeepsLive(s, a.tenant, a.role);
      }
    } else if a.AppAssign? {
      AppAssignKeepsLive(s, a.tenant, a.app, a.user, a.names, a.resolved, a.replace, a.at);
    } else if a.SetDefault? {
      if SetDefaultRole(s, a.tenant, a.app, a.role).Ok? {
        SetDefaultTouchesFlags(s, a.tenant, a.app, a.role);
      }
      hide SetDefaultRole, Ok;
    } else if a.ConfirmAdmin? || a.DismissAdmin? {
      AdminStepKeepsLive(s, a);
    } else {
      hide Ok, Enabled, Earliest;
    }
  }

  lemma AdminStepKeepsLive(s: Store, a: Action)
    requires Inv(s) && AllLive(s.db) && (a.ConfirmAdmin? || a.DismissAdmin?)
    ensures AllLive(NextStore(s, a).db)
  {
    hide Consistent, GrantsOk, AllPrimariesHeld, DefaultsOk, PermissionsOk, OrgGrantsOk;
  }

  lemma AppAssignKeepsLive(
    s: Store, tenant: Id, app: Id, user: Id, names: seq<string>, resolved: map<string, Id>, replace: bool, at: int)
    requires AllLive(s.db) && Resolves(s.db, Scope(tenant, Some(app)), names, resolved)
    ensures AllLive(Settle(s, AssignAppUserRoles(s, tenant, app, user, names, resolved, replace, at)).db)
  {
    var r := AssignAppUserRoles(s, tenant, app, user, names, resolved, replace, at);
    if r.Ok? {
      var cleared := if replace then ClearRoles(s.db.userRoles, user, tenant) else s.db.userRoles;
      var roles := RolesFor(names, resolved);
      GrantAllGrants(cleared, user, roles, tenant, at);
      assert r.s.db.userRoles == GrantAll(cleared, user, roles, tenant, at) && r.s.db.roles == s.db.roles;
      hide AssignAppUserRoles, GrantAll;
      forall k | k in r.s.db.userRoles
        ensures k.1 in s.db.roles && s.db.roles[k.1].live
      {
        if k !in cleared {
          var i :| 0 <= i < |roles| && roles[i] == k.1;
          assert names[i] in names && RoleNamed(s.db, Scope(tenant, Some(app)), names[i], roles[i]);
        }
      }
    }
  }

  /** While every held role is live, a step keeps it so exactly when it is timely. */
  lemma StepIff(w: World, a: Action)
    requires Ok(w) && Enabled(w, a) && AllLive(w.s.db)
    ensures AllLive(Next(w, a).s.db) <==> Timely(w, a)
  {
    hide Ok, AllLive, NextStore, Enabled;
    if a.NewUser? || a.Assign? || a.Add? || a.ImportRow? {
      CheckedGrantIff(w, a);
    } else {
      OtherStepsKeepLive(w, a);
    }
  }

  // ---------------------------------------------------------------------------------------
  // Every run
  // ---------------------------------------------------------------------------------------

  ghost predicate Possible(w: World, acts: seq<Action>)
    decreases |acts|
  {
    acts == [] || (Enabled(w, acts[0]) && Possible(Next(w, acts[0]), acts[1..]))
  }

  ghost function After(w: World, acts: seq<Action>): World
    requires Possible(w, acts)
    decreases |acts|
  {
    if acts == [] then w else After(Next(w, acts[0]), acts[1..])
  }

  lemma {:induction false} RunKeepsOk(w: World, acts: seq<Action>)
    requires Ok(w) && Possible(w, acts)
    ensures Ok(After(w, acts))
    decreases |acts|
  {
    hide Ok, Next, Enabled;
    if acts != [] {
      StepKeeps(w, acts[0]);
      RunKeepsOk(Next(w, acts[0]), acts[1..]);
    }
  }

  /**
   Over every run, whatever is deleted between a check and its commit: each role held is in its
   user's scope, so is each permission reached through one that is not a system role, a primary is a
   role its user holds, and an application has at most one default, live and not a system role.
   */
  lemma EveryRun(w: World, acts: seq<Action>, user: Id, role: Id, permission: Id)
    requires Ok(w) && Possible(w, acts)
    ensures var s := After(w, acts).s;
            && Inv(s) && DefaultsOk(s.db)
            && (HoldsRole(s.db, user, role) ==> RoleInScope(s.db, user, role))
            && (Reaches(s, user, role, permission) && !s.db.roles[role].system ==>
                  permission in s.permissions && user in s.db.users && s.permissions[permission] == s.db.users[user].scope)
            && (user in s.db.users && s.db.users[user].role.Some? ==> HoldsRole(s.db, user, s.db.users[user].role.value))
  {
    RunKeepsOk(w, acts);
    var s := After(w, acts).s;
    if HoldsRole(s.db, user, role) {
      assert GrantOk(s.db, (user, role));
    }
    assert user in s.db.users ==> PrimaryHeld(s.db, user);
    hide Possible, Consistent, DefaultsOk, GrantsOk, OrgGrantsOk, PreviousOk;
  }

  ghost predicate TimelyRun(w: World, acts: seq<Action>)
    requires Possible(w, acts)
    decreases |acts|
  {
    acts == [] || (Timely(w, acts[0]) && TimelyRun(Next(w, acts[0]), acts[1..]))
  }

  /** No deleted role is held at any point of the run. */
  ghost predicate LiveThroughout(w: World, acts: seq<Action>)
    requires Possible(w, acts)
    decreases |acts|
  {
    AllLive(w.s.db) && (acts == [] || LiveThroughout(Next(w, acts[0]), acts[1..]))
  }

  /**
   Throughout a run nobody holds a deleted role, and so none as primary, exactly when every commit finds its
   role live.
   */
  lemma {:induction false} LiveThroughoutIff(w: World, acts: seq<Action>)
    requires Ok(w) && AllLive(w.s.db) && Possible(w, acts)
    ensures LiveThroughout(w, acts) <==> TimelyRun(w, acts)
    decreases |acts|
  {
    hide Ok, Next, Enabled, AllLive, Timely;
    if acts != [] {
      var v := Next(w, acts[0]);
      StepKeeps(w, acts[0]);
      StepIff(w, acts[0]);
      if AllLive(v.s.db) {
        LiveThroughoutIff(v, acts[1..]);
      } else {
        assert !LiveThroughout(v, acts[1..]);
      }
    }
  }

  lemma {:induction false} LiveAtTheEnd(w: World, acts: seq<Action>)
    requires Possible(w, acts) && LiveThroughout(w, acts)
    ensures AllLive(After(w, acts).s.db)
    decreases |acts|
  {
    hide Next, Enabled, AllLive;
    if acts != [] {
      LiveAtTheEnd(Next(w, acts[0]), acts[1..]);
    }
  }

  /** In such runs every primary is a live role its user holds. */
  lemma TimelyRunsKeepPrimariesLive(w: World, acts: seq<Action>, user: Id)
    requires Ok(w) && AllLive(w.s.db) && Possible(w, acts) && TimelyRun(w, acts)
    ensures var db := After(w, acts).s.db;
            user in db.users && db.users[user].role.Some? ==>
              HoldsRole(db, user, db.users[user].role.value) && RoleLive(db, db.users[user].role.value)
  {
    LiveThroughoutIff(w, acts);
    LiveAtTheEnd(w, acts);
    RunKeepsOk(w, acts);
    var db := After(w, acts).s.db;
    hide Possible, TimelyRun, LiveThroughout, Consistent, DefaultsOk, PermissionsOk, GrantsOk, OrgGrantsOk, PreviousOk;
    assert user in db.users ==> PrimaryHeld(db, user);
  }

  lemma {:induction false} RunKeepsSet(w: World, acts: seq<Action>)
    requires Ok(w) && AllPrimariesSet(w.s.db) && Possible(w, acts)
    requires forall k :: 0 <= k < |acts| ==> !acts[k].DismissAdmin?
    ensures AllPrimariesSet(After(w, acts).s.db)
    decreases |acts|
  {
    hide Ok, Next, Enabled, AllPrimariesSet;
    if acts != [] {
      StepKeeps(w, acts[0]);
      RunKeepsSet(Next(w, acts[0]), acts[1..]);
    }
  }

  /**
   Over every run that dismisses no administrator a live user has no primary only while holding no
   live role, and holds none at all if every commit found its role live.
   */
  lemma PrimariesStaySet(w: World, acts: seq<Action>, user: Id)
    requires Ok(w) && AllPrimariesSet(w.s.db) && Possible(w, acts)
    requires forall k :: 0 <= k < |acts| ==> !acts[k].DismissAdmin?
    ensures var db := After(w, acts).s.db;
            user in db.users && db.users[user].live && db.users[user].role.None? ==>
              && !HoldsLive(db, user)
              && (AllLive(w.s.db) && TimelyRun(w, acts) ==> !HoldsAny(db, user))
  {
    RunKeepsSet(w, acts);
    var db := After(w, acts).s.db;
    hide Ok;
    assert user in db.users ==> PrimarySet(db, user);
    if user in db.users && db.users[user].live && db.users[user].role.None? && AllLive(w.s.db) && TimelyRun(w, acts) {
      LiveThroughoutIff(w, acts);
      LiveAtTheEnd(w, acts);
      UnsetHoldsNothing(db, user);
    }
  }

  const EMPTY := Store(Db(map[], 0, map[], map[], map[], map[]), 0, map[], {}, {}, map[])

  /** Before anything is written there is nothing to be wrong. */
  lemma EmptyIsInOrder()
    ensures Ok(World(EMPTY, {})) && AllPrimariesSet(EMPTY.db) && AllLive(EMPTY.db)
  {
  }

  // ---------------------------------------------------------------------------------------
  // Runs that are not timely
  // ---------------------------------------------------------------------------------------

  const APP := Scope(1, Some(1))
  const EDITOR := Role(APP, "editor", false, false, true)
  const READER := User(APP, "r@b", "", "", None, true, true, None, true)
  const ONE_OF_EACH :=
    Store(Db(map[0 := READER], 1, map[UserKey(APP, "r@b") := 0], map[], map[0 := EDITOR], map[]), 1, map[], {}, {}, map[])
  const LATE_ROW := UserImport.ImportUser("a@b", "", "", true, true, "", "", "", [])

  /** A commit that grants role 0 on the strength of `q`. */
  predicate LateCommit(q: Request, a: Action, holder: Id) {
    || (q == ForUser(1, 0, 0) && (a.Assign? || a.Add?) && a.tenant == 1 && a.user == 0 && a.role == 0 && holder == 0)
    || (q == ForScope(APP, 0) && a.NewUser? && a.scope == APP && a.email == "a@b" && a.initial == Some(0) && holder == 1)
    || (q == ForScope(APP, 0) && a.ImportRow? && a.c == UserImport.Context(APP, [], Some(0), false) && a.email == "a@b"
        && a.u == LATE_ROW && a.resolvedRole == Some(0) && holder == 1)
  }

  lemma DroppedEditor()
    ensures Inv(ONE_OF_EACH) && AllLive(ONE_OF_EACH.db) && DeleteRole(ONE_OF_EACH, 1, 0).Ok?
    ensures var t := DeleteRole(ONE_OF_EACH, 1, 0).s;
            && t.db.users == ONE_OF_EACH.db.users && t.db.emails == ONE_OF_EACH.db.emails && t.db.nextUser == 1
            && t.db.userRoles == map[] && t.db.identities == map[] && 0 in t.db.roles && !t.db.roles[0].live
  {
    var t := DeleteRole(ONE_OF_EACH, 1, 0).s;
    assert !HoldsAny(Detached(ONE_OF_EACH.db, 1, 0), 0);
    assert t.db.users == ONE_OF_EACH.db.users;
  }

  lemma ThreeSteps(w: World, a: Action, b: Action, c: Action)
    requires Enabled(w, a) && Enabled(Next(w, a), b) && Enabled(Next(Next(w, a), b), c)
    ensures Possible(w, [a, b, c]) && After(w, [a, b, c]) == Next(Next(Next(w, a), b), c)
  {
    hide Enabled, Next;
    var v := Next(w, a);
    var u := Next(v, b);
    assert [a, b, c][1..] == [b, c] && [b, c][1..] == [c] && [c][1..] == [];
    assert Possible(u, [c]) && After(u, [c]) == After(Next(u, c), []);
    assert Possible(v, [b, c]) && After(v, [b, c]) == After(u, [c]);
  }

  lemma LateStep(u: World, q: Request, a: Action, holder: Id)
    requires LateCommit(q, a, holder) && q in u.checked
    requires u.s.db.users == ONE_OF_EACH.db.users && u.s.db.emails == ONE_OF_EACH.db.emails && u.s.db.nextUser == 1
    requires u.s.db.userRoles == map[] && u.s.db.identities == map[] && 0 in u.s.db.roles && !u.s.db.roles[0].live
    ensures Enabled(u, a)
    ensures var db := Next(u, a).s.db;
            && HoldsRole(db, holder, 0) && 0 in db.roles && !db.roles[0].live
            && holder in db.users && db.users[holder].role == Some(0)
  {
    assert "a@b"[0] != "r@b"[0];
    assert UserKey(APP, "a@b") !in u.s.db.emails;
  }

  /**
   The role passes its check, is deleted, and is granted all the same, by any of the four writers
   that check first: its holder ends up with a deleted role, as primary too.
   */
  lemma LateCommitBreaks(q: Request, a: Action, holder: Id)
    requires LateCommit(q, a, holder)
    ensures var w := World(ONE_OF_EACH, {});
            var acts := [Check(q), DropRole(1, 0), a];
            && Ok(w) && AllLive(w.s.db) && Possible(w, acts)
            && var db := After(w, acts).s.db;
               && HoldsRole(db, holder, 0) && 0 in db.roles && !db.roles[0].live
               && holder in db.users && db.users[holder].role == Some(0)
  {
    DroppedEditor();
    hide Inv, AllLive, DeleteRole, Possible, After;
    var w := World(ONE_OF_EACH, {});
    assert Passes(ONE_OF_EACH.db, q);
    var u := Next(Next(w, Check(q)), DropRole(1, 0));
    assert u == World(DeleteRole(ONE_OF_EACH, 1, 0).s, {q});
    LateStep(u, q, a, holder);
    hide LateCommit, NextStore;
    ThreeSteps(w, Check(q), DropRole(1, 0), a);
  }

  // ---------------------------------------------------------------------------------------
  // Deleting a role disturbs an unrelated user
  // ---------------------------------------------------------------------------------------

  const TENANT := Scope(1, None)
  const HELPER := User(TENANT, "h@b", "", "", Some(0), true, true, None, true)
  const APPOINTED :=
    Store(
      Db(map[0 := HELPER], 1, map[UserKey(TENANT, "h@b") := 0], map[],
         map[0 := EDITOR.(scope := TENANT), 1 := EDITOR.(scope := TENANT, name := "writer")], map[(0, 0) := Grant(1, 0)]),
      2, map[], {}, {}, map[0 := Previous(1, 0, None)])

  /**
   The user was appointed while holding nothing, got role 0, and is dismissed without a primary;
   deleting role 1, never held by anybody, then makes role 0 primary again.
   */
  lemma UnrelatedGetsPrimary(at: int)
    ensures var dismissed := RestorePrevious(APPOINTED, 0, at);
            && Inv(APPOINTED) && AllPrimariesSet(APPOINTED.db)
            && Inv(dismissed) && Deletable(dismissed.db, 1, 1) && !Held(dismissed, 1, 0)
            && 0 in dismissed.db.users && dismissed.db.users[0].role == None
            && DeleteRole(dismissed, 1, 1).Ok?
            && var t := DeleteRole(dismissed, 1, 1).s;
               0 in t.db.users && t.db.users[0].role == Some(0)
  {
    var s := RestorePrevious(APPOINTED, 0, at);
    AppointedIsInOrder();
    RestoreKeepsInv(APPOINTED, 0, at);
    DismissedStands(at);
    hide Inv, RestorePrevious;
    DetachedLive(s, 1, 1, 0);
    OnlyGrantIsEarliest(s);
    OthersUnchanged(s, 1, 1, 0);
    hide DeleteRole, Detached, Earliest;
  }

  lemma AppointedIsInOrder()
    ensures Inv(APPOINTED) && AllPrimariesSet(APPOINTED.db)
  {
  }

  lemma DismissedStands(at: int)
    ensures var s := RestorePrevious(APPOINTED, 0, at);
            && s == APPOINTED.(db := s.db, previous := map[])
            && s.db == APPOINTED.db.(users := map[0 := HELPER.(role := None)])
            && Deletable(s.db, 1, 1) && !Held(s, 1, 0) && HoldsLiveBeside(s.db, 0, 1)
  {
    var s := RestorePrevious(APPOINTED, 0, at);
    assert s.db.userRoles == map[(0, 0) := Grant(1, 0)];
    assert s.db.users == map[0 := HELPER.(role := None)];
    assert s.previous == map[];
    assert (0, 0) in s.db.userRoles && (0, 0).0 == 0 && (0, 0).1 == 0;
  }

  lemma OnlyGrantIsEarliest(s: Store)
    requires Deletable(s.db, 1, 1) && s.db.userRoles == map[(0, 0) := Grant(1, 0)]
    requires Earliest(Detached(s.db, 1, 1), 0).Some?
    ensures Earliest(Detached(s.db, 1, 1), 0) == Some(0)
  {
    var d := Detached(s.db, 1, 1);
    var r := Earliest(d, 0).value;
    assert IsEarliest(d, 0, r);
    assert (0, r) in s.db.userRoles;
  }
}
