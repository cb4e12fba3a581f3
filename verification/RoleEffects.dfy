/**
 When each role transaction is carried out, and the whole of what it leaves: the user or the role it
 is about as asked for, and everything else as it was.
 */
module RoleEffects {
  import opened Prelude
  import opened Directory
  import opened RoleStore
  import opened RoleInvariants
  import opened RoleWriters

  // ---------------------------------------------------------------------------------------
  // Roles and permissions
  // ---------------------------------------------------------------------------------------

  /** A live role of the scope already has the name. */
  predicate HasLiveRole(db: Db, scope: Scope, name: string) {
    exists r :: r in db.roles && db.roles[r].scope == scope && db.roles[r].name == name && db.roles[r].live
  }

  /** A named permission that is not there, or is another scope's. */
  predicate ForeignPermission(s: Store, scope: Scope, perms: seq<Id>) {
    exists p :: p in perms && !(p in s.permissions && s.permissions[p] == scope)
  }

  lemma AllInScopeIff(s: Store, scope: Scope, perms: seq<Id>)
    ensures AllInScope(s.permissions, scope, perms) <==> !ForeignPermission(s, scope, perms)
  {
    forall i | 0 <= i < |perms| && !ForeignPermission(s, scope, perms)
      ensures perms[i] in s.permissions && s.permissions[perms[i]] == scope
    {
      var p := perms[i];
      assert p in perms && ((p in s.permissions && s.permissions[p] == scope) || ForeignPermission(s, scope, perms));
    }
  }

  /** No other role is touched, and nothing about who holds what. */
  ghost predicate OtherRolesKept(s: Store, t: Store, role: Id) {
    && t.db == s.db.(roles := t.db.roles) && t.orgGrants == s.orgGrants && t.previous == s.previous
    && t.permissions == s.permissions
    && (forall r :: r != role ==>
          (r in t.db.roles <==> r in s.db.roles) && (r in s.db.roles ==> t.db.roles[r] == s.db.roles[r]))
    && (forall k: (Id, Id) :: k.0 != role ==> (k in t.rolePerms <==> k in s.rolePerms))
  }

  /** The role under its name, with exactly the named permissions; its name is then taken. */
  lemma CreatedRoleIs(s: Store, scope: Scope, name: string, perms: seq<Id>)
    requires Inv(s)
    ensures CreateRole(s, scope, name, perms) == Err(AlreadyExists) <==> HasLiveRole(s.db, scope, name)
    ensures CreateRole(s, scope, name, perms) == Err(PermissionScope) <==>
            !HasLiveRole(s.db, scope, name) && ForeignPermission(s, scope, perms)
    ensures !HasLiveRole(s.db, scope, name) && !ForeignPermission(s, scope, perms) ==>
              && CreateRole(s, scope, name, perms).Ok?
              && var t, role := CreateRole(s, scope, name, perms).s, s.nextRole;
                 && role !in s.db.roles && role in t.db.roles
                 && t.db.roles[role] == Role(scope, name, false, false, true)
                 && (forall p :: (role, p) in t.rolePerms <==> p in perms)
                 && OtherRolesKept(s, t, role) && t.nextRole == role + 1
                 && HasLiveRole(t.db, scope, name)
  {
    AllInScopeIff(s, scope, perms);
    assert HasLiveRole(s.db, scope, name) <==> NameTaken(s.db, scope, name);
    hide AllInScope, ForeignPermission, NameTaken, GrantsOk, AllPrimariesHeld, DefaultsOk, OrgGrantsOk, PreviousOk, Consistent;
    if CreateRole(s, scope, name, perms).Ok? {
      var t, role := CreateRole(s, scope, name, perms).s, s.nextRole;
      assert forall p :: (role, p) !in s.rolePerms;
      assert t.db.roles[role].scope == scope;
    }
  }

  /** A live role of the tenant takes exactly the named permissions of its scope; nothing else changes. */
  lemma SetPermissionsIff(s: Store, tenant: Id, role: Id, perms: seq<Id>)
    ensures var r := UpdateRolePermissions(s, tenant, role, perms);
            var known := role in s.db.roles && s.db.roles[role].live && s.db.roles[role].scope.tenant == tenant;
            && (r == Err(NotFound) <==> !known)
            && (r == Err(PermissionScope) <==> known && ForeignPermission(s, s.db.roles[role].scope, perms))
            && (r.Ok? <==> known && !ForeignPermission(s, s.db.roles[role].scope, perms))
            && (r.Ok? ==> r.s == s.(rolePerms := r.s.rolePerms) && OtherRolesKept(s, r.s, role))
            && (r.Ok? ==> forall p :: (role, p) in r.s.rolePerms <==> p in perms)
  {
    if role in s.db.roles {
      AllInScopeIff(s, s.db.roles[role].scope, perms);
    }
    hide AllInScope, ForeignPermission;
  }

  /** A deleted permission is gone from every role; no role loses another. */
  lemma DeletedPermissionIsGone(s: Store, permission: Id)
    ensures var t := DeletePermission(s, permission);
            && t == s.(permissions := t.permissions, rolePerms := t.rolePerms)
            && (forall p :: p in t.permissions <==> p in s.permissions && p != permission)
            && (forall p :: p in t.permissions ==> t.permissions[p] == s.permissions[p])
            && (forall k: (Id, Id) :: k in t.rolePerms <==> k in s.rolePerms && k.1 != permission)
  {
  }

  /** A default must be a live, ordinary role of the application. */
  lemma SetDefaultIff(s: Store, tenant: Id, app: Id, role: Id)
    ensures var r := SetDefaultRole(s, tenant, app, role);
            var known := role in s.db.roles && s.db.roles[role].live && s.db.roles[role].scope.tenant == tenant;
            && (r == Err(NotFound) <==> !known)
            && (r == Err(SystemRole) <==>
                  known && (s.db.roles[role].system || s.db.roles[role].scope != Scope(tenant, Some(app))))
            && (r.Ok? <==> known && !s.db.roles[role].system && s.db.roles[role].scope == Scope(tenant, Some(app)))
  {
  }

  /** Only a live, ordinary role of the tenant can be deleted, and what is not there or is a system role is not found. */
  lemma DeleteRoleIff(s: Store, tenant: Id, role: Id)
    ensures DeleteRole(s, tenant, role) ==
            if role in s.db.roles && s.db.roles[role].live && s.db.roles[role].scope.tenant == tenant
               && !s.db.roles[role].system
            then Ok(DeleteRole(s, tenant, role).s) else Err(NotFound)
  {
    hide Promoted, Detached;
  }

  // ---------------------------------------------------------------------------------------
  // Users
  // ---------------------------------------------------------------------------------------

  /** Every user but `user` keeps its row and its grants; roles, identities and addresses are as they were. */
  ghost predicate OtherUsersKept(a: Db, b: Db, user: Id) {
    && b.roles == a.roles && b.identities == a.identities
    && (forall u :: u != user ==> (u in b.users <==> u in a.users) && (u in a.users ==> b.users[u] == a.users[u]))
    && (forall k: (Id, Id) :: k.0 != user ==>
          (k in b.userRoles <==> k in a.userRoles) && (k in a.userRoles ==> b.userRoles[k] == a.userRoles[k]))
  }

  /** A user is created exactly when its address is free, under the names, credential and role given. */
  lemma CreatedUserIs(
    s: Store, scope: Scope, email: string, first: string, last: string, credential: string, role: Option<Id>, at: int)
    requires Inv(s)
    ensures var r := CommitCreate(s, scope, email, first, last, credential, role, at);
            && (r.Ok? <==> FindUser(s.db, scope, email).None?) && (r.Err? ==> r.why == AlreadyExists)
            && (r.Ok? ==>
                  && r.s == s.(db := r.s.db) && s.db.nextUser !in s.db.users && r.s.db.nextUser == s.db.nextUser + 1
                  && FindUser(r.s.db, scope, email) == Some(s.db.nextUser)
                  && OtherUsersKept(s.db, r.s.db, s.db.nextUser))
    ensures var r := CommitCreate(s, scope, email, first, last, credential, role, at);
            r.Ok? ==>
              && s.db.nextUser in r.s.db.users
              && var user := r.s.db.users[s.db.nextUser];
                 && user.scope == scope && user.email == email && user.first == first && user.last == last
                 && user.credential == Some(credential) && user.role == role && user.live && user.active && !user.verified
                 && (forall q :: HoldsRole(r.s.db, s.db.nextUser, q) <==> role == Some(q))
                 && (role.Some? ==> r.s.db.userRoles[(s.db.nextUser, role.value)] == Grant(scope.tenant, at))
  {
    NewUserHoldsNothing(s.db);
    hide Inv, Consistent;
  }

  /** A check fails for the first ground in this order, and passes when there is none. */
  lemma RefusedForUser(db: Db, tenant: Id, pin: Option<Id>, user: Id, role: Id)
    ensures var known := role in db.roles && db.roles[role].live && db.roles[role].scope.tenant == tenant;
            var there := user in db.users && db.users[user].live && db.users[user].scope.tenant == tenant
                         && (pin.None? || db.users[user].scope.app == pin);
            && (ValidateRoleForUser(db, tenant, pin, user, role) == Some(SystemRole) <==> known && db.roles[role].system)
            && (ValidateRoleForUser(db, tenant, pin, user, role) == Some(NotFound) <==>
                  !known || (!db.roles[role].system && !there))
            && (ValidateRoleForUser(db, tenant, pin, user, role) == Some(RoleScope) <==>
                  known && !db.roles[role].system && there && db.roles[role].scope != db.users[user].scope)
            && (ValidateRoleForUser(db, tenant, pin, user, role) == None <==>
                  known && !db.roles[role].system && there && db.roles[role].scope == db.users[user].scope)
  {
  }

  lemma RefusedForScope(db: Db, scope: Scope, role: Id)
    ensures var known := role in db.roles && db.roles[role].live && db.roles[role].scope.tenant == scope.tenant;
            && (ValidateRoleForScope(db, scope, role) == Some(NotFound) <==> !known)
            && (ValidateRoleForScope(db, scope, role) == Some(SystemRole) <==> known && db.roles[role].system)
            && (ValidateRoleForScope(db, scope, role) == Some(RoleScope) <==>
                  known && !db.roles[role].system && db.roles[role].scope != scope)
            && (ValidateRoleForScope(db, scope, role) == None <==>
                  known && !db.roles[role].system && db.roles[role].scope == scope)
  {
  }

  predicate LiveUser(db: Db, tenant: Id, user: Id) {
    user in db.users && db.users[user].live && db.users[user].scope.tenant == tenant
  }

  /** Replacement goes through for a user still live; its one grant is as of the write. */
  lemma AssignedUserIs(s: Store, tenant: Id, user: Id, role: Id, at: int)
    requires Inv(s)
    ensures var r := CommitAssign(s, tenant, user, role, at);
            && (r.Ok? <==> LiveUser(s.db, tenant, user)) && (r.Err? ==> r.why == NotFound)
            && (r.Ok? ==>
                  && r.s == s.(db := r.s.db) && OtherUsersKept(s.db, r.s.db, user)
                  && r.s.db.users[user] == s.db.users[user].(role := Some(role))
                  && (forall q :: HoldsRole(r.s.db, user, q) <==> q == role)
                  && r.s.db.userRoles[(user, role)] == Grant(tenant, at))
  {
    if LiveUser(s.db, tenant, user) {
      forall k | k in s.db.userRoles && k.0 == user
        ensures s.db.userRoles[k].tenant == tenant
      {
        assert GrantOk(s.db, k);
      }
      hide Inv, GrantOk;
    }
  }

  /** Addition stamps the one new grant, and nothing that was held already. */
  lemma AddedUserIs(s: Store, tenant: Id, user: Id, role: Id, at: int)
    requires Inv(s) && user in s.db.users && s.db.users[user].scope.tenant == tenant
    ensures var r := CommitAdd(s, tenant, user, role, at);
            && r.Ok? && r.s == s.(db := r.s.db) && OtherUsersKept(s.db, r.s.db, user)
            && r.s.db.users[user] == s.db.users[user].(role := r.s.db.users[user].role)
            && r.s.db.users[user].role ==
                 (if s.db.users[user].live && s.db.users[user].role.None? then Some(role) else s.db.users[user].role)
            && (forall q :: HoldsRole(s.db, user, q) ==>
                  HoldsRole(r.s.db, user, q) && r.s.db.userRoles[(user, q)] == s.db.userRoles[(user, q)])
            && (forall q :: HoldsRole(r.s.db, user, q) && !HoldsRole(s.db, user, q) ==> q == role)
            && HoldsRole(r.s.db, user, role)
            && (!HoldsRole(s.db, user, role) ==> r.s.db.userRoles[(user, role)] == Grant(tenant, at))
  {
    hide Inv;
  }

  /** A removal goes through exactly when the role is held in the tenant, and keeps the other grants as they were. */
  lemma RemovedRoleIs(s: Store, tenant: Id, user: Id, role: Id)
    requires Inv(s)
    ensures var r := CommitRemove(s, tenant, user, role);
            && (r.Ok? <==> HoldsRole(s.db, user, role) && s.db.userRoles[(user, role)].tenant == tenant)
            && (r.Err? ==> r.why == NotFound)
            && (r.Ok? ==>
                  && r.s == s.(db := r.s.db) && OtherUsersKept(s.db, r.s.db, user)
                  && user in r.s.db.users && r.s.db.users[user] == s.db.users[user].(role := r.s.db.users[user].role)
                  && (forall q :: HoldsRole(r.s.db, user, q) ==> r.s.db.userRoles[(user, q)] == s.db.userRoles[(user, q)]))
  {
    if HoldsRole(s.db, user, role) {
      assert GrantOk(s.db, (user, role));
    }
    hide Inv, GrantOk, Earliest;
  }

  /** The backend's request: refused for the first of these grounds, and otherwise stamped as of the write. */
  lemma AppAssignIff(
    s: Store, tenant: Id, app: Id, user: Id, names: seq<string>, resolved: map<string, Id>, replace: bool, at: int)
    requires Inv(s) && Resolves(s.db, Scope(tenant, Some(app)), names, resolved)
    ensures var r := AssignAppUserRoles(s, tenant, app, user, names, resolved, replace, at);
            var there := user in s.db.users && s.db.users[user].live && s.db.users[user].scope == Scope(tenant, Some(app));
            var asked := names != [] || replace;
            && (r == Err(NoRolesRequested) <==> !asked)
            && (r == Err(UserNotInApplication) <==> asked && !there)
            && (r == Err(RoleNotInApplication) <==>
                  asked && there && exists n :: n in names && !SomeRoleNamed(s.db, Scope(tenant, Some(app)), n))
            && (r.Ok? <==> asked && there && forall n :: n in names ==> SomeRoleNamed(s.db, Scope(tenant, Some(app)), n))
  {
    forall n | n in names
      ensures n in resolved <==> SomeRoleNamed(s.db, Scope(tenant, Some(app)), n)
    {
      ResolvedIff(s.db, Scope(tenant, Some(app)), names, resolved, n);
    }
    hide Inv, Resolves, SomeRoleNamed, GrantAll, RepairedPrimary, ClearRoles;
  }

  /** A live ordinary role of the application's own, under that name. */
  predicate Offers(db: Db, scope: Scope, name: string, role: Id) {
    && role in db.roles && db.roles[role].live && !db.roles[role].system
    && db.roles[role].scope == scope && db.roles[role].name == name
  }

  predicate SomeRoleNamed(db: Db, scope: Scope, name: string) {
    exists r :: r in db.roles && Offers(db, scope, name, r)
  }

  lemma ResolvedIff(db: Db, scope: Scope, names: seq<string>, resolved: map<string, Id>, n: string)
    requires Resolves(db, scope, names, resolved) && n in names
    ensures n in resolved <==> SomeRoleNamed(db, scope, n)
    ensures n in resolved ==> Offers(db, scope, n, resolved[n])
  {
    assert forall r :: Offers(db, scope, n, r) ==> RoleNamed(db, scope, n, r);
    if n in resolved {
      assert RoleNamed(db, scope, n, resolved[n]);
      assert Offers(db, scope, n, resolved[n]);
    }
  }

  /** Each name asked for is granted as a role that has it, and no role is granted under another. */
  lemma GrantedAsNamed(
    s: Store, tenant: Id, app: Id, user: Id, names: seq<string>, resolved: map<string, Id>, replace: bool, at: int)
    requires Inv(s) && Resolves(s.db, Scope(tenant, Some(app)), names, resolved)
    requires AssignAppUserRoles(s, tenant, app, user, names, resolved, replace, at).Ok?
    ensures var b := AssignAppUserRoles(s, tenant, app, user, names, resolved, replace, at).s.db;
            && (forall n :: n in names ==>
                  n in resolved && HoldsRole(b, user, resolved[n]) && Offers(s.db, Scope(tenant, Some(app)), n, resolved[n]))
            && (forall q :: HoldsRole(b, user, q) && (replace || !HoldsRole(s.db, user, q)) ==>
                  exists n :: n in names && Offers(s.db, Scope(tenant, Some(app)), n, q))
  {
    var b := AssignAppUserRoles(s, tenant, app, user, names, resolved, replace, at).s.db;
    forall n | n in names
      ensures n in resolved && HoldsRole(b, user, resolved[n]) && Offers(s.db, Scope(tenant, Some(app)), n, resolved[n])
    {
      ResolvedIff(s.db, Scope(tenant, Some(app)), names, resolved, n);
      AppAssignIsExact(s, tenant, app, user, names, resolved, replace, at, resolved[n]);
      assert Requested(names, resolved, resolved[n]);
    }
    forall q | HoldsRole(b, user, q) && (replace || !HoldsRole(s.db, user, q))
      ensures exists n :: n in names && Offers(s.db, Scope(tenant, Some(app)), n, q)
    {
      AppAssignIsExact(s, tenant, app, user, names, resolved, replace, at, q);
      var n :| n in names && n in resolved && resolved[n] == q;
      ResolvedIff(s.db, Scope(tenant, Some(app)), names, resolved, n);
    }
  }

  lemma AppAssignedUserIs(
    s: Store, tenant: Id, app: Id, user: Id, names: seq<string>, resolved: map<string, Id>, replace: bool, at: int)
    requires Inv(s) && AssignAppUserRoles(s, tenant, app, user, names, resolved, replace, at).Ok?
    ensures var t := AssignAppUserRoles(s, tenant, app, user, names, resolved, replace, at).s;
            && t == s.(db := t.db) && OtherUsersKept(s.db, t.db, user)
            && t.db.users[user] == s.db.users[user].(role := t.db.users[user].role)
            && (forall q :: HoldsRole(t.db, user, q) ==>
                  t.db.userRoles[(user, q)] ==
                  if HoldsRole(s.db, user, q) && !replace then s.db.userRoles[(user, q)] else Grant(tenant, at))
  {
    var cleared := if replace then ClearRoles(s.db.userRoles, user, tenant) else s.db.userRoles;
    var d := s.db.(userRoles := GrantAll(cleared, user, RolesFor(names, resolved), tenant, at));
    AppGrantsAre(s, tenant, user, RolesFor(names, resolved), replace, at);
    RepairKeeps(d, user);
    hide Inv, GrantAll, RolesFor, RepairedPrimary, ClearRoles;
  }

  lemma AppGrantsAre(s: Store, tenant: Id, user: Id, roles: seq<Id>, replace: bool, at: int)
    requires Inv(s) && user in s.db.users && s.db.users[user].scope.tenant == tenant
    ensures var cleared := if replace then ClearRoles(s.db.userRoles, user, tenant) else s.db.userRoles;
            var d := s.db.(userRoles := GrantAll(cleared, user, roles, tenant, at));
            && OtherUsersKept(s.db, d, user)
            && (forall q :: HoldsRole(d, user, q) ==>
                  d.userRoles[(user, q)] ==
                  if HoldsRole(s.db, user, q) && !replace then s.db.userRoles[(user, q)] else Grant(tenant, at))
  {
    var cleared := if replace then ClearRoles(s.db.userRoles, user, tenant) else s.db.userRoles;
    GrantAllGrants(cleared, user, roles, tenant, at);
    forall k | k in s.db.userRoles && k.0 == user
      ensures s.db.userRoles[k].tenant == tenant
    {
      assert GrantOk(s.db, k);
    }
    hide Inv, GrantAll, GrantOk;
    assert forall k :: k in cleared ==> k in s.db.userRoles && cleared[k] == s.db.userRoles[k] && (replace ==> k.0 != user);
    assert forall k :: k in s.db.userRoles && k.0 != user ==> k in cleared;
    hide ClearRoles;
  }

  lemma RepairKeeps(d: Db, user: Id)
    requires user in d.users
    ensures var b := RepairedPrimary(d, user);
            b == d.(users := b.users) && user in b.users
            && b.users == d.users[user := d.users[user].(role := b.users[user].role)]
  {
    hide Earliest;
    assert d.users[user := d.users[user]] == d.users;
  }

  /** A deleted user can no longer sign in, its address is free, and its row and grants stay. */
  lemma DeletedUserIs(s: Store, tenant: Id, pin: Option<Id>, user: Id)
    ensures var r := DeleteUser(s, tenant, pin, user);
            && (r.Ok? <==> LiveUser(s.db, tenant, user) && (pin.None? || s.db.users[user].scope.app == pin))
            && (r.Err? ==> r.why == NotFound)
            && (r.Ok? ==>
                  && r.s == s.(db := r.s.db) && OtherUsersKept(s.db, r.s.db, user) && r.s.db.userRoles == s.db.userRoles
                  && r.s.db.users[user] == s.db.users[user].(live := false, active := false)
                  && (forall k: UserKey :: k in r.s.db.emails <==>
                        k in s.db.emails && k != UserKey(s.db.users[user].scope, s.db.users[user].email))
                  && (forall k :: k in r.s.db.emails ==> r.s.db.emails[k] == s.db.emails[k]))
  {
  }

  /** A live role the user holds in its own tenant. */
  predicate HoldsHere(db: Db, user: Id, role: Id) {
    && user in db.users && (user, role) in db.userRoles && RoleLive(db, role)
    && db.userRoles[(user, role)].tenant == db.users[user].scope.tenant
  }

  /** Who takes over as primary: of the live roles held the one held longest, and of those the lowest. */
  lemma TakesOverIff(db: Db, user: Id, role: Id)
    requires user in db.users && forall k :: k in db.userRoles && k.0 == user ==> GrantOk(db, k)
    ensures Earliest(db, user) == Some(role) <==>
            && HoldsHere(db, user, role)
            && forall q :: HoldsHere(db, user, q) ==>
                 var x, y := db.userRoles[(user, role)].at, db.userRoles[(user, q)].at; x < y || (x == y && role <= q)
    ensures Earliest(db, user).None? <==> forall q :: !HoldsHere(db, user, q)
  {
    assert forall q :: HoldsHere(db, user, q) <==> Candidate(db, user, q);
    EarliestExists(db, user);
    assert forall q :: HoldsHere(db, user, q) ==> (user, q) in db.userRoles && HoldsLive(db, user);
    if IsEarliest(db, user, role) {
      OneEarliest(db, user, role);
    }
  }

  lemma OneEarliest(db: Db, user: Id, role: Id)
    requires IsEarliest(db, user, role)
    ensures Earliest(db, user) == Some(role)
  {
  }

  // ---------------------------------------------------------------------------------------
  // Appointing and dismissing an administrator
  // ---------------------------------------------------------------------------------------

  /** Worth restoring: a live role held in the tenant administered, other than an administrator's own. */
  predicate Restorable(s: Store, tenant: Id, user: Id) {
    && user in s.db.users && s.db.users[user].scope.tenant == tenant && s.db.users[user].role.Some?
    && var held := s.db.users[user].role.value;
       RoleLive(s.db, held) && !(s.db.roles[held].system && s.db.roles[held].name in {"owner", "co_owner"})
  }

  /** The primary is remembered once, for a user that is there, and only where it is worth restoring. */
  lemma RecordedIs(s: Store, admin: Id, tenant: Id, user: Id)
    ensures var t := RecordPrevious(s, admin, tenant, user);
            && t == s.(previous := t.previous)
            && (forall a :: a in s.previous ==> a in t.previous && t.previous[a] == s.previous[a])
            && (forall a :: a in t.previous && a !in s.previous ==> a == admin)
            && (admin !in s.previous && user in s.db.users ==>
                  && admin in t.previous
                  && t.previous[admin] ==
                     Previous(tenant, user, if Restorable(s, tenant, user) then s.db.users[user].role else None))
            && (user !in s.db.users ==> t == s)
  {
  }

  /** A live system role of the tenant becomes a tenant-level user's primary, on top of what it holds. */
  lemma AttachedIs(s: Store, user: Id, role: Id, at: int)
    ensures var t := AttachSystemRole(s, user, role, at);
            var fits := user in s.db.users && s.db.users[user].live && RoleLive(s.db, role) && s.db.roles[role].system
                        && s.db.users[user].scope.app.None? && s.db.roles[role].scope == s.db.users[user].scope;
            && (!fits ==> t == s)
            && (fits ==>
                  && t == s.(db := t.db) && OtherUsersKept(s.db, t.db, user)
                  && t.db.users[user] == s.db.users[user].(role := Some(role))
                  && (forall q :: HoldsRole(t.db, user, q) <==> HoldsRole(s.db, user, q) || q == role)
                  && (forall q :: HoldsRole(s.db, user, q) ==> t.db.userRoles[(user, q)] == s.db.userRoles[(user, q)])
                  && (!HoldsRole(s.db, user, role) ==>
                        t.db.userRoles[(user, role)] == Grant(s.db.users[user].scope.tenant, at)))
  {
  }

  predicate IsSystem(db: Db, role: Id) { role in db.roles && db.roles[role].system }

  /** Dismissal takes the system grants, puts the remembered primary back, and forgets it. */
  lemma RestoredIs(s: Store, admin: Id, at: int)
    requires Inv(s) && admin in s.previous
    ensures var t, p := RestorePrevious(s, admin, at), s.previous[admin];
            && p.user in s.db.users && t == s.(db := t.db, previous := s.previous - {admin})
            && OtherUsersKept(s.db, t.db, p.user)
            && t.db.users[p.user] == s.db.users[p.user].(role := p.role)
            && (forall q :: HoldsRole(t.db, p.user, q) <==>
                  (HoldsRole(s.db, p.user, q) && !IsSystem(s.db, q)) || p.role == Some(q))
            && (forall q :: HoldsRole(s.db, p.user, q) && !IsSystem(s.db, q) ==>
                  t.db.userRoles[(p.user, q)] == s.db.userRoles[(p.user, q)])
  {
  }

  /**
   Appointing and dismissing round-trips: an ordinary primary comes back, and so does every ordinary
   grant, at its own instant; a system role held before does not.
   */
  lemma DismissalUndoesAppointment(s: Store, admin: Id, user: Id, role: Id, at: int, at': int)
    requires Inv(s) && user in s.db.users && s.db.users[user].role.Some? && admin !in s.previous
    requires !IsSystem(s.db, s.db.users[user].role.value) && RoleLive(s.db, s.db.users[user].role.value)
    requires RoleLive(s.db, role) && IsSystem(s.db, role)
    ensures var appointed := AttachSystemRole(RecordPrevious(s, admin, s.db.users[user].scope.tenant, user), user, role, at);
            Inv(appointed) && admin in appointed.previous
            && var t := RestorePrevious(appointed, admin, at');
               && t.db.users[user] == s.db.users[user] && t.previous == s.previous && OtherUsersKept(s.db, t.db, user)
               && (forall q :: HoldsRole(t.db, user, q) <==> HoldsRole(s.db, user, q) && !IsSystem(s.db, q))
               && (forall q :: HoldsRole(t.db, user, q) ==> t.db.userRoles[(user, q)] == s.db.userRoles[(user, q)])
  {
    var tenant := s.db.users[user].scope.tenant;
    var appointed := AttachSystemRole(RecordPrevious(s, admin, tenant, user), user, role, at);
    hide Inv, RecordPrevious, AttachSystemRole, RestorePrevious, RoleLive, Restorable, OtherUsersKept;
    AppointedIs(s, admin, user, role, at);
    RestoredIs(appointed, admin, at');
    var t := RestorePrevious(appointed, admin, at');
    OthersKeptTwice(s.db, appointed.db, t.db, user);
    AddedThenTaken(s.previous, admin, appointed.previous[admin]);
  }

  lemma AddedThenTaken<K, V>(m: map<K, V>, k: K, v: V)
    requires k !in m
    ensures m[k := v] - {k} == m
  {
  }

  lemma OthersKeptTwice(a: Db, b: Db, c: Db, user: Id)
    requires OtherUsersKept(a, b, user) && OtherUsersKept(b, c, user)
    ensures OtherUsersKept(a, c, user) && b.roles == a.roles
  {
  }

  lemma AppointedIs(s: Store, admin: Id, user: Id, role: Id, at: int)
    requires Inv(s) && user in s.db.users && s.db.users[user].role.Some? && admin !in s.previous
    requires !IsSystem(s.db, s.db.users[user].role.value) && RoleLive(s.db, s.db.users[user].role.value)
    requires RoleLive(s.db, role) && IsSystem(s.db, role)
    ensures var tenant := s.db.users[user].scope.tenant;
            var t := AttachSystemRole(RecordPrevious(s, admin, tenant, user), user, role, at);
            && Inv(t) && OtherUsersKept(s.db, t.db, user) && HoldsRole(s.db, user, s.db.users[user].role.value)
            && t.previous == s.previous[admin := Previous(tenant, user, s.db.users[user].role)]
            && user in t.db.users && t.db.users[user] == s.db.users[user].(role := t.db.users[user].role)
            && (forall q :: HoldsRole(s.db, user, q) ==>
                  HoldsRole(t.db, user, q) && t.db.userRoles[(user, q)] == s.db.userRoles[(user, q)])
            && (forall q :: HoldsRole(t.db, user, q) ==> HoldsRole(s.db, user, q) || q == role)
  {
    var recorded := RecordPrevious(s, admin, s.db.users[user].scope.tenant, user);
    var appointed := AttachSystemRole(recorded, user, role, at);
    RecordedIs(s, admin, s.db.users[user].scope.tenant, user);
    RecordKeepsInv(s, admin, user);
    assert PrimaryHeld(s.db, user);
    hide RecordPrevious;
    AttachedIs(recorded, user, role, at);
    if appointed != recorded {
      AttachIsGood(recorded, user, role, at);
      hide AttachSystemRole, GoodWrite, Inv;
      GoodWriteKeeps(recorded, appointed.db, user);
    }
    hide Inv, AttachSystemRole;
    assert recorded.previous == s.previous[admin := recorded.previous[admin]];
  }

  lemma RecordKeepsInv(s: Store, admin: Id, user: Id)
    requires Inv(s) && user in s.db.users
    ensures Inv(RecordPrevious(s, admin, s.db.users[user].scope.tenant, user))
  {
    assert PrimaryHeld(s.db, user);
    if s.db.users[user].role.Some? {
      assert GrantOk(s.db, (user, s.db.users[user].role.value));
    }
    hide Consistent, GrantsOk, DefaultsOk, PermissionsOk, OrgGrantsOk;
  }
}
