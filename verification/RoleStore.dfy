/**
 Roles, permissions and who holds them: every writer of users.role_id, user_roles and
 role_permissions, each as the transaction it is.  A check made before the transaction opens is a
 function of its own, so that others may write in between.  `db` is the directory the import writes
 to as well; a role's rows for deleted users stay until the role itself goes.
 */
module RoleStore {
  import opened Prelude
  import opened Directory

  /** A role granted to a member inside one organisation of an application. */
  datatype OrgGrant = OrgGrant(org: Id, user: Id, role: Id)

  /** What a tenant administrator held before being promoted. */
  datatype Previous = Previous(tenant: Id, user: Id, role: Option<Id>)

  datatype Store = Store(
    db: Db, nextRole: Id, permissions: map<Id, Scope>, rolePerms: set<(Id, Id)>,
    orgGrants: set<OrgGrant>, previous: map<Id, Previous>)

  datatype Failure =
    | NotFound | AlreadyExists | SystemRole | RoleScope | PermissionScope
    | UserNotInApplication | RoleNotInApplication | NoRolesRequested

  datatype Result = Ok(s: Store) | Err(why: Failure)

  // ---------------------------------------------------------------------------------------
  // The primary role
  // ---------------------------------------------------------------------------------------

  predicate HoldsRole(db: Db, user: Id, role: Id) { (user, role) in db.userRoles }

  /** A grant the promotion subquery considers: in the user's own tenant, of a live role. */
  predicate Candidate(db: Db, user: Id, role: Id) {
    && user in db.users && HoldsRole(db, user, role) && db.userRoles[(user, role)].tenant == db.users[user].scope.tenant
    && role in db.roles && db.roles[role].live
  }

  /** ORDER BY granted_at, role_id. */
  predicate GrantedNoLater(db: Db, user: Id, a: Id, b: Id)
    requires HoldsRole(db, user, a) && HoldsRole(db, user, b)
  {
    var x, y := db.userRoles[(user, a)].at, db.userRoles[(user, b)].at;
    x < y || (x == y && a <= b)
  }

  ghost predicate IsEarliest(db: Db, user: Id, role: Id) {
    Candidate(db, user, role) && forall q :: Candidate(db, user, q) ==> GrantedNoLater(db, user, role, q)
  }

  /** The earliest surviving grant of a live role, which is what takes over as primary. */
  ghost function Earliest(db: Db, user: Id): Option<Id> {
    if r :| IsEarliest(db, user, r) then Some(r) else None
  }

  ghost function Repointed(db: Db, user: Id): Db
    requires user in db.users
  {
    db.(users := db.users[user := db.users[user].(role := Earliest(db, user))])
  }

  // ---------------------------------------------------------------------------------------
  // Roles and permissions
  // ---------------------------------------------------------------------------------------

  predicate NameTaken(db: Db, scope: Scope, name: string) {
    exists id :: id in db.roles && db.roles[id].live && db.roles[id].scope == scope && db.roles[id].name == name
  }

  predicate AllInScope(permissions: map<Id, Scope>, scope: Scope, perms: seq<Id>) {
    forall i :: 0 <= i < |perms| ==> perms[i] in permissions && permissions[perms[i]] == scope
  }

  function PermsOf(role: Id, perms: seq<Id>): set<(Id, Id)> { set p | p in perms :: (role, p) }

  function CreateRole(s: Store, scope: Scope, name: string, perms: seq<Id>): Result {
    if NameTaken(s.db, scope, name) then Err(AlreadyExists)
    else if !AllInScope(s.permissions, scope, perms) then Err(PermissionScope)
    else
      Ok(s.(db := s.db.(roles := s.db.roles[s.nextRole := Role(scope, name, false, false, true)]),
            nextRole := s.nextRole + 1,
            rolePerms := s.rolePerms + PermsOf(s.nextRole, perms)))
  }

  predicate LiveIn(db: Db, tenant: Id, role: Id) {
    role in db.roles && db.roles[role].scope.tenant == tenant && db.roles[role].live
  }

  function UpdateRolePermissions(s: Store, tenant: Id, role: Id, perms: seq<Id>): Result {
    if !LiveIn(s.db, tenant, role) then Err(NotFound)
    else if !AllInScope(s.permissions, s.db.roles[role].scope, perms) then Err(PermissionScope)
    else Ok(s.(rolePerms := (set k | k in s.rolePerms && k.0 != role) + PermsOf(role, perms)))
  }

  /** DELETE FROM permissions, with its cascade to role_permissions. */
  function DeletePermission(s: Store, permission: Id): Store {
    s.(permissions := s.permissions - {permission}, rolePerms := set k | k in s.rolePerms && k.1 != permission)
  }

  /** Clearing the application's default also clears a stale flag on a deleted role. */
  function SetDefaultRole(s: Store, tenant: Id, app: Id, role: Id): Result {
    if !LiveIn(s.db, tenant, role) then Err(NotFound)
    else if s.db.roles[role].system || s.db.roles[role].scope.app != Some(app) then Err(SystemRole)
    else
      var cleared := map id | id in s.db.roles ::
        if s.db.roles[id].scope == Scope(tenant, Some(app)) then s.db.roles[id].(isDefault := false) else s.db.roles[id];
      Ok(s.(db := s.db.(roles := cleared[role := cleared[role].(isDefault := true)])))
  }

  // ---------------------------------------------------------------------------------------
  // Deleting a role
  // ---------------------------------------------------------------------------------------

  /** Who the delete reports: live users of the tenant holding the role by any of its three routes. */
  predicate ReportedHolder(s: Store, tenant: Id, role: Id, user: Id) {
    && user in s.db.users && s.db.users[user].scope.tenant == tenant && s.db.users[user].live
    && (s.db.users[user].role == Some(role) || HoldsRole(s.db, user, role)
        || exists g :: g in s.orgGrants && g.user == user && g.role == role)
  }

  predicate Deletable(db: Db, tenant: Id, role: Id) { LiveIn(db, tenant, role) && !db.roles[role].system }

  /** The directory once the role is gone and its holders are detached, before anybody is promoted. */
  function Detached(db: Db, tenant: Id, role: Id): Db
    requires role in db.roles
  {
    db.(roles := db.roles[role := db.roles[role].(live := false, isDefault := false)],
        users := map u | u in db.users ::
          (if db.users[u].role == Some(role) && db.users[u].scope.tenant == tenant then db.users[u].(role := None) else db.users[u]),
        userRoles := map k | k in db.userRoles && !(k.1 == role && db.userRoles[k].tenant == tenant) :: db.userRoles[k])
  }

  predicate HoldsAny(db: Db, user: Id) { exists k :: k in db.userRoles && k.0 == user }

  /** Everybody of the tenant who has grants and no primary gets the earliest one. */
  ghost function Promoted(db: Db, tenant: Id): Db {
    db.(users := map u | u in db.users ::
      if db.users[u].scope.tenant == tenant && db.users[u].role.None? && HoldsAny(db, u)
      then db.users[u].(role := Earliest(db, u)) else db.users[u])
  }

  ghost function DeleteRole(s: Store, tenant: Id, role: Id): Result {
    if !Deletable(s.db, tenant, role) then Err(NotFound)
    else
      Ok(s.(db := Promoted(Detached(s.db, tenant, role), tenant),
            rolePerms := (set k | k in s.rolePerms && k.0 != role),
            orgGrants := (set g | g in s.orgGrants && g.role != role),
            previous := map a | a in s.previous ::
              if s.previous[a].role == Some(role) && s.previous[a].tenant == tenant
              then s.previous[a].(role := None) else s.previous[a]))
  }

  // ---------------------------------------------------------------------------------------
  // Granting to users
  // ---------------------------------------------------------------------------------------

  /** What a new user's role is looked up for, before the password is hashed and the transaction opens. */
  function ValidateRoleForScope(db: Db, scope: Scope, role: Id): Option<Failure> {
    if !LiveIn(db, scope.tenant, role) then Some(NotFound)
    else if db.roles[role].system then Some(SystemRole)
    else if db.roles[role].scope.app != scope.app then Some(RoleScope)
    else None
  }

  /** The transaction; the role is written as it was looked up. */
  function CommitCreate(
    s: Store, scope: Scope, email: string, first: string, last: string, credential: string, role: Option<Id>,
    at: int
  ): Result {
    if UserKey(scope, email) in s.db.emails then Err(AlreadyExists)
    else
      var id := s.db.nextUser;
      Ok(s.(db := s.db.(
        users := s.db.users[id := User(scope, email, first, last, role, true, false, Some(credential), true)],
        nextUser := id + 1,
        emails := s.db.emails[UserKey(scope, email) := id],
        userRoles := if role.Some? then GrantRole(s.db.userRoles, id, role.value, scope.tenant, at) else s.db.userRoles)))
  }

  predicate UserIn(db: Db, tenant: Id, pin: Option<Id>, user: Id) {
    user in db.users && db.users[user].scope.tenant == tenant && db.users[user].live
    && (pin.Some? ==> db.users[user].scope.app == pin)
  }

  /** Live role, not a system one, in the user's own application; read before the transaction opens. */
  function ValidateRoleForUser(db: Db, tenant: Id, pin: Option<Id>, user: Id, role: Id): Option<Failure> {
    if !LiveIn(db, tenant, role) then Some(NotFound)
    else if db.roles[role].system then Some(SystemRole)
    else if !UserIn(db, tenant, pin, user) then Some(NotFound)
    else if db.roles[role].scope.app != db.users[user].scope.app then Some(RoleScope)
    else None
  }

  /** Replacement: everything held in the tenant goes, and `role` is what remains.  The role is not read again. */
  function CommitAssign(s: Store, tenant: Id, user: Id, role: Id, at: int): Result {
    if !UserIn(s.db, tenant, None, user) then Err(NotFound)
    else
      Ok(s.(db := s.db.(
        users := s.db.users[user := s.db.users[user].(role := Some(role))],
        userRoles := GrantRole(ClearRoles(s.db.userRoles, user, tenant), user, role, tenant, at))))
  }

  /** Addition; the role becomes primary only for a live user who had none.  Neither is read again. */
  function CommitAdd(s: Store, tenant: Id, user: Id, role: Id, at: int): Result {
    if user !in s.db.users then Err(NotFound)
    else
      Ok(s.(db := s.db.(
        users := if UserIn(s.db, tenant, None, user) && s.db.users[user].role.None?
                 then s.db.users[user := s.db.users[user].(role := Some(role))] else s.db.users,
        userRoles := GrantRole(s.db.userRoles, user, role, tenant, at))))
  }

  /** Removal; when the primary goes, the earliest surviving grant takes over. */
  ghost function CommitRemove(s: Store, tenant: Id, user: Id, role: Id): Result {
    if !HoldsRole(s.db, user, role) || s.db.userRoles[(user, role)].tenant != tenant then Err(NotFound)
    else
      var d := s.db.(userRoles := s.db.userRoles - {(user, role)});
      Ok(s.(db := if user in d.users && d.users[user].scope.tenant == tenant && d.users[user].role == Some(role)
                  then Repointed(d, user) else d))
  }

  /** Soft deletion of a user: the row and its grants stay, the address is free again. */
  function DeleteUser(s: Store, tenant: Id, pin: Option<Id>, user: Id): Result {
    if !UserIn(s.db, tenant, pin, user) then Err(NotFound)
    else
      var row := s.db.users[user];
      Ok(s.(db := s.db.(users := s.db.users[user := row.(live := false, active := false)],
                        emails := s.db.emails - {UserKey(row.scope, row.email)})))
  }

  // ---------------------------------------------------------------------------------------
  // The application's own backend
  // ---------------------------------------------------------------------------------------

  predicate RoleNamed(db: Db, scope: Scope, name: string, role: Id) {
    && role in db.roles && db.roles[role].scope == scope && db.roles[role].name == name
    && !db.roles[role].system && db.roles[role].live
  }

  /** What the role query returns for these names: for each name with a role, one such role. */
  ghost predicate Resolves(db: Db, scope: Scope, names: seq<string>, resolved: map<string, Id>) {
    && (forall n :: n in resolved ==> n in names && RoleNamed(db, scope, n, resolved[n]))
    && (forall n, r :: n in names && RoleNamed(db, scope, n, r) ==> n in resolved)
  }

  function GrantAll(grants: map<(Id, Id), Grant>, user: Id, roles: seq<Id>, tenant: Id, at: int): map<(Id, Id), Grant> {
    if roles == [] then grants
    else GrantRole(GrantAll(grants, user, roles[..|roles| - 1], tenant, at), user, roles[|roles| - 1], tenant, at)
  }

  function RolesFor(names: seq<string>, resolved: map<string, Id>): seq<Id>
    requires forall n :: n in names ==> n in resolved
  {
    seq(|names|, i requires 0 <= i < |names| => resolved[names[i]])
  }

  /** The primary is repaired when the user has none or no longer holds it. */
  ghost function RepairedPrimary(db: Db, user: Id): Db
    requires user in db.users
  {
    if db.users[user].role.None? || !HoldsRole(db, user, db.users[user].role.value) then Repointed(db, user) else db
  }

  /** `names` are trimmed, non-empty and distinct. */
  ghost function AssignAppUserRoles(
    s: Store, tenant: Id, app: Id, user: Id, names: seq<string>, resolved: map<string, Id>, replace: bool, at: int
  ): Result
  {
    if names == [] && !replace then Err(NoRolesRequested)
    else if !(user in s.db.users && s.db.users[user].scope == Scope(tenant, Some(app)) && s.db.users[user].live) then
      Err(UserNotInApplication)
    else if exists n :: n in names && n !in resolved then Err(RoleNotInApplication)
    else
      var cleared := if replace then ClearRoles(s.db.userRoles, user, tenant) else s.db.userRoles;
      var d := s.db.(userRoles := GrantAll(cleared, user, RolesFor(names, resolved), tenant, at));
      Ok(s.(db := RepairedPrimary(d, user)))
  }

  /** Names trimmed, empties and repeats dropped, in the caller's order. */
  method NormaliseRoleNames(raw: seq<string>, trim: string -> string) returns (names: seq<string>)
    ensures forall n :: n in names <==> n != "" && exists i :: 0 <= i < |raw| && trim(raw[i]) == n
    ensures forall i, j :: 0 <= i < j < |names| ==> names[i] != names[j]
  {
    var seen: set<string> := {};
    names := [];
    var i := 0;
    while i < |raw|
      invariant 0 <= i <= |raw|
      invariant forall n :: n in seen <==> n in names
      invariant forall n :: n in names <==> n != "" && exists k :: 0 <= k < i && trim(raw[k]) == n
      invariant forall k, l :: 0 <= k < l < |names| ==> names[k] != names[l]
    {
      var n := trim(raw[i]);
      if n != "" && n !in seen {
        seen := seen + {n};
        names := names + [n];
      }
      i := i + 1;
    }
  }

  // ---------------------------------------------------------------------------------------
  // Tenant administration
  // ---------------------------------------------------------------------------------------

  /** The role half of inviting somebody to administer: what removal will restore, if that is sensible. */
  function RecordPrevious(s: Store, admin: Id, tenant: Id, user: Id): Store {
    if user !in s.db.users || admin in s.previous then s
    else
      var held := s.db.users[user].role;
      var restorable :=
        && s.db.users[user].scope.tenant == tenant && held.Some?
        && held.value in s.db.roles && s.db.roles[held.value].live
        && !(s.db.roles[held.value].system && (s.db.roles[held.value].name == "owner" || s.db.roles[held.value].name == "co_owner"));
      s.(previous := s.previous[admin := Previous(tenant, user, if restorable then held else None)])
  }

  /** Confirming an administrative invitation attaches the tenant's system role. */
  function AttachSystemRole(s: Store, user: Id, role: Id, at: int): Store {
    if user in s.db.users && s.db.users[user].live && s.db.users[user].scope.app.None? && LiveIn(s.db, s.db.users[user].scope.tenant, role)
       && s.db.roles[role].system && s.db.roles[role].scope.app.None?
    then s.(db := s.db.(users := s.db.users[user := s.db.users[user].(role := Some(role))],
                        userRoles := GrantRole(s.db.userRoles, user, role, s.db.users[user].scope.tenant, at)))
    else s
  }

  /** The role half of removing an administrator: the previous role back, system grants gone. */
  function RestorePrevious(s: Store, admin: Id, at: int): Store {
    if admin !in s.previous || s.previous[admin].user !in s.db.users then s
    else
      var p := s.previous[admin];
      var user := s.db.users[p.user];
      var stripped :=
        map k | k in s.db.userRoles && !(k.0 == p.user && k.1 in s.db.roles && s.db.roles[k.1].system) :: s.db.userRoles[k];
      s.(db := s.db.(
           users := s.db.users[p.user := user.(role := p.role)],
           userRoles := if p.role.Some? then GrantRole(stripped, p.user, p.role.value, user.scope.tenant, at) else stripped),
         previous := s.previous - {admin})
  }
}
