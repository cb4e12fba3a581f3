/** The role writers as they run: statements and loops over the tables, proved to do what the transactions say. */
module RoleService {
  import opened Prelude
  import opened Directory
  import opened RoleStore
  import opened RoleInvariants

  /** SELECT ... ORDER BY granted_at, role_id LIMIT 1, over the user's live grants in the user's tenant. */
  method FirstGrant(db: Db, user: Id) returns (first: Option<Id>)
    ensures first == Earliest(db, user)
  {
    first := None;
    if user !in db.users {
      return;
    }
    var rest := HeldBy(db, user);
    forall q | Candidate(db, user, q)
      ensures q in HeldBy(db, user)
    {
      HeldByIff(db, user, q);
    }
    while rest != {}
      invariant rest <= HeldBy(db, user)
      invariant first.None? ==> forall q :: Candidate(db, user, q) ==> q in rest
      invariant first.Some? ==> Candidate(db, user, first.value)
                                && forall q :: Candidate(db, user, q) && q !in rest ==> GrantedNoLater(db, user, first.value, q)
      invariant forall q :: Candidate(db, user, q) ==> q in HeldBy(db, user)
      decreases |rest|
    {
      Inhabited(rest);
      var q :| q in rest;
      if Candidate(db, user, q) && (first.None? || !GrantedNoLater(db, user, first.value, q)) {
        first := Some(q);
      }
      rest := rest - {q};
    }
    if first.Some? {
      EarliestIsUnique(db, user, first.value);
    }
  }

  lemma EarliestIsUnique(db: Db, user: Id, role: Id)
    requires IsEarliest(db, user, role)
    ensures Earliest(db, user) == Some(role)
  {
  }

  lemma PromotedAt(db: Db, tenant: Id)
    ensures Promoted(db, tenant).users.Keys == db.users.Keys
    ensures forall u :: u in db.users ==>
              Promoted(db, tenant).users[u] ==
              if db.users[u].scope.tenant == tenant && db.users[u].role.None? && HoldsAny(db, u)
              then db.users[u].(role := Earliest(db, u)) else db.users[u]
  {
  }

  /** One user after another, each with its own subquery. */
  method PromotedUsers(db: Db, tenant: Id) returns (users: map<Id, User>)
    ensures users == Promoted(db, tenant).users
  {
    ghost var target := Promoted(db, tenant).users;
    PromotedAt(db, tenant);
    hide Promoted, Earliest, HoldsAny;
    users := db.users;
    var rest := db.users.Keys;
    while rest != {}
      invariant rest <= db.users.Keys && users.Keys == db.users.Keys
      invariant forall u :: u in db.users ==> users[u] == if u in rest then db.users[u] else target[u]
      decreases |rest|
    {
      Inhabited(rest);
      var u :| u in rest;
      if db.users[u].scope.tenant == tenant && db.users[u].role.None? && HoldsAny(db, u) {
        var first := FirstGrant(db, u);
        users := users[u := users[u].(role := first)];
      }
      rest := rest - {u};
    }
    assert forall u :: u in users ==> users[u] == target[u];
  }

  /**
   What a call that checks and then writes reports, and leaves as `now`: a failed check leaves
   everything as it was; otherwise what others made of it meanwhile is written to, or left when the
   write is refused.
   */
  ghost predicate CheckedThenWritten(
    before: Store, meanwhile: Store -> Store, check: Option<Failure>, written: Result, failure: Option<Failure>, now: Store)
  {
    if check.Some? then failure == check && now == before
    else
      match written
      case Ok(t) => failure.None? && now == t
      case Err(why) => failure == Some(why) && now == meanwhile(before)
  }

  lemma PermsGrow(role: Id, perms: seq<Id>, i: nat)
    requires i < |perms|
    ensures PermsOf(role, perms[..i + 1]) == PermsOf(role, perms[..i]) + {(role, perms[i])}
  {
    assert forall p :: p in perms[..i + 1] <==> p in perms[..i] || p == perms[i];
  }

  class Service {
    var s: Store

    constructor (initial: Store)
      ensures s == initial
    {
      s := initial;
    }

    /** A role, then its permissions one by one; the first one out of scope undoes everything. */
    method CreateRole(scope: Scope, name: string, perms: seq<Id>) returns (failure: Option<Failure>)
      modifies this
      ensures match RoleStore.CreateRole(old(s), scope, name, perms)
              case Ok(t) => failure.None? && s == t
              case Err(why) => failure == Some(why) && s == old(s)
    {
      if NameTaken(s.db, scope, name) {
        return Some(AlreadyExists);
      }
      var saved := s;
      var role := s.nextRole;
      s := s.(db := s.db.(roles := s.db.roles[role := Role(scope, name, false, false, true)]), nextRole := role + 1);
      var i := 0;
      while i < |perms|
        invariant 0 <= i <= |perms| && AllInScope(saved.permissions, scope, perms[..i])
        invariant s == saved.(db := saved.db.(roles := saved.db.roles[role := Role(scope, name, false, false, true)]),
                              nextRole := role + 1,
                              rolePerms := saved.rolePerms + PermsOf(role, perms[..i]))
      {
        if perms[i] !in s.permissions || s.permissions[perms[i]] != scope {
          s := saved;
          return Some(PermissionScope);
        }
        PermsGrow(role, perms, i);
        s := s.(rolePerms := s.rolePerms + {(role, perms[i])});
        i := i + 1;
      }
      assert perms[..i] == perms;
      failure := None;
    }

    /**
     Soft-delete, collect the holders, strip, detach, revoke, promote, forget.  `rows` is what the
     holders query returns.
     */
    method DeleteRole(tenant: Id, role: Id, rows: seq<Id>) returns (holders: Option<seq<Id>>)
      requires forall u :: u in rows <==> ReportedHolder(s, tenant, role, u)
      modifies this
      ensures match RoleStore.DeleteRole(old(s), tenant, role)
              case Ok(t) => holders == Some(rows) && s == t
              case Err(_) => holders.None? && s == old(s)
    {
      if !Deletable(s.db, tenant, role) {
        return None;
      }
      s := s.(rolePerms := set k | k in s.rolePerms && k.0 != role);
      s := s.(db := Detached(s.db, tenant, role));
      s := s.(orgGrants := set g | g in s.orgGrants && g.role != role);
      PromotePrimaries(tenant);
      s := s.(previous := map a | a in s.previous ::
                if s.previous[a].role == Some(role) && s.previous[a].tenant == tenant
                then s.previous[a].(role := None) else s.previous[a]);
      holders := Some(rows);
    }

    method PromotePrimaries(tenant: Id)
      modifies this
      ensures s == old(s).(db := Promoted(old(s).db, tenant))
    {
      var users := PromotedUsers(s.db, tenant);
      s := s.(db := s.db.(users := users));
    }

    /** Replacement: check, then a transaction; `meanwhile` is what others commit in between. */
    method AssignUserRole(
      tenant: Id, pin: Option<Id>, user: Id, role: Id, at: int, meanwhile: Store -> Store
    ) returns (failure: Option<Failure>)
      modifies this
      ensures CheckedThenWritten(old(s), meanwhile, ValidateRoleForUser(old(s).db, tenant, pin, user, role),
                                 CommitAssign(meanwhile(old(s)), tenant, user, role, at), failure, s)
    {
      failure := ValidateRoleForUser(s.db, tenant, pin, user, role);
      if failure.Some? {
        return;
      }
      s := meanwhile(s);
      if !UserIn(s.db, tenant, None, user) {
        return Some(NotFound);
      }
      s := s.(db := s.db.(users := s.db.users[user := s.db.users[user].(role := Some(role))]));
      s := s.(db := s.db.(userRoles := ClearRoles(s.db.userRoles, user, tenant)));
      s := s.(db := s.db.(userRoles := GrantRole(s.db.userRoles, user, role, tenant, at)));
    }

    /** Addition: check, then a transaction that inserts the grant and promotes it where there is no primary. */
    method AddUserRole(
      tenant: Id, pin: Option<Id>, user: Id, role: Id, at: int, meanwhile: Store -> Store
    ) returns (failure: Option<Failure>)
      modifies this
      ensures CheckedThenWritten(old(s), meanwhile, ValidateRoleForUser(old(s).db, tenant, pin, user, role),
                                 CommitAdd(meanwhile(old(s)), tenant, user, role, at), failure, s)
    {
      failure := ValidateRoleForUser(s.db, tenant, pin, user, role);
      if failure.Some? {
        return;
      }
      s := meanwhile(s);
      if user !in s.db.users {
        return Some(NotFound);
      }
      s := s.(db := s.db.(userRoles := GrantRole(s.db.userRoles, user, role, tenant, at)));
      if UserIn(s.db, tenant, None, user) && s.db.users[user].role.None? {
        s := s.(db := s.db.(users := s.db.users[user := s.db.users[user].(role := Some(role))]));
      }
    }

    /** A new user: the role is looked up first, the password hashed, and only then the transaction opened. */
    method CreateUser(
      scope: Scope, email: string, first: string, last: string, credential: string, role: Option<Id>, at: int,
      meanwhile: Store -> Store
    ) returns (failure: Option<Failure>)
      modifies this
      ensures CheckedThenWritten(old(s), meanwhile,
                                 if role.Some? then ValidateRoleForScope(old(s).db, scope, role.value) else None,
                                 CommitCreate(meanwhile(old(s)), scope, email, first, last, credential, role, at), failure, s)
    {
      failure := None;
      if role.Some? {
        failure := ValidateRoleForScope(s.db, scope, role.value);
        if failure.Some? {
          return;
        }
      }
      s := meanwhile(s);
      var id := s.db.nextUser;
      if UserKey(scope, email) in s.db.emails {
        return Some(AlreadyExists);
      }
      s := s.(db := s.db.(
        users := s.db.users[id := User(scope, email, first, last, role, true, false, Some(credential), true)],
        nextUser := id + 1,
        emails := s.db.emails[UserKey(scope, email) := id]));
      if role.Some? {
        s := s.(db := s.db.(userRoles := GrantRole(s.db.userRoles, id, role.value, scope.tenant, at)));
      }
    }

    /** Removal: check that the user is there, then a transaction. */
    method RemoveUserRole(
      tenant: Id, pin: Option<Id>, user: Id, role: Id, meanwhile: Store -> Store
    ) returns (failure: Option<Failure>)
      modifies this
      ensures CheckedThenWritten(old(s), meanwhile, if UserIn(old(s).db, tenant, pin, user) then None else Some(NotFound),
                                 CommitRemove(meanwhile(old(s)), tenant, user, role), failure, s)
    {
      if !UserIn(s.db, tenant, pin, user) {
        return Some(NotFound);
      }
      s := meanwhile(s);
      if (user, role) !in s.db.userRoles || s.db.userRoles[(user, role)].tenant != tenant {
        return Some(NotFound);
      }
      s := s.(db := s.db.(userRoles := s.db.userRoles - {(user, role)}));
      if user in s.db.users && s.db.users[user].scope.tenant == tenant && s.db.users[user].role == Some(role) {
        var first := FirstGrant(s.db, user);
        s := s.(db := s.db.(users := s.db.users[user := s.db.users[user].(role := first)]));
      }
      failure := None;
    }

    /**
     Every name must resolve; then clear if asked to, grant one by one, and repair the primary.
     `resolved` is what the role query returns.
     */
    method AssignAppUserRoles(
      tenant: Id, app: Id, user: Id, names: seq<string>, resolved: map<string, Id>, replace: bool, at: int
    ) returns (failure: Option<Failure>, missing: seq<string>)
      modifies this
      ensures match RoleStore.AssignAppUserRoles(old(s), tenant, app, user, names, resolved, replace, at)
              case Ok(t) => failure.None? && s == t
              case Err(why) => failure == Some(why) && s == old(s)
      ensures failure == Some(RoleNotInApplication) ==> forall n :: n in missing <==> n in names && n !in resolved
    {
      missing := [];
      if names == [] && !replace {
        return Some(NoRolesRequested), [];
      }
      if !(user in s.db.users && s.db.users[user].scope == Scope(tenant, Some(app)) && s.db.users[user].live) {
        return Some(UserNotInApplication), [];
      }
      var i := 0;
      while i < |names|
        invariant 0 <= i <= |names| && s == old(s)
        invariant forall n :: n in missing <==> n in names[..i] && n !in resolved
      {
        assert forall n :: n in names[..i + 1] <==> n in names[..i] || n == names[i];
        if names[i] !in resolved {
          missing := missing + [names[i]];
        }
        i := i + 1;
      }
      assert names[..i] == names;
      if missing != [] {
        assert missing[0] in missing;
        return Some(RoleNotInApplication), missing;
      }
      assert forall n :: n in names ==> n in resolved;
      GrantNames(tenant, user, names, resolved, replace, at);
      if s.db.users[user].role.None? || (user, s.db.users[user].role.value) !in s.db.userRoles {
        var first := FirstGrant(s.db, user);
        s := s.(db := s.db.(users := s.db.users[user := s.db.users[user].(role := first)]));
      }
      failure := None;
    }

    method GrantNames(tenant: Id, user: Id, names: seq<string>, resolved: map<string, Id>, replace: bool, at: int)
      requires forall n :: n in names ==> n in resolved
      modifies this
      ensures var cleared := if replace then ClearRoles(old(s).db.userRoles, user, tenant) else old(s).db.userRoles;
              s == old(s).(db := old(s).db.(userRoles := GrantAll(cleared, user, RolesFor(names, resolved), tenant, at)))
    {
      if replace {
        s := s.(db := s.db.(userRoles := ClearRoles(s.db.userRoles, user, tenant)));
      }
      ghost var cleared := s.db.userRoles;
      ghost var roles := RolesFor(names, resolved);
      var i := 0;
      while i < |names|
        invariant 0 <= i <= |names|
        invariant s == old(s).(db := old(s).db.(userRoles := GrantAll(cleared, user, roles[..i], tenant, at)))
      {
        assert names[i] in names;
        assert roles[..i + 1][..i] == roles[..i];
        s := s.(db := s.db.(userRoles := GrantRole(s.db.userRoles, user, resolved[names[i]], tenant, at)));
        i := i + 1;
      }
      assert roles[..i] == roles;
    }
  }
}
