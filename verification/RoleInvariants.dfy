/**
 What every writer of roles keeps: the scope of what users hold and of what roles grant, and the
 primary role's place among the roles held.
 */
module RoleInvariants {
  import opened Prelude
  import opened Directory
  import opened RoleStore

  // ---------------------------------------------------------------------------------------
  // The invariants
  // ---------------------------------------------------------------------------------------

  /** The role is of its holder's tenant, and of its holder's application unless it is a system role. */
  predicate RoleInScope(db: Db, user: Id, role: Id) {
    && user in db.users && role in db.roles
    && db.roles[role].scope.tenant == db.users[user].scope.tenant
    && (!db.roles[role].system ==> db.roles[role].scope == db.users[user].scope)
  }

  predicate RoleFits(db: Db, user: Id, role: Id) { RoleInScope(db, user, role) && db.roles[role].live }

  predicate GrantOk(db: Db, k: (Id, Id))
    requires k in db.userRoles
  {
    RoleInScope(db, k.0, k.1) && db.userRoles[k].tenant == db.users[k.0].scope.tenant
  }

  ghost predicate GrantsOk(db: Db) { forall k :: k in db.userRoles ==> GrantOk(db, k) }

  /** Every role held is one that has not been deleted. */
  ghost predicate AllLive(db: Db) { forall k :: k in db.userRoles ==> k.1 in db.roles && db.roles[k.1].live }

  predicate HoldsLive(db: Db, user: Id) {
    exists k :: k in db.userRoles && k.0 == user && k.1 in db.roles && db.roles[k.1].live
  }

  /** The primary role, when set, is one the user holds. */
  predicate PrimaryHeld(db: Db, user: Id)
    requires user in db.users
  {
    db.users[user].role.Some? ==> HoldsRole(db, user, db.users[user].role.value)
  }

  /** The primary role of a live user is unset only while no live role is held. */
  predicate PrimarySet(db: Db, user: Id)
    requires user in db.users
  {
    db.users[user].live && db.users[user].role.None? ==> !HoldsLive(db, user)
  }

  ghost predicate AllPrimariesHeld(db: Db) { forall u :: u in db.users ==> PrimaryHeld(db, u) }

  ghost predicate AllPrimariesSet(db: Db) { forall u :: u in db.users ==> PrimarySet(db, u) }

  /** A default role is live, not a system role and an application's, and the only one of its application. */
  ghost predicate DefaultsOk(db: Db) {
    && (forall r :: r in db.roles && db.roles[r].isDefault ==> db.roles[r].live && !db.roles[r].system && db.roles[r].scope.app.Some?)
    && (forall r, q ::
          (r in db.roles && q in db.roles && db.roles[r].isDefault && db.roles[q].isDefault
           && db.roles[r].scope == db.roles[q].scope) ==> r == q)
  }

  ghost predicate PermissionsOk(s: Store) {
    forall k :: k in s.rolePerms ==> k.0 in s.db.roles && k.1 in s.permissions && s.permissions[k.1] == s.db.roles[k.0].scope
  }

  ghost predicate OrgGrantsOk(s: Store) {
    forall g :: g in s.orgGrants ==> RoleFits(s.db, g.user, g.role)
  }

  ghost predicate PreviousOk(s: Store) {
    forall a :: a in s.previous ==>
      && s.previous[a].user in s.db.users
      && (s.previous[a].role.Some? ==>
            RoleFits(s.db, s.previous[a].user, s.previous[a].role.value)
            && s.previous[a].tenant == s.db.users[s.previous[a].user].scope.tenant)
  }

  /** Kept by every writer, whatever others wrote between its check and its transaction. */
  ghost predicate Inv(s: Store) {
    && Consistent(s.db) && GrantsOk(s.db) && AllPrimariesHeld(s.db) && DefaultsOk(s.db)
    && PermissionsOk(s) && OrgGrantsOk(s) && PreviousOk(s)
    && (forall r :: r in s.db.roles ==> r < s.nextRole)
  }

  /** A permission resolved for a user: through a role held that has not been deleted. */
  predicate Reaches(s: Store, user: Id, role: Id, permission: Id) {
    HoldsRole(s.db, user, role) && role in s.db.roles && s.db.roles[role].live && (role, permission) in s.rolePerms
  }

  /** Whatever a user can do through a role lies in the user's own tenant and application. */
  lemma ReachStaysInScope(s: Store, user: Id, role: Id, permission: Id)
    requires Inv(s) && Reaches(s, user, role, permission) && !s.db.roles[role].system
    ensures s.db.roles[role].scope == s.db.users[user].scope
    ensures permission in s.permissions && s.permissions[permission] == s.db.users[user].scope
  {
  }

  /** While nothing deleted is held, a live user without a primary holds nothing. */
  lemma UnsetHoldsNothing(db: Db, user: Id)
    requires AllLive(db) && user in db.users && db.users[user].live && PrimarySet(db, user) && db.users[user].role.None?
    ensures !HoldsAny(db, user)
  {
  }

  // ---------------------------------------------------------------------------------------
  // The earliest surviving grant
  // ---------------------------------------------------------------------------------------

  lemma Inhabited(c: set<Id>)
    ensures c == {} || exists x :: x in c
  {
    if forall a :: a !in c {
      assert c <= {};
    }
  }

  lemma {:induction false} FirstOf(db: Db, user: Id, c: set<Id>) returns (r: Id)
    requires c != {} && forall q :: q in c ==> HoldsRole(db, user, q)
    ensures r in c && forall q :: q in c ==> GrantedNoLater(db, user, r, q)
    decreases |c|
  {
    Inhabited(c);
    r :| r in c;
    var rest := c - {r};
    if rest != {} {
      var x := FirstOf(db, user, rest);
      assert c == rest + {r};
      if !GrantedNoLater(db, user, r, x) {
        r := x;
      }
    }
  }

  function HeldBy(db: Db, user: Id): set<Id> { set k | k in db.userRoles && k.0 == user :: k.1 }

  lemma HeldByIff(db: Db, user: Id, role: Id)
    ensures role in HeldBy(db, user) <==> HoldsRole(db, user, role)
  {
  }

  function LiveHeldBy(db: Db, user: Id): set<Id> {
    set r | r in HeldBy(db, user) && r in db.roles && db.roles[r].live
  }

  /**
   Where every grant is in order the subquery finds the user's earliest grant of a live role, and
   nothing only for a user without any.
   */
  lemma EarliestExists(db: Db, user: Id)
    requires user in db.users && forall k :: k in db.userRoles && k.0 == user ==> GrantOk(db, k)
    ensures HoldsLive(db, user) <==> Earliest(db, user).Some?
    ensures Earliest(db, user).Some? ==> IsEarliest(db, user, Earliest(db, user).value)
  {
    forall q
      ensures q in LiveHeldBy(db, user) <==> Candidate(db, user, q)
      ensures Candidate(db, user, q) ==> HoldsRole(db, user, q) && HoldsLive(db, user)
    {
      HeldByIff(db, user, q);
      if HoldsRole(db, user, q) {
        assert GrantOk(db, (user, q));
        assert (user, q) in db.userRoles && (user, q).0 == user && (user, q).1 == q;
      }
    }
    if HoldsLive(db, user) {
      var k :| k in db.userRoles && k.0 == user && k.1 in db.roles && db.roles[k.1].live;
      HeldByIff(db, user, k.1);
      assert k.1 in LiveHeldBy(db, user);
      var r := FirstOf(db, user, LiveHeldBy(db, user));
      assert IsEarliest(db, user, r);
    }
  }

  // ---------------------------------------------------------------------------------------
  // Writing one user's roles
  // ---------------------------------------------------------------------------------------

  /** Nothing but `user`'s own row, short of its address and scope, and `user`'s grants differs. */
  ghost predicate WritesOnly(a: Db, b: Db, user: Id) {
    && b == a.(users := b.users, userRoles := b.userRoles)
    && user in a.users && user in b.users && b.users == a.users[user := b.users[user]]
    && b.users[user].scope == a.users[user].scope && b.users[user].email == a.users[user].email
    && b.users[user].live == a.users[user].live
    && (forall k: (Id, Id) :: k.0 != user ==>
          (k in b.userRoles <==> k in a.userRoles) && (k in a.userRoles ==> b.userRoles[k] == a.userRoles[k]))
  }

  /** The written user is in order. */
  ghost predicate UserOk(db: Db, user: Id)
    requires user in db.users
  {
    (forall k :: k in db.userRoles && k.0 == user ==> GrantOk(db, k)) && PrimaryHeld(db, user)
  }

  lemma WriteKeepsGrants(a: Db, b: Db, user: Id)
    requires WritesOnly(a, b, user) && UserOk(b, user) && GrantsOk(a) && AllPrimariesHeld(a)
    ensures GrantsOk(b) && AllPrimariesHeld(b)
  {
  }

  lemma WriteKeepsSet(a: Db, b: Db, user: Id)
    requires WritesOnly(a, b, user) && AllPrimariesSet(a) && PrimarySet(b, user)
    ensures AllPrimariesSet(b)
  {
  }

  lemma WriteKeepsRest(s: Store, b: Db, user: Id)
    requires Inv(s) && WritesOnly(s.db, b, user) && UserOk(b, user)
    requires forall k :: k in b.userRoles ==> k.0 < b.nextUser
    ensures Inv(s.(db := b))
  {
    WriteKeepsGrants(s.db, b, user);
    WriteKeepsConsistent(s.db, b, user);
    hide GrantsOk, AllPrimariesHeld, Consistent, UserOk;
    assert forall u, r :: RoleFits(b, u, r) <==> RoleFits(s.db, u, r);
  }

  lemma WriteKeepsConsistent(a: Db, b: Db, user: Id)
    requires Consistent(a) && WritesOnly(a, b, user) && forall k :: k in b.userRoles ==> k.0 < b.nextUser
    ensures Consistent(b)
  {
  }

  lemma HoldersAreKnown(db: Db, user: Id)
    requires Consistent(db) && user in db.users
    ensures user < db.nextUser
  {
  }
}
