/**
 The tables behind the user directory, and the statements the bulk import issues against them.

 A partial unique index is modelled as the map it is: `emails` is the index on live users'
 (tenant, application, email), `identities` the index on (tenant, application, provider, subject).
 */
module Directory {
  import opened Prelude

  /** A tenant, or one application of it; `None` is the tenant level. */
  datatype Scope = Scope(tenant: Id, app: Option<Id>)

  datatype UserKey = UserKey(scope: Scope, email: string)

  datatype User = User(
    scope: Scope, email: string, first: string, last: string, role: Option<Id>,
    active: bool, verified: bool, credential: Option<string>, live: bool)

  datatype Role = Role(scope: Scope, name: string, system: bool, isDefault: bool, live: bool)

  /** A user_roles row; its key (user, role) is the table's primary key. */
  datatype Grant = Grant(tenant: Id, at: int)

  datatype IdentityKey = IdentityKey(tenant: Id, app: Id, provider: string, sub: string)

  datatype Db = Db(
    users: map<Id, User>,
    nextUser: Id,
    emails: map<UserKey, Id>,
    identities: map<IdentityKey, Id>,
    roles: map<Id, Role>,
    userRoles: map<(Id, Id), Grant>)

  /** What the database itself keeps: indexes agree with their table, links lead to users, and keys are never reused. */
  ghost predicate Consistent(db: Db) {
    && (forall k :: k in db.emails ==>
          && db.emails[k] in db.users
          && db.users[db.emails[k]].live
          && UserKey(db.users[db.emails[k]].scope, db.users[db.emails[k]].email) == k)
    && (forall id :: id in db.users && db.users[id].live ==>
          var k := UserKey(db.users[id].scope, db.users[id].email);
          k in db.emails && db.emails[k] == id)
    && (forall id :: id in db.users ==> id < db.nextUser)
    && (forall k :: k in db.userRoles ==> k.0 < db.nextUser)
    && (forall k :: k in db.identities ==> db.identities[k] in db.users)
  }

  /** Equality of everything but the instant at which a role was granted. */
  ghost predicate SameAccess(a: Db, b: Db) {
    && a.users == b.users && a.nextUser == b.nextUser && a.emails == b.emails
    && a.identities == b.identities && a.roles == b.roles
    && a.userRoles.Keys == b.userRoles.Keys
    && forall k :: k in a.userRoles ==> a.userRoles[k].tenant == b.userRoles[k].tenant
  }

  function FindUser(db: Db, scope: Scope, email: string): Option<Id> {
    if UserKey(scope, email) in db.emails then Some(db.emails[UserKey(scope, email)]) else None
  }

  /** The name a LEFT JOIN on users.role_id yields, empty when there is none. */
  function PrimaryRoleName(db: Db, id: Id): string {
    if id in db.users && db.users[id].role.Some? && db.users[id].role.value in db.roles
    then db.roles[db.users[id].role.value].name
    else ""
  }

  /** INSERT INTO user_roles ... ON CONFLICT (user_id, role_id) DO NOTHING. */
  function GrantRole(grants: map<(Id, Id), Grant>, user: Id, role: Id, tenant: Id, at: int): map<(Id, Id), Grant> {
    if (user, role) in grants then grants else grants[(user, role) := Grant(tenant, at)]
  }

  /** DELETE FROM user_roles WHERE user_id = .. AND tenant_id = ... */
  function ClearRoles(grants: map<(Id, Id), Grant>, user: Id, tenant: Id): map<(Id, Id), Grant> {
    map k | k in grants && !(k.0 == user && grants[k].tenant == tenant) :: grants[k]
  }
}
