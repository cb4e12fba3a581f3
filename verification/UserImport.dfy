/**
 The bulk user import: validation of a document, the dry run and the synchronous commit.

 Password parsing and hashing and string folding are foreign to the import; they are the
 fields of `Foreign`, and every result holds whatever they compute.
 */
module UserImport {
  import opened Prelude
  import opened Directory

  // ---------------------------------------------------------------------------------------
  // Documents and reports
  // ---------------------------------------------------------------------------------------

  datatype Identity = Identity(provider: string, sub: string, email: string)

  datatype ImportUser = ImportUser(
    email: string, first: string, last: string, verified: bool, active: bool, role: string,
    passwordHash: string, password: string, identities: seq<Identity>)

  datatype Document = Document(users: seq<ImportUser>, updateExisting: bool)

  datatype Outcome = Create | Skip | Update | Reject

  /** The report's reason strings, one constructor for each message. */
  datatype Reason =
    | NoReason
    | InvalidEmail
    | DuplicateOfRow(first: nat)
    | BothCredentials
    | NoWayIn
    | UnusableHash(detail: string)
    | UnsupportedHash
    | PasswordTooShort
    | PasswordTooLong
    | PasswordLooksHashed
    | IdentitiesNeedApplication
    | IdentityIncomplete
    | IdentityRepeated(provider: string)
    | IdentitiesNeedVerifiedEmail
    | RoleUnavailable(name: string)
    | AlreadyExists
    | RoleChanged(before: string, after: string)
    | RoleUnchanged
    | GaveUp(attempts: nat)

  datatype Verdict = Verdict(index: nat, email: string, outcome: Outcome, reason: Reason)

  datatype ImportResult = ImportResult(
    dryRun: bool, total: nat, created: nat, skipped: nat, updated: nat, rejected: nat, rows: seq<Verdict>)

  datatype Algorithm = Bcrypt | Argon2id | Unknown

  datatype Foreign = Foreign(
    normalize: string -> string,
    trim: string -> string,
    identify: string -> Algorithm,
    storedHashFault: string -> Option<string>,
    hash: string -> string)

  /** One row of the assignable-role query, and what an import resolves once before its rows. */
  datatype RoleEntry = RoleEntry(name: string, id: Id)
  datatype Context = Context(scope: Scope, roles: seq<RoleEntry>, fallback: Option<Id>, updateExisting: bool)

  const MAX_IMPORT_ROWS := 5000
  const MIN_PASSWORD_LEN := 8
  const MAX_PASSWORD_LEN := 256

  // ---------------------------------------------------------------------------------------
  // Validation of one row; nothing here reads the directory
  // ---------------------------------------------------------------------------------------

  function HashFault(f: Foreign, h: string): Option<Reason> {
    if f.identify(h).Unknown? then Some(UnsupportedHash)
    else match f.storedHashFault(h)
      case Some(detail) => Some(UnusableHash(detail))
      case None => None
  }

  function PlaintextFault(f: Foreign, pw: string): Option<Reason> {
    if |pw| < MIN_PASSWORD_LEN then Some(PasswordTooShort)
    else if |pw| > MAX_PASSWORD_LEN then Some(PasswordTooLong)
    else if !f.identify(pw).Unknown? then Some(PasswordLooksHashed)
    else None
  }

  function IdentitiesFault(ids: seq<Identity>, seen: set<string>): Option<Reason> {
    if ids == [] then None
    else if ids[0].provider == "" || ids[0].sub == "" then Some(IdentityIncomplete)
    else if ids[0].provider in seen then Some(IdentityRepeated(ids[0].provider))
    else IdentitiesFault(ids[1..], seen + {ids[0].provider})
  }

  /** A set's worth of providers seen so far, walked once; the first fault wins. */
  method ValidateIdentities(ids: seq<Identity>) returns (fault: Option<Reason>)
    ensures fault == IdentitiesFault(ids, {})
    ensures fault.None? <==>
            && (forall i :: 0 <= i < |ids| ==> ids[i].provider != "" && ids[i].sub != "")
            && (forall i, j :: 0 <= i < j < |ids| ==> ids[i].provider != ids[j].provider)
  {
    var seen: set<string> := {};
    var i := 0;
    while i < |ids|
      invariant 0 <= i <= |ids|
      invariant IdentitiesFault(ids, {}) == IdentitiesFault(ids[i..], seen)
      invariant seen == set k | 0 <= k < i :: ids[k].provider
      invariant forall k :: 0 <= k < i ==> ids[k].provider != "" && ids[k].sub != ""
      invariant forall k, l :: 0 <= k < l < i ==> ids[k].provider != ids[l].provider
    {
      if ids[i].provider == "" || ids[i].sub == "" {
        return Some(IdentityIncomplete);
      }
      if ids[i].provider in seen {
        return Some(IdentityRepeated(ids[i].provider));
      }
      assert ids[i..][1..] == ids[i + 1..];
      seen := seen + {ids[i].provider};
      i := i + 1;
    }
    fault := None;
  }

  function FindRole(roles: seq<RoleEntry>, name: string): Option<Id> {
    if roles == [] then None
    else if roles[|roles| - 1].name == name then Some(roles[|roles| - 1].id)
    else FindRole(roles[..|roles| - 1], name)
  }

  function RoleNameFor(roles: seq<RoleEntry>, id: Option<Id>): string {
    if id.None? || roles == [] then ""
    else if roles[0].id == id.value then roles[0].name
    else RoleNameFor(roles[1..], id)
  }

  datatype RoleChoice = Unavailable | Chosen(id: Option<Id>)

  /** A named role, else the application's default, else none. */
  function ResolveRole(f: Foreign, name: string, roles: seq<RoleEntry>, fallback: Option<Id>): RoleChoice {
    if f.trim(name) == "" then Chosen(fallback)
    else match FindRole(roles, f.trim(name))
      case None => Unavailable
      case Some(id) => Chosen(Some(id))
  }

  datatype AmendedRole = AmendedRole(named: bool, id: Option<Id>)

  function AmendRole(f: Foreign, name: string, id: Option<Id>): AmendedRole {
    if f.trim(name) == "" then AmendedRole(false, None) else AmendedRole(true, id)
  }

  /** Everything that can be said against a row whose address is new to the file. */
  function RowFault(f: Foreign, c: Context, u: ImportUser): Option<Reason> {
    if u.passwordHash != "" && u.password != "" then Some(BothCredentials)
    else if u.passwordHash == "" && u.password == "" && |u.identities| == 0 && !u.verified then Some(NoWayIn)
    else if u.passwordHash != "" && HashFault(f, u.passwordHash).Some? then HashFault(f, u.passwordHash)
    else if u.password != "" && PlaintextFault(f, u.password).Some? then PlaintextFault(f, u.password)
    else if |u.identities| > 0 && c.scope.app.None? then Some(IdentitiesNeedApplication)
    else if IdentitiesFault(u.identities, {}).Some? then IdentitiesFault(u.identities, {})
    else if |u.identities| > 0 && !u.verified then Some(IdentitiesNeedVerifiedEmail)
    else if ResolveRole(f, u.role, c.roles, c.fallback).Unavailable? then Some(RoleUnavailable(f.trim(u.role)))
    else None
  }

  predicate BadAddress(f: Foreign, u: ImportUser) {
    f.normalize(u.email) == "" || '@' !in f.normalize(u.email)
  }

  datatype Screened = Refused(email: string, reason: Reason) | Passed(email: string, role: Option<Id>)

  function Screen(f: Foreign, c: Context, seen: map<string, nat>, u: ImportUser): (s: Screened)
    ensures s.Passed? ==> u.identities == [] || c.scope.app.Some?
    ensures s.Passed? ==> IdentitiesFault(u.identities, {}).None?
  {
    var email := f.normalize(u.email);
    if BadAddress(f, u) then Refused(u.email, InvalidEmail)
    else if email in seen then Refused(email, DuplicateOfRow(seen[email]))
    else if RowFault(f, c, u).Some? then Refused(email, RowFault(f, c, u).value)
    else Passed(email, ResolveRole(f, u.role, c.roles, c.fallback).id)
  }

  /** An address is taken by its first row even when that row is then refused. */
  function Mark(f: Foreign, seen: map<string, nat>, u: ImportUser, index: nat): map<string, nat> {
    if BadAddress(f, u) || f.normalize(u.email) in seen then seen else seen[f.normalize(u.email) := index]
  }

  // ---------------------------------------------------------------------------------------
  // The two writes
  // ---------------------------------------------------------------------------------------

  /** Identity rows in turn; `None` is a unique violation on either of the table's two keys. */
  function InsertIdentities(
    taken: map<IdentityKey, Id>, tenant: Id, app: Id, user: Id, ids: seq<Identity>, providers: set<string>
  ): Option<map<IdentityKey, Id>>
    decreases |ids|
  {
    if ids == [] then Some(taken)
    else
      var k := IdentityKey(tenant, app, ids[0].provider, ids[0].sub);
      if k in taken || ids[0].provider in providers then None
      else InsertIdentities(taken[k := user], tenant, app, user, ids[1..], providers + {ids[0].provider})
  }

  datatype InsertResult = Inserted(db: Db) | Duplicate

  function StoredCredential(f: Foreign, u: ImportUser): Option<string> {
    if u.passwordHash != "" then Some(u.passwordHash)
    else if u.password != "" then Some(f.hash(u.password))
    else None
  }

  /** One user, its role grant and its identities, in a transaction: all of it or none. */
  function InsertUser(
    f: Foreign, db: Db, scope: Scope, email: string, u: ImportUser, role: Option<Id>, at: int
  ): InsertResult
    requires u.identities == [] || scope.app.Some?
  {
    var id := db.nextUser;
    if UserKey(scope, email) in db.emails then Duplicate
    else
      match InsertIdentities(db.identities, scope.tenant, if scope.app.Some? then scope.app.value else 0,
                             id, u.identities, {})
      case None => Duplicate
      case Some(ids) =>
        Inserted(db.(
          users := db.users[id := User(scope, email, u.first, u.last, role, u.active, u.verified,
                                       StoredCredential(f, u), true)],
          nextUser := id + 1,
          emails := db.emails[UserKey(scope, email) := id],
          identities := ids,
          userRoles := if role.Some? then GrantRole(db.userRoles, id, role.value, scope.tenant, at) else db.userRoles))
  }

  /** Names only where the row carries them; a named role replaces the user's whole role set. */
  function UpdateUser(db: Db, tenant: Id, id: Id, u: ImportUser, role: AmendedRole, at: int): Db {
    if id !in db.users || db.users[id].scope.tenant != tenant || !db.users[id].live then db
    else
      var row := db.users[id];
      var cleared := ClearRoles(db.userRoles, id, tenant);
      db.(
        users := db.users[id := row.(
          role := if role.named then role.id else row.role,
          first := if u.first == "" then row.first else u.first,
          last := if u.last == "" then row.last else u.last)],
        userRoles := if !role.named then db.userRoles
                     else if role.id.None? then cleared
                     else GrantRole(cleared, id, role.id.value, tenant, at))
  }

  // ---------------------------------------------------------------------------------------
  // The run: one pass over the document
  // ---------------------------------------------------------------------------------------

  datatype RowEffect = RowEffect(db: Db, outcome: Outcome, reason: Reason)

  function CommitRow(
    f: Foreign, c: Context, dryRun: bool, db: Db, email: string, u: ImportUser, role: Option<Id>, at: int
  ): (e: RowEffect)
    requires u.identities == [] || c.scope.app.Some?
    ensures e.outcome != Reject
    ensures dryRun ==> e.db == db
  {
    match FindUser(db, c.scope, email)
    case Some(id) =>
      if !c.updateExisting then RowEffect(db, Skip, AlreadyExists)
      else
        var amended := AmendRole(f, u.role, role);
        var before := PrimaryRoleName(db, id);
        var after := if amended.named then RoleNameFor(c.roles, amended.id) else before;
        RowEffect(
          if dryRun then db else UpdateUser(db, c.scope.tenant, id, u, amended, at),
          Update,
          if after != before then RoleChanged(before, after) else RoleUnchanged)
    case None =>
      if dryRun then RowEffect(db, Create, NoReason)
      else
        match InsertUser(f, db, c.scope, email, u, role, at)
        case Duplicate => RowEffect(db, Skip, AlreadyExists)
        case Inserted(d) => RowEffect(d, Create, NoReason)
  }

  datatype Run = Run(db: Db, seen: map<string, nat>, rows: seq<Verdict>)

  function RunRow(f: Foreign, c: Context, dryRun: bool, r: Run, u: ImportUser, at: int): (r': Run)
    ensures |r'.rows| == |r.rows| + 1 && r'.rows[..|r.rows|] == r.rows
  {
    var index := |r.rows|;
    var seen := Mark(f, r.seen, u, index);
    match Screen(f, c, r.seen, u)
    case Refused(email, reason) => Run(r.db, seen, r.rows + [Verdict(index, email, Reject, reason)])
    case Passed(email, role) =>
      var e := CommitRow(f, c, dryRun, r.db, email, u, role, at);
      Run(e.db, seen, r.rows + [Verdict(index, email, e.outcome, e.reason)])
  }

  /** The state after the first `n` rows; `at(i)` is the instant row `i` is written. */
  function RunTo(f: Foreign, c: Context, dryRun: bool, db: Db, users: seq<ImportUser>, at: nat -> int, n: nat): (r: Run)
    requires n <= |users|
    ensures |r.rows| == n
  {
    if n == 0 then Run(db, map[], [])
    else RunRow(f, c, dryRun, RunTo(f, c, dryRun, db, users, at, n - 1), users[n - 1], at(n - 1))
  }

  function RunAll(f: Foreign, c: Context, dryRun: bool, db: Db, users: seq<ImportUser>, at: nat -> int): (r: Run)
    ensures |r.rows| == |users|
  {
    RunTo(f, c, dryRun, db, users, at, |users|)
  }

  function Tally(rows: seq<Verdict>, o: Outcome): nat {
    if rows == [] then 0
    else Tally(rows[..|rows| - 1], o) + if rows[|rows| - 1].outcome == o then 1 else 0
  }
}
