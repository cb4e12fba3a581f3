/**
 The administrative tables, and the statements that derive the grant mirror from them.

 Soft-deleted rows are absent from the maps: every statement modelled here looks at live rows only,
 and the unique indexes are partial on them.  `byPair` is the index tenant_admins_user_tenant_key;
 the key of `grants` is the pair of unique indexes on admin_grants.
 */
module AdminGrants {
  import opened Prelude

  datatype AdminRole = Owner | CoOwner

  datatype Pair = Pair(tenant: Id, user: Id)

  /** A tenant_admins row; the grant has reach once it is activated. */
  datatype Admin = Admin(pair: Pair, role: AdminRole, activated: Option<int>)

  /** An admin_grants row is its key and the instant of its activation. */
  datatype GrantKey = GrantKey(pair: Pair, role: AdminRole, app: Option<Id>)

  type Grants = map<GrantKey, Option<int>>

  datatype Tables = Tables(
    admins: map<Id, Admin>, byPair: map<Pair, Id>, nextAdmin: Id,
    scopes: set<(Id, Id)>, grants: Grants)

  /** The applications of one tenant_admin_app_scopes holder. */
  function ScopesOf(scopes: set<(Id, Id)>, admin: Id): (apps: set<Id>)
    ensures forall app :: app in apps <==> (admin, app) in scopes
  {
    assert forall s :: s in scopes ==> s == (s.0, s.1);
    set s | s in scopes && s.0 == admin :: s.1
  }

  function AdminOf(t: Tables, pair: Pair): Option<Admin> {
    if pair in t.byPair && t.byPair[pair] in t.admins then Some(t.admins[t.byPair[pair]]) else None
  }

  function AppsOf(t: Tables, pair: Pair): set<Id> {
    if pair in t.byPair then ScopesOf(t.scopes, t.byPair[pair]) else {}
  }

  // ---------------------------------------------------------------------------------------
  // What the mirror should hold for one pair
  // ---------------------------------------------------------------------------------------

  function CoOwnerKeys(pair: Pair, apps: set<Id>): (keys: set<GrantKey>)
    ensures forall k :: k in keys <==> k.pair == pair && k.role == CoOwner && k.app.Some? && k.app.value in apps
  {
    var keys := set app | app in apps :: GrantKey(pair, CoOwner, Some(app));
    assert forall app :: app in apps ==> GrantKey(pair, CoOwner, Some(app)) in keys;
    assert forall k: GrantKey :: k.app.Some? ==> k == GrantKey(k.pair, k.role, Some(k.app.value));
    keys
  }

  /** An owner's one tenant-wide grant, a co-owner's grant for each application, nothing for anybody else. */
  function Derived(pair: Pair, admin: Option<Admin>, apps: set<Id>): set<GrantKey> {
    match admin
    case None => {}
    case Some(a) =>
      if a.role == Owner then {GrantKey(pair, Owner, None)} else CoOwnerKeys(pair, apps)
  }

  /** `grants` agrees with the derivation for `pair`, in its rows and in which of them are activated. */
  ghost predicate AgreesFor(grants: Grants, pair: Pair, admin: Option<Admin>, apps: set<Id>) {
    && (forall k :: k in grants && k.pair == pair <==> k in Derived(pair, admin, apps))
    && (forall k :: k in grants && k.pair == pair && admin.Some? ==> (grants[k].Some? <==> admin.value.activated.Some?))
  }

  /**
   The mirror's rows for `pair` made to agree, everything else kept, and kept rows keeping their instant where
   they may.
   */
  function Mirror(grants: Grants, pair: Pair, admin: Option<Admin>, apps: set<Id>): Grants {
    var derived := Derived(pair, admin, apps);
    map k | k in grants.Keys + derived && (k.pair == pair ==> k in derived) ::
      if k.pair != pair || (k in grants && (grants[k].Some? <==> admin.value.activated.Some?))
      then grants[k] else admin.value.activated
  }

  lemma DerivedIsOfPair(pair: Pair, admin: Option<Admin>, apps: set<Id>)
    ensures forall k :: k in Derived(pair, admin, apps) ==> k.pair == pair && admin.Some?
  {
  }

  /**
   Mirroring makes the pair agree, touches no other pair, invents no instant, and does nothing where the
   pair agrees, so nothing when done again.
   */
  lemma MirrorAgrees(grants: Grants, pair: Pair, admin: Option<Admin>, apps: set<Id>)
    ensures var m := Mirror(grants, pair, admin, apps);
            && AgreesFor(m, pair, admin, apps)
            && (forall k: GrantKey :: k.pair != pair ==> (k in m <==> k in grants) && (k in grants ==> m[k] == grants[k]))
            && (forall k :: k in m && k.pair == pair && k !in grants ==> m[k] == admin.value.activated)
            && (forall k :: k in m && k.pair == pair && k in grants ==> m[k] == grants[k] || m[k] == admin.value.activated)
            && (AgreesFor(grants, pair, admin, apps) ==> m == grants)
            && Mirror(m, pair, admin, apps) == m
  {
  }

  // ---------------------------------------------------------------------------------------
  // The statements
  // ---------------------------------------------------------------------------------------

  function RetireAll(grants: Grants, pair: Pair): Grants {
    map k | k in grants && k.pair != pair :: grants[k]
  }

  function RetireNonOwner(grants: Grants, pair: Pair): Grants {
    map k | k in grants && !(k.pair == pair && (k.role != Owner || k.app.Some?)) :: grants[k]
  }

  function RetireStale(grants: Grants, pair: Pair, apps: set<Id>): Grants {
    map k | k in grants && !(k.pair == pair && (k.role == Owner || k.app.None? || k.app.value !in apps)) :: grants[k]
  }

  /** INSERT ... ON CONFLICT DO NOTHING. */
  function InsertMissing(grants: Grants, keys: set<GrantKey>, activated: Option<int>): Grants {
    map k | k in grants.Keys + keys :: if k in grants then grants[k] else activated
  }

  /** Rows whose activation disagrees take the administrator's instant; the others are not written. */
  function SyncActivation(grants: Grants, pair: Pair, role: AdminRole, activated: Option<int>): Grants {
    map k | k in grants ::
      if k.pair == pair && k.role == role && (k.role == Owner ==> k.app.None?) && (grants[k].Some? <==> activated.None?)
      then activated else grants[k]
  }

  /** The mirror as it is written: read the administrator, retire what no longer belongs, insert, synchronise. */
  method MirrorAdminGrants(t: Tables, pair: Pair) returns (grants: Grants)
    ensures grants == Mirror(t.grants, pair, AdminOf(t, pair), AppsOf(t, pair))
  {
    grants := t.grants;
    if pair !in t.byPair || t.byPair[pair] !in t.admins {
      grants := RetireAll(grants, pair);
      return;
    }
    var admin := t.admins[t.byPair[pair]];
    var apps := ScopesOf(t.scopes, t.byPair[pair]);
    hide ScopesOf;
    if admin.role == Owner {
      grants := RetireNonOwner(grants, pair);
      grants := InsertMissing(grants, {GrantKey(pair, Owner, None)}, admin.activated);
      grants := SyncActivation(grants, pair, Owner, admin.activated);
      OwnerStatements(t.grants, pair, admin, apps);
    } else {
      grants := RetireStale(grants, pair, apps);
      grants := InsertMissing(grants, CoOwnerKeys(pair, apps), admin.activated);
      grants := SyncActivation(grants, pair, CoOwner, admin.activated);
      CoOwnerStatements(t.grants, pair, admin, apps);
    }
  }

  lemma OwnerStatements(grants: Grants, pair: Pair, admin: Admin, apps: set<Id>)
    requires admin.role == Owner
    ensures SyncActivation(InsertMissing(RetireNonOwner(grants, pair), {GrantKey(pair, Owner, None)}, admin.activated),
                           pair, Owner, admin.activated)
            == Mirror(grants, pair, Some(admin), apps)
  {
  }

  lemma CoOwnerStatements(grants: Grants, pair: Pair, admin: Admin, apps: set<Id>)
    requires admin.role == CoOwner
    ensures SyncActivation(InsertMissing(RetireStale(grants, pair, apps), CoOwnerKeys(pair, apps), admin.activated),
                           pair, CoOwner, admin.activated)
            == Mirror(grants, pair, Some(admin), apps)
  {
  }
}
