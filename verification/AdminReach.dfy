/**
 The readers of administrative reach: what each resolver returns from the grant mirror, and that
 it is what the authoritative rows say.

 A resolver is given the rows its query returns, in the query's order.
 */
module AdminReach {
  import opened Prelude
  import opened AdminGrants

  /** The CHECK on admin_grants: a tenant-wide row is an owner's, a row for one application a co-owner's. */
  ghost predicate Shaped(grants: Grants) {
    forall k :: k in grants ==> (k.role == Owner <==> k.app.None?)
  }

  predicate Active(grants: Grants, k: GrantKey) { k in grants && grants[k].Some? }

  // ---------------------------------------------------------------------------------------
  // Query results
  // ---------------------------------------------------------------------------------------

  predicate NullsFirst(a: Option<Id>, b: Option<Id>) {
    a.None? || (b.Some? && a.value <= b.value)
  }

  ghost predicate Distinct(rows: seq<GrantKey>) {
    forall i, j :: 0 <= i < j < |rows| ==> rows[i] != rows[j]
  }

  /** One user's activated grants in one tenant, ordered by application, tenant-wide rows first. */
  ghost predicate ScopeQuery(grants: Grants, pair: Pair, rows: seq<GrantKey>) {
    && Distinct(rows)
    && (forall k :: k in rows <==> Active(grants, k) && k.pair == pair)
    && (forall i, j :: 0 <= i < j < |rows| ==> NullsFirst(rows[i].app, rows[j].app))
  }

  /** One user's activated grants everywhere, ordered by tenant, then as above. */
  ghost predicate ReachQuery(grants: Grants, user: Id, rows: seq<GrantKey>) {
    && Distinct(rows)
    && (forall k :: k in rows <==> Active(grants, k) && k.pair.user == user)
    && (forall i, j :: 0 <= i < j < |rows| ==>
          rows[i].pair.tenant < rows[j].pair.tenant
          || (rows[i].pair.tenant == rows[j].pair.tenant && NullsFirst(rows[i].app, rows[j].app)))
  }

  /** The same rows with owned tenants first, then by tenant. */
  ghost predicate DefaultQuery(grants: Grants, user: Id, rows: seq<GrantKey>) {
    && (forall k :: k in rows <==> Active(grants, k) && k.pair.user == user)
    && (forall i, j :: 0 <= i < j < |rows| ==>
          (rows[i].role == Owner && rows[j].role != Owner)
          || (rows[i].role == rows[j].role && rows[i].pair.tenant <= rows[j].pair.tenant))
  }

  // ---------------------------------------------------------------------------------------
  // The resolvers
  // ---------------------------------------------------------------------------------------

  datatype AdminScope = NoScope | TenantScope | AppsScope(apps: seq<Id>)

  predicate Ascending(s: seq<Id>) { forall i, j :: 0 <= i < j < |s| ==> s[i] < s[j] }

  /** `s` is the set in ascending order. */
  ghost predicate Lists(s: seq<Id>, elements: iset<Id>) {
    Ascending(s) && forall x :: x in s <==> x in elements
  }

  lemma {:induction false} ListsAreUnique(a: seq<Id>, b: seq<Id>, elements: iset<Id>)
    requires Lists(a, elements) && Lists(b, elements)
    ensures a == b
  {
    var i := 0;
    while i < |a| && i < |b| && a[i] == b[i]
      invariant 0 <= i <= |a| && i <= |b| && a[..i] == b[..i]
    {
      i := i + 1;
    }
    if i < |a| {
      NextIsListed(a, b, i);
    }
    if i < |b| {
      NextIsListed(b, a, i);
    }
  }

  lemma NextIsListed(a: seq<Id>, b: seq<Id>, i: nat)
    requires Ascending(a) && Ascending(b) && i < |a| && i <= |b| && a[..i] == b[..i]
    requires forall x :: x in a <==> x in b
    ensures i < |b| && b[i] <= a[i]
  {
    assert a[i] in a;
    var j :| 0 <= j < |b| && b[j] == a[i];
    assert forall k :: 0 <= k < i ==> a[k] == a[..i][k] == b[..i][k] == b[k];
  }

  ghost function GrantedApps(grants: Grants, pair: Pair): iset<Id> {
    iset a | Active(grants, GrantKey(pair, CoOwner, Some(a)))
  }

  ghost predicate OwnsByGrant(grants: Grants, pair: Pair) { Active(grants, GrantKey(pair, Owner, None)) }

  ghost predicate HasReach(grants: Grants, pair: Pair) { exists k :: Active(grants, k) && k.pair == pair }

  /** What the mirror says one user may reach in one tenant. */
  ghost predicate ScopeByGrants(grants: Grants, pair: Pair, scope: AdminScope) {
    match scope
    case TenantScope => OwnsByGrant(grants, pair)
    case NoScope => !HasReach(grants, pair)
    case AppsScope(apps) => HasReach(grants, pair) && !OwnsByGrant(grants, pair) && Lists(apps, GrantedApps(grants, pair))
  }

  method LoadAdminScopeFromGrants(ghost grants: Grants, ghost pair: Pair, rows: seq<GrantKey>) returns (scope: AdminScope)
    requires Shaped(grants) && ScopeQuery(grants, pair, rows)
    ensures ScopeByGrants(grants, pair, scope)
  {
    var isAdmin := false;
    var apps: seq<Id> := [];
    var i := 0;
    while i < |rows|
      invariant 0 <= i <= |rows| && isAdmin == (i > 0)
      invariant forall k :: 0 <= k < i ==> rows[k].role == CoOwner && rows[k].app.Some?
      invariant apps == seq(i, k requires 0 <= k < i && rows[k].app.Some? => rows[k].app.value)
    {
      isAdmin := true;
      assert rows[i] in rows;
      if rows[i].role == Owner {
        return TenantScope;
      }
      if rows[i].app.Some? {
        apps := apps + [rows[i].app.value];
      }
      i := i + 1;
    }
    RowsListApps(grants, pair, rows, apps);
    if !isAdmin {
      return NoScope;
    }
    scope := AppsScope(apps);
    assert rows[0] in rows;
  }

  lemma RowsListApps(grants: Grants, pair: Pair, rows: seq<GrantKey>, apps: seq<Id>)
    requires ScopeQuery(grants, pair, rows) && |apps| == |rows|
    requires forall k :: 0 <= k < |rows| ==> rows[k].role == CoOwner && rows[k].app == Some(apps[k])
    ensures Lists(apps, GrantedApps(grants, pair)) && !OwnsByGrant(grants, pair)
    ensures rows == [] ==> !HasReach(grants, pair)
  {
  }

  datatype Reach = Reach(tenant: Id, role: AdminRole, apps: seq<Id>)

  ghost predicate SeenTenant(rows: seq<GrantKey>, tenant: Id) { exists k :: k in rows && k.pair.tenant == tenant }

  ghost predicate SeenOwner(rows: seq<GrantKey>, tenant: Id) {
    exists k :: k in rows && k.pair.tenant == tenant && k.role == Owner
  }

  ghost function SeenApps(rows: seq<GrantKey>, tenant: Id): iset<Id> {
    iset a | exists k :: k in rows && k.pair.tenant == tenant && k.app == Some(a)
  }

  /** One tenant's entry, judged by the rows read so far. */
  ghost predicate EntryOk(rows: seq<GrantKey>, r: Reach) {
    && (r.role == Owner <==> SeenOwner(rows, r.tenant))
    && (r.role == Owner ==> r.apps == [])
    && (r.role == CoOwner ==> Lists(r.apps, SeenApps(rows, r.tenant)))
  }

  function FirstEntry(row: GrantKey): Reach { Reach(row.pair.tenant, row.role, []) }

  /** Fold one more row of the same tenant into its entry. */
  function Fold(r: Reach, row: GrantKey): Reach {
    if row.role == Owner then r.(role := Owner, apps := [])
    else if r.role == Owner then r
    else if row.app.Some? then r.(apps := r.apps + [row.app.value])
    else r
  }

  /** Rows of one tenant arrive in ascending order of application. */
  lemma FoldKeepsEntry(grants: Grants, user: Id, rows: seq<GrantKey>, i: nat, r: Reach)
    requires Shaped(grants) && ReachQuery(grants, user, rows) && i < |rows| && r.tenant == rows[i].pair.tenant
    requires SeenTenant(rows[..i], r.tenant) ==> EntryOk(rows[..i], r)
    requires !SeenTenant(rows[..i], r.tenant) ==> r == FirstEntry(rows[i])
    ensures EntryOk(rows[..i + 1], Fold(r, rows[i]))
  {
    var seen, row := rows[..i], rows[i];
    assert rows[..i + 1] == seen + [row];
    assert row in rows && (row.role == Owner <==> row.app.None?);
    assert row in rows[..i + 1];
    assert SeenOwner(rows[..i + 1], r.tenant) <==> SeenOwner(seen, r.tenant) || row.role == Owner;
    if !SeenTenant(seen, r.tenant) {
      assert !SeenOwner(seen, r.tenant);
    }
    if row.role == CoOwner && !SeenOwner(seen, r.tenant) {
      var apps := if SeenTenant(seen, r.tenant) then r.apps else [];
      assert Lists(apps, SeenApps(seen, r.tenant)) by {
        if !SeenTenant(seen, r.tenant) {
          assert forall a :: a !in SeenApps(seen, r.tenant);
        }
      }
      LaterAppsAreLarger(grants, user, rows, i);
      ListsGrow(seen, row, apps);
    }
  }

  lemma LaterAppsAreLarger(grants: Grants, user: Id, rows: seq<GrantKey>, i: nat)
    requires Shaped(grants) && ReachQuery(grants, user, rows) && i < |rows| && rows[i].app.Some?
    ensures forall a :: a in SeenApps(rows[..i], rows[i].pair.tenant) ==> a < rows[i].app.value
  {
  }

  lemma ListsGrow(seen: seq<GrantKey>, row: GrantKey, apps: seq<Id>)
    requires row.app.Some? && Lists(apps, SeenApps(seen, row.pair.tenant))
    requires forall a :: a in SeenApps(seen, row.pair.tenant) ==> a < row.app.value
    ensures Lists(apps + [row.app.value], SeenApps(seen + [row], row.pair.tenant))
  {
    var tenant := row.pair.tenant;
    assert row in seen + [row];
    assert forall k :: k in seen ==> k in seen + [row];
    forall a
      ensures a in apps + [row.app.value] <==> a in SeenApps(seen + [row], tenant)
    {
      if a in apps {
        var k :| k in seen && k.pair.tenant == tenant && k.app == Some(a);
        assert k in seen + [row];
      }
    }
    forall i, j | 0 <= i < j < |apps| + 1
      ensures (apps + [row.app.value])[i] < (apps + [row.app.value])[j]
    {
      assert apps[i] in apps;
    }
  }

  lemma FoldLeavesOthers(rows: seq<GrantKey>, i: nat, r: Reach)
    requires i < |rows| && r.tenant != rows[i].pair.tenant
    ensures EntryOk(rows[..i], r) <==> EntryOk(rows[..i + 1], r)
    ensures SeenTenant(rows[..i], r.tenant) <==> SeenTenant(rows[..i + 1], r.tenant)
  {
  }

  /** What has been collected from the rows read so far. */
  ghost predicate Collected(rows: seq<GrantKey>, byTenant: map<Id, Reach>, order: seq<Id>) {
    && Ascending(order) && (forall t :: t in order <==> t in byTenant)
    && (forall t :: t in byTenant <==> SeenTenant(rows, t))
    && (forall t :: t in byTenant ==> byTenant[t].tenant == t && EntryOk(rows, byTenant[t]))
  }

  /** The entry one more row leaves for its tenant. */
  function Entry(byTenant: map<Id, Reach>, row: GrantKey): Reach {
    Fold(if row.pair.tenant in byTenant then byTenant[row.pair.tenant] else FirstEntry(row), row)
  }

  lemma CollectedGrows(grants: Grants, user: Id, rows: seq<GrantKey>, i: nat, byTenant: map<Id, Reach>, order: seq<Id>)
    requires Shaped(grants) && ReachQuery(grants, user, rows) && i < |rows| && Collected(rows[..i], byTenant, order)
    ensures var tenant := rows[i].pair.tenant;
            Collected(rows[..i + 1], byTenant[tenant := Entry(byTenant, rows[i])],
                      if tenant in byTenant then order else order + [tenant])
  {
    var tenant := rows[i].pair.tenant;
    TenantsGrow(rows, i);
    FoldKeepsEntry(grants, user, rows, i, if tenant in byTenant then byTenant[tenant] else FirstEntry(rows[i]));
    if tenant !in byTenant {
      NewTenantIsLarger(grants, user, rows, i, order);
      AscendingSnoc(order, tenant);
    }
    hide SeenTenant, EntryOk, Ascending, Shaped, ReachQuery;
    var next := byTenant[tenant := Entry(byTenant, rows[i])];
    forall t | t in next
      ensures next[t].tenant == t && EntryOk(rows[..i + 1], next[t])
    {
      if t != tenant {
        FoldLeavesOthers(rows, i, byTenant[t]);
      }
    }
  }

  lemma NothingCollected(rows: seq<GrantKey>)
    ensures Collected(rows[..0], map[], [])
  {
  }

  lemma AscendingSnoc(order: seq<Id>, x: Id)
    requires Ascending(order) && forall t :: t in order ==> t < x
    ensures Ascending(order + [x])
  {
    forall i, j | 0 <= i < j < |order| + 1
      ensures (order + [x])[i] < (order + [x])[j]
    {
      assert order[i] in order;
    }
  }

  /** Rows collapsed per tenant, in order of tenant. */
  method ListAdminReach(ghost grants: Grants, ghost user: Id, rows: seq<GrantKey>) returns (out: seq<Reach>)
    requires Shaped(grants) && ReachQuery(grants, user, rows)
    ensures forall i, j :: 0 <= i < j < |out| ==> out[i].tenant < out[j].tenant
    ensures forall tenant :: (exists i :: 0 <= i < |out| && out[i].tenant == tenant) <==> SeenTenant(rows, tenant)
    ensures forall i :: 0 <= i < |out| ==> EntryOk(rows, out[i])
  {
    var byTenant: map<Id, Reach> := map[];
    var order: seq<Id> := [];
    var i := 0;
    NothingCollected(rows);
    hide Collected, SeenTenant, EntryOk, Fold, Shaped, ReachQuery, Entry;
    while i < |rows|
      invariant 0 <= i <= |rows| && Collected(rows[..i], byTenant, order)
    {
      var row := rows[i];
      CollectedGrows(grants, user, rows, i, byTenant, order);
      if row.pair.tenant !in byTenant {
        order := order + [row.pair.tenant];
      }
      byTenant := byTenant[row.pair.tenant := Entry(byTenant, row)];
      i := i + 1;
    }
    assert rows[..i] == rows;
    out := InOrder(rows, byTenant, order);
  }

  method InOrder(ghost rows: seq<GrantKey>, byTenant: map<Id, Reach>, order: seq<Id>) returns (out: seq<Reach>)
    requires Collected(rows, byTenant, order)
    ensures forall i, j :: 0 <= i < j < |out| ==> out[i].tenant < out[j].tenant
    ensures forall tenant :: (exists i :: 0 <= i < |out| && out[i].tenant == tenant) <==> SeenTenant(rows, tenant)
    ensures forall i :: 0 <= i < |out| ==> EntryOk(rows, out[i])
  {
    hide SeenTenant, EntryOk;
    out := [];
    var n := 0;
    while n < |order|
      invariant 0 <= n <= |order| && |out| == n
      invariant forall k :: 0 <= k < n ==> out[k].tenant == order[k] && EntryOk(rows, out[k])
    {
      assert order[n] in order;
      out := out + [byTenant[order[n]]];
      n := n + 1;
    }
    forall tenant
      ensures (exists k :: 0 <= k < |out| && out[k].tenant == tenant) <==> SeenTenant(rows, tenant)
    {
      if tenant in order {
        var k :| 0 <= k < |order| && order[k] == tenant;
        assert out[k].tenant == tenant;
      }
      if k :| 0 <= k < |out| && out[k].tenant == tenant {
        assert order[k] in order;
      }
    }
  }

  lemma TenantsGrow(rows: seq<GrantKey>, i: nat)
    requires i < |rows|
    ensures forall t :: SeenTenant(rows[..i + 1], t) <==> SeenTenant(rows[..i], t) || t == rows[i].pair.tenant
  {
  }

  lemma NewTenantIsLarger(grants: Grants, user: Id, rows: seq<GrantKey>, i: nat, order: seq<Id>)
    requires ReachQuery(grants, user, rows) && i < |rows|
    requires forall t :: t in order ==> SeenTenant(rows[..i], t)
    requires !SeenTenant(rows[..i], rows[i].pair.tenant)
    ensures forall t :: t in order ==> t < rows[i].pair.tenant
  {
  }

  /** The role of the first row, which is the owner's if there is one. */
  method HasAdminGrant(ghost grants: Grants, ghost pair: Pair, rows: seq<GrantKey>) returns (role: Option<AdminRole>)
    requires Shaped(grants) && ScopeQuery(grants, pair, rows)
    ensures role.Some? <==> HasReach(grants, pair)
    ensures role == Some(Owner) <==> OwnsByGrant(grants, pair)
  {
    if rows == [] {
      assert forall k :: k !in rows;
      return None;
    }
    assert rows[0] in rows;
    role := Some(rows[0].role);
    if OwnsByGrant(grants, pair) {
      assert GrantKey(pair, Owner, None) in rows;
    }
  }

  /** An owned tenant if there is one, and the first of them; otherwise the first administered. */
  method DefaultAdminTenant(ghost grants: Grants, ghost user: Id, rows: seq<GrantKey>) returns (tenant: Option<Id>)
    requires Shaped(grants) && DefaultQuery(grants, user, rows)
    ensures tenant.None? ==> forall t :: !HasReach(grants, Pair(t, user))
    ensures tenant.Some? ==> HasReach(grants, Pair(tenant.value, user))
    ensures forall t :: OwnsByGrant(grants, Pair(t, user)) ==>
              tenant.Some? && OwnsByGrant(grants, Pair(tenant.value, user)) && tenant.value <= t
    ensures forall t :: HasReach(grants, Pair(t, user)) ==>
              tenant.Some? && (OwnsByGrant(grants, Pair(tenant.value, user)) || tenant.value <= t)
  {
    if rows == [] {
      assert forall k :: k !in rows;
      return None;
    }
    assert rows[0] in rows;
    tenant := Some(rows[0].pair.tenant);
    forall t | OwnsByGrant(grants, Pair(t, user))
      ensures OwnsByGrant(grants, Pair(tenant.value, user)) && tenant.value <= t
    {
      assert GrantKey(Pair(t, user), Owner, None) in rows;
    }
    forall t | HasReach(grants, Pair(t, user))
      ensures OwnsByGrant(grants, Pair(tenant.value, user)) || tenant.value <= t
    {
      var k :| Active(grants, k) && k.pair == Pair(t, user);
      assert k in rows;
    }
  }

  // ---------------------------------------------------------------------------------------
  // The mirror and the authoritative rows give the same answers
  // ---------------------------------------------------------------------------------------

  /** What the authoritative rows say one user may reach in one tenant. */
  ghost predicate ScopeByRows(t: Tables, pair: Pair, scope: AdminScope) {
    match AdminOf(t, pair)
    case None => scope == NoScope
    case Some(a) =>
      if a.activated.None? then scope == NoScope
      else if a.role == Owner then scope == TenantScope
      else scope.AppsScope? && Lists(scope.apps, iset x | x in AppsOf(t, pair))
  }

  /** An activated co-owner of no application, the one case the two models tell apart. */
  predicate Stranded(t: Tables, pair: Pair) {
    AdminOf(t, pair).Some? && AdminOf(t, pair).value.activated.Some? && AdminOf(t, pair).value.role == CoOwner
    && AppsOf(t, pair) == {}
  }

  ghost predicate Agrees(t: Tables, pair: Pair) { AgreesFor(t.grants, pair, AdminOf(t, pair), AppsOf(t, pair)) }

  lemma EmptyOrNot(apps: set<Id>)
    ensures apps == {} || exists a :: a in apps
  {
    if forall a :: a !in apps {
      assert apps <= {};
    }
  }

  lemma AgreementOnReach(t: Tables, pair: Pair)
    requires Agrees(t, pair)
    ensures OwnsByGrant(t.grants, pair) <==>
            AdminOf(t, pair).Some? && AdminOf(t, pair).value.activated.Some? && AdminOf(t, pair).value.role == Owner
    ensures HasReach(t.grants, pair) <==>
            AdminOf(t, pair).Some? && AdminOf(t, pair).value.activated.Some? && !Stranded(t, pair)
  {
    DerivedIsOfPair(pair, AdminOf(t, pair), AppsOf(t, pair));
    var derived := Derived(pair, AdminOf(t, pair), AppsOf(t, pair));
    var admin := AdminOf(t, pair);
    var apps := AppsOf(t, pair);
    assert forall k :: k in t.grants && k.pair == pair ==> k in derived;
    if admin.Some? && admin.value.activated.Some? && admin.value.role == CoOwner {
      EmptyOrNot(apps);
      if a :| a in apps {
        assert GrantKey(pair, CoOwner, Some(a)) in derived;
        assert Active(t.grants, GrantKey(pair, CoOwner, Some(a)));
      }
    }
    if admin.Some? && admin.value.role == Owner {
      assert GrantKey(pair, Owner, None) in derived;
    }
  }

  /** Both models resolve one pair to the same scope exactly when it is not an activated co-owner of nothing. */
  lemma ScopesAgreeIff(t: Tables, pair: Pair, byGrants: AdminScope, byRows: AdminScope)
    requires Agrees(t, pair) && ScopeByGrants(t.grants, pair, byGrants) && ScopeByRows(t, pair, byRows)
    ensures byGrants == byRows <==> !Stranded(t, pair)
  {
    AgreementOnReach(t, pair);
    if byGrants.AppsScope? && byRows.AppsScope? {
      AppsAgree(t, pair);
      ListsAreUnique(byGrants.apps, byRows.apps, GrantedApps(t.grants, pair));
    }
  }

  lemma AppsAgree(t: Tables, pair: Pair)
    requires Agrees(t, pair) && AdminOf(t, pair).Some?
    requires AdminOf(t, pair).value.role == CoOwner && AdminOf(t, pair).value.activated.Some?
    ensures GrantedApps(t.grants, pair) == iset x | x in AppsOf(t, pair)
  {
    var derived := Derived(pair, AdminOf(t, pair), AppsOf(t, pair));
    forall a
      ensures a in GrantedApps(t.grants, pair) <==> a in AppsOf(t, pair)
    {
      var k := GrantKey(pair, CoOwner, Some(a));
      assert k in derived <==> a in AppsOf(t, pair);
      assert k in t.grants && k.pair == pair <==> k in derived;
    }
  }

  /**
   The tenant directory lists a tenant exactly when the user actively administers it, under the row's role and
   applications.
   */
  lemma ListingAgrees(t: Tables, user: Id, rows: seq<GrantKey>, tenant: Id)
    requires Shaped(t.grants) && ReachQuery(t.grants, user, rows)
    requires Agrees(t, Pair(tenant, user)) && !Stranded(t, Pair(tenant, user))
    ensures var admin := AdminOf(t, Pair(tenant, user));
            && (SeenTenant(rows, tenant) <==> admin.Some? && admin.value.activated.Some?)
            && (forall r: Reach :: SeenTenant(rows, tenant) && r.tenant == tenant && EntryOk(rows, r) ==>
                  && r.role == admin.value.role
                  && (r.role == CoOwner ==> Lists(r.apps, iset x | x in AppsOf(t, Pair(tenant, user)))))
  {
    var pair := Pair(tenant, user);
    AgreementOnReach(t, pair);
    RowsOfTenant(t.grants, user, rows, tenant);
    if SeenTenant(rows, tenant) && AdminOf(t, pair).value.role == CoOwner {
      AppsAgree(t, pair);
    }
  }

  lemma RowsOfTenant(grants: Grants, user: Id, rows: seq<GrantKey>, tenant: Id)
    requires Shaped(grants) && ReachQuery(grants, user, rows)
    ensures SeenTenant(rows, tenant) <==> HasReach(grants, Pair(tenant, user))
    ensures SeenOwner(rows, tenant) <==> OwnsByGrant(grants, Pair(tenant, user))
    ensures SeenApps(rows, tenant) == GrantedApps(grants, Pair(tenant, user))
  {
  }
}
