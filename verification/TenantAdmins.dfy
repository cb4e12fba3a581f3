/**
 Inviting, re-scoping and removing tenant administrators, each a transaction that commits as a
 whole or not at all, and the rules that decide who may do which.
 */
module TenantAdmins {
  import opened Prelude
  import opened AdminGrants
  import opened AdminReach

  const MAX_TENANT_ADMINS := 25

  /** `apps` gives each application its tenant; `usable` holds the users who can sign in at all. */
  datatype State = State(t: Tables, apps: map<Id, Id>, usable: set<Id>, nextUser: Id)

  datatype Actor = Actor(user: Id, platform: bool)

  datatype Refusal =
    | GrantsForOwner | GrantsRequired | UnknownApplication
    | CannotModifyOwnGrant | OwnerCannotGrantOwnership | OwnerCannotRemoveOwner | ForbiddenGrantWrite
    | TooManyAdmins | InviteWouldDemote | AlreadyAdmin | InviteCooldown | NotFound | LastOwner

  datatype Outcome = Committed(s: State) | Refused(why: Refusal)

  // ---------------------------------------------------------------------------------------
  // Escalation rules
  // ---------------------------------------------------------------------------------------

  /** A user's activated role in a tenant, an owner row winning over any other. */
  function GrantRoleInTenant(grants: Grants, pair: Pair): Option<AdminRole> {
    if exists k :: k in grants && k.pair == pair && k.role == Owner && grants[k].Some? then Some(Owner)
    else if exists k :: k in grants && k.pair == pair && grants[k].Some? then Some(CoOwner)
    else None
  }

  /** `target` is absent where the recipient may have no account yet. */
  function MayGrant(grants: Grants, actor: Actor, tenant: Id, target: Option<Id>, role: AdminRole): Option<Refusal> {
    if target == Some(actor.user) then Some(CannotModifyOwnGrant)
    else if actor.platform then None
    else match GrantRoleInTenant(grants, Pair(tenant, actor.user))
      case Some(Owner) => if role != CoOwner then Some(OwnerCannotGrantOwnership) else None
      case _ => Some(ForbiddenGrantWrite)
  }

  function MayRemove(grants: Grants, actor: Actor, tenant: Id, target: Id): Option<Refusal> {
    if actor.user == target then Some(CannotModifyOwnGrant)
    else if actor.platform then None
    else if GrantRoleInTenant(grants, Pair(tenant, actor.user)) != Some(Owner) then Some(ForbiddenGrantWrite)
    else if GrantRoleInTenant(grants, Pair(tenant, target)) == Some(Owner) then Some(OwnerCannotRemoveOwner)
    else None
  }

  // ---------------------------------------------------------------------------------------
  // The pieces of a transaction
  // ---------------------------------------------------------------------------------------

  /** Every named application belongs to the tenant, and none is named twice. */
  predicate AllInTenant(apps: map<Id, Id>, tenant: Id, ids: seq<Id>) {
    |set id | id in ids && id in apps && apps[id] == tenant| == |ids|
  }

  function LiveAdmins(t: Tables, tenant: Id): set<Id> {
    set id | id in t.admins && t.admins[id].pair.tenant == tenant
  }

  datatype Upserted = Upserted(t: Tables, admin: Id, existed: bool) | NotUpserted(why: Refusal)

  /** A new pending administrator, a promotion, or nothing; never a demotion. */
  function UpsertTenantAdmin(t: Tables, pair: Pair, role: AdminRole): Upserted {
    if pair !in t.byPair || t.byPair[pair] !in t.admins then
      if |LiveAdmins(t, pair.tenant)| >= MAX_TENANT_ADMINS then NotUpserted(TooManyAdmins)
      else
        var id := t.nextAdmin;
        Upserted(t.(admins := t.admins[id := Admin(pair, role, None)], byPair := t.byPair[pair := id], nextAdmin := id + 1),
                 id, false)
    else
      var id := t.byPair[pair];
      var existing := t.admins[id].role;
      if existing == Owner && role == CoOwner then NotUpserted(InviteWouldDemote)
      else if existing != role then
        // The promotion trigger takes the co-owner's applications away.
        Upserted(t.(admins := t.admins[id := t.admins[id].(role := role)], scopes := set s | s in t.scopes && s.0 != id), id, false)
      else Upserted(t, id, true)
  }

  function WithScopes(scopes: set<(Id, Id)>, admin: Id, ids: seq<Id>): set<(Id, Id)> {
    (set s | s in scopes && (s.0 == admin ==> s.1 in ids)) + (set id | id in ids :: (admin, id))
  }

  predicate ScopesChange(scopes: set<(Id, Id)>, admin: Id, ids: seq<Id>) {
    |ScopesOf(scopes, admin)| != |ids| || exists id :: id in ScopesOf(scopes, admin) && id !in ids
  }

  function Remirrored(t: Tables, pair: Pair): Tables {
    t.(grants := Mirror(t.grants, pair, AdminOf(t, pair), AppsOf(t, pair)))
  }

  predicate UsableAs(s: State, id: Id, tenant: Id, role: Option<AdminRole>) {
    && id in s.t.admins && s.t.admins[id].pair.tenant == tenant
    && (role.Some? ==> s.t.admins[id].role == role.value)
    && s.t.admins[id].activated.Some? && s.t.admins[id].pair.user in s.usable
  }

  /** Somebody of the tier, or of either, who accepted and can sign in. */
  predicate SomeUsable(s: State, tenant: Id, role: Option<AdminRole>) {
    exists id :: id in s.t.admins && UsableAs(s, id, tenant, role)
  }

  // ---------------------------------------------------------------------------------------
  // The transactions
  // ---------------------------------------------------------------------------------------

  /**
   `user` is the account found for the address, if there is one; `pending` and `recent` are what the
   invitation table says of it.  Without an actor the caller has established its own authority.
   */
  datatype Invitation = Invitation(
    tenant: Id, user: Option<Id>, role: AdminRole, ids: seq<Id>, actor: Option<Actor>, pending: bool, recent: bool)

  function Invite(s: State, i: Invitation): Outcome {
    if i.role == Owner && i.ids != [] then Refused(GrantsForOwner)
    else if i.role == CoOwner && i.ids == [] then Refused(GrantsRequired)
    else if i.ids != [] && !AllInTenant(s.apps, i.tenant, i.ids) then Refused(UnknownApplication)
    else if i.actor.Some? && MayGrant(s.t.grants, i.actor.value, i.tenant, None, i.role).Some? then
      Refused(MayGrant(s.t.grants, i.actor.value, i.tenant, None, i.role).value)
    else
      var user := if i.user.Some? then i.user.value else s.nextUser;
      var pair := Pair(i.tenant, user);
      match UpsertTenantAdmin(s.t, pair, i.role)
      case NotUpserted(why) => Refused(why)
      case Upserted(t, admin, existed) =>
        var changed := ScopesChange(t.scopes, admin, i.ids);
        var t' := Remirrored(t.(scopes := WithScopes(t.scopes, admin, i.ids)), pair);
        if existed && !changed && i.user.Some? && !i.pending then Refused(AlreadyAdmin)
        else if existed && !changed && i.user.Some? && i.recent then Refused(InviteCooldown)
        else Committed(s.(t := t', nextUser := if i.user.Some? then s.nextUser else s.nextUser + 1))
  }

  function SetGrants(s: State, tenant: Id, admin: Id, ids: seq<Id>): Outcome {
    if ids == [] then Refused(GrantsRequired)
    else if !AllInTenant(s.apps, tenant, ids) then Refused(UnknownApplication)
    else if admin !in s.t.admins || s.t.admins[admin].pair.tenant != tenant then Refused(NotFound)
    else if s.t.admins[admin].role == Owner then Refused(GrantsForOwner)
    else Committed(s.(t := Remirrored(s.t.(scopes := WithScopes(s.t.scopes, admin, ids)), s.t.admins[admin].pair)))
  }

  function WithoutAdmin(t: Tables, admin: Id): Tables
    requires admin in t.admins
  {
    t.(admins := t.admins - {admin}, byPair := t.byPair - {t.admins[admin].pair})
  }

  function Remove(s: State, tenant: Id, admin: Id, actor: Option<Actor>): Outcome {
    if admin !in s.t.admins || s.t.admins[admin].pair.tenant != tenant then Refused(NotFound)
    else
      var row := s.t.admins[admin];
      if actor.Some? && MayRemove(s.t.grants, actor.value, tenant, row.pair.user).Some? then
        Refused(MayRemove(s.t.grants, actor.value, tenant, row.pair.user).value)
      else
        var s' := s.(t := Remirrored(WithoutAdmin(s.t, admin), row.pair));
        if row.role == Owner && !SomeUsable(s', tenant, Some(Owner)) then Refused(LastOwner)
        else if row.role == CoOwner && row.activated.Some? && !SomeUsable(s', tenant, None) then Refused(LastOwner)
        else Committed(s')
  }

  /** Accepting an invitation stamps the row and derives the mirror again; the account may become usable by it. */
  function Accept(s: State, pair: Pair, at: int, usable: bool): Outcome {
    if pair !in s.t.byPair || s.t.byPair[pair] !in s.t.admins then Refused(NotFound)
    else
      var id := s.t.byPair[pair];
      var row := s.t.admins[id];
      var t := if row.activated.Some? then s.t else s.t.(admins := s.t.admins[id := row.(activated := Some(at))]);
      Committed(s.(t := Remirrored(t, pair), usable := if usable then s.usable + {pair.user} else s.usable))
  }

  // ---------------------------------------------------------------------------------------
  // What every transaction keeps
  // ---------------------------------------------------------------------------------------

  ghost predicate Indexed(t: Tables) {
    && (forall p :: p in t.byPair ==> t.byPair[p] in t.admins && t.admins[t.byPair[p]].pair == p)
    && (forall id :: id in t.admins ==>
          id < t.nextAdmin && t.admins[id].pair in t.byPair && t.byPair[t.admins[id].pair] == id)
    && (forall s :: s in t.scopes ==> s.0 < t.nextAdmin)
  }

  /** Owners hold no application, co-owners at least one. */
  ghost predicate Scoped(t: Tables) {
    forall id :: id in t.admins ==> (t.admins[id].role == CoOwner <==> ScopesOf(t.scopes, id) != {})
  }

  ghost predicate AllAgree(t: Tables) { forall pair :: Agrees(t, pair) }

  ghost predicate Capped(t: Tables) { forall tenant :: |LiveAdmins(t, tenant)| <= MAX_TENANT_ADMINS }

  ghost predicate Inv(s: State) { Indexed(s.t) && Scoped(s.t) && AllAgree(s.t) && Capped(s.t) }

  /** Only `pair`'s own row and scopes differ; the mirror has not been touched. */
  ghost predicate ChangesOnly(a: Tables, b: Tables, pair: Pair) {
    && b.grants == a.grants
    && forall p :: p != pair ==> AdminOf(b, p) == AdminOf(a, p) && AppsOf(b, p) == AppsOf(a, p)
  }

  /** After such a change one call of the mirror restores agreement everywhere. */
  lemma RemirroringAgrees(a: Tables, b: Tables, pair: Pair)
    requires AllAgree(a) && ChangesOnly(a, b, pair)
    ensures AllAgree(Remirrored(b, pair))
  {
    var t := Remirrored(b, pair);
    MirrorAgrees(b.grants, pair, AdminOf(b, pair), AppsOf(b, pair));
    forall p
      ensures Agrees(t, p)
    {
      assert AdminOf(t, p) == AdminOf(b, p) && AppsOf(t, p) == AppsOf(b, p);
      if p != pair {
        assert Agrees(a, p);
        DerivedIsOfPair(p, AdminOf(b, p), AppsOf(b, p));
      }
    }
  }

  /** The mirror's rows have the shape its CHECK demands, because the derivation has it. */
  lemma AgreementIsShaped(t: Tables)
    requires AllAgree(t)
    ensures Shaped(t.grants)
  {
    forall k | k in t.grants
      ensures k.role == Owner <==> k.app.None?
    {
      assert Agrees(t, k.pair);
      assert k in Derived(k.pair, AdminOf(t, k.pair), AppsOf(t, k.pair));
    }
  }

  lemma NobodyIsStranded(s: State, pair: Pair)
    requires Inv(s)
    ensures !Stranded(s.t, pair)
  {
  }

  lemma ScopesAfter(scopes: set<(Id, Id)>, admin: Id, ids: seq<Id>)
    ensures forall id :: id in ScopesOf(WithScopes(scopes, admin, ids), admin) <==> id in ids
    ensures forall other :: other != admin ==> ScopesOf(WithScopes(scopes, admin, ids), other) == ScopesOf(scopes, other)
  {
  }

  // ---------------------------------------------------------------------------------------
  // Counting named applications
  // ---------------------------------------------------------------------------------------

  predicate NoneTwice(ids: seq<Id>) { forall i, j :: 0 <= i < j < |ids| ==> ids[i] != ids[j] }

  function Elements(ids: seq<Id>): set<Id> { set id | id in ids }

  lemma {:induction false} CountOfElements(ids: seq<Id>)
    ensures |Elements(ids)| <= |ids|
    ensures |Elements(ids)| == |ids| <==> NoneTwice(ids)
  {
    if ids == [] {
      assert Elements(ids) == {};
    } else {
      var n := |ids| - 1;
      var last := ids[n];
      CountOfElements(ids[..n]);
      assert ids == ids[..n] + [last];
      assert Elements(ids) == Elements(ids[..n]) + {last};
      if last in ids[..n] {
        assert Elements(ids) == Elements(ids[..n]);
        var k :| 0 <= k < n && ids[..n][k] == last;
        assert ids[k] == ids[n];
      } else {
        assert forall k :: 0 <= k < n ==> ids[k] == ids[..n][k];
        assert forall k :: 0 <= k < n ==> ids[..n][k] in ids[..n];
        assert NoneTwice(ids[..n]) <==> NoneTwice(ids);
      }
    }
  }

  /** The count in the query decides that every application is the tenant's and that none is named twice. */
  lemma AllInTenantIff(apps: map<Id, Id>, tenant: Id, ids: seq<Id>)
    ensures AllInTenant(apps, tenant, ids) <==>
            NoneTwice(ids) && forall id :: id in ids ==> id in apps && apps[id] == tenant
  {
    var found := set id | id in ids && id in apps && apps[id] == tenant;
    CountOfElements(ids);
    SubsetIsSmaller(found, Elements(ids));
    if forall id :: id in ids ==> id in apps && apps[id] == tenant {
      assert found == Elements(ids);
    }
    if found == Elements(ids) {
      assert forall id :: id in ids ==> id in Elements(ids);
    }
  }

  /** Among such lists, a change is reported exactly when the set of applications differs. */
  lemma ScopesChangeIff(scopes: set<(Id, Id)>, admin: Id, ids: seq<Id>)
    requires NoneTwice(ids)
    ensures ScopesChange(scopes, admin, ids) <==> ScopesOf(scopes, admin) != Elements(ids)
  {
    CountOfElements(ids);
    var before := ScopesOf(scopes, admin);
    if forall id :: id in before ==> id in ids {
      SubsetIsSmaller(before, Elements(ids));
    }
  }
}
