/**
 What holds over every serial run of invitations, grant changes, removals and acceptances: the two
 models of reach agree, ownership neither spreads nor is lost, and the cap is kept.
 */
module TenantAdminRuns {
  import opened Prelude
  import opened AdminGrants
  import opened AdminReach
  import opened TenantAdmins

  datatype Action =
    | DoInvite(i: Invitation)
    | DoSetGrants(tenant: Id, admin: Id, ids: seq<Id>)
    | DoRemove(tenant: Id, admin: Id, actor: Option<Actor>)
    | DoAccept(pair: Pair, at: int, usable: bool)
    | AddApplication(app: Id, tenant: Id)
    | EnableUser(user: Id)
    | DisableUser(user: Id)

  function Attempt(s: State, a: Action): Outcome {
    match a
    case DoInvite(i) => Invite(s, i)
    case DoSetGrants(tenant, admin, ids) => SetGrants(s, tenant, admin, ids)
    case DoRemove(tenant, admin, actor) => Remove(s, tenant, admin, actor)
    case DoAccept(pair, at, usable) => Accept(s, pair, at, usable)
    case AddApplication(app, tenant) => Committed(if app in s.apps then s else s.(apps := s.apps[app := tenant]))
    case EnableUser(user) => Committed(s.(usable := s.usable + {user}))
    case DisableUser(user) => Committed(s.(usable := s.usable - {user}))
  }

  /** A refused transaction rolls back. */
  function Next(s: State, a: Action): State {
    match Attempt(s, a)
    case Committed(t) => t
    case Refused(_) => s
  }

  // ---------------------------------------------------------------------------------------
  // Each transaction changes one pair and mirrors it
  // ---------------------------------------------------------------------------------------

  /** What a transaction leaves just before it calls the mirror. */
  ghost predicate Prepared(a: Tables, b: Tables, pair: Pair) {
    Indexed(b) && Scoped(b) && Capped(b) && ChangesOnly(a, b, pair)
  }

  lemma MirroredKeepsInv(s: State, b: Tables, pair: Pair, s': State)
    requires Inv(s) && Prepared(s.t, b, pair) && s'.t == Remirrored(b, pair)
    ensures Inv(s')
  {
    RemirroringAgrees(s.t, b, pair);
    hide AllAgree, ScopesOf, Mirror;
    assert forall tenant :: LiveAdmins(s'.t, tenant) == LiveAdmins(b, tenant);
  }

  function WithAdmin(t: Tables, pair: Pair, role: AdminRole): Tables {
    var id := t.nextAdmin;
    t.(admins := t.admins[id := Admin(pair, role, None)], byPair := t.byPair[pair := id], nextAdmin := id + 1)
  }

  lemma NewAdminIsCapped(t: Tables, pair: Pair, role: AdminRole)
    requires Indexed(t) && Capped(t) && |LiveAdmins(t, pair.tenant)| < MAX_TENANT_ADMINS
    ensures Capped(WithAdmin(t, pair, role))
  {
    var b := WithAdmin(t, pair, role);
    forall tenant
      ensures |LiveAdmins(b, tenant)| <= MAX_TENANT_ADMINS
    {
      if tenant == pair.tenant {
        assert LiveAdmins(b, tenant) == LiveAdmins(t, tenant) + {t.nextAdmin};
      } else {
        assert LiveAdmins(b, tenant) == LiveAdmins(t, tenant);
      }
    }
  }

  lemma NewAdminIsPrepared(t: Tables, pair: Pair, role: AdminRole, ids: seq<Id>)
    requires Indexed(t) && Scoped(t) && Capped(t) && pair !in t.byPair && (role == CoOwner <==> ids != [])
    requires |LiveAdmins(t, pair.tenant)| < MAX_TENANT_ADMINS
    ensures var b := WithAdmin(t, pair, role);
            Prepared(t, b.(scopes := WithScopes(b.scopes, t.nextAdmin, ids)), pair)
  {
    var id := t.nextAdmin;
    var scopes := WithScopes(t.scopes, id, ids);
    var b := WithAdmin(t, pair, role).(scopes := scopes);
    NewAdminIsCapped(t, pair, role);
    assert Capped(b) by {
      assert forall tenant :: LiveAdmins(b, tenant) == LiveAdmins(WithAdmin(t, pair, role), tenant);
    }
    ScopesAfter(t.scopes, id, ids);
    SameEmptiness(ScopesOf(scopes, id), ids);
    assert forall s :: s in scopes ==> s in t.scopes || s.0 == id;
    hide ScopesOf, LiveAdmins, Capped, WithScopes;
    assert Indexed(b);
  }

  lemma SameEmptiness(apps: set<Id>, ids: seq<Id>)
    requires forall id :: id in apps <==> id in ids
    ensures apps != {} <==> ids != []
  {
    if ids != [] {
      var first := ids[0];
      assert first in ids && first in apps;
    } else {
      assert forall id :: id !in apps;
      assert apps <= {};
    }
  }

  /** An administrator whose role and scopes change; everything else about the tables stays. */
  lemma ChangedAdminIsPrepared(t: Tables, id: Id, row: Admin, scopes: set<(Id, Id)>)
    requires Indexed(t) && Scoped(t) && Capped(t) && id in t.admins && row.pair == t.admins[id].pair
    requires row.role == CoOwner <==> ScopesOf(scopes, id) != {}
    requires forall other :: other != id ==> ScopesOf(scopes, other) == ScopesOf(t.scopes, other)
    ensures Prepared(t, t.(admins := t.admins[id := row], scopes := scopes), row.pair)
  {
    var b := t.(admins := t.admins[id := row], scopes := scopes);
    forall tenant
      ensures |LiveAdmins(b, tenant)| <= MAX_TENANT_ADMINS
    {
      assert LiveAdmins(b, tenant) == LiveAdmins(t, tenant);
    }
    forall s | s in b.scopes
      ensures s.0 < b.nextAdmin
    {
      if s.0 != id {
        assert s == (s.0, s.1) && s.1 in ScopesOf(scopes, s.0);
        assert s in t.scopes;
      }
    }
    hide ScopesOf, LiveAdmins;
  }

  lemma InviteKeepsInv(s: State, i: Invitation)
    requires Inv(s)
    ensures Inv(Next(s, DoInvite(i)))
  {
    var s' := Next(s, DoInvite(i));
    if Invite(s, i).Committed? {
      var user := if i.user.Some? then i.user.value else s.nextUser;
      var pair := Pair(i.tenant, user);
      var u := UpsertTenantAdmin(s.t, pair, i.role);
      var b := u.t.(scopes := WithScopes(u.t.scopes, u.admin, i.ids));
      UpsertIsPrepared(s.t, pair, i.role, i.ids);
      hide Prepared, Remirrored, MayGrant, UpsertTenantAdmin, WithScopes;
      MirroredKeepsInv(s, b, pair, s');
    }
  }

  lemma UpsertIsPrepared(t: Tables, pair: Pair, role: AdminRole, ids: seq<Id>)
    requires Indexed(t) && Scoped(t) && Capped(t) && (role == CoOwner <==> ids != [])
    ensures var u := UpsertTenantAdmin(t, pair, role);
            u.Upserted? ==> Prepared(t, u.t.(scopes := WithScopes(u.t.scopes, u.admin, ids)), pair)
  {
    var u := UpsertTenantAdmin(t, pair, role);
    if u.Upserted? {
      if pair !in t.byPair {
        NewAdminIsPrepared(t, pair, role, ids);
      } else {
        var id := t.byPair[pair];
        var kept := u.t.scopes;
        ScopesAfter(kept, id, ids);
        SameEmptiness(ScopesOf(WithScopes(kept, id, ids), id), ids);
        ScopesOfOthersKept(t.scopes, kept, id);
        hide ScopesOf, WithScopes, LiveAdmins;
        ChangedAdminIsPrepared(t, id, t.admins[id].(role := role), WithScopes(kept, id, ids));
        assert u.t.admins == t.admins[id := t.admins[id].(role := role)];
      }
    }
  }

  lemma ScopesOfOthersKept(before: set<(Id, Id)>, kept: set<(Id, Id)>, id: Id)
    requires kept == before || kept == set s | s in before && s.0 != id
    ensures forall other :: other != id ==> ScopesOf(kept, other) == ScopesOf(before, other)
  {
  }

  lemma SetGrantsKeepsInv(s: State, tenant: Id, admin: Id, ids: seq<Id>)
    requires Inv(s)
    ensures Inv(Next(s, DoSetGrants(tenant, admin, ids)))
  {
    var s' := Next(s, DoSetGrants(tenant, admin, ids));
    if SetGrants(s, tenant, admin, ids).Committed? {
      var scopes := WithScopes(s.t.scopes, admin, ids);
      ScopesAfter(s.t.scopes, admin, ids);
      SameEmptiness(ScopesOf(scopes, admin), ids);
      ChangedAdminIsPrepared(s.t, admin, s.t.admins[admin], scopes);
      assert s.t.admins[admin := s.t.admins[admin]] == s.t.admins;
      hide Prepared, Remirrored, WithScopes;
      MirroredKeepsInv(s, s.t.(scopes := scopes), s.t.admins[admin].pair, s');
    }
  }

  lemma WithoutAdminIsPrepared(t: Tables, admin: Id)
    requires Indexed(t) && Scoped(t) && Capped(t) && admin in t.admins
    ensures Prepared(t, WithoutAdmin(t, admin), t.admins[admin].pair)
  {
    WithoutAdminIsCapped(t, admin);
    WithoutAdminIsIndexed(t, admin);
    WithoutAdminChangesOnly(t, admin);
    hide ScopesOf, LiveAdmins, Capped, Indexed, ChangesOnly;
  }

  lemma WithoutAdminIsIndexed(t: Tables, admin: Id)
    requires Indexed(t) && admin in t.admins
    ensures Indexed(WithoutAdmin(t, admin))
  {
  }

  lemma WithoutAdminChangesOnly(t: Tables, admin: Id)
    requires Indexed(t) && admin in t.admins
    ensures ChangesOnly(t, WithoutAdmin(t, admin), t.admins[admin].pair)
  {
    hide ScopesOf;
  }

  lemma WithoutAdminIsCapped(t: Tables, admin: Id)
    requires Capped(t) && admin in t.admins
    ensures Capped(WithoutAdmin(t, admin))
  {
    var b := WithoutAdmin(t, admin);
    forall tenant
      ensures |LiveAdmins(b, tenant)| <= MAX_TENANT_ADMINS
    {
      SubsetIsSmaller(LiveAdmins(b, tenant), LiveAdmins(t, tenant));
    }
  }

  lemma RemoveKeepsInv(s: State, tenant: Id, admin: Id, actor: Option<Actor>)
    requires Inv(s)
    ensures Inv(Next(s, DoRemove(tenant, admin, actor)))
  {
    var s' := Next(s, DoRemove(tenant, admin, actor));
    if Remove(s, tenant, admin, actor).Committed? {
      WithoutAdminIsPrepared(s.t, admin);
      hide Prepared, Remirrored, WithoutAdmin, MayRemove, SomeUsable;
      MirroredKeepsInv(s, WithoutAdmin(s.t, admin), s.t.admins[admin].pair, s');
    }
  }

  lemma AcceptKeepsInv(s: State, pair: Pair, at: int, usable: bool)
    requires Inv(s)
    ensures Inv(Next(s, DoAccept(pair, at, usable)))
  {
    var s' := Next(s, DoAccept(pair, at, usable));
    if Accept(s, pair, at, usable).Committed? {
      var id := s.t.byPair[pair];
      var row := s.t.admins[id];
      var row' := if row.activated.Some? then row else row.(activated := Some(at));
      ChangedAdminIsPrepared(s.t, id, row', s.t.scopes);
      assert s.t.admins[id := row] == s.t.admins;
      hide Prepared, Remirrored;
      MirroredKeepsInv(s, s.t.(admins := s.t.admins[id := row']), pair, s');
    }
  }

  lemma StepKeepsInv(s: State, a: Action)
    requires Inv(s)
    ensures Inv(Next(s, a))
  {
    hide Invite, SetGrants, Remove, Accept;
    match a
    case DoInvite(i) => InviteKeepsInv(s, i);
    case DoSetGrants(tenant, admin, ids) => SetGrantsKeepsInv(s, tenant, admin, ids);
    case DoRemove(tenant, admin, actor) => RemoveKeepsInv(s, tenant, admin, actor);
    case DoAccept(pair, at, usable) => AcceptKeepsInv(s, pair, at, usable);
    case _ =>
  }

  // ---------------------------------------------------------------------------------------
  // Whole runs
  // ---------------------------------------------------------------------------------------

  function After(s: State, acts: seq<Action>): State
    decreases |acts|
  {
    if acts == [] then s else After(Next(s, acts[0]), acts[1..])
  }

  function Start(apps: map<Id, Id>, usable: set<Id>, nextUser: Id): State {
    State(Tables(map[], map[], 0, {}, map[]), apps, usable, nextUser)
  }

  lemma StartIsOk(apps: map<Id, Id>, usable: set<Id>, nextUser: Id)
    ensures Inv(Start(apps, usable, nextUser))
  {
  }

  lemma {:induction false} RunKeepsInv(s: State, acts: seq<Action>)
    requires Inv(s)
    ensures Inv(After(s, acts))
    decreases |acts|
  {
    hide Inv, Next;
    if acts != [] {
      StepKeepsInv(s, acts[0]);
      RunKeepsInv(Next(s, acts[0]), acts[1..]);
    }
  }

  /**
   After any run no tenant has more than twenty-five live administrators, the mirror agrees with the
   administrator rows for every user and tenant, and both resolve every pair to the same scope.
   */
  lemma EveryRun(
    apps: map<Id, Id>, usable: set<Id>, nextUser: Id, acts: seq<Action>, pair: Pair, byGrants: AdminScope,
    byRows: AdminScope)
    ensures var t := After(Start(apps, usable, nextUser), acts).t;
            && |LiveAdmins(t, pair.tenant)| <= 25
            && Shaped(t.grants) && Agrees(t, pair) && !Stranded(t, pair)
            && (ScopeByGrants(t.grants, pair, byGrants) && ScopeByRows(t, pair, byRows) ==> byGrants == byRows)
  {
    var s := After(Start(apps, usable, nextUser), acts);
    StartIsOk(apps, usable, nextUser);
    RunKeepsInv(Start(apps, usable, nextUser), acts);
    AgreementIsShaped(s.t);
    NobodyIsStranded(s, pair);
    if ScopeByGrants(s.t.grants, pair, byGrants) && ScopeByRows(s.t, pair, byRows) {
      ScopesAgreeIff(s.t, pair, byGrants, byRows);
    }
  }

  // ---------------------------------------------------------------------------------------
  // Ownership neither spreads nor is lost
  // ---------------------------------------------------------------------------------------

  predicate Owns(s: State, pair: Pair) { AdminOf(s.t, pair).Some? && AdminOf(s.t, pair).value.role == Owner }

  predicate ActivelyOwns(t: Tables, pair: Pair) {
    AdminOf(t, pair).Some? && AdminOf(t, pair).value.role == Owner && AdminOf(t, pair).value.activated.Some?
  }

  predicate ActiveOwner(s: State, pair: Pair) { ActivelyOwns(s.t, pair) }

  /** An action no platform administrator, and no caller with authority of its own, takes. */
  predicate Ordinary(a: Action) {
    && (a.DoInvite? ==> a.i.actor.Some? && !a.i.actor.value.platform)
    && (a.DoRemove? ==> a.actor.Some? && !a.actor.value.platform)
  }

  lemma RoleByGrant(t: Tables, pair: Pair)
    requires Agrees(t, pair)
    ensures GrantRoleInTenant(t.grants, pair) == Some(Owner) <==> ActivelyOwns(t, pair)
  {
    AgreementOnReach(t, pair);
    DerivedIsOfPair(pair, AdminOf(t, pair), AppsOf(t, pair));
    assert Active(t.grants, GrantKey(pair, Owner, None)) ==> GrantKey(pair, Owner, None) in t.grants;
  }

  /**
   Who may grant: the platform tier anything, an activated owner of the tenant co-ownership, and nobody to
   an account known to be their own.
   */
  lemma MayGrantIff(t: Tables, actor: Actor, tenant: Id, target: Option<Id>, role: AdminRole)
    requires AllAgree(t)
    ensures MayGrant(t.grants, actor, tenant, target, role).None? <==>
            target != Some(actor.user)
            && (actor.platform || (ActivelyOwns(t, Pair(tenant, actor.user)) && role == CoOwner))
  {
    AgreesAt(t, Pair(tenant, actor.user));
    RoleByGrant(t, Pair(tenant, actor.user));
    hide AllAgree, GrantRoleInTenant;
  }

  ghost predicate SameGrant(a: Tables, b: Tables, pair: Pair) {
    AdminOf(b, pair) == AdminOf(a, pair) && AppsOf(b, pair) == AppsOf(a, pair)
  }

  lemma ScopesAreNamed(scopes: set<(Id, Id)>, admin: Id, ids: seq<Id>)
    ensures ScopesOf(WithScopes(scopes, admin, ids), admin) == Elements(ids)
  {
    ScopesAfter(scopes, admin, ids);
    var named := ScopesOf(WithScopes(scopes, admin, ids), admin);
    hide WithScopes, ScopesOf;
    forall id
      ensures id in named <==> id in Elements(ids)
    {
    }
  }

  lemma UpsertOwn(t: Tables, pair: Pair, role: AdminRole, ids: seq<Id>)
    requires Indexed(t) && UpsertTenantAdmin(t, pair, role).Upserted?
    ensures var u := UpsertTenantAdmin(t, pair, role);
            var b := u.t.(scopes := WithScopes(u.t.scopes, u.admin, ids));
            && AppsOf(b, pair) == Elements(ids) && AdminOf(b, pair).Some? && AdminOf(b, pair).value.role == role
            && (AdminOf(t, pair).Some? && AdminOf(t, pair).value.role == role ==> AdminOf(b, pair) == AdminOf(t, pair))
  {
    var u := UpsertTenantAdmin(t, pair, role);
    ScopesAreNamed(u.t.scopes, u.admin, ids);
    hide WithScopes, ScopesOf, LiveAdmins;
  }

  lemma UpsertOther(t: Tables, pair: Pair, role: AdminRole, ids: seq<Id>, other: Pair)
    requires Indexed(t) && UpsertTenantAdmin(t, pair, role).Upserted? && other != pair
    ensures var u := UpsertTenantAdmin(t, pair, role);
            SameGrant(t, u.t.(scopes := WithScopes(u.t.scopes, u.admin, ids)), other)
  {
    var u := UpsertTenantAdmin(t, pair, role);
    ScopesAfter(u.t.scopes, u.admin, ids);
    ScopesOfOthersKept(t.scopes, u.t.scopes, u.admin);
    hide WithScopes, ScopesOf, LiveAdmins;
  }

  /**
   An invitation names an address, so the rule against changing one's own grant is not asked: the
   inviter's own grant stays as it is exactly when the address is another's, or the invitation says
   what the grant says already.
   */
  lemma OwnGrantKeptIff(s: State, i: Invitation)
    requires Inv(s) && i.actor.Some? && i.actor.value.user < s.nextUser && Invite(s, i).Committed?
    ensures var own := Pair(i.tenant, i.actor.value.user);
            SameGrant(s.t, Invite(s, i).s.t, own) <==>
            i.user != Some(i.actor.value.user)
            || (AdminOf(s.t, own).Some? && AdminOf(s.t, own).value.role == i.role && AppsOf(s.t, own) == Elements(i.ids))
  {
    var pair := Pair(i.tenant, if i.user.Some? then i.user.value else s.nextUser);
    var own := Pair(i.tenant, i.actor.value.user);
    var u := UpsertTenantAdmin(s.t, pair, i.role);
    var b := u.t.(scopes := WithScopes(u.t.scopes, u.admin, i.ids));
    assert Invite(s, i).s.t == Remirrored(b, pair);
    MirrorOnly(b, pair, own);
    if i.user == Some(i.actor.value.user) {
      UpsertOwn(s.t, pair, i.role, i.ids);
    } else {
      UpsertOther(s.t, pair, i.role, i.ids, own);
    }
    hide Invite, Inv, Remirrored, UpsertTenantAdmin, WithScopes, AdminOf, AppsOf, Elements;
  }

  lemma MirrorOnly(b: Tables, pair: Pair, own: Pair)
    ensures SameGrant(b, Remirrored(b, pair), own)
  {
  }

  /** Only the platform tier can change its own grant that way. */
  lemma OwnersKeepOwnGrant(s: State, i: Invitation)
    requires Inv(s) && i.actor.Some? && i.actor.value.user < s.nextUser && Invite(s, i).Committed?
    requires !i.actor.value.platform
    ensures SameGrant(s.t, Invite(s, i).s.t, Pair(i.tenant, i.actor.value.user))
  {
    OwnGrantKeptIff(s, i);
    MayGrantIff(s.t, i.actor.value, i.tenant, None, i.role);
    hide Mirror, AllAgree, Capped, LiveAdmins, MayGrant, ScopesChange, AllInTenant, WithScopes, ScopesOf;
  }

  const APPOINT := Invitation(1, Some(5), CoOwner, [7], None, false, false)
  const SELF := Invitation(1, Some(5), Owner, [], Some(Actor(5, true)), false, false)
  const APPOINTED := Next(Start(map[7 := 1], {5}, 6), DoInvite(APPOINT))

  /** A platform administrator who is a co-owner of a tenant makes itself an owner of it by inviting its own address. */
  lemma SelfInvitePromotes()
    ensures Inv(APPOINTED) && AdminOf(APPOINTED.t, Pair(1, 5)) == Some(Admin(Pair(1, 5), CoOwner, None))
    ensures MayGrant(APPOINTED.t.grants, Actor(5, true), 1, Some(5), Owner) == Some(CannotModifyOwnGrant)
    ensures AdminOf(Next(APPOINTED, DoInvite(SELF)).t, Pair(1, 5)) == Some(Admin(Pair(1, 5), Owner, None))
  {
    StartIsOk(map[7 := 1], {5}, 6);
    StepKeepsInv(Start(map[7 := 1], {5}, 6), DoInvite(APPOINT));
    AppointedStands();
    hide Mirror, Inv, LiveAdmins, AllInTenant, WithScopes, Start;
    var s := APPOINTED;
    assert Invite(s, SELF).Committed?;
  }

  lemma AppointedStands()
    ensures var t := APPOINTED.t;
            && t.byPair == map[Pair(1, 5) := 0] && t.admins == map[0 := Admin(Pair(1, 5), CoOwner, None)]
  {
    hide Mirror;
    assert (set id | id in [7] && id in map[7 := 1] && map[7 := 1][id] == 1) == {7};
    assert LiveAdmins(Start(map[7 := 1], {5}, 6).t, 1) == {};
  }

  /** Who may remove whom: the platform tier anybody else, an activated owner anybody else who is not one. */
  lemma MayRemoveIff(t: Tables, actor: Actor, tenant: Id, target: Id)
    requires AllAgree(t)
    ensures MayRemove(t.grants, actor, tenant, target).None? <==>
            actor.user != target
            && (actor.platform || (ActivelyOwns(t, Pair(tenant, actor.user)) && !ActivelyOwns(t, Pair(tenant, target))))
  {
    AgreesAt(t, Pair(tenant, actor.user));
    AgreesAt(t, Pair(tenant, target));
    RoleByGrant(t, Pair(tenant, actor.user));
    RoleByGrant(t, Pair(tenant, target));
    hide AllAgree, GrantRoleInTenant;
  }

  lemma OrdinaryStep(s: State, a: Action, pair: Pair)
    requires Inv(s) && Ordinary(a)
    ensures Owns(Next(s, a), pair) ==> Owns(s, pair)
    ensures ActiveOwner(s, pair) ==> ActiveOwner(Next(s, a), pair)
  {
    if a.DoRemove? {
      OrdinaryRemoval(s, a.tenant, a.admin, a.actor, pair);
    } else {
      OrdinaryWrite(s, a, pair);
    }
  }

  lemma OrdinaryWrite(s: State, a: Action, pair: Pair)
    requires Inv(s) && Ordinary(a) && !a.DoRemove?
    ensures Owns(Next(s, a), pair) ==> Owns(s, pair)
    ensures ActiveOwner(s, pair) ==> ActiveOwner(Next(s, a), pair)
  {
    hide Mirror, ScopesOf, LiveAdmins, AllAgree, Capped, Scoped;
    hide GrantRoleInTenant, ScopesChange, WithScopes, AllInTenant, Remove;
  }

  lemma OrdinaryRemoval(s: State, tenant: Id, admin: Id, actor: Option<Actor>, pair: Pair)
    requires Inv(s) && actor.Some? && !actor.value.platform
    ensures Owns(Next(s, DoRemove(tenant, admin, actor)), pair) ==> Owns(s, pair)
    ensures ActiveOwner(s, pair) ==> ActiveOwner(Next(s, DoRemove(tenant, admin, actor)), pair)
  {
    hide Mirror, ScopesOf, LiveAdmins, AllAgree, Capped, Scoped;
    if Remove(s, tenant, admin, actor).Committed? {
      AgreesAt(s.t, s.t.admins[admin].pair);
      RoleByGrant(s.t, s.t.admins[admin].pair);
      hide GrantRoleInTenant, SomeUsable;
      assert pair != s.t.admins[admin].pair ==> AdminOf(Next(s, DoRemove(tenant, admin, actor)).t, pair) == AdminOf(s.t, pair);
    }
  }

  lemma AgreesAt(t: Tables, pair: Pair)
    requires AllAgree(t)
    ensures Agrees(t, pair)
  {
  }

  /** Without the platform tier nobody becomes an owner, and nobody who accepted ownership stops being one. */
  lemma {:induction false} OrdinaryRunsKeepOwners(s: State, acts: seq<Action>, pair: Pair)
    requires Inv(s) && forall k :: 0 <= k < |acts| ==> Ordinary(acts[k])
    ensures Owns(After(s, acts), pair) ==> Owns(s, pair)
    ensures ActiveOwner(s, pair) ==> ActiveOwner(After(s, acts), pair)
    decreases |acts|
  {
    hide Inv, Next, Owns, ActiveOwner, Ordinary;
    if acts != [] {
      StepKeepsInv(s, acts[0]);
      OrdinaryStep(s, acts[0], pair);
      OrdinaryRunsKeepOwners(Next(s, acts[0]), acts[1..], pair);
    }
  }

  /** Only an account being disabled can cost a tenant its last usable owner, or its last usable administrator. */
  lemma UsableStep(s: State, a: Action, tenant: Id, role: Option<AdminRole>)
    requires Inv(s) && !a.DisableUser? && (role == Some(Owner) || role == None)
    requires SomeUsable(s, tenant, role)
    ensures SomeUsable(Next(s, a), tenant, role)
  {
    hide Mirror, ScopesOf, LiveAdmins, AllAgree, Capped, Scoped, GrantRoleInTenant;
    var id :| id in s.t.admins && UsableAs(s, id, tenant, role);
    if a.DoRemove? {
      RemoveLeavesUsable(s, a.tenant, a.admin, a.actor, tenant, role, id);
    } else {
      UsableStays(s, a, tenant, role, id);
    }
  }

  lemma UsableStays(s: State, a: Action, tenant: Id, role: Option<AdminRole>, id: Id)
    requires Inv(s) && !a.DisableUser? && !a.DoRemove? && (role == Some(Owner) || role == None)
    requires UsableAs(s, id, tenant, role)
    ensures id in Next(s, a).t.admins && UsableAs(Next(s, a), id, tenant, role)
  {
    hide Mirror, ScopesOf, LiveAdmins, AllAgree, Capped, Scoped, GrantRoleInTenant, AllInTenant, WithScopes, ScopesChange, MayGrant;
  }

  lemma RemoveLeavesUsable(s: State, t: Id, admin: Id, actor: Option<Actor>, tenant: Id, role: Option<AdminRole>, id: Id)
    requires Inv(s) && (role == Some(Owner) || role == None) && UsableAs(s, id, tenant, role)
    ensures SomeUsable(Next(s, DoRemove(t, admin, actor)), tenant, role)
  {
    hide Mirror, ScopesOf, LiveAdmins, AllAgree, Capped, Scoped, MayRemove;
    var s' := Next(s, DoRemove(t, admin, actor));
    if Remove(s, t, admin, actor).Refused? || id != admin {
      assert id in s'.t.admins && UsableAs(s', id, tenant, role);
    } else {
      assert s.t.admins[id].role == Owner ==> SomeUsable(s', tenant, Some(Owner));
      if other :| other in s'.t.admins && UsableAs(s', other, tenant, Some(Owner)) {
        assert UsableAs(s', other, tenant, role);
      }
    }
  }

  /**
   A tenant with a usable owner keeps one, and a tenant with a usable administrator keeps one, through any run
   that disables no account.
   */
  lemma {:induction false} RunsKeepUsable(s: State, acts: seq<Action>, tenant: Id, role: Option<AdminRole>)
    requires Inv(s) && (role == Some(Owner) || role == None) && SomeUsable(s, tenant, role)
    requires forall k :: 0 <= k < |acts| ==> !acts[k].DisableUser?
    ensures SomeUsable(After(s, acts), tenant, role)
    decreases |acts|
  {
    hide Inv, Next, SomeUsable;
    if acts != [] {
      StepKeepsInv(s, acts[0]);
      UsableStep(s, acts[0], tenant, role);
      RunsKeepUsable(Next(s, acts[0]), acts[1..], tenant, role);
    }
  }
}
