/**
 When each administration transaction commits, in terms of the administrator rows, and what it
 leaves: the pair it is about as it was asked for, and every other pair as it was.
 */
module TenantAdminEffects {
  import opened Prelude
  import opened AdminGrants
  import opened AdminReach
  import opened TenantAdmins
  import opened TenantAdminRuns

  /** Every other pair keeps its row, its applications and its grants. */
  ghost predicate OthersUntouched(s: State, t: State, pair: Pair) {
    && t.apps == s.apps
    && (forall p :: p != pair ==> SameGrant(s.t, t.t, p))
    && (forall k: GrantKey :: k.pair != pair ==>
          (k in t.t.grants <==> k in s.t.grants) && (k in s.t.grants ==> t.t.grants[k] == s.t.grants[k]))
  }

  /** One change of a pair's row or scopes and one call of the mirror. */
  lemma MirroredAlone(s: State, b: Tables, pair: Pair, t: State)
    requires ChangesOnly(s.t, b, pair) && t.t == Remirrored(b, pair) && t.apps == s.apps
    ensures OthersUntouched(s, t, pair)
    ensures AdminOf(t.t, pair) == AdminOf(b, pair) && AppsOf(t.t, pair) == AppsOf(b, pair)
  {
    MirrorAgrees(b.grants, pair, AdminOf(b, pair), AppsOf(b, pair));
    hide Mirror, ScopesOf;
    assert t.t == b.(grants := t.t.grants);
  }

  // ---------------------------------------------------------------------------------------
  // Removing
  // ---------------------------------------------------------------------------------------

  /** An administrator of the tenant, and of the tier where one is asked for, who accepted and can sign in. */
  predicate UsableRow(s: State, row: Admin, tenant: Id, role: Option<AdminRole>) {
    row.pair.tenant == tenant && (role.None? || role == Some(row.role)) && row.activated.Some? && row.pair.user in s.usable
  }

  /** Somebody usable of the tier who is not `admin`. */
  ghost predicate AnotherUsable(s: State, admin: Id, tenant: Id, role: Option<AdminRole>) {
    exists id :: id in s.t.admins && id != admin && UsableRow(s, s.t.admins[id], tenant, role)
  }

  /** The removed administrator has no row, no grant and no reach; nobody else is touched. */
  lemma RemovalRemoves(s: State, tenant: Id, admin: Id, actor: Option<Actor>)
    requires Inv(s) && Remove(s, tenant, admin, actor).Committed?
    ensures admin in s.t.admins
    ensures var pair, t := s.t.admins[admin].pair, Remove(s, tenant, admin, actor).s;
            && AdminOf(t.t, pair) == None && (forall k :: k in t.t.grants ==> k.pair != pair)
            && !HasReach(t.t.grants, pair) && GrantRoleInTenant(t.t.grants, pair) == None
            && OthersUntouched(s, t, pair) && t.usable == s.usable && t.nextUser == s.nextUser
  {
    var pair, t := s.t.admins[admin].pair, Remove(s, tenant, admin, actor).s;
    WithoutAdminIsPrepared(s.t, admin);
    MirroredAlone(s, WithoutAdmin(s.t, admin), pair, t);
    assert AdminOf(t.t, pair) == None;
    MirrorAgrees(s.t.grants, pair, None, AppsOf(t.t, pair));
    hide Mirror, Inv, MayRemove, SomeUsable, ScopesOf;
  }

  lemma SomeOtherUsable(s: State, admin: Id, tenant: Id, role: Option<AdminRole>)
    requires admin in s.t.admins
    ensures SomeUsable(s.(t := Remirrored(WithoutAdmin(s.t, admin), s.t.admins[admin].pair)), tenant, role)
            <==> AnotherUsable(s, admin, tenant, role)
  {
    var t := s.(t := Remirrored(WithoutAdmin(s.t, admin), s.t.admins[admin].pair));
    assert t.t.admins == s.t.admins - {admin} && t.usable == s.usable;
    hide Remirrored;
    forall id | id in t.t.admins
      ensures UsableAs(t, id, tenant, role) == UsableRow(s, s.t.admins[id], tenant, role)
    {
    }
  }

  /**
   A removal commits exactly when the administrator is the tenant's, the actor is somebody else with the
   authority to remove it, and an administrator who can sign in stays: an owner for an owner, anybody for
   a co-owner who had accepted.
   */
  lemma RemovalIff(s: State, tenant: Id, admin: Id, actor: Option<Actor>)
    requires Inv(s)
    ensures Remove(s, tenant, admin, actor).Committed? <==>
            && admin in s.t.admins && s.t.admins[admin].pair.tenant == tenant
            && var row := s.t.admins[admin];
               && (actor.Some? ==>
                     && actor.value.user != row.pair.user
                     && (actor.value.platform
                         || (ActivelyOwns(s.t, Pair(tenant, actor.value.user)) && !ActivelyOwns(s.t, row.pair))))
               && (row.role == Owner ==> AnotherUsable(s, admin, tenant, Some(Owner)))
               && (row.role == CoOwner && row.activated.Some? ==> AnotherUsable(s, admin, tenant, None))
  {
    if admin in s.t.admins && s.t.admins[admin].pair.tenant == tenant {
      var row := s.t.admins[admin];
      if actor.Some? {
        MayRemoveIff(s.t, actor.value, tenant, row.pair.user);
        assert row.pair == Pair(tenant, row.pair.user);
      }
      SomeOtherUsable(s, admin, tenant, Some(Owner));
      SomeOtherUsable(s, admin, tenant, None);
      hide MayRemove, SomeUsable, AnotherUsable, Remirrored, Inv, ActivelyOwns;
    }
  }

  /** Each refusal of a removal is true of it. */
  lemma RemovalRefusedIff(s: State, tenant: Id, admin: Id, actor: Option<Actor>)
    requires Inv(s)
    ensures var o, known := Remove(s, tenant, admin, actor), admin in s.t.admins && s.t.admins[admin].pair.tenant == tenant;
            && (o == Refused(NotFound) <==> !known)
            && (o == Refused(CannotModifyOwnGrant) <==>
                  known && actor.Some? && actor.value.user == s.t.admins[admin].pair.user)
            && (o == Refused(OwnerCannotRemoveOwner) <==>
                  known && actor.Some? && actor.value.user != s.t.admins[admin].pair.user && !actor.value.platform
                  && ActivelyOwns(s.t, Pair(tenant, actor.value.user)) && ActivelyOwns(s.t, s.t.admins[admin].pair))
            && (o == Refused(ForbiddenGrantWrite) <==>
                  known && actor.Some? && actor.value.user != s.t.admins[admin].pair.user && !actor.value.platform
                  && !ActivelyOwns(s.t, Pair(tenant, actor.value.user)))
            && (o.Refused? ==>
                  o.why in {NotFound, CannotModifyOwnGrant, OwnerCannotRemoveOwner, ForbiddenGrantWrite, LastOwner})
  {
    if admin in s.t.admins && s.t.admins[admin].pair.tenant == tenant {
      var row := s.t.admins[admin];
      assert row.pair == Pair(tenant, row.pair.user);
      if actor.Some? {
        AgreesAt(s.t, Pair(tenant, actor.value.user));
        AgreesAt(s.t, row.pair);
        RoleByGrant(s.t, Pair(tenant, actor.value.user));
        RoleByGrant(s.t, row.pair);
      }
      hide SomeUsable, Remirrored, Inv, ActivelyOwns, GrantRoleInTenant;
    }
  }

  // ---------------------------------------------------------------------------------------
  // Setting a co-owner's applications
  // ---------------------------------------------------------------------------------------

  /** The administrator administers the named applications, on the terms it had; kept grants keep their instant. */
  lemma SetGrantsSets(s: State, tenant: Id, admin: Id, ids: seq<Id>)
    requires Inv(s) && SetGrants(s, tenant, admin, ids).Committed?
    ensures admin in s.t.admins
    ensures var pair, t := s.t.admins[admin].pair, SetGrants(s, tenant, admin, ids).s;
            && AdminOf(t.t, pair) == AdminOf(s.t, pair) == Some(s.t.admins[admin]) && AppsOf(t.t, pair) == Elements(ids)
            && OthersUntouched(s, t, pair) && t.usable == s.usable && t.nextUser == s.nextUser
    ensures var pair, t := s.t.admins[admin].pair, SetGrants(s, tenant, admin, ids).s;
            && (forall k: GrantKey :: k in t.t.grants && k.pair == pair <==>
                  k.pair == pair && k.role == CoOwner && k.app.Some? && k.app.value in ids)
            && (forall k :: k in t.t.grants && k.pair == pair ==>
                  t.t.grants[k] == if k in s.t.grants then s.t.grants[k] else s.t.admins[admin].activated)
  {
    var pair, t := s.t.admins[admin].pair, SetGrants(s, tenant, admin, ids).s;
    var b := s.t.(scopes := WithScopes(s.t.scopes, admin, ids));
    SetGrantsPrepared(s, tenant, admin, ids);
    MirroredAlone(s, b, pair, t);
    ScopesAreNamed(s.t.scopes, admin, ids);
    MirrorAgrees(b.grants, pair, AdminOf(b, pair), AppsOf(b, pair));
    AgreesAt(s.t, pair);
    hide Mirror, AllAgree, Capped, Scoped, ScopesOf, WithScopes, AllInTenant, LiveAdmins;
    assert t.t.grants == Mirror(b.grants, pair, AdminOf(b, pair), AppsOf(b, pair));
    forall k | k in t.t.grants && k.pair == pair && k in s.t.grants
      ensures t.t.grants[k] == s.t.grants[k]
    {
      KeptInstant(s.t.grants, pair, s.t.admins[admin], AppsOf(s.t, pair), AppsOf(b, pair), k);
    }
  }

  lemma SetGrantsPrepared(s: State, tenant: Id, admin: Id, ids: seq<Id>)
    requires Inv(s) && SetGrants(s, tenant, admin, ids).Committed?
    ensures ChangesOnly(s.t, s.t.(scopes := WithScopes(s.t.scopes, admin, ids)), s.t.admins[admin].pair)
  {
    ScopesAfter(s.t.scopes, admin, ids);
    hide Mirror, AllAgree, Capped, Scoped, ScopesOf, WithScopes, AllInTenant, LiveAdmins;
  }

  /** A grant that agreed and stays derived is not written. */
  lemma KeptInstant(grants: Grants, pair: Pair, admin: Admin, before: set<Id>, after: set<Id>, k: GrantKey)
    requires AgreesFor(grants, pair, Some(admin), before)
    requires k in grants && k.pair == pair && k in Mirror(grants, pair, Some(admin), after)
    ensures Mirror(grants, pair, Some(admin), after)[k] == grants[k]
  {
  }

  lemma SetGrantsIff(s: State, tenant: Id, admin: Id, ids: seq<Id>)
    ensures var o := SetGrants(s, tenant, admin, ids);
            var ours := NoneTwice(ids) && forall id :: id in ids ==> id in s.apps && s.apps[id] == tenant;
            var known := admin in s.t.admins && s.t.admins[admin].pair.tenant == tenant;
            && (o.Committed? <==> ids != [] && ours && known && s.t.admins[admin].role == CoOwner)
            && (o == Refused(GrantsRequired) <==> ids == [])
            && (o == Refused(UnknownApplication) <==> ids != [] && !ours)
            && (o == Refused(NotFound) <==> ids != [] && ours && !known)
            && (o == Refused(GrantsForOwner) <==> ids != [] && ours && known && s.t.admins[admin].role == Owner)
  {
    AllInTenantIff(s.apps, tenant, ids);
    hide AllInTenant, Remirrored, WithScopes, NoneTwice;
  }

  // ---------------------------------------------------------------------------------------
  // Inviting
  // ---------------------------------------------------------------------------------------

  function Invited(s: State, i: Invitation): Pair {
    Pair(i.tenant, if i.user.Some? then i.user.value else s.nextUser)
  }

  /**
   The invited account administers the tenant in the named role, for the named applications and no
   other; whether it had accepted stays as it was, and a new one has not.
   */
  lemma InvitationInvites(s: State, i: Invitation)
    requires Inv(s) && Invite(s, i).Committed?
    ensures var pair, t := Invited(s, i), Invite(s, i).s;
            && AdminOf(t.t, pair).Some? && AdminOf(t.t, pair).value.pair == pair && AdminOf(t.t, pair).value.role == i.role
            && AdminOf(t.t, pair).value.activated ==
                 (if AdminOf(s.t, pair).Some? then AdminOf(s.t, pair).value.activated else None)
            && AppsOf(t.t, pair) == Elements(i.ids)
            && OthersUntouched(s, t, pair) && t.usable == s.usable
            && Agrees(t.t, pair)
            && t.nextUser == if i.user.Some? then s.nextUser else s.nextUser + 1
  {
    var pair, t := Invited(s, i), Invite(s, i).s;
    var b := Named(s, i);
    CommittedInvitation(s, i);
    StepKeepsInv(s, DoInvite(i));
    assert t == Next(s, DoInvite(i));
    hide Invite, Remirrored, AdminOf, AppsOf, Elements, Invited, Named;
    MirroredAlone(s, b, pair, t);
    AgreesAt(t.t, pair);
  }

  /** The tables an invitation leaves before it calls the mirror, when it names `Invited(s, i)`. */
  function Named(s: State, i: Invitation): Tables {
    match UpsertTenantAdmin(s.t, Invited(s, i), i.role)
    case Upserted(t, admin, _) => t.(scopes := WithScopes(t.scopes, admin, i.ids))
    case NotUpserted(_) => s.t
  }

  lemma CommittedInvitation(s: State, i: Invitation)
    requires Inv(s) && Invite(s, i).Committed?
    ensures var pair, t, b := Invited(s, i), Invite(s, i).s, Named(s, i);
            && t.t == Remirrored(b, pair) && t.apps == s.apps && t.usable == s.usable
            && t.nextUser == (if i.user.Some? then s.nextUser else s.nextUser + 1)
            && ChangesOnly(s.t, b, pair) && AppsOf(b, pair) == Elements(i.ids)
            && AdminOf(b, pair).Some? && AdminOf(b, pair).value.pair == pair && AdminOf(b, pair).value.role == i.role
            && AdminOf(b, pair).value.activated ==
                 if AdminOf(s.t, pair).Some? then AdminOf(s.t, pair).value.activated else None
  {
    hide Remirrored, UpsertTenantAdmin, WithScopes, AdminOf, AppsOf, Elements, MayGrant, ScopesChange, AllInTenant;
    NamedChanges(s, i);
    hide Inv;
  }

  lemma NamedChanges(s: State, i: Invitation)
    requires Indexed(s.t) && UpsertTenantAdmin(s.t, Invited(s, i), i.role).Upserted?
    ensures var pair, b := Invited(s, i), Named(s, i);
            && ChangesOnly(s.t, b, pair) && AppsOf(b, pair) == Elements(i.ids)
            && AdminOf(b, pair).Some? && AdminOf(b, pair).value.pair == pair && AdminOf(b, pair).value.role == i.role
            && AdminOf(b, pair).value.activated ==
                 if AdminOf(s.t, pair).Some? then AdminOf(s.t, pair).value.activated else None
  {
    var pair := Invited(s, i);
    hide UpsertTenantAdmin, WithScopes, AdminOf, AppsOf, Elements, Indexed, Invited;
    UpsertOwn(s.t, pair, i.role, i.ids);
    UpsertKeepsActivation(s.t, pair, i.role, i.ids);
    UpsertKeepsMirror(s.t, pair, i.role);
    forall p | p != pair
      ensures AdminOf(Named(s, i), p) == AdminOf(s.t, p) && AppsOf(Named(s, i), p) == AppsOf(s.t, p)
    {
      UpsertOther(s.t, pair, i.role, i.ids, p);
    }
  }

  lemma UpsertKeepsMirror(t: Tables, pair: Pair, role: AdminRole)
    ensures var u := UpsertTenantAdmin(t, pair, role); u.Upserted? ==> u.t.grants == t.grants
  {
    hide LiveAdmins;
  }

  lemma UpsertKeepsActivation(t: Tables, pair: Pair, role: AdminRole, ids: seq<Id>)
    requires Indexed(t) && UpsertTenantAdmin(t, pair, role).Upserted?
    ensures var u := UpsertTenantAdmin(t, pair, role);
            var b := u.t.(scopes := WithScopes(u.t.scopes, u.admin, ids));
            && AdminOf(b, pair).Some? && AdminOf(b, pair).value.pair == pair
            && AdminOf(b, pair).value.activated == if AdminOf(t, pair).Some? then AdminOf(t, pair).value.activated else None
  {
    hide WithScopes, ScopesOf, LiveAdmins;
  }

  /** Applications for a co-owner and none for an owner, each the tenant's and named once. */
  ghost predicate WellNamed(s: State, i: Invitation) {
    && (i.role == Owner <==> i.ids == [])
    && NoneTwice(i.ids) && forall id :: id in i.ids ==> id in s.apps && s.apps[id] == i.tenant
  }

  /** The invitation says what the pair's row and applications say already. */
  ghost predicate SaysNothingNew(s: State, i: Invitation) {
    var pair := Invited(s, i);
    && i.user.Some? && AdminOf(s.t, pair).Some? && AdminOf(s.t, pair).value.role == i.role
    && AppsOf(s.t, pair) == Elements(i.ids)
  }

  /** The actor may pass on the role: with no actor, for the platform tier, or an owner passing on co-ownership. */
  ghost predicate MayInvite(s: State, i: Invitation) {
    i.actor.Some? && !i.actor.value.platform ==> ActivelyOwns(s.t, Pair(i.tenant, i.actor.value.user)) && i.role == CoOwner
  }

  /**
   An invitation commits exactly when its applications are well named, its actor may grant the role,
   it demotes no owner, the tenant has room for a new administrator, and either something changes or
   an invitation is pending that is not too recent to repeat.
   */
  lemma InvitationIff(s: State, i: Invitation)
    requires Inv(s)
    ensures Invite(s, i).Committed? <==>
            && WellNamed(s, i)
            && MayInvite(s, i)
            && (AdminOf(s.t, Invited(s, i)).None? ==> |LiveAdmins(s.t, i.tenant)| < 25)
            && !(Owns(s, Invited(s, i)) && i.role == CoOwner)
            && (SaysNothingNew(s, i) ==> i.pending && !i.recent)
  {
    var pair := Invited(s, i);
    AllInTenantIff(s.apps, i.tenant, i.ids);
    if i.actor.Some? {
      MayGrantIff(s.t, i.actor.value, i.tenant, None, i.role);
    }
    if NoneTwice(i.ids) && pair in s.t.byPair {
      ScopesChangeIff(s.t.scopes, s.t.byPair[pair], i.ids);
    }
    hide Mirror, AllAgree, Capped, Scoped, LiveAdmins, MayGrant, ScopesChange, AllInTenant, WithScopes, ScopesOf, NoneTwice;
  }

  /** Why an invitation is refused, the first ground in this order that applies. */
  ghost function Grounds(s: State, i: Invitation): Option<Refusal> {
    var pair := Invited(s, i);
    if i.role == Owner && i.ids != [] then Some(GrantsForOwner)
    else if i.role == CoOwner && i.ids == [] then Some(GrantsRequired)
    else if !WellNamed(s, i) then Some(UnknownApplication)
    else if !MayInvite(s, i) then
      Some(if ActivelyOwns(s.t, Pair(i.tenant, i.actor.value.user)) then OwnerCannotGrantOwnership else ForbiddenGrantWrite)
    else if AdminOf(s.t, pair).None? && |LiveAdmins(s.t, i.tenant)| >= 25 then Some(TooManyAdmins)
    else if Owns(s, pair) && i.role == CoOwner then Some(InviteWouldDemote)
    else if SaysNothingNew(s, i) && !i.pending then Some(AlreadyAdmin)
    else if SaysNothingNew(s, i) && i.recent then Some(InviteCooldown)
    else None
  }

  lemma InvitationRefusedFor(s: State, i: Invitation)
    requires Inv(s)
    ensures Grounds(s, i) == if Invite(s, i).Refused? then Some(Invite(s, i).why) else None
  {
    var pair := Invited(s, i);
    AllInTenantIff(s.apps, i.tenant, i.ids);
    assert i.ids == [] ==> NoneTwice(i.ids);
    hide Mirror, AllAgree, Capped, Scoped, LiveAdmins, ScopesChange, AllInTenant, WithScopes, ScopesOf, NoneTwice, MayGrant;
    hide UpsertTenantAdmin, Remirrored, Indexed;
    if i.actor.Some? {
      MayGrantReason(s.t, i.actor.value, i.tenant, i.role);
    }
    hide ActivelyOwns;
    if WellNamed(s, i) {
      UpsertReason(s, i);
    }
    hide SaysNothingNew, Owns, AdminOf, AppsOf, Inv, NoneTwice;
    if !WellNamed(s, i) {
      assert i.ids == [] || !AllInTenant(s.apps, i.tenant, i.ids) || (i.role == Owner && i.ids != []);
    } else if !MayInvite(s, i) {
      hide WellNamed;
    } else {
      hide MayInvite;
    }
  }

  lemma MayGrantReason(t: Tables, actor: Actor, tenant: Id, role: AdminRole)
    requires AllAgree(t)
    ensures MayGrant(t.grants, actor, tenant, None, role) ==
            if actor.platform || (ActivelyOwns(t, Pair(tenant, actor.user)) && role == CoOwner) then None
            else Some(if ActivelyOwns(t, Pair(tenant, actor.user)) then OwnerCannotGrantOwnership else ForbiddenGrantWrite)
  {
    AgreesAt(t, Pair(tenant, actor.user));
    RoleByGrant(t, Pair(tenant, actor.user));
    hide AllAgree, GrantRoleInTenant;
  }

  lemma UpsertReason(s: State, i: Invitation)
    requires Indexed(s.t) && WellNamed(s, i)
    ensures var pair, u := Invited(s, i), UpsertTenantAdmin(s.t, Invited(s, i), i.role);
            if AdminOf(s.t, pair).None? && |LiveAdmins(s.t, i.tenant)| >= 25 then u == NotUpserted(TooManyAdmins)
            else if Owns(s, pair) && i.role == CoOwner then u == NotUpserted(InviteWouldDemote)
            else
              && u.Upserted?
              && (SaysNothingNew(s, i) <==> i.user.Some? && u.existed && !ScopesChange(u.t.scopes, u.admin, i.ids))
  {
    var pair := Invited(s, i);
    if pair in s.t.byPair {
      ScopesChangeIff(s.t.scopes, s.t.byPair[pair], i.ids);
    }
    hide LiveAdmins, ScopesChange, ScopesOf, NoneTwice;
  }

  // ---------------------------------------------------------------------------------------
  // Accepting
  // ---------------------------------------------------------------------------------------

  /**
   Accepting activates the row and every grant of the pair at the instant it is done; done again it
   changes nothing of either.
   */
  lemma AcceptanceActivates(s: State, pair: Pair, at: int, usable: bool)
    requires Inv(s)
    ensures Accept(s, pair, at, usable) == Refused(NotFound) <==> AdminOf(s.t, pair).None?
    ensures AdminOf(s.t, pair).Some? ==>
              && Accept(s, pair, at, usable).Committed?
              && var row, t := AdminOf(s.t, pair).value, Accept(s, pair, at, usable).s;
                 && AdminOf(t.t, pair) == Some(row.(activated := if row.activated.Some? then row.activated else Some(at)))
                 && AppsOf(t.t, pair) == AppsOf(s.t, pair) && OthersUntouched(s, t, pair) && t.nextUser == s.nextUser
                 && t.usable == (if usable then s.usable + {pair.user} else s.usable)
                 && (forall k: GrantKey :: k.pair == pair ==> (k in t.t.grants <==> k in s.t.grants))
                 && (row.activated.None? ==> forall k :: k in t.t.grants && k.pair == pair ==> t.t.grants[k] == Some(at))
                 && (row.activated.Some? ==> t.t == s.t)
  {
    if AdminOf(s.t, pair).Some? {
      var row, t := AdminOf(s.t, pair).value, Accept(s, pair, at, usable).s;
      var row' := if row.activated.Some? then row else row.(activated := Some(at));
      var b := s.t.(admins := s.t.admins[s.t.byPair[pair] := row']);
      AcceptPrepared(s.t, pair, row');
      assert row.activated.Some? ==> b == s.t;
      assert t.t == Remirrored(b, pair);
      MirroredAlone(s, b, pair, t);
      AgreesAt(s.t, pair);
      MirrorAgrees(b.grants, pair, Some(row'), AppsOf(b, pair));
      hide Mirror, AllAgree, Capped, Scoped, ScopesOf, LiveAdmins;
      assert t.t.grants == Mirror(s.t.grants, pair, Some(row'), AppsOf(s.t, pair));
      forall k: GrantKey | k.pair == pair
        ensures k in t.t.grants <==> k in s.t.grants
      {
        assert k in Derived(pair, Some(row), AppsOf(s.t, pair)) <==> k in Derived(pair, Some(row'), AppsOf(s.t, pair));
      }
    }
  }

  lemma AcceptPrepared(t: Tables, pair: Pair, row: Admin)
    requires Indexed(t) && AdminOf(t, pair).Some? && row == AdminOf(t, pair).value.(activated := row.activated)
    ensures var b := t.(admins := t.admins[t.byPair[pair] := row]);
            ChangesOnly(t, b, pair) && AdminOf(b, pair) == Some(row) && AppsOf(b, pair) == AppsOf(t, pair)
  {
    hide ScopesOf;
  }
}
