/**
 The administration service as it runs: statements against the tables one after another inside a
 transaction, undone together when one of its checks refuses.
 */
module TenantAdminService {
  import opened Prelude
  import opened AdminGrants
  import opened AdminReach
  import opened TenantAdmins

  /** What a call that may refuse did to the state. */
  predicate Did(outcome: Outcome, before: State, after: State, refusal: Option<Refusal>) {
    match outcome
    case Committed(s) => refusal.None? && after == s
    case Refused(why) => refusal == Some(why) && after == before
  }

  class Service {
    var s: State

    constructor (initial: State)
      ensures s == initial
    {
      s := initial;
    }

    method Mirror(pair: Pair)
      modifies this
      ensures s == old(s).(t := Remirrored(old(s).t, pair))
    {
      var grants := MirrorAdminGrants(s.t, pair);
      s := s.(t := s.t.(grants := grants));
    }

    /** Delete what is not wanted, insert what is missing, and report whether either happened. */
    method ReplaceGrants(admin: Id, ids: seq<Id>) returns (changed: bool)
      modifies this
      ensures s == old(s).(t := old(s).t.(scopes := WithScopes(old(s).t.scopes, admin, ids)))
      ensures changed == ScopesChange(old(s).t.scopes, admin, ids)
    {
      var before := ScopesOf(s.t.scopes, admin);
      var scopes := set row | row in s.t.scopes && (row.0 == admin ==> row.1 in ids);
      ghost var kept := scopes;
      var i := 0;
      while i < |ids|
        invariant 0 <= i <= |ids| && s == old(s)
        invariant scopes == kept + set id | id in ids[..i] :: (admin, id)
      {
        assert forall id :: id in ids[..i + 1] <==> id in ids[..i] || id == ids[i];
        scopes := scopes + {(admin, ids[i])};
        i := i + 1;
      }
      assert ids[..i] == ids;
      s := s.(t := s.t.(scopes := scopes));
      if |before| != |ids| {
        return true;
      }
      changed := exists id :: id in before && id !in ids;
    }

    method InviteTenantAdmin(i: Invitation) returns (refusal: Option<Refusal>)
      modifies this
      ensures Did(Invite(old(s), i), old(s), s, refusal)
    {
      hide WithScopes, ScopesChange, Remirrored, AllInTenant, GrantRoleInTenant;
      if i.role == Owner && i.ids != [] {
        return Some(GrantsForOwner);
      }
      if i.role == CoOwner && i.ids == [] {
        return Some(GrantsRequired);
      }
      if i.ids != [] && !AllInTenant(s.apps, i.tenant, i.ids) {
        return Some(UnknownApplication);
      }
      var saved := s;
      if i.actor.Some? {
        refusal := MayGrant(s.t.grants, i.actor.value, i.tenant, None, i.role);
        if refusal.Some? {
          return;
        }
      }
      var user := if i.user.Some? then i.user.value else s.nextUser;
      if i.user.None? {
        s := s.(nextUser := s.nextUser + 1);
      }
      var pair := Pair(i.tenant, user);
      var u := UpsertTenantAdmin(s.t, pair, i.role);
      if u.NotUpserted? {
        s := saved;
        return Some(u.why);
      }
      s := s.(t := u.t);
      var changed := ReplaceGrants(u.admin, i.ids);
      Mirror(pair);
      if u.existed && !changed && i.user.Some? {
        if !i.pending {
          s := saved;
          return Some(AlreadyAdmin);
        }
        if i.recent {
          s := saved;
          return Some(InviteCooldown);
        }
      }
      refusal := None;
    }

    method SetTenantAdminGrants(tenant: Id, admin: Id, ids: seq<Id>) returns (refusal: Option<Refusal>)
      modifies this
      ensures Did(SetGrants(old(s), tenant, admin, ids), old(s), s, refusal)
    {
      hide WithScopes, ScopesChange, Remirrored, AllInTenant;
      if ids == [] {
        return Some(GrantsRequired);
      }
      if !AllInTenant(s.apps, tenant, ids) {
        return Some(UnknownApplication);
      }
      if admin !in s.t.admins || s.t.admins[admin].pair.tenant != tenant {
        return Some(NotFound);
      }
      if s.t.admins[admin].role == Owner {
        return Some(GrantsForOwner);
      }
      var pair := s.t.admins[admin].pair;
      var changed := ReplaceGrants(admin, ids);
      Mirror(pair);
      refusal := None;
    }

    method RemoveTenantAdmin(tenant: Id, admin: Id, actor: Option<Actor>) returns (refusal: Option<Refusal>)
      modifies this
      ensures Did(Remove(old(s), tenant, admin, actor), old(s), s, refusal)
    {
      hide Remirrored, SomeUsable, MayRemove;
      if admin !in s.t.admins || s.t.admins[admin].pair.tenant != tenant {
        return Some(NotFound);
      }
      var row := s.t.admins[admin];
      if actor.Some? {
        refusal := MayRemove(s.t.grants, actor.value, tenant, row.pair.user);
        if refusal.Some? {
          return;
        }
      }
      var saved := s;
      s := s.(t := WithoutAdmin(s.t, admin));
      Mirror(row.pair);
      if row.role == Owner {
        if !SomeUsable(s, tenant, Some(Owner)) {
          s := saved;
          return Some(LastOwner);
        }
      } else if row.activated.Some? {
        if !SomeUsable(s, tenant, None) {
          s := saved;
          return Some(LastOwner);
        }
      }
      refusal := None;
    }
  }
}
