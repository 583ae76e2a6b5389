/** The older role endpoints under `/roles`: they address a role by its id
    alone and keep each assignment context in link fields named after the
    context keys (`project_id` in `project_id_entity`, and so on). */
module LegacyRoles {
  import opened Common
  import opened RoleData
  import ARU = AccessRightUtils

  /** A role assignment of this generation: the role, the user and the
      `<key>_entity` fields its context set, by field name. */
  datatype LegacyLink = LegacyLink(roleId: Id, userId: Id, entities: map<string, Id>)

  /** The field a context key is stored in. */
  function EntityField(key: string): (f: string)
    ensures |f| == |key| + 7 && f[..|key|] == key
  {
    key + "_entity"
  }

  /** The link `assign_role` adds: every context entry `k: v` sets field
      `k_entity` to `v`. */
  function NewLink(roleId: Id, userId: Id, ctx: map<string, Id>): (l: LegacyLink)
    ensures l.roleId == roleId && l.userId == userId
    ensures forall k :: k in ctx ==> EntityField(k) in l.entities && l.entities[EntityField(k)] == ctx[k]
    ensures forall f :: f in l.entities ==> exists k :: k in ctx && f == EntityField(k)
  {
    LegacyLink(roleId, userId, map k | k in ctx :: EntityField(k) := ctx[k])
  }

  /** The links `unassign_role` selects: the role, the user, and for every
      context entry `k: v` the field `k_entity` equal to `v`. */
  predicate LegacyMatch(l: LegacyLink, roleId: Id, userId: Id, ctx: map<string, Id>) {
    l.roleId == roleId && l.userId == userId
    && forall k :: k in ctx ==> EntityField(k) in l.entities && l.entities[EntityField(k)] == ctx[k]
  }

  function Matched(links: seq<LegacyLink>, roleId: Id, userId: Id, ctx: map<string, Id>): seq<LegacyLink> {
    Filter(links, (l: LegacyLink) => LegacyMatch(l, roleId, userId, ctx))
  }

  function Kept(links: seq<LegacyLink>, roleId: Id, userId: Id, ctx: map<string, Id>): seq<LegacyLink> {
    Filter(links, (l: LegacyLink) => !LegacyMatch(l, roleId, userId, ctx))
  }

  /** A freshly assigned link is found again by unassigning with the same
      context, and also with any part of it. */
  lemma AssignedLinkMatches(roleId: Id, userId: Id, ctx: map<string, Id>, sub: map<string, Id>)
    requires forall k :: k in sub ==> k in ctx && sub[k] == ctx[k]
    ensures LegacyMatch(NewLink(roleId, userId, ctx), roleId, userId, sub)
  {
  }

  /** Unassigning keeps exactly the links that do not match, and the deleted
      and kept links make up all the links. */
  lemma {:induction false} UnassignSplits(links: seq<LegacyLink>, roleId: Id, userId: Id, ctx: map<string, Id>)
    ensures |Matched(links, roleId, userId, ctx)| + |Kept(links, roleId, userId, ctx)| == |links|
    ensures forall l :: l in Kept(links, roleId, userId, ctx) <==> l in links && !LegacyMatch(l, roleId, userId, ctx)
  {
    FilterMembershipAll(links, (l: LegacyLink) => !LegacyMatch(l, roleId, userId, ctx));
    if links != [] {
      UnassignSplits(links[..|links| - 1], roleId, userId, ctx);
    }
  }

  /** The role after `modify_role`: type and active flag overwritten. */
  function Retyped(role: RoleRecord, roleType: RoleType, isActive: bool): (r: RoleRecord)
    ensures r.id == role.id && r.orgId == role.orgId && r.name == role.name && r.isDeletable == role.isDeletable
    ensures r.description == role.description && r.roleType == roleType && r.isActive == isActive
  {
    role.(roleType := roleType, isActive := isActive)
  }

  /** Every row of the role `roleId` retyped (the id is the primary key, so
      that is the one row `session.get` finds). */
  function RetypeRole(roles: seq<RoleRecord>, roleId: Id, roleType: RoleType, isActive: bool): (r: seq<RoleRecord>)
    ensures |r| == |roles|
    ensures forall i :: 0 <= i < |roles| ==> r[i] == if roles[i].id == roleId then Retyped(roles[i], roleType, isActive) else roles[i]
  {
    seq(|roles|, i requires 0 <= i < |roles| => if roles[i].id == roleId then Retyped(roles[i], roleType, isActive) else roles[i])
  }

  /** The grant rows handed in, attached to the role. */
  function AttachedGrants(roleId: Id, given: seq<RoleAccessRight>): (r: seq<RoleAccessRight>)
    ensures |r| == |given|
    ensures forall i :: 0 <= i < |r| ==> r[i] == given[i].(roleId := roleId)
  {
    seq(|given|, i requires 0 <= i < |given| => given[i].(roleId := roleId))
  }

  /** A non-empty list replaces the role's grants; the other roles keep
      theirs. */
  lemma GrantsReplacedWhenGiven(grants: seq<RoleAccessRight>, roleId: Id, given: seq<RoleAccessRight>)
    ensures GrantsOf(OtherGrants(grants, roleId) + AttachedGrants(roleId, given), roleId) == AttachedGrants(roleId, given)
    ensures OtherGrants(OtherGrants(grants, roleId) + AttachedGrants(roleId, given), roleId) == OtherGrants(grants, roleId)
  {
    ReplacedGrants(grants, roleId, AttachedGrants(roleId, given));
  }

  /** Splits the links into the kept ones and the number deleted; the loop
      of `unassign_role`. */
  method Partition(links: seq<LegacyLink>, roleId: Id, userId: Id, ctx: map<string, Id>)
    returns (kept: seq<LegacyLink>, count: nat)
    ensures kept == Kept(links, roleId, userId, ctx)
    ensures count == |Matched(links, roleId, userId, ctx)|
  {
    kept := [];
    count := 0;
    var i := 0;
    while i < |links|
      invariant 0 <= i <= |links|
      invariant kept == Kept(links[..i], roleId, userId, ctx)
      invariant count == |Matched(links[..i], roleId, userId, ctx)|
    {
      assert links[..i + 1] == links[..i] + [links[i]];
      FilterAppend(links[..i], [links[i]], (l: LegacyLink) => LegacyMatch(l, roleId, userId, ctx));
      FilterAppend(links[..i], [links[i]], (l: LegacyLink) => !LegacyMatch(l, roleId, userId, ctx));
      if LegacyMatch(links[i], roleId, userId, ctx) {
        count := count + 1;
      } else {
        kept := kept + [links[i]];
      }
      i := i + 1;
    }
    assert links[..i] == links;
  }

  class LegacyRoleStore {
    var roles: seq<RoleRecord>
    var roleRights: seq<RoleAccessRight>
    var links: seq<LegacyLink>

    constructor (roles0: seq<RoleRecord>, roleRights0: seq<RoleAccessRight>, links0: seq<LegacyLink>)
      ensures roles == roles0 && roleRights == roleRights0 && links == links0
    {
      roles := roles0;
      roleRights := roleRights0;
      links := links0;
    }

    /** `modify_role`: a missing role is a 404; otherwise type and active
        flag are overwritten, and the grants replaced only by a non-empty
        list. */
    method ModifyRole(roleId: Id, roleType: RoleType, isActive: bool, given: seq<RoleAccessRight>)
      returns (r: Result<RoleRecord>)
      modifies this
      ensures FindRole(old(roles), roleId).None? ==>
                r == Err(Http(404, "Role " + roleId + " not found")) && roles == old(roles) && roleRights == old(roleRights)
      ensures FindRole(old(roles), roleId).Some? ==>
                r == Ok(Retyped(FindRole(old(roles), roleId).value, roleType, isActive))
                && roles == RetypeRole(old(roles), roleId, roleType, isActive)
      ensures FindRole(old(roles), roleId).Some? && given == [] ==> roleRights == old(roleRights)
      ensures FindRole(old(roles), roleId).Some? && given != [] ==>
                roleRights == OtherGrants(old(roleRights), roleId) + AttachedGrants(roleId, given)
      ensures links == old(links)
    {
      var role := FindRole(roles, roleId);
      if role.None? {
        return Err(Http(404, "Role " + roleId + " not found"));
      }
      roles := RetypeRole(roles, roleId, roleType, isActive);
      if given != [] {
        roleRights := OtherGrants(roleRights, roleId) + AttachedGrants(roleId, given);
      }
      r := Ok(Retyped(role.value, roleType, isActive));
    }

    /** `assign_role`: a missing role is a 404; otherwise one link carrying
        the context is added. */
    method AssignRole(roleId: Id, userId: Id, ctx: map<string, Id>) returns (r: Result<LegacyLink>)
      modifies this
      ensures FindRole(roles, roleId).None? ==> r == Err(Http(404, "Role " + roleId + " not found")) && links == old(links)
      ensures FindRole(roles, roleId).Some? ==>
                r == Ok(NewLink(roleId, userId, ctx)) && links == old(links) + [NewLink(roleId, userId, ctx)]
      ensures roles == old(roles) && roleRights == old(roleRights)
    {
      if FindRole(roles, roleId).None? {
        return Err(Http(404, "Role " + roleId + " not found"));
      }
      var link := NewLink(roleId, userId, ctx);
      links := links + [link];
      r := Ok(link);
    }

    /** `unassign_role`: deletes every matching link and returns their
        number; no match is a 404 without change. */
    method UnassignRole(roleId: Id, userId: Id, ctx: map<string, Id>) returns (r: Result<nat>)
      modifies this
      ensures Matched(old(links), roleId, userId, ctx) == [] ==>
                r == Err(Http(404, "No matching role assignment found")) && links == old(links)
      ensures Matched(old(links), roleId, userId, ctx) != [] ==>
                r == Ok(|Matched(old(links), roleId, userId, ctx)|) && links == Kept(old(links), roleId, userId, ctx)
      ensures roles == old(roles) && roleRights == old(roleRights)
    {
      var kept, count := Partition(links, roleId, userId, ctx);
      if count == 0 {
        return Err(Http(404, "No matching role assignment found"));
      }
      links := kept;
      r := Ok(count);
    }
  }

  /** `api_check_access` with the context dict passed through: a denied
      check is a 403, an allowed one reports `access_granted`. */
  function ApiCheckAccess(t: RoleTables, userId: Id, access: string, ctx: map<string, Id>): (r: Result<bool>)
    ensures ARU.CheckAccess(t, userId, access, ctx) == Ok(false) ==> r == Err(Http(403, "Access denied"))
    ensures ARU.CheckAccess(t, userId, access, ctx) == Ok(true) ==> r == Ok(true)
    ensures ARU.CheckAccess(t, userId, access, ctx).Err? ==> r == ARU.CheckAccess(t, userId, access, ctx)
  {
    var allowed := ARU.CheckAccess(t, userId, access, ctx);
    if allowed.Err? then allowed
    else if !allowed.value then Err(Http(403, "Access denied"))
    else Ok(true)
  }

  /** A granted check always has a link of the user behind it. */
  lemma GrantedHasLink(t: RoleTables, userId: Id, access: string, ctx: map<string, Id>)
    requires ApiCheckAccess(t, userId, access, ctx).Ok?
    ensures exists l, e :: l in t.links && ARU.HeldThrough(t, l, userId, ctx, e)
  {
    ARU.CheckAccessWitness(t, userId, access, ctx);
  }
}
