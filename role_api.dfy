/** The role endpoints of an organization: looking up access rights by
    entry, assigning a role to a user in the contexts its type calls for,
    unassigning it, modifying a role and checking an access string. */
module RoleApi {
  import opened Common
  import opened RoleData
  import ARU = AccessRightUtils

  // ---------------------------------------------------------------------
  // lookup_access_rights

  /** Some access right of the catalog has the entry `e`. */
  predicate InCatalog(catalog: seq<AccessRight>, e: string) {
    exists ar :: ar in catalog && ar.entry == e
  }

  /** The catalog rows whose entry was asked for, in catalog order. */
  function FoundRights(catalog: seq<AccessRight>, entries: seq<string>): seq<AccessRight> {
    Filter(catalog, (ar: AccessRight) => ar.entry in entries)
  }

  /** The entries asked for that the catalog lacks, in request order. */
  function MissingEntries(catalog: seq<AccessRight>, entries: seq<string>): seq<string> {
    Filter(entries, (e: string) => !InCatalog(catalog, e))
  }

  /** The 404 `lookup_access_rights` raises for the missing names. */
  function MissingError(names: seq<string>): Failure {
    Http(404, "AccessRight entries not found: " + Join(names, ", "))
  }

  /** The access rights of the requested entries; any entry the catalog lacks
      is a 404 listing the missing names in sorted order. */
  function LookupAccessRights(catalog: seq<AccessRight>, entries: seq<string>): (r: Result<seq<AccessRight>>)
    ensures r.Ok? <==> forall e :: e in entries ==> InCatalog(catalog, e)
    ensures r.Ok? ==> forall ar :: ar in r.value <==> ar in catalog && ar.entry in entries
    ensures r.Err? ==> r.failure == MissingError(SortNames(MissingEntries(catalog, entries)))
  {
    var missing := MissingEntries(catalog, entries);
    FilterMembershipAll(entries, (e: string) => !InCatalog(catalog, e));
    FilterMembershipAll(catalog, (ar: AccessRight) => ar.entry in entries);
    if missing != [] then
      assert missing[0] in missing;
      Err(MissingError(SortNames(missing)))
    else Ok(FoundRights(catalog, entries))
  }

  /** The names in the 404 are exactly the missing entries, each once and in
      ascending order. */
  lemma MissingNamesListed(catalog: seq<AccessRight>, entries: seq<string>)
    ensures var names := SortNames(MissingEntries(catalog, entries));
            StrictlySorted(names) && forall e :: e in names <==> e in entries && !InCatalog(catalog, e)
  {
    SortNamesSorted(MissingEntries(catalog, entries));
    FilterMembershipAll(entries, (e: string) => !InCatalog(catalog, e));
  }

  // ---------------------------------------------------------------------
  // Assignment contexts

  /** The `contexts` of an assignment once the request body is parsed:
      none, a list of identifiers or a list of labels. */
  datatype Contexts = NoContexts | Identifiers(ids: seq<Id>) | Labels(labels: seq<string>)

  datatype ContextKind = NoneType | IdentifierType | StrType

  /** Parsing the body: either list must hold at least one element. */
  function ValidateAssignment(c: Contexts): (r: Result<Contexts>)
    ensures r.Ok? <==> !(c.Identifiers? && c.ids == []) && !(c.Labels? && c.labels == [])
    ensures r.Ok? ==> r.value == c
    ensures r.Err? ==> r.IsHttp(422)
  {
    if (c.Identifiers? && c.ids == []) || (c.Labels? && c.labels == []) then
      Err(Http(422, "List should have at least 1 item after validation, not 0"))
    else Ok(c)
  }

  /** `Assignment.context_type`: the type of the first context. */
  function ContextType(c: Contexts): ContextKind {
    match c
    case NoContexts => NoneType
    case Identifiers(_) => IdentifierType
    case Labels(_) => StrType
  }

  /** The context type each role type demands. */
  function ExpectedKind(t: RoleType): ContextKind {
    match t
    case Organization => NoneType
    case Project => IdentifierType
    case Branch => IdentifierType
    case Environment => StrType
  }

  /** The 400 for a context that does not suit the role type. */
  function WrongContext(t: RoleType): Failure {
    match t
    case Organization => Http(400, "Context must be empty when assigning organization role")
    case Project => Http(400, "Context must be a valid project identifier when assigning project role")
    case Branch => Http(400, "Context must be a valid project identifier when assigning branch role")
    case Environment => Http(400, "Context must be an environment when assigning environment role")
  }

  // ---------------------------------------------------------------------
  // assign_role

  /** One link per context, in order; the first context whose lookup fails
      ends the request with that failure. */
  function LinksFor(ids: seq<Id>, check: Id -> Option<Failure>, make: Id -> RoleUserLink): Result<seq<RoleUserLink>> {
    if ids == [] then Ok([])
    else
      var rest := LinksFor(ids[..|ids| - 1], check, make);
      var last := ids[|ids| - 1];
      if rest.Err? then rest
      else if check(last).Some? then Err(check(last).value)
      else Ok(rest.value + [make(last)])
  }

  lemma {:induction false} LinksForMeaning(ids: seq<Id>, check: Id -> Option<Failure>, make: Id -> RoleUserLink)
    ensures LinksFor(ids, check, make).Ok? <==> forall i :: 0 <= i < |ids| ==> check(ids[i]).None?
    ensures LinksFor(ids, check, make).Ok? ==> LinksFor(ids, check, make).value == seq(|ids|, i requires 0 <= i < |ids| => make(ids[i]))
    ensures LinksFor(ids, check, make).Err? ==>
              exists k :: 0 <= k < |ids| && check(ids[k]) == Some(LinksFor(ids, check, make).failure)
                          && forall j :: 0 <= j < k ==> check(ids[j]).None?
  {
    if ids != [] {
      var init := ids[..|ids| - 1];
      LinksForMeaning(init, check, make);
      var rest := LinksFor(init, check, make);
      if rest.Err? {
        var k :| 0 <= k < |init| && check(init[k]) == Some(rest.failure) && forall j :: 0 <= j < k ==> check(init[j]).None?;
        assert ids[k] == init[k];
      } else if check(ids[|ids| - 1]).None? {
        assert forall i :: 0 <= i < |init| ==> ids[i] == init[i];
      }
    }
  }

  /** `project_lookup`: 404 for an unknown project. */
  function ProjectCheck(projects: set<Id>): Id -> Option<Failure> {
    (id: Id) => if id in projects then None else Some(Http(404, "Project " + id + " not found"))
  }

  /** `branch_lookup`: 404 for an unknown branch and 409 for one being
      deleted; `branches` maps each branch to whether it is DELETING. */
  function BranchCheck(branches: map<Id, bool>): Id -> Option<Failure> {
    (id: Id) =>
      if id !in branches then Some(Http(404, "Branch " + id + " not found"))
      else if branches[id] then Some(Http(409, "Branch is being deleted and cannot be manipulated."))
      else None
  }

  function NoCheck(): Id -> Option<Failure> {
    (id: Id) => None
  }

  function ProjectLink(orgId: Id, roleId: Id, userId: Id): Id -> RoleUserLink {
    (p: Id) => RoleUserLink(orgId, roleId, userId, Some(p), None, None)
  }

  function BranchLink(orgId: Id, roleId: Id, userId: Id): Id -> RoleUserLink {
    (b: Id) => RoleUserLink(orgId, roleId, userId, None, Some(b), None)
  }

  function EnvLink(orgId: Id, roleId: Id, userId: Id): Id -> RoleUserLink {
    (e: Id) => RoleUserLink(orgId, roleId, userId, None, None, Some(e))
  }

  /** The links `assign_role` adds for `role` and the parsed contexts, or the
      failure that stops it; `projects` and `branches` stand for the lookups. */
  function NewLinks(orgId: Id, role: RoleRecord, userId: Id, c: Contexts, projects: set<Id>,
                    branches: map<Id, bool>): Result<seq<RoleUserLink>> {
    if ContextType(c) != ExpectedKind(role.roleType) then Err(WrongContext(role.roleType))
    else
      match role.roleType
      case Organization => Ok([RoleUserLink(orgId, role.id, userId, None, None, None)])
      case Project => LinksFor(c.ids, ProjectCheck(projects), ProjectLink(orgId, role.id, userId))
      case Branch => LinksFor(c.ids, BranchCheck(branches), BranchLink(orgId, role.id, userId))
      case Environment => LinksFor(c.labels, NoCheck(), EnvLink(orgId, role.id, userId))
  }

  /** An organization role without contexts gets exactly one link, with no
      project, branch or environment. */
  lemma OrganizationRoleLink(orgId: Id, role: RoleRecord, userId: Id, projects: set<Id>, branches: map<Id, bool>)
    requires role.roleType == Organization
    ensures NewLinks(orgId, role, userId, NoContexts, projects, branches)
            == Ok([RoleUserLink(orgId, role.id, userId, None, None, None)])
  {
  }

  /** A project role gets one link per identifier, in order, when every
      project exists; otherwise the first unknown project is a 404. */
  lemma ProjectRoleLinks(orgId: Id, role: RoleRecord, userId: Id, ids: seq<Id>, projects: set<Id>,
                         branches: map<Id, bool>)
    requires role.roleType == Project
    ensures NewLinks(orgId, role, userId, Identifiers(ids), projects, branches).Ok?
            <==> forall i :: 0 <= i < |ids| ==> ids[i] in projects
    ensures NewLinks(orgId, role, userId, Identifiers(ids), projects, branches).Ok? ==>
              NewLinks(orgId, role, userId, Identifiers(ids), projects, branches).value
              == seq(|ids|, i requires 0 <= i < |ids| => RoleUserLink(orgId, role.id, userId, Some(ids[i]), None, None))
    ensures NewLinks(orgId, role, userId, Identifiers(ids), projects, branches).Err? ==>
              exists k :: 0 <= k < |ids| && ids[k] !in projects
                          && NewLinks(orgId, role, userId, Identifiers(ids), projects, branches).failure
                             == Http(404, "Project " + ids[k] + " not found")
  {
    var check := ProjectCheck(projects);
    var make := ProjectLink(orgId, role.id, userId);
    assert NewLinks(orgId, role, userId, Identifiers(ids), projects, branches) == LinksFor(ids, check, make);
    LinksForMeaning(ids, check, make);
    assert forall i :: 0 <= i < |ids| ==> (check(ids[i]).None? <==> ids[i] in projects);
  }

  /** A branch role gets one link per identifier when every branch exists and
      none is being deleted; otherwise the first bad branch is a 404 or 409. */
  lemma BranchRoleLinks(orgId: Id, role: RoleRecord, userId: Id, ids: seq<Id>, projects: set<Id>,
                        branches: map<Id, bool>)
    requires role.roleType == Branch
    ensures NewLinks(orgId, role, userId, Identifiers(ids), projects, branches).Ok?
            <==> forall i :: 0 <= i < |ids| ==> ids[i] in branches && !branches[ids[i]]
    ensures NewLinks(orgId, role, userId, Identifiers(ids), projects, branches).Ok? ==>
              NewLinks(orgId, role, userId, Identifiers(ids), projects, branches).value
              == seq(|ids|, i requires 0 <= i < |ids| => RoleUserLink(orgId, role.id, userId, None, Some(ids[i]), None))
    ensures NewLinks(orgId, role, userId, Identifiers(ids), projects, branches).Err? ==>
              NewLinks(orgId, role, userId, Identifiers(ids), projects, branches).IsHttp(404)
              || NewLinks(orgId, role, userId, Identifiers(ids), projects, branches).IsHttp(409)
  {
    var check := BranchCheck(branches);
    var make := BranchLink(orgId, role.id, userId);
    var r := LinksFor(ids, check, make);
    assert NewLinks(orgId, role, userId, Identifiers(ids), projects, branches) == r;
    LinksForMeaning(ids, check, make);
    assert forall i :: 0 <= i < |ids| ==> (check(ids[i]).None? <==> ids[i] in branches && !branches[ids[i]]);
    if r.Err? {
      var k :| 0 <= k < |ids| && check(ids[k]) == Some(r.failure);
    }
  }

  /** An environment role gets one link per label, carrying that label. */
  lemma EnvironmentRoleLinks(orgId: Id, role: RoleRecord, userId: Id, labels: seq<string>, projects: set<Id>,
                             branches: map<Id, bool>)
    requires role.roleType == Environment
    ensures NewLinks(orgId, role, userId, Labels(labels), projects, branches).Ok?
    ensures |NewLinks(orgId, role, userId, Labels(labels), projects, branches).value| == |labels|
    ensures forall i :: 0 <= i < |labels| ==>
              NewLinks(orgId, role, userId, Labels(labels), projects, branches).value[i]
              == RoleUserLink(orgId, role.id, userId, None, None, Some(labels[i]))
  {
    assert NewLinks(orgId, role, userId, Labels(labels), projects, branches)
           == LinksFor(labels, NoCheck(), EnvLink(orgId, role.id, userId));
    LinksForMeaning(labels, NoCheck(), EnvLink(orgId, role.id, userId));
  }

  /** A context of the wrong type is exactly what yields a 400. */
  lemma WrongContextIs400(orgId: Id, role: RoleRecord, userId: Id, c: Contexts, projects: set<Id>,
                          branches: map<Id, bool>)
    ensures NewLinks(orgId, role, userId, c, projects, branches).IsHttp(400)
            <==> ContextType(c) != ExpectedKind(role.roleType)
  {
    if ContextType(c) == ExpectedKind(role.roleType) {
      match role.roleType {
        case Organization =>
        case Project => ProjectRoleLinks(orgId, role, userId, c.ids, projects, branches);
        case Branch => BranchRoleLinks(orgId, role, userId, c.ids, projects, branches);
        case Environment => EnvironmentRoleLinks(orgId, role, userId, c.labels, projects, branches);
      }
    }
  }

  /** Builds the links context by context; the loop of `assign_role`. */
  method CollectLinks(ids: seq<Id>, check: Id -> Option<Failure>, make: Id -> RoleUserLink)
    returns (r: Result<seq<RoleUserLink>>)
    ensures r == LinksFor(ids, check, make)
  {
    var acc: seq<RoleUserLink> := [];
    var i := 0;
    while i < |ids|
      invariant 0 <= i <= |ids|
      invariant LinksFor(ids[..i], check, make).Ok? && LinksFor(ids[..i], check, make).value == acc
    {
      assert ids[..i + 1][..i] == ids[..i];
      var bad := check(ids[i]);
      if bad.Some? {
        r := Err(bad.value);
        LinksErrStays(ids, i + 1, check, make);
        return;
      }
      acc := acc + [make(ids[i])];
      i := i + 1;
    }
    assert ids[..i] == ids;
    r := Ok(acc);
  }

  /** Once a prefix fails, so does every longer prefix, with that failure. */
  lemma {:induction false} LinksErrStays(ids: seq<Id>, n: nat, check: Id -> Option<Failure>, make: Id -> RoleUserLink)
    requires n <= |ids| && LinksFor(ids[..n], check, make).Err?
    ensures LinksFor(ids, check, make) == LinksFor(ids[..n], check, make)
    decreases |ids| - n
  {
    if n < |ids| {
      assert ids[..n + 1][..n] == ids[..n];
      LinksErrStays(ids, n + 1, check, make);
    } else {
      assert ids[..n] == ids;
    }
  }

  // ---------------------------------------------------------------------
  // unassign_role

  /** One `context` entry as a column filter, on the link table with one
      `env_type` column per link: the keys naming a column compare it with
      the value (a NULL column never matches); other keys add no filter,
      because `hasattr` is false for them. */
  predicate AttrMatches(l: RoleUserLink, key: string, val: Id) {
    if key == "organization_id" then l.orgId == val
    else if key == "role_id" then l.roleId == val
    else if key == "user_id" then l.userId == val
    else if key == "project_id" then l.projectId == Some(val)
    else if key == "branch_id" then l.branchId == Some(val)
    else if key == "env_type" then l.envType == Some(val)
    else true
  }

  /** The links `unassign_role` selects. */
  predicate UnassignMatch(l: RoleUserLink, orgId: Id, roleId: Id, userId: Id, ctx: map<string, Id>) {
    l.roleId == roleId && l.orgId == orgId && l.userId == userId
    && forall k :: k in ctx ==> AttrMatches(l, k, ctx[k])
  }

  /** An environment link is selected again by unassigning with its
      organization, role, user and `env_type`, and not with another
      `env_type`. */
  lemma EnvLinkFoundByContext(orgId: Id, roleId: Id, userId: Id, env: string, other: string)
    requires other != env
    ensures UnassignMatch(RoleUserLink(orgId, roleId, userId, None, None, Some(env)), orgId, roleId, userId,
                          map["env_type" := env])
    ensures !UnassignMatch(RoleUserLink(orgId, roleId, userId, None, None, Some(env)), orgId, roleId, userId,
                           map["env_type" := other])
  {
    assert "env_type" in map["env_type" := other];
  }

  function MatchedLinks(links: seq<RoleUserLink>, orgId: Id, roleId: Id, userId: Id, ctx: map<string, Id>): seq<RoleUserLink> {
    Filter(links, (l: RoleUserLink) => UnassignMatch(l, orgId, roleId, userId, ctx))
  }

  function KeptLinks(links: seq<RoleUserLink>, orgId: Id, roleId: Id, userId: Id, ctx: map<string, Id>): seq<RoleUserLink> {
    Filter(links, (l: RoleUserLink) => !UnassignMatch(l, orgId, roleId, userId, ctx))
  }

  /** Splits the links into the kept ones and the number deleted. */
  method PartitionLinks(links: seq<RoleUserLink>, orgId: Id, roleId: Id, userId: Id, ctx: map<string, Id>)
    returns (kept: seq<RoleUserLink>, count: nat)
    ensures kept == KeptLinks(links, orgId, roleId, userId, ctx)
    ensures count == |MatchedLinks(links, orgId, roleId, userId, ctx)|
  {
    kept := [];
    count := 0;
    var i := 0;
    while i < |links|
      invariant 0 <= i <= |links|
      invariant kept == KeptLinks(links[..i], orgId, roleId, userId, ctx)
      invariant count == |MatchedLinks(links[..i], orgId, roleId, userId, ctx)|
    {
      assert links[..i + 1] == links[..i] + [links[i]];
      FilterAppend(links[..i], [links[i]], (l: RoleUserLink) => UnassignMatch(l, orgId, roleId, userId, ctx));
      FilterAppend(links[..i], [links[i]], (l: RoleUserLink) => !UnassignMatch(l, orgId, roleId, userId, ctx));
      if UnassignMatch(links[i], orgId, roleId, userId, ctx) {
        count := count + 1;
      } else {
        kept := kept + [links[i]];
      }
      i := i + 1;
    }
    assert links[..i] == links;
  }

  /** Unassigning keeps exactly the links that do not match, and the count
      and the kept links make up all the links. */
  lemma UnassignKeepsTheRest(links: seq<RoleUserLink>, orgId: Id, roleId: Id, userId: Id, ctx: map<string, Id>)
    ensures forall l :: l in KeptLinks(links, orgId, roleId, userId, ctx)
                        <==> l in links && !UnassignMatch(l, orgId, roleId, userId, ctx)
    ensures |MatchedLinks(links, orgId, roleId, userId, ctx)| + |KeptLinks(links, orgId, roleId, userId, ctx)| == |links|
  {
    FilterMembershipAll(links, (l: RoleUserLink) => !UnassignMatch(l, orgId, roleId, userId, ctx));
    SplitCount(links, orgId, roleId, userId, ctx);
  }

  lemma {:induction false} SplitCount(links: seq<RoleUserLink>, orgId: Id, roleId: Id, userId: Id, ctx: map<string, Id>)
    ensures |MatchedLinks(links, orgId, roleId, userId, ctx)| + |KeptLinks(links, orgId, roleId, userId, ctx)| == |links|
  {
    if links != [] {
      SplitCount(links[..|links| - 1], orgId, roleId, userId, ctx);
    }
  }

  /** Unassigning twice: the second call finds nothing left to delete. */
  lemma UnassignAgainFindsNothing(links: seq<RoleUserLink>, orgId: Id, roleId: Id, userId: Id, ctx: map<string, Id>)
    ensures MatchedLinks(KeptLinks(links, orgId, roleId, userId, ctx), orgId, roleId, userId, ctx) == []
  {
    var kept := KeptLinks(links, orgId, roleId, userId, ctx);
    FilterMembershipAll(links, (l: RoleUserLink) => !UnassignMatch(l, orgId, roleId, userId, ctx));
    FilterNone(kept, (l: RoleUserLink) => UnassignMatch(l, orgId, roleId, userId, ctx));
  }

  // ---------------------------------------------------------------------
  // modify_role

  /** The grant rows of `modify_role` for the looked-up access rights. */
  function NewGrants(orgId: Id, roleId: Id, found: seq<AccessRight>): (r: seq<RoleAccessRight>)
    ensures |r| == |found|
    ensures forall i :: 0 <= i < |r| ==> r[i] == RoleAccessRight(orgId, roleId, found[i].id)
  {
    seq(|found|, i requires 0 <= i < |found| => RoleAccessRight(orgId, roleId, found[i].id))
  }

  /** After `modify_role` with a list, the role holds exactly the grants of
      the looked-up rights and every other role keeps its own. */
  lemma ModifyReplacesGrants(grants: seq<RoleAccessRight>, orgId: Id, roleId: Id, found: seq<AccessRight>)
    ensures GrantsOf(OtherGrants(grants, roleId) + NewGrants(orgId, roleId, found), roleId) == NewGrants(orgId, roleId, found)
    ensures OtherGrants(OtherGrants(grants, roleId) + NewGrants(orgId, roleId, found), roleId) == OtherGrants(grants, roleId)
  {
    ReplacedGrants(grants, roleId, NewGrants(orgId, roleId, found));
  }

  // ---------------------------------------------------------------------
  // The role tables as the endpoints change them

  /** The role as `modify_role` leaves it; its type is not touched. */
  function Modified(role: RoleRecord, isActive: bool, name: string, description: Option<string>): (r: RoleRecord)
    ensures r.id == role.id && r.orgId == role.orgId && r.roleType == role.roleType && r.isDeletable == role.isDeletable
    ensures r.isActive == isActive && r.name == name && r.description == description
  {
    role.(isActive := isActive, name := name, description := description)
  }

  class RoleStore {
    var rights: seq<AccessRight>
    var roles: seq<RoleRecord>
    var roleRights: seq<RoleAccessRight>
    var links: seq<RoleUserLink>

    constructor (t: RoleTables)
      ensures rights == t.rights && roles == t.roles && roleRights == t.roleRights && links == t.links
    {
      rights := t.rights;
      roles := t.roles;
      roleRights := t.roleRights;
      links := t.links;
    }

    function Tables(): RoleTables
      reads this
    {
      RoleTables(rights, roles, roleRights, links)
    }

    /** `assign_role`: adds the new links when every context is accepted,
        and nothing otherwise. */
    method AssignRole(orgId: Id, role: RoleRecord, userId: Id, c: Contexts, projects: set<Id>,
                      branches: map<Id, bool>) returns (err: Option<Failure>)
      modifies this
      ensures var r := NewLinks(orgId, role, userId, c, projects, branches);
              (r.Ok? ==> err == None && links == old(links) + r.value)
              && (r.Err? ==> err == Some(r.failure) && links == old(links))
      ensures rights == old(rights) && roles == old(roles) && roleRights == old(roleRights)
    {
      if ContextType(c) != ExpectedKind(role.roleType) {
        return Some(WrongContext(role.roleType));
      }
      var r: Result<seq<RoleUserLink>>;
      match role.roleType {
        case Organization =>
          r := Ok([RoleUserLink(orgId, role.id, userId, None, None, None)]);
        case Project =>
          r := CollectLinks(c.ids, ProjectCheck(projects), ProjectLink(orgId, role.id, userId));
        case Branch =>
          r := CollectLinks(c.ids, BranchCheck(branches), BranchLink(orgId, role.id, userId));
        case Environment =>
          r := CollectLinks(c.labels, NoCheck(), EnvLink(orgId, role.id, userId));
      }
      if r.Err? {
        return Some(r.failure);
      }
      links := links + r.value;
      err := None;
    }

    /** `unassign_role`: deletes every matching link and returns how many
        there were; a role that cannot be deleted is a 403 and no match a
        404, both without change. */
    method UnassignRole(orgId: Id, role: RoleRecord, userId: Id, ctx: map<string, Id>) returns (r: Result<nat>)
      modifies this
      ensures !role.isDeletable ==> r == Err(Http(403, "Role cannot be unassigned")) && links == old(links)
      ensures role.isDeletable && MatchedLinks(old(links), orgId, role.id, userId, ctx) == [] ==>
                r == Err(Http(404, "No matching role assignment found")) && links == old(links)
      ensures role.isDeletable && MatchedLinks(old(links), orgId, role.id, userId, ctx) != [] ==>
                r == Ok(|MatchedLinks(old(links), orgId, role.id, userId, ctx)|)
                && links == KeptLinks(old(links), orgId, role.id, userId, ctx)
      ensures rights == old(rights) && roles == old(roles) && roleRights == old(roleRights)
    {
      if !role.isDeletable {
        return Err(Http(403, "Role cannot be unassigned"));
      }
      var kept, count := PartitionLinks(links, orgId, role.id, userId, ctx);
      if count == 0 {
        return Err(Http(404, "No matching role assignment found"));
      }
      links := kept;
      r := Ok(count);
    }

    /** `modify_role` on the role at index `k`: a role that cannot be
        deleted is a 403; otherwise the active flag, name and description are
        set and, when a list is given, the role's grants are replaced by
        those of the looked-up rights (a failed lookup changes nothing). */
    method ModifyRole(k: nat, orgId: Id, isActive: bool, name: string, description: Option<string>,
                      accessRights: Option<seq<string>>) returns (r: Result<RoleRecord>)
      requires k < |roles|
      modifies this
      ensures !old(roles[k]).isDeletable ==>
                r == Err(Http(403, "Role cannot be modified")) && roles == old(roles) && roleRights == old(roleRights)
      ensures old(roles[k]).isDeletable && accessRights.Some? && LookupAccessRights(old(rights), accessRights.value).Err? ==>
                r == Err(LookupAccessRights(old(rights), accessRights.value).failure)
                && roles == old(roles) && roleRights == old(roleRights)
      ensures old(roles[k]).isDeletable && accessRights.None? ==>
                r == Ok(Modified(old(roles[k]), isActive, name, description))
                && roles == old(roles)[k := Modified(old(roles[k]), isActive, name, description)]
                && roleRights == old(roleRights)
      ensures old(roles[k]).isDeletable && accessRights.Some? && LookupAccessRights(old(rights), accessRights.value).Ok? ==>
                r == Ok(Modified(old(roles[k]), isActive, name, description))
                && roles == old(roles)[k := Modified(old(roles[k]), isActive, name, description)]
                && roleRights == OtherGrants(old(roleRights), old(roles[k]).id)
                                 + NewGrants(orgId, old(roles[k]).id, LookupAccessRights(old(rights), accessRights.value).value)
      ensures rights == old(rights) && links == old(links)
    {
      var role := roles[k];
      if !role.isDeletable {
        return Err(Http(403, "Role cannot be modified"));
      }
      var updated := Modified(role, isActive, name, description);
      if accessRights.Some? {
        var lookup := LookupAccessRights(rights, accessRights.value);
        if lookup.Err? {
          return Err(lookup.failure);
        }
        roleRights := OtherGrants(roleRights, role.id) + NewGrants(orgId, role.id, lookup.value);
      }
      roles := roles[k := updated];
      r := Ok(updated);
    }
  }

  // ---------------------------------------------------------------------
  // api_check_access

  /** The context the response echoes. */
  datatype CheckContext = CheckContext(orgId: Option<Id>, projectId: Option<Id>, branchId: Option<Id>,
                                       envType: Option<string>)

  datatype AccessCheck = AccessCheck(accessGranted: bool, context: CheckContext)

  /** `api_check_access`. The context handed to `check_access` is a model
      object, not a dict, so none of its `in` tests finds a key: the rights
      are those of every active role linked to the user. */
  function ApiCheckAccess(t: RoleTables, orgId: Id, userId: Id, access: string, projectId: Option<Id>,
                          branchId: Option<Id>, envType: Option<string>): (r: Result<AccessCheck>)
    ensures ARU.CheckAccess(t, userId, access, map[]) == Ok(false) ==> r == Err(Http(403, "Access denied"))
    ensures ARU.CheckAccess(t, userId, access, map[]) == Ok(true) ==>
              r == Ok(AccessCheck(true, CheckContext(Some(orgId), projectId, branchId, envType)))
    ensures ARU.CheckAccess(t, userId, access, map[]).Err? ==> r.Err?
  {
    var allowed := ARU.CheckAccess(t, userId, access, map[]);
    if allowed.Err? then Err(allowed.failure)
    else if !allowed.value then Err(Http(403, "Access denied"))
    else Ok(AccessCheck(true, CheckContext(Some(orgId), projectId, branchId, envType)))
  }

  /** The project, branch and environment of the request never change the
      verdict; a grant is only ever found through a link of the user. */
  lemma CheckIgnoresContext(t: RoleTables, orgId: Id, userId: Id, access: string, p1: Option<Id>, b1: Option<Id>,
                            e1: Option<string>, p2: Option<Id>, b2: Option<Id>, e2: Option<string>)
    ensures ApiCheckAccess(t, orgId, userId, access, p1, b1, e1).Ok?
            == ApiCheckAccess(t, orgId, userId, access, p2, b2, e2).Ok?
    ensures ApiCheckAccess(t, orgId, userId, access, p1, b1, e1).Ok?
            ==> exists l, e :: l in t.links && ARU.HeldThrough(t, l, userId, map[], e)
  {
    if ApiCheckAccess(t, orgId, userId, access, p1, b1, e1).Ok? {
      ARU.CheckAccessWitness(t, userId, access, map[]);
    }
  }
}
