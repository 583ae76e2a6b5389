/** The role tables the access-control code reads and writes: the catalog
    of access rights, roles, the rights granted to each role and the links
    that assign roles to users. */
module RoleData {
  import opened Common

  /** A primary key (a ULID or a UUID), kept as opaque text. */
  type Id = string

  datatype RoleType = Organization | Environment | Project | Branch

  /** An entry of the access-right catalog, such as "project:settings:update". */
  datatype AccessRight = AccessRight(id: Id, entry: string)

  datatype RoleRecord = RoleRecord(id: Id, orgId: Id, name: string, roleType: RoleType, isActive: bool,
                                   isDeletable: bool, description: Option<string>)

  /** A right granted to a role. */
  datatype RoleAccessRight = RoleAccessRight(orgId: Id, roleId: Id, accessRightId: Id)

  /** A role assigned to a user within an organization, optionally narrowed
      to a project, a branch or an environment type. */
  datatype RoleUserLink = RoleUserLink(orgId: Id, roleId: Id, userId: Id, projectId: Option<Id>,
                                       branchId: Option<Id>, envType: Option<string>)

  datatype RoleTables = RoleTables(rights: seq<AccessRight>, roles: seq<RoleRecord>,
                                   roleRights: seq<RoleAccessRight>, links: seq<RoleUserLink>)

  predicate RoleIs(r: RoleRecord, id: Id) {
    r.id == id
  }

  predicate RightIs(a: AccessRight, id: Id) {
    a.id == id
  }

  /** The role with primary key `id`. */
  function FindRole(roles: seq<RoleRecord>, id: Id): (r: Option<RoleRecord>)
    ensures r.Some? ==> r.value in roles && r.value.id == id
    ensures r.None? <==> forall x :: x in roles ==> x.id != id
  {
    FirstWhere(roles, (x: RoleRecord) => RoleIs(x, id))
  }

  /** The catalog entry with primary key `id`. */
  function FindRight(rights: seq<AccessRight>, id: Id): (r: Option<AccessRight>)
    ensures r.Some? ==> r.value in rights && r.value.id == id
    ensures r.None? <==> forall x :: x in rights ==> x.id != id
  {
    FirstWhere(rights, (x: AccessRight) => RightIs(x, id))
  }

  /** The role of `roleId` exists and is active. */
  predicate RoleActive(t: RoleTables, roleId: Id) {
    var role := FindRole(t.roles, roleId);
    role.Some? && role.value.isActive
  }

  /** The catalog entry a granted right points to. */
  function EntryOf(t: RoleTables, rar: RoleAccessRight): Option<string> {
    var ar := FindRight(t.rights, rar.accessRightId);
    if ar.Some? then Some(ar.value.entry) else None
  }

  /** `rar` grants `entry` through the active role `roleId`. */
  predicate GrantRow(t: RoleTables, rar: RoleAccessRight, roleId: Id, entry: string) {
    rar.roleId == roleId && RoleActive(t, roleId) && EntryOf(t, rar) == Some(entry)
  }

  /** The entries the role of a link grants, following the joins through
      RoleAccessRight, Role (active only) and AccessRight, in the order of
      the grants. */
  function RoleEntries(t: RoleTables, grants: seq<RoleAccessRight>, roleId: Id): (r: seq<string>)
  {
    if grants == [] then []
    else
      var rest := RoleEntries(t, grants[..|grants| - 1], roleId);
      var rar := grants[|grants| - 1];
      if rar.roleId == roleId && RoleActive(t, roleId) && EntryOf(t, rar).Some? then rest + [EntryOf(t, rar).value]
      else rest
  }

  /** An entry is granted to a role exactly when some grant row joins it. */
  lemma RoleEntriesMeaning(t: RoleTables, grants: seq<RoleAccessRight>, roleId: Id, e: string)
    ensures e in RoleEntries(t, grants, roleId) <==> exists rar :: rar in grants && GrantRow(t, rar, roleId, e)
  {
    if e in RoleEntries(t, grants, roleId) {
      var rar := RoleEntriesSound(t, grants, roleId, e);
    }
    if exists rar :: rar in grants && GrantRow(t, rar, roleId, e) {
      var rar :| rar in grants && GrantRow(t, rar, roleId, e);
      RoleEntriesComplete(t, grants, roleId, e, rar);
    }
  }

  /** Each listed entry comes from a grant row. */
  lemma {:induction false} RoleEntriesSound(t: RoleTables, grants: seq<RoleAccessRight>, roleId: Id, e: string)
    returns (rar: RoleAccessRight)
    requires e in RoleEntries(t, grants, roleId)
    ensures rar in grants && GrantRow(t, rar, roleId, e)
  {
    var init := grants[..|grants| - 1];
    var last := grants[|grants| - 1];
    var rest := RoleEntries(t, init, roleId);
    assert grants == init + [last];
    if e in rest {
      rar := RoleEntriesSound(t, init, roleId, e);
    } else {
      rar := last;
    }
  }

  /** Each grant row lists its entry. */
  lemma {:induction false} RoleEntriesComplete(t: RoleTables, grants: seq<RoleAccessRight>, roleId: Id, e: string,
                                               rar: RoleAccessRight)
    requires rar in grants && GrantRow(t, rar, roleId, e)
    ensures e in RoleEntries(t, grants, roleId)
  {
    var init := grants[..|grants| - 1];
    var last := grants[|grants| - 1];
    var rest := RoleEntries(t, init, roleId);
    assert grants == init + [last];
    if rar == last {
      assert RoleEntries(t, grants, roleId) == rest + [e];
    } else {
      RoleEntriesComplete(t, init, roleId, e, rar);
      assert RoleEntries(t, grants, roleId) == rest || RoleEntries(t, grants, roleId) == rest + [EntryOf(t, last).value];
    }
  }

  predicate OfRole(rar: RoleAccessRight, roleId: Id) {
    rar.roleId == roleId
  }

  /** The grants of the other roles. */
  function OtherGrants(grants: seq<RoleAccessRight>, roleId: Id): seq<RoleAccessRight> {
    Filter(grants, (rar: RoleAccessRight) => !OfRole(rar, roleId))
  }

  function GrantsOf(grants: seq<RoleAccessRight>, roleId: Id): seq<RoleAccessRight> {
    Filter(grants, (rar: RoleAccessRight) => OfRole(rar, roleId))
  }

  /** Replacing a role's grants by rows of that role: it then has exactly
      the new ones, and the other roles keep theirs. */
  lemma ReplacedGrants(grants: seq<RoleAccessRight>, roleId: Id, added: seq<RoleAccessRight>)
    requires forall rar :: rar in added ==> rar.roleId == roleId
    ensures GrantsOf(OtherGrants(grants, roleId) + added, roleId) == added
    ensures OtherGrants(OtherGrants(grants, roleId) + added, roleId) == OtherGrants(grants, roleId)
  {
    var others := OtherGrants(grants, roleId);
    var mine := (rar: RoleAccessRight) => OfRole(rar, roleId);
    var theirs := (rar: RoleAccessRight) => !OfRole(rar, roleId);
    FilterAppend(others, added, mine);
    FilterAppend(others, added, theirs);
    FilterMembershipAll(grants, theirs);
    FilterNone(others, mine);
    FilterAll(added, mine);
    FilterNone(added, theirs);
    FilterFilter(grants, theirs, theirs);
    assert Filter(others, mine) + Filter(added, mine) == added;
    assert Filter(others, theirs) + Filter(added, theirs) == others;
  }
}
