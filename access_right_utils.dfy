/** Access strings of the form `entity:sub:action`, the rights a user holds
    through active roles, and the access check built from the two. */
module AccessRightUtils {
  import opened Common
  import opened RoleData

  /** The three parts of an access string. */
  datatype Access = Access(entity: string, sub: string, action: string)

  /** `s.split(":")` unpacked into three names: any other number of parts
      raises ValueError. */
  function ParseAccess(s: string): (r: Result<Access>)
    ensures r.Ok? <==> |Split(s, ':')| == 3
    ensures r.Err? ==> r.failure.Raised? && r.failure.kind == "ValueError"
  {
    var parts := Split(s, ':');
    if |parts| != 3 then Err(Raised("ValueError", "expected 3 values to unpack"))
    else Ok(Access(parts[0], parts[1], parts[2]))
  }

  /** A parsed access string joins back to the text it came from, and none
      of its parts holds a ':'. */
  lemma ParseAccessRoundTrip(s: string)
    requires ParseAccess(s).Ok?
    ensures var a := ParseAccess(s).value;
            a.entity + ":" + a.sub + ":" + a.action == s && ':' !in a.entity && ':' !in a.sub && ':' !in a.action
  {
    var parts := Split(s, ':');
    SplitJoin(s, ':');
    assert parts == [parts[0], parts[1], parts[2]];
    JoinThree(parts[0], parts[1], parts[2], ":");
  }

  lemma JoinThree(a: string, b: string, c: string, sep: string)
    ensures Join([a, b, c], sep) == a + sep + b + sep + c
  {
    assert [a, b, c][1..] == [b, c];
    assert [b, c][1..] == [c];
    assert Join([b, c], sep) == b + sep + c;
    assert Join([a, b, c], sep) == a + sep + (b + sep + c);
  }

  /** A granted right covers a required access: same entity, and each of
      sub and action equal or "*" on the granted side. */
  predicate Grants(right: Access, req: Access) {
    && right.entity == req.entity
    && (right.sub == "*" || right.sub == req.sub)
    && (right.action == "*" || right.action == req.action)
  }

  /** The loop of `match_access` over `rights[i..]`: the first right that
      covers the requirement ends it with True; a right that does not parse
      raises when the loop reaches it. */
  function MatchFrom(req: Access, rights: seq<string>, i: nat): (r: Result<bool>)
    requires i <= |rights|
    decreases |rights| - i
  {
    if i == |rights| then Ok(false)
    else
      var right := ParseAccess(rights[i]);
      if right.Err? then Err(right.failure)
      else if Grants(right.value, req) then Ok(true)
      else MatchFrom(req, rights, i + 1)
  }

  /** `match_access`. */
  function MatchAccess(required: string, rights: seq<string>): (r: Result<bool>)
    ensures ParseAccess(required).Err? ==> r.Err?
    ensures rights == [] ==> r == (if ParseAccess(required).Ok? then Ok(false) else Err(ParseAccess(required).failure))
  {
    var req := ParseAccess(required);
    if req.Err? then Err(req.failure) else MatchFrom(req.value, rights, 0)
  }

  predicate WellFormedRights(rights: seq<string>) {
    forall i :: 0 <= i < |rights| ==> ParseAccess(rights[i]).Ok?
  }

  /** Some right at or after `i` covers the requirement. */
  predicate SomeGrantFrom(req: Access, rights: seq<string>, i: nat)
    requires WellFormedRights(rights)
  {
    exists k :: i <= k < |rights| && Grants(ParseAccess(rights[k]).value, req)
  }

  lemma {:induction false} MatchFromMeaning(req: Access, rights: seq<string>, i: nat)
    requires i <= |rights| && WellFormedRights(rights)
    ensures MatchFrom(req, rights, i) == Ok(SomeGrantFrom(req, rights, i))
    decreases |rights| - i
  {
    if i < |rights| {
      MatchFromMeaning(req, rights, i + 1);
      if !Grants(ParseAccess(rights[i]).value, req) {
        assert SomeGrantFrom(req, rights, i) == SomeGrantFrom(req, rights, i + 1) by {
          if SomeGrantFrom(req, rights, i) {
            var k :| i <= k < |rights| && Grants(ParseAccess(rights[k]).value, req);
            assert k != i;
          }
        }
      }
    }
  }

  /** With well-formed strings, access is granted exactly when some right
      covers the requirement: there is no deny rule, and order does not
      matter. */
  lemma MatchAccessMeaning(required: string, rights: seq<string>)
    requires ParseAccess(required).Ok? && WellFormedRights(rights)
    ensures MatchAccess(required, rights)
            == Ok(exists k :: 0 <= k < |rights| && Grants(ParseAccess(rights[k]).value, ParseAccess(required).value))
  {
    MatchFromMeaning(ParseAccess(required).value, rights, 0);
  }

  /** A granted check names a right that covers the requirement, and every
      right before it parses; malformed rights after it are never read. */
  lemma {:induction false} MatchFromWitness(req: Access, rights: seq<string>, i: nat)
    requires i <= |rights| && MatchFrom(req, rights, i) == Ok(true)
    ensures exists k :: i <= k < |rights| && ParseAccess(rights[k]).Ok? && Grants(ParseAccess(rights[k]).value, req)
    decreases |rights| - i
  {
    if !Grants(ParseAccess(rights[i]).value, req) {
      MatchFromWitness(req, rights, i + 1);
    }
  }

  /** A right that does not parse raises once the loop reaches it: when
      every right before it parses and none of them covers the requirement. */
  lemma {:induction false} MalformedRightRaises(req: Access, rights: seq<string>, i: nat, k: nat)
    requires i <= k < |rights| && ParseAccess(rights[k]).Err?
    requires forall j :: i <= j < k ==> ParseAccess(rights[j]).Ok? && !Grants(ParseAccess(rights[j]).value, req)
    ensures MatchFrom(req, rights, i) == Err(ParseAccess(rights[k]).failure)
    decreases k - i
  {
    if i < k {
      MalformedRightRaises(req, rights, i + 1, k);
    }
  }

  /** Wildcards count only on the granted side: a granted "*" covers any
      part, while a required "*" is covered only by a granted "*". */
  lemma WildcardOnlyOnGrantedSide(entity: string, sub: string, action: string, granted: string)
    ensures Grants(Access(entity, "*", "*"), Access(entity, sub, action))
    ensures granted != "*" ==> !Grants(Access(entity, granted, action), Access(entity, "*", action))
    ensures granted != "*" ==> !Grants(Access(entity, sub, granted), Access(entity, sub, "*"))
  {
  }

  /** The entity must match exactly, wildcards or not. */
  lemma EntityMustMatch(right: Access, req: Access)
    requires right.entity != req.entity
    ensures !Grants(right, req)
  {
  }

  // ---------------------------------------------------------------------
  // The rights of a user

  /** A link of the user, narrowed by each key the context holds: the
      organization, and the project, branch and environment type the link
      is scoped to. A link without a project (branch, environment type) is
      not selected by a context that names one, as an SQL comparison with a
      null column is not true. */
  predicate LinkSelected(l: RoleUserLink, userId: Id, ctx: map<string, Id>) {
    && l.userId == userId
    && ("organization_id" in ctx ==> l.orgId == ctx["organization_id"])
    && ("project_id" in ctx ==> l.projectId == Some(ctx["project_id"]))
    && ("branch_id" in ctx ==> l.branchId == Some(ctx["branch_id"]))
    && ("environment_id" in ctx ==> l.envType == Some(ctx["environment_id"]))
  }

  /** The entries granted through `links`, link after link; nothing when no
      link is selected. */
  function LinkEntries(t: RoleTables, links: seq<RoleUserLink>, userId: Id, ctx: map<string, Id>): (r: seq<string>)
    ensures (forall l :: l in links ==> !LinkSelected(l, userId, ctx)) ==> r == []
  {
    if links == [] then []
    else
      var l := links[|links| - 1];
      LinkEntries(t, links[..|links| - 1], userId, ctx)
      + (if LinkSelected(l, userId, ctx) then RoleEntries(t, t.roleRights, l.roleId) else [])
  }

  /** `get_user_rights`: the entries of the access rights of the active
      roles linked to the user, one per joined row (duplicates included),
      narrowed by the context. A user none of whose links the context
      selects holds no right. */
  function UserRights(t: RoleTables, userId: Id, ctx: map<string, Id>): (r: seq<string>)
    ensures (forall l :: l in t.links ==> !LinkSelected(l, userId, ctx)) ==> r == []
  {
    LinkEntries(t, t.links, userId, ctx)
  }

  /** The user holds entry `e` through link `l`. */
  predicate HeldThrough(t: RoleTables, l: RoleUserLink, userId: Id, ctx: map<string, Id>, e: string) {
    LinkSelected(l, userId, ctx) && exists rar :: rar in t.roleRights && GrantRow(t, rar, l.roleId, e)
  }

  /** Link `l` is selected and its role yields entry `e`. */
  predicate SelectedEntry(t: RoleTables, l: RoleUserLink, userId: Id, ctx: map<string, Id>, e: string) {
    LinkSelected(l, userId, ctx) && e in RoleEntries(t, t.roleRights, l.roleId)
  }

  lemma {:induction false} LinkEntriesMeaning(t: RoleTables, links: seq<RoleUserLink>, userId: Id,
                                              ctx: map<string, Id>, e: string)
    ensures e in LinkEntries(t, links, userId, ctx) <==> exists l :: l in links && SelectedEntry(t, l, userId, ctx, e)
  {
    if links != [] {
      var init := links[..|links| - 1];
      var l := links[|links| - 1];
      var rest := LinkEntries(t, init, userId, ctx);
      var own := if LinkSelected(l, userId, ctx) then RoleEntries(t, t.roleRights, l.roleId) else [];
      LinkEntriesMeaning(t, init, userId, ctx, e);
      assert links == init + [l];
      assert LinkEntries(t, links, userId, ctx) == rest + own;
      assert e in rest + own <==> e in rest || e in own;
      if e in rest {
        var x :| x in init && SelectedEntry(t, x, userId, ctx, e);
        assert x in links;
      }
      if e in own {
        assert SelectedEntry(t, l, userId, ctx, e);
      }
      if exists x :: x in links && SelectedEntry(t, x, userId, ctx, e) {
        var x :| x in links && SelectedEntry(t, x, userId, ctx, e);
        if x != l {
          assert x in init;
        }
      }
    }
  }

  /** A right is collected exactly when an active role linked to the user
      grants it through a link the context selects: within the context's
      organization, project, branch and environment type, for each of them
      the context names. */
  lemma UserRightsMeaning(t: RoleTables, userId: Id, ctx: map<string, Id>, e: string)
    ensures e in UserRights(t, userId, ctx) <==> exists l :: l in t.links && HeldThrough(t, l, userId, ctx, e)
  {
    LinkEntriesMeaning(t, t.links, userId, ctx, e);
    if e in UserRights(t, userId, ctx) {
      var l :| l in t.links && SelectedEntry(t, l, userId, ctx, e);
      RoleEntriesMeaning(t, t.roleRights, l.roleId, e);
      assert HeldThrough(t, l, userId, ctx, e);
    }
    if exists l :: l in t.links && HeldThrough(t, l, userId, ctx, e) {
      var l :| l in t.links && HeldThrough(t, l, userId, ctx, e);
      RoleEntriesMeaning(t, t.roleRights, l.roleId, e);
      assert SelectedEntry(t, l, userId, ctx, e);
    }
  }

  /** Each context key only narrows: a right collected with one more key
      in the context is collected without it too. */
  lemma NarrowingOnlyRemoves(t: RoleTables, userId: Id, ctx: map<string, Id>, key: string, v: Id, e: string)
    requires key !in ctx
    requires e in UserRights(t, userId, ctx[key := v])
    ensures e in UserRights(t, userId, ctx)
  {
    UserRightsMeaning(t, userId, ctx[key := v], e);
    var l :| l in t.links && HeldThrough(t, l, userId, ctx[key := v], e);
    assert LinkSelected(l, userId, ctx);
    UserRightsMeaning(t, userId, ctx, e);
  }

  /** A right held through a link scoped to another project (branch,
      environment type) than the context names, or to none, is collected
      only when another selected link grants it too. */
  lemma OtherScopeExcluded(t: RoleTables, userId: Id, ctx: map<string, Id>, e: string, l0: RoleUserLink)
    requires l0 in t.links
    requires || ("project_id" in ctx && l0.projectId != Some(ctx["project_id"]))
             || ("branch_id" in ctx && l0.branchId != Some(ctx["branch_id"]))
             || ("environment_id" in ctx && l0.envType != Some(ctx["environment_id"]))
    requires e in UserRights(t, userId, ctx)
    ensures exists l :: l in t.links && l != l0 && HeldThrough(t, l, userId, ctx, e)
  {
    UserRightsMeaning(t, userId, ctx, e);
    var l :| l in t.links && HeldThrough(t, l, userId, ctx, e);
    assert l != l0;
  }

  /** `check_access`: `match_access` over the collected rights. A
      malformed requirement raises, and a user the context selects no link
      of is denied. */
  function CheckAccess(t: RoleTables, userId: Id, required: string, ctx: map<string, Id>): (r: Result<bool>)
    ensures ParseAccess(required).Err? ==> r.Err?
    ensures ParseAccess(required).Ok? && (forall l :: l in t.links ==> !LinkSelected(l, userId, ctx)) ==> r == Ok(false)
  {
    MatchAccess(required, UserRights(t, userId, ctx))
  }

  /** Every entry of the catalog is a well-formed access string. */
  predicate CatalogWellFormed(t: RoleTables) {
    forall a :: a in t.rights ==> ParseAccess(a.entry).Ok?
  }

  /** With a well-formed catalog, every collected right parses. */
  lemma CollectedRightsParse(t: RoleTables, userId: Id, ctx: map<string, Id>)
    requires CatalogWellFormed(t)
    ensures WellFormedRights(UserRights(t, userId, ctx))
  {
    var rights := UserRights(t, userId, ctx);
    forall i | 0 <= i < |rights|
      ensures ParseAccess(rights[i]).Ok?
    {
      UserRightsMeaning(t, userId, ctx, rights[i]);
      var l :| l in t.links && HeldThrough(t, l, userId, ctx, rights[i]);
      var rar :| rar in t.roleRights && GrantRow(t, rar, l.roleId, rights[i]);
      assert FindRight(t.rights, rar.accessRightId).value in t.rights;
    }
  }

  /** Some collected right covers the requirement exactly when some
      selected link yields one. */
  lemma CoveringRightHeld(t: RoleTables, userId: Id, req: Access, ctx: map<string, Id>)
    requires WellFormedRights(UserRights(t, userId, ctx))
    ensures (exists k :: 0 <= k < |UserRights(t, userId, ctx)| && Grants(ParseAccess(UserRights(t, userId, ctx)[k]).value, req))
            <==> (exists l, e :: l in t.links && HeldThrough(t, l, userId, ctx, e) && ParseAccess(e).Ok? && Grants(ParseAccess(e).value, req))
  {
    var rights := UserRights(t, userId, ctx);
    if exists k :: 0 <= k < |rights| && Grants(ParseAccess(rights[k]).value, req) {
      var k :| 0 <= k < |rights| && Grants(ParseAccess(rights[k]).value, req);
      CoveringAt(t, userId, req, ctx, rights, k);
    }
    if exists l, e :: l in t.links && HeldThrough(t, l, userId, ctx, e) && ParseAccess(e).Ok? && Grants(ParseAccess(e).value, req) {
      var l, e :| l in t.links && HeldThrough(t, l, userId, ctx, e) && ParseAccess(e).Ok? && Grants(ParseAccess(e).value, req);
      HeldCovering(t, userId, req, ctx, rights, l, e);
    }
  }

  lemma CoveringAt(t: RoleTables, userId: Id, req: Access, ctx: map<string, Id>, rights: seq<string>, k: int)
    requires rights == UserRights(t, userId, ctx)
    requires 0 <= k < |rights| && ParseAccess(rights[k]).Ok? && Grants(ParseAccess(rights[k]).value, req)
    ensures exists l, e :: l in t.links && HeldThrough(t, l, userId, ctx, e) && ParseAccess(e).Ok? && Grants(ParseAccess(e).value, req)
  {
    UserRightsMeaning(t, userId, ctx, rights[k]);
  }

  lemma HeldCovering(t: RoleTables, userId: Id, req: Access, ctx: map<string, Id>, rights: seq<string>,
                     l: RoleUserLink, e: string)
    requires rights == UserRights(t, userId, ctx)
    requires l in t.links && HeldThrough(t, l, userId, ctx, e) && ParseAccess(e).Ok? && Grants(ParseAccess(e).value, req)
    ensures exists k :: 0 <= k < |rights| && ParseAccess(rights[k]).Ok? && Grants(ParseAccess(rights[k]).value, req)
  {
    UserRightsMeaning(t, userId, ctx, e);
    var k :| 0 <= k < |rights| && rights[k] == e;
  }

  /** With a well-formed catalog, the check grants exactly when a link the
      context selects ties the user to an active role with a right that
      covers the requirement. */
  lemma CheckAccessMeaning(t: RoleTables, userId: Id, required: string, ctx: map<string, Id>)
    requires ParseAccess(required).Ok? && CatalogWellFormed(t)
    ensures CheckAccess(t, userId, required, ctx)
            == Ok(exists l, e :: l in t.links && HeldThrough(t, l, userId, ctx, e)
                                 && ParseAccess(e).Ok? && Grants(ParseAccess(e).value, ParseAccess(required).value))
  {
    CollectedRightsParse(t, userId, ctx);
    MatchAccessMeaning(required, UserRights(t, userId, ctx));
    CoveringRightHeld(t, userId, ParseAccess(required).value, ctx);
  }

  /** A granted check rests on a link of the user to an active role that
      grants a right covering the requirement. */
  lemma CheckAccessWitness(t: RoleTables, userId: Id, required: string, ctx: map<string, Id>)
    requires CheckAccess(t, userId, required, ctx) == Ok(true)
    ensures exists l, e :: l in t.links && HeldThrough(t, l, userId, ctx, e)
                           && ParseAccess(e).Ok? && Grants(ParseAccess(e).value, ParseAccess(required).value)
  {
    var rights := UserRights(t, userId, ctx);
    var req := ParseAccess(required).value;
    MatchFromWitness(req, rights, 0);
    var k :| 0 <= k < |rights| && ParseAccess(rights[k]).Ok? && Grants(ParseAccess(rights[k]).value, req);
    UserRightsMeaning(t, userId, ctx, rights[k]);
    var l :| l in t.links && HeldThrough(t, l, userId, ctx, rights[k]);
  }
}
