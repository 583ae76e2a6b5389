/** The user endpoints: the permission listing derived from role links, the
    public record of a user, listings of users and the creation of a user
    with a temporary password. */
module UserApi {
  import opened Common
  import opened RoleData

  // ---------------------------------------------------------------------
  // list_user_permissions

  /** One row of the permission query: an entry (NULL where the outer joins
      find no grant or no access right) with the link's columns. */
  datatype PermissionRow = PermissionRow(entry: Option<string>, orgId: Id, projectId: Option<Id>,
                                         branchId: Option<Id>, envType: Option<string>)

  /** One listed permission. */
  datatype UserPermission = UserPermission(permission: Option<string>, orgId: Option<Id>, projectId: Option<Id>,
                                           branchId: Option<Id>, envType: Option<string>)

  /** The entry a grant row joins to, NULL without its access right. */
  function JoinedEntry(t: RoleTables, rar: RoleAccessRight): Option<string> {
    EntryOf(t, rar)
  }

  /** The rows one link contributes: one per grant of its role, or a single
      row with a NULL entry when the role has no grant (outer joins). */
  function LinkRows(t: RoleTables, l: RoleUserLink): (r: seq<PermissionRow>)
    ensures |r| >= 1
    ensures forall i :: 0 <= i < |r| ==> r[i].orgId == l.orgId && r[i].projectId == l.projectId
                                         && r[i].branchId == l.branchId && r[i].envType == l.envType
  {
    var grants := GrantsOf(t.roleRights, l.roleId);
    if grants == [] then [PermissionRow(None, l.orgId, l.projectId, l.branchId, l.envType)]
    else seq(|grants|, i requires 0 <= i < |grants| =>
               PermissionRow(JoinedEntry(t, grants[i]), l.orgId, l.projectId, l.branchId, l.envType))
  }

  /** The link belongs to the user and its role is active (the WHERE of the
      query; `userKnown` says whether the user row exists). */
  predicate Listed(t: RoleTables, l: RoleUserLink, userId: Id, userKnown: bool) {
    userKnown && l.userId == userId && RoleActive(t, l.roleId)
  }

  /** The row carries the columns of link `l`. */
  predicate FromLink(row: PermissionRow, l: RoleUserLink) {
    row.orgId == l.orgId && row.projectId == l.projectId && row.branchId == l.branchId && row.envType == l.envType
  }

  /** The rows of the permission query over `links`, link by link. */
  function PermissionRows(t: RoleTables, links: seq<RoleUserLink>, userId: Id, userKnown: bool): seq<PermissionRow> {
    if links == [] then []
    else
      var l := links[|links| - 1];
      PermissionRows(t, links[..|links| - 1], userId, userKnown)
      + (if Listed(t, l, userId, userKnown) then LinkRows(t, l) else [])
  }

  /** Every row comes from a listed link: one of the user's links with an
      active role. */
  lemma {:induction false} RowsFromListedLinks(t: RoleTables, links: seq<RoleUserLink>, userId: Id, userKnown: bool,
                                              row: PermissionRow) returns (l: RoleUserLink)
    requires row in PermissionRows(t, links, userId, userKnown)
    ensures l in links && Listed(t, l, userId, userKnown) && FromLink(row, l)
  {
    var init := links[..|links| - 1];
    var last := links[|links| - 1];
    var rest := PermissionRows(t, init, userId, userKnown);
    assert PermissionRows(t, links, userId, userKnown)
           == rest + (if Listed(t, last, userId, userKnown) then LinkRows(t, last) else []);
    if row in rest {
      l := RowsFromListedLinks(t, init, userId, userKnown, row);
      var k :| 0 <= k < |init| && init[k] == l;
      assert links[k] == l;
    } else {
      var extra := if Listed(t, last, userId, userKnown) then LinkRows(t, last) else [];
      assert row in extra;
      assert Listed(t, last, userId, userKnown);
      l := last;
      LinkRowFields(t, last, row);
    }
  }

  lemma LinkRowFields(t: RoleTables, l: RoleUserLink, row: PermissionRow)
    requires row in LinkRows(t, l)
    ensures FromLink(row, l)
  {
    var rows := LinkRows(t, l);
    var i :| 0 <= i < |rows| && rows[i] == row;
  }

  /** Every listed link contributes at least one row. */
  lemma {:induction false} ListedLinksHaveRows(t: RoleTables, links: seq<RoleUserLink>, userId: Id, userKnown: bool,
                                              l: RoleUserLink)
    requires l in links && Listed(t, l, userId, userKnown)
    ensures exists row :: row in PermissionRows(t, links, userId, userKnown) && FromLink(row, l)
  {
    var init := links[..|links| - 1];
    var last := links[|links| - 1];
    var rest := PermissionRows(t, init, userId, userKnown);
    assert links == init + [last];
    if l == last {
      var rows := LinkRows(t, last);
      assert rows[0] in PermissionRows(t, links, userId, userKnown);
    } else {
      ListedLinksHaveRows(t, init, userId, userKnown, l);
      var row :| row in rest && FromLink(row, l);
      assert row in PermissionRows(t, links, userId, userKnown);
    }
  }

  /** A row is at organization level when it names no project, branch or
      environment. */
  predicate OrganizationLevel(row: PermissionRow) {
    row.projectId.None? && row.branchId.None? && row.envType.None?
  }

  /** The listing: the organization is reported only for organization-level
      rows; the other columns are passed through. */
  function ListUserPermissions(rows: seq<PermissionRow>): (r: seq<UserPermission>)
    ensures |r| == |rows|
    ensures forall i :: 0 <= i < |rows| ==>
              r[i].permission == rows[i].entry && r[i].projectId == rows[i].projectId
              && r[i].branchId == rows[i].branchId && r[i].envType == rows[i].envType
    ensures forall i :: 0 <= i < |rows| ==> (r[i].orgId.Some? <==> OrganizationLevel(rows[i]))
    ensures forall i :: 0 <= i < |rows| ==> r[i].orgId.Some? ==> r[i].orgId.value == rows[i].orgId
  {
    seq(|rows|, i requires 0 <= i < |rows| =>
          UserPermission(rows[i].entry, if OrganizationLevel(rows[i]) then Some(rows[i].orgId) else None,
                         rows[i].projectId, rows[i].branchId, rows[i].envType))
  }

  /** A listed organization always comes with no project, branch or
      environment, and then it is the link's own organization. */
  lemma OrganizationReportedAlone(t: RoleTables, userId: Id, userKnown: bool, i: nat)
    requires i < |PermissionRows(t, t.links, userId, userKnown)|
    ensures var p := ListUserPermissions(PermissionRows(t, t.links, userId, userKnown))[i];
            p.orgId.Some? ==> p.projectId.None? && p.branchId.None? && p.envType.None?
                              && exists l :: l in t.links && Listed(t, l, userId, userKnown) && l.orgId == p.orgId.value
  {
    var rows := PermissionRows(t, t.links, userId, userKnown);
    var l := RowsFromListedLinks(t, t.links, userId, userKnown, rows[i]);
  }

  // ---------------------------------------------------------------------
  // public and public_list

  /** The Keycloak user representation the record is read from. */
  datatype KeycloakUser = KeycloakUser(id: Id, email: string, firstName: string, lastName: string,
                                       emailVerified: bool, enabled: bool, totp: Option<bool>)

  datatype UserPublic = UserPublic(id: Id, email: string, firstName: string, lastName: string, emailVerified: bool,
                                   active: bool, mfaEnabled: bool, lastActivityAt: Option<int>)

  /** The first of the sorted session access times: the earliest, or None
      without sessions. */
  function LastActivity(sessions: seq<int>): (r: Option<int>)
    ensures r.None? <==> sessions == []
    ensures r.Some? ==> r.value in sessions && forall s :: s in sessions ==> r.value <= s
  {
    if sessions == [] then None
    else
      var rest := LastActivity(sessions[..|sessions| - 1]);
      var last := sessions[|sessions| - 1];
      assert sessions == sessions[..|sessions| - 1] + [last];
      if rest.Some? && rest.value <= last then rest else Some(last)
  }

  /** `public`: the record of a user from its representation and the access
      times of its sessions; MFA counts as off when `totp` is absent. */
  function Public(u: KeycloakUser, sessions: seq<int>): (r: UserPublic)
    ensures r.id == u.id && r.email == u.email && r.firstName == u.firstName && r.lastName == u.lastName
    ensures r.emailVerified == u.emailVerified && r.active == u.enabled
    ensures r.mfaEnabled <==> u.totp == Some(true)
    ensures r.lastActivityAt == LastActivity(sessions)
  {
    UserPublic(u.id, u.email, u.firstName, u.lastName, u.emailVerified, u.enabled, u.totp.GetOr(false),
               LastActivity(sessions))
  }

  /** The earliest access time is the same whatever order the sessions come
      in. */
  lemma LastActivityIgnoresOrder(xs: seq<int>, ys: seq<int>)
    requires forall s :: s in xs <==> s in ys
    ensures LastActivity(xs) == LastActivity(ys)
  {
    if xs != [] {
      assert xs[0] in xs;
      var v := LastActivity(xs).value;
      var w := LastActivity(ys).value;
      assert v in ys && w in xs;
    } else if ys != [] {
      assert ys[0] in ys;
    }
  }

  datatype ListResponse = Shallow | Deep

  datatype UserListing = Ids(ids: seq<Id>) | Records(records: seq<UserPublic>)

  /** `public_list`: the ids, or one public record per user, in input order;
      `fetch` stands for the Keycloak reads of one user. */
  function PublicList(users: seq<Id>, response: ListResponse, fetch: Id -> (KeycloakUser, seq<int>)): (r: UserListing)
    ensures response == Shallow ==> r == Ids(users)
    ensures response == Deep ==> r.Records? && |r.records| == |users|
    ensures response == Deep ==> forall i :: 0 <= i < |users| ==> r.records[i] == Public(fetch(users[i]).0, fetch(users[i]).1)
  {
    match response
    case Shallow => Ids(users)
    case Deep => Records(seq(|users|, i requires 0 <= i < |users| => Public(fetch(users[i]).0, fetch(users[i]).1)))
  }

  /** A deep listing reports the users of a shallow one, in the same order,
      when Keycloak returns each user under its own id. */
  lemma DeepMatchesShallow(users: seq<Id>, fetch: Id -> (KeycloakUser, seq<int>))
    requires forall u :: fetch(u).0.id == u
    ensures var deep := PublicList(users, Deep, fetch).records;
            seq(|deep|, i requires 0 <= i < |deep| => deep[i].id) == PublicList(users, Shallow, fetch).ids
  {
  }

  // ---------------------------------------------------------------------
  // add

  newtype Byte = x: int | 0 <= x < 256

  function HexDigit(n: nat): (c: char)
    requires n < 16
  {
    if n < 10 then ('0' as int + n) as char else ('a' as int + n - 10) as char
  }

  predicate IsHexDigit(c: char) {
    '0' <= c <= '9' || 'a' <= c <= 'f'
  }

  function HexValue(c: char): (n: nat)
    requires IsHexDigit(c)
    ensures n < 16 && HexDigit(n) == c
  {
    if c <= '9' then c as int - '0' as int else c as int - 'a' as int + 10
  }

  /** `secrets.token_hex`: two lower-case hex digits per random byte. */
  function TokenHex(bytes: seq<Byte>): (s: string)
    ensures |s| == 2 * |bytes|
    ensures forall i :: 0 <= i < |s| ==> IsHexDigit(s[i])
  {
    if bytes == [] then ""
    else
      var b := bytes[0] as int;
      [HexDigit(b / 16), HexDigit(b % 16)] + TokenHex(bytes[1..])
  }

  /** Reading hex digits back as bytes. */
  function FromHex(s: string): (bytes: seq<Byte>)
    requires |s| % 2 == 0 && forall i :: 0 <= i < |s| ==> IsHexDigit(s[i])
  {
    if s == [] then [] else [(HexValue(s[0]) * 16 + HexValue(s[1])) as Byte] + FromHex(s[2..])
  }

  /** The password determines the random bytes it was made from. */
  lemma {:induction false} TokenHexRoundTrip(bytes: seq<Byte>)
    ensures FromHex(TokenHex(bytes)) == bytes
  {
    if bytes != [] {
      var b := bytes[0] as int;
      var s := TokenHex(bytes);
      assert s[2..] == TokenHex(bytes[1..]);
      assert HexValue(s[0]) == b / 16 && HexValue(s[1]) == b % 16;
      TokenHexRoundTrip(bytes[1..]);
    }
  }

  datatype Credential = Credential(value: string, kind: string, temporary: bool)

  /** The representation `add` sends to Keycloak. */
  datatype NewUser = NewUser(email: string, enabled: bool, firstName: string, lastName: string,
                             credentials: seq<Credential>)

  datatype UserCreation = UserCreation(request: NewUser, password: string)

  /** `add`: an enabled user with one temporary password credential, made
      of sixteen random bytes. */
  function Add(email: string, firstName: string, lastName: string, random: seq<Byte>): (r: UserCreation)
    requires |random| == 16
    ensures |r.password| == 32 && forall i :: 0 <= i < 32 ==> IsHexDigit(r.password[i])
    ensures r.password == TokenHex(random)
    ensures r.request.enabled && r.request.email == email
    ensures r.request.firstName == firstName && r.request.lastName == lastName
    ensures r.request.credentials == [Credential(r.password, "password", true)]
  {
    var password := TokenHex(random);
    UserCreation(NewUser(email, true, firstName, lastName, [Credential(password, "password", true)]), password)
  }
}
