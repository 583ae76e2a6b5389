# A Dafny model of the vela control plane

vela is the control plane of a multi-tenant hosted-PostgreSQL service.
Organizations own projects, and projects own branches. Each branch is a
database deployment running in a KubeVirt virtual machine inside its own
Kubernetes namespace. The controller:

- admits and meters the compute and storage resources of a branch against
  per-branch and aggregate limits, set at system, organization and project
  level;
- schedules backups, takes them and prunes them to a retention count;
- grants access through roles and `entity:sub:action` access strings;
- tracks the service status and the resize status of each branch from
  health probes and Kubernetes events;
- computes the names, sizes and manifests of branch deployments;
- chooses VM pods and rebalances VMs across cluster nodes.

This project models that decision logic in Dafny and proves properties of
it. The database is modelled as in-memory sequences and maps. Code that
updates tables or objects in place becomes classes with `modifies` clauses,
or methods whose loops are proved against specification functions.
Expression code becomes functions and lemmas.

## Modules

One module per source file, plus `Common` for the shared vocabulary
(Option, Result with HTTP and raised errors, ASCII case mapping, decimal
integer text, the text form of ULIDs).

| module | source file |
|---|---|
| `ResourceLimit` | src/api/_util/resourcelimit.py (with the enums of src/models/resources.py) |
| `ProjectApi` | src/api/organization/project/__init__.py |
| `ResourcesApi` | src/api/resources.py |
| `RessourcesApi` | src/api/ressources.py |
| `UtilPkg` | src/_util/__init__.py |
| `UtilLegacy` | src/_util.py |
| `BackupData` | the backup tables of src/api/models/backups.py and the unit tables of the backup code |
| `BackupApi` | src/api/backup.py |
| `BackupSteps` | the steps the two backup monitors share |
| `BackupMonitor` | src/api/backupmonitor.py |
| `ProjectBackup` | src/api/organization/project/backup.py |
| `BackupUtil` | src/api/_util/backups.py |
| `BackupSnapshots` | src/api/backup_snapshots.py |
| `AccessRightUtils` | src/api/access_right_utils.py |
| `RoleData` | the role tables of src/api/models/role.py |
| `RoleApi` | src/api/organization/role.py |
| `LegacyRoles` | src/api/roles_access_rights.py |
| `UserApi` | src/api/user.py |
| `UserModel` | src/api/models/user.py |
| `BranchModel` | src/models/branch.py |
| `ApiBranchModel` | src/api/models/branch.py |
| `BranchStatusMonitor` | src/api/organization/project/branch/status.py |
| `Health` | src/deployment/health.py |
| `PvcResize` | src/deployment/monitors/resize/pvc_resize.py |
| `ResizeMonitor` | src/deployment/monitors/resize/__init__.py |
| `MemoryResize` | src/deployment/monitors/resize/memory_resize.py |
| `Deployment` | src/deployment/__init__.py (naming, sizing, manifests) and src/deployment/_util.py |
| `ChartValues` | `_configure_vela_values` of src/deployment/__init__.py |
| `KubernetesPods` | src/deployment/kubernetes/__init__.py |
| `KubernetesPvc` | src/deployment/kubernetes/pvc.py |
| `KubernetesService` | code/kubernetes_service.py |
| `Kubevirt` | src/deployment/kubernetes/kubevirt.py |
| `Rebalance` | src/deployment/rebalance.py |

Where two source files hold the same code, it is modelled once:

- `RessourcesApi` reuses the effective-limit computation and the
  consumption-limit upsert of `ResourcesApi`. The two files compute the same
  thing with the same precedence and constants
  (src/api/resources.py:48-98 and src/api/ressources.py:31-82;
  src/api/resources.py:344-383 and src/api/ressources.py:282-321), but they
  are not the same code: resources.py reads the organization id as
  `branch.organization_id` and `project.organization_id`, ressources.py as
  `Project.org_id` and `project.org_id`. Both model members follow the
  evident intent and take the organization id as given. As written neither
  file can read it; "## Left out" names each member concerned.
- `BackupSteps` holds the per-branch steps that the two backup monitors
  perform identically: creating the missing NextBackup rows and pruning.
- `BackupData.IntervalSeconds` also stands for the `interval_seconds` of
  src/api/organization/project/backup.py:196-197, which is the same table
  lookup.
- `Health.DeriveBranchStatus` stands for the identical
  `derive_branch_status_from_services` of
  src/api/organization/project/branch/status.py:187-208.
- `LegacyRoles` reuses the role tables of `RoleData`.
- The copies in `ApiBranchModel` differ only slightly from those in
  `BranchModel`. They are written out again and proved to agree with them.

## Conventions

- A `datetime` is an `int` number of seconds. Python's `datetime.min` is
  `Common.DatetimeMin`, and a naive value is taken as UTC.
- `float("inf")` and the other "unbounded" sentinels are `Option<int>`,
  where `None` means unbounded.
- ULIDs and UUIDs are strings. `Common` defines which strings are valid
  ULIDs.
- Values from `get_settings()` are parameters. So are the clock (`now`), the
  results of Kubernetes, Keycloak and storage-backend calls, health
  readings, random bytes, and identifiers the database generates.
- A raised exception is `Err(Raised(kind, message))` and an HTTP error is
  `Err(Http(code, detail))`. Both are values of `Common.Result`.
- A section of code that runs under a per-branch lock is one atomic step.
- Each call of `datetime.utcnow()` or `datetime.now()` inside one operation reads the same `now`. For example, `manual_backup` in src/api/backup.py calls `utcnow()` twice, and the model reads one value for both.
- The role-link table (`RoleUserLink`) is taken as migration 6bc8fa2681d1 leaves it after its upgrade: a nullable `env_type` column and one link per context, keyed on a generated `id` (src/models/migrations/versions/6bc8fa2681d1_fix_role_user_link.py:56-58). The six-column key (organization, role, user, `env_type`, project, branch) is the one its downgrade restores. The handlers in src/api/organization/role.py are written against that table. The ORM class they import (src/models/role.py:103-109) disagrees: it has an `env_types` array and the key (organization_id, role_id, user_id). `RoleApi.AttrMatches` therefore filters on `env_type`.
- `get_user_rights` (src/api/access_right_utils.py:31-62) imports the legacy `RoleUserLink` of src/api/models/role.py, whose `project_entity`, `branch_entity` and `environment_entity` attributes (lines 36-38) its context filters use. The model reads them as the link's project, branch and environment type, the columns the migrated table has under the names `project_id`, `branch_id` and `env_type`.

- Several modules fail when they are imported or first called. The model follows what their code evidently intends, as it does for their handlers:
  - src/api/models/base.py uses `Base` (line 9) without defining it, and src/api/models/backups.py imports it from there (line 7). Importing src/api/backup.py, src/api/backupmonitor.py, src/api/_util/backups.py or src/api/ressources.py therefore raises NameError.
  - src/api/backupmonitor.py:12 imports a `Branch` that src/api/models/backups.py does not define.
  - src/api/backup.py and src/api/ressources.py call `db.exec` on the SQLAlchemy `AsyncSession` that src/api/db.py:13-17 hands out, which has no `exec` method.
  - src/api/ressources.py:8 imports `_get_session`, which src/api/db.py does not define, and src/api/backup_main.py:9 imports a `monitor` that src/api/backupmonitor.py does not define.
  - src/deployment/__init__.py:47 imports `database_image_tag_to_database_images`, which src/deployment/deployment.py does not define, so every module under src/deployment fails at import.

## Model

| member | source | states |
|---|---|---|
| ResourceLimit.ParseResourceType | src/models/resources.py:23-28 | `ResourceType(value)` finds the member whose value is the text, and no member for any other text |
| ResourceLimit.ResourceNameRoundTrip | src/models/resources.py:23-28 | every resource type is found again from its value |
| ResourceLimit.ResourceLimitsToDict | src/api/_util/resourcelimit.py:193-200 | five items, in the order milli_vcpu, ram, iops, database_size, storage_size, each holding that field of the limits |
| ResourceLimit.DictToResourceLimits | src/api/_util/resourcelimit.py:183-190 | every field is the dictionary's value for its resource, `None` when the key is missing |
| ResourceLimit.LimitsDictRoundTrip | src/api/_util/resourcelimit.py:183-200 | limits turned into a dictionary (dropping `None` values) and back are the same limits |
| ResourceLimit.DictLimitsRoundTrip | src/api/_util/resourcelimit.py:183-200 | a dictionary turned into limits and back (dropping `None` values) is the same dictionary |
| ResourceLimit.CheckResourceLimit | src/api/_util/resourcelimit.py:281-287 | a `None` request never exceeds, a `None` availability is always exceeded, otherwise it exceeds exactly when requested > available |
| ResourceLimit.ExceededLimits | src/api/_util/resourcelimit.py:267-278 | nothing is reported when the request's milli_vcpu is falsy; otherwise a resource is reported exactly when its check exceeds, in the dictionary order |
| ResourceLimit.EqualityIsAdmitted | src/api/_util/resourcelimit.py:281-287 | a request exactly at its effective limit is not reported |
| ResourceLimit.PerBranchLimit | src/api/_util/resourcelimit.py:372-381 | the cap is the first max_per_branch that is set in the order project, organization, system (in the sense of Common.FirstSetMeaning), and there is no cap exactly when none of the three levels sets one |
| Common.FirstSetMeaning | src/api/_util/resourcelimit.py:372-381 | the first set value of a list is missing exactly when every value is missing; otherwise it is a value of the list before which no value is set |
| ResourceLimit.RemainingCapacity | src/api/_util/resourcelimit.py:390-399 | a remaining capacity exists exactly when the limit row exists and the allocation is non-zero, and is then max_total − allocation; otherwise unbounded |
| ResourceLimit.EffectiveLimit | src/api/_util/resourcelimit.py:401 | never negative, never above a non-negative cap, at least every admissible amount, and either 0 or itself admissible under the cap and both remaining capacities |
| ResourceLimit.GetRemainingProjectResources | src/api/_util/resourcelimit.py:345-404 | fails with VelaResourceLimitError exactly when some resource has no per-branch cap; otherwise every resource holds its effective limit |
| ResourceLimit.ZeroAllocationReadsTwoWays | src/api/_util/resourcelimit.py:332-342 | with a zero or missing allocation the project computation treats the capacity as unbounded while the organization-only computation reports 0 |
| ResourceLimit.RemainingOrganization | src/api/_util/resourcelimit.py:332-342 | never negative; 0 without a limit row or with a zero allocation; otherwise max(max_total − allocation, 0) |
| ResourceLimit.GetRemainingOrganizationResources | src/api/_util/resourcelimit.py:323-343 | every resource holds its organization-only remaining capacity |
| ResourceLimit.LastLimitFor | src/api/_util/resourcelimit.py:484-488 | the row kept for a resource is one of that resource's rows, and there is none when no row has the resource |
| ResourceLimit.MapResourceLimits | src/api/_util/resourcelimit.py:484-488 | each resource maps to its last row (later rows overwrite earlier ones) |
| ResourceLimit.ProjectLimitTotals | src/api/_util/resourcelimit.py:443-481 | an empty resource filter gives no totals; only filtered resources appear; each total is the sum of max_total over the organization's project rows of that resource, excluding the excluded project |
| ResourceLimit.ProjectLimitTotalsKeys | src/api/_util/resourcelimit.py:443-481 | a resource is listed exactly when some such project row reserves it |
| ResourceLimit.GroupMeaning | src/api/_util/resourcelimit.py:551-555 | every row is grouped under its resource, in order, and a resource has a group exactly when a row has it |
| ResourceLimit.GroupByResourceType | src/api/_util/resourcelimit.py:551-555 | the loop builds exactly those groups |
| ResourceLimit.AllocationsOf | src/api/_util/resourcelimit.py:544-548 | the totals are the per-resource sums of the amounts of rows that belong to a branch |
| ResourceLimit.GetCurrentOrganizationAllocations | src/api/_util/resourcelimit.py:491-515 | the totals are those of the organization's rows whose branch is neither STOPPED nor DELETING nor excluded |
| ResourceLimit.GetCurrentProjectAllocations | src/api/_util/resourcelimit.py:518-541 | the totals are those of the project's rows whose branch is neither STOPPED nor DELETING nor excluded |
| ResourceLimit.IgnoredRowsDoNotCount | src/api/_util/resourcelimit.py:502-511 | a row of a stopped, deleting or excluded branch leaves the organization's totals unchanged |
| ResourceLimit.CountedRowAdds | src/api/_util/resourcelimit.py:544-548 | one more counted row adds its amount to its own resource's total and to no other |
| ResourceLimit.SelectResourceAllocationOrZero | src/api/_util/resourcelimit.py:565-572 | ValueError exactly when two or more rows have the resource; otherwise the single row's amount, or 0 without one |
| ResourceLimit.SelectAllocation | src/api/_util/resourcelimit.py:582-586 | `None` exactly when no row has the resource; otherwise the amount of the first row that has it |
| ResourceLimit.MapResourceUsages | src/api/_util/resourcelimit.py:575-579 | one entry per resource that occurs in the usages, holding the sum of its amounts |
| ResourceLimit.GetOrganizationResourceUsage | src/api/_util/resourcelimit.py:215-226 | the organization's usage sums over the minutes inside the cycle |
| ResourceLimit.GetProjectResourceUsage | src/api/_util/resourcelimit.py:229-240 | the project's usage sums over the minutes inside the cycle |
| ResourceLimit.OrganizationUsageStep | src/api/_util/resourcelimit.py:219-222 | one more usage minute adds its amount exactly when it belongs to the organization and lies in the half-open window |
| ResourceLimit.AdjacentCyclesAdd | src/api/_util/resourcelimit.py:219-222 | the usage over [a, c) is the usage over [a, b) plus the usage over [b, c) |
| ResourceLimit.TruncateToMinute | src/api/_util/resourcelimit.py:207-212 | the result is a whole minute at most the instant and less than a minute before it |
| ResourceLimit.TruncateIdempotent | src/api/_util/resourcelimit.py:207-212 | truncating twice is truncating once |
| ResourceLimit.NormalizeDatetimeToUtc | src/api/_util/resourcelimit.py:207-212 | `None` stays `None`; an instant becomes the start of its UTC minute |
| ResourceLimit.CheckAvailableResourcesLimits | src/api/_util/resourcelimit.py:252-278 | fails exactly when some resource has no cap; otherwise returns the effective limits from the tables and the resources the request exceeds under them |
| ResourceLimit.FindProvisioning | src/api/_util/resourcelimit.py:84-90 | the first row of the branch for the resource, and none when there is no such row |
| ResourceLimit.UpsertOneKeepsOthers | src/api/_util/resourcelimit.py:84-103 | upserting one resource does not move the first row of another |
| ResourceLimit.UpsertAllKeepsOthers | src/api/_util/resourcelimit.py:79-103 | requests for other resources leave a resource's first row where it was |
| ResourceLimit.LogsMatchExpected | src/api/_util/resourcelimit.py:92-109 | with distinct resources, each audit entry says "create" or "update" according to the table before the call |
| ResourceLimit.OneLogPerGivenAmount | src/api/_util/resourcelimit.py:80-82 | one audit entry per resource whose amount is not `None` |
| ResourceLimit.UpsertSetsAmounts | src/api/_util/resourcelimit.py:84-103 | afterwards the branch's row for every given resource holds the given amount |
| ResourceLimit.UpsertKeepsUnrequested | src/api/_util/resourcelimit.py:84-103 | rows of other branches, or of resources without a given amount, are unchanged, and no row is removed |
| ResourceLimit.ProvisioningStore.CreateOrUpdateBranchProvisioning | src/api/_util/resourcelimit.py:72-112 | the table becomes the upsert of every given amount and the audit log gains the expected entries |
| UtilLegacy.SingleOfPrefix | src/_util.py:12-23 | with the at most two elements the iterator yields, the call succeeds exactly when there is one, and returns it |
| UtilLegacy.Consumed | src/_util.py:14-21 | `single` consumes at most two elements, and exactly min(2, length) of them |
| UtilLegacy.Single | src/_util.py:6-23 | succeeds exactly on a one-element input and returns that element; "No values present" on none, "Multiple values present" on two or more |
| UtilLegacy.SingleIgnoresTail | src/_util.py:19-21 | once two elements are present, whatever follows them makes no difference |
| UtilLegacy.SingleAgrees | src/_util.py:6-23 | the two copies of `single` agree on every input |
| UtilLegacy.DbstrAgrees | src/_util.py:26 | the two `dbstr` patterns accept the same strings, exactly those without a NUL character |
| UtilPkg.ConstraintsMeaning | src/_util/__init__.py:32-60 | the five constraint dictionaries admit exactly CPU 500..64000 step 100, memory 1 GiB..32 GiB step 256 MiB, database 1 GB..100 TB step 1 GB, storage 1 GB..1 TB step 1 GB, IOPS 100..100000 without step |
| UtilPkg.SlotConstants | src/_util/__init__.py:36-41 | the slot size is 256 and the slot bounds are 4194304 and 134217728, still in order |
| UtilPkg.Single | src/_util/__init__.py:89-106 | succeeds exactly on a one-element input and returns that element; "No values present" on none, "Multiple values present" on two or more |
| UtilPkg.ValidateUlid | src/_util/__init__.py:147-152 | a ULID passes unchanged, a string is accepted exactly when it is ULID text, any other value raises ValueError |
| UtilPkg.ValidateUlidText | src/_util/__init__.py:147-152 | the text of a ULID validates back to that ULID |
| UtilPkg.BytesToKb | src/_util/__init__.py:176-179 | the floor of value / KB |
| UtilPkg.BytesToMb | src/_util/__init__.py:182-185 | the floor of value / MB |
| UtilPkg.BytesToMib | src/_util/__init__.py:188-191 | the floor of value / MIB |
| UtilPkg.BytesToGb | src/_util/__init__.py:194-197 | the floor of value / GB |
| UtilPkg.BytesToGib | src/_util/__init__.py:200-203 | the floor of value / GIB |
| UtilPkg.KbToBytes | src/_util/__init__.py:206-209 | converting the result back down gives the kilobytes again |
| UtilPkg.MbToBytes | src/_util/__init__.py:212-215 | converting the result back down gives the megabytes again |
| UtilPkg.KbRoundTripDown | src/_util/__init__.py:176-209 | going down to kilobytes and back loses less than one KB, and nothing exactly on multiples of KB |
| UtilPkg.TruncateToInt | src/_util/__init__.py:241 | `int()` of a Decimal truncates toward zero |
| UtilPkg.NormalizeQuantity | src/_util/__init__.py:218-231 | `None` and blank text give `None`, a Decimal passes through, other text is stripped and parsed |
| UtilPkg.QuantityToMilliCpu | src/_util/__init__.py:234-241 | `None` stays `None`; otherwise the quantity times 1000, truncated; parse errors propagate |
| UtilPkg.QuantityToBytes | src/_util/__init__.py:244-251 | `None` stays `None`; otherwise the quantity truncated; parse errors propagate |
| UtilPkg.PermissiveNumericTimedelta | src/_util/__init__.py:254-267 | an int-parsable string becomes that int; every other value, float-like strings included, is returned unchanged |
| UtilPkg.TimedeltaOfRenderedInt | src/_util/__init__.py:260-261 | the decimal rendering of any integer comes back as that integer |
| UtilPkg.TimedeltaLeavesFloats | src/_util/__init__.py:254-267 | any text holding a '.', 'e' or 'E' is returned unchanged, because `int` refuses it and the float branch cannot be reached |
| AccessRightUtils.ParseAccess | src/api/access_right_utils.py:13-16 | a string parses exactly when it splits into three ':'-separated parts; otherwise ValueError |
| AccessRightUtils.ParseAccessRoundTrip | src/api/access_right_utils.py:13-16 | a parsed access string joins back to itself, and no part holds a ':' |
| AccessRightUtils.MatchAccess | src/api/access_right_utils.py:8-24 | a malformed requirement raises; an empty rights list gives False for a well-formed requirement |
| AccessRightUtils.MatchFromMeaning | src/api/access_right_utils.py:15-24 | over well-formed rights, the loop from position i answers whether some right from i on covers the requirement |
| AccessRightUtils.MatchAccessMeaning | src/api/access_right_utils.py:8-24 | over well-formed strings, access is granted exactly when some right covers the requirement: no deny rule, order irrelevant |
| AccessRightUtils.MatchFromWitness | src/api/access_right_utils.py:15-23 | a True answer names a right, from the loop's position on, that parses and covers the requirement |
| AccessRightUtils.MalformedRightRaises | src/api/access_right_utils.py:15-16 | a malformed right raises once reached, that is when every earlier right parses and none covers the requirement |
| AccessRightUtils.WildcardOnlyOnGrantedSide | src/api/access_right_utils.py:17-22 | a granted "*" covers any sub or action; a required "*" is covered only by a granted "*" |
| AccessRightUtils.EntityMustMatch | src/api/access_right_utils.py:17-18 | a right for another entity never covers the requirement |
| AccessRightUtils.UserRights | src/api/access_right_utils.py:31-62 | a user none of whose links the context selects holds no right |
| AccessRightUtils.LinkEntries | src/api/access_right_utils.py:40-62 | links none of which the context selects yield no entry |
| AccessRightUtils.LinkEntriesMeaning | src/api/access_right_utils.py:40-62 | an entry is collected from the links exactly when some link selects it |
| AccessRightUtils.UserRightsMeaning | src/api/access_right_utils.py:40-62 | a right is collected exactly when an active role grants it through a link of the user that lies within the context's organization, project, branch and environment type, for each key the context holds |
| AccessRightUtils.NarrowingOnlyRemoves | src/api/access_right_utils.py:51-59 | each context key only narrows: a right collected with one more key is collected without it too |
| AccessRightUtils.OtherScopeExcluded | src/api/access_right_utils.py:54-59 | a link scoped to another project, branch or environment type than the context names (or to none) contributes nothing: a right collected is held through some other link |
| AccessRightUtils.CollectedRightsParse | src/api/access_right_utils.py:40-62 | with a well-formed catalog every collected right is a well-formed access string |
| AccessRightUtils.CoveringRightHeld | src/api/access_right_utils.py:61-66 | a collected right covers the requirement exactly when a selected link yields one that does |
| AccessRightUtils.CheckAccess | src/api/access_right_utils.py:64-66 | a malformed requirement raises; a user the context selects no link of is denied |
| AccessRightUtils.CheckAccessMeaning | src/api/access_right_utils.py:40-66 | with a well-formed catalog the check grants exactly when a link the context selects ties the user to an active role with a right covering the requirement |
| AccessRightUtils.CheckAccessWitness | src/api/access_right_utils.py:64-66 | a granted check rests on a link of the user to an active role whose right covers the requirement |
| RoleData.FindRole | src/api/models/role.py:54-59 | the role with that primary key, and none exactly when no role has it |
| RoleData.FindRight | src/api/models/role.py:49-51 | the catalog entry with that primary key, and none exactly when no entry has it |
| RoleData.RoleEntriesMeaning | src/api/access_right_utils.py:40-47 | an entry is listed for a role exactly when a grant row of that active role joins it |
| RoleData.RoleEntriesSound | src/api/access_right_utils.py:40-47 | every listed entry comes from a grant row |
| RoleData.RoleEntriesComplete | src/api/access_right_utils.py:40-47 | every joining grant row has its entry listed |
| RoleData.ReplacedGrants | src/api/organization/role.py:205-213 | after replacing a role's grants it holds exactly the new rows, and every other role keeps its own |
| Common.StrLtTotal | src/api/organization/role.py:45 | Python's string order is total on distinct strings |
| Common.StrLtIrreflexive | src/api/organization/role.py:45 | and irreflexive |
| Common.InsertName | src/api/organization/role.py:45 | inserting a name gives that name and the old ones |
| Common.InsertNameSorted | src/api/organization/role.py:45 | insertion keeps a strictly sorted list strictly sorted |
| Common.SortNames | src/api/organization/role.py:45 | `sorted` of a set holds exactly the names given |
| Common.SortNamesSorted | src/api/organization/role.py:45 | and is strictly ascending, so each name occurs once |
| RoleApi.LookupAccessRights | src/api/organization/role.py:38-48 | succeeds exactly when every requested entry is in the catalog, returning the catalog rows of those entries; otherwise a 404 naming the missing entries sorted |
| RoleApi.MissingNamesListed | src/api/organization/role.py:41-46 | the 404 lists exactly the missing entries, each once and in ascending order |
| RoleApi.ValidateAssignment | src/api/organization/role.py:240-241 | a list of contexts must have at least one element (422 otherwise); the body is kept unchanged |
| RoleApi.LinksForMeaning | src/api/organization/role.py:287-309 | links are built exactly when every context passes its lookup, one per context in order; otherwise the first failing lookup's error |
| RoleApi.OrganizationRoleLink | src/api/organization/role.py:278-282 | an organization role without contexts gets exactly one link with no project, branch or environment |
| RoleApi.ProjectRoleLinks | src/api/organization/role.py:283-295 | a project role gets one project link per identifier when every project exists; otherwise a 404 for the first unknown one |
| RoleApi.BranchRoleLinks | src/api/organization/role.py:297-309 | a branch role gets one branch link per identifier when every branch exists and none is being deleted; otherwise a 404 or 409 |
| RoleApi.EnvironmentRoleLinks | src/api/organization/role.py:311-318 | an environment role gets one link per label, carrying that label |
| RoleApi.WrongContextIs400 | src/api/organization/role.py:244-313 | a 400 comes exactly from a context whose type is not the one the role type calls for |
| RoleApi.CollectLinks | src/api/organization/role.py:287-309 | the loop builds the links of the contexts, stopping at the first failed lookup |
| RoleApi.LinksErrStays | src/api/organization/role.py:287-309 | a lookup failure ends the assignment with that failure |
| RoleApi.PartitionLinks | src/api/organization/role.py:342-360 | the links that do not match are kept and the matching ones are counted |
| RoleApi.UnassignKeepsTheRest | src/api/organization/role.py:342-360 | exactly the non-matching links are kept, and kept plus deleted account for every link |
| RoleApi.SplitCount | src/api/organization/role.py:354-363 | the deleted count and the kept links add up to all the links |
| RoleApi.UnassignAgainFindsNothing | src/api/organization/role.py:342-357 | after unassigning, the same request matches nothing, so it would be a 404 |
| RoleApi.EnvLinkFoundByContext | src/api/organization/role.py:348-351 | an environment link is selected by a context naming its env_type, and not by a context naming another environment type |
| RoleApi.NewGrants | src/api/organization/role.py:207-213 | one grant row of the role per looked-up access right, in order |
| RoleApi.ModifyReplacesGrants | src/api/organization/role.py:205-213 | after `modify_role` with a list the role holds exactly those grant rows, and every other role keeps its own |
| RoleApi.Modified | src/api/organization/role.py:201-203 | active flag, name and description take the new values, everything else of the role is kept |
| RoleApi.RoleStore.AssignRole | src/api/organization/role.py:267-324 | adds all the new links when every context is accepted, and nothing otherwise; no other table changes |
| RoleApi.RoleStore.UnassignRole | src/api/organization/role.py:328-363 | 403 for a role that cannot be deleted and 404 without a match, both leaving the links; otherwise deletes exactly the matching links and returns their number |
| RoleApi.RoleStore.ModifyRole | src/api/organization/role.py:192-216 | 403 for a non-deletable role and the lookup's 404 both change nothing; otherwise sets the fields and, when a list is given, replaces the role's grants |
| RoleApi.ApiCheckAccess | src/api/organization/role.py:98-123 | a denied check is a 403, a granted one reports access_granted with the request's context |
| RoleApi.CheckIgnoresContext | src/api/organization/role.py:112-119 | the project, branch and environment of the request never change the verdict, and a grant is always found through a link of the user |
| LegacyRoles.EntityField | src/api/roles_access_rights.py:80-82 | the field of a key is the key followed by "_entity" |
| LegacyRoles.NewLink | src/api/roles_access_rights.py:75-85 | the new link has the role and user, and a field `k_entity == v` for exactly the context's entries `k: v` |
| LegacyRoles.AssignedLinkMatches | src/api/roles_access_rights.py:80-111 | a freshly assigned link is found by unassigning with its context or any part of it |
| LegacyRoles.UnassignSplits | src/api/roles_access_rights.py:104-122 | exactly the non-matching links are kept, and deleted plus kept make up all the links |
| LegacyRoles.Retyped | src/api/roles_access_rights.py:34-35 | role type and active flag are overwritten, the rest of the role is kept |
| LegacyRoles.RetypeRole | src/api/roles_access_rights.py:30-35 | only the row with the role's primary key is retyped |
| LegacyRoles.AttachedGrants | src/api/roles_access_rights.py:37-40 | the given grant rows, each attached to the role |
| LegacyRoles.GrantsReplacedWhenGiven | src/api/roles_access_rights.py:37-40 | a given list becomes the role's grants, and every other role keeps its own |
| LegacyRoles.Partition | src/api/roles_access_rights.py:109-122 | the loop keeps the non-matching links and counts the matching ones |
| LegacyRoles.LegacyRoleStore.ModifyRole | src/api/roles_access_rights.py:29-48 | a missing role is a 404 without change; otherwise type and active flag are overwritten, and the grants are replaced only by a non-empty list |
| LegacyRoles.LegacyRoleStore.AssignRole | src/api/roles_access_rights.py:65-90 | a missing role is a 404 without change; otherwise exactly one link carrying the context is appended |
| LegacyRoles.LegacyRoleStore.UnassignRole | src/api/roles_access_rights.py:94-123 | no match is a 404 without change; otherwise every matching link is deleted and their number returned |
| LegacyRoles.ApiCheckAccess | src/api/roles_access_rights.py:130-135 | a denied check is a 403, a granted one is reported, a raising check raises |
| LegacyRoles.GrantedHasLink | src/api/roles_access_rights.py:130-135 | a granted check always has a link of the user to an active role behind it |
| UserApi.LinkRows | src/api/user.py:124-143 | a link always yields at least one row, thanks to the outer joins, and every row carries the link's organization, project, branch and environment |
| UserApi.RowsFromListedLinks | src/api/user.py:124-143 | every row comes from a link of the requested user to an active role |
| UserApi.LinkRowFields | src/api/user.py:126-131 | a row of a link carries that link's context columns |
| UserApi.ListedLinksHaveRows | src/api/user.py:124-143 | every link of the user to an active role contributes a row |
| UserApi.ListUserPermissions | src/api/user.py:147-159 | one permission per row, in order; the organization is reported exactly for rows with no project, branch and environment |
| UserApi.OrganizationReportedAlone | src/api/user.py:147-157 | a reported organization comes with no project, branch or environment, and is the organization of a link of the user |
| UserApi.LastActivity | src/api/user.py:38 | `None` exactly without sessions; otherwise the earliest access time |
| UserApi.Public | src/api/user.py:27-39 | the user's representation field by field, MFA on exactly when `totp` is true, and the earliest session access |
| UserApi.LastActivityIgnoresOrder | src/api/user.py:38 | the order the sessions come in does not matter |
| UserApi.PublicList | src/api/user.py:42-51 | shallow: the ids in input order; deep: one public record per user, in input order |
| UserApi.DeepMatchesShallow | src/api/user.py:42-51 | a deep listing names the users of the shallow one in the same order |
| UserApi.HexValue | src/api/user.py:60 | a hex digit's value, which renders back to that digit |
| UserApi.TokenHex | src/api/user.py:60 | two hex digits per random byte |
| UserApi.TokenHexRoundTrip | src/api/user.py:60 | the password determines the bytes it was made from |
| UserApi.Add | src/api/user.py:59-80 | an enabled user with the given names and e-mail and one temporary password credential; the password is the hex text of the sixteen random bytes, 32 hex digits |
| UserModel.RemovePrefix | src/api/models/user.py:19 | `removeprefix` strips the prefix exactly when the string starts with it |
| UserModel.ParseAal | src/api/models/user.py:16-20 | an absent claim is level 1; a parsed level is always between 1 and 3; a number raises AttributeError |
| UserModel.AalLevels | src/api/models/user.py:16-20 | "aal1".."aal3" and the bare "1".."3" parse to their level |
| UserModel.AalOutOfRange | src/api/models/user.py:18 | levels outside 1..3 are rejected |
| UserModel.MfaLevels | src/api/models/user.py:22-23 | MFA holds exactly for the levels 2 and 3 |
| UserModel.User.constructor | src/api/models/user.py:37-40 | a new user has the given id and no token, so the getter raises until one is set |
| UserModel.User.Token | src/api/models/user.py:42-46 | ValueError until a token is set, the token afterwards |
| UserModel.User.SetToken | src/api/models/user.py:42-50 | the getter then returns the token just set, whatever was set before |
| ProjectApi.ValidateProjectBackupBudget | src/api/organization/project/__init__.py:91-126 | accepted exactly when the request is at most max(org.max_backups − Σ other projects' max_backups, 0); a request equal to it is accepted; otherwise a 422 |
| ProjectApi.BudgetStep | src/api/organization/project/__init__.py:98-103 | one more project adds its max_backups to the sum exactly when it belongs to the organization and is not excluded |
| ProjectApi.ExcludedValueIgnored | src/api/organization/project/__init__.py:99-100 | the excluded project's own value never enters the sum |
| ProjectApi.UpdateIgnoresOwnValue | src/api/organization/project/__init__.py:436-444 | a max_backups update is checked the same whatever the project holds now |
| ProjectApi.NormalizeLimits | src/api/organization/project/__init__.py:129-152 | a 422 exactly when some name is not a resource type; otherwise every item with its name parsed, in order |
| ProjectApi.ResolvePerBranchLimit | src/api/organization/project/__init__.py:253-286 | an error exactly when the override exceeds the organization's per-branch limit; otherwise override, else that limit, else the requested total, capped by the requested total |
| ProjectApi.CalculateProjectLimitPair | src/api/organization/project/__init__.py:195-250 | a missing organization limit or max_total is "limit_unconfigured"; a request above max(max_total − consumed, 0) is "exceeded"; a pair holds the requested total and its resolved per-branch limit, never above it |
| ProjectApi.NoErrorsMeansAllPairs | src/api/organization/project/__init__.py:177-191 | no error is collected exactly when every requested resource yields a pair |
| ProjectApi.CollectedPairsMeaning | src/api/organization/project/__init__.py:177-189 | the collected map holds only requested resources, each with the pair computed for it |
| ProjectApi.CalculateProjectLimits | src/api/organization/project/__init__.py:169-192 | a 422 with every collected error exactly when some resource is rejected; otherwise exactly one (total, per-branch) pair per requested resource, the total being the request |
| ProjectApi.CollectPairs | src/api/organization/project/__init__.py:177-189 | the loop collects exactly those pairs and errors |
| ProjectApi.ConsumedProjectLimits | src/api/organization/project/__init__.py:155-166 | nothing for no requested limits; otherwise totals only for requested resources |
| ProjectApi.PowerErrors | src/api/organization/project/__init__.py:509-523 | no error exactly when every power call succeeded |
| ProjectApi.CollectPowerErrors | src/api/organization/project/__init__.py:507-523 | the loop collects those errors in order |
| ProjectApi.ProjectState.Commit | src/api/organization/project/__init__.py:504 | each commit records the current status and changes nothing else |
| ProjectApi.ProjectState.PowerCycle | src/api/organization/project/__init__.py:501-570 | the transitional status is committed first, then the final one when every call succeeded, else ERROR and a 400 |
| ProjectApi.ProjectState.Suspend | src/api/organization/project/__init__.py:501-532 | PAUSING, then PAUSED when every stop succeeded, else ERROR |
| ProjectApi.ProjectState.Resume | src/api/organization/project/__init__.py:541-570 | STARTING, then STARTED when every start succeeded, else ERROR |
| ProjectApi.ProjectState.Delete | src/api/organization/project/__init__.py:474-492 | DELETING is committed; the project is deleted exactly when every deployment deletion succeeds, otherwise ERROR is committed and the failure re-raised |
| ResourcesApi.FindBranch | src/api/resources.py:49-50 | the first branch with the id, and none exactly when no branch has it |
| ResourcesApi.FindProject | src/api/resources.py:283-284 | the first project with the id, and none exactly when no project has it |
| ResourcesApi.PerBranchLimit | src/api/resources.py:78-81 | the cap is the first max_per_branch that is set in the order project, organization (Common.FirstSetMeaning), and 32000 when neither sets one |
| ResourcesApi.Remaining | src/api/resources.py:84-95 | bounded exactly when a limit row exists, and then max_total − provisioned (a zero sum is not unbounded here) |
| ResourcesApi.EffectiveBounds | src/api/resources.py:97 | the effective limit is never negative and never above the per-branch cap |
| ResourcesApi.NoLimitsGiveDefault | src/api/resources.py:78-97 | without any limit row for the resource, the effective limit is 32000 |
| ResourcesApi.EffectiveMapByValues | src/api/resources.py:57-99 | a map with an entry for every resource type, each its effective limit, is the result of the loop |
| ResourcesApi.GetEffectiveBranchLimits | src/api/resources.py:48-99 | 404 exactly for an unknown branch; otherwise the effective limit of every resource type |
| ResourcesApi.UpsertAmountMeaning | src/api/resources.py:173-181 | afterwards the branch's row for the resource holds the amount, a row was added only when none existed, and every other row is unchanged |
| ResourcesApi.ProvisionRunSnoc | src/api/resources.py:163-184 | handling one more item is one more step of the loop |
| ResourcesApi.FailureIsFinal | src/api/resources.py:165-166 | after a rejected item nothing more is written |
| ResourcesApi.ProvisionStopsAt | src/api/resources.py:163-184 | when an item is the first rejected, the request fails with its 422 and the tables are as the earlier items left them |
| ResourcesApi.RejectionKeepsEarlierWrites | src/api/resources.py:163-184 | not all-or-nothing: rows and logs written for the earlier items remain after a rejection |
| ResourcesApi.AmountAtLimitAccepted | src/api/resources.py:165 | an amount equal to its effective limit is accepted and logged |
| ResourcesApi.ProvisionLogsAreCreates | src/api/resources.py:184 | the logs only grow, by at most one per item, and every new one is a "create" for the branch |
| ResourcesApi.MeteringStore.ProvisionBranch | src/api/resources.py:150-186 | 404 without change for an unknown branch; otherwise the tables end as the item-by-item run against the limits computed once leaves them |
| ResourcesApi.MeteringStore.Upsert | src/api/resources.py:173-184 | one row upserted and one "create" log appended, nothing else changed |
| ResourcesApi.MeteringStore.SetProvisioningLimit | src/api/resources.py:274-321 | fails exactly when the scope cannot be resolved, changing nothing; otherwise the first limit row of the scope is updated or one is added |
| ResourcesApi.MeteringStore.SetConsumptionLimit | src/api/resources.py:345-383 | the same upsert on consumption limits, keyed on entity type, organization, project and resource |
| ResourcesApi.MeteringStore.MeterBranch | src/api/resources.py:430-446 | appends exactly the usage rows of the branch's provisioning rows |
| ResourcesApi.MeteringStore.MeterNext | src/api/resources.py:427-446 | one loop pass adds the branch's rows exactly when its status is the wanted one |
| ResourcesApi.MeteringStore.MonitorResources | src/api/resources.py:415-448 | one iteration appends a usage row per provisioning row of each ACTIVE_HEALTHY branch, stamped with the current minute, and changes nothing else |
| ResourcesApi.ResolveScope | src/api/resources.py:280-289 | an organization is itself, a project is looked up for its organization (404 when missing), any other entity type is a 400 |
| ResourcesApi.SetLimitRowsReadBack | src/api/resources.py:291-318 | afterwards the first matching row holds the new values; at most one row is added and no other row changes |
| ResourcesApi.SetConsumptionRowsReadBack | src/api/resources.py:362-380 | afterwards the first matching consumption row holds the new minutes; at most one row is added and no other row changes |
| ResourcesApi.OrgScopeIgnoresProjectColumn | src/api/resources.py:291-303 | an organization upsert without the project key also matches an organization row that carries a project |
| ResourcesApi.NormalizeBound | src/api/resources.py:207-214 | an aware bound is converted to naive UTC, a naive one is kept |
| ResourcesApi.GetProjectUsage | src/api/resources.py:202-231 | per-resource sums of the project's usage rows with start ≤ ts_minute < end |
| ResourcesApi.GetOrgUsage | src/api/resources.py:235-265 | per-resource sums of the organization's usage rows with start ≤ ts_minute < end |
| ResourcesApi.MeteredUsageAppend | src/api/resources.py:427-446 | metering one more branch appends its rows |
| ResourcesApi.MeteredUsageStep | src/api/resources.py:427-446 | a branch's rows are added exactly when its status is the wanted one |
| ResourcesApi.BranchesWithStatus | src/api/resources.py:427-429 | the branches whose status is the wanted one, and all of them |
| ResourcesApi.UsageForMeaning | src/api/resources.py:437-446 | one usage row per provisioning row of the branch, each copying its resource and amount with the branch's ids and the pass's minute |
| RessourcesApi.TotalAllocated | src/api/ressources.py:85-91 | 0 when the project has no provisioning rows of the resource |
| RessourcesApi.TotalAllocatedSnoc | src/api/ressources.py:85-91 | one more row adds its amount exactly when it is of the resource and on a branch of the project |
| RessourcesApi.StepAcceptance | src/api/ressources.py:130-137 | an item is accepted exactly when its amount, and the project's total plus it, both stay within the effective limit; an amount above the limit is the first 422 |
| RessourcesApi.ReprovisionAtLimitRejected | src/api/ressources.py:135-137 | re-provisioning a project's only branch with the amount it already holds at the limit is refused, because the current row is counted as well as the new amount |
| RessourcesApi.ProvisionRunSnoc | src/api/ressources.py:130-153 | handling one more item is one more step of the loop |
| RessourcesApi.FailureIsFinal | src/api/ressources.py:132-137 | after a rejected item nothing more is written |
| RessourcesApi.ProvisionStopsAt | src/api/ressources.py:118-153 | when an item is the first rejected, the request fails with its 422 and the tables are as the earlier items left them |
| RessourcesApi.ProvisionBranch | src/api/ressources.py:118-153 | 404 without change for an unknown branch; otherwise the tables end as the item-by-item run leaves them, and the request fails exactly when some item is rejected |
| RessourcesApi.SetProvisioningLimit | src/api/ressources.py:216-259 | fails exactly when the scope cannot be resolved, changing nothing; otherwise the row matching entity type, organization, exact project and resource is updated or one is added |
| RessourcesApi.GetProjectUsage | src/api/ressources.py:167-187 | per-resource sums of the project's usage rows over [cycle_start, cycle_end) |
| RessourcesApi.GetOrgUsage | src/api/ressources.py:190-210 | per-resource sums of the organization's usage rows over [cycle_start, cycle_end) |
| RessourcesApi.MonitorResources | src/api/ressources.py:349-378 | one pass appends a usage row per provisioning row of every "online" branch, stamped with the current minute, and changes nothing else |
| BackupData.UnitMultiplier | src/api/backup.py:26-31 | the seconds per unit of every alias: 60 for minutes, 3600 for hours, 86400 for days, 604800 for weeks; any other unit has no multiplier |
| BackupData.IntervalLimit | src/api/backup.py:34-39 | the largest interval per unit: 59 minutes, 23 hours, 6 days, 12 weeks; nothing for any other unit |
| BackupData.UnitTablesAgree | src/api/backup.py:26-39 | `VALID_UNITS`, `UNIT_MULTIPLIER` and `INTERVAL_LIMITS` have the same keys: a unit is valid exactly when it has a multiplier and exactly when it has a limit |
| BackupData.IntervalSeconds | src/api/backupmonitor.py:52-53 | an interval converts lower-cased exactly when its unit is valid, to interval times the multiplier; an unknown unit raises KeyError (the same function is `interval_seconds` in src/api/organization/project/backup.py:196-197) |
| BackupData.IntervalSecondsIgnoresCase | src/api/backupmonitor.py:52-53 | the unit's case does not change the conversion |
| BackupData.IntervalSecondsMinutesHours | src/api/backupmonitor.py:36-38 | "minute" converts to 60 seconds per interval and "h" to 3600 |
| BackupData.IntervalSecondsDaysWeeks | src/api/backupmonitor.py:39-40 | "days" converts to 86400 seconds per interval and "w" to 604800 |
| BackupData.IntervalSecondsUnknownUnit | src/api/backupmonitor.py:52-53 | a unit outside the table ("month") raises KeyError naming it |
| BackupData.IntervalSecondsUpperCase | src/api/backupmonitor.py:52-53 | an upper-case alias ("HOURS") converts like its lower-case form |
| BackupData.FindOrg | src/api/backup.py:102-106 | the organization found has the primary key asked for and is in the table; none is found exactly when no organization has that key |
| BackupData.FindBranch | src/api/backup.py:326-328 | the branch found has the primary key asked for and is in the table; none is found exactly when no branch has that key |
| BackupData.RowsOf | src/api/models/backups.py:21-26 | a schedule's `rows` relationship holds exactly the stored rows whose `schedule_id` is that schedule |
| BackupData.RowsWithout | src/api/backup.py:163-166 | deleting a schedule's rows keeps exactly the rows of every other schedule |
| BackupData.RemoveSchedule | src/api/backup.py:307-312 | deleting a schedule removes exactly it, its rows and its NextBackup rows, and keeps every other schedule, row and NextBackup |
| BackupData.BackupStore.constructor | src/api/models/backups.py:13-68 | the store starts with the given schedules, rows, NextBackup rows and backups, no logs and the first fresh id |
| BackupSteps.EnsureNexts | src/api/backupmonitor.py:95-110 | the ensure loop only adds NextBackup rows, keeping the existing ones as a prefix, and fails only with the KeyError of an unknown unit (the same loop is src/api/organization/project/backup.py:249-265) |
| BackupSteps.EnsureNextsCovers | src/api/backupmonitor.py:95-110 | after a successful ensure loop every row of the schedule has a NextBackup for the branch |
| BackupSteps.EnsureNextsAdds | src/api/backupmonitor.py:101-108 | every added NextBackup belongs to the branch and the schedule, names a row of the schedule and is due that row's interval from now |
| BackupSteps.EnsureNextsSucceeds | src/api/backupmonitor.py:95-110 | the ensure loop cannot fail when every row's unit is valid |
| BackupSteps.EnsureNextBackups | src/api/backupmonitor.py:95-110 | the loop as it runs leaves the NextBackup table the ensure loop computes, or unchanged with its failure reported; no other table changes |
| BackupSteps.EnsureNextsFailureIsFinal | src/api/backupmonitor.py:95-110 | once a row's unit raises, the later rows do not change the outcome |
| BackupSteps.RowBackups | src/api/backupmonitor.py:197-202 | the backups of one branch and row index, ordered oldest first, and exactly those |
| BackupSteps.RowBackupsTiesKeepTableOrder | src/api/backupmonitor.py:197-202 | backups with the same `created_at` keep their table order |
| Common.SortByStable | src/api/backupmonitor.py:197-202 | the sort by a key is stable: the elements of any one key keep their input order |
| BackupSteps.PruneCount | src/api/backupmonitor.py:203-205 | no backup goes while there are at most `retention`; otherwise `backups[:n - retention]` goes, so the newest `max(retention, 0)` stay |
| BackupSteps.DeleteLogs | src/api/backupmonitor.py:206-214 | one "delete" log entry per deleted backup, in order, naming the branch and the backup |
| BackupSteps.Prune | src/api/backupmonitor.py:196-216 | pruning never touches the NextBackup table or the id counter and only appends logs |
| BackupSteps.PruneMeaning | src/api/backupmonitor.py:196-216 | with distinct backup ids: nothing changes while the row is within retention; otherwise exactly the newest `max(retention, 0)` remain, each deleted backup is no newer than each kept one, each deletion is logged and other rows' and branches' backups stay (the same prune is src/api/organization/project/backup.py:365-375) |
| BackupSteps.PruneRowMembers | src/api/backupmonitor.py:203-214 | the row's backups after pruning are exactly the newest ones it keeps, in both directions |
| BackupSteps.PruneSurvivorsAreNewest | src/api/backupmonitor.py:205-214 | a row backup still present after pruning is among the kept newest |
| BackupSteps.PruneNewestSurvive | src/api/backupmonitor.py:205-214 | every one of the kept newest is still present after pruning |
| BackupSteps.PruneEntries | src/api/backupmonitor.py:205-214 | pruning keeps exactly the entries whose id is not doomed, and every backup of another row or branch |
| BackupSteps.PruneKeepsWellFormed | src/api/backupmonitor.py:196-216 | pruning keeps the backup ids distinct and below the next fresh id |
| BackupSteps.PruneBackups | src/api/backupmonitor.py:196-216 | the prune loop as it runs leaves the tables `Prune` describes and changes no schedule or schedule row |
| BackupSteps.DeleteBackups | src/api/backupmonitor.py:206-214 | deleting the doomed one by one leaves exactly the entries whose id is not doomed, with one "delete" log per doomed backup appended |
| BackupSteps.DeleteStep | src/api/backupmonitor.py:206-214 | one more iteration of the delete loop removes one more id and appends its log entry |
| BackupSteps.DeleteOneMore | src/api/backupmonitor.py:212-213 | deleting one more backup after a set of others is deleting the whole set |
| BackupSteps.ForEachSnoc | src/api/backupmonitor.py:69-80 | the pass over the branches with one more branch is that branch's step after the pass over the others |
| BackupSteps.ForEachSkips | src/api/backupmonitor.py:76-80 | a branch whose step changes nothing does not affect how the other branches are processed |
| BackupSteps.ForEachKeeps | src/api/backupmonitor.py:69-80 | a condition on the tables every branch step keeps holds after the whole pass |
| BackupSteps.StepsFailureIsFinal | src/api/backupmonitor.py:113-136 | once a due row fails, the loop over the rest of the due rows changes nothing more |
| BackupSteps.StepsKeep | src/api/backupmonitor.py:113-136 | a condition on the tables every due-row step keeps holds after the loop |
| BackupSteps.StepsMoveOwn | src/api/backupmonitor.py:113-136 | when each due-row step moves only its own NextBackup, the loop moves each of the first n only as each step allows and leaves the rest as they were |
| BackupMonitor.BranchLevel | src/api/backupmonitor.py:141 | the branch-level candidates are exactly the schedules on the branch |
| BackupMonitor.EnvLevel | src/api/backupmonitor.py:148-152 | the environment-level candidates are exactly the branch-less schedules of the branch's organization for the branch's environment type |
| BackupMonitor.OrgLevel | src/api/backupmonitor.py:159-163 | the organization-level candidates are exactly the branch-less schedules of the organization without an environment type |
| BackupMonitor.ResolveSchedule | src/api/backupmonitor.py:138-165 | the branch's own schedule wins, then the environment level, then the organization level; none is found exactly when all three levels are empty; it raises exactly when the first non-empty level holds two or more schedules |
| BackupMonitor.FindRow | src/api/backupmonitor.py:119-126 | the row found belongs to the schedule and has the NextBackup's row index; none is found exactly when no row does |
| BackupMonitor.Execute | src/api/backupmonitor.py:167-194 | a backup takes one fresh id; with a valid unit it records the backup, logs "taken", moves the NextBackup on by one interval and prunes the row; with an unknown unit the backup is already committed when the KeyError is raised, and the log and the NextBackup are unchanged |
| BackupMonitor.DueStep | src/api/backupmonitor.py:117-136 | one NextBackup of the due loop changes no other NextBackup and never lowers the id counter; a run that has failed goes no further |
| BackupMonitor.DueStepAdvances | src/api/backupmonitor.py:117-136 | a due-loop step moves only a due NextBackup of the branch, by one interval of its row, and leaves those of other branches as they were |
| BackupMonitor.DueRunAdvances | src/api/backupmonitor.py:113-136 | the due loop keeps the number of NextBackups and moves each only if it is the branch's and due, by one interval of its row |
| BackupMonitor.DueRunFailureIsFinal | src/api/backupmonitor.py:76-80 | once the due loop has raised, the remaining NextBackups are not visited |
| BackupMonitor.ProcessWithoutScheduleChangesNothing | src/api/backupmonitor.py:89-92 | a branch whose schedule lookup raises or finds nothing leaves the tables as they were, and the lookup's exception is what fails it |
| BackupMonitor.HasNextKept | src/api/backupmonitor.py:188 | moving NextBackups on does not lose the branch and row index of any of them |
| BackupMonitor.ProcessCoversRows | src/api/backupmonitor.py:94-110 | after a branch is processed successfully, every row of its resolved schedule has a NextBackup for the branch |
| BackupMonitor.ProcessAdvances | src/api/backupmonitor.py:82-136 | processing a branch keeps every NextBackup that existed, each unchanged or moved on by one interval of its row, and leaves those of other branches untouched |
| BackupMonitor.ExecuteKeepsWellFormed | src/api/backupmonitor.py:167-194 | a backup keeps the backup ids distinct and below the next fresh id |
| BackupMonitor.DueStepKeepsWellFormed | src/api/backupmonitor.py:117-136 | a due-loop step keeps the backup ids distinct and below the next fresh id |
| BackupMonitor.DueRunKeepsWellFormed | src/api/backupmonitor.py:113-136 | the due loop keeps the backup ids distinct and below the next fresh id |
| BackupMonitor.ProcessKeepsWellFormed | src/api/backupmonitor.py:82-136 | processing a branch keeps the backup ids distinct and below the next fresh id |
| BackupMonitor.RunOnceKeepsWellFormed | src/api/backupmonitor.py:69-80 | a whole pass keeps the backup ids distinct and below the next fresh id |
| BackupMonitor.RunOnceSkipsUnresolvable | src/api/backupmonitor.py:76-80 | a branch whose schedule lookup raises does not stop the pass: the other branches are processed as if it were absent |
| BackupMonitor.ExecuteBackup | src/api/backupmonitor.py:167-194 | `execute_backup` on the store leaves the tables and the failure `Execute` describes and changes no schedule or row |
| BackupMonitor.RunDue | src/api/backupmonitor.py:113-136 | the due loop on the store leaves the tables and the failure of the due run over all its NextBackups |
| BackupMonitor.DueOne | src/api/backupmonitor.py:118-136 | one iteration of the due loop on the store does what `DueStep` describes |
| BackupMonitor.ProcessBranch | src/api/backupmonitor.py:82-136 | `process_branch` on the store leaves the tables and the failure `Process` describes and changes no schedule or row |
| BackupMonitor.RunOnceSnoc | src/api/backupmonitor.py:76-80 | the pass over one more branch processes that branch last, on the tables the earlier branches left |
| BackupMonitor.RunOnce | src/api/backupmonitor.py:69-80 | `run_once` on the store leaves the tables of the pass over the branches in order, with each failing branch's failure discarded |
| ProjectBackup.OnlineBranches | src/api/organization/project/backup.py:217 | the branches processed are exactly the online ones, in table order |
| ProjectBackup.OrgLevelAny | src/api/organization/project/backup.py:342-345 | the organization-level candidates are every branch-less schedule of the organization, whatever its environment type |
| ProjectBackup.ResolveSchedule | src/api/organization/project/backup.py:328-346 | the branch's own schedule, else the environment level, else any branch-less schedule of the organization; none exactly when all three levels are empty |
| ProjectBackup.OrgFallbackIgnoresEnvType | src/api/organization/project/backup.py:342-345 | a lone organization schedule for another environment type serves the branch here, while the asynchronous monitor (src/api/backupmonitor.py:159-165) finds no schedule for it |
| ProjectBackup.Execute | src/api/organization/project/backup.py:287-321 | a backup takes one fresh id; with a valid unit it records the backup, logs "taken", moves the NextBackup on by one interval and prunes the row; with an unknown unit the backup and its "taken" log are already committed when the KeyError is raised, and the NextBackup is unchanged |
| ProjectBackup.DueStep | src/api/organization/project/backup.py:272-324 | one NextBackup of the due loop changes no other NextBackup and never lowers the id counter; a run that has failed goes no further |
| ProjectBackup.DueStepAdvances | src/api/organization/project/backup.py:272-324 | a due-loop step moves only a due NextBackup of the branch, by one interval of its row |
| ProjectBackup.DueRunAdvances | src/api/organization/project/backup.py:270-324 | the due loop keeps the number of NextBackups and moves each only if it is the branch's and due, by one interval of its row |
| ProjectBackup.DueRunFailureIsFinal | src/api/organization/project/backup.py:220-224 | once the due loop has raised, the remaining NextBackups are not visited |
| ProjectBackup.ProcessEmptyScheduleFails | src/api/organization/project/backup.py:249-267 | a resolved schedule without rows fails the branch with UnboundLocalError, from the log line after the ensure loop, before any backup is taken and with the tables unchanged |
| ProjectBackup.ProcessCoversRows | src/api/organization/project/backup.py:247-265 | after a branch is processed without failure, every row of its resolved schedule has a NextBackup for the branch |
| ProjectBackup.RunOnceSkipsOffline | src/api/organization/project/backup.py:217-224 | an offline branch anywhere in the branch table does not change the outcome of the pass |
| ProjectBackup.OnlineBranchesSkipOffline | src/api/organization/project/backup.py:217 | an offline branch drops out of the online branches |
| ProjectBackup.ExecuteKeepsWellFormed | src/api/organization/project/backup.py:287-321 | a backup keeps the backup ids distinct and below the next fresh id |
| ProjectBackup.DueStepKeepsWellFormed | src/api/organization/project/backup.py:272-324 | a due-loop step keeps the backup ids distinct and below the next fresh id |
| ProjectBackup.DueRunKeepsWellFormed | src/api/organization/project/backup.py:270-324 | the due loop keeps the backup ids distinct and below the next fresh id |
| ProjectBackup.ProcessKeepsWellFormed | src/api/organization/project/backup.py:233-326 | processing a branch keeps the backup ids distinct and below the next fresh id |
| ProjectBackup.RunOnceKeepsWellFormed | src/api/organization/project/backup.py:213-231 | a whole pass keeps the backup ids distinct and below the next fresh id |
| ProjectBackup.ExecuteBackup | src/api/organization/project/backup.py:287-321 | the due-loop body on the store leaves the tables and the failure `Execute` describes and changes no schedule or row |
| ProjectBackup.DueOne | src/api/organization/project/backup.py:273-324 | one iteration of the due loop on the store does what `DueStep` describes |
| ProjectBackup.RunDue | src/api/organization/project/backup.py:270-324 | the due loop on the store leaves the tables and the failure of the due run over all its NextBackups |
| ProjectBackup.ProcessBranch | src/api/organization/project/backup.py:233-326 | `process_branch` on the store leaves the tables and the failure `Process` describes and changes no schedule or row |
| ProjectBackup.RunOnceSnoc | src/api/organization/project/backup.py:220-224 | the pass over one more online branch processes that branch last, on the tables the earlier ones left |
| ProjectBackup.RunOnce | src/api/organization/project/backup.py:213-231 | `run_once` on the store leaves the tables of the pass over the online branches in order, with each failing branch's failure discarded |
| BackupUtil.BranchSchedules | src/api/_util/backups.py:25-26 | the schedules copied are exactly those of the source branch |
| BackupUtil.CopyBranchBackupSchedules | src/api/_util/backups.py:19-48 | the schedule table gains the copies of the source branch's schedules and the row table their rows; NextBackups, backups, logs and ids are untouched (a source without schedules adds nothing) |
| BackupUtil.CopySchedules | src/api/_util/backups.py:30-48 | the copy loop builds one new schedule per source, with that source's copied rows |
| BackupUtil.CopiedSchedulesMeaning | src/api/_util/backups.py:30-48 | there is one copy per schedule of the source branch; each belongs to the target branch and keeps its original's organization and environment type |
| BackupUtil.CopiesOf | src/api/_util/backups.py:33-37 | the copies of a list of schedules are one per schedule, each on the target branch with its original's organization and environment type |
| BackupUtil.CopiedRowsMeaning | src/api/_util/backups.py:31-46 | a copy's rows are in row_index order, one per row of the original, with the same index, interval, unit and retention |
| BackupUtil.CopiedRowsBelong | src/api/_util/backups.py:38-46 | every copied row belongs to the copy of one of the source schedules |
| BackupUtil.FindSchedule | src/api/_util/backups.py:83-91 | the schedule found has the key asked for; none exactly when no schedule has it |
| BackupUtil.ValidateProjectRetentionBudget | src/api/_util/backups.py:51-80 | without a project nothing is checked; otherwise the check passes exactly when the retention of the project's branch schedules, without the replaced schedule, plus the new retention is at most `max_backups` |
| BackupUtil.RetentionIgnoresReplacedRows | src/api/_util/backups.py:67-68 | the replaced schedule's rows do not count towards the project's retention |
| BackupUtil.BudgetIgnoresReplacedRows | src/api/_util/backups.py:67-73 | the budget check gives the same verdict whether or not the replaced schedule's rows are still stored |
| BackupUtil.RetentionIgnoresOtherRows | src/api/_util/backups.py:60-66 | rows of schedules not on a branch of the project add nothing to its retention |
| BackupUtil.ProjectRetentionSnoc | src/api/_util/backups.py:60-71 | one more row adds its retention exactly when it is counted |
| BackupUtil.RemoveExistingSchedule | src/api/_util/backups.py:83-100 | without a schedule nothing changes; otherwise the schedule, its rows and its NextBackups are removed and nothing else |
| BackupUtil.RemoveScheduleIdempotent | src/api/_util/backups.py:83-96 | removing a schedule twice is removing it once |
| BackupApi.ValidatePayload | src/api/backup.py:50-54 | the request model accepts the rows exactly when every unit is one of `VALID_UNITS`, and otherwise fails with 422 before the handler runs |
| BackupApi.SeenKeys | src/api/backup.py:133-138 | the `seen` set after some rows holds exactly their (interval, unit) keys |
| BackupApi.CheckRowsMeaning | src/api/backup.py:132-148 | the row checks pass exactly when the rows are acceptable (no repeated (interval, unit), valid units, intervals within their caps), and then the total is the sum of the retentions |
| BackupApi.CheckRowsFailureIsFinal | src/api/backup.py:132-148 | once a row fails the checks, the rows after it do not change the outcome |
| BackupApi.CheckRowsErrorsWithValidUnits | src/api/backup.py:132-147 | with every unit valid, the row checks fail only with the 422 duplicate error or a 400 interval-cap error |
| BackupApi.CheckRowsPass | src/api/backup.py:132-148 | a row that passes adds its key to `seen` and its retention to the total |
| BackupApi.CheckRowsStop | src/api/backup.py:132-147 | the checks stop with the first failing row's error |
| BackupApi.ValidateRows | src/api/backup.py:130-148 | the validation loop computes the outcome of the row checks |
| BackupApi.CheckRow | src/api/backup.py:133-147 | one iteration of the validation loop raises the duplicate, invalid-unit or interval-cap error in that order of checks, or nothing |
| BackupApi.ResolveTarget | src/api/backup.py:101-114 | the organization when `org_ref` is given and found, else the branch when only `branch_ref` is given and found; nothing exactly when the reference used matches no record |
| BackupApi.SchedulesFor | src/api/backup.py:117-124 | the existing-schedule candidates are exactly the schedules of that organization, branch and environment type |
| BackupApi.BudgetError | src/api/backup.py:150-160 | the total retention passes exactly when it is at most the owner's `max_backups`, and otherwise fails with 422 |
| BackupApi.PayloadRows | src/api/backup.py:177-185 | the stored rows are the payload's rows, one each, in payload order, with the schedule's id |
| BackupApi.Admit | src/api/backup.py:90-160 | an admitted request passed, in order, its unit validation, the row-count bounds (1 to 10), the owner lookup, the existing-schedule lookup, the row checks and the budget; 400 for no rows, 422 above ten rows, 404 for no owner |
| BackupApi.CheckRequest | src/api/backup.py:90-160 | the checks as the handler runs them decide as `Admit` does |
| BackupApi.ApplyRequest | src/api/backup.py:162-187 | the writes of an accepted request leave the schedule tables `Apply` describes and change no backup, log or id |
| BackupApi.AddOrReplaceBackupSchedule | src/api/backup.py:65-190 | the handler as it runs leaves the outcome and the schedule tables of the checks followed by the writes |
| BackupApi.AddOrReplaceAccepts | src/api/backup.py:90-160 | a successful call had one to ten rows, acceptable rows with distinct row indexes, a found owner and a total retention within its `max_backups` |
| BackupApi.AddOrReplaceReplacesRows | src/api/backup.py:162-187 | after a successful call the schedule's rows are exactly the payload's, in order; every other schedule keeps its rows and the NextBackups are untouched |
| BackupApi.ApplyReplacesRows | src/api/backup.py:162-187 | the writes succeed on a payload with distinct row indexes and leave the schedule with exactly the payload's rows, every other schedule with its own |
| BackupApi.NewRowsAreTheSchedule | src/api/backup.py:177-185 | rows added for a schedule that has none are its rows |
| BackupApi.OtherRowsKept | src/api/backup.py:163-185 | deleting one schedule's rows and adding rows for it leaves every other schedule's rows as they were |
| BackupApi.AddOrReplaceRejections | src/api/backup.py:90-187 | a rejected call changes nothing, except a repeated `row_index`: the unique index fails the final insert after the old rows were deleted or the new schedule stored, so that schedule is left without rows |
| BackupApi.AdmitNeverViolatesIndex | src/api/backup.py:90-160 | the checks fail only with HTTP errors or the ambiguous-lookup exception, never with the unique-index violation |
| BackupApi.CheckRowsHttp | src/api/backup.py:132-148 | the row checks fail only with HTTP errors |
| BackupApi.InvalidUnitBranchUnreachable | src/api/backup.py:140-141 | the handler's "Invalid unit" error is never returned, because the request model has already refused every invalid unit |
| BackupApi.AdmitNeverInvalidUnit | src/api/backup.py:140-141 | the checks never end in the "Invalid unit" error |
| BackupApi.NotInvalidUnit | src/api/backup.py:90-91 | neither the no-rows error nor a row-check error of valid units is the "Invalid unit" error |
| BackupApi.SchedulesToDelete | src/api/backup.py:292-302 | the schedules selected for deletion are exactly those of the organization (and environment type, when given), else of the branch |
| BackupApi.DeleteSchedule | src/api/backup.py:286-315 | `delete_schedule` on the store leaves the outcome and tables of `DeleteScheduleOutcome` and touches no backup, log or id |
| BackupApi.DeleteScheduleMeaning | src/api/backup.py:304-313 | a successful deletion selected exactly one schedule, and removes it, its rows and its NextBackups while everything else stays |
| BackupApi.DeleteScheduleRejects | src/api/backup.py:300-306 | without a reference the result is 400; with no matching schedule it is 404 and nothing changes |
| BackupApi.DeleteByOrgIsAmbiguous | src/api/backup.py:293-305 | deleting by organization without an environment type raises MultipleResultsFound when the organization has two schedules |
| BackupApi.OrgMatchesTwo | src/api/backup.py:293-296 | two schedules of the organization are both selected when no environment type is given |
| BackupApi.ManualBackup | src/api/backup.py:323-346 | an unknown branch gives 404 and changes nothing; otherwise one backup with row index -1 and size 0 and one "manual-create" log for it are added, under a fresh id |
| BackupSnapshots.UuidOfText | src/api/backup_snapshots.py:45 | a written UUID converts to a UUID value |
| BackupSnapshots.UuidText | src/api/backup_snapshots.py:45 | a UUID value is written in the 8-4-4-4-12 hex form |
| BackupSnapshots.ParseSnapshotId | src/api/backup_snapshots.py:37-45 | a handle parses exactly when it is a non-empty colon-free prefix, ':' and a written UUID, to a UUID value; anything else raises ValueError("invalid snapshotHandle") |
| BackupSnapshots.ParseSnapshotIdRoundTrip | src/api/backup_snapshots.py:37-45 | a handle written from a UUID under any colon-free prefix parses back to that UUID |
| BackupSnapshots.ParseSnapshotIdRejects | src/api/backup_snapshots.py:37-44 | a handle without ':' or with an empty prefix does not parse |
| BackupSnapshots.CleanChar | src/api/backup_snapshots.py:58 | each character becomes one of `[a-z0-9-]`; one already in that set stays |
| BackupSnapshots.CleanLabel | src/api/backup_snapshots.py:58 | cleaning maps the label character by character, keeping its length |
| BackupSnapshots.CollapseDashes | src/api/backup_snapshots.py:59 | collapsing leaves no two adjacent dashes, never lengthens, keeps the first and last characters and the character set, and changes nothing without a double dash |
| BackupSnapshots.LStripDash | src/api/backup_snapshots.py:59 | left-stripping keeps a suffix that does not start with '-', and changes nothing when there is no leading '-' |
| BackupSnapshots.StripDashes | src/api/backup_snapshots.py:59 | stripping leaves no leading or trailing '-', keeps the character set and the absence of double dashes, and changes nothing without a leading or trailing '-' |
| BackupSnapshots.SanitizeLabel | src/api/backup_snapshots.py:57-60 | a sanitised label is non-empty, of `[a-z0-9-]`, without double, leading or trailing dashes |
| BackupSnapshots.SanitizeLabelFixedPoints | src/api/backup_snapshots.py:57-60 | a label sanitises to itself exactly when it already has the sanitised shape, so sanitising is idempotent |
| BackupSnapshots.SanitizedIsFixed | src/api/backup_snapshots.py:57-60 | a label of the sanitised shape sanitises to itself |
| BackupSnapshots.SanitizeLabelExamples | src/api/backup_snapshots.py:57-60 | the empty label and a label of dashes fall back to "backup"; upper case is folded and other characters become single separators |
| BackupSnapshots.SnapshotName | src/api/backup_snapshots.py:63-76 | a snapshot name is at most 63 characters |
| BackupSnapshots.SnapshotNameShape | src/api/backup_snapshots.py:70-76 | the name is the sanitised label cut to the room the id leaves, '-' and the id, keeping at least one label character; an id leaving no room is cut to 63 characters alone |
| BackupSnapshots.BuildSnapshotName | src/api/backup_snapshots.py:63-76 | the name built from a ULID is at most 63 characters |
| BackupSnapshots.BuildSnapshotNameHoldsId | src/api/backup_snapshots.py:63-76 | for a ULID the name is at most 36 label characters, '-' and the lower-cased id, and the id reads back from its last 26 characters |
| BackupSnapshots.PresentUuids | src/api/backup_snapshots.py:242 | the snapshot UUIDs are exactly the entries' non-null ones, in order |
| BackupSnapshots.ParseAll | src/api/backup_snapshots.py:246-249 | a successful conversion keeps the number of UUIDs |
| BackupSnapshots.ParseAllMeaning | src/api/backup_snapshots.py:246-249 | the conversion fails exactly when one text does not convert, and otherwise converts each text in place |
| BackupSnapshots.UsedSizeById | src/api/backup_snapshots.py:260 | an id has a used size exactly when it is listed, and it is that of the last listed snapshot with the id |
| BackupSnapshots.BranchSnapshotsUsedSize | src/api/backup_snapshots.py:236-267 | entries without snapshot UUIDs use 0 bytes; every failure is a VelaSimplyblockAPIError; snapshots missing from the listing are named in its message, each once, in ascending order, joined by ", " |
| BackupSnapshots.BranchSnapshotsUsedSizeSucceeds | src/api/backup_snapshots.py:242-267 | the size is known exactly when there is no UUID, or every UUID converts, the listing succeeds and lists each of them |
| BackupSnapshots.PresentUuidsAppend | src/api/backup_snapshots.py:242 | the UUIDs of two lists of entries are those of the first followed by those of the second |
| BackupSnapshots.ParseAllAppend | src/api/backup_snapshots.py:247 | converting two lists together is converting each |
| BackupSnapshots.SumSizesAppend | src/api/backup_snapshots.py:267 | the size sum over two lists of ids is the sum of their sums |
| BackupSnapshots.UsedSizeAdds | src/api/backup_snapshots.py:236-267 | the used size of two lists of entries together is the sum of theirs |
| BackupSnapshots.UsedSizeCountsDuplicates | src/api/backup_snapshots.py:267 | the sum runs over the entries, not the distinct snapshots: listing the same backups twice doubles the size |
| BackupSnapshots.DeleteBranchSnapshot | src/api/backup_snapshots.py:157-204 | without a name or a namespace nothing is removed |
| BackupSnapshots.DeleteBranchSnapshotMeaning | src/api/backup_snapshots.py:173-196 | with a name and a namespace the snapshot is removed exactly when it exists; the caller's content name, else the one the snapshot is bound to, is removed last; at most one content is removed |
| BranchModel.StatusFromValue | src/models/branch.py:341-358 | a value maps back only to the member whose value it is |
| BranchModel.StatusValueRoundTrip | src/models/branch.py:341-358 | every member is found again from its value, so the fifteen values are distinct |
| BranchModel.ParseResizeStatus | src/models/branch.py:521-528 | a text is a key of `RESIZE_STATUS_PRIORITY` only as the name of that status |
| BranchModel.ResizeStatusRoundTrip | src/models/branch.py:521-528 | every resize status is found again from its name |
| BranchModel.PriorityInjective | src/models/branch.py:521-528 | no two resize statuses share a priority |
| BranchModel.ShouldTransitionMeaning | src/models/branch.py:553-564 | the guard refuses a status outside the table and the current status again, accepts FAILED over anything else and anything over no status, and otherwise accepts exactly a higher priority |
| BranchModel.FailedIsAbsorbing | src/models/branch.py:553-564 | once FAILED, no proposal replaces it |
| BranchModel.TimestampAsDatetime | src/models/branch.py:539-550 | an empty timestamp reads as `datetime.min` |
| BranchModel.ZuluIsUtc | src/models/branch.py:544 | a trailing 'Z' means the same instant as "+00:00" |
| BranchModel.UnparseableIsMin | src/models/branch.py:543-547 | a timestamp the ISO parser refuses reads as `datetime.min` |
| BranchModel.ValidateEntry | src/models/branch.py:531-537 | an entry validates exactly when it is an object with a timestamp and a status of the table, keeping both; extra members are ignored |
| BranchModel.AggregateIsLatest | src/models/branch.py:567-596 | the aggregation's timestamp is at least `datetime.min` and every valid entry's, and its status is NONE at `datetime.min` or the status of a valid entry with exactly that timestamp |
| BranchModel.StrictlyLatestWins | src/models/branch.py:578-596 | a valid entry strictly later than every other valid entry decides the aggregate, wherever it sits in the map |
| BranchModel.LatestAtItself | src/models/branch.py:591-595 | right after the strictly latest entry the loop holds its status and timestamp |
| BranchModel.LatestFrom | src/models/branch.py:578-595 | after the strictly latest entry, later entries do not change the loop's status and timestamp |
| BranchModel.AggregateResizeStatuses | src/models/branch.py:567-596 | the loop with its running status and timestamp computes the aggregate |
| BranchModel.Lookup | src/deployment/monitors/resize/__init__.py:90 | `d.get(key)` finds nothing exactly when no member has the key |
| BranchModel.Values | src/models/branch.py:578 | the values are the members' values, in insertion order |
| BranchModel.PutLookup | src/deployment/monitors/resize/__init__.py:100-103 | after `d[key] = value` the key maps to the value and every other key is unchanged |
| BranchModel.LookupAt | src/deployment/monitors/resize/__init__.py:90 | with distinct keys every member is found by its key |
| BranchModel.LookupIndex | src/deployment/monitors/resize/__init__.py:90 | a key that is found belongs to a member with that value |
| BranchModel.PutShape | src/deployment/monitors/resize/__init__.py:100-103 | an existing key is overwritten in place; a new key is appended at the end |
| BranchModel.PutKeys | src/deployment/monitors/resize/__init__.py:100-103 | the keys after the write are the keys before plus the written key |
| BranchModel.PutDistinct | src/deployment/monitors/resize/__init__.py:100-103 | the write keeps the keys distinct |
| BranchModel.ParseStatusInput | src/models/branch.py:137-143 | a text that is no member's value becomes UNKNOWN; otherwise the member with that value |
| BranchModel.Branch.constructor | src/models/branch.py:57-63 | a status given without a timestamp is normalised to a member's value with the timestamp set to now; a status given with a timestamp is stored as given; without a status the branch holds the field default "UNKNOWN" (src/models/branch.py:101-104) and the timestamp given |
| BranchModel.Branch.SetStatus | src/models/branch.py:136-148 | without `force_timestamp` an unchanged status keeps the row as it was; otherwise the parsed status is stored with the timestamp now |
| BranchModel.SetStatusNormalises | src/models/branch.py:136-147 | after `set_status` the field holds a member's value |
| BranchModel.IntOrZero | src/models/branch.py:201-204 | a missing or null member reads as 0 and any other as itself |
| BranchModel.ResourceUsageSnapshot | src/models/branch.py:197-206 | a snapshot is a valid usage whose storage figure is the payload's, and it exists only when the payload's counters are non-negative |
| BranchModel.SnapshotOfStored | src/models/branch.py:194-206 | storing a valid usage and taking a snapshot gives the same usage back |
| BranchModel.DefaultPayloadSnapshot | src/models/branch.py:44-51 | the default payload and a missing payload both read as zero usage with no storage figure |
| BranchModel.ValidateBranchCreate | src/models/branch.py:270-275 | a branch creation is valid exactly when one of source, deployment and restore is given, and it is then kept; otherwise ValueError |
| ApiBranchModel.ShouldTransition | src/api/models/branch.py:456-467 | the guard only ever accepts a status of the table that differs from the current one |
| ApiBranchModel.ShouldTransitionAgrees | src/api/models/branch.py:456-467 | this copy of the guard decides exactly as the one in src/models/branch.py:553-564 |
| ApiBranchModel.TimestampAsDatetime | src/api/models/branch.py:442-453 | an empty timestamp reads as `datetime.min` |
| ApiBranchModel.TimestampAgrees | src/api/models/branch.py:442-453 | this copy reads every timestamp as the one in src/models/branch.py:539-550 does |
| ApiBranchModel.AggregateResizeStatuses | src/api/models/branch.py:470-499 | this copy of the aggregation loop computes exactly the aggregate of src/models/branch.py:567-596 |
| ApiBranchModel.ValidateBranchCreate | src/api/models/branch.py:193-198 | a creation is valid exactly when one of source, deployment and restore is given, deciding as the other model's validator does |
| ApiBranchModel.ValidatePgbouncerUpdate | src/api/models/branch.py:209-249 | an update is accepted exactly when every given value is at least its default and at least one is given, and is then kept; an update giving nothing raises the "at least one" ValueError |
| ApiBranchModel.ProvisionedResources | src/api/models/branch.py:89-98 | the provisioning envelope carries the branch's vCPU, memory as `ram_bytes`, database size as `nvme_bytes`, IOPS and storage size, and exists exactly when those satisfy the definition's constraints |
| ApiBranchModel.Matching | src/api/models/branch.py:567 | the rows queried are exactly those of the project with the id |
| ApiBranchModel.Lookup | src/api/models/branch.py:565-570 | a branch found is of the project and has the id; no match is 404; exactly one match is found; two or more matches raise MultipleResultsFound |
| ApiBranchModel.LookupIsScopedToProject | src/api/models/branch.py:565-570 | a branch of another project is never found, even with the right id |
| BranchStatusMonitor.ParseBranchStatus | src/api/organization/project/branch/status.py:36-46 | a member passes through; text is upper-cased and becomes the member with that value, or UNKNOWN; no value is UNKNOWN |
| BranchStatusMonitor.StatusValueIsUpper | src/models/branch.py:344-358 | every member's value is already upper case |
| BranchStatusMonitor.UpperValuesLifecycle | src/models/branch.py:344-348 | the values of ACTIVE_HEALTHY to CREATING are upper case |
| BranchStatusMonitor.UpperValuesTransition | src/models/branch.py:349-353 | the values of DELETING to PAUSING are upper case |
| BranchStatusMonitor.UpperValuesSettled | src/models/branch.py:354-358 | the values of PAUSED to RESIZING are upper case |
| BranchStatusMonitor.ParseStoredValue | src/api/organization/project/branch/status.py:39-44 | a stored member value parses back to that member |
| BranchStatusMonitor.ParseIgnoresCase | src/api/organization/project/branch/status.py:41 | parsing text does not depend on its letter case |
| BranchStatusMonitor.ShouldUpdateBranchStatus | src/api/organization/project/branch/status.py:61-95 | an unchanged status is never written; while RESIZING with an active resize only ERROR is; STARTING never moves to STOPPED; PAUSED moves only to ACTIVE_HEALTHY or ERROR; STOPPED is refused from transitional statuses but STOPPING; ACTIVE_HEALTHY, ACTIVE_UNHEALTHY, STOPPED and ERROR are written past these guards; UNKNOWN only from a status neither transitional nor protected |
| BranchStatusMonitor.AdjustDerivedStatusForStuckCreation | src/api/organization/project/branch/status.py:98-123 | only a derived STOPPED is adjusted, and it becomes ERROR exactly when the branch has been CREATING or STARTING for at least five minutes since its status time (or its creation) |
| BranchStatusMonitor.EscalationNeedsFiveMinutes | src/api/organization/project/branch/status.py:104-121 | an escalation to ERROR means the branch was CREATING or STARTING and 300 seconds had passed |
| BranchStatusMonitor.ProbedStatus | src/api/organization/project/branch/status.py:137-145 | a monitor that raises gives UNKNOWN, and a status derived from the probed services is never ERROR |
| BranchStatusMonitor.RefreshBranchStatus | src/api/organization/project/branch/status.py:126-163 | a missing branch gives UNKNOWN; otherwise the adjusted derived status is written with a fresh timestamp and returned when the guard allows it, else the row is unchanged and the current status returned; either way the result is what the row then holds |
| BranchStatusMonitor.RefreshIsStable | src/api/organization/project/branch/status.py:136-163 | a branch already showing what its services show is not rewritten |
| BranchStatusMonitor.FailedProbeKeepsStatus | src/api/organization/project/branch/status.py:143-157 | a transitional or PAUSED branch keeps its status when the monitor cannot be read |
| BranchStatusMonitor.StuckEscalationIsUndone | src/api/organization/project/branch/status.py:98-163 | a branch stuck in CREATING with its services down is escalated to ERROR, and the next refresh with the services still down writes STOPPED over that ERROR |
| BranchStatusMonitor.NormalizedEntriesMeaning | src/api/organization/project/branch/status.py:166-184 | a service keeps its entry exactly when the entry validates; typed entries stay as they are and objects keep their status and timestamp |
| BranchStatusMonitor.NormalizeResizeStatuses | src/api/organization/project/branch/status.py:166-184 | the normalisation loop builds exactly the validated entries |
| Health.ConsideredStatuses | src/deployment/health.py:27-33 | the services considered are database, meta and rest, and storage exactly when file storage is enabled |
| Health.DeriveBranchStatus | src/deployment/health.py:22-43 | the derived status is one of ACTIVE_HEALTHY, ERROR, STOPPED, UNKNOWN and ACTIVE_UNHEALTHY (the same derivation is src/api/organization/project/branch/status.py:187-208) |
| Health.AllAreEveryService | src/deployment/health.py:35-41 | `all` and `any` over the list agree with the statement over the considered services |
| Health.DeriveMeaning | src/deployment/health.py:35-43 | healthy exactly when every considered service is; ERROR exactly when any is; STOPPED exactly when none is ERROR and all are STOPPED; UNKNOWN exactly when none is ERROR, not all are STOPPED and one is UNKNOWN; ACTIVE_UNHEALTHY otherwise |
| Health.StorageIgnoredWhenDisabled | src/deployment/health.py:32-33 | without file storage the storage service does not affect the result |
| Health.UniformStatus | src/deployment/health.py:35-42 | services that all agree on ACTIVE_HEALTHY, ERROR, STOPPED or UNKNOWN give that status |
| Health.Reachability | src/deployment/health.py:79-84 | a service is ACTIVE_HEALTHY exactly when the monitor reports it up, and STOPPED otherwise |
| Health.CollectBranchServiceHealth | src/deployment/health.py:67-85 | without a reading or without services every field is UNKNOWN; otherwise each field is healthy exactly when its service is up, and stopped otherwise |
| Health.CollectedNeverError | src/deployment/health.py:67-85 | collected health never derives ERROR: without a reading it is UNKNOWN, otherwise healthy, stopped or unhealthy |
| Health.CollectedHealthy | src/deployment/health.py:67-85 | the branch is healthy exactly when every considered service is up, and stopped exactly when none is |
| PvcResize.StorageSuffixEndsInPvc | src/deployment/monitors/resize/pvc_resize.py:51-54 | every storage PVC name also ends in "-pvc", which is why the storage test must come first |
| PvcResize.ResourceFromPvcNameMeaning | src/deployment/monitors/resize/pvc_resize.py:49-55 | a name ending in "-storage-pvc" is storage, one ending in "-pvc" otherwise is the database, and any other name belongs to no service |
| PvcResize.EndsWithSuffix | src/deployment/monitors/resize/pvc_resize.py:51-53 | a name built with a suffix ends in that suffix |
| PvcResize.StoragePvcName | src/deployment/__init__.py:73 | the deployment's storage volume is attributed to storage |
| PvcResize.DatabasePvcName | src/deployment/__init__.py:74 | the deployment's database volume is attributed to the database |
| PvcResize.AutoscalerPvcName | src/deployment/__init__.py:75 | the autoscaler's block-data volume belongs to no service |
| PvcResize.LowerUpperChar | src/deployment/monitors/resize/pvc_resize.py:24 | lower-casing an upper-cased character is lower-casing it |
| PvcResize.FailurePatternIgnoresCase | src/deployment/monitors/resize/pvc_resize.py:20-25 | the failure pattern matches regardless of letter case |
| PvcResize.FailurePatternFromWords | src/deployment/monitors/resize/pvc_resize.py:20-25 | a resize word and a failure word on one line match, in either order |
| PvcResize.WordsOfTwoLines | src/deployment/monitors/resize/pvc_resize.py:20-25 | the words of "resize\nfailed" start only at 0 and 7 |
| PvcResize.ResizeWordLetter | src/deployment/monitors/resize/pvc_resize.py:21 | a resize word begins with 'r' |
| PvcResize.FailureWordLetter | src/deployment/monitors/resize/pvc_resize.py:21 | a failure word begins with 'f' or 'e' |
| PvcResize.FailurePatternNeedsOneLine | src/deployment/monitors/resize/pvc_resize.py:20-25 | `.` does not cross a newline, so the two words on separate lines do not match |
| PvcResize.ResizeThenFailure | src/deployment/monitors/resize/pvc_resize.py:21 | "resize failed" matches |
| PvcResize.FailureThenResize | src/deployment/monitors/resize/pvc_resize.py:23 | "failed to resize volume" matches |
| PvcResize.DeriveStatus | src/deployment/monitors/resize/pvc_resize.py:58-72 | an event never announces PENDING or NONE |
| PvcResize.DeriveStatusMeaning | src/deployment/monitors/resize/pvc_resize.py:58-72 | the reason table decides first, without regard to case: RESIZING, FILESYSTEM_RESIZE_PENDING, COMPLETED or FAILED for exactly their reasons; for any other reason FAILED exactly when a Warning's message matches the failure pattern, else nothing |
| PvcResize.ReasonTakesPrecedence | src/deployment/monitors/resize/pvc_resize.py:62-69 | a known reason decides whatever the event type and message |
| PvcResize.DeriveStatusIgnoresCase | src/deployment/monitors/resize/pvc_resize.py:60-70 | the reason and the event type are compared without regard to case |
| PvcResize.NormalEventWithoutReason | src/deployment/monitors/resize/pvc_resize.py:70-72 | a Normal event without a known reason announces nothing |
| PvcResize.ReplaceTrailingOffset | src/deployment/monitors/resize/pvc_resize.py:46 | replacing "+00:00" in a rendering without its own '+' only turns the trailing offset into "Z" |
| PvcResize.NormalizeIsoTimestampEndsInZ | src/deployment/monitors/resize/pvc_resize.py:40-46 | the instant is rendered with a trailing "Z" in place of "+00:00" |
| PvcResize.NormalizeIsoTimestampInstants | src/deployment/monitors/resize/pvc_resize.py:42-46 | no value means now, a naive value means the same as at offset zero, and equal instants give equal text |
| PvcResize.NormalizedTimestampRoundTrip | src/deployment/monitors/resize/pvc_resize.py:40-46 | the recorded text reads back as the same instant through `timestamp_as_datetime` (src/models/branch.py:539-550), given a parser that inverts the renderer |
| PvcResize.HandleStreamErrorMeaning | src/deployment/monitors/resize/pvc_resize.py:196-214 | a 410 resyncs from "0" at once with the initial backoff; any other error keeps the resource version, sleeps the current backoff and doubles it up to the 60-second cap |
| PvcResize.Pow2 | src/deployment/monitors/resize/pvc_resize.py:213 | each power of two is at least 1 |
| PvcResize.MinDouble | src/deployment/monitors/resize/pvc_resize.py:213 | doubling under the cap and then n more doublings is n + 1 doublings under the cap |
| PvcResize.BackoffGrowth | src/deployment/monitors/resize/pvc_resize.py:241-246 | without a 410 the backoff after n errors is the start doubled n times, capped at 60 |
| PvcResize.BackoffReachesCap | src/deployment/monitors/resize/pvc_resize.py:32-33 | from the initial 5 seconds, four failed retries reach the 60-second cap |
| PvcResize.PowGrows | src/deployment/monitors/resize/pvc_resize.py:32-33 | two to a power of at least 4 is at least 16 |
| ResizeMonitor.ServiceKey | src/deployment/monitors/resize/__init__.py:85 | the database volume maps to the database_disk_resize entry, the storage volume to storage_api_disk_resize, and any other resource (or none) to no entry |
| ResizeMonitor.EntryStatus | src/deployment/monitors/resize/__init__.py:90-97 | a service entry has a current status exactly when it is an object whose status is a known resize status, and that status is then the one stored |
| ResizeMonitor.VolumeStatusUpdateMeaning | src/deployment/monitors/resize/__init__.py:85-110 | an event for a known service is accepted exactly when the transition guard accepts it over that service's entry, and then writes that entry with the event's timestamp, keeps every other entry and recomputes the aggregate; an event without a service is judged against the branch's resize status, which it replaces; a rejected or status-less event changes nothing |
| ResizeMonitor.FailedEntryIsFinal | src/deployment/monitors/resize/__init__.py:90-99 | once a service's entry is FAILED, no later event for that service is accepted |
| ResizeMonitor.AcceptedRaisesPriority | src/deployment/monitors/resize/__init__.py:99-105 | an accepted event never lowers the priority of the service's entry |
| ResizeMonitor.LatestEventDecidesAggregate | src/deployment/monitors/resize/__init__.py:100-105 | when the written entry is strictly later than every other valid entry, the branch's aggregate resize status becomes the event's status |
| ResizeMonitor.SetBranchStatus | src/deployment/monitors/resize/__init__.py:134-144 | a FAILED or COMPLETED resize re-derives the branch's service status from the VM's health (through set_status, which stamps the time only on a change); any other resize status leaves the branch alone |
| ResizeMonitor.SizeRequest | src/deployment/monitors/resize/__init__.py:113-129 | the request sets exactly one resource, the one named "<resource>_size" after the resized volume, and sets it to the new capacity |
| ResizeMonitor.ApplyResizeFields | src/deployment/monitors/resize/__init__.py:99-111 | an accepted update stores the new entry map and aggregate and refreshes the service status; a rejected one changes none of those fields |
| ResizeMonitor.RecordSize | src/deployment/monitors/resize/__init__.py:113-129 | after an accepted COMPLETED event with a capacity, the volume's size is upserted into the branch's provisioning with its audit log and written to the branch's size field; otherwise no size or provisioning row changes |
| ResizeMonitor.ApplyToBranch | src/deployment/monitors/resize/__init__.py:85-131 | the branch's resize fields, service status, size fields and provisioning rows end up exactly as the update and size rules above say |
| ResizeMonitor.ApplyVolumeStatus | src/deployment/monitors/resize/__init__.py:66-131 | an unknown branch id changes nothing; a known one is updated as ApplyToBranch states |
| ResizeMonitor.EventBranch | src/deployment/monitors/resize/__init__.py:149-158 | an event names a branch exactly when its object has a non-empty namespace and name and the namespace parses as a branch namespace, and the branch is the one parsed |
| ResizeMonitor.EventOfBranchNamespace | src/deployment/__init__.py:95-112 | an event in the namespace a branch is deployed to is attributed to that branch |
| ResizeMonitor.EventCapacity | src/deployment/monitors/resize/__init__.py:161-163 | a capacity is passed on only for a COMPLETED event, and it is then the fetched one |
| ResizeMonitor.HandlePvcEvent | src/deployment/monitors/resize/__init__.py:147-180 | an event outside any branch namespace, or for a branch with no row, changes nothing; otherwise the branch is updated with the derived status, the normalised timestamp (last timestamp, else event time, else creation time), the resource named by the PVC and the capacity rule above |
| ResizeMonitor.StopEvent.constructor | src/deployment/monitors/resize/__init__.py:200 | a new stop event is unset |
| ResizeMonitor.MonitorTask.constructor | src/deployment/monitors/resize/__init__.py:206 | a new task watches the given stop event and is not cancelled |
| ResizeMonitor.Monitor.constructor | src/deployment/monitors/resize/__init__.py:199-201 | a new monitor has an unset stop event and no task |
| ResizeMonitor.Monitor.Start | src/deployment/monitors/resize/__init__.py:203-206 | a running task is kept; without one a fresh, uncancelled task watching the current stop event is started |
| ResizeMonitor.Monitor.Stop | src/deployment/monitors/resize/__init__.py:208-217 | without a task nothing changes; otherwise the old event is set, the old task cancelled, and the monitor is left with no task and a fresh, unset event |
| MemoryResize.LoadResizeEntry | src/deployment/monitors/resize/memory_resize.py:96-109 | a dictionary entry is copied member for member, a typed entry is dumped to its status name and timestamp, and anything else yields neither a status nor a timestamp |
| MemoryResize.LoadKeepsEntry | src/deployment/monitors/resize/memory_resize.py:96-109 | a loaded entry, stored back, validates exactly as the original did, and a dictionary entry comes back unchanged |
| MemoryResize.MemoryRefreshMeaning | src/deployment/monitors/resize/memory_resize.py:27-70 | a branch without a database_memory_resize entry, or with an unknown target memory, is left alone; otherwise the new status is COMPLETED exactly when the pod's memory is known and at least the target and RESIZING else, and it is written unless it equals the stored status (PENDING when there is none) while the branch memory already matches; a written entry carries the new status and timestamp and keeps every other member except requested_value |
| MemoryResize.FailedEntryCanComplete | src/deployment/monitors/resize/memory_resize.py:55-68 | there is no priority guard: a FAILED entry is overwritten with COMPLETED once the pod has the target memory |
| MemoryResize.MissingStatusIsPending | src/deployment/monitors/resize/memory_resize.py:34-63 | an entry with no status counts as PENDING, which is never the new status, so it is written as soon as the target is known |
| MemoryResize.MemoryRefreshSettles | src/deployment/monitors/resize/memory_resize.py:55-75 | a second refresh with the same readings, after the first one's write, changes nothing |
| MemoryResize.RefreshMemoryStatus | src/deployment/monitors/resize/memory_resize.py:24-88 | the branch's entry map, aggregate resize status and memory change exactly as the refresh decision says: untouched on no change; otherwise the entry is written, the aggregate recomputed over all entries, and on COMPLETED the memory set to the target |
| Deployment.DeploymentNamespace | src/deployment/_util.py:5-12 | the namespace ends in the lower-cased branch id, and is "<prefix>-<id>" when a prefix is configured and the bare id otherwise |
| Deployment.DeploymentBranch | src/deployment/__init__.py:95-112 | a namespace (compared stripped and lower-cased) that lacks the configured prefix token is refused with a prefix mismatch; otherwise the rest of it, upper-cased, is parsed as the branch ULID and a malformed one is refused as invalid |
| Deployment.LowerUlidHasNoSpace | src/deployment/__init__.py:98-99 | a lower-cased ULID has 26 characters and no blank, so stripping leaves it unchanged |
| Deployment.NamespaceRoundTrip | src/deployment/_util.py:5-12 | for a prefix without surrounding blanks, the namespace of a branch is mapped back to that branch |
| Deployment.ForeignNamespaceRefused | src/deployment/__init__.py:100-105 | a namespace that does not start with the prefix token is refused, whatever follows |
| Deployment.BranchStorageClassName | src/deployment/__init__.py:91-92 | the storage class is "sc-" followed by the lower-cased branch id, with no upper-case letter |
| Deployment.BranchDnsLabel | src/deployment/__init__.py:115-118 | the DNS label is the branch id in lower case, and upper-casing it gives the id back |
| Deployment.BranchApiDomain | src/deployment/__init__.py:130-136 | without a (stripped) domain suffix there is no API domain; otherwise it is lower case and starts with the branch's DNS label and a dot |
| Deployment.BranchDbDomain | src/deployment/__init__.py:121-127 | without a domain suffix the call fails with the missing-suffix error; otherwise the database domain is the API domain under "db." |
| Deployment.BranchRestEndpoint | src/deployment/__init__.py:139-148 | there is an endpoint exactly when there is an API domain; it is https://<domain>/rest on port 443 and carries the port otherwise |
| Deployment.ReleaseFullname | src/deployment/__init__.py:155-157 | the full name always contains the chart name: the release name when it already does, and "<release>-vela" otherwise |
| Deployment.AutoscalerVmName | src/deployment/__init__.py:160-162 | the VM name is a prefix of "<fullname>-autoscaler-vm" of at most 63 characters that does not end in '-' |
| Deployment.BranchServiceName | src/deployment/__init__.py:165-166 | the component reads back from the end of the service name, after a '-' that follows the release's full name |
| Deployment.ServiceNamesDistinct | src/deployment/__init__.py:165-166 | two different components of one release never get the same service name |
| Deployment.AutoscalerVmIdentity | src/deployment/__init__.py:632-638 | a branch's VM lives in the branch's namespace under the autoscaler VM name |
| Deployment.TruncQuarter | src/deployment/__init__.py:645 | the result has the sign of the input, and four times it is at most the input in magnitude and less than four away from it, so int() truncates toward zero for negative inputs too |
| Deployment.CpuRequestMilli | src/deployment/__init__.py:645 | the CPU request is a quarter of the limit rounded down, and never below 1 |
| Deployment.CalculateCpuResources | src/deployment/__init__.py:641-647 | the limit is the given thousandths of a CPU and the request the quarter rule above, both as "<n>m" quantities |
| Deployment.CpuQuantitiesReadBack | src/deployment/__init__.py:641-647 | both quantities end in "m" and read back as the numbers they were made from |
| Deployment.CalculateAutoscalerVmCpus | src/deployment/__init__.py:650-659 | min and max are the fixed vCPU bounds and use is the requested CPU, at least 1, as "<n>m" quantities |
| Deployment.DesiredSlots | src/deployment/__init__.py:667-669 | the slot count is the least number of 256 MiB slots that holds the memory (at least one MiB) |
| Deployment.CalculateAutoscalerVmMemory | src/deployment/__init__.py:662-677 | the slot size is 256Mi, min and max are the fixed slot bounds, and use and limit are the desired slots clamped to them |
| Deployment.SlotFloorDominates | src/deployment/__init__.py:667-677 | with the slot bounds as configured, every memory size up to a pebibyte gets the minimum slot count |
| Deployment.QosParameters | src/deployment/__init__.py:245-253 | the parameters keep every base key and value and add the four QoS keys: the IOPS figure and three zero MB limits |
| Deployment.BuildStorageClassManifest | src/deployment/__init__.py:235-278 | a base class without a provisioner, or without a cluster_id parameter, is refused with its own error; otherwise the manifest names the new class, copies the provisioner, reclaim policy, binding mode and expansion flag, carries the QoS parameters, and copies the mount options only when there are some |
| Deployment.ConfigureComposeStorage | src/deployment/__init__.py:393-399 | a manifest without a services mapping is refused; otherwise every service is kept, except that the storage service is dropped when file storage is disabled |
| Deployment.ValidateResizeParameters | src/deployment/__init__.py:680-697 | the parameters are accepted exactly when every given field is within its constraint and at least one field is given, and are then unchanged; no field at all gives the "Value error, Specify at least one …" message; every refusal is a pydantic ValidationError |
| Deployment.ExtractLoadBalancerIpv6 | src/deployment/__init__.py:882-911 | the result is the first ingress address that contains ':', looking up load_balancer before loadBalancer; none when no address does |
| ChartValues.Child | src/deployment/__init__.py:420-421 | setdefault on a mapping yields the mapping under the key, a new empty one when the key is absent, and nothing a write could go into when the key holds a leaf |
| ChartValues.CopiedMeaning | src/deployment/__init__.py:422-433 | after the copy loop, each listed key that the settings give holds its setting, and every other entry is as it was |
| ChartValues.CopyConfig | src/deployment/__init__.py:423-433 | the loop copies exactly the listed settings that are given, as CopiedMeaning states |
| ChartValues.PgbouncerSection | src/deployment/__init__.py:420-433 | the pgbouncer section is written unless a setting has to be copied into a config entry that is a leaf, which fails with a TypeError |
| ChartValues.PgbouncerSectionWrites | src/deployment/__init__.py:420-433 | the given settings for the six pool keys are in pgbouncer.config, and every other entry of the section and of config is as it was |
| ChartValues.ConfigurePgbouncer | src/deployment/__init__.py:420-433 | the section is written with the copy loop, with the result PgbouncerSection describes |
| ChartValues.ServiceSwitch | src/deployment/__init__.py:435-437 | the external load balancer switch is written under db.service, failing with a TypeError exactly when db.service is a leaf |
| ChartValues.ServiceSwitchWrites | src/deployment/__init__.py:435-437 | db.service.externalEnabled holds the setting and nothing else in db changes |
| ChartValues.ServiceSwitchKeepsPersistence | src/deployment/__init__.py:447-460 | writing the switch a second time leaves db.persistence as writable as it was |
| ChartValues.Secrets | src/deployment/__init__.py:439-445 | the secret section is written exactly when its jwt, db and pgbouncer entries can be opened: a jwt leaf fails with an AttributeError (no update method), the others with a TypeError |
| ChartValues.SecretsWrites | src/deployment/__init__.py:439-445 | the JWT secret, the pg-meta crypto key and the database and pgbouncer admin passwords are set, and nothing else in the section changes |
| ChartValues.StorageSection | src/deployment/__init__.py:451-458 | the storage section is written exactly when storage.persistence can be opened; otherwise the write of the size fails with a TypeError, or its pop with an AttributeError when no size is given |
| ChartValues.StorageSectionWrites | src/deployment/__init__.py:451-458 | the size is set as "<n>G" (or removed when none is given), the storage class and the file storage switch are set, and nothing else in the section changes |
| ChartValues.DbVolume | src/deployment/__init__.py:460-464 | db.persistence is written exactly when it can be opened, failing with a TypeError otherwise |
| ChartValues.DbVolumeWrites | src/deployment/__init__.py:460-464 | the database size as "<n>G", the storage class and, when the volume is reused, create: false are set; nothing else in db changes |
| ChartValues.AutoscalerSettingsMeaning | src/deployment/__init__.py:466-484 | the autoscaler gets the database image, the CPU range and memory slots the branch's resources call for, a claim named after its VM with the -block-data suffix, and a volume of the database's size that is created unless the existing one is reused |
| ChartValues.AutoscalerImage | src/deployment/__init__.py:470-472 | the image repository and tag are set and nothing else in the image mapping changes |
| ChartValues.AutoscalerResources | src/deployment/__init__.py:473-477 | cpus, memorySlotSize and memorySlots are set and nothing else in the resources mapping changes |
| ChartValues.AutoscalerPersistence | src/deployment/__init__.py:479-484 | create, claimName, size and storageClassName are set; accessModes keeps its value, or becomes ReadWriteMany when absent; nothing else changes |
| ChartValues.AutoscalerSectionWrites | src/deployment/__init__.py:466-484 | the autoscaler section is enabled with every setting above in place, and nothing else in it changes |
| ChartValues.VelaValues | src/deployment/__init__.py:409-486 | the only errors are the AttributeError or TypeError of a write into a leaf |
| ChartValues.ConfigureVelaValues | src/deployment/__init__.py:409-486 | the chart values are configured section by section, with the result VelaValues describes |
| ChartValues.RestSucceeds | src/deployment/__init__.py:435-484 | the steps after pgbouncer succeed exactly when every mapping they write into is a mapping or absent |
| ChartValues.VelaValuesSucceeds | src/deployment/__init__.py:409-486 | configuring the values succeeds exactly when every mapping it writes into is a mapping or absent, pgbouncer.config only mattering when a setting is copied into it |
| ChartValues.VelaValuesWrites | src/deployment/__init__.py:420-484 | on success every setting is in place: the pgbouncer settings, the service switch, the secrets, both volumes and the autoscaler section |
| ChartValues.VelaValuesFrame | src/deployment/__init__.py:409-486 | nothing else changes: outside the five sections the values are as they were, and inside each section only the entries it sets differ |
| KubernetesPods.ExtractVmMemoryBytesMeaning | src/deployment/kubernetes/__init__.py:227-248 | the guest memory takes precedence over the limits, and the limits over the requests; an absent or empty value is skipped as if missing, a non-empty guest value decides through quantity_to_bytes whether it gives bytes or raises, a value that gives no bytes falls through to the next, the result is absent exactly when none gives bytes, and a value is always the bytes of one of the three |
| KubernetesPods.VmMemoryBytes | src/deployment/kubernetes/__init__.py:191-224 | a failed fetch of the VirtualMachine gives no memory and never an error; a fetched one gives the bytes of its guest memory, limit or request |
| KubernetesPods.EligibleVmPods | src/deployment/kubernetes/__init__.py:303-309 | the eligible pods are exactly those with metadata and no deletion timestamp, in their listed order |
| KubernetesPods.PodPhase | src/deployment/kubernetes/__init__.py:325-327 | the phase is the pod's phase in upper case, and "" when the pod has no status or no phase |
| KubernetesPods.ComputeContainerReadyMeaning | src/deployment/kubernetes/__init__.py:330-334 | with a compute container status readiness is that of every compute status, without one it is that of every status, and a pod with no statuses is not ready |
| KubernetesPods.PodStartTime | src/deployment/kubernetes/__init__.py:337-348 | the start time is the first present of status start_time, startTime, metadata creation_timestamp and creationTimestamp, and datetime.min when none is |
| KubernetesPods.LatestStarted | src/deployment/kubernetes/__init__.py:321 | like max with a key, the chosen pod of a bucket is the first one whose start time no other pod exceeds |
| KubernetesPods.LatestIsMax | src/deployment/kubernetes/__init__.py:321 | the latest pod of a bucket belongs to it and started no earlier than any pod of it |
| KubernetesPods.ChooseVmPodChoosesCandidate | src/deployment/kubernetes/__init__.py:312-322 | a pod is chosen exactly when there are candidates, and it is one of them; no candidate is the "No eligible pods" error |
| KubernetesPods.ChooseVmPodPrefersReady | src/deployment/kubernetes/__init__.py:314-321 | when some running pod has a ready compute container, the chosen pod is the latest-started of those |
| KubernetesPods.ChooseVmPodPrefersRunning | src/deployment/kubernetes/__init__.py:315-321 | without such a pod, the latest-started running pod is chosen |
| KubernetesPods.ChooseVmPodPrefersPending | src/deployment/kubernetes/__init__.py:316-321 | without a running pod, the latest-started pending pod is chosen |
| KubernetesPods.ChooseVmPodFallsBack | src/deployment/kubernetes/__init__.py:317-321 | without a running or pending pod, the latest-started candidate is chosen |
| KubernetesPods.MemoryOf | src/deployment/kubernetes/__init__.py:356-365 | a container's memory is a non-empty request, else a non-empty limit |
| KubernetesPods.FirstComputeMemoryMeaning | src/deployment/kubernetes/__init__.py:366-367 | the first compute container that has a memory value supplies it, and there is none exactly when no compute container has one |
| KubernetesPods.FirstMemoryMeaning | src/deployment/kubernetes/__init__.py:368-369 | the first container that has a memory value supplies it, and there is none exactly when no container has one |
| KubernetesPods.ContainerMemoryMeaning | src/deployment/kubernetes/__init__.py:351-370 | a pod's memory is absent exactly when no container has one, a compute container's memory is preferred whenever there is one, and the result is always some container's memory |
| KubernetesPods.ComputeContainerMemory | src/deployment/kubernetes/__init__.py:351-370 | the single pass with its fallback variable returns the memory ContainerMemoryMeaning describes |
| KubernetesPods.GetVmPodName | src/deployment/kubernetes/__init__.py:164-188 | an empty listing is `list_pods`' VelaKubernetesError naming the label and namespace; pods of which none is eligible give the "No pods found for VM" error naming the VM and namespace; otherwise the result is the chosen eligible pod's name and its container memory |
| KubernetesPvc.StripNoisyAnnotations | src/deployment/kubernetes/pvc.py:88-96 | the loop removes exactly the four controller-written annotations and keeps every other annotation with its value |
| KubernetesPvc.BuildPvcManifestFromExisting | src/deployment/kubernetes/pvc.py:76-144 | the manifest is built, with the pop loop, exactly as BuildPvcManifest describes, errors included |
| KubernetesPvc.BuildPvcManifestSucceeds | src/deployment/kubernetes/pvc.py:83-139 | the manifest is built exactly when the claim has metadata, a spec, a storage request and a non-empty name; missing metadata or spec, a missing storage request and a missing name each raise VelaKubernetesError, and a requests object that is None fails with AttributeError |
| KubernetesPvc.BuildPvcManifestMeaning | src/deployment/kubernetes/pvc.py:88-139 | a built manifest keeps the claim's name, labels, access modes (empty ones dropped), storage request and volume mode, keeps every annotation except the noisy ones, restores from the named VolumeSnapshot in both data_source and data_source_ref, and uses the claim's storage class or else the branch's own |
| KubernetesPvc.RebuildChangesOnlySnapshot | src/deployment/kubernetes/pvc.py:76-144 | rebuilding from a rebuilt manifest gives the same manifest except for the snapshot it restores from |
| KubernetesService.PodReportOf | code/kubernetes_service.py:55-67 | a Running pod is "running" exactly when all its container statuses are ready (none counts as ready) and "pending" otherwise, and lists its containers; any other phase is reported lower-cased; a pod without a phase fails with AttributeError |
| KubernetesService.AllRunningAppend | code/kubernetes_service.py:69-72 | adding a report keeps all-running exactly when the new pod is running |
| KubernetesService.PodReportsMeaning | code/kubernetes_service.py:44-72 | the reports succeed exactly when every pod has a phase, and there is one report per pod, in order, for the pod of that position |
| KubernetesService.ReportErrPersists | code/kubernetes_service.py:44-72 | a pod that fails in a prefix fails the whole check |
| KubernetesService.NamespaceStatusMeaning | code/kubernetes_service.py:24-98 | no pods is "pending" and not all running; a failed listing is "error" with no pods; otherwise all-running holds exactly when every pod is running, and the status is running, else failed if some pod failed, else pending if some pod is pending, else unknown |
| KubernetesService.CollectPodReports | code/kubernetes_service.py:44-72 | the loop collects the reports PodReportsMeaning describes and clears the all-running flag exactly when some pod is not running |
| KubernetesService.CheckNamespaceStatus | code/kubernetes_service.py:24-98 | the check returns the report NamespaceStatusMeaning describes |
| Kubevirt.GetVirtualMachineStatus | src/deployment/kubernetes/kubevirt.py:43-59 | the status is the printable status verbatim when present, else "Running" when the loop finds a True Ready condition, else "UNKNOWN"; a failed fetch raises VelaKubernetesError |
| Kubevirt.VirtualMachineStatusMeaning | src/deployment/kubernetes/kubevirt.py:43-59 | the status fails exactly when the fetch failed; without a printable status it is "Running" exactly when some condition is a True Ready one and "UNKNOWN" exactly when none is |
| Rebalance.ParseCpuQuantity | src/deployment/rebalance.py:18-29 | only non-blank text can fail, and then only with a failure of the Decimal parser; a Decimal, a number and blank text never fail |
| Rebalance.ParseCpuMillis | src/deployment/rebalance.py:27-28 | text ending in "m" is the decimal before it divided by 1000, and fails where that decimal fails |
| Rebalance.MillisAreThousandths | src/deployment/rebalance.py:24-29 | the same digits read as a thousandth of a CPU when followed by "m" and as whole CPUs otherwise, so the two readings differ by a factor of 1000 and fail together |
| Rebalance.ParseCpuWhole | src/deployment/rebalance.py:29 | any other non-blank text is read as a decimal number of CPUs |
| Rebalance.ExtractCpuLimit | src/deployment/rebalance.py:32-46 | the CPU limit is limits.cpu, else requests.cpu; no resources or no CPU value gives none, a parse failure is passed on, and a result is always positive |
| Rebalance.PlacementsMeaning | src/deployment/rebalance.py:67-90 | every placement comes from a running VMI of a branch namespace that has a name and a node, with a positive CPU limit, and every such VMI gives one |
| Rebalance.ErrPersists | src/deployment/rebalance.py:68-88 | a CPU quantity that fails on a prefix of the items fails the listing |
| Rebalance.ListBranchVmis | src/deployment/rebalance.py:67-90 | the loop keeps, in order, exactly the placements PlacementsMeaning describes |
| Rebalance.AddLoad | src/deployment/rebalance.py:96 | adding to a node's load raises that node's load by the amount, adds the node when it is new, and leaves every other node's load alone |
| Rebalance.SumValuesAdd | src/deployment/rebalance.py:96-114 | adding to a node's load raises the total load by the amount |
| Rebalance.LoadsOfMeaning | src/deployment/rebalance.py:93-97 | there is one entry per node that holds a placement, holding the sum of their CPU limits, and nodes without placements have no load |
| Rebalance.NodesByLoad | src/deployment/rebalance.py:93-97 | the loop builds the loads LoadsOfMeaning describes |
| Rebalance.SortDesc | src/deployment/rebalance.py:133-134 | sorting with reverse=True keeps exactly the same elements and their number |
| Rebalance.SortDescMeaning | src/deployment/rebalance.py:133-134 | the sort orders by descending key and keeps distinct elements distinct |
| Rebalance.SortDescStable | src/deployment/rebalance.py:133-134 | `sorted(..., reverse=True)` is stable: the VMs of any one CPU limit keep their listing order |
| Rebalance.OnNode | src/deployment/rebalance.py:128-130 | a node's placements are exactly the placements on that node |
| Rebalance.FirstMigrated | src/deployment/rebalance.py:135-158 | the VM taken is the first candidate whose migration request succeeds, and there is none exactly when every request fails |
| Rebalance.FirstMigratedIsLargest | src/deployment/rebalance.py:134-158 | trying candidates largest first, the VM taken has the largest CPU limit of all that can migrate |
| Rebalance.FirstMigratedAt | src/deployment/rebalance.py:146-158 | a failed request moves on to the next candidate: after failures at every earlier one, a success at position j takes that candidate |
| Rebalance.Overloaded | src/deployment/rebalance.py:122 | the overloaded nodes are exactly those whose load exceeds the upper bound, each once |
| Rebalance.Underloaded | src/deployment/rebalance.py:123 | the underloaded nodes are exactly those whose load is below the lower bound |
| Rebalance.MovedMeaning | src/deployment/rebalance.py:134-158 | a node gives up at most one VM; it is one of its own VMs whose request succeeded and which has the largest CPU limit among those that could migrate, and one is given up whenever any of its VMs can migrate |
| Rebalance.PlanSound | src/deployment/rebalance.py:132-158 | every migration is a VM of a visited node that can migrate and has the largest CPU limit of its node's VMs that can |
| Rebalance.PlanOnePerNode | src/deployment/rebalance.py:133-158 | visiting distinct nodes, at most one VM is migrated per node |
| Rebalance.PlanComplete | src/deployment/rebalance.py:133-158 | a VM is migrated from every visited node that has a VM which can migrate |
| Rebalance.NodeOrderDistinct | src/deployment/rebalance.py:122-133 | each overloaded node is visited once |
| Rebalance.NodeOrderMeaning | src/deployment/rebalance.py:122-133 | the nodes visited are exactly those holding placements whose summed CPU limit exceeds the upper bound |
| Rebalance.PlanMeaning | src/deployment/rebalance.py:128-158 | a plan over the overloaded nodes has the properties of PlanSound, PlanOnePerNode and PlanComplete |
| Rebalance.MigrationsMeaning | src/deployment/rebalance.py:100-160 | nothing migrates with at most one placement, at most one node, zero total load, or without both an overloaded and an underloaded node; otherwise every migrated VM ran on an overloaded node, its request succeeded and no VM of that node with a larger CPU limit could migrate, each node loses at most one VM, and every overloaded node with a VM that can migrate loses one |
| Rebalance.MigrateFromNode | src/deployment/rebalance.py:134-158 | the inner loop takes the first candidate that migrates and subtracts its CPU limit from the node's load, leaving the other loads alone |
| Rebalance.VisitOverloaded | src/deployment/rebalance.py:132-158 | the outer loop over the overloaded nodes, each visited while still overloaded, produces the plan above |
| Rebalance.RebalanceVirtualMachines | src/deployment/rebalance.py:107-160 | the migrations made after the listing are those MigrationsMeaning describes |
| Rebalance.TargetPrefix | src/deployment/rebalance.py:105 | the namespace prefix is the given one unless empty, else the settings' deployment namespace prefix followed by "-deployment-" |
| Rebalance.RebalanceFromListing | src/deployment/rebalance.py:100-160 | a failing CPU quantity fails the call; otherwise the migrations are those of the branch VMs listed under the target prefix |

## Left out

External calls and I/O:
- Database sessions are not modelled. Each query becomes a filter over the sequences or maps of a store, and a commit is the assignment to the store.
- Kubernetes, KubeVirt, Keycloak, Helm and the storage backend are all external calls. Their results are parameters or inputs:
  - the pod and claim listings;
  - the fetched VirtualMachine;
  - `fetch_pvc_capacity`;
  - the VM and pod memory;
  - the Keycloak user and sessions;
  - the outcomes of VM stop and start calls;
  - the migration outcomes of a rebalance;
  - the snapshot listing of the storage backend.
- `create_branch_snapshot`, the deletion calls of `delete_branch_snapshot` and `_cleanup_failed_snapshot_creation` (src/api/backup_snapshots.py:79-235) are Kubernetes and storage-backend calls. Only the names they build and what deletion removes are modelled.
- Loading the Kubernetes configuration in code/kubernetes_service.py is not modelled. The pod listing is an input.
- Settings are parameters, and so is the clock, which appears as `now`. The random bytes of `secrets.token_hex` and `uuid4` are parameters too, and so are the ids the database generates (`newId`, `freshId`).
- These library calls are parameters:
  - the ISO-8601 parser (`datetime.fromisoformat`);
  - the UUID parser;
  - the Kubernetes quantity parser;
  - `Decimal(text)`.
  The model states what the code does with their results.

Concurrency:
- These are not modelled:
  - the PVC event queue and its workers;
  - the watch loop that consumes the event stream;
  - `run_resize_monitor` (src/deployment/monitors/resize/__init__.py:183-193);
  - `poll_memory_resizes` (src/deployment/monitors/resize/memory_resize.py:132-144);
  - the background threads and signal handler of the synchronous backup monitor;
  - the `asyncio.sleep` of `_handle_stream_error`.
- The backoff and resource-version policy of `_handle_stream_error` is modelled.
- A section of code that runs under a per-branch lock is one atomic step. A lock that is already held is modelled as an input.
- `ResizeMonitor.Monitor` models only the state of the background task and its stop event. The event stream it would run is not modelled.

Operations not modelled:
- `reconcile_memory_resizes` (src/deployment/monitors/resize/memory_resize.py:112-129) is the database query and per-branch loop around `refresh_memory_status`, which is modelled.
- `_sync_branch_cpu_resources` (src/deployment/monitors/resize/memory_resize.py:78-86) is a call into the deployment layer.
- The Flask handlers of src/api/organization/project/backup.py (src/api/organization/project/backup.py:384-657) cannot run as written.
- `execute_backup` of the synchronous monitor (src/api/organization/project/backup.py:348-363) is never called. Its `process_branch` takes backups inline, and that is what the model follows.
- These endpoints of src/api/backup.py are database reads and a plain delete. Only the schedule endpoints and the manual backup are modelled:
  - `list_schedules` (src/api/backup.py:200-243);
  - `list_backups` (src/api/backup.py:245-284);
  - `delete_backup` (src/api/backup.py:356-373).
- In-place Kubernetes updates are not modelled, for example `resize_vm_compute_cpu` (src/deployment/kubernetes/__init__.py:250-300). Nor are the remaining methods of the Kubernetes service class that only forward to the API.
- `probe_service_socket` (src/deployment/health.py:46-64) opens a socket. Its result is part of the health reading that is an input.

Values the model cannot tell apart:
- Naive and timezone-aware `datetime` values are not distinguished. Every instant is seconds since the epoch, taken as UTC, and `datetime.min` is one value whether naive or aware.
- Case mapping (`str.lower`, `str.upper`) is modelled for ASCII letters only. Other characters are left as they are.
- Integer text read with Python's `int(text)` is read by `Common.ParseInt`: optional surrounding ASCII whitespace as Python counts it (space, `\t`, `\n`, `\v`, `\f`, `\r` and `\x1c`-`\x1f`), an optional sign and ASCII decimal digits. Python's `int` also accepts underscores between digits ("1_0"), non-ASCII decimal digits and non-ASCII blanks; the model refuses such text. This concerns `UtilPkg.PermissiveNumericTimedelta` and `UserModel.ParseAal`.
- The `\w` of the PVC resize failure pattern is ASCII letters, digits and `_` (`PvcResize.IsWordChar`). Python's `re` also counts every Unicode letter and digit, so "éresize failed" does not match in the code but matches in the model.
- Python `Decimal` CPU quantities are exact reals. Decimal rounding contexts are not modelled.
- Schema validation of request bodies is not modelled. Fields keep the types the handlers read.
  - In src/api/backup.py the request model refuses an invalid unit with 422 before the handler runs, so the handler's own 400 "Invalid unit" check is never reached (`BackupApi.InvalidUnitBranchUnreachable`).
  - JSON members that are neither strings nor absent are not modelled, except where the code branches on them, such as a JSON `null` resize entry.
- Error messages are modelled where the code builds them from its inputs. Elsewhere only the exception type or HTTP status is kept.

Weaker contracts and narrowed inputs:
- MemoryResize.RefreshMemoryStatus: treats a `status` member that holds JSON `null` the same as a missing one, because the entry is read into an `Option`.
- Kubevirt.GetVirtualMachineStatus: cannot represent a `printableStatus` member that holds `null`. The code returns `None` for it, but the model reads it as absent. The model also has no values for `status: null` or `conditions: null`, which would raise TypeError in the code. A missing `conditions` member reads as no conditions, as in the code.
- KubernetesService.PodReportOf: the reported container entries keep the name, readiness and restart count, but not the `state` dictionary. The `conditions` member of each pod report is not modelled; it is always an empty list.
- KubernetesPvc.BuildPvcManifestFromExisting: always sets `data_source_ref`, because the claim type is taken to support it. It keeps the storage request as the text given, which stands for `str(original)`. A `storage` request that holds `None` cannot be represented; the code treats it as missing.
- Rebalance.RebalanceVirtualMachines: visits overloaded nodes with equal loads in the order the nodes were first seen. The code uses the iteration order of a Python set, which is not modelled. VMs with equal CPU limits keep their listing order, as Python's stable sort does. `migrate` is a fixed predicate on the VM, so the outcome of a request depends only on which VM it is for. A VMI whose `cpu` is `null` is read as having no CPU value.
- ChartValues.VelaValues: takes `storage_size` as optional, although the deployment parameters always carry one. Every `pop` on a leaf fails with AttributeError. On a leaf that holds a list, Python's `list.pop(key, None)` would raise TypeError instead.
- UtilPkg.PermissiveNumericTimedelta: converts only the integer text `Common.ParseInt` accepts, so text such as "1_0" or non-ASCII digits, which Python's `int` converts, is passed on unchanged.
- UserModel.ParseAal: reads the level with `Common.ParseInt`, so a level such as "aal0_2" or written in non-ASCII digits, which Python's `int` reads, is refused.
- AccessRightUtils.UserRights: models the narrowing `get_user_rights` evidently intends, by the link's project, branch and environment type (src/api/access_right_utils.py:54-59). As written the filters name `project_entity`, `branch_entity` and `environment_entity`, which the legacy ORM class it imports does declare (src/api/models/role.py:36-38), so the statement is built; the link table as migration 6bc8fa2681d1 leaves it has `project_id`, `branch_id` and `env_type` columns instead, so a context holding any of those three keys fails at `session.execute` (src/api/access_right_utils.py:61) with the database's undefined-column error. That execute-time failure is not modelled.
- AccessRightUtils.UserRightsMeaning: states the intended narrowing; for a context with a project, branch or environment key the code as written raises at execute, as under AccessRightUtils.UserRights.
- AccessRightUtils.CheckAccess: inherits the intended narrowing of AccessRightUtils.UserRights; as written a context with a project, branch or environment key makes the check raise the database's undefined-column error at execute instead.
- AccessRightUtils.CheckAccessMeaning: states the intended narrowed check; the as-written execute failure of AccessRightUtils.UserRights is not modelled.
- LegacyRoles.NewLink: builds the link the legacy `assign_role` evidently intends, with the context's entity columns and the organization. As written the handler sets `{key}_entity` attributes (src/api/roles_access_rights.py:79-82), which fails for any key other than project, branch and environment, and never sets the non-null `organization_id` key (src/api/models/role.py:33), so the insert fails.
- LegacyRoles.AttachedGrants: models the grant rows the legacy `modify_role` evidently attaches. As written the legacy `Role` has no `access_rights` relationship (src/api/models/role.py:41-46), so `updated_role.access_rights` (src/api/roles_access_rights.py:37) raises AttributeError.
- LegacyRoles.GrantsReplacedWhenGiven: proves the grant replacement the legacy `modify_role` evidently intends, which raises as written for the same reason as LegacyRoles.AttachedGrants.
- LegacyRoles.LegacyRoleStore.ModifyRole: follows the evident intent and answers 404 or the modified role. As written every request raises: `role_id` is a UUID bound to a ULID column, whose `process_bind_param` raises TypeError (src/api/roles_access_rights.py:30, src/api/models/_util.py:24-25), and `updated_role.access_rights` does not exist.
- LegacyRoles.LegacyRoleStore.AssignRole: follows the evident intent and adds the link. As written it raises TypeError at `session.get` (src/api/roles_access_rights.py:75), for the same reason as LegacyRoles.LegacyRoleStore.ModifyRole, and the link it builds could not be inserted (LegacyRoles.NewLink).
- LegacyRoles.LegacyRoleStore.UnassignRole: follows the evident intent and deletes the matching links. As written the select binds the UUID `role_id` to a ULID column and raises TypeError (src/api/roles_access_rights.py:104-111, src/api/models/_util.py:24-25).
- RoleApi.EnvironmentRoleLinks: takes the link table with one `env_type` column per link, as migration 6bc8fa2681d1 creates it. On the ORM class the handlers import (src/models/role.py:103-109), which has an `env_types` array instead, the `env_type=` argument (src/api/organization/role.py:314-316) is silently dropped.
- RoleApi.RoleStore.AssignRole: adds one link per context, which the table admits after migration 6bc8fa2681d1, whose upgrade keys the links on a generated `id` (src/models/migrations/versions/6bc8fa2681d1_fix_role_user_link.py:56-58). The ORM class's primary key (organization_id, role_id, user_id) would reject a second context.
- UserApi.LinkRows: lists the rows the permission query is meant to return. As written `RoleUserLink.env_type` does not exist on the ORM class src/api/user.py:12 imports (src/models/role.py:103-109), so the select (src/api/user.py:130) raises AttributeError. A row whose outer join finds no access right is kept, with no permission.
- UserApi.ListUserPermissions: returns the permission rows. As written building each `UserPermissionPublic` (src/api/user.py:151-157) fails: it does not give the required `env_types` (src/models/role.py:217), and a row without an access right fails `permission: str` (src/models/role.py:213).
- UserApi.LastActivity: gives the earliest access time of the sessions. As written the handler reads `session.lastAccess` as an attribute of the dictionary python-keycloak returns (src/api/user.py:38), which raises AttributeError for every user who has a session. The value is also in milliseconds, which `datetime.fromtimestamp` would refuse.
- UserApi.Public: returns the public user with that earliest access time. As written it raises for every user who has a session, for the reason given under UserApi.LastActivity.
- BackupSteps.EnsureNextBackups: keeps the NextBackup table unchanged when a row's unit raises KeyError. As written the NextBackups added before the failing row stay pending in the session that `run_once` shares across branches, without a rollback, and the next branch's commit persists them (src/api/backupmonitor.py:69-80, 95-110). Schedule validation keeps unknown units out of stored rows, so this needs rows written by other means.
- BackupMonitor.Execute: keeps the logs and the NextBackup unchanged when `interval_seconds` raises. As written the "taken" log added before it stays pending and a later commit persists it (src/api/backupmonitor.py:179-190). The backup entry itself is committed before, as in the model.
- BackupMonitor.ExecuteBackup: inherits the failure case of BackupMonitor.Execute.
- BackupMonitor.RunOnce: discards everything a failing branch left pending. As written the shared session is never rolled back, so those pending rows are committed along with the next branch's (src/api/backupmonitor.py:69-80).
- ResourcesApi.GetEffectiveBranchLimits: takes the branch's organization id as given. As written the handler reads `branch.organization_id` (src/api/resources.py:55), which the `Branch` table (src/api/models/branch.py:41-87) does not have, so every call for an existing branch raises AttributeError.
- ResourcesApi.MeteringStore.ProvisionBranch: admits amounts through the effective limits of ResourcesApi.GetEffectiveBranchLimits. As written the call to `get_effective_branch_limits` (src/api/resources.py:161) raises AttributeError for every existing branch, so nothing is provisioned.
- ResourcesApi.MeteringStore.MeterBranch: stamps each usage row with the branch's organization id. As written `branch.organization_id` (src/api/resources.py:440) raises AttributeError.
- ResourcesApi.MeteringStore.MeterNext: meters every branch whose status is the wanted one. As written the first such branch that has a provisioning row raises at src/api/resources.py:440.
- ResourcesApi.MeteringStore.MonitorResources: appends the usage rows of one pass. As written the AttributeError of src/api/resources.py:440 is caught at :447, so a pass that meets a provisioned ACTIVE_HEALTHY branch commits nothing.
- ResourcesApi.MeteredUsageAppend: describes usage rows keyed with the organization id that the metering loop cannot read as written (src/api/resources.py:440).
- ResourcesApi.MeteredUsageStep: describes the metering step that, as written, fails at src/api/resources.py:440.
- ResourcesApi.UsageForMeaning: defines the usage row with the organization id taken from the branch, which src/api/resources.py:440 cannot read as written.
- RessourcesApi.ProvisionBranch: runs the effective-limit check of ResourcesApi.GetEffectiveBranchLimits. As written the `Project` of src/api/models/base.py has only `organization_id` (line 19), so `Project.org_id` (src/api/ressources.py:69) raises AttributeError.
- RessourcesApi.SetProvisioningLimit: stores the limit under the project's organization. As written `project.org_id` (src/api/ressources.py:231) raises AttributeError for a project scope; an organization scope does not read it.
- RessourcesApi.MonitorResources: appends the usage rows of one pass. As written `branch.project.org_id` (src/api/ressources.py:372) raises AttributeError for the first provisioned online branch.
- ResourcesApi.MeteringStore.SetConsumptionLimit: stands for the consumption-limit upsert of both files. In src/api/ressources.py a project scope raises AttributeError at `project.org_id` (:296); the resources.py copy reads `project.organization_id` (:358) and works.
- ProjectApi.ProjectState.Delete: does not model the `delete_branch_provisioning` calls that follow the deployment deletions (src/api/organization/project/__init__.py:486-487). The project state holds no ledger tables, and the code passes the `Branch` object where that function compares a branch id (src/api/_util/resourcelimit.py:29-32).
- ProjectApi.NormalizeLimits: takes the payload dictionary as a sequence of (name, value) pairs and does not require the names to be distinct, which a dictionary guarantees. The model therefore also covers inputs the code cannot receive.
- BackupSteps.RowBackups: orders backups with the same `created_at` as they stand in the table (BackupSteps.RowBackupsTiesKeepTableOrder). The SQL `ORDER BY created_at` (src/api/backupmonitor.py:197-200) leaves the order of such ties to the database.
- UserApi.Add: the temporary password is the hex text of the random bytes given. `secrets.token_hex(16)` itself is a parameter.
