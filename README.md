# OKR service core in Dafny

This project models the service layer of a Spring OKR (objectives and key
results) backend:

- the permission rules that decide who may edit a sheet or a key result;
- the progress calculator;
- the cycle time arithmetic and the cascading deletion of a cycle;
- the OKR mutations (update, create and delete of objectives and key
  results) with their audit entries and their progress roll-up;
- the flat dashboard and the hierarchical dashboard;
- the administrative operations that create users and departments, block
  users and find or create the default company.

## Persistence

The relational store is one `Database` class (`store.dfy`). It has one
`map<Id, _>` field per table, a `seq` of role assignments, a `seq` audit
log and an id counter `nextId`.

- Repository queries are pure functions over those maps (`queries.dfy`).
- A query returns the matching rows in id order. Id order is the order of
  insertion and stands in for the database's default order.
- The `...OrderBySortOrderAsc` queries add a stable insertion sort on
  `sortOrder`.
- Service operations are methods that take the database and name the
  fields they change in their `modifies` clauses.

## Roll-up invariant

`Rollup.RolledUp` is the invariant the roll-up maintains:

- every key result's stored progress is the calculator's value for its
  start, target and current values;
- every objective's stored progress is the mean of its key results';
- every sheet's stored progress is the mean of its objectives'.

Every mutation either keeps this invariant or is documented as not
rolling up.

## Values

- Ids are natural numbers handed out by a counter instead of UUIDs.
- Dates are day numbers (`int`). The current day is a `today` parameter.
- Java `double` arithmetic is modelled with `real`.
- Role and scope strings are datatypes. Each has an `Other` case for any
  string outside the known set, so `ParseRole` / `RoleName` round-trip.

## Where the model departs from the code

The code is modelled as written; where it is inconsistent, the choice is listed below.

- **Create operations do not roll up.** `createObjective` and
  `createKeyResult` do not roll up
  (`service/impl/OkrServiceImpl.java:391-446`). A new key result stores
  progress 0.0 even when the calculator would give 1.0, which happens when
  its start already reaches an empty-range target.
  `OkrService.NewKeyResultProgress` states exactly when the stored value
  agrees with the calculator. The roll-up invariant is therefore not
  claimed for these two operations.
- **Omitted fields are still audited.** `updateKeyResult` audits
  `String.valueOf(request.getCurrentValue())`, which is the text "null"
  when the field is omitted (`service/impl/OkrServiceImpl.java:299-300`).
  An update that omits the current value therefore records a change from
  the stored number to "null". An omitted confidence level or comment is
  likewise recorded as cleared whenever a non-empty one is stored
  (`service/impl/OkrServiceImpl.java:301-303`), although none of the three
  fields changes.
  `OkrService.UpdateAuditLogsOmittedFields` states this.
- **The weight field is missing from the request.** `updateKeyResult`
  reads `request.getWeight()` (`service/impl/OkrServiceImpl.java:317`),
  but `dto/UpdateKeyResultRequest.java:8-15` declares no weight. The model
  keeps the stored weight unchanged.
- **Unknown new owner in `updateObjective`.** The owner lookup comes after
  the title has been written and audited
  (`service/impl/OkrServiceImpl.java:370-381`). The method is
  transactional, so a failed lookup rolls everything back. The model
  checks the owner first and leaves the state unchanged on that failure.
- **Dangling department in the hierarchical dashboard.** A non-elevated
  user whose department row does not exist is shown no department there.
  The source would dereference the missing row.
- **A missing objective title.** `createObjective` copies the request's
  title as it is (`service/impl/OkrServiceImpl.java:404`), and the title
  column is non-null (`model/Objective.java:23-24`). The request title is
  therefore an option, and a missing one fails with a `NullColumn`
  rejection that leaves the state unchanged, as the rolled-back
  transaction does.
- **Null fields of a new user or department.** `createUser` fails on a
  null password, which the password encoder refuses
  (`service/impl/AdminServiceImpl.java:75`; Spring Security's encoders
  reject a null password, and the encoder configuration is not part of
  this model). It also fails on a null email
  or PIN, which the non-null columns of the user row reject
  (`model/User.java:26-27`, `model/User.java:35-36`), and on a null role,
  which the non-null column of the role assignment rejects
  (`model/RoleAssignment.java:22-23`). `createDepartment` fails on a null
  team id, which `findById` refuses before any lookup
  (`service/impl/AdminServiceImpl.java:185`), and on a null name
  (`model/Department.java:22-23`). The transaction rolls back every
  write made before the failure, so the model rejects these requests
  before writing anything. When several columns are null, the model
  reports the first in the order email, PIN, role. A null email matches no
  stored user in the e-mail lookup.

## Model

| member | source | states |
|---|---|---|
| Domain.ParseRole | backend/src/main/java/com/onnorokom/okr/model/RoleAssignment.java:23 | reading a role string and writing it back gives the same string; exactly the five known names map to known roles |
| Domain.ParseScope | backend/src/main/java/com/onnorokom/okr/model/OkrSheet.java:23 | reading a scope string and writing it back gives the same string; exactly the four known names map to known scopes |
| Domain.DefaultKeyResult | backend/src/main/java/com/onnorokom/okr/model/KeyResult.java:29-60 | a fresh key result starts at 0 towards 100 with current value, progress, sort order and weight 0 |
| Calculation.KrProgress | backend/src/main/java/com/onnorokom/okr/service/impl/CalculationServiceImpl.java:14-21 | key-result progress always lies in [0, 1] |
| Calculation.DegenerateRange | backend/src/main/java/com/onnorokom/okr/service/impl/CalculationServiceImpl.java:15-17 | on a range narrower than 0.0001 the progress is 1 exactly when the current value reaches the target and 0 otherwise |
| Calculation.KrProgressInterpolates | backend/src/main/java/com/onnorokom/okr/service/impl/CalculationServiceImpl.java:19-20 | between start and target the clamp is inactive and progress is the linear fraction travelled |
| Calculation.KrProgressEndpoints | backend/src/main/java/com/onnorokom/okr/service/impl/CalculationServiceImpl.java:19-20 | on a proper range the start value gives 0 and the target value gives 1 |
| Calculation.KrProgressMonotonic | backend/src/main/java/com/onnorokom/okr/service/impl/CalculationServiceImpl.java:14-21 | for a rising target, more current value never means less progress |
| Calculation.Mean | backend/src/main/java/com/onnorokom/okr/service/impl/CalculationServiceImpl.java:24-39 | the empty list averages to 0; otherwise the mean times the count is the sum |
| Calculation.MeanBounds | backend/src/main/java/com/onnorokom/okr/service/impl/CalculationServiceImpl.java:24-39 | the mean of values within [lo, hi] stays within [lo, hi] |
| Calculation.CalculateObjectiveProgress | backend/src/main/java/com/onnorokom/okr/service/impl/CalculationServiceImpl.java:24-30 | no key results give 0; otherwise the result times the count is the sum of the key results' computed progress; key results in [0, 1] give an objective progress in [0, 1] |
| Calculation.CalculateSheetProgress | backend/src/main/java/com/onnorokom/okr/service/impl/CalculationServiceImpl.java:33-39 | no objectives give 0; otherwise the result times the count is the sum of the objectives' computed progress; objectives in [0, 1] give a sheet progress in [0, 1] |
| Calculation.ObjectiveProgressReadsOnlyProgress | backend/src/main/java/com/onnorokom/okr/service/impl/CalculationServiceImpl.java:28 | objective progress depends only on the key results' computed progress |
| Calculation.SheetProgressReadsOnlyProgress | backend/src/main/java/com/onnorokom/okr/service/impl/CalculationServiceImpl.java:37 | sheet progress depends only on the objectives' computed progress |
| Calculation.ObjectiveProgressIgnoresOrder | backend/src/main/java/com/onnorokom/okr/service/impl/CalculationServiceImpl.java:24-30 | sorting the key results by sort order does not change the objective's progress |
| Calculation.SheetProgressIgnoresOrder | backend/src/main/java/com/onnorokom/okr/service/impl/CalculationServiceImpl.java:33-39 | sorting the objectives by sort order does not change the sheet's progress |
| CycleTime.TimeProgress | backend/src/main/java/com/onnorokom/okr/service/impl/CycleServiceImpl.java:41-54 | time progress lies in [0, 1]; it is 1 for an empty cycle, 0 before the start and 1 after the end; inside the cycle it is the days elapsed, today included, over the total days, so it is positive and reaches 1 exactly on the last day |
| CycleTime.TimeProgressIncreases | backend/src/main/java/com/onnorokom/okr/service/impl/CycleServiceImpl.java:52-53 | inside a cycle, a later day has strictly more time progress |
| CycleTime.DaysRemaining | backend/src/main/java/com/onnorokom/okr/service/impl/CycleServiceImpl.java:57-62 | days remaining are never negative, are 0 exactly from the end date on, and before the end they count the days up to it |
| CycleTime.TotalDaysFromStart | backend/src/main/java/com/onnorokom/okr/service/impl/CycleServiceImpl.java:65-67 | a cycle's total days are the days remaining on its first day plus one |
| Permission.RolesOf | backend/src/main/java/com/onnorokom/okr/repository/RoleAssignmentRepository.java:9 | the roles of a user are exactly the assignments that name that user |
| Permission.HasRole | backend/src/main/java/com/onnorokom/okr/service/impl/PermissionServiceImpl.java:159-161 | true exactly when some assignment carries the role, whatever its scope |
| Permission.IsSuperAdmin | backend/src/main/java/com/onnorokom/okr/service/impl/PermissionServiceImpl.java:148-151 | true exactly when the user holds SUPER_ADMIN |
| Permission.IsOrgLeadership | backend/src/main/java/com/onnorokom/okr/service/impl/PermissionServiceImpl.java:154-157 | true exactly when the user holds ORG_LEADERSHIP |
| Permission.CanEditKeyResult | backend/src/main/java/com/onnorokom/okr/service/impl/PermissionServiceImpl.java:137-145 | the owner of a key result may always edit it; anyone else may exactly when they may edit its sheet |
| Permission.SuperAdminEditsEverySheet | backend/src/main/java/com/onnorokom/okr/service/impl/PermissionServiceImpl.java:41-44 | a super admin may edit every sheet |
| Permission.OrgLeadershipEditsNoSheet | backend/src/main/java/com/onnorokom/okr/service/impl/PermissionServiceImpl.java:46-49 | org leadership who are not super admin may edit no sheet at all (read-only role) |
| Permission.CompanySheetOnlySuperAdmin | backend/src/main/java/com/onnorokom/okr/service/impl/PermissionServiceImpl.java:52-54 | a company sheet is editable exactly by super admins |
| Permission.TeamSheetRule | backend/src/main/java/com/onnorokom/okr/service/impl/PermissionServiceImpl.java:56-61 | for an ordinary user, a team sheet is editable exactly when they are TEAM_ADMIN scoped to that team |
| Permission.DepartmentSheetRule | backend/src/main/java/com/onnorokom/okr/service/impl/PermissionServiceImpl.java:63-92 | for an ordinary user, a department sheet is editable exactly by its department admin, by the admin of the team owning the department, or by a MEMBER of that department |
| Permission.OwnerEditsPersonalSheet | backend/src/main/java/com/onnorokom/okr/service/impl/PermissionServiceImpl.java:94-99 | an ordinary user may always edit their own personal sheet |
| Permission.OthersPersonalSheetRule | backend/src/main/java/com/onnorokom/okr/service/impl/PermissionServiceImpl.java:100-129 | someone else's personal sheet is editable exactly when its owner exists and the editor is admin of the owner's team or department |
| Permission.UnknownScopeOnlySuperAdmin | backend/src/main/java/com/onnorokom/okr/service/impl/PermissionServiceImpl.java:131-132 | a sheet with an unrecognised scope is editable only by super admins |
| AuditService.ShouldLogIffChanged | backend/src/main/java/com/onnorokom/okr/service/impl/AuditServiceImpl.java:23-25 | a change is logged exactly when the old and new values differ (two nulls are equal) |
| AuditService.LogEntries | backend/src/main/java/com/onnorokom/okr/service/impl/AuditServiceImpl.java:21-36 | at most one entry; none exactly when the values are equal; otherwise one entry carrying actor, entity, field and both values |
| AuditService.LogChange | backend/src/main/java/com/onnorokom/okr/service/impl/AuditServiceImpl.java:21-36 | appends exactly that entry list to the audit log and changes nothing else |
| Queries.Select | backend/src/main/java/com/onnorokom/okr/repository/OkrSheetRepository.java:9-13 | a repository query returns exactly the stored ids whose rows match, each once, in increasing id order |
| Queries.KeyResultsOf | backend/src/main/java/com/onnorokom/okr/repository/KeyResultRepository.java:9 | the key results of an objective, a permutation of the matching rows, sorted by sort order |
| Queries.ObjectivesOf | backend/src/main/java/com/onnorokom/okr/repository/ObjectiveRepository.java:9 | the objectives of a sheet, a permutation of the matching rows, sorted by sort order |
| Queries.NextOrder | backend/src/main/java/com/onnorokom/okr/service/impl/OkrServiceImpl.java:399-400 | the next sort order is 1 for an empty list, and otherwise one more than the last existing sort order, so above all existing ones |
| Queries.First | backend/src/main/java/com/onnorokom/okr/repository/CycleRepository.java:9 | findFirst returns the lowest matching id, and None exactly when no row matches |
| Rollup.RollObjective | backend/src/main/java/com/onnorokom/okr/service/impl/OkrServiceImpl.java:336-343 | only the rolled objective changes, and only its progress, which becomes the mean of its key results |
| Rollup.RollSheet | backend/src/main/java/com/onnorokom/okr/service/impl/OkrServiceImpl.java:345-350 | only the rolled sheet changes, and only its overall progress, which becomes the mean of its objectives |
| Rollup.KeyResultEditKeepsRolledUp | backend/src/main/java/com/onnorokom/okr/service/impl/OkrServiceImpl.java:324-331 | after a key result is saved with recomputed progress, rolling up its objective and sheet restores the roll-up invariant |
| Rollup.KeyResultDeleteKeepsRolledUp | backend/src/main/java/com/onnorokom/okr/service/impl/OkrServiceImpl.java:484-486 | deleting a key result and rolling up its objective and sheet keeps the invariant |
| Rollup.ObjectiveDeleteKeepsRolledUp | backend/src/main/java/com/onnorokom/okr/service/impl/OkrServiceImpl.java:458-467 | deleting an objective with its key results and rolling up its sheet keeps the invariant |
| Rollup.ObjectiveEditKeepsRolledUp | backend/src/main/java/com/onnorokom/okr/service/impl/OkrServiceImpl.java:370-384 | changing an objective's title or owner needs no roll-up: the invariant still holds |
| Rollup.EmptyObjectiveRollsUpToZero | backend/src/main/java/com/onnorokom/okr/service/impl/CalculationServiceImpl.java:25-27 | an objective without key results rolls up to 0 |
| Rollup.EmptySheetRollsUpToZero | backend/src/main/java/com/onnorokom/okr/service/impl/CalculationServiceImpl.java:34-36 | a sheet without objectives rolls up to 0 |
| Rollup.RolledUpBounded | backend/src/main/java/com/onnorokom/okr/service/impl/CalculationServiceImpl.java:14-39 | under the invariant every stored progress of key results, objectives and sheets lies in [0, 1] |
| Rollup.WithoutKeyResultsOf | backend/src/main/java/com/onnorokom/okr/repository/KeyResultRepository.java:15 | deleteByObjectiveId removes exactly the key results of that objective and leaves the others untouched |
| OkrService.KeyResultEditable | backend/src/main/java/com/onnorokom/okr/service/impl/PermissionServiceImpl.java:137-145 | a key result is editable exactly by its owner or by whoever may edit its sheet |
| OkrService.CheckedEntries | backend/src/main/java/com/onnorokom/okr/service/impl/OkrServiceImpl.java:352-358 | checkAndAudit writes one entry with the raw values exactly when the values differ once null is read as empty |
| OkrService.NullIsEmptyForAudit | backend/src/main/java/com/onnorokom/okr/service/impl/OkrServiceImpl.java:353-355 | replacing null by the empty string, or the reverse, is not audited |
| OkrService.CheckAndAudit | backend/src/main/java/com/onnorokom/okr/service/impl/OkrServiceImpl.java:352-358 | appends exactly those entries to the audit log |
| OkrService.ApplyUpdate | backend/src/main/java/com/onnorokom/okr/service/impl/OkrServiceImpl.java:305-327 | each field present in the request replaces the stored one, absent fields keep theirs, objective, owner, order and weight never change, and progress is recomputed from the new values |
| OkrService.ApplyUpdateIdempotent | backend/src/main/java/com/onnorokom/okr/service/impl/OkrServiceImpl.java:305-327 | applying the same update twice gives the same key result as applying it once |
| OkrService.EmptyUpdateOnlyRecomputes | backend/src/main/java/com/onnorokom/okr/service/impl/OkrServiceImpl.java:305-327 | an empty update only recomputes the progress |
| OkrService.UpdateAuditTrail | backend/src/main/java/com/onnorokom/okr/service/impl/OkrServiceImpl.java:299-303 | updateKeyResult writes at most three entries, all by the actor on that key result |
| OkrService.UpdateAuditLogsOmittedFields | backend/src/main/java/com/onnorokom/okr/service/impl/OkrServiceImpl.java:299-303 | an update that omits current value, confidence level and comments changes none of them, yet, for any stored number and any non-empty stored confidence level and comment, all three are audited as changed: the number to "null", the two texts to null |
| OkrService.SetPresentFields | backend/src/main/java/com/onnorokom/okr/service/impl/OkrServiceImpl.java:305-327 | the null-checked setters and the recomputation give exactly the updated key result |
| OkrService.AuditKeyResultUpdate | backend/src/main/java/com/onnorokom/okr/service/impl/OkrServiceImpl.java:299-303 | appends exactly the update's audit trail |
| OkrService.RollupSheet | backend/src/main/java/com/onnorokom/okr/service/impl/OkrServiceImpl.java:345-350 | the sheet's stored progress becomes the mean of its objectives, nothing else changes |
| OkrService.RollupObjective | backend/src/main/java/com/onnorokom/okr/service/impl/OkrServiceImpl.java:336-343 | the objective is rolled up, then its sheet |
| OkrService.SaveKeyResult | backend/src/main/java/com/onnorokom/okr/service/impl/OkrServiceImpl.java:328-331 | the key result is stored, its objective and sheet are rolled up, and the invariant is kept |
| OkrService.UpdateKeyResult | backend/src/main/java/com/onnorokom/okr/service/impl/OkrServiceImpl.java:291-334 | an unknown key result and a refused edit fail and change nothing; otherwise the audit trail is appended, the updated key result is stored and returned, its objective and sheet are rolled up, and the invariant is kept |
| OkrService.EditObjective | backend/src/main/java/com/onnorokom/okr/service/impl/OkrServiceImpl.java:370-382 | a present title or owner replaces the stored one; nothing else of the objective changes |
| OkrService.ObjectiveAuditTrail | backend/src/main/java/com/onnorokom/okr/service/impl/OkrServiceImpl.java:370-378 | at most two entries, all by the actor on that objective; none when the request carries neither field |
| OkrService.RepeatedObjectiveUpdateIsSilent | backend/src/main/java/com/onnorokom/okr/service/impl/OkrServiceImpl.java:370-382 | re-sending the stored title and owner writes no audit entry and leaves the objective unchanged |
| OkrService.ObjectiveAuditRecordsChanges | backend/src/main/java/com/onnorokom/okr/service/impl/OkrServiceImpl.java:370-372 | a new title is audited first, with the old and the new title |
| OkrService.AuditObjectiveUpdate | backend/src/main/java/com/onnorokom/okr/service/impl/OkrServiceImpl.java:370-378 | appends exactly the objective's audit trail |
| OkrService.SaveObjective | backend/src/main/java/com/onnorokom/okr/service/impl/OkrServiceImpl.java:384 | stores the edited objective and keeps the invariant |
| OkrService.UpdateObjective | backend/src/main/java/com/onnorokom/okr/service/impl/OkrServiceImpl.java:362-387 | unknown objective, refused edit and unknown new owner fail and change nothing; success happens exactly when none of these holds, and then stores and returns the edited objective and appends its audit trail; the invariant is kept |
| OkrService.CreateObjective | backend/src/main/java/com/onnorokom/okr/service/impl/OkrServiceImpl.java:391-414 | unknown sheet and refused edit fail and change nothing; a request without a title is rejected by the non-null title column and changes nothing; otherwise a fresh objective owned by the actor, with progress 0 and the next sort order, is added, and its creation is audited |
| OkrService.NewKeyResult | backend/src/main/java/com/onnorokom/okr/service/impl/OkrServiceImpl.java:429-439 | a new key result takes title and deadline from the request, start and target default to 0 and 100, current equals start, progress is 0, the actor owns it and it is ON_TRACK |
| OkrService.NewKeyResultProgress | backend/src/main/java/com/onnorokom/okr/service/impl/OkrServiceImpl.java:432-435 | the stored progress 0 agrees with the calculator except on an empty range whose start already reaches the target |
| OkrService.CreateKeyResult | backend/src/main/java/com/onnorokom/okr/service/impl/OkrServiceImpl.java:418-446 | unknown objective and refused edit fail and change nothing; otherwise the new key result is added after its siblings and its creation is audited (no entry for a missing title) |
| OkrService.RemoveObjective | backend/src/main/java/com/onnorokom/okr/service/impl/OkrServiceImpl.java:458-467 | removes the objective and all its key results and rolls up its sheet, which drops to 0 if it has no objective left; the invariant is kept |
| OkrService.DeleteObjective | backend/src/main/java/com/onnorokom/okr/service/impl/OkrServiceImpl.java:450-468 | unknown objective and refused edit fail and change nothing; otherwise the objective and its key results are gone, the sheet is rolled up, the deletion is audited with the old title, and the invariant is kept |
| OkrService.RemoveKeyResult | backend/src/main/java/com/onnorokom/okr/service/impl/OkrServiceImpl.java:484-486 | removes the key result and rolls up its objective, which drops to 0 if it has none left, and its sheet; the invariant is kept |
| OkrService.DeleteKeyResult | backend/src/main/java/com/onnorokom/okr/service/impl/OkrServiceImpl.java:472-487 | unknown key result and refused edit fail and change nothing; otherwise the key result is gone, objective and sheet are rolled up, the deletion is audited with the old title, and the invariant is kept |
| Dashboard.Preview | backend/src/main/java/com/onnorokom/okr/service/impl/OkrServiceImpl.java:202-207 | each objective becomes a summary with its own title and progress, one for one |
| Dashboard.Summary | backend/src/main/java/com/onnorokom/okr/service/impl/OkrServiceImpl.java:188-211 | a sheet summary carries the sheet's id, scope and overall progress, the cycle's time progress and days remaining on that day (hence in [0, 1] and non-negative), the cycle's total days and at most three objectives |
| Dashboard.PreviewFromSheet | backend/src/main/java/com/onnorokom/okr/service/impl/OkrServiceImpl.java:201-207 | every previewed objective is a stored objective of that sheet |
| Dashboard.PreviewIsFirstBySortOrder | backend/src/main/java/com/onnorokom/okr/service/impl/OkrServiceImpl.java:201-202 | the preview is the first min(n, 3) objectives in sort order, and none left out sorts before a previewed one |
| Dashboard.SummaryBounded | backend/src/main/java/com/onnorokom/okr/service/impl/OkrServiceImpl.java:195-207 | under the roll-up invariant every figure a summary shows lies in [0, 1] |
| Dashboard.ActiveCycle | backend/src/main/java/com/onnorokom/okr/service/impl/CycleServiceImpl.java:36-38 | the active cycle is an active stored cycle, and None exactly when no cycle is active |
| Dashboard.ScopeSheets | backend/src/main/java/com/onnorokom/okr/repository/OkrSheetRepository.java:13 | exactly the sheets of the cycle with the given scope type and scope id |
| Dashboard.CompanySheets | backend/src/main/java/com/onnorokom/okr/repository/OkrSheetRepository.java:11 | exactly the company sheets of the cycle |
| Dashboard.VisibleTeams | backend/src/main/java/com/onnorokom/okr/service/impl/OkrServiceImpl.java:58-69 | an elevated user sees every team; anyone else at most their own |
| Dashboard.VisibleDepartments | backend/src/main/java/com/onnorokom/okr/service/impl/OkrServiceImpl.java:72-83 | an elevated user sees every department; anyone else at most their own |
| Dashboard.DashboardView | backend/src/main/java/com/onnorokom/okr/service/impl/OkrServiceImpl.java:40-93 | without an active cycle the dashboard is empty; the only personal sheet shown is the user's own |
| Dashboard.ScopedSummariesComplete | backend/src/main/java/com/onnorokom/okr/service/impl/OkrServiceImpl.java:61-64 | every sheet of the cycle whose scope is in the visited list is summarised |
| Dashboard.DashboardOrdered | backend/src/main/java/com/onnorokom/okr/service/impl/OkrServiceImpl.java:53-88 | cards come in scope order: company, then team, then department, then personal |
| Dashboard.DashboardShowsActiveCycle | backend/src/main/java/com/onnorokom/okr/service/impl/OkrServiceImpl.java:41-46 | every card is a stored sheet of the active cycle |
| Dashboard.DashboardOwnScopesOnly | backend/src/main/java/com/onnorokom/okr/service/impl/OkrServiceImpl.java:65-83 | a user who is neither super admin nor org leadership sees team and department cards only for their own team and department |
| Dashboard.DashboardShowsAllToElevated | backend/src/main/java/com/onnorokom/okr/service/impl/OkrServiceImpl.java:53-78 | every company sheet of the active cycle is shown to everyone, and every team and department sheet to elevated users |
| Dashboard.AddSummaries | backend/src/main/java/com/onnorokom/okr/service/impl/OkrServiceImpl.java:55 | the forEach appends exactly the summaries of the given sheets |
| Dashboard.AddScoped | backend/src/main/java/com/onnorokom/okr/service/impl/OkrServiceImpl.java:61-64 | the loop over scopes appends exactly the summaries of each scope's sheets, in order |
| Dashboard.GetDashboard | backend/src/main/java/com/onnorokom/okr/service/impl/OkrServiceImpl.java:40-93 | the imperative dashboard builder returns exactly the dashboard view of the current tables |
| HierarchicalDashboard.FirstSummary | backend/src/main/java/com/onnorokom/okr/service/impl/OkrServiceImpl.java:128-131 | None exactly when the scope has no sheet in the cycle; otherwise the summary of its lowest-id sheet |
| HierarchicalDashboard.MemberNodes | backend/src/main/java/com/onnorokom/okr/service/impl/OkrServiceImpl.java:156-170 | every listed user except the viewer gets a node with their email and their first personal sheet, and no other node is made |
| HierarchicalDashboard.DepartmentMembers | backend/src/main/java/com/onnorokom/okr/service/impl/OkrServiceImpl.java:156 | exactly the users of the department |
| HierarchicalDashboard.DeptNode | backend/src/main/java/com/onnorokom/okr/service/impl/OkrServiceImpl.java:143-173 | a department node carries its first department sheet; members are listed only for elevated viewers, never include the viewer, and all belong to the department |
| HierarchicalDashboard.DepartmentIds | backend/src/main/java/com/onnorokom/okr/service/impl/OkrServiceImpl.java:134-141 | only departments of the team; an elevated viewer gets all of them, anyone else at most their own |
| HierarchicalDashboard.MakeTeamNode | backend/src/main/java/com/onnorokom/okr/service/impl/OkrServiceImpl.java:122-177 | a team node carries its first team sheet and only departments of that team |
| HierarchicalDashboard.HierarchyView | backend/src/main/java/com/onnorokom/okr/service/impl/OkrServiceImpl.java:96-186 | without an active cycle the hierarchy is empty; the separate personal card is the viewer's own |
| HierarchicalDashboard.ViewerNeverMember | backend/src/main/java/com/onnorokom/okr/service/impl/OkrServiceImpl.java:158 | the viewer never appears as a member node |
| HierarchicalDashboard.OrdinaryViewerSeesOwnBranch | backend/src/main/java/com/onnorokom/okr/service/impl/OkrServiceImpl.java:116-141 | a non-elevated viewer sees only their own team and, under it, only their own department, without member nodes |
| HierarchicalDashboard.ElevatedViewerSeesEveryone | backend/src/main/java/com/onnorokom/okr/service/impl/OkrServiceImpl.java:114-170 | an elevated viewer finds every other user under their department under its team |
| HierarchicalDashboard.BuildMembers | backend/src/main/java/com/onnorokom/okr/service/impl/OkrServiceImpl.java:156-170 | the member loop produces exactly the member nodes |
| HierarchicalDashboard.BuildDepartments | backend/src/main/java/com/onnorokom/okr/service/impl/OkrServiceImpl.java:143-174 | the department loop produces exactly the department nodes |
| HierarchicalDashboard.BuildTeams | backend/src/main/java/com/onnorokom/okr/service/impl/OkrServiceImpl.java:122-177 | the team loop produces exactly the team nodes |
| HierarchicalDashboard.GetHierarchicalDashboard | backend/src/main/java/com/onnorokom/okr/service/impl/OkrServiceImpl.java:96-186 | the imperative builder returns exactly the hierarchy view of the current tables |
| CycleService.CycleSheets | backend/src/main/java/com/onnorokom/okr/repository/OkrSheetRepository.java:9 | exactly the sheets of the cycle |
| CycleService.WithoutObjectivesOf | backend/src/main/java/com/onnorokom/okr/repository/ObjectiveRepository.java:15 | deleteBySheetId removes exactly the objectives of that sheet and leaves the others untouched |
| CycleService.CascadeKeepsLinks | backend/src/main/java/com/onnorokom/okr/service/impl/CycleServiceImpl.java:107-123 | after the cascade no objective or key result is orphaned and no sheet of the cycle remains |
| CycleService.CascadeKeepsRolledUp | backend/src/main/java/com/onnorokom/okr/service/impl/CycleServiceImpl.java:107-123 | the cascade needs no roll-up: surviving objectives and sheets lose no children, so the invariant still holds |
| CycleService.DeleteKeyResultsOf | backend/src/main/java/com/onnorokom/okr/service/impl/CycleServiceImpl.java:113-115 | the inner loop removes exactly the key results of the listed objectives |
| CycleService.ClearSheets | backend/src/main/java/com/onnorokom/okr/service/impl/CycleServiceImpl.java:111-117 | the outer loop removes exactly the objectives of the listed sheets and their key results |
| CycleService.DeleteCycle | backend/src/main/java/com/onnorokom/okr/service/impl/CycleServiceImpl.java:103-124 | an unknown cycle fails and changes nothing; otherwise the cycle, its sheets, their objectives and those objectives' key results are removed and nothing else, and the invariant is kept |
| AdminService.Blocked | backend/src/main/java/com/onnorokom/okr/service/impl/AdminServiceImpl.java:50 | a user reads as blocked exactly when the flag is set to true; a null flag is not blocked |
| AdminService.MapUser | backend/src/main/java/com/onnorokom/okr/service/impl/AdminServiceImpl.java:43-52 | the user view copies id, email, name, team and department, and reports blocked exactly for a true flag |
| AdminService.CreateUserCheck | backend/src/main/java/com/onnorokom/okr/service/impl/AdminServiceImpl.java:67-120 | a taken email fails first, then a null password, an unknown team, an unknown department, and then a null email, pin or role; it passes exactly when none of these holds |
| AdminService.NewUser | backend/src/main/java/com/onnorokom/okr/service/impl/AdminServiceImpl.java:71-93 | the new user takes email, name, team and department from the request and is not blocked |
| AdminService.AssignmentFor | backend/src/main/java/com/onnorokom/okr/service/impl/AdminServiceImpl.java:98-119 | DEPARTMENT_ADMIN with a department is scoped to it, TEAM_ADMIN with a team to it, SUPER_ADMIN and ORG_LEADERSHIP to the company, and every other role to the user's personal scope |
| AdminService.AssignmentGrantsEdit | backend/src/main/java/com/onnorokom/okr/service/impl/AdminServiceImpl.java:98-120 | the assignment a new user receives lets a super admin edit everything, org leadership nothing, a team or department admin their own team or department sheet, and anyone else their own personal sheet |
| AdminService.DefaultCompanyId | backend/src/main/java/com/onnorokom/okr/service/impl/AdminServiceImpl.java:54-62 | the default company is the lowest-id stored company, or the id the new one receives when there is none |
| AdminService.GetOrCreateDefaultCompany | backend/src/main/java/com/onnorokom/okr/service/impl/AdminServiceImpl.java:54-62 | returns the default company id, which is then stored; an existing first company is returned unchanged; otherwise one company named Onnorokom is created |
| AdminService.AssignRole | backend/src/main/java/com/onnorokom/okr/service/impl/AdminServiceImpl.java:98-120 | appends exactly one assignment, scoped as AssignmentFor says with the default company as company scope; the company exists afterwards when the role needs it |
| AdminService.DefaultCompanyTwice | backend/src/main/java/com/onnorokom/okr/service/impl/AdminServiceImpl.java:54-62 | asking twice returns the same company and creates at most one |
| AdminService.NewSheetKeepsRolledUp | backend/src/main/java/com/onnorokom/okr/service/impl/AdminServiceImpl.java:122-131 | adding an empty sheet with progress 0 keeps the roll-up invariant |
| AdminService.OpenPersonalSheet | backend/src/main/java/com/onnorokom/okr/service/impl/AdminServiceImpl.java:124-131 | with an active cycle one fresh personal sheet in that cycle with progress 0 is added for the user and every existing sheet stays; without one nothing changes |
| AdminService.SaveUserWithRole | backend/src/main/java/com/onnorokom/okr/service/impl/AdminServiceImpl.java:71-120 | the user is stored under a fresh id with exactly one role assignment, scoped to the default company when company-scoped; a company is created only when the role needs one and none exists |
| AdminService.RegisterUser | backend/src/main/java/com/onnorokom/okr/service/impl/AdminServiceImpl.java:71-133 | after the checks pass: the user, its assignment and, exactly when the first active cycle exists, one personal sheet in it are added, nothing else in those tables changes, and the invariant is kept |
| AdminService.CreateUser | backend/src/main/java/com/onnorokom/okr/service/impl/AdminServiceImpl.java:66-134 | a failed check (taken email, null password, unknown team or department, null email, pin or role) fails with its error and changes nothing; success happens exactly when the check passes, and then the user is stored under a fresh id and returned; exactly one role assignment is appended, whose role reads back as the request's and whose company scope is the default company; companies stay as they were unless a company-scoped role finds none, in which case exactly one Onnorokom company is created; with an active cycle exactly one fresh personal sheet in the first active cycle with progress 0 is added and every existing sheet stays, otherwise the sheets are unchanged; the invariant is kept |
| AdminService.BlockUser | backend/src/main/java/com/onnorokom/okr/service/impl/AdminServiceImpl.java:162-168 | an unknown user fails and changes nothing; otherwise only the blocked flag changes and the returned view reports it |
| AdminService.CreateDepartment | backend/src/main/java/com/onnorokom/okr/service/impl/AdminServiceImpl.java:184-199 | a null team id fails first, then an unknown team, then a null name rejected by the non-null name column, each changing nothing; success happens exactly when none holds, and then one new department with that name under the existing team is stored |

## Left out

- Controllers, authentication, the security user-details service and DTO mapping beyond the fields above: they are transport code around the core.
- Password and PIN values: `createUser` hashes the password and stores the PIN. Only a null password or PIN is modelled, because each makes the call fail; the hashing is a foreign call, and the stored hash and PIN affect no other modelled rule.
- UUIDs: ids are natural numbers from one counter, so the UUID generator is not modelled.
- Display names and titles: the team and department names in `mapUser`, the title fallbacks and names in dashboard summaries and nodes, and member display names are not modelled, because they are labels with no rule attached.
- `getSheetDetails`, `mapObjective`, `mapKeyResult`: read-only detail views that only copy fields and call `canEditKeyResult`, which is modelled.
- `createTeam`, `getAllUsers`, `getAllTeams`, `getAllDepartments`, `createCycle`, `getAllCycles`: plain row insertions and listings outside the modelled core.
- `deleteUser`, `deleteTeam`, `deleteDepartment`: not declared by the admin service interface in this repository.
- Floating point: `double` arithmetic is modelled as exact `real` arithmetic, so rounding in means and fractions is not captured.
- Integer widths: `long` day counts and `Integer` sort orders are unbounded integers; overflow is not modelled.
- JPA laziness, flushing and transaction boundaries: each service method is one atomic step, and a thrown exception leaves the state unchanged.
- The clock: `LocalDate.now()` is the `today` parameter.
- OkrService.ApplyUpdate: does not model the request's weight field, because the request type declares no weight; the stored weight stays unchanged.
- OkrService.CreateObjective: the roll-up invariant is not claimed, because the source does not roll the sheet up after a create.
- OkrService.CreateKeyResult: the roll-up invariant is not claimed, because the stored progress 0.0 can disagree with the calculator and neither the objective nor the sheet is rolled up.
- HierarchicalDashboard.DepartmentIds: a non-elevated user whose department row is missing gets no department, where the source would fail on the missing row.
