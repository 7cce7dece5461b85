/**
 * The entities of the OKR backend as values: cycles, the organisational tree
 * (company, team, department, user), role assignments, and the OKR tables
 * (sheets, objectives, key results), plus the audit-log entry.
 *
 * Every table row is keyed by an `Id`; rows do not carry their own id.
 */
module Domain {
  import opened Wrappers

  /** Row identifiers (UUIDs in the source) are drawn from one counter. */
  type Id = nat

  /** The role column of a role assignment; any other string is kept as `OtherRole`. */
  datatype Role = SuperAdmin | OrgLeadership | TeamAdmin | DepartmentAdmin | Member | OtherRole(name: string)

  /** The scope-type column of sheets and role assignments. */
  datatype ScopeType = CompanyScope | TeamScope | DepartmentScope | PersonalScope | OtherScope(name: string)

  function RoleName(r: Role): string {
    match r
    case SuperAdmin => "SUPER_ADMIN"
    case OrgLeadership => "ORG_LEADERSHIP"
    case TeamAdmin => "TEAM_ADMIN"
    case DepartmentAdmin => "DEPARTMENT_ADMIN"
    case Member => "MEMBER"
    case OtherRole(name) => name
  }

  /** A role read from its stored string; the string is recovered unchanged. */
  function ParseRole(s: string): (r: Role)
    ensures RoleName(r) == s
    ensures r.OtherRole? <==> s !in {"SUPER_ADMIN", "ORG_LEADERSHIP", "TEAM_ADMIN", "DEPARTMENT_ADMIN", "MEMBER"}
  {
    if s == "SUPER_ADMIN" then SuperAdmin
    else if s == "ORG_LEADERSHIP" then OrgLeadership
    else if s == "TEAM_ADMIN" then TeamAdmin
    else if s == "DEPARTMENT_ADMIN" then DepartmentAdmin
    else if s == "MEMBER" then Member
    else OtherRole(s)
  }

  function ScopeName(t: ScopeType): string {
    match t
    case CompanyScope => "COMPANY"
    case TeamScope => "TEAM"
    case DepartmentScope => "DEPARTMENT"
    case PersonalScope => "PERSONAL"
    case OtherScope(name) => name
  }

  /** A scope type read from its stored string; the string is recovered unchanged. */
  function ParseScope(s: string): (t: ScopeType)
    ensures ScopeName(t) == s
    ensures t.OtherScope? <==> s !in {"COMPANY", "TEAM", "DEPARTMENT", "PERSONAL"}
  {
    if s == "COMPANY" then CompanyScope
    else if s == "TEAM" then TeamScope
    else if s == "DEPARTMENT" then DepartmentScope
    else if s == "PERSONAL" then PersonalScope
    else OtherScope(s)
  }

  /** A planning cycle; dates are day numbers, so `DAYS.between(a, b)` is `b - a`. */
  datatype Cycle = Cycle(name: string, startDate: int, endDate: int, isActive: bool)

  datatype Company = Company(name: string)

  datatype Team = Team(companyId: Id, name: string)

  /** Every department belongs to a team (a non-null foreign key). */
  datatype Department = Department(teamId: Id, name: string)

  /** A user; team, department, name and the blocked flag are nullable columns. */
  datatype User = User(teamId: Option<Id>, departmentId: Option<Id>, email: string, name: Option<string>,
                       isBlocked: Option<bool>)

  datatype RoleAssignment = RoleAssignment(userId: Id, role: Role, scopeType: ScopeType, scopeId: Option<Id>)

  /** One OKR sheet per (cycle, scope); its overall progress is rolled up from its objectives. */
  datatype OkrSheet = OkrSheet(cycleId: Id, scopeType: ScopeType, scopeId: Id, isHeld: bool,
                               computedOverallProgress: real)

  datatype Objective = Objective(sheetId: Id, title: string, ownerId: Option<Id>, sortOrder: int,
                                 computedProgress: real)

  /** A key result. `weight` is stored but never read by any calculation. */
  datatype KeyResult = KeyResult(objectiveId: Id, title: Option<string>,
                                 startValue: real, targetValue: real, currentValue: real,
                                 computedProgress: real, ownerId: Option<Id>,
                                 confidenceLevel: Option<string>, deadline: Option<int>,
                                 alignedProjects: Option<string>, comments: Option<string>,
                                 sortOrder: int, weight: int)

  /** A key result with the column defaults of a freshly constructed row. */
  function DefaultKeyResult(objectiveId: Id): (kr: KeyResult)
    ensures kr.startValue == 0.0 && kr.targetValue == 100.0 && kr.currentValue == 0.0
    ensures kr.computedProgress == 0.0 && kr.sortOrder == 0 && kr.weight == 0
  {
    KeyResult(objectiveId, None, 0.0, 100.0, 0.0, 0.0, None, None, None, None, None, 0, 0)
  }

  /** The acting user, as the controller hands it to a service. */
  datatype Actor = Actor(id: Id, teamId: Option<Id>, departmentId: Option<Id>)

  /**
   * The text an audit entry records. Strings are kept as text; the source
   * renders a Double with `String.valueOf`, which is `Number(x)` here (and a
   * null Double becomes the text "null"); a user id is `Ref(id)`.
   */
  datatype AuditValue = Text(s: string) | Number(x: real) | Ref(id: Id)

  datatype AuditEntry = AuditEntry(actorId: Id, entityType: string, entityId: Id, fieldName: string,
                                   oldValue: Option<AuditValue>, newValue: Option<AuditValue>)

  /**
   * The runtime exceptions the services throw, the rejection of a null in a
   * non-null column, and a library call refusing a null argument.
   */
  datatype Failure = NotFound(entity: string) | AccessDenied | EmailExists | NullColumn(column: string)
                   | NullArgument(parameter: string)
}
