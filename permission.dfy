/**
 * Who may edit an OKR sheet or a key result. The decision is a first-match
 * rule over the actor's role assignments: SUPER_ADMIN allows everything,
 * ORG_LEADERSHIP is view-only, and otherwise the sheet's scope decides.
 * The repository lookups of the source (assignments by user, department by
 * id, user by id) are the tables passed in.
 */
module Permission {
  import opened Wrappers
  import opened Domain

  /** The assignments of one user, in table order (findByUserId). */
  function RolesOf(assignments: seq<RoleAssignment>, userId: Id): (r: seq<RoleAssignment>)
    ensures forall a :: a in r <==> a in assignments && a.userId == userId
  {
    if assignments == [] then []
    else
      var rest := RolesOf(assignments[1..], userId);
      assert forall a :: a in assignments <==> a == assignments[0] || a in assignments[1..];
      if assignments[0].userId == userId then [assignments[0]] + rest else rest
  }

  /** Some assignment carries the role, whatever its scope. */
  function HasRole(roles: seq<RoleAssignment>, role: Role): (b: bool)
    ensures b <==> exists a :: a in roles && a.role == role
  {
    if roles == [] then false
    else
      assert forall a :: a in roles <==> a == roles[0] || a in roles[1..];
      roles[0].role == role || HasRole(roles[1..], role)
  }

  /** Some assignment is exactly the role on the scope with that id. */
  function Holds(roles: seq<RoleAssignment>, role: Role, scopeType: ScopeType, scopeId: Id): (b: bool)
    ensures b <==> exists a :: a in roles && Grants(a, role, scopeType, scopeId)
  {
    if roles == [] then false
    else
      assert forall a :: a in roles <==> a == roles[0] || a in roles[1..];
      Grants(roles[0], role, scopeType, scopeId) || Holds(roles[1..], role, scopeType, scopeId)
  }

  predicate Grants(a: RoleAssignment, role: Role, scopeType: ScopeType, scopeId: Id) {
    a.role == role && a.scopeType == scopeType && a.scopeId == Some(scopeId)
  }

  /** The user holds the role in some assignment of the table. */
  ghost predicate UserHasRole(assignments: seq<RoleAssignment>, userId: Id, role: Role) {
    exists a :: a in assignments && a.userId == userId && a.role == role
  }

  /** The user holds exactly this scoped role in some assignment of the table. */
  ghost predicate UserHolds(assignments: seq<RoleAssignment>, userId: Id, role: Role, scopeType: ScopeType, scopeId: Id) {
    exists a :: a in assignments && a.userId == userId && Grants(a, role, scopeType, scopeId)
  }

  function IsSuperAdmin(assignments: seq<RoleAssignment>, userId: Id): (b: bool)
    ensures b <==> UserHasRole(assignments, userId, SuperAdmin)
  {
    HasRole(RolesOf(assignments, userId), SuperAdmin)
  }

  function IsOrgLeadership(assignments: seq<RoleAssignment>, userId: Id): (b: bool)
    ensures b <==> UserHasRole(assignments, userId, OrgLeadership)
  {
    HasRole(RolesOf(assignments, userId), OrgLeadership)
  }

  /** canEditSheet: the first rule that applies decides. */
  function CanEditSheet(actor: Actor, assignments: seq<RoleAssignment>, sheet: OkrSheet,
                        departments: map<Id, Department>, users: map<Id, User>): bool
  {
    var roles := RolesOf(assignments, actor.id);
    if HasRole(roles, SuperAdmin) then true
    else if HasRole(roles, OrgLeadership) then false
    else
      match sheet.scopeType
      case CompanyScope => false
      case TeamScope => Holds(roles, TeamAdmin, TeamScope, sheet.scopeId)
      case DepartmentScope =>
        var deptId := sheet.scopeId;
        Holds(roles, DepartmentAdmin, DepartmentScope, deptId)
        || (deptId in departments && Holds(roles, TeamAdmin, TeamScope, departments[deptId].teamId))
        || (actor.departmentId == Some(deptId) && HasRole(roles, Member))
      case PersonalScope =>
        var ownerId := sheet.scopeId;
        if actor.id == ownerId then true
        else if ownerId !in users then false
        else
          var owner := users[ownerId];
          (owner.teamId.Some? && Holds(roles, TeamAdmin, TeamScope, owner.teamId.value))
          || (owner.departmentId.Some? && Holds(roles, DepartmentAdmin, DepartmentScope, owner.departmentId.value))
      case OtherScope(_) => false
  }

  /** canEditKeyResult: the key result's owner may edit it; anyone else needs its sheet. */
  function CanEditKeyResult(actor: Actor, assignments: seq<RoleAssignment>, kr: KeyResult, sheet: OkrSheet,
                            departments: map<Id, Department>, users: map<Id, User>): (b: bool)
    ensures kr.ownerId == Some(actor.id) ==> b
    ensures kr.ownerId != Some(actor.id) ==> b == CanEditSheet(actor, assignments, sheet, departments, users)
  {
    kr.ownerId == Some(actor.id) || CanEditSheet(actor, assignments, sheet, departments, users)
  }

  /** Neither of the two company-wide roles. */
  ghost predicate Ordinary(assignments: seq<RoleAssignment>, userId: Id) {
    !UserHasRole(assignments, userId, SuperAdmin) && !UserHasRole(assignments, userId, OrgLeadership)
  }

  /** A super admin edits every sheet, whatever its scope. */
  lemma SuperAdminEditsEverySheet(actor: Actor, assignments: seq<RoleAssignment>, sheet: OkrSheet,
                                  departments: map<Id, Department>, users: map<Id, User>)
    requires UserHasRole(assignments, actor.id, SuperAdmin)
    ensures CanEditSheet(actor, assignments, sheet, departments, users)
  {
  }

  /** Org leadership without super admin edits no sheet, not even the actor's own personal one. */
  lemma OrgLeadershipEditsNoSheet(actor: Actor, assignments: seq<RoleAssignment>, sheet: OkrSheet,
                                  departments: map<Id, Department>, users: map<Id, User>)
    requires UserHasRole(assignments, actor.id, OrgLeadership)
    requires !UserHasRole(assignments, actor.id, SuperAdmin)
    ensures !CanEditSheet(actor, assignments, sheet, departments, users)
  {
  }

  /** A company sheet is editable exactly by super admins. */
  lemma CompanySheetOnlySuperAdmin(actor: Actor, assignments: seq<RoleAssignment>, sheet: OkrSheet,
                                   departments: map<Id, Department>, users: map<Id, User>)
    requires sheet.scopeType == CompanyScope
    ensures CanEditSheet(actor, assignments, sheet, departments, users)
            <==> UserHasRole(assignments, actor.id, SuperAdmin)
  {
  }

  /** A team sheet is editable by an ordinary actor exactly when they are team admin of that team. */
  lemma TeamSheetRule(actor: Actor, assignments: seq<RoleAssignment>, sheet: OkrSheet,
                      departments: map<Id, Department>, users: map<Id, User>)
    requires Ordinary(assignments, actor.id) && sheet.scopeType == TeamScope
    ensures CanEditSheet(actor, assignments, sheet, departments, users)
            <==> UserHolds(assignments, actor.id, TeamAdmin, TeamScope, sheet.scopeId)
  {
  }

  /**
   * A department sheet is editable by an ordinary actor exactly when they
   * administer the department, administer its team, or are a member
   * (under any scope) who belongs to the department.
   */
  lemma DepartmentSheetRule(actor: Actor, assignments: seq<RoleAssignment>, sheet: OkrSheet,
                            departments: map<Id, Department>, users: map<Id, User>)
    requires Ordinary(assignments, actor.id) && sheet.scopeType == DepartmentScope
    ensures CanEditSheet(actor, assignments, sheet, departments, users)
            <==> UserHolds(assignments, actor.id, DepartmentAdmin, DepartmentScope, sheet.scopeId)
                 || (sheet.scopeId in departments
                     && UserHolds(assignments, actor.id, TeamAdmin, TeamScope, departments[sheet.scopeId].teamId))
                 || (actor.departmentId == Some(sheet.scopeId) && UserHasRole(assignments, actor.id, Member))
  {
  }

  /** An ordinary actor always edits their own personal sheet, even with no assignment at all. */
  lemma OwnerEditsPersonalSheet(actor: Actor, assignments: seq<RoleAssignment>, sheet: OkrSheet,
                                departments: map<Id, Department>, users: map<Id, User>)
    requires Ordinary(assignments, actor.id)
    requires sheet.scopeType == PersonalScope && sheet.scopeId == actor.id
    ensures CanEditSheet(actor, assignments, sheet, departments, users)
  {
  }

  /**
   * Someone else's personal sheet is editable by an ordinary actor exactly
   * when its owner exists and the actor administers the owner's team or the
   * owner's department.
   */
  lemma OthersPersonalSheetRule(actor: Actor, assignments: seq<RoleAssignment>, sheet: OkrSheet,
                                departments: map<Id, Department>, users: map<Id, User>)
    requires Ordinary(assignments, actor.id)
    requires sheet.scopeType == PersonalScope && sheet.scopeId != actor.id
    ensures CanEditSheet(actor, assignments, sheet, departments, users)
            <==> sheet.scopeId in users
                 && ((users[sheet.scopeId].teamId.Some?
                      && UserHolds(assignments, actor.id, TeamAdmin, TeamScope, users[sheet.scopeId].teamId.value))
                     || (users[sheet.scopeId].departmentId.Some?
                         && UserHolds(assignments, actor.id, DepartmentAdmin, DepartmentScope,
                                      users[sheet.scopeId].departmentId.value)))
  {
  }

  /** A sheet with an unrecognised scope type is editable by super admins only. */
  lemma UnknownScopeOnlySuperAdmin(actor: Actor, assignments: seq<RoleAssignment>, sheet: OkrSheet,
                                   departments: map<Id, Department>, users: map<Id, User>)
    requires sheet.scopeType.OtherScope?
    ensures CanEditSheet(actor, assignments, sheet, departments, users)
            <==> UserHasRole(assignments, actor.id, SuperAdmin)
  {
  }
}
