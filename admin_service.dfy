/**
 * Provisioning: creating users (with the role assignment their role maps to
 * and a personal sheet in the active cycle), the default company, blocking
 * users and creating departments. A password and a PIN are only checked for
 * null; their values and the hashing are not modelled.
 */
module AdminService {
  import opened Wrappers
  import opened Domain
  import Queries
  import Permission
  import Rollup
  import opened Store

  /** A create-user request; every field may be null. */
  datatype CreateUserRequest = CreateUserRequest(email: Option<string>, name: Option<string>,
                                                 password: Option<string>, pin: Option<string>,
                                                 role: Option<string>, teamId: Option<Id>,
                                                 departmentId: Option<Id>)

  /** What the admin screens show of a user; team and department are shown by id. */
  datatype UserView = UserView(id: Id, email: string, name: Option<string>, teamId: Option<Id>,
                               departmentId: Option<Id>, blocked: bool)

  /** The name of the company created when none exists. */
  const DefaultCompanyName := "Onnorokom"

  /** mapUser's blocked flag: a null flag reads as not blocked. */
  function Blocked(flag: Option<bool>): (b: bool)
    ensures b <==> flag == Some(true)
  {
    flag.GetOr(false)
  }

  /** mapUser. */
  function MapUser(id: Id, u: User): (r: UserView)
    ensures r.id == id && r.email == u.email && r.name == u.name
    ensures r.teamId == u.teamId && r.departmentId == u.departmentId
    ensures r.blocked <==> u.isBlocked == Some(true)
  {
    UserView(id, u.email, u.name, u.teamId, u.departmentId, Blocked(u.isBlocked))
  }

  /** Some user already has the e-mail address (findByEmail). */
  predicate EmailTaken(users: map<Id, User>, email: string) {
    exists u :: u in users && users[u].email == email
  }

  /**
   * findByEmail finds a user. A null address matches nobody, since every
   * stored user has one.
   */
  predicate RequestEmailTaken(users: map<Id, User>, req: CreateUserRequest) {
    req.email.Some? && EmailTaken(users, req.email.value)
  }

  /** The team and the department the request names, if any, exist. */
  predicate ReferencesExist(teams: map<Id, Team>, departments: map<Id, Department>, req: CreateUserRequest) {
    (req.teamId.None? || req.teamId.value in teams)
    && (req.departmentId.None? || req.departmentId.value in departments)
  }

  /**
   * Every way createUser fails, in the order it meets them: the e-mail
   * lookup, the password encoder refusing a null password, the team and the
   * department lookups, and then the non-null email and pin columns of the
   * user row and the non-null role column of its role assignment.
   */
  function CreateUserCheck(users: map<Id, User>, teams: map<Id, Team>, departments: map<Id, Department>,
                           req: CreateUserRequest): (r: Option<Failure>)
    ensures RequestEmailTaken(users, req) ==> r == Some(EmailExists)
    ensures !RequestEmailTaken(users, req) && req.password.None? ==> r == Some(NullArgument("password"))
    ensures !RequestEmailTaken(users, req) && req.password.Some? && req.teamId.Some? && req.teamId.value !in teams
            ==> r == Some(NotFound("Team"))
    ensures !RequestEmailTaken(users, req) && req.password.Some? && (req.teamId.None? || req.teamId.value in teams)
            && req.departmentId.Some? && req.departmentId.value !in departments
            ==> r == Some(NotFound("Department"))
    ensures !RequestEmailTaken(users, req) && req.password.Some? && ReferencesExist(teams, departments, req)
            ==> (req.email.None? ==> r == Some(NullColumn("email")))
                && (req.email.Some? && req.pin.None? ==> r == Some(NullColumn("pin")))
                && (req.email.Some? && req.pin.Some? && req.role.None? ==> r == Some(NullColumn("role")))
    ensures r.None? <==> !RequestEmailTaken(users, req) && ReferencesExist(teams, departments, req)
                         && req.email.Some? && req.password.Some? && req.pin.Some? && req.role.Some?
  {
    if RequestEmailTaken(users, req) then Some(EmailExists)
    else if req.password.None? then Some(NullArgument("password"))
    else if req.teamId.Some? && req.teamId.value !in teams then Some(NotFound("Team"))
    else if req.departmentId.Some? && req.departmentId.value !in departments then Some(NotFound("Department"))
    else if req.email.None? then Some(NullColumn("email"))
    else if req.pin.None? then Some(NullColumn("pin"))
    else if req.role.None? then Some(NullColumn("role"))
    else None
  }

  /** The user row createUser saves: not blocked. */
  function NewUser(req: CreateUserRequest): (u: User)
    requires req.email.Some?
    ensures u.email == req.email.value && u.name == req.name
    ensures u.teamId == req.teamId && u.departmentId == req.departmentId
    ensures !Blocked(u.isBlocked)
  {
    User(req.teamId, req.departmentId, req.email.value, req.name, Some(false))
  }

  /** Only SUPER_ADMIN and ORG_LEADERSHIP are scoped to the company. */
  predicate NeedsCompany(role: Role) {
    role == SuperAdmin || role == OrgLeadership
  }

  /** createUser creates the default company when the requested role needs one and no company exists yet. */
  predicate CreatesCompany(req: CreateUserRequest, companies: map<Id, Company>) {
    req.role.Some? && NeedsCompany(ParseRole(req.role.value)) && companies == map[]
  }

  /** The id the personal sheet of a user created when the counter stood at `n` receives. */
  function PersonalSheetId(req: CreateUserRequest, companies: map<Id, Company>, n: nat): (sid: nat)
    ensures sid == n + 1 || sid == n + 2
  {
    if CreatesCompany(req, companies) then n + 2 else n + 1
  }

  /**
   * The role assignment of a new user: a department admin with a department
   * is scoped to it, a team admin with a team to it, super admins and org
   * leadership to the company, and everyone else to their own personal scope.
   */
  function AssignmentFor(userId: Id, role: Role, teamId: Option<Id>, departmentId: Option<Id>, companyId: Id)
    : (a: RoleAssignment)
    ensures a.userId == userId && a.role == role
    ensures a.scopeType == DepartmentScope <==> role == DepartmentAdmin && departmentId.Some?
    ensures a.scopeType == TeamScope <==> role == TeamAdmin && teamId.Some?
    ensures a.scopeType == CompanyScope <==> NeedsCompany(role)
    ensures a.scopeType == PersonalScope <==>
              !NeedsCompany(role) && !(role == DepartmentAdmin && departmentId.Some?)
              && !(role == TeamAdmin && teamId.Some?)
    ensures a.scopeType == DepartmentScope ==> a.scopeId == departmentId
    ensures a.scopeType == TeamScope ==> a.scopeId == teamId
    ensures a.scopeType == CompanyScope ==> a.scopeId == Some(companyId)
    ensures a.scopeType == PersonalScope ==> a.scopeId == Some(userId)
  {
    if role == DepartmentAdmin && departmentId.Some? then RoleAssignment(userId, role, DepartmentScope, departmentId)
    else if role == TeamAdmin && teamId.Some? then RoleAssignment(userId, role, TeamScope, teamId)
    else if NeedsCompany(role) then RoleAssignment(userId, role, CompanyScope, Some(companyId))
    else RoleAssignment(userId, role, PersonalScope, Some(userId))
  }

  /**
   * What the assignment a new user receives lets them edit: a super admin
   * every sheet, org leadership none, a team admin the sheets of their team, a
   * department admin those of their department, and anyone their own personal
   * sheet unless they are org leadership.
   */
  lemma AssignmentGrantsEdit(assignments: seq<RoleAssignment>, actor: Actor, role: Role, companyId: Id,
                             sheet: OkrSheet, departments: map<Id, Department>, users: map<Id, User>)
    requires forall a :: a in assignments ==> a.userId != actor.id
    ensures var all := assignments + [AssignmentFor(actor.id, role, actor.teamId, actor.departmentId, companyId)];
            var can := Permission.CanEditSheet(actor, all, sheet, departments, users);
            (role == SuperAdmin ==> can)
            && (role == OrgLeadership ==> !can)
            && (role == TeamAdmin && sheet.scopeType == TeamScope && actor.teamId == Some(sheet.scopeId) ==> can)
            && (role == DepartmentAdmin && sheet.scopeType == DepartmentScope
                && actor.departmentId == Some(sheet.scopeId)
                ==> can)
            && (role != OrgLeadership && sheet.scopeType == PersonalScope && sheet.scopeId == actor.id ==> can)
  {
    var a := AssignmentFor(actor.id, role, actor.teamId, actor.departmentId, companyId);
    var all := assignments + [a];
    var roles := Permission.RolesOf(all, actor.id);
    assert forall x :: x in roles <==> x == a;
    assert Permission.HasRole(roles, role);
    if role != SuperAdmin {
      assert !Permission.HasRole(roles, SuperAdmin);
    }
    if role != OrgLeadership {
      assert !Permission.HasRole(roles, OrgLeadership);
    }
    if role == TeamAdmin && actor.teamId.Some? {
      assert Permission.Grants(a, TeamAdmin, TeamScope, actor.teamId.value);
    }
    if role == DepartmentAdmin && actor.departmentId.Some? {
      assert Permission.Grants(a, DepartmentAdmin, DepartmentScope, actor.departmentId.value);
    }
  }

  /**
   * The company getOrCreateDefaultCompany settles on: the first stored
   * company (the lowest id), or the id the new company receives when there is
   * none.
   */
  function DefaultCompanyId(companies: map<Id, Company>, n: nat): (id: Id)
    ensures companies == map[] ==> id == n
    ensures Below(companies, n) && companies != map[] ==> id in companies && forall c :: c in companies ==> id <= c
  {
    var first := Queries.First(companies, Queries.AnyCompany, n);
    if first.Some? then first.value
    else n
  }

  /** getOrCreateDefaultCompany: the first company, or a new one named Onnorokom when there is none. */
  method GetOrCreateDefaultCompany(db: Database) returns (id: Id)
    requires db.Valid()
    modifies db`companies, db`nextId
    ensures db.Valid()
    ensures id in db.companies && id == DefaultCompanyId(old(db.companies), old(db.nextId))
    ensures old(db.companies) != map[] ==>
              db.companies == old(db.companies) && db.nextId == old(db.nextId)
              && Queries.First(db.companies, Queries.AnyCompany, db.nextId) == Some(id)
    ensures old(db.companies) == map[] ==>
              id == old(db.nextId) && db.nextId == id + 1 && db.companies == map[id := Company(DefaultCompanyName)]
  {
    var first := Queries.First(db.companies, Queries.AnyCompany, db.nextId);
    if first.Some? {
      return first.value;
    }
    assert db.companies == map[] by {
      forall c | c in db.companies ensures false {
        assert c < db.nextId && Queries.AnyCompany(db.companies[c]);
      }
    }
    id := db.FreshId();
    db.companies := db.companies[id := Company(DefaultCompanyName)];
  }

  /** A second call finds the company the first one created: at most one company is ever created. */
  method DefaultCompanyTwice(db: Database) returns (first: Id, second: Id)
    requires db.Valid()
    modifies db`companies, db`nextId
    ensures first == second
    ensures |db.companies.Keys| <= |old(db.companies).Keys| + 1
    ensures old(db.companies) != map[] ==> db.companies == old(db.companies)
  {
    first := GetOrCreateDefaultCompany(db);
    ghost var afterFirst := db.companies;
    assert old(db.companies) == map[] ==> afterFirst.Keys == {first};
    second := GetOrCreateDefaultCompany(db);
  }

  /** A personal sheet with no objectives yet: adding it keeps the rolled-up invariant. */
  lemma NewSheetKeepsRolledUp(sheets: map<Id, OkrSheet>, objs: map<Id, Objective>, krs: map<Id, KeyResult>,
                              n: nat, sid: Id, sheet: OkrSheet)
    requires Rollup.RolledUp(sheets, objs, krs, n)
    requires sid !in sheets && ObjectivesLinked(objs, sheets)
    requires sheet.computedOverallProgress == 0.0
    ensures Rollup.RolledUp(sheets[sid := sheet], objs, krs, n)
  {
    Rollup.EmptySheetRollsUpToZero(objs, n, sid);
  }

  /** userRepository.save of the new user. */
  method SaveUser(db: Database, user: User) returns (uid: Id)
    requires db.Valid()
    modifies db`users, db`nextId
    ensures db.Valid()
    ensures uid == old(db.nextId) && db.nextId == uid + 1 && uid !in old(db.users)
    ensures db.users == old(db.users)[uid := user]
    ensures old(db.RolledUp()) ==> db.RolledUp()
  {
    ghost var n := db.nextId;
    uid := db.FreshId();
    db.users := db.users[uid := user];
    if Rollup.RolledUp(db.sheets, db.objectives, db.keyResults, n) {
      Rollup.RolledUpBeyond(db.sheets, db.objectives, db.keyResults, n, db.nextId);
    }
  }

  /** The role assignment step, with the company lookup only for company-scoped roles. */
  method AssignRole(db: Database, uid: Id, role: Role, teamId: Option<Id>, departmentId: Option<Id>)
    requires db.Valid()
    modifies db`roleAssignments, db`companies, db`nextId
    ensures db.Valid()
    ensures db.roleAssignments
            == old(db.roleAssignments)
               + [AssignmentFor(uid, role, teamId, departmentId, DefaultCompanyId(old(db.companies), old(db.nextId)))]
    ensures NeedsCompany(role) ==> DefaultCompanyId(old(db.companies), old(db.nextId)) in db.companies
    ensures !NeedsCompany(role) || old(db.companies) != map[] ==>
              db.companies == old(db.companies) && db.nextId == old(db.nextId)
    ensures NeedsCompany(role) && old(db.companies) == map[] ==>
              db.nextId == old(db.nextId) + 1 && db.companies == map[old(db.nextId) := Company(DefaultCompanyName)]
    ensures old(db.RolledUp()) ==> db.RolledUp()
  {
    ghost var n := db.nextId;
    var companyId := 0;
    if NeedsCompany(role) {
      companyId := GetOrCreateDefaultCompany(db);
    }
    db.roleAssignments := db.roleAssignments + [AssignmentFor(uid, role, teamId, departmentId, companyId)];
    if Rollup.RolledUp(db.sheets, db.objectives, db.keyResults, n) {
      Rollup.RolledUpBeyond(db.sheets, db.objectives, db.keyResults, n, db.nextId);
    }
  }

  /** The personal sheet createUser opens for the new user in the active cycle `active`, if there is one. */
  method OpenPersonalSheet(db: Database, uid: Id, active: Option<Id>)
    requires db.Valid()
    modifies db`sheets, db`nextId
    ensures db.Valid()
    ensures active.None? ==> db.sheets == old(db.sheets) && db.nextId == old(db.nextId)
    ensures active.Some? ==>
              var sid := old(db.nextId);
              db.nextId == sid + 1 && sid !in old(db.sheets)
              && db.sheets == old(db.sheets)[sid := OkrSheet(active.value, PersonalScope, uid, false, 0.0)]
    ensures old(db.RolledUp()) ==> db.RolledUp()
  {
    if active.None? {
      return;
    }
    ghost var sheets, objs, krs, n := db.sheets, db.objectives, db.keyResults, db.nextId;
    var sid := db.FreshId();
    var sheet := OkrSheet(active.value, PersonalScope, uid, false, 0.0);
    db.sheets := db.sheets[sid := sheet];
    if Rollup.RolledUp(sheets, objs, krs, n) {
      Rollup.RolledUpBeyond(sheets, objs, krs, n, db.nextId);
      NewSheetKeepsRolledUp(sheets, objs, krs, db.nextId, sid, sheet);
    }
  }

  /** The user and its role assignment, saved before the personal sheet is opened. */
  method SaveUserWithRole(db: Database, req: CreateUserRequest) returns (uid: Id)
    requires db.Valid()
    requires req.email.Some? && req.role.Some?
    modifies db`users, db`roleAssignments, db`companies, db`nextId
    ensures db.Valid()
    ensures uid == old(db.nextId) && old(db.nextId) !in old(db.users)
    ensures db.users == old(db.users)[old(db.nextId) := NewUser(req)]
    ensures db.roleAssignments
            == old(db.roleAssignments)
               + [AssignmentFor(old(db.nextId), ParseRole(req.role.value), req.teamId, req.departmentId,
                                DefaultCompanyId(old(db.companies), old(db.nextId) + 1))]
    ensures RoleName(db.roleAssignments[|db.roleAssignments| - 1].role) == req.role.value
    ensures CreatesCompany(req, old(db.companies)) ==> db.companies == map[old(db.nextId) + 1 := Company(DefaultCompanyName)]
    ensures !CreatesCompany(req, old(db.companies)) ==> db.companies == old(db.companies)
    ensures db.nextId == PersonalSheetId(req, old(db.companies), old(db.nextId))
    ensures old(db.RolledUp()) ==> db.RolledUp()
  {
    uid := SaveUser(db, NewUser(req));
    AssignRole(db, uid, ParseRole(req.role.value), req.teamId, req.departmentId);
  }

  /**
   * The saving steps of createUser once its checks have passed: the user, its
   * role assignment (creating the default company when the role needs one)
   * and, when a cycle is active, its personal sheet.
   */
  method RegisterUser(db: Database, req: CreateUserRequest) returns (view: UserView)
    requires db.Valid()
    requires req.email.Some? && req.role.Some?
    modifies db`users, db`roleAssignments, db`sheets, db`companies, db`nextId
    ensures db.Valid()
    ensures view == MapUser(old(db.nextId), NewUser(req)) && old(db.nextId) !in old(db.users)
    ensures db.users == old(db.users)[old(db.nextId) := NewUser(req)]
    ensures db.roleAssignments
            == old(db.roleAssignments)
               + [AssignmentFor(old(db.nextId), ParseRole(req.role.value), req.teamId, req.departmentId,
                                DefaultCompanyId(old(db.companies), old(db.nextId) + 1))]
    ensures RoleName(db.roleAssignments[|db.roleAssignments| - 1].role) == req.role.value
    ensures CreatesCompany(req, old(db.companies)) ==> db.companies == map[old(db.nextId) + 1 := Company(DefaultCompanyName)]
    ensures !CreatesCompany(req, old(db.companies)) ==> db.companies == old(db.companies)
    ensures var sid := PersonalSheetId(req, old(db.companies), old(db.nextId));
            var active := Queries.First(old(db.cycles), Queries.IsActive, old(db.nextId));
            (active.None? ==> db.sheets == old(db.sheets) && db.nextId == sid)
            && (active.Some? ==>
                  sid !in old(db.sheets) && db.nextId == sid + 1
                  && db.sheets == old(db.sheets)[sid := OkrSheet(active.value, PersonalScope, old(db.nextId), false, 0.0)])
    ensures old(db.RolledUp()) ==> db.RolledUp()
  {
    ghost var n0 := db.nextId;
    var uid := SaveUserWithRole(db, req);
    var active := Queries.First(db.cycles, Queries.IsActive, db.nextId);
    Queries.FirstBeyond(db.cycles, Queries.IsActive, n0, db.nextId);
    OpenPersonalSheet(db, uid, active);
    view := MapUser(uid, NewUser(req));
  }

  /**
   * createUser: fails on a taken e-mail address, a null password, an unknown
   * team or department, or a null email, pin or role, without changing
   * anything (the transaction rolls back); otherwise saves the user,
   * its role assignment and, when a cycle is active, its personal sheet.
   */
  method CreateUser(db: Database, req: CreateUserRequest) returns (r: Result<UserView, Failure>)
    requires db.Valid()
    modifies db`users, db`roleAssignments, db`sheets, db`companies, db`nextId
    ensures db.Valid()
    ensures CreateUserCheck(old(db.users), old(db.teams), old(db.departments), req).Some? ==>
              r == Failure(CreateUserCheck(old(db.users), old(db.teams), old(db.departments), req).value)
              && unchanged(db)
    ensures r.Success? <==> CreateUserCheck(old(db.users), old(db.teams), old(db.departments), req).None?
    ensures r.Success? ==> r.value == MapUser(old(db.nextId), NewUser(req)) && old(db.nextId) !in old(db.users)
    ensures r.Success? ==> db.users == old(db.users)[old(db.nextId) := NewUser(req)]
    ensures r.Success? ==>
              db.roleAssignments
              == old(db.roleAssignments)
                 + [AssignmentFor(old(db.nextId), ParseRole(req.role.value), req.teamId, req.departmentId,
                                  DefaultCompanyId(old(db.companies), old(db.nextId) + 1))]
    ensures r.Success? ==> RoleName(db.roleAssignments[|db.roleAssignments| - 1].role) == req.role.value
    ensures r.Success? && CreatesCompany(req, old(db.companies)) ==>
              db.companies == map[old(db.nextId) + 1 := Company(DefaultCompanyName)]
    ensures r.Success? && !CreatesCompany(req, old(db.companies)) ==> db.companies == old(db.companies)
    ensures r.Success? ==>
              var sid := PersonalSheetId(req, old(db.companies), old(db.nextId));
              var active := Queries.First(old(db.cycles), Queries.IsActive, old(db.nextId));
              (active.None? ==> db.sheets == old(db.sheets) && db.nextId == sid)
              && (active.Some? ==>
                    sid !in old(db.sheets) && db.nextId == sid + 1
                    && db.sheets == old(db.sheets)[sid := OkrSheet(active.value, PersonalScope, old(db.nextId), false, 0.0)])
    ensures old(db.RolledUp()) ==> db.RolledUp()
  {
    var failure := CreateUserCheck(db.users, db.teams, db.departments, req);
    if failure.Some? {
      return Failure(failure.value);
    }
    var view := RegisterUser(db, req);
    r := Success(view);
  }

  /** blockUser: sets only the blocked flag of an existing user. */
  method BlockUser(db: Database, userId: Id, blocked: bool) returns (r: Result<UserView, Failure>)
    requires db.Valid()
    modifies db`users
    ensures db.Valid()
    ensures userId !in old(db.users) ==> r == Failure(NotFound("User")) && unchanged(db)
    ensures userId in old(db.users) ==>
              db.users == old(db.users)[userId := old(db.users[userId]).(isBlocked := Some(blocked))]
              && r == Success(MapUser(userId, db.users[userId]))
              && (r.value.blocked <==> blocked)
  {
    if userId !in db.users {
      return Failure(NotFound("User"));
    }
    var user := db.users[userId].(isBlocked := Some(blocked));
    db.users := db.users[userId := user];
    r := Success(MapUser(userId, user));
  }

  /**
   * createDepartment: a new department under an existing team. findById
   * refuses a null team id; the team is then looked up, and a null name is
   * rejected by the non-null name column.
   */
  method CreateDepartment(db: Database, teamId: Option<Id>, name: Option<string>) returns (r: Result<Id, Failure>)
    requires db.Valid()
    modifies db`departments, db`nextId
    ensures db.Valid()
    ensures teamId.None? ==> r == Failure(NullArgument("id")) && unchanged(db)
    ensures teamId.Some? && teamId.value !in old(db.teams) ==> r == Failure(NotFound("Team")) && unchanged(db)
    ensures teamId.Some? && teamId.value in old(db.teams) && name.None?
            ==> r == Failure(NullColumn("name")) && unchanged(db)
    ensures r.Success? <==> teamId.Some? && teamId.value in old(db.teams) && name.Some?
    ensures r.Success? ==>
              r == Success(old(db.nextId)) && r.value !in old(db.departments)
              && db.departments == old(db.departments)[r.value := Department(teamId.value, name.value)]
              && db.departments[r.value].teamId in db.teams
    ensures old(db.RolledUp()) ==> db.RolledUp()
  {
    if teamId.None? {
      return Failure(NullArgument("id"));
    }
    if teamId.value !in db.teams {
      return Failure(NotFound("Team"));
    }
    if name.None? {
      return Failure(NullColumn("name"));
    }
    ghost var n := db.nextId;
    var id := db.FreshId();
    db.departments := db.departments[id := Department(teamId.value, name.value)];
    r := Success(id);
    if Rollup.RolledUp(db.sheets, db.objectives, db.keyResults, n) {
      Rollup.RolledUpBeyond(db.sheets, db.objectives, db.keyResults, n, db.nextId);
    }
  }
}
