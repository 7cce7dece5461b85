/**
 * getHierarchicalDashboard: the company cards, then a tree of teams, their
 * departments and (for elevated viewers) the departments' members, each node
 * carrying the first sheet of its scope in the active cycle, and the viewer's
 * own personal sheet apart. Names shown on nodes are not modelled; ids and
 * e-mail addresses are.
 */
module HierarchicalDashboard {
  import opened Wrappers
  import opened Domain
  import Queries
  import opened Dashboard
  import opened Store

  datatype MemberNode = MemberNode(userId: Id, email: string, personalOkr: Option<SheetSummary>)

  datatype DepartmentNode = DepartmentNode(departmentId: Id, departmentOkr: Option<SheetSummary>,
                                           members: seq<MemberNode>)

  datatype TeamNode = TeamNode(teamId: Id, teamOkr: Option<SheetSummary>, departments: seq<DepartmentNode>)

  datatype Hierarchy = Hierarchy(companyOkrs: seq<SheetSummary>, teams: seq<TeamNode>,
                                 myPersonalOkr: Option<SheetSummary>)

  /** The card of the first sheet of one scope in cycle `c`, if it has any. */
  function FirstSummary(t: Tables, c: Id, cycle: Cycle, today: int, st: ScopeType, id: Id): (r: Option<SheetSummary>)
    ensures r.None? <==> forall s :: s in t.sheets && s < t.n ==>
                           !(t.sheets[s].cycleId == c && t.sheets[s].scopeType == st && t.sheets[s].scopeId == id)
    ensures r.Some? ==> r.value.sheetId in t.sheets && r.value.sheetId < t.n
                        && t.sheets[r.value.sheetId].cycleId == c && r.value.scopeType == st && r.value.scopeId == id
                        && r.value == Summary(t, r.value.sheetId, cycle, today)
    ensures r.Some? ==> forall s :: s in t.sheets && s < r.value.sheetId ==>
                           !(t.sheets[s].cycleId == c && t.sheets[s].scopeType == st && t.sheets[s].scopeId == id)
  {
    var sids := Queries.Select(t.sheets, Queries.AtScope(c, st, id), t.n);
    if sids == [] then None
    else
      assert forall s :: s in t.sheets && s < t.n && Queries.AtScope(c, st, id)(t.sheets[s]) ==> s in sids;
      Some(Summary(t, sids[0], cycle, today))
  }

  /** The member nodes of the given users, skipping the viewer. */
  function MemberNodes(t: Tables, c: Id, cycle: Cycle, today: int, viewer: Id, uids: seq<Id>): (r: seq<MemberNode>)
    requires forall i :: 0 <= i < |uids| ==> uids[i] in t.users
    ensures forall m :: m in r ==> m.userId in uids && m.userId != viewer
    ensures forall m :: m in r ==> m.email == t.users[m.userId].email
                                   && m.personalOkr == FirstSummary(t, c, cycle, today, PersonalScope, m.userId)
    ensures forall u :: u in uids && u != viewer ==> exists m :: m in r && m.userId == u
  {
    if uids == [] then []
    else
      var u := uids[|uids| - 1];
      var front := MemberNodes(t, c, cycle, today, viewer, uids[..|uids| - 1]);
      assert forall v :: v in uids ==> v in uids[..|uids| - 1] || v == u;
      if u == viewer then front
      else front + [MemberNode(u, t.users[u].email, FirstSummary(t, c, cycle, today, PersonalScope, u))]
  }

  /** The users of department `d`. */
  function DepartmentMembers(t: Tables, d: Id): (r: seq<Id>)
    ensures forall i :: 0 <= i < |r| ==> r[i] in t.users && t.users[r[i]].departmentId == Some(d)
    ensures forall u :: u in t.users && u < t.n && t.users[u].departmentId == Some(d) ==> u in r
  {
    Queries.Select(t.users, Queries.InDepartment(d), t.n)
  }

  /** A department node: its first sheet, and its members only when the viewer is elevated. */
  function DeptNode(t: Tables, c: Id, cycle: Cycle, today: int, actor: Actor, elevated: bool, d: Id): (r: DepartmentNode)
    ensures r.departmentId == d
    ensures r.departmentOkr == FirstSummary(t, c, cycle, today, DepartmentScope, d)
    ensures !elevated ==> r.members == []
    ensures forall m :: m in r.members ==> m.userId != actor.id && m.userId in t.users
                                           && t.users[m.userId].departmentId == Some(d)
  {
    var uids := DepartmentMembers(t, d);
    DepartmentNode(d, FirstSummary(t, c, cycle, today, DepartmentScope, d),
                   if elevated then MemberNodes(t, c, cycle, today, actor.id, uids) else [])
  }

  /**
   * The departments shown under `team`: all of the team's departments for an
   * elevated viewer, otherwise the viewer's own department when it belongs to
   * that team.
   */
  function DepartmentIds(t: Tables, actor: Actor, elevated: bool, team: Id): (r: seq<Id>)
    ensures forall d :: d in r ==> d in t.departments && t.departments[d].teamId == team
    ensures !elevated ==> forall d :: d in r ==> actor.departmentId == Some(d)
    ensures elevated ==> forall d :: d in t.departments && d < t.n && t.departments[d].teamId == team ==> d in r
  {
    if elevated then Queries.Select(t.departments, Queries.OfTeam(team), t.n)
    else if actor.departmentId.Some? && actor.departmentId.value in t.departments
            && t.departments[actor.departmentId.value].teamId == team
    then [actor.departmentId.value]
    else []
  }

  function DeptNodes(t: Tables, c: Id, cycle: Cycle, today: int, actor: Actor, elevated: bool, ids: seq<Id>)
    : (r: seq<DepartmentNode>)
    ensures |r| == |ids| && forall i :: 0 <= i < |ids| ==> r[i] == DeptNode(t, c, cycle, today, actor, elevated, ids[i])
  {
    seq(|ids|, i requires 0 <= i < |ids| => DeptNode(t, c, cycle, today, actor, elevated, ids[i]))
  }

  /** A team node: its first sheet and the nodes of the departments shown under it. */
  function MakeTeamNode(t: Tables, c: Id, cycle: Cycle, today: int, actor: Actor, elevated: bool, team: Id): (r: TeamNode)
    ensures r.teamId == team && r.teamOkr == FirstSummary(t, c, cycle, today, TeamScope, team)
    ensures forall dn :: dn in r.departments ==>
              dn.departmentId in t.departments && t.departments[dn.departmentId].teamId == team
  {
    var ids := DepartmentIds(t, actor, elevated, team);
    var r := TeamNode(team, FirstSummary(t, c, cycle, today, TeamScope, team),
                      DeptNodes(t, c, cycle, today, actor, elevated, ids));
    assert forall dn :: dn in r.departments ==> dn.departmentId in ids;
    r
  }

  function TeamNodes(t: Tables, c: Id, cycle: Cycle, today: int, actor: Actor, elevated: bool, ids: seq<Id>)
    : (r: seq<TeamNode>)
    ensures |r| == |ids| && forall i :: 0 <= i < |ids| ==> r[i] == MakeTeamNode(t, c, cycle, today, actor, elevated, ids[i])
  {
    seq(|ids|, i requires 0 <= i < |ids| => MakeTeamNode(t, c, cycle, today, actor, elevated, ids[i]))
  }

  /** getHierarchicalDashboard as a function of the tables; empty when no cycle is active. */
  function HierarchyView(t: Tables, actor: Actor, today: int): (r: Hierarchy)
    ensures ActiveCycle(t).None? ==> r == Hierarchy([], [], None)
    ensures r.myPersonalOkr.Some? ==>
              r.myPersonalOkr.value.scopeType == PersonalScope && r.myPersonalOkr.value.scopeId == actor.id
  {
    match ActiveCycle(t)
    case None => Hierarchy([], [], None)
    case Some(c) =>
      var cycle := t.cycles[c];
      Hierarchy(Summaries(t, CompanySheets(t, c), cycle, today),
                TeamNodes(t, c, cycle, today, actor, Elevated(t, actor), VisibleTeams(t, actor)),
                FirstSummary(t, c, cycle, today, PersonalScope, actor.id))
  }

  /** The viewer never appears as a member node: their own sheet is shown apart. */
  lemma ViewerNeverMember(t: Tables, actor: Actor, today: int)
    ensures var r := HierarchyView(t, actor, today);
            forall tn, dn, m :: tn in r.teams && dn in tn.departments && m in dn.members ==> m.userId != actor.id
  {
    var r := HierarchyView(t, actor, today);
    forall tn, dn, m | tn in r.teams && dn in tn.departments && m in dn.members ensures m.userId != actor.id {
      var i :| 0 <= i < |r.teams| && r.teams[i] == tn;
      var j :| 0 <= j < |tn.departments| && tn.departments[j] == dn;
    }
  }

  /**
   * A viewer who is neither SUPER_ADMIN nor ORG_LEADERSHIP sees only their own
   * team, at most their own department under it, and no member nodes.
   */
  lemma OrdinaryViewerSeesOwnBranch(t: Tables, actor: Actor, today: int)
    requires !Elevated(t, actor)
    ensures var r := HierarchyView(t, actor, today);
            forall tn :: tn in r.teams ==>
              actor.teamId == Some(tn.teamId)
              && forall dn :: dn in tn.departments ==>
                   actor.departmentId == Some(dn.departmentId) && dn.members == []
                   && t.departments[dn.departmentId].teamId == tn.teamId
  {
    var r := HierarchyView(t, actor, today);
    forall tn | tn in r.teams
      ensures actor.teamId == Some(tn.teamId)
      ensures forall dn :: dn in tn.departments ==>
                actor.departmentId == Some(dn.departmentId) && dn.members == []
                && t.departments[dn.departmentId].teamId == tn.teamId
    {
      var i :| 0 <= i < |r.teams| && r.teams[i] == tn;
      forall dn | dn in tn.departments
        ensures actor.departmentId == Some(dn.departmentId) && dn.members == []
      {
        var j :| 0 <= j < |tn.departments| && tn.departments[j] == dn;
      }
    }
  }

  /**
   * An elevated viewer gets a node for every team, under it a node for every
   * department of that team, and under that every member of the department
   * except the viewer.
   */
  lemma ElevatedViewerSeesEveryone(t: Tables, actor: Actor, today: int, team: Id, d: Id, u: Id)
    requires ActiveCycle(t).Some? && Elevated(t, actor)
    requires team in t.teams && team < t.n
    requires d in t.departments && d < t.n && t.departments[d].teamId == team
    requires u in t.users && u < t.n && t.users[u].departmentId == Some(d) && u != actor.id
    ensures var r := HierarchyView(t, actor, today);
            exists tn, dn, m :: tn in r.teams && dn in tn.departments && m in dn.members
                                && tn.teamId == team && dn.departmentId == d && m.userId == u
  {
    var c := ActiveCycle(t).value;
    var cycle := t.cycles[c];
    var r := HierarchyView(t, actor, today);
    var teams := VisibleTeams(t, actor);
    assert r.teams == TeamNodes(t, c, cycle, today, actor, true, teams);
    var i :| 0 <= i < |teams| && teams[i] == team;
    var tn := MakeTeamNode(t, c, cycle, today, actor, true, team);
    assert r.teams[i] == tn;
    var ids := DepartmentIds(t, actor, true, team);
    assert tn.departments == DeptNodes(t, c, cycle, today, actor, true, ids);
    var j :| 0 <= j < |ids| && ids[j] == d;
    var dn := DeptNode(t, c, cycle, today, actor, true, d);
    assert tn.departments[j] == dn;
    var uids := DepartmentMembers(t, d);
    assert dn.members == MemberNodes(t, c, cycle, today, actor.id, uids);
    assert u in uids;
    var m :| m in dn.members && m.userId == u;
    assert tn in r.teams && dn in tn.departments;
  }

  /** The member nodes, built as the service's loop builds them. */
  method BuildMembers(t: Tables, c: Id, cycle: Cycle, today: int, viewer: Id, uids: seq<Id>) returns (r: seq<MemberNode>)
    requires forall i :: 0 <= i < |uids| ==> uids[i] in t.users
    ensures r == MemberNodes(t, c, cycle, today, viewer, uids)
  {
    r := [];
    var i := 0;
    while i < |uids|
      invariant 0 <= i <= |uids|
      invariant r == MemberNodes(t, c, cycle, today, viewer, uids[..i])
    {
      assert uids[..i + 1][..i] == uids[..i];
      var u := uids[i];
      if u != viewer {
        r := r + [MemberNode(u, t.users[u].email, FirstSummary(t, c, cycle, today, PersonalScope, u))];
      }
      i := i + 1;
    }
    assert uids[..i] == uids;
  }

  /** The department nodes under one team. */
  method BuildDepartments(t: Tables, c: Id, cycle: Cycle, today: int, actor: Actor, elevated: bool, ids: seq<Id>)
      returns (r: seq<DepartmentNode>)
    ensures r == DeptNodes(t, c, cycle, today, actor, elevated, ids)
  {
    r := [];
    var i := 0;
    while i < |ids|
      invariant 0 <= i <= |ids|
      invariant |r| == i && forall k :: 0 <= k < i ==> r[k] == DeptNode(t, c, cycle, today, actor, elevated, ids[k])
    {
      var d := ids[i];
      var members := [];
      if elevated {
        members := BuildMembers(t, c, cycle, today, actor.id, DepartmentMembers(t, d));
      }
      r := r + [DepartmentNode(d, FirstSummary(t, c, cycle, today, DepartmentScope, d), members)];
      i := i + 1;
    }
  }

  /** The team nodes, each with its departments. */
  method BuildTeams(t: Tables, c: Id, cycle: Cycle, today: int, actor: Actor, elevated: bool, ids: seq<Id>)
      returns (r: seq<TeamNode>)
    ensures r == TeamNodes(t, c, cycle, today, actor, elevated, ids)
  {
    r := [];
    var i := 0;
    while i < |ids|
      invariant 0 <= i <= |ids|
      invariant |r| == i && forall k :: 0 <= k < i ==> r[k] == MakeTeamNode(t, c, cycle, today, actor, elevated, ids[k])
    {
      var team := ids[i];
      var departments := BuildDepartments(t, c, cycle, today, actor, elevated, DepartmentIds(t, actor, elevated, team));
      r := r + [TeamNode(team, FirstSummary(t, c, cycle, today, TeamScope, team), departments)];
      i := i + 1;
    }
  }

  /** getHierarchicalDashboard over the database. */
  method GetHierarchicalDashboard(db: Database, actor: Actor, today: int) returns (r: Hierarchy)
    ensures r == HierarchyView(TablesOf(db), actor, today)
  {
    var t := TablesOf(db);
    var active := ActiveCycle(t);
    if active.None? {
      return Hierarchy([], [], None);
    }
    var c := active.value;
    var cycle := t.cycles[c];
    var elevated := Elevated(t, actor);
    var company := AddSummaries(t, CompanySheets(t, c), cycle, today, []);
    assert company == Summaries(t, CompanySheets(t, c), cycle, today);
    var teams, _ := VisibleScopes(t, actor);
    var nodes := BuildTeams(t, c, cycle, today, actor, elevated, teams);
    r := Hierarchy(company, nodes, FirstSummary(t, c, cycle, today, PersonalScope, actor.id));
    HierarchyOfActive(t, actor, today, c);
  }

  /** The hierarchy of an active cycle, field by field. */
  lemma HierarchyOfActive(t: Tables, actor: Actor, today: int, c: Id)
    requires ActiveCycle(t) == Some(c)
    ensures var cycle := t.cycles[c];
            HierarchyView(t, actor, today)
            == Hierarchy(Summaries(t, CompanySheets(t, c), cycle, today),
                         TeamNodes(t, c, cycle, today, actor, Elevated(t, actor), VisibleTeams(t, actor)),
                         FirstSummary(t, c, cycle, today, PersonalScope, actor.id))
  {
  }
}
