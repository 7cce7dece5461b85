/**
 * The read side: sheet summaries (mapToSummary), the flat dashboard
 * (getDashboard) and the team/department/member tree (getHierarchicalDashboard).
 * Each is specified by a function over the tables and computed by a method
 * that appends in loops, as the services do. Display titles are not modelled.
 */
module Dashboard {
  import opened Wrappers
  import opened Domain
  import Lists
  import CycleTime
  import Permission
  import Queries
  import Rollup
  import Calculation
  import opened Store

  /** The tables the dashboards read, with the id counter that bounds every key. */
  datatype Tables = Tables(cycles: map<Id, Cycle>, teams: map<Id, Team>, departments: map<Id, Department>,
                           users: map<Id, User>, assignments: seq<RoleAssignment>,
                           sheets: map<Id, OkrSheet>, objectives: map<Id, Objective>, n: nat)

  function TablesOf(db: Database): Tables
    reads db
  {
    Tables(db.cycles, db.teams, db.departments, db.users, db.roleAssignments, db.sheets, db.objectives, db.nextId)
  }

  datatype ObjectiveSummary = ObjectiveSummary(title: string, progress: real)

  /** A sheet card: its progress, the cycle's time figures and a preview of its first objectives. */
  datatype SheetSummary = SheetSummary(sheetId: Id, scopeType: ScopeType, scopeId: Id,
                                       overallProgress: real, timeProgress: real,
                                       daysRemaining: int, totalDays: int,
                                       objectives: seq<ObjectiveSummary>)

  /** How many objectives a card previews. */
  const PreviewSize: nat := 3

  // ---- mapToSummary ------------------------------------------------------

  /** The title and progress of each objective, in order. */
  function Preview(objs: seq<Objective>): (r: seq<ObjectiveSummary>)
    ensures |r| == |objs|
    ensures forall i :: 0 <= i < |r| ==> r[i].title == objs[i].title && r[i].progress == objs[i].computedProgress
  {
    seq(|objs|, i requires 0 <= i < |objs| => ObjectiveSummary(objs[i].title, objs[i].computedProgress))
  }

  /** The card of sheet `sid` in `cycle`, seen on day `today`. */
  function Summary(t: Tables, sid: Id, cycle: Cycle, today: int): (r: SheetSummary)
    requires sid in t.sheets
    ensures r.sheetId == sid && r.scopeType == t.sheets[sid].scopeType && r.scopeId == t.sheets[sid].scopeId
    ensures r.overallProgress == t.sheets[sid].computedOverallProgress
    ensures r.timeProgress == CycleTime.TimeProgress(cycle.startDate, cycle.endDate, today)
    ensures r.daysRemaining == CycleTime.DaysRemaining(cycle.endDate, today)
    ensures 0.0 <= r.timeProgress <= 1.0 && r.daysRemaining >= 0
    ensures r.totalDays == cycle.endDate - cycle.startDate + 1
    ensures |r.objectives| <= PreviewSize
  {
    SheetSummary(sid, t.sheets[sid].scopeType, t.sheets[sid].scopeId, t.sheets[sid].computedOverallProgress,
                 CycleTime.TimeProgress(cycle.startDate, cycle.endDate, today),
                 CycleTime.DaysRemaining(cycle.endDate, today),
                 CycleTime.TotalDays(cycle.startDate, cycle.endDate),
                 Preview(Lists.Take(Queries.ObjectivesOf(t.objectives, sid, t.n), PreviewSize)))
  }

  /** Every objective a card previews is a stored objective of that sheet. */
  lemma PreviewFromSheet(t: Tables, sid: Id, cycle: Cycle, today: int)
    requires sid in t.sheets
    ensures var r := Summary(t, sid, cycle, today);
            forall i :: 0 <= i < |r.objectives| ==>
              exists o :: o in t.objectives && o < t.n && t.objectives[o].sheetId == sid
                          && r.objectives[i] == ObjectiveSummary(t.objectives[o].title, t.objectives[o].computedProgress)
  {
    var all := Queries.ObjectivesOf(t.objectives, sid, t.n);
    var r := Summary(t, sid, cycle, today);
    forall i | 0 <= i < |r.objectives|
      ensures exists o :: o in t.objectives && o < t.n && t.objectives[o].sheetId == sid
                          && r.objectives[i] == ObjectiveSummary(t.objectives[o].title, t.objectives[o].computedProgress)
    {
      var x := all[i];
      assert x in multiset(Queries.Where(t.objectives, Queries.OfSheet(sid), t.n));
      var o := Queries.FromWhere(t.objectives, Queries.OfSheet(sid), t.n, x);
      assert r.objectives[i] == ObjectiveSummary(t.objectives[o].title, t.objectives[o].computedProgress);
    }
  }

  /**
   * The preview is the first objectives of the sheet in sortOrder: as many as
   * the sheet has, up to three, and no objective left out has a smaller
   * sortOrder than one shown.
   */
  lemma PreviewIsFirstBySortOrder(t: Tables, sid: Id, cycle: Cycle, today: int)
    requires sid in t.sheets
    ensures var all := Queries.ObjectivesOf(t.objectives, sid, t.n);
            var r := Summary(t, sid, cycle, today);
            |r.objectives| == (if |all| < PreviewSize then |all| else PreviewSize)
            && (forall i :: 0 <= i < |r.objectives| ==>
                  r.objectives[i] == ObjectiveSummary(all[i].title, all[i].computedProgress))
            && (forall i, j :: 0 <= i < |r.objectives| <= j < |all| ==> all[i].sortOrder <= all[j].sortOrder)
  {
    var all := Queries.ObjectivesOf(t.objectives, sid, t.n);
    assert Lists.SortedOn(all, Calculation.ObjectiveSortKey);
  }

  /** A card shows only figures taken from the tables, so bounded tables give bounded cards. */
  lemma SummaryWithin(t: Tables, sid: Id, cycle: Cycle, today: int)
    requires sid in t.sheets
    requires forall o :: o in t.objectives ==> 0.0 <= t.objectives[o].computedProgress <= 1.0
    requires 0.0 <= t.sheets[sid].computedOverallProgress <= 1.0
    ensures var r := Summary(t, sid, cycle, today);
            0.0 <= r.overallProgress <= 1.0
            && forall i :: 0 <= i < |r.objectives| ==> 0.0 <= r.objectives[i].progress <= 1.0
  {
    PreviewFromSheet(t, sid, cycle, today);
    var r := Summary(t, sid, cycle, today);
    forall i | 0 <= i < |r.objectives| ensures 0.0 <= r.objectives[i].progress <= 1.0 {
      var o :| o in t.objectives && o < t.n && t.objectives[o].sheetId == sid
               && r.objectives[i] == ObjectiveSummary(t.objectives[o].title, t.objectives[o].computedProgress);
    }
  }

  /** On rolled-up tables every figure on a card lies in [0, 1]. */
  lemma SummaryBounded(t: Tables, krs: map<Id, KeyResult>, sid: Id, cycle: Cycle, today: int)
    requires sid in t.sheets
    requires Rollup.RolledUp(t.sheets, t.objectives, krs, t.n)
    ensures var r := Summary(t, sid, cycle, today);
            0.0 <= r.overallProgress <= 1.0
            && forall i :: 0 <= i < |r.objectives| ==> 0.0 <= r.objectives[i].progress <= 1.0
  {
    Rollup.RolledUpBounded(t.sheets, t.objectives, krs, t.n);
    SummaryWithin(t, sid, cycle, today);
  }

  // ---- getDashboard ------------------------------------------------------

  /** getActiveCycle: the first cycle flagged active. */
  function ActiveCycle(t: Tables): (r: Option<Id>)
    ensures r.Some? ==> r.value in t.cycles && t.cycles[r.value].isActive
    ensures r.None? ==> forall c :: c in t.cycles && c < t.n ==> !t.cycles[c].isActive
  {
    Queries.First(t.cycles, Queries.IsActive, t.n)
  }

  /** SUPER_ADMIN and ORG_LEADERSHIP see every team and department. */
  predicate Elevated(t: Tables, actor: Actor) {
    Permission.IsSuperAdmin(t.assignments, actor.id) || Permission.IsOrgLeadership(t.assignments, actor.id)
  }

  /** The sheets of cycle `c` for one scope, in table order. */
  function ScopeSheets(t: Tables, c: Id, st: ScopeType, id: Id): (r: seq<Id>)
    ensures forall i :: 0 <= i < |r| ==>
              r[i] in t.sheets && t.sheets[r[i]].cycleId == c && t.sheets[r[i]].scopeType == st
              && t.sheets[r[i]].scopeId == id
    ensures forall s :: s in t.sheets && s < t.n && t.sheets[s].cycleId == c && t.sheets[s].scopeType == st
                        && t.sheets[s].scopeId == id
                        ==> s in r
  {
    Queries.Select(t.sheets, Queries.AtScope(c, st, id), t.n)
  }

  /** The cards of the given sheets, in order. */
  function Summaries(t: Tables, sids: seq<Id>, cycle: Cycle, today: int): (r: seq<SheetSummary>)
    requires forall i :: 0 <= i < |sids| ==> sids[i] in t.sheets
    ensures |r| == |sids|
    ensures forall i :: 0 <= i < |r| ==> r[i] == Summary(t, sids[i], cycle, today)
  {
    seq(|sids|, i requires 0 <= i < |sids| => Summary(t, sids[i], cycle, today))
  }

  /** For each scope id in turn, the cards of its sheets of cycle `c`. */
  function ScopedSummaries(t: Tables, c: Id, cycle: Cycle, today: int, st: ScopeType, ids: seq<Id>)
    : (r: seq<SheetSummary>)
    ensures forall x :: x in r ==>
              x.scopeType == st && x.scopeId in ids && x.sheetId in t.sheets && t.sheets[x.sheetId].cycleId == c
  {
    if ids == [] then []
    else
      var front := ScopedSummaries(t, c, cycle, today, st, ids[..|ids| - 1]);
      front + Summaries(t, ScopeSheets(t, c, st, ids[|ids| - 1]), cycle, today)
  }

  /** Each sheet of cycle `c` for a scope id in `ids` has its card among them. */
  lemma {:induction false} ScopedSummariesComplete(t: Tables, c: Id, cycle: Cycle, today: int, st: ScopeType,
                                                   ids: seq<Id>, s: Id)
    requires s in t.sheets && s < t.n && t.sheets[s].cycleId == c && t.sheets[s].scopeType == st
    requires t.sheets[s].scopeId in ids
    ensures exists x :: x in ScopedSummaries(t, c, cycle, today, st, ids) && x.sheetId == s
  {
    var last := ids[|ids| - 1];
    var tail := Summaries(t, ScopeSheets(t, c, st, last), cycle, today);
    if t.sheets[s].scopeId == last {
      var sids := ScopeSheets(t, c, st, last);
      var i :| 0 <= i < |sids| && sids[i] == s;
      assert tail[i] in ScopedSummaries(t, c, cycle, today, st, ids);
    } else {
      assert t.sheets[s].scopeId in ids[..|ids| - 1];
      ScopedSummariesComplete(t, c, cycle, today, st, ids[..|ids| - 1], s);
    }
  }

  /** The company cards of cycle `c`. */
  function CompanySheets(t: Tables, c: Id): (r: seq<Id>)
    ensures forall i :: 0 <= i < |r| ==>
              r[i] in t.sheets && t.sheets[r[i]].cycleId == c && t.sheets[r[i]].scopeType == CompanyScope
    ensures forall s :: s in t.sheets && s < t.n && t.sheets[s].cycleId == c && t.sheets[s].scopeType == CompanyScope
                        ==> s in r
  {
    Queries.Select(t.sheets, Queries.InScope(c, CompanyScope), t.n)
  }

  /** The teams whose cards the actor sees: all of them when elevated, else the actor's own. */
  function VisibleTeams(t: Tables, actor: Actor): (r: seq<Id>)
    ensures Elevated(t, actor) ==> forall id :: id in t.teams && id < t.n ==> id in r
    ensures !Elevated(t, actor) ==> forall id :: id in r ==> actor.teamId == Some(id)
  {
    if Elevated(t, actor) then Queries.Select(t.teams, Queries.AnyTeam, t.n)
    else if actor.teamId.Some? then [actor.teamId.value]
    else []
  }

  /** The departments whose cards the actor sees: all of them when elevated, else the actor's own. */
  function VisibleDepartments(t: Tables, actor: Actor): (r: seq<Id>)
    ensures Elevated(t, actor) ==> forall id :: id in t.departments && id < t.n ==> id in r
    ensures !Elevated(t, actor) ==> forall id :: id in r ==> actor.departmentId == Some(id)
  {
    if Elevated(t, actor) then Queries.Select(t.departments, Queries.AnyDepartment, t.n)
    else if actor.departmentId.Some? then [actor.departmentId.value]
    else []
  }

  /** getDashboard: company, team, department and personal cards of the active cycle, in that order. */
  function DashboardView(t: Tables, actor: Actor, today: int): (r: seq<SheetSummary>)
    ensures ActiveCycle(t).None? ==> r == []
    ensures forall x :: x in r ==> x.scopeType == PersonalScope ==> x.scopeId == actor.id
  {
    match ActiveCycle(t)
    case None => []
    case Some(c) =>
      var cycle := t.cycles[c];
      Summaries(t, CompanySheets(t, c), cycle, today)
      + ScopedSummaries(t, c, cycle, today, TeamScope, VisibleTeams(t, actor))
      + ScopedSummaries(t, c, cycle, today, DepartmentScope, VisibleDepartments(t, actor))
      + ScopedSummaries(t, c, cycle, today, PersonalScope, [actor.id])
  }

  /** The position of a scope on the dashboard. */
  function ScopeRank(st: ScopeType): nat {
    match st
    case CompanyScope => 0
    case TeamScope => 1
    case DepartmentScope => 2
    case PersonalScope => 3
    case OtherScope(_) => 4
  }

  /** Every card in `s` is of scope `st`. */
  ghost predicate AllOfScope(s: seq<SheetSummary>, st: ScopeType) {
    forall i :: 0 <= i < |s| ==> s[i].scopeType == st
  }

  /** Four runs of company, team, department and personal cards, joined in that order, are ordered by scope. */
  lemma {:induction false} RunsOrdered(a: seq<SheetSummary>, b: seq<SheetSummary>, d: seq<SheetSummary>, p: seq<SheetSummary>)
    requires AllOfScope(a, CompanyScope) && AllOfScope(b, TeamScope)
    requires AllOfScope(d, DepartmentScope) && AllOfScope(p, PersonalScope)
    ensures var r := a + b + d + p;
            forall i, j :: 0 <= i < j < |r| ==> ScopeRank(r[i].scopeType) <= ScopeRank(r[j].scopeType)
  {
    var r := a + b + d + p;
    forall i | 0 <= i < |r|
      ensures ScopeRank(r[i].scopeType) == if i < |a| then 0 else if i < |a| + |b| then 1
                                           else if i < |a| + |b| + |d| then 2 else 3
    {
      if i < |a| {
        assert r[i] == a[i];
      } else if i < |a| + |b| {
        assert r[i] == b[i - |a|];
      } else if i < |a| + |b| + |d| {
        assert r[i] == d[i - |a| - |b|];
      } else {
        assert r[i] == p[i - |a| - |b| - |d|];
      }
    }
  }

  /** The dashboard of an active cycle, as its four runs of cards. */
  lemma DashboardRuns(t: Tables, actor: Actor, today: int, c: Id)
    requires ActiveCycle(t) == Some(c)
    ensures var cycle := t.cycles[c];
            DashboardView(t, actor, today)
            == Summaries(t, CompanySheets(t, c), cycle, today)
               + ScopedSummaries(t, c, cycle, today, TeamScope, VisibleTeams(t, actor))
               + ScopedSummaries(t, c, cycle, today, DepartmentScope, VisibleDepartments(t, actor))
               + ScopedSummaries(t, c, cycle, today, PersonalScope, [actor.id])
  {
  }

  /** Cards come company first, then team, then department, then personal. */
  lemma DashboardOrdered(t: Tables, actor: Actor, today: int)
    ensures var r := DashboardView(t, actor, today);
            forall i, j :: 0 <= i < j < |r| ==> ScopeRank(r[i].scopeType) <= ScopeRank(r[j].scopeType)
  {
    if c :| ActiveCycle(t) == Some(c) {
      var cycle := t.cycles[c];
      var a := Summaries(t, CompanySheets(t, c), cycle, today);
      var b := ScopedSummaries(t, c, cycle, today, TeamScope, VisibleTeams(t, actor));
      var d := ScopedSummaries(t, c, cycle, today, DepartmentScope, VisibleDepartments(t, actor));
      var p := ScopedSummaries(t, c, cycle, today, PersonalScope, [actor.id]);
      assert AllOfScope(b, TeamScope) by {
        forall i | 0 <= i < |b| ensures b[i].scopeType == TeamScope { assert b[i] in b; }
      }
      assert AllOfScope(d, DepartmentScope) by {
        forall i | 0 <= i < |d| ensures d[i].scopeType == DepartmentScope { assert d[i] in d; }
      }
      assert AllOfScope(p, PersonalScope) by {
        forall i | 0 <= i < |p| ensures p[i].scopeType == PersonalScope { assert p[i] in p; }
      }
      DashboardRuns(t, actor, today, c);
      RunsOrdered(a, b, d, p);
    }
  }

  /** Every card is of a sheet of the active cycle. */
  lemma DashboardShowsActiveCycle(t: Tables, actor: Actor, today: int, c: Id)
    requires ActiveCycle(t) == Some(c)
    ensures forall x :: x in DashboardView(t, actor, today) ==> x.sheetId in t.sheets && t.sheets[x.sheetId].cycleId == c
  {
    var cycle := t.cycles[c];
    var a := Summaries(t, CompanySheets(t, c), cycle, today);
    forall x | x in a ensures x.sheetId in t.sheets && t.sheets[x.sheetId].cycleId == c {
      var i :| 0 <= i < |a| && a[i] == x;
    }
  }

  /** A non-elevated actor sees only the team and department cards of their own team and department. */
  lemma DashboardOwnScopesOnly(t: Tables, actor: Actor, today: int)
    requires !Elevated(t, actor)
    ensures forall x :: x in DashboardView(t, actor, today) ==>
              (x.scopeType == TeamScope ==> actor.teamId == Some(x.scopeId))
              && (x.scopeType == DepartmentScope ==> actor.departmentId == Some(x.scopeId))
  {
    var r := DashboardView(t, actor, today);
    if c :| ActiveCycle(t) == Some(c) {
      var cycle := t.cycles[c];
      var a := Summaries(t, CompanySheets(t, c), cycle, today);
      forall x | x in a ensures x.scopeType == CompanyScope {
        var i :| 0 <= i < |a| && a[i] == x;
      }
    }
  }

  /**
   * Everyone sees every company card of the active cycle; an elevated actor
   * also sees the card of every team and every department.
   */
  lemma DashboardShowsAllToElevated(t: Tables, actor: Actor, today: int, c: Id, s: Id)
    requires ActiveCycle(t) == Some(c)
    requires s in t.sheets && s < t.n && t.sheets[s].cycleId == c
    requires t.sheets[s].scopeType == CompanyScope
             || (Elevated(t, actor) && t.sheets[s].scopeType == TeamScope
                 && t.sheets[s].scopeId in t.teams && t.sheets[s].scopeId < t.n)
             || (Elevated(t, actor) && t.sheets[s].scopeType == DepartmentScope
                 && t.sheets[s].scopeId in t.departments && t.sheets[s].scopeId < t.n)
    ensures exists x :: x in DashboardView(t, actor, today) && x.sheetId == s
  {
    var cycle := t.cycles[c];
    var a := Summaries(t, CompanySheets(t, c), cycle, today);
    var b := ScopedSummaries(t, c, cycle, today, TeamScope, VisibleTeams(t, actor));
    var d := ScopedSummaries(t, c, cycle, today, DepartmentScope, VisibleDepartments(t, actor));
    var p := ScopedSummaries(t, c, cycle, today, PersonalScope, [actor.id]);
    var r := DashboardView(t, actor, today);
    assert r == a + b + d + p;
    if t.sheets[s].scopeType == CompanyScope {
      var sids := CompanySheets(t, c);
      var i :| 0 <= i < |sids| && sids[i] == s;
      assert a[i] in r;
    } else if t.sheets[s].scopeType == TeamScope {
      ScopedSummariesComplete(t, c, cycle, today, TeamScope, VisibleTeams(t, actor), s);
      var x :| x in b && x.sheetId == s;
      assert x in r;
    } else {
      ScopedSummariesComplete(t, c, cycle, today, DepartmentScope, VisibleDepartments(t, actor), s);
      var x :| x in d && x.sheetId == s;
      assert x in r;
    }
  }

  /** summaries.add for each sheet in turn. */
  method AddSummaries(t: Tables, sids: seq<Id>, cycle: Cycle, today: int, acc: seq<SheetSummary>)
      returns (r: seq<SheetSummary>)
    requires forall i :: 0 <= i < |sids| ==> sids[i] in t.sheets
    ensures r == acc + Summaries(t, sids, cycle, today)
  {
    r := acc;
    var i := 0;
    while i < |sids|
      invariant 0 <= i <= |sids|
      invariant r == acc + Summaries(t, sids[..i], cycle, today)
    {
      assert Summaries(t, sids[..i + 1], cycle, today) == Summaries(t, sids[..i], cycle, today) + [Summary(t, sids[i], cycle, today)];
      r := r + [Summary(t, sids[i], cycle, today)];
      i := i + 1;
    }
    assert sids[..i] == sids;
  }

  /** One more scope id adds that scope's cards at the end. */
  lemma ScopedSummariesSnoc(t: Tables, c: Id, cycle: Cycle, today: int, st: ScopeType, ids: seq<Id>, i: nat)
    requires i < |ids|
    ensures ScopedSummaries(t, c, cycle, today, st, ids[..i + 1])
            == ScopedSummaries(t, c, cycle, today, st, ids[..i]) + Summaries(t, ScopeSheets(t, c, st, ids[i]), cycle, today)
  {
    assert ids[..i + 1][..i] == ids[..i];
  }

  /** The loop over teams (or departments): each scope's sheets are looked up and their cards added. */
  method AddScoped(t: Tables, c: Id, cycle: Cycle, today: int, st: ScopeType, ids: seq<Id>, acc: seq<SheetSummary>)
      returns (r: seq<SheetSummary>)
    ensures r == acc + ScopedSummaries(t, c, cycle, today, st, ids)
  {
    r := acc;
    var i := 0;
    while i < |ids|
      invariant 0 <= i <= |ids|
      invariant r == acc + ScopedSummaries(t, c, cycle, today, st, ids[..i])
    {
      ScopedSummariesSnoc(t, c, cycle, today, st, ids, i);
      var sids := ScopeSheets(t, c, st, ids[i]);
      r := AddSummaries(t, sids, cycle, today, r);
      Lists.AppendAssoc(acc, ScopedSummaries(t, c, cycle, today, st, ids[..i]), Summaries(t, sids, cycle, today));
      i := i + 1;
    }
    assert ids[..i] == ids;
  }

  /** The teams and departments whose sheets the actor is shown. */
  method VisibleScopes(t: Tables, actor: Actor) returns (teams: seq<Id>, departments: seq<Id>)
    ensures teams == VisibleTeams(t, actor) && departments == VisibleDepartments(t, actor)
  {
    var elevated := Elevated(t, actor);
    teams, departments := [], [];
    if elevated {
      teams := Queries.Select(t.teams, Queries.AnyTeam, t.n);
      departments := Queries.Select(t.departments, Queries.AnyDepartment, t.n);
    } else {
      if actor.teamId.Some? {
        teams := [actor.teamId.value];
      }
      if actor.departmentId.Some? {
        departments := [actor.departmentId.value];
      }
    }
  }

  /** getDashboard, computed as the service does, by appending card after card. */
  method GetDashboard(db: Database, actor: Actor, today: int) returns (r: seq<SheetSummary>)
    ensures r == DashboardView(TablesOf(db), actor, today)
  {
    var t := TablesOf(db);
    var active := ActiveCycle(t);
    if active.None? {
      return [];
    }
    var c := active.value;
    var cycle := t.cycles[c];
    var teams, departments := VisibleScopes(t, actor);
    r := AddSummaries(t, CompanySheets(t, c), cycle, today, []);
    assert r == Summaries(t, CompanySheets(t, c), cycle, today);
    r := AddScoped(t, c, cycle, today, TeamScope, teams, r);
    r := AddScoped(t, c, cycle, today, DepartmentScope, departments, r);
    r := AddScoped(t, c, cycle, today, PersonalScope, [actor.id], r);
    DashboardRuns(t, actor, today, c);
  }
}
