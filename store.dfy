/**
 * The in-memory store that stands for the repositories: one table per
 * entity, keyed by ids drawn from a single counter, the role assignments as a
 * list, and the audit log as an append-only list.
 */
module Store {
  import opened Domain
  import Rollup

  ghost predicate Below<T>(m: map<Id, T>, n: nat) {
    forall id :: id in m ==> id < n
  }

  ghost predicate ObjectivesLinked(objs: map<Id, Objective>, sheets: map<Id, OkrSheet>) {
    forall o :: o in objs ==> objs[o].sheetId in sheets
  }

  ghost predicate KeyResultsLinked(krs: map<Id, KeyResult>, objs: map<Id, Objective>) {
    forall k :: k in krs ==> krs[k].objectiveId in objs
  }

  /**
   * Replacing objectives without adding or removing any and without moving
   * one to another sheet keeps every id and parent link intact.
   */
  lemma ObjectivesKeepLinks(sheets: map<Id, OkrSheet>, objs: map<Id, Objective>, objs2: map<Id, Objective>,
                            krs: map<Id, KeyResult>, n: nat)
    requires Below(objs, n) && ObjectivesLinked(objs, sheets) && KeyResultsLinked(krs, objs)
    requires objs2.Keys == objs.Keys
    requires forall o :: o in objs ==> objs2[o].sheetId == objs[o].sheetId
    ensures Below(objs2, n) && ObjectivesLinked(objs2, sheets) && KeyResultsLinked(krs, objs2)
  {
  }

  /** Removing an objective together with its key results leaves no dangling link. */
  lemma ObjectiveRemovalKeepsLinks(sheets: map<Id, OkrSheet>, objs: map<Id, Objective>, krs: map<Id, KeyResult>,
                                   n: nat, o: Id)
    requires Below(objs, n) && Below(krs, n)
    requires ObjectivesLinked(objs, sheets) && KeyResultsLinked(krs, objs)
    ensures var krs2 := Rollup.WithoutKeyResultsOf(krs, o);
            Below(objs - {o}, n) && Below(krs2, n)
            && ObjectivesLinked(objs - {o}, sheets) && KeyResultsLinked(krs2, objs - {o})
  {
  }

  class Database {
    var cycles: map<Id, Cycle>
    var companies: map<Id, Company>
    var teams: map<Id, Team>
    var departments: map<Id, Department>
    var users: map<Id, User>
    var roleAssignments: seq<RoleAssignment>
    var sheets: map<Id, OkrSheet>
    var objectives: map<Id, Objective>
    var keyResults: map<Id, KeyResult>
    var auditLog: seq<AuditEntry>
    /** The next id to hand out; every id in use is below it. */
    var nextId: nat

    /** Ids are below the counter, and objectives and key results point at existing parents. */
    ghost predicate Valid()
      reads this`cycles, this`companies, this`teams, this`departments, this`users
      reads this`sheets, this`objectives, this`keyResults, this`nextId
    {
      OrganisationValid() && OkrValid()
    }

    /** The organisation tables (cycles, companies, teams, departments, users) use ids below the counter. */
    ghost predicate OrganisationValid()
      reads this`cycles, this`companies, this`teams, this`departments, this`users, this`nextId
    {
      Below(cycles, nextId) && Below(companies, nextId) && Below(teams, nextId)
      && Below(departments, nextId) && Below(users, nextId)
    }

    /** The OKR tables use ids below the counter and point at existing parents. */
    ghost predicate OkrValid()
      reads this`sheets, this`objectives, this`keyResults, this`nextId
    {
      Below(sheets, nextId) && Below(objectives, nextId) && Below(keyResults, nextId)
      && ObjectivesLinked(objectives, sheets) && KeyResultsLinked(keyResults, objectives)
    }

    /** Stored progress agrees with the calculator at every level. */
    ghost predicate RolledUp()
      reads this`sheets, this`objectives, this`keyResults, this`nextId
    {
      Rollup.RolledUp(sheets, objectives, keyResults, nextId)
    }

    constructor ()
      ensures Valid() && RolledUp()
      ensures cycles == map[] && companies == map[] && teams == map[] && departments == map[]
      ensures users == map[] && roleAssignments == [] && sheets == map[] && objectives == map[]
      ensures keyResults == map[] && auditLog == [] && nextId == 0
    {
      cycles, companies, teams, departments, users := map[], map[], map[], map[], map[];
      roleAssignments := [];
      sheets, objectives, keyResults := map[], map[], map[];
      auditLog := [];
      nextId := 0;
    }

    /** A fresh row id (the id a save of a new entity receives). */
    method FreshId() returns (id: Id)
      requires Valid()
      modifies this`nextId
      ensures Valid()
      ensures id == old(nextId) && nextId == id + 1
      ensures id !in cycles && id !in companies && id !in teams && id !in departments && id !in users
      ensures id !in sheets && id !in objectives && id !in keyResults
    {
      id := nextId;
      nextId := nextId + 1;
    }
  }
}
