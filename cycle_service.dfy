/**
 * deleteCycle: removing a cycle removes, in one transaction, every sheet of
 * the cycle, every objective of those sheets and every key result of those
 * objectives. The cascade is written as the service's nested loops and proved
 * against the sets of rows it must remove.
 */
module CycleService {
  import opened Wrappers
  import opened Domain
  import Queries
  import Rollup
  import opened Store

  /** The sheets of cycle `c`. */
  function CycleSheets(sheets: map<Id, OkrSheet>, c: Id): (r: set<Id>)
    ensures forall s :: s in r <==> s in sheets && sheets[s].cycleId == c
  {
    set s | s in sheets && sheets[s].cycleId == c
  }

  /** The objectives that belong to one of the sheets `ss`. */
  function ObjectivesOfSheets(objs: map<Id, Objective>, ss: set<Id>): (r: set<Id>)
    ensures forall o :: o in r <==> o in objs && objs[o].sheetId in ss
  {
    set o | o in objs && objs[o].sheetId in ss
  }

  /** The key results that belong to one of the objectives `os`. */
  function KeyResultsOfObjectives(krs: map<Id, KeyResult>, os: set<Id>): (r: set<Id>)
    ensures forall k :: k in r <==> k in krs && krs[k].objectiveId in os
  {
    set k | k in krs && krs[k].objectiveId in os
  }

  /** deleteBySheetId: the objectives table without the objectives of sheet `s`. */
  function WithoutObjectivesOf(objs: map<Id, Objective>, s: Id): (r: map<Id, Objective>)
    ensures forall o :: o in r <==> o in objs && objs[o].sheetId != s
    ensures forall o :: o in r ==> r[o] == objs[o]
  {
    map o | o in objs && objs[o].sheetId != s :: objs[o]
  }

  /** The tables after the cascade: what deleteCycle leaves of sheets, objectives and key results. */
  function CascadeSheets(sheets: map<Id, OkrSheet>, c: Id): map<Id, OkrSheet> {
    sheets - CycleSheets(sheets, c)
  }

  function CascadeObjectives(objs: map<Id, Objective>, sheets: map<Id, OkrSheet>, c: Id): map<Id, Objective> {
    objs - ObjectivesOfSheets(objs, CycleSheets(sheets, c))
  }

  function CascadeKeyResults(krs: map<Id, KeyResult>, objs: map<Id, Objective>, sheets: map<Id, OkrSheet>, c: Id)
    : map<Id, KeyResult>
  {
    krs - KeyResultsOfObjectives(krs, ObjectivesOfSheets(objs, CycleSheets(sheets, c)))
  }

  /**
   * The cascade leaves no orphan: every surviving objective's sheet and every
   * surviving key result's objective survive too, and no surviving sheet
   * belongs to the deleted cycle.
   */
  lemma CascadeKeepsLinks(sheets: map<Id, OkrSheet>, objs: map<Id, Objective>, krs: map<Id, KeyResult>, c: Id)
    requires ObjectivesLinked(objs, sheets) && KeyResultsLinked(krs, objs)
    ensures var sheets2, objs2 := CascadeSheets(sheets, c), CascadeObjectives(objs, sheets, c);
            ObjectivesLinked(objs2, sheets2) && KeyResultsLinked(CascadeKeyResults(krs, objs, sheets, c), objs2)
            && forall s :: s in sheets2 ==> sheets2[s].cycleId != c
  {
    var sheets2, objs2 := CascadeSheets(sheets, c), CascadeObjectives(objs, sheets, c);
    var krs2 := CascadeKeyResults(krs, objs, sheets, c);
    forall o | o in objs2 ensures objs2[o].sheetId in sheets2 {
      assert objs2[o] == objs[o];
    }
    forall k | k in krs2 ensures krs2[k].objectiveId in objs2 {
      assert krs2[k] == krs[k];
    }
  }

  /**
   * Deleting a cycle keeps the rolled-up invariant without any roll-up: the
   * surviving objectives lose none of their key results and the surviving
   * sheets none of their objectives.
   */
  lemma CascadeKeepsRolledUp(sheets: map<Id, OkrSheet>, objs: map<Id, Objective>, krs: map<Id, KeyResult>,
                             n: nat, c: Id)
    requires Rollup.RolledUp(sheets, objs, krs, n)
    ensures Rollup.RolledUp(CascadeSheets(sheets, c), CascadeObjectives(objs, sheets, c),
                            CascadeKeyResults(krs, objs, sheets, c), n)
  {
    var sheets2, objs2 := CascadeSheets(sheets, c), CascadeObjectives(objs, sheets, c);
    var krs2 := CascadeKeyResults(krs, objs, sheets, c);
    forall k | k in krs2 ensures krs2[k].computedProgress == Rollup.KrProgressFor(krs2[k]) {
      assert krs2[k] == krs[k];
    }
    forall o | o in objs2 ensures objs2[o].computedProgress == Rollup.ObjectiveMean(krs2, n, o) {
      assert objs2[o] == objs[o];
      assert Queries.SameWhere(krs, krs2, Queries.OfObjective(o), n);
      Rollup.ObjectiveMeanFrame(krs, krs2, n, o);
    }
    forall s | s in sheets2 ensures sheets2[s].computedOverallProgress == Rollup.SheetMean(objs2, n, s) {
      assert sheets2[s] == sheets[s];
      assert Queries.SameWhere(objs, objs2, Queries.OfSheet(s), n);
      Rollup.SheetMeanFrame(objs, objs2, n, s);
    }
  }

  /** The ids a sequence holds, as a set. */
  function Elements(ids: seq<Id>): (r: set<Id>)
    ensures forall x :: x in r <==> x in ids
  {
    set x | x in ids
  }

  /** The inner loop: deleteByObjectiveId for each objective in turn. */
  method DeleteKeyResultsOf(db: Database, objs: seq<Id>)
    modifies db`keyResults
    ensures db.keyResults == old(db.keyResults) - KeyResultsOfObjectives(old(db.keyResults), Elements(objs))
  {
    ghost var k0 := db.keyResults;
    var i := 0;
    while i < |objs|
      invariant 0 <= i <= |objs|
      invariant db.keyResults == k0 - KeyResultsOfObjectives(k0, Elements(objs[..i]))
    {
      assert Elements(objs[..i + 1]) == Elements(objs[..i]) + {objs[i]};
      db.keyResults := Rollup.WithoutKeyResultsOf(db.keyResults, objs[i]);
      i := i + 1;
    }
    assert objs[..i] == objs;
  }

  /** The objectives a sheet query finds once the sheets in `done` have been cleared. */
  lemma SheetQueryStep(objs: map<Id, Objective>, done: set<Id>, s: Id, n: nat, found: seq<Id>)
    requires Below(objs, n) && s !in done
    requires found == Queries.Select(objs - ObjectivesOfSheets(objs, done), Queries.OfSheet(s), n)
    ensures Elements(found) == ObjectivesOfSheets(objs, {s})
    ensures WithoutObjectivesOf(objs - ObjectivesOfSheets(objs, done), s) == objs - ObjectivesOfSheets(objs, done + {s})
  {
    var rest := objs - ObjectivesOfSheets(objs, done);
    forall o | o in ObjectivesOfSheets(objs, {s}) ensures o in found {
      assert o in rest && Queries.OfSheet(s)(rest[o]);
    }
  }

  /** Clearing one more sheet's objectives removes their key results from what is left. */
  lemma KeyResultStep(krs: map<Id, KeyResult>, objs: map<Id, Objective>, done: set<Id>, s: Id)
    ensures var left := krs - KeyResultsOfObjectives(krs, ObjectivesOfSheets(objs, done));
            left - KeyResultsOfObjectives(left, ObjectivesOfSheets(objs, {s}))
            == krs - KeyResultsOfObjectives(krs, ObjectivesOfSheets(objs, done + {s}))
  {
    var left := krs - KeyResultsOfObjectives(krs, ObjectivesOfSheets(objs, done));
    var a := left - KeyResultsOfObjectives(left, ObjectivesOfSheets(objs, {s}));
    var b := krs - KeyResultsOfObjectives(krs, ObjectivesOfSheets(objs, done + {s}));
    assert forall k :: k in a <==> k in b;
  }

  /** The outer loop: for each sheet, the key results of its objectives, then its objectives. */
  method ClearSheets(db: Database, sheets: seq<Id>)
    requires Below(db.objectives, db.nextId)
    requires forall i, j :: 0 <= i < j < |sheets| ==> sheets[i] < sheets[j]
    modifies db`objectives, db`keyResults
    ensures db.objectives == old(db.objectives) - ObjectivesOfSheets(old(db.objectives), Elements(sheets))
    ensures db.keyResults
            == old(db.keyResults) - KeyResultsOfObjectives(old(db.keyResults),
                                                           ObjectivesOfSheets(old(db.objectives), Elements(sheets)))
  {
    var n := db.nextId;
    ghost var o0, k0 := db.objectives, db.keyResults;
    var i := 0;
    while i < |sheets|
      invariant 0 <= i <= |sheets|
      invariant db.objectives == o0 - ObjectivesOfSheets(o0, Elements(sheets[..i]))
      invariant db.keyResults == k0 - KeyResultsOfObjectives(k0, ObjectivesOfSheets(o0, Elements(sheets[..i])))
    {
      ghost var done := Elements(sheets[..i]);
      assert Elements(sheets[..i + 1]) == done + {sheets[i]};
      assert sheets[i] !in done by {
        forall x | x in sheets[..i] ensures x != sheets[i] {
          var j :| 0 <= j < i && sheets[j] == x;
        }
      }
      var objs := Queries.Select(db.objectives, Queries.OfSheet(sheets[i]), n);
      SheetQueryStep(o0, done, sheets[i], n, objs);
      DeleteKeyResultsOf(db, objs);
      KeyResultStep(k0, o0, done, sheets[i]);
      db.objectives := WithoutObjectivesOf(db.objectives, sheets[i]);
      i := i + 1;
    }
    assert sheets[..i] == sheets;
  }

  /** deleteCycle: NotFound for an unknown cycle, otherwise the cascade, then the sheets, then the cycle. */
  method DeleteCycle(db: Database, c: Id) returns (r: Result<(), Failure>)
    requires db.Valid()
    modifies db`cycles, db`sheets, db`objectives, db`keyResults
    ensures db.Valid()
    ensures c !in old(db.cycles) ==> r == Failure(NotFound("Cycle")) && unchanged(db)
    ensures c in old(db.cycles) ==>
              r == Success(())
              && db.cycles == old(db.cycles) - {c}
              && db.sheets == CascadeSheets(old(db.sheets), c)
              && db.objectives == CascadeObjectives(old(db.objectives), old(db.sheets), c)
              && db.keyResults == CascadeKeyResults(old(db.keyResults), old(db.objectives), old(db.sheets), c)
    ensures old(db.RolledUp()) ==> db.RolledUp()
  {
    if c !in db.cycles {
      return Failure(NotFound("Cycle"));
    }
    var sheets := Queries.Select(db.sheets, Queries.OfCycle(c), db.nextId);
    ghost var s0, o0, k0, n := db.sheets, db.objectives, db.keyResults, db.nextId;
    assert Elements(sheets) == CycleSheets(s0, c) by {
      forall s | s in CycleSheets(s0, c) ensures s in sheets {
        assert Queries.OfCycle(c)(s0[s]);
      }
    }
    ClearSheets(db, sheets);
    db.sheets := db.sheets - Elements(sheets);
    db.cycles := db.cycles - {c};
    r := Success(());
    CascadeKeepsLinks(s0, o0, k0, c);
    if Rollup.RolledUp(s0, o0, k0, n) {
      CascadeKeepsRolledUp(s0, o0, k0, n, c);
    }
  }
}
