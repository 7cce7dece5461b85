/**
 * The rolled-up progress invariant of the OKR tables: every key result's
 * stored progress is what the calculator gives for its values, every
 * objective's is the mean over its key results, and every sheet's is the
 * mean over its objectives. The operations that roll up (editing or deleting
 * a key result, editing or deleting an objective) keep it.
 */
module Rollup {
  import opened Domain
  import Lists
  import Calculation
  import Queries

  /** What rollupObjective stores: the mean over the objective's key results in sortOrder. */
  function ObjectiveMean(krs: map<Id, KeyResult>, n: nat, o: Id): real {
    Calculation.CalculateObjectiveProgress(Queries.KeyResultsOf(krs, o, n))
  }

  /** What rollupSheet stores: the mean over the sheet's objectives in sortOrder. */
  function SheetMean(objs: map<Id, Objective>, n: nat, s: Id): real {
    Calculation.CalculateSheetProgress(Queries.ObjectivesOf(objs, s, n))
  }

  function KrProgressFor(kr: KeyResult): real {
    Calculation.KrProgress(kr.startValue, kr.targetValue, kr.currentValue)
  }

  ghost predicate KeyResultsCurrent(krs: map<Id, KeyResult>) {
    forall k :: k in krs ==> krs[k].computedProgress == KrProgressFor(krs[k])
  }

  ghost predicate ObjectivesRolledUp(objs: map<Id, Objective>, krs: map<Id, KeyResult>, n: nat) {
    forall o :: o in objs ==> objs[o].computedProgress == ObjectiveMean(krs, n, o)
  }

  ghost predicate SheetsRolledUp(sheets: map<Id, OkrSheet>, objs: map<Id, Objective>, n: nat) {
    forall s :: s in sheets ==> sheets[s].computedOverallProgress == SheetMean(objs, n, s)
  }

  ghost predicate RolledUp(sheets: map<Id, OkrSheet>, objs: map<Id, Objective>, krs: map<Id, KeyResult>, n: nat) {
    KeyResultsCurrent(krs) && ObjectivesRolledUp(objs, krs, n) && SheetsRolledUp(sheets, objs, n)
  }

  /** The objectives table after rollupObjective has stored the objective's mean. */
  function RollObjective(objs: map<Id, Objective>, krs: map<Id, KeyResult>, n: nat, o: Id): (r: map<Id, Objective>)
    requires o in objs
    ensures r.Keys == objs.Keys
    ensures r[o].computedProgress == ObjectiveMean(krs, n, o)
    ensures r[o] == objs[o].(computedProgress := r[o].computedProgress)
    ensures forall o2 :: o2 in objs && o2 != o ==> r[o2] == objs[o2]
  {
    objs[o := objs[o].(computedProgress := ObjectiveMean(krs, n, o))]
  }

  /** The sheets table after rollupSheet has stored the sheet's mean. */
  function RollSheet(sheets: map<Id, OkrSheet>, objs: map<Id, Objective>, n: nat, s: Id): (r: map<Id, OkrSheet>)
    requires s in sheets
    ensures r.Keys == sheets.Keys
    ensures r[s].computedOverallProgress == SheetMean(objs, n, s)
    ensures r[s] == sheets[s].(computedOverallProgress := r[s].computedOverallProgress)
    ensures forall s2 :: s2 in sheets && s2 != s ==> r[s2] == sheets[s2]
  {
    sheets[s := sheets[s].(computedOverallProgress := SheetMean(objs, n, s))]
  }

  /** An objective's mean reads only its own key results. */
  lemma ObjectiveMeanFrame(krs1: map<Id, KeyResult>, krs2: map<Id, KeyResult>, n: nat, o: Id)
    requires Queries.SameWhere(krs1, krs2, Queries.OfObjective(o), n)
    ensures ObjectiveMean(krs1, n, o) == ObjectiveMean(krs2, n, o)
  {
    Queries.SelectSame(krs1, krs2, Queries.OfObjective(o), n);
  }

  /** A sheet's mean reads only its own objectives. */
  lemma SheetMeanFrame(objs1: map<Id, Objective>, objs2: map<Id, Objective>, n: nat, s: Id)
    requires Queries.SameWhere(objs1, objs2, Queries.OfSheet(s), n)
    ensures SheetMean(objs1, n, s) == SheetMean(objs2, n, s)
  {
    Queries.SelectSame(objs1, objs2, Queries.OfSheet(s), n);
  }

  /** A sheet's mean reads of its objectives nothing but sortOrder and computedProgress. */
  lemma SheetMeanReadsProgress(objs1: map<Id, Objective>, objs2: map<Id, Objective>, n: nat, s: Id)
    requires Queries.AgreeWhere(objs1, objs2, Queries.OfSheet(s), n, Calculation.ObjectiveSortKey,
                                Calculation.ObjectiveProgressOf)
    ensures SheetMean(objs1, n, s) == SheetMean(objs2, n, s)
  {
    var a := Lists.SortOn(Queries.Where(objs1, Queries.OfSheet(s), n), Calculation.ObjectiveSortKey);
    var b := Lists.SortOn(Queries.Where(objs2, Queries.OfSheet(s), n), Calculation.ObjectiveSortKey);
    Queries.SortedWhereAgrees(objs1, objs2, Queries.OfSheet(s), n, Calculation.ObjectiveSortKey,
                              Calculation.ObjectiveProgressOf);
    Calculation.SheetProgressReadsOnlyProgress(a, b);
  }

  lemma ObjectiveMeanAfterPut(krs: map<Id, KeyResult>, n: nat, k: Id, kr: KeyResult, o: Id)
    requires k in krs && kr.objectiveId == krs[k].objectiveId && o != kr.objectiveId
    ensures ObjectiveMean(krs[k := kr], n, o) == ObjectiveMean(krs, n, o)
  {
    assert Queries.SameWhere(krs, krs[k := kr], Queries.OfObjective(o), n);
    ObjectiveMeanFrame(krs, krs[k := kr], n, o);
  }

  lemma ObjectiveMeanAfterRemove(krs: map<Id, KeyResult>, n: nat, k: Id, o: Id)
    requires k in krs && krs[k].objectiveId != o
    ensures ObjectiveMean(krs - {k}, n, o) == ObjectiveMean(krs, n, o)
  {
    assert Queries.SameWhere(krs, krs - {k}, Queries.OfObjective(o), n);
    ObjectiveMeanFrame(krs, krs - {k}, n, o);
  }

  lemma ObjectiveMeanAfterDropOf(krs: map<Id, KeyResult>, n: nat, dropped: Id, o: Id)
    requires o != dropped
    ensures ObjectiveMean(WithoutKeyResultsOf(krs, dropped), n, o) == ObjectiveMean(krs, n, o)
  {
    assert Queries.SameWhere(krs, WithoutKeyResultsOf(krs, dropped), Queries.OfObjective(o), n);
    ObjectiveMeanFrame(krs, WithoutKeyResultsOf(krs, dropped), n, o);
  }

  lemma SheetMeanAfterRoll(objs: map<Id, Objective>, krs: map<Id, KeyResult>, n: nat, o: Id, s: Id)
    requires o in objs && objs[o].sheetId != s
    ensures SheetMean(RollObjective(objs, krs, n, o), n, s) == SheetMean(objs, n, s)
  {
    assert Queries.SameWhere(objs, RollObjective(objs, krs, n, o), Queries.OfSheet(s), n);
    SheetMeanFrame(objs, RollObjective(objs, krs, n, o), n, s);
  }

  lemma SheetMeanAfterRemove(objs: map<Id, Objective>, n: nat, o: Id, s: Id)
    requires o in objs && objs[o].sheetId != s
    ensures SheetMean(objs - {o}, n, s) == SheetMean(objs, n, s)
  {
    assert Queries.SameWhere(objs, objs - {o}, Queries.OfSheet(s), n);
    SheetMeanFrame(objs, objs - {o}, n, s);
  }

  /**
   * Rolling up an objective and then its sheet, after the objective's key
   * results changed, restores the invariant: the other objectives' and
   * sheets' means did not move.
   */
  lemma RollupRestores(sheets: map<Id, OkrSheet>, objs: map<Id, Objective>, krs: map<Id, KeyResult>,
                       krs2: map<Id, KeyResult>, n: nat, o: Id)
    requires o in objs && objs[o].sheetId in sheets
    requires SheetsRolledUp(sheets, objs, n) && KeyResultsCurrent(krs2)
    requires forall o2 :: o2 in objs && o2 != o ==> objs[o2].computedProgress == ObjectiveMean(krs2, n, o2)
    ensures var objs2 := RollObjective(objs, krs2, n, o);
            RolledUp(RollSheet(sheets, objs2, n, objs[o].sheetId), objs2, krs2, n)
  {
    var s := objs[o].sheetId;
    var objs2 := RollObjective(objs, krs2, n, o);
    var sheets2 := RollSheet(sheets, objs2, n, s);
    forall o2 | o2 in objs2 ensures objs2[o2].computedProgress == ObjectiveMean(krs2, n, o2) {
      if o2 != o {
        assert objs2[o2] == objs[o2];
      }
    }
    assert ObjectivesRolledUp(objs2, krs2, n);
    forall s2 | s2 in sheets2 ensures sheets2[s2].computedOverallProgress == SheetMean(objs2, n, s2) {
      if s2 != s {
        SheetMeanAfterRoll(objs, krs2, n, o, s2);
      }
    }
    assert SheetsRolledUp(sheets2, objs2, n);
  }

  /**
   * updateKeyResult: storing a key result whose progress is recomputed (in
   * the same objective), then rolling up its objective and that objective's
   * sheet, keeps the tables rolled up.
   */
  lemma KeyResultEditKeepsRolledUp(sheets: map<Id, OkrSheet>, objs: map<Id, Objective>, krs: map<Id, KeyResult>,
                                   n: nat, k: Id, kr: KeyResult)
    requires RolledUp(sheets, objs, krs, n)
    requires k in krs && kr.objectiveId == krs[k].objectiveId
    requires kr.computedProgress == KrProgressFor(kr)
    requires kr.objectiveId in objs && objs[kr.objectiveId].sheetId in sheets
    ensures var objs2 := RollObjective(objs, krs[k := kr], n, kr.objectiveId);
            RolledUp(RollSheet(sheets, objs2, n, objs[kr.objectiveId].sheetId), objs2, krs[k := kr], n)
  {
    forall o2 | o2 in objs && o2 != kr.objectiveId
      ensures objs[o2].computedProgress == ObjectiveMean(krs[k := kr], n, o2)
    {
      ObjectiveMeanAfterPut(krs, n, k, kr, o2);
    }
    RollupRestores(sheets, objs, krs, krs[k := kr], n, kr.objectiveId);
  }

  /**
   * deleteKeyResult: removing a key result, then rolling up its objective
   * and that objective's sheet, keeps the tables rolled up.
   */
  lemma KeyResultDeleteKeepsRolledUp(sheets: map<Id, OkrSheet>, objs: map<Id, Objective>, krs: map<Id, KeyResult>,
                                     n: nat, k: Id)
    requires RolledUp(sheets, objs, krs, n)
    requires k in krs && krs[k].objectiveId in objs && objs[krs[k].objectiveId].sheetId in sheets
    ensures var o := krs[k].objectiveId;
            var objs2 := RollObjective(objs, krs - {k}, n, o);
            RolledUp(RollSheet(sheets, objs2, n, objs[o].sheetId), objs2, krs - {k}, n)
  {
    forall o2 | o2 in objs && o2 != krs[k].objectiveId
      ensures objs[o2].computedProgress == ObjectiveMean(krs - {k}, n, o2)
    {
      ObjectiveMeanAfterRemove(krs, n, k, o2);
    }
    RollupRestores(sheets, objs, krs, krs - {k}, n, krs[k].objectiveId);
  }

  /** The key-results table without the rows of one objective (deleteAll of its key results). */
  function WithoutKeyResultsOf(krs: map<Id, KeyResult>, o: Id): (r: map<Id, KeyResult>)
    ensures forall k :: k in r <==> k in krs && krs[k].objectiveId != o
    ensures forall k :: k in r ==> r[k] == krs[k]
  {
    map k | k in krs && krs[k].objectiveId != o :: krs[k]
  }

  /**
   * deleteObjective: removing an objective with all its key results, then
   * rolling up its sheet, keeps the tables rolled up.
   */
  lemma ObjectiveDeleteKeepsRolledUp(sheets: map<Id, OkrSheet>, objs: map<Id, Objective>, krs: map<Id, KeyResult>,
                                     n: nat, o: Id)
    requires RolledUp(sheets, objs, krs, n)
    requires o in objs && objs[o].sheetId in sheets
    ensures RolledUp(RollSheet(sheets, objs - {o}, n, objs[o].sheetId), objs - {o}, WithoutKeyResultsOf(krs, o), n)
  {
    var s := objs[o].sheetId;
    var krs2 := WithoutKeyResultsOf(krs, o);
    var objs2 := objs - {o};
    var sheets2 := RollSheet(sheets, objs2, n, s);
    forall o2 | o2 in objs2
      ensures objs2[o2].computedProgress == ObjectiveMean(krs2, n, o2)
    {
      ObjectiveMeanAfterDropOf(krs, n, o, o2);
    }
    forall s2 | s2 in sheets2 && s2 != s
      ensures sheets2[s2].computedOverallProgress == SheetMean(objs2, n, s2)
    {
      SheetMeanAfterRemove(objs, n, o, s2);
    }
  }

  lemma SheetMeanAfterEdit(objs: map<Id, Objective>, n: nat, o: Id, obj: Objective, s: Id)
    requires o in objs && obj == objs[o].(title := obj.title, ownerId := obj.ownerId)
    ensures SheetMean(objs[o := obj], n, s) == SheetMean(objs, n, s)
  {
    assert Queries.AgreeWhere(objs, objs[o := obj], Queries.OfSheet(s), n, Calculation.ObjectiveSortKey,
                              Calculation.ObjectiveProgressOf);
    SheetMeanReadsProgress(objs, objs[o := obj], n, s);
  }

  /**
   * updateObjective: changing an objective's title or owner (not its sheet,
   * sortOrder or progress) keeps the tables rolled up without a rollup.
   */
  lemma ObjectiveEditKeepsRolledUp(sheets: map<Id, OkrSheet>, objs: map<Id, Objective>, krs: map<Id, KeyResult>,
                                   n: nat, o: Id, obj: Objective)
    requires RolledUp(sheets, objs, krs, n)
    requires o in objs && obj == objs[o].(title := obj.title, ownerId := obj.ownerId)
    ensures RolledUp(sheets, objs[o := obj], krs, n)
  {
    var objs2 := objs[o := obj];
    forall o2 | o2 in objs2 ensures objs2[o2].computedProgress == ObjectiveMean(krs, n, o2) {
      assert objs2[o2].computedProgress == objs[o2].computedProgress;
    }
    forall s | s in sheets
      ensures sheets[s].computedOverallProgress == SheetMean(objs[o := obj], n, s)
    {
      SheetMeanAfterEdit(objs, n, o, obj, s);
    }
  }

  /** An objective left without key results rolls up to 0.0. */
  lemma EmptyObjectiveRollsUpToZero(krs: map<Id, KeyResult>, n: nat, o: Id)
    requires forall k :: k in krs && k < n ==> krs[k].objectiveId != o
    ensures ObjectiveMean(krs, n, o) == 0.0
  {
    Queries.SelectNone(krs, Queries.OfObjective(o), n);
  }

  /** A sheet left without objectives rolls up to 0.0. */
  lemma EmptySheetRollsUpToZero(objs: map<Id, Objective>, n: nat, s: Id)
    requires forall o :: o in objs && o < n ==> objs[o].sheetId != s
    ensures SheetMean(objs, n, s) == 0.0
  {
    Queries.SelectNone(objs, Queries.OfSheet(s), n);
  }

  lemma ObjectiveMeanBounded(krs: map<Id, KeyResult>, n: nat, o: Id)
    requires forall k :: k in krs ==> 0.0 <= krs[k].computedProgress <= 1.0
    ensures 0.0 <= ObjectiveMean(krs, n, o) <= 1.0
  {
    var r := Queries.KeyResultsOf(krs, o, n);
    var rows := Queries.Where(krs, Queries.OfObjective(o), n);
    forall i | 0 <= i < |r| ensures 0.0 <= r[i].computedProgress <= 1.0 {
      assert r[i] in multiset(rows);
    }
  }

  lemma SheetMeanBounded(objs: map<Id, Objective>, n: nat, s: Id)
    requires forall o :: o in objs ==> 0.0 <= objs[o].computedProgress <= 1.0
    ensures 0.0 <= SheetMean(objs, n, s) <= 1.0
  {
    var r := Queries.ObjectivesOf(objs, s, n);
    var rows := Queries.Where(objs, Queries.OfSheet(s), n);
    forall i | 0 <= i < |r| ensures 0.0 <= r[i].computedProgress <= 1.0 {
      assert r[i] in multiset(rows);
    }
  }

  /** In rolled-up tables every stored progress lies in [0, 1]. */
  lemma RolledUpBounded(sheets: map<Id, OkrSheet>, objs: map<Id, Objective>, krs: map<Id, KeyResult>, n: nat)
    requires RolledUp(sheets, objs, krs, n)
    ensures forall k :: k in krs ==> 0.0 <= krs[k].computedProgress <= 1.0
    ensures forall o :: o in objs ==> 0.0 <= objs[o].computedProgress <= 1.0
    ensures forall s :: s in sheets ==> 0.0 <= sheets[s].computedOverallProgress <= 1.0
  {
    forall o | o in objs ensures 0.0 <= objs[o].computedProgress <= 1.0 {
      ObjectiveMeanBounded(krs, n, o);
    }
    forall s | s in sheets ensures 0.0 <= sheets[s].computedOverallProgress <= 1.0 {
      SheetMeanBounded(objs, n, s);
    }
  }

  /**
   * The invariant does not depend on the id counter beyond the keys in use:
   * handing out fresh ids keeps it.
   */
  lemma RolledUpBeyond(sheets: map<Id, OkrSheet>, objs: map<Id, Objective>, krs: map<Id, KeyResult>, n: nat, n2: nat)
    requires RolledUp(sheets, objs, krs, n) && n <= n2
    requires forall o :: o in objs ==> o < n
    requires forall k :: k in krs ==> k < n
    ensures RolledUp(sheets, objs, krs, n2)
  {
    forall o | o in objs ensures objs[o].computedProgress == ObjectiveMean(krs, n2, o) {
      Queries.SelectBeyond(krs, Queries.OfObjective(o), n, n2);
    }
    forall s | s in sheets ensures sheets[s].computedOverallProgress == SheetMean(objs, n2, s) {
      Queries.SelectBeyond(objs, Queries.OfSheet(s), n, n2);
    }
  }
}
