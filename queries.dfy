/**
 * The repository queries the services use, over id-keyed tables. Every id in
 * a table is below the store's id counter `n`, so a query enumerates the ids
 * below `n` in increasing order; that order stands for the database's default
 * row order, and "OrderBySortOrderAsc" is a stable sort on `sortOrder`.
 */
module Queries {
  import opened Wrappers
  import opened Domain
  import Lists
  import Calculation

  /** The ids below `n` whose rows satisfy `p`, in increasing order. */
  function Select<T>(m: map<Id, T>, p: T -> bool, n: nat): (ids: seq<Id>)
    ensures forall i :: 0 <= i < |ids| ==> ids[i] in m && p(m[ids[i]]) && ids[i] < n
    ensures forall id :: id in m && id < n && p(m[id]) ==> id in ids
    ensures forall i, j :: 0 <= i < j < |ids| ==> ids[i] < ids[j]
  {
    if n == 0 then []
    else
      var r := Select(m, p, n - 1);
      if n - 1 in m && p(m[n - 1]) then r + [n - 1] else r
  }

  function Rows<T>(m: map<Id, T>, ids: seq<Id>): (rows: seq<T>)
    requires forall i :: 0 <= i < |ids| ==> ids[i] in m
    ensures |rows| == |ids| && forall i :: 0 <= i < |ids| ==> rows[i] == m[ids[i]]
  {
    seq(|ids|, i requires 0 <= i < |ids| => m[ids[i]])
  }

  /** The rows satisfying `p`, in table order. */
  function Where<T>(m: map<Id, T>, p: T -> bool, n: nat): seq<T> {
    Rows(m, Select(m, p, n))
  }

  /** A query that no row satisfies returns nothing. */
  lemma {:induction false} SelectNone<T>(m: map<Id, T>, p: T -> bool, n: nat)
    requires forall id :: id in m && id < n ==> !p(m[id])
    ensures Select(m, p, n) == [] && Where(m, p, n) == []
  {
    if n > 0 {
      SelectNone(m, p, n - 1);
    }
  }

  /** Two tables hold the same rows satisfying `p` below `n`. */
  ghost predicate SameWhere<T>(m1: map<Id, T>, m2: map<Id, T>, p: T -> bool, n: nat) {
    forall id :: id < n ==>
      ((id in m1 && p(m1[id])) <==> (id in m2 && p(m2[id])))
      && (id in m1 && p(m1[id]) ==> m1[id] == m2[id])
  }

  /** A query sees nothing of a table but the rows it selects. */
  lemma {:induction false} SelectSame<T>(m1: map<Id, T>, m2: map<Id, T>, p: T -> bool, n: nat)
    requires SameWhere(m1, m2, p, n)
    ensures Select(m1, p, n) == Select(m2, p, n)
    ensures Where(m1, p, n) == Where(m2, p, n)
  {
    if n > 0 {
      SelectSame(m1, m2, p, n - 1);
    }
  }

  /** Raising the id bound past every key of the table changes no query. */
  lemma {:induction false} SelectBeyond<T>(m: map<Id, T>, p: T -> bool, n: nat, n2: nat)
    requires n <= n2 && forall id :: id in m ==> id < n
    ensures Select(m, p, n) == Select(m, p, n2)
    ensures Where(m, p, n) == Where(m, p, n2)
  {
    if n2 > n {
      SelectBeyond(m, p, n, n2 - 1);
    }
  }

  /** Two tables whose selections coincide and whose selected rows agree on `key` and `f`. */
  ghost predicate AgreeWhere<T, U>(m1: map<Id, T>, m2: map<Id, T>, p: T -> bool, n: nat, key: T -> int, f: T -> U) {
    forall id :: id < n ==>
      ((id in m1 && p(m1[id])) <==> (id in m2 && p(m2[id])))
      && (id in m1 && p(m1[id]) ==> key(m1[id]) == key(m2[id]) && f(m1[id]) == f(m2[id]))
  }

  /** Such tables give the same selection, and query results that agree on `key` and `f` once sorted. */
  lemma {:induction false} SortedWhereAgrees<T, U>(m1: map<Id, T>, m2: map<Id, T>, p: T -> bool, n: nat,
                                                 key: T -> int, f: T -> U)
    requires AgreeWhere(m1, m2, p, n, key, f)
    ensures Select(m1, p, n) == Select(m2, p, n)
    ensures Lists.AgreeOn(Lists.SortOn(Where(m1, p, n), key), Lists.SortOn(Where(m2, p, n), key), key, f)
  {
    SelectAgrees(m1, m2, p, n, key, f);
    Lists.SortAgrees(Where(m1, p, n), Where(m2, p, n), key, f);
  }

  lemma {:induction false} SelectAgrees<T, U>(m1: map<Id, T>, m2: map<Id, T>, p: T -> bool, n: nat,
                                            key: T -> int, f: T -> U)
    requires AgreeWhere(m1, m2, p, n, key, f)
    ensures Select(m1, p, n) == Select(m2, p, n)
    ensures Lists.AgreeOn(Where(m1, p, n), Where(m2, p, n), key, f)
  {
    if n > 0 {
      SelectAgrees(m1, m2, p, n - 1, key, f);
    }
  }

  function OfObjective(o: Id): KeyResult -> bool { (kr: KeyResult) => kr.objectiveId == o }

  function OfSheet(s: Id): Objective -> bool { (obj: Objective) => obj.sheetId == s }

  function OfCycle(c: Id): OkrSheet -> bool { (sh: OkrSheet) => sh.cycleId == c }

  /** Sheets of a cycle with one scope type (findByCycleIdAndScopeType). */
  function InScope(c: Id, st: ScopeType): OkrSheet -> bool { (sh: OkrSheet) => sh.cycleId == c && sh.scopeType == st }

  /** Sheets of a cycle for one scope (findByCycleIdAndScopeTypeAndScopeId). */
  function AtScope(c: Id, st: ScopeType, scopeId: Id): OkrSheet -> bool {
    (sh: OkrSheet) => sh.cycleId == c && sh.scopeType == st && sh.scopeId == scopeId
  }

  function OfTeam(t: Id): Department -> bool { (d: Department) => d.teamId == t }

  function InDepartment(d: Id): User -> bool { (u: User) => u.departmentId == Some(d) }

  function IsActive(c: Cycle): bool { c.isActive }

  function AnyTeam(t: Team): bool { true }

  function AnyDepartment(d: Department): bool { true }

  function AnyCompany(c: Company): bool { true }

  /** findByObjectiveIdOrderBySortOrderAsc. */
  function KeyResultsOf(krs: map<Id, KeyResult>, o: Id, n: nat): (r: seq<KeyResult>)
    ensures forall kr :: kr in r ==> kr.objectiveId == o
    ensures multiset(r) == multiset(Where(krs, OfObjective(o), n))
    ensures Lists.SortedOn(r, Calculation.KrSortKey)
  {
    var rows := Where(krs, OfObjective(o), n);
    assert forall kr :: kr in rows ==> kr.objectiveId == o;
    var r := Lists.SortOn(rows, Calculation.KrSortKey);
    assert forall kr :: kr in r ==> kr in multiset(rows);
    r
  }

  /** findBySheetIdOrderBySortOrderAsc. */
  function ObjectivesOf(objs: map<Id, Objective>, s: Id, n: nat): (r: seq<Objective>)
    ensures forall o :: o in r ==> o.sheetId == s
    ensures multiset(r) == multiset(Where(objs, OfSheet(s), n))
    ensures Lists.SortedOn(r, Calculation.ObjectiveSortKey)
  {
    var rows := Where(objs, OfSheet(s), n);
    assert forall o :: o in rows ==> o.sheetId == s;
    var r := Lists.SortOn(rows, Calculation.ObjectiveSortKey);
    assert forall o :: o in r ==> o in multiset(rows);
    r
  }

  /** A row satisfying `p` with an id below `n` is in the query result. */
  lemma InWhere<T>(m: map<Id, T>, p: T -> bool, n: nat, id: Id)
    requires id in m && id < n && p(m[id])
    ensures m[id] in Where(m, p, n)
  {
    var ids := Select(m, p, n);
    var i :| 0 <= i < |ids| && ids[i] == id;
    assert Where(m, p, n)[i] == m[id];
  }

  /** Every row of the query result is a row of the table satisfying `p`. */
  lemma FromWhere<T>(m: map<Id, T>, p: T -> bool, n: nat, x: T) returns (id: Id)
    requires x in Where(m, p, n)
    ensures id in m && id < n && p(m[id]) && x == m[id]
  {
    var rows := Where(m, p, n);
    var i :| 0 <= i < |rows| && rows[i] == x;
    id := Select(m, p, n)[i];
  }

  /**
   * The sortOrder a new row gets under the rows satisfying `p`: one past the
   * last of them in sortOrder, or 1 when there are none.
   */
  function NextOrder<T>(m: map<Id, T>, p: T -> bool, n: nat, key: T -> int): (r: int)
    ensures forall id :: id in m && id < n && p(m[id]) ==> key(m[id]) < r
    ensures (forall id :: id in m && id < n ==> !p(m[id])) ==> r == 1
    ensures (exists id :: id in m && id < n && p(m[id]))
            ==> exists id :: id in m && id < n && p(m[id]) && r == key(m[id]) + 1
  {
    var sorted := Lists.SortOn(Where(m, p, n), key);
    NextOrderAbove(m, p, n, key);
    if forall id :: id in m && id < n ==> !p(m[id]) then
      SelectNone(m, p, n);
      Lists.NextKey(sorted, key)
    else if sorted == [] then
      assert false;
      1
    else
      LastSortedWitness(m, p, n, key);
      Lists.NextKey(sorted, key)
  }

  lemma NextOrderAbove<T>(m: map<Id, T>, p: T -> bool, n: nat, key: T -> int)
    ensures forall id :: id in m && id < n && p(m[id])
              ==> key(m[id]) < Lists.NextKey(Lists.SortOn(Where(m, p, n), key), key)
  {
    forall id | id in m && id < n && p(m[id]) ensures m[id] in Lists.SortOn(Where(m, p, n), key) {
      InSorted(m, p, n, key, id);
    }
  }

  lemma InSorted<T>(m: map<Id, T>, p: T -> bool, n: nat, key: T -> int, id: Id)
    requires id in m && id < n && p(m[id])
    ensures m[id] in Lists.SortOn(Where(m, p, n), key)
  {
    InWhere(m, p, n, id);
    assert m[id] in multiset(Lists.SortOn(Where(m, p, n), key));
  }

  lemma LastSortedWitness<T>(m: map<Id, T>, p: T -> bool, n: nat, key: T -> int)
    requires Lists.SortOn(Where(m, p, n), key) != []
    ensures var sorted := Lists.SortOn(Where(m, p, n), key);
            exists id :: id in m && id < n && p(m[id]) && sorted[|sorted| - 1] == m[id]
  {
    var sorted := Lists.SortOn(Where(m, p, n), key);
    var x := sorted[|sorted| - 1];
    assert x in multiset(Where(m, p, n));
    var id := FromWhere(m, p, n, x);
  }

  /** The first row satisfying `p`, if any (findFirst...). */
  function First<T>(m: map<Id, T>, p: T -> bool, n: nat): (r: Option<Id>)
    ensures r.Some? ==> r.value in m && p(m[r.value]) && r.value < n
    ensures r.Some? ==> forall id :: id < r.value && id in m ==> !p(m[id])
    ensures r.None? ==> forall id :: id < n && id in m ==> !p(m[id])
  {
    var ids := Select(m, p, n);
    if ids == [] then None
    else
      assert forall id :: id < ids[0] && id in m && p(m[id]) ==> id in ids;
      Some(ids[0])
  }

  /** A findFirst over ids below `n` finds the same row when the bound grows. */
  lemma FirstBeyond<T>(m: map<Id, T>, p: T -> bool, n: nat, n2: nat)
    requires n <= n2 && forall id :: id in m ==> id < n
    ensures First(m, p, n) == First(m, p, n2)
  {
    SelectBeyond(m, p, n, n2);
  }
}
