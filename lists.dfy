/**
 * Generic sequence helpers: the "ORDER BY sortOrder ASC" view of a list of
 * rows (an insertion sort on an integer key), and the facts about it that the
 * rest of the model relies on.
 */
module Lists {

  ghost predicate SortedOn<T>(s: seq<T>, key: T -> int) {
    forall i, j :: 0 <= i < j < |s| ==> key(s[i]) <= key(s[j])
  }

  /** Places `x` before the first element whose key is not smaller. */
  function Insert<T>(x: T, s: seq<T>, key: T -> int): (r: seq<T>)
    ensures |r| == |s| + 1
    ensures multiset(r) == multiset(s) + multiset{x}
  {
    if s == [] || key(x) <= key(s[0]) then [x] + s
    else
      assert s == [s[0]] + s[1..];
      [s[0]] + Insert(x, s[1..], key)
  }

  /** Inserting an element no smaller than `lo` into a list no smaller than `lo` keeps every key at least `lo`. */
  lemma {:induction false} InsertAbove<T>(x: T, s: seq<T>, key: T -> int, lo: int)
    requires lo <= key(x) && forall i :: 0 <= i < |s| ==> lo <= key(s[i])
    ensures forall i :: 0 <= i < |Insert(x, s, key)| ==> lo <= key(Insert(x, s, key)[i])
  {
    if s == [] || key(x) <= key(s[0]) {
      var r := [x] + s;
      forall i | 0 <= i < |r| ensures lo <= key(r[i]) {
        if i > 0 { assert r[i] == s[i - 1]; }
      }
    } else {
      InsertAbove(x, s[1..], key, lo);
      var rest := Insert(x, s[1..], key);
      var r := [s[0]] + rest;
      forall i | 0 <= i < |r| ensures lo <= key(r[i]) {
        if i > 0 { assert r[i] == rest[i - 1]; } else { assert r[i] == s[0]; }
      }
    }
  }

  lemma {:induction false} InsertSorted<T>(x: T, s: seq<T>, key: T -> int)
    requires SortedOn(s, key)
    ensures SortedOn(Insert(x, s, key), key)
  {
    if s == [] || key(x) <= key(s[0]) {
      var r := [x] + s;
      forall i, j | 0 <= i < j < |r| ensures key(r[i]) <= key(r[j]) {
        assert r[j] == s[j - 1];
        if i > 0 { assert r[i] == s[i - 1]; }
      }
    } else {
      var tail := s[1..];
      var rest := Insert(x, tail, key);
      InsertSorted(x, tail, key);
      forall i | 0 <= i < |tail| ensures key(s[0]) <= key(tail[i]) {
        assert tail[i] == s[i + 1];
      }
      InsertAbove(x, tail, key, key(s[0]));
      var r := [s[0]] + rest;
      forall i, j | 0 <= i < j < |r| ensures key(r[i]) <= key(r[j]) {
        if i > 0 { assert r[i] == rest[i - 1] && r[j] == rest[j - 1]; }
        else { assert r[i] == s[0] && r[j] == rest[j - 1]; }
      }
    }
  }

  /** The rows ordered by ascending key (an insertion sort; equal keys keep their order). */
  function SortOn<T>(s: seq<T>, key: T -> int): (r: seq<T>)
    ensures |r| == |s|
    ensures multiset(r) == multiset(s)
    ensures SortedOn(r, key)
  {
    if s == [] then []
    else
      assert s == [s[0]] + s[1..];
      InsertSorted(s[0], SortOn(s[1..], key), key);
      Insert(s[0], SortOn(s[1..], key), key)
  }

  /** Two lists that agree position by position on `key` and on `f`. */
  ghost predicate AgreeOn<T, U>(s: seq<T>, t: seq<T>, key: T -> int, f: T -> U) {
    |s| == |t| && forall i :: 0 <= i < |s| ==> key(s[i]) == key(t[i]) && f(s[i]) == f(t[i])
  }

  lemma {:induction false} InsertAgrees<T, U>(x: T, y: T, s: seq<T>, t: seq<T>, key: T -> int, f: T -> U)
    requires key(x) == key(y) && f(x) == f(y) && AgreeOn(s, t, key, f)
    ensures AgreeOn(Insert(x, s, key), Insert(y, t, key), key, f)
  {
    if s == [] || key(x) <= key(s[0]) {
    } else {
      InsertAgrees(x, y, s[1..], t[1..], key, f);
    }
  }

  /**
   * Sorting depends only on the keys: lists that agree on the key and on `f`
   * still agree on both once sorted.
   */
  lemma {:induction false} SortAgrees<T, U>(s: seq<T>, t: seq<T>, key: T -> int, f: T -> U)
    requires AgreeOn(s, t, key, f)
    ensures AgreeOn(SortOn(s, key), SortOn(t, key), key, f)
  {
    if s != [] {
      SortAgrees(s[1..], t[1..], key, f);
      InsertAgrees(s[0], t[0], SortOn(s[1..], key), SortOn(t[1..], key), key, f);
    }
  }

  /** The first `k` elements, or all of them when there are fewer (`stream().limit(k)`). */
  function Take<T>(s: seq<T>, k: nat): (r: seq<T>)
    ensures |r| == if |s| < k then |s| else k
    ensures forall i :: 0 <= i < |r| ==> r[i] == s[i]
  {
    if |s| <= k then s else s[..k]
  }

  /**
   * The sort key for a new last element: one past the last element's key, or
   * 1 for an empty list. On a sorted list it exceeds every key present.
   */
  function NextKey<T>(s: seq<T>, key: T -> int): (r: int)
    ensures s == [] ==> r == 1
    ensures SortedOn(s, key) ==> forall x :: x in s ==> key(x) < r
    ensures s != [] ==> exists x :: x in s && r == key(x) + 1
  {
    if s == [] then 1 else key(s[|s| - 1]) + 1
  }

  /** Appending is associative (stated once so that callers with large terms need not rediscover it). */
  lemma AppendAssoc<T>(a: seq<T>, b: seq<T>, c: seq<T>)
    ensures a + b + c == a + (b + c)
  {
  }
}
