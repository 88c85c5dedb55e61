/**
 * Database tables as sequences of rows in primary-key order, and the two queries the
 * handlers run on them: the first row matching a filter (`.filter(...).first()`,
 * `.get(...)`) and all rows matching one (`.filter(...)`, and the rows a delete keeps).
 */
module Tables {
  import opened Wrappers

  /** The rows at positions `i` and `j` are in primary-key order. */
  ghost predicate KeysOrdered<T>(s: seq<T>, id: T -> int, i: int, j: int) {
    0 <= i < j < |s| ==> id(s[i]) < id(s[j])
  }

  /**
   * Primary keys strictly increase along the table: they are unique and give the row order.
   * (Stated through `KeysOrdered`, so that a proof instantiates it only at positions it names.)
   */
  ghost predicate IdsIncreasing<T>(s: seq<T>, id: T -> int) {
    forall i, j :: KeysOrdered(s, id, i, j)
  }

  /** The key of the row at position `i` lies below `next`. */
  ghost predicate KeyBelow<T>(s: seq<T>, id: T -> int, next: int, i: int) {
    0 <= i < |s| ==> id(s[i]) < next
  }

  /** Every primary key in the table lies below the next one the table will hand out. */
  ghost predicate IdsBelow<T>(s: seq<T>, id: T -> int, next: int) {
    forall i :: KeyBelow(s, id, next, i)
  }

  /** The index of the first row satisfying `p`, if any. */
  function FirstIndex<T>(s: seq<T>, p: T -> bool): (r: Option<nat>)
    ensures r.Some? ==> r.value < |s| && p(s[r.value])
    ensures r.Some? ==> forall i :: 0 <= i < r.value ==> !p(s[i])
    ensures r.None? <==> forall i :: 0 <= i < |s| ==> !p(s[i])
  {
    if s == [] then None
    else if p(s[0]) then Some(0)
    else match FirstIndex(s[1..], p)
      case None => None
      case Some(k) => Some(k + 1)
  }

  /** Without a first match, no row of the table matches. */
  lemma NoFirstIndexNoRow<T>(s: seq<T>, p: T -> bool)
    requires FirstIndex(s, p).None?
    ensures forall x :: x in s ==> !p(x)
  {
    forall x | x in s ensures !p(x) {
      var i :| 0 <= i < |s| && s[i] == x;
    }
  }

  /** The rows satisfying `keep`; `FilterKeepsIdsIncreasing` shows they stay in key order. */
  function Filter<T(!new)>(s: seq<T>, keep: T -> bool): (r: seq<T>)
    ensures |r| <= |s|
    ensures forall x :: x in r <==> x in s && keep(x)
  {
    if s == [] then []
    else if keep(s[0]) then [s[0]] + Filter(s[1..], keep)
    else Filter(s[1..], keep)
  }

  /** A filter that keeps no element yields the empty table. */
  lemma FilterNoneKept<T(!new)>(s: seq<T>, keep: T -> bool)
    requires forall x :: x in s ==> !keep(x)
    ensures Filter(s, keep) == []
  {
    if Filter(s, keep) != [] {
      assert Filter(s, keep)[0] in Filter(s, keep);
    }
  }

  /** Two rows of a table with increasing keys that have the same key are the same row. */
  lemma KeysDistinct<T>(s: seq<T>, id: T -> int, i: int, j: int)
    requires IdsIncreasing(s, id) && 0 <= i < |s| && 0 <= j < |s| && id(s[i]) == id(s[j])
    ensures i == j
  {
    assert KeysOrdered(s, id, i, j) && KeysOrdered(s, id, j, i);
  }

  /** Appending a row with the next key keeps the keys increasing and below the new counter. */
  lemma AppendKeepsIds<T>(s: seq<T>, id: T -> int, next: int, x: T)
    requires IdsIncreasing(s, id) && IdsBelow(s, id, next) && id(x) == next
    ensures IdsIncreasing(s + [x], id) && IdsBelow(s + [x], id, next + 1)
  {
    var r := s + [x];
    forall i, j ensures KeysOrdered(r, id, i, j) {
      if 0 <= i < j < |r| {
        assert r[i] == s[i];
        if j < |s| {
          assert r[j] == s[j] && KeysOrdered(s, id, i, j);
        } else {
          assert KeyBelow(s, id, next, i);
        }
      }
    }
    var next' := next + 1;
    forall i ensures KeyBelow(r, id, next', i) {
      if 0 <= i < |s| {
        assert r[i] == s[i] && KeyBelow(s, id, next, i);
      }
    }
  }

  /** Replacing a row by one with the same key keeps the key invariants. */
  lemma UpdateKeepsIds<T>(s: seq<T>, id: T -> int, next: int, k: int, x: T)
    requires IdsIncreasing(s, id) && IdsBelow(s, id, next) && 0 <= k < |s| && id(x) == id(s[k])
    ensures IdsIncreasing(s[k := x], id) && IdsBelow(s[k := x], id, next)
  {
    var r := s[k := x];
    forall i, j ensures KeysOrdered(r, id, i, j) {
      if 0 <= i < j < |r| {
        assert id(r[i]) == id(s[i]) && id(r[j]) == id(s[j]) && KeysOrdered(s, id, i, j);
      }
    }
    forall i ensures KeyBelow(r, id, next, i) {
      if 0 <= i < |r| {
        assert id(r[i]) == id(s[i]) && KeyBelow(s, id, next, i);
      }
    }
  }

  /** Keeping some rows of a table keeps its primary keys increasing. */
  lemma {:induction false} FilterKeepsIdsIncreasing<T(!new)>(s: seq<T>, keep: T -> bool, id: T -> int)
    requires IdsIncreasing(s, id)
    ensures IdsIncreasing(Filter(s, keep), id)
  {
    if s != [] {
      var rest := Filter(s[1..], keep);
      assert IdsIncreasing(s[1..], id) by {
        forall i, j ensures KeysOrdered(s[1..], id, i, j) {
          if 0 <= i < j < |s[1..]| {
            assert s[1..][i] == s[i + 1] && s[1..][j] == s[j + 1];
            assert KeysOrdered(s, id, i + 1, j + 1);
          }
        }
      }
      FilterKeepsIdsIncreasing(s[1..], keep, id);
      if keep(s[0]) {
        var r := [s[0]] + rest;
        forall i, j ensures KeysOrdered(r, id, i, j) {
          if 0 <= i < j < |r| {
            if i == 0 {
              assert r[j] in s[1..];
              var m :| 0 <= m < |s[1..]| && s[1..][m] == r[j];
              assert s[m + 1] == r[j];
              assert KeysOrdered(s, id, 0, m + 1);
            } else {
              assert r[i] == rest[i - 1] && r[j] == rest[j - 1];
              assert KeysOrdered(rest, id, i - 1, j - 1);
            }
          }
        }
      }
    }
  }

  /** Keeping some rows keeps every primary key below the table's counter. */
  lemma FilterKeepsIdsBelow<T(!new)>(s: seq<T>, keep: T -> bool, id: T -> int, next: int)
    requires IdsBelow(s, id, next)
    ensures IdsBelow(Filter(s, keep), id, next)
  {
    var r := Filter(s, keep);
    forall i ensures KeyBelow(r, id, next, i) {
      if 0 <= i < |r| {
        assert r[i] in s;
        var m :| 0 <= m < |s| && s[m] == r[i];
        assert KeyBelow(s, id, next, m);
      }
    }
  }
}
