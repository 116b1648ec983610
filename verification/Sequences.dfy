/** Shared vocabulary: optional values, sequences without repetition, and row upserts. */
module Sequences {

  datatype Option<+T> = None | Some(value: T)

  predicate Distinct<T(==)>(s: seq<T>) {
    forall i, j | 0 <= i < j < |s| :: s[i] != s[j]
  }

  function Elements<T(==)>(s: seq<T>): set<T> {
    set x | x in s
  }

  /** The elements of `s` that lie in `keep`, in order. */
  function KeepIn<T(==,!new)>(s: seq<T>, keep: set<T>): (kept: seq<T>)
    ensures forall x :: x in kept <==> x in s && x in keep
    ensures |kept| <= |s|
  {
    if s == [] then []
    else
      var rest := KeepIn(s[..|s| - 1], keep);
      var last := s[|s| - 1];
      assert s == s[..|s| - 1] + [last];
      if last in keep then rest + [last] else rest
  }

  lemma {:induction false} KeepInDistinct<T(!new)>(s: seq<T>, keep: set<T>)
    requires Distinct(s)
    ensures Distinct(KeepIn(s, keep))
  {
    if s != [] {
      KeepInDistinct(s[..|s| - 1], keep);
    }
  }

  /** A sequence has at most as many elements as positions, and equally many only without repetition. */
  lemma {:induction false} ElementsBound<T>(s: seq<T>)
    ensures |Elements(s)| <= |s|
    ensures |Elements(s)| == |s| <==> Distinct(s)
  {
    if s != [] {
      var front, last := s[..|s| - 1], s[|s| - 1];
      ElementsBound(front);
      assert s == front + [last];
      assert Elements(s) == Elements(front) + {last};
      if last in front {
        assert Elements(s) == Elements(front);
        assert !Distinct(s);
      }
    }
  }

  lemma SubsetSize<T>(small: set<T>, large: set<T>)
    requires small <= large
    ensures |small| <= |large|
    ensures |small| == |large| ==> small == large
  {
    assert large == small + (large - small);
  }

  /** INSERT OR REPLACE, row by row. */
  function Upserts<K(==), V>(table: map<K, V>, rows: seq<(K, V)>): map<K, V> {
    if rows == [] then table
    else Upserts(table, rows[..|rows| - 1])[rows[|rows| - 1].0 := rows[|rows| - 1].1]
  }

  ghost predicate DistinctKeys<K, V>(rows: seq<(K, V)>) {
    forall i, j | 0 <= i < j < |rows| :: rows[i].0 != rows[j].0
  }

  lemma {:induction false} UpsertsKeys<K(!new), V>(table: map<K, V>, rows: seq<(K, V)>)
    ensures forall k :: k in Upserts(table, rows) <==> k in table || exists i :: 0 <= i < |rows| && rows[i].0 == k
    ensures forall k | k in table && (forall i | 0 <= i < |rows| :: rows[i].0 != k) :: Upserts(table, rows)[k] == table[k]
  {
    if rows != [] {
      var front, last := rows[..|rows| - 1], rows[|rows| - 1];
      UpsertsKeys(table, front);
      forall k
        ensures k in Upserts(table, rows) <==> k in table || exists i :: 0 <= i < |rows| && rows[i].0 == k
      {
        if i :| 0 <= i < |rows| && rows[i].0 == k {
          if i < |front| { assert front[i].0 == k; }
        }
        if i :| 0 <= i < |front| && front[i].0 == k {
          assert rows[i].0 == k;
        }
        if k == last.0 { assert rows[|rows| - 1].0 == k; }
      }
    }
  }

  lemma {:induction false} UpsertsValue<K, V>(table: map<K, V>, rows: seq<(K, V)>, i: nat)
    requires DistinctKeys(rows) && i < |rows|
    ensures rows[i].0 in Upserts(table, rows) && Upserts(table, rows)[rows[i].0] == rows[i].1
  {
    if i < |rows| - 1 {
      UpsertsValue(table, rows[..|rows| - 1], i);
    }
  }
}
