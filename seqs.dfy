/** Order-preserving filtering and reversal of table rows, the two list
    operations the store's queries and deletes are made of. */
module Seqs {

  /** The rows that satisfy `keep`, in their original order. */
  function Filter<T>(rows: seq<T>, keep: T -> bool): seq<T>
    decreases |rows|
  {
    if rows == [] then []
    else Filter(rows[..|rows| - 1], keep) + (if keep(rows[|rows| - 1]) then [rows[|rows| - 1]] else [])
  }

  function Reversed<T>(s: seq<T>): (r: seq<T>)
    ensures |r| == |s|
    ensures forall i :: 0 <= i < |s| ==> r[i] == s[|s| - 1 - i]
  {
    seq(|s|, i requires 0 <= i < |s| => s[|s| - 1 - i])
  }

  /** Keys projected out of rows. */
  function Keys<T>(rows: seq<T>, key: T -> int): (r: seq<int>)
    ensures |r| == |rows|
    ensures forall i :: 0 <= i < |rows| ==> r[i] == key(rows[i])
  {
    seq(|rows|, i requires 0 <= i < |rows| => key(rows[i]))
  }

  predicate StrictlyAscending(s: seq<int>) {
    forall i, j :: 0 <= i < j < |s| ==> s[i] < s[j]
  }

  predicate StrictlyDescending(s: seq<int>) {
    forall i, j :: 0 <= i < j < |s| ==> s[i] > s[j]
  }

  /** A row survives the filter exactly when it was there and satisfies `keep`. */
  lemma {:induction false} FilterMembership<T>(rows: seq<T>, keep: T -> bool, x: T)
    ensures x in Filter(rows, keep) <==> x in rows && keep(x)
    decreases |rows|
  {
    if rows != [] {
      var init := rows[..|rows| - 1];
      FilterMembership(init, keep, x);
      assert rows == init + [rows[|rows| - 1]];
    }
  }

  /** Filtering keeps the relative order of keys, so it preserves a strictly
      ascending key column; every key of the result is a key of the input. */
  lemma {:induction false} FilterKeepsAscending<T>(rows: seq<T>, keep: T -> bool, key: T -> int)
    requires StrictlyAscending(Keys(rows, key))
    ensures StrictlyAscending(Keys(Filter(rows, keep), key))
    ensures forall y :: y in Filter(rows, keep) ==> y in rows
    decreases |rows|
  {
    if rows != [] {
      var init := rows[..|rows| - 1];
      var last := rows[|rows| - 1];
      assert Keys(init, key) == Keys(rows, key)[..|rows| - 1];
      FilterKeepsAscending(init, keep, key);
      var f := Filter(init, keep);
      if keep(last) {
        forall y | y in f ensures key(y) < key(last) {
          var k :| 0 <= k < |init| && init[k] == y;
          assert Keys(rows, key)[k] < Keys(rows, key)[|rows| - 1];
        }
        var r := f + [last];
        forall i, j | 0 <= i < j < |r| ensures Keys(r, key)[i] < Keys(r, key)[j] {
          if j < |f| {
            assert Keys(f, key)[i] < Keys(f, key)[j];
          } else {
            assert r[i] in f;
          }
        }
      }
    }
  }

  /** Every row goes to exactly one side of a filter and its complement. */
  lemma {:induction false} FilterPartition<T>(rows: seq<T>, keep: T -> bool, drop: T -> bool)
    requires forall x :: keep(x) <==> !drop(x)
    ensures |Filter(rows, keep)| + |Filter(rows, drop)| == |rows|
    decreases |rows|
  {
    if rows != [] {
      FilterPartition(rows[..|rows| - 1], keep, drop);
    }
  }

  /** Reversing an ascending key column gives a descending one, and a prefix
      of a descending column is descending. */
  lemma ReversedPrefixDescending<T>(rows: seq<T>, key: T -> int, n: nat)
    requires StrictlyAscending(Keys(rows, key))
    requires n <= |rows|
    ensures StrictlyDescending(Keys(Reversed(rows)[..n], key))
  {
    var r := Reversed(rows)[..n];
    forall i, j | 0 <= i < j < |r| ensures Keys(r, key)[i] > Keys(r, key)[j] {
      assert r[i] == rows[|rows| - 1 - i] && r[j] == rows[|rows| - 1 - j];
      assert Keys(rows, key)[|rows| - 1 - j] < Keys(rows, key)[|rows| - 1 - i];
    }
  }

  /** The first `n` rows of the reversal of an ascending column are its `n`
      largest: every row left out has a smaller key than every row taken. */
  lemma ReversedPrefixIsLargest<T>(rows: seq<T>, key: T -> int, n: nat, x: T, y: T)
    requires StrictlyAscending(Keys(rows, key))
    requires n <= |rows|
    requires x in rows && x !in Reversed(rows)[..n] && y in Reversed(rows)[..n]
    ensures key(x) < key(y)
  {
    var r := Reversed(rows)[..n];
    var i :| 0 <= i < |rows| && rows[i] == x;
    var j :| 0 <= j < |r| && r[j] == y;
    forall k | |rows| - n <= k < |rows| ensures rows[k] in r {
      assert rows[k] == r[|rows| - 1 - k];
    }
    assert i < |rows| - n;
    assert y == rows[|rows| - 1 - j];
    assert Keys(rows, key)[i] < Keys(rows, key)[|rows| - 1 - j];
  }

  /** Filtering twice by the same test is filtering once. */
  lemma {:induction false} FilterIdempotent<T>(rows: seq<T>, keep: T -> bool)
    ensures Filter(Filter(rows, keep), keep) == Filter(rows, keep)
    decreases |rows|
  {
    if rows != [] {
      var init := rows[..|rows| - 1];
      var last := rows[|rows| - 1];
      FilterIdempotent(init, keep);
      var f := Filter(init, keep);
      if keep(last) {
        var g := f + [last];
        assert g[..|g| - 1] == f;
        assert Filter(g, keep) == Filter(f, keep) + [last];
        assert Filter(rows, keep) == g;
      } else {
        assert Filter(rows, keep) == f;
      }
    }
  }
}
