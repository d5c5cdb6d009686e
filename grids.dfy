/** Values read from the two parallel grids: a row-major copy of a 2-D array and a guarded
    lookup into such a copy. */
module Grids {

  /** `rows` holds n rows of n entries. */
  predicate IsSquare<T>(rows: seq<seq<T>>, n: nat) {
    |rows| == n && forall i :: 0 <= i < n ==> |rows[i]| == n
  }

  /** `rows` is a non-empty grid: at least one row, every row as long as the first, and that
      length positive (`values.length` by `values[0].length`). */
  predicate IsGrid<T>(rows: seq<seq<T>>) {
    && 0 < |rows| && 0 < |rows[0]|
    && forall i :: 0 <= i < |rows| ==> |rows[i]| == |rows[0]|
  }

  /** The contents of `a`, row by row. */
  function Snapshot<T>(a: array2<T>): (rows: seq<seq<T>>)
    reads a
    ensures |rows| == a.Length0
    ensures forall i :: 0 <= i < a.Length0 ==> |rows[i]| == a.Length1
    ensures forall i, j :: 0 <= i < a.Length0 && 0 <= j < a.Length1 ==> rows[i][j] == a[i, j]
  {
    seq(a.Length0, i reads a requires 0 <= i < a.Length0 =>
      seq(a.Length1, j reads a requires 0 <= j < a.Length1 => a[i, j]))
  }

  /** Entry (i, j) of `rows`, or `default` outside it. */
  function Entry<T>(rows: seq<seq<T>>, i: int, j: int, default: T): T {
    if 0 <= i < |rows| && 0 <= j < |rows[i]| then rows[i][j] else default
  }

  /** Two grids with the same shape and the same entries are the same value. */
  lemma SnapshotIs<T>(a: array2<T>, rows: seq<seq<T>>)
    requires IsSquare(rows, a.Length0) && a.Length1 == a.Length0
    requires forall i, j :: 0 <= i < a.Length0 && 0 <= j < a.Length1 ==> a[i, j] == rows[i][j]
    ensures Snapshot(a) == rows
  {
    forall i | 0 <= i < a.Length0
      ensures Snapshot(a)[i] == rows[i]
    {
      assert forall j :: 0 <= j < a.Length1 ==> Snapshot(a)[i][j] == rows[i][j];
    }
  }
}
