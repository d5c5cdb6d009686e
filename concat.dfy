/** Lists built block by block, the shape of every nested appending loop in the generator. */
module Blocks {

  /** The concatenation `block(0) + block(1) + ... + block(n - 1)`. */
  function Concat<T>(block: int -> seq<T>, n: nat): seq<T> {
    if n == 0 then [] else Concat(block, n - 1) + block(n - 1)
  }

  /** Every shorter concatenation is a prefix of a longer one. */
  lemma {:induction false} ConcatPrefix<T>(block: int -> seq<T>, i: nat, n: nat)
    requires i <= n
    ensures |Concat(block, i)| <= |Concat(block, n)|
    ensures Concat(block, n)[..|Concat(block, i)|] == Concat(block, i)
    decreases n - i
  {
    if i < n {
      ConcatPrefix(block, i, n - 1);
      var p := Concat(block, n - 1);
      assert Concat(block, n)[..|p|] == p;
    }
  }

  /** Entry `s` of block `i` sits at offset `|Concat(block, i)| + s`. */
  lemma ConcatEntry<T>(block: int -> seq<T>, n: nat, i: nat, s: nat)
    requires i < n && s < |block(i)|
    ensures |Concat(block, i)| + s < |Concat(block, n)|
    ensures Concat(block, n)[|Concat(block, i)| + s] == block(i)[s]
  {
    ConcatPrefix(block, i + 1, n);
    var q := Concat(block, i + 1);
    assert q[|Concat(block, i)| + s] == block(i)[s];
    assert Concat(block, n)[..|q|][|Concat(block, i)| + s] == q[|Concat(block, i)| + s];
  }

  /** Appending a block after a concatenation. */
  lemma AppendAssoc<T>(a: seq<T>, b: seq<T>, c: seq<T>)
    ensures a + b + c == a + (b + c)
  {
  }

  lemma MulSucc(size: nat, n: nat)
    requires n > 0
    ensures size * (n - 1) + size == size * n
  {
  }

  /** With blocks of `size` entries, the first `i` blocks hold `size * i` entries. */
  lemma {:induction false} ConcatLength<T>(block: int -> seq<T>, size: nat, n: nat)
    requires forall i :: 0 <= i < n ==> |block(i)| == size
    ensures |Concat(block, n)| == size * n
  {
    if n > 0 {
      ConcatLength(block, size, n - 1);
      MulSucc(size, n);
    }
  }

  /** With blocks of `size` entries, entry `size * i + s` is entry `s` of block `i`. */
  lemma ConcatAt<T>(block: int -> seq<T>, size: nat, n: nat, i: nat, s: nat)
    requires forall i :: 0 <= i < n ==> |block(i)| == size
    requires i < n && s < size
    ensures |Concat(block, n)| == size * n
    ensures size * i + s < size * n
    ensures Concat(block, n)[size * i + s] == block(i)[s]
  {
    ConcatLength(block, size, n);
    ConcatLength(block, size, i);
    ConcatEntry(block, n, i, s);
  }

  /** The cells of row `i` of a grid as blocks for `Concat`. */
  function Cells<T>(cell: (int, int) -> seq<T>, i: int): int -> seq<T> {
    j => cell(i, j)
  }

  /** Row `i` of a grid: its first `cols` cells one after the other. */
  function Row<T>(cell: (int, int) -> seq<T>, cols: nat, i: int): seq<T> {
    Concat(Cells(cell, i), cols)
  }

  /** The rows of a grid as blocks for `Concat`. */
  function Rows<T>(cell: (int, int) -> seq<T>, cols: nat): int -> seq<T> {
    i => Row(cell, cols, i)
  }

  /** A grid of `rows` by `cols` cells laid out row by row, the shape of a doubly nested
      appending loop. */
  function Grid<T>(cell: (int, int) -> seq<T>, rows: nat, cols: nat): seq<T> {
    Concat(Rows(cell, cols), rows)
  }

  /** With cells of `size` entries, entry `s` of cell `(i, j)` sits at position
      `(size * cols) * i + (size * j + s)`. */
  lemma GridAt<T>(cell: (int, int) -> seq<T>, rows: nat, cols: nat, size: nat, i: nat, j: nat, s: nat)
    requires forall a, b :: 0 <= a < rows && 0 <= b < cols ==> |cell(a, b)| == size
    requires i < rows && j < cols && s < size
    ensures |Row(cell, cols, i)| == size * cols
    ensures |Grid(cell, rows, cols)| == (size * cols) * rows
    ensures (size * cols) * i + (size * j + s) < (size * cols) * rows
    ensures Grid(cell, rows, cols)[(size * cols) * i + (size * j + s)] == cell(i, j)[s]
  {
    forall a | 0 <= a < rows ensures |Rows(cell, cols)(a)| == size * cols {
      assert forall b :: 0 <= b < cols ==> |Cells(cell, a)(b)| == size;
      ConcatLength(Cells(cell, a), size, cols);
    }
    ConcatAt(Cells(cell, i), size, cols, j, s);
    ConcatAt(Rows(cell, cols), size * cols, rows, i, size * j + s);
  }

  /** With cells of `size` entries, a grid of `rows` by `cols` cells has
      `(size * cols) * rows` entries. */
  lemma GridLength<T>(cell: (int, int) -> seq<T>, rows: nat, cols: nat, size: nat)
    requires forall a, b :: 0 <= a < rows && 0 <= b < cols ==> |cell(a, b)| == size
    ensures |Grid(cell, rows, cols)| == (size * cols) * rows
  {
    forall a | 0 <= a < rows ensures |Rows(cell, cols)(a)| == size * cols {
      assert forall b :: 0 <= b < cols ==> |Cells(cell, a)(b)| == size;
      ConcatLength(Cells(cell, a), size, cols);
    }
    ConcatLength(Rows(cell, cols), size * cols, rows);
  }
}
