/** Height Field Synthesizer: the seeded base height grid and the running height range. */
module HeightField {
  import opened Geometry
  import opened Config
  import opened Numeric
  import opened Grids
  import E = ElementType

  /** The periodic part of a base height at world position (x, z): two sine/cosine octaves in
      the earlier variant, four in the later one. */
  function Wave(v: Variant, m: Analytic, x: real, z: real): real {
    match v
    case V1 =>
      m.sin(x * 0.1) * m.cos(z * 0.1) * 3.0 + m.sin(x * 0.05) * m.cos(z * 0.03) * 2.0
    case V2 =>
      m.sin(x * 0.05) * m.cos(z * 0.05) * 4.0 + m.sin(x * 0.1) * m.cos(z * 0.08) * 2.0
      + m.sin(x * 0.2) * m.cos(z * 0.15) * 1.0 + m.sin(x * 0.4) * m.cos(z * 0.3) * 0.5
  }

  /** The noise added to a base height from one `nextFloat()` draw. */
  function Jitter(v: Variant, draw: real): real {
    match v
    case V1 => draw * 2.0 - 1.0
    case V2 => draw * 1.5 - 0.75
  }

  /** The noise of a draw of `nextFloat()` stays within one unit (0.75 in the later variant). */
  lemma JitterBound(v: Variant, draw: real)
    requires 0.0 <= draw < 1.0
    ensures -1.0 <= Jitter(v, draw) < 1.0
    ensures v == V2 ==> -0.75 <= Jitter(v, draw) < 0.75
  {
  }

  /** The height of cell (i, j) of an n-by-n base grid: wave plus noise, clamped. */
  function BaseHeight(v: Variant, m: Analytic, n: nat, i: int, j: int, draw: real): (h: real)
    requires n > 0
    ensures MinBaseHeight <= h <= MaxHeight
    ensures var raw := Wave(v, m, WorldCoord(i, n), WorldCoord(j, n)) + Jitter(v, draw);
      MinBaseHeight <= raw <= MaxHeight ==> h == raw
  {
    ClampReal(MinBaseHeight, MaxHeight, Wave(v, m, WorldCoord(i, n), WorldCoord(j, n)) + Jitter(v, draw))
  }

  /** `generateBaseHeightMap`: the draws are consumed row by row, `draws[i][j]` for cell (i, j). */
  method GenerateBaseHeightMap(v: Variant, m: Analytic, n: nat, draws: seq<seq<real>>)
    returns (h: array2<real>)
    requires IsSquare(draws, n)
    ensures fresh(h) && h.Length0 == n && h.Length1 == n
    ensures forall i, j :: 0 <= i < n && 0 <= j < n ==> h[i, j] == BaseHeight(v, m, n, i, j, draws[i][j])
  {
    h := new real[n, n];
    for i := 0 to n
      invariant forall a, b :: 0 <= a < i && 0 <= b < n ==> h[a, b] == BaseHeight(v, m, n, a, b, draws[a][b])
    {
      for j := 0 to n
        invariant forall a, b :: 0 <= a < i && 0 <= b < n ==> h[a, b] == BaseHeight(v, m, n, a, b, draws[a][b])
        invariant forall b :: 0 <= b < j ==> h[i, b] == BaseHeight(v, m, n, i, b, draws[i][b])
      {
        h[i, j] := BaseHeight(v, m, n, i, j, draws[i][j]);
      }
    }
  }

  /** The synthesized n x n height grid as values: cell (i, j) is `BaseHeight` of its draw. */
  function BaseHeights(v: Variant, m: Analytic, n: nat, draws: seq<seq<real>>): (rows: seq<seq<real>>)
    requires IsSquare(draws, n)
    ensures IsSquare(rows, n)
  {
    seq(n, i requires 0 <= i < n => seq(n, j requires 0 <= j < n => BaseHeight(v, m, n, i, j, draws[i][j])))
  }

  /** The fresh type grid, every cell Land. */
  method LandGrid(n: nat) returns (t: array2<int>)
    ensures fresh(t) && t.Length0 == n && t.Length1 == n
    ensures forall i, j :: 0 <= i < n && 0 <= j < n ==> t[i, j] == E.Land
  {
    t := new int[n, n];
    for i := 0 to n
      invariant forall a, b :: 0 <= a < i && 0 <= b < n ==> t[a, b] == E.Land
    {
      for j := 0 to n
        invariant forall a, b :: 0 <= a < i && 0 <= b < n ==> t[a, b] == E.Land
        invariant forall b :: 0 <= b < j ==> t[i, b] == E.Land
      {
        t[i, j] := E.Land;
      }
    }
  }

  /** `lo` and `hi` are the running range of `rows` started from 0: they bound 0 and every
      entry, and each is 0 or some entry. */
  ghost predicate IsRange(rows: seq<seq<real>>, lo: real, hi: real) {
    && lo <= 0.0 <= hi
    && (forall i, j :: 0 <= i < |rows| && 0 <= j < |rows[i]| ==> lo <= rows[i][j] <= hi)
    && (lo == 0.0 || exists i, j :: 0 <= i < |rows| && 0 <= j < |rows[i]| && rows[i][j] == lo)
    && (hi == 0.0 || exists i, j :: 0 <= i < |rows| && 0 <= j < |rows[i]| && rows[i][j] == hi)
  }

  /** The running range is determined by the grid: two ranges of the same grid are equal. */
  lemma RangeUnique(rows: seq<seq<real>>, lo1: real, hi1: real, lo2: real, hi2: real)
    requires IsRange(rows, lo1, hi1) && IsRange(rows, lo2, hi2)
    ensures lo1 == lo2 && hi1 == hi2
  {
    if lo1 != 0.0 {
      var i, j :| 0 <= i < |rows| && 0 <= j < |rows[i]| && rows[i][j] == lo1;
      assert lo2 <= rows[i][j];
    }
    if lo2 != 0.0 {
      var i, j :| 0 <= i < |rows| && 0 <= j < |rows[i]| && rows[i][j] == lo2;
      assert lo1 <= rows[i][j];
    }
    if hi1 != 0.0 {
      var i, j :| 0 <= i < |rows| && 0 <= j < |rows[i]| && rows[i][j] == hi1;
      assert rows[i][j] <= hi2;
    }
    if hi2 != 0.0 {
      var i, j :| 0 <= i < |rows| && 0 <= j < |rows[i]| && rows[i][j] == hi2;
      assert rows[i][j] <= hi1;
    }
  }

  /** The running height range: both ends start at 0 and are widened by every cell, so the range
      contains 0 and every cell, and each end is 0 or the height of some cell. */
  method HeightRange(h: array2<real>) returns (lo: real, hi: real)
    ensures IsRange(Snapshot(h), lo, hi)
  {
    lo, hi := 0.0, 0.0;
    for i := 0 to h.Length0
      invariant lo <= 0.0 <= hi
      invariant forall a, b :: 0 <= a < i && 0 <= b < h.Length1 ==> lo <= h[a, b] <= hi
      invariant lo == 0.0 || exists a, b :: 0 <= a < h.Length0 && 0 <= b < h.Length1 && h[a, b] == lo
      invariant hi == 0.0 || exists a, b :: 0 <= a < h.Length0 && 0 <= b < h.Length1 && h[a, b] == hi
    {
      for j := 0 to h.Length1
        invariant lo <= 0.0 <= hi
        invariant forall a, b :: 0 <= a < i && 0 <= b < h.Length1 ==> lo <= h[a, b] <= hi
        invariant forall b :: 0 <= b < j ==> lo <= h[i, b] <= hi
        invariant lo == 0.0 || exists a, b :: 0 <= a < h.Length0 && 0 <= b < h.Length1 && h[a, b] == lo
        invariant hi == 0.0 || exists a, b :: 0 <= a < h.Length0 && 0 <= b < h.Length1 && h[a, b] == hi
      {
        lo := MinReal(lo, h[i, j]);
        hi := MaxReal(hi, h[i, j]);
      }
    }
    ghost var rows := Snapshot(h);
    if lo != 0.0 {
      ghost var a, b :| 0 <= a < h.Length0 && 0 <= b < h.Length1 && h[a, b] == lo;
      assert rows[a][b] == lo;
    }
    if hi != 0.0 {
      ghost var a, b :| 0 <= a < h.Length0 && 0 <= b < h.Length1 && h[a, b] == hi;
      assert rows[a][b] == hi;
    }
  }
}
