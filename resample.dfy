/** Resampling: the optional upsampling of the base grids to the final grid, bilinear for
    heights and nearest-neighbour for types. */
module Resample {
  import opened Config
  import opened Numeric
  import opened Grids

  /** `bilinearInterpolate(values, x, z)`: the corner indices are `floor` and `floor + 1`, each
      clamped to the grid (`values.length` rows of `values[0].length` entries); the weights are
      measured from the clamped lower corner. */
  function Bilinear(values: seq<seq<real>>, x: real, z: real): real
    requires IsGrid(values)
  {
    var x1 := ClampInt(0, |values| - 1, Floor(x));
    var x2 := ClampInt(0, |values| - 1, Floor(x) + 1);
    var z1 := ClampInt(0, |values[0]| - 1, Floor(z));
    var z2 := ClampInt(0, |values[0]| - 1, Floor(z) + 1);
    var dx := x - x1 as real;
    var dz := z - z1 as real;
    var top := values[x1][z1] * (1.0 - dx) + values[x2][z1] * dx;
    var bottom := values[x1][z2] * (1.0 - dx) + values[x2][z2] * dx;
    top * (1.0 - dz) + bottom * dz
  }

  /** At integer coordinates inside the grid the interpolation returns the grid value itself. */
  lemma BilinearAtGridPoint(values: seq<seq<real>>, i: int, k: int)
    requires IsGrid(values) && 0 <= i < |values| && 0 <= k < |values[0]|
    ensures Bilinear(values, i as real, k as real) == values[i][k]
  {
    assert Floor(i as real) == i;
    assert Floor(k as real) == k;
  }

  /** A convex combination of two values in `[lo, hi]` stays in `[lo, hi]`. */
  lemma Lerp(p: real, q: real, t: real, lo: real, hi: real)
    requires 0.0 <= t <= 1.0 && lo <= p <= hi && lo <= q <= hi
    ensures lo <= p * (1.0 - t) + q * t <= hi
  {
    var s := 1.0 - t;
    MulNonneg(p - lo, s);
    MulNonneg(q - lo, t);
    MulNonneg(hi - p, s);
    MulNonneg(hi - q, t);
    assert p * (1.0 - t) + q * t - lo == (p - lo) * s + (q - lo) * t;
    assert hi - (p * (1.0 - t) + q * t) == (hi - p) * s + (hi - q) * t;
  }

  /** Two nested convex combinations of four values in `[lo, hi]` stay in `[lo, hi]`. */
  lemma Bilerp(p: real, q: real, r: real, w: real, dx: real, dz: real, lo: real, hi: real)
    requires 0.0 <= dx <= 1.0 && 0.0 <= dz <= 1.0
    requires lo <= p <= hi && lo <= q <= hi && lo <= r <= hi && lo <= w <= hi
    ensures lo <= (p * (1.0 - dx) + q * dx) * (1.0 - dz) + (r * (1.0 - dx) + w * dx) * dz <= hi
  {
    Lerp(p, q, dx, lo, hi);
    Lerp(r, w, dx, lo, hi);
    Lerp(p * (1.0 - dx) + q * dx, r * (1.0 - dx) + w * dx, dz, lo, hi);
  }

  /** Inside the grid's coordinate range the interpolation never leaves the range of the grid
      values. */
  lemma BilinearWithinRange(values: seq<seq<real>>, x: real, z: real, lo: real, hi: real)
    requires IsGrid(values)
    requires 0.0 <= x <= (|values| - 1) as real && 0.0 <= z <= (|values[0]| - 1) as real
    requires forall a, b :: 0 <= a < |values| && 0 <= b < |values[a]| ==> lo <= values[a][b] <= hi
    ensures lo <= Bilinear(values, x, z) <= hi
  {
    var x1 := ClampInt(0, |values| - 1, Floor(x));
    var x2 := ClampInt(0, |values| - 1, Floor(x) + 1);
    var z1 := ClampInt(0, |values[0]| - 1, Floor(z));
    var z2 := ClampInt(0, |values[0]| - 1, Floor(z) + 1);
    assert x1 == Floor(x) && z1 == Floor(z);
    assert |values[x1]| == |values[x2]| == |values[0]|;
    Bilerp(values[x1][z1], values[x2][z1], values[x1][z2], values[x2][z2],
           x - x1 as real, z - z1 as real, lo, hi);
  }

  /** The base-grid coordinate sampled for final index `i`: `i / FINAL * (BASE - 1)`. */
  function BaseCoord(i: int): real {
    (i as real) / (FinalGridSize as real) * ((BaseGridSize - 1) as real)
  }

  /** Every final index samples inside the base grid, strictly below its last row. */
  lemma BaseCoordInRange(i: int)
    requires 0 <= i < FinalGridSize
    ensures 0.0 <= BaseCoord(i) < (BaseGridSize - 1) as real
  {
  }

  /** The height noise added after interpolation, from one `nextFloat()` draw. */
  function FineJitter(draw: real): real { draw * 0.1 - 0.05 }

  /** The final height grid `interpolateHeightMap` builds from the base rows: the bilinear
      sample at (`BaseCoord(i)`, `BaseCoord(j)`) plus the noise of draw `draws[i][j]`. */
  function ResampledHeights(base: seq<seq<real>>, draws: seq<seq<real>>): (rows: seq<seq<real>>)
    requires IsGrid(base) && IsSquare(draws, FinalGridSize)
    ensures IsSquare(rows, FinalGridSize)
  {
    seq(FinalGridSize, i requires 0 <= i < FinalGridSize =>
      seq(FinalGridSize, j requires 0 <= j < FinalGridSize =>
        Bilinear(base, BaseCoord(i), BaseCoord(j)) + FineJitter(draws[i][j])))
  }

  /** `interpolateHeightMap`: the draws are consumed row by row, `draws[i][j]` for cell (i, j). */
  method InterpolateHeightMap(base: array2<real>, draws: seq<seq<real>>) returns (h: array2<real>)
    requires 0 < base.Length0 && 0 < base.Length1 && IsSquare(draws, FinalGridSize)
    ensures fresh(h) && h.Length0 == FinalGridSize && h.Length1 == FinalGridSize
    ensures forall i, j :: 0 <= i < FinalGridSize && 0 <= j < FinalGridSize ==>
      h[i, j] == ResampledHeights(Snapshot(base), draws)[i][j]
  {
    var rows := Snapshot(base);
    ghost var spec := ResampledHeights(rows, draws);
    h := new real[FinalGridSize, FinalGridSize];
    for i := 0 to FinalGridSize
      invariant forall a, b :: 0 <= a < i && 0 <= b < FinalGridSize ==> h[a, b] == spec[a][b]
    {
      for j := 0 to FinalGridSize
        invariant forall a, b :: 0 <= a < i && 0 <= b < FinalGridSize ==> h[a, b] == spec[a][b]
        invariant forall b :: 0 <= b < j ==> h[i, b] == spec[i][b]
      {
        h[i, j] := Bilinear(rows, BaseCoord(i), BaseCoord(j)) + FineJitter(draws[i][j]);
        assert h[i, j] == spec[i][j];
      }
    }
  }

  /** An upsampled height lies within 0.05 of the range of the base heights. */
  lemma ResampledHeightBounds(base: seq<seq<real>>, i: int, j: int, draw: real, lo: real, hi: real)
    requires IsSquare(base, BaseGridSize)
    requires 0 <= i < FinalGridSize && 0 <= j < FinalGridSize && 0.0 <= draw < 1.0
    requires forall a, b :: 0 <= a < |base| && 0 <= b < |base[a]| ==> lo <= base[a][b] <= hi
    ensures lo - 0.05 <= Bilinear(base, BaseCoord(i), BaseCoord(j)) + FineJitter(draw) < hi + 0.05
  {
    BaseCoordInRange(i);
    BaseCoordInRange(j);
    BilinearWithinRange(base, BaseCoord(i), BaseCoord(j), lo, hi);
  }

  /** The base index chosen for final index `i`: `Math.round(BaseCoord(i))` clamped to the base
      grid. */
  function NearestIndex(i: int): (k: int)
    ensures 0 <= k < BaseGridSize
  {
    ClampInt(0, BaseGridSize - 1, Round(BaseCoord(i)))
  }

  /** On the final grid the clamp never bites: the chosen index is the rounded coordinate and
      lies within half a cell of it. */
  lemma NearestIndexIsNearest(i: int)
    requires 0 <= i < FinalGridSize
    ensures NearestIndex(i) == Round(BaseCoord(i))
    ensures BaseCoord(i) - 0.5 < NearestIndex(i) as real <= BaseCoord(i) + 0.5
  {
    BaseCoordInRange(i);
  }

  /** The final type grid `interpolateTypeMap` builds from the base rows: cell (i, j) copies
      base cell (`NearestIndex(i)`, `NearestIndex(j)`). */
  function ResampledCodes(base: seq<seq<int>>): (rows: seq<seq<int>>)
    requires IsSquare(base, BaseGridSize)
    ensures IsSquare(rows, FinalGridSize)
  {
    seq(FinalGridSize, i requires 0 <= i < FinalGridSize =>
      seq(FinalGridSize, j requires 0 <= j < FinalGridSize => base[NearestIndex(i)][NearestIndex(j)]))
  }

  /** Code `c` occurs somewhere in grid `g`. */
  ghost predicate Occurs(g: array2<int>, c: int)
    reads g
  {
    exists a, b :: 0 <= a < g.Length0 && 0 <= b < g.Length1 && g[a, b] == c
  }

  /** `interpolateTypeMap`: cell (i, j) of the final grid copies base cell
      (`NearestIndex(i)`, `NearestIndex(j)`), so every final code occurs in the base grid. */
  method InterpolateTypeMap(base: array2<int>) returns (t: array2<int>)
    requires BaseGridSize <= base.Length0 && BaseGridSize <= base.Length1
    ensures fresh(t) && t.Length0 == FinalGridSize && t.Length1 == FinalGridSize
    ensures forall i, j :: 0 <= i < FinalGridSize && 0 <= j < FinalGridSize ==>
      t[i, j] == base[NearestIndex(i), NearestIndex(j)]
    ensures forall i, j :: 0 <= i < FinalGridSize && 0 <= j < FinalGridSize ==> Occurs(base, t[i, j])
  {
    t := new int[FinalGridSize, FinalGridSize];
    for i := 0 to FinalGridSize
      invariant forall a, b :: 0 <= a < i && 0 <= b < FinalGridSize ==>
        t[a, b] == base[NearestIndex(a), NearestIndex(b)]
    {
      for j := 0 to FinalGridSize
        invariant forall a, b :: 0 <= a < i && 0 <= b < FinalGridSize ==>
          t[a, b] == base[NearestIndex(a), NearestIndex(b)]
        invariant forall b :: 0 <= b < j ==> t[i, b] == base[NearestIndex(i), NearestIndex(b)]
      {
        t[i, j] := base[NearestIndex(i), NearestIndex(j)];
      }
    }
    forall i, j | 0 <= i < FinalGridSize && 0 <= j < FinalGridSize
      ensures Occurs(base, t[i, j])
    {
      var a, b := NearestIndex(i), NearestIndex(j);
      assert base[a, b] == t[i, j];
    }
  }
}
