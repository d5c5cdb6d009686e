/** Feature Overlay: the four stamps that rewrite the height and type grids in place. */
module Overlay {
  import opened Geometry
  import opened Config
  import opened Numeric
  import E = ElementType

  function Abs(x: int): nat { if x < 0 then -x else x }

  // ---------------------------------------------------------------- road

  /** The band a road stamp covers: the half-open ranges
      `[cx - length/2, cx + length/2)` and `[cz - width/2, cz + width/2)` with Java division. */
  predicate InRoad(i: int, j: int, cx: int, cz: int, length: int, width: int) {
    && cx - TruncDiv(length, 2) <= i < cx + TruncDiv(length, 2)
    && cz - TruncDiv(width, 2) <= j < cz + TruncDiv(width, 2)
  }

  /** The height a road is levelled to: half the height span, `(maxHeight - minHeight) / 2`. */
  function RoadLevel(lo: real, hi: real): real { (hi - lo) / 2.0 }

  /** `addRoad`: every in-bounds cell of the band becomes Road at `RoadLevel`; every other cell
      keeps its height and code. */
  method AddRoad(h: array2<real>, t: array2<int>, cx: int, cz: int, length: int, width: int, lo: real, hi: real)
    requires t.Length0 == h.Length0 && t.Length1 == h.Length1
    modifies h, t
    ensures forall i, j :: 0 <= i < h.Length0 && 0 <= j < h.Length1 ==>
      if InRoad(i, j, cx, cz, length, width) then h[i, j] == RoadLevel(lo, hi) && t[i, j] == E.Road
      else h[i, j] == old(h[i, j]) && t[i, j] == old(t[i, j])
  {
    var halfWidth := TruncDiv(width, 2);
    var i := cx - TruncDiv(length, 2);
    while i < cx + TruncDiv(length, 2)
      invariant forall a, b :: 0 <= a < h.Length0 && 0 <= b < h.Length1 ==>
        if InRoad(a, b, cx, cz, length, width) && a < i then h[a, b] == RoadLevel(lo, hi) && t[a, b] == E.Road
        else h[a, b] == old(h[a, b]) && t[a, b] == old(t[a, b])
      decreases cx + TruncDiv(length, 2) - i
    {
      var j := cz - halfWidth;
      while j < cz + halfWidth
        invariant forall a, b :: 0 <= a < h.Length0 && 0 <= b < h.Length1 ==>
          if InRoad(a, b, cx, cz, length, width) && (a < i || (a == i && b < j))
          then h[a, b] == RoadLevel(lo, hi) && t[a, b] == E.Road
          else h[a, b] == old(h[a, b]) && t[a, b] == old(t[a, b])
        decreases cz + halfWidth - j
      {
        if 0 <= i < h.Length0 && 0 <= j < h.Length1 {
          h[i, j] := RoadLevel(lo, hi);
          t[i, j] := E.Road;
        }
        j := j + 1;
      }
      i := i + 1;
    }
  }

  /** The road level is not the midpoint of the range: it is the midpoint shifted down by `lo`,
      and it exceeds the top of the range whenever `|lo| > hi`. */
  lemma RoadLevelIsHalfSpan(lo: real, hi: real)
    requires lo <= 0.0 <= hi
    ensures RoadLevel(lo, hi) == (lo + hi) / 2.0 - lo
    ensures 0.0 <= RoadLevel(lo, hi)
    ensures lo <= RoadLevel(lo, hi)
    ensures RoadLevel(lo, hi) <= hi <==> -lo <= hi
  {
  }

  // ---------------------------------------------------------------- water pool

  /** The cells a disc stamp of radius `r` around (cx, cz) writes: inside the bounding square
      and passing the square-root distance test. */
  predicate InDisc(m: Analytic, i: int, j: int, cx: int, cz: int, r: int) {
    && cx - r <= i <= cx + r && cz - r <= j <= cz + r
    && WithinRadius(m, i - cx, j - cz, r)
  }

  /** `maxRange = lineDistance(radius, radius)`, the distance to the corner of the square. */
  function MaxRange(m: Analytic, r: int): real { LineDistance(m, r as real, r as real) }

  /** `rate = currRange / max(currRange, maxRange)` for the cell offset by (di, dj) from the
      centre; defined when `maxRange` is positive (a zero radius makes it `0/0`). */
  function WaterRate(m: Analytic, di: int, dj: int, r: int): real
    requires MaxRange(m, r) > 0.0
  {
    var curr := LineDistance(m, Abs(di) as real, Abs(dj) as real);
    curr / MaxReal(curr, MaxRange(m, r))
  }

  /** The water height for a rate: the later variant sinks the centre by 1.5 below `lo`,
      the earlier one sinks the rim. */
  function WaterLevel(v: Variant, rate: real, lo: real): real {
    match v
    case V1 => lo - rate * 1.5
    case V2 => lo - (1.0 - rate) * 1.5
  }

  /** The height written to cell (i, j) by a water stamp. */
  function PoolHeight(v: Variant, m: Analytic, i: int, j: int, cx: int, cz: int, r: int, lo: real): real
    requires MaxRange(m, r) > 0.0
  {
    WaterLevel(v, WaterRate(m, cx - i, cz - j, r), lo)
  }

  /** `addWaterPool`: every in-bounds cell of the disc becomes WaterPool at its `PoolHeight`;
      every other cell is unchanged. */
  method AddWaterPool(v: Variant, m: Analytic, h: array2<real>, t: array2<int>, cx: int, cz: int, r: int, lo: real)
    requires t.Length0 == h.Length0 && t.Length1 == h.Length1
    requires MaxRange(m, r) > 0.0
    modifies h, t
    ensures forall i, j :: 0 <= i < h.Length0 && 0 <= j < h.Length1 ==>
      if InDisc(m, i, j, cx, cz, r) then h[i, j] == PoolHeight(v, m, i, j, cx, cz, r, lo) && t[i, j] == E.WaterPool
      else h[i, j] == old(h[i, j]) && t[i, j] == old(t[i, j])
  {
    var i := cx - r;
    while i <= cx + r
      invariant forall a, b :: 0 <= a < h.Length0 && 0 <= b < h.Length1 ==>
        if InDisc(m, a, b, cx, cz, r) && a < i
        then h[a, b] == PoolHeight(v, m, a, b, cx, cz, r, lo) && t[a, b] == E.WaterPool
        else h[a, b] == old(h[a, b]) && t[a, b] == old(t[a, b])
      decreases cx + r - i
    {
      var j := cz - r;
      while j <= cz + r
        invariant forall a, b :: 0 <= a < h.Length0 && 0 <= b < h.Length1 ==>
          if InDisc(m, a, b, cx, cz, r) && (a < i || (a == i && b < j))
          then h[a, b] == PoolHeight(v, m, a, b, cx, cz, r, lo) && t[a, b] == E.WaterPool
          else h[a, b] == old(h[a, b]) && t[a, b] == old(t[a, b])
        decreases cz + r - j
      {
        if 0 <= i < h.Length0 && 0 <= j < h.Length1 {
          if WithinRadius(m, i - cx, j - cz, r) {
            h[i, j] := PoolHeight(v, m, i, j, cx, cz, r, lo);
            t[i, j] := E.WaterPool;
          }
        }
        j := j + 1;
      }
      i := i + 1;
    }
  }

  /** With an exact square root, `maxRange` is positive exactly when the radius is not 0. */
  lemma MaxRangePositive(m: Analytic, r: int)
    requires IsSquareRoot(m.sqrt)
    ensures MaxRange(m, r) > 0.0 <==> r != 0
  {
    var x := r as real;
    var x2 := x * x;
    var s := x2 + x2;
    if r != 0 {
      assert x2 > 0.0 by { if x > 0.0 { SquareStrict(0.0, x); } else { SquareStrict(0.0, -x); } }
      assert m.sqrt(0.0) < m.sqrt(s);
    }
  }

  /** The offset `|d|` read as a real squares to the integer square. */
  lemma AbsSquare(d: int)
    ensures (Abs(d) as real) * (Abs(d) as real) == (d * d) as real
  {
  }

  /** An exact square root is monotone. */
  lemma RootMonotone(sqrt: real -> real, x: real, y: real)
    requires IsSquareRoot(sqrt) && 0.0 <= x <= y
    ensures 0.0 <= sqrt(x) <= sqrt(y)
  {
    if x < y { assert sqrt(x) < sqrt(y); }
  }

  /** A point at squared distance at most `r^2` (r > 0) is nearer than the square's corner. */
  lemma InsideBeforeCorner(sqrt: real -> real, d2: real, rr: real)
    requires IsSquareRoot(sqrt) && 0.0 <= d2 && 0.0 < rr
    requires d2 <= rr * rr
    ensures sqrt(d2) < sqrt(rr * rr + rr * rr)
  {
    var r2 := rr * rr;
    assert r2 > 0.0 by { SquareStrict(0.0, rr); }
    RootMonotone(sqrt, d2, r2);
    assert sqrt(r2) < sqrt(r2 + r2);
  }

  /** The root of `a^2 + b^2` (a, b >= 0) vanishes only at the origin. */
  lemma RootOfSumVanishes(sqrt: real -> real, a: real, b: real)
    requires IsSquareRoot(sqrt) && 0.0 <= a && 0.0 <= b
    ensures 0.0 <= a * a + b * b
    ensures sqrt(a * a + b * b) == 0.0 <==> a == 0.0 && b == 0.0
  {
    var aa, bb := a * a, b * b;
    MulNonneg(a, a);
    MulNonneg(b, b);
    if a > 0.0 {
      SquareStrict(0.0, a);
      assert sqrt(0.0) < sqrt(aa + bb);
    } else if b > 0.0 {
      SquareStrict(0.0, b);
      assert sqrt(0.0) < sqrt(aa + bb);
    } else {
      assert aa + bb == 0.0;
    }
  }

  /** The disc test in squared form on the offsets `|di|`, `|dj|` read as reals. */
  lemma InsideDiscSquares(m: Analytic, di: int, dj: int, r: int)
    requires IsSquareRoot(m.sqrt) && r != 0
    requires WithinRadius(m, -di, -dj, r)
    ensures 0 < r
    ensures (Abs(di) as real) * (Abs(di) as real) + (Abs(dj) as real) * (Abs(dj) as real) <= (r as real) * (r as real)
  {
    WithinRadiusExact(m, -di, -dj, r);
    AbsSquare(di);
    AbsSquare(dj);
    assert (-di) * (-di) + (-dj) * (-dj) == di * di + dj * dj;
    var rr := r as real;
    assert (r * r) as real == rr * rr;
  }

  /** Inside the disc `currRange` is below `maxRange`. */
  lemma CurrBelowMaxRange(m: Analytic, di: int, dj: int, r: int)
    requires IsSquareRoot(m.sqrt) && r != 0
    requires WithinRadius(m, -di, -dj, r)
    ensures LineDistance(m, Abs(di) as real, Abs(dj) as real) < MaxRange(m, r)
  {
    var a, b := Abs(di) as real, Abs(dj) as real;
    InsideDiscSquares(m, di, dj, r);
    InsideBeforeCorner(m.sqrt, a * a + b * b, r as real);
  }

  /** `currRange` is non-negative and vanishes exactly at the centre. */
  lemma CurrVanishesAtCentre(m: Analytic, di: int, dj: int)
    requires IsSquareRoot(m.sqrt)
    ensures var curr := LineDistance(m, Abs(di) as real, Abs(dj) as real);
      0.0 <= curr && (curr == 0.0 <==> di == 0 && dj == 0)
  {
    RootOfSumVanishes(m.sqrt, Abs(di) as real, Abs(dj) as real);
  }

  lemma RatioFacts(curr: real, maxR: real)
    requires 0.0 <= curr < maxR
    ensures 0.0 <= curr / MaxReal(curr, maxR) < 1.0
    ensures curr / MaxReal(curr, maxR) == curr / maxR
    ensures curr / MaxReal(curr, maxR) == 0.0 <==> curr == 0.0
  {
    var q := curr / maxR;
    assert q * maxR == curr;
    if q >= 1.0 {
      MulNonneg(q - 1.0, maxR);
      assert (q - 1.0) * maxR == curr - maxR;
    }
  }

  /** Inside the disc `currRange <= radius < maxRange`, so the rate is `currRange / maxRange`,
      lies in `[0, 1)`, and is 0 exactly at the centre. */
  lemma WaterRateFacts(m: Analytic, di: int, dj: int, r: int)
    requires IsSquareRoot(m.sqrt) && r != 0
    requires WithinRadius(m, -di, -dj, r)
    ensures MaxRange(m, r) > 0.0
    ensures 0.0 <= WaterRate(m, di, dj, r) < 1.0
    ensures WaterRate(m, di, dj, r) == LineDistance(m, Abs(di) as real, Abs(dj) as real) / MaxRange(m, r)
    ensures WaterRate(m, di, dj, r) == 0.0 <==> di == 0 && dj == 0
  {
    CurrBelowMaxRange(m, di, dj, r);
    CurrVanishesAtCentre(m, di, dj);
    RatioFacts(LineDistance(m, Abs(di) as real, Abs(dj) as real), MaxRange(m, r));
  }

  /** The water height of the later variant lies in `[lo - 1.5, lo)` and is `lo - 1.5` at the
      centre; the earlier variant's lies in `(lo - 1.5, lo]` and is `lo` at the centre. */
  lemma PoolHeightBounds(v: Variant, m: Analytic, i: int, j: int, cx: int, cz: int, r: int, lo: real)
    requires IsSquareRoot(m.sqrt) && r != 0
    requires WithinRadius(m, i - cx, j - cz, r)
    ensures MaxRange(m, r) > 0.0
    ensures lo - 1.5 <= PoolHeight(v, m, i, j, cx, cz, r, lo) <= lo
    ensures v == V2 ==> PoolHeight(v, m, i, j, cx, cz, r, lo) < lo
    ensures v == V1 ==> lo - 1.5 < PoolHeight(v, m, i, j, cx, cz, r, lo)
    ensures i == cx && j == cz ==> PoolHeight(v, m, i, j, cx, cz, r, lo) == if v == V2 then lo - 1.5 else lo
  {
    assert -(cx - i) == i - cx && -(cz - j) == j - cz;
    WaterRateFacts(m, cx - i, cz - j, r);
  }

  /** Of two cells in the disc, the one nearer the centre is at least as deep in the later
      variant and at most as deep in the earlier one. */
  lemma PoolDepthOrder(m: Analytic, di1: int, dj1: int, di2: int, dj2: int, r: int, lo: real)
    requires IsSquareRoot(m.sqrt) && r != 0
    requires WithinRadius(m, -di1, -dj1, r) && WithinRadius(m, -di2, -dj2, r)
    requires di1 * di1 + dj1 * dj1 <= di2 * di2 + dj2 * dj2
    ensures MaxRange(m, r) > 0.0
    ensures WaterLevel(V2, WaterRate(m, di1, dj1, r), lo) <= WaterLevel(V2, WaterRate(m, di2, dj2, r), lo)
    ensures WaterLevel(V1, WaterRate(m, di1, dj1, r), lo) >= WaterLevel(V1, WaterRate(m, di2, dj2, r), lo)
  {
    WaterRateFacts(m, di1, dj1, r);
    WaterRateFacts(m, di2, dj2, r);
    CurrMonotone(m, di1, dj1, di2, dj2);
    DivMonotone(LineDistance(m, Abs(di1) as real, Abs(dj1) as real),
                LineDistance(m, Abs(di2) as real, Abs(dj2) as real), MaxRange(m, r));
  }

  /** `currRange` grows with the squared offset. */
  lemma CurrMonotone(m: Analytic, di1: int, dj1: int, di2: int, dj2: int)
    requires IsSquareRoot(m.sqrt)
    requires di1 * di1 + dj1 * dj1 <= di2 * di2 + dj2 * dj2
    ensures LineDistance(m, Abs(di1) as real, Abs(dj1) as real) <= LineDistance(m, Abs(di2) as real, Abs(dj2) as real)
  {
    AbsSquare(di1); AbsSquare(dj1); AbsSquare(di2); AbsSquare(dj2);
    var a1, b1, a2, b2 := Abs(di1) as real, Abs(dj1) as real, Abs(di2) as real, Abs(dj2) as real;
    MulNonneg(a1, a1);
    MulNonneg(b1, b1);
    RootMonotone(m.sqrt, a1 * a1 + b1 * b1, a2 * a2 + b2 * b2);
  }

  lemma DivMonotone(x: real, y: real, k: real)
    requires x <= y && 0.0 < k
    ensures x / k <= y / k
  {
  }

  // ---------------------------------------------------------------- lawn

  /** The code a lawn stamp leaves in a cell: Land inside the disc turns into Lawn, everything
      else keeps its code. */
  function LawnCode(inside: bool, code: int): int {
    if inside && code == E.Land then E.Lawn else code
  }

  /** `addLawn`: heights are not touched; only Land cells inside the disc become Lawn. */
  method AddLawn(m: Analytic, h: array2<real>, t: array2<int>, cx: int, cz: int, r: int)
    requires t.Length0 == h.Length0 && t.Length1 == h.Length1
    modifies t
    ensures forall i, j :: 0 <= i < t.Length0 && 0 <= j < t.Length1 ==>
      t[i, j] == LawnCode(InDisc(m, i, j, cx, cz, r), old(t[i, j]))
  {
    var i := cx - r;
    while i <= cx + r
      invariant forall a, b :: 0 <= a < t.Length0 && 0 <= b < t.Length1 ==>
        t[a, b] == LawnCode(InDisc(m, a, b, cx, cz, r) && a < i, old(t[a, b]))
      decreases cx + r - i
    {
      var j := cz - r;
      while j <= cz + r
        invariant forall a, b :: 0 <= a < t.Length0 && 0 <= b < t.Length1 ==>
          t[a, b] == LawnCode(InDisc(m, a, b, cx, cz, r) && (a < i || (a == i && b < j)), old(t[a, b]))
        decreases cz + r - j
      {
        if 0 <= i < h.Length0 && 0 <= j < h.Length1 {
          if WithinRadius(m, i - cx, j - cz, r) && t[i, j] == E.Land {
            t[i, j] := E.Lawn;
          }
        }
        j := j + 1;
      }
      i := i + 1;
    }
  }

  /** Lawn has the lowest precedence: a cell that is not Land keeps its code, a Land cell
      becomes Lawn exactly when it is inside, and a second stamp changes nothing. */
  lemma LawnPrecedence(inside: bool, code: int)
    ensures code != E.Land ==> LawnCode(inside, code) == code
    ensures LawnCode(inside, code) == E.Lawn <==> (inside && code == E.Land) || code == E.Lawn
    ensures LawnCode(inside, LawnCode(inside, code)) == LawnCode(inside, code)
  {
  }

  // ---------------------------------------------------------------- building pad

  /** The footprint of a building stamp, `[sx, sx + w) x [sz, sz + d)`. */
  predicate InPad(i: int, j: int, sx: int, sz: int, w: int, d: int) {
    sx <= i < sx + w && sz <= j < sz + d
  }

  /** The raised centre of the later variant's stepped pad (`isTop`). */
  predicate IsTop(i: int, j: int, sx: int, sz: int, w: int, d: int) {
    && sx + TruncDiv(w, 4) < i <= sx + TruncDiv(w, 4) * 3
    && sz + TruncDiv(d, 4) < j <= sz + TruncDiv(d, 4) * 3
  }

  /** The height written to a pad cell: stepped (centre 2 units higher) in the later variant,
      flat in the earlier one. */
  function PadHeight(v: Variant, i: int, j: int, sx: int, sz: int, w: int, d: int, height: real): real {
    match v
    case V1 => height
    case V2 => if IsTop(i, j, sx, sz, w, d) then height + 2.0 else height
  }

  /** `addBuilding`: every cell of the footprint, clipped at the upper grid bound, becomes
      Building at its `PadHeight`; every other cell is unchanged. The loops start at the
      footprint corner, so the corner must not be negative. */
  method AddBuilding(v: Variant, h: array2<real>, t: array2<int>, sx: int, sz: int, w: int, d: int, height: real)
    requires t.Length0 == h.Length0 && t.Length1 == h.Length1
    requires 0 <= sx && 0 <= sz
    modifies h, t
    ensures forall i, j :: 0 <= i < h.Length0 && 0 <= j < h.Length1 ==>
      if InPad(i, j, sx, sz, w, d) then h[i, j] == PadHeight(v, i, j, sx, sz, w, d, height) && t[i, j] == E.Building
      else h[i, j] == old(h[i, j]) && t[i, j] == old(t[i, j])
  {
    var i := sx;
    while i < sx + w && i < h.Length0
      invariant sx <= i
      invariant forall a, b :: 0 <= a < h.Length0 && 0 <= b < h.Length1 ==>
        if InPad(a, b, sx, sz, w, d) && a < i
        then h[a, b] == PadHeight(v, a, b, sx, sz, w, d, height) && t[a, b] == E.Building
        else h[a, b] == old(h[a, b]) && t[a, b] == old(t[a, b])
      decreases h.Length0 - i
    {
      var j := sz;
      while j < sz + d && j < h.Length1
        invariant sz <= j
        invariant forall a, b :: 0 <= a < h.Length0 && 0 <= b < h.Length1 ==>
          if InPad(a, b, sx, sz, w, d) && (a < i || (a == i && b < j))
          then h[a, b] == PadHeight(v, a, b, sx, sz, w, d, height) && t[a, b] == E.Building
          else h[a, b] == old(h[a, b]) && t[a, b] == old(t[a, b])
        decreases h.Length1 - j
      {
        h[i, j] := PadHeight(v, i, j, sx, sz, w, d, height);
        t[i, j] := E.Building;
        j := j + 1;
      }
      i := i + 1;
    }
  }

  /** The stepped pad: for a footprint of side at least 4 the raised part is the non-empty
      inner block `(w/4, 3(w/4)] x (d/4, 3(d/4)]` relative to the corner, it never touches the
      corner cell, and it stays inside the footprint. */
  lemma SteppedPadShape(sx: int, sz: int, w: int, d: int)
    requires 4 <= w && 4 <= d
    ensures IsTop(sx + w / 4 + 1, sz + d / 4 + 1, sx, sz, w, d)
    ensures !IsTop(sx, sz, sx, sz, w, d)
    ensures forall i, j :: IsTop(i, j, sx, sz, w, d) ==> InPad(i, j, sx, sz, w, d)
  {
  }
}
