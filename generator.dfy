/** The generator pipeline `generateTerrainMesh` of both variants: base grids, feature stamps,
    optional resampling (the full pipeline only), triangulation, decoration, normal smoothing
    (the full pipeline only) and packing. */
module Generator {
  import opened Geometry
  import opened Config
  import opened Grids
  import opened Vertices
  import opened HeightField
  import opened Overlay
  import opened Resample
  import opened Triangulation
  import opened Decoration
  import opened Smoothing
  import opened Packing
  import E = ElementType

  /** The side of the grid that is triangulated: the resampled 200 in the full pipeline with
      interpolation on, the base 50 otherwise. */
  function GridSide(v: Variant, interpolate: bool): (g: nat)
    ensures g == BaseGridSize || g == FinalGridSize
  {
    if v == V2 && interpolate then FinalGridSize else BaseGridSize
  }

  // ---------------------------------------------------------------- the four stamps, per cell

  /** One cell of the two parallel grids: its height and its element code. */
  datatype Cell = Cell(height: real, code: int)

  /** The building pad of each variant: a square of this side ... */
  function PadSide(v: Variant): int { match v case V1 => 4 case V2 => 6 }
  /** ... levelled to this height. */
  function PadLevel(v: Variant): real { match v case V1 => 5.0 case V2 => 10.0 }

  /** The road along the middle row band: `addRoad(.., n / 2, 0, n, 8, minHeight, maxHeight)`. */
  function RoadStamp(i: int, j: int, c: Cell, lo: real, hi: real): Cell {
    var n := BaseGridSize;
    if InRoad(i, j, n / 2, 0, n, 8) then Cell(RoadLevel(lo, hi), E.Road) else c
  }

  /** The water pool in the first quarter: `addWaterPool(.., n / 4, n / 4, 6, ..)`. */
  function PoolStamp(v: Variant, m: Analytic, i: int, j: int, c: Cell, lo: real): Cell
    requires MaxRange(m, 6) > 0.0
  {
    var n := BaseGridSize;
    if InDisc(m, i, j, n / 4, n / 4, 6) then Cell(PoolHeight(v, m, i, j, n / 4, n / 4, 6, lo), E.WaterPool) else c
  }

  /** The lawn in the opposite quarter: `addLawn(.., n * 3 / 4, n * 3 / 4, 10, ..)`. */
  function LawnStamp(m: Analytic, i: int, j: int, c: Cell): Cell {
    var n := BaseGridSize;
    Cell(c.height, LawnCode(InDisc(m, i, j, n * 3 / 4, n * 3 / 4, 10), c.code))
  }

  /** The building pad: `addBuilding(.., n / 4, n * 3 / 4, side, side, level, ..)`. */
  function PadStamp(v: Variant, i: int, j: int, c: Cell): Cell {
    var n := BaseGridSize;
    if InPad(i, j, n / 4, n * 3 / 4, PadSide(v), PadSide(v))
    then Cell(PadHeight(v, i, j, n / 4, n * 3 / 4, PadSide(v), PadSide(v), PadLevel(v)), E.Building)
    else c
  }

  /** Base cell (i, j) after the four stamps, in call order, given the cell before them and the
      height range the stamps are passed. */
  function Stamped(v: Variant, m: Analytic, i: int, j: int, c: Cell, lo: real, hi: real): Cell
    requires IsSquareRoot(m.sqrt)
  {
    MaxRangePositive(m, 6);
    PadStamp(v, i, j, LawnStamp(m, i, j, PoolStamp(v, m, i, j, RoadStamp(i, j, c, lo, hi), lo)))
  }

  /** The four stamps applied to every cell of the grids `hs` and `ts`: the heights ... */
  function StampHeights(v: Variant, m: Analytic, hs: seq<seq<real>>, ts: seq<seq<int>>, lo: real, hi: real): (rows: seq<seq<real>>)
    requires IsSquareRoot(m.sqrt) && IsSquare(hs, BaseGridSize) && IsSquare(ts, BaseGridSize)
    ensures IsSquare(rows, BaseGridSize)
  {
    seq(BaseGridSize, i requires 0 <= i < BaseGridSize => seq(BaseGridSize, j requires 0 <= j < BaseGridSize =>
      Stamped(v, m, i, j, Cell(hs[i][j], ts[i][j]), lo, hi).height))
  }

  /** ... and the codes. */
  function StampCodes(v: Variant, m: Analytic, hs: seq<seq<real>>, ts: seq<seq<int>>, lo: real, hi: real): (rows: seq<seq<int>>)
    requires IsSquareRoot(m.sqrt) && IsSquare(hs, BaseGridSize) && IsSquare(ts, BaseGridSize)
    ensures IsSquare(rows, BaseGridSize)
  {
    seq(BaseGridSize, i requires 0 <= i < BaseGridSize => seq(BaseGridSize, j requires 0 <= j < BaseGridSize =>
      Stamped(v, m, i, j, Cell(hs[i][j], ts[i][j]), lo, hi).code))
  }

  /** The initial n x n type grid, Land everywhere. */
  function LandRows(n: nat): (rows: seq<seq<int>>)
    ensures IsSquare(rows, n)
  {
    seq(n, i requires 0 <= i < n => seq(n, j requires 0 <= j < n => E.Land))
  }

  /** The stamped base height grid: the synthesized heights after the four stamps. */
  function StampedHeights(v: Variant, m: Analytic, draws: seq<seq<real>>, lo: real, hi: real): (rows: seq<seq<real>>)
    requires IsSquareRoot(m.sqrt) && IsSquare(draws, BaseGridSize)
    ensures IsSquare(rows, BaseGridSize)
  {
    StampHeights(v, m, BaseHeights(v, m, BaseGridSize, draws), LandRows(BaseGridSize), lo, hi)
  }

  /** The stamped base type grid: Land everywhere, then the four stamps. */
  function StampedCodes(v: Variant, m: Analytic, draws: seq<seq<real>>, lo: real, hi: real): (rows: seq<seq<int>>)
    requires IsSquareRoot(m.sqrt) && IsSquare(draws, BaseGridSize)
    ensures IsSquare(rows, BaseGridSize)
  {
    StampCodes(v, m, BaseHeights(v, m, BaseGridSize, draws), LandRows(BaseGridSize), lo, hi)
  }

  /** The final height grid: the stamped base grid, resampled in the full pipeline with
      interpolation on. */
  function FinalHeights(v: Variant, m: Analytic, interpolate: bool, draws: seq<seq<real>>, fineDraws: seq<seq<real>>,
                        lo: real, hi: real): (rows: seq<seq<real>>)
    requires IsSquareRoot(m.sqrt) && IsSquare(draws, BaseGridSize)
    requires v == V2 && interpolate ==> IsSquare(fineDraws, FinalGridSize)
    ensures IsSquare(rows, GridSide(v, interpolate))
  {
    var base := StampedHeights(v, m, draws, lo, hi);
    if v == V2 && interpolate then ResampledHeights(base, fineDraws) else base
  }

  /** The final type grid, resampled the same way. */
  function FinalCodes(v: Variant, m: Analytic, interpolate: bool, draws: seq<seq<real>>, lo: real, hi: real): (rows: seq<seq<int>>)
    requires IsSquareRoot(m.sqrt) && IsSquare(draws, BaseGridSize)
    ensures IsSquare(rows, GridSide(v, interpolate))
  {
    var base := StampedCodes(v, m, draws, lo, hi);
    if v == V2 && interpolate then ResampledCodes(base) else base
  }

  // ---------------------------------------------------------------- the grid stages

  /** The four stamps on the base grids, with the range of the base heights: every base cell
      ends as `Stamped` of what it held before. */
  method StampFeatures(v: Variant, m: Analytic, h: array2<real>, t: array2<int>, lo: real, hi: real)
    requires IsSquareRoot(m.sqrt)
    requires h.Length0 == BaseGridSize && h.Length1 == BaseGridSize && t.Length0 == BaseGridSize && t.Length1 == BaseGridSize
    modifies h, t
    ensures Snapshot(h) == StampHeights(v, m, old(Snapshot(h)), old(Snapshot(t)), lo, hi)
    ensures Snapshot(t) == StampCodes(v, m, old(Snapshot(h)), old(Snapshot(t)), lo, hi)
  {
    var n := BaseGridSize;
    ghost var h0, t0 := Snapshot(h), Snapshot(t);
    AddRoad(h, t, n / 2, 0, n, 8, lo, hi);
    ghost var h1, t1 := Snapshot(h), Snapshot(t);
    MaxRangePositive(m, 6);
    AddWaterPool(v, m, h, t, n / 4, n / 4, 6, lo);
    ghost var h2, t2 := Snapshot(h), Snapshot(t);
    AddLawn(m, h, t, n * 3 / 4, n * 3 / 4, 10);
    ghost var h3, t3 := Snapshot(h), Snapshot(t);
    AddBuilding(v, h, t, n / 4, n * 3 / 4, PadSide(v), PadSide(v), PadLevel(v));
    forall i, j | 0 <= i < n && 0 <= j < n
      ensures Cell(h[i, j], t[i, j]) == Stamped(v, m, i, j, Cell(h0[i][j], t0[i][j]), lo, hi)
    {
      var c1 := RoadStamp(i, j, Cell(h0[i][j], t0[i][j]), lo, hi);
      assert Cell(h1[i][j], t1[i][j]) == c1;
      var c2 := PoolStamp(v, m, i, j, c1, lo);
      assert Cell(h2[i][j], t2[i][j]) == c2;
      var c3 := LawnStamp(m, i, j, c2);
      assert Cell(h3[i][j], t3[i][j]) == c3;
    }
    SnapshotIs(h, StampHeights(v, m, h0, t0, lo, hi));
    SnapshotIs(t, StampCodes(v, m, h0, t0, lo, hi));
  }

  /** Base height grid, Land type grid, their range, then the stamps: the grids end as the
      stamped grids of the draws, and `lo`, `hi` are the range of the synthesized heights. */
  method BaseGrids(v: Variant, m: Analytic, draws: seq<seq<real>>) returns (h: array2<real>, t: array2<int>, lo: real, hi: real)
    requires IsSquareRoot(m.sqrt) && IsSquare(draws, BaseGridSize)
    ensures fresh(h) && fresh(t)
    ensures h.Length0 == BaseGridSize && h.Length1 == BaseGridSize && t.Length0 == BaseGridSize && t.Length1 == BaseGridSize
    ensures IsRange(BaseHeights(v, m, BaseGridSize, draws), lo, hi)
    ensures Snapshot(h) == StampedHeights(v, m, draws, lo, hi)
    ensures Snapshot(t) == StampedCodes(v, m, draws, lo, hi)
  {
    var n := BaseGridSize;
    h := GenerateBaseHeightMap(v, m, n, draws);
    t := LandGrid(n);
    SnapshotIs(h, BaseHeights(v, m, n, draws));
    SnapshotIs(t, LandRows(n));
    lo, hi := HeightRange(h);
    StampFeatures(v, m, h, t, lo, hi);
  }

  /** Step 2 of the full pipeline: with interpolation on, the grids are resampled to 200 x 200;
      otherwise (and always in the earlier variant) the base grids are used as they are. */
  method Refine(v: Variant, interpolate: bool, h: array2<real>, t: array2<int>, fineDraws: seq<seq<real>>)
    returns (fh: array2<real>, ft: array2<int>)
    requires h.Length0 == BaseGridSize && h.Length1 == BaseGridSize && t.Length0 == BaseGridSize && t.Length1 == BaseGridSize
    requires v == V2 && interpolate ==> IsSquare(fineDraws, FinalGridSize)
    ensures fh.Length0 == GridSide(v, interpolate) && fh.Length1 == GridSide(v, interpolate)
    ensures ft.Length0 == GridSide(v, interpolate) && ft.Length1 == GridSide(v, interpolate)
    ensures !(v == V2 && interpolate) ==> fh == h && ft == t
    ensures v == V2 && interpolate ==>
      Snapshot(fh) == ResampledHeights(Snapshot(h), fineDraws) && Snapshot(ft) == ResampledCodes(Snapshot(t))
  {
    if v == V2 && interpolate {
      fh := InterpolateHeightMap(h, fineDraws);
      ft := InterpolateTypeMap(t);
      SnapshotIs(fh, ResampledHeights(Snapshot(h), fineDraws));
      forall i, j | 0 <= i < FinalGridSize && 0 <= j < FinalGridSize
        ensures ft[i, j] == ResampledCodes(Snapshot(t))[i][j]
      {
      }
      SnapshotIs(ft, ResampledCodes(Snapshot(t)));
    } else {
      fh, ft := h, t;
    }
  }

  /** The vertex list once decoration is done, before smoothing. */
  function Decorated(v: Variant, m: Analytic, hs: seq<seq<real>>, ts: seq<seq<int>>, g: nat, draw: real,
                     trees: seq<TreeDraw>, buildings: seq<BuildingDraw>): seq<Vertex>
    requires g > 0
  {
    TerrainMesh(v, hs, ts, g, draw) + Forest(v, m, hs, ts, g, trees) + Buildings(v, m, ts, g, buildings)
  }

  /** The vertex list `createMeshData` receives: smoothed in the full pipeline only. */
  function Finished(v: Variant, m: Analytic, vs: seq<Vertex>): seq<Vertex> {
    match v
    case V1 => vs
    case V2 => Smoothed(m, vs)
  }

  /** Steps 4 to 8 on the final grids: the height range, triangulation, trees, buildings,
      smoothing (full pipeline only) and packing. */
  method BuildMesh(v: Variant, m: Analytic, h: array2<real>, t: array2<int>, g: nat, draw: real,
                   trees: seq<TreeDraw>, buildings: seq<BuildingDraw>,
                   ghost hs: seq<seq<real>>, ghost ts: seq<seq<int>>)
    returns (md: MeshData)
    requires g > 0 && h.Length0 == g && h.Length1 == g && t.Length0 == g && t.Length1 == g
    requires Snapshot(h) == hs && Snapshot(t) == ts
    requires |trees| == TreeCount(v, g) && TreeDrawsFit(trees, g)
    requires |buildings| == BuildingCount(v, g) && BuildingDrawsFit(v, buildings, g)
    ensures LaidOut(v, md, Finished(v, m, Decorated(v, m, hs, ts, g, draw, trees, buildings)))
    ensures v == V2 ==> md.heightMap == hs && IsRange(hs, md.minHeight, md.maxHeight)
    ensures v == V1 ==> md.heightMap == [] && md.minHeight == 0.0 && md.maxHeight == 0.0
  {
    var heights := Snapshot(h);
    var lo, hi := HeightRange(h);
    var buf := new VertexBuffer();
    Triangulate(buf, v, h, t, g, draw);
    assert buf.vertices == TerrainMesh(v, hs, ts, g, draw);
    AddTrees(buf, v, m, h, t, g, trees);
    AddDetailedBuildings(buf, v, m, t, g, buildings);
    assert buf.vertices == Decorated(v, m, hs, ts, g, draw, trees, buildings);
    if v == V2 {
      SmoothNormals(buf, m);
    }
    assert buf.vertices == Finished(v, m, Decorated(v, m, hs, ts, g, draw, trees, buildings));
    md := CreateMeshData(v, buf.vertices, lo, hi);
    if v == V2 {
      md := md.(heightMap := heights);
    }
  }

  /** `generateTerrainMesh()`. The random draws of `Random(42)` are inputs: `draws` are the base
      grid's per-cell draws (the first of them is also the colour draw of every
      `getColorForType` call), `fineDraws` the resampling jitter, `trees` and `buildings` the
      candidates of the decoration loops. `hs` and `ts` are the final grids and `baseLo`,
      `baseHi` the range of the synthesized heights that the stamps are passed. */
  method GenerateTerrainMesh(v: Variant, m: Analytic, interpolate: bool, draws: seq<seq<real>>,
                             fineDraws: seq<seq<real>>, trees: seq<TreeDraw>, buildings: seq<BuildingDraw>)
    returns (md: MeshData, ghost hs: seq<seq<real>>, ghost ts: seq<seq<int>>, ghost baseLo: real, ghost baseHi: real)
    requires IsSquareRoot(m.sqrt) && IsSquare(draws, BaseGridSize)
    requires v == V2 && interpolate ==> IsSquare(fineDraws, FinalGridSize)
    requires |trees| == TreeCount(v, GridSide(v, interpolate)) && TreeDrawsFit(trees, GridSide(v, interpolate))
    requires |buildings| == BuildingCount(v, GridSide(v, interpolate))
    requires BuildingDrawsFit(v, buildings, GridSide(v, interpolate))
    ensures IsRange(BaseHeights(v, m, BaseGridSize, draws), baseLo, baseHi)
    ensures hs == FinalHeights(v, m, interpolate, draws, fineDraws, baseLo, baseHi)
    ensures ts == FinalCodes(v, m, interpolate, draws, baseLo, baseHi)
    ensures LaidOut(v, md, Finished(v, m, Decorated(v, m, hs, ts, GridSide(v, interpolate), draws[0][0], trees, buildings)))
    ensures v == V2 ==> md.heightMap == hs && IsRange(hs, md.minHeight, md.maxHeight)
    ensures v == V1 ==> md.heightMap == [] && md.minHeight == 0.0 && md.maxHeight == 0.0
  {
    var fh, ft;
    fh, ft, baseLo, baseHi := GridStages(v, m, interpolate, draws, fineDraws);
    hs, ts := Snapshot(fh), Snapshot(ft);
    md := BuildMesh(v, m, fh, ft, GridSide(v, interpolate), draws[0][0], trees, buildings, hs, ts);
  }

  /** Steps 1 to 3 of `generateTerrainMesh()`: the stamped base grids, resampled in the full
      pipeline with interpolation on. */
  method GridStages(v: Variant, m: Analytic, interpolate: bool, draws: seq<seq<real>>, fineDraws: seq<seq<real>>)
    returns (fh: array2<real>, ft: array2<int>, ghost baseLo: real, ghost baseHi: real)
    requires IsSquareRoot(m.sqrt) && IsSquare(draws, BaseGridSize)
    requires v == V2 && interpolate ==> IsSquare(fineDraws, FinalGridSize)
    ensures fh.Length0 == GridSide(v, interpolate) && fh.Length1 == GridSide(v, interpolate)
    ensures ft.Length0 == GridSide(v, interpolate) && ft.Length1 == GridSide(v, interpolate)
    ensures IsRange(BaseHeights(v, m, BaseGridSize, draws), baseLo, baseHi)
    ensures Snapshot(fh) == FinalHeights(v, m, interpolate, draws, fineDraws, baseLo, baseHi)
    ensures Snapshot(ft) == FinalCodes(v, m, interpolate, draws, baseLo, baseHi)
  {
    var h, t, lo, hi := BaseGrids(v, m, draws);
    ghost var bh, bt := Snapshot(h), Snapshot(t);
    fh, ft := Refine(v, interpolate, h, t, fineDraws);
    baseLo, baseHi := lo, hi;
    FinalGrids(v, m, interpolate, draws, fineDraws, lo, hi, bh, bt, Snapshot(fh), Snapshot(ft));
  }

  /** The grids `Refine` leaves on the stamped base grids are the final grids. */
  lemma FinalGrids(v: Variant, m: Analytic, interpolate: bool, draws: seq<seq<real>>, fineDraws: seq<seq<real>>,
                   lo: real, hi: real, bh: seq<seq<real>>, bt: seq<seq<int>>, hs: seq<seq<real>>, ts: seq<seq<int>>)
    requires IsSquareRoot(m.sqrt) && IsSquare(draws, BaseGridSize)
    requires v == V2 && interpolate ==> IsSquare(fineDraws, FinalGridSize)
    requires bh == StampedHeights(v, m, draws, lo, hi) && bt == StampedCodes(v, m, draws, lo, hi)
    requires v == V2 && interpolate ==> hs == ResampledHeights(bh, fineDraws) && ts == ResampledCodes(bt)
    requires !(v == V2 && interpolate) ==> hs == bh && ts == bt
    ensures hs == FinalHeights(v, m, interpolate, draws, fineDraws, lo, hi)
    ensures ts == FinalCodes(v, m, interpolate, draws, lo, hi)
  {
  }

  // ---------------------------------------------------------------- properties

  /** The stamps write ground codes only: a ground-coded cell stays ground-coded. */
  lemma StampedGround(v: Variant, m: Analytic, i: int, j: int, c: Cell, lo: real, hi: real)
    requires IsSquareRoot(m.sqrt) && E.IsGroundCode(c.code)
    ensures E.IsGroundCode(Stamped(v, m, i, j, c, lo, hi).code)
  {
  }

  /** Every cell of the final type grid holds a ground code, resampled or not. */
  lemma FinalCodesGround(v: Variant, m: Analytic, interpolate: bool, draws: seq<seq<real>>, lo: real, hi: real,
                         i: int, j: int)
    requires IsSquareRoot(m.sqrt) && IsSquare(draws, BaseGridSize)
    requires 0 <= i < GridSide(v, interpolate) && 0 <= j < GridSide(v, interpolate)
    ensures E.IsGroundCode(FinalCodes(v, m, interpolate, draws, lo, hi)[i][j])
  {
    var base := StampedCodes(v, m, draws, lo, hi);
    var heights := BaseHeights(v, m, BaseGridSize, draws);
    var a, b := i, j;
    if v == V2 && interpolate {
      a, b := NearestIndex(i), NearestIndex(j);
      assert FinalCodes(v, m, interpolate, draws, lo, hi)[i][j] == base[a][b];
    }
    StampedGround(v, m, a, b, Cell(heights[a][b], E.Land), lo, hi);
  }

  /** Where the four features land on the base grid, whatever the draws: cell (25, 0) is road
      at the road level, the pool centre (12, 12) is water 1.5 below `lo` in the full pipeline
      and at `lo` in the earlier one, the lawn centre (37, 37) is lawn, and the pad corner
      (12, 37) is building at the pad level. */
  lemma StampedLandmarks(v: Variant, m: Analytic, draws: seq<seq<real>>, lo: real, hi: real)
    requires IsSquareRoot(m.sqrt) && IsSquare(draws, BaseGridSize)
    ensures StampedCodes(v, m, draws, lo, hi)[25][0] == E.Road
    ensures StampedHeights(v, m, draws, lo, hi)[25][0] == RoadLevel(lo, hi)
    ensures StampedCodes(v, m, draws, lo, hi)[12][12] == E.WaterPool
    ensures StampedHeights(v, m, draws, lo, hi)[12][12] == if v == V2 then lo - 1.5 else lo
    ensures StampedCodes(v, m, draws, lo, hi)[37][37] == E.Lawn
    ensures StampedCodes(v, m, draws, lo, hi)[12][37] == E.Building
    ensures StampedHeights(v, m, draws, lo, hi)[12][37] == PadLevel(v)
  {
    var base := BaseHeights(v, m, BaseGridSize, draws);
    MaxRangePositive(m, 6);
    WithinRadiusExact(m, 0, 0, 6);
    WithinRadiusExact(m, 0, 0, 10);
    PoolHeightBounds(v, m, 12, 12, 12, 12, 6, lo);
    assert Stamped(v, m, 12, 12, Cell(base[12][12], E.Land), lo, hi)
        == Cell(PoolHeight(v, m, 12, 12, 12, 12, 6, lo), E.WaterPool);
    assert Stamped(v, m, 37, 37, Cell(base[37][37], E.Land), lo, hi) == Cell(base[37][37], E.Lawn);
  }

  /** Smoothing keeps the number of vertices. */
  lemma FinishedLength(v: Variant, m: Analytic, vs: seq<Vertex>)
    ensures |Finished(v, m, vs)| == |vs|
  {
  }

  /** 420 and 72 are multiples of three. */
  lemma WholeTriangles(total: nat, mesh: nat, trees: nat, houses: nat)
    requires mesh % 3 == 0 && total == mesh + 420 * trees + 72 * houses
    ensures total % 3 == 0
  {
    assert total == 3 * (mesh / 3 + 140 * trees + 24 * houses);
  }

  /** The decorated list holds the `6 (g - 1)^2` terrain vertices, 420 per planted tree and 72
      per placed building, a whole number of triangles. */
  lemma DecoratedLength(v: Variant, m: Analytic, hs: seq<seq<real>>, ts: seq<seq<int>>, g: nat, draw: real,
                        trees: seq<TreeDraw>, buildings: seq<BuildingDraw>)
    requires g > 0
    ensures |Decorated(v, m, hs, ts, g, draw, trees, buildings)|
      == 6 * (g - 1) * (g - 1) + 420 * TreesPlanted(v, hs, ts, trees) + 72 * BuildingsPlaced(v, ts, g, buildings)
    ensures |Decorated(v, m, hs, ts, g, draw, trees, buildings)| % 3 == 0
  {
    var mesh, forest, houses := TerrainMesh(v, hs, ts, g, draw), Forest(v, m, hs, ts, g, trees), Buildings(v, m, ts, g, buildings);
    TerrainMeshLength(v, hs, ts, g, draw);
    ForestLength(v, m, hs, ts, g, trees);
    BuildingsLength(v, m, ts, g, buildings);
    var planted, placed := TreesPlanted(v, hs, ts, trees), BuildingsPlaced(v, ts, g, buildings);
    var total := |Decorated(v, m, hs, ts, g, draw, trees, buildings)|;
    assert total == |mesh| + 420 * planted + 72 * placed;
    WholeTriangles(total, |mesh|, planted, placed);
  }

  /** Smoothing keeps that count. */
  lemma VertexCount(v: Variant, m: Analytic, hs: seq<seq<real>>, ts: seq<seq<int>>, g: nat, draw: real,
                    trees: seq<TreeDraw>, buildings: seq<BuildingDraw>)
    requires g > 0
    ensures |Finished(v, m, Decorated(v, m, hs, ts, g, draw, trees, buildings))|
      == 6 * (g - 1) * (g - 1) + 420 * TreesPlanted(v, hs, ts, trees) + 72 * BuildingsPlaced(v, ts, g, buildings)
    ensures |Finished(v, m, Decorated(v, m, hs, ts, g, draw, trees, buildings))| % 3 == 0
  {
    DecoratedLength(v, m, hs, ts, g, draw, trees, buildings);
    FinishedLength(v, m, Decorated(v, m, hs, ts, g, draw, trees, buildings));
  }
}
