/** Decoration Placer: candidate trees and buildings drawn at random cells, each accepted or
    rejected by a test on the grids, and the primitives of every accepted one appended. */
module Decoration {
  import opened Geometry
  import opened Config
  import opened Vertices
  import opened Blocks
  import opened Grids
  import opened Primitives
  import E = ElementType

  // ---------------------------------------------------------------- trees

  /** The two `nextInt(gridSize - 4)` draws of one tree candidate. */
  datatype TreeDraw = TreeDraw(di: int, dj: int)

  /** The draws a tree loop consumes on a grid of side `g`: each in [0, g - 4). */
  predicate TreeDrawsFit(draws: seq<TreeDraw>, g: nat) {
    forall k :: 0 <= k < |draws| ==> 0 <= draws[k].di < g - 4 && 0 <= draws[k].dj < g - 4
  }

  /** The tree test: the code is Land or Lawn (the raw literals 0 and 3 in the earlier variant)
      and the height lies strictly between -1 and 5. */
  predicate AcceptsTree(v: Variant, code: int, y: real) {
    && (match v
        case V1 => code == 0 || code == 3
        case V2 => code == E.Land || code == E.Lawn)
    && -1.0 < y && y < 5.0
  }

  /** Whether the candidate of draw `d` passes the tree test on grids `hs`, `ts`. */
  predicate TreeAccepted(v: Variant, hs: seq<seq<real>>, ts: seq<seq<int>>, d: TreeDraw) {
    AcceptsTree(v, Entry(ts, d.di + 2, d.dj + 2, 0), Entry(hs, d.di + 2, d.dj + 2, 0.0))
  }

  /** What one pass of the tree loop appends for the candidate on cell (i, j), whose code and
      height are `code` and `y`: a tree standing on the cell, or nothing. */
  function CandidateTree(v: Variant, m: Analytic, g: nat, i: int, j: int, code: int, y: real): seq<Vertex>
    requires g > 0
  {
    if AcceptsTree(v, code, y) then TreeVertices(v, m, WorldCoord(i, g), y, WorldCoord(j, g)) else []
  }

  /** What the pass of the tree loop on draw `d` appends: the candidate on cell
      (di + 2, dj + 2). */
  function DrawnTree(v: Variant, m: Analytic, hs: seq<seq<real>>, ts: seq<seq<int>>, g: nat, d: TreeDraw): (r: seq<Vertex>)
    requires g > 0
    ensures |r| == if TreeAccepted(v, hs, ts, d) then 420 else 0
  {
    var code, y := Entry(ts, d.di + 2, d.dj + 2, 0), Entry(hs, d.di + 2, d.dj + 2, 0.0);
    CandidateTreeLength(v, m, g, d.di + 2, d.dj + 2, code, y);
    CandidateTree(v, m, g, d.di + 2, d.dj + 2, code, y)
  }

  /** Everything `addTrees` appends, candidate by candidate. */
  function Forest(v: Variant, m: Analytic, hs: seq<seq<real>>, ts: seq<seq<int>>, g: nat, draws: seq<TreeDraw>): seq<Vertex>
    requires g > 0
  {
    if draws == [] then []
    else Forest(v, m, hs, ts, g, draws[..|draws| - 1]) + DrawnTree(v, m, hs, ts, g, draws[|draws| - 1])
  }

  /** The number of accepted tree candidates. */
  function TreesPlanted(v: Variant, hs: seq<seq<real>>, ts: seq<seq<int>>, draws: seq<TreeDraw>): nat {
    if draws == [] then 0
    else TreesPlanted(v, hs, ts, draws[..|draws| - 1]) + (if TreeAccepted(v, hs, ts, draws[|draws| - 1]) then 1 else 0)
  }

  /** The end of one pass of the tree loop, on cell (i, j) of code `code` and height `y`. */
  method AddCandidateTree(buf: VertexBuffer, v: Variant, m: Analytic, g: nat, i: int, j: int, code: int, y: real)
    requires g > 0
    modifies buf
    ensures buf.vertices == old(buf.vertices) + CandidateTree(v, m, g, i, j, code, y)
  {
    if (code == E.Land || code == E.Lawn) && y > -1.0 && y < 5.0 {
      AddTree(buf, v, m, WorldCoord(i, g), y, WorldCoord(j, g));
    }
  }

  /** The same pass, stated for draw `d` on the grids `hs`, `ts`. */
  method AddDrawnTree(buf: VertexBuffer, v: Variant, m: Analytic, ghost hs: seq<seq<real>>, ghost ts: seq<seq<int>>,
                      g: nat, d: TreeDraw, code: int, y: real)
    requires g > 0 && code == Entry(ts, d.di + 2, d.dj + 2, 0) && y == Entry(hs, d.di + 2, d.dj + 2, 0.0)
    modifies buf
    ensures buf.vertices == old(buf.vertices) + DrawnTree(v, m, hs, ts, g, d)
  {
    AddCandidateTree(buf, v, m, g, d.di + 2, d.dj + 2, code, y);
  }

  /** `addTrees`: `TreeCount(v, g)` candidates, each drawn from the fixed-seed generator. */
  method AddTrees(buf: VertexBuffer, v: Variant, m: Analytic, h: array2<real>, t: array2<int>, g: nat,
                  draws: seq<TreeDraw>)
    requires g > 0 && h.Length0 == g && h.Length1 == g && t.Length0 == g && t.Length1 == g
    requires |draws| == TreeCount(v, g) && TreeDrawsFit(draws, g)
    modifies buf
    ensures buf.vertices == old(buf.vertices) + Forest(v, m, Snapshot(h), Snapshot(t), g, draws)
  {
    ghost var before := buf.vertices;
    for k := 0 to |draws|
      invariant buf.vertices == before + Forest(v, m, Snapshot(h), Snapshot(t), g, draws[..k])
    {
      PlantTree(buf, v, m, h, t, g, draws, k, before);
    }
    assert draws[..|draws|] == draws;
  }

  /** Pass `k` of the tree loop: the cell of draw `k` is tested and, when it passes, a tree is
      built on it. */
  method PlantTree(buf: VertexBuffer, v: Variant, m: Analytic, h: array2<real>, t: array2<int>, g: nat,
                   draws: seq<TreeDraw>, k: nat, ghost before: seq<Vertex>)
    requires g > 0 && h.Length0 == g && h.Length1 == g && t.Length0 == g && t.Length1 == g
    requires k < |draws| && TreeDrawsFit(draws, g)
    requires buf.vertices == before + Forest(v, m, Snapshot(h), Snapshot(t), g, draws[..k])
    modifies buf
    ensures buf.vertices == before + Forest(v, m, Snapshot(h), Snapshot(t), g, draws[..k + 1])
  {
    var d := draws[k];
    var i, j := d.di + 2, d.dj + 2;
    var code, y := t[i, j], h[i, j];
    assert code == Entry(Snapshot(t), i, j, 0) && y == Entry(Snapshot(h), i, j, 0.0);
    AddDrawnTree(buf, v, m, Snapshot(h), Snapshot(t), g, d, code, y);
    assert draws[..k + 1][..k] == draws[..k];
    AppendAssoc(before, Forest(v, m, Snapshot(h), Snapshot(t), g, draws[..k]), DrawnTree(v, m, Snapshot(h), Snapshot(t), g, d));
  }

  /** A candidate adds a whole tree, 36 trunk and 384 crown vertices, exactly when it passes the
      tree test, and nothing otherwise. */
  lemma CandidateTreeLength(v: Variant, m: Analytic, g: nat, i: int, j: int, code: int, y: real)
    requires g > 0
    ensures |CandidateTree(v, m, g, i, j, code, y)| == if AcceptsTree(v, code, y) then 420 else 0
  {
    if AcceptsTree(v, code, y) {
      CrownAt(v, m, WorldCoord(i, g), y, WorldCoord(j, g), 0, 0, 0);
    }
  }

  /** The cell of every tree candidate lies in [2, g - 3], off the grid border. */
  lemma TreeCellsInside(draws: seq<TreeDraw>, g: nat, k: int)
    requires TreeDrawsFit(draws, g) && 0 <= k < |draws|
    ensures 2 <= draws[k].di + 2 <= g - 3 && 2 <= draws[k].dj + 2 <= g - 3
  {
  }

  /** An accepted tree stands on its cell: its trunk vertices carry the Trunk code and rise
      from the cell height `y`, which lies in (-1, 5). */
  lemma PlantedTreeStandsOnCell(v: Variant, m: Analytic, g: nat, i: int, j: int, code: int, y: real, k: int)
    requires g > 0 && AcceptsTree(v, code, y) && 0 <= k < 36
    ensures var tree := CandidateTree(v, m, g, i, j, code, y);
      && |tree| == 420
      && tree[k].code == E.Trunk
      && y <= tree[k].pos.y <= y + TrunkHeight
      && -1.0 < y < 5.0
  {
    TrunkShape(v, m, WorldCoord(i, g), y, WorldCoord(j, g), k);
  }

  /** The trees add 420 vertices per accepted candidate. */
  lemma {:induction false} ForestLength(v: Variant, m: Analytic, hs: seq<seq<real>>, ts: seq<seq<int>>, g: nat, draws: seq<TreeDraw>)
    requires g > 0
    ensures |Forest(v, m, hs, ts, g, draws)| == 420 * TreesPlanted(v, hs, ts, draws)
  {
    if draws != [] {
      var init, last := draws[..|draws| - 1], draws[|draws| - 1];
      ForestLength(v, m, hs, ts, g, init);
      assert |Forest(v, m, hs, ts, g, draws)| == |Forest(v, m, hs, ts, g, init)| + |DrawnTree(v, m, hs, ts, g, last)|;
    }
  }

  /** The two variants' tree tests agree: the literals 0 and 3 are the Land and Lawn codes. */
  lemma TreeTestsAgree(code: int, y: real)
    ensures AcceptsTree(V1, code, y) <==> AcceptsTree(V2, code, y)
  {
    E.LiteralsAgree();
  }

  // ---------------------------------------------------------------- buildings

  /** The draws of one building candidate: `nextInt` for the start cell in x and z and for the
      width and depth, then `nextFloat` for the height. */
  datatype BuildingDraw = BuildingDraw(dx: int, dz: int, dw: int, dd: int, f: real)

  /** The draws a building loop consumes on a grid of side `g`. */
  predicate BuildingDrawsFit(v: Variant, draws: seq<BuildingDraw>, g: nat) {
    forall k :: 0 <= k < |draws| ==>
      && 0 <= draws[k].dx < g - StartSpan(v) && 0 <= draws[k].dz < g - StartSpan(v)
      && 0 <= draws[k].dw < SizeSpan(v) && 0 <= draws[k].dd < SizeSpan(v)
      && 0.0 <= draws[k].f < 1.0
  }

  function StartX(v: Variant, b: BuildingDraw): int { b.dx + StartOffset(v) }
  function StartZ(v: Variant, b: BuildingDraw): int { b.dz + StartOffset(v) }
  function Width(v: Variant, b: BuildingDraw): int { b.dw + SizeOffset(v) }
  function Depth(v: Variant, b: BuildingDraw): int { b.dd + SizeOffset(v) }
  function BuildingHeight(b: BuildingDraw): real { b.f * 4.0 + 3.0 }

  /** The codes a building may not stand on: Road and WaterPool (the raw literals 1 and 2 in
      the earlier variant). */
  predicate Blocking(v: Variant, code: int) {
    match v
    case V1 => code == 1 || code == 2
    case V2 => code == E.Road || code == E.WaterPool
  }

  /** No cell of the footprint `[sx, sx + w) x [sz, sz + d)`, clipped to the grid, is
      blocking. */
  predicate FootprintClear(v: Variant, ts: seq<seq<int>>, g: nat, sx: int, sz: int, w: int, d: int) {
    forall i, j :: sx <= i < sx + w && i < g && sz <= j < sz + d && j < g ==> !Blocking(v, Entry(ts, i, j, 0))
  }

  /** The `validLocation` loop of `addDetailedBuildings`: rows of the clipped footprint are
      scanned until a blocking cell is met. */
  method ValidLocation(v: Variant, t: array2<int>, g: nat, sx: int, sz: int, w: int, d: int) returns (ok: bool)
    requires 0 <= sx && 0 <= sz && t.Length0 == g && t.Length1 == g
    ensures ok <==> FootprintClear(v, Snapshot(t), g, sx, sz, w, d)
  {
    ok := true;
    var i := sx;
    while i < sx + w && i < g
      invariant sx <= i
      invariant ok
      invariant forall a, b :: sx <= a < i && a < g && sz <= b < sz + d && b < g ==> !Blocking(v, t[a, b])
      decreases g - i
    {
      var j := sz;
      while j < sz + d && j < g
        invariant sz <= j && ok
        invariant forall b :: sz <= b < j && b < g ==> !Blocking(v, t[i, b])
        decreases g - j
      {
        if t[i, j] == E.Road || t[i, j] == E.WaterPool {
          ok := false;
          break;
        }
        j := j + 1;
      }
      if !ok {
        assert Blocking(v, Entry(Snapshot(t), i, j, 0));
        break;
      }
      i := i + 1;
    }
  }

  /** What one pass of the building loop appends for candidate `b`, whose footprint test gave
      `clear`: the two boxes of a building on the drawn footprint, or nothing. */
  function CandidateBuilding(v: Variant, m: Analytic, g: nat, b: BuildingDraw, clear: bool): seq<Vertex>
    requires g > 0
  {
    if clear then BuildingVertices(v, m, StartX(v, b), StartZ(v, b), Width(v, b), Depth(v, b), BuildingHeight(b), g)
    else []
  }

  /** The footprint test of candidate `b`. */
  predicate BuildingAccepted(v: Variant, ts: seq<seq<int>>, g: nat, b: BuildingDraw) {
    FootprintClear(v, ts, g, StartX(v, b), StartZ(v, b), Width(v, b), Depth(v, b))
  }

  /** What the pass of the building loop on draw `b` appends. */
  function DrawnBuilding(v: Variant, m: Analytic, ts: seq<seq<int>>, g: nat, b: BuildingDraw): (r: seq<Vertex>)
    requires g > 0
    ensures |r| == if BuildingAccepted(v, ts, g, b) then 72 else 0
  {
    CandidateBuildingLength(v, m, g, b, BuildingAccepted(v, ts, g, b));
    CandidateBuilding(v, m, g, b, BuildingAccepted(v, ts, g, b))
  }

  /** Everything `addDetailedBuildings` appends, candidate by candidate. */
  function Buildings(v: Variant, m: Analytic, ts: seq<seq<int>>, g: nat, draws: seq<BuildingDraw>): seq<Vertex>
    requires g > 0
  {
    if draws == [] then []
    else Buildings(v, m, ts, g, draws[..|draws| - 1]) + DrawnBuilding(v, m, ts, g, draws[|draws| - 1])
  }

  /** The number of accepted building candidates. */
  function BuildingsPlaced(v: Variant, ts: seq<seq<int>>, g: nat, draws: seq<BuildingDraw>): nat {
    if draws == [] then 0
    else BuildingsPlaced(v, ts, g, draws[..|draws| - 1]) + (if BuildingAccepted(v, ts, g, draws[|draws| - 1]) then 1 else 0)
  }

  /** The end of one pass of the building loop: the building of draw `b` if its footprint
      test on `ts` gave `ok`. */
  method AddCandidateBuilding(buf: VertexBuffer, v: Variant, m: Analytic, ghost ts: seq<seq<int>>, g: nat,
                              b: BuildingDraw, ok: bool)
    requires g > 0 && ok == BuildingAccepted(v, ts, g, b)
    modifies buf
    ensures buf.vertices == old(buf.vertices) + DrawnBuilding(v, m, ts, g, b)
  {
    if ok {
      AddBuildingWithCube(buf, v, m, StartX(v, b), StartZ(v, b), Width(v, b), Depth(v, b), BuildingHeight(b), g);
    }
  }

  /** `addDetailedBuildings`: `BuildingCount(v, g)` candidates. The grids are only read: the
      type grid is not marked under a placed building. */
  method AddDetailedBuildings(buf: VertexBuffer, v: Variant, m: Analytic, t: array2<int>, g: nat,
                              draws: seq<BuildingDraw>)
    requires g > 0 && t.Length0 == g && t.Length1 == g
    requires |draws| == BuildingCount(v, g) && BuildingDrawsFit(v, draws, g)
    modifies buf
    ensures buf.vertices == old(buf.vertices) + Buildings(v, m, Snapshot(t), g, draws)
  {
    ghost var before := buf.vertices;
    for k := 0 to |draws|
      invariant buf.vertices == before + Buildings(v, m, Snapshot(t), g, draws[..k])
    {
      PlaceBuilding(buf, v, m, t, g, draws, k, before);
    }
    assert draws[..|draws|] == draws;
  }

  /** Pass `k` of the building loop: draw `k` is tested and, when its footprint is clear, built. */
  method PlaceBuilding(buf: VertexBuffer, v: Variant, m: Analytic, t: array2<int>, g: nat,
                       draws: seq<BuildingDraw>, k: nat, ghost before: seq<Vertex>)
    requires g > 0 && t.Length0 == g && t.Length1 == g
    requires k < |draws| && BuildingDrawsFit(v, draws, g)
    requires buf.vertices == before + Buildings(v, m, Snapshot(t), g, draws[..k])
    modifies buf
    ensures buf.vertices == before + Buildings(v, m, Snapshot(t), g, draws[..k + 1])
  {
    var b := draws[k];
    FootprintPlacement(v, draws, g, k);
    var ok := ValidLocation(v, t, g, StartX(v, b), StartZ(v, b), Width(v, b), Depth(v, b));
    AddCandidateBuilding(buf, v, m, Snapshot(t), g, b, ok);
    assert draws[..k + 1][..k] == draws[..k];
    AppendAssoc(before, Buildings(v, m, Snapshot(t), g, draws[..k]), DrawnBuilding(v, m, Snapshot(t), g, b));
  }

  /** A candidate adds a whole building, 36 wall and 36 roof vertices, exactly when its
      footprint test passes, and nothing otherwise. */
  lemma CandidateBuildingLength(v: Variant, m: Analytic, g: nat, b: BuildingDraw, clear: bool)
    requires g > 0
    ensures |CandidateBuilding(v, m, g, b, clear)| == if clear then 72 else 0
  {
    RoofLength(v, m, StartX(v, b), StartZ(v, b), Width(v, b), Depth(v, b), BuildingHeight(b), g);
  }

  /** The drawn footprint starts inside the grid, one cell or more from its edge, and is at
      least three cells wide and deep; it may run past the far edge, where it is clipped. */
  lemma FootprintPlacement(v: Variant, draws: seq<BuildingDraw>, g: nat, k: int)
    requires BuildingDrawsFit(v, draws, g) && 0 <= k < |draws|
    ensures 3 <= StartX(v, draws[k]) && StartX(v, draws[k]) + Width(v, draws[k]) <= g + 2
    ensures 3 <= StartZ(v, draws[k]) && StartZ(v, draws[k]) + Depth(v, draws[k]) <= g + 2
    ensures 3 <= Width(v, draws[k]) && 3 <= Depth(v, draws[k])
    ensures 3.0 <= BuildingHeight(draws[k]) < 7.0
  {
  }

  /** The buildings add 72 vertices per accepted candidate. */
  lemma {:induction false} BuildingsLength(v: Variant, m: Analytic, ts: seq<seq<int>>, g: nat, draws: seq<BuildingDraw>)
    requires g > 0
    ensures |Buildings(v, m, ts, g, draws)| == 72 * BuildingsPlaced(v, ts, g, draws)
  {
    if draws != [] {
      var init, last := draws[..|draws| - 1], draws[|draws| - 1];
      BuildingsLength(v, m, ts, g, init);
      assert |Buildings(v, m, ts, g, draws)| == |Buildings(v, m, ts, g, init)| + |DrawnBuilding(v, m, ts, g, last)|;
    }
  }

  /** The two variants' blocking tests agree: the literals 1 and 2 are the Road and WaterPool
      codes. */
  lemma BlockingTestsAgree(code: int)
    ensures Blocking(V1, code) <==> Blocking(V2, code)
  {
    E.LiteralsAgree();
  }
}
