/** Mesh Triangulator: every cell of the height grid becomes two triangles of the vertex list,
    each vertex taking the height, code and code colour of its own grid corner. */
module Triangulation {
  import opened Geometry
  import opened Config
  import opened Vertices
  import opened Blocks
  import opened Grids
  import Colours

  /** `addVertex(vertices, x, y, z, type, normal)`: the colour comes from the code, and the
      vertex has no texture coordinates. */
  method AddVertex(buf: VertexBuffer, v: Variant, pos: Vec3, code: int, normal: Vec3, draw: real)
    modifies buf
    ensures buf.vertices == old(buf.vertices) + [Vertex(pos, Colours.ColourForType(v, code, draw), normal, code, 0.0, 0.0)]
  {
    buf.Add(Vertex(pos, Colours.ColourForType(v, code, draw), normal, code, 0.0, 0.0));
  }

  /** The world position of grid corner (i, j) on a grid of side `g`. */
  function CornerPos(hs: seq<seq<real>>, g: nat, i: int, j: int): Vec3
    requires g > 0
  {
    Vec3(WorldCoord(i, g), Entry(hs, i, j, 0.0), WorldCoord(j, g))
  }

  /** The vertex `addQuad` emits for grid corner (i, j): its position, the colour of its code,
      the provisional normal `Up`. */
  function CornerVertex(v: Variant, hs: seq<seq<real>>, ts: seq<seq<int>>, g: nat, draw: real, i: int, j: int): Vertex
    requires g > 0
  {
    var code := Entry(ts, i, j, 0);
    Vertex(CornerPos(hs, g, i, j), Colours.ColourForType(v, code, draw), Up, code, 0.0, 0.0)
  }

  /** The corner offsets of the six vertices of a cell: triangle (i, j), (i+1, j), (i, j+1),
      then triangle (i+1, j), (i+1, j+1), (i, j+1). */
  const CornerRow: seq<int> := [0, 1, 0, 1, 1, 0]
  const CornerCol: seq<int> := [0, 0, 1, 0, 1, 1]

  /** The six vertices of cell (i, j). */
  function CellVertices(v: Variant, hs: seq<seq<real>>, ts: seq<seq<int>>, g: nat, draw: real, i: int, j: int): seq<Vertex>
    requires g > 0
  {
    seq(6, s requires 0 <= s < 6 => CornerVertex(v, hs, ts, g, draw, i + CornerRow[s], j + CornerCol[s]))
  }

  function TerrainCell(v: Variant, hs: seq<seq<real>>, ts: seq<seq<int>>, g: nat, draw: real): (int, int) -> seq<Vertex>
    requires g > 0
  {
    (i, j) => CellVertices(v, hs, ts, g, draw, i, j)
  }

  /** The vertex list after the triangulation loop: the (g-1) x (g-1) cells row by row. */
  function TerrainMesh(v: Variant, hs: seq<seq<real>>, ts: seq<seq<int>>, g: nat, draw: real): seq<Vertex>
    requires g > 0
  {
    Grid(TerrainCell(v, hs, ts, g, draw), g - 1, g - 1)
  }

  /** `addQuad(vertices, heightMap, typeMap, i1, j1, i2, j2, i3, j3, gridSize)`: one triangle. */
  method AddQuad(buf: VertexBuffer, v: Variant, h: array2<real>, t: array2<int>, g: nat, draw: real,
                 i1: int, j1: int, i2: int, j2: int, i3: int, j3: int)
    requires g > 0
    requires 0 <= i1 < h.Length0 && 0 <= j1 < h.Length1 && 0 <= i1 < t.Length0 && 0 <= j1 < t.Length1
    requires 0 <= i2 < h.Length0 && 0 <= j2 < h.Length1 && 0 <= i2 < t.Length0 && 0 <= j2 < t.Length1
    requires 0 <= i3 < h.Length0 && 0 <= j3 < h.Length1 && 0 <= i3 < t.Length0 && 0 <= j3 < t.Length1
    modifies buf
    ensures buf.vertices == old(buf.vertices) + [CornerVertex(v, Snapshot(h), Snapshot(t), g, draw, i1, j1),
                                                 CornerVertex(v, Snapshot(h), Snapshot(t), g, draw, i2, j2),
                                                 CornerVertex(v, Snapshot(h), Snapshot(t), g, draw, i3, j3)]
  {
    AddVertex(buf, v, Vec3(WorldCoord(i1, g), h[i1, j1], WorldCoord(j1, g)), t[i1, j1], Up, draw);
    AddVertex(buf, v, Vec3(WorldCoord(i2, g), h[i2, j2], WorldCoord(j2, g)), t[i2, j2], Up, draw);
    AddVertex(buf, v, Vec3(WorldCoord(i3, g), h[i3, j3], WorldCoord(j3, g)), t[i3, j3], Up, draw);
  }

  /** Both triangles of cell (i, j). */
  method AddCell(buf: VertexBuffer, v: Variant, h: array2<real>, t: array2<int>, g: nat, draw: real, i: int, j: int)
    requires g > 0 && h.Length0 == g && h.Length1 == g && t.Length0 == g && t.Length1 == g
    requires 0 <= i < g - 1 && 0 <= j < g - 1
    modifies buf
    ensures buf.vertices == old(buf.vertices) + CellVertices(v, Snapshot(h), Snapshot(t), g, draw, i, j)
  {
    AddQuad(buf, v, h, t, g, draw, i, j, i + 1, j, i, j + 1);
    AddQuad(buf, v, h, t, g, draw, i + 1, j, i + 1, j + 1, i, j + 1);
    ghost var cell := CellVertices(v, Snapshot(h), Snapshot(t), g, draw, i, j);
    assert buf.vertices == old(buf.vertices) + cell[..3] + cell[3..];
    AppendAssoc(old(buf.vertices), cell[..3], cell[3..]);
    assert cell[..3] + cell[3..] == cell;
  }

  /** One pass of the outer loop: the cells of row `i`. */
  method AddRow(buf: VertexBuffer, v: Variant, h: array2<real>, t: array2<int>, g: nat, draw: real, i: int)
    requires g > 0 && h.Length0 == g && h.Length1 == g && t.Length0 == g && t.Length1 == g
    requires 0 <= i < g - 1
    modifies buf
    ensures buf.vertices == old(buf.vertices) + Row(TerrainCell(v, Snapshot(h), Snapshot(t), g, draw), g - 1, i)
  {
    ghost var cell := TerrainCell(v, Snapshot(h), Snapshot(t), g, draw);
    for j := 0 to g - 1
      invariant buf.vertices == old(buf.vertices) + Concat(Cells(cell, i), j)
    {
      AddCell(buf, v, h, t, g, draw, i, j);
      AppendAssoc(old(buf.vertices), Concat(Cells(cell, i), j), Cells(cell, i)(j));
    }
  }

  /** Step 4 of `generateTerrainMesh`: the doubly nested loop calling `addQuad` twice per cell. */
  method Triangulate(buf: VertexBuffer, v: Variant, h: array2<real>, t: array2<int>, g: nat, draw: real)
    requires g > 0 && h.Length0 == g && h.Length1 == g && t.Length0 == g && t.Length1 == g
    modifies buf
    ensures buf.vertices == old(buf.vertices) + TerrainMesh(v, Snapshot(h), Snapshot(t), g, draw)
  {
    ghost var cell := TerrainCell(v, Snapshot(h), Snapshot(t), g, draw);
    for i := 0 to g - 1
      invariant buf.vertices == old(buf.vertices) + Concat(Rows(cell, g - 1), i)
    {
      AddRow(buf, v, h, t, g, draw, i);
      AppendAssoc(old(buf.vertices), Concat(Rows(cell, g - 1), i), Rows(cell, g - 1)(i));
    }
  }

  lemma CellLength(v: Variant, hs: seq<seq<real>>, ts: seq<seq<int>>, g: nat, draw: real)
    requires g > 0
    ensures forall a, b :: |TerrainCell(v, hs, ts, g, draw)(a, b)| == 6
  {
  }

  /** The triangulated grid holds 6 (g-1)^2 vertices, a whole number of triangles. */
  lemma TerrainMeshLength(v: Variant, hs: seq<seq<real>>, ts: seq<seq<int>>, g: nat, draw: real)
    requires g > 0
    ensures |TerrainMesh(v, hs, ts, g, draw)| == 6 * (g - 1) * (g - 1)
    ensures |TerrainMesh(v, hs, ts, g, draw)| % 3 == 0
  {
    CellLength(v, hs, ts, g, draw);
    GridLength(TerrainCell(v, hs, ts, g, draw), g - 1, g - 1, 6);
    assert (6 * (g - 1)) * (g - 1) == 3 * (2 * (g - 1) * (g - 1));
  }

  /** Vertex `s` of cell (i, j) sits at `6 (g-1) i + 6 j + s` and belongs to corner
      (i + CornerRow[s], j + CornerCol[s]). */
  lemma TerrainMeshAt(v: Variant, hs: seq<seq<real>>, ts: seq<seq<int>>, g: nat, draw: real, i: int, j: int, s: int)
    requires g > 0 && 0 <= i < g - 1 && 0 <= j < g - 1 && 0 <= s < 6
    ensures (6 * (g - 1)) * i + (6 * j + s) < |TerrainMesh(v, hs, ts, g, draw)|
    ensures TerrainMesh(v, hs, ts, g, draw)[(6 * (g - 1)) * i + (6 * j + s)]
         == CornerVertex(v, hs, ts, g, draw, i + CornerRow[s], j + CornerCol[s])
  {
    CellLength(v, hs, ts, g, draw);
    GridAt(TerrainCell(v, hs, ts, g, draw), g - 1, g - 1, 6, i, j, s);
  }

  /** Each terrain vertex carries the height and the code of its own corner, the colour of that
      code, the normal (0, 1, 0) and texture coordinates (0, 0). */
  lemma TerrainVertexFields(v: Variant, hs: seq<seq<real>>, ts: seq<seq<int>>, g: nat, draw: real, i: int, j: int, s: int)
    requires g > 0 && IsSquare(hs, g) && IsSquare(ts, g)
    requires 0 <= i < g - 1 && 0 <= j < g - 1 && 0 <= s < 6
    ensures (6 * (g - 1)) * i + (6 * j + s) < |TerrainMesh(v, hs, ts, g, draw)|
    ensures var ci, cj := i + CornerRow[s], j + CornerCol[s];
      && 0 <= ci < g && 0 <= cj < g
      && var vx := TerrainMesh(v, hs, ts, g, draw)[(6 * (g - 1)) * i + (6 * j + s)];
      && vx.pos == Vec3(WorldCoord(ci, g), hs[ci][cj], WorldCoord(cj, g))
      && vx.code == ts[ci][cj]
      && vx.colour == Colours.ColourForType(v, ts[ci][cj], draw)
      && vx.normal == Up && vx.u == 0.0 && vx.v == 0.0
  {
    TerrainMeshAt(v, hs, ts, g, draw, i, j, s);
  }

  /** Neighbouring columns are `TerrainSize / g` apart. */
  lemma WorldStep(i: int, g: nat)
    requires g > 0
    ensures WorldCoord(i + 1, g) - WorldCoord(i, g) == TerrainSize / (g as real)
  {
    var gr := g as real;
    assert (i + 1) as real / gr == (i as real) / gr + 1.0 / gr;
  }

  lemma NegativeOver(y: real, len: real)
    requires y < 0.0 && len > 0.0
    ensures y / len < 0.0
  {
  }

  /** A vector whose y component is negative keeps a negative y component on normalisation. */
  lemma NormalizedKeepsSign(m: Analytic, n: Vec3, threshold: real)
    requires IsSquareRoot(m.sqrt) && 0.0 <= threshold && n.y < 0.0
    ensures Normalized(m, n, threshold).y < 0.0
  {
    var len := m.sqrt(n.SquaredLength());
    if len > threshold {
      NegativeOver(n.y, len);
    }
  }

  /** The edge product of a terrain triangle has y component `-(TerrainSize / g)^2`: the two
      edges leaving the first corner run along +x and +z (or -x and +z), in that order. */
  lemma CellCrossY(hs: seq<seq<real>>, g: nat, i: int, j: int, half: int)
    requires g > 0 && 0 <= half < 2
    ensures var p1 := CornerPos(hs, g, i + CornerRow[3 * half], j + CornerCol[3 * half]);
      var p2 := CornerPos(hs, g, i + CornerRow[3 * half + 1], j + CornerCol[3 * half + 1]);
      var p3 := CornerPos(hs, g, i + CornerRow[3 * half + 2], j + CornerCol[3 * half + 2]);
      var step := TerrainSize / (g as real);
      Cross(p2.Minus(p1), p3.Minus(p1)).y == -(step * step)
  {
    WorldStep(i, g);
    WorldStep(j, g);
  }

  /** The face normal `calculateFaceNormal` gives each terrain triangle points downwards
      (negative y): in (x, z) the corners run clockwise seen from above. */
  lemma TerrainFacesPointDown(m: Analytic, hs: seq<seq<real>>, g: nat, i: int, j: int, half: int)
    requires IsSquareRoot(m.sqrt) && g > 0 && 0 <= half < 2
    ensures FaceNormal(m, CornerPos(hs, g, i + CornerRow[3 * half], j + CornerCol[3 * half]),
                          CornerPos(hs, g, i + CornerRow[3 * half + 1], j + CornerCol[3 * half + 1]),
                          CornerPos(hs, g, i + CornerRow[3 * half + 2], j + CornerCol[3 * half + 2])).y < 0.0
  {
    var p1 := CornerPos(hs, g, i + CornerRow[3 * half], j + CornerCol[3 * half]);
    var p2 := CornerPos(hs, g, i + CornerRow[3 * half + 1], j + CornerCol[3 * half + 1]);
    var p3 := CornerPos(hs, g, i + CornerRow[3 * half + 2], j + CornerCol[3 * half + 2]);
    CellCrossY(hs, g, i, j, half);
    var step := TerrainSize / (g as real);
    assert step > 0.0;
    assert step * step > 0.0;
    NormalizedKeepsSign(m, Cross(p2.Minus(p1), p3.Minus(p1)), ShortLength);
  }
}
