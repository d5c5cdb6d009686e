/** Mesh primitives: the box (`addCube`) and the sphere (`addSphere`) appended to the vertex
    list, and the two decorations built from them (`addTree`, `addBuildingWithCube`). */
module Primitives {
  import opened Geometry
  import opened Config
  import opened Vertices
  import opened Blocks
  import Colours
  import E = ElementType

  // ---------------------------------------------------------------- box

  /** The eight corners of a box centred at `c`: the front face (z + d/2) counter-clockwise from
      the lower left, then the back face in the same order. */
  function CubeCorners(c: Vec3, w: real, h: real, d: real): seq<Vec3> {
    var hw, hh, hd := w / 2.0, h / 2.0, d / 2.0;
    [ Vec3(c.x - hw, c.y - hh, c.z + hd), Vec3(c.x + hw, c.y - hh, c.z + hd),
      Vec3(c.x + hw, c.y + hh, c.z + hd), Vec3(c.x - hw, c.y + hh, c.z + hd),
      Vec3(c.x - hw, c.y - hh, c.z - hd), Vec3(c.x + hw, c.y - hh, c.z - hd),
      Vec3(c.x + hw, c.y + hh, c.z - hd), Vec3(c.x - hw, c.y + hh, c.z - hd) ]
  }

  /** `faceData` of the later variant: the six corner indices (two triangles) of each face, in
      the order front, back, left, right, top, bottom. */
  const FaceIndices: seq<seq<int>> :=
    [[0, 1, 2, 0, 2, 3], [5, 4, 7, 5, 7, 6], [4, 0, 3, 4, 3, 7],
     [1, 5, 6, 1, 6, 2], [3, 2, 6, 3, 6, 7], [4, 5, 1, 4, 1, 0]]

  /** `cubeFaces` of the earlier variant: the same twelve triangles, one row each. */
  const TriangleIndices: seq<seq<int>> :=
    [[0, 1, 2], [0, 2, 3], [5, 4, 7], [5, 7, 6], [4, 0, 3], [4, 3, 7],
     [1, 5, 6], [1, 6, 2], [3, 2, 6], [3, 6, 7], [4, 5, 1], [4, 1, 0]]

  /** The texture coordinates of the six vertices of every face (later variant only). */
  const FaceTexCoords: seq<real> := [0.0, 0.0, 1.0, 0.0, 1.0, 1.0, 0.0, 0.0, 1.0, 1.0, 0.0, 1.0]

  lemma FaceIndicesInRange()
    ensures |FaceIndices| == 6
    ensures forall f :: 0 <= f < 6 ==> |FaceIndices[f]| == 6
    ensures forall f, s :: 0 <= f < 6 && 0 <= s < 6 ==> 0 <= FaceIndices[f][s] < 8
  {
  }

  lemma TriangleIndicesInRange()
    ensures |TriangleIndices| == 12
    ensures forall t :: 0 <= t < 12 ==> |TriangleIndices[t]| == 3
    ensures forall t, s :: 0 <= t < 12 && 0 <= s < 3 ==> 0 <= TriangleIndices[t][s] < 8
  {
  }

  /** Both tables list the same triangles: face `f` of the later variant is triangles `2f` and
      `2f + 1` of the earlier one, so both variants emit the same positions in the same order. */
  lemma IndexTablesAgree()
    ensures forall t, s :: 0 <= t < 12 && 0 <= s < 3 ==>
      TriangleIndices[t][s] == FaceIndices[t / 2][3 * (t % 2) + s]
  {
  }

  /** The `calculateNormal` of the triangle with corner indices `ix[0..3]`. */
  function TriangleNormal(m: Analytic, cs: seq<Vec3>, ix: seq<int>): Vec3
    requires |cs| == 8 && |ix| >= 3 && forall s :: 0 <= s < |ix| ==> 0 <= ix[s] < 8
  {
    CalculateNormal(m, cs[ix[0]], cs[ix[1]], cs[ix[2]])
  }

  /** One face of the later variant's box: six vertices with the normal of the face's first
      triangle and the face texture coordinates. */
  function CubeFace(m: Analytic, cs: seq<Vec3>, code: int, colour: Vec3, f: int): seq<Vertex>
    requires |cs| == 8 && 0 <= f < 6
  {
    FaceIndicesInRange();
    var ix := FaceIndices[f];
    var n := TriangleNormal(m, cs, ix);
    seq(6, s requires 0 <= s < 6 =>
      Vertex(cs[ix[s]], colour, n, code, FaceTexCoords[2 * s], FaceTexCoords[2 * s + 1]))
  }

  /** One triangle of the earlier variant's box, with its own normal and no texture
      coordinates. */
  function CubeTriangle(m: Analytic, cs: seq<Vec3>, code: int, colour: Vec3, t: int): seq<Vertex>
    requires |cs| == 8 && 0 <= t < 12
  {
    TriangleIndicesInRange();
    var ix := TriangleIndices[t];
    var n := TriangleNormal(m, cs, ix);
    seq(3, s requires 0 <= s < 3 => Vertex(cs[ix[s]], colour, n, code, 0.0, 0.0))
  }

  /** The faces of a box as blocks for `Concat`. */
  function FaceBlock(m: Analytic, cs: seq<Vec3>, code: int, colour: Vec3): int -> seq<Vertex>
    requires |cs| == 8
  {
    f => if 0 <= f < 6 then CubeFace(m, cs, code, colour, f) else []
  }

  /** The triangles of a box as blocks for `Concat`. */
  function TriangleBlock(m: Analytic, cs: seq<Vec3>, code: int, colour: Vec3): int -> seq<Vertex>
    requires |cs| == 8
  {
    t => if 0 <= t < 12 then CubeTriangle(m, cs, code, colour, t) else []
  }

  /** Faces of the later variant's box and triangles of the earlier one, written as functions
      so that the verifier does not unroll `Concat` over a literal count. */
  function CubeFaces(): nat { 6 }
  function CubeTriangles(): nat { 12 }

  /** The 36 vertices `addCube` appends: six faces in the later variant, twelve triangles in
      the earlier one. */
  function CubeVertices(v: Variant, m: Analytic, c: Vec3, w: real, h: real, code: int, d: real,
                        colour: Vec3): seq<Vertex>
  {
    var cs := CubeCorners(c, w, h, d);
    match v
    case V2 => Concat(FaceBlock(m, cs, code, colour), CubeFaces())
    case V1 => Concat(TriangleBlock(m, cs, code, colour), CubeTriangles())
  }

  /** One pass of the later variant's face loop: the face normal, then six vertices. */
  method AddCubeFace(buf: VertexBuffer, m: Analytic, cs: seq<Vec3>, code: int, colour: Vec3, f: int)
    requires |cs| == 8 && 0 <= f < 6
    modifies buf
    ensures buf.vertices == old(buf.vertices) + CubeFace(m, cs, code, colour, f)
  {
    FaceIndicesInRange();
    var ix := FaceIndices[f];
    var normal := CalculateNormal(m, cs[ix[0]], cs[ix[1]], cs[ix[2]]);
    ghost var face := CubeFace(m, cs, code, colour, f);
    for s := 0 to 6
      invariant buf.vertices == old(buf.vertices) + face[..s]
    {
      buf.Add(Vertex(cs[ix[s]], colour, normal, code, FaceTexCoords[2 * s], FaceTexCoords[2 * s + 1]));
      assert face[..s + 1] == face[..s] + [face[s]];
    }
    assert face[..6] == face;
  }

  /** One pass of the earlier variant's triangle loop: the triangle normal, then three
      vertices. */
  method AddCubeTriangle(buf: VertexBuffer, m: Analytic, cs: seq<Vec3>, code: int, colour: Vec3, t: int)
    requires |cs| == 8 && 0 <= t < 12
    modifies buf
    ensures buf.vertices == old(buf.vertices) + CubeTriangle(m, cs, code, colour, t)
  {
    TriangleIndicesInRange();
    var ix := TriangleIndices[t];
    var normal := CalculateNormal(m, cs[ix[0]], cs[ix[1]], cs[ix[2]]);
    buf.Add(Vertex(cs[ix[0]], colour, normal, code, 0.0, 0.0));
    buf.Add(Vertex(cs[ix[1]], colour, normal, code, 0.0, 0.0));
    buf.Add(Vertex(cs[ix[2]], colour, normal, code, 0.0, 0.0));
    ghost var tri := CubeTriangle(m, cs, code, colour, t);
    assert tri == [tri[0], tri[1], tri[2]];
  }

  /** `addCube(vertices, centre, width, height, type, depth, colour)`. */
  method AddCube(buf: VertexBuffer, v: Variant, m: Analytic, c: Vec3, w: real, h: real, code: int,
                 d: real, colour: Vec3)
    modifies buf
    ensures buf.vertices == old(buf.vertices) + CubeVertices(v, m, c, w, h, code, d, colour)
  {
    var cs := CubeCorners(c, w, h, d);
    ghost var before := buf.vertices;
    if v == V2 {
      for f := 0 to 6
        invariant buf.vertices == before + Concat(FaceBlock(m, cs, code, colour), f)
      {
        FacePass(buf, m, cs, code, colour, f, before);
      }
    } else {
      for t := 0 to 12
        invariant buf.vertices == before + Concat(TriangleBlock(m, cs, code, colour), t)
      {
        TrianglePass(buf, m, cs, code, colour, t, before);
      }
    }
  }

  /** Pass `f` of the face loop appends block `f`. */
  method FacePass(buf: VertexBuffer, m: Analytic, cs: seq<Vec3>, code: int, colour: Vec3, f: int, ghost before: seq<Vertex>)
    requires |cs| == 8 && 0 <= f < 6
    requires buf.vertices == before + Concat(FaceBlock(m, cs, code, colour), f)
    modifies buf
    ensures buf.vertices == before + Concat(FaceBlock(m, cs, code, colour), f + 1)
  {
    ghost var block := FaceBlock(m, cs, code, colour);
    AddCubeFace(buf, m, cs, code, colour, f);
    assert block(f) == CubeFace(m, cs, code, colour, f);
    AppendAssoc(before, Concat(block, f), block(f));
  }

  /** Pass `t` of the triangle loop appends block `t`. */
  method TrianglePass(buf: VertexBuffer, m: Analytic, cs: seq<Vec3>, code: int, colour: Vec3, t: int, ghost before: seq<Vertex>)
    requires |cs| == 8 && 0 <= t < 12
    requires buf.vertices == before + Concat(TriangleBlock(m, cs, code, colour), t)
    modifies buf
    ensures buf.vertices == before + Concat(TriangleBlock(m, cs, code, colour), t + 1)
  {
    ghost var block := TriangleBlock(m, cs, code, colour);
    AddCubeTriangle(buf, m, cs, code, colour, t);
    assert block(t) == CubeTriangle(m, cs, code, colour, t);
    AppendAssoc(before, Concat(block, t), block(t));
  }

  /** The later variant's box: vertex `s` of face `f` sits at position `6f + s`. */
  lemma CubeFacesAt(m: Analytic, cs: seq<Vec3>, code: int, colour: Vec3, f: int, s: int)
    requires |cs| == 8 && 0 <= f < 6 && 0 <= s < 6
    ensures |Concat(FaceBlock(m, cs, code, colour), CubeFaces())| == 36
    ensures Concat(FaceBlock(m, cs, code, colour), CubeFaces())[6 * f + s] == CubeFace(m, cs, code, colour, f)[s]
  {
    var block := FaceBlock(m, cs, code, colour);
    forall i | 0 <= i < 6 ensures |block(i)| == 6 { }
    ConcatAt(block, 6, CubeFaces(), f, s);
  }

  /** The earlier variant's box: vertex `s` of triangle `t` sits at position `3t + s`. */
  lemma CubeTrianglesAt(m: Analytic, cs: seq<Vec3>, code: int, colour: Vec3, t: int, s: int)
    requires |cs| == 8 && 0 <= t < 12 && 0 <= s < 3
    ensures |Concat(TriangleBlock(m, cs, code, colour), CubeTriangles())| == 36
    ensures Concat(TriangleBlock(m, cs, code, colour), CubeTriangles())[3 * t + s] == CubeTriangle(m, cs, code, colour, t)[s]
  {
    var block := TriangleBlock(m, cs, code, colour);
    forall i | 0 <= i < 12 ensures |block(i)| == 3 { }
    ConcatAt(block, 3, CubeTriangles(), t, s);
  }

  /** A box has 36 vertices, each carrying the requested code and colour and sitting on one of
      the eight corners. */
  lemma CubeShape(v: Variant, m: Analytic, c: Vec3, w: real, h: real, code: int, d: real, colour: Vec3)
    ensures var vs := CubeVertices(v, m, c, w, h, code, d, colour);
      && |vs| == 36
      && forall k :: 0 <= k < 36 ==>
        vs[k].code == code && vs[k].colour == colour && vs[k].pos in CubeCorners(c, w, h, d)
  {
    FaceIndicesInRange();
    TriangleIndicesInRange();
    var cs := CubeCorners(c, w, h, d);
    var vs := CubeVertices(v, m, c, w, h, code, d, colour);
    CubeFacesAt(m, cs, code, colour, 0, 0);
    CubeTrianglesAt(m, cs, code, colour, 0, 0);
    forall k | 0 <= k < 36
      ensures vs[k].code == code && vs[k].colour == colour && vs[k].pos in cs
    {
      CubeVertexShape(v, m, cs, code, colour, k);
    }
  }

  /** Vertex `k` of a box over corners `cs` carries the code and colour and sits on a corner. */
  lemma CubeVertexShape(v: Variant, m: Analytic, cs: seq<Vec3>, code: int, colour: Vec3, k: int)
    requires |cs| == 8 && 0 <= k < 36
    ensures var vs := match v
        case V2 => Concat(FaceBlock(m, cs, code, colour), CubeFaces())
        case V1 => Concat(TriangleBlock(m, cs, code, colour), CubeTriangles());
      && |vs| == 36 && vs[k].code == code && vs[k].colour == colour && vs[k].pos in cs
  {
    FaceIndicesInRange();
    TriangleIndicesInRange();
    if v == V2 {
      var f, s := k / 6, k % 6;
      assert 6 * f + s == k;
      CubeFacesAt(m, cs, code, colour, f, s);
      var vs := Concat(FaceBlock(m, cs, code, colour), CubeFaces());
      var face := CubeFace(m, cs, code, colour, f);
      assert vs[k] == face[s];
      assert face[s].code == code && face[s].colour == colour && face[s].pos == cs[FaceIndices[f][s]];
      var corner := FaceIndices[f][s];
      assert 0 <= corner < 8 && cs[corner] in cs;
    } else {
      var t, r := k / 3, k % 3;
      assert 3 * t + r == k;
      CubeTrianglesAt(m, cs, code, colour, t, r);
      var vs := Concat(TriangleBlock(m, cs, code, colour), CubeTriangles());
      var tri := CubeTriangle(m, cs, code, colour, t);
      assert vs[k] == tri[r];
      assert tri[r].code == code && tri[r].colour == colour && tri[r].pos == cs[TriangleIndices[t][r]];
      var corner := TriangleIndices[t][r];
      assert 0 <= corner < 8 && cs[corner] in cs;
    }
  }

  /** Within a face of the later variant all six vertices share the normal of the face's first
      triangle. */
  lemma FaceNormalShared(m: Analytic, c: Vec3, w: real, h: real, code: int, d: real, colour: Vec3,
                         f: int, s: int)
    requires 0 <= f < 6 && 0 <= s < 6
    ensures var vs := CubeVertices(V2, m, c, w, h, code, d, colour);
      |vs| == 36 && vs[6 * f + s].normal == vs[6 * f].normal
  {
    var cs := CubeCorners(c, w, h, d);
    CubeFacesAt(m, cs, code, colour, f, s);
    CubeFacesAt(m, cs, code, colour, f, 0);
  }

  /** Within a triangle of the earlier variant all three vertices share that triangle's
      normal. */
  lemma TriangleNormalShared(m: Analytic, c: Vec3, w: real, h: real, code: int, d: real, colour: Vec3,
                             t: int, r: int)
    requires 0 <= t < 12 && 0 <= r < 3
    ensures var vs := CubeVertices(V1, m, c, w, h, code, d, colour);
      |vs| == 36 && vs[3 * t + r].normal == vs[3 * t].normal
  {
    var cs := CubeCorners(c, w, h, d);
    CubeTrianglesAt(m, cs, code, colour, t, r);
    CubeTrianglesAt(m, cs, code, colour, t, 0);
    TriangleCarriesOneNormal(m, cs, code, colour, t, r);
  }

  /** The three vertices of one triangle carry the same normal. */
  lemma TriangleCarriesOneNormal(m: Analytic, cs: seq<Vec3>, code: int, colour: Vec3, t: int, r: int)
    requires |cs| == 8 && 0 <= t < 12 && 0 <= r < 3
    ensures CubeTriangle(m, cs, code, colour, t)[r].normal == CubeTriangle(m, cs, code, colour, t)[0].normal
  {
  }

  /** Vertex `s` of face `f` of the later variant's box sits on corner `FaceIndices[f][s]`. */
  lemma LaterCorner(m: Analytic, c: Vec3, w: real, h: real, code: int, d: real, colour: Vec3, f: int, s: int)
    requires 0 <= f < 6 && 0 <= s < 6
    ensures FaceIndices[f][s] in {0, 1, 2, 3, 4, 5, 6, 7}
    ensures var later := CubeVertices(V2, m, c, w, h, code, d, colour);
      |later| == 36 && later[6 * f + s].pos == CubeCorners(c, w, h, d)[FaceIndices[f][s]]
  {
    FaceIndicesInRange();
    CubeFacesAt(m, CubeCorners(c, w, h, d), code, colour, f, s);
  }

  /** Vertex `r` of triangle `t` of the earlier variant's box sits on corner
      `TriangleIndices[t][r]`. */
  lemma EarlierCorner(m: Analytic, c: Vec3, w: real, h: real, code: int, d: real, colour: Vec3, t: int, r: int)
    requires 0 <= t < 12 && 0 <= r < 3
    ensures TriangleIndices[t][r] in {0, 1, 2, 3, 4, 5, 6, 7}
    ensures var earlier := CubeVertices(V1, m, c, w, h, code, d, colour);
      |earlier| == 36 && earlier[3 * t + r].pos == CubeCorners(c, w, h, d)[TriangleIndices[t][r]]
  {
    TriangleIndicesInRange();
    CubeTrianglesAt(m, CubeCorners(c, w, h, d), code, colour, t, r);
  }

  /** Row `2f + half` of the earlier table is half `half` of row `f` of the later one. */
  lemma TableRowsAgree(f: int, half: int, r: int)
    requires 0 <= f < 6 && 0 <= half < 2 && 0 <= r < 3
    ensures TriangleIndices[2 * f + half][r] == FaceIndices[f][3 * half + r]
  {
    IndexTablesAgree();
    assert (2 * f + half) / 2 == f && (2 * f + half) % 2 == half;
  }

  /** Both variants place the same corners in the same order: vertex `r` of half `half` of
      face `f` in the later variant sits where vertex `r` of triangle `2f + half` does in the
      earlier one. */
  lemma CubePositionsAgree(m: Analytic, c: Vec3, w: real, h: real, code: int, d: real, colour: Vec3,
                           f: int, half: int, r: int)
    requires 0 <= f < 6 && 0 <= half < 2 && 0 <= r < 3
    ensures var later := CubeVertices(V2, m, c, w, h, code, d, colour);
      var earlier := CubeVertices(V1, m, c, w, h, code, d, colour);
      && |later| == 36 && |earlier| == 36
      && later[6 * f + 3 * half + r].pos == earlier[3 * (2 * f + half) + r].pos
  {
    TableRowsAgree(f, half, r);
    LaterCorner(m, c, w, h, code, d, colour, f, 3 * half + r);
    EarlierCorner(m, c, w, h, code, d, colour, 2 * f + half, r);
  }

  /** The first triangle of every face gets the same normal in both variants. */
  lemma CubeFirstNormalsAgree(m: Analytic, c: Vec3, w: real, h: real, code: int, d: real, colour: Vec3,
                              f: int)
    requires 0 <= f < 6
    ensures var later := CubeVertices(V2, m, c, w, h, code, d, colour);
      var earlier := CubeVertices(V1, m, c, w, h, code, d, colour);
      && |later| == 36 && |earlier| == 36
      && later[6 * f].normal == earlier[3 * (2 * f)].normal
  {
    BoxFirstNormalsAgree(m, CubeCorners(c, w, h, d), code, colour, f);
  }

  /** `CubeFirstNormalsAgree` over any eight corners. */
  lemma BoxFirstNormalsAgree(m: Analytic, cs: seq<Vec3>, code: int, colour: Vec3, f: int)
    requires |cs| == 8 && 0 <= f < 6
    ensures var later := Concat(FaceBlock(m, cs, code, colour), CubeFaces());
      var earlier := Concat(TriangleBlock(m, cs, code, colour), CubeTriangles());
      && |later| == 36 && |earlier| == 36
      && later[6 * f].normal == earlier[3 * (2 * f)].normal
  {
    FaceIndicesInRange();
    TriangleIndicesInRange();
    TableRowsAgree(f, 0, 0);
    TableRowsAgree(f, 0, 1);
    TableRowsAgree(f, 0, 2);
    var n := TriangleNormal(m, cs, FaceIndices[f]);
    assert TriangleNormal(m, cs, TriangleIndices[2 * f]) == n;
    CubeFacesAt(m, cs, code, colour, f, 0);
    CubeTrianglesAt(m, cs, code, colour, 2 * f, 0);
    assert CubeFace(m, cs, code, colour, f)[0].normal == n;
    assert CubeTriangle(m, cs, code, colour, 2 * f)[0].normal == n;
  }

  // ---------------------------------------------------------------- sphere

  /** Stacks (latitude bands) and sectors (longitude slices) of `addSphere`, written as
      functions rather than constants so that the verifier does not unroll `Concat` over
      every band and slice whenever it meets a literal count. */
  function Stacks(): nat { 8 }
  function Sectors(): nat { 8 }

  /** `Math.PI * i / stacks` and `2 * Math.PI * j / sectors`. */
  function Phi(m: Analytic, i: int): real { m.pi * (i as real) / (Stacks() as real) }
  function Theta(m: Analytic, j: int): real { 2.0 * m.pi * (j as real) / (Sectors() as real) }

  /** `getSpherePoint`. */
  function SpherePoint(m: Analytic, c: Vec3, r: real, phi: real, theta: real): Vec3 {
    Vec3(c.x + r * (m.sin(phi) * m.cos(theta)), c.y + r * m.cos(phi), c.z + r * (m.sin(phi) * m.sin(theta)))
  }

  /** The point of the sphere at band boundary `i` and slice boundary `j`. */
  function SphereGrid(m: Analytic, c: Vec3, r: real): (int, int) -> Vec3 {
    (i, j) => SpherePoint(m, c, r, Phi(m, i), Theta(m, j))
  }

  /** The four corners of band `i`, slice `j` over the grid of points `pt`: (phi, theta),
      (phi, next theta), (next phi, next theta), (next phi, theta). */
  function QuadCorners(pt: (int, int) -> Vec3, i: int, j: int): seq<Vec3> {
    [pt(i, j), pt(i, j + 1), pt(i + 1, j + 1), pt(i + 1, j)]
  }

  /** The corner of each of a quad's six vertices: triangles (p0, p1, p2) and (p0, p2, p3). */
  const QuadIndices: seq<int> := [0, 1, 2, 0, 2, 3]

  /** The `calculateNormal` of triangle `half` of a quad. */
  function QuadNormal(m: Analytic, ps: seq<Vec3>, half: int): Vec3
    requires |ps| == 4
  {
    if half == 0 then CalculateNormal(m, ps[0], ps[1], ps[2]) else CalculateNormal(m, ps[0], ps[2], ps[3])
  }

  /** The six vertices of band `i`, slice `j`, each triangle with its own normal, all Canopy. */
  function SphereQuad(m: Analytic, pt: (int, int) -> Vec3, colour: Vec3, i: int, j: int): seq<Vertex> {
    var ps := QuadCorners(pt, i, j);
    seq(6, s requires 0 <= s < 6 => Vertex(ps[QuadIndices[s]], colour, QuadNormal(m, ps, s / 3), E.Canopy, 0.0, 0.0))
  }

  /** The quads of a sphere over the grid of points `pt`, as cells of a grid. */
  function SphereCell(m: Analytic, pt: (int, int) -> Vec3, colour: Vec3): (int, int) -> seq<Vertex> {
    (i, j) => SphereQuad(m, pt, colour, i, j)
  }

  /** The vertices of a sphere over the grid of points `pt`, band by band and slice by
      slice. */
  function SphereMesh(m: Analytic, pt: (int, int) -> Vec3, colour: Vec3): seq<Vertex> {
    Grid(SphereCell(m, pt, colour), Stacks(), Sectors())
  }

  /** The 384 vertices `addSphere` appends. */
  function SphereVertices(m: Analytic, c: Vec3, r: real, colour: Vec3): seq<Vertex> {
    SphereMesh(m, SphereGrid(m, c, r), colour)
  }

  /** One pass of the inner loop of `addSphere`: four points, two normals, six vertices. */
  method AddSphereQuad(buf: VertexBuffer, m: Analytic, c: Vec3, r: real, colour: Vec3, i: int, j: int)
    modifies buf
    ensures buf.vertices == old(buf.vertices) + SphereQuad(m, SphereGrid(m, c, r), colour, i, j)
  {
    var phi, nextPhi := Phi(m, i), Phi(m, i + 1);
    var theta, nextTheta := Theta(m, j), Theta(m, j + 1);
    var p0 := SpherePoint(m, c, r, phi, theta);
    var p1 := SpherePoint(m, c, r, phi, nextTheta);
    var p2 := SpherePoint(m, c, r, nextPhi, nextTheta);
    var p3 := SpherePoint(m, c, r, nextPhi, theta);
    var normal1 := CalculateNormal(m, p0, p1, p2);
    var normal2 := CalculateNormal(m, p0, p2, p3);
    buf.Add(Vertex(p0, colour, normal1, E.Canopy, 0.0, 0.0));
    buf.Add(Vertex(p1, colour, normal1, E.Canopy, 0.0, 0.0));
    buf.Add(Vertex(p2, colour, normal1, E.Canopy, 0.0, 0.0));
    buf.Add(Vertex(p0, colour, normal2, E.Canopy, 0.0, 0.0));
    buf.Add(Vertex(p2, colour, normal2, E.Canopy, 0.0, 0.0));
    buf.Add(Vertex(p3, colour, normal2, E.Canopy, 0.0, 0.0));
    ghost var ps := QuadCorners(SphereGrid(m, c, r), i, j);
    assert ps == [p0, p1, p2, p3];
    ghost var quad := SphereQuad(m, SphereGrid(m, c, r), colour, i, j);
    assert quad == [quad[0], quad[1], quad[2], quad[3], quad[4], quad[5]];
  }

  /** One pass of the outer loop of `addSphere`: the eight slices of band `i`. */
  method AddSphereBand(buf: VertexBuffer, m: Analytic, c: Vec3, r: real, colour: Vec3, i: int)
    modifies buf
    ensures buf.vertices == old(buf.vertices) + Row(SphereCell(m, SphereGrid(m, c, r), colour), Sectors(), i)
  {
    ghost var slices := Cells(SphereCell(m, SphereGrid(m, c, r), colour), i);
    ghost var before := buf.vertices;
    for j := 0 to Sectors()
      invariant buf.vertices == before + Concat(slices, j)
    {
      AddSphereQuad(buf, m, c, r, colour, i, j);
      assert slices(j) == SphereQuad(m, SphereGrid(m, c, r), colour, i, j);
      assert Concat(slices, j + 1) == Concat(slices, j) + slices(j);
      AppendAssoc(before, Concat(slices, j), slices(j));
    }
  }

  /** `addSphere(vertices, centre, radius, colour)`. */
  method AddSphere(buf: VertexBuffer, m: Analytic, c: Vec3, r: real, colour: Vec3)
    modifies buf
    ensures buf.vertices == old(buf.vertices) + SphereVertices(m, c, r, colour)
  {
    ghost var cell := SphereCell(m, SphereGrid(m, c, r), colour);
    ghost var bands := Rows(cell, Sectors());
    for i := 0 to Stacks()
      invariant buf.vertices == old(buf.vertices) + Concat(bands, i)
    {
      AddSphereBand(buf, m, c, r, colour, i);
      assert bands(i) == Row(cell, Sectors(), i);
      assert Concat(bands, i + 1) == Concat(bands, i) + bands(i);
      AppendAssoc(old(buf.vertices), Concat(bands, i), bands(i));
    }
  }

  /** Vertex `s` of slice `j` of band `i` sits at position `48i + 6j + s`. */
  lemma SphereAt(m: Analytic, pt: (int, int) -> Vec3, colour: Vec3, i: int, j: int, s: int)
    requires 0 <= i < Stacks() && 0 <= j < Sectors() && 0 <= s < 6
    ensures |SphereMesh(m, pt, colour)| == 384
    ensures SphereMesh(m, pt, colour)[48 * i + (6 * j + s)] == SphereQuad(m, pt, colour, i, j)[s]
  {
    var cell := SphereCell(m, pt, colour);
    SphereBandAt(m, pt, colour, i, j, s);
    SphereBandsLength(m, pt, colour);
    ConcatAt(Rows(cell, Sectors()), 48, Stacks(), i, 6 * j + s);
  }

  /** Vertex `s` of slice `j` sits at position `6j + s` of its band. */
  lemma SphereBandAt(m: Analytic, pt: (int, int) -> Vec3, colour: Vec3, i: int, j: int, s: int)
    requires 0 <= j < Sectors() && 0 <= s < 6
    ensures Row(SphereCell(m, pt, colour), Sectors(), i)[6 * j + s] == SphereQuad(m, pt, colour, i, j)[s]
  {
    var slices := Cells(SphereCell(m, pt, colour), i);
    SphereSlicesLength(m, pt, colour, i);
    ConcatAt(slices, 6, Sectors(), j, s);
  }

  /** Every slice of a band holds six vertices. */
  lemma SphereSlicesLength(m: Analytic, pt: (int, int) -> Vec3, colour: Vec3, i: int)
    ensures forall b :: |Cells(SphereCell(m, pt, colour), i)(b)| == 6
  {
  }

  /** Every band holds 48 vertices. */
  lemma SphereBandsLength(m: Analytic, pt: (int, int) -> Vec3, colour: Vec3)
    ensures forall a :: |Rows(SphereCell(m, pt, colour), Sectors())(a)| == 48
  {
    forall a ensures |Rows(SphereCell(m, pt, colour), Sectors())(a)| == 48 {
      SphereSlicesLength(m, pt, colour, a);
      ConcatLength(Cells(SphereCell(m, pt, colour), a), 6, Sectors());
    }
  }

  /** Vertex `s` of a quad sits on corner `QuadIndices[s]` and carries the normal of its
      triangle, which the triangle's first vertex carries too. */
  lemma QuadVertexAt(m: Analytic, pt: (int, int) -> Vec3, colour: Vec3, i: int, j: int, s: int)
    requires 0 <= s < 6
    ensures 0 <= QuadIndices[s] < 4
    ensures var quad := SphereQuad(m, pt, colour, i, j);
      && |quad| == 6
      && quad[s].pos == QuadCorners(pt, i, j)[QuadIndices[s]]
      && quad[s].code == E.Canopy && quad[s].colour == colour
      && quad[s].normal == quad[if s < 3 then 0 else 3].normal
      && quad[s].normal == QuadNormal(m, QuadCorners(pt, i, j), if s < 3 then 0 else 1)
  {
    assert s / 3 == if s < 3 then 0 else 1;
  }

  /** A sphere has 384 vertices, all Canopy with the requested colour. Stated for any grid of
      points, so in particular for `SphereGrid`. */
  lemma SphereCodes(m: Analytic, pt: (int, int) -> Vec3, colour: Vec3, i: int, j: int, s: int)
    requires 0 <= i < Stacks() && 0 <= j < Sectors() && 0 <= s < 6
    ensures |SphereMesh(m, pt, colour)| == 384
    ensures SphereMesh(m, pt, colour)[48 * i + (6 * j + s)].code == E.Canopy
    ensures SphereMesh(m, pt, colour)[48 * i + (6 * j + s)].colour == colour
  {
    SphereAt(m, pt, colour, i, j, s);
    QuadVertexAt(m, pt, colour, i, j, s);
  }

  /** The normals of a quad's two triangles, read off its corners. */
  lemma QuadNormalAt(m: Analytic, pt: (int, int) -> Vec3, i: int, j: int, half: int)
    ensures QuadNormal(m, QuadCorners(pt, i, j), half)
         == (if half == 0 then CalculateNormal(m, pt(i, j), pt(i, j + 1), pt(i + 1, j + 1))
             else CalculateNormal(m, pt(i, j), pt(i + 1, j + 1), pt(i + 1, j)))
  {
    var ps := QuadCorners(pt, i, j);
    assert ps[0] == pt(i, j) && ps[1] == pt(i, j + 1) && ps[2] == pt(i + 1, j + 1) && ps[3] == pt(i + 1, j);
  }

  /** Every vertex of a sphere carries the `calculateNormal` of its own triangle: the first
      three of a quad that of (p0, p1, p2), the last three that of (p0, p2, p3). */
  lemma SphereNormals(m: Analytic, pt: (int, int) -> Vec3, colour: Vec3, i: int, j: int, s: int)
    requires 0 <= i < Stacks() && 0 <= j < Sectors() && 0 <= s < 6
    ensures |SphereMesh(m, pt, colour)| == 384
    ensures SphereMesh(m, pt, colour)[48 * i + (6 * j + s)].normal
         == (if s < 3 then CalculateNormal(m, pt(i, j), pt(i, j + 1), pt(i + 1, j + 1))
             else CalculateNormal(m, pt(i, j), pt(i + 1, j + 1), pt(i + 1, j)))
  {
    SphereAt(m, pt, colour, i, j, s);
    QuadVertexAt(m, pt, colour, i, j, s);
    QuadNormalAt(m, pt, i, j, if s < 3 then 0 else 1);
  }

  /** The Pythagorean identity at angle `x`. */
  ghost predicate PythagoreanAt(m: Analytic, x: real) {
    m.sin(x) * m.sin(x) + m.cos(x) * m.cos(x) == 1.0
  }

  /** The hypothesis that `sin` and `cos` satisfy the Pythagorean identity, which the
      sphere's geometry rests on. */
  ghost predicate IsTrigonometric(m: Analytic) {
    forall x :: PythagoreanAt(m, x)
  }

  /** Every point `getSpherePoint` returns lies at distance `r` from the centre. */
  lemma SpherePointOnSphere(m: Analytic, c: Vec3, r: real, phi: real, theta: real)
    requires IsTrigonometric(m)
    ensures SpherePoint(m, c, r, phi, theta).Minus(c).SquaredLength() == r * r
  {
    var sp, cp, st, ct := m.sin(phi), m.cos(phi), m.sin(theta), m.cos(theta);
    assert PythagoreanAt(m, phi) && PythagoreanAt(m, theta);
    var d := SpherePoint(m, c, r, phi, theta).Minus(c);
    assert d == Vec3(r * (sp * ct), r * cp, r * (sp * st));
    calc {
      d.SquaredLength();
      (r * r) * ((sp * sp) * (ct * ct + st * st) + cp * cp);
      (r * r) * (sp * sp + cp * cp);
      r * r;
    }
  }

  /** Every vertex of a sphere lies at distance `r` from its centre. */
  lemma SphereVerticesOnSphere(m: Analytic, c: Vec3, r: real, colour: Vec3, i: int, j: int, s: int)
    requires IsTrigonometric(m)
    requires 0 <= i < Stacks() && 0 <= j < Sectors() && 0 <= s < 6
    ensures var vs := SphereVertices(m, c, r, colour);
      |vs| == 384 && vs[48 * i + (6 * j + s)].pos.Minus(c).SquaredLength() == r * r
  {
    var pt := SphereGrid(m, c, r);
    SphereAt(m, pt, colour, i, j, s);
    QuadVertexAt(m, pt, colour, i, j, s);
    var k := QuadIndices[s];
    var ps := QuadCorners(pt, i, j);
    var a, b := if k == 0 || k == 1 then i else i + 1, if k == 0 || k == 3 then j else j + 1;
    assert ps[k] == pt(a, b);
    SpherePointOnSphere(m, c, r, Phi(m, a), Theta(m, b));
  }

  // ---------------------------------------------------------------- extents of a box

  /** `p` lies in the axis-aligned box of size `w` by `h` by `d` centred at `c`. */
  predicate InBox(p: Vec3, c: Vec3, w: real, h: real, d: real) {
    && c.x - w / 2.0 <= p.x <= c.x + w / 2.0
    && c.y - h / 2.0 <= p.y <= c.y + h / 2.0
    && c.z - d / 2.0 <= p.z <= c.z + d / 2.0
  }

  /** Every vertex of a box of non-negative size lies within it. */
  lemma CubeBounds(v: Variant, m: Analytic, c: Vec3, w: real, h: real, code: int, d: real, colour: Vec3)
    requires 0.0 <= w && 0.0 <= h && 0.0 <= d
    ensures var vs := CubeVertices(v, m, c, w, h, code, d, colour);
      && |vs| == 36
      && forall k :: 0 <= k < 36 ==> InBox(vs[k].pos, c, w, h, d)
  {
    CubeShape(v, m, c, w, h, code, d, colour);
    var cs := CubeCorners(c, w, h, d);
    assert forall p :: p in cs ==> InBox(p, c, w, h, d);
  }

  // ---------------------------------------------------------------- tree

  const TrunkHeight: real := 2.0
  const TrunkWidth: real := 0.3
  const CrownRadius: real := 1.2

  /** The centre of the trunk box of a tree standing at `(x, y, z)`. */
  function TrunkCentre(x: real, y: real, z: real): Vec3 { Vec3(x, y + TrunkHeight / 2.0, z) }

  /** The centre of the crown sphere of a tree standing at `(x, y, z)`: 0.6 above the top of
      the trunk, less than the crown radius 1.2, so the crown swallows the trunk's top. */
  function CrownCentre(x: real, y: real, z: real): Vec3 { Vec3(x, y + TrunkHeight + CrownRadius / 2.0, z) }

  /** The 420 vertices `addTree` appends: a brown trunk box, then a green crown sphere. */
  function TreeVertices(v: Variant, m: Analytic, x: real, y: real, z: real): seq<Vertex> {
    CubeVertices(v, m, TrunkCentre(x, y, z), TrunkWidth, TrunkHeight, E.Trunk, TrunkWidth, Colours.TrunkColour)
    + SphereVertices(m, CrownCentre(x, y, z), CrownRadius, Colours.CanopyColour)
  }

  /** `addTree(vertices, x, baseY, z)`. */
  method AddTree(buf: VertexBuffer, v: Variant, m: Analytic, x: real, y: real, z: real)
    modifies buf
    ensures buf.vertices == old(buf.vertices) + TreeVertices(v, m, x, y, z)
  {
    AddCube(buf, v, m, TrunkCentre(x, y, z), TrunkWidth, TrunkHeight, E.Trunk, TrunkWidth, Colours.TrunkColour);
    AddSphere(buf, m, CrownCentre(x, y, z), CrownRadius, Colours.CanopyColour);
    AppendAssoc(old(buf.vertices),
                CubeVertices(v, m, TrunkCentre(x, y, z), TrunkWidth, TrunkHeight, E.Trunk, TrunkWidth, Colours.TrunkColour),
                SphereVertices(m, CrownCentre(x, y, z), CrownRadius, Colours.CanopyColour));
  }

  /** The trunk of a tree: 36 Trunk vertices in the trunk colour, standing on `y` and reaching
      `y + 2`. */
  lemma TrunkShape(v: Variant, m: Analytic, x: real, y: real, z: real, k: int)
    requires 0 <= k < 36
    ensures var tv := TreeVertices(v, m, x, y, z);
      && |tv| == 420
      && tv[k].code == E.Trunk && tv[k].colour == Colours.TrunkColour
      && y <= tv[k].pos.y <= y + TrunkHeight
  {
    var c := TrunkCentre(x, y, z);
    var trunk := CubeVertices(v, m, c, TrunkWidth, TrunkHeight, E.Trunk, TrunkWidth, Colours.TrunkColour);
    var crown := SphereVertices(m, CrownCentre(x, y, z), CrownRadius, Colours.CanopyColour);
    CubeShape(v, m, c, TrunkWidth, TrunkHeight, E.Trunk, TrunkWidth, Colours.TrunkColour);
    CubeBounds(v, m, c, TrunkWidth, TrunkHeight, E.Trunk, TrunkWidth, Colours.TrunkColour);
    SphereCodes(m, SphereGrid(m, CrownCentre(x, y, z), CrownRadius), Colours.CanopyColour, 0, 0, 0);
    assert TreeVertices(v, m, x, y, z)[k] == trunk[k];
  }

  /** The crown of a tree: 384 Canopy vertices in the crown colour. */
  lemma CrownShape(v: Variant, m: Analytic, x: real, y: real, z: real, i: int, j: int, s: int)
    requires 0 <= i < Stacks() && 0 <= j < Sectors() && 0 <= s < 6
    ensures var tv := TreeVertices(v, m, x, y, z);
      && |tv| == 420
      && tv[36 + (48 * i + (6 * j + s))].code == E.Canopy
      && tv[36 + (48 * i + (6 * j + s))].colour == Colours.CanopyColour
  {
    CrownAt(v, m, x, y, z, i, j, s);
    SphereCodes(m, SphereGrid(m, CrownCentre(x, y, z), CrownRadius), Colours.CanopyColour, i, j, s);
  }

  /** Crown vertex `48i + 6j + s` is vertex `36 + 48i + 6j + s` of the tree; with
      `SphereVerticesOnSphere` it lies at distance 1.2 from `CrownCentre`. */
  lemma CrownAt(v: Variant, m: Analytic, x: real, y: real, z: real, i: int, j: int, s: int)
    requires 0 <= i < Stacks() && 0 <= j < Sectors() && 0 <= s < 6
    ensures |SphereVertices(m, CrownCentre(x, y, z), CrownRadius, Colours.CanopyColour)| == 384
    ensures |TreeVertices(v, m, x, y, z)| == 420
    ensures TreeVertices(v, m, x, y, z)[36 + (48 * i + (6 * j + s))]
         == SphereVertices(m, CrownCentre(x, y, z), CrownRadius, Colours.CanopyColour)[48 * i + (6 * j + s)]
  {
    CubeShape(v, m, TrunkCentre(x, y, z), TrunkWidth, TrunkHeight, E.Trunk, TrunkWidth, Colours.TrunkColour);
    SphereCodes(m, SphereGrid(m, CrownCentre(x, y, z), CrownRadius), Colours.CanopyColour, i, j, s);
  }

  // ---------------------------------------------------------------- building

  /** The world coordinate of the middle of a footprint that starts at cell `s` and spans
      `size` cells: `(s + size / 2) / g * TERRAIN_SIZE - TERRAIN_SIZE / 2`. */
  function FootprintCentre(s: int, size: int, g: nat): real
    requires g > 0
  {
    ((s as real) + (size as real) / 2.0) / (g as real) * TerrainSize - TerrainSize / 2.0
  }

  /** The world length of `cells` grid cells. */
  function CellsToWorld(cells: real, g: nat): real
    requires g > 0
  {
    cells * TerrainSize / (g as real)
  }

  /** The wall box of a building: grounded at height 0, as tall as the building. */
  function WallCentre(sx: int, sz: int, w: int, d: int, height: real, g: nat): Vec3
    requires g > 0
  {
    Vec3(FootprintCentre(sx, w, g), height / 2.0, FootprintCentre(sz, d, g))
  }

  /** The roof box: one unit thick, centred half a unit above the wall top. */
  function RoofCentre(sx: int, sz: int, w: int, d: int, height: real, g: nat): Vec3
    requires g > 0
  {
    Vec3(FootprintCentre(sx, w, g), height + 0.5, FootprintCentre(sz, d, g))
  }

  /** The 72 vertices `addBuildingWithCube` appends: the wall box, then the roof box, which is
      half a cell wider and deeper. */
  function BuildingVertices(v: Variant, m: Analytic, sx: int, sz: int, w: int, d: int, height: real,
                            g: nat): seq<Vertex>
    requires g > 0
  {
    CubeVertices(v, m, WallCentre(sx, sz, w, d, height, g), CellsToWorld(w as real, g), height, E.HouseWall,
                 CellsToWorld(d as real, g), Colours.WallColour)
    + CubeVertices(v, m, RoofCentre(sx, sz, w, d, height, g), CellsToWorld(w as real + 0.5, g), 1.0, E.Roof,
                   CellsToWorld(d as real + 0.5, g), Colours.RoofColour)
  }

  /** `addBuildingWithCube(vertices, startX, startZ, width, depth, height, gridSize)`. */
  method AddBuildingWithCube(buf: VertexBuffer, v: Variant, m: Analytic, sx: int, sz: int, w: int, d: int,
                             height: real, g: nat)
    requires g > 0
    modifies buf
    ensures buf.vertices == old(buf.vertices) + BuildingVertices(v, m, sx, sz, w, d, height, g)
  {
    AddCube(buf, v, m, WallCentre(sx, sz, w, d, height, g), CellsToWorld(w as real, g), height, E.HouseWall,
            CellsToWorld(d as real, g), Colours.WallColour);
    AddCube(buf, v, m, RoofCentre(sx, sz, w, d, height, g), CellsToWorld(w as real + 0.5, g), 1.0, E.Roof,
            CellsToWorld(d as real + 0.5, g), Colours.RoofColour);
    AppendAssoc(old(buf.vertices),
                CubeVertices(v, m, WallCentre(sx, sz, w, d, height, g), CellsToWorld(w as real, g), height,
                             E.HouseWall, CellsToWorld(d as real, g), Colours.WallColour),
                CubeVertices(v, m, RoofCentre(sx, sz, w, d, height, g), CellsToWorld(w as real + 0.5, g), 1.0,
                             E.Roof, CellsToWorld(d as real + 0.5, g), Colours.RoofColour));
  }

  /** The walls of a building: 36 HouseWall vertices in the wall colour, between the ground
      and `height`. */
  lemma WallShape(v: Variant, m: Analytic, sx: int, sz: int, w: int, d: int, height: real, g: nat, k: int)
    requires g > 0 && 0 <= w && 0 <= d && 0.0 <= height
    requires 0 <= k < 36
    ensures var bv := BuildingVertices(v, m, sx, sz, w, d, height, g);
      && |bv| == 72
      && bv[k].code == E.HouseWall && bv[k].colour == Colours.WallColour
      && 0.0 <= bv[k].pos.y <= height
  {
    var wc, ww, wd := WallCentre(sx, sz, w, d, height, g), CellsToWorld(w as real, g), CellsToWorld(d as real, g);
    CellsNonNegative(w as real, g);
    CellsNonNegative(d as real, g);
    CubeShape(v, m, wc, ww, height, E.HouseWall, wd, Colours.WallColour);
    CubeBounds(v, m, wc, ww, height, E.HouseWall, wd, Colours.WallColour);
    RoofLength(v, m, sx, sz, w, d, height, g);
  }

  /** The roof of a building: 36 Roof vertices in the roof colour, between `height` and
      `height + 1`, so the roof sits on the wall top. */
  lemma RoofShape(v: Variant, m: Analytic, sx: int, sz: int, w: int, d: int, height: real, g: nat, k: int)
    requires g > 0 && 0 <= w && 0 <= d
    requires 36 <= k < 72
    ensures var bv := BuildingVertices(v, m, sx, sz, w, d, height, g);
      && |bv| == 72
      && bv[k].code == E.Roof && bv[k].colour == Colours.RoofColour
      && height <= bv[k].pos.y <= height + 1.0
  {
    var rc, rw, rd := RoofCentre(sx, sz, w, d, height, g), CellsToWorld(w as real + 0.5, g), CellsToWorld(d as real + 0.5, g);
    CellsNonNegative(w as real + 0.5, g);
    CellsNonNegative(d as real + 0.5, g);
    CubeShape(v, m, rc, rw, 1.0, E.Roof, rd, Colours.RoofColour);
    CubeBounds(v, m, rc, rw, 1.0, E.Roof, rd, Colours.RoofColour);
    RoofLength(v, m, sx, sz, w, d, height, g);
  }

  /** The wall box fills the first 36 entries of a building. */
  lemma RoofLength(v: Variant, m: Analytic, sx: int, sz: int, w: int, d: int, height: real, g: nat)
    requires g > 0
    ensures |CubeVertices(v, m, WallCentre(sx, sz, w, d, height, g), CellsToWorld(w as real, g), height,
                          E.HouseWall, CellsToWorld(d as real, g), Colours.WallColour)| == 36
    ensures |BuildingVertices(v, m, sx, sz, w, d, height, g)| == 72
  {
    CubeShape(v, m, WallCentre(sx, sz, w, d, height, g), CellsToWorld(w as real, g), height, E.HouseWall,
              CellsToWorld(d as real, g), Colours.WallColour);
    CubeShape(v, m, RoofCentre(sx, sz, w, d, height, g), CellsToWorld(w as real + 0.5, g), 1.0, E.Roof,
              CellsToWorld(d as real + 0.5, g), Colours.RoofColour);
  }

  lemma CellsNonNegative(cells: real, g: nat)
    requires g > 0 && 0.0 <= cells
    ensures 0.0 <= CellsToWorld(cells, g)
  {
  }

  /** The roof overhangs the wall by a quarter cell on every side. */
  lemma RoofOverhang(w: int, g: nat)
    requires g > 0
    ensures CellsToWorld(w as real + 0.5, g) / 2.0 == CellsToWorld(w as real, g) / 2.0 + CellsToWorld(0.25, g)
  {
  }
}
