# Terrain mesh generator, modelled in Dafny

This project models the procedural terrain generator of the GL demo application. The generator comes in two
variants, and both are modelled:

- `TerrainData` is the earlier generator, written `V1` in the model.
- `TerrainDataV2` is the full pipeline, written `V2`.

`Config.Variant` selects the variant wherever the two differ. A call of `generateTerrainMesh()` runs these
stages:

1. It synthesizes a 50 x 50 height grid: sine/cosine octaves plus seeded noise, clamped to [-2, 10].
2. It sets up a Land type grid and takes the height range.
3. It stamps four features into both grids: a road, a water pool, a lawn and a building pad.
4. In the full pipeline with interpolation on, it resamples both grids to 200 x 200; the heights are bilinear
   plus jitter, the types come from the nearest base cell.
5. It triangulates every grid cell into two triangles.
6. It places trees (a box trunk and an 8 x 8 sphere crown) and buildings (a wall box and a roof box) on random
   candidate cells that pass a type test.
7. In the full pipeline it averages the face normals of the vertices that share a printed position key.
8. It packs the vertex list into flat attribute arrays.

Stage modules:

- `HeightField` is the height synthesizer.
- `Overlay` holds the stamps.
- `Resample` is the resampler.
- `Triangulation` is the triangulator.
- `Decoration` and `Primitives` do placement, boxes and spheres.
- `Smoothing` is the normal smoother.
- `Packing` is the packer.
- `Generator` is the pipeline.

Support modules:

- `Geometry`, `Numeric` and `Grids` hold vectors, the Java operators and grid reads.
- `Vertices` holds the vertex record and the growing vertex list, a class with a `seq` field.
- `Blocks` describes lists built by nested appending loops.
- `Colours` is `getColorForType`.
- `ElementType` holds the codes.

How the imperative code is modelled:

- The height and type grids are `array2` values that the stamps and loops update in place.
- The vertex list is a `VertexBuffer` object that the builders append to.
- Every loop is proved against a specification function of its inputs, for example `TerrainMesh`, `Forest`,
  `Buildings`, `SphereMesh`, `CubeVertices`, `Smoothed` and `LaidOut`.
- The properties of those functions are proved as lemmas: lengths, positions of each vertex, codes, colours,
  normals, bounds, and agreement between the two variants.

Inputs the model takes as parameters:

- `java.util.Random` is replaced by its draws, which are passed in as sequences.
- Each `getColorForType` call seeds a fresh `Random(42)` and reads its first float. That float is therefore one
  fixed draw (`draw`). It is the first draw of the height grid, because that grid also starts from
  `Random(42)`.
- `Math.sqrt`, `Math.sin`, `Math.cos` and `Math.PI` are fields of `Geometry.Analytic`. Where a proof needs them
  exact, it assumes `IsSquareRoot` or `IsTrigonometric` as a hypothesis.
- Heights and coordinates are exact reals.

Behaviour of the code worth noting:

- **Road level.** The road is levelled to `(maxHeight - minHeight) / 2`, which is half the span and not the
  midpoint of the height range (`Overlay.RoadLevelIsHalfSpan`).
- **Water depth in the earlier variant.** The earlier water stamp writes `minHeight - rate * 1.5`. Its pool is
  therefore deepest at the rim and level with `minHeight` at the centre; only the later variant is deeper
  towards the centre (`Overlay.PoolDepthOrder`).
- **Degenerate normals.** A degenerate triangle gets the zero vector from `calculateNormal`; no upward
  default normal is substituted (`Geometry.CalculateNormalFacts`). An averaged normal no longer than 0.0001 is left unnormalised
  (`Smoothing.SmoothedNormal`).
- **Colours.** The colour of a code is the same on every call, because each call seeds `Random(42)` afresh. The
  earlier variant's colour switch uses raw literals: its "building" case 4 is the Canopy code, and the Building
  code 6 falls to the ground colour (`Colours.EarlierVariantColourCases`).
- **Height range.** In the full pipeline the range stored in the mesh is recomputed over the final grid after
  the stamps and the resampling. It is not the range found during synthesis.

One property that follows from the code: the terrain triangles are emitted as (i, j), (i+1, j), (i, j+1) and
(i+1, j), (i+1, j+1), (i, j+1). For both of them the face normal that smoothing computes points downwards
(`Triangulation.TerrainFacesPointDown`).

## Model

| member | source | states |
|---|---|---|
| ElementType.CodesDistinct | app/src/main/java/com/example/gl/ElementType.java:4-12 | the nine element codes are pairwise distinct and are exactly 0..8 |
| ElementType.GroundAndPropPartition | app/src/main/java/com/example/gl/ElementType.java:4-12 | every code is either a ground code (Land, Road, WaterPool, Lawn, Building) or a prop code (Canopy, Trunk, HouseWall, Roof), never both |
| ElementType.LiteralsAgree | app/src/main/java/com/example/gl/ElementType.java:4-12 | the raw literals 0..3 of the earlier variant are the Land, Road, WaterPool and Lawn codes |
| Numeric.ClampReal | app/src/main/java/com/example/gl/TerrainDataV2.java:113 | `max(lo, min(hi, x))` lies in [lo, hi], equals x inside it and the violated bound outside |
| Numeric.ClampInt | app/src/main/java/com/example/gl/TerrainDataV2.java:148-151 | the integer clamp lies in [lo, hi] and keeps values already inside |
| Numeric.Floor | app/src/main/java/com/example/gl/TerrainDataV2.java:143-146 | `(int) Math.floor(x)` is the greatest integer not above x |
| Numeric.Round | app/src/main/java/com/example/gl/TerrainDataV2.java:172-173 | `Math.round(x)` is within half a unit of x, halves rounded up |
| Colours.ColourInRange | app/src/main/java/com/example/gl/TerrainDataV2.java:510-537 | for a draw in [0, 1) every channel of every code's colour lies in [0, 1], in both variants |
| Colours.EarlierVariantColourCases | app/src/main/java/com/example/gl/TerrainData.java:217-240 | in the earlier variant the Building code gets the ground colour and the Canopy code gets the brown of the later variant's Building case |
| Colours.GroundColoursDiffer | app/src/main/java/com/example/gl/TerrainDataV2.java:512-536 | the Road colour is grey, and Land, Road, WaterPool and Lawn get four different colours |
| Geometry.CalculateNormalFacts | app/src/main/java/com/example/gl/TerrainDataV2.java:308-326 | `calculateNormal` is perpendicular to both edges, has unit length when the cross product is non-degenerate, and is the zero vector for a degenerate triangle |
| Geometry.NormalizedIsUnit | app/src/main/java/com/example/gl/TerrainDataV2.java:280-285 | a vector longer than the threshold comes out of normalisation with unit length |
| Geometry.CrossIsPerpendicular | app/src/main/java/com/example/gl/TerrainDataV2.java:311-316 | the cross product written out component by component is perpendicular to both edges |
| Geometry.WithinRadiusExact | app/src/main/java/com/example/gl/TerrainDataV2.java:556-557 | with an exact root, the disc test `sqrt(di^2 + dj^2) <= radius` is the integer test `di^2 + dj^2 <= radius^2` on a non-negative radius |
| Vertices.VertexBuffer.constructor | app/src/main/java/com/example/gl/TerrainDataV2.java:330 | the vertex list starts empty |
| Vertices.VertexBuffer.Add | app/src/main/java/com/example/gl/TerrainDataV2.java:490 | `vertices.add` appends one vertex at the end |
| Vertices.VertexBuffer.SetNormal | app/src/main/java/com/example/gl/TerrainDataV2.java:263-266 | writing `nx, ny, nz` changes the normal of that one entry and nothing else |
| HeightField.JitterBound | app/src/main/java/com/example/gl/TerrainDataV2.java:112 | the noise of one draw lies in [-1, 1), and in [-0.75, 0.75) in the later variant |
| HeightField.BaseHeight | app/src/main/java/com/example/gl/TerrainDataV2.java:98-115 | a base height lies in [-2, 10] and equals wave plus noise whenever that sum is inside the range |
| HeightField.GenerateBaseHeightMap | app/src/main/java/com/example/gl/TerrainDataV2.java:95-120 | the fresh n x n grid holds at cell (i, j) the `BaseHeight` of that cell and its draw `draws[i][j]` |
| HeightField.LandGrid | app/src/main/java/com/example/gl/TerrainDataV2.java:340-345 | the fresh type grid is Land everywhere |
| HeightField.HeightRange | app/src/main/java/com/example/gl/TerrainDataV2.java:374-382 | the range contains 0 and every cell, and each end is 0 or the height of some cell |
| HeightField.RangeUnique | app/src/main/java/com/example/gl/TerrainDataV2.java:374-382 | that range is determined by the grid: two ranges of the same grid have the same ends |
| Overlay.AddRoad | app/src/main/java/com/example/gl/TerrainDataV2.java:539-549 | every in-bounds cell of the half-open band becomes Road at `(hi - lo) / 2`; every other cell is unchanged |
| Overlay.RoadLevelIsHalfSpan | app/src/main/java/com/example/gl/TerrainDataV2.java:544 | the road level is the midpoint minus `lo`: non-negative, at least `lo`, and at most `hi` exactly when `-lo <= hi` |
| Overlay.AddWaterPool | app/src/main/java/com/example/gl/TerrainDataV2.java:551-566 | every in-bounds cell inside the disc becomes WaterPool at its pool height; every other cell is unchanged |
| Overlay.MaxRangePositive | app/src/main/java/com/example/gl/TerrainDataV2.java:552 | `maxRange = lineDistance(radius, radius)` is positive exactly when the radius is non-zero, so the rate division is defined |
| Overlay.CurrBelowMaxRange | app/src/main/java/com/example/gl/TerrainDataV2.java:558 | inside the disc `currRange` is strictly below `maxRange` |
| Overlay.CurrVanishesAtCentre | app/src/main/java/com/example/gl/TerrainDataV2.java:558 | `currRange` is non-negative and is 0 exactly at the centre |
| Overlay.CurrMonotone | app/src/main/java/com/example/gl/TerrainDataV2.java:558 | `currRange` grows with the squared offset from the centre |
| Overlay.WaterRateFacts | app/src/main/java/com/example/gl/TerrainDataV2.java:558-559 | inside the disc the rate is `currRange / maxRange`, lies in [0, 1) and is 0 exactly at the centre |
| Overlay.PoolHeightBounds | app/src/main/java/com/example/gl/TerrainDataV2.java:559-560 | water heights lie in [lo - 1.5, lo]; the later variant is strictly below lo and reaches lo - 1.5 at the centre, the earlier one stays above lo - 1.5 and is lo at the centre |
| Overlay.PoolDepthOrder | app/src/main/java/com/example/gl/TerrainData.java:120-122 | of two cells in the disc, the one nearer the centre is at least as deep in the later variant and at most as deep in the earlier one |
| Overlay.AddLawn | app/src/main/java/com/example/gl/TerrainDataV2.java:568-579 | heights are untouched; exactly the in-bounds Land cells inside the disc become Lawn |
| Overlay.LawnPrecedence | app/src/main/java/com/example/gl/TerrainDataV2.java:573-574 | a non-Land cell keeps its code, a cell ends Lawn exactly when it was Land inside the disc or already Lawn, and the stamp is idempotent |
| Overlay.AddBuilding | app/src/main/java/com/example/gl/TerrainDataV2.java:581-589 | every cell of the footprint clipped at the upper grid bound becomes Building at its pad height (stepped in the later variant, flat in the earlier one); every other cell is unchanged |
| Overlay.SteppedPadShape | app/src/main/java/com/example/gl/TerrainDataV2.java:584 | for a footprint of side 4 or more the raised centre is non-empty, excludes the start corner and lies inside the footprint |
| Resample.BilinearAtGridPoint | app/src/main/java/com/example/gl/TerrainDataV2.java:142-164 | at integer coordinates inside the grid the interpolation returns the grid value |
| Resample.BilinearWithinRange | app/src/main/java/com/example/gl/TerrainDataV2.java:142-164 | inside the coordinate range the interpolation stays within the range of the grid values |
| Resample.BaseCoordInRange | app/src/main/java/com/example/gl/TerrainDataV2.java:128-129 | every final index samples at a base coordinate in [0, 49) |
| Resample.InterpolateHeightMap | app/src/main/java/com/example/gl/TerrainDataV2.java:123-139 | the fresh 200 x 200 grid holds the bilinear sample at each cell's base coordinates plus that cell's jitter |
| Resample.ResampledHeightBounds | app/src/main/java/com/example/gl/TerrainDataV2.java:131-134 | an upsampled height lies within 0.05 of the range of the base heights |
| Resample.NearestIndex | app/src/main/java/com/example/gl/TerrainDataV2.java:172-176 | the chosen base index always lies in [0, 50) |
| Resample.NearestIndexIsNearest | app/src/main/java/com/example/gl/TerrainDataV2.java:172-176 | on the final grid the clamp never bites: the index is the rounded coordinate, within half a cell of it |
| Resample.InterpolateTypeMap | app/src/main/java/com/example/gl/TerrainDataV2.java:167-183 | each final cell copies the base cell at the nearest indices, so every final code occurs in the base grid |
| Triangulation.AddVertex | app/src/main/java/com/example/gl/TerrainDataV2.java:484-491 | appends one vertex with the given position, code and normal and the colour of its code |
| Triangulation.AddQuad | app/src/main/java/com/example/gl/TerrainDataV2.java:463-482 | appends the three corner vertices in order, each at its world position and grid height, with its own code and the upward normal |
| Triangulation.AddCell | app/src/main/java/com/example/gl/TerrainDataV2.java:387-388 | the two `addQuad` calls of a cell append exactly that cell's six vertices |
| Triangulation.AddRow | app/src/main/java/com/example/gl/TerrainDataV2.java:386-389 | the inner loop appends the cells of row i in order |
| Triangulation.Triangulate | app/src/main/java/com/example/gl/TerrainDataV2.java:385-390 | the nested loop appends `TerrainMesh`, the (g-1) x (g-1) cells row by row |
| Triangulation.TerrainMeshLength | app/src/main/java/com/example/gl/TerrainDataV2.java:385-390 | the triangulated grid holds 6 (g-1)^2 vertices, a whole number of triangles |
| Triangulation.TerrainMeshAt | app/src/main/java/com/example/gl/TerrainDataV2.java:385-390 | vertex s of cell (i, j) sits at position 6(g-1)i + 6j + s and is the vertex of that cell's corner s |
| Triangulation.TerrainVertexFields | app/src/main/java/com/example/gl/TerrainDataV2.java:463-482 | each terrain vertex carries its corner's height, world x and z and code, the colour of that code and the normal (0, 1, 0) |
| Triangulation.WorldStep | app/src/main/java/com/example/gl/TerrainDataV2.java:465-466 | neighbouring grid indices are `TERRAIN_SIZE / g` apart in world space |
| Triangulation.TerrainFacesPointDown | app/src/main/java/com/example/gl/TerrainDataV2.java:387-388 | with the emitted corner order, the face normal of both triangles of every cell has a negative y component |
| Decoration.CandidateTreeLength | app/src/main/java/com/example/gl/TerrainDataV2.java:599-607 | a candidate adds a whole tree of 420 vertices exactly when its cell is Land or Lawn with height in (-1, 5), otherwise nothing |
| Decoration.DrawnTree | app/src/main/java/com/example/gl/TerrainDataV2.java:596-607 | the pass on one draw adds 420 vertices exactly when the drawn cell passes the tree test, and none otherwise |
| Decoration.AddCandidateTree | app/src/main/java/com/example/gl/TerrainDataV2.java:599-607 | the end of a pass appends the candidate's tree, or nothing when the test fails |
| Decoration.AddDrawnTree | app/src/main/java/com/example/gl/TerrainDataV2.java:599-607 | the same pass stated for the draw on the grids |
| Decoration.PlantTree | app/src/main/java/com/example/gl/TerrainDataV2.java:595-608 | pass k extends the forest of the first k draws to that of the first k+1 |
| Decoration.AddTrees | app/src/main/java/com/example/gl/TerrainDataV2.java:591-609 | the tree loop appends `Forest` of the draws: the trees of the accepted candidates in draw order |
| Decoration.TreeCellsInside | app/src/main/java/com/example/gl/TerrainDataV2.java:596-597 | every candidate cell lies in [2, g-3] in both axes, off the grid border |
| Decoration.PlantedTreeStandsOnCell | app/src/main/java/com/example/gl/TerrainDataV2.java:602-606 | an accepted tree has 420 vertices, the cell's height lies in (-1, 5), and the first 36 vertices are Trunk-coded and rise from that height to the top of the trunk |
| Decoration.ForestLength | app/src/main/java/com/example/gl/TerrainDataV2.java:595-608 | the trees add 420 vertices per accepted candidate |
| Decoration.TreeTestsAgree | app/src/main/java/com/example/gl/TerrainData.java:251-252 | the earlier variant's literal test (0 or 3) accepts exactly what the later Land-or-Lawn test accepts |
| Decoration.ValidLocation | app/src/main/java/com/example/gl/TerrainDataV2.java:633-642 | the early-exit scan is true exactly when no cell of the clipped footprint is Road or WaterPool |
| Decoration.CandidateBuildingLength | app/src/main/java/com/example/gl/TerrainDataV2.java:644-646 | a candidate adds a whole building of 72 vertices exactly when its footprint is clear, otherwise nothing |
| Decoration.DrawnBuilding | app/src/main/java/com/example/gl/TerrainDataV2.java:627-646 | the pass on a building draw adds 72 vertices exactly when the footprint test passes |
| Decoration.AddCandidateBuilding | app/src/main/java/com/example/gl/TerrainDataV2.java:644-646 | the end of a pass appends the drawn building, or nothing when the location is invalid |
| Decoration.PlaceBuilding | app/src/main/java/com/example/gl/TerrainDataV2.java:626-647 | pass k extends the buildings of the first k draws to those of the first k+1 |
| Decoration.AddDetailedBuildings | app/src/main/java/com/example/gl/TerrainDataV2.java:622-648 | the building loop appends `Buildings` of the draws: the buildings of the clear candidates in draw order |
| Decoration.FootprintPlacement | app/src/main/java/com/example/gl/TerrainDataV2.java:627-631 | a drawn footprint starts at least 3 cells in, ends at most at g+2, has sides of at least 3, and its height lies in [3, 7) |
| Decoration.BuildingsLength | app/src/main/java/com/example/gl/TerrainDataV2.java:626-647 | the buildings add 72 vertices per accepted candidate |
| Decoration.BlockingTestsAgree | app/src/main/java/com/example/gl/TerrainData.java:292 | the earlier variant's literal test (1 or 2) blocks exactly the Road and WaterPool codes |
| Primitives.FaceIndicesInRange | app/src/main/java/com/example/gl/TerrainDataV2.java:685-698 | the face table has six rows of six corner indices, each in 0..7 |
| Primitives.TriangleIndicesInRange | app/src/main/java/com/example/gl/TerrainData.java:343-356 | the triangle table has twelve rows of three corner indices, each in 0..7 |
| Primitives.IndexTablesAgree | app/src/main/java/com/example/gl/TerrainData.java:343-356 | face f of the later table is triangles 2f and 2f+1 of the earlier one |
| Primitives.TableRowsAgree | app/src/main/java/com/example/gl/TerrainData.java:343-356 | entry r of triangle 2f+half is entry 3half+r of face f |
| Primitives.AddCubeFace | app/src/main/java/com/example/gl/TerrainDataV2.java:700-724 | one face pass appends the six vertices of face f; `LaterCorner` and `FaceNormalShared` state their corners and shared normal |
| Primitives.FacePass | app/src/main/java/com/example/gl/TerrainDataV2.java:700-724 | pass f of the face loop extends the first f faces to the first f+1 |
| Primitives.AddCubeTriangle | app/src/main/java/com/example/gl/TerrainData.java:359-371 | one triangle pass appends the three vertices of triangle t; `EarlierCorner` and `TriangleNormalShared` state their corners and shared normal |
| Primitives.TrianglePass | app/src/main/java/com/example/gl/TerrainData.java:359-371 | pass t of the triangle loop extends the first t triangles to the first t+1 |
| Primitives.AddCube | app/src/main/java/com/example/gl/TerrainDataV2.java:664-725 | `addCube` appends `CubeVertices`: six faces in the later variant, twelve triangles in the earlier one |
| Primitives.CubeFacesAt | app/src/main/java/com/example/gl/TerrainDataV2.java:700-724 | vertex s of face f of the later box sits at position 6f + s |
| Primitives.CubeTrianglesAt | app/src/main/java/com/example/gl/TerrainData.java:359-371 | vertex s of triangle t of the earlier box sits at position 3t + s |
| Primitives.CubeShape | app/src/main/java/com/example/gl/TerrainDataV2.java:664-725 | a box has 36 vertices, each with the requested code and colour and on one of the eight corners |
| Primitives.CubeBounds | app/src/main/java/com/example/gl/TerrainDataV2.java:666-682 | every vertex of a box of non-negative size lies inside the box |
| Primitives.FaceNormalShared | app/src/main/java/com/example/gl/TerrainDataV2.java:705-722 | all six vertices of a later-variant face share the normal of its first vertex |
| Primitives.TriangleNormalShared | app/src/main/java/com/example/gl/TerrainData.java:364-370 | all three vertices of an earlier-variant triangle share its normal |
| Primitives.LaterCorner | app/src/main/java/com/example/gl/TerrainDataV2.java:715-722 | vertex s of face f sits on corner `faceData[f][s]` |
| Primitives.EarlierCorner | app/src/main/java/com/example/gl/TerrainData.java:359-370 | vertex r of triangle t sits on corner `cubeFaces[t][r]` |
| Primitives.CubePositionsAgree | app/src/main/java/com/example/gl/TerrainData.java:322-372 | both variants' boxes put the same corners at the same 36 positions |
| Primitives.CubeFirstNormalsAgree | app/src/main/java/com/example/gl/TerrainData.java:359-366 | the first triangle of each face carries the same normal in both variants |
| Primitives.AddSphereQuad | app/src/main/java/com/example/gl/TerrainDataV2.java:737-764 | one slice appends the six vertices of its quad; `QuadVertexAt` states their corners, codes and normals |
| Primitives.AddSphereBand | app/src/main/java/com/example/gl/TerrainDataV2.java:736-765 | the inner loop appends the eight slices of band i in order |
| Primitives.AddSphere | app/src/main/java/com/example/gl/TerrainDataV2.java:727-767 | `addSphere` appends `SphereVertices`, the 8 x 8 quads band by band |
| Primitives.SphereAt | app/src/main/java/com/example/gl/TerrainDataV2.java:732-766 | a sphere has 384 vertices, and vertex s of slice j of band i sits at position 48i + 6j + s |
| Primitives.SphereBandAt | app/src/main/java/com/example/gl/TerrainDataV2.java:736-765 | vertex s of slice j sits at position 6j + s of its band |
| Primitives.QuadVertexAt | app/src/main/java/com/example/gl/TerrainDataV2.java:742-764 | vertex s of a quad sits on its corner `[0, 1, 2, 0, 2, 3][s]` and shares the normal of its triangle's first vertex |
| Primitives.SphereCodes | app/src/main/java/com/example/gl/TerrainDataV2.java:757-764 | every sphere vertex is Canopy with the requested colour |
| Primitives.QuadNormalAt | app/src/main/java/com/example/gl/TerrainDataV2.java:748-754 | the two normals of a quad are `calculateNormal` of (p0, p1, p2) and (p0, p2, p3) |
| Primitives.SphereNormals | app/src/main/java/com/example/gl/TerrainDataV2.java:748-764 | every sphere vertex carries the `calculateNormal` of its own triangle |
| Primitives.SpherePointOnSphere | app/src/main/java/com/example/gl/TerrainDataV2.java:769-775 | with the Pythagorean identity, every point `getSpherePoint` returns is at distance r from the centre |
| Primitives.SphereVerticesOnSphere | app/src/main/java/com/example/gl/TerrainDataV2.java:727-775 | every vertex of a sphere lies at distance r from its centre |
| Primitives.AddTree | app/src/main/java/com/example/gl/TerrainDataV2.java:611-620 | `addTree` appends the trunk box then the crown sphere |
| Primitives.TrunkShape | app/src/main/java/com/example/gl/TerrainDataV2.java:612-615 | the 36 trunk vertices are Trunk-coded and trunk-coloured, with heights from the base point up to the trunk height above it |
| Primitives.CrownShape | app/src/main/java/com/example/gl/TerrainDataV2.java:617-619 | the 384 crown vertices are Canopy-coded and crown-coloured |
| Primitives.CrownAt | app/src/main/java/com/example/gl/TerrainDataV2.java:611-620 | a tree has 420 vertices and crown vertex k is tree vertex 36 + k |
| Primitives.AddBuildingWithCube | app/src/main/java/com/example/gl/TerrainDataV2.java:650-662 | appends the wall box then the roof box |
| Primitives.WallShape | app/src/main/java/com/example/gl/TerrainDataV2.java:651-657 | the 36 wall vertices are HouseWall-coded and wall-coloured, with heights from the ground up to the building height |
| Primitives.RoofShape | app/src/main/java/com/example/gl/TerrainDataV2.java:659-661 | the 36 roof vertices are Roof-coded, roof-coloured and lie between the building height and one unit above it |
| Primitives.RoofLength | app/src/main/java/com/example/gl/TerrainDataV2.java:650-662 | a building has 72 vertices, the wall box filling the first 36 |
| Primitives.RoofOverhang | app/src/main/java/com/example/gl/TerrainDataV2.java:659-661 | the roof's half-width is the wall's plus a quarter cell, so the roof overhangs the wall by a quarter cell on each side |
| Smoothing.Fixed4Of | app/src/main/java/com/example/gl/TerrainDataV2.java:218 | a printed coordinate keeps the sign of the number |
| Smoothing.Fixed4Close | app/src/main/java/com/example/gl/TerrainDataV2.java:218 | two numbers printed alike by `%.4f` differ by less than 0.0001 |
| Smoothing.KeyPrecision | app/src/main/java/com/example/gl/TerrainDataV2.java:218 | positions with equal keys lie within 0.0001 of each other in every coordinate |
| Smoothing.KeyIsNotTolerance | app/src/main/java/com/example/gl/TerrainDataV2.java:218 | the key is not a tolerance: nearby numbers can print apart, and so can -0.00001 and 0 |
| Smoothing.AccumulateOne | app/src/main/java/com/example/gl/TerrainDataV2.java:290-305 | one contribution adds the normal and 1 to the vertex's own key and leaves every other key unchanged |
| Smoothing.AccumulateWellFormed | app/src/main/java/com/example/gl/TerrainDataV2.java:295-304 | one contribution keeps both maps on the same keys with positive counts |
| Smoothing.AddTriangleCount | app/src/main/java/com/example/gl/TerrainDataV2.java:238-240 | a triangle adds to each key's count the number of its three vertices that carry that key |
| Smoothing.AccumulatedNext | app/src/main/java/com/example/gl/TerrainDataV2.java:229-241 | triangle t extends the accumulator of the triangles before it |
| Smoothing.Triangles | app/src/main/java/com/example/gl/TerrainDataV2.java:229-230 | the loop visits the whole triangles only: 3t <= size < 3t + 3 |
| Smoothing.AccumulatedWellFormed | app/src/main/java/com/example/gl/TerrainDataV2.java:226-241 | after any number of triangles both maps have the same keys and every count is positive |
| Smoothing.AccumulatedCount | app/src/main/java/com/example/gl/TerrainDataV2.java:229-241 | after t triangles each key's count is its number of occurrences among the first 3t vertices, and the key is present exactly when it occurs |
| Smoothing.AccumulatedPrefix | app/src/main/java/com/example/gl/TerrainDataV2.java:229-241 | the accumulator after t triangles depends on the first 3t vertices only |
| Smoothing.PartialTriangleIgnored | app/src/main/java/com/example/gl/TerrainDataV2.java:230 | one or two trailing vertices contribute nothing |
| Smoothing.AccumulateTriangle | app/src/main/java/com/example/gl/TerrainDataV2.java:232-240 | one pass of the triangle loop moves the scan from vertex i to i + 3 and from triangle t to t + 1 |
| Smoothing.AccumulateNormals | app/src/main/java/com/example/gl/TerrainDataV2.java:226-241 | the triangle loop leaves the accumulator of all whole triangles |
| Smoothing.ApplyNormals | app/src/main/java/com/example/gl/TerrainDataV2.java:243-269 | the write-back loop gives each vertex the averaged normal of its key if that key has a count, and leaves it alone otherwise |
| Smoothing.SmoothNormals | app/src/main/java/com/example/gl/TerrainDataV2.java:213-270 | `calculateSmoothNormals` turns the list into `Smoothed` of it |
| Smoothing.SmoothedVertex | app/src/main/java/com/example/gl/TerrainDataV2.java:243-269 | smoothing keeps the length and each vertex's position, colour, code and texture coordinates; only the normal can change, to its key's average |
| Smoothing.TriangleVerticesSmoothed | app/src/main/java/com/example/gl/TerrainDataV2.java:243-269 | every vertex of a whole triangle has a counted key, so its normal is replaced by the average |
| Smoothing.EqualKeysEqualNormals | app/src/main/java/com/example/gl/TerrainDataV2.java:262-267 | vertices with equal keys end with equal normals |
| Smoothing.SmoothedNormalUnit | app/src/main/java/com/example/gl/TerrainDataV2.java:255-260 | an averaged normal longer than 0.0001 comes out of unit length |
| Packing.Store3 | app/src/main/java/com/example/gl/TerrainDataV2.java:789-791 | three consecutive entries receive the components of one vertex attribute, and earlier entries are kept |
| Packing.StoreVertex | app/src/main/java/com/example/gl/TerrainDataV2.java:788-804 | one pass of the packing loop extends the packed prefix by vertex i |
| Packing.PackedLaidOut | app/src/main/java/com/example/gl/TerrainDataV2.java:787-805 | once every vertex is stored, the arrays have the interleaved layout |
| Packing.CreateMeshData | app/src/main/java/com/example/gl/TerrainDataV2.java:777-816 | the arrays hold positions, colours and normals three entries per vertex, texture coordinates two (later variant only) and codes one, with the vertex count and the height range |
| Packing.UnpackVertex | app/src/main/java/com/example/gl/TerrainDataV2.java:788-804 | vertex i read back from the arrays is the vertex that was stored |
| Packing.UnpackPacked | app/src/main/java/com/example/gl/TerrainDataV2.java:777-816 | packing loses nothing: reading the arrays back gives the vertex list (without texture coordinates in the earlier variant) |
| Generator.GridSide | app/src/main/java/com/example/gl/TerrainDataV2.java:359-368 | the triangulated grid has side 200 or 50 |
| Generator.StampFeatures | app/src/main/java/com/example/gl/TerrainDataV2.java:353-356 | each cell of the new grids is its old height and code passed through the road, pool, lawn and pad stamps in call order, with the pad's side and level of the variant |
| Generator.BaseGrids | app/src/main/java/com/example/gl/TerrainDataV2.java:339-356 | `lo` and `hi` are the range of the synthesized 50 x 50 heights, and the grids are those heights over an all-Land grid with the four stamps applied at that range |
| Generator.StampedLandmarks | app/src/main/java/com/example/gl/TerrainDataV2.java:353-356 | on the stamped base grids the road's first cell is Road at the road level, the pool centre is WaterPool at `minHeight - 1.5` (later) or `minHeight` (earlier), the lawn centre is Lawn and the pad's start is Building at 10 (later) or 5 (earlier) |
| Generator.FinalCodesGround | app/src/main/java/com/example/gl/TerrainDataV2.java:339-368 | every cell of the final type grid holds a ground code, resampled or not |
| Generator.Refine | app/src/main/java/com/example/gl/TerrainDataV2.java:358-368 | without interpolation (or in the earlier variant) the base arrays themselves are returned; with it, the 200 x 200 grids hold the bilinear-plus-jitter heights and the nearest-cell codes of the base grids |
| Generator.GridStages | app/src/main/java/com/example/gl/TerrainDataV2.java:338-368 | the final grids are `FinalHeights` and `FinalCodes` of the draws at the range of the synthesized heights |
| Generator.BuildMesh | app/src/main/java/com/example/gl/TerrainDataV2.java:372-400 | the packed mesh lays out the triangulated, decorated and, in the later variant, smoothed vertex list; the later variant stores the grid and its recomputed range, the earlier variant neither |
| Generator.GenerateTerrainMesh | app/src/main/java/com/example/gl/TerrainDataV2.java:329-404 | the whole pipeline: the base range is the range of the synthesized heights, the final grids are `FinalHeights` and `FinalCodes` of the draws at that range, the mesh lays out their finished vertex list, and the later variant stores the final heights with their own range |
| Generator.FinishedLength | app/src/main/java/com/example/gl/TerrainDataV2.java:397 | smoothing keeps the number of vertices |
| Generator.DecoratedLength | app/src/main/java/com/example/gl/TerrainDataV2.java:385-394 | the list holds 6(g-1)^2 terrain vertices, 420 per planted tree and 72 per placed building, a multiple of 3 |
| Generator.VertexCount | app/src/main/java/com/example/gl/TerrainDataV2.java:385-400 | the smoothed list that gets packed has that length too, a multiple of 3 |

## Left out

- Rendering, GL calls and I/O are not modelled: `generateHeightMapTexture`, the NIO buffers of `createFloatBuffer` and `createIntBuffer`, and the static `heightMapData` field are left out. The packed arrays are modelled as sequences.
- The tessellation and normal-mapping switches and their setters and getters are not modelled, because nothing in the generator reads them. `useInterpolation` is the `interpolate` parameter.
- `calculateDetailedNormal` is not modelled, because the pipeline never calls it.
- `java.util.Random` is not modelled: its draws are inputs, and their generation from the seed 42 is not captured. The draws are assumed in the ranges `nextFloat` and `nextInt` promise.
- Floating-point rounding is not modelled, and the casts between float and double are not modelled either. Heights, coordinates and normals are exact reals.
- `Math.sqrt`, `Math.sin` and `Math.cos` are uninterpreted. Properties that need an exact root or the Pythagorean identity state it as a hypothesis.
- `MathUtils.lineDistance` of the earlier variant is not part of this model; it is taken to be the same `sqrt(dx^2 + dy^2)` as the later variant's `lineDistance`.
- Smoothing.Fixed4Of: the position key keeps the sign and the magnitude rounded half-up to four decimals. How `String.format` rounds binary floating-point ties, and the locale, are not captured.
- Smoothing.SmoothNormals: `positionMap` lists the indices of each key. The model applies the averaged normal to every vertex of a counted key, which is the same final list; the `HashMap` iteration order is not modelled, because the writes to different keys touch different vertices.
- The earlier variant's type array is a float array. The model keeps it as integers, which hold the codes 0..8 exactly.
- The Java `Vertex` objects are not modelled as shared objects: each `addVertex` creates a fresh one, so the list is a sequence of values.
- Overlay.AddWaterPool: requires a non-zero radius. With radius 0 the source computes `0 / 0` at the centre and writes NaN there, and exact reals have no NaN; the generator always passes a positive radius.
