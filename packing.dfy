/** Mesh Packer: the vertex list flattened into the attribute arrays the renderers upload. */
module Packing {
  import opened Geometry
  import opened Config
  import opened Vertices

  /** `MeshData`. The earlier variant has no texture coordinates, height range or height map:
      there `texCoords` and `heightMap` are empty and the range is (0, 0). Its type array is a
      float array, which holds the codes 0..8 exactly; here it is kept as integers. */
  datatype MeshData = MeshData(positions: seq<real>, colours: seq<real>, normals: seq<real>,
                               texCoords: seq<real>, types: seq<int>, vertexCount: nat,
                               minHeight: real, maxHeight: real, heightMap: seq<seq<real>>)

  /** Component `k` of a vector: x, y, z for k = 0, 1, 2. */
  function Component(p: Vec3, k: int): real {
    if k == 0 then p.x else if k == 1 then p.y else p.z
  }

  /** Entries `3i`, `3i + 1`, `3i + 2` of `a` hold the three components of `f(vs[i])`. */
  predicate Interleaved(a: seq<real>, vs: seq<Vertex>, attr: Vertex -> Vec3) {
    && |a| == 3 * |vs|
    && forall i, k :: 0 <= i < |vs| && 0 <= k < 3 ==> a[3 * i + k] == Component(attr(vs[i]), k)
  }

  function Position(x: Vertex): Vec3 { x.pos }
  function Colour(x: Vertex): Vec3 { x.colour }
  function Normal(x: Vertex): Vec3 { x.normal }

  /** The index layout `createMeshData` gives the arrays of `vs`. */
  predicate LaidOut(v: Variant, md: MeshData, vs: seq<Vertex>) {
    && md.vertexCount == |vs|
    && Interleaved(md.positions, vs, Position)
    && Interleaved(md.colours, vs, Colour)
    && Interleaved(md.normals, vs, Normal)
    && |md.types| == |vs|
    && (forall i :: 0 <= i < |vs| ==> md.types[i] == vs[i].code)
    && match v
       case V1 => md.texCoords == []
       case V2 =>
         && |md.texCoords| == 2 * |vs|
         && forall i :: 0 <= i < |vs| ==> md.texCoords[2 * i] == vs[i].u && md.texCoords[2 * i + 1] == vs[i].v
  }

  /** The first `n` vertices are in place in the interleaved array `a`. */
  ghost predicate Prefix3(a: array<real>, vs: seq<Vertex>, attr: Vertex -> Vec3, n: int)
    reads a
  {
    forall i, k :: 0 <= i < n && i < |vs| && 0 <= k < 3 && 3 * i + k < a.Length ==> a[3 * i + k] == Component(attr(vs[i]), k)
  }

  /** The loop state of `createMeshData` after `n` vertices. */
  ghost predicate PackedUpTo(v: Variant, positions: array<real>, colours: array<real>, normals: array<real>,
                             texCoords: array<real>, types: array<int>, vs: seq<Vertex>, n: int)
    reads positions, colours, normals, texCoords, types
  {
    && positions.Length == 3 * |vs| && colours.Length == 3 * |vs| && normals.Length == 3 * |vs|
    && texCoords.Length == (if v == V2 then 2 * |vs| else 0) && types.Length == |vs|
    && Prefix3(positions, vs, Position, n) && Prefix3(colours, vs, Colour, n) && Prefix3(normals, vs, Normal, n)
    && (forall i :: 0 <= i < n && i < |vs| && v == V2 ==> texCoords[2 * i] == vs[i].u && texCoords[2 * i + 1] == vs[i].v)
    && (forall i :: 0 <= i < n && i < |vs| ==> types[i] == vs[i].code)
  }

  /** Entries `3i .. 3i + 2` of `a` are set to the components of `attr(vs[i])`. */
  method Store3(a: array<real>, vs: seq<Vertex>, attr: Vertex -> Vec3, i: nat, p: Vec3)
    requires 3 * i + 2 < a.Length && i < |vs| && p == attr(vs[i]) && Prefix3(a, vs, attr, i)
    modifies a
    ensures Prefix3(a, vs, attr, i + 1)
  {
    a[3 * i] := p.x;
    a[3 * i + 1] := p.y;
    a[3 * i + 2] := p.z;
    forall j, k | 0 <= j < i + 1 && j < |vs| && 0 <= k < 3 && 3 * j + k < a.Length
      ensures a[3 * j + k] == Component(attr(vs[j]), k)
    {
      if j < i {
        assert 3 * j + k < 3 * i;
        assert a[3 * j + k] == old(a[3 * j + k]);
      }
    }
  }

  /** One pass of the loop of `createMeshData`, on vertex `i`. */
  method StoreVertex(v: Variant, positions: array<real>, colours: array<real>, normals: array<real>,
                     texCoords: array<real>, types: array<int>, vs: seq<Vertex>, i: nat)
    requires positions != colours && positions != normals && colours != normals
    requires texCoords != positions && texCoords != colours && texCoords != normals
    requires i < |vs| && PackedUpTo(v, positions, colours, normals, texCoords, types, vs, i)
    modifies positions, colours, normals, texCoords, types
    ensures PackedUpTo(v, positions, colours, normals, texCoords, types, vs, i + 1)
  {
    var x := vs[i];
    Store3(positions, vs, Position, i, x.pos);
    Store3(colours, vs, Colour, i, x.colour);
    Store3(normals, vs, Normal, i, x.normal);
    if v == V2 {
      texCoords[2 * i] := x.u;
      texCoords[2 * i + 1] := x.v;
    }
    types[i] := x.code;
  }

  /** `createMeshData(vertices, minHeight, maxHeight)` (the earlier variant's takes no range):
      one pass over the list fills the position, colour and normal arrays three entries per
      vertex, the texture coordinate array two per vertex, and the type array one. */
  method CreateMeshData(v: Variant, vs: seq<Vertex>, lo: real, hi: real) returns (md: MeshData)
    ensures LaidOut(v, md, vs)
    ensures md.minHeight == (if v == V2 then lo else 0.0) && md.maxHeight == (if v == V2 then hi else 0.0)
    ensures md.heightMap == []
  {
    var n := |vs|;
    var positions := new real[3 * n];
    var colours := new real[3 * n];
    var normals := new real[3 * n];
    var texCoords := new real[if v == V2 then 2 * n else 0];
    var types := new int[n];
    for i := 0 to n
      invariant PackedUpTo(v, positions, colours, normals, texCoords, types, vs, i)
    {
      StoreVertex(v, positions, colours, normals, texCoords, types, vs, i);
    }
    md := MeshData(positions[..], colours[..], normals[..], texCoords[..], types[..], n,
                   if v == V2 then lo else 0.0, if v == V2 then hi else 0.0, []);
    PackedLaidOut(v, positions, colours, normals, texCoords, types, vs, md);
  }

  /** Once every vertex is stored, the arrays have the layout `LaidOut` describes. */
  lemma PackedLaidOut(v: Variant, positions: array<real>, colours: array<real>, normals: array<real>,
                      texCoords: array<real>, types: array<int>, vs: seq<Vertex>, md: MeshData)
    requires PackedUpTo(v, positions, colours, normals, texCoords, types, vs, |vs|)
    requires md.positions == positions[..] && md.colours == colours[..] && md.normals == normals[..]
    requires md.texCoords == texCoords[..] && md.types == types[..] && md.vertexCount == |vs|
    ensures LaidOut(v, md, vs)
  {
  }

  // ---------------------------------------------------------------- reading back

  /** Vertex `i` read back from the arrays: entries `3i .. 3i + 2` of each interleaved array,
      entries `2i`, `2i + 1` of the texture coordinates (0 in the earlier variant) and entry `i`
      of the types. */
  function VertexAt(v: Variant, md: MeshData, i: nat): Vertex
    requires 3 * i + 2 < |md.positions| && 3 * i + 2 < |md.colours| && 3 * i + 2 < |md.normals| && i < |md.types|
    requires v == V2 ==> 2 * i + 1 < |md.texCoords|
  {
    Vertex(Vec3(md.positions[3 * i], md.positions[3 * i + 1], md.positions[3 * i + 2]),
           Vec3(md.colours[3 * i], md.colours[3 * i + 1], md.colours[3 * i + 2]),
           Vec3(md.normals[3 * i], md.normals[3 * i + 1], md.normals[3 * i + 2]),
           md.types[i],
           if v == V2 then md.texCoords[2 * i] else 0.0,
           if v == V2 then md.texCoords[2 * i + 1] else 0.0)
  }

  /** The vertex list a renderer sees in the arrays. */
  function Unpacked(v: Variant, md: MeshData): seq<Vertex>
    requires 3 * md.vertexCount <= |md.positions| && 3 * md.vertexCount <= |md.colours|
    requires 3 * md.vertexCount <= |md.normals| && md.vertexCount <= |md.types|
    requires v == V2 ==> 2 * md.vertexCount <= |md.texCoords|
  {
    seq(md.vertexCount, i requires 0 <= i < md.vertexCount => VertexAt(v, md, i))
  }

  /** The earlier variant drops the texture coordinates. */
  function Stored(v: Variant, x: Vertex): Vertex {
    match v
    case V1 => x.(u := 0.0, v := 0.0)
    case V2 => x
  }

  /** Packing loses nothing: reading the arrays back gives the vertex list (without texture
      coordinates in the earlier variant). */
  lemma UnpackPacked(v: Variant, md: MeshData, vs: seq<Vertex>)
    requires LaidOut(v, md, vs)
    ensures 3 * md.vertexCount <= |md.positions| && 3 * md.vertexCount <= |md.colours|
    ensures 3 * md.vertexCount <= |md.normals| && md.vertexCount <= |md.types|
    ensures v == V2 ==> 2 * md.vertexCount <= |md.texCoords|
    ensures |Unpacked(v, md)| == |vs|
    ensures forall i :: 0 <= i < |vs| ==> Unpacked(v, md)[i] == Stored(v, vs[i])
  {
    forall i | 0 <= i < |vs|
      ensures Unpacked(v, md)[i] == Stored(v, vs[i])
    {
      UnpackVertex(v, md, vs, i);
    }
  }

  lemma UnpackVertex(v: Variant, md: MeshData, vs: seq<Vertex>, i: nat)
    requires LaidOut(v, md, vs) && i < |vs|
    ensures 3 * i + 2 < |md.positions| && 3 * i + 2 < |md.colours| && 3 * i + 2 < |md.normals| && i < |md.types|
    ensures v == V2 ==> 2 * i + 1 < |md.texCoords|
    ensures VertexAt(v, md, i) == Stored(v, vs[i])
  {
    assert md.positions[3 * i] == Component(Position(vs[i]), 0);
    assert md.positions[3 * i + 1] == Component(Position(vs[i]), 1);
    assert md.positions[3 * i + 2] == Component(Position(vs[i]), 2);
    assert md.colours[3 * i] == Component(Colour(vs[i]), 0);
    assert md.colours[3 * i + 1] == Component(Colour(vs[i]), 1);
    assert md.colours[3 * i + 2] == Component(Colour(vs[i]), 2);
    assert md.normals[3 * i] == Component(Normal(vs[i]), 0);
    assert md.normals[3 * i + 1] == Component(Normal(vs[i]), 1);
    assert md.normals[3 * i + 2] == Component(Normal(vs[i]), 2);
  }
}
