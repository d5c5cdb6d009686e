/** The transient per-vertex record both variants build, and the growing vertex list. */
module Vertices {
  import opened Geometry

  /** Position, colour, normal, land-use code and texture coordinates. The earlier variant has
      no texture coordinates; its vertices carry (0, 0), the value it never reads. */
  datatype Vertex = Vertex(pos: Vec3, colour: Vec3, normal: Vec3, code: int, u: real, v: real)

  /** The `List<Vertex>` the generator appends to. Every `addVertex` creates a fresh vertex
      object, so no two entries share state and the list is modelled by value. */
  class VertexBuffer {
    var vertices: seq<Vertex>

    constructor ()
      ensures vertices == []
    {
      vertices := [];
    }

    /** `vertices.add(vertex)`. */
    method Add(x: Vertex)
      modifies this
      ensures vertices == old(vertices) + [x]
    {
      vertices := vertices + [x];
    }

    /** Overwrites the normal of entry `i` (`vertex.nx = ...; vertex.ny = ...; vertex.nz = ...`). */
    method SetNormal(i: nat, n: Vec3)
      requires i < |vertices|
      modifies this
      ensures vertices == old(vertices)[i := old(vertices)[i].(normal := n)]
    {
      vertices := vertices[i := vertices[i].(normal := n)];
    }
  }
}
