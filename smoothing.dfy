/** Normal Smoother (the full pipeline only): vertices are grouped by a position key, the face
    normals of the complete triangles are summed per key, and every vertex whose key received a
    contribution is given that key's averaged, normalised sum. */
module Smoothing {
  import opened Geometry
  import opened Numeric
  import opened Vertices

  // ---------------------------------------------------------------- position keys

  /** One coordinate as `%.4f` prints it: a sign and the magnitude rounded half-up to four
      decimals, counted in units of 0.0001. A small negative number keeps its sign
      (`-0.0000`), so it is a different key from zero. */
  datatype Fixed4 = Fixed4(negative: bool, scaled: nat)

  /** The key text `"%.4f,%.4f,%.4f"` of a position, as three fixed-point coordinates. */
  datatype Key = Key(x: Fixed4, y: Fixed4, z: Fixed4)

  const Scale: real := 10000.0

  function Fixed4Of(a: real): (f: Fixed4)
    ensures f.negative <==> a < 0.0
  {
    if a < 0.0 then Fixed4(true, Round(-a * Scale)) else Fixed4(false, Round(a * Scale))
  }

  function KeyOf(p: Vec3): Key {
    Key(Fixed4Of(p.x), Fixed4Of(p.y), Fixed4Of(p.z))
  }

  /** Two numbers with the same printed coordinate differ by less than 0.0001. */
  lemma Fixed4Close(a: real, b: real)
    requires Fixed4Of(a) == Fixed4Of(b)
    ensures -0.0001 < a - b < 0.0001
  {
    var r := Fixed4Of(a).scaled as real;
    if a < 0.0 {
      assert -a * Scale - 0.5 < r <= -a * Scale + 0.5;
      assert -b * Scale - 0.5 < r <= -b * Scale + 0.5;
    } else {
      assert a * Scale - 0.5 < r <= a * Scale + 0.5;
      assert b * Scale - 0.5 < r <= b * Scale + 0.5;
    }
  }

  /** Positions with equal keys lie within 0.0001 of each other in every coordinate. */
  lemma KeyPrecision(p: Vec3, q: Vec3)
    requires KeyOf(p) == KeyOf(q)
    ensures -0.0001 < p.x - q.x < 0.0001
    ensures -0.0001 < p.y - q.y < 0.0001
    ensures -0.0001 < p.z - q.z < 0.0001
  {
    Fixed4Close(p.x, q.x);
    Fixed4Close(p.y, q.y);
    Fixed4Close(p.z, q.z);
  }

  /** The key is not a tolerance: two coordinates 0.00002 apart can round apart, and a tiny
      negative coordinate is kept apart from zero by its sign. */
  lemma KeyIsNotTolerance()
    ensures Fixed4Of(0.00004) != Fixed4Of(0.00006)
    ensures Fixed4Of(-0.00001) != Fixed4Of(0.0)
  {
    assert Fixed4Of(0.00004).scaled == 0;
    assert Fixed4Of(0.00006).scaled == 1;
  }

  // ---------------------------------------------------------------- accumulation

  /** `normalAccumulator` and `normalCount`: the summed face normal and the number of
      contributions per key. */
  datatype Accumulator = Accumulator(sum: map<Key, Vec3>, count: map<Key, nat>)

  const Empty: Accumulator := Accumulator(map[], map[])

  /** The maps have the same keys and every recorded count is positive. */
  predicate WellFormed(acc: Accumulator) {
    && acc.sum.Keys == acc.count.Keys
    && forall k :: k in acc.count ==> acc.count[k] > 0
  }

  /** The number of contributions recorded for `k`; zero when it has none. */
  function CountOf(acc: Accumulator, k: Key): nat {
    if k in acc.count then acc.count[k] else 0
  }

  /** The summed normal recorded for `k`; the zero vector when it has none. */
  function SumOf(acc: Accumulator, k: Key): Vec3 {
    if k in acc.sum then acc.sum[k] else Zero
  }

  /** `accumulateVertexNormal`: the key of `x` gets one more contribution, `n`. */
  function AccumulateVertexNormal(acc: Accumulator, x: Vertex, n: Vec3): Accumulator
  {
    var k := KeyOf(x.pos);
    Accumulator(acc.sum[k := SumOf(acc, k).Plus(n)], acc.count[k := CountOf(acc, k) + 1])
  }

  /** 1 when `x` carries key `k`, else 0. */
  function Hit(x: Vertex, k: Key): nat {
    if KeyOf(x.pos) == k then 1 else 0
  }

  /** One contribution changes the entry of the vertex's own key only: its count goes up by
      one and `n` is added to its sum; every other key keeps its count and sum. */
  lemma AccumulateOne(acc: Accumulator, x: Vertex, n: Vec3, k: Key)
    ensures var r := AccumulateVertexNormal(acc, x, n);
      && CountOf(r, k) == CountOf(acc, k) + Hit(x, k)
      && SumOf(r, k) == (if KeyOf(x.pos) == k then SumOf(acc, k).Plus(n) else SumOf(acc, k))
      && (k in r.count <==> k in acc.count || KeyOf(x.pos) == k)
  {
  }

  /** One contribution keeps the two maps' keys equal and every count positive. */
  lemma AccumulateWellFormed(acc: Accumulator, x: Vertex, n: Vec3)
    requires WellFormed(acc)
    ensures WellFormed(AccumulateVertexNormal(acc, x, n))
  {
    var k := KeyOf(x.pos);
    var r := AccumulateVertexNormal(acc, x, n);
    assert r.sum.Keys == acc.sum.Keys + {k};
    assert r.count.Keys == acc.count.Keys + {k};
  }

  /** The three contributions of one triangle, all with its face normal `n`. */
  function AddTriangle(acc: Accumulator, a: Vertex, b: Vertex, c: Vertex, n: Vec3): Accumulator {
    AccumulateVertexNormal(AccumulateVertexNormal(AccumulateVertexNormal(acc, a, n), b, n), c, n)
  }

  lemma AddTriangleCount(acc: Accumulator, a: Vertex, b: Vertex, c: Vertex, n: Vec3, k: Key)
    ensures var r := AddTriangle(acc, a, b, c, n);
      && (WellFormed(acc) ==> WellFormed(r))
      && CountOf(r, k) == CountOf(acc, k) + Hit(a, k) + Hit(b, k) + Hit(c, k)
      && (k in r.count <==> k in acc.count || Hit(a, k) + Hit(b, k) + Hit(c, k) > 0)
  {
    var r1 := AccumulateVertexNormal(acc, a, n);
    var r2 := AccumulateVertexNormal(r1, b, n);
    AccumulateOne(acc, a, n, k);
    AccumulateOne(r1, b, n, k);
    AccumulateOne(r2, c, n, k);
  }

  /** The face normal of triangle `t`, vertices 3t, 3t + 1 and 3t + 2. */
  function TriangleNormal(m: Analytic, vs: seq<Vertex>, t: nat): Vec3
    requires 3 * t + 2 < |vs|
  {
    FaceNormal(m, vs[3 * t].pos, vs[3 * t + 1].pos, vs[3 * t + 2].pos)
  }

  /** The accumulator after the first `t` triangles. */
  function Accumulated(m: Analytic, vs: seq<Vertex>, t: nat): Accumulator
    requires 3 * t <= |vs|
  {
    if t == 0 then Empty
    else AddTriangle(Accumulated(m, vs, t - 1), vs[3 * t - 3], vs[3 * t - 2], vs[3 * t - 1], TriangleNormal(m, vs, t - 1))
  }

  /** Triangle `t` extends the accumulator of the triangles before it. */
  lemma AccumulatedNext(m: Analytic, vs: seq<Vertex>, t: nat)
    requires 3 * t + 2 < |vs|
    ensures Accumulated(m, vs, t + 1)
      == AddTriangle(Accumulated(m, vs, t), vs[3 * t], vs[3 * t + 1], vs[3 * t + 2],
                     FaceNormal(m, vs[3 * t].pos, vs[3 * t + 1].pos, vs[3 * t + 2].pos))
  {
  }

  /** The number of complete triangles: the loop stops once `i + 2` runs off the list. */
  function Triangles(vs: seq<Vertex>): (t: nat)
    ensures 3 * t <= |vs| < 3 * t + 3
  {
    |vs| / 3
  }

  /** The accumulator the second loop of `calculateSmoothNormals` leaves. */
  function AccumulatorOf(m: Analytic, vs: seq<Vertex>): Accumulator {
    Accumulated(m, vs, Triangles(vs))
  }

  /** The number of the first `n` vertices whose key is `k`. */
  function Occurrences(vs: seq<Vertex>, k: Key, n: nat): nat
    requires n <= |vs|
  {
    if n == 0 then 0 else Occurrences(vs, k, n - 1) + Hit(vs[n - 1], k)
  }

  lemma {:induction false} OccurrencesPositive(vs: seq<Vertex>, k: Key, n: nat, i: nat)
    requires i < n <= |vs| && KeyOf(vs[i].pos) == k
    ensures Occurrences(vs, k, n) > 0
  {
    if i < n - 1 {
      OccurrencesPositive(vs, k, n - 1, i);
    }
  }

  /** After any number of triangles the two maps have the same keys and every count is
      positive. */
  lemma {:induction false} AccumulatedWellFormed(m: Analytic, vs: seq<Vertex>, t: nat)
    requires 3 * t <= |vs|
    ensures WellFormed(Accumulated(m, vs, t))
  {
    if t > 0 {
      var prev := Accumulated(m, vs, t - 1);
      AccumulatedWellFormed(m, vs, t - 1);
      var n := TriangleNormal(m, vs, t - 1);
      var r1 := AccumulateVertexNormal(prev, vs[3 * t - 3], n);
      var r2 := AccumulateVertexNormal(r1, vs[3 * t - 2], n);
      AccumulateWellFormed(prev, vs[3 * t - 3], n);
      AccumulateWellFormed(r1, vs[3 * t - 2], n);
      AccumulateWellFormed(r2, vs[3 * t - 1], n);
    }
  }

  /** Triangle `t - 1` adds the hits of its three vertices to the count of `k`. */
  lemma AccumulatedStep(m: Analytic, vs: seq<Vertex>, t: nat, k: Key)
    requires 0 < t && 3 * t <= |vs|
    ensures CountOf(Accumulated(m, vs, t), k)
      == CountOf(Accumulated(m, vs, t - 1), k) + Hit(vs[3 * t - 3], k) + Hit(vs[3 * t - 2], k) + Hit(vs[3 * t - 1], k)
    ensures k in Accumulated(m, vs, t).count
      <==> k in Accumulated(m, vs, t - 1).count || Hit(vs[3 * t - 3], k) + Hit(vs[3 * t - 2], k) + Hit(vs[3 * t - 1], k) > 0
  {
    AddTriangleCount(Accumulated(m, vs, t - 1), vs[3 * t - 3], vs[3 * t - 2], vs[3 * t - 1], TriangleNormal(m, vs, t - 1), k);
  }

  lemma OccurrencesStep(vs: seq<Vertex>, t: nat, k: Key)
    requires 0 < t && 3 * t <= |vs|
    ensures Occurrences(vs, k, 3 * t)
      == Occurrences(vs, k, 3 * t - 3) + Hit(vs[3 * t - 3], k) + Hit(vs[3 * t - 2], k) + Hit(vs[3 * t - 1], k)
  {
    assert Occurrences(vs, k, 3 * t - 2) == Occurrences(vs, k, 3 * t - 3) + Hit(vs[3 * t - 3], k);
    assert Occurrences(vs, k, 3 * t - 1) == Occurrences(vs, k, 3 * t - 2) + Hit(vs[3 * t - 2], k);
  }

  /** After `t` triangles each key's count is the number of vertices among the first `3t` that
      carry that key, and a key has an entry exactly when that number is positive. */
  lemma {:induction false} AccumulatedCount(m: Analytic, vs: seq<Vertex>, t: nat, k: Key)
    requires 3 * t <= |vs|
    ensures CountOf(Accumulated(m, vs, t), k) == Occurrences(vs, k, 3 * t)
    ensures k in Accumulated(m, vs, t).count <==> Occurrences(vs, k, 3 * t) > 0
  {
    if t > 0 {
      AccumulatedCount(m, vs, t - 1, k);
      AccumulatedStep(m, vs, t, k);
      OccurrencesStep(vs, t, k);
    }
  }

  /** The accumulator after `t` triangles depends on the first `3t` vertices only. */
  lemma {:induction false} AccumulatedPrefix(m: Analytic, vs: seq<Vertex>, ws: seq<Vertex>, t: nat)
    requires 3 * t <= |vs| && 3 * t <= |ws|
    requires forall i :: 0 <= i < 3 * t ==> vs[i] == ws[i]
    ensures Accumulated(m, vs, t) == Accumulated(m, ws, t)
  {
    if t > 0 {
      AccumulatedPrefix(m, vs, ws, t - 1);
      assert vs[3 * t - 3] == ws[3 * t - 3] && vs[3 * t - 2] == ws[3 * t - 2] && vs[3 * t - 1] == ws[3 * t - 1];
    }
  }

  /** A trailing partial triangle contributes nothing: one or two vertices appended after a
      whole number of triangles leave the accumulator as it was. */
  lemma PartialTriangleIgnored(m: Analytic, vs: seq<Vertex>, rest: seq<Vertex>)
    requires |vs| % 3 == 0 && |rest| < 3
    ensures AccumulatorOf(m, vs + rest) == AccumulatorOf(m, vs)
  {
    var t := Triangles(vs);
    assert Triangles(vs + rest) == t;
    AccumulatedPrefix(m, vs + rest, vs, t);
  }

  // ---------------------------------------------------------------- smoothed normals

  /** The averaged normal of key `k`: the sum divided by the count, normalised when its length
      exceeds 0.0001. */
  function SmoothedNormal(m: Analytic, acc: Accumulator, k: Key): Vec3
    requires CountOf(acc, k) > 0
  {
    Normalized(m, SumOf(acc, k).Over(CountOf(acc, k) as real), ShortLength)
  }

  /** The third loop on one vertex: the averaged normal of its key when the key received a
      contribution, the vertex unchanged otherwise. */
  function SmoothVertex(m: Analytic, acc: Accumulator, x: Vertex): Vertex {
    var k := KeyOf(x.pos);
    if k in acc.sum && k in acc.count && acc.count[k] > 0 then x.(normal := SmoothedNormal(m, acc, k)) else x
  }

  /** Every vertex of `vs` passed through `SmoothVertex` with accumulator `acc`. */
  function Applied(m: Analytic, acc: Accumulator, vs: seq<Vertex>): seq<Vertex> {
    seq(|vs|, i requires 0 <= i < |vs| => SmoothVertex(m, acc, vs[i]))
  }

  /** The vertex list once `calculateSmoothNormals` returns. */
  function Smoothed(m: Analytic, vs: seq<Vertex>): seq<Vertex> {
    Applied(m, AccumulatorOf(m, vs), vs)
  }

  /** The loop state after `t` triangles: `i` is the first vertex of the next one and `acc`
      holds the contributions of those before it. */
  predicate Scanned(m: Analytic, vs: seq<Vertex>, i: int, t: nat, acc: Accumulator) {
    i == 3 * t && 3 * t <= |vs| && acc == Accumulated(m, vs, t)
  }

  /** One pass of the triangle loop, on the triangle starting at vertex `i = 3t`: its face
      normal is added to the keys of its three vertices. */
  method AccumulateTriangle(m: Analytic, vs: seq<Vertex>, i: nat, ghost t: nat, acc: Accumulator)
    returns (next: Accumulator)
    requires Scanned(m, vs, i, t, acc) && i + 2 < |vs|
    ensures Scanned(m, vs, i + 3, t + 1, next)
  {
    var n := FaceNormal(m, vs[i].pos, vs[i + 1].pos, vs[i + 2].pos);
    AccumulatedNext(m, vs, t);
    next := AccumulateVertexNormal(acc, vs[i], n);
    next := AccumulateVertexNormal(next, vs[i + 1], n);
    next := AccumulateVertexNormal(next, vs[i + 2], n);
  }

  /** The triangle loop of `calculateSmoothNormals`: `i` steps by 3 and the loop stops when
      vertex `i + 2` does not exist. */
  method AccumulateNormals(m: Analytic, vs: seq<Vertex>) returns (acc: Accumulator)
    ensures acc == AccumulatorOf(m, vs)
  {
    acc := Empty;
    var i := 0;
    ghost var t := 0;
    while i < |vs|
      invariant Scanned(m, vs, i, t, acc)
    {
      if i + 2 >= |vs| {
        break;
      }
      acc := AccumulateTriangle(m, vs, i, t, acc);
      i, t := i + 3, t + 1;
    }
    AccumulatorAt(m, vs, t);
  }

  /** Once fewer than three vertices remain after triangle `t`, the loop has seen every
      complete triangle. */
  lemma AccumulatorAt(m: Analytic, vs: seq<Vertex>, t: nat)
    requires 3 * t <= |vs| < 3 * t + 3
    ensures AccumulatorOf(m, vs) == Accumulated(m, vs, t)
  {
    assert Triangles(vs) == t;
  }

  /** The write-back loop of `calculateSmoothNormals`: the normal of every vertex whose key
      has a positive count is set to that key's averaged normal. */
  method ApplyNormals(buf: VertexBuffer, m: Analytic, acc: Accumulator)
    modifies buf
    ensures buf.vertices == Applied(m, acc, old(buf.vertices))
  {
    ghost var vs := buf.vertices;
    var size := |buf.vertices|;
    for idx := 0 to size
      invariant |buf.vertices| == |vs|
      invariant forall k :: 0 <= k < idx ==> buf.vertices[k] == SmoothVertex(m, acc, vs[k])
      invariant forall k :: idx <= k < |vs| ==> buf.vertices[k] == vs[k]
    {
      var key := KeyOf(buf.vertices[idx].pos);
      if key in acc.sum && key in acc.count && acc.count[key] > 0 {
        buf.SetNormal(idx, SmoothedNormal(m, acc, key));
      }
    }
  }

  /** `calculateSmoothNormals(vertices)`. */
  method SmoothNormals(buf: VertexBuffer, m: Analytic)
    modifies buf
    ensures buf.vertices == Smoothed(m, old(buf.vertices))
  {
    var acc := AccumulateNormals(m, buf.vertices);
    ApplyNormals(buf, m, acc);
  }

  // ---------------------------------------------------------------- properties

  /** Smoothing changes normals only: the list keeps its length, and every vertex its position,
      colour, code and texture coordinates. A vertex whose key occurs among the complete
      triangles gets that key's averaged normal; any other keeps its normal. */
  lemma SmoothedVertex(m: Analytic, vs: seq<Vertex>, i: int)
    requires 0 <= i < |vs|
    ensures var s := Smoothed(m, vs); var k := KeyOf(vs[i].pos); var acc := AccumulatorOf(m, vs);
      && |s| == |vs|
      && s[i].pos == vs[i].pos && s[i].colour == vs[i].colour && s[i].code == vs[i].code
      && s[i].u == vs[i].u && s[i].v == vs[i].v
      && CountOf(acc, k) == Occurrences(vs, k, 3 * Triangles(vs))
      && (CountOf(acc, k) > 0 ==> s[i].normal == SmoothedNormal(m, acc, k))
      && (CountOf(acc, k) == 0 ==> s[i].normal == vs[i].normal)
  {
    AccumulatedWellFormed(m, vs, Triangles(vs));
    AccumulatedCount(m, vs, Triangles(vs), KeyOf(vs[i].pos));
  }

  /** Every vertex of a complete triangle, cube and sphere vertices included, has its face
      normal replaced by the averaged normal of its key. */
  lemma TriangleVerticesSmoothed(m: Analytic, vs: seq<Vertex>, i: int)
    requires 0 <= i < 3 * Triangles(vs)
    ensures var k := KeyOf(vs[i].pos);
      CountOf(AccumulatorOf(m, vs), k) > 0 && Smoothed(m, vs)[i].normal == SmoothedNormal(m, AccumulatorOf(m, vs), k)
  {
    OccurrencesPositive(vs, KeyOf(vs[i].pos), 3 * Triangles(vs), i);
    AccumulatedCount(m, vs, Triangles(vs), KeyOf(vs[i].pos));
    SmoothedVertex(m, vs, i);
  }

  /** Vertices with equal keys end with equal normals, provided the key received a
      contribution. */
  lemma EqualKeysEqualNormals(m: Analytic, vs: seq<Vertex>, i: int, j: int)
    requires 0 <= i < |vs| && 0 <= j < |vs| && KeyOf(vs[i].pos) == KeyOf(vs[j].pos)
    requires Occurrences(vs, KeyOf(vs[i].pos), 3 * Triangles(vs)) > 0
    ensures Smoothed(m, vs)[i].normal == Smoothed(m, vs)[j].normal
  {
    SmoothedVertex(m, vs, i);
    SmoothedVertex(m, vs, j);
  }

  /** With an exact square root, an averaged normal longer than 0.0001 comes out of unit
      length. */
  lemma SmoothedNormalUnit(m: Analytic, acc: Accumulator, k: Key)
    requires IsSquareRoot(m.sqrt) && CountOf(acc, k) > 0
    requires m.sqrt(SumOf(acc, k).Over(CountOf(acc, k) as real).SquaredLength()) > ShortLength
    ensures SmoothedNormal(m, acc, k).SquaredLength() == 1.0
  {
    NormalizedIsUnit(m, SumOf(acc, k).Over(CountOf(acc, k) as real), ShortLength);
  }
}
