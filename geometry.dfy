/** Exact-real vector arithmetic standing in for the float arithmetic of the generator, with
    the library functions it calls (square root, sine, cosine, pi) kept uninterpreted. */
module Geometry {

  datatype Vec3 = Vec3(x: real, y: real, z: real) {
    function Plus(o: Vec3): Vec3 { Vec3(x + o.x, y + o.y, z + o.z) }
    function Minus(o: Vec3): Vec3 { Vec3(x - o.x, y - o.y, z - o.z) }
    function Over(k: real): Vec3 requires k != 0.0 { Vec3(x / k, y / k, z / k) }
    function Dot(o: Vec3): real { x * o.x + y * o.y + z * o.z }
    function SquaredLength(): real { x * x + y * y + z * z }
  }

  const Zero: Vec3 := Vec3(0.0, 0.0, 0.0)
  /** The provisional straight-up normal of every new vertex. */
  const Up: Vec3 := Vec3(0.0, 1.0, 0.0)

  /** `Math.sqrt`, `Math.sin`, `Math.cos` and `Math.PI`, supplied by the caller. */
  datatype Analytic = Analytic(sqrt: real -> real, sin: real -> real, cos: real -> real, pi: real)

  /** The hypothesis that `sqrt` is the exact non-negative square root: it maps 0 to 0,
      squares back to its argument and is strictly increasing. */
  ghost predicate IsSquareRoot(sqrt: real -> real) {
    && sqrt(0.0) == 0.0
    && (forall x: real :: 0.0 <= x ==> 0.0 <= sqrt(x) && sqrt(x) * sqrt(x) == x)
    && (forall x: real, y: real :: 0.0 <= x < y ==> sqrt(x) < sqrt(y))
  }

  /** The cross product `u x v` as the normal routines write it out. */
  function Cross(u: Vec3, v: Vec3): Vec3 {
    Vec3(u.y * v.z - u.z * v.y, u.z * v.x - u.x * v.z, u.x * v.y - u.y * v.x)
  }

  /** Divides `n` by its length when that length exceeds `threshold`; otherwise returns `n`. */
  function Normalized(m: Analytic, n: Vec3, threshold: real): Vec3
    requires 0.0 <= threshold
  {
    var len := m.sqrt(n.SquaredLength());
    if len > threshold then n.Over(len) else n
  }

  /** `calculateNormal`: the normalised cross product of the two edges leaving `p1`;
      the raw product is returned when its length is not positive. */
  function CalculateNormal(m: Analytic, p1: Vec3, p2: Vec3, p3: Vec3): Vec3 {
    Normalized(m, Cross(p2.Minus(p1), p3.Minus(p1)), 0.0)
  }

  /** The threshold below which `calculateFaceNormal` and the smoothing pass keep a vector
      unnormalised. */
  const ShortLength: real := 0.0001

  /** `calculateFaceNormal`: as `calculateNormal` with the threshold `ShortLength`. */
  function FaceNormal(m: Analytic, p1: Vec3, p2: Vec3, p3: Vec3): Vec3 {
    Normalized(m, Cross(p2.Minus(p1), p3.Minus(p1)), ShortLength)
  }

  /** `lineDistance(dx, dy)`. */
  function LineDistance(m: Analytic, dx: real, dy: real): real {
    m.sqrt(dx * dx + dy * dy)
  }

  /** The disc test of the water and lawn stamps:
      `sqrt(pow(di, 2) + pow(dj, 2)) <= radius`. */
  predicate WithinRadius(m: Analytic, di: int, dj: int, radius: int) {
    m.sqrt((di * di + dj * dj) as real) <= radius as real
  }

  lemma SquareStrict(a: real, b: real)
    requires 0.0 <= a < b
    ensures a * a < b * b
  {
    var d := b - a;
    var aa, ab, bb, ad, bd := a * a, a * b, b * b, a * d, b * d;
    assert bd > 0.0;
    assert ad >= 0.0;
    assert ab == aa + ad;
    assert bb == ab + bd;
  }

  /** The square root undoes squaring on non-negative numbers. */
  lemma RootOfSquare(sqrt: real -> real, r: real)
    requires IsSquareRoot(sqrt) && 0.0 <= r
    ensures sqrt(r * r) == r
  {
    var x := r * r;
    var s := sqrt(x);
    assert 0.0 <= x by { assert r * r >= 0.0; }
    assert 0.0 <= s && s * s == x;
    if s < r { SquareStrict(s, r); }
    if r < s { SquareStrict(r, s); }
  }

  /** With an exact square root the disc test is the integer test `di^2 + dj^2 <= radius^2`
      on a non-negative radius. */
  lemma WithinRadiusExact(m: Analytic, di: int, dj: int, radius: int)
    requires IsSquareRoot(m.sqrt)
    ensures WithinRadius(m, di, dj, radius) <==> 0 <= radius && di * di + dj * dj <= radius * radius
  {
    var d := di * di + dj * dj;
    assert 0 <= d;
    var r := radius as real;
    if 0 <= radius {
      RootOfSquare(m.sqrt, r);
      assert (radius * radius) as real == r * r;
    }
  }

  /** `a * k == 1` for the `k` that `a` is scaled by, written without division. */
  lemma OverSquared(a: real, len: real)
    requires len != 0.0
    ensures (a / len) * (a / len) * (len * len) == a * a
  {
    var q := a / len;
    assert q * len == a;
    assert q * q * (len * len) == (q * len) * (q * len);
  }

  /** Whatever the threshold, a vector that is divided by its length comes out of unit length. */
  lemma NormalizedIsUnit(m: Analytic, n: Vec3, threshold: real)
    requires IsSquareRoot(m.sqrt) && 0.0 <= threshold
    requires m.sqrt(n.SquaredLength()) > threshold
    ensures Normalized(m, n, threshold).SquaredLength() == 1.0
  {
    var l2 := n.SquaredLength();
    assert l2 >= 0.0 by {
      assert n.x * n.x >= 0.0 && n.y * n.y >= 0.0 && n.z * n.z >= 0.0;
    }
    var len := m.sqrt(l2);
    assert 0.0 <= len && len * len == l2;
    var r := n.Over(len);
    OverSquared(n.x, len);
    OverSquared(n.y, len);
    OverSquared(n.z, len);
    var q := r.SquaredLength();
    assert q * (len * len) == l2;
    assert len * len == l2;
    assert l2 != 0.0;
    assert (q - 1.0) * l2 == 0.0;
  }

  /** The cross product is perpendicular to both of its factors. */
  lemma CrossIsPerpendicular(u: Vec3, v: Vec3)
    ensures Cross(u, v).Dot(u) == 0.0 && Cross(u, v).Dot(v) == 0.0
  {
    var c := Cross(u, v);
    assert c.Dot(u) == (u.y * v.z - u.z * v.y) * u.x + (u.z * v.x - u.x * v.z) * u.y + (u.x * v.y - u.y * v.x) * u.z;
  }

  lemma DotOver(c: Vec3, u: Vec3, len: real)
    requires len != 0.0
    ensures c.Over(len).Dot(u) == c.Dot(u) / len
  {
    assert (c.x / len) * u.x == (c.x * u.x) / len;
    assert (c.y / len) * u.y == (c.y * u.y) / len;
    assert (c.z / len) * u.z == (c.z * u.z) / len;
  }

  /** `calculateNormal` is perpendicular to both edges of its triangle; it is of unit length
      whenever the cross product has positive length, and a degenerate triangle (zero cross
      product) yields the zero vector, not `Up`. */
  lemma CalculateNormalFacts(m: Analytic, p1: Vec3, p2: Vec3, p3: Vec3)
    requires IsSquareRoot(m.sqrt)
    ensures var n := CalculateNormal(m, p1, p2, p3);
      n.Dot(p2.Minus(p1)) == 0.0 && n.Dot(p3.Minus(p1)) == 0.0
    ensures var c := Cross(p2.Minus(p1), p3.Minus(p1));
      m.sqrt(c.SquaredLength()) > 0.0 ==> CalculateNormal(m, p1, p2, p3).SquaredLength() == 1.0
    ensures Cross(p2.Minus(p1), p3.Minus(p1)) == Zero ==> CalculateNormal(m, p1, p2, p3) == Zero
  {
    var u, v := p2.Minus(p1), p3.Minus(p1);
    var c := Cross(u, v);
    var len := m.sqrt(c.SquaredLength());
    CrossIsPerpendicular(u, v);
    if len > 0.0 {
      NormalizedIsUnit(m, c, 0.0);
      DotOver(c, u, len);
      DotOver(c, v, len);
    }
  }
}
