/**
 * RasterTriangle2D: a triangle projected to screen space, with the data the
 * rasteriser precomputes for it (edge vectors, the inverse of the barycentric
 * denominator, the bounding box) and the boundary-inclusive barycentric
 * containment query. Floats are modelled as exact reals.
 */
module RasterTriangle {
  import opened Wrappers
  import opened Geometry

  /** A non-owning pointer into data that outlives the triangle (a vertex, the
      normal, a UV pair, the material), or `nullptr`. */
  datatype Ref = Null | Ref(address: nat)

  /** What the projecting constructor reads from the source `RasterTriangle3D`
      besides its vertex positions: the pointers it keeps and the UV flag. */
  datatype SourceTriangle = SourceTriangle(p1: Ref, p2: Ref, p3: Ref, normal: Ref,
                                           hasUV: bool, uv1: Ref, uv2: Ref, uv3: Ref)

  /** Barycentric weights of a point: `u` for p1, `v` for p2, `w` for p3. */
  datatype Weights = Weights(u: real, v: real, w: real) {
    predicate NonNegative() {
      v >= 0.0 && w >= 0.0 && u >= 0.0
    }
  }

  /** Twice the signed area of the triangle: `v0.X * v1.Y - v1.X * v0.Y`. */
  function Determinant(p1: Vec2, p2: Vec2, p3: Vec2): real {
    Cross(p2.Minus(p1), p3.Minus(p1))
  }

  /** The value kept in `denominator` for a raw determinant `d`: its inverse when
      `|d|` exceeds EPSILON, else the degenerate sentinel 0. */
  function StoredDenominator(d: real): (r: real)
    ensures Abs(d) > EPSILON ==> r * d == 1.0
    ensures Abs(d) <= EPSILON ==> r == 0.0
  {
    if Abs(d) > EPSILON then 1.0 / d else 0.0
  }

  /** The axis-aligned bounding box of the three vertices. */
  function BoundsOf(p1: Vec2, p2: Vec2, p3: Vec2): (b: Rect)
    ensures b.min.x <= b.max.x && b.min.y <= b.max.y
    ensures b.Contains(p1) && b.Contains(p2) && b.Contains(p3)
  {
    Rect(Vec2(Min3(p1.x, p2.x, p3.x), Min3(p1.y, p2.y, p3.y)),
         Vec2(Max3(p1.x, p2.x, p3.x), Max3(p1.y, p2.y, p3.y)))
  }

  /** The box is the smallest one holding the vertices: any rectangle that holds
      all three holds the box. */
  lemma BoundsTightest(p1: Vec2, p2: Vec2, p3: Vec2, r: Rect)
    requires r.Contains(p1) && r.Contains(p2) && r.Contains(p3)
    ensures r.Contains(BoundsOf(p1, p2, p3).min) && r.Contains(BoundsOf(p1, p2, p3).max)
  {
  }

  /** `pt` is the combination of the vertices with weights `wt` summing to one. */
  predicate IsBarycentric(p1: Vec2, p2: Vec2, p3: Vec2, pt: Vec2, wt: Weights) {
    && wt.u + wt.v + wt.w == 1.0
    && wt.u * p1.x + wt.v * p2.x + wt.w * p3.x == pt.x
    && wt.u * p1.y + wt.v * p2.y + wt.w * p3.y == pt.y
  }

  /** The barycentric query on the stored data: `None` on the early exit taken
      when `|denominator| < EPSILON`, else the weights by Cramer's rule. */
  function Solve(p1: Vec2, v0: Vec2, v1: Vec2, denominator: real, x: real, y: real): (r: Option<Weights>)
    ensures r.None? <==> Abs(denominator) < EPSILON
    ensures r.Some? ==> r.value.u + r.value.v + r.value.w == 1.0
  {
    if Abs(denominator) < EPSILON then None
    else
      var q := Vec2(x, y).Minus(p1);
      var v := Cross(q, v1) * denominator;
      var w := Cross(v0, q) * denominator;
      Some(Weights(1.0 - v - w, v, w))
  }

  /** The query reports containment: it did not exit early and no weight is negative. */
  predicate Covers(r: Option<Weights>) {
    r.Some? && r.value.NonNegative()
  }

  /** The answer of a triangle whose derived data is consistent with its vertices. */
  function Query(p1: Vec2, p2: Vec2, p3: Vec2, x: real, y: real): Option<Weights> {
    Solve(p1, p2.Minus(p1), p3.Minus(p1), StoredDenominator(Determinant(p1, p2, p3)), x, y)
  }

  /** Multiplying both sides by a positive number keeps a strict inequality. */
  lemma MulStrictlyMonotone(s: real, e: real, a: real)
    requires s < e && a > 0.0
    ensures s * a < e * a
  {
  }

  /** Multiplying both sides by a positive number keeps a weak inequality. */
  lemma MulMonotone(e: real, s: real, a: real)
    requires e <= s && a > 0.0
    ensures e * a <= s * a
  {
  }

  /** The guard arithmetic on plain numbers: `s` is the magnitude stored for a
      determinant of magnitude `a` (its inverse past EPSILON, zero otherwise). */
  lemma GuardIff(s: real, a: real)
    requires s >= 0.0 && a >= 0.0
    requires a > EPSILON ==> s * a == 1.0
    requires a <= EPSILON ==> s == 0.0
    ensures s < EPSILON <==> a <= EPSILON || EPSILON * a > 1.0
  {
    if a > EPSILON {
      var sa, ea := s * a, EPSILON * a;
      if s < EPSILON {
        MulStrictlyMonotone(s, EPSILON, a);
        assert sa < ea;
      } else {
        MulMonotone(EPSILON, s, a);
        assert ea <= sa;
      }
    }
  }

  /** The magnitude of the stored value: the inverse magnitude of a determinant
      past the construction-time guard, zero otherwise. */
  lemma StoredMagnitude(d: real)
    ensures Abs(d) > EPSILON ==> Abs(StoredDenominator(d)) * Abs(d) == 1.0
    ensures Abs(d) <= EPSILON ==> Abs(StoredDenominator(d)) == 0.0
  {
    if Abs(d) > EPSILON {
      var s := StoredDenominator(d);
      assert s * d == 1.0;
      if d < 0.0 {
        assert Abs(s) * Abs(d) == s * d;
      }
    }
  }

  /** The stored value fails the query-time guard exactly when the determinant
      failed the construction-time guard, or `EPSILON * |d| > 1`. */
  lemma InverseGuard(d: real)
    ensures Abs(StoredDenominator(d)) < EPSILON <==> Abs(d) <= EPSILON || EPSILON * Abs(d) > 1.0
  {
    StoredMagnitude(d);
    GuardIff(Abs(StoredDenominator(d)), Abs(d));
  }

  /** A triangle always misses exactly when its determinant is within EPSILON of
      zero (degenerate) or its inverse is (`|d| > 1 / EPSILON`, a very large
      triangle): the guard at construction tests `|d|`, the guard at query time
      tests the stored inverse. */
  lemma QueryMissIff(p1: Vec2, p2: Vec2, p3: Vec2, x: real, y: real)
    ensures Query(p1, p2, p3, x, y).None? <==>
              Abs(Determinant(p1, p2, p3)) <= EPSILON || EPSILON * Abs(Determinant(p1, p2, p3)) > 1.0
  {
    InverseGuard(Determinant(p1, p2, p3));
  }

  /** Cramer's rule in the form the query uses: with `d = Cross(v0, v1)`, the
      weights `Cross(q, v1)` and `Cross(v0, q)` rebuild `d * q`. */
  lemma CramerIdentity(v0: Vec2, v1: Vec2, q: Vec2)
    ensures Cross(q, v1) * v0.x + Cross(v0, q) * v1.x == Cross(v0, v1) * q.x
    ensures Cross(q, v1) * v0.y + Cross(v0, q) * v1.y == Cross(v0, v1) * q.y
  {
  }

  /** Whenever the query does not exit early, its weights express the queried
      point as a combination of the vertices. */
  lemma QueryIsBarycentric(p1: Vec2, p2: Vec2, p3: Vec2, x: real, y: real)
    requires Query(p1, p2, p3, x, y).Some?
    ensures IsBarycentric(p1, p2, p3, Vec2(x, y), Query(p1, p2, p3, x, y).value)
  {
    var v0, v1 := p2.Minus(p1), p3.Minus(p1);
    var d := Determinant(p1, p2, p3);
    var s := StoredDenominator(d);
    var q := Vec2(x, y).Minus(p1);
    var wt := Query(p1, p2, p3, x, y).value;
    assert s * d == 1.0;
    assert wt.v == Cross(q, v1) * s && wt.w == Cross(v0, q) * s;
    CramerIdentity(v0, v1, q);
    assert wt.v * v0.x + wt.w * v1.x == q.x by {
      assert wt.v * v0.x + wt.w * v1.x == (Cross(q, v1) * v0.x + Cross(v0, q) * v1.x) * s;
      assert (d * q.x) * s == q.x * (s * d);
    }
    assert wt.v * v0.y + wt.w * v1.y == q.y by {
      assert wt.v * v0.y + wt.w * v1.y == (Cross(q, v1) * v0.y + Cross(v0, q) * v1.y) * s;
      assert (d * q.y) * s == q.y * (s * d);
    }
  }

  /** For a triangle of non-zero area, barycentric weights are unique. */
  lemma BarycentricUnique(p1: Vec2, p2: Vec2, p3: Vec2, pt: Vec2, a: Weights, b: Weights)
    requires Determinant(p1, p2, p3) != 0.0
    requires IsBarycentric(p1, p2, p3, pt, a) && IsBarycentric(p1, p2, p3, pt, b)
    ensures a == b
  {
    var v0, v1 := p2.Minus(p1), p3.Minus(p1);
    var dv, dw := a.v - b.v, a.w - b.w;
    // With the weights summing to one, the difference satisfies dv * v0 + dw * v1 == 0.
    assert dv * v0.x + dw * v1.x == 0.0 by {
      assert a.u * p1.x + a.v * p2.x + a.w * p3.x == b.u * p1.x + b.v * p2.x + b.w * p3.x;
      assert a.u == 1.0 - a.v - a.w && b.u == 1.0 - b.v - b.w;
    }
    assert dv * v0.y + dw * v1.y == 0.0 by {
      assert a.u * p1.y + a.v * p2.y + a.w * p3.y == b.u * p1.y + b.v * p2.y + b.w * p3.y;
      assert a.u == 1.0 - a.v - a.w && b.u == 1.0 - b.v - b.w;
    }
    var d := Cross(v0, v1);
    assert dv * d == (dv * v0.x + dw * v1.x) * v1.y - v1.x * (dv * v0.y + dw * v1.y);
    assert dw * d == v0.x * (dv * v0.y + dw * v1.y) - (dv * v0.x + dw * v1.x) * v0.y;
  }

  /** When the query does not exit early, its weights are exactly the barycentric
      coordinates of the point: they are barycentric, and nothing else is. */
  lemma QueryCharacterised(p1: Vec2, p2: Vec2, p3: Vec2, x: real, y: real, wt: Weights)
    requires Query(p1, p2, p3, x, y).Some?
    ensures IsBarycentric(p1, p2, p3, Vec2(x, y), wt) <==> Query(p1, p2, p3, x, y) == Some(wt)
  {
    QueryIsBarycentric(p1, p2, p3, x, y);
    assert StoredDenominator(Determinant(p1, p2, p3)) != 0.0;
    if IsBarycentric(p1, p2, p3, Vec2(x, y), wt) {
      BarycentricUnique(p1, p2, p3, Vec2(x, y), wt, Query(p1, p2, p3, x, y).value);
    }
  }

  /** Each vertex gets the unit weight of its own and is reported as inside. */
  lemma VertexWeights(p1: Vec2, p2: Vec2, p3: Vec2)
    requires Abs(StoredDenominator(Determinant(p1, p2, p3))) >= EPSILON
    ensures Query(p1, p2, p3, p1.x, p1.y) == Some(Weights(1.0, 0.0, 0.0))
    ensures Query(p1, p2, p3, p2.x, p2.y) == Some(Weights(0.0, 1.0, 0.0))
    ensures Query(p1, p2, p3, p3.x, p3.y) == Some(Weights(0.0, 0.0, 1.0))
    ensures Covers(Query(p1, p2, p3, p1.x, p1.y))
    ensures Covers(Query(p1, p2, p3, p2.x, p2.y))
    ensures Covers(Query(p1, p2, p3, p3.x, p3.y))
  {
    QueryCharacterised(p1, p2, p3, p1.x, p1.y, Weights(1.0, 0.0, 0.0));
    QueryCharacterised(p1, p2, p3, p2.x, p2.y, Weights(0.0, 1.0, 0.0));
    QueryCharacterised(p1, p2, p3, p3.x, p3.y, Weights(0.0, 0.0, 1.0));
  }

  /** A product of two non-negative numbers is non-negative. */
  lemma MulNonNegative(k: real, a: real)
    requires k >= 0.0 && a >= 0.0
    ensures k * a >= 0.0
  {
  }

  /** A convex combination of three numbers lies between their minimum and maximum. */
  lemma ConvexBetween(a: real, b: real, c: real, wt: Weights)
    requires wt.NonNegative() && wt.u + wt.v + wt.w == 1.0
    ensures Min3(a, b, c) <= wt.u * a + wt.v * b + wt.w * c <= Max3(a, b, c)
  {
    var lo, hi := Min3(a, b, c), Max3(a, b, c);
    var sum := wt.u * a + wt.v * b + wt.w * c;
    assert sum - lo == wt.u * (a - lo) + wt.v * (b - lo) + wt.w * (c - lo);
    MulNonNegative(wt.u, a - lo); MulNonNegative(wt.v, b - lo); MulNonNegative(wt.w, c - lo);
    assert hi - sum == wt.u * (hi - a) + wt.v * (hi - b) + wt.w * (hi - c);
    MulNonNegative(wt.u, hi - a); MulNonNegative(wt.v, hi - b); MulNonNegative(wt.w, hi - c);
  }

  /** A combination of the vertices with non-negative weights lies in their box. */
  lemma CombinationInBounds(p1: Vec2, p2: Vec2, p3: Vec2, pt: Vec2, wt: Weights)
    requires IsBarycentric(p1, p2, p3, pt, wt) && wt.NonNegative()
    ensures BoundsOf(p1, p2, p3).Contains(pt)
  {
    ConvexBetween(p1.x, p2.x, p3.x, wt);
    ConvexBetween(p1.y, p2.y, p3.y, wt);
  }

  /** A point reported as inside lies in the triangle's bounding box; so a point
      outside the box is always reported as outside. */
  lemma CoveredInBounds(p1: Vec2, p2: Vec2, p3: Vec2, x: real, y: real)
    requires Covers(Query(p1, p2, p3, x, y))
    ensures BoundsOf(p1, p2, p3).Contains(Vec2(x, y))
  {
    QueryIsBarycentric(p1, p2, p3, x, y);
    CombinationInBounds(p1, p2, p3, Vec2(x, y), Query(p1, p2, p3, x, y).value);
  }

  /** Three collinear vertices make a degenerate triangle that misses every point:
      the third vertex is any point on the line through the first two. */
  lemma CollinearMisses(p1: Vec2, p2: Vec2, t: real, x: real, y: real)
    ensures Query(p1, p2, Vec2(p1.x + t * (p2.x - p1.x), p1.y + t * (p2.y - p1.y)), x, y).None?
  {
    assert Determinant(p1, p2, Vec2(p1.x + t * (p2.x - p1.x), p1.y + t * (p2.y - p1.y))) == 0.0;
  }

  /** The right triangle (0,0), (4,0), (0,4) has determinant 16, so it passes both
      guards when EPSILON <= 1/16, and its query solves with the stored inverse 1/16. */
  lemma RightTriangleSolves(p1: Vec2, p2: Vec2, p3: Vec2, x: real, y: real)
    requires p1 == Vec2(0.0, 0.0) && p2 == Vec2(4.0, 0.0) && p3 == Vec2(0.0, 4.0)
    requires EPSILON <= 1.0 / 16.0
    ensures Query(p1, p2, p3, x, y) == Some(Weights(1.0 - x / 4.0 - y / 4.0, x / 4.0, y / 4.0))
  {
    var v0, v1 := p2.Minus(p1), p3.Minus(p1);
    assert Determinant(p1, p2, p3) == 16.0;
    var s := StoredDenominator(16.0);
    assert s == 1.0 / 16.0;
    var q := Vec2(x, y).Minus(p1);
    assert v0 == Vec2(4.0, 0.0) && v1 == Vec2(0.0, 4.0) && q == Vec2(x, y);
    assert Cross(q, v1) == 4.0 * x && Cross(v0, q) == 4.0 * y;
    assert Cross(q, v1) * s == x / 4.0;
    assert Cross(v0, q) * s == y / 4.0;
    assert Query(p1, p2, p3, x, y) == Solve(p1, v0, v1, s, x, y);
  }

  /** On that triangle a point is reported as inside exactly when it lies in the
      closed triangle: edges and vertices included. */
  lemma RightTriangleCovers(p1: Vec2, p2: Vec2, p3: Vec2, x: real, y: real)
    requires p1 == Vec2(0.0, 0.0) && p2 == Vec2(4.0, 0.0) && p3 == Vec2(0.0, 4.0)
    requires EPSILON <= 1.0 / 16.0
    ensures Covers(Query(p1, p2, p3, x, y)) <==> 0.0 <= x && 0.0 <= y && x + y <= 4.0
  {
    RightTriangleSolves(p1, p2, p3, x, y);
  }

  /** RasterTriangle2D. `p1`, `p2`, `p3` are the screen-space vertices of the base
      `Triangle2D`; the other fields are precomputed from them or copied from the
      source triangle. */
  class RasterTriangle2D {
    var p1: Vec2
    var p2: Vec2
    var p3: Vec2
    var v0: Vec2
    var v1: Vec2
    var denominator: real
    var bounds: Rect
    var averageDepth: real
    var hasUV: bool
    var t3p1: Ref
    var t3p2: Ref
    var t3p3: Ref
    var normal: Ref
    var material: Ref
    var p1UV: Ref
    var p2UV: Ref
    var p3UV: Ref

    /** The derived data agree with the current vertices. */
    ghost predicate Valid()
      reads this
    {
      && v0 == p2.Minus(p1)
      && v1 == p3.Minus(p1)
      && denominator == StoredDenominator(Determinant(p1, p2, p3))
      && bounds == BoundsOf(p1, p2, p3)
    }

    /** The default constructor: every pointer null, no UV, depth 0, the degenerate
        sentinel as denominator and the unit box (0,0)-(1,1) as bounds. The base
        `Triangle2D` is not part of this model; its vertices are taken to be the
        origin. The sentinel makes every query miss. */
    constructor ()
      ensures p1 == Vec2(0.0, 0.0) && p2 == Vec2(0.0, 0.0) && p3 == Vec2(0.0, 0.0)
      ensures v0 == Vec2(0.0, 0.0) && v1 == Vec2(0.0, 0.0)
      ensures t3p1 == Null && t3p2 == Null && t3p3 == Null && normal == Null
      ensures material == Null && p1UV == Null && p2UV == Null && p3UV == Null
      ensures !hasUV && averageDepth == 0.0 && denominator == 0.0
      ensures bounds == Rect(Vec2(0.0, 0.0), Vec2(1.0, 1.0))
      ensures forall x: real, y: real :: Solve(p1, v0, v1, denominator, x, y).None?
    {
      p1, p2, p3 := Vec2(0.0, 0.0), Vec2(0.0, 0.0), Vec2(0.0, 0.0);
      v0, v1 := Vec2(0.0, 0.0), Vec2(0.0, 0.0);
      t3p1, t3p2, t3p3, normal := Null, Null, Null, Null;
      material, p1UV, p2UV, p3UV := Null, Null, Null, Null;
      hasUV := false;
      averageDepth := 0.0;
      denominator := 0.0;
      bounds := Rect(Vec2(0.0, 0.0), Vec2(1.0, 1.0));
    }

    /** The projecting constructor. The camera-space positions of the three source
        vertices (`projected1..3`) are inputs here: the rotation and scaling that
        produce them belong to the external math library. The UV pointers are set
        only when the source has UVs, and are otherwise left unspecified. */
    constructor Project(source: SourceTriangle, projected1: Vec3, projected2: Vec3, projected3: Vec3, mat: Ref)
      ensures material == mat && normal == source.normal
      ensures t3p1 == source.p1 && t3p2 == source.p2 && t3p3 == source.p3
      ensures hasUV == source.hasUV
      ensures hasUV ==> p1UV == source.uv1 && p2UV == source.uv2 && p3UV == source.uv3
      ensures p1 == Vec2(projected1.x, projected1.y)
      ensures p2 == Vec2(projected2.x, projected2.y)
      ensures p3 == Vec2(projected3.x, projected3.y)
      ensures averageDepth == (projected1.z + projected2.z + projected3.z) / 3.0
      ensures Valid()
    {
      bounds := Rect(Vec2(0.0, 0.0), Vec2(1.0, 1.0));
      material := mat;
      t3p1, t3p2, t3p3 := source.p1, source.p2, source.p3;
      normal := source.normal;
      hasUV := source.hasUV;
      if source.hasUV {
        p1UV, p2UV, p3UV := source.uv1, source.uv2, source.uv3;
      }
      p1 := Vec2(projected1.x, projected1.y);
      p2 := Vec2(projected2.x, projected2.y);
      p3 := Vec2(projected3.x, projected3.y);
      averageDepth := (projected1.z + projected2.z + projected3.z) / 3.0;
      new;
      CalculateBoundsAndDenominator();
    }

    /** Recomputes the edge vectors, the stored denominator and the bounds from
        the vertices, which it leaves as they are. */
    method CalculateBoundsAndDenominator()
      modifies this`v0, this`v1, this`denominator, this`bounds
      ensures Valid()
      ensures v0 == p2.Minus(p1) && v1 == p3.Minus(p1)
      ensures denominator == StoredDenominator(Determinant(p1, p2, p3))
      ensures bounds == BoundsOf(p1, p2, p3)
    {
      v0 := p2.Minus(p1);
      v1 := p3.Minus(p1);
      denominator := v0.x * v1.y - v1.x * v0.y;
      ghost var d := denominator;
      assert d == Determinant(p1, p2, p3);
      if Abs(denominator) > EPSILON {
        denominator := 1.0 / denominator;
      } else {
        denominator := 0.0;
      }
      assert denominator == StoredDenominator(d);
      var minX := Min3(p1.x, p2.x, p3.x);
      var minY := Min3(p1.y, p2.y, p3.y);
      var maxX := Max3(p1.x, p2.x, p3.x);
      var maxY := Max3(p1.y, p2.y, p3.y);
      bounds := Rect(Vec2(minX, minY), Vec2(maxX, maxY));
    }

    /** The barycentric query at (x, y). `u`, `v`, `w` are the caller's variables
        passed by reference: on the early exit they come back unchanged. */
    method GetBarycentricCoords(x: real, y: real, u: real, v: real, w: real)
      returns (inside: bool, uOut: real, vOut: real, wOut: real)
      ensures Abs(denominator) < EPSILON ==> !inside && uOut == u && vOut == v && wOut == w
      ensures Abs(denominator) >= EPSILON ==> Solve(p1, v0, v1, denominator, x, y) == Some(Weights(uOut, vOut, wOut))
      ensures Abs(denominator) >= EPSILON ==> uOut + vOut + wOut == 1.0
      ensures inside <==> Abs(denominator) >= EPSILON && vOut >= 0.0 && wOut >= 0.0 && uOut >= 0.0
      ensures Valid() && Abs(denominator) >= EPSILON ==> IsBarycentric(p1, p2, p3, Vec2(x, y), Weights(uOut, vOut, wOut))
      ensures Valid() && inside ==> bounds.Contains(Vec2(x, y))
    {
      if Abs(denominator) < EPSILON {
        return false, u, v, w;
      }
      var v2 := Vec2(x, y).Minus(p1);
      vOut := (v2.x * v1.y - v1.x * v2.y) * denominator;
      wOut := (v0.x * v2.y - v2.x * v0.y) * denominator;
      uOut := 1.0 - vOut - wOut;
      inside := vOut >= 0.0 && wOut >= 0.0 && uOut >= 0.0;
      assert vOut == Cross(v2, v1) * denominator && wOut == Cross(v0, v2) * denominator;
      assert v2 == Vec2(x, y).Minus(p1);
      assert Solve(p1, v0, v1, denominator, x, y).Some?;
      assert Solve(p1, v0, v1, denominator, x, y).value.v == vOut;
      assert Solve(p1, v0, v1, denominator, x, y).value.w == wOut;
      assert Solve(p1, v0, v1, denominator, x, y) == Some(Weights(uOut, vOut, wOut));
      if Valid() {
        assert Query(p1, p2, p3, x, y) == Solve(p1, v0, v1, denominator, x, y);
        QueryIsBarycentric(p1, p2, p3, x, y);
        if inside {
          CoveredInBounds(p1, p2, p3, x, y);
        }
      }
    }

    /** The bounding-box test used for spatial culling. It is conservative and
        sound: a rectangle holding a point the triangle covers always overlaps. */
    method Overlaps(otherBounds: Rect) returns (r: bool)
      ensures r == bounds.Overlaps(otherBounds)
      ensures Valid() ==> forall x: real, y: real ::
                Covers(Solve(p1, v0, v1, denominator, x, y)) && otherBounds.Contains(Vec2(x, y)) ==> r
    {
      r := bounds.Overlaps(otherBounds);
      if Valid() {
        forall x: real, y: real | Covers(Solve(p1, v0, v1, denominator, x, y)) && otherBounds.Contains(Vec2(x, y))
          ensures r
        {
          CoveredInBounds(p1, p2, p3, x, y);
        }
      }
    }

    /** The bound material. */
    method GetMaterial() returns (m: Ref)
      ensures m == material
    {
      m := material;
    }
  }
}
