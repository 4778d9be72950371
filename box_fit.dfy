/**
 * The bounding-box fit at the top of `MeshViewer::draw`: from the mesh's
 * axis-aligned bounds it derives one uniform scale factor and a translation
 * that together place the mesh inside a 10 x 10 x 10 cube centred on the
 * look point (the origin). The model transform is `scale(s)` followed by
 * `translate(t)`, so a mesh point `p` is drawn at `s * (p + t)`.
 */
module BoxFit {
  import opened Vectors

  /** Edge length of the view cube the mesh is fitted into. */
  const FIT_SIZE: real := 10.0

  /** An extent within this distance of zero is flat and is not divided by. */
  const FLAT_EPSILON: real := 0.000001

  datatype Fit = Fit(scale: Vec3, translate: Vec3)

  predicate IsFlat(extent: real)
  {
    -FLAT_EPSILON <= extent <= FLAT_EPSILON
  }

  function Extents(minB: Vec3, maxB: Vec3): Vec3
  {
    Sub(maxB, minB)
  }

  /** Per-axis scale candidate: 1 for a flat axis, otherwise the factor that stretches the extent to the cube edge. */
  function AxisScale(extent: real): (s: real)
    ensures IsFlat(extent) ==> s == 1.0
    ensures !IsFlat(extent) ==> s * extent == FIT_SIZE
    ensures extent >= 0.0 ==> s > 0.0
  {
    if IsFlat(extent) then 1.0 else FIT_SIZE / extent
  }

  function AxisScales(minB: Vec3, maxB: Vec3): Vec3
  {
    var e := Extents(minB, maxB);
    Vec3(AxisScale(e.x), AxisScale(e.y), AxisScale(e.z))
  }

  /** The smallest of the three candidates, so that no axis overflows the cube. */
  function UniformScale(c: Vec3): (s: real)
    ensures s <= c.x && s <= c.y && s <= c.z
    ensures s == c.x || s == c.y || s == c.z
  {
    Min(Min(c.x, c.y), c.z)
  }

  function Midpoint(minB: Vec3, maxB: Vec3): Vec3
  {
    var sum := Add(maxB, minB);
    Vec3(sum.x * 0.5, sum.y * 0.5, sum.z * 0.5)
  }

  /** The scale and translation `draw` hands to the renderer for a mesh with these bounds. */
  function FitBox(minB: Vec3, maxB: Vec3): (f: Fit)
    ensures f.scale.x == f.scale.y == f.scale.z
    ensures Add(Midpoint(minB, maxB), f.translate) == Vec3(0.0, 0.0, 0.0)
  {
    var s := UniformScale(AxisScales(minB, maxB));
    Fit(Splat(s), Neg(Midpoint(minB, maxB)))
  }

  /** Where a mesh point is drawn under a fit: translated first, then scaled. */
  function Place(f: Fit, p: Vec3): Vec3
  {
    var q := Add(p, f.translate);
    Vec3(f.scale.x * q.x, f.scale.y * q.y, f.scale.z * q.z)
  }

  predicate InCube(q: Vec3)
  {
    var h := FIT_SIZE / 2.0;
    -h <= q.x <= h && -h <= q.y <= h && -h <= q.z <= h
  }

  /** The uniform scale is the smallest of the three per-axis candidates. */
  lemma FitScaleIsSmallestCandidate(minB: Vec3, maxB: Vec3)
    ensures var s, c := FitBox(minB, maxB).scale.x, AxisScales(minB, maxB);
      s <= c.x && s <= c.y && s <= c.z && (s == c.x || s == c.y || s == c.z)
  {
  }

  lemma FitScalePositive(minB: Vec3, maxB: Vec3)
    requires LessEq(minB, maxB)
    ensures FitBox(minB, maxB).scale.x > 0.0
  {
  }

  /** One axis: a scale no larger than the axis candidate keeps the scaled extent within the cube edge. */
  lemma ScaledExtentBounded(s: real, extent: real)
    requires extent >= 0.0 && 0.0 < s <= AxisScale(extent)
    ensures s * extent <= FIT_SIZE
  {
    if IsFlat(extent) {
      assert s <= 1.0 && extent <= FLAT_EPSILON;
      assert s * extent <= 1.0 * extent;
    } else {
      assert s * extent <= AxisScale(extent) * extent;
    }
  }

  /** For every well-formed box, flat or not, the fitted box is no longer than the cube edge on any axis. */
  lemma FittedExtentsWithinCube(minB: Vec3, maxB: Vec3)
    requires LessEq(minB, maxB)
    ensures var s := FitBox(minB, maxB).scale.x;
      var e := Extents(minB, maxB);
      s * e.x <= FIT_SIZE && s * e.y <= FIT_SIZE && s * e.z <= FIT_SIZE
  {
    var s := FitBox(minB, maxB).scale.x;
    var e := Extents(minB, maxB);
    FitScalePositive(minB, maxB);
    ScaledExtentBounded(s, e.x);
    ScaledExtentBounded(s, e.y);
    ScaledExtentBounded(s, e.z);
  }

  /** One axis: an offset within half the extent, scaled, stays within half the cube edge. */
  lemma ScaledOffsetInCube(s: real, extent: real, d: real)
    requires s > 0.0 && s * extent <= FIT_SIZE
    requires -extent / 2.0 <= d <= extent / 2.0
    ensures -FIT_SIZE / 2.0 <= s * d <= FIT_SIZE / 2.0
  {
    assert s * d <= s * (extent / 2.0);
    assert s * (-extent / 2.0) <= s * d;
  }

  /** One axis of a recentred box: a coordinate between the bounds, moved by minus their midpoint and scaled, stays within half the cube edge. */
  lemma RecentredAxisInCube(s: real, lo: real, hi: real, v: real, t: real)
    requires lo <= v <= hi && (hi + lo) * 0.5 + t == 0.0
    requires s > 0.0 && s * (hi - lo) <= FIT_SIZE
    ensures -FIT_SIZE / 2.0 <= s * (v + t) <= FIT_SIZE / 2.0
  {
    ScaledOffsetInCube(s, hi - lo, v + t);
  }

  /** A uniform scale that keeps every extent within the cube edge, after recentring, keeps every box point in the cube. */
  lemma RecentredBoxInCube(minB: Vec3, maxB: Vec3, p: Vec3, f: Fit)
    requires LessEq(minB, p) && LessEq(p, maxB)
    requires f.scale.x == f.scale.y == f.scale.z
    requires Add(Midpoint(minB, maxB), f.translate) == Vec3(0.0, 0.0, 0.0)
    requires var s, e := f.scale.x, Extents(minB, maxB);
      s > 0.0 && s * e.x <= FIT_SIZE && s * e.y <= FIT_SIZE && s * e.z <= FIT_SIZE
    ensures InCube(Place(f, p))
  {
    RecentredAxisInCube(f.scale.x, minB.x, maxB.x, p.x, f.translate.x);
    RecentredAxisInCube(f.scale.y, minB.y, maxB.y, p.y, f.translate.y);
    RecentredAxisInCube(f.scale.z, minB.z, maxB.z, p.z, f.translate.z);
  }

  /** Every point of a well-formed box is drawn inside the view cube centred at the origin. */
  lemma FitPlacesBoxInCube(minB: Vec3, maxB: Vec3, p: Vec3)
    requires LessEq(minB, maxB) && LessEq(minB, p) && LessEq(p, maxB)
    ensures InCube(Place(FitBox(minB, maxB), p))
  {
    FitScalePositive(minB, maxB);
    FittedExtentsWithinCube(minB, maxB);
    RecentredBoxInCube(minB, maxB, p, FitBox(minB, maxB));
  }

  function LargestExtent(e: Vec3): real
  {
    Max(Max(e.x, e.y), e.z)
  }

  /** Of two non-flat positive extents, the longer one has the smaller candidate. */
  lemma LongerAxisSmallerScale(a: real, b: real)
    requires a > FLAT_EPSILON && b > FLAT_EPSILON && a >= b
    ensures AxisScale(a) <= AxisScale(b)
  {
    var ca, cb := AxisScale(a), AxisScale(b);
    assert ca * a == cb * b;
    assert ca * b <= ca * a;
    assert ca * b <= cb * b;
  }

  /** A box that is non-flat on every axis fills the cube edge exactly along its longest axis. */
  lemma FitFillsLongestAxis(minB: Vec3, maxB: Vec3)
    requires LessEq(minB, maxB)
    requires var e := Extents(minB, maxB);
      e.x > FLAT_EPSILON && e.y > FLAT_EPSILON && e.z > FLAT_EPSILON
    ensures FitBox(minB, maxB).scale.x * LargestExtent(Extents(minB, maxB)) == FIT_SIZE
  {
    var e := Extents(minB, maxB);
    var s := FitBox(minB, maxB).scale.x;
    var l := LargestExtent(e);
    LongerAxisSmallerScale(l, e.x);
    LongerAxisSmallerScale(l, e.y);
    LongerAxisSmallerScale(l, e.z);
    assert s == AxisScale(l);
  }

  /** A box that is flat along any axis gets a scale of at most 1: the flat axis's candidate 1 caps the minimum, so such a mesh is never enlarged. */
  lemma FlatAxisCapsScale(minB: Vec3, maxB: Vec3)
    requires var e := Extents(minB, maxB);
      IsFlat(e.x) || IsFlat(e.y) || IsFlat(e.z)
    ensures FitBox(minB, maxB).scale.x <= 1.0
  {
  }

  /** A box of edge 2 centred on the origin has candidate 5 on every axis and needs no translation. */
  lemma CentredEdgeTwoFit(minB: Vec3, maxB: Vec3)
    requires Extents(minB, maxB) == Splat(2.0) && Add(maxB, minB) == Vec3(0.0, 0.0, 0.0)
    ensures FitBox(minB, maxB) == Fit(Splat(5.0), Vec3(0.0, 0.0, 0.0))
  {
    assert AxisScale(2.0) == 5.0;
    assert AxisScales(minB, maxB) == Splat(5.0);
  }

  /** The box from (-1,-1,-1) to (1,1,1) is scaled by 5 and not moved. */
  lemma UnitBoxFit()
    ensures FitBox(Vec3(-1.0, -1.0, -1.0), Vec3(1.0, 1.0, 1.0)) == Fit(Splat(5.0), Vec3(0.0, 0.0, 0.0))
  {
    CentredEdgeTwoFit(Vec3(-1.0, -1.0, -1.0), Vec3(1.0, 1.0, 1.0));
  }

  /** A mesh collapsed to a single point keeps scale 1 and is moved onto the origin. */
  lemma PointBoxFit(p: Vec3)
    ensures FitBox(p, p) == Fit(Splat(1.0), Neg(p))
  {
  }
}
