/** Box and sphere colliders (BoxCollider.cpp, SphereCollider.cpp, the
    interface in Collider.h).  The two collider classes form a closed sum
    type `Shape`; a `Collider` object holds one shape and is identified by
    reference, as the pointers held by the collision registry are. */
module Colliders {
  import opened Glm

  /** BoxCollider: centre and half-extents; SphereCollider: centre and radius. */
  datatype Shape =
    | Box(center: Vec3, halfExtents: Vec3)
    | Sphere(center: Vec3, radius: real)

  /** Closed intervals [lo1, hi1] and [lo2, hi2] share a point. */
  predicate IntervalsOverlap(lo1: real, hi1: real, lo2: real, hi2: real) {
    lo1 <= hi2 && lo2 <= hi1
  }

  /** The minimum and maximum corners of a box. */
  function MinCorner(center: Vec3, halfExtents: Vec3): Vec3 { Sub(center, halfExtents) }
  function MaxCorner(center: Vec3, halfExtents: Vec3): Vec3 { Add(center, halfExtents) }

  /** glm::clamp of a point into a box: the point of the box nearest to p. */
  function ClosestPoint(p: Vec3, center: Vec3, halfExtents: Vec3): Vec3 {
    Clamp3(p, MinCorner(center, halfExtents), MaxCorner(center, halfExtents))
  }

  /** p lies in the closed box. */
  predicate InBox(p: Vec3, center: Vec3, halfExtents: Vec3) {
    var lo := MinCorner(center, halfExtents);
    var hi := MaxCorner(center, halfExtents);
    lo.x <= p.x <= hi.x && lo.y <= p.y <= hi.y && lo.z <= p.z <= hi.z
  }

  /** BoxCollider::intersects: the box (center, halfExtents) against another
      collider.  Box against box compares centre distance with the sum of
      half-extents on each axis (closed); box against sphere clamps the
      sphere centre into the box and compares squared distances (open). */
  predicate BoxIntersects(center: Vec3, halfExtents: Vec3, other: Shape) {
    match other
    case Box(c, h) =>
      && Abs(center.x - c.x) <= halfExtents.x + h.x
      && Abs(center.y - c.y) <= halfExtents.y + h.y
      && Abs(center.z - c.z) <= halfExtents.z + h.z
    case Sphere(c, r) =>
      Length2(Sub(c, ClosestPoint(c, center, halfExtents))) < r * r
  }

  /** SphereCollider::intersects: the sphere (center, radius) against another
      collider.  Sphere against sphere compares the centre distance with the
      sum of radii; sphere against box repeats the clamp test from the
      sphere's side.  Both comparisons are strict. */
  predicate SphereIntersects(m: Math, center: Vec3, radius: real, other: Shape) {
    match other
    case Sphere(c, r) =>
      Length(m, Sub(center, c)) < radius + r
    case Box(c, h) =>
      Length2(Sub(center, ClosestPoint(center, c, h))) < radius * radius
  }

  /** Collider::intersects, dispatched on the variant of the receiver. */
  predicate ShapesIntersect(m: Math, self: Shape, other: Shape) {
    match self
    case Box(c, h) => BoxIntersects(c, h, other)
    case Sphere(c, r) => SphereIntersects(m, c, r, other)
  }

  /** Collider::update: the shape re-synchronised from an entity's position
      and scale.  A box takes half the scale as half-extents; a sphere takes
      scale.x as its radius and ignores scale.y and scale.z. */
  function Synced(s: Shape, position: Vec3, scale: Vec3): (r: Shape)
    ensures r.Box? <==> s.Box?
    ensures r.center == position
  {
    match s
    case Box(_, _) => Box(position, Scale(scale, 0.5))
    case Sphere(_, _) => Sphere(position, scale.x)
  }

  /** A collider object.  Its identity stands for the C++ pointer. */
  class Collider {
    var shape: Shape

    /** BoxCollider(center, halfExtents) or SphereCollider(center, radius). */
    constructor (s: Shape)
      ensures shape == s
    {
      shape := s;
    }

    /** Collider::intersects. */
    function Intersects(m: Math, other: Collider): bool
      reads this, other
    {
      ShapesIntersect(m, shape, other.shape)
    }

    /** BoxCollider::update and SphereCollider::update. */
    method Update(position: Vec3, scale: Vec3)
      modifies this
      ensures old(shape).Box? ==> shape == Box(position, Scale(scale, 0.5))
      ensures old(shape).Sphere? ==> shape == Sphere(position, scale.x)
      ensures shape == Synced(old(shape), position, scale)
    {
      match shape
      case Box(_, _) =>
        shape := Box(position, Scale(scale, 0.5));
      case Sphere(_, _) =>
        shape := Sphere(position, scale.x);
    }
  }

  // ---------------------------------------------------------------------
  // Properties of the intersection tests

  /** Box against box holds exactly when, on every axis, the two closed
      extents overlap; boxes that only touch intersect. */
  lemma BoxBoxOverlap(c1: Vec3, h1: Vec3, c2: Vec3, h2: Vec3)
    ensures BoxIntersects(c1, h1, Box(c2, h2)) <==>
      && IntervalsOverlap(c1.x - h1.x, c1.x + h1.x, c2.x - h2.x, c2.x + h2.x)
      && IntervalsOverlap(c1.y - h1.y, c1.y + h1.y, c2.y - h2.y, c2.y + h2.y)
      && IntervalsOverlap(c1.z - h1.z, c1.z + h1.z, c2.z - h2.z, c2.z + h2.z)
  {
  }

  /** Two boxes whose faces just touch on one axis still intersect. */
  lemma BoxBoxTouchingHits(c1: Vec3, h1: Vec3, c2: Vec3, h2: Vec3)
    requires c2.x == c1.x + h1.x + h2.x && c2.y == c1.y && c2.z == c1.z
    requires 0.0 <= h1.x + h2.x && 0.0 <= h1.y + h2.y && 0.0 <= h1.z + h2.z
    ensures BoxIntersects(c1, h1, Box(c2, h2))
  {
  }

  /** Box against box is symmetric. */
  lemma BoxBoxSymmetric(c1: Vec3, h1: Vec3, c2: Vec3, h2: Vec3)
    ensures BoxIntersects(c1, h1, Box(c2, h2)) == BoxIntersects(c2, h2, Box(c1, h1))
  {
  }

  /** The clamped point lies in the box (for non-negative half-extents),
      and equals the point when the point is already inside. */
  lemma ClosestPointInBox(p: Vec3, center: Vec3, halfExtents: Vec3)
    requires 0.0 <= halfExtents.x && 0.0 <= halfExtents.y && 0.0 <= halfExtents.z
    ensures InBox(ClosestPoint(p, center, halfExtents), center, halfExtents)
    ensures InBox(p, center, halfExtents) ==> ClosestPoint(p, center, halfExtents) == p
  {
  }

  /** Clamping a point that already lies in the box leaves it where it is. */
  lemma ClosestOfInsideIsSelf(p: Vec3, center: Vec3, halfExtents: Vec3)
    requires InBox(p, center, halfExtents)
    ensures ClosestPoint(p, center, halfExtents) == p
  {
  }

  lemma SelfDifferenceIsZero(p: Vec3)
    ensures Sub(p, p) == Zero3
  {
  }

  lemma HitWhenClosestIsCentre(center: Vec3, halfExtents: Vec3, c: Vec3, r: real)
    requires ClosestPoint(c, center, halfExtents) == c && 0.0 < r
    ensures Length2(Sub(c, ClosestPoint(c, center, halfExtents))) < r * r
  {
    SelfDifferenceIsZero(c);
    assert Length2(Zero3) == 0.0;
    BelowPositiveProduct(0.0, r, r);
  }

  /** A sphere exactly touching a box (its centre at distance r from the box)
      does not intersect it: the test is strict. */
  lemma BoxSphereTouchingMisses(center: Vec3, halfExtents: Vec3, c: Vec3, r: real)
    requires Length2(Sub(c, ClosestPoint(c, center, halfExtents))) == r * r
    ensures !BoxIntersects(center, halfExtents, Sphere(c, r))
  {
  }

  /** A sphere of positive radius whose centre lies inside a box always
      hits it, since the clamped point is the centre itself. */
  lemma SphereCentreInBoxHits(m: Math, center: Vec3, halfExtents: Vec3, c: Vec3, r: real)
    requires InBox(c, center, halfExtents) && 0.0 < r
    ensures BoxIntersects(center, halfExtents, Sphere(c, r))
    ensures SphereIntersects(m, c, r, Box(center, halfExtents))
  {
    ClosestOfInsideIsSelf(c, center, halfExtents);
    HitWhenClosestIsCentre(center, halfExtents, c, r);
  }

  /** The sphere-against-box test of SphereCollider agrees with the
      box-against-sphere test of BoxCollider for the same pair. */
  lemma SphereBoxAgreesWithBoxSphere(m: Math, c: Vec3, r: real, bc: Vec3, bh: Vec3)
    ensures SphereIntersects(m, c, r, Box(bc, bh)) == BoxIntersects(bc, bh, Sphere(c, r))
  {
  }

  /** A sphere of radius zero never hits a box: a squared distance is never
      negative. */
  lemma ZeroRadiusSphereMissesBox(m: Math, c: Vec3, bc: Vec3, bh: Vec3)
    ensures !SphereIntersects(m, c, 0.0, Box(bc, bh))
    ensures !BoxIntersects(bc, bh, Sphere(c, 0.0))
  {
  }

  /** Sphere against sphere is symmetric. */
  lemma SphereSphereSymmetric(m: Math, c1: Vec3, r1: real, c2: Vec3, r2: real)
    ensures SphereIntersects(m, c1, r1, Sphere(c2, r2)) == SphereIntersects(m, c2, r2, Sphere(c1, r1))
  {
    LengthSubSymmetric(m, c1, c2);
  }

  /** Collider::intersects is symmetric for every pair of shapes: the double
      dispatch gives the same answer from either side. */
  lemma ShapesIntersectSymmetric(m: Math, a: Shape, b: Shape)
    ensures ShapesIntersect(m, a, b) == ShapesIntersect(m, b, a)
  {
    match (a, b)
    case (Box(c1, h1), Box(c2, h2)) => BoxBoxSymmetric(c1, h1, c2, h2);
    case (Box(c1, h1), Sphere(c2, r2)) => SphereBoxAgreesWithBoxSphere(m, c2, r2, c1, h1);
    case (Sphere(c1, r1), Box(c2, h2)) => SphereBoxAgreesWithBoxSphere(m, c1, r1, c2, h2);
    case (Sphere(c1, r1), Sphere(c2, r2)) => SphereSphereSymmetric(m, c1, r1, c2, r2);
  }

  /** Re-synchronising a sphere only looks at scale.x. */
  lemma SphereSyncIgnoresScaleYZ(s: Shape, position: Vec3, scale1: Vec3, scale2: Vec3)
    requires s.Sphere? && scale1.x == scale2.x
    ensures Synced(s, position, scale1) == Synced(s, position, scale2)
  {
  }

  /** A box synchronised from a scale spans exactly [position - scale/2,
      position + scale/2]. */
  lemma BoxSyncSpansScale(s: Shape, position: Vec3, scale: Vec3)
    requires s.Box?
    ensures var b := Synced(s, position, scale);
      && Sub(MaxCorner(b.center, b.halfExtents), MinCorner(b.center, b.halfExtents)) == scale
  {
  }
}
