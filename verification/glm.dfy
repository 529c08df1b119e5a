/** Vector algebra over the reals, standing in for the parts of glm the
    simulation uses.  Square roots, trigonometry and Perlin noise are not
    computed: they are fields of a `Math` record that every operation needing
    them receives as a parameter, so the model treats them as uninterpreted. */
module Glm {

  datatype Vec2 = Vec2(x: real, y: real)
  datatype Vec3 = Vec3(x: real, y: real, z: real)
  datatype Vec4 = Vec4(x: real, y: real, z: real, w: real)

  const Zero3: Vec3 := Vec3(0.0, 0.0, 0.0)
  const Up: Vec3 := Vec3(0.0, 1.0, 0.0)

  /** glm::vec3(s): every component equal to s. */
  function Splat(s: real): Vec3 { Vec3(s, s, s) }

  function Add(a: Vec3, b: Vec3): Vec3 { Vec3(a.x + b.x, a.y + b.y, a.z + b.z) }
  function Sub(a: Vec3, b: Vec3): Vec3 { Vec3(a.x - b.x, a.y - b.y, a.z - b.z) }
  function Scale(a: Vec3, s: real): Vec3 { Vec3(a.x * s, a.y * s, a.z * s) }
  function Dot(a: Vec3, b: Vec3): real { a.x * b.x + a.y * b.y + a.z * b.z }
  function Cross(a: Vec3, b: Vec3): Vec3 {
    Vec3(a.y * b.z - a.z * b.y, a.z * b.x - a.x * b.z, a.x * b.y - a.y * b.x)
  }
  function Scale2(a: Vec2, s: real): Vec2 { Vec2(a.x * s, a.y * s) }

  /** glm::length2: the squared Euclidean length. */
  function Length2(v: Vec3): (r: real)
    ensures 0.0 <= r
  {
    Dot(v, v)
  }

  /** glm::distance2. */
  function Distance2(a: Vec3, b: Vec3): real { Length2(Sub(a, b)) }

  function Abs(x: real): real { if x < 0.0 then -x else x }

  /** std::clamp / glm::clamp on one scalar, with lo <= hi not required
      (the lower bound is applied first, then the upper bound, as glm does
      with min(max(x, lo), hi)). */
  function ClampReal(x: real, lo: real, hi: real): real {
    Min(Max(x, lo), hi)
  }
  function Min(a: real, b: real): real { if a <= b then a else b }
  function Max(a: real, b: real): real { if a >= b then a else b }

  /** glm::clamp(v, lo, hi), componentwise. */
  function Clamp3(v: Vec3, lo: Vec3, hi: Vec3): Vec3 {
    Vec3(ClampReal(v.x, lo.x, hi.x), ClampReal(v.y, lo.y, hi.y), ClampReal(v.z, lo.z, hi.z))
  }

  /** The mathematical library the code calls into, left uninterpreted. */
  datatype Math = Math(
    sqrt: real -> real,
    sin: real -> real,
    cos: real -> real,
    atan2: (real, real) -> real,
    perlin: Vec2 -> real)

  /** What the code relies on from glm::length, which is sqrt(length2):
      lengths are non-negative, only the zero vector has length zero, and
      scaling a vector by c scales its length by |c|. */
  ghost predicate Sound(m: Math) {
    && (forall v: Vec3 {:trigger Length(m, v)} :: 0.0 <= Length(m, v))
    && (forall v: Vec3 {:trigger Length(m, v)} :: Length(m, v) == 0.0 <==> v == Zero3)
    && (forall v: Vec3, c: real {:trigger Length(m, Scale(v, c))} ::
          Length(m, Scale(v, c)) == Abs(c) * Length(m, v))
  }

  /** sin² + cos² = 1, the one trigonometric identity the model uses. */
  ghost predicate Pythagorean(m: Math) {
    forall a: real :: m.sin(a) * m.sin(a) + m.cos(a) * m.cos(a) == 1.0
  }

  /** glm::perlin returns values in [-1, 1]. */
  ghost predicate NoiseBounded(m: Math) {
    forall p: Vec2 {:trigger m.perlin(p)} :: -1.0 <= m.perlin(p) <= 1.0
  }

  /** glm::length. */
  function Length(m: Math, v: Vec3): real { m.sqrt(Length2(v)) }

  /** glm::normalize.  A zero vector, for which glm produces NaN, is
      returned unchanged. */
  function Normalize(m: Math, v: Vec3): Vec3 {
    var l := Length(m, v);
    if l == 0.0 then v else Scale(v, 1.0 / l)
  }

  /** glm::degrees and glm::radians multiply by these constants. */
  const DegreesPerRadian: real := 57.295779513082320876798154814105
  const RadiansPerDegree: real := 0.01745329251994329576923690768489
  /** glm::pi<float>(). */
  const Pi: real := 3.14159265358979323846264338327950288

  function Degrees(rad: real): real { rad * DegreesPerRadian }
  function Radians(deg: real): real { deg * RadiansPerDegree }

  /** A clamped value lies inside a non-empty interval and equals the input
      whenever the input already lies inside it. */
  lemma ClampRealProperties(x: real, lo: real, hi: real)
    requires lo <= hi
    ensures lo <= ClampReal(x, lo, hi) <= hi
    ensures lo <= x <= hi ==> ClampReal(x, lo, hi) == x
  {
  }

  /** A non-positive value lies below a product of two positive factors. */
  lemma BelowPositiveProduct(x: real, a: real, b: real)
    requires x <= 0.0 && 0.0 < a && 0.0 < b
    ensures x < a * b
  {
  }

  /** |c·v| = |c|·|v|. */
  lemma LengthScale(m: Math, v: Vec3, c: real)
    requires Sound(m)
    ensures Length(m, Scale(v, c)) == Abs(c) * Length(m, v)
  {
  }

  /** The length does not depend on the direction of a difference. */
  lemma LengthSubSymmetric(m: Math, a: Vec3, b: Vec3)
    ensures Length(m, Sub(a, b)) == Length(m, Sub(b, a))
  {
    assert Length2(Sub(a, b)) == Length2(Sub(b, a));
  }

  /** Normalizing a non-zero vector gives a unit vector. */
  lemma NormalizeUnit(m: Math, v: Vec3)
    requires Sound(m) && v != Zero3
    ensures Length(m, Normalize(m, v)) == 1.0
  {
    var l := Length(m, v);
    assert 0.0 < l;
    LengthScale(m, v, 1.0 / l);
    assert Abs(1.0 / l) == 1.0 / l;
    assert (1.0 / l) * l == 1.0;
  }

  /** Normalizing gives a unit vector, or zero for the zero vector. */
  lemma NormalizeUnitOrZero(m: Math, v: Vec3)
    requires Sound(m)
    ensures v == Zero3 ==> Normalize(m, v) == Zero3
    ensures v != Zero3 ==> Length(m, Normalize(m, v)) == 1.0
  {
    if v != Zero3 {
      NormalizeUnit(m, v);
    }
  }
}
