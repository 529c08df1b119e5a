/** The scene entity (Entity.h): a position, orientation and scale with an
    optional model and an optional collider, plus the scripted motions the
    scene uses to move entities around. */
module Entities {
  import opened Glm
  import opened Colliders
  import opened Meshes

  // ---------------------------------------------------------------------
  // Angle wrapping used by lerpAngle

  /** The first loop of lerpAngle: whole turns are added while the
      difference lies below -180 degrees. */
  function WrapUp(d: real): (r: real)
    decreases -180.0 - d
    ensures -180.0 <= r
    ensures d < -180.0 ==> r < 180.0
    ensures -180.0 <= d ==> r == d
  {
    if d < -180.0 then WrapUp(d + 360.0) else d
  }

  /** The second loop: whole turns are subtracted while the difference lies
      above 180 degrees. */
  function WrapDown(d: real): (r: real)
    decreases d - 180.0
    ensures r <= 180.0
    ensures 180.0 < d ==> -180.0 < r
    ensures d <= 180.0 ==> r == d
  {
    if d > 180.0 then WrapDown(d - 360.0) else d
  }

  /** The signed difference after both loops: the shortest way round,
      within [-180, 180]. */
  function WrapDegrees(d: real): (r: real)
    ensures -180.0 <= r <= 180.0
  {
    WrapDown(WrapUp(d))
  }

  /** How many turns each loop adds (or subtracts). */
  function TurnsUp(d: real): nat
    decreases -180.0 - d
  {
    if d < -180.0 then TurnsUp(d + 360.0) + 1 else 0
  }

  function TurnsDown(d: real): nat
    decreases d - 180.0
  {
    if d > 180.0 then TurnsDown(d - 360.0) + 1 else 0
  }

  lemma {:induction false} WrapUpTurns(d: real)
    decreases -180.0 - d
    ensures WrapUp(d) == d + 360.0 * TurnsUp(d) as real
  {
    if d < -180.0 {
      WrapUpTurns(d + 360.0);
    }
  }

  lemma {:induction false} WrapDownTurns(d: real)
    decreases d - 180.0
    ensures WrapDown(d) == d - 360.0 * TurnsDown(d) as real
  {
    if d > 180.0 {
      WrapDownTurns(d - 360.0);
    }
  }

  /** Wrapping changes a difference by a whole number of turns only, and at
      most one of the two loops runs. */
  lemma WrapDegreesWholeTurns(d: real)
    ensures WrapDegrees(d) == d + 360.0 * (TurnsUp(d) as int - TurnsDown(WrapUp(d)) as int) as real
    ensures TurnsUp(d) == 0 || TurnsDown(WrapUp(d)) == 0
  {
    WrapUpTurns(d);
    WrapDownTurns(WrapUp(d));
    if d < -180.0 {
      assert WrapUp(d) < 180.0;
    }
  }

  /** A difference already within [-180, 180] is left alone. */
  lemma WrapDegreesIdentity(d: real)
    requires -180.0 <= d <= 180.0
    ensures WrapDegrees(d) == d
  {
  }

  /** Entity::lerpAngle: moves `current` a fraction t of the way towards
      `target` along the shorter arc. */
  method LerpAngle(current: real, target: real, t: real) returns (r: real)
    ensures r == current + WrapDegrees(target - current) * t
  {
    var diff := target - current;
    while diff < -180.0
      invariant WrapUp(diff) == WrapUp(target - current)
      decreases -180.0 - diff
    {
      diff := diff + 360.0;
    }
    while diff > 180.0
      invariant -180.0 <= diff
      invariant WrapDown(diff) == WrapDegrees(target - current)
      decreases diff - 180.0
    {
      diff := diff - 360.0;
    }
    r := current + diff * t;
  }

  /** With t = 1 the angle lands on the target up to whole turns. */
  lemma LerpFullReachesTarget(current: real, target: real)
    ensures var d := target - current;
      current + WrapDegrees(d) * 1.0 == target + 360.0 * (TurnsUp(d) as int - TurnsDown(WrapUp(d)) as int) as real
  {
    WrapDegreesWholeTurns(target - current);
  }

  // ---------------------------------------------------------------------
  // Scripted motion

  /** The arrival threshold of moveTowards. */
  const ArrivalDistance: real := 0.1
  /** The fraction of the remaining turn applied per step. */
  const TurnRate: real := 0.1

  /** The position after one moveTowards step that does not arrive: a move
      of speed·deltaTime along the unit vector towards the destination. */
  function StepTowards(m: Math, position: Vec3, destination: Vec3, speed: real, dt: real): Vec3
    requires ArrivalDistance <= Length(m, Sub(destination, position))
  {
    var toTarget := Sub(destination, position);
    var direction := Scale(toTarget, 1.0 / Length(m, toTarget));
    Add(position, Scale(Scale(direction, speed), dt))
  }

  /** The yaw, in degrees, of the horizontal part of the heading towards
      the destination (atan2(x, z), so 0 faces +z). */
  function HeadingTowards(m: Math, position: Vec3, destination: Vec3): real
    requires ArrivalDistance <= Length(m, Sub(destination, position))
  {
    var toTarget := Sub(destination, position);
    var direction := Scale(toTarget, 1.0 / Length(m, toTarget));
    var flat := Normalize(m, Vec3(direction.x, 0.0, direction.z));
    Degrees(m.atan2(flat.x, flat.z))
  }

  class Entity {
    var position: Vec3
    var orientation: Vec3
    var scale: Vec3
    const model: Model?
    const collider: Collider?
    /** Whether the renderer draws the entity in the blended pass. */
    var transparent: bool

    /** Entity(model, col, startPos, scale): orientation zero. */
    constructor (model: Model?, col: Collider?, startPos: Vec3, scale: Vec3)
      ensures this.model == model && collider == col
      ensures position == startPos && orientation == Zero3 && this.scale == scale
      ensures !transparent
    {
      this.model := model;
      collider := col;
      position := startPos;
      orientation := Zero3;
      this.scale := scale;
      transparent := false;
    }

    /** Entity::update: re-synchronises the collider, of either kind, with
        the position and scale. */
    method Update(dt: real)
      modifies collider
      ensures collider != null ==> collider.shape == Synced(old(collider.shape), position, scale)
    {
      if collider != null {
        collider.Update(position, scale);
      }
    }

    /** Entity::moveTowards: within 0.1 of the destination it reports
        arrival and changes nothing; otherwise it steps towards the
        destination and turns a tenth of the way to face it. */
    method MoveTowards(m: Math, destination: Vec3, speed: real, dt: real) returns (arrived: bool)
      modifies this
      ensures arrived <==> Length(m, Sub(destination, old(position))) < ArrivalDistance
      ensures arrived ==> position == old(position) && orientation == old(orientation)
      ensures !arrived ==> position == StepTowards(m, old(position), destination, speed, dt)
      ensures !arrived ==> orientation == old(orientation).(y := old(orientation.y)
        + WrapDegrees(HeadingTowards(m, old(position), destination) - old(orientation.y)) * TurnRate)
      ensures scale == old(scale) && transparent == old(transparent)
    {
      var toTarget := Sub(destination, position);
      var distance := Length(m, toTarget);
      if distance < ArrivalDistance {
        return true;
      }
      var direction := Scale(toTarget, 1.0 / distance);
      var start := position;
      position := Add(position, Scale(Scale(direction, speed), dt));
      var flatDir := Normalize(m, Vec3(direction.x, 0.0, direction.z));
      var targetYaw := Degrees(m.atan2(flatDir.x, flatDir.z));
      assert targetYaw == HeadingTowards(m, start, destination);
      var yaw := LerpAngle(orientation.y, targetYaw, TurnRate);
      orientation := orientation.(y := yaw);
      return false;
    }

    /** Entity::moveInCircle: the position on a horizontal circle around
        `center` at angle angularSpeed·time, bobbing by 2·sin(2·angle), and
        the yaw following the tangent. */
    method MoveInCircle(m: Math, center: Vec3, radius: real, angularSpeed: real, time: real)
      modifies this
      ensures position == CirclePoint(m, center, radius, angularSpeed * time)
      ensures orientation == old(orientation).(y := Degrees(m.atan2(-m.sin(angularSpeed * time), m.cos(angularSpeed * time))))
      ensures scale == old(scale) && transparent == old(transparent)
    {
      var angle := angularSpeed * time;
      // All three coordinates are overwritten.
      position := CirclePoint(m, center, radius, angle);
      var targetYaw := Degrees(m.atan2(-m.sin(angle), m.cos(angle)));
      orientation := orientation.(y := targetYaw);
    }

    /** Entity::draw without the GL call: the model is placed at the
        entity's position and orientation. */
    method Draw()
      modifies model
      ensures model != null ==> model.origin == position && model.orientation == orientation
      ensures model != null ==> model.meshes == old(model.meshes)
    {
      if model != null {
        model.origin := position;
        model.orientation := orientation;
      }
    }
  }

  /** The point of moveInCircle's path at a given angle. */
  function CirclePoint(m: Math, center: Vec3, radius: real, angle: real): Vec3 {
    Vec3(center.x + radius * m.cos(angle), center.y + 2.0 * m.sin(2.0 * angle), center.z + radius * m.sin(angle))
  }

  // ---------------------------------------------------------------------
  // Properties of the motions

  lemma ScaledUnitSquare(r: real, c: real, s: real)
    requires s * s + c * c == 1.0
    ensures (r * c) * (r * c) + (r * s) * (r * s) == r * r
  {
    assert (r * c) * (r * c) + (r * s) * (r * s) == r * r * (c * c + s * s);
  }

  /** The circling entity stays at horizontal distance |radius| from the
      centre and within 2 of its height. */
  lemma CircleStaysOnCircle(m: Math, center: Vec3, radius: real, angle: real)
    requires Pythagorean(m)
    ensures var p := CirclePoint(m, center, radius, angle);
      (p.x - center.x) * (p.x - center.x) + (p.z - center.z) * (p.z - center.z) == radius * radius
    ensures var p := CirclePoint(m, center, radius, angle);
      center.y - 2.0 <= p.y <= center.y + 2.0
  {
    ScaledUnitSquare(radius, m.cos(angle), m.sin(angle));
    UnitSquareBound(m.sin(2.0 * angle), m.cos(2.0 * angle));
  }

  /** A sine whose square plus a cosine's square is 1 lies in [-1, 1]. */
  lemma UnitSquareBound(s: real, c: real)
    requires s * s + c * c == 1.0
    ensures -1.0 <= s <= 1.0
  {
  }

  /** Each step that does not arrive covers exactly speed·deltaTime, for
      non-negative speed and time step. */
  lemma StepLength(m: Math, position: Vec3, destination: Vec3, speed: real, dt: real)
    requires Sound(m) && 0.0 <= speed && 0.0 <= dt
    requires ArrivalDistance <= Length(m, Sub(destination, position))
    ensures Length(m, Sub(StepTowards(m, position, destination, speed, dt), position)) == speed * dt
  {
    var toTarget := Sub(destination, position);
    var l := Length(m, toTarget);
    var direction := Scale(toTarget, 1.0 / l);
    assert Sub(StepTowards(m, position, destination, speed, dt), position) == Scale(Scale(direction, speed), dt);
    LengthScale(m, toTarget, 1.0 / l);
    LengthScale(m, direction, speed);
    LengthScale(m, Scale(direction, speed), dt);
    UnitAfterDivision(l);
  }

  lemma UnitAfterDivision(l: real)
    requires 0.0 < l
    ensures Abs(1.0 / l) * l == 1.0
  {
  }

  /** The step keeps the entity on the straight line to the destination:
      the remaining offset is the old one scaled by 1 - step/distance, so a
      step no longer than the distance leaves distance - step to go. */
  lemma StepApproaches(m: Math, position: Vec3, destination: Vec3, speed: real, dt: real)
    requires Sound(m) && 0.0 <= speed * dt
    requires ArrivalDistance <= Length(m, Sub(destination, position))
    requires speed * dt <= Length(m, Sub(destination, position))
    ensures Length(m, Sub(destination, StepTowards(m, position, destination, speed, dt)))
         == Length(m, Sub(destination, position)) - speed * dt
  {
    var toTarget := Sub(destination, position);
    var l := Length(m, toTarget);
    var step := speed * dt;
    var k := 1.0 - step / l;
    StepOffset(m, position, destination, speed, dt);
    LengthScale(m, toTarget, k);
    FactorTimesLength(l, step);
  }

  /** What is left to go after a step is the old offset scaled by
      1 - step/distance. */
  lemma StepOffset(m: Math, position: Vec3, destination: Vec3, speed: real, dt: real)
    requires ArrivalDistance <= Length(m, Sub(destination, position))
    ensures Sub(destination, StepTowards(m, position, destination, speed, dt))
         == Scale(Sub(destination, position), 1.0 - speed * dt / Length(m, Sub(destination, position)))
  {
    var toTarget := Sub(destination, position);
    var l := Length(m, toTarget);
    var u := Scale(Scale(Scale(toTarget, 1.0 / l), speed), dt);
    assert StepTowards(m, position, destination, speed, dt) == Add(position, u);
    assert Sub(destination, Add(position, u)) == Sub(toTarget, u);
    RemainingOffset(toTarget, l, speed, dt);
  }

  lemma RemainingOffset(toTarget: Vec3, l: real, speed: real, dt: real)
    requires 0.0 < l
    ensures Sub(toTarget, Scale(Scale(Scale(toTarget, 1.0 / l), speed), dt)) == Scale(toTarget, 1.0 - speed * dt / l)
  {
    var lhs := Sub(toTarget, Scale(Scale(Scale(toTarget, 1.0 / l), speed), dt));
    var rhs := Scale(toTarget, 1.0 - speed * dt / l);
    ComponentOffset(toTarget.x, l, speed, dt);
    ComponentOffset(toTarget.y, l, speed, dt);
    ComponentOffset(toTarget.z, l, speed, dt);
    assert lhs.x == rhs.x && lhs.y == rhs.y && lhs.z == rhs.z;
  }

  lemma ComponentOffset(c: real, l: real, speed: real, dt: real)
    requires 0.0 < l
    ensures c - c * (1.0 / l) * speed * dt == c * (1.0 - speed * dt / l)
  {
  }

  lemma FactorTimesLength(l: real, step: real)
    requires 0.0 < l && 0.0 <= step <= l
    ensures Abs(1.0 - step / l) * l == l - step
  {
    assert step / l <= 1.0;
  }
}
