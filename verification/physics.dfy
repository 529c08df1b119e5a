/** Rigid-body motion (PhysicsEntity.h) and the player controller
    (Player.h): semi-implicit Euler integration under gravity, a clamp to
    the terrain, push-out from the colliders the player overlaps, and
    ground friction. */
module Physics {
  import opened Glm
  import opened Colliders
  import opened Collisions
  import opened Meshes
  import opened Assets

  const Gravity: real := -9.81

  /** Position, velocity and acceleration of a physics entity. */
  datatype Kinematics = Kinematics(position: Vec3, velocity: Vec3, acceleration: Vec3)

  /** The acceleration used by a step: with gravity only its y component is
      replaced (x and z keep whatever was set before); without gravity it
      is reset to zero. */
  function GravityApplied(acceleration: Vec3, affectedByGravity: bool): Vec3 {
    if affectedByGravity then acceleration.(y := Gravity) else Zero3
  }

  /** One semi-implicit Euler step: the velocity is updated first and the
      new velocity moves the position. */
  function Integrate(k: Kinematics, affectedByGravity: bool, dt: real): Kinematics {
    var a := GravityApplied(k.acceleration, affectedByGravity);
    var v := Add(k.velocity, Scale(a, dt));
    Kinematics(Add(k.position, Scale(v, dt)), v, a)
  }

  class PhysicsEntity {
    var position: Vec3
    var velocity: Vec3
    var acceleration: Vec3
    var affectedByGravity: bool

    /** Everything at rest, gravity off. */
    constructor ()
      ensures position == Zero3 && velocity == Zero3 && acceleration == Zero3
      ensures !affectedByGravity
    {
      position := Zero3;
      velocity := Zero3;
      acceleration := Zero3;
      affectedByGravity := false;
    }

    function State(): Kinematics
      reads this
    {
      Kinematics(position, velocity, acceleration)
    }

    /** PhysicsEntity::update. */
    method Update(dt: real)
      modifies this
      ensures State() == Integrate(old(State()), affectedByGravity, dt)
      ensures affectedByGravity == old(affectedByGravity)
    {
      if affectedByGravity {
        acceleration := acceleration.(y := Gravity);
      } else {
        acceleration := Zero3;
      }
      velocity := Add(velocity, Scale(acceleration, dt));
      position := Add(position, Scale(velocity, dt));
    }
  }

  /** A step moves the position by v·dt + a·dt², where a is the step's
      acceleration; under gravity the vertical velocity drops by exactly
      9.81·dt and the horizontal velocity changes by the horizontal
      acceleration only; without gravity the velocity is unchanged. */
  lemma IntegrateClosedForm(k: Kinematics, affectedByGravity: bool, dt: real)
    ensures var r := Integrate(k, affectedByGravity, dt);
      && r.position == Add(Add(k.position, Scale(k.velocity, dt)), Scale(r.acceleration, dt * dt))
      && (affectedByGravity ==> r.velocity.y == k.velocity.y + Gravity * dt)
      && (affectedByGravity ==> r.velocity.x == k.velocity.x + k.acceleration.x * dt)
      && (!affectedByGravity ==> r.velocity == k.velocity)
  {
    var a := GravityApplied(k.acceleration, affectedByGravity);
    SemiImplicit(k.position.x, k.velocity.x, a.x, dt);
    SemiImplicit(k.position.y, k.velocity.y, a.y, dt);
    SemiImplicit(k.position.z, k.velocity.z, a.z, dt);
  }

  lemma SemiImplicit(p: real, v: real, a: real, dt: real)
    ensures p + (v + a * dt) * dt == p + v * dt + a * (dt * dt)
  {
  }

  // ---------------------------------------------------------------------
  // The phases of Player::update, as functions on the moving state

  /** The player's position, velocity and ground contact. */
  datatype Motion = Motion(position: Vec3, velocity: Vec3, onGround: bool)

  /** Below this distance the push-out direction is straight up. */
  const DirectionEpsilon: real := 0.001
  /** How close the player's bottom must be to a box top to land on it. */
  const LandingTolerance: real := 0.1
  const FrictionCoefficient: real := 5.0

  /** Terrain phase: a player whose bottom is at or below the terrain is
      lifted onto it, stops falling and is on the ground; otherwise it is
      airborne. */
  function TerrainClamp(s: Motion, terrainY: real, radius: real): Motion {
    if s.position.y - radius <= terrainY then
      Motion(s.position.(y := terrainY + radius), s.velocity.(y := 0.0), true)
    else
      s.(onGround := false)
  }

  /** The push-out direction: the unit offset, or up when the offset is too
      short to normalise. */
  function CorrectionDir(diff: Vec3, distance: real): Vec3 {
    if distance > DirectionEpsilon then Scale(diff, 1.0 / distance) else Up
  }

  /** Push-out from a box: the player's centre is moved away from the
      nearest box point until it lies `radius` from it; landing on the top
      face (push mostly upward, not moving up, bottom within 0.1 of the top)
      stops the fall and grounds the player. */
  function ResolveBox(m: Math, s: Motion, center: Vec3, halfExtents: Vec3, radius: real): Motion {
    var closest := ClosestPoint(s.position, center, halfExtents);
    var diff := Sub(s.position, closest);
    var distance := Length(m, diff);
    if distance < radius then
      var dir := CorrectionDir(diff, distance);
      var p := Add(s.position, Scale(dir, radius - distance));
      var boxTop := center.y + halfExtents.y;
      if dir.y > 0.5 && s.velocity.y <= 0.0 && Abs((p.y - radius) - boxTop) < LandingTolerance then
        Motion(p, s.velocity.(y := 0.0), true)
      else
        s.(position := p)
    else
      s
  }

  /** Push-out from a sphere: the player's centre is moved away from the
      sphere's until they lie radius + r apart. */
  function ResolveSphere(m: Math, s: Motion, center: Vec3, r: real, radius: real): Motion {
    var diff := Sub(s.position, center);
    var distance := Length(m, diff);
    if distance < radius + r then
      var dir := CorrectionDir(diff, distance);
      s.(position := Add(s.position, Scale(dir, radius + r - distance)))
    else
      s
  }

  /** The response to one reported collider, by its kind. */
  function Resolve(m: Math, s: Motion, shape: Shape, radius: real): Motion {
    match shape
    case Box(c, h) => ResolveBox(m, s, c, h, radius)
    case Sphere(c, r) => ResolveSphere(m, s, c, r, radius)
  }

  /** The responses to the reported colliders, in report order. */
  function ResolveAll(m: Math, s: Motion, shapes: seq<Shape>, radius: real): Motion {
    if shapes == [] then s
    else Resolve(m, ResolveAll(m, s, shapes[..|shapes| - 1], radius), shapes[|shapes| - 1], radius)
  }

  /** Friction phase: on the ground the horizontal velocity loses the
      fraction 5·deltaTime; the vertical velocity is untouched. */
  function Friction(s: Motion, dt: real): Motion {
    if s.onGround then
      s.(velocity := s.velocity.(x := s.velocity.x - s.velocity.x * FrictionCoefficient * dt,
                                 z := s.velocity.z - s.velocity.z * FrictionCoefficient * dt))
    else s
  }

  /** The shapes of a list of colliders. */
  function ShapesOf(cs: seq<Collider>): (r: seq<Shape>)
    reads set c | c in cs
    ensures |r| == |cs| && forall i :: 0 <= i < |cs| ==> r[i] == cs[i].shape
  {
    seq(|cs|, i requires 0 <= i < |cs| reads cs => cs[i].shape)
  }

  /** The colliders a player's probe reports: none without a probe. */
  ghost function Reported(m: Math, probe: Collider?, cs: seq<Collider>): seq<Collider>
    reads probe, set c | c in cs
  {
    if probe == null then [] else Hits(m, probe, cs)
  }

  /** Assets::createSphere(radius, 20, 20) for the player's own model. */
  method PlayerSphere(m: Math, radius: real) returns (model: Model)
    ensures fresh(model) && |model.meshes| == 1
  {
    model := CreateSphere(m, radius, 20, 20);
  }

  /** The collision phase of Player::update: the responses to the
      reported colliders, one after another in report order. */
  method ResolveCollisions(m: Math, s0: Motion, shapes: seq<Shape>, radius: real) returns (s: Motion)
    ensures s == ResolveAll(m, s0, shapes, radius)
  {
    s := s0;
    var i := 0;
    while i < |shapes|
      invariant 0 <= i <= |shapes|
      invariant s == ResolveAll(m, s0, shapes[..i], radius)
    {
      assert shapes[..i + 1][..i] == shapes[..i];
      s := Resolve(m, s, shapes[i], radius);
      i := i + 1;
    }
    assert shapes[..i] == shapes;
  }

  class Player {
    const body: PhysicsEntity
    var height: real
    var radius: real
    var isOnGround: bool
    var movementAcceleration: real
    var jumpVelocity: real
    const playerModel: Model
    const collider: Collider?

    /** Player(shader, startPos, model): stands on the terrain below the
        start position; without a model of its own it gets a sphere model
        and a sphere collider of radius 2·radius, registered with the
        collision registry. */
    constructor (m: Math, terrain: Terrain, registry: CollisionManager, startPos: Vec3, model: Model?)
      modifies registry
      ensures fresh(body) && !body.affectedByGravity && body.velocity == Zero3 && body.acceleration == Zero3
      ensures body.position == Vec3(startPos.x, terrain.HeightAt(m, startPos.x, startPos.z) + 1.0, startPos.z)
      ensures height == 2.0 && radius == 0.3 && isOnGround
      ensures movementAcceleration == 20.0 && jumpVelocity == 8.0
      ensures model != null ==> playerModel == model && collider == null
      ensures model != null ==> registry.colliders == old(registry.colliders)
      ensures model == null ==> fresh(playerModel) && collider != null && fresh(collider)
      ensures model == null ==> collider.shape == Sphere(body.position, 0.6)
      ensures model == null ==> registry.colliders == old(registry.colliders) + [collider]
    {
      var b := new PhysicsEntity();
      var groundY := terrain.HeightAt(m, startPos.x, startPos.z);
      b.position := Vec3(startPos.x, groundY + 2.0 / 2.0, startPos.z);
      body := b;
      height := 2.0;
      radius := 0.3;
      isOnGround := true;
      movementAcceleration := 20.0;
      jumpVelocity := 8.0;
      if model != null {
        playerModel := model;
        collider := null;
      } else {
        var sphere := PlayerSphere(m, 0.3);
        playerModel := sphere;
        var col := new Collider(Sphere(b.position, 0.3 * 2.0));
        collider := col;
        registry.AddCollider(col);
      }
    }

    /** Player::getHeadPosition: radius above the centre, that is the top
        of the player's body sphere. */
    function HeadPosition(): (head: Vec3)
      reads this, body
      ensures head.x == body.position.x && head.z == body.position.z
      ensures head.y - body.position.y == radius
    {
      Add(body.position, Vec3(0.0, radius, 0.0))
    }

    /** Player::update: integrate, clamp to the terrain, push out of every
        collider the probe reports, apply friction, re-synchronise the
        probe.  A player without a collider may only be updated while the
        registry is empty, since the source then queries with a null
        probe. */
    method Update(m: Math, terrain: Terrain, registry: CollisionManager, dt: real)
      requires collider != null || registry.colliders == []
      modifies this, body, collider
      ensures body.acceleration == Integrate(old(body.State()), body.affectedByGravity, dt).acceleration
      ensures var k := Integrate(old(body.State()), old(body.affectedByGravity), dt);
        var clamped := TerrainClamp(Motion(k.position, k.velocity, old(isOnGround)),
                                    terrain.HeightAt(m, k.position.x, k.position.z), radius);
        Motion(body.position, body.velocity, isOnGround)
          == Friction(ResolveAll(m, clamped, old(ShapesOf(Reported(m, collider, registry.colliders))), radius), dt)
      ensures collider != null ==> collider.shape == Synced(old(collider.shape), body.position, Splat(2.0 * radius))
      ensures radius == old(radius) && height == old(height)
    ensures movementAcceleration == old(movementAcceleration) && jumpVelocity == old(jumpVelocity)
      ensures body.affectedByGravity == old(body.affectedByGravity)
    {
      ghost var reported := ShapesOf(Reported(m, collider, registry.colliders));
      var collisions: seq<Collider> := [];
      if collider != null {
        collisions := registry.CheckCollisions(m, collider);
      }
      var shapes := ShapesOf(collisions);
      assert shapes == reported;
      ghost var k := Integrate(body.State(), body.affectedByGravity, dt);
      body.Update(dt);
      assert body.State() == k;
      Settle(m, terrain, shapes, dt);
      if collider != null {
        collider.Update(body.position, Splat(2.0 * radius));
      }
    }

    /** The phases of Player::update after the integration step: the
        terrain clamp, the push-out from each reported shape in turn, and
        friction. */
    method Settle(m: Math, terrain: Terrain, shapes: seq<Shape>, dt: real)
      modifies this, body
      ensures var start := Motion(old(body.position), old(body.velocity), old(isOnGround));
        var terrainY := terrain.HeightAt(m, old(body.position).x, old(body.position).z);
        Motion(body.position, body.velocity, isOnGround)
          == Friction(ResolveAll(m, TerrainClamp(start, terrainY, radius), shapes, radius), dt)
      ensures body.acceleration == old(body.acceleration) && body.affectedByGravity == old(body.affectedByGravity)
      ensures radius == old(radius) && height == old(height)
    ensures movementAcceleration == old(movementAcceleration) && jumpVelocity == old(jumpVelocity)
    {
      var terrainY := terrain.HeightAt(m, body.position.x, body.position.z);
      var s := TerrainClamp(Motion(body.position, body.velocity, isOnGround), terrainY, radius);
      s := ResolveCollisions(m, s, shapes, radius);
      s := Friction(s, dt);
      body.position := s.position;
      body.velocity := s.velocity;
      isOnGround := s.onGround;
    }
  }

  // ---------------------------------------------------------------------
  // Properties of the phases

  /** After the terrain phase the player's bottom is never below the
      terrain; the player is grounded exactly when it was at or below it,
      and then sits on it with no vertical velocity. */
  lemma TerrainClampGrounds(s: Motion, terrainY: real, radius: real)
    ensures var r := TerrainClamp(s, terrainY, radius);
      && terrainY <= r.position.y - radius
      && (r.onGround <==> s.position.y - radius <= terrainY)
      && (r.onGround ==> r.position.y - radius == terrainY && r.velocity.y == 0.0)
      && (!r.onGround ==> r.position == s.position && r.velocity == s.velocity)
      && r.position.x == s.position.x && r.position.z == s.position.z
  {
  }

  lemma ComponentPush(c: real, d: real, pen: real)
    requires 0.0 < d
    ensures c + c * (1.0 / d) * pen == c * (1.0 + pen / d)
  {
  }

  lemma FactorPush(d: real, pen: real)
    requires 0.0 < d && 0.0 <= pen
    ensures Abs(1.0 + pen / d) * d == d + pen
  {
    assert 0.0 <= pen / d;
  }

  /** Pushing a point away from `base` along its own offset by `pen`
      multiplies the offset by 1 + pen/d, where d is its length. */
  lemma PushAlongOffset(p: Vec3, base: Vec3, d: real, pen: real)
    requires 0.0 < d
    ensures Sub(Add(p, Scale(Scale(Sub(p, base), 1.0 / d), pen)), base) == Scale(Sub(p, base), 1.0 + pen / d)
  {
    var diff := Sub(p, base);
    ComponentPush(diff.x, d, pen);
    ComponentPush(diff.y, d, pen);
    ComponentPush(diff.z, d, pen);
  }

  /** A sphere overlap with a usable offset is resolved to exact contact:
      afterwards the centres are radius + r apart. */
  lemma ResolveSphereTouches(m: Math, s: Motion, center: Vec3, r: real, radius: real)
    requires Sound(m)
    requires DirectionEpsilon < Length(m, Sub(s.position, center)) < radius + r
    ensures Length(m, Sub(ResolveSphere(m, s, center, r, radius).position, center)) == radius + r
    ensures ResolveSphere(m, s, center, r, radius).velocity == s.velocity
  {
    var diff := Sub(s.position, center);
    var d := Length(m, diff);
    var pen := radius + r - d;
    PushAlongOffset(s.position, center, d, pen);
    LengthScale(m, diff, 1.0 + pen / d);
    FactorPush(d, pen);
  }

  /** A sphere the player does not overlap changes nothing. */
  lemma ResolveSphereApart(m: Math, s: Motion, center: Vec3, r: real, radius: real)
    requires radius + r <= Length(m, Sub(s.position, center))
    ensures ResolveSphere(m, s, center, r, radius) == s
  {
  }

  lemma ScaledSign(x: real, k: real)
    requires 1.0 <= k
    ensures 0.0 < x ==> 0.0 < x * k
    ensures x < 0.0 ==> x * k < 0.0
    ensures x == 0.0 ==> x * k == 0.0
  {
  }

  /** Moving a point away from its clamp along the offset keeps the same
      clamp: on each axis the point stays on the same side of the box. */
  lemma ClampAlongOffset(x: real, lo: real, hi: real, k: real)
    requires lo <= hi && 1.0 <= k
    ensures var q := ClampReal(x, lo, hi);
      ClampReal(q + (x - q) * k, lo, hi) == q
  {
    var q := ClampReal(x, lo, hi);
    ScaledSign(x - q, k);
  }

  /** A box overlap with a usable offset is resolved to exact contact:
      afterwards the player's centre lies `radius` from the nearest point of
      the box (for a box with non-negative half-extents). */
  lemma ResolveBoxTouches(m: Math, s: Motion, center: Vec3, halfExtents: Vec3, radius: real)
    requires Sound(m)
    requires 0.0 <= halfExtents.x && 0.0 <= halfExtents.y && 0.0 <= halfExtents.z
    requires DirectionEpsilon < Length(m, Sub(s.position, ClosestPoint(s.position, center, halfExtents))) < radius
    ensures var p := ResolveBox(m, s, center, halfExtents, radius).position;
      Length(m, Sub(p, ClosestPoint(p, center, halfExtents))) == radius
  {
    var closest := ClosestPoint(s.position, center, halfExtents);
    var diff := Sub(s.position, closest);
    var d := Length(m, diff);
    var pen := radius - d;
    var k := 1.0 + pen / d;
    var p := ResolveBox(m, s, center, halfExtents, radius).position;
    PushAlongOffset(s.position, closest, d, pen);
    assert Sub(p, closest) == Scale(diff, k);
    assert 1.0 <= k by { assert 0.0 <= pen / d; }
    var lo, hi := MinCorner(center, halfExtents), MaxCorner(center, halfExtents);
    ClampAlongOffset(s.position.x, lo.x, hi.x, k);
    ClampAlongOffset(s.position.y, lo.y, hi.y, k);
    ClampAlongOffset(s.position.z, lo.z, hi.z, k);
    assert ClosestPoint(p, center, halfExtents) == closest;
    LengthScale(m, diff, k);
    FactorPush(d, pen);
  }

  /** With the player's centre (almost) on the box the push is straight
      up by the penetration depth. */
  lemma ResolveBoxDegeneratePushesUp(m: Math, s: Motion, center: Vec3, halfExtents: Vec3, radius: real)
    requires var d := Length(m, Sub(s.position, ClosestPoint(s.position, center, halfExtents)));
      d <= DirectionEpsilon && d < radius
    ensures var d := Length(m, Sub(s.position, ClosestPoint(s.position, center, halfExtents)));
      ResolveBox(m, s, center, halfExtents, radius).position == s.position.(y := s.position.y + (radius - d))
  {
  }

  /** Landing on a box: the box phase grounds an airborne player only when
      it was not moving up, and then its vertical velocity is zero and its
      bottom is within 0.1 of the box top. */
  lemma ResolveBoxLanding(m: Math, s: Motion, center: Vec3, halfExtents: Vec3, radius: real)
    requires !s.onGround
    ensures var r := ResolveBox(m, s, center, halfExtents, radius);
      r.onGround ==> && s.velocity.y <= 0.0 && r.velocity.y == 0.0
                     && Abs((r.position.y - radius) - (center.y + halfExtents.y)) < LandingTolerance
  {
  }

  /** Collision response never changes the horizontal velocity and never
      un-grounds the player, whatever colliders are reported. */
  lemma {:induction false} ResolveAllKeeps(m: Math, s: Motion, shapes: seq<Shape>, radius: real)
    ensures var r := ResolveAll(m, s, shapes, radius);
      && r.velocity.x == s.velocity.x && r.velocity.z == s.velocity.z
      && (s.onGround ==> r.onGround)
  {
    if shapes != [] {
      ResolveAllKeeps(m, s, shapes[..|shapes| - 1], radius);
    }
  }

  lemma FrictionFactor(v: real, dt: real)
    requires 0.0 <= dt && FrictionCoefficient * dt <= 1.0
    ensures Abs(v - v * FrictionCoefficient * dt) <= Abs(v)
  {
    assert v - v * FrictionCoefficient * dt == v * (1.0 - FrictionCoefficient * dt);
  }

  /** Friction never speeds the player up horizontally while the time step
      is at most 1/5 s, leaves the vertical velocity alone and does nothing
      in the air. */
  lemma FrictionSlows(s: Motion, dt: real)
    requires 0.0 <= dt && FrictionCoefficient * dt <= 1.0
    ensures var r := Friction(s, dt);
      && Abs(r.velocity.x) <= Abs(s.velocity.x) && Abs(r.velocity.z) <= Abs(s.velocity.z)
      && r.velocity.y == s.velocity.y && r.position == s.position
      && (!s.onGround ==> r == s)
  {
    if s.onGround {
      var r := Friction(s, dt);
      assert r.velocity.x == s.velocity.x - s.velocity.x * FrictionCoefficient * dt;
      assert r.velocity.z == s.velocity.z - s.velocity.z * FrictionCoefficient * dt;
      FrictionFactor(s.velocity.x, dt);
      FrictionFactor(s.velocity.z, dt);
    }
  }
}
