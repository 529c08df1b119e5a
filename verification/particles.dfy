/** Short-lived particles (ParticleEntity.h) and the particle list they are
    spawned into (ParticleSystem.h).  A particle is an entity with a
    remaining lifetime, a total life span and a constant velocity; it moves
    while alive and fades out by lowering the alpha of its model. */
module Particles {
  import opened Glm
  import opened Colliders
  import opened Meshes
  import opened Assets
  import opened Entities

  /** The alpha a particle with `lifetime` left of `lifeSpan` is drawn with:
      lifetime/lifeSpan clamped into [0, 1].  With a zero life span the
      float division of a positive lifetime gives +infinity, which clamps
      to 1. */
  function Fade(lifetime: real, lifeSpan: real): (alpha: real)
    ensures 0.0 <= alpha <= 1.0
    ensures 0.0 < lifeSpan && lifetime <= 0.0 ==> alpha == 0.0
  {
    if lifeSpan == 0.0 then 1.0 else ClampReal(lifetime / lifeSpan, 0.0, 1.0)
  }

  class Particle {
    const entity: Entity
    var lifetime: real
    var lifeSpan: real
    var velocity: Vec3

    /** ParticleEntity(model, startPos, velocity, lifetime, scale): an
        entity without a collider whose life span is its initial lifetime. */
    constructor (model: Model?, startPos: Vec3, velocity: Vec3, lifetime: real, scale: Vec3)
      ensures fresh(entity)
      ensures entity.model == model && entity.collider == null
      ensures entity.position == startPos && entity.scale == scale && entity.orientation == Zero3
      ensures this.lifetime == lifetime && lifeSpan == lifetime && this.velocity == velocity
    {
      entity := new Entity(model, null, startPos, scale);
      this.lifetime := lifetime;
      lifeSpan := lifetime;
      this.velocity := velocity;
    }

    /** ParticleEntity::update: the whole effect is Aged (see AgedEffect
        for what it does to each field). */
    method Update(dt: real)
      modifies this, entity, entity.model, entity.collider
      ensures Snapshot(this) == Aged(old(Snapshot(this)), dt)
    {
      lifetime := lifetime - dt;
      if lifetime > 0.0 {
        entity.position := Add(entity.position, Scale(velocity, dt));
        var alpha := Fade(lifetime, lifeSpan);
        if entity.model != null {
          entity.model.SetAlpha(alpha);
        }
      }
      entity.Update(dt);
    }
  }

  /** What a particle's update reads and writes, as a value: the particle's
      own fields, its entity's, its model's when it has one and its
      collider's shape when it has one. */
  datatype ParticleState = ParticleState(
    lifetime: real, lifeSpan: real, velocity: Vec3,
    position: Vec3, orientation: Vec3, scale: Vec3, transparent: bool,
    look: Option<Look>, shape: Option<Shape>)

  /** The fields of a model. */
  datatype Look = Look(meshes: seq<Mesh>, origin: Vec3, orientation: Vec3)

  function Snapshot(p: Particle): ParticleState
    reads p, p.entity, p.entity.model, p.entity.collider
  {
    var e := p.entity;
    ParticleState(p.lifetime, p.lifeSpan, p.velocity,
      e.position, e.orientation, e.scale, e.transparent,
      if e.model == null then None else Some(Look(e.model.meshes, e.model.origin, e.model.orientation)),
      if e.collider == null then None else Some(e.collider.shape))
  }

  /** ParticleEntity::update on values: the lifetime runs down by dt; a
      particle still alive afterwards moves by velocity·dt and fades its
      model; then Entity::update re-syncs the collider. */
  function Aged(s: ParticleState, dt: real): ParticleState {
    var lifetime := s.lifetime - dt;
    var position := if lifetime > 0.0 then Add(s.position, Scale(s.velocity, dt)) else s.position;
    var look := if lifetime > 0.0 && s.look.Some?
      then Some(s.look.value.(meshes := WithAlpha(s.look.value.meshes, Fade(lifetime, s.lifeSpan))))
      else s.look;
    var shape := if s.shape.Some? then Some(Synced(s.shape.value, position, s.scale)) else None;
    s.(lifetime := lifetime, position := position, look := look, shape := shape)
  }

  /** Field by field: the lifetime always drops by dt; only a particle
      still alive moves (by velocity·dt) and fades its model to
      Fade(lifetime, lifeSpan); the collider, if any, follows the entity;
      life span, velocity, orientation, scale, the transparency flag, the
      presence of a model and collider, and the model's placement never
      change. */
  lemma AgedEffect(s: ParticleState, dt: real)
    ensures var r := Aged(s, dt);
      && r.lifetime == s.lifetime - dt
      && r.lifeSpan == s.lifeSpan && r.velocity == s.velocity
      && r.orientation == s.orientation && r.scale == s.scale && r.transparent == s.transparent
      && (r.lifetime > 0.0 ==> r.position == Add(s.position, Scale(s.velocity, dt)))
      && (r.lifetime <= 0.0 ==> r.position == s.position)
      && r.look.Some? == s.look.Some? && r.shape.Some? == s.shape.Some?
      && (r.look.Some? ==>
            r.look.value.origin == s.look.value.origin && r.look.value.orientation == s.look.value.orientation)
      && (r.look.Some? && r.lifetime > 0.0 ==>
            r.look.value.meshes == WithAlpha(s.look.value.meshes, Fade(r.lifetime, r.lifeSpan)))
      && (r.look.Some? && r.lifetime <= 0.0 ==> r.look.value.meshes == s.look.value.meshes)
      && (r.shape.Some? ==> r.shape.value == Synced(s.shape.value, r.position, r.scale))
  {
  }

  /** A particle that is still alive after an update is drawn more faintly
      than before it, or equally: its new alpha is at most the alpha its
      remaining lifetime gave before the update, when dt is non-negative. */
  lemma AgedFades(s: ParticleState, dt: real)
    requires 0.0 < s.lifeSpan && 0.0 <= dt
    ensures Fade(Aged(s, dt).lifetime, s.lifeSpan) <= Fade(s.lifetime, s.lifeSpan)
  {
    FadeMonotone(s.lifetime - dt, s.lifetime, s.lifeSpan);
  }

  /** A particle, while alive, fades monotonically: less remaining lifetime
      never gives a larger alpha. */
  lemma FadeMonotone(l1: real, l2: real, lifeSpan: real)
    requires 0.0 < lifeSpan && l1 <= l2
    ensures Fade(l1, lifeSpan) <= Fade(l2, lifeSpan)
  {
    DivideMonotone(l1, l2, lifeSpan);
  }

  /** A particle with at least its whole life span left is fully opaque. */
  lemma FadeFull(lifetime: real, lifeSpan: real)
    requires 0.0 < lifeSpan <= lifetime
    ensures Fade(lifetime, lifeSpan) == 1.0
  {
    DivideMonotone(lifeSpan, lifetime, lifeSpan);
    assert lifeSpan / lifeSpan == 1.0;
  }

  lemma DivideMonotone(a: real, b: real, d: real)
    requires 0.0 < d && a <= b
    ensures a / d <= b / d
  {
    assert b / d - a / d == (b - a) / d;
  }

  // ---------------------------------------------------------------------
  // Spawning

  /** The five values rand()/RAND_MAX drawn for one particle: speed, the
      three direction components and the extra lifetime. */
  datatype Draws = Draws(speed: real, dx: real, dy: real, dz: real, life: real)

  /** Every draw lies in [0, 1], as rand()/RAND_MAX does. */
  predicate UnitDraws(d: Draws) {
    && 0.0 <= d.speed <= 1.0 && 0.0 <= d.dx <= 1.0 && 0.0 <= d.dy <= 1.0
    && 0.0 <= d.dz <= 1.0 && 0.0 <= d.life <= 1.0
  }

  /** Below this length the random direction is replaced by straight up. */
  const DegenerateDirection: real := 0.001

  /** The particle speed 2 + 3·draw, in [2, 5]. */
  function SpawnSpeed(d: Draws): (speed: real)
    ensures UnitDraws(d) ==> 2.0 <= speed <= 5.0
  {
    2.0 + d.speed * 3.0
  }

  /** The raw direction, each component (draw - 0.5)·2, in [-1, 1]. */
  function RawDirection(d: Draws): (v: Vec3)
    ensures UnitDraws(d) ==> -1.0 <= v.x <= 1.0 && -1.0 <= v.y <= 1.0 && -1.0 <= v.z <= 1.0
  {
    Vec3((d.dx - 0.5) * 2.0, (d.dy - 0.5) * 2.0, (d.dz - 0.5) * 2.0)
  }

  /** The direction actually used: straight up when the raw direction is
      (nearly) zero, the raw direction otherwise; then normalised. */
  function SpawnDirection(m: Math, d: Draws): Vec3 {
    var raw := RawDirection(d);
    Normalize(m, if Length(m, raw) < DegenerateDirection then Up else raw)
  }

  function SpawnVelocity(m: Math, d: Draws): Vec3 {
    Scale(SpawnDirection(m, d), SpawnSpeed(d))
  }

  /** The lifetime 1 + draw, in [1, 2]. */
  function SpawnLifetime(d: Draws): (lifetime: real)
    ensures UnitDraws(d) ==> 1.0 <= lifetime <= 2.0
  {
    1.0 + d.life
  }

  /** The scale of every spawned particle. */
  const ParticleScale: real := 0.2

  /** The sphere each particle's model is made of: radius 0.1, 10 sectors
      and 10 stacks. */
  const ParticleRadius: real := 0.1
  const ParticleSectors: int := 10

  /** The shape of a sphere mesh with ParticleSectors sectors and stacks. */
  predicate ParticleSphere(mesh: Mesh) {
    && mesh.primitive == Triangles
    && |mesh.vertices| == (ParticleSectors + 1) * (ParticleSectors + 1)
    && |mesh.indices| == 6 * ParticleSectors * (ParticleSectors - 1)
    && IndicesInBounds(mesh)
  }

  /** A new particle as spawnParticles makes it from one set of draws. */
  ghost predicate Spawned(m: Math, p: Particle, impactPoint: Vec3, d: Draws)
    reads p, p.entity, p.entity.model
  {
    && p.entity.position == impactPoint
    && p.entity.scale == Splat(ParticleScale)
    && p.entity.orientation == Zero3
    && p.entity.collider == null
    && p.velocity == SpawnVelocity(m, d)
    && p.lifetime == SpawnLifetime(d) && p.lifeSpan == p.lifetime
    && p.entity.model != null
    && |p.entity.model.meshes| == 1
    && ParticleSphere(p.entity.model.meshes[0])
  }

  /** The mesh of every particle: createSphere(0.1, 10, 10). */
  function ParticleMesh(m: Math): Mesh {
    SphereMesh(m, ParticleRadius, ParticleSectors, ParticleSectors)
  }

  /** A particle's sphere is a triangle list over (10+1)·(10+1) vertices
      with 6·10·(10-1) indices, all in bounds. */
  lemma ParticleMeshShape(m: Math)
    ensures ParticleSphere(ParticleMesh(m))
  {
    SphereIndexCount(ParticleSectors, ParticleSectors);
  }

  /** No two particles of the list are the same object or share their
      entity, their model or their collider, so updating one leaves the
      others alone. */
  ghost predicate Distinct(ps: seq<Particle>) {
    forall i, j :: 0 <= i < j < |ps| ==> Apart(ps[i], ps[j])
  }

  /** Two particles with nothing in common that an update writes. */
  ghost predicate Apart(p: Particle, q: Particle) {
    && p != q && p.entity != q.entity
    && (p.entity.model == q.entity.model ==> p.entity.model == null)
    && (p.entity.collider == q.entity.collider ==> p.entity.collider == null)
  }

  /** The global particle list of ParticleSystem.h. */
  class ParticleSystem {
    var particles: seq<Particle>

    constructor ()
      ensures particles == []
    {
      particles := [];
    }

    /** ParticleSystem::spawnParticles: appends `count` new particles (none
        for a non-positive count), the i-th made from draws[i], all at the
        impact point; the particles already in the list stay in place. */
    method SpawnParticles(m: Math, impactPoint: Vec3, count: int, draws: seq<Draws>)
      requires count <= |draws|
      modifies this
      ensures |particles| == |old(particles)| + (if count < 0 then 0 else count)
      ensures particles[..|old(particles)|] == old(particles)
      ensures forall i :: |old(particles)| <= i < |particles| ==>
        fresh(particles[i]) && fresh(particles[i].entity) && fresh(particles[i].entity.model) && Spawned(m, particles[i], impactPoint, draws[i - |old(particles)|])
      ensures Distinct(old(particles)) ==> Distinct(particles)
    {
      ghost var start := |particles|;
      var i := 0;
      while i < count
        invariant 0 <= start && (i <= count || (count < 0 && i == 0))
        invariant |particles| == start + i
        invariant particles[..start] == old(particles)
        invariant forall k :: start <= k < |particles| ==>
          fresh(particles[k]) && fresh(particles[k].entity) && fresh(particles[k].entity.model) && Spawned(m, particles[k], impactPoint, draws[k - start])
        invariant Distinct(old(particles)) ==> Distinct(particles)
      {
        var p := SpawnOne(m, impactPoint, draws[i]);
        particles := particles + [p];
        i := i + 1;
      }
    }
  }

  /** One iteration of the spawning loop. */
  method SpawnOne(m: Math, impactPoint: Vec3, d: Draws) returns (p: Particle)
    ensures fresh(p) && fresh(p.entity) && fresh(p.entity.model) && Spawned(m, p, impactPoint, d)
  {
    var sphere := ParticleModel(m);
    var velocity := DrawVelocity(m, d);
    var lifetime := SpawnLifetime(d);
    p := new Particle(sphere, impactPoint, velocity, lifetime, Splat(ParticleScale));
    assert p.entity.model == sphere;
  }

  /** The model of one particle: a fresh sphere of radius 0.1 with 10
      sectors and 10 stacks. */
  method ParticleModel(m: Math) returns (sphere: Model)
    ensures fresh(sphere) && sphere.meshes == [ParticleMesh(m)]
    ensures |sphere.meshes| == 1 && ParticleSphere(sphere.meshes[0])
  {
    sphere := CreateSphere(m, ParticleRadius, ParticleSectors, ParticleSectors);
    ParticleMeshShape(m);
  }

  /** The velocity steps of the spawning loop: a random speed along a
      random direction, replaced by straight up when nearly zero, then
      normalised. */
  method DrawVelocity(m: Math, d: Draws) returns (velocity: Vec3)
    ensures velocity == SpawnVelocity(m, d)
  {
    var speed := SpawnSpeed(d);
    var raw := RawDirection(d);
    var dir := raw;
    if Length(m, dir) < DegenerateDirection {
      dir := Up;
    }
    assert dir == if Length(m, raw) < DegenerateDirection then Up else raw;
    dir := Normalize(m, dir);
    velocity := Scale(dir, speed);
  }

  // ---------------------------------------------------------------------
  // Properties of spawning

  /** Every spawned particle flies at exactly its drawn speed: the
      direction it is given always has unit length, even when the raw
      direction was degenerate. */
  lemma SpawnVelocityLength(m: Math, d: Draws)
    requires Sound(m) && UnitDraws(d)
    ensures Length(m, SpawnVelocity(m, d)) == SpawnSpeed(d)
  {
    var raw := RawDirection(d);
    var chosen := if Length(m, raw) < DegenerateDirection then Up else raw;
    assert chosen != Zero3 by {
      if chosen == raw && raw == Zero3 {
        assert Length(m, raw) == 0.0;
      }
    }
    NormalizeUnitOrZero(m, chosen);
    var dir := SpawnDirection(m, d);
    assert dir == Normalize(m, chosen);
    LengthScale(m, dir, SpawnSpeed(d));
  }

  /** Spawned particles start fully opaque and alive. */
  lemma SpawnedStartsVisible(m: Math, p: Particle, impactPoint: Vec3, d: Draws)
    requires UnitDraws(d) && Spawned(m, p, impactPoint, d)
    ensures 0.0 < p.lifetime && Fade(p.lifetime, p.lifeSpan) == 1.0
  {
    FadeFull(p.lifetime, p.lifeSpan);
  }
}
