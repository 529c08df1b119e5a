/** The per-frame bookkeeping of the application (App.cpp): the submarine's
    waypoint cycle, particle pruning, the split of the scene into opaque and
    transparent entities and the far-to-near order of the latter, the
    keyboard rule for the camera and the player, the JPEG quality search
    and the clamps of the normalised cross marker. */
module App {
  import opened Glm
  import opened Colliders
  import opened Meshes
  import opened Entities
  import opened Physics
  import opened Particles
  import opened Cameras

  // ---------------------------------------------------------------------
  // Waypoints

  /** The submarine's cruising speed. */
  const WaypointSpeed: real := 25.0

  /** The corners of the square the submarine patrols, by state. */
  function Waypoint(corner: int): Vec3
    requires 0 <= corner < 4
  {
    if corner == 0 then Vec3(100.0, 20.0, 100.0)
    else if corner == 1 then Vec3(100.0, 20.0, 0.0)
    else if corner == 2 then Vec3(0.0, 20.0, 0.0)
    else Vec3(0.0, 20.0, 100.0)
  }

  /** The next waypoint state: the following corner on arrival, the same
      corner otherwise; a state outside 0..3 is never changed. */
  function Advance(corner: int, arrived: bool): (next: int)
    ensures 0 <= corner < 4 ==> 0 <= next < 4
    ensures next != corner ==> arrived
  {
    if !arrived then corner
    else if corner == 0 then 1
    else if corner == 1 then 2
    else if corner == 2 then 3
    else if corner == 3 then 0
    else corner
  }

  /** One frame of the waypoint state machine: the submarine moves towards
      the corner of the current state, and the state advances when it
      reports arrival. */
  method FollowWaypoints(m: Math, submarine: Entity, corner: int, dt: real) returns (next: int)
    modifies submarine
    ensures !(0 <= corner < 4) ==> next == corner && unchanged(submarine)
    ensures 0 <= corner < 4 ==>
      var arrived := Length(m, Sub(Waypoint(corner), old(submarine.position))) < ArrivalDistance;
      && next == Advance(corner, arrived)
      && (arrived ==> submarine.position == old(submarine.position) && submarine.orientation == old(submarine.orientation))
      && (!arrived ==> submarine.position == StepTowards(m, old(submarine.position), Waypoint(corner), WaypointSpeed, dt))
      && (!arrived ==> submarine.orientation == old(submarine.orientation).(y := old(submarine.orientation.y)
            + WrapDegrees(HeadingTowards(m, old(submarine.position), Waypoint(corner)) - old(submarine.orientation.y)) * TurnRate))
    ensures submarine.scale == old(submarine.scale) && submarine.transparent == old(submarine.transparent)
  {
    next := corner;
    if corner == 0 {
      var arrived := submarine.MoveTowards(m, Vec3(100.0, 20.0, 100.0), WaypointSpeed, dt);
      if arrived {
        next := 1;
      }
    } else if corner == 1 {
      var arrived := submarine.MoveTowards(m, Vec3(100.0, 20.0, 0.0), WaypointSpeed, dt);
      if arrived {
        next := 2;
      }
    } else if corner == 2 {
      var arrived := submarine.MoveTowards(m, Vec3(0.0, 20.0, 0.0), WaypointSpeed, dt);
      if arrived {
        next := 3;
      }
    } else if corner == 3 {
      var arrived := submarine.MoveTowards(m, Vec3(0.0, 20.0, 100.0), WaypointSpeed, dt);
      if arrived {
        next := 0;
      }
    }
  }

  /** Four arrivals bring the state back to where it started, passing
      through every corner once. */
  lemma AdvanceCycles(corner: int)
    requires 0 <= corner < 4
    ensures var c1 := Advance(corner, true);
      var c2 := Advance(c1, true);
      var c3 := Advance(c2, true);
      && Advance(c3, true) == corner
      && {corner, c1, c2, c3} == {0, 1, 2, 3}
  {
  }

  /** Consecutive corners differ by 100 along exactly one horizontal
      axis, at constant height: the path is a square of side 100. */
  lemma WaypointsFormSquare(corner: int)
    requires 0 <= corner < 4
    ensures var a := Waypoint(corner);
      var b := Waypoint(Advance(corner, true));
      && a.y == b.y == 20.0
      && ((a.x == b.x && Abs(a.z - b.z) == 100.0) || (a.z == b.z && Abs(a.x - b.x) == 100.0))
  {
  }

  // ---------------------------------------------------------------------
  // Selection by flags, shared by pruning and the render split

  /** The elements among the first n of xs whose flag is set, in order. */
  function SelectFirst<T>(xs: seq<T>, keep: seq<bool>, n: nat): (r: seq<T>)
    requires |keep| == |xs| && n <= |xs|
    ensures |r| <= n
  {
    if n == 0 then []
    else SelectFirst(xs, keep, n - 1) + (if keep[n - 1] then [xs[n - 1]] else [])
  }

  /** The elements of xs whose flag is set, in order. */
  function Select<T>(xs: seq<T>, keep: seq<bool>): (r: seq<T>)
    requires |keep| == |xs|
    ensures |r| <= |xs|
  {
    SelectFirst(xs, keep, |xs|)
  }

  /** Every flag negated. */
  function Negate(keep: seq<bool>): (r: seq<bool>)
    ensures |r| == |keep| && forall i :: 0 <= i < |keep| ==> r[i] == !keep[i]
  {
    seq(|keep|, i requires 0 <= i < |keep| => !keep[i])
  }

  /** x is among the selected first n exactly when it sits at a flagged
      position below n. */
  lemma {:induction false} SelectFirstMembership<T>(xs: seq<T>, keep: seq<bool>, n: nat, x: T)
    requires |keep| == |xs| && n <= |xs|
    ensures x in SelectFirst(xs, keep, n) <==> exists j :: 0 <= j < n && keep[j] && xs[j] == x
  {
    if n > 0 {
      SelectFirstMembership(xs, keep, n - 1, x);
    }
  }

  /** x is selected exactly when it sits at a flagged position. */
  lemma SelectMembership<T>(xs: seq<T>, keep: seq<bool>, x: T)
    requires |keep| == |xs|
    ensures x in Select(xs, keep) <==> exists j :: 0 <= j < |xs| && keep[j] && xs[j] == x
  {
    SelectFirstMembership(xs, keep, |xs|, x);
  }

  /** The flagged and the unflagged elements together are the whole
      sequence: every element lands in exactly one of the two. */
  lemma {:induction false} SelectFirstSplits<T>(xs: seq<T>, keep: seq<bool>, n: nat)
    requires |keep| == |xs| && n <= |xs|
    ensures multiset(SelectFirst(xs, keep, n)) + multiset(SelectFirst(xs, Negate(keep), n)) == multiset(xs[..n])
  {
    if n > 0 {
      SelectFirstSplits(xs, keep, n - 1);
      assert xs[..n] == xs[..n - 1] + [xs[n - 1]];
    }
  }

  lemma SelectSplits<T>(xs: seq<T>, keep: seq<bool>)
    requires |keep| == |xs|
    ensures multiset(Select(xs, keep)) + multiset(Select(xs, Negate(keep))) == multiset(xs)
  {
    SelectFirstSplits(xs, keep, |xs|);
    assert xs[..|xs|] == xs;
  }

  /** Selecting from a list without repetitions gives one without
      repetitions. */
  lemma {:induction false} SelectFirstDistinct(ps: seq<Particle>, keep: seq<bool>, n: nat)
    requires |keep| == |ps| && n <= |ps| && Distinct(ps)
    ensures Distinct(SelectFirst(ps, keep, n))
  {
    if n > 0 {
      SelectFirstDistinct(ps, keep, n - 1);
      var front := SelectFirst(ps, keep, n - 1);
      if keep[n - 1] {
        var r := front + [ps[n - 1]];
        forall a, b | 0 <= a < b < |r|
          ensures Apart(r[a], r[b])
        {
          if b == |front| {
            SelectFirstMembership(ps, keep, n - 1, r[a]);
            var j :| 0 <= j < n - 1 && keep[j] && ps[j] == r[a];
          }
        }
      }
    }
  }

  lemma SelectDistinct(ps: seq<Particle>, keep: seq<bool>)
    requires |keep| == |ps| && Distinct(ps)
    ensures Distinct(Select(ps, keep))
  {
    SelectFirstDistinct(ps, keep, |ps|);
  }

  // ---------------------------------------------------------------------
  // Particle pruning

  /** For each particle, whether it is still alive. */
  ghost function Alive(ps: seq<Particle>): (r: seq<bool>)
    reads set p | p in ps
    ensures |r| == |ps| && forall i :: 0 <= i < |ps| ==> r[i] == (ps[i].lifetime > 0.0)
  {
    seq(|ps|, i requires 0 <= i < |ps| reads ps => ps[i].lifetime > 0.0)
  }

  /** The particle loop of the frame: every particle is updated exactly
      once, and those whose lifetime has run out are erased; the survivors
      keep their order. */
  method PruneParticles(system: ParticleSystem, dt: real)
    requires Distinct(system.particles)
    modifies system, set p | p in system.particles, set p | p in system.particles :: p.entity
    modifies set p | p in system.particles :: p.entity.model
    modifies set p | p in system.particles :: p.entity.collider
    ensures forall j :: 0 <= j < |old(system.particles)| ==>
      Snapshot(old(system.particles)[j]) == Aged(old(Snapshot(system.particles[j])), dt)
    ensures system.particles == Select(old(system.particles), Alive(old(system.particles)))
    ensures forall p :: p in system.particles ==> p.lifetime > 0.0
    ensures Distinct(system.particles)
  {
    var ps := system.particles;
    ghost var alive := seq(|ps|, j requires 0 <= j < |ps| reads ps => ps[j].lifetime - dt > 0.0);
    var kept := UpdateAndKeep(ps, dt, alive);
    assert alive == Alive(ps);
    forall q | q in kept
      ensures q.lifetime > 0.0
    {
      SelectMembership(ps, alive, q);
    }
    SelectDistinct(ps, alive);
    system.particles := kept;
  }

  /** The loop itself: updates each particle of ps once and collects, in
      order, those still alive afterwards. */
  method UpdateAndKeep(ps: seq<Particle>, dt: real, ghost alive: seq<bool>) returns (kept: seq<Particle>)
    requires Distinct(ps)
    requires |alive| == |ps| && forall j :: 0 <= j < |ps| ==> alive[j] == (ps[j].lifetime - dt > 0.0)
    modifies set p | p in ps, set p | p in ps :: p.entity
    modifies set p | p in ps :: p.entity.model
    modifies set p | p in ps :: p.entity.collider
    ensures forall j :: 0 <= j < |ps| ==> Snapshot(ps[j]) == Aged(old(Snapshot(ps[j])), dt)
    ensures forall j :: 0 <= j < |ps| ==> alive[j] == (ps[j].lifetime > 0.0)
    ensures kept == Select(ps, alive)
  {
    kept := [];
    var i := 0;
    while i < |ps|
      invariant 0 <= i <= |ps|
      invariant kept == SelectFirst(ps, alive, i)
      invariant forall j :: 0 <= j < i ==> Snapshot(ps[j]) == Aged(old(Snapshot(ps[j])), dt)
      invariant forall j :: i <= j < |ps| ==> Snapshot(ps[j]) == old(Snapshot(ps[j]))
    {
      var live := Tick(ps, i, dt);
      if live {
        kept := kept + [ps[i]];
      }
      i := i + 1;
    }
  }

  /** One particle of the loop: its update, and whether it survives it;
      the other particles of the list are left alone. */
  method Tick(ps: seq<Particle>, i: nat, dt: real) returns (live: bool)
    requires i < |ps| && Distinct(ps)
    modifies ps[i], ps[i].entity, ps[i].entity.model, ps[i].entity.collider
    ensures Snapshot(ps[i]) == Aged(old(Snapshot(ps[i])), dt)
    ensures forall j :: 0 <= j < |ps| && j != i ==> Snapshot(ps[j]) == old(Snapshot(ps[j]))
    ensures live <==> ps[i].lifetime > 0.0
  {
    ps[i].Update(dt);
    live := ps[i].lifetime > 0.0;
    forall j | 0 <= j < |ps| && j != i
      ensures Snapshot(ps[j]) == old(Snapshot(ps[j]))
    {
      if j < i {
        assert Apart(ps[j], ps[i]);
      } else {
        assert Apart(ps[i], ps[j]);
      }
    }
  }

  // ---------------------------------------------------------------------
  // Opaque and transparent entities

  /** For each entity, whether it is drawn in the blended pass. */
  function Transparency(es: seq<Entity>): (r: seq<bool>)
    reads set e | e in es
    ensures |r| == |es| && forall i :: 0 <= i < |es| ==> r[i] == es[i].transparent
  {
    seq(|es|, i requires 0 <= i < |es| reads es => es[i].transparent)
  }

  /** The split of the frame's entities: the transparent ones and the
      opaque ones, each in scene order. */
  method PartitionEntities(entities: seq<Entity>) returns (solid: seq<Entity>, transparent: seq<Entity>)
    ensures transparent == Select(entities, Transparency(entities))
    ensures solid == Select(entities, Negate(Transparency(entities)))
    ensures multiset(solid) + multiset(transparent) == multiset(entities)
    ensures forall e :: e in transparent ==> e.transparent
    ensures forall e :: e in solid ==> !e.transparent
  {
    solid, transparent := [], [];
    ghost var flags := Transparency(entities);
    var i := 0;
    while i < |entities|
      invariant 0 <= i <= |entities|
      invariant transparent == SelectFirst(entities, flags, i)
      invariant solid == SelectFirst(entities, Negate(flags), i)
    {
      if entities[i].transparent {
        transparent := transparent + [entities[i]];
      } else {
        solid := solid + [entities[i]];
      }
      i := i + 1;
    }
    SelectSplits(entities, flags);
    forall e | e in transparent
      ensures e.transparent
    {
      SelectMembership(entities, flags, e);
    }
    forall e | e in solid
      ensures !e.transparent
    {
      SelectMembership(entities, Negate(flags), e);
    }
  }

  /** The squared distance from an entity to the eye, the sort key. */
  function DepthKey(e: Entity, eye: Vec3): real
    reads e
  {
    Distance2(e.position, eye)
  }

  /** Farthest first: the key never increases along the list. */
  ghost predicate FarthestFirst(es: seq<Entity>, eye: Vec3)
    reads set e | e in es
  {
    forall a, b :: 0 <= a < b < |es| ==> DepthKey(es[a], eye) >= DepthKey(es[b], eye)
  }

  /** The sort of the transparent entities by decreasing squared distance
      to the camera, so that the farthest is blended first. */
  method SortFarthestFirst(es: seq<Entity>, eye: Vec3) returns (sorted: seq<Entity>)
    ensures multiset(sorted) == multiset(es)
    ensures FarthestFirst(sorted, eye)
  {
    sorted := es;
    var i := 0;
    while i < |sorted|
      invariant 0 <= i <= |sorted| == |es|
      invariant multiset(sorted) == multiset(es)
      invariant forall a, b :: 0 <= a < b < i ==> DepthKey(sorted[a], eye) >= DepthKey(sorted[b], eye)
    {
      var j := i;
      while 0 < j && DepthKey(sorted[j - 1], eye) < DepthKey(sorted[j], eye)
        invariant 0 <= j <= i < |sorted| == |es|
        invariant multiset(sorted) == multiset(es)
        invariant forall a, b :: 0 <= a < b <= i && a != j && b != j ==> DepthKey(sorted[a], eye) >= DepthKey(sorted[b], eye)
        invariant forall b :: j < b <= i ==> DepthKey(sorted[j], eye) >= DepthKey(sorted[b], eye)
      {
        sorted := Swap(sorted, j - 1, j);
        j := j - 1;
      }
      i := i + 1;
    }
  }

  /** Two neighbours exchanged. */
  function Swap(s: seq<Entity>, a: int, b: int): (r: seq<Entity>)
    requires 0 <= a < |s| && 0 <= b < |s|
    ensures |r| == |s| && r[a] == s[b] && r[b] == s[a]
    ensures forall k :: 0 <= k < |s| && k != a && k != b ==> r[k] == s[k]
    ensures multiset(r) == multiset(s)
  {
    s[a := s[b]][b := s[a]]
  }

  /** The frame's draw order: the solid entities in scene order, then the
      transparent ones farthest first.  The two lists are emptied at the end
      of the frame, so each frame starts from empty lists. */
  method DrawOrder(entities: seq<Entity>, eye: Vec3) returns (solid: seq<Entity>, transparent: seq<Entity>)
    ensures solid == Select(entities, Negate(Transparency(entities)))
    ensures multiset(transparent) == multiset(Select(entities, Transparency(entities)))
    ensures FarthestFirst(transparent, eye)
    ensures multiset(solid) + multiset(transparent) == multiset(entities)
  {
    var blended;
    solid, blended := PartitionEntities(entities);
    transparent := SortFarthestFirst(blended, eye);
  }

  // ---------------------------------------------------------------------
  // Keyboard handling

  /** The keys processInput reads. */
  datatype Keys = Keys(w: bool, s: bool, a: bool, d: bool, space: bool, c: bool, leftShift: bool, rightShift: bool)

  /** The speed factor: 2.5 with a Shift key held or red seen by the
      camera, 1 otherwise. */
  function SpeedMultiplier(keys: Keys, redDetected: bool): real {
    if keys.leftShift || keys.rightShift || redDetected then 2.5 else 1.0
  }

  /** The summed key directions before normalisation: W/S along ±front,
      A/D along ∓right and, for a detached camera only, Space/C along
      ±worldUp. */
  function RawInput(keys: Keys, detached: bool, front: Vec3, right: Vec3, worldUp: Vec3): Vec3 {
    var d0 := Zero3;
    var d1 := if keys.w then Add(d0, front) else d0;
    var d2 := if keys.s then Sub(d1, front) else d1;
    var d3 := if keys.a then Sub(d2, right) else d2;
    var d4 := if keys.d then Add(d3, right) else d3;
    var d5 := if detached && keys.space then Add(d4, worldUp) else d4;
    if detached && keys.c then Sub(d5, worldUp) else d5
  }

  /** The movement direction: the summed directions, normalised when they
      do not cancel out. */
  function InputDirection(m: Math, keys: Keys, detached: bool, front: Vec3, right: Vec3, worldUp: Vec3): Vec3 {
    var raw := RawInput(keys, detached, front, right, worldUp);
    if Length(m, raw) > 0.0 then Normalize(m, raw) else raw
  }

  /** The player's velocity after the keys: the horizontal part of the
      acceleration direction·movementAcceleration·multiplier is applied for
      dt; Space on the ground sets the vertical velocity to the jump
      velocity. */
  function InputVelocity(v: Vec3, dir: Vec3, acceleration: real, multiplier: real, dt: real,
                         jump: bool, grounded: bool, jumpVelocity: real): Vec3 {
    var accel := Scale(dir, acceleration * multiplier).(y := 0.0);
    var v1 := Add(v, Scale(accel, dt));
    if jump && grounded then v1.(y := jumpVelocity) else v1
  }

  /** The detached camera's new position: along the direction by
      movementSpeed·dt·multiplier. */
  function Fly(position: Vec3, dir: Vec3, movementSpeed: real, dt: real, multiplier: real): Vec3 {
    Add(position, Scale(dir, movementSpeed * dt * multiplier))
  }

  /** Where the attached camera sits: one unit behind the head along the
      view direction, half a unit higher. */
  function ChaseCamera(head: Vec3, front: Vec3): Vec3 {
    var behind := Sub(head, Scale(front, 1.0));
    behind.(y := behind.y + 0.5)
  }

  /** App::processInput.  A detached camera flies along the key direction
      at movementSpeed·dt·multiplier.  Otherwise, with a player, the keys
      accelerate the player horizontally, Space makes a grounded player
      jump, and the camera follows the player's head. */
  method ProcessInput(m: Math, keys: Keys, redDetected: bool, cameraDetached: bool,
                      camera: Camera, player: Player?, dt: real)
    modifies camera, player, if player == null then {} else {player.body}
    ensures var dir := InputDirection(m, keys, cameraDetached, old(camera.front), old(camera.right), old(camera.worldUp));
      var mult := SpeedMultiplier(keys, redDetected);
      && (cameraDetached ==>
            camera.position == Fly(old(camera.position), dir, camera.movementSpeed, dt, mult))
      && (!cameraDetached && player != null ==>
            && player.body.velocity == InputVelocity(old(player.body.velocity), dir, player.movementAcceleration,
                                                     mult, dt, keys.space, old(player.isOnGround), player.jumpVelocity)
            && player.isOnGround == (old(player.isOnGround) && !keys.space)
            && camera.position == ChaseCamera(player.HeadPosition(), camera.front))
      && (!cameraDetached && player == null ==> camera.position == old(camera.position))
    ensures camera.Vectors() == old(camera.Vectors()) && camera.worldUp == old(camera.worldUp)
    ensures camera.movementSpeed == old(camera.movementSpeed) && camera.mouseSensitivity == old(camera.mouseSensitivity)
    ensures camera.yaw == old(camera.yaw) && camera.pitch == old(camera.pitch) && camera.zoom == old(camera.zoom)
    ensures player != null && cameraDetached ==> unchanged(player, player.body)
    ensures player != null ==>
      && player.body.position == old(player.body.position)
      && player.body.acceleration == old(player.body.acceleration)
      && player.body.affectedByGravity == old(player.body.affectedByGravity)
      && player.movementAcceleration == old(player.movementAcceleration)
      && player.jumpVelocity == old(player.jumpVelocity) && player.radius == old(player.radius)
      && player.height == old(player.height)
  {
    var direction := KeyDirection(m, keys, cameraDetached, camera.front, camera.right, camera.worldUp);
    var speedMultiplier := SpeedMultiplier(keys, redDetected);
    if cameraDetached {
      camera.position := Fly(camera.position, direction, camera.movementSpeed, dt, speedMultiplier);
    } else if player != null {
      SteerPlayer(player, camera, direction, speedMultiplier, keys.space, dt);
    }
  }

  /** The attached branch of processInput: horizontal acceleration, the
      jump from the ground, and the chase camera. */
  method SteerPlayer(player: Player, camera: Camera, direction: Vec3, speedMultiplier: real, jump: bool, dt: real)
    modifies player, player.body, camera
    ensures player.body.velocity == InputVelocity(old(player.body.velocity), direction, player.movementAcceleration,
                                                  speedMultiplier, dt, jump, old(player.isOnGround), player.jumpVelocity)
    ensures player.isOnGround == (old(player.isOnGround) && !jump)
    ensures camera.position == ChaseCamera(player.HeadPosition(), camera.front)
    ensures camera.Vectors() == old(camera.Vectors()) && camera.worldUp == old(camera.worldUp)
    ensures camera.movementSpeed == old(camera.movementSpeed) && camera.mouseSensitivity == old(camera.mouseSensitivity)
    ensures camera.yaw == old(camera.yaw) && camera.pitch == old(camera.pitch) && camera.zoom == old(camera.zoom)
    ensures player.body.position == old(player.body.position)
    ensures player.body.acceleration == old(player.body.acceleration)
    ensures player.body.affectedByGravity == old(player.body.affectedByGravity)
    ensures player.movementAcceleration == old(player.movementAcceleration)
    ensures player.jumpVelocity == old(player.jumpVelocity) && player.radius == old(player.radius)
    ensures player.height == old(player.height)
  {
    var accel := Scale(direction, player.movementAcceleration * speedMultiplier);
    accel := accel.(y := 0.0);
    player.body.velocity := Add(player.body.velocity, Scale(accel, dt));
    if jump {
      if player.isOnGround {
        player.body.velocity := player.body.velocity.(y := player.jumpVelocity);
        player.isOnGround := false;
      }
    }
    var behindDistance := 1.0;
    var heightOffset := 0.5;
    var headPos := player.HeadPosition();
    var behindPos := Sub(headPos, Scale(camera.front, behindDistance));
    behindPos := behindPos.(y := behindPos.y + heightOffset);
    camera.position := behindPos;
  }

  /** The direction part of processInput. */
  method KeyDirection(m: Math, keys: Keys, detached: bool, front: Vec3, right: Vec3, worldUp: Vec3)
    returns (direction: Vec3)
    ensures direction == InputDirection(m, keys, detached, front, right, worldUp)
  {
    direction := Zero3;
    if keys.w {
      direction := Add(direction, front);
    }
    if keys.s {
      direction := Sub(direction, front);
    }
    if keys.a {
      direction := Sub(direction, right);
    }
    if keys.d {
      direction := Add(direction, right);
    }
    if detached {
      if keys.space {
        direction := Add(direction, worldUp);
      }
      if keys.c {
        direction := Sub(direction, worldUp);
      }
    }
    if Length(m, direction) > 0.0 {
      direction := Normalize(m, direction);
    }
  }

  /** The movement direction has unit length, or is zero when the keys
      cancel out or none is pressed. */
  lemma InputDirectionUnitOrZero(m: Math, keys: Keys, detached: bool, front: Vec3, right: Vec3, worldUp: Vec3)
    requires Sound(m)
    ensures var dir := InputDirection(m, keys, detached, front, right, worldUp);
      dir == Zero3 || Length(m, dir) == 1.0
  {
    var raw := RawInput(keys, detached, front, right, worldUp);
    NormalizeUnitOrZero(m, raw);
    if Length(m, raw) <= 0.0 {
      assert Length(m, raw) == 0.0;
    }
  }

  /** A detached camera moving along a unit direction covers exactly
      |movementSpeed·dt·multiplier| in the frame. */
  lemma FlightDistance(m: Math, position: Vec3, dir: Vec3, movementSpeed: real, dt: real, multiplier: real)
    requires Sound(m) && Length(m, dir) == 1.0
    ensures Length(m, Sub(Fly(position, dir, movementSpeed, dt, multiplier), position)) == Abs(movementSpeed * dt * multiplier)
  {
    var k := movementSpeed * dt * multiplier;
    assert Sub(Add(position, Scale(dir, k)), position) == Scale(dir, k);
    LengthScale(m, dir, k);
  }

  /** The keys never change the vertical velocity except by a jump, a jump
      needs the ground and sets exactly the jump velocity, and the
      horizontal velocity grows by the scaled direction times dt. */
  lemma JumpOnlyFromGround(v: Vec3, dir: Vec3, acceleration: real, multiplier: real, dt: real,
                           jump: bool, grounded: bool, jumpVelocity: real)
    ensures var r := InputVelocity(v, dir, acceleration, multiplier, dt, jump, grounded, jumpVelocity);
      && r.y == (if jump && grounded then jumpVelocity else v.y)
      && r.x == v.x + dir.x * (acceleration * multiplier) * dt
      && r.z == v.z + dir.z * (acceleration * multiplier) * dt
  {
    assert 0.0 * dt == 0.0;
  }

  /** Without Space or C a detached camera moves in the plane spanned by
      front and right, exactly as an attached one would be steered. */
  lemma VerticalKeysOnlyWhenDetached(keys: Keys, front: Vec3, right: Vec3, worldUp: Vec3)
    requires !keys.space && !keys.c
    ensures RawInput(keys, true, front, right, worldUp) == RawInput(keys, false, front, right, worldUp)
  {
  }

  // ---------------------------------------------------------------------
  // JPEG quality search

  newtype Byte = b: int | 0 <= b < 256

  datatype Result<T> = Success(value: T) | Failure(error: string)

  /** The quality the search settles on: starting at q and stepping down
      by 5, the first whose encoding fits the limit, or the last one tried
      (the one above zero) when none does. */
  function ChosenQuality(encode: int -> seq<Byte>, limit: nat, q: int): int
    decreases q
  {
    if |encode(q)| <= limit || q - 5 <= 0 then q else ChosenQuality(encode, limit, q - 5)
  }

  /** App::lossyLimitBW with the encoder as a parameter: without a JPEG
      writer it fails; otherwise it encodes at qualities 100, 95, ..., 5
      and stops at the first encoding within the size limit, returning the
      last encoding when none fits. */
  method LossyLimitBW(encode: int -> seq<Byte>, writerAvailable: bool, limit: nat) returns (r: Result<seq<Byte>>)
    ensures !writerAvailable ==> r.Failure?
    ensures writerAvailable ==> r == Success(encode(ChosenQuality(encode, limit, 100)))
  {
    if !writerAvailable {
      return Failure("Can not compress to format:.jpg");
    }
    var bytes: seq<Byte> := [];
    var i := 100;
    while i > 0
      invariant 0 <= i <= 100 && i % 5 == 0
      invariant 0 < i ==> ChosenQuality(encode, limit, i) == ChosenQuality(encode, limit, 100)
      invariant i == 0 ==> bytes == encode(ChosenQuality(encode, limit, 100))
    {
      bytes := encode(i);
      if |bytes| <= limit {
        break;
      }
      i := i - 5;
    }
    r := Success(bytes);
  }

  /** The chosen quality is one of the tried ones: a positive multiple of
      5 no higher than the start. */
  lemma {:induction false} ChosenQualityTried(encode: int -> seq<Byte>, limit: nat, q: int)
    requires 0 < q && q % 5 == 0
    ensures var c := ChosenQuality(encode, limit, q);
      0 < c <= q && c % 5 == 0
  {
    if !(|encode(q)| <= limit || q - 5 <= 0) {
      ChosenQualityTried(encode, limit, q - 5);
    }
  }

  /** The search stops at the best fit: the chosen encoding fits unless
      the lowest quality was reached, and every higher quality tried was
      too large. */
  lemma {:induction false} ChosenQualityIsFirstFit(encode: int -> seq<Byte>, limit: nat, q: int)
    requires 0 < q && q % 5 == 0
    ensures var c := ChosenQuality(encode, limit, q);
      && (|encode(c)| <= limit || c == 5)
      && forall k :: c < k <= q && k % 5 == 0 ==> limit < |encode(k)|
  {
    if !(|encode(q)| <= limit || q - 5 <= 0) {
      ChosenQualityIsFirstFit(encode, limit, q - 5);
    }
  }

  // ---------------------------------------------------------------------
  // The normalised cross marker

  /** Where drawCrossNormalized draws: the centre in pixels and the arm
      size. */
  datatype Marker = Marker(x: real, y: real, size: int)

  function MinInt(a: int, b: int): int { if a <= b then a else b }

  /** std::clamp on ints. */
  function ClampInt(x: int, lo: int, hi: int): int {
    if x < lo then lo else if hi < x then hi else x
  }

  /** One coordinate of the centre: the normalised value clamped into
      [0, 1] and scaled to a side of n pixels. */
  function ToPixels(t: real, n: real): (p: real)
    requires 0.0 <= n
    ensures 0.0 <= p <= n
    ensures 0.0 <= t <= 1.0 ==> p == t * n
  {
    var u := ClampReal(t, 0.0, 1.0);
    ClampRealProperties(t, 0.0, 1.0);
    assert n - u * n == (1.0 - u) * n;
    u * n
  }

  /** App::drawCrossNormalized: the normalised centre is clamped into
      [0, 1]² and scaled to pixels, and the size into [1, min(cols, rows)].
      std::clamp needs its lower bound not above its upper one, so the
      image must have at least one row and one column. */
  function PlaceMarker(cx: real, cy: real, size: int, cols: int, rows: int): (r: Marker)
    requires 1 <= cols && 1 <= rows
    ensures 0.0 <= r.x <= cols as real && 0.0 <= r.y <= rows as real
    ensures 1 <= r.size <= MinInt(cols, rows)
    ensures 1 <= size <= MinInt(cols, rows) ==> r.size == size
    ensures 0.0 <= cx <= 1.0 ==> r.x == cx * cols as real
    ensures 0.0 <= cy <= 1.0 ==> r.y == cy * rows as real
  {
    Marker(ToPixels(cx, cols as real), ToPixels(cy, rows as real), ClampInt(size, 1, MinInt(cols, rows)))
  }
}
