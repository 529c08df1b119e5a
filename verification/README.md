# A verified model of the ICP scene viewer's simulation core

This project models, in Dafny, the sequential simulation logic of a small
OpenGL scene viewer written in C++. It covers:

- the box and sphere colliders and the collision registry;
- the scene entity with its waypoint steering and angle interpolation;
- semi-implicit Euler motion and the player controller (terrain clamp,
  push-out from boxes and spheres, landing, ground friction);
- short-lived particles and the particle spawner;
- the procedural meshes of the asset factory (grid, cube, sphere, fractal
  noise terrain) and the OBJ flattening of the model loader;
- the fly-through camera;
- the per-frame bookkeeping of the application: the submarine's waypoint
  cycle, particle pruning, the opaque/transparent split and depth sort, the
  keyboard rule, the JPEG quality search and the clamps of the cross marker.

All arithmetic is over `real`. Square roots, sine, cosine, `atan2` and
Perlin noise are fields of a `Glm.Math` record passed to every operation
that needs them, so the model treats them as uninterpreted. The few facts
the code relies on are stated as hypotheses:

- `Glm.Sound`: lengths are non-negative, zero only for the zero vector, and
  scale with `|c|`;
- `Glm.Pythagorean`: sin² + cos² = 1;
- `Glm.NoiseBounded`: noise lies in [-1, 1].

Objects whose fields the C++ updates in place are classes:

- `Collider`, `CollisionManager`;
- `Entity`, `PhysicsEntity`, `Player`;
- `Particle`, `ParticleSystem`;
- `Model`, `Camera`;
- `Terrain`, which holds the static terrain parameters of the asset factory.

Their methods state the whole new state. Loops in the source are `while`
loops with invariants, each proved against a specification function. The
properties are lemmas about those functions.

Files, one module each:

- `glm.dfy`: vectors, clamps, `Math`.
- `arith.dfy`: integer helper lemmas.
- `colliders.dfy`, `collisions.dfy`.
- `entities.dfy`, `physics.dfy`, `particles.dfy`.
- `meshes.dfy`: vertices, meshes, `Model`, OBJ flattening.
- `assets.dfy`, `camera.dfy`, `app.dfy`.

Where the code and its documentation disagree, the model follows the code:

- `createSphere` is declared in Assets.h with a colour argument, and
  ParticleSystem.h passes one. The definition in Assets.cpp takes no colour
  and leaves the default material, so particle and player spheres get the
  default material here.
- `createCube` builds a coloured model but returns a fresh, uncoloured one.
  See Findings.
- App.cpp reads `entity->transparent`, which the Entity.h shown does not
  declare. The model adds the flag to `Entity`; it starts `false`.
- Model.h stores the OBJ shininess in the mesh. The model keeps it as the
  mesh field `shininess`.

## Model

| member | source | states |
|---|---|---|
| Colliders.Synced | BoxCollider.cpp:21-24 | a re-synced shape keeps its kind and is centred on the entity position |
| Colliders.Collider.constructor | BoxCollider.h:16-17 | a collider holds exactly the given box or sphere |
| Colliders.Collider.Update | BoxCollider.cpp:21-24 | a box becomes (position, scale/2); a sphere becomes (position, scale.x); nothing else changes |
| Colliders.BoxBoxOverlap | BoxCollider.cpp:7-9 | box against box holds iff on every axis the centre gap is at most the sum of the half-extents |
| Colliders.BoxBoxTouchingHits | BoxCollider.cpp:7-9 | boxes whose faces just touch intersect (closed test) |
| Colliders.BoxBoxSymmetric | BoxCollider.cpp:7-9 | box against box is symmetric |
| Colliders.ClosestPointInBox | BoxCollider.cpp:14 | the clamped point lies in the box, and is the point itself when that is inside |
| Colliders.ClosestOfInsideIsSelf | BoxCollider.cpp:14 | clamping a point inside the box returns it unchanged |
| Colliders.HitWhenClosestIsCentre | BoxCollider.cpp:14-16 | when the clamp returns the sphere centre, the squared distance is below r² for r > 0 |
| Colliders.BoxSphereTouchingMisses | BoxCollider.cpp:15-16 | a sphere at squared distance exactly r² from the box misses (strict test) |
| Colliders.SphereCentreInBoxHits | BoxCollider.cpp:13-16 | a sphere of positive radius centred inside a box hits it, from either side |
| Colliders.SphereBoxAgreesWithBoxSphere | SphereCollider.cpp:10-15 | the sphere-side test against a box equals the box-side test against that sphere |
| Colliders.ZeroRadiusSphereMissesBox | SphereCollider.cpp:12-14 | a sphere of radius 0 never hits a box, from either side |
| Colliders.SphereSphereSymmetric | SphereCollider.cpp:5-9 | sphere against sphere is symmetric |
| Colliders.ShapesIntersectSymmetric | BoxCollider.cpp:4-19 | `intersects`, dispatched on both variants, is symmetric for every pair of shapes |
| Colliders.SphereSyncIgnoresScaleYZ | SphereCollider.cpp:19-22 | re-syncing a sphere depends on scale.x only |
| Colliders.BoxSyncSpansScale | BoxCollider.cpp:21-24 | a re-synced box's maximum corner minus its minimum corner is exactly the entity scale |
| Collisions.CollisionManager.constructor | CollisionManager.h:8 | the registry starts empty |
| Collisions.CollisionManager.AddCollider | CollisionManager.h:10-12 | the registry becomes the old one plus the collider at the end |
| Collisions.CollisionManager.RemoveCollider | CollisionManager.h:14-16 | the registry becomes the old one with every occurrence of the collider erased |
| Collisions.CollisionManager.CheckCollisions | CollisionManager.h:18-26 | the result is the colliders other than the probe that the probe intersects, in registry order; the registry is unchanged |
| Collisions.HitsMultiplicity | CollisionManager.h:19-25 | each hit appears as often as it is registered, and the probe never appears |
| Collisions.HitsMembership | CollisionManager.h:21 | c is reported iff it is registered, is not the probe and is intersected; the probe is never reported |
| Collisions.HitsAppend | CollisionManager.h:19-25 | the hits of a concatenated registry are the concatenated hits, so registry order is kept |
| Collisions.WithoutMultiplicity | CollisionManager.h:14-16 | after removal the collider occurs 0 times; every other collider keeps its count |
| Collisions.WithoutAppend | CollisionManager.h:14-16 | removal distributes over concatenation, so the survivors keep their relative order |
| Collisions.WithoutAbsent | CollisionManager.h:15 | removing an unregistered collider changes nothing |
| Collisions.AddThenRemove | CollisionManager.h:10-16 | adding a collider that was not registered and then removing it restores the registry |
| Entities.WrapUp | Entity.h:84 | the first loop ends at or above -180; it is the identity from -180 up and ends below 180 when it ran |
| Entities.WrapDown | Entity.h:85 | the second loop ends at or below 180; it is the identity up to 180 and ends above -180 when it ran |
| Entities.WrapDegrees | Entity.h:83-85 | after both loops the difference lies in [-180, 180] |
| Entities.WrapUpTurns | Entity.h:84 | the first loop adds a whole number of turns |
| Entities.WrapDownTurns | Entity.h:85 | the second loop subtracts a whole number of turns |
| Entities.WrapDegreesWholeTurns | Entity.h:83-85 | wrapping changes the difference by whole turns only, and at most one of the loops runs |
| Entities.WrapDegreesIdentity | Entity.h:83-85 | a difference already in [-180, 180] is unchanged |
| Entities.LerpAngle | Entity.h:82-87 | the result is current + wrapped(target - current)·t |
| Entities.LerpFullReachesTarget | Entity.h:82-87 | with t = 1 the result is the target up to whole turns |
| Entities.Entity.constructor | Entity.h:20-21 | model, collider, position and scale as given; orientation zero |
| Entities.Entity.Update | Entity.h:31-40 | a box or sphere collider is re-synced from (position, scale); without a collider nothing changes |
| Entities.Entity.MoveTowards | Entity.h:42-60 | reports arrival iff within 0.1, then unmoved; otherwise it steps towards the target and only orientation.y turns, by a tenth of the wrapped yaw difference |
| Entities.Entity.MoveInCircle | Entity.h:62-70 | all three position coordinates are set from the angle; only orientation.y changes |
| Entities.Entity.Draw | Entity.h:72-78 | the model, if any, is placed at the entity's position and orientation; its meshes are unchanged |
| Entities.CircleStaysOnCircle | Entity.h:62-66 | the circling entity stays at horizontal distance \|radius\| from the centre, and within 2 above or below its height |
| Entities.StepLength | Entity.h:48-49 | a step that does not arrive covers exactly speed·dt |
| Entities.StepApproaches | Entity.h:48-49 | a step no longer than the distance leaves exactly distance - speed·dt to go |
| Entities.StepOffset | Entity.h:48-49 | the remaining offset after a step is the old offset scaled by 1 - speed·dt/distance |
| Physics.PhysicsEntity.constructor | PhysicsEntity.h:12 | position, velocity and acceleration zero; gravity off |
| Physics.PhysicsEntity.Update | PhysicsEntity.h:16-25 | with gravity only acceleration.y becomes -9.81, without it acceleration is zero; then v += a·dt and p += v·dt; the gravity flag is kept |
| Physics.IntegrateClosedForm | PhysicsEntity.h:23-24 | a step moves the position by v·dt + a·dt² and the velocity by a·dt |
| Physics.PlayerSphere | Player.h:32 | the player's own model is a fresh one-mesh sphere |
| Physics.ResolveCollisions | Player.h:61-99 | the collision phase applies the response of each reported shape in report order |
| Physics.Player.constructor | Player.h:24-36 | the player stands on the terrain below the start point (y = ground + height/2), at rest and grounded; without a model it gets its own sphere and a registered sphere collider of radius 2·radius |
| Physics.Player.HeadPosition | Player.h:44-46 | the head is radius above the body's centre, at the same x and z |
| Physics.Player.Update | Player.h:48-113 | integrate, clamp to the terrain, resolve each reported collider in turn, apply friction, re-sync the collider with (position, 2·radius); radius, height, movement acceleration, jump velocity and the gravity flag are kept |
| Physics.Player.Settle | Player.h:51-108 | the new motion is friction of the collision responses applied to the terrain-clamped motion; acceleration, the gravity flag and the player's tuning fields are kept |
| Physics.TerrainClampGrounds | Player.h:51-59 | afterwards the bottom is never below the terrain; grounded iff it was at or below it, and then it sits on it with zero vertical velocity |
| Physics.ResolveSphereTouches | Player.h:88-97 | an overlap with a usable offset ends at exact contact (centres radius + r apart), velocity kept |
| Physics.ResolveSphereApart | Player.h:92 | a sphere that is not overlapped changes nothing |
| Physics.ResolveBoxTouches | Player.h:63-76 | an overlap with a usable offset ends with the centre exactly radius from the nearest point of the box |
| Physics.ResolveBoxDegeneratePushesUp | Player.h:74 | with the centre within 0.001 of the box the push is straight up by the penetration depth |
| Physics.ResolveBoxLanding | Player.h:78-86 | a box grounds an airborne player only if it was not moving up, and then vy = 0 and its bottom is within 0.1 of the box top |
| Physics.ResolveAllKeeps | Player.h:61-99 | collision response never changes the horizontal velocity and never un-grounds the player |
| Physics.FrictionSlows | Player.h:102-108 | for dt ≤ 0.2, friction never speeds up horizontal motion; it keeps vy and the position, and does nothing in the air |
| Particles.Fade | ParticleEntity.h:23 | the alpha lies in [0, 1], and for a positive life span it is 0 once the lifetime has run out |
| Particles.Particle.constructor | ParticleEntity.h:14-15 | lifeSpan equals the lifetime; no collider; given model, position, velocity and scale |
| Particles.Particle.Update | ParticleEntity.h:17-29 | the new state of the particle, its entity, its model and its collider is `Aged` of the old one, field by field as AgedEffect states |
| Particles.AgedEffect | ParticleEntity.h:17-29 | the lifetime always drops by dt; only a particle still alive moves by velocity·dt and fades its model's meshes to Fade(lifetime, lifeSpan); the collider follows the entity; life span, velocity, orientation, scale, transparency and the model's placement never change |
| Particles.AgedFades | ParticleEntity.h:18-26 | for a positive life span and dt ≥ 0, an update never raises the alpha the remaining lifetime gives |
| Particles.FadeMonotone | ParticleEntity.h:23 | less remaining lifetime never gives a higher alpha |
| Particles.FadeFull | ParticleEntity.h:23 | with at least the whole life span left the alpha is 1 |
| Particles.SpawnSpeed | ParticleSystem.h:13 | for draws in [0, 1] the speed lies in [2, 5] |
| Particles.RawDirection | ParticleSystem.h:14-17 | for draws in [0, 1] each raw direction component lies in [-1, 1] |
| Particles.SpawnLifetime | ParticleSystem.h:26 | for draws in [0, 1] the lifetime lies in [1, 2] |
| Particles.ParticleMeshShape | ParticleSystem.h:11 | a particle's sphere is a triangle list of 11·11 vertices and 6·10·9 indices, all in bounds |
| Particles.ParticleSystem.constructor | ParticleSystem.h:7 | the particle list starts empty |
| Particles.ParticleSystem.SpawnParticles | ParticleSystem.h:9-31 | appends exactly max(count, 0) new particles made from the draws; existing ones stay in place and order; no two particles share the particle, its entity, its model or its collider |
| Particles.SpawnOne | ParticleSystem.h:11-29 | a fresh particle at the impact point with scale 0.2, the drawn velocity and lifetime, and a particle-sphere model |
| Particles.ParticleModel | ParticleSystem.h:11 | a fresh model holding the radius-0.1, 10×10 sphere |
| Particles.DrawVelocity | ParticleSystem.h:13-24 | the velocity is the drawn speed along the normalised direction, with straight up when the raw one is shorter than 0.001 |
| Particles.SpawnVelocityLength | ParticleSystem.h:19-24 | every spawned particle flies at exactly its drawn speed |
| Particles.SpawnedStartsVisible | ParticleSystem.h:26-28 | a spawned particle starts alive with alpha 1 |
| Meshes.Iota | Model.h:101 | the index list 0, 1, ..., n-1 |
| Meshes.Complete | Model.h:108 | the corners of complete triangles: a multiple of 3, at most n, fewer than 3 left over |
| Meshes.Normalled | Model.h:108-124 | setting face normals keeps the number of corners |
| Meshes.WithAlpha | Model.h:171-176 | setting alpha keeps the number of meshes |
| Meshes.Model.FromArrays | Model.h:23-34 | exactly one mesh with the given geometry and the default material |
| Meshes.Model.FromObj | Model.h:36-169 | one mesh per OBJ shape, in shape order, each the flattened shape |
| Meshes.Model.SetAlpha | Model.h:171-176 | every mesh gets the new alpha on ambient and diffuse; nothing else changes |
| Meshes.FlattenShape | Model.h:64-167 | the loop body for one shape builds exactly the specified shape mesh |
| Meshes.GatherCorners | Model.h:69-106 | one vertex per face corner, in corner order, and the indices 0..k-1 |
| Meshes.SetFaceNormals | Model.h:108-124 | every complete triangle gets its face normal on its three corners |
| Meshes.LoadModel | Model.h:43-62 | a failed parse throws "Failed to load OBJ file: " + filename; a successful one yields a fresh model whose s-th mesh is the flattened s-th shape |
| Meshes.NormalledKeepsCorner | Model.h:121-123 | setting normals never moves a corner or changes its texture coordinates |
| Meshes.NormalledStep | Model.h:109-123 | one pass of the normal loop sets the face normal on the next three corners |
| Meshes.NormalledDone | Model.h:108 | once the loop guard fails, every complete triangle has been handled |
| Meshes.ShapeMeshIndices | Model.h:100-101 | every emitted index is in bounds, and the index list is exactly 0..k-1 |
| Meshes.ShapeMeshCorner | Model.h:73-93 | the corner's indices are in range; a missing position index gives the origin and a missing texture index (0, 0); a present one supplies all three position coordinates, or both texture coordinates, from the attribute arrays |
| Meshes.ShapeMeshTriangleNormals | Model.h:108-124 | the three corners of each complete triangle share the face normal of their positions |
| Meshes.NormalledTriangle | Model.h:119-123 | after the loop the corners of triangle t carry its face normal |
| Meshes.ShapeMeshTrailingNormals | Model.h:108 | the corners of a trailing incomplete triple keep the zero normal |
| Meshes.MaterialSelection | Model.h:126-145 | when the first material id names a listed material, its diffuse colour (opaque) and shininess are used, and the texture id is 0 without a diffuse texture; otherwise every colour is white, shininess 1 and texture id 0 |
| Meshes.WithAlphaKeepsRest | Model.h:171-176 | only the alpha of ambient and diffuse changes; geometry, specular, RGB, shininess and texture are kept |
| Meshes.WithAlphaLastWins | Model.h:171-176 | setting alpha twice equals setting it once to the second value |
| Cameras.Camera.constructor | Camera.h:30-43 | position, world up, yaw and pitch as given; speed 50, sensitivity 0.1, zoom 45; the basis derived from the angles |
| Cameras.Camera.ProcessKeyboard | Camera.h:53-67 | only the position changes, by one heading (±front, ±right, ±worldUp) times movementSpeed·dt |
| Cameras.Camera.ProcessMouseMovement | Camera.h:72-89 | yaw grows by xoffset·sensitivity unbounded; pitch grows likewise and is clamped to [-89, 89] only when constrained; the basis is recomputed |
| Cameras.Camera.ConstrainPitch | Camera.h:80-85 | pitch is clamped into [-89, 89]; nothing else changes |
| Cameras.Camera.ProcessMouseScroll | Camera.h:93-99 | zoom becomes clamp(zoom - yoffset, 1, 45); nothing else changes |
| Cameras.Camera.UpdateCameraVectors | Camera.h:103-111 | the basis is the one derived from yaw, pitch and world up; nothing else changes |
| Cameras.OppositeKeysCancel | Camera.h:53-67 | a step along a key's heading followed by one along the opposite key's heading returns to the start |
| Cameras.ScrollClamps | Camera.h:93-99 | within range a scroll and its opposite restore the zoom; past a limit the zoom stops exactly at it |
| Cameras.BasisOrthogonal | Camera.h:103-111 | front, right and up are pairwise orthogonal |
| Assets.OctaveBounded | Assets.cpp:14 | with bounded noise, octave i lies within ±persistence^i |
| Assets.AmplitudeAtLeastOne | Assets.cpp:15 | with at least one octave the amplitude sum is at least 1, so the division is defined |
| Assets.FractalPerlin | Assets.cpp:7-21 | the loop computes the octave sum divided by the amplitude sum, which lies in [-1, 1] when the noise does |
| Assets.NoiseTotalBounded | Assets.cpp:13-18 | with bounded noise the partial sum stays within ± the partial amplitude sum |
| Assets.FractalNoiseBounded | Assets.cpp:7-21 | with bounded noise, at least one octave and non-negative persistence, the result lies in [-1, 1] |
| Assets.TerrainVertices | Assets.cpp:122-136 | the terrain has (g+1)² vertices |
| Assets.TerrainIndices | Assets.cpp:138-154 | the terrain has 6g² indices |
| Assets.TerrainMeshVertices | Assets.cpp:156-176 | the final vertex list keeps the (g+1)² vertices |
| Assets.TerrainMesh | Assets.cpp:111-179 | a triangle list of (g+1)² vertices and 6g² indices, every index in bounds |
| Assets.Terrain.constructor | Assets.cpp:3-5 | the statics start at 0 |
| Assets.Terrain.CreateTerrain | Assets.cpp:111-179 | records gridSize, heightScale and frequency for the height query, and returns a fresh model holding the terrain mesh |
| Assets.TerrainGrid | Assets.cpp:122-136 | the vertex loop builds exactly the specified vertex list |
| Assets.FillGrid | Assets.cpp:124-135 | the nested loops write vertex (x, z) at z·(g+1) + x and so fill every slot |
| Assets.TerrainVerticesRowMajor | Assets.cpp:126 | grid point (x, z) is vertex z·(g+1) + x |
| Assets.TerrainGridAt | Assets.cpp:126-134 | index z·(g+1) + x is in range and holds the vertex of (x, z) |
| Assets.TerrainIndexList | Assets.cpp:138-154 | the index loop builds exactly the specified index list |
| Assets.AccumulateNormals | Assets.cpp:156-172 | every vertex's normal becomes the sum of the face normals of the triangles using it |
| Assets.NormalizeNormals | Assets.cpp:174-176 | every normal is normalised; nothing else changes |
| Assets.TerrainIndicesInBounds | Assets.cpp:139-154 | every terrain index is below (g+1)² |
| Assets.TerrainIndexAt | Assets.cpp:141-152 | index 6·(z·g + x) + j is corner j of cell (x, z) |
| Assets.TerrainCellTriangles | Assets.cpp:141-152 | cell (x, z) emits (tl, bl, tr) then (tr, bl, br) |
| Assets.TerrainIndicesStep | Assets.cpp:139-153 | appending a cell's six indices extends the index list in row-major order |
| Assets.TerrainCounts | Assets.cpp:122-154 | (g+1)² vertices and 6g² indices |
| Assets.TerrainVertexAt | Assets.cpp:126-132 | after normal smoothing, vertex z·(g+1) + x still has the position the grid loop gave point (x, z) |
| Assets.HeightAtVertex | Assets.cpp:186-188 | the height query at a vertex's world (x, z) returns that vertex's height |
| Assets.NoiseHeightBounded | Assets.cpp:131 | with bounded noise every sampled height lies within ±heightScale |
| Assets.Terrain.HeightAt | Assets.cpp:181-189 | the height query shifts the world position by half the grid size and samples the terrain noise; with bounded noise it lies within ±heightScale (at a grid vertex it is that vertex's height, HeightAtVertex) |
| Assets.TerrainNormalsUnitOrZero | Assets.cpp:174-176 | every final terrain normal is a unit vector or zero |
| Assets.FinalNormalUnitOrZero | Assets.cpp:169-175 | for any mesh, an accumulated and normalised normal is a unit vector or zero |
| Assets.GridVertices | Assets.cpp:27-49 | the grid has 4·(2g+1) vertices |
| Assets.CreateGrid | Assets.cpp:23-56 | a fresh line model over the grid vertices whose i-th index is i |
| Assets.IndexSequence | Assets.cpp:51-53 | the resized index vector holds 0..n-1 |
| Assets.GridCount | Assets.cpp:27-49 | 2g+1 lines in each direction, two vertices per line |
| Assets.GridSegments | Assets.cpp:27-49 | for every c in [-g, g], the grid has the segment z = c and the segment x = c, from -g to g |
| Assets.CubeVertices | Assets.cpp:60-91 | the cube has 24 vertices |
| Assets.CreateCubeAsWritten | Assets.cpp:58-109 | the returned model is the uncoloured cube mesh |
| Assets.CreateCube | Assets.cpp:102-106 | the returned model is the cube mesh with ambient and diffuse set to the opaque colour and grey specular |
| Assets.CubeAsWrittenIgnoresColour | Assets.cpp:102-108 | as written, a red and a blue cube are identical and neither is red |
| Assets.CubeMeshTakesColour | Assets.cpp:104-105 | corrected, the cube carries its colour, geometry does not depend on it, and different colours give different meshes |
| Assets.CubeFaces | Assets.cpp:93-100 | 36 indices, all below 24, each triangle within one face's four vertices |
| Assets.CubeVerticesOnFaces | Assets.cpp:60-91 | each vertex lies on the face its normal names, at distance size/2 along the normal |
| Assets.CubeEdgesFrontBack | Assets.cpp:94-95 | the edge vectors of the front and back triangles |
| Assets.CubeEdgesLeftRight | Assets.cpp:96-97 | the edge vectors of the left and right triangles |
| Assets.CubeEdgesTopBottom | Assets.cpp:98-99 | the edge vectors of the top and bottom triangles |
| Assets.CubeNormalsAt | Assets.cpp:62-99 | the normal at the first corner of each triangle is its face's outward normal |
| Assets.CubeWindingOutward | Assets.cpp:60-100 | every triangle is wound counter-clockwise seen from outside: its edge cross product is size² times the stored normal |
| Assets.SphereVertices | Assets.cpp:231-248 | the sphere has (stacks+1)·(sectors+1) vertices |
| Assets.SphereMesh | Assets.cpp:227-270 | a triangle list of (stacks+1)·(sectors+1) vertices and 6·sectors·(stacks-1) indices, every index in bounds |
| Assets.CreateSphere | Assets.cpp:227-270 | a fresh model holding the sphere mesh |
| Assets.SphereVertexList | Assets.cpp:231-248 | the vertex loops build exactly the specified vertex list |
| Assets.SphereVertexAt | Assets.cpp:231-246 | grid position (i, j) is vertex i·(sectors+1) + j |
| Assets.SphereIndexList | Assets.cpp:250-267 | the index loops build exactly the specified index list |
| Assets.SphereStackIndices | Assets.cpp:251-266 | the sector loop of stack i appends that stack's quads, with k1 and k2 advancing together |
| Assets.PushQuad | Assets.cpp:255-265 | the upper triangle is appended except on the first stack, the lower one except on the last |
| Assets.SphereCellInBounds | Assets.cpp:255-265 | every index of quad (i, j) names a vertex |
| Assets.SphereRowInBounds | Assets.cpp:254-266 | every index of the first j quads of stack i names a vertex |
| Assets.SphereStacksInBounds | Assets.cpp:250-267 | every index of the first i stacks names a vertex |
| Assets.SphereIndicesInBounds | Assets.cpp:250-267 | every sphere index is below (stacks+1)·(sectors+1) |
| Assets.SphereRowCount | Assets.cpp:254-266 | the first j quads of stack i contribute j times that stack's quad size |
| Assets.SphereStacksCount | Assets.cpp:250-267 | the first i stacks hold 3·sectors indices per triangle they place in each sector |
| Assets.SphereIndexCount | Assets.cpp:250-267 | the sphere has 6·sectors·(stacks-1) indices |
| Assets.SphereTexCoords | Assets.cpp:245 | texture coordinates lie in the unit square, (0, 0) at the first vertex and (1, 1) at the last |
| Assets.SphereNormals | Assets.cpp:243 | every normal has unit length where the position is non-zero, and is zero at the origin |
| App.Advance | App.cpp:316-332 | the corner stays in 0..3 and changes only on arrival |
| App.FollowWaypoints | App.cpp:316-332 | the submarine moves towards the current corner at speed 25 and turns a tenth of the way to face it; the state advances iff it reports arrival, and then the submarine stays put; scale and transparency are kept; an out-of-range state changes nothing |
| App.AdvanceCycles | App.cpp:316-332 | four arrivals return to the start, visiting each of the four corners once |
| App.WaypointsFormSquare | App.cpp:317-329 | consecutive corners are 100 apart along exactly one horizontal axis, at height 20 |
| App.SelectMembership | App.cpp:351-360 | x is kept iff it sits at a flagged position |
| App.SelectSplits | App.cpp:404-409 | the flagged and unflagged selections together are a permutation of the whole |
| App.SelectDistinct | App.cpp:351-360 | selecting from a list whose particles share nothing gives such a list |
| App.Alive | App.cpp:354 | one flag per particle: its lifetime is positive |
| App.PruneParticles | App.cpp:351-360 | every particle of the old list gets exactly the effect of one update (`Aged`); the list becomes the survivors in order, all with positive lifetime and still sharing nothing |
| App.UpdateAndKeep | App.cpp:351-360 | the loop gives each particle exactly the effect of one update and collects, in order, those alive afterwards |
| App.Tick | App.cpp:352-354 | one particle gets the effect of one update, and it is kept iff its lifetime is still positive |
| App.Transparency | App.cpp:405 | one flag per entity: whether it is transparent |
| App.PartitionEntities | App.cpp:404-409 | every entity lands in exactly one list, transparent or opaque, in scene order |
| App.SortFarthestFirst | App.cpp:419-425 | the result is a permutation of the input ordered by non-increasing squared distance to the eye |
| App.DrawOrder | App.cpp:404-434 | the opaque list in scene order, then the transparent ones farthest first; together a permutation of the scene |
| App.ProcessInput | App.cpp:459-515 | a detached camera flies along the key direction; an attached player gets the horizontal acceleration and the ground-only jump, and the camera follows its head; a detached camera leaves the player untouched; the camera's basis, angles, zoom, speed and sensitivity and the player's position, acceleration and tuning fields are kept |
| App.SteerPlayer | App.cpp:493-513 | acceleration with y = 0 for dt; a jump only from the ground, setting vy to the jump velocity and clearing grounded; the chase camera; everything else of the camera and the player is kept |
| App.KeyDirection | App.cpp:460-481 | the summed key directions (Space/C only when detached), normalised when non-zero |
| App.InputDirectionUnitOrZero | App.cpp:479-481 | the movement direction has unit length or is zero |
| App.FlightDistance | App.cpp:490 | a detached camera moves exactly \|movementSpeed·dt·multiplier\| per frame |
| App.JumpOnlyFromGround | App.cpp:494-503 | vy changes only by a jump from the ground, which sets exactly the jump velocity; vx and vz grow by the scaled direction·dt |
| App.VerticalKeysOnlyWhenDetached | App.cpp:472-477 | without Space or C the detached and attached directions coincide |
| App.LossyLimitBW | App.cpp:682-713 | fails without a JPEG writer; otherwise returns the encoding at the chosen quality |
| App.ChosenQualityTried | App.cpp:698-709 | the chosen quality is a positive multiple of 5 no higher than 100 |
| App.ChosenQualityIsFirstFit | App.cpp:698-709 | the chosen encoding fits unless quality 5 was reached, and every higher tried quality was too large |
| App.ToPixels | App.cpp:833-837 | the pixel coordinate lies in [0, n], and is t·n for t in [0, 1] |
| App.PlaceMarker | App.cpp:832-840 | the centre is clamped into the image and the size into [1, min(cols, rows)], unchanged when already inside |

## Left out

- Floating point: rounding, NaN, infinities and the mix of `float` and
  `double` are not modelled; all arithmetic is over the reals.
- Library maths: `sqrt`, `sin`, `cos`, `atan2` and `glm::perlin` are
  uninterpreted fields of `Glm.Math`. `glm::normalize` of the zero vector,
  NaN in C++, returns the zero vector here.
- Randomness: the `rand()/RAND_MAX` draws of `spawnParticles` are inputs
  (`Particles.Draws`).
- Other collider variants: the `return false` for a collider that is
  neither a box nor a sphere (BoxCollider.cpp:18, SphereCollider.cpp:16) is
  unreachable. Colliders are a closed sum of the two shapes.
- Object lifetime: destructors (`~Entity`, `~Player`, which deregisters its
  collider) and the `delete` of pruned particles are not modelled.
- Rendering: GL calls, shaders, `Model::draw`, `Mesh` upload, texture
  loading, view and projection matrices. Texture loading becomes a function
  from texture name to texture id.
- App.cpp frame: only the named bookkeeping is modelled. The light orbit,
  the generic entity update loops, the ImGui sliders that set the cubes'
  alpha and the FPS counter are left out.
- Concurrency: the capture and detection threads, the frame queues and the
  `redDetected` atomic. The red flag is an input of `App.ProcessInput`.
- OpenCV: `cv::imencode` is a function parameter of `App.LossyLimitBW`, and
  the writer check is a boolean. The console output of the quality loop and
  the final `drawCross` call of `drawCrossNormalized` are left out.
- Assets.FractalPerlin: requires at least one octave and a non-negative
  persistence. With no octaves the source divides 0 by 0 (NaN). A negative
  persistence can make the amplitude sum zero. Neither is representable
  over the reals.
- Assets.Terrain.CreateTerrain: requires a grid size of at least 1, because
  the texture coordinates divide by it.
- Assets.CreateSphere: requires at least one sector and one stack, because
  the angles and texture coordinates divide by them.
- App.PlaceMarker: requires an image with at least one row and one column,
  the precondition of `std::clamp` on the size.
- App.PruneParticles: requires that no two particles share their entity,
  model or collider. The spawner gives every particle fresh ones, and
  `SpawnParticles` keeps the requirement. With shared objects the C++ would
  move or fade a shared entity or model once per particle.
- Physics.Player.Update: requires a collider, or an empty registry, because
  `checkCollisions` dereferences a null probe as soon as anything is
  registered.
- Physics.PlayerSphere: states only that the model is fresh and has one
  mesh, not which sphere it holds.
- Sphere colour: the colour argument that Assets.h and ParticleSystem.h
  pass to `createSphere` does not exist in Assets.cpp, so spheres keep the
  default material.

## Findings

| source | as written | input that shows it | evidently intended | confidence | as-written member | corrected member |
|---|---|---|---|---|---|---|
| Assets.cpp:102-108 | `createCube` colours `m.meshes[0]`, then returns a newly constructed `Model` without the colours | any colour, e.g. red (1, 0, 0) and blue (0, 0, 1): both calls return the same uncoloured cube | return the coloured model `m`, so that ambient and diffuse carry the colour and specular is grey | not executed | Assets.CubeAsWrittenIgnoresColour | Assets.CubeMeshTakesColour |
