# Flight-sim core in Dafny

A model of the per-aircraft simulation of OpenGL-Flight-Sim, with proofs about it:

- **State.** The plane state record and the camera's mouse bookkeeping.
- **Keyboard and mouse.** Pitch, roll, throttle and heading wrap, plus mouse-look offsets.
- **Flight integration.** Yaw from bank, and forward motion.
- **Speed booster.** Fuel drain, recharge, the exhaustion latch, and the exponential speed ramp.
- **Ground collision.** A ring of terrain samples, and the crash response.
- **Bullets.** Firing, advancing and expiring bullets.
- **Boost trail.** Per-plane particle lists, a 32-bit linear congruential generator, emission accumulation and fading.
- **Terrain.** Value noise, the five-octave heightmap, bilinear height queries, and the mesh vertex and index arrays.

Floats are modelled as `real`. sin, cos, exp and sqrt are the fields of a `Numerics.Math` record passed as a parameter. `Numerics.ValidMath` states the facts the code relies on:
- sin² + cos² = 1, and the values at 0;
- exp lies in (0, 1] on non-positive arguments;
- sqrt is non-negative, its order facts around 0 and 1, and sqrt 1 = 1.

How each kind of source entity is modelled:
- **Structs passed by reference.** `PlaneState` and `CameraRig` are datatypes. Each system's update takes the old value and returns the new one.
- **Objects whose fields are updated in place.** `TerrainPlane`, `CollisionSystem`, `ShootingSystem` and `BoostTrailRenderer` are classes.
  - `std::vector` fields are `seq` fields.
  - The renderer's three `std::array<…, 2>` members are Dafny arrays of length 2.
- **Loops.** Each loop in the source is a method with a `while`/`for` loop. Its contract ties it to a reference function, and lemmas prove that function's properties.

## Model

| member | source | states |
|---|---|---|
| Core.DefaultPlaneState | src/plane/core/PlaneState.h:8-43 | A fresh plane has a full 3 s tank and base speed 25, and is alive at 100 health. The health invariant and positive booster tuning hold, and the speed multiplier is at least 1. |
| PlaneController.WrapDegreesRange | src/plane/entities/PlaneController.cpp:39-43 | The reference heading wrap always lands in [0, 360). |
| PlaneController.WrapDegreesUnique | src/plane/entities/PlaneController.cpp:39-43 | Any value in [0, 360) that differs from the heading by whole turns is the wrapped heading. |
| PlaneController.WrapDegreesIdempotent | src/plane/entities/PlaneController.cpp:39-43 | A heading already in [0, 360) is left unchanged. |
| PlaneController.NormalizeYaw | src/plane/entities/PlaneController.cpp:39-43 | The two correcting loops terminate with the heading in [0, 360), equal to the input modulo 360. |
| PlaneController.CalculateForwardVector | src/plane/entities/PlaneController.cpp:25-37 | The forward vector has unit length, has the stated sin/cos components, and is horizontal at zero pitch. |
| PlaneController.RawForwardIsUnit | src/plane/entities/PlaneController.cpp:30-36 | The un-normalised heading vector already has length 1, so normalising it changes nothing. |
| PlaneController.UpdateFlightDynamics | src/plane/entities/PlaneController.cpp:15-23 | Yaw turns by roll·0.5·dt and is rewrapped into [0, 360). Position moves by speed·dt along a unit vector, and altitude holds at zero pitch. Nothing else changes. |
| InputHandler.KeyDelta | src/plane/input/InputHandler.cpp:19-27 | Opposite keys held together cancel. A single key moves the value by ±step. |
| InputHandler.HoldKeys | src/plane/input/InputHandler.cpp:19-22 | The two key tests add the net key delta to the value. |
| InputHandler.CapAboveThenBelow | src/plane/input/InputHandler.cpp:29-30 | The upper-then-lower tests clamp the value into [lo, hi]. |
| InputHandler.CapBelowThenAbove | src/plane/input/InputHandler.cpp:43-44 | The lower-then-upper tests clamp the value into [lo, hi]. |
| InputHandler.ProcessInput | src/plane/input/InputHandler.cpp:11-45 | Escape requests closing. Pitch is clamped to ±89, roll to ±45 and speed to [1, 50], each after its key delta. Yaw is only rewrapped. Opposite keys cancel, and no other field changes. |
| InputHandler.OnMouseMove | src/plane/input/InputHandler.cpp:47-67 | The first event reports zero offsets. Later events report the motion since the previous event, with y inverted. The cursor is always recorded and the first-event flag cleared. |
| BoosterSystem.ExponentialApproach | src/plane/features/movement/BoosterSystem.cpp:12-18 | The result lies between current and target, never overshooting. It is unchanged for dt ≤ 0 and strictly between the two for dt > 0. |
| BoosterSystem.LagFraction | src/plane/features/movement/BoosterSystem.cpp:14-16 | The fraction 1 − exp(−dt/τ), with dt clamped to at least 0 and τ to at least 0.001, lies in [0, 1). It is 0 when dt ≤ 0 and positive when dt > 0. |
| BoosterSystem.MoveByFraction | src/plane/features/movement/BoosterSystem.cpp:16-17 | Moving by a fraction in [0, 1) of the gap stays within the gap, and strictly inside it for a positive fraction. |
| BoosterSystem.DrainFuel | src/plane/features/movement/BoosterSystem.cpp:38-49 | While boosting, dt is burnt from the tank. If the tank reaches zero, boosting stops and the exhaustion latch is set. |
| BoosterSystem.RechargeFuel | src/plane/features/movement/BoosterSystem.cpp:50-65 | Fuel refills at max/recharge per second up to the capacity. The latch stays set exactly while it was set and the tank is not full. |
| BoosterSystem.UpdateFuel | src/plane/features/movement/BoosterSystem.cpp:30-65 | Fuel stays in [0, max]. The boost branch drains and latches; the other branch recharges and releases. Only the three runtime fields change. |
| BoosterSystem.Update | src/plane/features/movement/BoosterSystem.cpp:21-75 | A dead plane stops boosting and snaps to base speed. Boosting needs the button, an unlatched booster and fuel. The latch blocks boosting until the tank is full. Speed approaches the target speed without overshooting. |
| Physics.GroundHeightAt | src/plane/physics/CollisionSystem.cpp:81-85 | The water surface is flat at height 0. |
| Physics.IslandHeight | src/plane/physics/CollisionSystem.cpp:115-121 | With the zero height extent, an island's dome is flat at the island's own y. |
| Physics.IslandFoldIsMax | src/plane/physics/CollisionSystem.cpp:100-124 | The island loop's result is at least the water level and every covering island's height, and it equals one of them. |
| Physics.ResolveGroundContact | src/plane/physics/CollisionSystem.cpp:51-78 | A hit happens exactly when the plane is below the terrain height. On a hit the plane is lifted onto it and loses 0.1 health, dying at 0. Pitch is capped at 90 and speed drops 5%. Health never rises, the health invariant is kept, and otherwise nothing changes. |
| Physics.CollisionSystem.constructor | src/plane/physics/CollisionSystem.h:28-32 | The default collider has radius 5 at the origin, with no islands and no terrain. |
| Physics.CollisionSystem.Initialize | src/plane/physics/CollisionSystem.cpp:12-21 | Stores the islands and the terrain, and shrinks the collider radius to 3. The terrain must already be generated when it is attached, and the system is then valid. |
| Physics.CollisionSystem.TerrainHeightAbove | src/plane/physics/CollisionSystem.cpp:87-125 | The terrain height is never below the water, equals max(water, heightmap) when a terrain is attached, and otherwise is at least every covering island's height. |
| Physics.CollisionSystem.GetTerrainHeightAt | src/plane/physics/CollisionSystem.cpp:87-125 | The height query, including its island loop, computes the reference terrain height, which is at least the water level. |
| Physics.CollisionSystem.RingMaxIsUpperBound | src/plane/physics/CollisionSystem.cpp:127-148 | The ring maximum is at least the terrain at the centre, at each sampled point of the circle, and at the water. |
| Physics.CollisionSystem.RingMaxIsAttained | src/plane/physics/CollisionSystem.cpp:127-148 | The ring maximum is the terrain height at the centre or at one of the sampled points, so the sampler never over-estimates. |
| Physics.CollisionSystem.SampleRing | src/plane/physics/CollisionSystem.cpp:140-144 | One ring iteration extends the running maximum by the next point of the circle, and never lowers it. |
| Physics.CollisionSystem.GetMaxTerrainHeightAround | src/plane/physics/CollisionSystem.cpp:127-148 | The sampler returns the maximum over the centre and the 8 circle points. It is at least each of them and equal to one of them, and at least the water level. |
| Physics.CollisionSystem.CheckGroundCollision | src/plane/physics/CollisionSystem.cpp:39-79 | Below the probed terrain, the plane is lifted onto it with the crash response, so it is never left below it. Health never rises, the health invariant is kept, and otherwise nothing changes. |
| Physics.CollisionSystem.CheckAndResolveCollisions | src/plane/physics/CollisionSystem.cpp:23-37 | The collider follows the plane. The result reports exactly a ground hit, and the plane ends at or above the probed terrain. A hit costs 0.1 health (dying at 0), caps pitch at 90 and cuts speed by 5%. Only position.y, health, isAlive, pitch and speed can change, and the health invariant is kept. |
| Shooting.Advance | src/plane/features/shooting/ShootingSystem.cpp:57-61 | A bullet moves by velocity·dt and ages by dt. Velocity and radius are kept. |
| Shooting.StepProperties | src/plane/features/shooting/ShootingSystem.cpp:50-71 | After an update every bullet has lifetime left and none is added. Each advanced live bullet survives exactly as often as it occurred, and each expired one is gone. |
| Shooting.StepWithoutExpiry | src/plane/features/shooting/ShootingSystem.cpp:50-71 | When every bullet outlives the frame, the update only advances them, in place and in order. |
| Shooting.StepAppend | src/plane/features/shooting/ShootingSystem.cpp:63-70 | The update treats bullets independently and keeps their order: updating a concatenation gives the concatenation of the updates. |
| Shooting.NewBullet | src/plane/features/shooting/ShootingSystem.cpp:73-93 | A fired bullet starts at the plane and flies along the unit forward vector at speed 80 (squared speed 6400). Its radius is 0.5 and its lifetime 3. |
| Shooting.UnitScaled | src/plane/features/shooting/ShootingSystem.cpp:84-88 | A unit vector scaled by k has squared length k². |
| Shooting.ShootingSystem.constructor | src/plane/features/shooting/ShootingSystem.h:50 | No bullets at start. |
| Shooting.ShootingSystem.FireBullet | src/plane/features/shooting/ShootingSystem.cpp:73-93 | Exactly the plane's new bullet is appended. |
| Shooting.ShootingSystem.Update | src/plane/features/shooting/ShootingSystem.cpp:50-71 | The in-place advance loop followed by the erase gives the reference update of the old list. |
| BoostTrail.LcgNext | src/plane/render/BoostTrailRenderer.cpp:71-72 | The generator step wraps modulo 2³², so the state stays a uint32. |
| BoostTrail.LcgStepsAdd | src/plane/render/BoostTrailRenderer.cpp:69-75 | Taking a + b generator steps equals taking a steps and then b. |
| BoostTrail.LcgPrevUndoesNext | src/plane/render/BoostTrailRenderer.cpp:71-72 | Stepping back with the inverse multiplier 0xFEE058C5 undoes a step. |
| BoostTrail.LcgNextInjective | src/plane/render/BoostTrailRenderer.cpp:71-72 | No two uint32 states share a successor, so the generator permutes the states. |
| BoostTrail.Mantissa | src/plane/render/BoostTrailRenderer.cpp:73 | The shifted and masked bits fit in 24 bits. |
| BoostTrail.UnitSample | src/plane/render/BoostTrailRenderer.cpp:73-74 | Every sample lies in [0, 1). |
| BoostTrail.UnitSampleApproximates | src/plane/render/BoostTrailRenderer.cpp:73-74 | The mask drops nothing, and the sample is state/2³² rounded down to a multiple of 2⁻²⁴. |
| BoostTrail.CalculateForwardVector | src/plane/render/BoostTrailRenderer.cpp:77-93 | The trail's forward vector is the flight model's unit forward vector, and its degenerate-length fallback is never taken. |
| BoostTrail.RightVector | src/plane/render/BoostTrailRenderer.cpp:128-133 | The sideways vector is horizontal, and perpendicular to forward unless the +x fallback is taken. |
| BoostTrail.SurvivorsProperties | src/plane/render/BoostTrailRenderer.cpp:100-112 | Advance-and-erase leaves only particles with time remaining and adds none. Each advanced live particle is kept as often as it occurred. |
| BoostTrail.SurvivorsOfPausedFrame | src/plane/render/BoostTrailRenderer.cpp:100-112 | A zero-length frame erases nothing from a list of living particles. |
| BoostTrail.SpawnParticle | src/plane/render/BoostTrailRenderer.cpp:140-155 | An emitted particle is fresh: lifetime in [0.25, 0.45) with all of it remaining, size in [10, 20), trail colour. It starts within ±0.2 vertically of the spawn point. |
| BoostTrail.SpawnDrawsSix | src/plane/render/BoostTrailRenderer.cpp:141-151 | One particle consumes exactly six generator steps. |
| BoostTrail.EmitParticles | src/plane/render/BoostTrailRenderer.cpp:138-156 | The emission loop creates max(count, 0) fresh particles. |
| BoostTrail.EmissionDraws | src/plane/render/BoostTrailRenderer.cpp:138-156 | The emission loop leaves the generator exactly 6·(particles emitted) steps on. |
| BoostTrail.Accumulate | src/plane/render/BoostTrailRenderer.cpp:122-125 | Emitted count plus carried fraction equals accumulator + 55·dt. For non-negative inputs the count is the floor and the fraction lies in [0, 1). |
| BoostTrail.AccumulateAllIsExact | src/plane/render/BoostTrailRenderer.cpp:122-125 | Over any run of boosting frames nothing is lost: the total emitted is the floor of accumulator + 55·(total time). |
| BoostTrail.TrailUpdateWithoutBoost | src/plane/render/BoostTrailRenderer.cpp:95-163 | A dead or non-boosting plane only loses expired particles and never draws from its generator. The non-boosting living plane also resets its accumulator. |
| BoostTrail.BoostStepAppends | src/plane/render/BoostTrailRenderer.cpp:120-156 | The boost branch keeps the old list in front and appends floor(acc + 55·dt) fresh particles at six generator steps each. The fraction stays in [0, 1). |
| BoostTrail.TrailUpdateWithBoost | src/plane/render/BoostTrailRenderer.cpp:95-157 | A boosting frame keeps the survivors in front and appends floor(acc + 55·dt) fresh particles, at six generator steps each. |
| BoostTrail.TrailUpdateKeepsInvariant | src/plane/render/BoostTrailRenderer.cpp:95-163 | Every frame keeps a uint32 state, an accumulator in [0, 1) and only particles with time remaining. |
| BoostTrail.Alpha | src/plane/render/BoostTrailRenderer.cpp:184-186 | Opacity lies in [0, 1]. |
| BoostTrail.AlphaFade | src/plane/render/BoostTrailRenderer.cpp:184-186 | A particle stays fully opaque for the first 37.5% of its life, then fades linearly as 1.6·(remaining/lifetime). |
| BoostTrail.AlphaMonotone | src/plane/render/BoostTrailRenderer.cpp:184-186 | Opacity never increases as a particle ages. |
| BoostTrail.Take | src/plane/render/BoostTrailRenderer.cpp:179-182 | The buffer holds the first n entries, or all of them when there are fewer. |
| BoostTrail.TakeSaturated | src/plane/render/BoostTrailRenderer.cpp:179-182 | Once the buffer is full, later particles are ignored. |
| BoostTrail.BoostTrailRenderer.constructor | src/plane/render/BoostTrailRenderer.h:37-39 | Both lists start empty, accumulators 0, seeds 0x12345678 and 0x87654321, and the invariant holds. |
| BoostTrail.BoostTrailRenderer.NextFloat01 | src/plane/render/BoostTrailRenderer.cpp:69-75 | Steps only this plane's generator (index mod 2) and returns the new state's sample in [0, 1). |
| BoostTrail.BoostTrailRenderer.AdvanceAndErase | src/plane/render/BoostTrailRenderer.cpp:100-112 | The in-place loop and the erase leave the reference survivors of this plane's list. The other plane's list is untouched. |
| BoostTrail.BoostTrailRenderer.EmitOne | src/plane/render/BoostTrailRenderer.cpp:140-155 | Six draws, with the two jitter draws taken left to right, build exactly the reference spawned particle and leave the generator where the reference leaves it. |
| BoostTrail.BoostTrailRenderer.EmitNext | src/plane/render/BoostTrailRenderer.cpp:138-156 | One iteration extends the list and the generator from the first i emissions to the first i + 1. |
| BoostTrail.BoostTrailRenderer.Emit | src/plane/render/BoostTrailRenderer.cpp:138-156 | The loop appends exactly the reference emission and advances the generator accordingly. The other plane is untouched and the invariant is kept. |
| BoostTrail.BoostTrailRenderer.Boost | src/plane/render/BoostTrailRenderer.cpp:120-156 | The boost branch on the arrays is the reference boost step of this plane. |
| BoostTrail.BoostTrailRenderer.UpdateForPlane | src/plane/render/BoostTrailRenderer.cpp:95-163 | This plane's entries become the reference trail update. The other plane's entries are untouched and the invariant is kept. |
| BoostTrail.BoostTrailRenderer.CollectParticles | src/plane/render/BoostTrailRenderer.cpp:172-194 | The upload holds plane 0's then plane 1's particles, cut at 1024, each with its opacity in [0, 1]. |
| BoostTrail.CollectPlane | src/plane/render/BoostTrailRenderer.cpp:177-193 | The inner loop with its early break appends one plane's particles until the buffer holds 1024. |
| Terrain.Hash | src/plane/render/TerrainPlane.cpp:15-19 | The hash lies in [0, 1). |
| Terrain.Lerp | src/plane/render/TerrainPlane.cpp:22-25 | For t in [0, 1] the result lies between a and b; t = 0 gives a and t = 1 gives b. |
| Terrain.SmoothStep | src/plane/render/TerrainPlane.cpp:27-30 | Maps [0, 1] into [0, 1], fixing 0 and 1. |
| Terrain.PerlinNoise | src/plane/render/TerrainPlane.cpp:223-246 | Value noise lies in [-1, 1]. |
| Terrain.NoiseInUnitRange | src/plane/render/TerrainPlane.cpp:223-246 | The noise, as a function of the sample point, is bounded by 1 everywhere. |
| Terrain.LayeredHeightUnrolled | src/plane/render/TerrainPlane.cpp:199-215 | The octave loop sums five octaves at frequencies 2.5…40 and amplitudes 150…9.375, plus the offset 10. |
| Terrain.LayeredHeightBound | src/plane/render/TerrainPlane.cpp:199-215 | Every generated height lies in 10 ± 290.625. |
| Terrain.LayeredNoise | src/plane/render/TerrainPlane.cpp:199-215 | The octave loop computes the layered height of its position. |
| Terrain.Resize | src/plane/render/TerrainPlane.cpp:184-185 | resize gives the requested length, keeping the prefix. |
| Terrain.Bilinear | src/plane/render/TerrainPlane.cpp:284-287 | With fractions in [0, 1] the blend lies between the lowest and highest corner, and it is the first corner at fraction 0. |
| Terrain.QuadIndicesInRange | src/plane/render/TerrainPlane.cpp:88-100 | Each of a cell's six indices names one of the (res+1)² vertices. |
| Terrain.QuadAppended | src/plane/render/TerrainPlane.cpp:84-102 | Appending a cell's six indices extends the reference index pattern and keeps every index in range. |
| Terrain.BuildIndices | src/plane/render/TerrainPlane.cpp:84-102 | The builder emits res²·6 indices (the draw count), each the reference index and each in range. A non-positive resolution gives none. |
| Terrain.TerrainPlane.constructor | src/plane/render/TerrainPlane.h:34-36 | Size 2000, 100 cells per side, no heights yet. |
| Terrain.TerrainPlane.GenerateHeightmap | src/plane/render/TerrainPlane.cpp:181-221 | One height per node, (res+1)² in all. Node (x, z) is stored at z·(res+1)+x with its layered height, and every height lies in 10 ± 290.625. |
| Terrain.TerrainPlane.GenerateRow | src/plane/render/TerrainPlane.cpp:194-219 | One row of the generator fills the next res+1 heights with their layered heights. |
| Terrain.HeightStored | src/plane/render/TerrainPlane.cpp:217-218 | Storing a node at its flat index completes the heightmap prefix up to that index. |
| Terrain.HeightsBounded | src/plane/render/TerrainPlane.cpp:181-221 | Every generated height lies within the layered-noise bound. |
| Terrain.TerrainPlane.SampleHeight | src/plane/render/TerrainPlane.cpp:248-255 | Off the grid the sample is 0. On it, the row-major index is in bounds and the stored value is returned. |
| Terrain.TerrainPlane.GetHeightAt | src/plane/render/TerrainPlane.cpp:257-288 | Outside the grid the height is 0 (water). Inside, it lies between the four surrounding samples. |
| Terrain.TerrainPlane.CellHeight | src/plane/render/TerrainPlane.cpp:270-287 | The blend lies between its four corner samples and equals the corner sample exactly at a node. |
| Terrain.TerrainPlane.GridCoordOfNode | src/plane/render/TerrainPlane.cpp:260-264 | World coordinate to grid coordinate maps node k's position back to k. |
| Terrain.TerrainPlane.HeightAtNode | src/plane/render/TerrainPlane.cpp:257-288 | At a node not on the far edges the query returns the stored sample. |
| Terrain.TerrainPlane.FarEdgeIsSeaLevel | src/plane/render/TerrainPlane.cpp:263-268 | On the far edge x = +size/2 the query returns 0 whatever the heightmap holds. |
| Terrain.TerrainPlane.VertexData | src/plane/render/TerrainPlane.cpp:55-79 | A vertex holds 8 numbers: the node's world position with its sample height, the normal, and texture coordinates in [0, 1]. |
| Terrain.UnitCoordinate | src/plane/render/TerrainPlane.cpp:76-77 | x / res is a texture coordinate in [0, 1]. |
| Terrain.TerrainPlane.VertexAt | src/plane/render/TerrainPlane.cpp:51-81 | Vertex k is 8 numbers long. |
| Terrain.TerrainPlane.VertexAppended | src/plane/render/TerrainPlane.cpp:51-81 | Appending the next vertex keeps the earlier vertices in place. |
| Terrain.TerrainPlane.BuildVertices | src/plane/render/TerrainPlane.cpp:51-81 | The builder emits (res+1)² vertices row by row: vertex k is node (k mod (res+1), k div (res+1)). |
| Terrain.TerrainPlane.Initialize | src/plane/render/TerrainPlane.cpp:33-132 | Records size and resolution and stores every node's layered height. Builds 8·(res+1)² vertex numbers, in which vertex k is `VertexAt(m, k)`: the node at column k mod (res+1), row k div (res+1). Builds res²·6 indices, in which index j is `IndexAt(res, j)` and lies within the grid. |

## Left out

- Graphics and files are not modelled: OpenGL buffers, shaders, textures and draw calls (`Render`'s upload and draw, `Draw`, `Shutdown`, `InitializeGeometry`, `CreateShaders`, `LoadTexture`). Only the data handed to them is modelled: the trail's upload list and the terrain's vertex and index arrays.
- `BoostTrailRenderer::Render` returns early when no buffers or shader exist. That early return is not modelled: `CollectParticles` always collects.
- Floating point is modelled as exact real arithmetic, so single-precision rounding is not captured.
- sin, cos, exp and sqrt are parameters, constrained only by `Numerics.ValidMath`.
- `Numerics.Normalize` returns the zero vector unchanged where glm would produce NaN.
- `Hash`, `PerlinNoise` and the terrain heights are stated for any `sin` and any noise function within range, not for the actual values of `std::sin`.
- `int` casts of floor values are mathematical integers. 32-bit overflow of those casts and of the grid index arithmetic is not modelled.
- Window and device I/O become parameters:
  - `ProcessInput` receives the key states as booleans and returns the escape request instead of calling `glfwSetWindowShouldClose`.
  - `OnMouseMove` returns the offsets instead of passing them to the camera's `ProcessMouseMovement`.
  - `OnScroll` and the camera itself (`learnopengl/camera.h`) are not part of this model.
- The island manager is not part of this model. `CollisionSystem.Initialize` takes the island positions directly.
- The random device and `mt19937` created in `GenerateHeightmap` are never drawn from, so they are left out.
- `ShootingSystem::Update(float, PlaneState&)` and `CheckBulletPlaneCollision` are declared in the header but have no definition among the sources. Only the one-argument `Update` is modelled.
- `pitchInputTime`, `rollInputTime`, `fireCooldown` and `fireRatePerSec` are carried in `PlaneState` with their defaults. No modelled code reads or writes them.
- `terrainPlane_` is not initialised by the collision system's constructor; the model starts it as `null`.
- `Physics.IslandHeight` states the dome height only for the zero height extent the code uses.
- `BoostTrail.SpawnParticle` and `BoostTrail.BoostTrailRenderer.EmitOne` take the six generator draws in left-to-right order. In the source the sideways and upward jitter draws are the two operands of one vector `operator+`, and C++ leaves their evaluation order unspecified. A compiler that evaluates right to left gives the upward jitter the third sample and the sideways jitter the fourth. Six draws per particle (`SpawnDrawsSix`, `EmissionDraws`) hold in either order.
- `BoostTrail.CalculateForwardVector` is proved equal to the flight model's vector only under `ValidMath`. For an arbitrary `Math` record only its definition holds.
- `Terrain.TerrainPlane.GetHeightAt` does not state the blend's exact value inside a cell, only its bounds and its value at grid nodes.
- `Terrain.TerrainPlane.GetHeightAt` returns water level 0 on the far edges x = +size/2 and z = +size/2, including the far corner, instead of the stored edge sample; the model does the same (`FarEdgeIsSeaLevel`).
- Several comments in the sources do not match their code. The model follows the code:
  - `CheckGroundCollision` says health drops by 30; the code subtracts 0.1.
  - It says pitch is raised by 20 degrees; the code adds 0.
  - It mentions a clearance above the terrain; the code compares against the terrain height alone.
  - In `GetHeightAt`, the `min(x0 + 1, res)` cap on the neighbour index never takes effect, because x0 < res on that path. It is modelled as written.
