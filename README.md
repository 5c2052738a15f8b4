# SnoSki gameplay core in Dafny

This project is a Dafny model of the gameplay simulation of SnoSki, a browser arcade skiing
game. The skier runs down a slope toward negative z, passes between the poles of 22
alternating red and blue gates, avoids trees and logs, picks up coins and tries to reach the
finish line. The model covers the parts of the game that can be stated as rules: the
collision and event geometry, the run state machine, the skier's motion step, the course
layout and its random placement loops, the per-tick referee (the order in which hazards,
coins and the finish are checked), the deferred coin removal, the ghost replay of the best
run, the snow-spray particle pool and the quaternion helpers.

One Dafny module models each source file:

- `Quat` (quat.dfy) models `src/engine/core/Quat.js`: the Hamilton product and the
  axis-angle constructor. `sin` and `cos` are function parameters.
- `Core` (core.dfy) holds the shared value types: the 3-vector, the pose a Transform
  component holds, an entity that may lack a Transform, and a `Transform` class shared
  by the skier's controller and the game loop. It also holds the convention for random
  draws: a stream `nat -> real` whose values lie in [0, 1).
- `Collision` (collision.dfy) models `src/game/CollisionDetection.js` as pure functions.
  The first-match loops become recursive functions that return the index found.
- `Course` (course.dfy) models the course constants, the entity factories and the four
  placement loops of `src/game/main.js`. The loops are methods with invariants, proved
  against closed-form functions of the draw stream.
- `Skier` (skier.dfy) models `src/engine/controllers/SkierController.js`. It has a
  `SkierController` class whose `Update` is proved equal to one pure `Step`; the
  properties of the step are lemmas.
- `Run` (run.dfy) models `src/game/GameState.js`. It has a `GameState` class whose methods
  are tied to transition functions over a `Run` value.
- `Particles` (particles.dfy) models `src/engine/systems/ParticleSystem.js`: a `Particle`
  class and a `ParticleSystem` class over two lists kept in lockstep.
- `Game` (game.dfy) models the rest of `src/game/main.js` that gameplay runs: the gate
  flash, the gate loop, coin collection and deferred removal, the ghost replay, the
  key listener, the restart handler and the gameplay part of `update`. A `World` class
  holds main.js's module-level state. Its methods follow the source statement by
  statement. They are proved against the pure functions `Referee`, `Settle` and `Play`,
  which describe a tick as a whole.

Modelling choices:

- Every quantity is a `real`; `Math.floor` is `.Floor`.
- The obstacle test `sqrt(dx² + dz²) < r + 0.5` is written as a squared comparison.
  `Collision.InReachIsDistanceTest` proves the two forms agree.
- Each `Math.random()` call is a numbered draw from an explicit stream.
- Held keys are an explicit `map<string, bool>`.
- Object identity of coins (`indexOf`/`splice` on the scene and the coin list) is an `id`
  field. Identities are handed out from a counter and never reused.
- The scene is modelled only as far as gameplay changes it: the coins it shows, by
  identity and in order, and whether a ghost skier is present.

Two behaviours of the code are reproduced as written:

- `ParticleSystem.update` calls `particle.update(dt)` with one argument, and `Particle`
  has no `enabled` field. The first guard of `Particle.update` therefore always returns.
  As the game drives it, no particle ages or expires, the removal branch never runs, and
  the pool fills up to `maxParticles` (`Particles.PoolFillsUp`). `Particles.Particle.Update` models the call as it
  happens. `Particles.Particle.Advance` models the body as it would run.
- The restart handler does not clear `coinsToRemove`. It can only hold coins at a restart
  when the run ended on the finish line on the same tick a coin was collected. Those
  stale entries refer to coins that are no longer listed. The model keeps them, and its
  bookkeeping invariant (`Game.Tidy`) still holds, because fresh coins get new identities.

## Model

| member | source | states |
|---|---|---|
| Quat.MultiplyIdentity | src/engine/core/Quat.js:1-8 | [0,0,0,1] is a left and a right unit of quatMultiply |
| Quat.YRotationsClosed | src/engine/core/Quat.js:1-8 | the product of two quaternions with x = z = 0 again has x = z = 0, with y = a.w·b.y + a.y·b.w and w = a.w·b.w − a.y·b.y |
| Quat.NormMultiplicative | src/engine/core/Quat.js:1-8 | Euler's four-square identity: the squared norm of the product is the product of the squared norms |
| Quat.UnitClosed | src/engine/core/Quat.js:1-8 | the product of two unit quaternions is a unit quaternion |
| Quat.FromAxisAngleShape | src/engine/core/Quat.js:10-19 | the vector part is parallel to the axis (zero cross product) and w = cos(angle/2); for a unit axis with sin² + cos² = 1 the result is a unit quaternion |
| Quat.FromYAxisIsYRotation | src/engine/core/Quat.js:10-19 | about the axis [0,1,0] the result has x = z = 0 and y = sin(angle/2) |
| Quat.YRotationsAddAngles | src/engine/core/Quat.js:1-19 | when sin and cos obey the addition formulas, the product of two Y rotations is the Y rotation by the summed angle (the coin billboard × spin product) |
| Collision.GetBoundingBox | src/game/CollisionDetection.js:32-48 | the box is centred on the translation and its extent on each axis is the scale (scale / 2 either way), with a missing scale read as [1,1,1] |
| Collision.BoxWellFormed | src/game/CollisionDetection.js:32-48 | with a non-negative scale or none, min ≤ max on every axis |
| Collision.CheckCollision | src/game/CollisionDetection.js:6-27 | a collision needs both entities to have a Transform |
| Collision.CollisionByCentres | src/game/CollisionDetection.js:19-26 | two boxes collide iff on every axis the centre distance is at most half the sum of the extents |
| Collision.CollisionSymmetric | src/game/CollisionDetection.js:6-27 | checkCollision(a, b) == checkCollision(b, a) |
| Collision.TouchingFacesCollide | src/game/CollisionDetection.js:19-26 | boxes that meet exactly at a face collide: the comparisons are inclusive |
| Collision.CheckTreeCollisions | src/game/CollisionDetection.js:54-61 | the result is the first tree in list order that collides; none is returned iff no tree collides |
| Collision.GatePassingIgnoresYZ | src/game/CollisionDetection.js:67-78 | the passing test depends only on the skier's x; without a Transform it is false |
| Collision.GatePassingExample | src/game/CollisionDetection.js:67-78 | a gate centred at 5 with half-width 1.8 is passed exactly for x ∈ [3.2, 6.8] |
| Collision.EffectiveRadius | src/game/CollisionDetection.js:100 | `hitboxRadius \|\| 1.2`: a missing or zero radius falls back to 1.2, any other radius is kept |
| Collision.InReachIsDistanceTest | src/game/CollisionDetection.js:96-102 | for any non-negative root d of dx² + dz², the squared test holds iff d < radius + 0.5 (radius + 0.5 > 0) |
| Collision.ScanObstacles | src/game/CollisionDetection.js:91-110 | a skier jumping high hits nothing; otherwise the result is the first log with a Transform within reach, and none iff no log is within reach |
| Collision.CheckObstacleCollisions | src/game/CollisionDetection.js:84-111 | nothing without a skier Transform or with the skier above y = 1.0; otherwise the first log within reach in list order, none iff there is none |
| Collision.ObstacleJumpExample | src/game/CollisionDetection.js:84-111 | a skier right over a 1.2-radius log clears it at y = 1.5 and hits it at y = 0.15 |
| Collision.PoleContact | src/game/CollisionDetection.js:113-118 | against a generated gate, a unit-scaled skier touches a pole iff it is within reach of the left or the right pole on all three axes |
| Course.FinishLayout | src/game/main.js:196-201 | finishZ = firstGateZ + (gateCount − 1)·gateStepZ − 70 = −782, and the course length is 802 |
| Course.GateZOrder | src/game/main.js:196-200 | gate z strictly decreases with the index and every gate lies before the finish line (z > finishZ) |
| Course.CreateGatePair | src/game/main.js:325-365 | the pair keeps its z, centre and colour flag; half-width 1.8; poles at centerX ∓ 1.8 and at the pair's z; not passed, no flash, flash duration 0.3; red or blue by the flag |
| Course.ObstacleShape | src/game/main.js:257-280 | a log sits at (x, −1.4, z), rotated about Y only; its hitbox is 1.2 × its scale and lies in [0.96, 1.68) |
| Course.CreateCoin | src/game/main.js:121-137 | a new coin keeps its identity and position and is not collected |
| Course.ScatterStep | src/game/main.js:287-290 | each step of a placement loop moves back by an amount in [base, base + span) |
| Course.ScatterDecreasing | src/game/main.js:287-290 | positions of a placement loop with a positive base step decrease by at least the base between any two items |
| Course.TreeLayout | src/game/main.js:284-304 | trees stand 15 to 28 units from the centre line, 2.5 to 7 tall, each 8 to 16 units past the previous |
| Course.GenerateTrees | src/game/main.js:284-304 | the tree loop creates at least one tree, the i-th at its drawn place, and stops exactly at the first tree past finishZ − 30 |
| Course.ObstacleLayout | src/game/main.js:307-320 | logs lie in x ∈ [−10, 10), each 20 to 50 units past the previous |
| Course.PlaceObstacle | src/game/main.js:311-318 | one pass of the log loop steps back at least 20 units and creates log i at its drawn place |
| Course.GenerateObstacles | src/game/main.js:307-320 | the log loop creates at least one log, the i-th at its drawn place, and stops exactly at the first log past finishZ − 20 |
| Course.GenerateGates | src/game/main.js:370-381 | exactly 22 gates; gate i at firstGateZ + i·gateStepZ with its drawn centre, red iff i is even |
| Course.GateLayout | src/game/main.js:372-377 | a generated gate has centre in [−14, 14), is red exactly at even indices, starts open without flash, lies before the finish and ahead of the next gate |
| Course.CoinLayout | src/game/main.js:393-396 | coins lie in x ∈ [−6, 6), each 20 to 40 units past the previous |
| Course.SpawnCoins | src/game/main.js:390-399 | spawnCoins starts from an empty list, creates at least one coin, the i-th with the next identity at its drawn place, and stops exactly at the first coin past finishZ + 20 |
| Skier.LateralInput | src/engine/controllers/SkierController.js:81-88 | the input is −1 iff only left is held, +1 iff only right is held, 0 iff neither or both |
| Skier.RampProgressRange | src/engine/controllers/SkierController.js:73-74 | ramp progress lies in [0, 1] for a non-negative timer and is 1 exactly once the ramp duration is over |
| Skier.RampedBetween | src/engine/controllers/SkierController.js:77-78 | a ramped bound lies between its start and full values and equals the full value at progress 1 |
| Skier.RampedMonotone | src/engine/controllers/SkierController.js:73-78 | a ramped bound moves monotonically toward its full value as the timer grows |
| Skier.RampBounds | src/engine/controllers/SkierController.js:73-78 | the current max and min speeds lie between the start values (20 / 6) and the full values, and equal the full values after the ramp |
| Skier.SpeedRule | src/engine/controllers/SkierController.js:107-121 | turning gives max(curMin, speed − decel·dt), so at least curMin; going straight gives min(curMax, speed + accel·dt), so at most curMax |
| Skier.ClampXRange | src/engine/controllers/SkierController.js:147 | the clamp keeps x in [−maxX, maxX], leaves an x already there alone, and sends an x beyond a side to that side |
| Skier.ApproachTowardTarget | src/engine/controllers/SkierController.js:128-133 | with 0 ≤ rate·dt ≤ 1 a smoothing step stays between the value and its target and does not move away from the target |
| Skier.StaysAboveGround | src/engine/controllers/SkierController.js:155-175 | a skier at or above groundY is at or above it after the tick |
| Skier.Landing | src/engine/controllers/SkierController.js:162-175 | an airborne step that would end at or below the ground snaps to groundY and clears the jump and its velocity; otherwise velocity then gravity apply |
| Skier.JumpTrigger | src/engine/controllers/SkierController.js:155-159 | a jump starts only with Space held, not already jumping and within 0.01 of the ground; then it does start, with velocity jumpForce |
| Skier.StepFacts | src/engine/controllers/SkierController.js:65-176 | after any tick x lies in [−maxX, maxX] whatever the previous x or dt, z has moved by exactly −speed·dt with the new speed, and the ramp timer has grown by dt |
| Skier.RampOrdered | src/engine/controllers/SkierController.js:73-78 | under the game's options the ramped minimum never exceeds the ramped maximum and never falls below startMinSpeed |
| Skier.RampProgressStep | src/engine/controllers/SkierController.js:73-74 | over a tick of length dt ≥ 0 the ramp progress grows by at least 0 and at most dt / 8 |
| Skier.RampedMinRise | src/engine/controllers/SkierController.js:73-78 | under sane options the ramped minimum rises over a tick by at least 0 and at most acceleration·dt |
| Skier.SpeedStepInBounds | src/engine/controllers/SkierController.js:107-121 | one speed step from inside [lo, hi] lands inside the next bounds [lo', hi'] when the maximum does not fall and the minimum rises by at most acceleration·dt |
| Skier.SpeedBoundsPreserved | src/engine/controllers/SkierController.js:65-176 | every tick with dt ≥ 0 keeps the speed between the ramped minimum and the ramped maximum of the new ramp time, for options whose acceleration over the 8-second ramp covers the minimum's rise |
| Skier.AccelerationExample | src/engine/controllers/SkierController.js:116-120 | going straight at speed 12 with acceleration 8 for dt = 0.1 gives speed 12.8 |
| Skier.SkierController.constructor | src/engine/controllers/SkierController.js:5-54 | fields take the given options; speed starts at minSpeed; no heading, tilt, jump or ramp time; no keys held |
| Skier.SkierController.KeyDown | src/engine/controllers/SkierController.js:197-199 | the key is recorded as held; nothing else changes |
| Skier.SkierController.KeyUp | src/engine/controllers/SkierController.js:201-203 | the key is recorded as released; nothing else changes |
| Skier.SkierController.GetCurrentSpeed | src/engine/controllers/SkierController.js:179-181 | returns the current speed |
| Skier.SkierController.Update | src/engine/controllers/SkierController.js:65-176 | without a Transform nothing changes, not even the ramp timer; otherwise the motion state becomes one `Step` of the old state, the held keys and the transform's scale stay |
| Skier.SkierController.Accelerate | src/engine/controllers/SkierController.js:73-121 | the ramp timer grows by dt, the input is read from the held keys and the speed follows the ramped rule |
| Skier.SkierController.Turn | src/engine/controllers/SkierController.js:125-133 | the heading target is −0.6·input; heading and tilt each take one smoothing step toward their targets |
| Skier.SkierController.Move | src/engine/controllers/SkierController.js:143-151 | x moves sideways by input·lateralSpeed·dt and is clamped; y stays; z moves by −speed·dt |
| Skier.SkierController.Jump | src/engine/controllers/SkierController.js:155-175 | the vertical state (y, jump flag, velocity) becomes one jump step with Space as held |
| Skier.SkierController.Reset | src/engine/controllers/SkierController.js:184-195 | speed becomes startMinSpeed; heading, tilt, jump and ramp timer are zeroed; the transform and the keys are untouched |
| Run.Distance | src/game/GameState.js:104 | max(0, floor(−z)) is non-negative, is the whole part of −z for z ≤ 0, and is 0 iff z > −1 |
| Run.Archive | src/game/GameState.js:140-144 | a finished run replaces the best only when strictly longer: the best distance becomes the larger one, ties keep the older run |
| Run.BestOfIsFirstLongest | src/game/GameState.js:140-144 | over any sequence of finished runs, the archive holds a longest run and, of equally long ones, the earliest |
| Run.InitialRun | src/game/GameState.js:2-15 | a fresh GameState is playing with the menu showing, all counters 0 and all paths empty |
| Run.StartGameOnlyMenu | src/game/GameState.js:20-26 | startGame clears showingMenu and changes neither the state nor any counter |
| Run.UpdateStoresDistance | src/game/GameState.js:101-105 | update is a no-op unless playing; otherwise it stores distance max(0, floor(−z)) and the speed and nothing else |
| Run.GameOverIdempotent | src/game/GameState.js:129-130 | a gameOver call while over changes nothing, so a second call changes nothing whatever its reason |
| Run.GameOverArchives | src/game/GameState.js:129-146 | the first gameOver sets the state and reason, copies the run's path to lastRunPath and empties it, promotes the run only if strictly longer, and keeps distance, gates and coins |
| Run.ResetKeepsArchive | src/game/GameState.js:184-198 | reset sets playing, zeroes score, distance, gates, speed and coins, empties the run's path, and keeps the best run, the last run and the menu flag |
| Run.GatePassedCounts | src/game/GameState.js:204-207 | gatePassed adds exactly 1 while playing and nothing else; otherwise it changes nothing |
| Run.ApplyKeepsBest | src/game/GameState.js:1-208 | no operation lowers the best distance, and only the first gameOver of a run can change the archive |
| Run.BestDistanceMonotone | src/game/GameState.js:140-144 | over any sequence of operations the best distance never decreases |
| Run.SoundPreserved | src/game/GameState.js:101-198 | over any sequence of operations distance and best distance stay non-negative |
| Run.GameState.constructor | src/game/GameState.js:2-18 | a new GameState is the initial run |
| Run.GameState.StartGame | src/game/GameState.js:20-26 | the new state is the startGame transition of the old |
| Run.GameState.Update | src/game/GameState.js:101-127 | the new state is the update transition of the old |
| Run.GameState.GameOver | src/game/GameState.js:129-182 | the new state is the gameOver transition of the old |
| Run.GameState.Reset | src/game/GameState.js:184-198 | the new state is the reset transition of the old |
| Run.GameState.GatePassed | src/game/GameState.js:204-207 | the new state is the gatePassed transition of the old |
| Particles.SampleInRange | src/engine/systems/ParticleSystem.js:119-123 | a draw in [0, 1) samples a velocity component inside its configured range |
| Particles.LifetimeVariation | src/engine/systems/ParticleSystem.js:126 | a new lifetime lies in [0.8, 1.2) × particleLifetime |
| Particles.SizeVariation | src/engine/systems/ParticleSystem.js:129 | a new size lies in [0.7, 1.3) × particleSize |
| Particles.CreatedParticleFresh | src/engine/systems/ParticleSystem.js:7-17 | a new particle is active and unaged, at its initial size and alpha, with the configured colour |
| Particles.JitterInRange | src/engine/systems/ParticleSystem.js:113-115 | the position jitter (r − 0.5)·0.5 lies in [−0.25, 0.25) |
| Particles.CreatedParticleJitter | src/engine/systems/ParticleSystem.js:112-116 | a new particle lies within 0.25 of the spawn point in x and z, at its height in y |
| Particles.CreatedParticleVelocity | src/engine/systems/ParticleSystem.js:119-123 | a new particle's velocity lies inside the configured ranges |
| Particles.CreatedParticleVariation | src/engine/systems/ParticleSystem.js:126-131 | a new particle's lifetime lies in [0.8, 1.2) × particleLifetime and its size in [0.7, 1.3) × particleSize |
| Particles.FadeAndShrinkBounds | src/engine/systems/ParticleSystem.js:40-42 | over a life the alpha falls from initialAlpha to 0 and the size from initialSize to half of it |
| Particles.AdvanceAgesAndExpires | src/engine/systems/ParticleSystem.js:21-47 | an inactive particle is unchanged; an active one ages by dt, takes the fade formula and stays active iff its age is below its lifetime |
| Particles.AdvanceAddsTime | src/engine/systems/ParticleSystem.js:21-47 | one more update with dt > 0 adds dt to the time alive |
| Particles.AdvancedTimesAge | src/engine/systems/ParticleSystem.js:21-47 | after n updates of dt > 0 a new particle has lived n·dt and is active exactly while n·dt is below its lifetime |
| Particles.Drain | src/engine/systems/ParticleSystem.js:159-164 | when no particle is due the accumulator is left as it is |
| Particles.EmissionDrains | src/engine/systems/ParticleSystem.js:159-164 | with a positive rate the count is floor(accumulator·rate) ≥ 0 and what remains is non-negative and under one period |
| Particles.DrainedRemainder | src/engine/systems/ParticleSystem.js:163 | taking n periods off an accumulator holding between n and n + 1 leaves a non-negative remainder under one period |
| Particles.NoRateNoEmission | src/engine/systems/ParticleSystem.js:160-164 | a non-positive rate emits nothing and leaves the accumulator alone |
| Particles.Particle.constructor | src/engine/systems/ParticleSystem.js:7-17 | a particle starts unaged and active at full size and alpha |
| Particles.Particle.Update | src/engine/systems/ParticleSystem.js:19-20 | called as the pool calls it, a particle's update changes nothing |
| Particles.Particle.Advance | src/engine/systems/ParticleSystem.js:21-47 | past its guards the update takes the particle to its advanced state |
| Particles.Keep | src/engine/systems/ParticleSystem.js:167-190 | the filter keeps at most the elements it is given and invents none |
| Particles.KeepMembers | src/engine/systems/ParticleSystem.js:185-189 | an element survives the sweep iff it sits at a flagged (active) position |
| Particles.KeepAll | src/engine/systems/ParticleSystem.js:167-190 | with every particle active the sweep removes nothing |
| Particles.KeepSameLength | src/engine/systems/ParticleSystem.js:187-188 | both lists filtered by the same flags keep the same length |
| Particles.KeepSlots | src/engine/systems/ParticleSystem.js:171-188 | splicing the slots alongside the particles leaves the slots of the surviving particles |
| Particles.ParticleSystem.constructor | src/engine/systems/ParticleSystem.js:55-85 | the pool starts empty and enabled with a zero accumulator and the given settings, and is consistent |
| Particles.ParticleSystem.SetMesh | src/engine/systems/ParticleSystem.js:87-89 | records whether a mesh is set |
| Particles.ParticleSystem.Emit | src/engine/systems/ParticleSystem.js:95-106 | the old list followed by at most `count` new particles made from successive draws, stopping at maxParticles; nothing without a mesh or a parent; the lists stay in lockstep |
| Particles.ParticleSystem.Update | src/engine/systems/ParticleSystem.js:155-191 | nothing while disabled; otherwise the accumulator is drained, the due particles are appended, and the sweep leaves the active ones in order with their slots |
| Particles.ParticleSystem.EmitDue | src/engine/systems/ParticleSystem.js:159-164 | the accumulator takes dt, the whole number of due particles is emitted, and the accumulator keeps only the remainder, whether or not they could be placed |
| Particles.ParticleSystem.Sweep | src/engine/systems/ParticleSystem.js:167-190 | the reverse sweep leaves the active particles in order, with the slots that show them |
| Particles.ParticleSystem.Clear | src/engine/systems/ParticleSystem.js:197-200 | both lists become empty |
| Particles.ParticleSystem.SetEnabled | src/engine/systems/ParticleSystem.js:202-204 | sets the enabled flag |
| Particles.SweptValid | src/engine/systems/ParticleSystem.js:167-190 | after the sweep the lists are in lockstep within capacity, each slot shows its particle, and an all-active pool is kept whole |
| Particles.SweepKeepsActivePool | src/engine/systems/ParticleSystem.js:167-190 | as the pool is driven, an update removes nothing and the pool stays all active |
| Particles.EmissionFillsPool | src/engine/systems/ParticleSystem.js:95-106 | with a mesh and a parent, emitting `count` particles leaves min(maxParticles, pool + max(count, 0)) particles |
| Particles.PoolFillsUp | src/engine/systems/ParticleSystem.js:155-191 | over any sequence of updates that emit with a mesh and a parent, the pool holds min(maxParticles, initial size + the sum of the positive counts due) |
| Particles.CreatedAreActive | src/engine/systems/ParticleSystem.js:95-106 | emitting into an all-active pool leaves it all active |
| Game.SkierOptionsSane | src/game/main.js:605-614 | the game's controller options are sane: ordered bounds, maxSpeed 40, and acceleration 8 over the 8-second ramp covers the minimum's rise from 6 to 12, so the speed stays between the ramped minimum and maximum |
| Game.EmissionRateBounds | src/game/main.js:706-718 | with the speed in [0, maxSpeed] the spray rate lies in [8, 28] going straight and [23, 43] turning; it is positive |
| Game.BothDirectionsStillTurning | src/game/main.js:712-713 | holding both directions gives zero lateral input but still counts as turning for the spray |
| Game.FlashTick | src/game/main.js:163-168 | a running flash (flashTime > 0) becomes flashTime − dt, so it never goes up for dt ≥ 0 and stays ≥ 0 when dt ≤ flashTime; no flash, no change; only flashTime changes |
| Game.FlashAll | src/game/main.js:732-734 | every pair gets one flash countdown, in place |
| Game.Judged | src/game/main.js:781-803 | every decision marks the pair passed; a pass also starts the flash (flashTime = flashDuration); nothing else about the pair changes |
| Game.ScanGates | src/game/main.js:777-804 | the gate loop leaves as many pairs as it found |
| Game.ScanAdvances | src/game/main.js:777-804 | a pair that does not end the run joins the judged prefix, and the pass count and the GameState move on together |
| Game.ScanHalts | src/game/main.js:781-802 | at a pair that ends the run the loop stops with the scan's pairs and the run over with its reason |
| Game.FirstStop | src/game/main.js:777-804 | the first pair whose verdict ends the run: every pair before it goes on |
| Game.ScanGatesJudgesUpToStop | src/game/main.js:777-804 | every pair up to and including the first terminal one gets its verdict; the pairs after it are left alone |
| Game.ScanGatesEndsAtStop | src/game/main.js:781-802 | the loop ends the run iff some pair is terminal, with the first such pair's reason (`'gate'` for a pole hit, `'miss-gate'` for a miss) |
| Game.ScanGatesCountsPasses | src/game/main.js:790-796 | gatePassed is called once per pass before the first terminal pair |
| Game.ScanGatesIsFirstStop | src/game/main.js:777-804 | the three facts above together: the gate loop described pair by pair |
| Game.GateFlagsOnlyRise | src/game/main.js:777-804 | a passed pair is skipped and left as it was; the flag only rises; a flag raised without ending the run means a pass between the poles with its flash started |
| Game.PassedGatesStayPassed | src/game/main.js:777-778 | once every pair is passed, the loop changes nothing, counts nothing and ends nothing |
| Game.NoPassesAmongPassed | src/game/main.js:778 | passed pairs add no passes |
| Game.Reopened | src/game/main.js:657-659 | after the restart every pair is open again and nothing else about it changes |
| Game.PassGatesCounts | src/game/GameState.js:204-207 | while playing, n calls of gatePassed add exactly n and change nothing else |
| Game.CollectAll | src/game/main.js:818-834 | a coin ends up collected iff it already was or lies within 1 of the skier in x and z; identity and position stay |
| Game.PickedAreTouched | src/game/main.js:818-834 | the coins queued for removal are exactly the touched ones, marked collected |
| Game.CollectingTwicePicksNothing | src/game/main.js:819 | a second coin pass at the same spot collects nothing more |
| Game.Ids | src/game/main.js:579-584 | the identities of a coin list, in order |
| Game.RemoveCoinInStep | src/game/main.js:848-852 | splicing a coin out of the list and out of the scene keeps the scene's coins equal to the list |
| Game.RemoveCoinMembers | src/game/main.js:851-852 | with distinct coins, splicing removes exactly the coin with that identity |
| Game.RemoveCoinKeepsOrder | src/game/main.js:851-852 | splicing keeps the remaining coins in order |
| Game.RemoveCoinRemovesExactly | src/game/main.js:851-852 | both facts above |
| Game.RemoveCoinsInStep | src/game/main.js:846-855 | the removal loop keeps the scene's coins equal to the coin list |
| Game.RemoveCoinsRemovesExactly | src/game/main.js:846-855 | with distinct coins, the removal loop removes exactly the queued coins and keeps the order of the rest |
| Game.RemoveIdsOwnPrefix | src/game/main.js:579-584 | taking every coin of the scene out of it, one by one, removes them all |
| Game.ReplayStep | src/game/main.js:858-867 | the ghost moves to the next frame of the best run only while that frame exists; without a ghost, or past the end, it holds still |
| Game.GhostHoldsLastFrame | src/game/main.js:858-867 | after n ticks a fresh ghost shows frame min(n, length) − 1 of the best run, so it holds its last position |
| Game.FlushClears | src/game/main.js:846-855 | after the deferred removal nothing waits, the scene still shows the coin list, no collected coin is left, and exactly the uncollected coins remain |
| Game.RefereeEndsAtFirstEvent | src/game/main.js:765-842 | while playing, the tick ends the run iff there is an event, with the first event's reason in the order tree → gates → logs → finish; an event before the coins leaves the coins and their count alone; a run that ends keeps its waiting coins and its ghost |
| Game.MenuLeavesOnlyFinish | src/game/main.js:765-842 | while the menu shows, only the finish line can end the run and the gates are left alone |
| Game.QuietReferee | src/game/main.js:765-867 | a tick without an event applies the gate verdicts, counts the passes and the coins, flushes the removal queue and moves the ghost |
| Game.QuietTickCollects | src/game/main.js:818-855 | a tick that goes on collects every touched coin, adds one per coin, removes the collected coins from list and scene, leaves none waiting and keeps every untouched coin |
| Game.CollectedTidy | src/game/main.js:818-834 | marking and queueing the touched coins keeps the coin bookkeeping, and every touched coin is queued |
| Game.UntouchedNotQueued | src/game/main.js:818-834 | a coin that is neither collected nor touched is not queued for removal after the coin pass |
| Game.FreshCoinsTidy | src/game/main.js:647-650 | freshly spawned coins numbered past every older identity satisfy the coin bookkeeping, whatever older coins still wait |
| Game.RenewedTidy | src/game/main.js:647-650 | on a consistent board, taking the listed coins out of the scene and adding a fresh run numbered past every older identity leaves exactly the fresh coins in the scene and the coin bookkeeping intact |
| Game.LayCourse | src/game/main.js:284-399 | trees, logs, gates and coins as the four loops place them: each of the three scatter loops stops exactly at its first item past its threshold (finishZ − 30, finishZ − 20, finishZ + 20), and there are GateCount gate pairs at their drawn centres |
| Game.CollectedBelow | src/game/main.js:818-834 | collecting coins invents no coin identity |
| Game.SettleKeepsTidy | src/game/main.js:818-867 | the coin, finish, removal and ghost part of a tick keeps the coin bookkeeping and invents no identity |
| Game.RefereeKeepsTidy | src/game/main.js:765-867 | whatever the tick decides, the coin bookkeeping holds afterwards and no identity is invented |
| Game.KeyActionCases | src/game/main.js:675-685 | Enter or Space starts the game from the menu and restarts after a game over; during a run, and for any other key, the listener does nothing |
| Game.World.constructor | src/game/main.js:284-614 | the course is generated from its draw streams (trees, logs, gates, coins as the loops place them, the tree, log and coin counts fixed by where each loop stops), the skier stands at (0, 0.15, 8) with scale [1, 1, 1] (its collision box) and its controller starts at minSpeed 12 with no heading, tilt, jump or ramp time, the spray is empty and enabled, and the world is consistent |
| Game.World.Restart | src/game/main.js:618-660 | the GameState is reset; the skier returns to (0, 0.2, 8) at the slow-start speed; a ghost appears iff there is a best run; fresh coins, numbered from the counter and ending at the first past finishZ + 20, replace the old in the list and the scene; the spray is emptied and enabled, with its mesh, accumulator and rate kept; every gate reopens; the world stays consistent, the skier's scale still [1, 1, 1] |
| Game.World.ResetRider | src/game/main.js:623-646 | the rider half of the restart: GameState reset, skier position and physics reset with its scale kept at [1, 1, 1], ghost from the best run if any |
| Game.World.ResetCourse | src/game/main.js:647-659 | the course half of the restart: coins replaced by a fresh run ending at the first past finishZ + 20, spray emptied and enabled and its other fields (mesh, accumulator, rate) untouched, gates reopened, coin bookkeeping kept |
| Game.World.ResetSpray | src/game/main.js:652-654 | the spray is emptied and enabled, and only its two lists and its enabled flag change |
| Game.World.ReplaceCoins | src/game/main.js:647-650 | the old coins leave the scene, fresh ones numbered from the counter and ending at the first past finishZ + 20 replace the list and join the scene |
| Game.World.RenewCoins | src/game/main.js:647-650 | the coin replacement leaves exactly the fresh coins in the scene, advances the counter past them, and keeps the coin bookkeeping |
| Game.World.RemoveCoinsFromScene | src/game/main.js:579-584 | each listed coin is spliced out of the scene |
| Game.World.ReopenGates | src/game/main.js:657-659 | every gate is reopened |
| Game.World.StartGameFromMenu | src/game/main.js:663-669 | startGame then reset on the GameState, and everything else as the restart leaves it (`Restarted`): skier and controller back at the slow start, ghost iff a best run exists, fresh coins (ending at the first past finishZ + 20) in list and scene, spray empty and enabled with mesh, accumulator and rate kept, gates reopened |
| Game.World.PressKey | src/game/main.js:675-685 | the controller records the key; Enter or Space on the menu starts the game and after a game over restarts it, each leaving the world as the restart does (`Restarted`, with its fresh coin run ending at the first past finishZ + 20); any other press leaves the GameState, the board, the coin counter, the skier's motion, the skier's Transform and every field of the spray unchanged |
| Game.World.Listen | src/game/main.js:675-685 | the game's own listener: Enter or Space on the menu starts the game, after a game over restarts it (`Restarted`); otherwise the GameState, the board, the coin counter, the skier's motion, the skier's Transform and every field of the spray are unchanged |
| Game.World.ReleaseKey | src/engine/controllers/SkierController.js:201-203 | the controller records the release |
| Game.World.Update | src/game/main.js:687-867 | unless playing only the spray is switched off (the skier, the coin counter and the spray's pool, mesh, accumulator and rate stay); otherwise the board and the GameState evolve as `Play` says, the skier takes one motion step, and the spray's rate follows the speed and the turning keys; the spray is drained twice, its accumulator ends at the second remainder, and the particles the first drain makes due are appended from the skier's old position (`SprayedTwice`); the coin counter and the spray's enabled and mesh flags are unchanged, and the skier's scale stays [1, 1, 1] |
| Game.World.Move | src/game/main.js:697-762 | the path sample, the spray (drained twice, particles appended from the skier's old position: `SprayedTwice`), the skier (its scale kept at [1, 1, 1]), the gate flashes and gameState.update, in order |
| Game.World.Drive | src/game/main.js:706-729 | the spray rate from the speed and the keys, the spray with the skier as parent, then the skier's own components: the spray is drained twice with the particles of the first drain appended from the skier's old position (`SprayedTwice`), and the skier takes one controller step with its scale kept at [1, 1, 1] |
| Game.World.SprayTwice | src/game/main.js:721-729 | the spray with a parent, then without one: the accumulator ends at the second drain's remainder and only the first drain's particles are appended |
| Game.World.Spray | src/game/main.js:721-727 | one spray update leaves the accumulator at the drain's remainder, under one period, and appends the due particles as emit does (`Appended`), keeping the pool consistent and all active |
| Game.World.FlashGates | src/game/main.js:732-734 | every gate takes one flash countdown |
| Game.World.Arbitrate | src/game/main.js:765-867 | the referee part of the tick ends as `Referee` says |
| Game.World.SettleTick | src/game/main.js:818-867 | coins, finish, deferred removal and ghost end as `Settle` says |
| Game.World.CheckGates | src/game/main.js:777-804 | the gate loop leaves the pairs, the pass count and the game-over exactly as the scan of the pairs says |
| Game.World.ScanStep | src/game/main.js:777-804 | one turn of the gate loop either stops with the scan's outcome or extends the judged prefix |
| Game.World.CheckGate | src/game/main.js:778-803 | one pair: skipped when passed; a pole hit marks it and ends the run with `'gate'`; at or past its z a pass marks it, starts its flash and counts it, a miss marks it and ends the run with `'miss-gate'` |
| Game.World.CollectCoins | src/game/main.js:818-834 | each touched, uncollected coin is marked, queued and counted |
| Game.World.RemoveCollectedCoins | src/game/main.js:846-855 | every queued coin is spliced out of the scene and the list, then the queue is emptied |
| Game.World.StepGhost | src/game/main.js:858-867 | the ghost takes one replay step |

## Left out

- The glm rotation of the skier (`quat.rotateY`/`rotateX`, SkierController.js lines 136-139) is not modelled; the heading and tilt angles are.
- Audio hooks, music, `console.log`, the HUD, the game-over overlay and every other DOM effect are left out. The reason a run ended is kept as a value.
- The skier's sound flags `isSkiingSoundPlaying` and `prevLateralInput` only drive audio and are left out.
- Rendering is left out: GLTF loading, textures and materials, the slope, camera and skybox entities, the gate colour interpolation inside `updateGateFlash`, `render` and `resize`.
- The coin billboard and spin (main.js lines 737-757) use `atan2` and trigonometry and only set a rotation. Only their quaternion product is covered, by `Quat.YRotationsAddAngles`.
- Camera and skybox follow (main.js lines 870-887) are left out.
- Floating-point rounding is not modelled; every quantity is a real.
- `Math.random()` is one stream per caller (trees, logs, gates, coins, spray) in the model. In the program it is a single shared stream; only the order of draws within each caller is kept.
- Meshes and textures are booleans: whether a mesh is set is all the emitter reads. `setTexture` and `getParticleEntities` have no gameplay effect and are left out.
- A particle's render slot is a value (its position, size and colour), not an entity.
- Particles.Particle.Advance: requires a non-zero lifetime, because the fade divides by it. Lifetimes the emitter creates are positive.
- Game.EmissionRate: requires maxSpeed ≠ 0, because the rate divides by it. The game's controller has maxSpeed 40.
- The skier entity always has a Transform in the game. The absence cases are modelled in `Collision` and `Skier.SkierController.Update`, not in `Game.World`.
- Other components of the scene's entities are taken to have no `update` of their own. The entity and component classes of `engine/core/core.js` are not part of this model.
- The scene is modelled only as the coins it shows (by identity) and whether a ghost is present.
- Game.World.Update: requires dt ≥ 0. The engine's frame loop only produces such steps; its clamp to dt ≤ 0.05 is not needed by any proof.
- Particles.ParticleSystem.Update: does not restate that the particles it appends are new objects; `Particles.ParticleSystem.Emit` states that.
- Course.PlaceObstacle and Game.LayCourse and Game.World.CheckGate, ScanStep, ResetRider, ResetCourse, RenewCoins, ResetSpray, Move, Drive, SprayTwice, Spray, Arbitrate and SettleTick split one loop body or one handler of main.js into parts. They run the source's statements in the source's order.
