# Cow launch: a verified model of the gameplay core

This project models the gameplay simulation of a side-view "launch and fly"
game in Dafny. The player aims with the arrow keys, holds space to charge the
launch power and releases it to fire a cow across endless procedurally
generated terrain. Trampolines and obstacles sit on the terrain. The round
ends when the launched cow comes to rest, and its distance becomes the score.

The model has four parts, one module per source file, plus two helper modules:

- `Scoring` (score_manager.dfy): the score manager. It holds five counters and a
  stored total. Its class invariant is that the stored total equals the scoring
  rule `floor(distance / 10) + 10 tricks + 5 combos + 20 bounces + 15 obstacles`.
- `Terrain` (terrain_generator.dfy): the terrain generator. It keeps a
  first-in-first-out window of 200-wide ground segments plus trampoline and
  obstacle lists. Every segment and feature owns one body registered in the
  physics world. The class invariant says that:
  - the segments are contiguous, and each one's height comes from the height profile;
  - every listed body is registered with its label;
  - body ids increase along each list.
- `Entities` (cow.dfy): the cow. It has the launched, grounded and bounced
  flags, an exactly-once launch, the bounce velocity rewrite, the landing test
  and the distance travelled.
- `Scenes` (game_scene.dfy): the game scene. The launch controls are a value
  (`Controls`) with one pure transition per input: key press, key release and
  frame. The scene's methods are proved to follow those transitions. Lemmas
  over arbitrary input sequences then give the scene's guarantees: the angle
  stays in range, the power stays capped, the cow is launched at most once,
  and nothing changes after launch.
- `Physics` (physics.dfy): the physics world, seen only as a registry from
  body ids to labels.
- `GameConfig` (game_config.dfy): the shared power and angle constants.

Batch generation is specified by the predicate `Grown`. A generated batch
appends one segment per random draw, continuing the row at the right edge of
the last segment. The old lists stay unchanged as prefixes. The new features
stand exactly where the draws plan them. Exactly the new bodies are
registered, all with fresh ids. Bodies the generator does not own, such as
the cow's, are left alone (`Untouched`).

Some of the game's behaviour is easy to misread; the model follows the code:
- A space press before launch restarts charging and resets the power to 0, even while charging.
- The angle can still be adjusted while charging; it is frozen only by the launch.
- Generation and retirement both use half of `worldWidth`, and `worldWidth` is twice the window width.
- The initial trampoline and obstacle patterns can share a segment (index 10; `Terrain.InitialFeaturesCoincide`).
- After launch nothing ever clears the grounded flag, so a landing is never undone.
- In the frame in which the round ends, the terrain update still runs after `EndGame`.

## Model

| member | source | states |
|---|---|---|
| `Physics.World.Add` | src/game/systems/TerrainGenerator.ts:133 | registering a body gives it the next fresh id and keeps every other body |
| `Physics.World.Remove` | src/game/systems/TerrainGenerator.ts:83 | deregistering removes exactly that body and never reuses ids |
| `Scoring.DistanceScore` | src/game/systems/ScoreManager.ts:91 | the distance points are the floor of distance / 10, never negative for a non-negative distance |
| `Scoring.Total` | src/game/systems/ScoreManager.ts:89-106 | with non-negative event counters the total is at least the distance points and never negative; with no events it is exactly the distance points |
| `Scoring.TotalExample` | src/game/systems/ScoreManager.ts:89-106 | distance 235, 2 tricks, 1 combo and 3 bounces are worth 108 points |
| `Scoring.TotalMonotone` | src/game/systems/ScoreManager.ts:89-106 | raising any counter never lowers the total |
| `Scoring.TotalAddEvents` | src/game/systems/ScoreManager.ts:54-84 | adding v events of one kind adds v times that kind's multiplier to the total |
| `Scoring.ScoreManager.constructor` | src/game/systems/ScoreManager.ts:25-27 | a new score manager has all counters and the total at 0 |
| `Scoring.ScoreManager.ResetScore` | src/game/systems/ScoreManager.ts:32-39 | reset zeroes all five counters and the total |
| `Scoring.ScoreManager.SetDistance` | src/game/systems/ScoreManager.ts:45-48 | only the distance changes, and the total matches the rule again |
| `Scoring.ScoreManager.AddTrick` | src/game/systems/ScoreManager.ts:54-57 | only the trick counter grows by v; a non-negative v never lowers the total |
| `Scoring.ScoreManager.AddCombo` | src/game/systems/ScoreManager.ts:63-66 | only the combo counter grows by v; a non-negative v never lowers the total |
| `Scoring.ScoreManager.AddBounce` | src/game/systems/ScoreManager.ts:72-75 | only the bounce counter grows by v; a non-negative v never lowers the total |
| `Scoring.ScoreManager.AddObstacle` | src/game/systems/ScoreManager.ts:81-84 | only the obstacle counter grows by v; a non-negative v never lowers the total |
| `Scoring.ScoreManager.CalculateTotalScore` | src/game/systems/ScoreManager.ts:89-106 | re-establishes the invariant that the stored total equals the scoring rule |
| `Scoring.ScoreManager.GetTotalScore` | src/game/systems/ScoreManager.ts:112-114 | the returned total is the scoring rule applied to the counters |
| `Scoring.ScoreManager.GetDistance` | src/game/systems/ScoreManager.ts:120-122 | returns the distance counter |
| `Scoring.ScoreManager.GetTricks` | src/game/systems/ScoreManager.ts:128-130 | returns the trick counter |
| `Scoring.ScoreManager.GetCombos` | src/game/systems/ScoreManager.ts:136-138 | returns the combo counter |
| `Scoring.ScoreManager.GetBounces` | src/game/systems/ScoreManager.ts:144-146 | returns the bounce counter |
| `Scoring.ScoreManager.GetObstacles` | src/game/systems/ScoreManager.ts:152-154 | returns the obstacle counter |
| `Scoring.ScoreManager.GetScoreBreakdown` | src/game/systems/ScoreManager.ts:160-184 | each component is count times multiplier; the components sum to the total; no state changes |
| `Entities.Abs` | src/game/entities/Cow.ts:209 | the absolute value is non-negative and equals the input or its negation |
| `Entities.Displacement` | src/game/entities/Cow.ts:232 | the distance is non-negative, is at least x - startX, and is one of the two |
| `Entities.BounceVelocity` | src/game/entities/Cow.ts:205-211 | a non-negative factor always sends the cow upwards, scaling the speed by the factor |
| `Entities.Cow.constructor` | src/game/entities/Cow.ts:32-92 | registers one fresh cow body; the cow starts unlaunched and grounded at (100, 100) |
| `Entities.Cow.SetPosition` | src/game/entities/Cow.ts:141-145 | moves the body and records the point as the start line and the reference height |
| `Entities.Cow.GetPosition` | src/game/entities/Cow.ts:151-153 | returns the body's position |
| `Entities.Cow.Launch` | src/game/entities/Cow.ts:160-175 | the first call launches and applies exactly one force; later calls change nothing |
| `Entities.Cow.GetDistanceTraveled` | src/game/entities/Cow.ts:181-183 | returns the distance travelled, never negative |
| `Entities.Cow.HasBounce` | src/game/entities/Cow.ts:197-199 | returns the bounced flag |
| `Entities.Cow.Bounce` | src/game/entities/Cow.ts:205-219 | keeps vx, sets vy to -abs(vy) times the factor, and sets the bounced flag |
| `Entities.Cow.Update` | src/game/entities/Cow.ts:225-242 | distance is max(0, x - startX); spin is vx * 0.0005 only while launched and airborne; a landing stays landed |
| `Entities.Cow.CheckGrounded` | src/game/entities/Cow.ts:247-269 | grounded becomes true only after launch, when both speeds are under 0.5 and the cow is below its start height; it never becomes false |
| `Entities.Cow.HasLanded` | src/game/entities/Cow.ts:189-191 | a cow that has not been launched has not landed; a landed cow has had exactly one launch force applied |
| `Entities.NotLandedBeforeLaunch` | src/game/entities/Cow.ts:189-191 | before launch the cow counts as grounded yet has not landed |
| `Terrain.InitialSegmentCount` | src/game/systems/TerrainGenerator.ts:56 | the initial segments cover the world width, plus five more |
| `Terrain.TrampolineSlots` | src/game/systems/TerrainGenerator.ts:187 | initial trampolines go exactly on segments 1 + 3k, and there are n / 3 of them |
| `Terrain.ObstacleSlots` | src/game/systems/TerrainGenerator.ts:196 | initial obstacles go exactly on segments 2 + 4k, and there are n / 4 of them |
| `Terrain.InitialFeaturesCoincide` | src/game/systems/TerrainGenerator.ts:185-203 | with 12 or more segments, segment 10 gets both a trampoline and an obstacle |
| `Terrain.ChooseExactly` | src/game/systems/TerrainGenerator.ts:319-324 | a trampoline exactly when the first draw is under 0.3; an obstacle exactly when it is not and the second draw is under 0.2; otherwise nothing |
| `Terrain.Placed` | src/game/systems/TerrainGenerator.ts:319-324 | the draws for one segment place at most one feature of a kind |
| `Terrain.AtMostOneFeaturePerSegment` | src/game/systems/TerrainGenerator.ts:319-324 | a batch places at most one feature on each of its segments |
| `Terrain.PlannedStep` | src/game/systems/TerrainGenerator.ts:319-324 | after one more segment, the placed features still match the plan the draws make |
| `Terrain.Retired` | src/game/systems/TerrainGenerator.ts:340-348 | the leading segments that lie wholly before the cutoff; the next segment, if any, reaches past it |
| `Terrain.RightEdgesIncrease` | src/game/systems/TerrainGenerator.ts:58-68 | along contiguous segments the right edges increase |
| `Terrain.RetiredExactly` | src/game/systems/TerrainGenerator.ts:340-348 | stopping at the first ineligible segment retires exactly the segments that end before the cutoff |
| `Terrain.KeepAhead` | src/game/systems/TerrainGenerator.ts:351-367 | the kept features are features of the list, all at or past the cutoff |
| `Terrain.KeepAheadExactly` | src/game/systems/TerrainGenerator.ts:351-367 | a feature is kept if and only if it lies at or past the cutoff |
| `Terrain.KeepAheadIdsIncrease` | src/game/systems/TerrainGenerator.ts:351-367 | the kept features keep their ids in increasing order, as in the original list |
| `Terrain.BatchKeepsInvariant` | src/game/systems/TerrainGenerator.ts:301-329 | appending a batch keeps the terrain contiguous, registered and in id order |
| `Terrain.BatchGrown` | src/game/systems/TerrainGenerator.ts:301-329 | appending a laid batch is a `Grown` step |
| `Terrain.CleanupKeeps` | src/game/systems/TerrainGenerator.ts:335-368 | the cleanup keeps the class invariant and leaves nothing behind the cutoff |
| `Terrain.CleanupUntouched` | src/game/systems/TerrainGenerator.ts:335-368 | the cleanup removes only bodies it tracked and tracks nothing new |
| `Terrain.TerrainGenerator.constructor` | src/game/systems/TerrainGenerator.ts:36-46 | the world width is twice the window width, and the lists start empty |
| `Terrain.TerrainGenerator.GenerateInitialTerrain` | src/game/systems/TerrainGenerator.ts:51-75 | replaces the terrain with the initial count of segments at x = 200 i, plus the fixed feature pattern, all with fresh bodies |
| `Terrain.TerrainGenerator.ClearTerrain` | src/game/systems/TerrainGenerator.ts:80-103 | deregisters every tracked body and empties the three lists |
| `Terrain.TerrainGenerator.AddInitialSegments` | src/game/systems/TerrainGenerator.ts:58-68 | lays `count` segments, segment k at x = 200 k, each with a fresh ground body |
| `Terrain.TerrainGenerator.CreateTerrainBody` | src/game/systems/TerrainGenerator.ts:111-136 | registers one fresh ground body |
| `Terrain.TerrainGenerator.AddTerrain` | src/game/systems/TerrainGenerator.ts:185-203 | n / 3 trampolines and n / 4 obstacles, on their pattern segments and at their lifts, with fresh bodies |
| `Terrain.TerrainGenerator.AddInitialTrampolines` | src/game/systems/TerrainGenerator.ts:187-193 | one trampoline on every third segment from index 1, 10 above the surface |
| `Terrain.TerrainGenerator.AddInitialObstacles` | src/game/systems/TerrainGenerator.ts:196-202 | one obstacle on every fourth segment from index 2, 30 above the surface |
| `Terrain.TerrainGenerator.AddTrampoline` | src/game/systems/TerrainGenerator.ts:210-240 | registers a fresh trampoline body and appends it to the trampoline list only |
| `Terrain.TerrainGenerator.AddObstacle` | src/game/systems/TerrainGenerator.ts:247-277 | registers a fresh obstacle body and appends it to the obstacle list only |
| `Terrain.TerrainGenerator.GenerateMoreTerrain` | src/game/systems/TerrainGenerator.ts:301-329 | appends five segments after the last one, with features where the draws say; a `Grown` step that keeps the invariant |
| `Terrain.TerrainGenerator.LayBatch` | src/game/systems/TerrainGenerator.ts:308-325 | the batch loop lays one segment per draw, plus the feature each draw calls for |
| `Terrain.TerrainGenerator.AddBatchSegment` | src/game/systems/TerrainGenerator.ts:309-324 | one pass of the batch loop: a segment, then at most one feature |
| `Terrain.TerrainGenerator.CleanupTerrain` | src/game/systems/TerrainGenerator.ts:335-368 | keeps exactly the segment suffix and the features at or past the cutoff, and deregisters the rest |
| `Terrain.TerrainGenerator.ShiftRetired` | src/game/systems/TerrainGenerator.ts:340-348 | removes leading segments until the head reaches the cutoff, deregistering each |
| `Terrain.TerrainGenerator.RemoveBehind` | src/game/systems/TerrainGenerator.ts:351-367 | keeps the features at or past the cutoff, in order, and deregisters the others |
| `Terrain.TerrainGenerator.Update` | src/game/systems/TerrainGenerator.ts:284-296 | generates when the player passes the threshold, then cleans up; nothing is left behind the cutoff and foreign bodies are untouched |
| `Scenes.Clamp` | src/game/scenes/GameScene.ts:162-167 | the angle lands in [0, 90]; an in-range angle is kept; the result is the nearest allowed angle |
| `Scenes.Charge` | src/game/scenes/GameScene.ts:233-238 | one charging frame adds 2 delta, capped at 100, and never lowers power for delta >= 0 |
| `Scenes.LaunchForce` | src/game/scenes/GameScene.ts:187-194 | the force points along the aim (fx sin = -fy cos), forward and up for non-negative cosine, sine and power; zero power gives no force |
| `Scenes.KeyDown` | src/game/scenes/GameScene.ts:113-131 | a press never launches; after launch, or for another key, nothing changes; only space touches charging and power (charging from 0); an arrow moves an in-range angle by at most one step in its direction and keeps it in [0, 90] |
| `Scenes.KeyUp` | src/game/scenes/GameScene.ts:136-144 | the controls become launched exactly when a space release finds them charging and unlaunched, which stops the charge; angle and power never change |
| `Scenes.Tick` | src/game/scenes/GameScene.ts:233-238 | a frame changes only the power, only while charging; it never lifts the power over 100 and, for delta >= 0, never lowers it |
| `Scenes.StepKeepsSane` | src/game/scenes/GameScene.ts:113-144 | every input keeps the angle in range and power capped; after launch no input changes anything; only a releasing key-up launches |
| `Scenes.RunKeepsSane` | src/game/scenes/GameScene.ts:113-172 | any sequence of inputs keeps the angle in [0, 90] and the power at most 100 |
| `Scenes.FrozenAfterLaunch` | src/game/scenes/GameScene.ts:113-144 | once launched, no sequence of inputs changes the controls |
| `Scenes.LaunchesAtMostOnce` | src/game/scenes/GameScene.ts:136-144 | any input sequence launches at most once, and none after launch |
| `Scenes.PowerInRange` | src/game/scenes/GameScene.ts:233-238 | with non-negative frame times the power stays within [0, 100] |
| `Scenes.ChargeAccumulates` | src/game/scenes/GameScene.ts:233-238 | charging over several frames adds 2 times the elapsed time, capped at 100 |
| `Scenes.AimSaturates` | src/game/scenes/GameScene.ts:120-129 | n arrow presses before launch move the angle n degrees, stopping at the limit |
| `Scenes.LaunchForceDirection` | src/game/scenes/GameScene.ts:113-191 | after any input sequence from the start (no negative frame times), the force a release would hand the cow points forward and up, given non-negative cosine and sine on [0, 90] |
| `Scenes.GameScene.constructor` | src/game/scenes/GameScene.ts:76-99 | creates the terrain, the cow and the score; the scene starts uncharged at 45 degrees with the cow at (100, 500), segment i at x = 200 i, and n / 3 trampolines and n / 4 obstacles on their patterns |
| `Scenes.GameScene.PlaceStart` | src/game/scenes/GameScene.ts:94-98 | lays out the initial terrain without touching the cow's body: segment i at x = 200 i, n / 3 trampolines on segments 1 + 3k and n / 4 obstacles on segments 2 + 4k; then moves the cow to (100, 500) |
| `Scenes.GameScene.HandleKeyDown` | src/game/scenes/GameScene.ts:113-131 | the controls follow `KeyDown`: space restarts charging from 0, the arrows step the clamped angle, and nothing happens after launch |
| `Scenes.GameScene.HandleKeyUp` | src/game/scenes/GameScene.ts:136-144 | the controls follow `KeyUp`; a launching release hands the cow exactly the force for the aim and power; the cow's position, velocity and start line stay put |
| `Scenes.GameScene.StartChargingPower` | src/game/scenes/GameScene.ts:149-156 | charging starts and the power is reset to the minimum |
| `Scenes.GameScene.AdjustAngle` | src/game/scenes/GameScene.ts:162-172 | the angle becomes the clamped request; nothing else changes |
| `Scenes.GameScene.LaunchCow` | src/game/scenes/GameScene.ts:177-196 | charging stops, the scene is launched, and an unlaunched cow receives the force for the current angle and power; the cow's position, velocity and start line stay put |
| `Scenes.GameScene.EndGame` | src/game/scenes/GameScene.ts:201-221 | the first call records the cow's distance in the score, stops listening and schedules one callback; later calls change nothing |
| `Scenes.GameScene.Update` | src/game/scenes/GameScene.ts:227-263 | nothing after the end; otherwise the controls follow `Tick`, the cow keeps its position and velocity, its distance is max(0, x - startX), it becomes grounded exactly by the launched at-rest test, it spins only while launched and airborne, the round ends exactly when the cow has landed (recording the distance), and the terrain moves only when launched |

## Left out

- Rendering and presentation are not modelled: sprites, graphics, scene layers, `drawTerrain`, `updateVisuals`, `addSpots`, `resize`, and the `PowerMeter`, `AngleIndicator` and `UIOverlay` components.
- Sounds, asset loading and console logging are not modelled; they have no effect on the game state.
- The physics solver is not modelled: integration, collisions, the effect of `applyForce`, and `setStatic`. The world is a registry of body ids with labels. The cow's position and velocity are supplied from outside through `Entities.Cow.SyncBody`.
- Trampoline contact detection is not modelled. Nothing in the four files calls `bounce`, so `Entities.Cow.Bounce` is modelled but has no caller.
- The height profile (`getTerrainHeight`, a seeded sine) is a function-valued constant `heightAt` fixed when the generator is created.
- The cosine and sine of the launch angle are function-valued constants `cosDeg` and `sinDeg` taking degrees.
- `Math.random` in batch generation is replaced by a sequence of draws `rolls`, one pair per segment, passed to `Update`.
- `window.innerWidth` and `window.innerHeight` are constructor parameters.
- Numbers are exact reals, not IEEE doubles, so rounding is not modelled. The angle is an integer: it starts at 45 and moves in steps of 1.
- Scoring.ScoreManager.AddTrick: takes an integer `value`, and the trick counter is an integer. The game's code accepts any number there, so a fractional value such as 0.5 is outside the model. No code in the four modelled files calls it, and the default value is 1.
- Scoring.ScoreManager.AddCombo: the same restriction to integers, for the combo counter.
- Scoring.ScoreManager.AddBounce: the same restriction to integers, for the bounce counter.
- Scoring.ScoreManager.AddObstacle: the same restriction to integers, for the obstacle counter.
- Key names are already lower-cased and classified into `Key` values; case folding of key names is not modelled.
- Registering and removing the window listeners is modelled only as the `listening` flag. The window's dispatch is not modelled, so the handlers are not gated on that flag.
- The game-over timer is modelled as the ghost log `gameOverTimers`. The callback itself and the 2000 ms wait are not run.
- The null checks on the scene's components are left out. All three components exist from construction on.
- The loops of `generateInitialTerrain`, `addTerrain`, `generateMoreTerrain` and `cleanupTerrain` are written as separate methods, each with its own loop invariants: `AddInitialSegments`, `AddInitialTrampolines`, `AddInitialObstacles`, `LayBatch`, `AddBatchSegment`, `ShiftRetired` and `RemoveBehind`. The setup of the scene is split into its constructor and `PlaceStart` in the same way.
- Coverage of a fixed window around the player is not modelled. The game does not guarantee it: generation happens at most one batch per frame.
- Teardown of the session's bodies is not modelled. No code in the four files performs it.
- Terrain.TerrainGenerator.Update: states that a generated batch grows the id counter, that nothing is left behind the cutoff and that foreign bodies are untouched. It does not restate the composed list contents; `GenerateMoreTerrain` and `CleanupTerrain` state those separately.
- Scenes.GameScene.Update: states the terrain's effect only through the class invariant and the cutoff bound on the remaining segments. The full terrain step is stated by `Terrain.TerrainGenerator.Update`.
