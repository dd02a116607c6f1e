# Tower defence simulation core, in Dafny

This project models the frame-by-frame simulation of a browser tower-defence
game. Rendering is removed throughout. Each source file is one module:

- `Constants` (src/utils/Constants.js): the tower price, the three-waypoint
  enemy path, the three-wave table and the six game states.
- `GameAssets` (src/assets/GameAssets.js): tile flags, the 8 x 8 map with its
  L-shaped path and hexagonal placement, and the death effect.
- `Entities`: the enemy, tower and projectile records. An enemy is identified
  by an `id`, so a projectile's target is an id that may have left the list.
- `Core` (src/core/Game.js): the `Game` class that owns the entity lists, the
  ledger fields, the game state and the map. It has the session's operations:
  state changes, spawning, bounds-checked removal, the click-to-build rule
  and the health-bar fraction.
- `Waves` (src/systems/WaveSystem.js): the `WaveSystem` class, a countdown
  that releases a wave's enemies one at a time.
- `Enemies` (src/systems/EnemySystem.js): the reverse pass over the live
  enemies, which drops malformed entries, charges leaks to the base and moves
  the rest.
- `Targeting`: the nearest-enemy scan that the combat system and the tower
  manager both run.
- `Combat` (src/systems/CombatSystem.js): tower cooldowns and firing, and the
  reverse projectile pass with hits, kills and rewards.
- `Effects` (src/systems/EffectSystem.js): effect ageing and expiry.
- `Resources` (src/managers/ResourceManager.js) and `Towers`
  (src/managers/TowerManager.js): the standalone ledger and tower-purchase
  classes.
- `Loop`: one frame of `animate`.
- `Geometry`, `Seqs`, `Wrappers`: vectors, angle normalisation, and a generic
  filter-map over sequences.

How the model is proved:

- Every loop that splices a list in place is a `method` with a `while` or
  `for` loop.
- Each such method is proved equal to a recursive specification function
  that takes the last entry first, as the reverse index loop does.
- Lemmas about those functions state what the pass means. Every entry is
  visited exactly once, survivors keep their order, the base is charged the
  sum of the leaks, and GAME_OVER is entered and announced exactly once.
  Each kill pays exactly 10 and leaves exactly one death effect.
- A whole frame is also a function on values (`Loop.Frame`, over a
  `Session` snapshot of the game and the spawner's `Countdown`). `Animate`
  and each of its phases are proved to leave exactly the state that
  function gives.

Floating-point vector maths is not computed. Distances (`distanceTo`),
bearings (`atan2`) and the turret muzzle point are a `Maths` record that the
caller passes in. Random draws are passed in as well: the particle count and
the particles of a death effect, one set per enemy id.

Notes on what the code does:

- The wave table holds only a count and a delay, and every spawned enemy is
  a basic one (`spawnEnemy()` is called with no type). There is no shuffled
  per-type spawn queue.
- `isWaveComplete` requires WAVE_ACTIVE; WAVE_SPAWNING does not qualify.
- The enemy pass does not clamp base health, which may go below 0. Only the
  separate `ResourceManager.damageBase` clamps.
- A kill pays a flat 10 resources, not the enemy's `value`.

Two observations about the fixed data:

- `GameAssets.PathAgainstTiles` shows that the first and last waypoints lie
  over the start tile (2, 0) and the end tile (6, 5). The corner waypoint
  (4, 0.5, 8.75) lies over no tile centre. Tile (2, 5) is in an odd row, so
  its centre is shifted half a tile to x = 5.
- A wave with count 0 would leave the game in WAVE_SPAWNING for ever:
  `Waves.WaveSystem.Update` never spawns, so it never reaches WAVE_ACTIVE.
  The table has no such wave, since `Constants.WaveConfig` proves every
  count positive.

## Model

| member | source | states |
|---|---|---|
| Constants.EnemyPath | src/utils/Constants.js:6-10 | the path has exactly three waypoints, consecutive waypoints differ, and every waypoint has height 0.5 |
| Constants.WaveConfig | src/utils/Constants.js:13-17 | three waves, every count and delay positive, each wave larger and faster than the one before |
| Constants.StateNamesDistinct | src/utils/Constants.js:19-26 | the six state names are pairwise distinct, so comparing names compares states |
| Entities.NewEnemy | src/assets/EnemyAssets.js:91-94 | a fresh enemy has positive health and speed, is flying iff of the flying kind, and has no path index, maximum health or leak damage set |
| Entities.IndexOf | src/systems/CombatSystem.js:95 | `indexOf`: -1 exactly when no entry has the id, otherwise the first entry holding it |
| Entities.IndexOfUnique | src/systems/CombatSystem.js:95 | while ids are unique, `indexOf` of an enemy's id finds exactly that enemy's entry, so ids stand in for object identity |
| Entities.RemoveAtKeepsIds | src/core/Game.js:304-305 | splicing one enemy out keeps the live ids pairwise distinct and already handed out |
| Entities.RemoveAt | src/core/Game.js:305 | `splice(index, 1)`: one element shorter, entries before the index kept, entries after it shifted down by one |
| Geometry.Wrap | src/systems/EnemySystem.js:99-100 | the normalised angle lies in [-PI, PI] and an angle already there is unchanged |
| Geometry.WrapSameDirection | src/systems/EnemySystem.js:99-100 | normalising adds a whole number of full turns, so the direction is the same |
| Geometry.NormalizeAngle | src/systems/EnemySystem.js:96-100 | the two `while` loops end, with a result in [-PI, PI] equal to `Wrap` of the input |
| GameAssets.TileFlags | src/assets/GameAssets.js:208-211 | buildable iff the type is buildable; walkable iff path, start or end; never both; an unknown type is neither |
| GameAssets.DefaultLayout | src/assets/GameAssets.js:268-283 | on the 8 x 8 map, walkable cells are exactly the L from (2,0) to (6,5); every other cell is buildable; (2,0) is the only start and (6,5) the only end |
| GameAssets.CreateGameWorld | src/assets/GameAssets.js:264-298 | the nested loops create mapSize² tiles, and tile i is cell (i / mapSize, i % mapSize) with its type and hexagonal position |
| GameAssets.PathAgainstTiles | src/assets/GameAssets.js:289-294 | the first and last waypoints sit over the start and end tiles; the corner waypoint sits over no tile centre |
| GameAssets.ParticleCount | src/assets/GameAssets.js:227 | a death effect has 8 to 10 particles |
| GameAssets.CreateDeathEffect | src/assets/GameAssets.js:216-261 | a death effect starts at the given position with age 0, lifetime 60 and 8 to 10 particles |
| Core.HealthPercent | src/core/Game.js:324 | a fraction is never negative; health within (0, max] gives a fraction of at most 1; an unset maximum gives NaN |
| Core.HealthBarShown | src/core/Game.js:321-331 | with a positive maximum the bar shows iff health is positive; without a maximum it never shows; only the bar changes |
| Core.Spawned | src/core/Game.js:250-286 | the spawned enemy stands on the first waypoint, raised 2 if it flies, with path index 0 and its kind's health and speed |
| Core.Game.constructor | src/core/Game.js:31-37 | a session starts with 100 resources, 100 base health, state IDLE, empty lists and the full default map |
| Core.Game.SetGameState | src/core/Game.js:136-145 | setting the current state changes nothing; otherwise the state changes, and only GAME_OVER and VICTORY are announced |
| Core.Game.SpawnEnemy | src/core/Game.js:250-295 | exactly one enemy is appended, with a fresh id, so the live ids stay distinct |
| Core.Game.RemoveEnemy | src/core/Game.js:297-309 | splices exactly the entry at an in-range index and otherwise leaves the list alone; a death effect is appended exactly when asked for; the live ids stay distinct |
| Core.Game.RemoveProjectile | src/core/Game.js:311-318 | splices exactly the entry at an in-range index and otherwise leaves the list alone |
| Core.Game.OnMouseClick | src/core/Game.js:188-201 | a buildable tile and at least 50 resources buy one tower on the tile, charge exactly 50 and make the tile unbuildable; otherwise nothing changes; towers able to fire stay so |
| Waves.WaveSystem.constructor | src/systems/WaveSystem.js:4-11 | no wave started, nothing to spawn, timers at 0 |
| Waves.WaveSystem.StartNextWave | src/systems/WaveSystem.js:13-24 | from IDLE or WAVE_COMPLETE with a wave left: wave number up by exactly 1, count, delay and timer from that wave, state WAVE_SPAWNING; otherwise nothing changes; spawned plus still-to-spawn equals the wave's count |
| Waves.WaveSystem.Update | src/systems/WaveSystem.js:26-40 | the new counters and session are `SpawnTick` of the old ones; outside WAVE_SPAWNING nothing changes; in it the timer drops by the frame time, at most one basic enemy spawns (exactly when the timer is out and enemies remain), the count drops by exactly 1 and the timer restarts, and the spawn that empties the count moves the game to WAVE_ACTIVE |
| Waves.WaveSystem.GetCurrentWaveNumber | src/systems/WaveSystem.js:42-44 | the wave number never exceeds the number of waves in the table |
| Waves.CompleteWaveFullyReleased | src/systems/WaveSystem.js:46-49 | a complete wave has released its whole count |
| Waves.AllWavesMeansLastStarted | src/systems/WaveSystem.js:51-53 | all waves are complete exactly when the third and last wave has been started |
| Waves.FirstWaveScenario | src/systems/WaveSystem.js:13-40 | from a new session, starting wave 1 and five 1-second updates leave five basic enemies on waypoint 0 and the game in WAVE_ACTIVE |
| Enemies.LeakDamage | src/systems/EnemySystem.js:73 | `damage \|\| 10`: an absent or zero (falsy) damage charges 10 and a non-zero one charges itself |
| Enemies.Special | src/systems/EnemySystem.js:32-37 | only a flying enemy is touched: its height becomes its waypoint's height plus its hover height (2 when unset or 0), and it is dropped exactly when its path index is outside the path |
| Enemies.EnemyStep | src/systems/EnemySystem.js:63-112 | malformed entries are dropped; an index at or past the last waypoint leaks its damage; otherwise a reachable waypoint is snapped onto with the index up by 1 and the heading kept, and an unreachable one is approached with the index kept and the heading turned by the normalised difference times dt times 5 |
| Enemies.EnemyStepKeeps | src/systems/EnemySystem.js:63-112 | an enemy with an index before the last waypoint is always kept; one at index -1 is kept unless it flies and does not reach the first waypoint; a kept enemy changes only its position, index and heading; a flying one hovers above the waypoint its new index names |
| Enemies.StepEnemy | src/systems/EnemySystem.js:64-109 | the imperative step, with both normalisation loops, computes `EnemyStep` |
| Enemies.AfterLeak | src/systems/EnemySystem.js:72-80 | a leak lowers base health by exactly its damage; GAME_OVER is requested iff health is at or below 0 and the state is not already GAME_OVER, with one announcement |
| Enemies.EnemyAt | src/systems/EnemySystem.js:61-122 | one loop iteration: a removed entry is spliced out, a leak is also charged, and a kept entry is replaced in place |
| Enemies.Update | src/systems/EnemySystem.js:59-124 | the reverse loop leaves exactly the survivors, base health, state and announcements of `EnemyPass`, and no effect is added |
| Enemies.PassSurvivors | src/systems/EnemySystem.js:59-124 | the survivors are the kept steps of the original entries, independent of base health or state |
| Enemies.VisitsEachOnce | src/systems/EnemySystem.js:60-121 | walking from the back while splicing visits every enemy exactly once: each survivor comes from its own entry, in list order, and an entry survives exactly when its step keeps it |
| Enemies.PassKeepsIds | src/systems/EnemySystem.js:60-121 | the survivors of a pass are old entries under their own ids, so distinct ids stay distinct |
| Enemies.SurvivorsOnPath | src/systems/EnemySystem.js:72-92 | from enemies on the path, every survivor's path index stays within [0, path length - 1] |
| Enemies.PassCharges | src/systems/EnemySystem.js:72-74 | the base is charged exactly the sum of the leak damages, without clamping |
| Enemies.PassGameOver | src/systems/EnemySystem.js:72-80 | GAME_OVER is kept once reached; otherwise it is entered exactly when some enemy leaked and health ended at or below 0, announced exactly once |
| Enemies.PassStateOrGameOver | src/systems/EnemySystem.js:77-79 | whatever the damages, a pass leaves state and announcements alone or enters GAME_OVER with exactly one announcement |
| Enemies.PassKeepsGameOver | src/systems/EnemySystem.js:77-79 | once GAME_OVER, the rest of the pass neither leaves it nor announces again |
| Enemies.TurnBounded | src/systems/EnemySystem.js:94-104 | a step turns the heading by at most PI times dt times 5 either way |
| Targeting.Nearest | src/systems/CombatSystem.js:29-38 | the pick is strictly within the limit, strictly nearer than every earlier enemy and no farther than any later one; there is no pick iff no enemy is within the limit |
| Targeting.NearestUnique | src/systems/CombatSystem.js:29-38 | only one index has that property, so the pick is determined |
| Targeting.UnlimitedThenBound | src/managers/TowerManager.js:56-68 | scanning without a limit and accepting below 5 picks the same enemy as scanning with limit 5 |
| Targeting.UnlimitedFindsAny | src/managers/TowerManager.js:56-65 | a scan starting from `Infinity` picks an enemy iff there is one |
| Targeting.Distances | src/systems/CombatSystem.js:33 | one distance per enemy, in list order |
| Targeting.ScanNearest | src/systems/CombatSystem.js:29-38 | the `distance < minDistance` loop computes `Nearest` |
| Combat.Shot | src/systems/CombatSystem.js:54-66 | the projectile chases the target's id at speed 10 with the tower's damage |
| Combat.TowerStep | src/systems/CombatSystem.js:15-51 | a tower with a turret and a non-zero attack speed keeps both after its turn, so the next `1 / attackSpeed` is defined |
| Combat.TowerStepSpec | src/systems/CombatSystem.js:14-52 | defaults range 5, damage 25, attack speed 1; cooldown down by exactly dt; fires iff the cooldown is out and an enemy is strictly in range; then aims at and shoots the nearest, cooldown 1/attackSpeed; otherwise only the cooldown changes |
| Combat.TowersPass | src/systems/CombatSystem.js:15-51 | one tower out per tower in, at most one shot per tower |
| Combat.TowersPassEach | src/systems/CombatSystem.js:15 | every tower takes exactly its own turn |
| Combat.ShotsAtLiveEnemies | src/systems/CombatSystem.js:40-50 | every new projectile chases an enemy in the list, at speed 10, with some tower's damage |
| Combat.ShootProjectile | src/systems/CombatSystem.js:54-66 | exactly the tower's shot is appended |
| Combat.TowerTurnAt | src/systems/CombatSystem.js:15-51 | one loop iteration replaces the tower by its turn and appends its shot, if any |
| Combat.UpdateTowers | src/systems/CombatSystem.js:14-52 | the loop leaves the towers and the appended shots of `TowersPass`, in list order |
| Combat.ProjectileStepSpec | src/systems/CombatSystem.js:69-103 | a projectile with its target gone is dropped and changes nothing; it hits exactly when its flight of speed times dt toward the target ends less than 0.5 from it; a miss keeps flying from that new position and changes nothing else; a hit lowers exactly the target's health by the damage; a kill removes exactly the target, pays exactly 10 and adds one death effect |
| Combat.HitsOwnTarget | src/systems/CombatSystem.js:74-95 | with distinct ids, a projectile finds and acts on exactly the enemy it was fired at |
| Combat.ProjectileStepKeepsIds | src/systems/CombatSystem.js:85-98 | a projectile's turn only strikes or removes an enemy, so the live ids stay distinct |
| Combat.ProjectilePassKeepsIds | src/systems/CombatSystem.js:68-104 | the whole projectile pass keeps the live ids distinct |
| Combat.ProjectileTurnAt | src/systems/CombatSystem.js:69-103 | one loop iteration does exactly `ProjectileStep` to the world and splices or updates the projectile in place |
| Combat.UpdateProjectiles | src/systems/CombatSystem.js:68-104 | the reverse loop leaves exactly the survivors and world of `ProjectilePass` |
| Combat.KillsPaid | src/systems/CombatSystem.js:90-98 | the pass pays exactly 10 per enemy it removes and leaves one death effect per removal; it never adds enemies or projectiles |
| Combat.OneHit | src/systems/CombatSystem.js:85-101 | a projectile that reaches its only enemy removes itself and either leaves the enemy struck or kills it with the reward |
| Combat.FourHitsKill | src/systems/CombatSystem.js:85-101 | four 25-damage hits take a 100-health enemy to 0: three leave it with 25 left and pay nothing, the fourth removes it and pays 10 |
| Combat.Update | src/systems/CombatSystem.js:9-12 | the towers' turns, then the projectile pass over the old projectiles plus the new shots; the live ids stay distinct |
| Effects.Drift | src/systems/EffectSystem.js:13-17 | a particle moves by its velocity and its vertical velocity drops by exactly 0.005 |
| Effects.DriftParticles | src/systems/EffectSystem.js:12-18 | the particle loop drifts every particle |
| Effects.Tick | src/systems/EffectSystem.js:9-18 | an update makes the effect exactly one frame older, whatever the frame time |
| Effects.Aging | src/systems/EffectSystem.js:9-23 | an effect stays exactly when its new age is below its lifetime, and is then one frame older |
| Effects.AgeAt | src/systems/EffectSystem.js:7-23 | one loop iteration ages the effect in place or splices it out |
| Effects.Update | src/systems/EffectSystem.js:6-25 | the reverse loop leaves exactly the aged survivors |
| Effects.SurvivorsInOrder | src/systems/EffectSystem.js:6-25 | the survivors are the old effects one frame older, in their old order; an effect survives iff its new age is below its lifetime |
| Effects.AgesByOne | src/systems/EffectSystem.js:9 | after k updates an effect still present is exactly k frames older |
| Effects.Lifespan | src/systems/EffectSystem.js:9-23 | a fresh effect with lifetime L survives the first L - 1 updates and is removed by the L-th |
| Effects.DeathEffectLifespan | src/assets/GameAssets.js:257-258 | a death effect survives 59 updates and is removed by the 60th |
| Resources.ClampedHealth | src/managers/ResourceManager.js:30 | `max(0, health - amount)`: never negative, 0 exactly when the damage reaches the health |
| Resources.ResourceManager.constructor | src/managers/ResourceManager.js:4-9 | starts with 100 resources, 100 base health and score 0 |
| Resources.ResourceManager.AddResources | src/managers/ResourceManager.js:11-14 | resources grow by exactly the amount |
| Resources.ResourceManager.SpendResources | src/managers/ResourceManager.js:16-27 | succeeds exactly when `HasEnoughResources` held, then subtracts exactly the amount; a failed spend changes nothing; a non-negative balance stays non-negative |
| Resources.ResourceManager.DamageBase | src/managers/ResourceManager.js:29-36 | health becomes the clamped difference and never goes negative; at 0 the game is in GAME_OVER, announced once; above 0 state and announcements are untouched; a hit after GAME_OVER announces nothing again |
| Resources.ResourceManager.AddScore | src/managers/ResourceManager.js:38-41 | the score grows by exactly the amount |
| Resources.ResourceManager.GetStats | src/managers/ResourceManager.js:43-49 | the stats are exactly the three fields |
| Resources.ResourceManager.Reset | src/managers/ResourceManager.js:51-56 | back to exactly the starting figures |
| Towers.AimedAtNearestInRange | src/managers/TowerManager.js:52-75 | the turret turns toward exactly the enemy that the scan with limit 5 picks, and stays put without one; only the aim changes; a tower without a turret is skipped |
| Towers.TowerManager.constructor | src/managers/TowerManager.js:5-8 | starts with no towers |
| Towers.TowerManager.TryBuildTower | src/managers/TowerManager.js:10-29 | succeeds iff the tile exists and is buildable, resources cover 50 and the factory works; then one tower is added, exactly 50 is charged and the tile is taken; otherwise nothing changes |
| Towers.TowerManager.BuildTower | src/managers/TowerManager.js:31-43 | a tower on the tile at height 0.2 is appended, or nothing when the factory throws |
| Towers.TowerManager.UpdateTower | src/managers/TowerManager.js:52-75 | the tower at the index becomes `Aimed`; the others are untouched |
| Towers.TowerManager.Update | src/managers/TowerManager.js:45-50 | every tower becomes `Aimed`, whatever the frame time |
| Towers.TowerManager.RemoveTower | src/managers/TowerManager.js:77-84 | splices only for a given tower and an in-range index |
| Towers.TowerManager.Cleanup | src/managers/TowerManager.js:86-92 | leaves no towers |
| Loop.EnemyPhase | src/core/Game.js:119 | the new session is the enemy pass applied to the old one (`EnemyFrame`); it leaves state and announcements alone or enters GAME_OVER with one announcement |
| Loop.CombatPhase | src/core/Game.js:120-121 | the new session is the towers' turns, the projectile pass over old projectiles and new shots, then effect ageing (`CombatFrame`); every tower stays able to fire |
| Loop.RunSystems | src/core/Game.js:117-122 | the new counters and session are the spawner's turn, then the enemy pass, then combat and effects (`Systems`); the four systems never declare VICTORY, change announcements only by entering GAME_OVER, and keep the wave invariant, the towers' readiness, distinct live ids and the map |
| Loop.CheckCompletion | src/core/Game.js:123-129 | the new session is `Completed` of the old one: a complete wave moves the game to WAVE_COMPLETE, and on to VICTORY with its one notice when every wave has been started; otherwise state and notices are untouched |
| Loop.FrameOutcome | src/core/Game.js:111-133 | on values, a frame in GAME_OVER or VICTORY changes nothing; any other frame never ends with a complete wave unacknowledged, and ends in VICTORY only with every wave started, no enemy left and exactly one new notice |
| Loop.Animate | src/core/Game.js:111-133 | the new counters and session are `Frame` of the old ones: GAME_OVER and VICTORY freeze the session; the live ids stay distinct; otherwise a frame never ends with a complete wave unacknowledged, and VICTORY comes only with every wave started and no enemy left, announced once |

## Left out

- Rendering, Three.js meshes and materials, the scene graph, camera, lights, orbit controls, resizing, `requestAnimationFrame` and health-bar billboarding: they have no effect on the simulation state.
- Floating-point vector and trigonometric maths: `distanceTo`, `normalize`, `atan2`, `lookAt` and `localToWorld` are supplied by the caller as `Maths`. IEEE rounding is not modelled.
- Randomness: the death-effect particle count and particle draws are parameters (`DeathDraws`, one per enemy id). Particle rotation speeds are not modelled.
- Enemies.Special: the cosmetic special behaviours (swarm bobbing, the flying float sine, the tank turn on a `targetRotation` that is never set, the boss glow) and the shared animation clock are left out. Only the flying enemy's height above its waypoint, and its failure on an index outside the path, are kept.
- Enemies.Update: the exception path is modelled only for the failures the pass can meet: a negative index below -1, and a flying enemy whose index is outside the path. Other failures of the rendering calls are out of scope.
- `updateUI` and every UI and DOM call are treated as doing nothing. In the code, `Game.updateUI` reads `WAVE_CONFIG` without importing it and calls `getTotalEnemiesInWave`, which does not exist, so it would throw. This wiring defect is not modelled.
- `alert` and `console` output: only the GAME_OVER and VICTORY notices are recorded, as the `alerts` list.
- Input handling (src/managers/InputManager.js, raycasting, mouse move) and the UI manager: only the purchase rule of `onMouseClick` is modelled, with the hit tile passed in.
- src/main.js: its `setInterval` spawning bypasses the wave system.
- `Game` is not wired to `ResourceManager` or `TowerManager`, as in the code. Those classes are modelled on their own, acting on a `Game`'s resources and tiles.
- Core.Spawned: every kind's factory stats are included, but the wave system only ever spawns basic enemies.
- Combat.TowerStep: requires a turret and a non-zero attack speed (`CanFire`); a negative attack speed is modelled. In the code a tower without a turret throws on `lookAt`. With an attack speed of 0, `1 / 0` is `Infinity` in JavaScript, so the cooldown becomes `Infinity` and the tower never fires again; reals have no `Infinity`, so that case is not modelled. Every tower the game builds gets attack speed 1.
- Towers.TowerManager.UpdateTower: models the intended turn toward the nearest enemy within 5. In the code, src/managers/TowerManager.js:69 calls `new THREE.Vector3()` but the file imports only `TOWER_COST` and `createBasicTower` (lines 1-2), so `updateTower` throws a `ReferenceError` whenever the nearest enemy is within 5. The same applies to `Towers.TowerManager.Update` and `Towers.AimedAtNearestInRange`. This wiring defect is not modelled.
- Core.Spawned: models the intended enemy factories. In the code, src/core/Game.js:7-12 imports `createBasicEnemy` through `createBossEnemy` from src/assets/GameAssets.js, which exports none of them (they are in src/assets/EnemyAssets.js:22-439), so the `Game` module fails to load. This wiring defect is not modelled; the factories' statistics are taken from src/assets/EnemyAssets.js.
- Resources.ResourceManager.HasEnoughResources: it has no contract of its own. Its meaning is stated through `SpendResources`, which succeeds exactly when it holds.
- Integer and real fields are unbounded; JavaScript's floating-point numbers are modelled as reals.
