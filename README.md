# Castle of Cards tower defense: the simulation core in Dafny

The model covers the frame-by-frame simulation of the browser tower-defense game in `game.js`:

- **Waves.** A wave fills a spawn queue with orcs, bats and golems, then shuffles it.
- **Spawning.** A spawn timer releases one enemy every 41 frames. When a wave is over the next one begins, and after wave 20 the level is complete.
- **Enemies.** They walk a Manhattan road of waypoints to the castle, and each one that arrives costs a life.
- **Towers.** Archer, cannon and ice towers fire at the first enemy in range and then wait out a cooldown.
- **Projectiles.** They home on their target and resolve a direct hit, the ice slow or the cannon splash, and pay the victim's reward.
- **Cleanup.** Each frame ends with the filters that drop dead and arrived enemies and spent projectiles.
- **Building.** A click builds a tower if the rules allow it.
- **The map.** Levels start with a random map.
- **Controls.** Pause, select a tower, complete a level, lose the game, go to the next level.

The project comes in three layers:

- **Value layer.**
  - `Geometry`: squared distances, the normalised step, the point-to-segment distance.
  - `Waves`: wave composition and the Fisher–Yates shuffle, including the in-place array method.
  - `Entities`: tower and enemy stats, and the per-entity rules (`moveEnemy`, `runTower`, the hit, the splash, particles).
  - `MapGen`: `generateMap`, as functions plus the method with its two push loops.
  - `World`: the whole game as one `State` value, and every transition as a function. One frame is `Tick`, built phase by phase.
- **Proof layer.**
  - `Invariant` defines the invariant `Valid` kept between frames, and proves that every transition preserves it.
  - `Properties` proves the behaviour the game promises.
- **Object layer.**
  - `Game.Game` is a class whose fields are the game's globals.
  - Its methods run the loops of `update`, the click handler and the controls in place.
  - Each method is proved to leave `Snapshot()` equal to the matching `World` function applied to the state before the call.

### How the model represents the game

Enemies live in a table `pool` indexed by an id. The table only grows during a level. `enemies` is the list of live ids, kept strictly increasing. A projectile names its target by id. This keeps the code's behaviour of a projectile that goes on homing on an enemy which reached the castle and was filtered out of `enemies`.

Random draws are inputs:

- the five checkpoint row offsets (`picks` of `GenerateMap`);
- the Fisher–Yates indices (`picks` of `StartWave`, with `picks[i] <= i`).

`Math.hypot(dx, dy) < r` becomes `dx² + dy² < r²`, which is exact for `r >= 0`.

The per-frame move needs `dx / dist`. It takes a `norm` function as a parameter, required to satisfy `IsNorm`: the result is non-negative and its square is `dx² + dy²`.

### Behaviour of the code the model keeps

- **Frame order.** A frame spawns or ends a wave first, then moves the enemies, runs the towers, moves the projectiles and ages the particles, and filters last (`game.js:179-204`).
  - An enemy spawned in a frame moves in that frame (`SpawnedEnemyMoves`).
  - A projectile fired in a frame also moves in that frame, because the projectile loop runs after the tower loop (`FiredProjectileMoves`).
- **Hp multiplier.** At level 1, wave 1 the multiplier is 1 + 0.2 + 0.15 = 1.35, so a first orc has 40.5 hp and needs three archer arrows (`FirstWaveMultiplier`, `FirstOrcTakesThreeArrows`).
- **Cannon double hit.** The cannon damages its primary target twice: 50 directly, and 25 more from its own splash whenever the target is still listed (`ProjectileHit`, `CannonDoubleHit`).
- **Splash kills.** Enemies killed by the splash pay no gold. Only the primary target is checked for a reward.
- **Arrived targets.** The stale-target test is `hp <= 0 && !reached`.
  - A projectile still damages an enemy that reached the castle.
  - If that enemy's hp is already at or below 0, every further projectile that lands on it pays the reward again (`ArrivedPaysAgain`).
- **Click before the first level.** The click listener exists from load, but the road stays empty until the first `initLevel`. A click that passes the gold check then throws when it reads the castle, before any state has changed, so it builds nothing (`ClickOutcome`).
- **`initLevel` resets.** `initLevel` does not reset `waveActive`, `spawnTimer`, `isPaused` or the level number.
- **Dead fallback branch.** The fallback branch of `generateMap` for a canvas with no usable row (`game.js:71-86`) logs an error, discards one random draw and otherwise assigns only locals, so it does not change the game's state. The rows are then drawn from `firstUsableRowIndex + floor(random * numUsableRows)` as usual (`RowPickOk`).
- **Game over.** `isGameOver` set in the middle of a frame does not stop the rest of that frame. Once it is set, `update` returns without rescheduling, so later frames are the identity until `nextLevel`.

## Model

| member | source | states |
|---|---|---|
| Entities.Cost | game.js:23-27 | tower prices 50, 120 and 200; every price is positive |
| Entities.Damage | game.js:23-27 | tower damage 15, 50 and 5; every value is positive |
| Entities.Rate | game.js:23-27 | cooldown periods 30, 80 and 10; every period is positive |
| Entities.ProjectileSpeed | game.js:23-27 | projectile speeds 12, 10 and 8; every speed is positive, and is also the hit radius |
| Entities.BaseHp | game.js:29-33 | base hp 30, 15 and 150 for orc, bat and golem; every value is positive |
| Entities.Speed | game.js:29-33 | walking speeds 1.5, 3.5 and 0.8; every speed is positive |
| Entities.Reward | game.js:29-33 | rewards 10, 15 and 50; every reward is positive |
| Entities.Range | game.js:23-27 | tower ranges 120, 150 and 100; every range is positive |
| Entities.EffectOf | game.js:24-26 | defines the `type` of each tower: single for the archer, area for the cannon, slow for ice |
| Entities.HpMultiplier | game.js:212 | defines the hp multiplier 1 + level × 0.2 + wave × 0.15; its first-wave value is fixed by `FirstWaveMultiplier` |
| Entities.Spawned | game.js:210-225 | a new enemy stands on the first waypoint with wp 0, not frozen, not arrived, and hp equal to maxHp; for non-negative level and wave its hp is at least the base hp |
| Entities.FirstWaveMultiplier | game.js:212 | the level-1, wave-1 multiplier is 1.35, and a first orc has 40.5 hp |
| Entities.EffectiveSpeed | game.js:228 | the speed of the move is exactly half the kind's speed while the enemy is frozen and the kind's speed otherwise; it is below the kind's speed exactly when the enemy is frozen |
| Entities.MoveEnemy | game.js:227-251 | kind and hp are kept; frozen drops by one while positive; wp grows by at most one and stays on the road; the enemy arrives exactly when this move takes it to the last waypoint; reached is set exactly when it already was or the enemy arrives now |
| Entities.MoveEnemyPosition | game.js:231-250 | with no waypoint ahead the enemy stays put; an enemy that snaps to the next waypoint was within one step of it; otherwise the enemy moves exactly one step of its current speed and ends strictly closer to the waypoint |
| Entities.InRange | game.js:257 | defines the targeting test: the distance to the tower is at most the range (squared, so `<=` is kept) |
| Entities.Target | game.js:257 | defines the tower's choice as `FirstInRange` over the listed ids, from position 0 |
| Entities.ArrivesOnce | game.js:231-232 | an enemy on the last waypoint never arrives again and only its slowness changes, so no enemy costs two lives |
| Entities.FirstInRange | game.js:257 | the result is the position of the first listed enemy at a distance no greater than the range, and None means no listed enemy is in range |
| Entities.RunTower | game.js:253-274 | the tower fires exactly when its cooldown is 0 and an enemy is in range, and it fires at the first one. A shot sets the cooldown to the rate and the shooting counter to 4; otherwise both count down while positive; both stay in bounds |
| Entities.RunFor | game.js:253-274 | defines n consecutive frames of one tower with the count of its shots; `RunForSplit`, `CooldownWait` and `FiringPeriod` characterise it |
| Entities.RunForSplit | game.js:253-274 | running a tower a+b frames is running it a frames and then b frames |
| Entities.CooldownWait | game.js:254 | a tower with cooldown c fires nothing in c frames, whatever is in range, and then has cooldown 0 |
| Entities.FiringPeriod | game.js:253-274 | a tower that always has a target in range fires once every rate+1 frames: n shots in n×(rate+1) frames |
| Entities.Strike | game.js:283-284 | a direct hit takes the tower's damage from the target, sets its slowness to 40 for ice, and changes nothing else |
| Entities.Splash | game.js:287-291 | the sweep changes only hp and never raises it |
| Entities.InBlast | game.js:288 | defines the blast test: strictly closer than 60 to the impact point |
| Entities.SplashEffect | game.js:287-291 | over a list without repeats, the sweep takes half the damage exactly from the listed enemies within 60 of the impact point |
| Entities.Explosion | game.js:307-311 | an explosion adds exactly count particles, each with life 15 |
| Entities.AgeParticles | game.js:313-316 | defines the ageing: every life drops by one, then the particles with life ≤ 0 are dropped; `AgeParticlesBounds` bounds the survivors |
| Entities.Glowing | game.js:315 | defines the particle filter's test: life above 0 |
| Entities.AgeParticlesBounds | game.js:313-316 | particles with lives in 1..h come out of the ageing and the filter with lives in 1..h-1 |
| Waves.RepeatCounts | game.js:154-156 | a push loop of n copies of x adds exactly n x's and nothing else |
| Waves.OrcCount | game.js:150 | defines the orc count 5 + wave / 2 |
| Waves.BatCount | game.js:151 | defines the bat count 2 × wave / 5 |
| Waves.GolemCount | game.js:152 | defines the golem count wave / 5 |
| Waves.CountsAreFloors | game.js:150-152 | each integer count n is the floor of the code's real product: n ≤ 5 + wave × 0.5 < n + 1, and likewise for wave × 0.4 and wave × 0.2 |
| Waves.WaveQueue | game.js:148-156 | defines the unshuffled queue: the orcs, then the bats, then the golems; `WaveQueueComposition` counts it |
| Waves.WaveQueueComposition | game.js:146-156 | the unshuffled queue of wave w holds 5+w/2 orcs, 2w/5 bats and w/5 golems, and has that many entries |
| Waves.Swap | game.js:142 | a swap exchanges cells i and j, keeps the length and leaves every other cell alone |
| Waves.ValidPicks | game.js:141 | defines the range of the shuffle draws: the draw at step i lies in 0..i |
| Waves.SwapPerm | game.js:142 | a swap keeps the multiset of tags |
| Waves.FisherYates | game.js:139-144 | the countdown of swaps keeps the length of the queue |
| Waves.Shuffled | game.js:139-144 | the whole shuffle of a queue is a permutation of it |
| Waves.FisherYatesPerm | game.js:139-144 | the countdown of swaps with draws j ≤ i is a permutation of its input |
| Waves.FisherYatesIdentity | game.js:139-144 | the draw j = i at every step leaves the queue unchanged, so the identity is a possible shuffle |
| Waves.Shuffle | game.js:139-144 | the in-place loop leaves the array equal to the shuffle of its old contents, and a permutation of them |
| MapGen.FirstUsableRowIsCeiling | game.js:67-68 | the first usable row is the ceiling of 80 over the cell height: the smallest row whose top edge is at or below the band |
| MapGen.FirstUsableRow | game.js:67 | defines the first usable row as the integer ceiling of 80 × 6 / height; `FirstUsableRowIsCeiling` characterises it |
| MapGen.UsableRows | game.js:68 | defines the number of usable rows, 6 minus the first usable row |
| MapGen.RowPickOk | game.js:91-102 | defines the range of a row draw `floor(random × n)`: 0..n-1 for n > 0, and n..0 otherwise |
| MapGen.Column | game.js:91-102 | defines the columns 0, 2, 4, 6 and 7 of the five checkpoints |
| MapGen.Center | game.js:106-111 | defines the pixel centre of a cell: index × size + size / 2 |
| MapGen.Checkpoints | game.js:91-102 | there are exactly five checkpoints |
| MapGen.CheckpointRows | game.js:91-102 | with a usable row every checkpoint row lies in [first usable row, 6), and the columns are 0, 2, 4, 6 and 7 |
| MapGen.Road | game.js:104-118 | a road through n checkpoints has 2n-1 waypoints |
| MapGen.RoadShape | game.js:104-118 | the road starts at x = 0 on the first checkpoint's row; waypoint 2i is checkpoint i's centre and waypoint 2i-1 the corner before it; the legs alternate horizontal and vertical |
| MapGen.CenterBelowBand | game.js:107-111 | the centre of every usable row lies below the 80-pixel band that line 67 reserves |
| MapGen.MapPathShape | game.js:55-119 | the generated road has 9 waypoints, starts at x = 0, joins consecutive waypoints by axis-parallel legs, and with a usable row lies entirely below the band |
| MapGen.MapPath | game.js:55-119 | defines the generated road for a canvas size and five row draws; `MapPathShape` and `Generate` characterise it |
| MapGen.Generate | game.js:91-118 | the checkpoint loop and the leg loop build exactly the road `MapPath` describes |
| Geometry.StepTowardLength | game.js:302-303 | the normalised step moves exactly one speed |
| Geometry.StepTowardApproaches | game.js:302-303 | a step taken from farther than one speed ends strictly closer to the target |
| Geometry.StepToward | game.js:302-303 | defines the normalised step `from + (d / norm(d)) × speed`, also used by the enemies at lines 248-249; `StepTowardLength` and `StepTowardApproaches` characterise it |
| Geometry.Clamp01 | game.js:473 | the clamped parameter lies in [0, 1] and equals t when t already does |
| Geometry.Clamp01Ends | game.js:473 | below 0 the clamp gives 0, above 1 it gives 1 |
| Geometry.DistToSegmentSq | game.js:469-475 | defines `distToSegmentSq`; `DistToSegmentIsMinimum` characterises it |
| Geometry.Within | game.js:238 | defines the strict distance test `hypot(dx, dy) < r` as dx² + dy² < r² for r ≥ 0; the same test serves lines 281 and 288 |
| Geometry.WithinOrOn | game.js:257 | defines the targeting test `hypot(dx, dy) <= r` as dx² + dy² ≤ r² for r ≥ 0 |
| Geometry.DistToSegmentIsMinimum | game.js:469-475 | `distToSegmentSq` is non-negative, is the squared distance to v when v = w, is attained at a point of the segment, and is at most the squared distance to every point of the segment |
| Seqs.FilterMembers | game.js:203-204 | an element survives a filter exactly when it was present and passes the test |
| Seqs.FilterIdempotent | game.js:203-204 | filtering twice equals filtering once |
| Seqs.FilterSubsequence | game.js:203-204 | every survivor comes from the input |
| Seqs.FilterIncreasing | game.js:203 | filtering keeps list order: an increasing id list stays increasing |
| World.SpawnEnemy | game.js:210-225 | spawning appends one table entry, the new enemy at the path start, lists its id last, and changes nothing else |
| World.Initial | game.js:36-52 | defines the declared starting values: level 1, 150 gold, 10 lives, wave 1, empty collections, archer selected |
| World.SpawnPhase | game.js:179-194 | the spawn block changes only the table, the list, the queue, the timer, the wave and the flags; it keeps the old table as a prefix and keeps every id valid |
| World.MoveEnemies | game.js:227-251 | the move phase changes only the table, lives and the game-over flag; it keeps kinds and hp, never raises lives, leaves unlisted enemies untouched, and never clears game over |
| World.MoveEnemyAt | game.js:227-251 | defines one enemy's move with its life cost and the game-over flag; `MoveEnemyAtCore` and `LivesAccount` characterise it |
| World.RunTowers | game.js:198 | the tower phase changes only towers and projectiles, keeps the old projectiles as a prefix, and adds only unspent projectiles at valid ids |
| World.RunTowerAt | game.js:253-274 | defines one tower's frame with the projectile it appends; `TowerShot` characterises it |
| World.Impact | game.js:282-291 | a landing changes only hp and slowness, never raises hp, leaves slowness as it was or at 40, and changes the slowness of no enemy but the target |
| World.Sparks | game.js:292-294 | defines the explosion size: 10 particles for the cannon, 5 otherwise |
| World.MoveProjectileAt | game.js:276-305 | moving one projectile changes only the table, gold, particles and projectiles; it keeps targets, kinds, positions and waypoints, never raises hp, and never lowers gold |
| World.MoveProjectiles | game.js:199 | the projectile phase changes only the table, gold, particles and projectiles, never lowers gold, and keeps every id valid |
| World.MoveProjectilesKeeps | game.js:199 | the projectile phase keeps every projectile's target and kind, and changes only the hp and slowness of enemies, never raising hp |
| World.Tick | game.js:169-208 | a frame keeps every id valid and the road unchanged |
| World.Cleanup | game.js:203-204 | defines the two end-of-frame filters; `CleanupFilters` characterises them |
| World.AliveIn | game.js:203 | defines the enemy filter's test on an id: its entry has hp above 0 and has not arrived |
| World.Unspent | game.js:204 | defines the projectile filter's test: not yet hit |
| World.NearTower | game.js:490 | defines the tower collision: some tower stands closer than 30 |
| World.NearRoad | game.js:491-493 | defines the road collision: some segment is closer than 30 |
| World.CanBuild | game.js:477-493 | defines the conjunction of the handler's checks, false on a road with no waypoint |
| World.Click | game.js:477-498 | defines the handler's outcome; `ClickOutcome`, `BuiltClear` and `ClickValid` characterise it |
| World.InitLevel | game.js:122-136 | defines `initLevel`'s resets; `InitLevelValid` proves it starts a valid level |
| World.StartWave | game.js:146-159 | defines `startWave`; `StartWaveQueue` characterises its queue |
| World.TogglePause | game.js:162-167 | defines the pause flip; `PauseValid` proves it keeps the invariant |
| World.SelectTower | game.js:463-467 | defines the selection; `SelectValid` proves it keeps the invariant |
| World.EndGame | game.js:500-514 | defines the end of the game; `EndGameValid` proves it keeps the invariant |
| World.NextLevel | game.js:516-520 | defines `nextLevel`; `NextLevelValid` proves it keeps the invariant |
| Invariant.TickValid | game.js:169-208 | every frame keeps the invariant. Its counters: level ≥ 1, wave in 1..20, spawn timer in 0..40, gold ≥ 0, lives ≤ 10 and lives ≤ 0 only when over. Its entities: enemy slowness in 0..40, hp ≤ maxHp, waypoints on the road, cooldowns in [0, rate]. Its lists: ids valid and increasing, listed enemies alive and not arrived, no spent projectile, particle lives in 1..14 |
| Invariant.SpawnPhaseCore | game.js:179-194 | the spawn block keeps the within-frame invariant |
| Invariant.MoveEnemiesCore | game.js:197 | the move phase keeps the within-frame invariant |
| Invariant.RunTowersCore | game.js:198 | the tower phase keeps the within-frame invariant |
| Invariant.MoveProjectilesCore | game.js:199 | the projectile phase keeps the within-frame invariant |
| Invariant.FinishValid | game.js:200-204 | ageing and the two filters turn the within-frame invariant into the between-frames one |
| Invariant.ClickValid | game.js:477-498 | building keeps the invariant |
| Invariant.StartWaveValid | game.js:146-159 | starting a wave keeps the invariant |
| Invariant.InitLevelValid | game.js:122-136 | `initLevel` yields a valid state from any level ≥ 1, gold ≥ 0 and spawn timer in range, given a road of at least two waypoints |
| Invariant.NextLevelValid | game.js:516-520 | advancing to the next level keeps the invariant |
| Invariant.PauseValid | game.js:162-167 | pausing or resuming keeps the invariant |
| Invariant.SelectValid | game.js:463-467 | choosing a tower kind keeps the invariant |
| Invariant.EndGameValid | game.js:500-514 | ending the game, by a completed level or a lost one, keeps the invariant |
| Properties.StartWaveQueue | game.js:146-159 | after `startWave` the wave is active and nothing else changes. The queue holds exactly 5+w/2 orcs, 2w/5 bats and w/5 golems in some order: its multiset is the wave's |
| Properties.SpawnPacing | game.js:179-184 | with a non-empty queue the timer advances, and the timer stays in 0..40. When it passes 40, the head of the queue becomes one new enemy at the path start and the timer restarts at 0. The table's kinds plus the queue are conserved |
| Properties.WaveEnd | game.js:185-194 | with an empty queue the wave ends exactly when no enemy is listed and the wave is active. Ending clears the flag and advances the wave below 20, or ends the level at 20; the wave stays in 1..20 |
| Properties.SpawnedEnemyMoves | game.js:179-197 | an enemy spawned in a frame is moved in the same frame |
| Properties.FiredProjectileMoves | game.js:198-199 | every projectile fired by the tower phase of a frame is unspent and reached, still as fired, at its own index by the projectile phase of the same frame |
| Properties.MoveEnemiesEach | game.js:197 | every listed enemy is moved exactly once, from the state the frame found it in; unlisted enemies are untouched |
| Properties.WaypointProgress | game.js:231-242 | in one frame an enemy's waypoint index grows by at most one and stays on the road |
| Properties.LivesAccount | game.js:241-245 | lives drop by exactly the number of listed enemies that arrive. The game is over exactly when it already was, or when some enemy arrived and lives are at or below 0 |
| Properties.CleanupFilters | game.js:203-204 | the enemy filter keeps exactly the listed enemies with hp > 0 that have not arrived, and keeps list order; the projectile filter keeps exactly the unspent projectiles; a second cleanup changes nothing |
| Properties.TowerShot | game.js:253-274 | a tower at rest with an enemy in range appends exactly one projectile aimed at the first such enemy and restarts its cooldown; otherwise it appends nothing and counts down. The tower keeps its place and kind, the other towers are unchanged, and nothing but the towers and projectiles changes |
| Properties.StaleTarget | game.js:277 | a projectile whose target died before it landed is only marked hit; hp, gold and particles are unchanged |
| Properties.ProjectileHit | game.js:281-300 | a landing projectile is spent. The target loses the damage, plus half of it again for the cannon when the target is listed. Ice sets the target's slowness to 40. The cannon takes half the damage from every other listed enemy within 60, and no other enemy's slowness changes. Gold grows by the target's reward exactly when the target's hp is now at most 0. 10 or 5 particles appear |
| Properties.CannonDoubleHit | game.js:283-291 | a cannon shell landing on a listed enemy takes 75 hp from it |
| Properties.ChasesArrived | game.js:277-300 | a projectile aimed at an enemy that reached the castle and left the list still damages it, and still pays its reward if it kills it |
| Properties.ArrivedPaysAgain | game.js:277-298 | a projectile landing on an arrived enemy already at hp ≤ 0 pays its reward again |
| Properties.ProjectileFlies | game.js:301-303 | a projectile short of its target moves exactly one step of its speed, ends strictly closer to the target, and changes nothing else |
| Properties.FirstOrcTakesThreeArrows | game.js:210-213 | with the first-wave multiplier an orc survives two arrows of 15 damage and dies to the third |
| Properties.TickNeverHeals | game.js:169-208 | no frame raises an enemy's hp or changes its kind or starting hp |
| Properties.ClickOutcome | game.js:477-498 | a click either changes nothing, or appends exactly one ready tower of the selected kind at the click and deducts its cost, leaving gold ≥ 0; on a road with no waypoint it changes nothing |
| Properties.BuiltClear | game.js:488-493 | a built tower stands at least 30 from every point of every road segment, at least 30 from every other tower, and at least 50 from the castle |
| Game.Retain | game.js:203-204 | the filter loop returns exactly `Filter` of its input |
| Game.FindTarget | game.js:257 | the search loop returns exactly the first in-range position that `FirstInRange` describes |
| Game.TowerInTheWay | game.js:490 | the tower loop reports a collision exactly when some tower stands closer than 30 |
| Game.RoadInTheWay | game.js:491-493 | the road loop reports a collision exactly when some segment is closer than 30 |
| Game.PushRepeat | game.js:154-156 | a push loop appends exactly n copies of the tag |
| Game.ShuffleQueue | game.js:139-144 | shuffling the queue through an array yields exactly `Shuffled` of the queue |
| Game.Game.constructor | game.js:36-52 | the fields start with the declared values: level 1, 150 gold, 10 lives, wave 1, empty collections, archer selected |
| Game.Game.GenerateMap | game.js:55-119 | `generateMap` replaces the road with `MapPath` of the canvas size and the drawn rows, and changes nothing else |
| Game.Game.InitLevel | game.js:122-136 | `initLevel` adds 50 gold, sets wave 1 and lives 10, empties every collection and the queue, clears game over, and installs the new road |
| Game.Game.StartWave | game.js:146-159 | `startWave` activates the wave and sets the queue to the shuffled wave queue |
| Game.Game.TogglePause | game.js:162-167 | the pause flag flips |
| Game.Game.SelectTower | game.js:463-467 | the selected kind is replaced |
| Game.Game.LevelComplete | game.js:500-505 | the game-over flag is set |
| Game.Game.TriggerGameOver | game.js:507-514 | the game-over flag is set |
| Game.Game.NextLevel | game.js:516-520 | the level number grows by one, then `initLevel` runs |
| Game.Game.Click | game.js:477-498 | the click handler's early returns and loops leave the state `World.Click` describes, including a click before the first road exists |
| Game.Game.SpawnEnemy | game.js:210-225 | `spawnEnemy` appends the new enemy and lists it |
| Game.Game.Spawning | game.js:179-194 | the spawn block leaves the state `SpawnPhase` describes |
| Game.Game.MoveEnemyStep | game.js:227-251 | `moveEnemy` updates one enemy, the lives and the game-over flag as `MoveEnemyAt` describes |
| Game.Game.MoveAllEnemies | game.js:197 | the enemy loop equals the fold `MoveEnemies` over the listed ids |
| Game.Game.RunTowerStep | game.js:253-274 | `runTower` updates one tower and appends its projectile as `RunTowerAt` describes |
| Game.Game.RunAllTowers | game.js:198 | the tower loop equals the fold `RunTowers` |
| Game.SplashSweep | game.js:287-291 | the splash loop returns exactly `Splash` of the table |
| Game.ApplyImpact | game.js:284-291 | the damage of a landing projectile, its target's hit and a cannon ball's splash, is exactly `Impact` |
| Game.BuildWaveQueue | game.js:146-156 | the three push loops build exactly the unshuffled wave queue |
| Game.Game.CreateExplosion | game.js:307-311 | the particle loop appends exactly `Explosion(count)` |
| Game.Game.Land | game.js:282-300 | the hit branch applies `Impact`, adds the sparks, pays the reward when the target's hp is at most 0, and spends the projectile |
| Game.Game.MoveProjectileStep | game.js:276-305 | `moveProjectile` leaves the state `MoveProjectileAt` describes |
| Game.Game.MoveAllProjectiles | game.js:199 | the projectile loop equals the fold `MoveProjectiles` |
| Game.Game.UpdateParticles | game.js:313-316 | the ageing loop and the filter leave exactly `AgeParticles` of the old particles |
| Game.Game.CleanUp | game.js:203-204 | the two filters leave the state `Cleanup` describes |
| Game.Game.Update | game.js:169-208 | one frame of `update` leaves exactly the state `Tick` describes, and keeps the invariant `Valid` |

## Left out

- Drawing (`draw`), `updateUI`, the modal and button DOM writes, `location.reload`, and the image size table: they are presentation only.
- `assets.js` and the image-loading startup chain: I/O. `assets.js` is not part of this model.
- Scheduling by `requestAnimationFrame` and `setTimeout`. Each `Update` call is one frame. The `startWave` that `initLevel` and the end of a wave schedule is a separate call of `StartWave`, made by the caller.
- `Math.random`: every draw is an input with its range as a precondition.
  - Shuffle indices need `picks[i] <= i`.
  - Row offsets need `RowPickOk`.
  - Map hues and particle velocities are not modelled.
- Floating point: coordinates and hp are exact reals.
  - `Math.hypot` becomes squared distances.
  - The square root of the normalised step is the `norm` parameter, constrained by `IsNorm`.
  - Rounding, NaN and infinities are not modelled.
- The aim angle (`Math.atan2`): it only feeds drawing.
- Particle positions, velocities and colours: only their lives are kept.
- The mouse-to-canvas coordinate conversion: the click takes the canvas point directly.
- Map colours.
- The fallback branch of `generateMap` (`game.js:71-86`): it changes no game state; its `console.error` message is logging, which is left out with the rest of the I/O, and the random draw it discards is not an input of the model.
- Game.Game.GenerateMap: requires a positive canvas height, because the code divides by the cell height and a zero height would give non-finite rows.
- Game.Game.Update: requires every id to name a table entry and the road to have a waypoint. The code holds enemy references rather than ids, and it reads `path[0]` when it spawns.
- Game.Game.StartWave: requires a non-negative wave, as the code always has.
- In-place mutation of entity objects held by reference: towers, projectiles and particles are values in sequences that the methods reassign, and enemies are values in the id-indexed table.
