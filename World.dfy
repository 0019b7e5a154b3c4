/** The game state as one value and the transitions of game.js on it:
    one frame of `update`, phase by phase, the build click, and the level
    and wave controls. Enemies live in a table `pool` indexed by id that
    only grows during a level; `enemies` is the list of live ids, and a
    projectile names its target by id, so a projectile can keep homing on
    an enemy that has left the list. */
module World {
  import opened Geometry
  import opened Seqs
  import opened Waves
  import opened Entities

  /** Ticks between two spawns: the timer must exceed this. */
  const SpawnDelay: int := 40
  const StartGold: int := 150
  const StartLives: int := 10
  /** Gold added by each `initLevel`. */
  const LevelBonus: int := 50
  /** No tower within 50 of the castle (squared). */
  const CastleGapSq: real := 2500.0
  /** No tower within 30 of another tower (squared). */
  const TowerGapSq: real := 900.0
  /** No tower within 30 of the road (squared). */
  const RoadGapSq: real := 900.0

  datatype State = State(
    level: int, gold: int, lives: int, wave: int,
    pool: seq<Enemy>, enemies: seq<nat>,
    towers: seq<Tower>, projectiles: seq<Projectile>, particles: seq<Particle>,
    path: seq<Point>,
    over: bool, paused: bool, waveActive: bool,
    queue: seq<EnemyKind>, spawnTimer: int, selected: TowerKind)

  /** Every id in use names an entry of the table. */
  predicate Refs(s: State) {
    IdsBelow(s.enemies, |s.pool|)
    && forall k :: 0 <= k < |s.projectiles| ==> s.projectiles[k].target < |s.pool|
  }

  /** The values the globals are declared with, before the first level. */
  function Initial(): State {
    State(1, StartGold, StartLives, 1, [], [], [], [], [], [], false, false, false, [], 0, Archer)
  }

  // ---- Spawning and the end of a wave (top of `update`).

  /** `spawnEnemy(kind)`: a new entry in the table, listed as live. */
  function SpawnEnemy(s: State, kind: EnemyKind): (r: State)
    requires |s.path| >= 1
    ensures |r.pool| == |s.pool| + 1 && r.pool[..|s.pool|] == s.pool
    ensures r.pool[|s.pool|] == Spawned(kind, s.path[0], s.level, s.wave)
    ensures r.enemies == s.enemies + [|s.pool|]
    ensures r.(pool := s.pool, enemies := s.enemies) == s
  {
    s.(pool := s.pool + [Spawned(kind, s.path[0], s.level, s.wave)], enemies := s.enemies + [|s.pool|])
  }

  function SpawnPhase(s: State): (r: State)
    requires |s.path| >= 1
    ensures Refs(s) ==> Refs(r)
    ensures r.(pool := s.pool, enemies := s.enemies, queue := s.queue, spawnTimer := s.spawnTimer,
               wave := s.wave, waveActive := s.waveActive, over := s.over) == s
    ensures |s.pool| <= |r.pool| && r.pool[..|s.pool|] == s.pool
  {
    if |s.queue| > 0 then
      if s.spawnTimer + 1 > SpawnDelay then SpawnEnemy(s.(queue := s.queue[1..], spawnTimer := 0), s.queue[0])
      else s.(spawnTimer := s.spawnTimer + 1)
    else if s.enemies == [] && s.waveActive then
      if s.wave < MaxWaves then s.(waveActive := false, wave := s.wave + 1)
      else s.(waveActive := false, over := true)
    else s
  }

  // ---- `enemies.forEach(moveEnemy)`.

  function MoveEnemyAt(s: State, id: nat, norm: (real, real) -> real): (r: State)
    requires id < |s.pool| && IsNorm(norm)
  {
    var m := MoveEnemy(s.pool[id], s.path, norm);
    var lives := if m.arrived then s.lives - 1 else s.lives;
    s.(pool := s.pool[id := m.enemy], lives := lives, over := s.over || (m.arrived && lives <= 0))
  }

  /** Moves the enemies with the given ids, in order. */
  function MoveEnemies(s: State, ids: seq<nat>, norm: (real, real) -> real): (r: State)
    requires IdsBelow(ids, |s.pool|) && IsNorm(norm)
    ensures |r.pool| == |s.pool|
    ensures r.(pool := s.pool, lives := s.lives, over := s.over) == s
    ensures forall i :: 0 <= i < |s.pool| ==>
      r.pool[i].kind == s.pool[i].kind && r.pool[i].hp == s.pool[i].hp && r.pool[i].maxHp == s.pool[i].maxHp
    ensures forall i :: 0 <= i < |s.pool| && i !in ids ==> r.pool[i] == s.pool[i]
    ensures r.lives <= s.lives && (s.over ==> r.over)
    decreases |ids|
  {
    if ids == [] then s
    else MoveEnemyAt(MoveEnemies(s, ids[..|ids| - 1], norm), ids[|ids| - 1], norm)
  }

  // ---- `towers.forEach(runTower)`.

  function RunTowerAt(s: State, k: nat): (r: State)
    requires k < |s.towers| && IdsBelow(s.enemies, |s.pool|)
  {
    var t := s.towers[k];
    var u := RunTower(t, s.pool, s.enemies);
    s.(towers := s.towers[k := u.tower],
       projectiles := s.projectiles + if u.fired.Some? then [Projectile(t.pos, u.fired.value, t.kind, false)] else [])
  }

  /** Runs the first n towers, in order. */
  function RunTowers(s: State, n: nat): (r: State)
    requires n <= |s.towers| && IdsBelow(s.enemies, |s.pool|)
    ensures |r.towers| == |s.towers|
    ensures r.(towers := s.towers, projectiles := s.projectiles) == s
    ensures |s.projectiles| <= |r.projectiles| && r.projectiles[..|s.projectiles|] == s.projectiles
    ensures Refs(s) ==> Refs(r)
    ensures forall k :: |s.projectiles| <= k < |r.projectiles| ==> !r.projectiles[k].hit
    decreases n
  {
    if n == 0 then s else RunTowerAt(RunTowers(s, n - 1), n - 1)
  }

  // ---- `projectiles.forEach(moveProjectile)`.

  /** The table after a projectile of the given kind lands on enemy id:
      the direct hit, then for the cannon the splash over the live list
      around the target. */
  function Impact(pool: seq<Enemy>, ids: seq<nat>, id: nat, kind: TowerKind): (r: seq<Enemy>)
    requires id < |pool| && IdsBelow(ids, |pool|)
    ensures |r| == |pool|
    ensures forall i :: 0 <= i < |pool| ==>
      r[i].(hp := pool[i].hp, frozen := pool[i].frozen) == pool[i] && r[i].hp <= pool[i].hp
    ensures forall i :: 0 <= i < |pool| ==> r[i].frozen == pool[i].frozen || r[i].frozen == FreezeTicks
    ensures forall i :: 0 <= i < |pool| && i != id ==> r[i].frozen == pool[i].frozen
  {
    var struck := pool[id := Strike(pool[id], kind)];
    if EffectOf(kind) == Area then Splash(struck, ids, pool[id].pos, Damage(kind) / 2.0) else struck
  }

  /** Particles of the explosion a landing projectile makes. */
  function Sparks(kind: TowerKind): nat {
    if EffectOf(kind) == Area then 10 else 5
  }

  function MoveProjectileAt(s: State, k: nat, norm: (real, real) -> real): (r: State)
    requires k < |s.projectiles| && Refs(s) && IsNorm(norm)
    ensures |r.pool| == |s.pool| && |r.projectiles| == |s.projectiles|
    ensures r.(pool := s.pool, gold := s.gold, particles := s.particles, projectiles := s.projectiles) == s
    ensures forall j :: 0 <= j < |s.projectiles| ==>
      r.projectiles[j].target == s.projectiles[j].target && r.projectiles[j].kind == s.projectiles[j].kind
    ensures forall i :: 0 <= i < |s.pool| ==>
      r.pool[i].kind == s.pool[i].kind && r.pool[i].hp <= s.pool[i].hp && r.pool[i].maxHp == s.pool[i].maxHp
      && r.pool[i].pos == s.pool[i].pos && r.pool[i].wp == s.pool[i].wp && r.pool[i].reached == s.pool[i].reached
    ensures r.gold >= s.gold
    ensures Refs(r)
  {
    var p := s.projectiles[k];
    var e := s.pool[p.target];
    if e.hp <= 0.0 && !e.reached then
      s.(projectiles := s.projectiles[k := p.(hit := true)])
    else if Within(e.pos.x - p.pos.x, e.pos.y - p.pos.y, ProjectileSpeed(p.kind)) then
      var pool := Impact(s.pool, s.enemies, p.target, p.kind);
      s.(projectiles := s.projectiles[k := p.(hit := true)], pool := pool,
         gold := if pool[p.target].hp <= 0.0 then s.gold + Reward(e.kind) else s.gold,
         particles := s.particles + Explosion(Sparks(p.kind)))
    else
      s.(projectiles := s.projectiles[k := p.(pos := StepToward(p.pos, e.pos, ProjectileSpeed(p.kind), norm))])
  }

  /** Moves the first n projectiles, in order. */
  function MoveProjectiles(s: State, n: nat, norm: (real, real) -> real): (r: State)
    requires n <= |s.projectiles| && Refs(s) && IsNorm(norm)
    ensures |r.pool| == |s.pool| && |r.projectiles| == |s.projectiles|
    ensures r.(pool := s.pool, gold := s.gold, particles := s.particles, projectiles := s.projectiles) == s
    ensures r.gold >= s.gold
    ensures Refs(r)
    decreases n
  {
    if n == 0 then s else MoveProjectileAt(MoveProjectiles(s, n - 1, norm), n - 1, norm)
  }

  /** The projectile phase keeps every projectile's target and kind, and
      changes only the hp and slowness of the table's entries, never
      raising the hp. */
  lemma {:induction false} MoveProjectilesKeeps(s: State, n: nat, norm: (real, real) -> real, r: State)
    requires n <= |s.projectiles| && Refs(s) && IsNorm(norm) && r == MoveProjectiles(s, n, norm)
    ensures forall k :: 0 <= k < |s.projectiles| ==>
      r.projectiles[k].target == s.projectiles[k].target && r.projectiles[k].kind == s.projectiles[k].kind
    ensures forall i :: 0 <= i < |s.pool| ==>
      r.pool[i].kind == s.pool[i].kind && r.pool[i].hp <= s.pool[i].hp && r.pool[i].maxHp == s.pool[i].maxHp
      && r.pool[i].pos == s.pool[i].pos && r.pool[i].wp == s.pool[i].wp && r.pool[i].reached == s.pool[i].reached
    decreases n
  {
    if n > 0 {
      var prev := MoveProjectiles(s, n - 1, norm);
      MoveProjectilesKeeps(s, n - 1, norm, prev);
      assert r == MoveProjectileAt(prev, n - 1, norm);
    }
  }

  // ---- Cleanup (the two `filter` calls at the end of `update`).

  /** The test of the enemy filter: not dead and not arrived. */
  function AliveIn(pool: seq<Enemy>): nat -> bool {
    (id: nat) => if id < |pool| then pool[id].hp > 0.0 && !pool[id].reached else false
  }

  predicate Unspent(p: Projectile) {
    !p.hit
  }

  function Cleanup(s: State): State {
    s.(enemies := Filter(s.enemies, AliveIn(s.pool)), projectiles := Filter(s.projectiles, Unspent))
  }

  // ---- One frame of `update`.

  function Tick(s: State, norm: (real, real) -> real): (r: State)
    requires Refs(s) && |s.path| >= 1 && IsNorm(norm)
    ensures Refs(r) && r.path == s.path
  {
    if s.paused || s.over then s
    else
      var s1 := SpawnPhase(s);
      var s2 := MoveEnemies(s1, s1.enemies, norm);
      var s3 := RunTowers(s2, |s2.towers|);
      var s4 := MoveProjectiles(s3, |s3.projectiles|, norm);
      var s5 := s4.(particles := AgeParticles(s4.particles));
      FilterIdsBelow(s5.enemies, AliveIn(s5.pool), |s5.pool|);
      FilterSubsequence(s5.projectiles, Unspent);
      Cleanup(s5)
  }

  // ---- Building (the canvas click handler).

  predicate NearTower(towers: seq<Tower>, m: Point) {
    exists i :: 0 <= i < |towers| && DistSq(towers[i].pos, m) < TowerGapSq
  }

  predicate NearRoad(path: seq<Point>, m: Point) {
    exists i :: 0 <= i < |path| - 1 && DistToSegmentSq(m, path[i], path[i + 1]) < RoadGapSq
  }

  /** Every check of the click handler passes. On a road with no waypoint
      (before the first `initLevel`) the castle lookup throws before the
      handler has changed anything, so nothing is built. */
  predicate CanBuild(s: State, m: Point) {
    !s.over && !s.paused && s.gold >= Cost(s.selected)
    && |s.path| >= 1 && DistSq(s.path[|s.path| - 1], m) >= CastleGapSq
    && !NearTower(s.towers, m) && !NearRoad(s.path, m)
  }

  function Click(s: State, m: Point): State {
    if CanBuild(s, m) then
      s.(towers := s.towers + [Tower(m, s.selected, 0, 0)], gold := s.gold - Cost(s.selected))
    else s
  }

  // ---- Level and wave controls.

  /** `initLevel` with the road `generateMap` produced. */
  function InitLevel(s: State, path: seq<Point>): State {
    s.(path := path, gold := s.gold + LevelBonus, wave := 1, lives := StartLives,
       pool := [], enemies := [], towers := [], projectiles := [], particles := [],
       over := false, queue := [])
  }

  /** `startWave` with the draws of the shuffle. */
  function StartWave(s: State, picks: seq<nat>): State
    requires s.wave >= 0 && ValidPicks(picks, |WaveQueue(s.wave)|)
  {
    s.(waveActive := true, queue := Shuffled(WaveQueue(s.wave), picks))
  }

  function TogglePause(s: State): State {
    s.(paused := !s.paused)
  }

  function SelectTower(s: State, k: TowerKind): State {
    s.(selected := k)
  }

  /** `levelComplete` and `triggerGameOver` differ only in the modal they show. */
  function EndGame(s: State): State {
    s.(over := true)
  }

  function NextLevel(s: State, path: seq<Point>): State {
    InitLevel(s.(level := s.level + 1), path)
  }
}
