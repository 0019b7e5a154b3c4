/** The invariant the game keeps between frames, and its preservation by
    every transition. Within a frame a weaker invariant, `Core`, holds
    after each phase; the cleanup at the end of the frame restores the
    rest. */
module Invariant {
  import opened Geometry
  import opened Seqs
  import opened Waves
  import opened Entities
  import opened World

  /** An entry of the enemy table on a road of n waypoints: the slowness
      counter in 0..40, hp never above its start value, the waypoint index
      on the road and short of its end until the enemy has arrived. */
  predicate EnemyOk(e: Enemy, n: int) {
    0 <= e.frozen <= FreezeTicks && e.hp <= e.maxHp && e.wp <= n - 1 && (!e.reached ==> e.wp < n - 1)
  }

  predicate TowerOk(t: Tower) {
    0 <= t.cd <= Rate(t.kind) && 0 <= t.shooting < ShootFrames
  }

  predicate Counters(s: State) {
    s.level >= 1 && 1 <= s.wave <= MaxWaves && 0 <= s.spawnTimer <= SpawnDelay
    && s.gold >= 0 && s.lives <= StartLives && (s.lives <= 0 ==> s.over)
    && |s.path| >= 2
  }

  predicate PoolOk(s: State) {
    forall i :: 0 <= i < |s.pool| ==> EnemyOk(s.pool[i], |s.path|)
  }

  predicate TowersOk(s: State) {
    forall k :: 0 <= k < |s.towers| ==> TowerOk(s.towers[k])
  }

  predicate LivesIn(ps: seq<Particle>, hi: int) {
    forall i :: 0 <= i < |ps| ==> 1 <= ps[i].life <= hi
  }

  /** What holds after every phase of a frame. */
  predicate Core(s: State) {
    Counters(s) && Refs(s) && Increasing(s.enemies) && PoolOk(s) && TowersOk(s)
    && LivesIn(s.particles, ParticleLife)
  }

  /** Every listed enemy is alive and on its way. */
  predicate AllLive(s: State) {
    forall i :: 0 <= i < |s.enemies| ==>
      s.enemies[i] < |s.pool| && s.pool[s.enemies[i]].hp > 0.0 && !s.pool[s.enemies[i]].reached
  }

  predicate NoneSpent(s: State) {
    forall k :: 0 <= k < |s.projectiles| ==> !s.projectiles[k].hit
  }

  /** The invariant between frames. */
  predicate Valid(s: State) {
    Core(s) && AllLive(s) && NoneSpent(s) && LivesIn(s.particles, ParticleLife - 1)
  }

  // ---- The phases keep Core.

  lemma SpawnPhaseCore(s: State)
    requires Core(s)
    ensures Core(SpawnPhase(s))
  {
    var r := SpawnPhase(s);
    if |s.queue| > 0 && s.spawnTimer + 1 > SpawnDelay {
      assert r.enemies == s.enemies + [|s.pool|];
      assert r.pool == s.pool + [r.pool[|s.pool|]];
      assert forall i :: 0 <= i < |r.pool| ==> EnemyOk(r.pool[i], |r.path|) by {
        forall i | 0 <= i < |r.pool| ensures EnemyOk(r.pool[i], |r.path|) {
          if i < |s.pool| {
            assert r.pool[i] == s.pool[i];
          }
        }
      }
    }
  }

  lemma MoveEnemyAtCore(s: State, id: nat, norm: (real, real) -> real)
    requires Core(s) && id < |s.pool| && IsNorm(norm)
    ensures Core(MoveEnemyAt(s, id, norm))
  {
    var r := MoveEnemyAt(s, id, norm);
    var e := s.pool[id];
    var m := MoveEnemy(e, s.path, norm);
    assert EnemyOk(m.enemy, |s.path|);
    assert r.pool == s.pool[id := m.enemy];
    assert forall i :: 0 <= i < |r.pool| ==> EnemyOk(r.pool[i], |r.path|);
  }

  lemma {:induction false} MoveEnemiesCore(s: State, ids: seq<nat>, norm: (real, real) -> real)
    requires Core(s) && IdsBelow(ids, |s.pool|) && IsNorm(norm)
    ensures Core(MoveEnemies(s, ids, norm))
    decreases |ids|
  {
    if ids != [] {
      var init := ids[..|ids| - 1];
      MoveEnemiesCore(s, init, norm);
      MoveEnemyAtCore(MoveEnemies(s, init, norm), ids[|ids| - 1], norm);
    }
  }

  lemma RunTowerAtCore(s: State, k: nat)
    requires Core(s) && k < |s.towers|
    ensures Core(RunTowerAt(s, k))
  {
    var r := RunTowerAt(s, k);
    var u := RunTower(s.towers[k], s.pool, s.enemies);
    assert TowerOk(u.tower);
    assert r.towers == s.towers[k := u.tower];
    assert forall j :: 0 <= j < |r.towers| ==> TowerOk(r.towers[j]);
    if u.fired.Some? {
      assert r.projectiles == s.projectiles + [r.projectiles[|s.projectiles|]];
      assert u.fired.value < |s.pool|;
    }
  }

  lemma {:induction false} RunTowersCore(s: State, n: nat)
    requires Core(s) && n <= |s.towers|
    ensures Core(RunTowers(s, n))
    decreases n
  {
    if n > 0 {
      RunTowersCore(s, n - 1);
      RunTowerAtCore(RunTowers(s, n - 1), n - 1);
    }
  }

  lemma MoveProjectileAtCore(s: State, k: nat, norm: (real, real) -> real, r: State)
    requires Core(s) && k < |s.projectiles| && IsNorm(norm) && r == MoveProjectileAt(s, k, norm)
    ensures Core(r)
  {
    var p := s.projectiles[k];
    var e := s.pool[p.target];
    if !(e.hp <= 0.0 && !e.reached) && Within(e.pos.x - p.pos.x, e.pos.y - p.pos.y, ProjectileSpeed(p.kind)) {
      var pool := Impact(s.pool, s.enemies, p.target, p.kind);
      assert r.pool == pool;
      assert r.particles == s.particles + Explosion(Sparks(p.kind));
      forall i | 0 <= i < |r.pool| ensures EnemyOk(r.pool[i], |r.path|) {
        assert EnemyOk(s.pool[i], |s.path|);
      }
    }
  }

  lemma {:induction false} MoveProjectilesCore(s: State, n: nat, norm: (real, real) -> real)
    requires Core(s) && n <= |s.projectiles| && IsNorm(norm)
    ensures Core(MoveProjectiles(s, n, norm))
    decreases n
  {
    if n > 0 {
      var prev := MoveProjectiles(s, n - 1, norm);
      MoveProjectilesCore(s, n - 1, norm);
      MoveProjectileAtCore(prev, n - 1, norm, MoveProjectiles(s, n, norm));
    }
  }

  /** The end of a frame: particles age, and the filters leave only live
      enemies and unspent projectiles. */
  lemma FinishValid(s: State)
    requires Core(s)
    ensures Valid(Cleanup(s.(particles := AgeParticles(s.particles))))
  {
    var s5 := s.(particles := AgeParticles(s.particles));
    var r := Cleanup(s5);
    AgeParticlesBounds(s.particles, ParticleLife);
    FilterIdsBelow(s5.enemies, AliveIn(s5.pool), |s5.pool|);
    FilterIncreasing(s5.enemies, AliveIn(s5.pool));
    FilterAllKept(s5.enemies, AliveIn(s5.pool));
    FilterAllKept(s5.projectiles, Unspent);
    FilterSubsequence(s5.projectiles, Unspent);
  }

  /** Every frame keeps the invariant. */
  lemma TickValid(s: State, norm: (real, real) -> real)
    requires Valid(s) && IsNorm(norm)
    ensures Valid(Tick(s, norm))
  {
    if !s.paused && !s.over {
      var s1 := SpawnPhase(s);
      SpawnPhaseCore(s);
      var s2 := MoveEnemies(s1, s1.enemies, norm);
      MoveEnemiesCore(s1, s1.enemies, norm);
      var s3 := RunTowers(s2, |s2.towers|);
      RunTowersCore(s2, |s2.towers|);
      var s4 := MoveProjectiles(s3, |s3.projectiles|, norm);
      MoveProjectilesCore(s3, |s3.projectiles|, norm);
      FinishValid(s4);
    }
  }

  // ---- The controls keep Valid.

  lemma ClickValid(s: State, m: Point)
    requires Valid(s)
    ensures Valid(Click(s, m))
  {
    if CanBuild(s, m) {
      var r := Click(s, m);
      assert r.towers == s.towers + [Tower(m, s.selected, 0, 0)];
      assert forall k :: 0 <= k < |r.towers| ==> TowerOk(r.towers[k]);
    }
  }

  lemma StartWaveValid(s: State, picks: seq<nat>)
    requires Valid(s) && ValidPicks(picks, |WaveQueue(s.wave)|)
    ensures Valid(StartWave(s, picks))
  {
  }

  /** `initLevel` starts a valid level from any state whose level, gold and
      spawn timer are in range, given a road of at least two waypoints. */
  lemma InitLevelValid(s: State, path: seq<Point>)
    requires s.level >= 1 && s.gold >= 0 && 0 <= s.spawnTimer <= SpawnDelay && |path| >= 2
    ensures Valid(InitLevel(s, path))
  {
  }

  lemma NextLevelValid(s: State, path: seq<Point>)
    requires Valid(s) && |path| >= 2
    ensures Valid(NextLevel(s, path))
  {
    InitLevelValid(s.(level := s.level + 1), path);
  }

  lemma PauseValid(s: State)
    requires Valid(s)
    ensures Valid(TogglePause(s))
  {
  }

  lemma SelectValid(s: State, k: TowerKind)
    requires Valid(s)
    ensures Valid(SelectTower(s, k))
  {
  }

  lemma EndGameValid(s: State)
    requires Valid(s)
    ensures Valid(EndGame(s))
  {
  }
}
