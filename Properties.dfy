/** What the frame and the controls promise: wave composition, spawn
    pacing, the end of a wave, lives and game over, the cleanup filters,
    projectile resolution and the build rules. */
module Properties {
  import opened Geometry
  import opened Seqs
  import opened Waves
  import opened Entities
  import opened World
  import opened Invariant

  /** The kinds of the table's entries, in id order. */
  function Kinds(pool: seq<Enemy>): (ks: seq<EnemyKind>)
    ensures |ks| == |pool|
  {
    seq(|pool|, i requires 0 <= i < |pool| => pool[i].kind)
  }

  // ---- Waves.

  /** After `startWave` the queue holds 5 + w/2 orcs, 2w/5 bats and w/5
      golems for wave w, in some order, and the wave is active. */
  lemma StartWaveQueue(s: State, picks: seq<nat>)
    requires s.wave >= 0 && ValidPicks(picks, |WaveQueue(s.wave)|)
    ensures StartWave(s, picks).waveActive
    ensures multiset(StartWave(s, picks).queue) == multiset(WaveQueue(s.wave))
    ensures |StartWave(s, picks).queue| == WaveSize(s.wave)
    ensures multiset(StartWave(s, picks).queue)[Orc] == OrcCount(s.wave)
    ensures multiset(StartWave(s, picks).queue)[Bat] == BatCount(s.wave)
    ensures multiset(StartWave(s, picks).queue)[Golem] == GolemCount(s.wave)
    ensures StartWave(s, picks).(queue := s.queue, waveActive := s.waveActive) == s
  {
    WaveQueueComposition(s.wave);
  }

  /** While the queue is not empty each frame advances the spawn timer;
      when it would pass 40 the head of the queue becomes one new enemy at
      the path start and the timer restarts. No tag is lost or made up:
      table kinds plus queue are conserved. */
  lemma SpawnPacing(s: State)
    requires |s.path| >= 1 && |s.queue| > 0 && 0 <= s.spawnTimer <= SpawnDelay
    ensures var r := SpawnPhase(s);
      0 <= r.spawnTimer <= SpawnDelay
      && (s.spawnTimer == SpawnDelay ==>
            r.queue == s.queue[1..] && r.spawnTimer == 0
            && r.pool == s.pool + [Spawned(s.queue[0], s.path[0], s.level, s.wave)]
            && r.enemies == s.enemies + [|s.pool|])
      && (s.spawnTimer < SpawnDelay ==>
            r.queue == s.queue && r.spawnTimer == s.spawnTimer + 1 && r.pool == s.pool && r.enemies == s.enemies)
      && multiset(Kinds(r.pool)) + multiset(r.queue) == multiset(Kinds(s.pool)) + multiset(s.queue)
      && r.wave == s.wave && r.waveActive == s.waveActive && r.over == s.over
  {
    var r := SpawnPhase(s);
    if s.spawnTimer == SpawnDelay {
      assert Kinds(r.pool) == Kinds(s.pool) + [s.queue[0]];
      assert s.queue == [s.queue[0]] + s.queue[1..];
    }
  }

  /** The wave ends only in a frame that finds the queue and the enemy
      list empty while the wave is active; it then clears the flag and
      moves to the next wave, or after the last wave ends the level. */
  lemma WaveEnd(s: State)
    requires |s.path| >= 1 && |s.queue| == 0 && 1 <= s.wave <= MaxWaves
    ensures var r := SpawnPhase(s);
      var ends := s.enemies == [] && s.waveActive;
      r.waveActive == (s.waveActive && !ends)
      && r.wave == (if ends && s.wave < MaxWaves then s.wave + 1 else s.wave)
      && r.over == (s.over || (ends && s.wave == MaxWaves))
      && 1 <= r.wave <= MaxWaves
      && r.pool == s.pool && r.enemies == s.enemies && r.queue == [] && r.spawnTimer == s.spawnTimer
  {
  }

  /** An enemy spawned in a frame also moves in that frame: the move
      phase runs over the list the spawn just extended. */
  lemma SpawnedEnemyMoves(s: State, norm: (real, real) -> real)
    requires Refs(s) && Increasing(s.enemies) && IsNorm(norm)
    requires |s.path| >= 1 && |s.queue| > 0 && s.spawnTimer == SpawnDelay
    ensures var s1 := SpawnPhase(s);
      |s.pool| in s1.enemies
      && MoveEnemies(s1, s1.enemies, norm).pool[|s.pool|]
         == MoveEnemy(Spawned(s.queue[0], s.path[0], s.level, s.wave), s.path, norm).enemy
  {
    var s1 := SpawnPhase(s);
    assert s1.enemies == s.enemies + [|s.pool|];
    assert Increasing(s1.enemies);
    MoveEnemiesEach(s1, s1.enemies, norm, |s.pool|);
  }

  /** A projectile fired in a frame also moves in that frame: the
      projectile phase reaches it at its own index, still as the tower
      fired it. */
  lemma FiredProjectileMoves(s: State, norm: (real, real) -> real, k: nat)
    requires Refs(s) && |s.path| >= 1 && IsNorm(norm) && !s.paused && !s.over
    requires var s1 := SpawnPhase(s); var s2 := MoveEnemies(s1, s1.enemies, norm);
      |s2.projectiles| <= k < |RunTowers(s2, |s2.towers|).projectiles|
    ensures var s1 := SpawnPhase(s); var s2 := MoveEnemies(s1, s1.enemies, norm);
      var s3 := RunTowers(s2, |s2.towers|);
      var before := MoveProjectiles(s3, k, norm);
      !s3.projectiles[k].hit && before.projectiles[k] == s3.projectiles[k]
      && MoveProjectiles(s3, k + 1, norm) == MoveProjectileAt(before, k, norm)
  {
    var s1 := SpawnPhase(s);
    var s2 := MoveEnemies(s1, s1.enemies, norm);
    var s3 := RunTowers(s2, |s2.towers|);
    NotYetMoved(s3, k, norm, k);
  }

  /** Moving projectile k leaves every other projectile as it was. */
  lemma MoveProjectileAtOthers(s: State, k: nat, norm: (real, real) -> real, r: State)
    requires k < |s.projectiles| && Refs(s) && IsNorm(norm) && r == MoveProjectileAt(s, k, norm)
    ensures forall j :: 0 <= j < |s.projectiles| && j != k ==> r.projectiles[j] == s.projectiles[j]
  {
  }

  /** The first n steps of the projectile phase leave projectile j >= n untouched. */
  lemma {:induction false} NotYetMoved(s: State, n: nat, norm: (real, real) -> real, j: nat)
    requires n <= j < |s.projectiles| && Refs(s) && IsNorm(norm)
    ensures MoveProjectiles(s, n, norm).projectiles[j] == s.projectiles[j]
    decreases n
  {
    if n > 0 {
      NotYetMoved(s, n - 1, norm, j);
      MoveProjectileAtOthers(MoveProjectiles(s, n - 1, norm), n - 1, norm, MoveProjectiles(s, n, norm));
    }
  }

  // ---- Moving the enemies.

  lemma IncreasingInit(ids: seq<nat>)
    requires Increasing(ids) && ids != []
    ensures Increasing(ids[..|ids| - 1]) && ids[|ids| - 1] !in ids[..|ids| - 1]
  {
  }

  /** Every listed enemy is moved exactly once, by `moveEnemy` on its
      entry as the frame found it; the others are untouched. */
  lemma {:induction false} MoveEnemiesEach(s: State, ids: seq<nat>, norm: (real, real) -> real, i: nat)
    requires IdsBelow(ids, |s.pool|) && Increasing(ids) && IsNorm(norm) && i < |s.pool|
    ensures MoveEnemies(s, ids, norm).pool[i]
      == if i in ids then MoveEnemy(s.pool[i], s.path, norm).enemy else s.pool[i]
    decreases |ids|
  {
    if ids != [] {
      var init, x := ids[..|ids| - 1], ids[|ids| - 1];
      IncreasingInit(ids);
      assert ids == init + [x];
      MoveEnemiesEach(s, init, norm, i);
      MoveEnemiesEach(s, init, norm, x);
    }
  }

  /** Within one frame an enemy advances by at most one waypoint and never
      past the castle. */
  lemma WaypointProgress(s: State, norm: (real, real) -> real, i: nat)
    requires IdsBelow(s.enemies, |s.pool|) && Increasing(s.enemies) && IsNorm(norm) && i < |s.pool|
    requires s.pool[i].wp < |s.path|
    ensures var e := MoveEnemies(s, s.enemies, norm).pool[i];
      s.pool[i].wp <= e.wp <= s.pool[i].wp + 1 && e.wp < |s.path|
  {
    MoveEnemiesEach(s, s.enemies, norm, i);
  }

  /** The test "arrives in this move" on the entries as the frame found them. */
  function ArrivesIn(pool: seq<Enemy>, path: seq<Point>, norm: (real, real) -> real): nat -> bool
    requires IsNorm(norm)
  {
    (id: nat) => if id < |pool| then MoveEnemy(pool[id], path, norm).arrived else false
  }

  /** Lives drop by exactly the number of listed enemies that reach the
      castle, and the game is over exactly when it was already, or when
      some enemy arrived and the lives ran out. */
  lemma {:induction false} LivesAccount(s: State, ids: seq<nat>, norm: (real, real) -> real)
    requires IdsBelow(ids, |s.pool|) && Increasing(ids) && IsNorm(norm)
    ensures var r := MoveEnemies(s, ids, norm);
      s.lives - r.lives == |Filter(ids, ArrivesIn(s.pool, s.path, norm))|
      && (r.over <==> s.over || (r.lives < s.lives && r.lives <= 0))
    decreases |ids|
  {
    if ids != [] {
      var init, x := ids[..|ids| - 1], ids[|ids| - 1];
      IncreasingInit(ids);
      LivesAccount(s, init, norm);
      MoveEnemiesEach(s, init, norm, x);
    }
  }

  // ---- Cleanup.

  /** The enemy filter keeps exactly the listed enemies that are alive and
      have not arrived, in list order, and a second cleanup changes
      nothing; the projectile filter keeps exactly the unspent ones. */
  lemma CleanupFilters(s: State, x: nat, p: Projectile)
    ensures x in Cleanup(s).enemies <==> x in s.enemies && x < |s.pool| && s.pool[x].hp > 0.0 && !s.pool[x].reached
    ensures p in Cleanup(s).projectiles <==> p in s.projectiles && !p.hit
    ensures Cleanup(Cleanup(s)) == Cleanup(s)
    ensures Increasing(s.enemies) ==> Increasing(Cleanup(s).enemies)
  {
    if Increasing(s.enemies) {
      FilterIncreasing(s.enemies, AliveIn(s.pool));
    }
    FilterMembers(s.enemies, AliveIn(s.pool), x);
    FilterMembers(s.projectiles, Unspent, p);
    FilterIdempotent(s.enemies, AliveIn(s.pool));
    FilterIdempotent(s.projectiles, Unspent);
  }

  // ---- Towers.

  /** A tower at rest fires at the first listed enemy in range, if any:
      exactly one new projectile aimed at it, and the cooldown restarts at
      the tower's rate. Otherwise no projectile and the cooldown counts
      down (or stays at 0). */
  lemma TowerShot(s: State, k: nat)
    requires k < |s.towers| && IdsBelow(s.enemies, |s.pool|)
    ensures var r := RunTowerAt(s, k); var t := s.towers[k]; var found := Target(t, s.pool, s.enemies);
      if t.cd <= 0 && found.Some? then
        r.projectiles == s.projectiles + [Projectile(t.pos, s.enemies[found.value], t.kind, false)]
        && r.towers[k].cd == Rate(t.kind)
      else
        r.projectiles == s.projectiles && r.towers[k].cd == (if t.cd > 0 then t.cd - 1 else t.cd)
    ensures var r := RunTowerAt(s, k);
      |r.towers| == |s.towers| && r.towers[k].pos == s.towers[k].pos && r.towers[k].kind == s.towers[k].kind
      && (forall j :: 0 <= j < |s.towers| && j != k ==> r.towers[j] == s.towers[j])
      && r.(towers := s.towers, projectiles := s.projectiles) == s
  {
  }

  // ---- Projectiles.

  /** A projectile whose target died before it landed is only marked hit:
      no hp, gold or particle changes. */
  lemma StaleTarget(s: State, k: nat, norm: (real, real) -> real)
    requires k < |s.projectiles| && Refs(s) && IsNorm(norm)
    requires s.pool[s.projectiles[k].target].hp <= 0.0 && !s.pool[s.projectiles[k].target].reached
    ensures var r := MoveProjectileAt(s, k, norm);
      r.pool == s.pool && r.gold == s.gold && r.particles == s.particles
      && r.projectiles == s.projectiles[k := s.projectiles[k].(hit := true)]
  {
  }

  /** A projectile that lands: the target loses the tower's damage (and,
      for the cannon, half of it again if it is listed, because it lies in
      its own blast); ice sets its slowness to 40; for the cannon every
      other listed enemy within 60 of the target loses half the damage;
      gold rises by the target's reward exactly when the target's hp is
      now at most 0, whatever the splash did to others. */
  lemma ProjectileHit(s: State, k: nat, norm: (real, real) -> real, i: nat)
    requires k < |s.projectiles| && Refs(s) && Increasing(s.enemies) && IsNorm(norm) && i < |s.pool|
    requires var p := s.projectiles[k]; var e := s.pool[p.target];
      !(e.hp <= 0.0 && !e.reached) && Within(e.pos.x - p.pos.x, e.pos.y - p.pos.y, ProjectileSpeed(p.kind))
    ensures var p := s.projectiles[k]; var t := p.target; var e := s.pool[t];
      var r := MoveProjectileAt(s, k, norm);
      var half := Damage(p.kind) / 2.0;
      var area := EffectOf(p.kind) == Area;
      r.projectiles[k].hit
      && r.pool[t].hp == e.hp - Damage(p.kind) - (if area && t in s.enemies then half else 0.0)
      && r.pool[t].frozen == (if EffectOf(p.kind) == Slow then FreezeTicks else e.frozen)
      && (i != t ==>
            r.pool[i].hp == s.pool[i].hp - (if area && i in s.enemies && InBlast(s.pool[i], e.pos) then half else 0.0)
            && r.pool[i].frozen == s.pool[i].frozen)
      && r.gold == s.gold + (if r.pool[t].hp <= 0.0 then Reward(e.kind) else 0)
      && |r.particles| == |s.particles| + (if area then 10 else 5)
  {
    var p := s.projectiles[k];
    var t := p.target;
    var e := s.pool[t];
    var struck := s.pool[t := Strike(e, p.kind)];
    if EffectOf(p.kind) == Area {
      var half := Damage(p.kind) / 2.0;
      SplashEffect(struck, s.enemies, e.pos, half, i);
      SplashEffect(struck, s.enemies, e.pos, half, t);
      assert InBlast(struck[t], e.pos) by {
        assert struck[t].pos == e.pos;
        SqPositive(BlastRadius);
      }
    }
  }

  /** A cannon shell that lands on a listed enemy takes 1.5 times its
      damage from it: 75 hp. */
  lemma CannonDoubleHit(s: State, k: nat, norm: (real, real) -> real)
    requires k < |s.projectiles| && Refs(s) && Increasing(s.enemies) && IsNorm(norm)
    requires s.projectiles[k].kind == Cannon && s.projectiles[k].target in s.enemies
    requires var p := s.projectiles[k]; var e := s.pool[p.target];
      !(e.hp <= 0.0 && !e.reached) && Within(e.pos.x - p.pos.x, e.pos.y - p.pos.y, ProjectileSpeed(p.kind))
    ensures MoveProjectileAt(s, k, norm).pool[s.projectiles[k].target].hp
      == s.pool[s.projectiles[k].target].hp - 75.0
  {
    ProjectileHit(s, k, norm, s.projectiles[k].target);
  }

  /** A projectile keeps homing on an enemy that reached the castle and
      left the list: it still damages it and can still earn its reward. */
  lemma ChasesArrived(s: State, k: nat, norm: (real, real) -> real)
    requires k < |s.projectiles| && Refs(s) && Increasing(s.enemies) && IsNorm(norm)
    requires var t := s.projectiles[k].target; s.pool[t].reached && t !in s.enemies
    requires var p := s.projectiles[k]; var e := s.pool[p.target];
      Within(e.pos.x - p.pos.x, e.pos.y - p.pos.y, ProjectileSpeed(p.kind))
    ensures var p := s.projectiles[k]; var e := s.pool[p.target]; var r := MoveProjectileAt(s, k, norm);
      r.pool[p.target].hp == e.hp - Damage(p.kind)
      && r.gold == s.gold + (if e.hp - Damage(p.kind) <= 0.0 then Reward(e.kind) else 0)
  {
    ProjectileHit(s, k, norm, s.projectiles[k].target);
  }

  /** Because the stale test spares arrived enemies, every further
      projectile that lands on an arrived enemy already at hp 0 or below
      pays its reward again. */
  lemma ArrivedPaysAgain(s: State, k: nat, norm: (real, real) -> real)
    requires k < |s.projectiles| && Refs(s) && Increasing(s.enemies) && IsNorm(norm)
    requires var t := s.projectiles[k].target; s.pool[t].reached && s.pool[t].hp <= 0.0 && t !in s.enemies
    requires var p := s.projectiles[k]; var e := s.pool[p.target];
      Within(e.pos.x - p.pos.x, e.pos.y - p.pos.y, ProjectileSpeed(p.kind))
    ensures MoveProjectileAt(s, k, norm).gold == s.gold + Reward(s.pool[s.projectiles[k].target].kind)
  {
    ChasesArrived(s, k, norm);
  }

  /** At level 1, wave 1 an orc has 40.5 hp, so archer arrows kill it on
      the third hit and not before. */
  lemma FirstOrcTakesThreeArrows(start: Point)
    ensures var e := Spawned(Orc, start, 1, 1);
      Strike(e, Archer).hp > 0.0 && Strike(Strike(e, Archer), Archer).hp > 0.0
      && Strike(Strike(Strike(e, Archer), Archer), Archer).hp <= 0.0
  {
    FirstWaveMultiplier();
  }

  /** A projectile short of its target moves exactly one step of its speed
      closer and changes nothing else. */
  lemma ProjectileFlies(s: State, k: nat, norm: (real, real) -> real)
    requires k < |s.projectiles| && Refs(s) && IsNorm(norm)
    requires var p := s.projectiles[k]; var e := s.pool[p.target];
      !(e.hp <= 0.0 && !e.reached) && !Within(e.pos.x - p.pos.x, e.pos.y - p.pos.y, ProjectileSpeed(p.kind))
    ensures var p := s.projectiles[k]; var e := s.pool[p.target]; var r := MoveProjectileAt(s, k, norm);
      r.pool == s.pool && r.gold == s.gold && r.particles == s.particles
      && r.projectiles[k].hit == p.hit && r.projectiles[k].target == p.target
      && DistSq(p.pos, r.projectiles[k].pos) == Sq(ProjectileSpeed(p.kind))
      && DistSq(r.projectiles[k].pos, e.pos) < DistSq(p.pos, e.pos)
  {
    var p := s.projectiles[k];
    var e := s.pool[p.target];
    StepTowardLength(p.pos, e.pos, ProjectileSpeed(p.kind), norm);
    StepTowardApproaches(p.pos, e.pos, ProjectileSpeed(p.kind), norm);
  }

  /** No frame raises an enemy's hp or changes its starting hp. */
  lemma TickNeverHeals(s: State, norm: (real, real) -> real, i: nat)
    requires Refs(s) && |s.path| >= 1 && IsNorm(norm) && i < |s.pool|
    ensures i < |Tick(s, norm).pool|
    ensures Tick(s, norm).pool[i].hp <= s.pool[i].hp && Tick(s, norm).pool[i].maxHp == s.pool[i].maxHp
    ensures Tick(s, norm).pool[i].kind == s.pool[i].kind
  {
    if !s.paused && !s.over {
      var s1 := SpawnPhase(s);
      assert s1.pool[i] == s.pool[i];
      var s2 := MoveEnemies(s1, s1.enemies, norm);
      var s3 := RunTowers(s2, |s2.towers|);
      MoveProjectilesKeeps(s3, |s3.projectiles|, norm, MoveProjectiles(s3, |s3.projectiles|, norm));
    }
  }

  // ---- Building.

  /** A build either changes nothing or adds exactly one ready tower of the
      selected kind where the player clicked and pays its cost, so gold
      never goes negative. */
  lemma ClickOutcome(s: State, m: Point)
    ensures |s.path| == 0 ==> Click(s, m) == s
    ensures var r := Click(s, m);
      if CanBuild(s, m) then
        r.towers == s.towers + [Tower(m, s.selected, 0, 0)] && r.gold == s.gold - Cost(s.selected)
        && r.gold >= 0 && r.(towers := s.towers, gold := s.gold) == s
      else r == s
  {
  }

  /** A tower is only ever built at least 30 from every point of every road
      segment, at least 30 from every tower and at least 50 from the castle. */
  lemma BuiltClear(s: State, m: Point, i: nat, t: real)
    requires CanBuild(s, m)
    requires i < |s.path| - 1 && 0.0 <= t <= 1.0
    ensures DistSq(m, SegmentPoint(s.path[i], s.path[i + 1], t)) >= RoadGapSq
    ensures forall k :: 0 <= k < |s.towers| ==> DistSq(s.towers[k].pos, m) >= TowerGapSq
    ensures DistSq(s.path[|s.path| - 1], m) >= CastleGapSq
  {
    DistToSegmentIsMinimum(m, s.path[i], s.path[i + 1]);
  }
}
