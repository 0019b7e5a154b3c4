/** The game as the source keeps it: its globals are the fields of one
    object, and `update`, the click handler and the level and wave
    controls change them step by step. Each method is proved to leave the
    object in the state the matching function of `World` computes from
    the state before it. */
module Game {
  import opened Geometry
  import opened Seqs
  import opened Waves
  import opened Entities
  import opened MapGen
  import opened World
  import opened Invariant

  /** `Array.filter`: the loop that keeps, in order, the elements that pass. */
  method Retain<T>(xs: seq<T>, keep: T -> bool) returns (r: seq<T>)
    ensures r == Filter(xs, keep)
  {
    r := [];
    var i := 0;
    while i < |xs|
      invariant 0 <= i <= |xs|
      invariant r == Filter(xs[..i], keep)
    {
      assert xs[..i + 1][..i] == xs[..i];
      if keep(xs[i]) {
        r := r + [xs[i]];
      }
      i := i + 1;
    }
    assert xs[..i] == xs;
  }

  /** `enemies.find(...)` in `runTower`: the position in the id list of
      the first enemy within range of `at`. */
  method FindTarget(pool: seq<Enemy>, ids: seq<nat>, at: Point, range: real) returns (r: Option<nat>)
    requires IdsBelow(ids, |pool|)
    ensures r == FirstInRange(pool, ids, at, range, 0)
  {
    var i := 0;
    while i < |ids| && !InRange(pool[ids[i]], at, range)
      invariant 0 <= i <= |ids|
      invariant FirstInRange(pool, ids, at, range, i) == FirstInRange(pool, ids, at, range, 0)
    {
      i := i + 1;
    }
    r := if i < |ids| then Some(i) else None;
  }

  /** The tower-tower loop of the click handler. */
  method TowerInTheWay(towers: seq<Tower>, m: Point) returns (near: bool)
    ensures near == NearTower(towers, m)
  {
    var k := 0;
    while k < |towers|
      invariant 0 <= k <= |towers|
      invariant forall j :: 0 <= j < k ==> DistSq(towers[j].pos, m) >= TowerGapSq
    {
      if DistSq(towers[k].pos, m) < TowerGapSq {
        return true;
      }
      k := k + 1;
    }
    return false;
  }

  /** The road loop of the click handler, one segment at a time. */
  method RoadInTheWay(path: seq<Point>, m: Point) returns (near: bool)
    ensures near == NearRoad(path, m)
  {
    var i := 0;
    while i < |path| - 1
      invariant 0 <= i && (|path| >= 1 ==> i <= |path| - 1)
      invariant forall j :: 0 <= j < i && j < |path| - 1 ==> DistToSegmentSq(m, path[j], path[j + 1]) >= RoadGapSq
    {
      if DistToSegmentSq(m, path[i], path[i + 1]) < RoadGapSq {
        return true;
      }
      i := i + 1;
    }
    return false;
  }

  /** The three push loops of `startWave`: n copies of x after q. */
  method PushRepeat(q: seq<EnemyKind>, x: EnemyKind, n: nat) returns (r: seq<EnemyKind>)
    ensures r == q + Repeat(x, n)
  {
    r := q;
    var i := 0;
    while i < n
      invariant 0 <= i <= n
      invariant r == q + Repeat(x, i)
    {
      assert Repeat(x, i) + [x] == Repeat(x, i + 1);
      r := r + [x];
      i := i + 1;
    }
  }

  /** `shuffleArray` on the queue: copied into an array, shuffled in place. */
  method ShuffleQueue(q: seq<EnemyKind>, picks: seq<nat>) returns (r: seq<EnemyKind>)
    requires ValidPicks(picks, |q|)
    ensures r == Shuffled(q, picks)
  {
    var a := new EnemyKind[|q|](j requires 0 <= j < |q| => q[j]);
    assert a[..] == q;
    Shuffle(a, picks);
    r := a[..];
  }

  /** The splash loop of `moveProjectile`: every listed enemy within the
      blast of `center` loses dmg, in list order. */
  method SplashSweep(pool: seq<Enemy>, ids: seq<nat>, center: Point, dmg: real) returns (r: seq<Enemy>)
    requires IdsBelow(ids, |pool|)
    ensures r == Splash(pool, ids, center, dmg)
  {
    r := pool;
    var i := 0;
    while i < |ids|
      invariant 0 <= i <= |ids|
      invariant IdsBelow(ids[..i], |pool|)
      invariant r == Splash(pool, ids[..i], center, dmg)
    {
      assert ids[..i + 1][..i] == ids[..i];
      var id := ids[i];
      if InBlast(r[id], center) {
        r := r[id := r[id].(hp := r[id].hp - dmg)];
      }
      i := i + 1;
    }
    assert ids[..i] == ids;
  }

  /** The damage of a landing projectile: the hit on its target and, for
      a cannon ball, the splash around the target. */
  method ApplyImpact(pool: seq<Enemy>, ids: seq<nat>, id: nat, kind: TowerKind) returns (r: seq<Enemy>)
    requires id < |pool| && IdsBelow(ids, |pool|)
    ensures r == Impact(pool, ids, id, kind)
  {
    var e := pool[id];
    r := pool[id := Strike(e, kind)];
    if EffectOf(kind) == Area {
      r := SplashSweep(r, ids, e.pos, Damage(kind) / 2.0);
    }
  }

  /** The three push loops of `startWave` for wave w. */
  method BuildWaveQueue(wave: int) returns (q: seq<EnemyKind>)
    requires wave >= 0
    ensures q == WaveQueue(wave)
  {
    q := PushRepeat([], Orc, OrcCount(wave));
    assert q == Repeat(Orc, OrcCount(wave));
    q := PushRepeat(q, Bat, BatCount(wave));
    q := PushRepeat(q, Golem, GolemCount(wave));
  }

  /** One more step of the projectile fold. */
  lemma MoveProjectilesNext(s: State, k: nat, norm: (real, real) -> real, prev: State, next: State)
    requires k < |s.projectiles| && Refs(s) && IsNorm(norm)
    requires prev == MoveProjectiles(s, k, norm) && next == MoveProjectileAt(prev, k, norm)
    ensures next == MoveProjectiles(s, k + 1, norm)
  {
  }

  class Game {
    var level: int
    var gold: int
    var lives: int
    var wave: int
    var pool: seq<Enemy>
    var enemies: seq<nat>
    var towers: seq<Tower>
    var projectiles: seq<Projectile>
    var particles: seq<Particle>
    var path: seq<Point>
    var over: bool
    var paused: bool
    var waveActive: bool
    var queue: seq<EnemyKind>
    var spawnTimer: int
    var selected: TowerKind
    /** The canvas size `generateMap` lays the grid on. */
    const width: nat
    const height: nat

    function Snapshot(): State
      reads this
    {
      State(level, gold, lives, wave, pool, enemies, towers, projectiles, particles, path,
            over, paused, waveActive, queue, spawnTimer, selected)
    }

    /** The globals as declared, before the first level. */
    constructor(width: nat, height: nat)
      ensures Snapshot() == Initial()
      ensures this.width == width && this.height == height
    {
      this.width, this.height := width, height;
      level, gold, lives, wave := 1, StartGold, StartLives, 1;
      pool, enemies, towers, projectiles, particles, path := [], [], [], [], [], [];
      over, paused, waveActive := false, false, false;
      queue, spawnTimer, selected := [], 0, Archer;
    }

    // ---- The map and the level and wave controls.

    /** `generateMap` with the five row offsets it draws. */
    method GenerateMap(picks: seq<int>)
      requires height > 0 && |picks| == 5
      modifies this
      ensures Snapshot() == old(Snapshot()).(path := MapPath(width, height, picks))
    {
      path := Generate(width, height, picks);
    }

    /** `initLevel`; the `startWave` it schedules is a separate call. */
    method InitLevel(picks: seq<int>)
      requires height > 0 && |picks| == 5
      modifies this
      ensures Snapshot() == World.InitLevel(old(Snapshot()), MapPath(width, height, picks))
    {
      GenerateMap(picks);
      gold := gold + LevelBonus;
      wave := 1;
      lives := StartLives;
      pool, enemies, towers, projectiles, particles := [], [], [], [], [];
      over := false;
      queue := [];
    }

    /** `startWave`: fill the queue, then shuffle it in place. */
    method StartWave(picks: seq<nat>)
      requires wave >= 0 && ValidPicks(picks, |WaveQueue(wave)|)
      modifies this
      ensures Snapshot() == World.StartWave(old(Snapshot()), picks)
    {
      var q := BuildWaveQueue(wave);
      var shuffled := ShuffleQueue(q, picks);
      waveActive, queue := true, shuffled;
    }

    method TogglePause()
      modifies this
      ensures Snapshot() == World.TogglePause(old(Snapshot()))
    {
      paused := !paused;
    }

    method SelectTower(k: TowerKind)
      modifies this
      ensures Snapshot() == World.SelectTower(old(Snapshot()), k)
    {
      selected := k;
    }

    method LevelComplete()
      modifies this
      ensures Snapshot() == EndGame(old(Snapshot()))
    {
      over := true;
    }

    method TriggerGameOver()
      modifies this
      ensures Snapshot() == EndGame(old(Snapshot()))
    {
      over := true;
    }

    method NextLevel(picks: seq<int>)
      requires height > 0 && |picks| == 5
      modifies this
      ensures Snapshot() == World.NextLevel(old(Snapshot()), MapPath(width, height, picks))
    {
      level := level + 1;
      InitLevel(picks);
    }

    // ---- Building.

    /** The canvas click handler at the canvas point m. */
    method Click(m: Point)
      modifies this
      ensures Snapshot() == World.Click(old(Snapshot()), m)
    {
      if over || paused {
        return;
      }
      var cost := Cost(selected);
      if gold < cost {
        return;
      }
      // With no road yet, reading the castle throws and the click has no effect.
      if |path| == 0 || DistSq(path[|path| - 1], m) < CastleGapSq {
        return;
      }
      var nearTower := TowerInTheWay(towers, m);
      if nearTower {
        return;
      }
      var nearRoad := RoadInTheWay(path, m);
      if nearRoad {
        return;
      }
      towers := towers + [Tower(m, selected, 0, 0)];
      gold := gold - cost;
    }

    // ---- One frame of `update`, phase by phase.

    method SpawnEnemy(kind: EnemyKind)
      requires |path| >= 1
      modifies this
      ensures Snapshot() == World.SpawnEnemy(old(Snapshot()), kind)
    {
      enemies := enemies + [|pool|];
      pool := pool + [Spawned(kind, path[0], level, wave)];
    }

    /** The spawning block at the top of `update`. */
    method Spawning()
      requires |path| >= 1
      modifies this
      ensures Snapshot() == SpawnPhase(old(Snapshot()))
    {
      if |queue| > 0 {
        spawnTimer := spawnTimer + 1;
        if spawnTimer > SpawnDelay {
          var kind := queue[0];
          queue := queue[1..];
          SpawnEnemy(kind);
          spawnTimer := 0;
        }
      } else if enemies == [] && waveActive {
        waveActive := false;
        if wave < MaxWaves {
          wave := wave + 1;
        } else {
          LevelComplete();
        }
      }
    }

    /** `moveEnemy` on the enemy with the given id. */
    method MoveEnemyStep(id: nat, norm: (real, real) -> real)
      requires id < |pool| && IsNorm(norm)
      modifies this
      ensures Snapshot() == MoveEnemyAt(old(Snapshot()), id, norm)
    {
      var m := MoveEnemy(pool[id], path, norm);
      pool := pool[id := m.enemy];
      if m.arrived {
        lives := lives - 1;
        if lives <= 0 {
          TriggerGameOver();
        }
      }
    }

    /** `enemies.forEach(moveEnemy)`. */
    method MoveAllEnemies(norm: (real, real) -> real)
      requires IdsBelow(enemies, |pool|) && IsNorm(norm)
      modifies this
      ensures Snapshot() == MoveEnemies(old(Snapshot()), old(enemies), norm)
    {
      ghost var s0 := Snapshot();
      var i := 0;
      while i < |enemies|
        invariant 0 <= i <= |s0.enemies| && enemies == s0.enemies
        invariant Snapshot() == MoveEnemies(s0, s0.enemies[..i], norm)
      {
        assert s0.enemies[..i + 1][..i] == s0.enemies[..i];
        MoveEnemyStep(enemies[i], norm);
        i := i + 1;
      }
      assert s0.enemies[..i] == s0.enemies;
    }

    /** `runTower` on the k-th tower. */
    method RunTowerStep(k: nat)
      requires k < |towers| && IdsBelow(enemies, |pool|)
      modifies this
      ensures Snapshot() == RunTowerAt(old(Snapshot()), k)
    {
      var t := towers[k];
      if t.cd > 0 {
        t := t.(cd := t.cd - 1);
      } else {
        var found := FindTarget(pool, enemies, t.pos, Range(t.kind));
        if found.Some? {
          projectiles := projectiles + [Projectile(t.pos, enemies[found.value], t.kind, false)];
          t := t.(cd := Rate(t.kind), shooting := ShootFrames);
        }
      }
      if t.shooting > 0 {
        t := t.(shooting := t.shooting - 1);
      }
      towers := towers[k := t];
    }

    /** `towers.forEach(runTower)`. */
    method RunAllTowers()
      requires IdsBelow(enemies, |pool|)
      modifies this
      ensures Snapshot() == RunTowers(old(Snapshot()), |old(towers)|)
    {
      ghost var s0 := Snapshot();
      var k := 0;
      while k < |towers|
        invariant 0 <= k <= |s0.towers| && |towers| == |s0.towers|
        invariant Snapshot() == RunTowers(s0, k)
      {
        RunTowerStep(k);
        k := k + 1;
      }
    }

    /** `createExplosion(x, y, color, count)`. */
    method CreateExplosion(count: nat)
      modifies this
      ensures Snapshot() == old(Snapshot()).(particles := old(particles) + Explosion(count))
    {
      var i := 0;
      while i < count
        invariant 0 <= i <= count
        invariant Snapshot() == old(Snapshot()).(particles := old(particles) + Explosion(i))
      {
        assert Explosion(i) + [Particle(ParticleLife)] == Explosion(i + 1);
        particles := particles + [Particle(ParticleLife)];
        i := i + 1;
      }
    }

    /** The hit branch of `moveProjectile`: damage, splash, sparks, reward. */
    method Land(k: nat)
      requires k < |projectiles| && Refs(Snapshot())
      modifies this
      ensures var p := old(projectiles[k]); var e := old(pool[p.target]);
        var hit := Impact(old(pool), old(enemies), p.target, p.kind);
        Snapshot() == old(Snapshot()).(projectiles := old(projectiles)[k := p.(hit := true)], pool := hit,
          gold := if hit[p.target].hp <= 0.0 then old(gold) + Reward(e.kind) else old(gold),
          particles := old(particles) + Explosion(Sparks(p.kind)))
    {
      var p := projectiles[k];
      var e := pool[p.target];
      var hit := ApplyImpact(pool, enemies, p.target, p.kind);
      var reward := if hit[p.target].hp <= 0.0 then Reward(e.kind) else 0;
      projectiles, pool, gold := projectiles[k := p.(hit := true)], hit, gold + reward;
      // The sparks touch only the particles, so they may come last.
      CreateExplosion(Sparks(p.kind));
    }

    /** `moveProjectile` on the k-th projectile. */
    method MoveProjectileStep(k: nat, norm: (real, real) -> real)
      requires k < |projectiles| && Refs(Snapshot()) && IsNorm(norm)
      modifies this
      ensures Snapshot() == MoveProjectileAt(old(Snapshot()), k, norm)
    {
      var p := projectiles[k];
      var e := pool[p.target];
      if e.hp <= 0.0 && !e.reached {
        projectiles := projectiles[k := p.(hit := true)];
      } else if Within(e.pos.x - p.pos.x, e.pos.y - p.pos.y, ProjectileSpeed(p.kind)) {
        Land(k);
      } else {
        projectiles := projectiles[k := p.(pos := StepToward(p.pos, e.pos, ProjectileSpeed(p.kind), norm))];
      }
    }

    /** `projectiles.forEach(moveProjectile)`. */
    method MoveAllProjectiles(norm: (real, real) -> real)
      requires Refs(Snapshot()) && IsNorm(norm)
      modifies this
      ensures Snapshot() == MoveProjectiles(old(Snapshot()), |old(projectiles)|, norm)
    {
      ghost var s0 := Snapshot();
      var k := 0;
      while k < |projectiles|
        invariant 0 <= k <= |s0.projectiles| && |projectiles| == |s0.projectiles|
        invariant Snapshot() == MoveProjectiles(s0, k, norm)
      {
        ghost var prev := Snapshot();
        MoveProjectileStep(k, norm);
        MoveProjectilesNext(s0, k, norm, prev, Snapshot());
        k := k + 1;
      }
    }

    /** `updateParticles`: the ageing loop, then the filter. */
    method UpdateParticles()
      modifies this
      ensures Snapshot() == old(Snapshot()).(particles := AgeParticles(old(particles)))
    {
      var ps := particles;
      var aged: seq<Particle> := [];
      var i := 0;
      while i < |ps|
        invariant 0 <= i <= |ps| && |aged| == i
        invariant forall j :: 0 <= j < i ==> aged[j] == Particle(ps[j].life - 1)
      {
        aged := aged + [Particle(ps[i].life - 1)];
        i := i + 1;
      }
      assert aged == seq(|ps|, j requires 0 <= j < |ps| => Particle(ps[j].life - 1));
      particles := Retain(aged, Glowing);
    }

    /** The two filters at the end of `update`. */
    method CleanUp()
      modifies this
      ensures Snapshot() == Cleanup(old(Snapshot()))
    {
      enemies := Retain(enemies, AliveIn(pool));
      projectiles := Retain(projectiles, Unspent);
    }

    /** `update` for one frame (drawing and the rescheduling aside). The
        frame keeps the invariant of `Invariant.Valid`. */
    method Update(norm: (real, real) -> real)
      requires Refs(Snapshot()) && |path| >= 1 && IsNorm(norm)
      modifies this
      ensures Snapshot() == Tick(old(Snapshot()), norm)
      ensures Valid(old(Snapshot())) ==> Valid(Snapshot())
    {
      ghost var s0 := Snapshot();
      if Valid(s0) {
        TickValid(s0, norm);
      }
      if paused || over {
        return;
      }
      Spawning();
      MoveAllEnemies(norm);
      RunAllTowers();
      MoveAllProjectiles(norm);
      UpdateParticles();
      CleanUp();
    }
  }
}
