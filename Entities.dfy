/** The game's entities and the rules that move one of them for one tick:
    the stat tables, enemy creation, the waypoint walk of an enemy, tower
    cooldown and first-in-range targeting, the area blast and particles. */
module Entities {
  import opened Geometry
  import opened Seqs
  import opened Waves

  datatype TowerKind = Archer | Cannon | Ice

  /** The `type` field of a tower's stats. */
  datatype Effect = Single | Area | Slow

  // Tower stats (`towerStats`).

  function Cost(k: TowerKind): (c: int)
    ensures c > 0
  {
    match k
    case Archer => 50
    case Cannon => 120
    case Ice => 200
  }

  function Range(k: TowerKind): (r: real)
    ensures r > 0.0
  {
    match k
    case Archer => 120.0
    case Cannon => 150.0
    case Ice => 100.0
  }

  function Damage(k: TowerKind): (d: real)
    ensures d > 0.0
  {
    match k
    case Archer => 15.0
    case Cannon => 50.0
    case Ice => 5.0
  }

  function Rate(k: TowerKind): (r: int)
    ensures r > 0
  {
    match k
    case Archer => 30
    case Cannon => 80
    case Ice => 10
  }

  function ProjectileSpeed(k: TowerKind): (v: real)
    ensures v > 0.0
  {
    match k
    case Archer => 12.0
    case Cannon => 10.0
    case Ice => 8.0
  }

  function EffectOf(k: TowerKind): Effect {
    match k
    case Archer => Single
    case Cannon => Area
    case Ice => Slow
  }

  // Enemy stats (`enemyTypes`).

  function BaseHp(k: EnemyKind): (h: real)
    ensures h > 0.0
  {
    match k
    case Orc => 30.0
    case Bat => 15.0
    case Golem => 150.0
  }

  function Speed(k: EnemyKind): (v: real)
    ensures v > 0.0
  {
    match k
    case Orc => 1.5
    case Bat => 3.5
    case Golem => 0.8
  }

  function Reward(k: EnemyKind): (g: int)
    ensures g > 0
  {
    match k
    case Orc => 10
    case Bat => 15
    case Golem => 50
  }

  /** Ticks of slowness an ice hit gives. */
  const FreezeTicks: int := 40
  /** `shooting` frames set when a tower fires. */
  const ShootFrames: int := 5
  /** Life of a fresh particle. */
  const ParticleLife: int := 15
  /** Radius of the cannon's splash. */
  const BlastRadius: real := 60.0

  /** An enemy. Its speed and reward are those of its kind: the source
      copies them from the table and never changes them. */
  datatype Enemy = Enemy(kind: EnemyKind, pos: Point, wp: nat, hp: real, maxHp: real, frozen: int, reached: bool)

  datatype Tower = Tower(pos: Point, kind: TowerKind, cd: int, shooting: int)

  /** A projectile; `target` is the id of the enemy it homes on. */
  datatype Projectile = Projectile(pos: Point, target: nat, kind: TowerKind, hit: bool)

  /** A particle; only its remaining life matters to the game. */
  datatype Particle = Particle(life: int)

  /** `1 + levelNum * 0.2 + wave * 0.15`. */
  function HpMultiplier(level: int, wave: int): real {
    1.0 + (level as real) * 0.2 + (wave as real) * 0.15
  }

  /** `spawnEnemy` for one tag: a fresh enemy at the path start. */
  function Spawned(kind: EnemyKind, start: Point, level: int, wave: int): (e: Enemy)
    ensures e.kind == kind && e.pos == start && e.wp == 0 && e.frozen == 0 && !e.reached
    ensures e.hp == e.maxHp
    ensures level >= 0 && wave >= 0 ==> e.hp >= BaseHp(kind)
  {
    var hp := BaseHp(kind) * HpMultiplier(level, wave);
    Enemy(kind, start, 0, hp, hp, 0, false)
  }

  /** With level 1 and wave 1 the multiplier is 1.35: a first orc has 40.5 hp. */
  lemma FirstWaveMultiplier()
    ensures HpMultiplier(1, 1) == 1.35
    ensures Spawned(Orc, Point(0.0, 0.0), 1, 1).hp == 40.5
  {
  }

  // Enemy movement (`moveEnemy`).

  /** The speed of this tick: halved exactly while the enemy is frozen. */
  function EffectiveSpeed(e: Enemy): (v: real)
    ensures 0.0 < v <= Speed(e.kind)
    ensures v < Speed(e.kind) <==> e.frozen > 0
    ensures e.frozen > 0 ==> 2.0 * v == Speed(e.kind)
    ensures e.frozen <= 0 ==> v == Speed(e.kind)
  {
    if e.frozen > 0 then Speed(e.kind) * 0.5 else Speed(e.kind)
  }

  /** An enemy after its move, and whether it reached the castle now. */
  datatype Moved = Moved(enemy: Enemy, arrived: bool)

  function MoveEnemy(e: Enemy, path: seq<Point>, norm: (real, real) -> real): (m: Moved)
    requires IsNorm(norm)
    ensures m.enemy.kind == e.kind && m.enemy.hp == e.hp && m.enemy.maxHp == e.maxHp
    ensures m.enemy.frozen == if e.frozen > 0 then e.frozen - 1 else e.frozen
    ensures e.wp <= m.enemy.wp <= e.wp + 1
    ensures e.wp < |path| ==> m.enemy.wp < |path|
    ensures m.arrived <==> m.enemy.wp == e.wp + 1 == |path| - 1
    ensures m.enemy.reached <==> e.reached || m.arrived
  {
    var speed := EffectiveSpeed(e);
    var e1 := e.(frozen := if e.frozen > 0 then e.frozen - 1 else e.frozen);
    if e1.wp + 1 >= |path| then Moved(e1, false)
    else
      var target := path[e1.wp + 1];
      if Within(target.x - e1.pos.x, target.y - e1.pos.y, speed) then
        var wp := e1.wp + 1;
        if wp >= |path| - 1 then Moved(e1.(pos := target, wp := wp, reached := true), true)
        else Moved(e1.(pos := target, wp := wp), false)
      else
        Moved(e1.(pos := StepToward(e1.pos, target, speed, norm)), false)
  }

  /** Where the move lands: on the next waypoint when it was closer than
      one step, otherwise exactly one step of the current speed nearer to
      it; an enemy with no next waypoint stays put. */
  lemma MoveEnemyPosition(e: Enemy, path: seq<Point>, norm: (real, real) -> real)
    requires IsNorm(norm)
    ensures var m := MoveEnemy(e, path, norm);
      if e.wp + 1 >= |path| then m.enemy.pos == e.pos
      else if m.enemy.wp == e.wp + 1 then
        m.enemy.pos == path[e.wp + 1] && Within(path[e.wp + 1].x - e.pos.x, path[e.wp + 1].y - e.pos.y, EffectiveSpeed(e))
      else
        DistSq(e.pos, m.enemy.pos) == Sq(EffectiveSpeed(e))
        && DistSq(m.enemy.pos, path[e.wp + 1]) < DistSq(e.pos, path[e.wp + 1])
  {
    if e.wp + 1 < |path| {
      var target := path[e.wp + 1];
      var speed := EffectiveSpeed(e);
      if !Within(target.x - e.pos.x, target.y - e.pos.y, speed) {
        StepTowardLength(e.pos, target, speed, norm);
        StepTowardApproaches(e.pos, target, speed, norm);
      }
    }
  }

  /** An enemy that stands on the last waypoint never arrives again, so
      each enemy costs at most one life. */
  lemma ArrivesOnce(e: Enemy, path: seq<Point>, norm: (real, real) -> real)
    requires IsNorm(norm) && e.wp + 1 >= |path|
    ensures !MoveEnemy(e, path, norm).arrived
    ensures MoveEnemy(e, path, norm).enemy == e.(frozen := if e.frozen > 0 then e.frozen - 1 else e.frozen)
  {
  }

  // Tower targeting and cooldown (`runTower`).

  predicate InRange(e: Enemy, at: Point, range: real) {
    WithinOrOn(e.pos.x - at.x, e.pos.y - at.y, range)
  }

  /** `enemies.find(...)` from position `from` on: the position in the id
      list of the first enemy within range, if any. */
  function FirstInRange(pool: seq<Enemy>, ids: seq<nat>, at: Point, range: real, from: nat): (r: Option<nat>)
    requires IdsBelow(ids, |pool|) && from <= |ids|
    ensures r.Some? ==> from <= r.value < |ids| && InRange(pool[ids[r.value]], at, range)
    ensures r.Some? ==> forall j :: from <= j < r.value ==> !InRange(pool[ids[j]], at, range)
    ensures r.None? ==> forall j :: from <= j < |ids| ==> !InRange(pool[ids[j]], at, range)
    decreases |ids| - from
  {
    if from == |ids| then None
    else if InRange(pool[ids[from]], at, range) then Some(from)
    else FirstInRange(pool, ids, at, range, from + 1)
  }

  /** The target a tower would pick: a position in the id list. */
  function Target(t: Tower, pool: seq<Enemy>, ids: seq<nat>): Option<nat>
    requires IdsBelow(ids, |pool|)
  {
    FirstInRange(pool, ids, t.pos, Range(t.kind), 0)
  }

  /** A tower after its turn, and the id of the enemy it fired at. */
  datatype Turn = Turn(tower: Tower, fired: Option<nat>)

  function RunTower(t: Tower, pool: seq<Enemy>, ids: seq<nat>): (u: Turn)
    requires IdsBelow(ids, |pool|)
    ensures u.tower.pos == t.pos && u.tower.kind == t.kind
    ensures u.fired.Some? <==> t.cd <= 0 && Target(t, pool, ids).Some?
    ensures u.fired.Some? ==> u.fired.value == ids[Target(t, pool, ids).value]
    ensures u.fired.Some? ==> u.tower.cd == Rate(t.kind) && u.tower.shooting == ShootFrames - 1
    ensures u.fired.None? ==> u.tower.cd == (if t.cd > 0 then t.cd - 1 else t.cd)
    ensures u.fired.None? ==> u.tower.shooting == (if t.shooting > 0 then t.shooting - 1 else t.shooting)
    ensures 0 <= t.cd <= Rate(t.kind) ==> 0 <= u.tower.cd <= Rate(t.kind)
    ensures 0 <= t.shooting < ShootFrames ==> 0 <= u.tower.shooting < ShootFrames
  {
    var u := if t.cd > 0 then Turn(t.(cd := t.cd - 1), None)
      else match Target(t, pool, ids)
        case None => Turn(t, None)
        case Some(k) => Turn(t.(cd := Rate(t.kind), shooting := ShootFrames), Some(ids[k]));
    u.(tower := u.tower.(shooting := if u.tower.shooting > 0 then u.tower.shooting - 1 else u.tower.shooting))
  }

  /** n consecutive turns of one tower facing the same enemies: the tower
      afterwards and the number of shots. */
  datatype Turns = Turns(tower: Tower, shots: nat)

  function RunFor(t: Tower, pool: seq<Enemy>, ids: seq<nat>, n: nat): Turns
    requires IdsBelow(ids, |pool|)
    decreases n
  {
    if n == 0 then Turns(t, 0)
    else
      var u := RunTower(t, pool, ids);
      var rest := RunFor(u.tower, pool, ids, n - 1);
      Turns(rest.tower, rest.shots + if u.fired.Some? then 1 else 0)
  }

  lemma {:induction false} RunForSplit(t: Tower, pool: seq<Enemy>, ids: seq<nat>, a: nat, b: nat)
    requires IdsBelow(ids, |pool|)
    ensures var first := RunFor(t, pool, ids, a);
      RunFor(t, pool, ids, a + b) == Turns(RunFor(first.tower, pool, ids, b).tower, first.shots + RunFor(first.tower, pool, ids, b).shots)
    decreases a
  {
    if a > 0 {
      RunForSplit(RunTower(t, pool, ids).tower, pool, ids, a - 1, b);
    }
  }

  /** A tower with cooldown c spends c turns without shooting and then
      stands ready. */
  lemma {:induction false} CooldownWait(t: Tower, pool: seq<Enemy>, ids: seq<nat>, c: nat)
    requires IdsBelow(ids, |pool|) && t.cd == c
    ensures RunFor(t, pool, ids, c).shots == 0
    ensures RunFor(t, pool, ids, c).tower.cd == 0
    ensures RunFor(t, pool, ids, c).tower.kind == t.kind && RunFor(t, pool, ids, c).tower.pos == t.pos
    decreases c
  {
    if c > 0 {
      CooldownWait(RunTower(t, pool, ids).tower, pool, ids, c - 1);
    }
  }

  /** A ready tower that always has a target fires n times in n * (rate + 1)
      turns and is ready again: it fires once every rate + 1 ticks. */
  lemma {:induction false} FiringPeriod(t: Tower, pool: seq<Enemy>, ids: seq<nat>, n: nat)
    requires IdsBelow(ids, |pool|) && t.cd == 0 && Target(t, pool, ids).Some?
    ensures RunFor(t, pool, ids, n * (Rate(t.kind) + 1)).shots == n
    ensures RunFor(t, pool, ids, n * (Rate(t.kind) + 1)).tower.cd == 0
    ensures RunFor(t, pool, ids, n * (Rate(t.kind) + 1)).tower.kind == t.kind
    ensures RunFor(t, pool, ids, n * (Rate(t.kind) + 1)).tower.pos == t.pos
    decreases n
  {
    if n > 0 {
      var r := Rate(t.kind);
      var u := RunTower(t, pool, ids).tower;
      CooldownWait(u, pool, ids, r);
      RunForSplit(t, pool, ids, 1, r);
      var rounds := RunFor(t, pool, ids, r + 1);
      assert rounds.shots == 1 && rounds.tower.cd == 0;
      assert Target(rounds.tower, pool, ids) == Target(t, pool, ids);
      FiringPeriod(rounds.tower, pool, ids, n - 1);
      assert n * (r + 1) == (r + 1) + (n - 1) * (r + 1);
      RunForSplit(t, pool, ids, r + 1, (n - 1) * (r + 1));
    }
  }

  // Projectile effects (`moveProjectile`, `createExplosion`).

  /** A direct hit: the damage, and for ice the slowness. */
  function Strike(e: Enemy, k: TowerKind): (r: Enemy)
    ensures r.hp == e.hp - Damage(k) && r.hp < e.hp
    ensures r.frozen == if EffectOf(k) == Slow then FreezeTicks else e.frozen
    ensures r.(hp := e.hp, frozen := e.frozen) == e
  {
    e.(hp := e.hp - Damage(k), frozen := if EffectOf(k) == Slow then FreezeTicks else e.frozen)
  }

  predicate InBlast(e: Enemy, center: Point) {
    Within(e.pos.x - center.x, e.pos.y - center.y, BlastRadius)
  }

  /** The splash sweep over the listed enemies, in list order. */
  function Splash(pool: seq<Enemy>, ids: seq<nat>, center: Point, dmg: real): (r: seq<Enemy>)
    requires IdsBelow(ids, |pool|)
    ensures |r| == |pool|
    ensures forall i :: 0 <= i < |pool| ==> r[i].(hp := pool[i].hp) == pool[i]
    ensures dmg >= 0.0 ==> forall i :: 0 <= i < |pool| ==> r[i].hp <= pool[i].hp
  {
    if ids == [] then pool
    else
      var prev := Splash(pool, ids[..|ids| - 1], center, dmg);
      var id := ids[|ids| - 1];
      if InBlast(prev[id], center) then prev[id := prev[id].(hp := prev[id].hp - dmg)] else prev
  }

  /** Over a list without repeats the sweep takes dmg exactly from the
      listed enemies inside the blast, as they stood before it. */
  lemma {:induction false} SplashEffect(pool: seq<Enemy>, ids: seq<nat>, center: Point, dmg: real, i: nat)
    requires IdsBelow(ids, |pool|) && Increasing(ids) && i < |pool|
    ensures Splash(pool, ids, center, dmg)[i].hp
      == if i in ids && InBlast(pool[i], center) then pool[i].hp - dmg else pool[i].hp
  {
    if ids != [] {
      var init, id := ids[..|ids| - 1], ids[|ids| - 1];
      var prev := Splash(pool, init, center, dmg);
      assert id !in init;
      assert i in ids <==> i in init || i == id by {
        assert ids == init + [id];
      }
      SplashEffect(pool, init, center, dmg, id);
      assert prev[id].(hp := pool[id].hp) == pool[id];
      assert prev[id].hp == pool[id].hp;
      assert prev[id] == pool[id];
      SplashEffect(pool, init, center, dmg, i);
    }
  }

  /** `createExplosion(..., count)`: count fresh particles. */
  function Explosion(count: nat): (r: seq<Particle>)
    ensures |r| == count
    ensures forall i :: 0 <= i < count ==> r[i].life == ParticleLife
  {
    seq(count, _ => Particle(ParticleLife))
  }

  predicate Glowing(p: Particle) {
    p.life > 0
  }

  /** `updateParticles`: every life drops by one, then the expired go. */
  function AgeParticles(ps: seq<Particle>): seq<Particle> {
    Filter(seq(|ps|, i requires 0 <= i < |ps| => Particle(ps[i].life - 1)), Glowing)
  }

  /** Particles with lives in lo..hi (lo >= 1) come out with lives in
      1..hi-1: none outlives its initial life. */
  lemma AgeParticlesBounds(ps: seq<Particle>, hi: int)
    requires forall i :: 0 <= i < |ps| ==> 1 <= ps[i].life <= hi
    ensures forall i :: 0 <= i < |AgeParticles(ps)| ==> 1 <= AgeParticles(ps)[i].life <= hi - 1
  {
    var aged := seq(|ps|, i requires 0 <= i < |ps| => Particle(ps[i].life - 1));
    FilterAllKept(aged, Glowing);
    FilterSubsequence(aged, Glowing);
  }
}
