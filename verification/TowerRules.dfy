/**
 What one step of the tower-defence simulation computes, on values. Steering, angles,
 distances and the random engine are unknown functions; everything else is spelled out.
 */
module TowerRules {
  datatype Vec2 = Vec2(x: real, y: real)

  datatype Enemy = Enemy(id: nat, typeIdx: nat, position: Vec2, rotation: real, velocity: Vec2,
                         remainingHealth: real, nextWaypointIdx: nat, distanceToGoal: real)

  datatype Tower = Tower(id: nat, typeIdx: nat, position: Vec2, rotation: real, timeSinceLastShot: real)

  datatype Projectile = Projectile(id: nat, typeIdx: nat, position: Vec2, rotation: real,
                                   lastEnemyPosition: Vec2, targetEnemyIndex: nat, targetEnemyId: nat)

  datatype EnemyType = EnemyType(maxHealth: real, speed: real, goldReward: real)
  datatype TowerType = TowerType(cost: real, range: real, shotsPerSecond: real, projectileTypeIdx: nat)
  datatype ProjectileType = ProjectileType(damage: real, speed: real, splashRadius: real)

  datatype MapData = MapData(waypoints: seq<Vec2>, distancesToGoal: seq<real>, enemyTypes: seq<EnemyType>,
                             towerTypes: seq<TowerType>, projectileTypes: seq<ProjectileType>)

  datatype Command =
    | SpawnEnemy(enemyType: nat)
    | DespawnAllEnemies
    | AddGold(amount: real)
    | BuildTower(towerType: nat, position: Vec2)

  datatype Event =
    | ProjectileLaunched(typeIdx: nat, position: Vec2)
    | ProjectileHit(position: Vec2, enemyIndex: nat, projectileTypeIdx: nat)
    | EnemyDied(enemyIndex: nat)

  type Engine = int

  datatype State = State(enemies: seq<Enemy>, towers: seq<Tower>, projectiles: seq<Projectile>,
                         gold: real, lives: nat, randomEngine: Engine, nextObjectId: nat)

  datatype Motion = Motion(velocity: Vec2, rotation: real, position: Vec2)

  // What the simulation takes from its maths and random libraries.
  datatype Laws = Laws(
    // Steering of the enemy at an index among the others, along a segment of the path.
    steer: (seq<Enemy>, nat, EnemyType, Vec2, Vec2, real) -> Motion,
    closestOnLine: (Vec2, Vec2, Vec2) -> Vec2,
    distance: (Vec2, Vec2) -> real,
    facing: (Vec2, Vec2) -> real,
    // A step of a given length from one point towards another.
    advance: (Vec2, Vec2, real) -> Vec2,
    // The index that sorting the indices of some enemies by distance to the goal puts first.
    first: (seq<Enemy>, seq<nat>) -> nat,
    shift: Engine -> Vec2,
    engineAfter: Engine -> Engine)
  {
    function First(enemies: seq<Enemy>, query: seq<nat>): nat { first(enemies, query) }
    function Facing(a: Vec2, b: Vec2): real { facing(a, b) }
    function Distance(a: Vec2, b: Vec2): real { distance(a, b) }
    function Advance(a: Vec2, b: Vec2, step: real): Vec2 { advance(a, b, step) }
    function ClosestOnLine(p: Vec2, a: Vec2, b: Vec2): Vec2 { closestOnLine(p, a, b) }
    function Steer(enemies: seq<Enemy>, i: nat, kind: EnemyType, a: Vec2, b: Vec2, delta: real): Motion {
      steer(enemies, i, kind, a, b, delta)
    }
  }

  // Sorting puts one of the smallest first; which one is not promised.
  ghost predicate Lawful(laws: Laws) {
    forall enemies: seq<Enemy>, query: seq<nat> :: query != [] && (forall q :: q in query ==> q < |enemies|) ==>
      var t := laws.First(enemies, query);
      && t in query
      && forall q :: q in query ==> enemies[t].distanceToGoal <= enemies[q].distanceToGoal
  }

  // Twice the machine epsilon of a 32-bit float.
  const NEARLY: real := 1.0 / 4194304.0

  predicate IsNearlyZero(f: real) { f <= NEARLY }

  function DistanceSqr(a: Vec2, b: Vec2): real {
    (a.x - b.x) * (a.x - b.x) + (a.y - b.y) * (a.y - b.y)
  }

  // ---------- What makes sense ----------

  predicate ValidMap(mapData: MapData) {
    && |mapData.waypoints| >= 2 && |mapData.distancesToGoal| == |mapData.waypoints|
    && (forall t :: t in mapData.enemyTypes ==> t.maxHealth >= 0.0 && t.goldReward >= 0.0)
    && (forall t :: t in mapData.towerTypes ==>
          t.shotsPerSecond > 0.0 && t.projectileTypeIdx < |mapData.projectileTypes|)
  }

  predicate ValidEnemy(mapData: MapData, e: Enemy) {
    && e.typeIdx < |mapData.enemyTypes|
    && 1 <= e.nextWaypointIdx < |mapData.waypoints|
    && e.remainingHealth >= 0.0
  }

  predicate ValidEnemies(mapData: MapData, enemies: seq<Enemy>) {
    forall i :: 0 <= i < |enemies| ==> ValidEnemy(mapData, enemies[i])
  }

  // A tower never waits longer for a shot that is due than until its next step.
  predicate ValidTower(mapData: MapData, t: Tower) {
    && t.typeIdx < |mapData.towerTypes|
    && mapData.towerTypes[t.typeIdx].shotsPerSecond > 0.0
    && 0.0 <= t.timeSinceLastShot <= Interval(mapData.towerTypes[t.typeIdx])
  }

  predicate ValidTowers(mapData: MapData, towers: seq<Tower>) {
    forall i :: 0 <= i < |towers| ==> ValidTower(mapData, towers[i])
  }

  predicate ValidProjectiles(mapData: MapData, projectiles: seq<Projectile>) {
    forall i :: 0 <= i < |projectiles| ==> projectiles[i].typeIdx < |mapData.projectileTypes|
  }

  predicate ValidCommand(mapData: MapData, c: Command) {
    match c
    case SpawnEnemy(t) => t < |mapData.enemyTypes|
    case DespawnAllEnemies => true
    case AddGold(amount) => amount >= 0.0
    case BuildTower(t, _) => t < |mapData.towerTypes|
  }

  predicate ValidCommands(mapData: MapData, cs: seq<Command>) {
    forall i :: 0 <= i < |cs| ==> ValidCommand(mapData, cs[i])
  }

  // ---------- Enemies ----------

  predicate IsGone(mapData: MapData, e: Enemy)
    requires |mapData.waypoints| >= 2
  {
    IsNearlyZero(e.remainingHealth)
    || IsNearlyZero(DistanceSqr(e.position, mapData.waypoints[|mapData.waypoints| - 1]))
  }

  function Moved(laws: Laws, mapData: MapData, enemies: seq<Enemy>, i: nat, delta: real): Enemy
    requires ValidMap(mapData) && i < |enemies| && ValidEnemy(mapData, enemies[i])
  {
    var e := enemies[i];
    var a, b := mapData.waypoints[e.nextWaypointIdx - 1], mapData.waypoints[e.nextWaypointIdx];
    var closest := laws.ClosestOnLine(e.position, a, b);
    var motion := laws.Steer(enemies, i, mapData.enemyTypes[e.typeIdx], a, b, delta);
    e.(distanceToGoal := mapData.distancesToGoal[e.nextWaypointIdx] + laws.Distance(closest, b),
       nextWaypointIdx := if DistanceSqr(closest, b) < 1.0 && e.nextWaypointIdx < |mapData.waypoints| - 1
                          then e.nextWaypointIdx + 1 else e.nextWaypointIdx,
       velocity := motion.velocity, rotation := motion.rotation, position := motion.position)
  }

  // The first n enemies after they have moved.
  function MoveAll(laws: Laws, mapData: MapData, enemies: seq<Enemy>, n: nat, delta: real): seq<Enemy>
    requires ValidMap(mapData) && ValidEnemies(mapData, enemies) && n <= |enemies|
  {
    if n == 0 then []
    else
      MoveAll(laws, mapData, enemies, n - 1, delta)
      + if IsGone(mapData, enemies[n - 1]) then [] else [Moved(laws, mapData, enemies, n - 1, delta)]
  }

  predicate InRadius(e: Enemy, position: Vec2, radius: real) {
    !IsNearlyZero(e.remainingHealth) && DistanceSqr(e.position, position) <= radius * radius
  }

  // The indices of the enemies in a circle, among the first n.
  function Query(enemies: seq<Enemy>, position: Vec2, radius: real, n: nat): (r: seq<nat>)
    requires n <= |enemies|
    ensures forall q: nat :: q in r <==> q < n && InRadius(enemies[q], position, radius)
  {
    if n == 0 then []
    else
      Query(enemies, position, radius, n - 1)
      + if InRadius(enemies[n - 1], position, radius) then [n - 1] else []
  }

  // ---------- Towers ----------

  function Interval(t: TowerType): real
    requires t.shotsPerSecond > 0.0
  {
    1.0 / t.shotsPerSecond
  }

  lemma ZeroFactor(a: real, b: real)
    requires a * b == 0.0 && b > 0.0
    ensures a == 0.0
  {
  }

  lemma OneLess(time: real, interval: real)
    requires interval > 0.0
    ensures (time - interval) / interval == time / interval - 1.0
    ensures time > interval ==> time / interval > 1.0
  {
    var x, y := (time - interval) / interval, time / interval - 1.0;
    assert x * interval == time - interval;
    assert time / interval * interval == time;
    assert y * interval == time - interval;
    ZeroFactor(x - y, interval);
  }

  // How many whole intervals have to pass before at most one is left.
  function Due(time: real, interval: real): nat
    requires interval > 0.0
    decreases time / interval
  {
    if time <= interval then 0
    else
      OneLess(time, interval);
      1 + Due(time - interval, interval)
  }

  // What is left after those.
  function TimeLeft(time: real, interval: real): real
    requires interval > 0.0
    decreases time / interval
  {
    if time <= interval then time
    else
      OneLess(time, interval);
      TimeLeft(time - interval, interval)
  }

  // n projectiles like the given one, with consecutive ids.
  function Salvo(p: Projectile, id: nat, n: nat): (r: seq<Projectile>)
    ensures |r| == n && forall i :: 0 <= i < n ==> r[i] == p.(id := id + i)
  {
    if n == 0 then [] else Salvo(p, id, n - 1) + [p.(id := id + n - 1)]
  }

  function Launches(p: Projectile, n: nat): seq<Event> {
    if n == 0 then [] else Launches(p, n - 1) + [ProjectileLaunched(p.typeIdx, p.position)]
  }

  datatype Fired = Fired(towers: seq<Tower>, projectiles: seq<Projectile>, nextObjectId: nat, events: seq<Event>)

  function Aimed(laws: Laws, kind: TowerType, tower: Tower, enemies: seq<Enemy>, target: nat): Projectile
    requires target < |enemies|
  {
    Projectile(0, kind.projectileTypeIdx, tower.position, laws.Facing(tower.position, enemies[target].position),
               enemies[target].position, target, enemies[target].id)
  }

  function FireOne(laws: Laws, mapData: MapData, tower: Tower, enemies: seq<Enemy>, fired: Fired, delta: real): Fired
    requires Lawful(laws) && ValidMap(mapData) && ValidTower(mapData, tower)
  {
    var kind := mapData.towerTypes[tower.typeIdx];
    var query := Query(enemies, tower.position, kind.range, |enemies|);
    if query == [] then fired.(towers := fired.towers + [tower])
    else
      var target := laws.First(enemies, query);
      var time, interval := tower.timeSinceLastShot + delta, Interval(kind);
      var n := Due(time, interval);
      var shot := Aimed(laws, kind, tower, enemies, target);
      Fired(fired.towers + [tower.(rotation := laws.Facing(tower.position, enemies[target].position),
                                   timeSinceLastShot := TimeLeft(time, interval))],
            fired.projectiles + Salvo(shot, fired.nextObjectId, n),
            fired.nextObjectId + n,
            fired.events + Launches(shot, n))
  }

  // After the first n towers.
  function FireAll(laws: Laws, mapData: MapData, towers: seq<Tower>, n: nat, enemies: seq<Enemy>, nextObjectId: nat,
                   delta: real): Fired
    requires Lawful(laws) && ValidMap(mapData) && ValidTowers(mapData, towers) && n <= |towers|
  {
    if n == 0 then Fired([], [], nextObjectId, [])
    else
      var before := FireAll(laws, mapData, towers, n - 1, enemies, nextObjectId, delta);
      FireOne(laws, mapData, towers[n - 1], enemies, before, delta)
  }

  // ---------- Projectiles ----------

  datatype Impact = Impact(enemies: seq<Enemy>, projectiles: seq<Projectile>, gold: real, events: seq<Event>)

  // The same enemies in the same places, none healthier than before.
  predicate OnlyHurt(before: seq<Enemy>, after: seq<Enemy>) {
    && |after| == |before|
    && forall i :: 0 <= i < |before| ==> after[i] == before[i].(remainingHealth := after[i].remainingHealth)
  }

  function Hurt(health: real, damage: real): real { if health - damage > 0.0 then health - damage else 0.0 }

  function Damage(mapData: MapData, im: Impact, index: nat, p: Projectile): (r: Impact)
    requires ValidEnemies(mapData, im.enemies) && index < |im.enemies| && p.typeIdx < |mapData.projectileTypes|
    ensures OnlyHurt(im.enemies, r.enemies) && ValidEnemies(mapData, r.enemies)
  {
    var e, damage := im.enemies[index], mapData.projectileTypes[p.typeIdx].damage;
    var died := e.remainingHealth <= damage;
    Impact(im.enemies[index := e.(remainingHealth := Hurt(e.remainingHealth, damage))],
           im.projectiles,
           if died then im.gold + mapData.enemyTypes[e.typeIdx].goldReward else im.gold,
           im.events + [ProjectileHit(e.position, p.targetEnemyIndex, p.typeIdx)]
                     + if died then [EnemyDied(p.targetEnemyIndex)] else [])
  }

  // Damage to the enemies at the first n of some indices.
  function DamageAll(mapData: MapData, im: Impact, indices: seq<nat>, n: nat, p: Projectile): (r: Impact)
    requires ValidEnemies(mapData, im.enemies) && p.typeIdx < |mapData.projectileTypes|
    requires n <= |indices| && forall q :: q in indices ==> q < |im.enemies|
    ensures OnlyHurt(im.enemies, r.enemies) && ValidEnemies(mapData, r.enemies)
  {
    if n == 0 then im
    else assert indices[n - 1] in indices; Damage(mapData, DamageAll(mapData, im, indices, n - 1, p), indices[n - 1], p)
  }

  predicate TargetAlive(enemies: seq<Enemy>, p: Projectile) {
    p.targetEnemyIndex < |enemies| && enemies[p.targetEnemyIndex].id == p.targetEnemyId
  }

  function TargetPosition(enemies: seq<Enemy>, p: Projectile): Vec2 {
    if TargetAlive(enemies, p) then enemies[p.targetEnemyIndex].position else p.lastEnemyPosition
  }

  // The projectile as it arrives: the direct hit first, then everything in the splash radius.
  function Explode(mapData: MapData, p: Projectile, position: Vec2, im: Impact): (r: Impact)
    requires ValidEnemies(mapData, im.enemies) && p.typeIdx < |mapData.projectileTypes|
    ensures OnlyHurt(im.enemies, r.enemies) && ValidEnemies(mapData, r.enemies)
  {
    var hit := if TargetAlive(im.enemies, p) then Damage(mapData, im, p.targetEnemyIndex, p) else im;
    var radius := mapData.projectileTypes[p.typeIdx].splashRadius;
    if IsNearlyZero(radius) then hit
    else
      var query := Query(hit.enemies, position, radius, |hit.enemies|);
      DamageAll(mapData, hit, query, |query|, p)
  }

  // How far a projectile gets in a step.
  function Reach(kind: ProjectileType, delta: real): real { kind.speed * delta }

  function FlyOne(laws: Laws, mapData: MapData, p: Projectile, im: Impact, delta: real): (r: Impact)
    requires ValidEnemies(mapData, im.enemies) && p.typeIdx < |mapData.projectileTypes|
    ensures OnlyHurt(im.enemies, r.enemies) && ValidEnemies(mapData, r.enemies)
  {
    if |im.enemies| <= p.targetEnemyIndex then im
    else
      var position := TargetPosition(im.enemies, p);
      var next := p.(lastEnemyPosition := position, rotation := laws.Facing(p.position, position));
      var step := Reach(mapData.projectileTypes[p.typeIdx], delta);
      if laws.Distance(p.position, position) > step
      then im.(projectiles := im.projectiles + [next.(position := laws.Advance(p.position, position, step))])
      else Explode(mapData, next, position, im)
  }

  // After the first n projectiles.
  function FlyAll(laws: Laws, mapData: MapData, ps: seq<Projectile>, n: nat, im: Impact, delta: real): (r: Impact)
    requires ValidEnemies(mapData, im.enemies) && ValidProjectiles(mapData, ps) && n <= |ps|
    ensures OnlyHurt(im.enemies, r.enemies) && ValidEnemies(mapData, r.enemies)
  {
    if n == 0 then im else FlyOne(laws, mapData, ps[n - 1], FlyAll(laws, mapData, ps, n - 1, im, delta), delta)
  }

  // ---------- Commands ----------

  function Spawned(laws: Laws, mapData: MapData, t: nat, id: nat, engine: Engine): Enemy
    requires ValidMap(mapData) && t < |mapData.enemyTypes|
  {
    var shift := laws.shift(engine);
    Enemy(id, t, Vec2(mapData.waypoints[0].x + shift.x, mapData.waypoints[0].y + shift.y), 0.0, Vec2(0.0, 0.0),
          mapData.enemyTypes[t].maxHealth, 1, 0.0)
  }

  function Execute(laws: Laws, mapData: MapData, c: Command, s: State): State
    requires ValidMap(mapData) && ValidCommand(mapData, c)
  {
    match c
    case SpawnEnemy(t) =>
      s.(enemies := s.enemies + [Spawned(laws, mapData, t, s.nextObjectId, s.randomEngine)],
         randomEngine := laws.engineAfter(s.randomEngine), nextObjectId := s.nextObjectId + 1)
    case DespawnAllEnemies => s.(enemies := [])
    case AddGold(amount) => s.(gold := s.gold + amount)
    case BuildTower(t, position) =>
      var cost := mapData.towerTypes[t].cost;
      if s.gold >= cost then
        s.(gold := s.gold - cost, towers := s.towers + [Tower(s.nextObjectId, t, position, 0.0, 0.0)],
           nextObjectId := s.nextObjectId + 1)
      else s
  }

  function ExecuteAll(laws: Laws, mapData: MapData, cs: seq<Command>, n: nat, s: State): State
    requires ValidMap(mapData) && ValidCommands(mapData, cs) && n <= |cs|
  {
    if n == 0 then s else Execute(laws, mapData, cs[n - 1], ExecuteAll(laws, mapData, cs, n - 1, s))
  }

  // ---------- One step ----------

  predicate ValidState(mapData: MapData, s: State) {
    ValidEnemies(mapData, s.enemies) && ValidTowers(mapData, s.towers) && ValidProjectiles(mapData, s.projectiles)
  }

  function AfterTowers(laws: Laws, mapData: MapData, s: State, delta: real): Fired
    requires Lawful(laws) && ValidMap(mapData) && ValidState(mapData, s)
  {
    var enemies := MoveAll(laws, mapData, s.enemies, |s.enemies|, delta);
    FireAll(laws, mapData, s.towers, |s.towers|, enemies, s.nextObjectId, delta)
  }

  // Everything but the commands.
  function BeforeCommands(laws: Laws, mapData: MapData, s: State, delta: real): (State, seq<Event>)
    requires Lawful(laws) && ValidMap(mapData) && ValidState(mapData, s)
  {
    MovedAreValid(laws, mapData, s.enemies, |s.enemies|, delta);
    var enemies := MoveAll(laws, mapData, s.enemies, |s.enemies|, delta);
    var fired := AfterTowers(laws, mapData, s, delta);
    var shot := Impact(enemies, fired.projectiles, s.gold, fired.events);
    var im := FlyAll(laws, mapData, s.projectiles, |s.projectiles|, shot, delta);
    (State(im.enemies, fired.towers, im.projectiles, im.gold, s.lives, s.randomEngine, fired.nextObjectId), im.events)
  }

  function Step(laws: Laws, mapData: MapData, s: State, cs: seq<Command>, delta: real): State
    requires Lawful(laws) && ValidMap(mapData) && ValidState(mapData, s) && ValidCommands(mapData, cs)
  {
    ExecuteAll(laws, mapData, cs, |cs|, BeforeCommands(laws, mapData, s, delta).0)
  }

  lemma {:induction false} MovedAreValid(laws: Laws, mapData: MapData, enemies: seq<Enemy>, n: nat, delta: real)
    requires ValidMap(mapData) && ValidEnemies(mapData, enemies) && n <= |enemies|
    ensures ValidEnemies(mapData, MoveAll(laws, mapData, enemies, n, delta))
  {
    if n > 0 { MovedAreValid(laws, mapData, enemies, n - 1, delta); }
  }
}
