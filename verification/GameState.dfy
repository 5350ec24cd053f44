/**
 The mutable state of the tower-defence simulation and the step that fills the next state
 from the current one.
 */
module GameStates {
  import opened TowerRules

  class GameState {
    var enemies: seq<Enemy>
    var towers: seq<Tower>
    var projectiles: seq<Projectile>
    var gold: real
    var lives: nat
    var randomEngine: Engine
    var nextObjectId: nat

    constructor (gold: real, lives: nat, randomEngine: Engine)
      ensures Value() == State([], [], [], gold, lives, randomEngine, 0)
    {
      enemies, towers, projectiles := [], [], [];
      this.gold, this.lives, this.randomEngine, nextObjectId := gold, lives, randomEngine, 0;
    }

    function Value(): State
      reads this
    {
      State(enemies, towers, projectiles, gold, lives, randomEngine, nextObjectId)
    }
  }

  method MoveEnemies(laws: Laws, mapData: MapData, initial: GameState, next: GameState, delta: real)
    requires initial != next && ValidMap(mapData) && ValidEnemies(mapData, initial.enemies) && next.enemies == []
    modifies next`enemies
    ensures next.enemies == MoveAll(laws, mapData, initial.enemies, |initial.enemies|, delta)
  {
    for i := 0 to |initial.enemies|
      invariant next.enemies == MoveAll(laws, mapData, initial.enemies, i, delta)
    {
      var enemy := initial.enemies[i];
      next.enemies := next.enemies + [enemy];
      var last := |next.enemies| - 1;
      if IsNearlyZero(enemy.remainingHealth)
         || IsNearlyZero(DistanceSqr(enemy.position, mapData.waypoints[|mapData.waypoints| - 1])) {
        next.enemies := next.enemies[..last];
        continue;
      }
      var a, b := mapData.waypoints[enemy.nextWaypointIdx - 1], mapData.waypoints[enemy.nextWaypointIdx];
      var closest := laws.ClosestOnLine(enemy.position, a, b);
      var distance := mapData.distancesToGoal[enemy.nextWaypointIdx] + laws.Distance(closest, b);
      var enemyNext := enemy.(distanceToGoal := distance);
      if DistanceSqr(closest, b) < 1.0 && enemy.nextWaypointIdx < |mapData.waypoints| - 1 {
        enemyNext := enemyNext.(nextWaypointIdx := enemyNext.nextWaypointIdx + 1);
      }
      var motion := laws.Steer(initial.enemies, i, mapData.enemyTypes[enemy.typeIdx], a, b, delta);
      enemyNext := enemyNext.(velocity := motion.velocity, rotation := motion.rotation, position := motion.position);
      next.enemies := next.enemies[last := enemyNext];
    }
  }

  method QueryEnemiesInRadius(enemies: seq<Enemy>, position: Vec2, radius: real) returns (results: seq<nat>)
    ensures results == Query(enemies, position, radius, |enemies|)
  {
    results := [];
    var radiusSqr := radius * radius;
    for i := 0 to |enemies|
      invariant results == Query(enemies, position, radius, i)
    {
      if IsNearlyZero(enemies[i].remainingHealth) { continue; }
      if DistanceSqr(enemies[i].position, position) <= radiusSqr {
        results := results + [i];
      }
    }
  }

  // The shots that are due from one tower.
  method Shoot(next: GameState, shot: Projectile, time: real, interval: real, before: seq<Event>)
    returns (timeLeft: real, events: seq<Event>)
    requires interval > 0.0
    modifies next`projectiles, next`nextObjectId
    ensures var n := Due(time, interval);
            && timeLeft == TimeLeft(time, interval)
            && next.projectiles == old(next.projectiles) + Salvo(shot, old(next.nextObjectId), n)
            && next.nextObjectId == old(next.nextObjectId) + n
            && events == before + Launches(shot, n)
  {
    timeLeft, events := time, before;
    ghost var k := 0;
    while timeLeft > interval
      invariant k + Due(timeLeft, interval) == Due(time, interval)
      invariant TimeLeft(timeLeft, interval) == TimeLeft(time, interval)
      invariant next.nextObjectId == old(next.nextObjectId) + k
      invariant next.projectiles == old(next.projectiles) + Salvo(shot, old(next.nextObjectId), k)
      invariant events == before + Launches(shot, k)
      decreases Due(timeLeft, interval)
    {
      timeLeft := timeLeft - interval;
      next.projectiles := next.projectiles + [shot.(id := next.nextObjectId)];
      next.nextObjectId := next.nextObjectId + 1;
      events := events + [ProjectileLaunched(shot.typeIdx, shot.position)];
      k := k + 1;
    }
  }

  lemma FireOneIs(laws: Laws, mapData: MapData, tower: Tower, enemies: seq<Enemy>, fired: Fired, delta: real)
    requires Lawful(laws) && ValidMap(mapData) && ValidTower(mapData, tower)
    ensures var kind := mapData.towerTypes[tower.typeIdx];
            var query := Query(enemies, tower.position, kind.range, |enemies|);
            var r := FireOne(laws, mapData, tower, enemies, fired, delta);
            if query == [] then r == fired.(towers := fired.towers + [tower])
            else
              var target := laws.First(enemies, query);
              var time, n := tower.timeSinceLastShot + delta, Due(tower.timeSinceLastShot + delta, Interval(kind));
              && target in query
              && r.towers == fired.towers
                  + [tower.(rotation := laws.Facing(tower.position, enemies[target].position))
                          .(timeSinceLastShot := TimeLeft(time, Interval(kind)))]
              && r.projectiles
              == fired.projectiles + Salvo(Aimed(laws, kind, tower, enemies, target), fired.nextObjectId, n)
              && r.nextObjectId == fired.nextObjectId + n
              && r.events == fired.events + Launches(Aimed(laws, kind, tower, enemies, target), n)
  {
  }

  method UpdateTower(laws: Laws, mapData: MapData, tower: Tower, next: GameState, delta: real, before: seq<Event>)
    returns (events: seq<Event>)
    requires Lawful(laws) && ValidMap(mapData) && ValidTower(mapData, tower)
    modifies next`towers, next`projectiles, next`nextObjectId
    ensures Fired(next.towers, next.projectiles, next.nextObjectId, events)
         == FireOne(laws, mapData, tower, next.enemies,
                    Fired(old(next.towers), old(next.projectiles), old(next.nextObjectId), before), delta)
  {
    events := before;
    ghost var fired := Fired(next.towers, next.projectiles, next.nextObjectId, before);
    FireOneIs(laws, mapData, tower, next.enemies, fired, delta);
    var towerNext := tower;
    var kind := mapData.towerTypes[tower.typeIdx];
    var query := QueryEnemiesInRadius(next.enemies, towerNext.position, kind.range);
    if query != [] {
      var target := laws.First(next.enemies, query);
      assert target in query;
      towerNext := towerNext.(rotation := laws.Facing(towerNext.position, next.enemies[target].position));
      var shot := Aimed(laws, kind, tower, next.enemies, target);
      hide FireOne, Aimed, Interval, Due, Salvo, Launches, Query, ValidTower, ValidMap, Lawful;
      var timeLeft;
      timeLeft, events := Shoot(next, shot, tower.timeSinceLastShot + delta, Interval(kind), events);
      towerNext := towerNext.(timeSinceLastShot := timeLeft);
    }
    next.towers := next.towers + [towerNext];
  }

  method UpdateTowers(laws: Laws, mapData: MapData, initial: GameState, next: GameState, delta: real)
    returns (events: seq<Event>)
    requires initial != next && Lawful(laws) && ValidMap(mapData) && ValidTowers(mapData, initial.towers)
    requires next.towers == [] && next.projectiles == []
    modifies next`towers, next`projectiles, next`nextObjectId
    ensures Fired(next.towers, next.projectiles, next.nextObjectId, events)
         == FireAll(laws, mapData, initial.towers, |initial.towers|, next.enemies, old(next.nextObjectId), delta)
  {
    hide Lawful, ValidMap, FireOne;
    events := [];
    for i := 0 to |initial.towers|
      invariant Fired(next.towers, next.projectiles, next.nextObjectId, events)
             == FireAll(laws, mapData, initial.towers, i, next.enemies, old(next.nextObjectId), delta)
    {
      events := UpdateTower(laws, mapData, initial.towers[i], next, delta, events);
    }
  }

  method ApplyDamage(mapData: MapData, next: GameState, index: nat, p: Projectile, before: seq<Event>)
    returns (events: seq<Event>)
    requires ValidEnemies(mapData, next.enemies) && index < |next.enemies| && p.typeIdx < |mapData.projectileTypes|
    modifies next`enemies, next`gold
    ensures Impact(next.enemies, next.projectiles, next.gold, events)
         == Damage(mapData, Impact(old(next.enemies), next.projectiles, old(next.gold), before), index, p)
  {
    var enemy, damage := next.enemies[index], mapData.projectileTypes[p.typeIdx].damage;
    var enemyDied := enemy.remainingHealth <= damage;
    var left := enemy.remainingHealth - damage;
    next.enemies := next.enemies[index := enemy.(remainingHealth := if left > 0.0 then left else 0.0)];
    events := before + [ProjectileHit(enemy.position, p.targetEnemyIndex, p.typeIdx)];
    if enemyDied {
      next.gold := next.gold + mapData.enemyTypes[enemy.typeIdx].goldReward;
      events := events + [EnemyDied(p.targetEnemyIndex)];
    }
  }

  method Arrive(mapData: MapData, next: GameState, p: Projectile, position: Vec2, before: seq<Event>)
    returns (events: seq<Event>)
    requires ValidEnemies(mapData, next.enemies) && p.typeIdx < |mapData.projectileTypes|
    modifies next`enemies, next`gold
    ensures Impact(next.enemies, next.projectiles, next.gold, events)
         == Explode(mapData, p, position, Impact(old(next.enemies), next.projectiles, old(next.gold), before))
  {
    events := before;
    if TargetAlive(next.enemies, p) {
      events := ApplyDamage(mapData, next, p.targetEnemyIndex, p, events);
    }
    var radius := mapData.projectileTypes[p.typeIdx].splashRadius;
    if !IsNearlyZero(radius) {
      ghost var hit := Impact(next.enemies, next.projectiles, next.gold, events);
      var query := QueryEnemiesInRadius(next.enemies, position, radius);
      for k := 0 to |query|
        invariant Impact(next.enemies, next.projectiles, next.gold, events) == DamageAll(mapData, hit, query, k, p)
      {
        assert query[k] in query;
        events := ApplyDamage(mapData, next, query[k], p, events);
      }
    }
  }

  method UpdateProjectile(laws: Laws, mapData: MapData, p: Projectile, next: GameState, delta: real, before: seq<Event>)
    returns (events: seq<Event>)
    requires ValidEnemies(mapData, next.enemies) && p.typeIdx < |mapData.projectileTypes|
    modifies next`enemies, next`projectiles, next`gold
    ensures Impact(next.enemies, next.projectiles, next.gold, events)
         == FlyOne(laws, mapData, p, Impact(old(next.enemies), old(next.projectiles), old(next.gold), before), delta)
  {
    events := before;
    ghost var im := Impact(next.enemies, next.projectiles, next.gold, events);
    if |next.enemies| <= p.targetEnemyIndex { return; }
    var position := if TargetAlive(next.enemies, p) then next.enemies[p.targetEnemyIndex].position
                    else p.lastEnemyPosition;
    var projNext := p.(lastEnemyPosition := position, rotation := laws.Facing(p.position, position));
    var step := mapData.projectileTypes[p.typeIdx].speed * delta;
    if laws.Distance(p.position, position) > step {
      projNext := projNext.(position := laws.Advance(p.position, position, step));
      assert FlyOne(laws, mapData, p, im, delta) == im.(projectiles := im.projectiles + [projNext]);
      next.projectiles := next.projectiles + [projNext];
    } else {
      assert FlyOne(laws, mapData, p, im, delta) == Explode(mapData, projNext, position, im);
      events := Arrive(mapData, next, projNext, position, events);
    }
  }

  method UpdateProjectiles(laws: Laws, mapData: MapData, initial: GameState, next: GameState, delta: real,
                           before: seq<Event>)
    returns (events: seq<Event>)
    requires initial != next && ValidEnemies(mapData, next.enemies) && ValidProjectiles(mapData, initial.projectiles)
    modifies next`enemies, next`projectiles, next`gold
    ensures Impact(next.enemies, next.projectiles, next.gold, events)
         == FlyAll(laws, mapData, initial.projectiles, |initial.projectiles|,
                   Impact(old(next.enemies), old(next.projectiles), old(next.gold), before), delta)
  {
    hide FlyOne, OnlyHurt, ValidEnemies;
    events := before;
    ghost var im := Impact(next.enemies, next.projectiles, next.gold, events);
    for i := 0 to |initial.projectiles|
      invariant Impact(next.enemies, next.projectiles, next.gold, events)
             == FlyAll(laws, mapData, initial.projectiles, i, im, delta)
    {
      events := UpdateProjectile(laws, mapData, initial.projectiles[i], next, delta, events);
    }
  }

  method ExecuteCommands(laws: Laws, mapData: MapData, next: GameState, commands: seq<Command>)
    requires ValidMap(mapData) && ValidCommands(mapData, commands)
    modifies next
    ensures next.Value() == ExecuteAll(laws, mapData, commands, |commands|, old(next.Value()))
  {
    for i := 0 to |commands|
      invariant next.Value() == ExecuteAll(laws, mapData, commands, i, old(next.Value()))
    {
      match commands[i] {
        case SpawnEnemy(t) =>
          var enemy := Enemy(next.nextObjectId, t, mapData.waypoints[0], 0.0, Vec2(0.0, 0.0),
                             mapData.enemyTypes[t].maxHealth, 1, 0.0);
          next.nextObjectId := next.nextObjectId + 1;
          var shift := laws.shift(next.randomEngine);
          next.randomEngine := laws.engineAfter(next.randomEngine);
          var position := Vec2(enemy.position.x + shift.x, enemy.position.y + shift.y);
          next.enemies := next.enemies + [enemy.(position := position)];
        case DespawnAllEnemies =>
          next.enemies := [];
        case AddGold(amount) =>
          next.gold := next.gold + amount;
        case BuildTower(t, position) =>
          if next.gold >= mapData.towerTypes[t].cost {
            next.gold := next.gold - mapData.towerTypes[t].cost;
            next.towers := next.towers + [Tower(next.nextObjectId, t, position, 0.0, 0.0)];
            next.nextObjectId := next.nextObjectId + 1;
          }
      }
    }
  }

  // Whatever `next` held before, it holds the state after `initial` afterwards.
  method TimeStep(laws: Laws, mapData: MapData, initial: GameState, next: GameState, commands: seq<Command>,
                  delta: real)
    returns (events: seq<Event>)
    requires initial != next && Lawful(laws) && ValidMap(mapData) && ValidState(mapData, initial.Value())
    requires ValidCommands(mapData, commands)
    modifies next
    ensures next.Value() == Step(laws, mapData, initial.Value(), commands, delta)
    ensures events == BeforeCommands(laws, mapData, initial.Value(), delta).1
  {
    next.enemies, next.towers, next.projectiles := [], [], [];
    next.gold, next.lives := initial.gold, initial.lives;
    next.randomEngine, next.nextObjectId := initial.randomEngine, initial.nextObjectId;
    MoveEnemies(laws, mapData, initial, next, delta);
    MovedAreValid(laws, mapData, initial.enemies, |initial.enemies|, delta);
    events := UpdateTowers(laws, mapData, initial, next, delta);
    events := UpdateProjectiles(laws, mapData, initial, next, delta, events);
    ExecuteCommands(laws, mapData, next, commands);
  }
}
