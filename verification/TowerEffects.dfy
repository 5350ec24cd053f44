/**
 What a step does to each enemy, tower and projectile, stated on the entity before and after.
 */
module TowerEffects {
  import opened TowerRules
  import opened TowerProperties

  // ---------- Enemies ----------

  // An enemy one step later: it has passed its waypoint if it was within one unit of it on its path
  // and there is another, and its distance to the goal is that along the rest of the path.
  predicate Advanced(laws: Laws, mapData: MapData, es: seq<Enemy>, i: nat, after: Enemy, delta: real)
    requires ValidMap(mapData) && i < |es| && ValidEnemy(mapData, es[i])
  {
    var e := es[i];
    var k := e.nextWaypointIdx;
    var a, b := mapData.waypoints[k - 1], mapData.waypoints[k];
    var onPath := laws.ClosestOnLine(e.position, a, b);
    var motion := laws.Steer(es, i, mapData.enemyTypes[e.typeIdx], a, b, delta);
    && after.id == e.id && after.typeIdx == e.typeIdx && after.remainingHealth == e.remainingHealth
    && (after.nextWaypointIdx == k + 1 <==> DistanceSqr(onPath, b) < 1.0 && k + 1 < |mapData.waypoints|)
    && after.nextWaypointIdx in {k, k + 1}
    && after.distanceToGoal - mapData.distancesToGoal[k] == laws.Distance(onPath, b)
    && Motion(after.velocity, after.rotation, after.position) == motion
  }

  // An enemy stays while it has health left and is away from the last waypoint.
  predicate Remains(mapData: MapData, e: Enemy)
    requires |mapData.waypoints| >= 2
  {
    && e.remainingHealth > NEARLY
    && DistanceSqr(e.position, mapData.waypoints[|mapData.waypoints| - 1]) > NEARLY
  }

  // Squared distances: along each axis the square of the difference, and their sum.
  lemma DistanceSqrIs(a: Vec2, b: Vec2, d: real)
    ensures DistanceSqr(a, Vec2(a.x - d, a.y)) == DistanceSqr(a, Vec2(a.x, a.y - d)) == d * d
    ensures DistanceSqr(a, Vec2(a.x, b.y)) + DistanceSqr(a, Vec2(b.x, a.y)) == DistanceSqr(a, b)
  {
  }

  lemma OneAdvances(laws: Laws, mapData: MapData, es: seq<Enemy>, i: nat, delta: real)
    requires ValidMap(mapData) && ValidEnemies(mapData, es) && i < |es|
    ensures IsGone(mapData, es[i]) <==> !Remains(mapData, es[i])
    ensures Advanced(laws, mapData, es, i, Moved(laws, mapData, es, i, delta), delta)
  {
  }

  // Main result: the enemies after moving are those that were neither dead nor at the goal, in their
  // order, each advanced among all the enemies before the step.
  lemma {:induction false} EnemiesAdvance(laws: Laws, mapData: MapData, es: seq<Enemy>, n: nat, delta: real)
    returns (from: seq<nat>)
    requires ValidMap(mapData) && ValidEnemies(mapData, es) && n <= |es|
    ensures var r := MoveAll(laws, mapData, es, n, delta);
            && |from| == |r| && Rising(from)
            && (forall i: nat :: i in from <==> i < n && Remains(mapData, es[i]))
            && (forall j :: 0 <= j < |r| ==> from[j] < n && Advanced(laws, mapData, es, from[j], r[j], delta))
  {
    hide IsGone, Remains, Advanced, Moved;
    if n == 0 {
      from := [];
    } else {
      from := EnemiesAdvance(laws, mapData, es, n - 1, delta);
      OneAdvances(laws, mapData, es, n - 1, delta);
      assert forall j :: 0 <= j < |from| ==> from[j] in from;
      if !IsGone(mapData, es[n - 1]) { from := from + [n - 1]; }
    }
  }

  // ---------- Towers ----------

  // Who can be aimed at, or hit by a splash: an enemy with health left, no further away than that.
  lemma InRadiusIff(e: Enemy, position: Vec2, radius: real)
    ensures InRadius(e, position, radius)
       <==> e.remainingHealth > NEARLY && DistanceSqr(e.position, position) <= radius * radius
  {
  }

  // A shot starts at its tower, is of its tower's kind, and aims at the enemy in range that is
  // nearest to the goal, where it is now.
  predicate ShotOf(laws: Laws, mapData: MapData, tower: Tower, enemies: seq<Enemy>, p: Projectile)
    requires ValidTower(mapData, tower)
  {
    var kind := mapData.towerTypes[tower.typeIdx];
    var t := p.targetEnemyIndex;
    && p.position == tower.position && p.typeIdx == kind.projectileTypeIdx
    && t < |enemies| && InRadius(enemies[t], tower.position, kind.range)
    && p.targetEnemyId == enemies[t].id && p.lastEnemyPosition == enemies[t].position
    && p.rotation == laws.Facing(tower.position, enemies[t].position)
    && forall q: nat :: q < |enemies| && InRadius(enemies[q], tower.position, kind.range) ==>
         enemies[t].distanceToGoal <= enemies[q].distanceToGoal
  }

  // The shots and what is left over make up the time waited.
  lemma {:induction false} DueAccounts(time: real, interval: real)
    requires interval > 0.0
    ensures time == Due(time, interval) as real * interval + TimeLeft(time, interval)
    decreases Due(time, interval)
  {
    if time > interval {
      DueAccounts(time - interval, interval);
      var n := Due(time - interval, interval);
      assert (1 + n) as real * interval == interval + n as real * interval;
    }
  }

  predicate InRange(mapData: MapData, tower: Tower, enemies: seq<Enemy>)
    requires ValidTower(mapData, tower)
  {
    exists q: nat :: q < |enemies| && InRadius(enemies[q], tower.position, mapData.towerTypes[tower.typeIdx].range)
  }

  lemma FirstIsIn(s: seq<nat>)
    ensures s != [] ==> s[0] in s
  {
  }

  // A tower with no enemy in range does nothing, and does not even wait.
  lemma {:induction false} IdleTower(laws: Laws, mapData: MapData, tower: Tower, enemies: seq<Enemy>, fired: Fired,
                                     delta: real)
    requires Lawful(laws) && ValidMap(mapData) && ValidTower(mapData, tower) && !InRange(mapData, tower, enemies)
    ensures FireOne(laws, mapData, tower, enemies, fired, delta) == fired.(towers := fired.towers + [tower])
  {
    var query := Query(enemies, tower.position, mapData.towerTypes[tower.typeIdx].range, |enemies|);
    FirstIsIn(query);
  }

  // n shots of a tower, with consecutive ids from the first on.
  predicate ShotsOf(laws: Laws, mapData: MapData, tower: Tower, enemies: seq<Enemy>, shots: seq<Projectile>, first: nat)
    requires ValidTower(mapData, tower)
  {
    forall i :: 0 <= i < |shots| ==>
      ShotOf(laws, mapData, tower, enemies, shots[i]) && shots[i].id == first + i
  }

  // One event for each of them.
  predicate Announced(mapData: MapData, tower: Tower, n: nat, events: seq<Event>)
    requires ValidTower(mapData, tower)
  {
    && |events| == n
    && forall i :: 0 <= i < n ==>
         events[i] == ProjectileLaunched(mapData.towerTypes[tower.typeIdx].projectileTypeIdx, tower.position)
  }

  // The tower after n shots: it has turned, and has that many intervals less to its credit.
  predicate HasWaited(mapData: MapData, tower: Tower, n: nat, delta: real, after: Tower)
    requires ValidTower(mapData, tower)
  {
    var interval := Interval(mapData.towerTypes[tower.typeIdx]);
    && tower.timeSinceLastShot + delta == n as real * interval + after.timeSinceLastShot
    && 0.0 <= after.timeSinceLastShot <= interval
    && after == tower.(rotation := after.rotation, timeSinceLastShot := after.timeSinceLastShot)
  }

  lemma {:induction false} LaunchesAre(p: Projectile, n: nat)
    ensures |Launches(p, n)| == n
    ensures forall i :: 0 <= i < n ==> Launches(p, n)[i] == ProjectileLaunched(p.typeIdx, p.position)
  {
    if n > 0 { LaunchesAre(p, n - 1); }
  }

  // The enemy that sorting puts first is one in range, and none in range is nearer to the goal.
  lemma {:induction false} FirstIsNearest(laws: Laws, mapData: MapData, tower: Tower, enemies: seq<Enemy>)
    returns (t: nat)
    requires Lawful(laws) && ValidTower(mapData, tower) && InRange(mapData, tower, enemies)
    ensures var range := mapData.towerTypes[tower.typeIdx].range;
            var query := Query(enemies, tower.position, range, |enemies|);
            && query != [] && t == laws.First(enemies, query) && t < |enemies|
            && InRadius(enemies[t], tower.position, range)
            && forall q: nat :: q < |enemies| && InRadius(enemies[q], tower.position, range) ==>
                 enemies[t].distanceToGoal <= enemies[q].distanceToGoal
  {
    var range := mapData.towerTypes[tower.typeIdx].range;
    var query := Query(enemies, tower.position, range, |enemies|);
    hide InRadius;
    var q: nat :| q < |enemies| && InRadius(enemies[q], tower.position, range);
    assert q in query;
    t := laws.First(enemies, query);
    assert t in query;
  }

  lemma {:induction false} SalvoIsShots(laws: Laws, mapData: MapData, tower: Tower, enemies: seq<Enemy>,
                                        t: nat, first: nat, n: nat)
    requires ValidTower(mapData, tower) && t < |enemies|
    requires var range := mapData.towerTypes[tower.typeIdx].range;
             && InRadius(enemies[t], tower.position, range)
             && forall q: nat :: q < |enemies| && InRadius(enemies[q], tower.position, range) ==>
                  enemies[t].distanceToGoal <= enemies[q].distanceToGoal
    ensures var shot := Aimed(laws, mapData.towerTypes[tower.typeIdx], tower, enemies, t);
            && ShotsOf(laws, mapData, tower, enemies, Salvo(shot, first, n), first)
            && Announced(mapData, tower, n, Launches(shot, n))
            && forall i :: 0 <= i < n ==> Salvo(shot, first, n)[i].rotation == shot.rotation
  {
    hide InRadius;
    LaunchesAre(Aimed(laws, mapData.towerTypes[tower.typeIdx], tower, enemies, t), n);
  }

  lemma {:induction false} WaitsOn(mapData: MapData, tower: Tower, delta: real, rotation: real)
    requires ValidTower(mapData, tower) && delta >= 0.0
    ensures var time, interval := tower.timeSinceLastShot + delta, Interval(mapData.towerTypes[tower.typeIdx]);
            HasWaited(mapData, tower, Due(time, interval), delta,
                      tower.(rotation := rotation, timeSinceLastShot := TimeLeft(time, interval)))
  {
    var time, interval := tower.timeSinceLastShot + delta, Interval(mapData.towerTypes[tower.typeIdx]);
    DueLeaves(time, interval);
    DueAccounts(time, interval);
    hide Due, TimeLeft;
  }

  // Main result: a tower with an enemy in range turns to the one nearest to the goal and makes a shot
  // for each whole interval that it has waited; time, shots and what is left over add up.
  lemma {:induction false} TowerFires(laws: Laws, mapData: MapData, tower: Tower, enemies: seq<Enemy>, fired: Fired,
                                      delta: real)
    returns (after: Tower, shots: seq<Projectile>, launched: seq<Event>)
    requires Lawful(laws) && ValidMap(mapData) && ValidTower(mapData, tower) && delta >= 0.0
    requires InRange(mapData, tower, enemies)
    ensures FireOne(laws, mapData, tower, enemies, fired, delta)
         == Fired(fired.towers + [after], fired.projectiles + shots, fired.nextObjectId + |shots|,
                  fired.events + launched)
    ensures ShotsOf(laws, mapData, tower, enemies, shots, fired.nextObjectId)
    ensures forall i :: 0 <= i < |shots| ==> shots[i].rotation == after.rotation
    ensures HasWaited(mapData, tower, |shots|, delta, after) && Announced(mapData, tower, |shots|, launched)
  {
    var kind := mapData.towerTypes[tower.typeIdx];
    var t := FirstIsNearest(laws, mapData, tower, enemies);
    var time, interval := tower.timeSinceLastShot + delta, Interval(kind);
    var n, shot := Due(time, interval), Aimed(laws, kind, tower, enemies, t);
    SalvoIsShots(laws, mapData, tower, enemies, t, fired.nextObjectId, n);
    WaitsOn(mapData, tower, delta, shot.rotation);
    after := tower.(rotation := shot.rotation, timeSinceLastShot := TimeLeft(time, interval));
    shots, launched := Salvo(shot, fired.nextObjectId, n), Launches(shot, n);
    hide Lawful, InRange, ShotsOf, Announced, HasWaited, Query, Due, TimeLeft, ValidTower, InRadius;
  }

  // ---------- Projectiles ----------

  // Main result: a projectile whose target's index is gone disappears; one that is further from its
  // target than it gets in a step flies on towards it and touches nothing; any other arrives.
  lemma {:induction false} Flies(laws: Laws, mapData: MapData, p: Projectile, im: Impact, delta: real)
    requires ValidEnemies(mapData, im.enemies) && p.typeIdx < |mapData.projectileTypes|
    ensures var kind, r := mapData.projectileTypes[p.typeIdx], FlyOne(laws, mapData, p, im, delta);
            var at := TargetPosition(im.enemies, p);
            if p.targetEnemyIndex >= |im.enemies| then r == im
            else if laws.Distance(p.position, at) > Reach(kind, delta) then
              && |r.projectiles| == |im.projectiles| + 1 && r == im.(projectiles := r.projectiles)
              && r.projectiles[..|im.projectiles|] == im.projectiles
              && var after := r.projectiles[|im.projectiles|];
              && after.position == laws.Advance(p.position, at, Reach(kind, delta))
              && after.lastEnemyPosition == at && after.rotation == laws.Facing(p.position, at)
              && after.id == p.id && after.typeIdx == p.typeIdx
              && after.targetEnemyIndex == p.targetEnemyIndex && after.targetEnemyId == p.targetEnemyId
            else r.projectiles == im.projectiles
                 && r == Explode(mapData, p.(lastEnemyPosition := at, rotation := laws.Facing(p.position, at)), at, im)
  {
    if p.targetEnemyIndex < |im.enemies| {
      var at := TargetPosition(im.enemies, p);
      hide Reach;
      if laws.Distance(p.position, at) > Reach(mapData.projectileTypes[p.typeIdx], delta) {
        FliesOn(laws, mapData, p, im, delta);
      } else {
        ExplodeLeavesProjectiles(mapData, p.(lastEnemyPosition := at, rotation := laws.Facing(p.position, at)), at, im);
      }
    }
  }

  lemma {:induction false} FliesOn(laws: Laws, mapData: MapData, p: Projectile, im: Impact, delta: real)
    requires ValidEnemies(mapData, im.enemies) && p.typeIdx < |mapData.projectileTypes|
    requires p.targetEnemyIndex < |im.enemies|
    requires laws.Distance(p.position, TargetPosition(im.enemies, p)) > Reach(mapData.projectileTypes[p.typeIdx], delta)
    ensures var at := TargetPosition(im.enemies, p);
            var next := p.(lastEnemyPosition := at, rotation := laws.Facing(p.position, at));
            var position := laws.Advance(p.position, at, Reach(mapData.projectileTypes[p.typeIdx], delta));
            FlyOne(laws, mapData, p, im, delta)
            == im.(projectiles := im.projectiles + [next.(position := position)])
  {
    hide Reach, Explode;
  }

  lemma {:induction false} DamageAllLeavesProjectiles(mapData: MapData, im: Impact, indices: seq<nat>, n: nat,
                                                      p: Projectile)
    requires ValidEnemies(mapData, im.enemies) && p.typeIdx < |mapData.projectileTypes|
    requires n <= |indices| && forall q :: q in indices ==> q < |im.enemies|
    ensures DamageAll(mapData, im, indices, n, p).projectiles == im.projectiles
  {
    if n > 0 {
      DamageAllLeavesProjectiles(mapData, im, indices, n - 1, p);
      assert indices[n - 1] in indices;
    }
  }

  lemma {:induction false} ExplodeLeavesProjectiles(mapData: MapData, p: Projectile, position: Vec2, im: Impact)
    requires ValidEnemies(mapData, im.enemies) && p.typeIdx < |mapData.projectileTypes|
    ensures Explode(mapData, p, position, im).projectiles == im.projectiles
  {
    var hit := if TargetAlive(im.enemies, p) then Damage(mapData, im, p.targetEnemyIndex, p) else im;
    var query := Query(hit.enemies, position, mapData.projectileTypes[p.typeIdx].splashRadius, |hit.enemies|);
    DamageAllLeavesProjectiles(mapData, hit, query, |query|, p);
  }

  // The rewards for those of the first n enemies that a splash kills.
  function SplashReward(mapData: MapData, enemies: seq<Enemy>, position: Vec2, radius: real, damage: real, n: nat): real
    requires ValidEnemies(mapData, enemies) && n <= |enemies|
  {
    if n == 0 then 0.0
    else
      var e := enemies[n - 1];
      SplashReward(mapData, enemies, position, radius, damage, n - 1)
      + if InRadius(e, position, radius) && e.remainingHealth <= damage
        then mapData.enemyTypes[e.typeIdx].goldReward else 0.0
  }

  lemma {:induction false} DamageSamePrefix(mapData: MapData, im: Impact, a: seq<nat>, b: seq<nat>, n: nat,
                                            p: Projectile)
    requires ValidEnemies(mapData, im.enemies) && p.typeIdx < |mapData.projectileTypes|
    requires (forall q :: q in a ==> q < |im.enemies|) && (forall q :: q in b ==> q < |im.enemies|)
    requires n <= |a| && n <= |b| && a[..n] == b[..n]
    ensures DamageAll(mapData, im, a, n, p) == DamageAll(mapData, im, b, n, p)
  {
    if n > 0 {
      assert a[..n - 1] == a[..n][..n - 1] && b[..n - 1] == b[..n][..n - 1];
      DamageSamePrefix(mapData, im, a, b, n - 1, p);
      assert a[n - 1] == a[..n][n - 1] && b[n - 1] == b[..n][n - 1];
      assert a[n - 1] in a && b[n - 1] in b;
    }
  }

  // One more index damages one more enemy, and pays for it if that kills.
  lemma {:induction false} OneMorePays(mapData: MapData, im: Impact, before: seq<nat>, q: nat, p: Projectile)
    requires ValidEnemies(mapData, im.enemies) && p.typeIdx < |mapData.projectileTypes| && q < |im.enemies|
    requires (forall i :: i in before ==> i < |im.enemies|) && q !in before
    ensures forall i :: i in before + [q] ==> i < |im.enemies|
    ensures var e := im.enemies[q];
            DamageAll(mapData, im, before + [q], |before| + 1, p).gold
            == DamageAll(mapData, im, before, |before|, p).gold
               + if e.remainingHealth <= mapData.projectileTypes[p.typeIdx].damage
                 then mapData.enemyTypes[e.typeIdx].goldReward else 0.0
  {
    var query := before + [q];
    assert query[..|before|] == before == before[..|before|];
    DamageSamePrefix(mapData, im, query, before, |before|, p);
    DamageAllHurts(mapData, im, before, |before|, p, q);
    hide OnlyHurt;
  }

  // The gold after a splash among the first n enemies.
  function Splashed(mapData: MapData, im: Impact, position: Vec2, radius: real, n: nat, p: Projectile): real
    requires ValidEnemies(mapData, im.enemies) && p.typeIdx < |mapData.projectileTypes| && n <= |im.enemies|
  {
    var query := Query(im.enemies, position, radius, n);
    DamageAll(mapData, im, query, |query|, p).gold
  }

  lemma {:induction false} SplashedMore(mapData: MapData, im: Impact, position: Vec2, radius: real, n: nat,
                                        p: Projectile)
    requires ValidEnemies(mapData, im.enemies) && p.typeIdx < |mapData.projectileTypes| && 0 < n <= |im.enemies|
    ensures var e := im.enemies[n - 1];
            Splashed(mapData, im, position, radius, n, p)
            == Splashed(mapData, im, position, radius, n - 1, p)
               + if InRadius(e, position, radius) && e.remainingHealth <= mapData.projectileTypes[p.typeIdx].damage
                 then mapData.enemyTypes[e.typeIdx].goldReward else 0.0
  {
    hide InRadius, DamageAll;
    var before := Query(im.enemies, position, radius, n - 1);
    var query := Query(im.enemies, position, radius, n);
    if InRadius(im.enemies[n - 1], position, radius) {
      OneMorePays(mapData, im, before, n - 1, p);
      assert query == before + [n - 1];
    } else {
      assert query == before;
    }
  }

  lemma {:induction false} SplashPays(mapData: MapData, im: Impact, position: Vec2, radius: real, n: nat, p: Projectile)
    requires ValidEnemies(mapData, im.enemies) && p.typeIdx < |mapData.projectileTypes| && n <= |im.enemies|
    ensures Splashed(mapData, im, position, radius, n, p)
         == im.gold + SplashReward(mapData, im.enemies, position, radius,
                                   mapData.projectileTypes[p.typeIdx].damage, n)
  {
    hide InRadius, Splashed, ValidEnemies;
    if n == 0 {
      SplashedNone(mapData, im, position, radius, p);
    } else {
      SplashPays(mapData, im, position, radius, n - 1, p);
      SplashedMore(mapData, im, position, radius, n, p);
    }
  }

  lemma {:induction false} SplashedNone(mapData: MapData, im: Impact, position: Vec2, radius: real, p: Projectile)
    requires ValidEnemies(mapData, im.enemies) && p.typeIdx < |mapData.projectileTypes|
    ensures Splashed(mapData, im, position, radius, 0, p) == im.gold
  {
  }

  // Main result: an arrival pays the reward for its target if the direct hit kills it, and then for
  // everyone in the splash radius whom the splash kills, and nothing else.
  lemma {:induction false} ArrivalPays(mapData: MapData, p: Projectile, position: Vec2, im: Impact)
    requires ValidEnemies(mapData, im.enemies) && p.typeIdx < |mapData.projectileTypes|
    ensures var kind := mapData.projectileTypes[p.typeIdx];
            var alive := TargetAlive(im.enemies, p);
            var hit := if alive then
                         var e := im.enemies[p.targetEnemyIndex];
                         im.enemies[p.targetEnemyIndex := e.(remainingHealth := Hurt(e.remainingHealth, kind.damage))]
                       else im.enemies;
            && ValidEnemies(mapData, hit)
            && Explode(mapData, p, position, im).gold - im.gold
            == (if alive && im.enemies[p.targetEnemyIndex].remainingHealth <= kind.damage
                then mapData.enemyTypes[im.enemies[p.targetEnemyIndex].typeIdx].goldReward else 0.0)
               + (if IsNearlyZero(kind.splashRadius) then 0.0
                  else SplashReward(mapData, hit, position, kind.splashRadius, kind.damage, |hit|))
  {
    var hit := if TargetAlive(im.enemies, p) then Damage(mapData, im, p.targetEnemyIndex, p) else im;
    SplashPays(mapData, hit, position, mapData.projectileTypes[p.typeIdx].splashRadius, |hit.enemies|, p);
    hide DamageAll, Query, SplashReward;
  }

  // An event of an arrival, which carries the index of the projectile's target.
  predicate NamesTarget(p: Projectile, event: Event) {
    || (event.ProjectileHit? && event.enemyIndex == p.targetEnemyIndex && event.projectileTypeIdx == p.typeIdx)
    || event == EnemyDied(p.targetEnemyIndex)
  }

  // Nothing has been taken from the events, and what has been added are events of an arrival.
  predicate Reports(p: Projectile, before: seq<Event>, after: seq<Event>) {
    && |after| >= |before| && after[..|before|] == before
    && forall i :: |before| <= i < |after| ==> NamesTarget(p, after[i])
  }

  lemma {:induction false} DamageReports(mapData: MapData, im: Impact, index: nat, p: Projectile, first: seq<Event>)
    requires ValidEnemies(mapData, im.enemies) && index < |im.enemies| && p.typeIdx < |mapData.projectileTypes|
    requires Reports(p, first, im.events)
    ensures Reports(p, first, Damage(mapData, im, index, p).events)
  {
  }

  lemma {:induction false} DamageAllReports(mapData: MapData, im: Impact, indices: seq<nat>, n: nat, p: Projectile,
                                            first: seq<Event>)
    requires ValidEnemies(mapData, im.enemies) && p.typeIdx < |mapData.projectileTypes|
    requires n <= |indices| && forall q :: q in indices ==> q < |im.enemies|
    requires Reports(p, first, im.events)
    ensures Reports(p, first, DamageAll(mapData, im, indices, n, p).events)
  {
    if n > 0 {
      DamageAllReports(mapData, im, indices, n - 1, p, first);
      assert indices[n - 1] in indices;
      DamageReports(mapData, DamageAll(mapData, im, indices, n - 1, p), indices[n - 1], p, first);
      hide Damage, Reports;
    }
  }

  // Every event of an arrival carries the target's index, also for enemies that the splash has hit.
  lemma {:induction false} ArrivalReports(mapData: MapData, p: Projectile, position: Vec2, im: Impact)
    requires ValidEnemies(mapData, im.enemies) && p.typeIdx < |mapData.projectileTypes|
    ensures Reports(p, im.events, Explode(mapData, p, position, im).events)
  {
    var hit := if TargetAlive(im.enemies, p) then Damage(mapData, im, p.targetEnemyIndex, p) else im;
    if TargetAlive(im.enemies, p) { DamageReports(mapData, im, p.targetEnemyIndex, p, im.events); }
    var query := Query(hit.enemies, position, mapData.projectileTypes[p.typeIdx].splashRadius, |hit.enemies|);
    DamageAllReports(mapData, hit, query, |query|, p, im.events);
    hide DamageAll, Query, Reports;
  }
}
