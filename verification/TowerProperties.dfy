/**
 What every state of a tower-defence run has in common, and whom a shot can hurt.
 */
module TowerProperties {
  import opened TowerRules

  predicate EnemiesInOrder(es: seq<Enemy>) {
    forall i, j :: 0 <= i < j < |es| ==> es[i].id < es[j].id
  }

  predicate TowersInOrder(ts: seq<Tower>) {
    forall i, j :: 0 <= i < j < |ts| ==> ts[i].id < ts[j].id
  }

  predicate ProjectilesDistinct(ps: seq<Projectile>) {
    forall i, j :: 0 <= i < j < |ps| ==> ps[i].id != ps[j].id
  }

  function EnemyIds(es: seq<Enemy>): set<nat> { set i: nat | i < |es| :: es[i].id }
  function TowerIds(ts: seq<Tower>): set<nat> { set i: nat | i < |ts| :: ts[i].id }
  function ProjectileIds(ps: seq<Projectile>): set<nat> { set i: nat | i < |ps| :: ps[i].id }

  predicate Below(ids: set<nat>, bound: nat) {
    forall id :: id in ids ==> id < bound
  }

  predicate IdsSeparate(s: State) {
    && EnemyIds(s.enemies) !! TowerIds(s.towers)
    && EnemyIds(s.enemies) !! ProjectileIds(s.projectiles)
    && TowerIds(s.towers) !! ProjectileIds(s.projectiles)
  }

  predicate IdsUsed(s: State) {
    && Below(EnemyIds(s.enemies), s.nextObjectId)
    && Below(TowerIds(s.towers), s.nextObjectId)
    && Below(ProjectileIds(s.projectiles), s.nextObjectId)
  }

  // The invariant of a run.
  predicate Inv(mapData: MapData, s: State) {
    && ValidState(mapData, s)
    && EnemiesInOrder(s.enemies) && TowersInOrder(s.towers) && ProjectilesDistinct(s.projectiles)
    && IdsSeparate(s) && IdsUsed(s)
    && s.gold >= 0.0
  }

  // ---------- Enemies move ----------

  lemma {:induction false} MovedIds(laws: Laws, mapData: MapData, es: seq<Enemy>, n: nat, delta: real)
    requires ValidMap(mapData) && ValidEnemies(mapData, es) && n <= |es| && EnemiesInOrder(es)
    ensures var r := MoveAll(laws, mapData, es, n, delta);
            EnemiesInOrder(r) && EnemyIds(r) <= EnemyIds(es[..n])
  {
    if n > 0 {
      MovedIds(laws, mapData, es, n - 1, delta);
      var before, r := MoveAll(laws, mapData, es, n - 1, delta), MoveAll(laws, mapData, es, n, delta);
      forall i | 0 <= i < |r|
        ensures r[i].id in EnemyIds(es[..n])
        ensures i < |before| ==> r[i].id < es[n - 1].id
      {
        if i < |before| {
          assert before[i].id in EnemyIds(es[..n - 1]);
          var k :| 0 <= k < n - 1 && es[..n - 1][k].id == before[i].id;
          assert es[..n][k].id == r[i].id;
        } else {
          assert es[..n][n - 1].id == r[i].id;
        }
      }
    }
  }

  // ---------- Towers shoot ----------

  lemma {:induction false} DueLeaves(time: real, interval: real)
    requires interval > 0.0 && time >= 0.0
    ensures 0.0 <= TimeLeft(time, interval) <= interval
    decreases Due(time, interval)
  {
    if time > interval { DueLeaves(time - interval, interval); }
  }

  // The shots of a step have consecutive fresh ids, and aim at an enemy that is there.
  predicate ShotsFresh(mapData: MapData, enemies: seq<Enemy>, ps: seq<Projectile>, id: nat) {
    forall i :: 0 <= i < |ps| ==>
      && ps[i].id == id + i
      && ps[i].typeIdx < |mapData.projectileTypes|
      && TargetAlive(enemies, ps[i])
  }

  predicate SameTowers(before: seq<Tower>, after: seq<Tower>) {
    && |after| == |before|
    && forall i :: 0 <= i < |before| ==> after[i].id == before[i].id && after[i].typeIdx == before[i].typeIdx
  }

  lemma {:induction false} FireOneIsGood(laws: Laws, mapData: MapData, tower: Tower, enemies: seq<Enemy>, fired: Fired,
                                         delta: real)
    requires Lawful(laws) && ValidMap(mapData) && ValidTower(mapData, tower) && delta >= 0.0
    ensures var r := FireOne(laws, mapData, tower, enemies, fired, delta);
            var n := r.nextObjectId - fired.nextObjectId;
            && n >= 0
            && |r.towers| == |fired.towers| + 1 && r.towers[..|fired.towers|] == fired.towers
            && r.towers[|fired.towers|].id == tower.id && r.towers[|fired.towers|].typeIdx == tower.typeIdx
            && ValidTower(mapData, r.towers[|fired.towers|])
            && |r.projectiles| == |fired.projectiles| + n && r.projectiles[..|fired.projectiles|] == fired.projectiles
            && ShotsFresh(mapData, enemies, r.projectiles[|fired.projectiles|..], fired.nextObjectId)
  {
    var kind := mapData.towerTypes[tower.typeIdx];
    var query := Query(enemies, tower.position, kind.range, |enemies|);
    var r := FireOne(laws, mapData, tower, enemies, fired, delta);
    if query != [] {
      var target := laws.First(enemies, query);
      assert target in query;
      var n := Due(tower.timeSinceLastShot + delta, Interval(kind));
      DueLeaves(tower.timeSinceLastShot + delta, Interval(kind));
      var shot := Aimed(laws, kind, tower, enemies, target);
      assert kind in mapData.towerTypes;
      assert r.projectiles[|fired.projectiles|..] == Salvo(shot, fired.nextObjectId, n);
    }
  }

  lemma {:induction false} FireAllIsGood(laws: Laws, mapData: MapData, towers: seq<Tower>, n: nat, enemies: seq<Enemy>,
                                         id: nat, delta: real)
    requires Lawful(laws) && ValidMap(mapData) && ValidTowers(mapData, towers) && n <= |towers| && delta >= 0.0
    ensures var r := FireAll(laws, mapData, towers, n, enemies, id, delta);
            && SameTowers(towers[..n], r.towers) && ValidTowers(mapData, r.towers)
            && r.nextObjectId == id + |r.projectiles|
            && ShotsFresh(mapData, enemies, r.projectiles, id)
  {
    if n > 0 {
      FireAllIsGood(laws, mapData, towers, n - 1, enemies, id, delta);
      var fired := FireAll(laws, mapData, towers, n - 1, enemies, id, delta);
      FireOneIsGood(laws, mapData, towers[n - 1], enemies, fired, delta);
      var r := FireOne(laws, mapData, towers[n - 1], enemies, fired, delta);
      hide FireOne, FireAll, ValidTower, TargetAlive, Lawful;
      assert ShotsFresh(mapData, enemies, r.projectiles[|fired.projectiles|..], fired.nextObjectId);
      MoreShots(mapData, enemies, fired.projectiles, r.projectiles, id);
      MoreTowers(mapData, towers, n, fired.towers, r.towers);
    }
  }

  lemma MoreShots(mapData: MapData, enemies: seq<Enemy>, before: seq<Projectile>, after: seq<Projectile>, id: nat)
    requires |before| <= |after| && after[..|before|] == before
    requires ShotsFresh(mapData, enemies, before, id)
    requires ShotsFresh(mapData, enemies, after[|before|..], id + |before|)
    ensures ShotsFresh(mapData, enemies, after, id)
  {
    hide TargetAlive;
    var k := |before|;
    forall i | 0 <= i < |after|
      ensures after[i].id == id + i && after[i].typeIdx < |mapData.projectileTypes| && TargetAlive(enemies, after[i])
    {
      if i < k { assert after[i] == after[..k][i]; } else { assert after[i] == after[k..][i - k]; }
    }
  }

  lemma MoreTowers(mapData: MapData, towers: seq<Tower>, n: nat, before: seq<Tower>, after: seq<Tower>)
    requires 0 < n <= |towers| && |after| == n && |before| == n - 1 && after[..n - 1] == before
    requires SameTowers(towers[..n - 1], before) && ValidTowers(mapData, before)
    requires after[n - 1].id == towers[n - 1].id && after[n - 1].typeIdx == towers[n - 1].typeIdx
    requires ValidTower(mapData, after[n - 1])
    ensures SameTowers(towers[..n], after) && ValidTowers(mapData, after)
  {
    hide ValidTower;
    forall i | 0 <= i < n
      ensures after[i].id == towers[..n][i].id && after[i].typeIdx == towers[..n][i].typeIdx
      ensures ValidTower(mapData, after[i])
    {
      if i < n - 1 { assert after[i] == after[..n - 1][i] && towers[..n - 1][i] == towers[i]; }
    }
  }

  // ---------- Projectiles fly ----------

  lemma {:induction false} DamageAllPays(mapData: MapData, im: Impact, indices: seq<nat>, n: nat, p: Projectile)
    requires ValidMap(mapData)
    requires ValidEnemies(mapData, im.enemies) && p.typeIdx < |mapData.projectileTypes|
    requires n <= |indices| && forall q :: q in indices ==> q < |im.enemies|
    ensures DamageAll(mapData, im, indices, n, p).gold >= im.gold
    ensures DamageAll(mapData, im, indices, n, p).projectiles == im.projectiles
  {
    if n > 0 {
      DamageAllPays(mapData, im, indices, n - 1, p);
      assert indices[n - 1] in indices;
      var e := DamageAll(mapData, im, indices, n - 1, p).enemies[indices[n - 1]];
      assert mapData.enemyTypes[e.typeIdx] in mapData.enemyTypes;
    }
  }

  // A projectile either flies on, keeping its id, or is gone; nobody is charged for it.
  lemma {:induction false} FlyOneKeeps(laws: Laws, mapData: MapData, p: Projectile, im: Impact, delta: real)
    requires ValidMap(mapData)
    requires ValidEnemies(mapData, im.enemies) && p.typeIdx < |mapData.projectileTypes|
    ensures var r := FlyOne(laws, mapData, p, im, delta);
            && r.gold >= im.gold
            && (r.projectiles == im.projectiles
                || (|r.projectiles| == |im.projectiles| + 1 && r.projectiles[..|im.projectiles|] == im.projectiles
                    && r.projectiles[|im.projectiles|].id == p.id
                    && r.projectiles[|im.projectiles|].typeIdx == p.typeIdx))
  {
    if |im.enemies| > p.targetEnemyIndex {
      var position := TargetPosition(im.enemies, p);
      var next := p.(lastEnemyPosition := position, rotation := laws.Facing(p.position, position));
      if TargetAlive(im.enemies, next) {
        assert mapData.enemyTypes[im.enemies[p.targetEnemyIndex].typeIdx] in mapData.enemyTypes;
      }
      var hit := if TargetAlive(im.enemies, next) then Damage(mapData, im, next.targetEnemyIndex, next) else im;
      var radius := mapData.projectileTypes[p.typeIdx].splashRadius;
      var query := Query(hit.enemies, position, radius, |hit.enemies|);
      DamageAllPays(mapData, hit, query, |query|, next);
    }
  }

  lemma {:induction false} FlyAllKeeps(laws: Laws, mapData: MapData, ps: seq<Projectile>, n: nat, im: Impact,
                                       delta: real)
    requires ValidMap(mapData)
    requires ValidEnemies(mapData, im.enemies) && ValidProjectiles(mapData, ps) && n <= |ps|
    requires ProjectilesDistinct(ps) && ProjectilesDistinct(im.projectiles) && ValidProjectiles(mapData, im.projectiles)
    requires ProjectileIds(ps) !! ProjectileIds(im.projectiles)
    ensures var r := FlyAll(laws, mapData, ps, n, im, delta);
            && r.gold >= im.gold
            && ProjectilesDistinct(r.projectiles) && ValidProjectiles(mapData, r.projectiles)
            && ProjectileIds(r.projectiles) <= ProjectileIds(im.projectiles) + ProjectileIds(ps[..n])
  {
    if n > 0 {
      FlyAllKeeps(laws, mapData, ps, n - 1, im, delta);
      var before := FlyAll(laws, mapData, ps, n - 1, im, delta);
      FlyOneKeeps(laws, mapData, ps[n - 1], before, delta);
      var r := FlyOne(laws, mapData, ps[n - 1], before, delta);
      NewId(ps, n);
      assert ps[n - 1].id in ProjectileIds(ps);
      assert ps[n - 1].id !in ProjectileIds(before.projectiles);
      hide FlyOne, FlyAll;
      Appended(before.projectiles, r.projectiles, ps[n - 1].id);
    }
  }

  lemma NewId(ps: seq<Projectile>, n: nat)
    requires 0 < n <= |ps| && ProjectilesDistinct(ps)
    ensures ProjectileIds(ps[..n]) == ProjectileIds(ps[..n - 1]) + {ps[n - 1].id}
    ensures ps[n - 1].id !in ProjectileIds(ps[..n - 1])
  {
    forall id
      ensures id in ProjectileIds(ps[..n]) <==> id in ProjectileIds(ps[..n - 1]) + {ps[n - 1].id}
    {
      if id in ProjectileIds(ps[..n - 1]) {
        var i: nat :| i < n - 1 && ps[..n - 1][i].id == id;
        assert ps[..n][i].id == id;
      }
      assert ps[..n][n - 1].id == ps[n - 1].id;
      if id in ProjectileIds(ps[..n]) {
        var i: nat :| i < n && ps[..n][i].id == id;
        if i < n - 1 { assert ps[..n - 1][i].id == id; }
      }
    }
  }

  lemma Appended(before: seq<Projectile>, after: seq<Projectile>, id: nat)
    requires ProjectilesDistinct(before) && id !in ProjectileIds(before)
    requires after == before || (|after| == |before| + 1 && after[..|before|] == before && after[|before|].id == id)
    ensures ProjectilesDistinct(after) && ProjectileIds(after) <= ProjectileIds(before) + {id}
  {
    forall i: nat | i < |after|
      ensures i < |before| ==> after[i] == before[i] && before[i].id in ProjectileIds(before)
    {
      if i < |before| { assert after[..|before|][i] == before[i] || after == before; }
    }
  }

  // ---------- A whole step ----------

  // Every id of the later state is one of the earlier state's or new.
  predicate IdsCarried(before: State, after: State) {
    && before.nextObjectId <= after.nextObjectId
    && (forall id :: id in EnemyIds(after.enemies) ==> id in EnemyIds(before.enemies) || id >= before.nextObjectId)
    && (forall id :: id in TowerIds(after.towers) ==> id in TowerIds(before.towers) || id >= before.nextObjectId)
  }

  lemma SameEnemyIds(before: seq<Enemy>, after: seq<Enemy>)
    requires OnlyHurt(before, after)
    ensures EnemyIds(after) == EnemyIds(before)
    ensures EnemiesInOrder(before) ==> EnemiesInOrder(after)
  {
    assert forall i :: 0 <= i < |before| ==> after[i].id == before[i].id;
  }

  lemma SameTowerIds(before: seq<Tower>, after: seq<Tower>)
    requires SameTowers(before, after)
    ensures TowerIds(after) == TowerIds(before)
    ensures TowersInOrder(before) ==> TowersInOrder(after)
  {
    assert forall i :: 0 <= i < |before| ==> after[i].id == before[i].id;
  }

  lemma ShotIds(mapData: MapData, enemies: seq<Enemy>, ps: seq<Projectile>, id: nat)
    requires ShotsFresh(mapData, enemies, ps, id)
    ensures ProjectilesDistinct(ps) && ValidProjectiles(mapData, ps)
    ensures forall x :: x in ProjectileIds(ps) ==> id <= x < id + |ps|
  {
  }

  // Enemies and towers keep their ids or disappear; projectiles are old ones and new shots.
  predicate Carries(mapData: MapData, s: State, r: State) {
    && ValidState(mapData, r)
    && EnemiesInOrder(r.enemies) && TowersInOrder(r.towers) && ProjectilesDistinct(r.projectiles)
    && EnemyIds(r.enemies) <= EnemyIds(s.enemies)
    && TowerIds(r.towers) == TowerIds(s.towers)
    && s.nextObjectId <= r.nextObjectId
    && (forall x :: x in ProjectileIds(r.projectiles) ==>
          x in ProjectileIds(s.projectiles) || s.nextObjectId <= x < r.nextObjectId)
    && r.gold >= s.gold
  }

  lemma CarriesKeeps(mapData: MapData, s: State, r: State)
    requires Inv(mapData, s) && Carries(mapData, s, r)
    ensures Inv(mapData, r) && IdsCarried(s, r)
  {
    hide EnemyIds, TowerIds, ProjectileIds, EnemiesInOrder, TowersInOrder, ProjectilesDistinct, ValidState;
  }

  lemma FlightCarries(laws: Laws, mapData: MapData, s: State, fired: Fired, enemies: seq<Enemy>, delta: real)
    requires ValidMap(mapData) && Inv(mapData, s) && ValidEnemies(mapData, enemies) && EnemiesInOrder(enemies)
    requires ProjectilesDistinct(fired.projectiles) && ValidProjectiles(mapData, fired.projectiles)
    requires forall x :: x in ProjectileIds(fired.projectiles) ==> s.nextObjectId <= x < fired.nextObjectId
    ensures var im := Impact(enemies, fired.projectiles, s.gold, fired.events);
            var r := FlyAll(laws, mapData, s.projectiles, |s.projectiles|, im, delta);
            && EnemyIds(r.enemies) == EnemyIds(enemies) && EnemiesInOrder(r.enemies) && ValidEnemies(mapData, r.enemies)
            && ProjectilesDistinct(r.projectiles) && ValidProjectiles(mapData, r.projectiles)
            && (forall x :: x in ProjectileIds(r.projectiles) ==>
                  x in ProjectileIds(s.projectiles) || s.nextObjectId <= x < fired.nextObjectId)
            && r.gold >= s.gold
  {
    var im := Impact(enemies, fired.projectiles, s.gold, fired.events);
    hide ProjectileIds, EnemyIds;
    FlyAllKeeps(laws, mapData, s.projectiles, |s.projectiles|, im, delta);
    assert s.projectiles[..|s.projectiles|] == s.projectiles;
    var r := FlyAll(laws, mapData, s.projectiles, |s.projectiles|, im, delta);
    SameEnemyIds(enemies, r.enemies);
    hide FlyAll, OnlyHurt, EnemiesInOrder, ProjectilesDistinct, ValidEnemies, ValidProjectiles, ValidMap;
  }

  lemma BeforeCommandsKeeps(laws: Laws, mapData: MapData, s: State, delta: real)
    requires Lawful(laws) && ValidMap(mapData) && Inv(mapData, s) && delta >= 0.0
    ensures Inv(mapData, BeforeCommands(laws, mapData, s, delta).0)
    ensures IdsCarried(s, BeforeCommands(laws, mapData, s, delta).0)
  {
    hide MoveAll, FireAll, FlyAll, EnemyIds, TowerIds, ProjectileIds, SameTowers, ShotsFresh,
         EnemiesInOrder, TowersInOrder, ProjectilesDistinct, ValidEnemies, ValidTowers, ValidProjectiles, Lawful,
         ValidMap, IdsSeparate, IdsUsed;
    var enemies := MoveAll(laws, mapData, s.enemies, |s.enemies|, delta);
    MovedAreValid(laws, mapData, s.enemies, |s.enemies|, delta);
    MovedIds(laws, mapData, s.enemies, |s.enemies|, delta);
    assert s.enemies[..|s.enemies|] == s.enemies;
    var fired := FireAll(laws, mapData, s.towers, |s.towers|, enemies, s.nextObjectId, delta);
    FireAllIsGood(laws, mapData, s.towers, |s.towers|, enemies, s.nextObjectId, delta);
    assert s.towers[..|s.towers|] == s.towers;
    SameTowerIds(s.towers, fired.towers);
    ShotIds(mapData, enemies, fired.projectiles, s.nextObjectId);
    FlightCarries(laws, mapData, s, fired, enemies, delta);
    CarriesKeeps(mapData, s, BeforeCommands(laws, mapData, s, delta).0);
  }

  lemma NewEnemy(es: seq<Enemy>, e: Enemy)
    requires EnemiesInOrder(es) && Below(EnemyIds(es), e.id)
    ensures EnemiesInOrder(es + [e]) && EnemyIds(es + [e]) == EnemyIds(es) + {e.id}
  {
    forall i | 0 <= i < |es|
      ensures es[i].id in EnemyIds(es)
    {
    }
    forall id
      ensures id in EnemyIds(es + [e]) <==> id in EnemyIds(es) + {e.id}
    {
      if id in EnemyIds(es) { var i: nat :| i < |es| && es[i].id == id; assert (es + [e])[i].id == id; }
      assert (es + [e])[|es|].id == e.id;
    }
  }

  lemma NewTower(ts: seq<Tower>, t: Tower)
    requires TowersInOrder(ts) && Below(TowerIds(ts), t.id)
    ensures TowersInOrder(ts + [t]) && TowerIds(ts + [t]) == TowerIds(ts) + {t.id}
  {
    forall i | 0 <= i < |ts|
      ensures ts[i].id in TowerIds(ts)
    {
    }
    forall id
      ensures id in TowerIds(ts + [t]) <==> id in TowerIds(ts) + {t.id}
    {
      if id in TowerIds(ts) { var i: nat :| i < |ts| && ts[i].id == id; assert (ts + [t])[i].id == id; }
      assert (ts + [t])[|ts|].id == t.id;
    }
  }

  lemma ExecuteKeeps(laws: Laws, mapData: MapData, c: Command, s: State)
    requires ValidMap(mapData) && ValidCommand(mapData, c) && Inv(mapData, s)
    ensures Inv(mapData, Execute(laws, mapData, c, s)) && IdsCarried(s, Execute(laws, mapData, c, s))
  {
    match c
    case SpawnEnemy(t) =>
      var e := Spawned(laws, mapData, t, s.nextObjectId, s.randomEngine);
      assert mapData.enemyTypes[t] in mapData.enemyTypes;
      assert ValidEnemy(mapData, e);
      NewEnemy(s.enemies, e);
    case DespawnAllEnemies =>
    case AddGold(_) =>
    case BuildTower(t, position) =>
      var tower := Tower(s.nextObjectId, t, position, 0.0, 0.0);
      assert mapData.towerTypes[t] in mapData.towerTypes;
      assert ValidTower(mapData, tower);
      NewTower(s.towers, tower);
  }

  lemma {:induction false} ExecuteAllKeeps(laws: Laws, mapData: MapData, cs: seq<Command>, n: nat, s: State)
    requires ValidMap(mapData) && ValidCommands(mapData, cs) && n <= |cs| && Inv(mapData, s)
    ensures Inv(mapData, ExecuteAll(laws, mapData, cs, n, s)) && IdsCarried(s, ExecuteAll(laws, mapData, cs, n, s))
  {
    if n > 0 {
      ExecuteAllKeeps(laws, mapData, cs, n - 1, s);
      ExecuteKeeps(laws, mapData, cs[n - 1], ExecuteAll(laws, mapData, cs, n - 1, s));
      hide Inv, Execute;
    }
  }

  // Main result: a step with valid commands keeps the invariant.
  lemma StepKeepsInv(laws: Laws, mapData: MapData, s: State, cs: seq<Command>, delta: real)
    requires Lawful(laws) && ValidMap(mapData) && Inv(mapData, s) && ValidCommands(mapData, cs) && delta >= 0.0
    ensures Inv(mapData, Step(laws, mapData, s, cs, delta))
    ensures IdsCarried(s, Step(laws, mapData, s, cs, delta))
  {
    BeforeCommandsKeeps(laws, mapData, s, delta);
    ExecuteAllKeeps(laws, mapData, cs, |cs|, BeforeCommands(laws, mapData, s, delta).0);
    hide Inv, BeforeCommands, ExecuteAll;
  }

  // ---------- Whom a shot can hurt ----------

  lemma {:induction false} DamageAllHurts(mapData: MapData, im: Impact, indices: seq<nat>, n: nat, p: Projectile,
                                          j: nat)
    requires ValidEnemies(mapData, im.enemies) && p.typeIdx < |mapData.projectileTypes|
    requires n <= |indices| && forall q :: q in indices ==> q < |im.enemies|
    requires j < |im.enemies| && j !in indices
    ensures DamageAll(mapData, im, indices, n, p).enemies[j] == im.enemies[j]
  {
    if n > 0 {
      DamageAllHurts(mapData, im, indices, n - 1, p, j);
      assert indices[n - 1] in indices;
    }
  }

  // An enemy that an arriving projectile changes is its living target, by id, or a living enemy
  // within the splash radius of the point of impact.
  lemma WhoIsHurt(laws: Laws, mapData: MapData, p: Projectile, im: Impact, delta: real, j: nat)
    requires ValidEnemies(mapData, im.enemies) && p.typeIdx < |mapData.projectileTypes| && j < |im.enemies|
    requires FlyOne(laws, mapData, p, im, delta).enemies[j] != im.enemies[j]
    ensures var radius := mapData.projectileTypes[p.typeIdx].splashRadius;
            || (j == p.targetEnemyIndex && im.enemies[j].id == p.targetEnemyId)
            || (!IsNearlyZero(radius) && InRadius(im.enemies[j], TargetPosition(im.enemies, p), radius))
  {
    var position := TargetPosition(im.enemies, p);
    var next := p.(lastEnemyPosition := position, rotation := laws.Facing(p.position, position));
    var hit := if TargetAlive(im.enemies, next) then Damage(mapData, im, next.targetEnemyIndex, next) else im;
    var radius := mapData.projectileTypes[p.typeIdx].splashRadius;
    var query := Query(hit.enemies, position, radius, |hit.enemies|);
    if hit.enemies[j] == im.enemies[j] && j !in query {
      DamageAllHurts(mapData, hit, query, |query|, next, j);
    }
  }

  // A projectile without splash that arrives takes its damage from its target and from nothing else;
  // if the target is gone it hurts nobody.
  lemma DirectHit(laws: Laws, mapData: MapData, p: Projectile, im: Impact, delta: real)
    requires ValidEnemies(mapData, im.enemies) && p.typeIdx < |mapData.projectileTypes|
    requires IsNearlyZero(mapData.projectileTypes[p.typeIdx].splashRadius)
    ensures var kind, r := mapData.projectileTypes[p.typeIdx], FlyOne(laws, mapData, p, im, delta);
            var arrives := |im.enemies| > p.targetEnemyIndex
                           && laws.Distance(p.position, TargetPosition(im.enemies, p)) <= kind.speed * delta;
            if arrives && TargetAlive(im.enemies, p)
            then
              var e := im.enemies[p.targetEnemyIndex];
              && var hurt := e.(remainingHealth := Hurt(e.remainingHealth, kind.damage));
              && r.enemies == im.enemies[p.targetEnemyIndex := hurt]
              && (e.remainingHealth <= kind.damage <==> EnemyDied(p.targetEnemyIndex) in r.events[|im.events|..])
              && r.gold - im.gold
              == if e.remainingHealth <= kind.damage then mapData.enemyTypes[e.typeIdx].goldReward else 0.0
            else r.enemies == im.enemies && r.gold == im.gold && r.events == im.events
  {
    var r := FlyOne(laws, mapData, p, im, delta);
    if r.enemies != im.enemies || r.events != im.events {
      var e := im.enemies[p.targetEnemyIndex];
      var died := e.remainingHealth <= mapData.projectileTypes[p.typeIdx].damage;
      assert r.events[|im.events|..] == [ProjectileHit(e.position, p.targetEnemyIndex, p.typeIdx)]
                                        + if died then [EnemyDied(p.targetEnemyIndex)] else [];
    }
  }

  predicate Rising(indices: seq<nat>) {
    forall i, j :: 0 <= i < j < |indices| ==> indices[i] < indices[j]
  }

  lemma {:induction false} QueryRises(enemies: seq<Enemy>, position: Vec2, radius: real, n: nat)
    requires n <= |enemies|
    ensures Rising(Query(enemies, position, radius, n))
  {
    if n > 0 {
      QueryRises(enemies, position, radius, n - 1);
      var before := Query(enemies, position, radius, n - 1);
      forall i | 0 <= i < |before|
        ensures before[i] < n - 1
      {
        assert before[i] in before;
      }
    }
  }

  // Indices without repetition damage each of their enemies once.
  lemma {:induction false} DamageAllOnce(mapData: MapData, im: Impact, indices: seq<nat>, n: nat, p: Projectile, k: nat)
    requires ValidEnemies(mapData, im.enemies) && p.typeIdx < |mapData.projectileTypes|
    requires n <= |indices| && (forall q :: q in indices ==> q < |im.enemies|) && Rising(indices)
    requires k < |indices| && indices[k] < |im.enemies|
    ensures var e, damage := im.enemies[indices[k]], mapData.projectileTypes[p.typeIdx].damage;
            DamageAll(mapData, im, indices, n, p).enemies[indices[k]]
            == if k < n then e.(remainingHealth := Hurt(e.remainingHealth, damage)) else e
  {
    assert indices[k] in indices;
    if n > 0 {
      assert indices[n - 1] in indices;
      DamageAllOnce(mapData, im, indices, n - 1, p, k);
    }
  }

  // What an arrival leaves of the health of any enemy: the target with the right id takes the damage
  // first, and then everyone who is still alive in the splash radius takes it once.
  lemma SplashHit(mapData: MapData, p: Projectile, position: Vec2, im: Impact, j: nat)
    requires ValidEnemies(mapData, im.enemies) && p.typeIdx < |mapData.projectileTypes| && j < |im.enemies|
    ensures var kind, e := mapData.projectileTypes[p.typeIdx], im.enemies[j];
            var direct := if TargetAlive(im.enemies, p) && j == p.targetEnemyIndex
                          then e.(remainingHealth := Hurt(e.remainingHealth, kind.damage)) else e;
            Explode(mapData, p, position, im).enemies[j]
            == if !IsNearlyZero(kind.splashRadius) && InRadius(direct, position, kind.splashRadius)
               then direct.(remainingHealth := Hurt(direct.remainingHealth, kind.damage)) else direct
  {
    var hit := if TargetAlive(im.enemies, p) then Damage(mapData, im, p.targetEnemyIndex, p) else im;
    var radius := mapData.projectileTypes[p.typeIdx].splashRadius;
    if !IsNearlyZero(radius) {
      var query := Query(hit.enemies, position, radius, |hit.enemies|);
      QueryRises(hit.enemies, position, radius, |hit.enemies|);
      if j in query {
        var k :| 0 <= k < |query| && query[k] == j;
        DamageAllOnce(mapData, hit, query, |query|, p, k);
      } else {
        DamageAllHurts(mapData, hit, query, |query|, p, j);
      }
    }
  }

  // ---------- Who leaves ----------

  // The first part of the step removes exactly the enemies that are dead or at the goal.
  lemma {:induction false} OnlyTheGoneLeave(laws: Laws, mapData: MapData, es: seq<Enemy>, n: nat, delta: real, i: nat)
    requires ValidMap(mapData) && ValidEnemies(mapData, es) && n <= |es| && EnemiesInOrder(es) && i < n
    ensures es[i].id in EnemyIds(MoveAll(laws, mapData, es, n, delta)) <==> !IsGone(mapData, es[i])
  {
    var before, r := MoveAll(laws, mapData, es, n - 1, delta), MoveAll(laws, mapData, es, n, delta);
    MovedIds(laws, mapData, es, n - 1, delta);
    assert EnemyIds(r) == EnemyIds(before) + (if IsGone(mapData, es[n - 1]) then {} else {es[n - 1].id}) by {
      MovedMore(laws, mapData, es, n, delta);
    }
    if i < n - 1 {
      OnlyTheGoneLeave(laws, mapData, es, n - 1, delta, i);
    } else {
      assert es[i].id !in EnemyIds(es[..n - 1]);
    }
  }

  lemma MovedMore(laws: Laws, mapData: MapData, es: seq<Enemy>, n: nat, delta: real)
    requires ValidMap(mapData) && ValidEnemies(mapData, es) && 0 < n <= |es|
    ensures EnemyIds(MoveAll(laws, mapData, es, n, delta))
         == EnemyIds(MoveAll(laws, mapData, es, n - 1, delta))
            + if IsGone(mapData, es[n - 1]) then {} else {es[n - 1].id}
  {
    var before, r := MoveAll(laws, mapData, es, n - 1, delta), MoveAll(laws, mapData, es, n, delta);
    if IsGone(mapData, es[n - 1]) {
      assert r == before;
    } else {
      var e := Moved(laws, mapData, es, n - 1, delta);
      hide MoveAll, Moved, IsGone;
      forall id
        ensures id in EnemyIds(r) <==> id in EnemyIds(before) + {e.id}
      {
        if id in EnemyIds(before) { var k: nat :| k < |before| && before[k].id == id; assert r[k].id == id; }
        assert r[|before|].id == e.id;
      }
    }
  }
}
