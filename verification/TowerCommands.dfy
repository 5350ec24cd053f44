/**
 What each player command does to a state, and a batch of them to a step: stated on the states
 before and after alone.
 */
module TowerCommands {
  import opened TowerRules
  import opened TowerProperties

  // One more at the end.
  predicate Gains<T(==)>(before: seq<T>, after: seq<T>) {
    |after| == |before| + 1 && after[..|before|] == before
  }

  // A new enemy starts at the first waypoint, shifted, in full health and heading for the second.
  predicate Fresh(laws: Laws, mapData: MapData, t: nat, s: State, e: Enemy)
    requires ValidMap(mapData) && t < |mapData.enemyTypes|
  {
    && e.id == s.nextObjectId && e.typeIdx == t
    && e.remainingHealth == mapData.enemyTypes[t].maxHealth && e.nextWaypointIdx == 1
    && e.position.x - mapData.waypoints[0].x == laws.shift(s.randomEngine).x
    && e.position.y - mapData.waypoints[0].y == laws.shift(s.randomEngine).y
    && e.velocity == Vec2(0.0, 0.0) && e.rotation == 0.0 && e.distanceToGoal == 0.0
  }

  predicate SameButEnemies(s: State, s': State) {
    && s'.towers == s.towers && s'.projectiles == s.projectiles && s'.gold == s.gold && s'.lives == s.lives
  }

  // The effect of one command.
  predicate Effect(laws: Laws, mapData: MapData, c: Command, s: State, s': State)
    requires ValidMap(mapData) && ValidCommand(mapData, c)
  {
    match c
    case SpawnEnemy(t) =>
      && SameButEnemies(s, s') && s'.nextObjectId == s.nextObjectId + 1
      && s'.randomEngine == laws.engineAfter(s.randomEngine)
      && Gains(s.enemies, s'.enemies) && Fresh(laws, mapData, t, s, s'.enemies[|s.enemies|])
    case DespawnAllEnemies =>
      && SameButEnemies(s, s') && s'.nextObjectId == s.nextObjectId && s'.randomEngine == s.randomEngine
      && s'.enemies == []
    case AddGold(amount) => s'.gold - s.gold == amount && s'.(gold := s.gold) == s
    case BuildTower(t, position) =>
      if s.gold >= mapData.towerTypes[t].cost then
        && s.gold - s'.gold == mapData.towerTypes[t].cost
        && Gains(s.towers, s'.towers)
        && s'.towers[|s.towers|] == Tower(s.nextObjectId, t, position, 0.0, 0.0)
        && s'.nextObjectId == s.nextObjectId + 1
        && s'.(gold := s.gold, towers := s.towers, nextObjectId := s.nextObjectId) == s
      else s' == s
  }

  lemma CommandHasEffect(laws: Laws, mapData: MapData, c: Command, s: State)
    requires ValidMap(mapData) && ValidCommand(mapData, c)
    ensures Effect(laws, mapData, c, s, Execute(laws, mapData, c, s))
  {
  }

  lemma {:induction false} BatchHasEffects(laws: Laws, mapData: MapData, cs: seq<Command>, n: nat, s: State)
    returns (states: seq<State>)
    requires ValidMap(mapData) && ValidCommands(mapData, cs) && n <= |cs|
    ensures |states| == n + 1 && states[0] == s && states[n] == ExecuteAll(laws, mapData, cs, n, s)
    ensures forall k :: 0 <= k < n ==> Effect(laws, mapData, cs[k], states[k], states[k + 1])
  {
    if n == 0 {
      states := [s];
    } else {
      var before := BatchHasEffects(laws, mapData, cs, n - 1, s);
      CommandHasEffect(laws, mapData, cs[n - 1], before[n - 1]);
      states := before + [ExecuteAll(laws, mapData, cs, n, s)];
      hide Effect, Execute;
    }
  }

  // Main result: the commands of a step take effect one after another on what the step has made of
  // enemies, towers and projectiles.
  lemma StepHasEffects(laws: Laws, mapData: MapData, s: State, cs: seq<Command>, delta: real)
    returns (states: seq<State>)
    requires Lawful(laws) && ValidMap(mapData) && ValidState(mapData, s) && ValidCommands(mapData, cs)
    ensures |states| == |cs| + 1 && states[0] == BeforeCommands(laws, mapData, s, delta).0
    ensures states[|cs|] == Step(laws, mapData, s, cs, delta)
    ensures forall k :: 0 <= k < |cs| ==> Effect(laws, mapData, cs[k], states[k], states[k + 1])
  {
    hide Effect, BeforeCommands, ExecuteAll;
    states := BatchHasEffects(laws, mapData, cs, |cs|, BeforeCommands(laws, mapData, s, delta).0);
  }

  // ---------- The purse ----------

  // What has been paid in and out by the first n commands, starting with some gold: every AddGold
  // counts, and every tower that could be afforded at its turn.
  function GoldAfter(mapData: MapData, cs: seq<Command>, n: nat, gold: real): real
    requires ValidCommands(mapData, cs) && n <= |cs|
  {
    if n == 0 then gold
    else
      var before := GoldAfter(mapData, cs, n - 1, gold);
      match cs[n - 1]
      case AddGold(amount) => before + amount
      case BuildTower(t, _) =>
        assert ValidCommand(mapData, cs[n - 1]);
        if mapData.towerTypes[t].cost <= before then before - mapData.towerTypes[t].cost else before
      case _ => before
  }

  // The towers that are built, by type and place.
  function Built(mapData: MapData, cs: seq<Command>, n: nat, gold: real): seq<(nat, Vec2)>
    requires ValidCommands(mapData, cs) && n <= |cs|
  {
    if n == 0 then []
    else
      var before := Built(mapData, cs, n - 1, gold);
      match cs[n - 1]
      case BuildTower(t, position) =>
        assert ValidCommand(mapData, cs[n - 1]);
        if mapData.towerTypes[t].cost <= GoldAfter(mapData, cs, n - 1, gold) then before + [(t, position)] else before
      case _ => before
  }

  // Those towers stand at the end of the list, in order, each of its type and at its place.
  predicate Stands(before: seq<Tower>, after: seq<Tower>, built: seq<(nat, Vec2)>) {
    && |after| == |before| + |built| && after[..|before|] == before
    && forall i :: 0 <= i < |built| ==>
         var tower := after[|before| + i];
         && tower.typeIdx == built[i].0 && tower.position == built[i].1
         && tower.rotation == 0.0 && tower.timeSinceLastShot == 0.0
  }

  lemma OneMoreStands(first: seq<Tower>, before: seq<Tower>, after: seq<Tower>, built: seq<(nat, Vec2)>,
                      t: nat, at: Vec2)
    requires Stands(first, before, built) && Gains(before, after)
    requires var tower := after[|before|];
             tower.typeIdx == t && tower.position == at && tower.rotation == 0.0 && tower.timeSinceLastShot == 0.0
    ensures Stands(first, after, built + [(t, at)])
  {
    assert after[..|first|] == before[..|first|];
    assert forall i :: 0 <= i < |before| ==> after[i] == before[i];
  }

  lemma {:induction false} BatchPays(laws: Laws, mapData: MapData, cs: seq<Command>, n: nat, s: State)
    requires ValidMap(mapData) && ValidCommands(mapData, cs) && n <= |cs|
    ensures var s' := ExecuteAll(laws, mapData, cs, n, s);
            && s'.gold == GoldAfter(mapData, cs, n, s.gold) && s'.lives == s.lives
            && Stands(s.towers, s'.towers, Built(mapData, cs, n, s.gold))
  {
    if n > 0 {
      BatchPays(laws, mapData, cs, n - 1, s);
      var before := ExecuteAll(laws, mapData, cs, n - 1, s);
      CommandHasEffect(laws, mapData, cs[n - 1], before);
      hide Execute, Fresh, Stands;
      match cs[n - 1] {
        case BuildTower(t, position) =>
          if before.gold >= mapData.towerTypes[t].cost {
            var built := Built(mapData, cs, n - 1, s.gold);
            OneMoreStands(s.towers, before.towers, ExecuteAll(laws, mapData, cs, n, s).towers, built, t, position);
          }
        case _ =>
      }
    }
  }

  // Main result: after a step the purse holds what the shots of the step have earned, plus what was
  // added, less the cost of exactly the towers that stand anew.
  lemma StepPays(laws: Laws, mapData: MapData, s: State, cs: seq<Command>, delta: real)
    requires Lawful(laws) && ValidMap(mapData) && ValidState(mapData, s) && ValidCommands(mapData, cs)
    ensures var mid, s' := BeforeCommands(laws, mapData, s, delta).0, Step(laws, mapData, s, cs, delta);
            && s'.gold == GoldAfter(mapData, cs, |cs|, mid.gold) && s'.lives == s.lives
            && Stands(mid.towers, s'.towers, Built(mapData, cs, |cs|, mid.gold))
  {
    hide ExecuteAll, GoldAfter, Built, Stands, MoveAll, FireAll, FlyAll;
    BatchPays(laws, mapData, cs, |cs|, BeforeCommands(laws, mapData, s, delta).0);
  }
}
